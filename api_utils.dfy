/**
 * `get_clear_name`: the name a game or franchise is ordered by, with one
 * leading English article removed.
 */
module ApiUtils {

  /** `get_clear_name(name)`: drops a leading "A ", "An " or "The " (tested in
      that order, case-sensitively), at most once. */
  function ClearName(name: string): (clear: string)
    ensures |clear| <= |name| && clear == name[|name| - |clear|..]
    ensures "A " <= name ==> clear == name[2..]
    ensures "An " <= name ==> clear == name[3..]
    ensures "The " <= name ==> clear == name[4..]
    ensures !("A " <= name || "An " <= name || "The " <= name) ==> clear == name
  {
    if "A " <= name then
      assert name[1] == ' ' && name[0] == 'A';
      name[2..]
    else if "An " <= name then name[3..]
    else if "The " <= name then name[4..]
    else name
  }

  /** The result is shorter than the name exactly when the name starts with an article. */
  lemma ClearNameShortens(name: string)
    ensures |ClearName(name)| < |name| <==> "A " <= name || "An " <= name || "The " <= name
  {
  }

  /** `p` is not a prefix of `s` when they differ at position `i`. */
  lemma DiffersAt(p: string, s: string, i: nat)
    requires i < |p| && (i >= |s| || p[i] != s[i])
    ensures !(p <= s)
  {
  }

  /** Only one article is removed, so the function is not idempotent. */
  lemma ClearNameNotIdempotent()
    ensures ClearName("The A X") == "A X"
    ensures ClearName(ClearName("The A X")) == "X"
  {
    DiffersAt("A ", "The A X", 0);
    DiffersAt("An ", "The A X", 0);
    assert "The " <= "The A X";
    assert "The A X"[4..] == "A X";
    assert "A " <= "A X";
  }

  /** Matching is case-sensitive: a lower-case or capitalised article stays. */
  lemma ClearNameCaseSensitive()
    ensures ClearName("the X") == "the X"
    ensures ClearName("AN X") == "AN X"
  {
    DiffersAt("A ", "the X", 0);
    DiffersAt("An ", "the X", 0);
    DiffersAt("The ", "the X", 0);
    DiffersAt("A ", "AN X", 1);
    DiffersAt("An ", "AN X", 1);
    DiffersAt("The ", "AN X", 0);
  }

  /** A first word that only begins like an article is kept. */
  lemma ClearNameKeepsWordsStartingLikeArticles()
    ensures ClearName("Anthem") == "Anthem"
    ensures ClearName("Theme Park") == "Theme Park"
  {
    DiffersAt("A ", "Anthem", 1);
    DiffersAt("An ", "Anthem", 2);
    DiffersAt("The ", "Anthem", 0);
    DiffersAt("A ", "Theme Park", 0);
    DiffersAt("An ", "Theme Park", 0);
    DiffersAt("The ", "Theme Park", 3);
  }
}

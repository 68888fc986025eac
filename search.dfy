/**
 * The game-list search box: on every input, each game is shown or hidden by
 * whether one of its highlighted texts contains the search text, ignoring
 * case, and each highlighted text is coloured by whether it matched. Page
 * elements are values carrying their CSS classes; the handler returns the
 * elements with their new classes.
 */
module SearchField {
  import Text

  /** A `.highlight` element: its text and its CSS classes. */
  datatype Highlight = Highlight(text: string, classes: set<string>)

  /** A `.game` element: its CSS classes and its `.highlight` descendants in
      document order. */
  datatype GameEntry = GameEntry(classes: set<string>, highlights: seq<Highlight>)

  /** `classList.remove(off); classList.add(on)`. */
  function Switch(classes: set<string>, off: string, on: string): (r: set<string>)
    ensures on in r && (off != on ==> off !in r)
    ensures r - {off, on} == classes - {off, on}
  {
    classes - {off} + {on}
  }

  /** `text.toLowerCase().indexOf(search.toLowerCase()) >= 0`: the text
      contains the search, ignoring the case of ASCII letters. */
  function Matches(text: string, search: string): (m: bool)
    ensures m ==> exists k :: Text.OccursAt(Text.ToLower(text), Text.ToLower(search), k)
    ensures (exists k :: Text.OccursAt(Text.ToLower(text), Text.ToLower(search), k)) ==> m
    ensures |search| == 0 ==> m
    ensures m ==> |search| <= |text|
  {
    var hay, needle := Text.ToLower(text), Text.ToLower(search);
    var i := Text.IndexOf(hay, needle);
    assert |search| == 0 ==> Text.OccursAt(hay, needle, 0);
    assert i >= 0 ==> Text.OccursAt(hay, needle, i);
    assert i < 0 ==> i == -1 && forall k :: !Text.OccursAt(hay, needle, k);
    i >= 0
  }

  /** A highlight is lit when the search is non-empty and its text matches. */
  predicate Lit(h: Highlight, search: string) {
    |search| > 0 && Matches(h.text, search)
  }

  /** A highlight that makes its game shown: any highlight for an empty
      search, a lit one otherwise. */
  predicate Reveals(h: Highlight, search: string) {
    |search| == 0 || Lit(h, search)
  }

  /** Whether the handler shows a game: some highlight matched, or the search
      is empty and the game has a highlight at all. */
  predicate Shown(g: GameEntry, search: string) {
    AnyReveals(g.highlights, search)
  }

  predicate AnyReveals(hs: seq<Highlight>, search: string) {
    exists j :: 0 <= j < |hs| && Reveals(hs[j], search)
  }

  /** `after` is `before` recoloured for `search`: `text-warning` when lit,
      `text-white` otherwise, the text and all other classes kept. */
  predicate Coloured(before: Highlight, after: Highlight, search: string) {
    after.text == before.text
    && ("text-warning" in after.classes <==> Lit(before, search))
    && ("text-white" in after.classes <==> !Lit(before, search))
    && after.classes - {"text-warning", "text-white"} == before.classes - {"text-warning", "text-white"}
  }

  /** The callback the inner `forEach` runs on one highlight: recolours it
      and reports whether it sets the game's `show` flag. */
  method ColourHighlight(h: Highlight, search: string) returns (after: Highlight, setsShow: bool)
    ensures Coloured(h, after, search)
    ensures setsShow == Reveals(h, search)
  {
    var index := Text.IndexOf(Text.ToLower(h.text), Text.ToLower(search));
    var classes;
    if |search| > 0 {
      if index >= 0 {
        setsShow := true;
        classes := Switch(h.classes, "text-white", "text-warning");
      } else {
        setsShow := false;
        classes := Switch(h.classes, "text-warning", "text-white");
      }
    } else {
      setsShow := true;
      classes := Switch(h.classes, "text-warning", "text-white");
    }
    after := h.(classes := classes);
  }

  /** The inner `forEach` over one game's highlights: recolours each one and
      reports whether the game is to be shown. */
  method ColourHighlights(hs: seq<Highlight>, search: string) returns (out: seq<Highlight>, show: bool)
    ensures |out| == |hs|
    ensures show <==> AnyReveals(hs, search)
    ensures forall j :: 0 <= j < |hs| ==> Coloured(hs[j], out[j], search)
  {
    out := [];
    show := false;
    for j := 0 to |hs|
      invariant |out| == j
      invariant show == AnyReveals(hs[..j], search)
      invariant AllColoured(hs, out, search)
    {
      var after, setsShow := ColourHighlight(hs[j], search);
      if setsShow {
        show := true;
      }
      AnyRevealsGrows(hs, j, search);
      AllColouredPush(hs, out, after, search);
      out := out + [after];
    }
    assert hs[..|hs|] == hs;
  }

  /** `out` holds the first `|out|` highlights of `hs` recoloured. */
  predicate AllColoured(hs: seq<Highlight>, out: seq<Highlight>, search: string)
    requires |out| <= |hs|
  {
    forall k :: 0 <= k < |out| ==> Coloured(hs[k], out[k], search)
  }

  lemma AllColouredPush(hs: seq<Highlight>, out: seq<Highlight>, after: Highlight, search: string)
    requires |out| < |hs| && AllColoured(hs, out, search) && Coloured(hs[|out|], after, search)
    ensures AllColoured(hs, out + [after], search)
  {
    forall k | 0 <= k < |out| + 1 ensures Coloured(hs[k], (out + [after])[k], search) {
      if k < |out| {
        assert (out + [after])[k] == out[k];
      }
    }
  }

  lemma AnyRevealsGrows(hs: seq<Highlight>, j: int, search: string)
    requires 0 <= j < |hs|
    ensures AnyReveals(hs[..j + 1], search) == (AnyReveals(hs[..j], search) || Reveals(hs[j], search))
  {
    var prefix, longer := hs[..j], hs[..j + 1];
    assert longer[j] == hs[j];
    assert forall k :: 0 <= k < j ==> longer[k] == prefix[k];
  }

  /** The `input` handler over all `.game` elements: each game gets exactly
      one of `d-flex` (shown) and `d-none` (hidden), its other classes and
      its texts unchanged. */
  method OnInput(search: string, games: seq<GameEntry>) returns (result: seq<GameEntry>)
    ensures |result| == |games|
    ensures forall i :: 0 <= i < |games| ==>
              ("d-flex" in result[i].classes <==> Shown(games[i], search))
              && ("d-none" in result[i].classes <==> !Shown(games[i], search))
              && result[i].classes - {"d-flex", "d-none"} == games[i].classes - {"d-flex", "d-none"}
    ensures forall i :: 0 <= i < |games| ==> |result[i].highlights| == |games[i].highlights|
    ensures forall i, j :: 0 <= i < |games| && 0 <= j < |games[i].highlights| ==>
              Coloured(games[i].highlights[j], result[i].highlights[j], search)
  {
    result := [];
    for i := 0 to |games|
      invariant |result| == i
      invariant forall k :: 0 <= k < i ==>
                  ("d-flex" in result[k].classes <==> Shown(games[k], search))
                  && ("d-none" in result[k].classes <==> !Shown(games[k], search))
                  && result[k].classes - {"d-flex", "d-none"} == games[k].classes - {"d-flex", "d-none"}
      invariant forall k :: 0 <= k < i ==> |result[k].highlights| == |games[k].highlights|
      invariant forall k, j :: 0 <= k < i && 0 <= j < |games[k].highlights| ==>
                  Coloured(games[k].highlights[j], result[k].highlights[j], search)
    {
      var g := games[i];
      var hs, show := ColourHighlights(g.highlights, search);
      var classes := if show then Switch(g.classes, "d-none", "d-flex") else Switch(g.classes, "d-flex", "d-none");
      result := result + [GameEntry(classes, hs)];
    }
  }

  /** With an empty search every game that has a highlight is shown. */
  lemma EmptySearchShowsEveryGame(g: GameEntry)
    ensures Shown(g, "") <==> |g.highlights| > 0
  {
    if |g.highlights| > 0 {
      assert Reveals(g.highlights[0], "");
    }
  }

  /** A game without highlights is hidden whatever the search. */
  lemma NoHighlightsHidden(g: GameEntry, search: string)
    requires g.highlights == []
    ensures !Shown(g, search)
  {
  }

  /** Lower-casing is idempotent, so matching ignores the case of both texts. */
  lemma MatchesIgnoresCase(text: string, search: string)
    ensures Matches(Text.ToLower(text), search) == Matches(text, search)
    ensures Matches(text, Text.ToLower(search)) == Matches(text, search)
  {
    LowerTwice(text);
    LowerTwice(search);
  }

  lemma LowerTwice(s: string)
    ensures Text.ToLower(Text.ToLower(s)) == Text.ToLower(s)
  {
  }

  /** With a non-empty search, a game is shown exactly when one of its texts
      contains the search, ignoring case. */
  lemma ShownByMatch(g: GameEntry, search: string)
    requires |search| > 0
    ensures Shown(g, search) <==> exists j :: 0 <= j < |g.highlights| && Matches(g.highlights[j].text, search)
  {
  }
}

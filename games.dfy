/**
 * The catalog's `Game` record: its printed form and the comma-separated list
 * of its genre names.
 */
module Games {
  import opened Wrappers
  import Text
  import Ordering

  datatype Genre = Genre(name: string)

  /** A game; `pk` is `None` until the row is saved. `genres` is the
      many-to-many relation, in no particular order. */
  datatype Game = Game(pk: Option<int>, name: string, year: int, coverUrl: string, genres: seq<Genre>)

  /** Python's `str()` of the optional key: "None" or the decimal digits. */
  function PkText(pk: Option<int>): (s: string)
    ensures |s| >= 1
    ensures forall i :: 0 <= i < |s| ==> s[i] != ' '
  {
    match pk
    case None => "None"
    case Some(k) => Text.IntToString(k)
  }

  lemma PkTextInjective(p: Option<int>, q: Option<int>)
    requires p != q
    ensures PkText(p) != PkText(q)
  {
    match p
    case None => assert Text.IntToString(q.value)[0] != 'N';
    case Some(k) =>
      match q
      case None => assert Text.IntToString(k)[0] != 'N';
      case Some(k') => Text.IntToStringInjective(k, k');
  }

  /** `Game.__str__`: "id: <pk> - '<name>' (<year>)". */
  function Describe(game: Game): (s: string)
    ensures var head := "id: " + PkText(game.pk) + " - '";
            var tail := "' (" + Text.IntToString(game.year) + ")";
            |s| == |head| + |game.name| + |tail|
            && head <= s
            && s[|head|..|head| + |game.name|] == game.name
            && s[|head| + |game.name|..] == tail
  {
    var head := "id: " + PkText(game.pk) + " - '";
    var tail := "' (" + Text.IntToString(game.year) + ")";
    var s := head + game.name + tail;
    assert s[|head|..|head| + |game.name|] == game.name;
    assert s[|head| + |game.name|..] == tail;
    s
  }

  /** Two versions of a game that differ only in their name print differently,
      whatever characters the names hold. */
  lemma DescribeShowsName(game: Game, name: string)
    requires name != game.name
    ensures Describe(game) != Describe(game.(name := name))
  {
    var other := game.(name := name);
    var head := "id: " + PkText(game.pk) + " - '";
    if |name| == |game.name| {
      assert Describe(game)[|head|..|head| + |game.name|] == game.name;
      assert Describe(other)[|head|..|head| + |name|] == name;
    }
  }

  /** Two versions of a game that differ only in their key (saved or not) are
      told apart by their printed form. */
  lemma DescribeShowsKey(game: Game, pk: Option<int>)
    requires game.pk != pk
    ensures Describe(game) != Describe(game.(pk := pk))
  {
    var a, b := PkText(game.pk), PkText(pk);
    PkTextInjective(game.pk, pk);
    if |a| == |b| {
      var k := Text.FirstDifference(a, b);
      var h, g := "id: " + a + " - '", "id: " + b + " - '";
      assert h[4 + k] == a[k] && g[4 + k] == b[k];
      assert h <= Describe(game) && g <= Describe(game.(pk := pk));
    }
  }

  /** `self.genres.all()`: the genres in the order of `Genre.Meta.ordering`, by name. */
  function GenresByName(genres: seq<Genre>): (r: seq<Genre>)
    ensures multiset(r) == multiset(genres)
    ensures Ordering.SortedBy(r, Ordering.ByText((g: Genre) => g.name))
  {
    Ordering.ByTextIsPreorder((g: Genre) => g.name);
    Ordering.SortBy(genres, Ordering.ByText((g: Genre) => g.name))
  }

  function Names(genres: seq<Genre>): (names: seq<string>)
    ensures |names| == |genres|
    ensures forall i :: 0 <= i < |genres| ==> names[i] == genres[i].name
  {
    if genres == [] then [] else Names(genres[..|genres| - 1]) + [genres[|genres| - 1].name]
  }

  /** `Game.get_genres_names`: the loop that collects each genre's name, then
      `', '.join(...)` of the list. */
  method GenresNames(game: Game) returns (s: string)
    ensures s == Text.Join(Names(GenresByName(game.genres)), ", ")
  {
    var genres := GenresByName(game.genres);
    var names: seq<string> := [];
    for i := 0 to |genres|
      invariant names == Names(genres[..i])
    {
      assert genres[..i + 1][..i] == genres[..i];
      names := names + [genres[i].name];
    }
    assert genres[..|genres|] == genres;
    s := Text.Join(names, ", ");
  }

  /** A game without genres lists "", a game with one genre lists just its name. */
  lemma GenresNamesShortLists(game: Game)
    ensures game.genres == [] ==> Text.Join(Names(GenresByName(game.genres)), ", ") == ""
    ensures |game.genres| == 1 ==> Text.Join(Names(GenresByName(game.genres)), ", ") == game.genres[0].name
  {
    var genres := GenresByName(game.genres);
    if |game.genres| == 1 {
      assert multiset(genres) == multiset{game.genres[0]};
      assert |genres| == 1;
      assert genres[0] in multiset(genres);
    }
  }

  /** Every name in a joined list appears in it, at a position after all the
      earlier names and separators. */
  lemma {:induction false} JoinContainsEachPart(parts: seq<string>, sep: string, i: nat)
    requires i < |parts|
    ensures exists k :: Text.SliceAt(Text.Join(parts, sep), parts[i], k)
    decreases |parts|
  {
    var n := |parts|;
    if n > 1 {
      var init := parts[..n - 1];
      var front := Text.Join(init, sep);
      assert Text.Join(parts, sep) == front + sep + parts[n - 1];
      if i == n - 1 {
        assert Text.SliceAt(Text.Join(parts, sep), parts[i], |front| + |sep|);
      } else {
        JoinContainsEachPart(init, sep, i);
        var k :| Text.SliceAt(front, init[i], k);
        assert Text.Join(parts, sep)[k..k + |parts[i]|] == front[k..k + |parts[i]|];
        assert Text.SliceAt(Text.Join(parts, sep), parts[i], k);
      }
    } else {
      assert Text.SliceAt(Text.Join(parts, sep), parts[i], 0);
    }
  }

  /** The joined list has one separator between consecutive names and nothing else. */
  lemma {:induction false} JoinLength(parts: seq<string>, sep: string)
    requires |parts| >= 1
    ensures |Text.Join(parts, sep)| == TotalLength(parts) + (|parts| - 1) * |sep|
    decreases |parts|
  {
    if |parts| > 1 {
      JoinLength(parts[..|parts| - 1], sep);
      assert TotalLength(parts) == TotalLength(parts[..|parts| - 1]) + |parts[|parts| - 1]|;
    }
  }

  function TotalLength(parts: seq<string>): nat {
    if parts == [] then 0 else TotalLength(parts[..|parts| - 1]) + |parts[|parts| - 1]|
  }
}

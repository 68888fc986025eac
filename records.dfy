/**
 * The records of the players application as its views use them, and the
 * `Model.objects.filter(pk=...).first()` lookup that every view performs.
 * Tables are maps from primary key to record.
 */
module Records {
  import opened Wrappers
  import Text
  import Ordering

  /** A player's profile. `isAdmin` is the profile's admin rights, which the
      application derives from membership of the admin group. */
  datatype Profile = Profile(username: string, isPrivate: bool, isAdmin: bool)

  /** A profile's card for one game. */
  datatype GameCard = GameCard(profile: int, game: int, isFinished: bool, hoursPlayed: nat)

  /** A support request; `active` means pending, otherwise solved. */
  datatype PlayerRequest = PlayerRequest(profile: int, timestamp: int, text: string, active: bool)

  /** The outcome of looking a record up by a key given as text. */
  datatype Lookup = Found(pk: int) | Missing | Invalid

  /** `filter(pk=arg).first()`: `None` matches nothing, text that is not an
      integer raises `ValueError` (here `Invalid`), an integer finds its row or nothing. */
  function LookupPk<V>(table: map<int, V>, arg: Option<string>): (r: Lookup)
    ensures r.Found? ==> r.pk in table && arg.Some? && Text.ParseInt(arg.value) == Some(r.pk)
    ensures r.Invalid? <==> arg.Some? && Text.ParseInt(arg.value).None?
    ensures r.Missing? <==> arg.None? || (Text.ParseInt(arg.value).Some? && Text.ParseInt(arg.value).value !in table)
  {
    match arg
    case None => Missing
    case Some(s) =>
      match Text.ParseInt(s)
      case None => Invalid
      case Some(k) => if k in table then Found(k) else Missing
  }

  /** A key printed by Python and looked up again finds its row exactly when the row exists. */
  lemma LookupPrintedKey<V>(table: map<int, V>, k: int)
    ensures LookupPk(table, Some(Text.IntToString(k))) == if k in table then Found(k) else Missing
  {
    Text.IntToStringRoundTrip(k);
  }

  /** The rows of a table, each once, in ascending key order. */
  function Rows<V(==)>(table: map<int, V>): (rows: seq<(int, V)>)
    ensures multiset(rows) == multiset(table.Items)
    decreases |table|
  {
    if table.Keys == {} then
      assert table.Items == {};
      []
    else
      var k := Ordering.Min(table.Keys);
      var rest := table - {k};
      forall e | e in table.Items - {(k, table[k])} ensures e in rest.Items {
        assert e.0 in table && table[e.0] == e.1;
      }
      assert rest.Items == table.Items - {(k, table[k])};
      [(k, table[k])] + Rows(rest)
  }

  /** The elements of `s` that satisfy `p`, in their order. */
  function Where<T(!new)>(s: seq<T>, p: T -> bool): (r: seq<T>)
    ensures forall x :: multiset(r)[x] == if p(x) then multiset(s)[x] else 0
  {
    if s == [] then []
    else
      assert s == [s[0]] + s[1..];
      (if p(s[0]) then [s[0]] else []) + Where(s[1..], p)
  }

  /** `Model.objects.filter(...)`: the rows of `table` that satisfy `p`, each once. */
  function Filter<V(==,!new)>(table: map<int, V>, p: ((int, V)) -> bool): (rows: seq<(int, V)>)
    ensures multiset(rows) == multiset(set e | e in table.Items && p(e))
  {
    var rows := Where(Rows(table), p);
    var matching := set e | e in table.Items && p(e);
    forall e ensures multiset(rows)[e] == multiset(matching)[e] {
    }
    rows
  }
}

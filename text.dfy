/**
 * String helpers shared by the model: Python's `str()` of an integer and the
 * `int()` that Django applies to a primary key given as text, whitespace
 * trimming, ASCII lower-casing, `indexOf` and `', '.join(...)`.
 */
module Text {
  import opened Wrappers

  predicate IsDigit(c: char) {
    '0' <= c <= '9'
  }

  predicate AllDigits(s: string) {
    forall i :: 0 <= i < |s| ==> IsDigit(s[i])
  }

  function DigitChar(d: nat): (c: char)
    requires d < 10
    ensures IsDigit(c) && DigitValue(c) == d
  {
    ('0' as int + d) as char
  }

  function DigitValue(c: char): (d: nat)
    requires IsDigit(c)
    ensures d < 10
  {
    c as int - '0' as int
  }

  /** The decimal digits of `n`, most significant first, with no leading zero. */
  function NatToString(n: nat): (s: string)
    ensures |s| >= 1 && AllDigits(s)
    ensures n >= 10 <==> |s| >= 2
    decreases n
  {
    if n < 10 then [DigitChar(n)] else NatToString(n / 10) + [DigitChar(n % 10)]
  }

  /** Python's `str(n)` for an integer `n`. */
  function IntToString(n: int): (s: string)
    ensures |s| >= 1
    ensures s[0] == '-' <==> n < 0
    ensures n >= 0 ==> AllDigits(s)
    ensures n < 0 ==> AllDigits(s[1..])
  {
    if n < 0 then "-" + NatToString(-n) else NatToString(n)
  }

  /** The value of a string of decimal digits (the empty string reads as 0). */
  function DigitsValue(s: string): nat
    requires AllDigits(s)
  {
    if s == [] then 0 else DigitsValue(s[..|s| - 1]) * 10 + DigitValue(s[|s| - 1])
  }

  lemma {:induction false} DigitsValueOfNatToString(n: nat)
    ensures DigitsValue(NatToString(n)) == n
    decreases n
  {
    if n >= 10 {
      var s := NatToString(n);
      assert s[..|s| - 1] == NatToString(n / 10);
      DigitsValueOfNatToString(n / 10);
    }
  }

  /** Whitespace as JavaScript's `trim()` treats it, restricted to ASCII. */
  predicate IsSpace(c: char) {
    c == ' ' || '\t' <= c <= '\r'
  }

  /** Whitespace as Python's `int()` strips it, restricted to ASCII: besides
      JavaScript's, the four separators U+001C..U+001F, for which
      `str.isspace()` holds. */
  predicate IsPySpace(c: char) {
    IsSpace(c) || '\U{1C}' <= c <= '\U{1F}'
  }

  /** Whitespace for Python when `py` holds, for JavaScript otherwise. */
  predicate IsWhite(c: char, py: bool) {
    if py then IsPySpace(c) else IsSpace(c)
  }

  predicate AllSpace(s: string) {
    forall i :: 0 <= i < |s| ==> IsSpace(s[i])
  }

  /** The number of whitespace characters `s` starts with. */
  function LeadingSpace(s: string, py: bool): (n: nat)
    ensures n <= |s|
    ensures forall i :: 0 <= i < n ==> IsWhite(s[i], py)
    ensures n < |s| ==> !IsWhite(s[n], py)
  {
    if s != [] && IsWhite(s[0], py) then
      var n := LeadingSpace(s[1..], py);
      assert forall i :: 1 <= i < n + 1 ==> s[i] == s[1..][i - 1];
      n + 1
    else 0
  }

  /** The end of `s[lo..hi]` once its trailing whitespace is dropped. */
  function TrailingStart(s: string, lo: nat, hi: nat, py: bool): (e: nat)
    requires lo <= hi <= |s|
    ensures lo <= e <= hi
    ensures forall i :: e <= i < hi ==> IsWhite(s[i], py)
    ensures e > lo ==> !IsWhite(s[e - 1], py)
    decreases hi - lo
  {
    if hi > lo && IsWhite(s[hi - 1], py) then TrailingStart(s, lo, hi - 1, py) else hi
  }

  /** `s.trim()`: the input with leading and trailing whitespace removed, that
      is the slice of `s` between its leading and its trailing whitespace. */
  function Trim(s: string): (r: string)
    ensures var lead := LeadingSpace(s, false);
            lead + |r| <= |s| && r == s[lead..lead + |r|]
            && (forall i :: 0 <= i < lead ==> IsSpace(s[i]))
            && (forall i :: lead + |r| <= i < |s| ==> IsSpace(s[i]))
    ensures r == [] || (!IsSpace(r[0]) && !IsSpace(r[|r| - 1]))
  {
    var lead := LeadingSpace(s, false);
    s[lead..TrailingStart(s, lead, |s|, false)]
  }

  /** A trimmed string is empty exactly when the input was all whitespace. */
  lemma TrimBlank(s: string)
    ensures Trim(s) == [] <==> AllSpace(s)
  {
  }

  /** The whitespace `int()` ignores around its digits: the slice of `s`
      between its leading and its trailing Python whitespace. */
  function Strip(s: string): (r: string)
    ensures var lead := LeadingSpace(s, true);
            lead + |r| <= |s| && r == s[lead..lead + |r|]
            && (forall i :: 0 <= i < lead ==> IsPySpace(s[i]))
            && (forall i :: lead + |r| <= i < |s| ==> IsPySpace(s[i]))
    ensures r == [] || (!IsPySpace(r[0]) && !IsPySpace(r[|r| - 1]))
  {
    var lead := LeadingSpace(s, true);
    s[lead..TrailingStart(s, lead, |s|, true)]
  }

  /** A string that neither starts nor ends with Python whitespace is its own strip. */
  lemma StripOfUnspaced(s: string)
    requires |s| >= 1 && !IsPySpace(s[0]) && !IsPySpace(s[|s| - 1])
    ensures Strip(s) == s
  {
    assert LeadingSpace(s, true) == 0;
    assert TrailingStart(s, 0, |s|, true) == |s|;
    assert s[0..|s|] == s;
  }

  lemma StripOfDigits(s: string)
    requires |s| >= 1 && AllDigits(s)
    ensures Strip(s) == s
  {
    assert !IsPySpace(s[0]) && !IsPySpace(s[|s| - 1]);
    StripOfUnspaced(s);
  }

  /** `int(s)` applied to a key given as text: optional sign, then at least one digit. */
  function ParseInt(s: string): (r: Option<int>)
  {
    var t := Strip(s);
    if |t| >= 2 && (t[0] == '-' || t[0] == '+') && AllDigits(t[1..]) then
      Some(if t[0] == '-' then -(DigitsValue(t[1..]) as int) else DigitsValue(t[1..]))
    else if |t| >= 1 && AllDigits(t) then
      Some(DigitsValue(t))
    else
      None
  }

  /** A minus sign followed by digits parses as the negated digits. */
  lemma ParseNegative(s: string)
    requires |s| >= 2 && s[0] == '-' && AllDigits(s[1..])
    ensures ParseInt(s) == Some(-(DigitsValue(s[1..]) as int))
  {
    assert IsDigit(s[1..][|s| - 2]);
    StripOfUnspaced(s);
  }

  /** A negative number prints as a minus sign followed by the digits of its
      magnitude. */
  lemma NegativeDigits(n: int)
    requires n < 0
    ensures var s := IntToString(n);
            |s| >= 2 && s[0] == '-' && AllDigits(s[1..]) && DigitsValue(s[1..]) == -n
  {
    var digits := NatToString(-n);
    assert IntToString(n) == "-" + digits;
    assert ("-" + digits)[1..] == digits;
    DigitsValueOfNatToString(-n);
  }

  /** A negative number prints as a minus sign and digits, which parse back. */
  lemma NegativeRoundTrip(n: int)
    requires n < 0
    ensures ParseInt(IntToString(n)) == Some(n)
  {
    NegativeDigits(n);
    ParseNegative(IntToString(n));
  }

  /** A non-negative number prints as digits only, which parse back. */
  lemma NonNegativeRoundTrip(n: int)
    requires n >= 0
    ensures ParseInt(IntToString(n)) == Some(n)
  {
    var digits := NatToString(n);
    assert IntToString(n) == digits;
    StripOfDigits(digits);
    DigitsValueOfNatToString(n);
  }

  /** `int(str(n)) == n`: a key printed by Python parses back to itself. */
  lemma IntToStringRoundTrip(n: int)
    ensures ParseInt(IntToString(n)) == Some(n)
  {
    if n < 0 {
      NegativeRoundTrip(n);
    } else {
      NonNegativeRoundTrip(n);
    }
  }

  /** Stripping a separator from each end of a string that is not itself
      padded with whitespace gives the string back. */
  lemma StripSeparators(p: string)
    requires |p| >= 1 && !IsPySpace(p[0]) && !IsPySpace(p[|p| - 1])
    ensures Strip("\U{1C}" + p + "\U{1F}") == p
  {
    var s := "\U{1C}" + p + "\U{1F}";
    assert LeadingSpace(s[1..], true) == 0;
    assert LeadingSpace(s, true) == 1;
    assert TrailingStart(s, 1, |s| - 1, true) == |s| - 1;
    assert TrailingStart(s, 1, |s|, true) == |s| - 1;
    assert s[1..|s| - 1] == p;
  }

  /** `int()` reads only what its strip leaves. */
  lemma ParseIntOfStripped(s: string, p: string)
    requires Strip(s) == p && Strip(p) == p
    ensures ParseInt(s) == ParseInt(p)
  {
  }

  /** `int()` ignores the ASCII separators around a printed key, as it does
      spaces: `int("\x1c7\x1f") == 7`. */
  lemma ParseIntStripsSeparators(n: int)
    ensures ParseInt("\U{1C}" + IntToString(n) + "\U{1F}") == Some(n)
  {
    var p := IntToString(n);
    assert !IsPySpace(p[0]) && !IsPySpace(p[|p| - 1]);
    StripSeparators(p);
    StripOfUnspaced(p);
    ParseIntOfStripped("\U{1C}" + p + "\U{1F}", p);
    IntToStringRoundTrip(n);
  }

  /** Distinct integers print differently. */
  lemma IntToStringInjective(a: int, b: int)
    ensures IntToString(a) == IntToString(b) ==> a == b
  {
    IntToStringRoundTrip(a);
    IntToStringRoundTrip(b);
  }

  function LowerChar(c: char): char {
    if 'A' <= c <= 'Z' then (c as int + 32) as char else c
  }

  /** `s.toLowerCase()`, restricted to ASCII letters. */
  function ToLower(s: string): (r: string)
    ensures |r| == |s|
    ensures forall i :: 0 <= i < |s| ==> r[i] == LowerChar(s[i])
  {
    if s == [] then [] else [LowerChar(s[0])] + ToLower(s[1..])
  }

  /** `needle` occurs in `hay` starting at index `k`. */
  predicate OccursAt(hay: string, needle: string, k: int) {
    0 <= k && k + |needle| <= |hay| && hay[k..k + |needle|] == needle
  }

  /** JavaScript's `hay.indexOf(needle)`: the first occurrence, or -1. */
  function IndexOf(hay: string, needle: string): (r: int)
    ensures r == -1 || OccursAt(hay, needle, r)
    ensures forall k :: 0 <= k < r ==> !OccursAt(hay, needle, k)
    ensures r == -1 ==> forall k :: !OccursAt(hay, needle, k)
    decreases |hay|
  {
    if |needle| > |hay| then -1
    else if needle <= hay then 0
    else
      var i := IndexOf(hay[1..], needle);
      assert forall k :: 1 <= k ==> (OccursAt(hay, needle, k) <==> OccursAt(hay[1..], needle, k - 1));
      if i < 0 then -1 else i + 1
  }

  /** `r` is the slice of `s` that starts at index `i`. */
  predicate SliceAt(s: string, r: string, i: int) {
    0 <= i <= |s| - |r| && r == s[i..i + |r|]
  }

  /** The first index at which two different strings of the same length differ. */
  function FirstDifference(a: string, b: string): (k: nat)
    requires |a| == |b| && a != b
    ensures k < |a| && a[k] != b[k]
    ensures forall i :: 0 <= i < k ==> a[i] == b[i]
  {
    if a[0] != b[0] then 0
    else
      assert a[1..] != b[1..] by { assert a == [a[0]] + a[1..] && b == [b[0]] + b[1..]; }
      FirstDifference(a[1..], b[1..]) + 1
  }

  /** Python's `sep.join(parts)`. */
  function Join(parts: seq<string>, sep: string): string
  {
    if |parts| == 0 then ""
    else if |parts| == 1 then parts[0]
    else Join(parts[..|parts| - 1], sep) + sep + parts[|parts| - 1]
  }
}

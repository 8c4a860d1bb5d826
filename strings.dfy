/**
 * The JavaScript string operations the core relies on: the `\s` character
 * class, `trim()`, `split(/\s+/)`, `includes`, `join`, decimal formatting of
 * integers and ASCII lower-casing.
 */
module Strings {

  /** The characters JavaScript's `\s` and `String.prototype.trim` treat as white space. */
  predicate IsSpace(c: char) {
    c == '\t' || c == '\n' || c == '\U{B}' || c == '\U{C}' || c == '\r' || c == ' '
    || c == '\U{A0}' || c == '\U{1680}' || ('\U{2000}' <= c <= '\U{200A}')
    || c == '\U{2028}' || c == '\U{2029}' || c == '\U{202F}' || c == '\U{205F}'
    || c == '\U{3000}' || c == '\U{FEFF}'
  }

  predicate AllSpace(s: string) {
    forall i :: 0 <= i < |s| ==> IsSpace(s[i])
  }

  predicate NoSpace(s: string) {
    forall i :: 0 <= i < |s| ==> !IsSpace(s[i])
  }

  function TrimStart(s: string): string {
    if s != [] && IsSpace(s[0]) then TrimStart(s[1..]) else s
  }

  function TrimEnd(s: string): string {
    if s != [] && IsSpace(s[|s| - 1]) then TrimEnd(s[..|s| - 1]) else s
  }

  /** `trimStart` drops exactly the leading white space. */
  lemma {:induction false} TrimStartShape(s: string)
    ensures |TrimStart(s)| <= |s| && TrimStart(s) == s[|s| - |TrimStart(s)|..]
    ensures AllSpace(s[..|s| - |TrimStart(s)|])
    ensures TrimStart(s) == [] || !IsSpace(TrimStart(s)[0])
  {
    if s != [] && IsSpace(s[0]) {
      TrimStartShape(s[1..]);
      var k := |s| - |TrimStart(s)|;
      assert forall i :: 1 <= i < k ==> s[..k][i] == s[1..][..k - 1][i - 1];
    }
  }

  /** `trimEnd` drops exactly the trailing white space. */
  lemma {:induction false} TrimEndShape(s: string)
    ensures |TrimEnd(s)| <= |s| && TrimEnd(s) == s[..|TrimEnd(s)|]
    ensures AllSpace(s[|TrimEnd(s)|..])
    ensures TrimEnd(s) == [] || !IsSpace(TrimEnd(s)[|TrimEnd(s)| - 1])
  {
    if s != [] && IsSpace(s[|s| - 1]) {
      TrimEndShape(s[..|s| - 1]);
      var k := |TrimEnd(s)|;
      assert s[k..] == s[..|s| - 1][k..] + [s[|s| - 1]];
    }
  }

  /** `s.trim()` */
  function Trim(s: string): string {
    TrimEnd(TrimStart(s))
  }

  /** A string that `trim()` leaves alone. */
  predicate IsTrimmed(s: string) {
    s == [] || (!IsSpace(s[0]) && !IsSpace(s[|s| - 1]))
  }

  /**
   * `trim()` removes exactly a white-space prefix and a white-space suffix:
   * the result is a contiguous slice of the input, bounded by non-space
   * characters, and is empty exactly when the input is all white space.
   */
  lemma TrimSlice(s: string)
    ensures exists a, b :: 0 <= a <= b <= |s| && Trim(s) == s[a..b]
                           && AllSpace(s[..a]) && AllSpace(s[b..])
    ensures IsTrimmed(Trim(s))
    ensures Trim(s) == [] <==> AllSpace(s)
  {
    var t := TrimStart(s);
    TrimStartShape(s);
    var a := |s| - |t|;
    var r := TrimEnd(t);
    TrimEndShape(t);
    var b := a + |r|;
    assert s[a..b] == r;
    assert s[b..] == t[|r|..];
    assert AllSpace(s[..a]) && AllSpace(s[b..]);
    assert 0 <= a <= b <= |s| && Trim(s) == s[a..b];
    if r == [] {
      assert t == [];
      assert s[..a] == s;
    } else {
      assert r[0] == t[0];
      assert !AllSpace(s) by { assert s[a] == r[0]; }
    }
  }

  /** Trimming twice is trimming once. */
  lemma TrimIdempotent(s: string)
    ensures Trim(Trim(s)) == Trim(s)
  {
    TrimSlice(s);
    TrimmedIsFixed(Trim(s));
  }

  lemma TrimmedIsFixed(s: string)
    requires IsTrimmed(s)
    ensures Trim(s) == s
  {
  }

  lemma AllSpaceConcat(a: string, b: string)
    requires AllSpace(a) && AllSpace(b)
    ensures AllSpace(a + b)
  {
    forall i | 0 <= i < |a + b| ensures IsSpace((a + b)[i]) {
      if i < |a| { assert (a + b)[i] == a[i]; } else { assert (a + b)[i] == b[i - |a|]; }
    }
  }

  lemma TrimStartSpacePrefix(p: string, s: string)
    requires AllSpace(p)
    ensures TrimStart(p + s) == TrimStart(s)
    decreases |p|
  {
    if p != [] {
      assert (p + s)[1..] == p[1..] + s;
      assert IsSpace(p[0]);
      TrimStartSpacePrefix(p[1..], s);
    } else {
      assert p + s == s;
    }
  }

  lemma TrimEndSpaceSuffix(s: string, q: string)
    requires AllSpace(q)
    ensures TrimEnd(s + q) == TrimEnd(s)
    decreases |q|
  {
    if q != [] {
      assert (s + q)[..|s + q| - 1] == s + q[..|q| - 1];
      assert IsSpace(q[|q| - 1]);
      TrimEndSpaceSuffix(s, q[..|q| - 1]);
    } else {
      assert s + q == s;
    }
  }

  lemma TrimStartOfSuffixed(s: string, q: string)
    requires AllSpace(q)
    ensures TrimStart(s + q) == TrimStart(s) + q || (AllSpace(s) && TrimStart(s + q) == [])
    decreases |s|
  {
    if s == [] {
      assert s + q == q;
      TrimStartSpacePrefix(q, []);
      assert q + [] == q;
      if q == [] {} else { assert TrimStart(q) == TrimStart([]); }
    } else if IsSpace(s[0]) {
      assert (s + q)[1..] == s[1..] + q;
      TrimStartOfSuffixed(s[1..], q);
      if AllSpace(s[1..]) && TrimStart(s[1..] + q) == [] {
        assert forall i :: 0 <= i < |s| ==> IsSpace(s[i]) by {
          forall i | 0 <= i < |s| ensures IsSpace(s[i]) { if i > 0 { assert s[i] == s[1..][i - 1]; } }
        }
      }
    } else {
      assert (s + q)[0] == s[0];
    }
  }

  /** Leading and trailing white space never affects `trim()`. */
  lemma TrimIgnoresPadding(p: string, s: string, q: string)
    requires AllSpace(p) && AllSpace(q)
    ensures Trim(p + s + q) == Trim(s)
  {
    assert p + s + q == p + (s + q);
    TrimStartSpacePrefix(p, s + q);
    TrimStartOfSuffixed(s, q);
    if TrimStart(s + q) == TrimStart(s) + q {
      TrimEndSpaceSuffix(TrimStart(s), q);
    } else {
      assert AllSpace(s);
      TrimSlice(s);
      assert TrimEnd(TrimStart(s)) == [];
    }
  }

  /** Index of the first white-space character of `s`, or `|s|` if there is none. */
  function FirstSpace(s: string): (k: nat)
    ensures k <= |s| && NoSpace(s[..k])
    ensures k < |s| ==> IsSpace(s[k])
  {
    if s == [] then 0
    else if IsSpace(s[0]) then 0
    else
      var k := 1 + FirstSpace(s[1..]);
      assert forall i :: 1 <= i < k ==> s[..k][i] == s[1..][..k - 1][i - 1];
      k
  }

  /** Length of the maximal white-space run at the start of `s`. */
  function SpaceRun(s: string): (k: nat)
    ensures k <= |s| && AllSpace(s[..k])
    ensures k < |s| ==> !IsSpace(s[k])
  {
    if s != [] && IsSpace(s[0]) then
      var k := 1 + SpaceRun(s[1..]);
      assert forall i :: 1 <= i < k ==> s[..k][i] == s[1..][..k - 1][i - 1];
      k
    else 0
  }

  /**
   * `s.split(/\s+/)`: the pieces between maximal white-space runs, including
   * an empty first (last) piece when `s` starts (ends) with white space.
   */
  function SplitWs(s: string): (pieces: seq<string>)
    decreases |s|
  {
    var k := FirstSpace(s);
    if k == |s| then [s]
    else [s[..k]] + SplitWs(s[k + SpaceRun(s[k..])..])
  }

  /**
   * The pieces of `split(/\s+/)` contain no white space, there is always at
   * least one, and for a trimmed non-empty string none of them is empty.
   */
  lemma {:induction false} SplitWsPieces(s: string)
    ensures |SplitWs(s)| >= 1
    ensures forall i :: 0 <= i < |SplitWs(s)| ==> NoSpace(SplitWs(s)[i])
    ensures s != [] && !IsSpace(s[0]) && !IsSpace(s[|s| - 1]) ==>
              forall i :: 0 <= i < |SplitWs(s)| ==> SplitWs(s)[i] != []
    decreases |s|
  {
    var k := FirstSpace(s);
    if k < |s| {
      var n := SpaceRun(s[k..]);
      var rest := s[k + n..];
      SplitWsPieces(rest);
      if s != [] && !IsSpace(s[0]) && !IsSpace(s[|s| - 1]) {
        assert k > 0;
        assert k + n < |s|;
        assert rest[0] == s[k..][n];
        assert rest[|rest| - 1] == s[|s| - 1];
      }
    }
  }

  /** Number of pieces `trim().split(/\s+/)` gives: never zero. */
  function PieceCount(s: string): (n: nat)
    ensures n >= 1
  {
    SplitWsPieces(Trim(s));
    |SplitWs(Trim(s))|
  }

  /** `s.includes(sub)` */
  predicate Contains(s: string, sub: string) {
    exists i :: 0 <= i <= |s| && sub <= s[i..]
  }

  /** `parts.join(sep)` */
  function Join(parts: seq<string>, sep: string): string {
    if parts == [] then ""
    else if |parts| == 1 then parts[0]
    else parts[0] + sep + Join(parts[1..], sep)
  }

  function Digit(d: nat): char
    requires d < 10
  {
    "0123456789"[d]
  }

  function DigitValue(c: char): int {
    c as int - '0' as int
  }

  predicate IsDigit(c: char) {
    '0' <= c <= '9'
  }

  /** Decimal text of a natural number, the way `${n}` prints it. */
  function NatToString(n: nat): (s: string)
    ensures |s| >= 1 && forall i :: 0 <= i < |s| ==> IsDigit(s[i])
    ensures |s| > 1 ==> s[0] != '0'
    decreases n
  {
    if n < 10 then [Digit(n)] else NatToString(n / 10) + [Digit(n % 10)]
  }

  /** Reads a string of decimal digits back. */
  function ParseDigits(s: string): int {
    if s == [] then 0 else 10 * ParseDigits(s[..|s| - 1]) + DigitValue(s[|s| - 1])
  }

  /** Decimal formatting is undone by reading the digits back. */
  lemma {:induction false} NatToStringRoundTrip(n: nat)
    ensures ParseDigits(NatToString(n)) == n
    decreases n
  {
    if n >= 10 {
      NatToStringRoundTrip(n / 10);
      var s := NatToString(n);
      assert s[..|s| - 1] == NatToString(n / 10);
    }
  }

  /** Decimal formatting never gives two numbers the same text. */
  lemma NatToStringInjective(m: nat, n: nat)
    requires NatToString(m) == NatToString(n)
    ensures m == n
  {
    NatToStringRoundTrip(m);
    NatToStringRoundTrip(n);
  }

  predicate AllDigits(s: string) {
    forall i :: 0 <= i < |s| ==> IsDigit(s[i])
  }

  /** Position of the first character of `s` that is not a decimal digit, or `|s|`. */
  function FirstNonDigit(s: string): (k: nat)
    ensures k <= |s|
  {
    if s == [] || !IsDigit(s[0]) then 0 else 1 + FirstNonDigit(s[1..])
  }

  lemma {:induction false} FirstNonDigitAfter(d: string, rest: string)
    requires AllDigits(d) && rest != [] && !IsDigit(rest[0])
    ensures FirstNonDigit(d + rest) == |d|
    decreases |d|
  {
    if d == [] {
      assert d + rest == rest;
    } else {
      assert (d + rest)[0] == d[0];
      assert (d + rest)[1..] == d[1..] + rest;
      FirstNonDigitAfter(d[1..], rest);
    }
  }

  /**
   * A number followed by a non-digit mark can be read back unambiguously:
   * equal texts have equal numbers, equal marks and equal remainders.
   */
  lemma NumberThenMark(m: nat, n: nat, c1: char, c2: char, r1: string, r2: string)
    requires !IsDigit(c1) && !IsDigit(c2)
    requires NatToString(m) + [c1] + r1 == NatToString(n) + [c2] + r2
    ensures m == n && c1 == c2 && r1 == r2
  {
    DigitsThenMark(NatToString(m), NatToString(n), c1, c2, r1, r2);
    NatToStringInjective(m, n);
  }

  /** The digit run ahead of a non-digit mark is determined by the text. */
  lemma DigitsThenMark(d1: string, d2: string, c1: char, c2: char, r1: string, r2: string)
    requires AllDigits(d1) && AllDigits(d2) && !IsDigit(c1) && !IsDigit(c2)
    requires d1 + [c1] + r1 == d2 + [c2] + r2
    ensures d1 == d2 && c1 == c2 && r1 == r2
  {
    var s := d1 + [c1] + r1;
    assert s == d1 + ([c1] + r1);
    assert s == d2 + ([c2] + r2);
    FirstNonDigitAfter(d1, [c1] + r1);
    FirstNonDigitAfter(d2, [c2] + r2);
    assert d1 == s[..|d1|] && d2 == s[..|d2|];
    assert s[|d1|] == c1 && s[|d2|] == c2;
    assert r1 == s[|d1| + 1..] && r2 == s[|d2| + 1..];
  }

  /** Decimal text of an integer, with a leading '-' when negative. */
  function IntToString(i: int): string {
    if i < 0 then "-" + NatToString(-i) else NatToString(i)
  }

  /** ASCII part of `toLowerCase()`. */
  function LowerChar(c: char): char {
    if 'A' <= c <= 'Z' then (c as int + 32) as char else c
  }

  function Lower(s: string): (r: string)
    ensures |r| == |s| && forall i :: 0 <= i < |s| ==> r[i] == LowerChar(s[i])
  {
    seq(|s|, i requires 0 <= i < |s| => LowerChar(s[i]))
  }
}

/** Python and pandas value semantics shared by every module: float cells that may be NaN,
    Python's builtin `max`, and the handful of `str` operations the pipeline relies on
    (`in`, `replace`, `strip`, `lower`, `startswith`, `endswith`, `int`, `str`). */
module Values {

  datatype Option<+T> = None | Some(value: T)

  // ---------------------------------------------------------------------------
  // Floats

  /** A pandas float cell: `NaN` (missing) or a finite real. Infinities and rounding are
      not modelled. */
  datatype Float = NaN | F(x: real)

  function Add(a: Float, b: Float): (r: Float)
    ensures r.F? <==> a.F? && b.F?
    ensures r.F? ==> r.x == a.x + b.x
  {
    if a.F? && b.F? then F(a.x + b.x) else NaN
  }

  function Sub(a: Float, b: Float): (r: Float)
    ensures r.F? <==> a.F? && b.F?
    ensures r.F? ==> r.x == a.x - b.x
  {
    if a.F? && b.F? then F(a.x - b.x) else NaN
  }

  function Neg(a: Float): (r: Float)
    ensures r.F? <==> a.F?
    ensures r.F? ==> r.x == -a.x
  {
    if a.F? then F(-a.x) else NaN
  }

  /** IEEE comparisons: every comparison involving NaN is false. */
  predicate Le(a: Float, b: Float) { a.F? && b.F? && a.x <= b.x }
  predicate Lt(a: Float, b: Float) { a.F? && b.F? && a.x < b.x }
  predicate EqF(a: Float, b: Float) { a.F? && b.F? && a.x == b.x }

  /** Python's builtin `max(a, b)`: it keeps `a` unless `b > a`, so with a NaN operand the
      result depends on the order of the arguments. */
  function PyMax(a: Float, b: Float): (r: Float)
    ensures r == a || r == b
    ensures a.F? && b.F? ==> r.F? && r.x >= a.x && r.x >= b.x
    ensures a.NaN? ==> r == a
    ensures b.NaN? ==> r == a
  {
    if Lt(a, b) then b else a
  }

  // ---------------------------------------------------------------------------
  // Row selection

  /** A boolean-mask selection: the elements satisfying `p`, in their original order. */
  function Filter<T(!new)>(s: seq<T>, p: T -> bool): (r: seq<T>)
    ensures |r| <= |s|
    ensures forall x :: x in r <==> x in s && p(x)
  {
    if |s| == 0 then [] else (if p(s[0]) then [s[0]] else []) + Filter(s[1..], p)
  }

  /** Selecting from a concatenation selects from each part in turn, so the relative order of
      the kept elements is the original order. */
  lemma {:induction false} FilterAppend<T(!new)>(s1: seq<T>, s2: seq<T>, p: T -> bool)
    ensures Filter(s1 + s2, p) == Filter(s1, p) + Filter(s2, p)
    decreases |s1|
  {
    if |s1| == 0 {
      assert s1 + s2 == s2;
    } else {
      assert (s1 + s2)[0] == s1[0];
      assert (s1 + s2)[1..] == s1[1..] + s2;
      FilterAppend(s1[1..], s2, p);
    }
  }

  // ---------------------------------------------------------------------------
  // Characters and strings

  predicate IsDigit(c: char) { '0' <= c <= '9' }

  predicate AllDigits(s: string) { forall i :: 0 <= i < |s| ==> IsDigit(s[i]) }

  /** Python's `str.isspace` restricted to ASCII whitespace. */
  predicate IsSpace(c: char) { c == ' ' || c == '\t' || c == '\n' || c == '\r' || c == '\U{000B}' || c == '\U{000C}' }

  /** `p in s` for strings: `p` occurs in `s` as a contiguous substring. */
  predicate Contains(s: string, p: string) {
    exists i :: 0 <= i <= |s| - |p| && OccursAt(s, p, i)
  }

  predicate OccursAt(s: string, p: string, i: int) {
    0 <= i <= |s| - |p| && s[i..i + |p|] == p
  }

  predicate StartsWith(s: string, p: string) { |p| <= |s| && s[..|p|] == p }

  predicate EndsWith(s: string, p: string) { |p| <= |s| && s[|s| - |p|..] == p }

  /** `s.replace(old, new)`: scans left to right and replaces non-overlapping occurrences. */
  function Replace(s: string, pat: string, rep: string): (r: string)
    requires |pat| > 0
    decreases |s|
  {
    if |s| < |pat| then s
    else if s[..|pat|] == pat then rep + Replace(s[|pat|..], pat, rep)
    else [s[0]] + Replace(s[1..], pat, rep)
  }

  /** Replacing a single character by nothing removes every occurrence of it and keeps
      every other character in order. */
  lemma {:induction false} ReplaceCharByNothing(s: string, c: char)
    ensures c !in Replace(s, [c], "")
    ensures forall d :: d != c ==> (d in Replace(s, [c], "") <==> d in s)
    decreases |s|
  {
    if |s| > 0 {
      ReplaceCharByNothing(s[1..], c);
      assert s == [s[0]] + s[1..];
    }
  }

  /** Replacing one character by another leaves no occurrence of the first, and the
      length is unchanged. */
  lemma {:induction false} ReplaceCharByChar(s: string, c: char, d: char)
    requires c != d
    ensures c !in Replace(s, [c], [d])
    ensures |Replace(s, [c], [d])| == |s|
    ensures forall i :: 0 <= i < |s| ==> Replace(s, [c], [d])[i] == if s[i] == c then d else s[i]
    decreases |s|
  {
    if |s| > 0 {
      ReplaceCharByChar(s[1..], c, d);
    }
  }

  /** A string that does not contain the pattern is left unchanged. */
  lemma {:induction false} ReplaceAbsent(s: string, pat: string, rep: string)
    requires |pat| > 0
    requires !Contains(s, pat)
    ensures Replace(s, pat, rep) == s
    decreases |s|
  {
    if |s| >= |pat| {
      assert !OccursAt(s, pat, 0);
      assert s[0..|pat|] == s[..|pat|];
      assert !Contains(s[1..], pat) by {
        forall i | 0 <= i <= |s[1..]| - |pat|
          ensures !OccursAt(s[1..], pat, i)
        {
          assert s[1..][i..i + |pat|] == s[i + 1..i + 1 + |pat|];
          assert !OccursAt(s, pat, i + 1);
        }
      }
      ReplaceAbsent(s[1..], pat, rep);
    }
  }

  function TrimLeft(s: string): (r: string)
    ensures |r| <= |s| && r == s[|s| - |r|..]
    ensures |r| > 0 ==> !IsSpace(r[0])
    ensures forall i :: 0 <= i < |s| - |r| ==> IsSpace(s[i])
  {
    if |s| > 0 && IsSpace(s[0]) then
      var r := TrimLeft(s[1..]);
      assert s[1..][|s| - 1 - |r|..] == s[|s| - |r|..];
      assert forall i :: 1 <= i < |s| - |r| ==> s[i] == s[1..][i - 1];
      r
    else s
  }

  function TrimRight(s: string): (r: string)
    ensures |r| <= |s| && r == s[..|r|]
    ensures |r| > 0 ==> !IsSpace(r[|r| - 1])
    ensures forall i :: |r| <= i < |s| ==> IsSpace(s[i])
  {
    if |s| > 0 && IsSpace(s[|s| - 1]) then
      var r := TrimRight(s[..|s| - 1]);
      assert s[..|s| - 1][..|r|] == s[..|r|];
      r
    else s
  }

  /** `s.strip()`: drops leading and trailing whitespace and nothing else. */
  function Strip(s: string): (r: string)
    ensures |r| == 0 || (!IsSpace(r[0]) && !IsSpace(r[|r| - 1]))
    ensures exists a, b :: 0 <= a <= b <= |s| && r == s[a..b]
  {
    var l := TrimLeft(s);
    var r := TrimRight(l);
    assert r == s[|s| - |l|..|s| - |l| + |r|];
    r
  }

  function LowerChar(c: char): char {
    if 'A' <= c <= 'Z' then (c as int + 32) as char else c
  }

  /** `s.lower()` on ASCII letters; other characters are kept. */
  function Lower(s: string): (r: string)
    ensures |r| == |s|
    ensures forall i :: 0 <= i < |s| ==> r[i] == LowerChar(s[i])
  {
    seq(|s|, i requires 0 <= i < |s| => LowerChar(s[i]))
  }

  /** `sep.join(parts)`. */
  function Join(sep: string, parts: seq<string>): string {
    if |parts| == 0 then ""
    else if |parts| == 1 then parts[0]
    else parts[0] + sep + Join(sep, parts[1..])
  }

  // ---------------------------------------------------------------------------
  // Decimal numerals: Python's `str(n)` for a natural number and `int(s)` for a digit string

  function DigitChar(d: nat): char
    requires d < 10
  {
    ('0' as int + d) as char
  }

  function DigitValue(c: char): nat
    requires IsDigit(c)
  {
    c as int - '0' as int
  }

  /** `int(s)` for a non-empty string of ASCII digits (leading zeros allowed). */
  function DigitsValue(s: string): nat
    requires AllDigits(s)
    decreases |s|
  {
    if |s| == 0 then 0 else DigitsValue(s[..|s| - 1]) * 10 + DigitValue(s[|s| - 1])
  }

  /** `str(n)`: the decimal numeral without leading zeros. */
  function NatToString(n: nat): (s: string)
    ensures |s| > 0 && AllDigits(s)
    ensures |s| > 1 ==> s[0] != '0'
  {
    if n < 10 then [DigitChar(n)] else NatToString(n / 10) + [DigitChar(n % 10)]
  }

  /** `int(str(n)) == n`. */
  lemma {:induction false} NatToStringRoundTrip(n: nat)
    ensures DigitsValue(NatToString(n)) == n
  {
    if n >= 10 {
      NatToStringRoundTrip(n / 10);
      var s := NatToString(n);
      assert s[..|s| - 1] == NatToString(n / 10);
    }
  }

  /** Distinct numbers print as distinct numerals. */
  lemma NatToStringInjective(m: nat, n: nat)
    requires NatToString(m) == NatToString(n)
    ensures m == n
  {
    NatToStringRoundTrip(m);
    NatToStringRoundTrip(n);
  }
}

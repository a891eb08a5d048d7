/**
 * String helpers with Python's meaning: `str(int)`, `int(str)`, the `0Nd`
 * format specifier, `str.split`, `str.startswith`, `str.endswith`, `in` on
 * strings and `str.replace`.
 */
module Text {
  import opened Wrappers

  predicate IsDigit(c: char) { '0' <= c <= '9' }

  predicate AllDigits(s: string) { forall i :: 0 <= i < |s| ==> IsDigit(s[i]) }

  function DigitChar(d: nat): (c: char)
    requires d < 10
    ensures IsDigit(c) && c as int - '0' as int == d
  {
    (('0' as int) + d) as char
  }

  /** Python's `str(n)` for a non-negative integer: decimal digits, no leading zero. */
  function NatToString(n: nat): (s: string)
    ensures 1 <= |s| && AllDigits(s)
    ensures n > 0 ==> s[0] != '0'
    ensures n < 10 <==> |s| == 1
    decreases n
  {
    if n < 10 then [DigitChar(n)] else NatToString(n / 10) + [DigitChar(n % 10)]
  }

  /** The value of a string of decimal digits. */
  function DigitsValue(s: string): nat
    requires AllDigits(s)
  {
    if s == [] then 0 else 10 * DigitsValue(s[..|s| - 1]) + (s[|s| - 1] as int - '0' as int)
  }

  lemma {:induction false} DigitsValueOfNatToString(n: nat)
    ensures DigitsValue(NatToString(n)) == n
    decreases n
  {
    var s := NatToString(n);
    if n >= 10 {
      DigitsValueOfNatToString(n / 10);
      assert s[..|s| - 1] == NatToString(n / 10);
    }
  }

  /** `abs(i)`. Both branches of a sign test use it, so no digit string is taken of a negative number. */
  function Magnitude(i: int): nat {
    if i < 0 then -i else i
  }

  /** Python's `str(i)` for any integer. */
  function IntToString(i: int): (s: string)
    ensures 1 <= |s|
    ensures forall k :: 0 <= k < |s| ==> IsDigit(s[k]) || s[k] == '-'
    ensures i >= 0 ==> s == NatToString(i)
  {
    if i < 0 then "-" + NatToString(Magnitude(i)) else NatToString(Magnitude(i))
  }

  function Repeat(c: char, n: nat): (s: string)
    ensures |s| == n && forall k :: 0 <= k < n ==> s[k] == c
  {
    if n == 0 then [] else [c] + Repeat(c, n - 1)
  }

  /** `s` left-filled with '0' up to width `w`. */
  function ZeroFill(s: string, w: nat): string {
    if |s| >= w then s else Repeat('0', w - |s|) + s
  }

  /** The fill is at least `w` wide, ends with `s`, and has only '0' in front of it. */
  lemma ZeroFillShape(s: string, w: nat)
    ensures var r := ZeroFill(s, w);
      && |r| == (if |s| >= w then |s| else w)
      && r[|r| - |s|..] == s
      && forall k | 0 <= k < |r| - |s| :: r[k] == '0'
  {
  }

  /**
   * Python's `format(i, "0wd")`: the digits are zero-filled so that sign and
   * digits together take at least `w` characters (so `format(-5, "03d")` is "-05").
   */
  function PadInt(i: int, w: nat): string {
    if i >= 0 then ZeroFill(NatToString(Magnitude(i)), w)
    else "-" + ZeroFill(NatToString(Magnitude(i)), if w == 0 then 0 else w - 1)
  }

  lemma {:induction false} PadIntSmall(n: nat, w: nat)
    requires 1 <= w && n < Pow10(w)
    ensures |PadInt(n, w)| == w && AllDigits(PadInt(n, w))
    ensures DigitsValue(PadInt(n, w)) == n
  {
    NatToStringLength(n, w);
    PadIntFits(n, w);
  }

  /** A numeral no wider than `w` is zero-filled to exactly `w` digits of the same value. */
  lemma PadIntFits(n: nat, w: nat)
    requires |NatToString(n)| <= w
    ensures |PadInt(n, w)| == w && AllDigits(PadInt(n, w))
    ensures DigitsValue(PadInt(n, w)) == n
  {
    var s := NatToString(n);
    assert PadInt(n, w) == ZeroFill(s, w);
    DigitsValueOfNatToString(n);
    ZeroFillValue(s, w);
  }

  function Pow10(k: nat): (p: nat)
    ensures p >= 1
  {
    if k == 0 then 1 else 10 * Pow10(k - 1)
  }

  lemma {:induction false} NatToStringLength(n: nat, w: nat)
    requires 1 <= w && n < Pow10(w)
    ensures |NatToString(n)| <= w
    decreases n
  {
    if n >= 10 {
      assert w >= 2;
      assert n / 10 < Pow10(w - 1);
      NatToStringLength(n / 10, w - 1);
    }
  }

  lemma {:induction false} ZeroFillValue(s: string, w: nat)
    requires AllDigits(s)
    ensures AllDigits(ZeroFill(s, w)) && DigitsValue(ZeroFill(s, w)) == DigitsValue(s)
    decreases w
  {
    if |s| < w {
      ZeroFillValue(s, w - 1);
      var t := ZeroFill(s, w - 1);
      assert ZeroFill(s, w) == "0" + t;
      LeadingZero(t);
    }
  }

  lemma {:induction false} LeadingZero(t: string)
    requires AllDigits(t)
    ensures AllDigits("0" + t) && DigitsValue("0" + t) == DigitsValue(t)
    decreases |t|
  {
    if t != [] {
      LeadingZero(t[..|t| - 1]);
      assert ("0" + t)[..|t|] == "0" + t[..|t| - 1];
    }
  }

  predicate IsPythonWhitespace(c: char) {
    c == ' ' || c == '\t' || c == '\n' || c == '\r' || c == '\U{B}' || c == '\U{C}'
  }

  /** `s.strip()` for ASCII whitespace. */
  function Strip(s: string): (r: string)
    ensures |r| <= |s|
    ensures (|s| == 0 || (!IsPythonWhitespace(s[0]) && !IsPythonWhitespace(s[|s| - 1]))) ==> r == s
    decreases |s|
  {
    if |s| > 0 && IsPythonWhitespace(s[0]) then Strip(s[1..])
    else if |s| > 0 && IsPythonWhitespace(s[|s| - 1]) then Strip(s[..|s| - 1])
    else s
  }

  function ParseNat(s: string): (r: Option<nat>)
    ensures r.Some? <==> (|s| > 0 && AllDigits(s))
  {
    if |s| > 0 && AllDigits(s) then Some(DigitsValue(s)) else None
  }

  /**
   * Python's `int(s)` on a string: surrounding whitespace, an optional sign,
   * then at least one decimal digit. `None` stands for the ValueError.
   */
  function ParseInt(s: string): (r: Option<int>)
    ensures r.Some? ==> exists k :: 0 <= k < |s| && IsDigit(s[k])
  {
    var t := Strip(s);
    if |t| > 0 && (t[0] == '-' || t[0] == '+') then
      match ParseNat(t[1..])
      case Some(n) => assert IsDigit(t[1..][0]); StripIsInfix(s, t[1..][0]); var v: int := n; Some(if t[0] == '-' then -v else v)
      case None => None
    else
      match ParseNat(t)
      case Some(n) => assert IsDigit(t[0]); StripIsInfix(s, t[0]); Some(n)
      case None => None
  }

  lemma {:induction false} StripIsInfix(s: string, c: char)
    requires c in Strip(s)
    ensures c in s
    decreases |s|
  {
    if |s| > 0 && IsPythonWhitespace(s[0]) {
      StripIsInfix(s[1..], c);
    } else if |s| > 0 && IsPythonWhitespace(s[|s| - 1]) {
      StripIsInfix(s[..|s| - 1], c);
    }
  }

  /** A character that can never be part of an integer literal makes `int()` fail. */
  lemma ParseIntRejects(s: string, k: nat)
    requires k < |s| && !IsDigit(s[k]) && !IsPythonWhitespace(s[k]) && s[k] != '-' && s[k] != '+'
    ensures ParseInt(s).None?
  {
    var t := Strip(s);
    StripKeeps(s, k);
    assert s[k] in t;
    var j :| 0 <= j < |t| && t[j] == s[k];
    if |t| > 0 && (t[0] == '-' || t[0] == '+') {
      assert j >= 1 && t[1..][j - 1] == s[k];
    } else {
      assert !IsDigit(t[j]);
    }
  }

  lemma {:induction false} StripKeeps(s: string, k: nat)
    requires k < |s| && !IsPythonWhitespace(s[k])
    ensures s[k] in Strip(s)
    decreases |s|
  {
    if |s| > 0 && IsPythonWhitespace(s[0]) {
      StripKeeps(s[1..], k - 1);
    } else if |s| > 0 && IsPythonWhitespace(s[|s| - 1]) {
      StripKeeps(s[..|s| - 1], k);
    }
  }

  /** `int()` of a non-empty digit string is its value. */
  lemma ParseIntOfDigits(s: string)
    requires |s| > 0 && AllDigits(s)
    ensures ParseInt(s) == Some(DigitsValue(s))
  {
    assert IsDigit(s[0]) && IsDigit(s[|s| - 1]);
    assert Strip(s) == s;
    assert ParseNat(s) == Some(DigitsValue(s));
  }

  function FirstIndexOf(s: string, c: char): (k: nat)
    ensures k <= |s|
    ensures k < |s| ==> s[k] == c
    ensures forall j :: 0 <= j < k ==> s[j] != c
  {
    if |s| == 0 || s[0] == c then 0 else 1 + FirstIndexOf(s[1..], c)
  }

  /** Python's `s.split(sep)` for a one-character separator. */
  function Split(s: string, sep: char): (parts: seq<string>)
    ensures |parts| >= 1
    decreases |s|
  {
    var k := FirstIndexOf(s, sep);
    if k == |s| then [s] else [s[..k]] + Split(s[k + 1..], sep)
  }

  lemma SplitCons(a: string, sep: char, rest: string)
    requires sep !in a
    ensures Split(a + [sep] + rest, sep) == [a] + Split(rest, sep)
  {
    var s := a + [sep] + rest;
    assert s[|a|] == sep;
    var k := FirstIndexOf(s, sep);
    assert forall j :: 0 <= j < |a| ==> s[j] == a[j];
    assert k == |a|;
    assert s[..k] == a && s[k + 1..] == rest;
  }

  lemma SplitNone(a: string, sep: char)
    requires sep !in a
    ensures Split(a, sep) == [a]
  {
    assert FirstIndexOf(a, sep) == |a|;
  }

  predicate StartsWith(s: string, prefix: string) {
    |prefix| <= |s| && s[..|prefix|] == prefix
  }

  predicate EndsWith(s: string, suffix: string) {
    |suffix| <= |s| && s[|s| - |suffix|..] == suffix
  }

  /** Python's `sub in s` on strings. */
  predicate Contains(s: string, sub: string) {
    exists i | 0 <= i <= |s| - |sub| :: OccursAt(s, sub, i)
  }

  predicate OccursAt(s: string, sub: string, i: nat)
    requires i + |sub| <= |s|
  {
    s[i..i + |sub|] == sub
  }

  lemma ContainsMiddle(a: string, b: string, c: string)
    ensures Contains(a + b + c, b)
  {
    var s := a + b + c;
    assert OccursAt(s, b, |a|);
  }

  /** Python's `s.replace(from, to)` for a one-character `from`. */
  function ReplaceChar(s: string, from: char, to: string): (r: string)
    ensures from !in to ==> from !in r
    ensures from !in s ==> r == s
  {
    if s == [] then []
    else (if s[0] == from then to else [s[0]]) + ReplaceChar(s[1..], from, to)
  }
}

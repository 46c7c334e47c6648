/**
  The few pieces of Python 2 text handling the harness relies on:
  `str()` of an integer, `int()` of a command-line argument, and
  strings of spaces.
*/
module PyText {
  import opened Wrappers

  predicate IsDigit(c: char) {
    '0' <= c <= '9'
  }

  predicate AllDigits(s: string) {
    forall k :: 0 <= k < |s| ==> IsDigit(s[k])
  }

  /** The whitespace Python's `int()` skips around its argument and after its sign. */
  predicate IsSpace(c: char) {
    c == ' ' || c == '\t' || c == '\n' || c == '\r' || c == 11 as char || c == 12 as char
  }

  function DigitValue(c: char): (d: nat)
    requires IsDigit(c)
    ensures d < 10
  {
    c as int - '0' as int
  }

  function DigitChar(d: nat): (c: char)
    requires d < 10
    ensures IsDigit(c) && DigitValue(c) == d
  {
    ('0' as int + d) as char
  }

  /** `str(n)` for a non-negative integer: decimal digits, most significant first. */
  function NatToString(n: nat): (s: string)
    ensures |s| >= 1 && AllDigits(s)
    ensures |s| > 1 ==> s[0] != '0'
    decreases n
  {
    if n < 10 then [DigitChar(n)]
    else NatToString(n / 10) + [DigitChar(n % 10)]
  }

  /** `str(i)` for any integer. */
  function IntToString(i: int): (s: string)
    ensures |s| >= 1
    ensures i >= 0 ==> s == NatToString(i)
    ensures i < 0 ==> s == "-" + NatToString(-i)
  {
    if i < 0 then "-" + NatToString(-i) else NatToString(i)
  }

  /** The value of a string of decimal digits. */
  function DigitsValue(s: string): nat
    requires AllDigits(s)
  {
    if s == [] then 0
    else DigitsValue(s[..|s| - 1]) * 10 + DigitValue(s[|s| - 1])
  }

  lemma {:induction false} NatToStringValue(n: nat)
    ensures DigitsValue(NatToString(n)) == n
    decreases n
  {
    var s := NatToString(n);
    if n >= 10 {
      assert s[..|s| - 1] == NatToString(n / 10);
      NatToStringValue(n / 10);
    }
  }

  /** Distinct numbers print differently, so `base + '/' + str(i)` names distinct paths. */
  lemma NatToStringInjective(m: nat, n: nat)
    requires NatToString(m) == NatToString(n)
    ensures m == n
  {
    NatToStringValue(m);
    NatToStringValue(n);
  }

  function TrimLeft(s: string): (r: string)
    ensures |r| <= |s| && r == s[|s| - |r|..]
    ensures r != [] ==> !IsSpace(r[0])
  {
    if s != [] && IsSpace(s[0]) then TrimLeft(s[1..]) else s
  }

  function TrimRight(s: string): (r: string)
    ensures |r| <= |s| && r == s[..|r|]
    ensures r != [] ==> !IsSpace(r[|r| - 1])
  {
    if s != [] && IsSpace(s[|s| - 1]) then TrimRight(s[..|s| - 1]) else s
  }

  /**
    The value of an optionally signed run of digits with no whitespace
    around it. After the sign, whitespace may come before the digits: the
    digits are read by `strtoul`, which skips leading whitespace itself.
  */
  function SignedValue(t: string): Option<int>
  {
    if |t| > 0 && (t[0] == '-' || t[0] == '+') then
      match DigitsOnly(SkipSpaces(t, 1))
      case Some(v) => Some(if t[0] == '-' then -v else v)
      case None => None
    else DigitsOnly(t)
  }

  /** What follows position `i` of `t` once the whitespace there is skipped. */
  function SkipSpaces(t: string, i: nat): string
    requires i <= |t|
    decreases |t| - i
  {
    if i < |t| && IsSpace(t[i]) then SkipSpaces(t, i + 1) else t[i..]
  }

  /** The value of one or more digits and nothing else. */
  function DigitsOnly(d: string): Option<int>
  {
    if d != [] && AllDigits(d) then Some(DigitsValue(d)) else None
  }

  /**
    Python 2 `int(arg)` on a string: optional whitespace, an optional sign,
    optional whitespace, one or more decimal digits, optional whitespace.
  */
  function ParseInt(arg: string): Option<int>
  {
    SignedValue(TrimRight(TrimLeft(arg)))
  }

  lemma TrimUnpadded(s: string)
    requires s != [] && !IsSpace(s[0]) && !IsSpace(s[|s| - 1])
    ensures TrimRight(TrimLeft(s)) == s
  {
  }

  /** `int(str(i)) == i`. */
  lemma ParseIntOfIntToString(i: int)
    ensures ParseInt(IntToString(i)) == Some(i)
  {
    var m: nat := if i < 0 then -i else i;
    NatToStringValue(m);
    if i < 0 {
      var s := IntToString(i);
      assert s[1..] == NatToString(m);
      ParseIntSpacedSign(s, 1);
    } else {
      ParseDigits(NatToString(m));
    }
  }

  /** Digits alone read back as their value. */
  lemma ParseDigits(t: string)
    requires t != [] && AllDigits(t)
    ensures ParseInt(t) == Some(DigitsValue(t) as int)
  {
    assert IsDigit(t[0]) && IsDigit(t[|t| - 1]);
    TrimUnpadded(t);
  }

  /** Skipping from `i` passes over whitespace up to the first other character, at `j`. */
  lemma {:induction false} SkipPadding(t: string, i: nat, j: nat)
    requires i <= j < |t| && !IsSpace(t[j])
    requires forall m :: i <= m < j ==> IsSpace(t[m])
    ensures SkipSpaces(t, i) == t[j..]
    decreases j - i
  {
    if i < j {
      SkipPadding(t, i + 1, j);
    }
  }

  /**
    `int()` reads a sign, whitespace up to position `j`, then digits to the
    end: `'+ 5'` is 5 and `'-\t5'` is -5.
  */
  lemma ParseIntSpacedSign(t: string, j: nat)
    requires 1 <= j < |t| && (t[0] == '-' || t[0] == '+')
    requires forall m :: 1 <= m < j ==> IsSpace(t[m])
    requires AllDigits(t[j..])
    ensures ParseInt(t) == Some(if t[0] == '-' then -(DigitsValue(t[j..]) as int) else DigitsValue(t[j..]) as int)
  {
    assert IsDigit(t[j..][0]) && IsDigit(t[j..][|t| - j - 1]);
    SkipPadding(t, 1, j);
    TrimUnpadded(t);
  }

  /** A string of `n` spaces (empty when `n` is not positive). */
  function Spaces(n: int): (s: string)
    ensures |s| == if n < 0 then 0 else n
    ensures forall k :: 0 <= k < |s| ==> s[k] == ' '
  {
    if n <= 0 then "" else Spaces(n - 1) + " "
  }
}

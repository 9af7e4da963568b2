/**
 * Decimal text of integers as JavaScript's String(n) writes it, and
 * parseInt(s, 10) as section 15.1.2.2 of ECMA-262 5.1 defines it.
 */
module Numbers {
  import opened Wrappers

  predicate IsDigit(c: char) {
    '0' <= c <= '9'
  }

  function DigitChar(d: nat): (c: char)
    requires d < 10
    ensures IsDigit(c)
  {
    ['0', '1', '2', '3', '4', '5', '6', '7', '8', '9'][d]
  }

  function DigitValue(c: char): (d: nat)
    requires IsDigit(c)
    ensures d < 10
  {
    (c as int - '0' as int) as nat
  }

  /** Decimal digits of n, without leading zeros. */
  function NatText(n: nat): (s: string)
    ensures |s| >= 1
    ensures forall i :: 0 <= i < |s| ==> IsDigit(s[i])
  {
    if n < 10 then [DigitChar(n)] else NatText(n / 10) + [DigitChar(n % 10)]
  }

  /** String(n) for an integral Number: a minus sign, then the digits. */
  function IntText(n: int): (s: string)
    ensures |s| >= 1 && (s[0] == '-' || IsDigit(s[0]))
  {
    if n < 0 then "-" + NatText(-n) else NatText(n)
  }

  /** Value of a string of decimal digits, read most significant first. */
  function DigitsValue(s: string): nat
    requires forall i :: 0 <= i < |s| ==> IsDigit(s[i])
  {
    if s == [] then 0 else DigitsValue(s[..|s| - 1]) * 10 + DigitValue(s[|s| - 1])
  }

  /** Length of the longest prefix of s made of decimal digits. */
  function DigitRun(s: string): (k: nat)
    ensures k <= |s|
    ensures forall i :: 0 <= i < k ==> IsDigit(s[i])
    ensures k < |s| ==> !IsDigit(s[k])
  {
    if s == [] || !IsDigit(s[0]) then 0 else 1 + DigitRun(s[1..])
  }

  /**
   * The characters parseInt skips before the number: WhiteSpace and
   * LineTerminator of ECMA-262 5.1 (sections 7.2 and 7.3). The space
   * separators of Unicode category Zs are U+0020, U+00A0, U+1680,
   * U+2000 to U+200A, U+202F, U+205F and U+3000.
   */
  predicate IsJsSpace(c: char) {
    || c in {'\t', '\n', '\U{000B}', '\U{000C}', '\r', '\U{2028}', '\U{2029}', '\U{FEFF}'}
    || c in {' ', '\U{00A0}', '\U{1680}', '\U{202F}', '\U{205F}', '\U{3000}'}
    || '\U{2000}' <= c <= '\U{200A}'
  }

  /** s with its leading white space removed. */
  function TrimStart(s: string): (r: string)
    ensures |r| <= |s| && r == s[|s| - |r|..]
    ensures forall i :: 0 <= i < |s| - |r| ==> IsJsSpace(s[i])
    ensures r == [] || !IsJsSpace(r[0])
  {
    if s != [] && IsJsSpace(s[0]) then TrimStart(s[1..]) else s
  }

  /** t starts with a digit, or with a sign and a digit. */
  predicate OpensWithNumber(t: string) {
    || (t != [] && IsDigit(t[0]))
    || (|t| >= 2 && (t[0] == '-' || t[0] == '+') && IsDigit(t[1]))
  }

  predicate OpensWithMinus(t: string) {
    t != [] && t[0] == '-'
  }

  /**
   * parseInt(s, 10): skip leading white space, take an optional sign, then
   * the longest run of decimal digits; no digit at all gives NaN (None).
   */
  function ParseInt(s: string): (r: Option<int>)
    ensures r.Some? <==> OpensWithNumber(TrimStart(s))
    ensures r.Some? && r.value < 0 ==> OpensWithMinus(TrimStart(s))
  {
    ParseSigned(TrimStart(s))
  }

  /** The sign and digit scan of parseInt, on text whose white space is already skipped. */
  function ParseSigned(t: string): (r: Option<int>)
    ensures r.Some? <==> OpensWithNumber(t)
    ensures r.Some? && r.value < 0 ==> OpensWithMinus(t)
  {
    var negative := t != [] && t[0] == '-';
    var body := if t != [] && (t[0] == '-' || t[0] == '+') then t[1..] else t;
    var k := DigitRun(body);
    assert k > 0 <==> body != [] && IsDigit(body[0]);
    if k == 0 then None
    else
      var v: int := DigitsValue(body[..k]);
      Some(if negative then -v else v)
  }

  lemma {:induction false} NatTextValue(n: nat)
    ensures DigitsValue(NatText(n)) == n
  {
    if n >= 10 {
      NatTextValue(n / 10);
      var s := NatText(n);
      assert s[..|s| - 1] == NatText(n / 10);
    }
  }

  /** The digit scan of digits followed by a non-digit stops right after the digits. */
  lemma {:induction false} DigitRunPrefix(d: string, rest: string)
    requires forall i :: 0 <= i < |d| ==> IsDigit(d[i])
    requires rest == [] || !IsDigit(rest[0])
    ensures DigitRun(d + rest) == |d|
  {
    if d != [] {
      assert (d + rest)[1..] == d[1..] + rest;
      DigitRunPrefix(d[1..], rest);
    }
  }

  /**
   * parseInt reads back the integer String(n) wrote, whatever follows it,
   * as long as the text after it does not start with a digit.
   */
  lemma ParseIntPrefix(n: int, rest: string)
    requires rest == [] || !IsDigit(rest[0])
    ensures ParseInt(IntText(n) + rest) == Some(n)
  {
    hide NatText, DigitsValue, DigitRun, TrimStart;
    var m: nat := if n < 0 then -n else n;
    var d := NatText(m);
    var s := IntText(n) + rest;
    assert s == if n < 0 then "-" + (d + rest) else d + rest;
    TrimStartNoSpace(s);
    var body := if n < 0 then s[1..] else s;
    assert body == d + rest;
    DigitRunPrefix(d, rest);
    assert body[..|d|] == d;
    NatTextValue(m);
  }

  /** parseInt reads back exactly the integer that String(n) wrote. */
  lemma ParseIntText(n: int)
    ensures ParseInt(IntText(n)) == Some(n)
  {
    ParseIntPrefix(n, []);
    assert IntText(n) + [] == IntText(n);
  }

  lemma TrimStartNoSpace(s: string)
    requires s != [] && !IsJsSpace(s[0])
    ensures TrimStart(s) == s
  {
  }

  /** A string that starts with no digit, no sign and no white space is NaN to parseInt. */
  lemma ParseIntNoDigits(s: string)
    requires s != [] && !IsDigit(s[0]) && !IsJsSpace(s[0]) && s[0] != '-' && s[0] != '+'
    ensures ParseInt(s) == None
  {
  }

  /** Number-to-string is injective on integers. */
  lemma IntTextInjective(a: int, b: int)
    requires IntText(a) == IntText(b)
    ensures a == b
  {
    ParseIntText(a);
    ParseIntText(b);
  }
}

/** Decimal digits: Python's `str.isdigit` (ASCII digits only), `int(s)` and `str(n)`. */
module Decimal {

  predicate IsDigit(c: char)
  {
    '0' <= c <= '9'
  }

  /** Every character is a digit; true of the empty string, like the source's digit loops. */
  predicate AllDigits(s: string)
  {
    forall i :: 0 <= i < |s| ==> IsDigit(s[i])
  }

  function DigitValue(c: char): (d: nat)
    requires IsDigit(c)
    ensures d < 10
  {
    c as int - '0' as int
  }

  function DigitChar(d: nat): (c: char)
    requires d < 10
    ensures IsDigit(c) && DigitValue(c) == d
  {
    ('0' as int + d) as char
  }

  /** `int(s)` for a string of digits. */
  function Value(s: string): nat
    requires AllDigits(s)
  {
    if |s| == 0 then 0
    else Value(s[..|s| - 1]) * 10 + DigitValue(s[|s| - 1])
  }

  /** `str(n)` for a natural number: decimal digits without leading zeros. */
  function Dec(n: nat): (s: string)
    ensures |s| >= 1 && AllDigits(s)
    ensures |s| == 1 <==> n < 10
    decreases n
  {
    if n < 10 then [DigitChar(n)] else Dec(n / 10) + [DigitChar(n % 10)]
  }

  /** `str(i)` for any integer. */
  function IntStr(i: int): (s: string)
    ensures |s| >= 1
    ensures 0 <= i ==> s == Dec(i)
    ensures i < 0 ==> s[0] == '-'
  {
    if i < 0 then "-" + Dec(-i) else Dec(i)
  }

  /** `"{:02d}".format(n)`: at least two digits, padded with a leading zero. */
  function Pad2(n: nat): (s: string)
    ensures AllDigits(s)
    ensures n < 100 ==> |s| == 2
    ensures Value(s) == n
  {
    if n < 10 then
      var s := "0" + Dec(n);
      assert s[..|s| - 1] == "0" && Value("0") == 0;
      s
    else
      ValueOfDec(n);
      Dec(n)
  }

  /** Appending a digit multiplies by ten and adds it. */
  lemma ValueSnoc(s: string, c: char)
    requires AllDigits(s) && IsDigit(c)
    ensures AllDigits(s + [c]) && Value(s + [c]) == Value(s) * 10 + DigitValue(c)
  {
    assert (s + [c])[..|s|] == s;
  }

  /** `int(str(n)) == n`. */
  lemma {:induction false} ValueOfDec(n: nat)
    ensures Value(Dec(n)) == n
    decreases n
  {
    if n >= 10 {
      var s := Dec(n);
      assert s[..|s| - 1] == Dec(n / 10);
      ValueOfDec(n / 10);
    }
  }

  /** Distinct numbers have distinct decimal spellings. */
  lemma DecInjective(a: nat, b: nat)
    requires a != b
    ensures Dec(a) != Dec(b)
  {
    ValueOfDec(a);
    ValueOfDec(b);
  }

  /** A decimal spelling holds no separator character. */
  lemma NoSeparatorInDigits(s: string, c: char)
    requires AllDigits(s) && !IsDigit(c)
    ensures c !in s
  {
  }
}

/** Decimal digit strings: the text JavaScript's Number::toString gives an
    integer, its value, and the array-index keys that property enumeration
    lists first (section 6.1.7 of ECMA-262, 2023 edition). */
module Decimal {

  predicate IsDigit(c: char) {
    '0' <= c <= '9'
  }

  predicate AllDigits(s: string) {
    forall i :: 0 <= i < |s| ==> IsDigit(s[i])
  }

  function DigitValue(c: char): nat
    requires IsDigit(c)
  {
    c as int - '0' as int
  }

  function DigitChar(d: nat): (c: char)
    requires d < 10
    ensures IsDigit(c) && DigitValue(c) == d
  {
    ('0' as int + d) as char
  }

  /** The value of a string of decimal digits; the empty string has value 0. */
  function DigitsValue(s: string): nat
    requires AllDigits(s)
    decreases |s|
  {
    if |s| == 0 then 0 else DigitsValue(s[..|s| - 1]) * 10 + DigitValue(s[|s| - 1])
  }

  /** The form Number::toString produces for a non-negative integer: "0", or
      digits that do not start with 0. */
  predicate IsCanonical(s: string) {
    |s| >= 1 && AllDigits(s) && (s[0] == '0' ==> |s| == 1)
  }

  /** Number::toString of a non-negative integer (exact below 10^21, where
      JavaScript switches to exponent notation). */
  function NatToDecimal(n: nat): (s: string)
    ensures IsCanonical(s)
    ensures DigitsValue(s) == n
    decreases n
  {
    if n < 10 then [DigitChar(n)]
    else
      var s := NatToDecimal(n / 10) + [DigitChar(n % 10)];
      assert s[..|s| - 1] == NatToDecimal(n / 10);
      s
  }

  /** Number::toString of any integer: a minus sign before the digits of a negative one. */
  function IntToDecimal(n: int): string
  {
    if n < 0 then "-" + NatToDecimal(-n) else NatToDecimal(n)
  }

  lemma {:induction false} LeadingDigitPositive(s: string)
    requires |s| >= 1 && AllDigits(s) && s[0] != '0'
    ensures DigitsValue(s) >= 1
    decreases |s|
  {
    if |s| > 1 {
      LeadingDigitPositive(s[..|s| - 1]);
    }
  }

  /** Reading a canonical digit string and printing the value gives the string back. */
  lemma {:induction false} CanonicalRoundTrip(s: string)
    requires IsCanonical(s)
    ensures NatToDecimal(DigitsValue(s)) == s
    decreases |s|
  {
    var last := s[|s| - 1];
    if |s| == 1 {
      assert s == [last];
      assert DigitChar(DigitValue(last)) == last;
    } else {
      var p := s[..|s| - 1];
      assert p[0] == s[0] != '0';
      LeadingDigitPositive(p);
      CanonicalRoundTrip(p);
      var v := DigitsValue(s);
      assert v / 10 == DigitsValue(p) && v % 10 == DigitValue(last);
      assert DigitChar(DigitValue(last)) == last;
      assert s == p + [last];
    }
  }

  /** 2^32 - 1: array indices are the integers below it. */
  const ArrayIndexBound: nat := 4294967295

  /** An array index: a canonical numeric string whose value is below 2^32 - 1.
      These keys are enumerated first, in ascending numeric order. */
  predicate IsArrayIndex(s: string) {
    IsCanonical(s) && DigitsValue(s) < ArrayIndexBound
  }

  /** Distinct array-index keys have distinct numeric values. */
  lemma ArrayIndexInjective(a: string, b: string)
    requires IsArrayIndex(a) && IsArrayIndex(b) && DigitsValue(a) == DigitsValue(b)
    ensures a == b
  {
    CanonicalRoundTrip(a);
    CanonicalRoundTrip(b);
  }

  /** The property key an integer becomes is an array index exactly when the
      integer lies in 0 .. 2^32 - 2; it then reads back as that integer. */
  lemma IntKeyArrayIndex(n: int)
    ensures IsArrayIndex(IntToDecimal(n)) <==> 0 <= n < ArrayIndexBound
    ensures 0 <= n ==> DigitsValue(IntToDecimal(n)) == n
  {
    if n < 0 {
      assert !IsDigit(IntToDecimal(n)[0]);
    }
  }
}

/** The part of JavaScript's Number semantics the priority filter touches:
    StringToNumber (section 7.1.4.1.1 of ECMA-262, 2023 edition) and the
    outcome of IsLessThan on Numbers (section 7.2.13). Finite values are
    exact reals; rounding to binary64 is not modelled. */
module NumericString {
  import opened Seqs
  import opened Decimal

  /** A Number as far as ordering goes. */
  datatype Num = NaN | PosInfinity | NegInfinity | Finite(r: real)

  /** StrWhiteSpaceChar: a WhiteSpace (tab, vertical tab, form feed, byte
      order mark or a space separator of category Zs) or a LineTerminator. */
  predicate IsStrWhiteSpace(c: char) {
    var u := c as int;
    || u == 0x09 || u == 0x0B || u == 0x0C || u == 0xFEFF
    || u == 0x0A || u == 0x0D || u == 0x2028 || u == 0x2029
    || u == 0x20 || u == 0xA0 || u == 0x1680 || 0x2000 <= u <= 0x200A
    || u == 0x202F || u == 0x205F || u == 0x3000
  }

  /** `s` without its leading white space. */
  function TrimStart(s: string): (t: string)
    ensures |t| <= |s| && t == s[|s| - |t|..]
    ensures forall i :: 0 <= i < |s| - |t| ==> IsStrWhiteSpace(s[i])
    ensures |t| > 0 ==> !IsStrWhiteSpace(t[0])
    decreases |s|
  {
    if |s| > 0 && IsStrWhiteSpace(s[0]) then TrimStart(s[1..]) else s
  }

  /** `s` without its trailing white space. */
  function TrimEnd(s: string): (t: string)
    ensures |t| <= |s| && t == s[..|t|]
    ensures forall i :: |t| <= i < |s| ==> IsStrWhiteSpace(s[i])
    ensures |t| > 0 ==> !IsStrWhiteSpace(t[|t| - 1])
    decreases |s|
  {
    if |s| > 0 && IsStrWhiteSpace(s[|s| - 1]) then TrimEnd(s[..|s| - 1]) else s
  }

  function Pow10(k: nat): (p: nat)
    ensures p >= 1
  {
    if k == 0 then 1 else 10 * Pow10(k - 1)
  }

  /** m × 10^e, exactly. */
  function Scale(m: nat, e: int): real {
    if e >= 0 then (m * Pow10(e)) as real else m as real / Pow10(-e) as real
  }

  function Min(a: nat, b: nat): nat {
    if a <= b then a else b
  }

  /** DecimalDigits: at least one digit. */
  predicate IsDigits(x: string) {
    |x| >= 1 && AllDigits(x)
  }

  /** SignedInteger: digits with an optional sign. */
  predicate IsSignedInteger(x: string) {
    IsDigits(x) || (|x| >= 1 && (x[0] == '+' || x[0] == '-') && IsDigits(x[1..]))
  }

  function SignedIntegerValue(x: string): int
    requires IsSignedInteger(x)
  {
    if x[0] == '-' then -(DigitsValue(x[1..]) as int)
    else if x[0] == '+' then DigitsValue(x[1..])
    else DigitsValue(x)
  }

  /** StrUnsignedDecimalLiteral: "Infinity", or digits with an optional
      fraction and exponent and at least one digit before the exponent;
      anything else is NaN. */
  function ParseUnsignedDecimal(u: string): Num {
    if u == "Infinity" then PosInfinity
    else
      var e := Min(IndexOf(u, 'e'), IndexOf(u, 'E'));
      var mantissa := u[..e];
      var d := IndexOf(mantissa, '.');
      var whole := mantissa[..d];
      var fraction := if d < |mantissa| then mantissa[d + 1..] else "";
      if (e == |u| || IsSignedInteger(u[e + 1..]))
         && AllDigits(whole) && AllDigits(fraction) && |whole| + |fraction| >= 1
      then
        var exponent := if e == |u| then 0 else SignedIntegerValue(u[e + 1..]);
        assert AllDigits(whole + fraction);
        Finite(Scale(DigitsValue(whole + fraction), exponent - |fraction|))
      else NaN
  }

  function Negate(n: Num): Num {
    match n
    case NaN => NaN
    case PosInfinity => NegInfinity
    case NegInfinity => PosInfinity
    case Finite(r) => Finite(-r)
  }

  /** StrDecimalLiteral: an unsigned literal with an optional sign. */
  function ParseDecimal(t: string): Num
    requires |t| >= 1
  {
    if t[0] == '+' then ParseUnsignedDecimal(t[1..])
    else if t[0] == '-' then Negate(ParseUnsignedDecimal(t[1..]))
    else ParseUnsignedDecimal(t)
  }

  /** The radix a "0x", "0o" or "0b" prefix (either case) announces, or 0. */
  function PrefixRadix(t: string): nat {
    if |t| < 2 || t[0] != '0' then 0
    else if t[1] == 'x' || t[1] == 'X' then 16
    else if t[1] == 'o' || t[1] == 'O' then 8
    else if t[1] == 'b' || t[1] == 'B' then 2
    else 0
  }

  /** The value of `c` as a digit of any radix up to 16, or 16 when it is none. */
  function HexDigitValue(c: char): nat {
    if '0' <= c <= '9' then c as int - '0' as int
    else if 'a' <= c <= 'f' then c as int - 'a' as int + 10
    else if 'A' <= c <= 'F' then c as int - 'A' as int + 10
    else 16
  }

  predicate AllRadixDigits(s: string, radix: nat) {
    forall i :: 0 <= i < |s| ==> HexDigitValue(s[i]) < radix
  }

  function RadixValue(s: string, radix: nat): nat
    requires AllRadixDigits(s, radix)
    decreases |s|
  {
    if |s| == 0 then 0 else RadixValue(s[..|s| - 1], radix) * radix + HexDigitValue(s[|s| - 1])
  }

  /** NonDecimalIntegerLiteral: a prefix and at least one digit of its radix; no sign. */
  function ParseNonDecimal(t: string): Num
    requires PrefixRadix(t) != 0
  {
    var digits := t[2..];
    if |digits| >= 1 && AllRadixDigits(digits, PrefixRadix(t))
    then Finite(RadixValue(digits, PrefixRadix(t)) as real)
    else NaN
  }

  /** StringToNumber: trim white space; the empty string is 0; otherwise the
      whole remaining text must be one numeric literal, or the result is NaN. */
  function StringToNumber(s: string): Num {
    var t := TrimEnd(TrimStart(s));
    if |t| == 0 then Finite(0.0)
    else if PrefixRadix(t) != 0 then ParseNonDecimal(t)
    else ParseDecimal(t)
  }

  /** The outcome of IsLessThan: true, false, or undefined when NaN is involved. */
  datatype Ordered = IsLess | IsNotLess | Unordered

  /** IsLessThan(x, y) for a Number x and an integral Number y. */
  function NumberLessThan(x: Num, y: int): Ordered {
    match x
    case NaN => Unordered
    case PosInfinity => IsNotLess
    case NegInfinity => IsLess
    case Finite(r) => if r < y as real then IsLess else IsNotLess
  }

  /** A plain run of digits parses as its decimal value. */
  lemma ParseDigits(u: string)
    requires IsDigits(u)
    ensures ParseUnsignedDecimal(u) == Finite(DigitsValue(u) as real)
  {
    NoMarkers(u);
    assert u[..|u|] == u;
    assert u + "" == u;
  }

  /** Digits contain no exponent marker or decimal point and do not spell "Infinity". */
  lemma NoMarkers(u: string)
    requires IsDigits(u)
    ensures IndexOf(u, 'e') == |u| && IndexOf(u, 'E') == |u| && IndexOf(u, '.') == |u|
    ensures u != "Infinity"
  {
    forall i | 0 <= i < |u| ensures u[i] != 'e' && u[i] != 'E' && u[i] != '.' {
      assert IsDigit(u[i]);
    }
    assert IsDigit(u[0]);
  }

  /** Text that neither starts nor ends with white space is its own trim. */
  lemma TrimUnchanged(t: string)
    requires |t| >= 1 && !IsStrWhiteSpace(t[0]) && !IsStrWhiteSpace(t[|t| - 1])
    ensures TrimEnd(TrimStart(t)) == t
  {
  }

  /** Text without a sign or radix prefix is read as an unsigned decimal literal. */
  lemma UnsignedReading(t: string)
    requires IsDigits(t) && !IsStrWhiteSpace(t[0]) && !IsStrWhiteSpace(t[|t| - 1])
    requires |t| >= 2 ==> t[0] != '0'
    ensures StringToNumber(t) == ParseUnsignedDecimal(t)
  {
    TrimUnchanged(t);
  }

  /** Text with a leading minus is read as the negated unsigned literal after it. */
  lemma NegativeReading(t: string)
    requires |t| >= 2 && t[0] == '-' && !IsStrWhiteSpace(t[|t| - 1])
    ensures StringToNumber(t) == Negate(ParseUnsignedDecimal(t[1..]))
  {
    TrimUnchanged(t);
  }

  /** The text Number::toString gives an integer reads back as that integer. */
  lemma IntToDecimalRoundTrip(n: int)
    ensures StringToNumber(IntToDecimal(n)) == Finite(n as real)
  {
    var m: nat := if n < 0 then -n else n;
    var u := NatToDecimal(m);
    assert IsDigit(u[0]) && IsDigit(u[|u| - 1]);
    ParseDigits(u);
    if n < 0 {
      var t := "-" + u;
      assert t[1..] == u;
      NegativeReading(t);
    } else {
      UnsignedReading(u);
    }
  }
}

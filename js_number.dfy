/**
 * The pieces of ECMAScript number behaviour that the application relies on:
 * `Number.prototype.toString` on non-negative integers below 10^21, the `Number(string)`
 * conversion (StringToNumber) behind `isNaN`, `Number(…)` and the relational
 * operators, and the comparisons made on its result.
 *
 * Numbers are exact: the model keeps the mathematical value of a numeric
 * string and does not round it to an IEEE 754 double.
 */
module JsNumber {
  import opened JsString
  import opened Optional

  /** The result of `Number(s)`: NaN, a finite value, or one of the two infinities. */
  datatype NumberValue = NaN | Finite(value: real) | PosInfinity | NegInfinity

  /** `x > bound` on a number and a finite right operand; false for NaN. */
  predicate GreaterThan(x: NumberValue, bound: real) {
    match x
    case NaN => false
    case Finite(v) => v > bound
    case PosInfinity => true
    case NegInfinity => false
  }

  /** `x < bound` on a number and a finite right operand; false for NaN. */
  predicate LessThan(x: NumberValue, bound: real) {
    match x
    case NaN => false
    case Finite(v) => v < bound
    case PosInfinity => false
    case NegInfinity => true
  }

  // ---------------------------------------------------------------------
  // Decimal digits

  predicate AllDigits(s: string) {
    forall i :: 0 <= i < |s| ==> IsAsciiDigit(s[i])
  }

  /** A decimal numeral as `toString` writes it: no leading zero except the numeral `0` itself. */
  predicate Canonical(s: string) {
    s == "0" || (s != [] && s[0] != '0')
  }

  function DigitValue(c: char): nat
    requires IsAsciiDigit(c)
  {
    c as int - '0' as int
  }

  function DigitChar(d: nat): (c: char)
    requires d < 10
    ensures IsAsciiDigit(c) && DigitValue(c) == d
  {
    ('0' as int + d) as char
  }

  /** The value of a string of decimal digits, most significant first. */
  function DecimalValue(s: string): nat
    requires AllDigits(s)
  {
    if s == [] then 0 else DecimalValue(s[..|s| - 1]) * 10 + DigitValue(s[|s| - 1])
  }

  /**
   * `n.toString()` for a non-negative integer `n` below 10^21: its canonical
   * decimal numeral. From 10^21 up ECMAScript writes the exponent form
   * instead; that form is not modelled.
   */
  function NatToDecimal(n: nat): (r: string)
    ensures r != [] && AllDigits(r) && Canonical(r)
    ensures DecimalValue(r) == n
  {
    if n < 10 then [DigitChar(n)]
    else
      var p := NatToDecimal(n / 10);
      var r := p + [DigitChar(n % 10)];
      assert r[..|r| - 1] == p;
      r
  }

  /** A decimal numeral that starts with a non-zero digit has a positive value. */
  lemma {:induction false} DecimalPositive(s: string)
    requires AllDigits(s) && s != [] && s[0] != '0'
    ensures DecimalValue(s) > 0
  {
    if |s| > 1 {
      var p := s[..|s| - 1];
      assert p[0] == s[0];
      DecimalPositive(p);
    }
  }

  /** Every canonical numeral is the `toString` of its own value: decimal parsing inverts `toString`. */
  lemma {:induction false} NatToDecimalOfValue(s: string)
    requires AllDigits(s) && Canonical(s)
    ensures NatToDecimal(DecimalValue(s)) == s
  {
    var v := DecimalValue(s);
    if |s| == 1 {
      assert s[..0] == [];
      assert v == DecimalValue(s[..0]) * 10 + DigitValue(s[0]);
      assert [DigitChar(v)] == s;
    } else {
      var p := s[..|s| - 1];
      assert p[0] == s[0];
      DecimalPositive(p);
      assert v / 10 == DecimalValue(p) && v % 10 == DigitValue(s[|s| - 1]);
      NatToDecimalOfValue(p);
      assert s == p + [s[|s| - 1]];
    }
  }

  /** The length of the longest prefix of `s` made of decimal digits. */
  function DigitRun(s: string): (n: nat)
    ensures n <= |s| && AllDigits(s[..n])
    ensures n < |s| ==> !IsAsciiDigit(s[n])
  {
    if s == [] || !IsAsciiDigit(s[0]) then 0
    else
      var n := 1 + DigitRun(s[1..]);
      assert s[..n] == [s[0]] + s[1..][..n - 1];
      n
  }

  // ---------------------------------------------------------------------
  // StringToNumber

  function Pow10(n: nat): (r: nat)
    ensures r >= 1
  {
    if n == 0 then 1 else 10 * Pow10(n - 1)
  }

  /** 10 raised to an integer exponent, as a real. */
  function Scale(e: int): real {
    if e >= 0 then Pow10(e) as real else 1.0 / Pow10(-e) as real
  }

  predicate IsRadixDigit(c: char, radix: nat) {
    || (IsAsciiDigit(c) && DigitValue(c) < radix)
    || (radix == 16 && (('a' <= c <= 'f') || ('A' <= c <= 'F')))
  }

  function RadixDigitValue(c: char, radix: nat): nat
    requires IsRadixDigit(c, radix)
  {
    if IsAsciiDigit(c) then DigitValue(c)
    else if 'a' <= c <= 'f' then c as int - 'a' as int + 10
    else c as int - 'A' as int + 10
  }

  function RadixValue(s: string, radix: nat): nat
    requires forall i :: 0 <= i < |s| ==> IsRadixDigit(s[i], radix)
  {
    if s == [] then 0 else RadixValue(s[..|s| - 1], radix) * radix + RadixDigitValue(s[|s| - 1], radix)
  }

  /** The digits after a `0x`, `0o` or `0b` prefix: NonDecimalIntegerLiteral. */
  function RadixLiteral(digits: string, radix: nat): NumberValue {
    if digits != [] && forall i :: 0 <= i < |digits| ==> IsRadixDigit(digits[i], radix)
    then Finite(RadixValue(digits, radix) as real)
    else NaN
  }

  /** The optional exponent part `e`/`E`, an optional sign, and digits, which must end the string. */
  function ExponentPart(s: string): Option<int> {
    if s == [] then Some(0)
    else if s[0] != 'e' && s[0] != 'E' then None
    else
      var signed := s[1..];
      var negative := signed != [] && signed[0] == '-';
      var digits := if signed != [] && (signed[0] == '+' || signed[0] == '-') then signed[1..] else signed;
      if digits != [] && AllDigits(digits) then
        Some(if negative then -(DecimalValue(digits) as int) else DecimalValue(digits))
      else None
  }

  /** StrUnsignedDecimalLiteral: `Infinity`, or digits with optional fraction and exponent. */
  function UnsignedDecimal(u: string): NumberValue {
    if u == "Infinity" then PosInfinity
    else
      var n := DigitRun(u);
      var whole := u[..n];
      var rest := u[n..];
      var hasDot := rest != [] && rest[0] == '.';
      var afterDot := if hasDot then rest[1..] else rest;
      var m := if hasDot then DigitRun(afterDot) else 0;
      var fraction := afterDot[..m];
      if whole == [] && fraction == [] then NaN
      else match ExponentPart(afterDot[m..])
        case None => NaN
        case Some(e) =>
          Finite(DecimalMagnitude(whole, fraction, e))
  }

  /** The value of `whole.fraction` times ten to the power `e`. */
  function DecimalMagnitude(whole: string, fraction: string, e: int): real
    requires AllDigits(whole) && AllDigits(fraction)
  {
    (DecimalValue(whole) as real + DecimalValue(fraction) as real / Pow10(|fraction|) as real) * Scale(e)
  }

  /** Digits without a fraction or an exponent are worth their decimal value. */
  lemma WholeMagnitude(whole: string)
    requires AllDigits(whole)
    ensures DecimalMagnitude(whole, [], 0) == DecimalValue(whole) as real
  {
    assert DecimalValue([]) == 0 && Pow10(0) == 1 && Scale(0) == 1.0;
  }

  function Negate(x: NumberValue): NumberValue {
    match x
    case NaN => NaN
    case Finite(v) => Finite(-v)
    case PosInfinity => NegInfinity
    case NegInfinity => PosInfinity
  }

  /** StrDecimalLiteral: an optional sign and an unsigned decimal literal. */
  function DecimalLiteral(t: string): NumberValue
    requires t != []
  {
    if t[0] == '+' then UnsignedDecimal(t[1..])
    else if t[0] == '-' then Negate(UnsignedDecimal(t[1..]))
    else UnsignedDecimal(t)
  }

  /**
   * `Number(s)` for a string `s` (StringToNumber): surrounding whitespace is
   * ignored, a blank string is 0, hexadecimal, octal and binary integer
   * literals take no sign, and anything that is not a numeric literal is NaN.
   */
  function StringToNumber(s: string): NumberValue {
    var t := Trim(s);
    if t == [] then Finite(0.0)
    else if |t| >= 2 && t[0] == '0' && (t[1] == 'x' || t[1] == 'X') then RadixLiteral(t[2..], 16)
    else if |t| >= 2 && t[0] == '0' && (t[1] == 'o' || t[1] == 'O') then RadixLiteral(t[2..], 8)
    else if |t| >= 2 && t[0] == '0' && (t[1] == 'b' || t[1] == 'B') then RadixLiteral(t[2..], 2)
    else DecimalLiteral(t)
  }

  /** `isNaN(s)` on a string. */
  predicate IsNaN(s: string) {
    StringToNumber(s) == NaN
  }

  /** A non-empty run of digits is an unsigned decimal literal with its decimal value. */
  lemma UnsignedOfDigits(d: string)
    requires d != [] && AllDigits(d)
    ensures UnsignedDecimal(d) == Finite(DecimalValue(d) as real)
  {
    assert d != "Infinity" by { assert IsAsciiDigit(d[0]); }
    var n := DigitRun(d);
    assert n == |d|;
    assert d[..n] == d;
    var rest := d[n..];
    assert rest == [];
    assert rest[..0] == [] && rest[0..] == [];
    assert ExponentPart([]) == Some(0);
    WholeMagnitude(d);
  }

  /** `Number(d)` of a string of decimal digits is its decimal value. */
  lemma NumberOfDigits(d: string)
    requires d != [] && AllDigits(d)
    ensures StringToNumber(d) == Finite(DecimalValue(d) as real)
  {
    assert IsAsciiDigit(d[0]) && IsAsciiDigit(d[|d| - 1]);
    TrimUnchanged(d);
    assert |d| >= 2 ==> IsAsciiDigit(d[1]);
    assert DecimalLiteral(d) == UnsignedDecimal(d);
    UnsignedOfDigits(d);
  }

  /** `Number(n.toString())` is `n`: the numeral of a non-negative integer converts back to it. */
  lemma NumberOfDecimal(n: nat)
    ensures StringToNumber(NatToDecimal(n)) == Finite(n as real)
  {
    NumberOfDigits(NatToDecimal(n));
  }
}

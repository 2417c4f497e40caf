/**
 * Finite Python `Decimal` values as (sign, coefficient, exponent) triples, and the
 * operations of the `decimal` module that the display code uses: `to_integral_value`,
 * `quantize`, `normalize`, `as_tuple().digits` and `format(d, 'f')`.
 * Rounding is ROUND_HALF_EVEN, the default context's mode.
 */
module Decimals {
  import opened Wrappers
  import Text

  /** (-1)^negative * coeff * 10^exp; the sign is kept for zero as well (`Decimal('-0.00')`). */
  datatype Dec = Dec(negative: bool, coeff: nat, exp: int)

  function Pow10(n: nat): (r: nat)
    ensures r >= 1
  {
    if n == 0 then 1 else 10 * Pow10(n - 1)
  }

  lemma {:induction false} Pow10Add(a: nat, b: nat)
    ensures Pow10(a + b) == Pow10(a) * Pow10(b)
  {
    if a > 0 {
      Pow10Add(a - 1, b);
    }
  }

  /** 10^e as an exact rational. */
  function Pow10Real(e: int): (r: real)
    ensures r > 0.0
    decreases if e >= 0 then e else -e
  {
    if e == 0 then 1.0
    else if e > 0 then 10.0 * Pow10Real(e - 1)
    else Pow10Real(e + 1) / 10.0
  }

  /** The number a decimal denotes. */
  function Value(d: Dec): real {
    var m := (d.coeff as real) * Pow10Real(d.exp);
    if d.negative then -m else m
  }

  /** A decimal is zero exactly when its coefficient is, and positive exactly when it is also unsigned. */
  lemma ValueSign(d: Dec)
    ensures Value(d) == 0.0 <==> d.coeff == 0
    ensures Value(d) > 0.0 <==> !d.negative && d.coeff > 0
  {
    var m := (d.coeff as real) * Pow10Real(d.exp);
    assert d.coeff > 0 ==> m > 0.0;
  }

  lemma Pow10RealStep(f: int, g: int)
    requires g == f + 1
    ensures Pow10Real(g) == 10.0 * Pow10Real(f)
  {
  }

  lemma Pow10AsReal(t: nat)
    requires t > 0
    ensures Pow10(t) as real == 10.0 * (Pow10(t - 1) as real)
  {
  }

  lemma TenTimes(p: real, q: real, r: real, x: real, y: real)
    requires q == x * y && p == 10.0 * q && r == 10.0 * x
    ensures p == r * y
  {
  }

  /** 10^(e + t) = 10^t * 10^e, with `f` standing for e + t. */
  lemma {:induction false} Pow10RealShift(e: int, t: nat, f: int)
    requires f == e + t
    ensures Pow10Real(f) == (Pow10(t) as real) * Pow10Real(e)
  {
    Pow10RealScaled(e, t, f);
    ScaledIsProduct(t, Pow10Real(e));
  }

  /** `x` multiplied by ten, `t` times. */
  function Scaled(t: nat, x: real): real {
    if t == 0 then x else 10.0 * Scaled(t - 1, x)
  }

  lemma {:induction false} Pow10RealScaled(e: int, t: nat, f: int)
    requires f == e + t
    ensures Pow10Real(f) == Scaled(t, Pow10Real(e))
  {
    if t > 0 {
      Pow10RealScaled(e, t - 1, f - 1);
      Pow10RealStep(f - 1, f);
    }
  }

  lemma {:induction false} ScaledIsProduct(t: nat, x: real)
    ensures Scaled(t, x) == (Pow10(t) as real) * x
  {
    if t > 0 {
      ScaledIsProduct(t - 1, x);
      Pow10AsReal(t);
      TenTimes(Scaled(t, x), Scaled(t - 1, x), Pow10(t) as real, Pow10(t - 1) as real, x);
    }
  }

  /** Moving `t` zeros from the coefficient into the exponent keeps the value. */
  lemma {:induction false} ValueShift(neg: bool, c: nat, e: int, t: nat)
    ensures Value(Dec(neg, c * Pow10(t), e)) == Value(Dec(neg, c, e + t))
    decreases t
  {
    if t == 0 {
      assert c * Pow10(0) == c;
    } else {
      var n := c * Pow10(t - 1);
      ValueShiftProduct(c, t, n);
      ValueShiftTen(neg, n, e);
      ValueShift(neg, c, e + 1, t - 1);
    }
  }

  lemma ValueShiftProduct(c: nat, t: nat, n: nat)
    requires t > 0 && n == c * Pow10(t - 1)
    ensures c * Pow10(t) == 10 * n
  {
  }

  /** One zero moved from the coefficient into the exponent. */
  lemma ValueShiftTen(neg: bool, n: nat, e: int)
    ensures Value(Dec(neg, 10 * n, e)) == Value(Dec(neg, n, e + 1))
  {
    Pow10RealStep(e, e + 1);
    RealTen(n as real, ((10 * n) as real), Pow10Real(e));
  }

  lemma RealTen(x: real, y: real, z: real)
    requires y == 10.0 * x
    ensures y * z == x * (10.0 * z)
  {
  }

  /** Number of decimal digits of a coefficient; 0 has the one digit `0`. */
  function NumDigits(n: nat): (k: nat)
    ensures k >= 1
  {
    if n < 10 then 1 else 1 + NumDigits(n / 10)
  }

  /** `NumDigits(n)` is the `k` with 10^(k-1) <= n < 10^k (or 1 for n == 0). */
  lemma {:induction false} NumDigitsBounds(n: nat)
    ensures n < Pow10(NumDigits(n))
    ensures n > 0 ==> Pow10(NumDigits(n) - 1) <= n
  {
    if n >= 10 {
      NumDigitsBounds(n / 10);
    }
  }

  function Dist(a: int, b: int): nat {
    if a >= b then a - b else b - a
  }

  /** `q` is an integer nearest to n / p, and an even one when n / p lies exactly halfway. */
  predicate NearestHalfEven(n: nat, p: nat, q: nat) {
    2 * Dist(q * p, n) <= p && (2 * Dist(q * p, n) == p ==> q % 2 == 0)
  }

  /** n / p rounded to an integer, ties to even. */
  function RoundHalfEven(n: nat, p: nat): (q: nat)
    requires p >= 1
    ensures NearestHalfEven(n, p, q)
  {
    var q, r := n / p, n % p;
    DivMod(n, p);
    if 2 * r > p || (2 * r == p && q % 2 == 1) then
      RoundUpNearest(n, p, q, r);
      q + 1
    else
      RoundDownNearest(n, p, q, r);
      q
  }

  lemma RoundDownNearest(n: nat, p: nat, q: nat, r: nat)
    requires n == q * p + r && r < p
    requires 2 * r < p || (2 * r == p && q % 2 == 0)
    ensures NearestHalfEven(n, p, q)
  {
    assert Dist(q * p, n) == r;
  }

  lemma RoundUpNearest(n: nat, p: nat, q: nat, r: nat)
    requires n == q * p + r && r < p
    requires 2 * r > p || (2 * r == p && q % 2 == 1)
    ensures NearestHalfEven(n, p, q + 1)
  {
    MulSplit(q, 1, p);
    assert Dist((q + 1) * p, n) == p - r;
  }

  lemma DivMod(n: nat, p: nat)
    requires p >= 1
    ensures n == (n / p) * p + n % p && 0 <= n % p < p
  {
  }

  lemma MulSplit(a: int, b: int, p: int)
    ensures (a + b) * p == a * p + b * p
  {
  }

  /** At most one integer is the half-even rounding of n / p. */
  lemma NearestHalfEvenUnique(n: nat, p: nat, a: nat, b: nat)
    requires p >= 1
    requires NearestHalfEven(n, p, a) && NearestHalfEven(n, p, b)
    ensures a == b
  {
    var lo, hi := if a < b then a else b, if a < b then b else a;
    MulSplit(lo, hi - lo, p);
    Gap(hi - lo, p, lo * p, hi * p, n);
  }

  /**
   * Two multiples of `p` that lie `d * p` apart and are both within p / 2 of `n` coincide or are
   * one step apart, both exactly halfway.
   */
  lemma Gap(d: nat, p: nat, x: int, y: int, n: int)
    requires p >= 1 && y == x + d * p
    requires 2 * Dist(x, n) <= p && 2 * Dist(y, n) <= p
    ensures d == 0 || (d == 1 && 2 * Dist(x, n) == p && 2 * Dist(y, n) == p)
  {
    if d >= 2 {
      MulSplit(2, d - 2, p);
    }
  }

  /** `Decimal.to_integral_value()`: integers are returned unchanged, other values rounded to exponent 0. */
  function ToIntegralValue(d: Dec): (r: Dec)
    ensures r.negative == d.negative
    ensures d.exp >= 0 ==> r == d
    ensures d.exp < 0 ==> r.exp == 0 && NearestHalfEven(d.coeff, Pow10(-d.exp), r.coeff)
  {
    if d.exp >= 0 then d else Dec(d.negative, RoundHalfEven(d.coeff, Pow10(-d.exp)), 0)
  }

  /** `len(d.as_tuple().digits)`: it depends on the representation (`1E+2` has 1 digit, `100` has 3). */
  function CoefficientDigits(d: Dec): (k: nat)
    ensures d.coeff < Pow10(k) && (d.coeff > 0 ==> Pow10(k - 1) <= d.coeff)
  {
    NumDigitsBounds(d.coeff);
    NumDigits(d.coeff)
  }

  /**
   * `d.quantize(Decimal('1.' + '0' * k))`: the result has exponent exactly -k and the sign of `d`;
   * it is exact when `d` has no more than `k` fractional digits, and otherwise the coefficient is
   * the half-even rounding of d * 10^k.
   */
  function Quantize(d: Dec, k: nat): (q: Dec)
    ensures q.exp == -(k as int) && q.negative == d.negative
    ensures d.exp >= -(k as int) ==> q.coeff == d.coeff * Pow10(d.exp + k)
    ensures d.exp < -(k as int) ==> NearestHalfEven(d.coeff, Pow10(-(k as int) - d.exp), q.coeff)
  {
    if d.exp >= -(k as int) then Dec(d.negative, d.coeff * Pow10(d.exp + k), -(k as int))
    else Dec(d.negative, RoundHalfEven(d.coeff, Pow10(-(k as int) - d.exp)), -(k as int))
  }

  /** An exact quantize keeps the value. */
  lemma QuantizeExactValue(d: Dec, k: nat)
    requires d.exp >= -(k as int)
    ensures Value(Quantize(d, k)) == Value(d)
  {
    ValueShift(d.negative, d.coeff, -(k as int), d.exp + k);
  }

  /** Quantizing to the exponent a value already has changes nothing. */
  lemma QuantizeSameExponent(d: Dec, k: nat)
    requires d.exp == -(k as int)
    ensures Quantize(d, k) == d
  {
  }

  /** Trailing zeros of a non-zero coefficient moved into the exponent. */
  function StripZeros(neg: bool, c: nat, e: int): (r: Dec)
    requires c > 0
    ensures r.negative == neg && r.coeff > 0 && r.coeff % 10 != 0 && r.exp >= e
    ensures r.coeff * Pow10(r.exp - e) == c
    ensures Value(r) == Value(Dec(neg, c, e))
    decreases c
  {
    if c % 10 == 0 then
      var r := StripZeros(neg, c / 10, e + 1);
      ValueShift(neg, c / 10, e, 1);
      TimesTen(r.coeff, r.exp - e, c);
      r
    else
      assert Pow10(0) == 1;
      Dec(neg, c, e)
  }

  lemma TimesTen(a: nat, t: nat, c: nat)
    requires t > 0 && c % 10 == 0 && a * Pow10(t - 1) == c / 10
    ensures a * Pow10(t) == c
  {
    assert a * Pow10(t) == 10 * (a * Pow10(t - 1));
  }

  /**
   * `Decimal.normalize()`: the same number with every trailing zero stripped from the coefficient;
   * a zero becomes `0` (or `-0`) with exponent 0.
   */
  function Normalize(d: Dec): (r: Dec)
    ensures Value(r) == Value(d) && r.negative == d.negative
    ensures r.coeff == 0 <==> d.coeff == 0
    ensures r.coeff == 0 ==> r.exp == 0
    ensures r.coeff != 0 ==> r.coeff % 10 != 0 && r.exp >= d.exp
  {
    if d.coeff == 0 then Dec(d.negative, 0, 0) else StripZeros(d.negative, d.coeff, d.exp)
  }

  /** A normalized value quantized back to the exponent it came from is the value it came from. */
  lemma QuantizeNormalized(q: Dec, k: nat)
    requires q.exp == -(k as int)
    ensures Quantize(Normalize(q), k) == q
  {
    var n := Normalize(q);
    if q.coeff != 0 {
      var s := StripZeros(q.negative, q.coeff, q.exp);
      assert n == s;
      assert n.exp + k == s.exp - q.exp;
    }
  }

  // ---------------------------------------------------------------------------------------
  // Decimal digit strings

  function DigitChar(v: nat): (c: char)
    requires v < 10
    ensures Text.IsDigit(c)
  {
    ('0' as int + v) as char
  }

  function DigitOf(c: char): (v: nat)
    requires Text.IsDigit(c)
    ensures v < 10
  {
    c as int - '0' as int
  }

  predicate AllDigits(s: string) {
    forall i :: 0 <= i < |s| ==> Text.IsDigit(s[i])
  }

  /** `str(n)` for a natural number. */
  function Digits(n: nat): (s: string)
    ensures |s| == NumDigits(n) && AllDigits(s)
  {
    if n < 10 then [DigitChar(n)] else Digits(n / 10) + [DigitChar(n % 10)]
  }

  /** The natural number a digit string spells, leading zeros allowed. */
  function DigitsValue(s: string): nat
    requires AllDigits(s)
  {
    if s == [] then 0 else 10 * DigitsValue(s[..|s| - 1]) + DigitOf(s[|s| - 1])
  }

  function Zeros(k: nat): (s: string)
    ensures |s| == k && AllDigits(s)
    ensures forall i :: 0 <= i < k ==> s[i] == '0'
  {
    if k == 0 then "" else "0" + Zeros(k - 1)
  }

  lemma {:induction false} DigitsValueOfDigits(n: nat)
    ensures DigitsValue(Digits(n)) == n
  {
    if n >= 10 {
      var s := Digits(n);
      assert s[..|s| - 1] == Digits(n / 10);
      DigitsValueOfDigits(n / 10);
    }
  }

  lemma {:induction false} DigitsValueAppend(a: string, b: string)
    requires AllDigits(a) && AllDigits(b)
    ensures AllDigits(a + b)
    ensures DigitsValue(a + b) == DigitsValue(a) * Pow10(|b|) + DigitsValue(b)
  {
    AllDigitsAppend(a, b);
    if b == [] {
      assert a + b == a;
    } else {
      var b' := b[..|b| - 1];
      assert (a + b)[..|a + b| - 1] == a + b';
      DigitsValueAppend(a, b');
      AppendArith(DigitsValue(a), Pow10(|b'|), DigitsValue(b'), DigitOf(b[|b| - 1]));
    }
  }

  lemma AllDigitsAppend(a: string, b: string)
    requires AllDigits(a) && AllDigits(b)
    ensures AllDigits(a + b)
  {
    assert forall i :: 0 <= i < |a + b| ==> (a + b)[i] == if i < |a| then a[i] else b[i - |a|];
  }

  lemma AppendArith(va: int, p: int, vb: int, d: int)
    ensures 10 * (va * p + vb) + d == va * (10 * p) + (10 * vb + d)
  {
  }

  lemma {:induction false} DigitsValueZeros(k: nat)
    ensures DigitsValue(Zeros(k)) == 0
  {
    if k > 0 {
      assert Zeros(k) == Zeros(k - 1) + "0";
      assert Zeros(k)[..k - 1] == Zeros(k - 1);
      DigitsValueZeros(k - 1);
    }
  }

  /** Leading zeros do not change the number a digit string spells. */
  lemma LeadingZeros(k: nat, s: string)
    requires AllDigits(s)
    ensures AllDigits(Zeros(k) + s) && DigitsValue(Zeros(k) + s) == DigitsValue(s)
  {
    DigitsValueAppend(Zeros(k), s);
    DigitsValueZeros(k);
  }

  // ---------------------------------------------------------------------------------------
  // format(d, 'f') and its inverse

  /**
   * `f'{d:f}'`: fixed-point notation, never an exponent. The digits of the coefficient are
   * padded with zeros on the left (`0.005`) or on the right (`1E+2` gives `100`), a point is
   * written only when there are fractional digits, and a negative sign is kept even for zero.
   * A zero with a positive exponent is first rescaled to exponent 0, so `0E+2` is written `0`.
   */
  function PlainString(d: Dec): string {
    (if d.negative then "-" else "") + UnsignedPlainString(d.coeff, if d.coeff == 0 && d.exp > 0 then 0 else d.exp)
  }

  function UnsignedPlainString(c: nat, e: int): string {
    var ds := Digits(c);
    var left := e + |ds|;
    if left < 0 then "0" + "." + (Zeros(-left) + ds)
    else if e > 0 then ds + Zeros(e)
    else if e == 0 then ds
    else (if left == 0 then "0" else ds[..left]) + "." + ds[left..]
  }

  /** Characters of a plain decimal string: digits, `-` and `.`. */
  predicate PlainChar(c: char) {
    Text.IsDigit(c) || c == '-' || c == '.'
  }

  /**
   * A plain decimal string `[-|+]digits[.digits]` read back as a decimal whose exponent is minus
   * the number of fractional digits; anything else is `None`.
   */
  function ParsePlain(s: string): Option<Dec> {
    if s != [] && s[0] == '-' then
      match ParseUnsignedPlain(s[1..])
      case Some(d) => Some(Dec(true, d.coeff, d.exp))
      case None => None
    else if s != [] && s[0] == '+' then ParseUnsignedPlain(s[1..])
    else ParseUnsignedPlain(s)
  }

  /** `digits[.digits]` with at least one digit, read as a non-negative decimal. */
  function ParseUnsignedPlain(body: string): (r: Option<Dec>)
    ensures r.Some? ==> !r.value.negative
  {
    Text.DigitRunDigits(body);
    var n := Text.DigitRun(body);
    if n == |body| then
      if n == 0 then None else Some(Dec(false, DigitsValue(body), 0))
    else if body[n] != '.' then None
    else ParseFractionPart(body[..n], body[n + 1..])
  }

  function ParseFractionPart(intPart: string, frac: string): (r: Option<Dec>)
    requires AllDigits(intPart)
    ensures r.Some? ==> !r.value.negative
  {
    if Text.DigitRun(frac) != |frac| || |intPart| + |frac| == 0 then None
    else
      Text.DigitRunDigits(frac);
      DigitsValueAppend(intPart, frac);
      Some(Dec(false, DigitsValue(intPart + frac), -|frac|))
  }

  lemma DigitRunOfDigits(s: string)
    requires AllDigits(s)
    ensures Text.DigitRun(s) == |s|
  {
  }

  /** Reading back the body of a plain string (after its sign). */
  lemma ParseUnsigned(neg: bool, body: string, d: Dec)
    requires body != [] && Text.IsDigit(body[0])
    requires ParseUnsignedPlain(body) == Some(d)
    ensures ParsePlain((if neg then "-" else "") + body) == Some(Dec(neg, d.coeff, d.exp))
  {
    if neg {
      assert ("-" + body)[1..] == body;
    } else {
      assert "" + body == body;
    }
  }

  /**
   * Round trip: the plain string of `d` reads back as `d` itself when `d` has no positive
   * exponent, and as the same number written out with exponent 0 otherwise.
   */
  lemma ParsePlainString(d: Dec)
    ensures ParsePlain(PlainString(d))
         == Some(if d.exp <= 0 then d else Dec(d.negative, d.coeff * Pow10(d.exp), 0))
  {
    var left := d.exp + |Digits(d.coeff)|;
    DigitsValueOfDigits(d.coeff);
    if d.coeff == 0 && d.exp > 0 {
      ParseInteger(Digits(0));
      ParseUnsigned(d.negative, Digits(0), Dec(false, 0, 0));
    } else if left < 0 {
      ParseSmallFraction(d);
    } else if d.exp > 0 {
      ParsePositiveExponent(d);
    } else if d.exp == 0 {
      ParseInteger(Digits(d.coeff));
      ParseUnsigned(d.negative, Digits(d.coeff), Dec(false, d.coeff, 0));
    } else {
      ParseFraction(d);
    }
  }

  /** An unsigned `digits.digits` string reads back digit for digit. */
  lemma ParsePointed(intPart: string, frac: string)
    requires intPart != [] && AllDigits(intPart) && AllDigits(frac) && frac != []
    ensures AllDigits(intPart + frac)
    ensures ParseUnsignedPlain(intPart + "." + frac) == Some(Dec(false, DigitsValue(intPart + frac), -|frac|))
  {
    DigitsValueAppend(intPart, frac);
    var body := intPart + ("." + frac);
    assert intPart + "." + frac == body;
    Text.DigitRunPrefix(intPart, "." + frac);
    assert body[|intPart|] == '.';
    assert body[..|intPart|] == intPart;
    assert body[|intPart| + 1..] == frac;
    DigitRunOfDigits(frac);
  }

  /** An unsigned digit string reads back as an integer. */
  lemma ParseInteger(ds: string)
    requires ds != [] && AllDigits(ds)
    ensures ParseUnsignedPlain(ds) == Some(Dec(false, DigitsValue(ds), 0))
  {
    DigitRunOfDigits(ds);
  }

  lemma ParseSmallFraction(d: Dec)
    requires d.exp + |Digits(d.coeff)| < 0
    ensures ParsePlain(PlainString(d)) == Some(d)
  {
    var ds := Digits(d.coeff);
    var k: nat := -(d.exp + |ds|);
    var frac := Zeros(k) + ds;
    SmallFractionText(d.coeff, d.exp);
    DigitsValueOfDigits(d.coeff);
    ZerosInFront(k, ds, d.coeff);
    assert -|frac| == d.exp;
    PlainPointed(d, "0", frac);
  }

  /** The `'f'` text of a number below 0.1 in magnitude: `0.`, zeros, then the coefficient's digits. */
  lemma SmallFractionText(c: nat, e: int)
    requires e + |Digits(c)| < 0
    ensures UnsignedPlainString(c, e) == "0" + "." + (Zeros(-(e + |Digits(c)|)) + Digits(c))
  {
  }

  /** A `0` and `k` zeros in front of digits spelling `c` still spell `c`. */
  lemma ZerosInFront(k: nat, ds: string, c: nat)
    requires AllDigits(ds) && DigitsValue(ds) == c
    ensures AllDigits(Zeros(k) + ds) && AllDigits("0" + (Zeros(k) + ds))
    ensures DigitsValue("0" + (Zeros(k) + ds)) == c
  {
    LeadingZeros(k, ds);
    LeadingZeros(1, Zeros(k) + ds);
    assert Zeros(1) == "0";
  }

  /** The plain string of `d` from its integer and fractional digits. */
  lemma PlainPointed(d: Dec, intPart: string, frac: string)
    requires intPart != [] && AllDigits(intPart) && AllDigits(frac) && frac != []
    requires UnsignedPlainString(d.coeff, d.exp) == intPart + "." + frac
    requires d.exp == -|frac| && DigitsValue(intPart + frac) == d.coeff
    ensures ParsePlain(PlainString(d)) == Some(d)
  {
    ParsePointed(intPart, frac);
    PlainBody(d, intPart + "." + frac);
  }

  /** The plain string of `d` (no positive exponent) from the text after its sign. */
  lemma PlainBody(d: Dec, body: string)
    requires d.exp <= 0 && body == UnsignedPlainString(d.coeff, d.exp)
    requires body != [] && Text.IsDigit(body[0])
    requires ParseUnsignedPlain(body) == Some(Dec(false, d.coeff, d.exp))
    ensures ParsePlain(PlainString(d)) == Some(d)
  {
    ParseUnsigned(d.negative, body, Dec(false, d.coeff, d.exp));
  }

  lemma ParsePositiveExponent(d: Dec)
    requires d.exp > 0 && d.coeff > 0
    ensures ParsePlain(PlainString(d)) == Some(Dec(d.negative, d.coeff * Pow10(d.exp), 0))
  {
    var ds := Digits(d.coeff);
    DigitsValueOfDigits(d.coeff);
    var body := ds + Zeros(d.exp);
    DigitsValueAppend(ds, Zeros(d.exp));
    DigitsValueZeros(d.exp);
    ParseInteger(body);
    ParseUnsigned(d.negative, body, Dec(false, d.coeff * Pow10(d.exp), 0));
  }

  lemma ParseFraction(d: Dec)
    requires d.exp < 0 <= d.exp + |Digits(d.coeff)|
    ensures ParsePlain(PlainString(d)) == Some(d)
  {
    if d.exp + |Digits(d.coeff)| == 0 {
      ParseBelowOne(d);
    } else {
      ParseWithIntegerPart(d);
    }
  }

  /** All the coefficient's digits are fractional: `0.` and the digits. */
  lemma ParseBelowOne(d: Dec)
    requires d.exp < 0 && d.exp + |Digits(d.coeff)| == 0
    ensures ParsePlain(PlainString(d)) == Some(d)
  {
    var ds := Digits(d.coeff);
    BelowOneText(d.coeff, d.exp);
    DigitsValueOfDigits(d.coeff);
    ZerosInFront(0, ds, d.coeff);
    assert Zeros(0) + ds == ds;
    PlainPointed(d, "0", ds);
  }

  lemma BelowOneText(c: nat, e: int)
    requires e < 0 && e + |Digits(c)| == 0
    ensures UnsignedPlainString(c, e) == "0" + "." + Digits(c)
  {
    var ds := Digits(c);
    assert ds[0..] == ds;
  }

  /** Some of the coefficient's digits are integral: the point goes between them. */
  lemma ParseWithIntegerPart(d: Dec)
    requires d.exp < 0 < d.exp + |Digits(d.coeff)|
    ensures ParsePlain(PlainString(d)) == Some(d)
  {
    var ds := Digits(d.coeff);
    var left := d.exp + |ds|;
    var intPart, frac := ds[..left], ds[left..];
    assert UnsignedPlainString(d.coeff, d.exp) == intPart + "." + frac;
    DigitsValueOfDigits(d.coeff);
    assert intPart + frac == ds;
    PlainPointed(d, intPart, frac);
  }

  /** The plain string denotes the number `d` denotes. */
  lemma PlainStringValue(d: Dec)
    ensures ParsePlain(PlainString(d)).Some?
    ensures Value(ParsePlain(PlainString(d)).value) == Value(d)
  {
    ParsePlainString(d);
    if d.exp > 0 {
      ValueShift(d.negative, d.coeff, 0, d.exp);
    }
  }

  /** `format(d, 'f')` uses only digits, one optional leading `-` and one optional point: no exponent. */
  lemma PlainStringHasNoExponent(d: Dec)
    ensures forall i :: 0 <= i < |PlainString(d)| ==> PlainChar(PlainString(d)[i])
    ensures 'E' !in PlainString(d) && 'e' !in PlainString(d) && ',' !in PlainString(d)
  {
    var s := PlainString(d);
    forall i | 0 <= i < |s|
      ensures PlainChar(s[i])
    {
    }
  }
}

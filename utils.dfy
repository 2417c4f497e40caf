/**
 * `flatqube/utils.py`: the display policy for decimal values. `quantize_value` picks a number
 * of fractional digits (explicitly, or from a table keyed by the number of integer digits),
 * quantizes half-even and optionally normalizes; `humanize_value` writes the result in plain
 * notation with thousands separators; `styled_text` prefixes a `[style]` markup tag.
 */
module Utils {
  import opened Wrappers
  import opened Decimals
  import Text

  // ---------------------------------------------------------------------------------------
  // quantize_value

  /**
   * The number of integer digits the policy table is keyed by: the coefficient digits of the
   * value rounded to an integer, so it depends on the representation (`1E+2` has one).
   */
  function IntegerDigits(value: Dec): (k: nat)
    ensures k >= 1
    ensures value.exp >= 0 ==> k == NumDigits(value.coeff)
    ensures value.exp < 0 ==> exists q :: NearestHalfEven(value.coeff, Pow10(-value.exp), q) && k == NumDigits(q)
  {
    var r := ToIntegralValue(value);
    CoefficientDigits(r)
  }

  /** `value_decimal_digits.get(k, 0)`. */
  function PolicyDigits(value: Dec, policy: map<nat, int>): (n: int)
    ensures IntegerDigits(value) in policy ==> n == policy[IntegerDigits(value)]
    ensures IntegerDigits(value) !in policy ==> n == 0
  {
    var k := IntegerDigits(value);
    if k in policy then policy[k] else 0
  }

  /**
   * The digit count `quantize_value` works with: `if not decimal_digits` sends both a missing
   * count and an explicit 0 to the policy table.
   */
  function ChosenDigits(value: Dec, decimalDigits: Option<int>, policy: map<nat, int>): (n: int)
    ensures (decimalDigits == None || decimalDigits == Some(0)) ==> n == PolicyDigits(value, policy)
    ensures decimalDigits.Some? && decimalDigits.value != 0 ==> n == decimalDigits.value
  {
    match decimalDigits
    case Some(n) => if n == 0 then PolicyDigits(value, policy) else n
    case None => PolicyDigits(value, policy)
  }

  /** The number of zeros in `'0' * n`, so the exponent of `Decimal('1.' + '0' * n)` is minus this. */
  function ZerosCount(n: int): (k: nat)
    ensures n >= 0 ==> k == n
    ensures n < 0 ==> k == 0
  {
    if n < 0 then 0 else n
  }

  /**
   * `quantize_value(value, decimal_digits, normalize)` with the policy table as a parameter.
   * The quantized value has exponent minus the chosen digit count and is the half-even rounding
   * of `value` in that place; normalizing keeps its number and strips trailing zeros.
   */
  function QuantizeValue(value: Dec, decimalDigits: Option<int>, normalize: bool, policy: map<nat, int>): Dec {
    var k := ZerosCount(ChosenDigits(value, decimalDigits, policy));
    var q := Quantize(value, k);
    if normalize then Normalize(q) else q
  }

  /**
   * The quantized value keeps the sign, has exponent minus the chosen digit count and is the
   * half-even rounding of `value` in that place; normalizing keeps its number and strips
   * trailing zeros.
   */
  lemma QuantizeValueMeets(value: Dec, decimalDigits: Option<int>, normalize: bool, policy: map<nat, int>)
    ensures var r := QuantizeValue(value, decimalDigits, normalize, policy);
      var k := ZerosCount(ChosenDigits(value, decimalDigits, policy));
      && r.negative == value.negative
      && (!normalize ==> r.exp == -(k as int))
      && (!normalize && value.exp >= -(k as int) ==> Value(r) == Value(value))
      && (!normalize && value.exp < -(k as int) ==> NearestHalfEven(value.coeff, Pow10(-(k as int) - value.exp), r.coeff))
      && (normalize ==> Value(r) == Value(Quantize(value, k)))
      && (normalize && r.coeff != 0 ==> r.coeff % 10 != 0)
      && (normalize && r.coeff == 0 ==> r.exp == 0)
  {
    var k := ZerosCount(ChosenDigits(value, decimalDigits, policy));
    if value.exp >= -(k as int) {
      QuantizeExactValue(value, k);
    }
  }

  function RealDist(a: real, b: real): (r: real)
    ensures r >= 0.0 && (r == a - b || r == b - a)
  {
    if a >= b then a - b else b - a
  }

  /** An integer bound 2|n - m| <= p read over the reals. */
  lemma DistAsReal(n: nat, m: nat, p: nat)
    requires 2 * Dist(n, m) <= p
    ensures 2.0 * RealDist(n as real, m as real) <= p as real
  {
  }

  /** Scaling both points by z > 0 scales their distance by z. */
  lemma DistScaled(a: real, b: real, p: real, z: real, x: real, y: real, u: real)
    requires z > 0.0 && x == a * z && y == b * z && u == p * z
    requires 2.0 * RealDist(a, b) <= p
    ensures 2.0 * RealDist(x, y) <= u
  {
    if a >= b {
      assert x - y == (a - b) * z;
    } else {
      assert y - x == (b - a) * z;
    }
  }

  /** The same sign on both points does not change their distance. */
  lemma SignedDist(neg: bool, x: real, y: real, bound: real)
    requires 2.0 * RealDist(x, y) <= bound
    ensures 2.0 * RealDist(if neg then -x else x, if neg then -y else y) <= bound
  {
  }

  /**
   * Quantizing to `k` fractional digits moves the number by at most half a unit in the last
   * place kept: 2 * |Value(q) - Value(d)| <= 10^-k.
   */
  lemma QuantizeWithinHalfUnit(d: Dec, k: nat)
    ensures 2.0 * RealDist(Value(Quantize(d, k)), Value(d)) <= Pow10Real(-(k as int))
  {
    var q := Quantize(d, k);
    if d.exp >= -(k as int) {
      QuantizeExactValue(d, k);
    } else {
      var x, y := Value(Dec(false, q.coeff, q.exp)), Value(Dec(false, d.coeff, d.exp));
      assert Value(q) == if d.negative then -x else x;
      assert Value(d) == if d.negative then -y else y;
      RoundedMagnitude(q.coeff, d.coeff, d.exp, k);
      SignedDist(d.negative, x, y, Pow10Real(-(k as int)));
    }
  }

  /** A coefficient `c` within half a unit of n / 10^t, read as numbers with exponents -k and e. */
  lemma RoundedMagnitude(c: nat, n: nat, e: int, k: nat)
    requires e < -(k as int)
    requires 2 * Dist(c * Pow10(-(k as int) - e), n) <= Pow10(-(k as int) - e)
    ensures 2.0 * RealDist(Value(Dec(false, c, -(k as int))), Value(Dec(false, n, e))) <= Pow10Real(-(k as int))
  {
    var f := -(k as int);
    var t: nat := f - e;
    var p := Pow10(t);
    Pow10RealShift(e, t, f);
    MagnitudeScaled(c, n, e, t, f, p, c * p, Value(Dec(false, c, f)), Value(Dec(false, n, e)), Pow10Real(f));
  }

  /** The same bound with the numbers written as multiples of 10^e. */
  lemma MagnitudeScaled(c: nat, n: nat, e: int, t: nat, f: int, p: nat, cp: nat, x: real, y: real, u: real)
    requires f == e + t && p == Pow10(t) && cp == c * p
    requires 2 * Dist(cp, n) <= p
    requires x == Value(Dec(false, c, f)) && y == Value(Dec(false, n, e))
    requires u == (p as real) * Pow10Real(e)
    ensures 2.0 * RealDist(x, y) <= u
  {
    MagnitudeShifted(c, e, t, f, cp, Pow10Real(e), x);
    MagnitudeUnsigned(n, e, Pow10Real(e), y);
    HalfUnitScaled(cp, n, p, Pow10Real(e), x, y, u);
  }

  lemma HalfUnitScaled(a: nat, b: nat, p: nat, z: real, x: real, y: real, u: real)
    requires 2 * Dist(a, b) <= p
    requires z > 0.0 && x == (a as real) * z && y == (b as real) * z && u == (p as real) * z
    ensures 2.0 * RealDist(x, y) <= u
  {
    DistAsReal(a, b, p);
    DistScaled(a as real, b as real, p as real, z, x, y, u);
  }

  lemma MagnitudeShifted(c: nat, e: int, t: nat, f: int, cp: nat, z: real, x: real)
    requires f == e + t && cp == c * Pow10(t) && z == Pow10Real(e) && x == Value(Dec(false, c, f))
    ensures x == (cp as real) * z
  {
    ValueShift(false, c, e, t);
    assert Dec(false, c, e + t) == Dec(false, c, f);
    MagnitudeUnsigned(cp, e, z, Value(Dec(false, cp, e)));
  }

  lemma MagnitudeUnsigned(c: nat, e: int, z: real, x: real)
    requires z == Pow10Real(e) && x == Value(Dec(false, c, e))
    ensures x == (c as real) * z
  {
  }

  /**
   * With the same explicit non-zero digit count, quantizing an already quantized value gives
   * it back unchanged, with or without normalization.
   */
  lemma QuantizeValueIdempotent(value: Dec, n: int, normalize: bool, policy: map<nat, int>)
    requires n != 0
    ensures var once := QuantizeValue(value, Some(n), normalize, policy);
      QuantizeValue(once, Some(n), normalize, policy) == once
  {
    var k := ZerosCount(n);
    var q := Quantize(value, k);
    if normalize {
      var r := Normalize(q);
      QuantizeNormalized(q, k);
      assert Quantize(r, k) == q;
    } else {
      QuantizeSameExponent(q, k);
    }
  }

  /** A non-zero explicit digit count never consults the policy table. */
  lemma ExplicitDigitsIgnorePolicy(value: Dec, n: int, normalize: bool, p1: map<nat, int>, p2: map<nat, int>)
    requires n != 0
    ensures QuantizeValue(value, Some(n), normalize, p1) == QuantizeValue(value, Some(n), normalize, p2)
  {
  }

  /** An explicit 0 is the same as giving no digit count. */
  lemma ZeroDigitsUsePolicy(value: Dec, normalize: bool, policy: map<nat, int>)
    ensures QuantizeValue(value, Some(0), normalize, policy) == QuantizeValue(value, None, normalize, policy)
  {
  }

  /** The key of the policy table on a few inputs: 0, 0.3, 9.7, 9.5, 1E+2 and 100. */
  lemma IntegerDigitsExamples()
    ensures IntegerDigits(Dec(false, 0, 0)) == 1
    ensures IntegerDigits(Dec(false, 3, -1)) == 1
    ensures IntegerDigits(Dec(false, 97, -1)) == 2
    ensures IntegerDigits(Dec(false, 95, -1)) == 2
    ensures IntegerDigits(Dec(false, 85, -1)) == 1
    ensures IntegerDigits(Dec(false, 1, 2)) == 1
    ensures IntegerDigits(Dec(false, 100, 0)) == 3
  {
    assert Pow10(1) == 10;
    assert RoundHalfEven(97, 10) == 10;
    assert RoundHalfEven(95, 10) == 10;
    assert RoundHalfEven(85, 10) == 8;
    assert NumDigits(100) == 3;
  }

  /**
   * Under the policy table the result is not idempotent: with {1: 1, 2: 0}, 9.46 becomes 9.5
   * (key 1), and 9.5 rounds to the integer 10, so its key is 2 and it becomes 1E+1.
   */
  lemma PolicyQuantizeNotIdempotent()
    ensures var policy := map[1 := 1, 2 := 0];
      && QuantizeValue(Dec(false, 946, -2), None, true, policy) == Dec(false, 95, -1)
      && QuantizeValue(Dec(false, 95, -1), None, true, policy) == Dec(false, 1, 1)
  {
    PolicyFirstPass();
    PolicySecondPass();
  }

  /** 9.46 has one integer digit, so {1: 1} rounds it to 9.5. */
  lemma PolicyFirstPass()
    ensures QuantizeValue(Dec(false, 946, -2), None, true, map[1 := 1, 2 := 0]) == Dec(false, 95, -1)
  {
    assert Pow10(1) == 10 && Pow10(2) == 100;
    assert RoundHalfEven(946, 100) == 9;
    assert IntegerDigits(Dec(false, 946, -2)) == 1;
    assert RoundHalfEven(946, 10) == 95;
    assert Quantize(Dec(false, 946, -2), 1) == Dec(false, 95, -1);
    assert StripZeros(false, 95, -1) == Dec(false, 95, -1);
  }

  /** 9.5 rounds (ties to even) to 10, which has two integer digits, so {2: 0} gives 1E+1. */
  lemma PolicySecondPass()
    ensures QuantizeValue(Dec(false, 95, -1), None, true, map[1 := 1, 2 := 0]) == Dec(false, 1, 1)
  {
    assert Pow10(1) == 10;
    assert RoundHalfEven(95, 10) == 10;
    assert IntegerDigits(Dec(false, 95, -1)) == 2;
    assert ChosenDigits(Dec(false, 95, -1), None, map[1 := 1, 2 := 0]) == 0;
    assert Quantize(Dec(false, 95, -1), 0) == Dec(false, 10, 0);
    assert StripZeros(false, 1, 1) == Dec(false, 1, 1);
    assert Normalize(Dec(false, 10, 0)) == Dec(false, 1, 1);
  }

  /**
   * Small values are not expanded: the key of 0.0003123 is 1 (it rounds to 0), so with
   * {1: 2} it is quantized to two digits and becomes 0.
   */
  lemma SmallValueCollapses()
    ensures QuantizeValue(Dec(false, 3123, -7), None, true, map[1 := 2]) == Dec(false, 0, 0)
  {
    assert Pow10(7) == 10000000 && Pow10(5) == 100000;
    assert RoundHalfEven(3123, 10000000) == 0;
    assert IntegerDigits(Dec(false, 3123, -7)) == 1;
    assert RoundHalfEven(3123, 100000) == 0;
  }

  // ---------------------------------------------------------------------------------------
  // humanize_value

  /** The `-` sign `humanize.intcomma`'s pattern `^(-?\d+)(\d{3})` allows in front of the digits. */
  function SignLen(s: string): (n: nat)
    ensures n <= |s|
  {
    if s != [] && s[0] == '-' then 1 else 0
  }

  /** The length of the digit run the pattern starts at. */
  function LeadingRun(s: string): (n: nat)
    ensures SignLen(s) + n <= |s|
  {
    Text.RunEnd(s, SignLen(s)) - SignLen(s)
  }

  /**
   * One `re.sub(r'^(-?\d+)(\d{3})', r'\g<1>,\g<2>', s)`: the greedy `\d+` leaves exactly three
   * digits, so a comma goes before the last three digits of the leading run when it has four
   * or more; otherwise the string is unchanged.
   */
  function IntcommaStep(s: string): (r: string)
    ensures LeadingRun(s) < 4 ==> r == s
  {
    var m, n := SignLen(s), LeadingRun(s);
    if n >= 4 then s[..m + n - 3] + "," + s[m + n - 3..] else s
  }

  lemma StepShortensRun(s: string)
    requires LeadingRun(s) >= 4
    ensures SignLen(IntcommaStep(s)) == SignLen(s)
    ensures LeadingRun(IntcommaStep(s)) == LeadingRun(s) - 3
    ensures IntcommaStep(s) != s
  {
    var m, n := SignLen(s), LeadingRun(s);
    var r := IntcommaStep(s);
    Text.RunEndDigits(s, m);
    assert forall j :: 0 <= j < m + n - 3 ==> r[j] == s[j];
    assert r[m + n - 3] == ',';
    Text.RunEndAt(r, m, m + n - 3);
    assert |r| == |s| + 1;
  }

  /**
   * `humanize.intcomma` on a string: apply the substitution until it no longer changes the
   * string.
   */
  function Intcomma(s: string): string
    decreases LeadingRun(s)
  {
    var t := IntcommaStep(s);
    if t == s then s
    else
      StepShortensRun(s);
      Intcomma(t)
  }

  /** A comma every three digits, counted from the right. */
  function GroupDigits(ds: string): (r: string)
    decreases |ds|
  {
    if |ds| <= 3 then ds else GroupDigits(ds[..|ds| - 3]) + "," + ds[|ds| - 3..]
  }

  /**
   * What the substitution converges to: the leading digit run (after an optional `-`)
   * grouped in threes from the right, and the rest (a fraction, say) kept as it is.
   */
  function Grouped(s: string): string {
    var m, n := SignLen(s), LeadingRun(s);
    s[..m] + GroupDigits(s[m..m + n]) + s[m + n..]
  }

  /** Grouping a run whose last three digits are split off. */
  lemma GroupDigitsSplit(u: string, v: string)
    requires |v| == 3
    ensures GroupDigits(u + v) == GroupDigits(u) + "," + v || |u| == 0
  {
    if |u| > 0 {
      var ds := u + v;
      assert ds[..|ds| - 3] == u && ds[|ds| - 3..] == v;
    }
  }

  /** `Grouped` of a string cut into its sign, its leading digit run and the rest. */
  lemma GroupedPieces(s: string, x: string, w: string, rest: string)
    requires s == x + w + rest && |x| == SignLen(s) && |w| == LeadingRun(s)
    ensures Grouped(s) == x + GroupDigits(w) + rest
  {
    var m, n := |x|, |w|;
    assert s[..m] == x && s[m..m + n] == w && s[m + n..] == rest;
  }

  /** A string cut at three points. */
  lemma Cut4(s: string, i: nat, j: nat, k: nat)
    requires i <= j <= k <= |s|
    ensures s == s[..i] + (s[i..j] + s[j..k]) + s[k..]
    ensures s[..j] == s[..i] + s[i..j] && s[j..] == s[j..k] + s[k..]
    ensures s[i..k] == s[i..j] + s[j..k]
  {
  }

  lemma CommaAssoc(xu: string, vz: string, x: string, u: string, v: string, z: string)
    requires xu == x + u && vz == v + z
    ensures xu + "," + vz == x + u + ("," + v + z)
  {
  }

  /** One substitution does not change what the string converges to. */
  lemma GroupedStep(s: string)
    requires LeadingRun(s) >= 4
    ensures Grouped(IntcommaStep(s)) == Grouped(s)
  {
    var m, n := SignLen(s), LeadingRun(s);
    StepShortensRun(s);
    var t := IntcommaStep(s);
    var x, u, v, z := s[..m], s[m..m + n - 3], s[m + n - 3..m + n], s[m + n..];
    Cut4(s, m, m + n - 3, m + n);
    CommaAssoc(s[..m + n - 3], s[m + n - 3..], x, u, v, z);
    GroupedSplitPieces(s, t, x, u, v, z);
  }

  /** `Grouped` before and after a comma is put in front of the last three digits `v`. */
  lemma GroupedSplitPieces(s: string, t: string, x: string, u: string, v: string, z: string)
    requires s == x + (u + v) + z && t == x + u + ("," + v + z)
    requires |x| == SignLen(s) == SignLen(t) && |u + v| == LeadingRun(s) && |u| == LeadingRun(t)
    requires |v| == 3 && |u| > 0
    ensures Grouped(t) == Grouped(s)
  {
    GroupedPieces(s, x, u + v, z);
    GroupedPieces(t, x, u, "," + v + z);
    GroupDigitsSplit(u, v);
    CommaRegroup(x, GroupDigits(u), v, z);
  }

  lemma CommaRegroup(x: string, g: string, v: string, z: string)
    ensures x + (g + "," + v) + z == x + g + ("," + v + z)
  {
  }

  /** The substitution applied until it no longer changes anything gives `Grouped(s)`. */
  lemma {:induction false} IntcommaGroups(s: string)
    ensures Intcomma(s) == Grouped(s)
    decreases LeadingRun(s)
  {
    var m, n := SignLen(s), LeadingRun(s);
    if n >= 4 {
      StepShortensRun(s);
      IntcommaGroups(IntcommaStep(s));
      GroupedStep(s);
    } else {
      GroupedPieces(s, s[..m], s[m..m + n], s[m + n..]);
    }
  }

  lemma {:induction false} GroupDigitsRemove(ds: string)
    requires ',' !in ds
    ensures Text.Remove(GroupDigits(ds), ',') == ds
    decreases |ds|
  {
    if |ds| > 3 {
      var a, b := ds[..|ds| - 3], ds[|ds| - 3..];
      assert ds == a + b;
      Text.NotInSplit(a, b, ',');
      GroupDigitsRemove(a);
      Text.RemoveSeparated(GroupDigits(a), a, b, ',');
    } else {
      Text.RemoveDeletes(ds, ',');
    }
  }

  /** Separators deleted from three grouped pieces. */
  lemma RemoveThree(x: string, g: string, ds: string, z: string)
    requires ',' !in x && ',' !in z && Text.Remove(g, ',') == ds
    ensures Text.Remove(x + g + z, ',') == x + ds + z
  {
    Text.RemoveAppend(x + g, z, ',');
    Text.RemoveAppend(x, g, ',');
    Text.RemoveDeletes(x, ',');
    Text.RemoveDeletes(z, ',');
  }

  /** Deleting the separators gives the input back. */
  lemma IntcommaRemove(s: string)
    requires ',' !in s
    ensures Text.Remove(Intcomma(s), ',') == s
  {
    var m, n := SignLen(s), LeadingRun(s);
    IntcommaGroups(s);
    var x, ds, z := s[..m], s[m..m + n], s[m + n..];
    Cut4(s, m, m, m + n);
    GroupedPieces(s, x, ds, z);
    Text.NotInSplit(x, ds + z, ',');
    Text.NotInSplit(ds, z, ',');
    GroupDigitsRemove(ds);
    RemoveThree(x, GroupDigits(ds), ds, z);
  }

  /** `humanize_value(value)`: `intcomma(f'{value:f}')`. */
  function HumanizeValue(value: Dec): (s: string)
    ensures 'E' !in s && 'e' !in s
  {
    var p := PlainString(value);
    PlainStringHasNoExponent(value);
    IntcommaRemove(p);
    Text.RemoveKeepsOthers(Intcomma(p), ',', 'E');
    Text.RemoveKeepsOthers(Intcomma(p), ',', 'e');
    Intcomma(p)
  }

  /** The humanized text with its separators deleted is the plain `'f'` text of the value. */
  lemma HumanizeRemovesToPlain(value: Dec)
    ensures Text.Remove(HumanizeValue(value), ',') == PlainString(value)
  {
    PlainStringHasNoExponent(value);
    IntcommaRemove(PlainString(value));
  }

  /** `1E+2` is written out as `100`. */
  lemma HumanizeWritesExponentOut()
    ensures HumanizeValue(Dec(false, 1, 2)) == "100"
  {
    assert Pow10(2) == 100;
    assert Digits(1) == "1";
    assert UnsignedPlainString(1, 2) == "100";
    assert PlainString(Dec(false, 1, 2)) == "100";
    assert LeadingRun("100") == 3;
  }

  /** Separators go into the integer part only: -1234.5 is written `-1,234.5`. */
  lemma HumanizeGroupsIntegerPart()
    ensures HumanizeValue(Dec(true, 12345, -1)) == "-1,234.5"
  {
    PlainExample();
    IntcommaExample();
  }

  lemma PlainExample()
    ensures PlainString(Dec(true, 12345, -1)) == "-1234.5"
  {
    assert Digits(12345) == "12345" by {
      assert Digits(1) == "1";
      assert Digits(12) == "12";
      assert Digits(123) == "123";
      assert Digits(1234) == "1234";
    }
    assert UnsignedPlainString(12345, -1) == "1234" + "." + "5";
  }

  lemma IntcommaExample()
    ensures Intcomma("-1234.5") == "-1,234.5"
  {
    IntcommaGroups("-1234.5");
    GroupedExample();
  }

  lemma GroupedExample()
    ensures Grouped("-1234.5") == "-1,234.5"
  {
    var s := "-1234.5";
    assert LeadingRun(s) == 4 by {
      Text.RunEndAt(s, 1, 5);
    }
    assert s[..1] == "-" && s[1..5] == "1234" && s[5..] == ".5";
    assert GroupDigits("1234") == "1,234" by {
      assert "1234"[..1] == "1" && "1234"[1..] == "234";
    }
  }

  // ---------------------------------------------------------------------------------------
  // styled_text

  /** `styled_text(text, style)`: the rich markup tag `[style]` followed by the text. */
  function StyledText(text: string, style: string): (r: string)
    ensures |r| == |style| + |text| + 2
    ensures r[0] == '[' && r[|style| + 1] == ']'
    ensures r[1..|style| + 1] == style && r[|style| + 2..] == text
  {
    "[" + style + "]" + text
  }

  /** Splits `[style]text` at the first `]`. */
  function ParseStyled(s: string): Option<(string, string)> {
    if s == [] || s[0] != '[' then None
    else
      var close := FirstIndex(s[1..], ']');
      if close == |s| - 1 then None else Some((s[1..close + 1], s[close + 2..]))
  }

  /** The index of the first `ch` in `s`, or `|s|` if there is none. */
  function FirstIndex(s: string, ch: char): (i: nat)
    ensures i <= |s| && (i < |s| ==> s[i] == ch)
    ensures forall j :: 0 <= j < i ==> s[j] != ch
  {
    if s == [] then 0 else if s[0] == ch then 0 else 1 + FirstIndex(s[1..], ch)
  }

  /** A style without `]` is recovered, with the text, from the styled string. */
  lemma StyledTextRoundTrip(text: string, style: string)
    requires ']' !in style
    ensures ParseStyled(StyledText(text, style)) == Some((style, text))
  {
    var s := StyledText(text, style);
    var tail := s[1..];
    assert tail == style + "]" + text;
    assert forall j :: 0 <= j < |style| ==> tail[j] == style[j];
    assert tail[|style|] == ']';
    FirstIndexAt(tail, ']', |style|);
  }

  lemma FirstIndexAt(s: string, ch: char, i: nat)
    requires i < |s| && s[i] == ch
    requires forall j :: 0 <= j < i ==> s[j] != ch
    ensures FirstIndex(s, ch) == i
  {
  }
}

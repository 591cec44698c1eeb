// Currencies, banker's rounding and discounts (core/models/currency.py, core/rules/discounts.py,
// core/rules/currency_math.py:46-51).
//
// Full-precision amounts are exact rationals in the currency's major unit; quantized amounts are
// integers counting its smallest unit. Python's 28-digit Decimal context is abstracted away.
module Money {
  import opened Common

  datatype Currency = EUR | USD | GBP | JPY | CAD | AUD

  function Decimals(cur: Currency): nat {
    if cur.JPY? then 0 else 2
  }

  /** An exact amount counted in smallest units. */
  function InUnits(amount: real, cur: Currency): real {
    if Decimals(cur) == 0 then amount else amount * 100.0
  }

  /** ROUND_HALF_EVEN to an integer. */
  function RoundHalfEven(x: real): (n: int)
    ensures Abs(n as real - x) <= 0.5
    ensures Abs(n as real - x) == 0.5 ==> n % 2 == 0
  {
    var below := x.Floor;
    var rest := x - below as real;
    if rest < 0.5 || (rest == 0.5 && below % 2 == 0) then below else below + 1
  }

  /** The two clauses above determine the rounding: nearest integer, ties to even. */
  lemma {:induction false} RoundHalfEvenUnique(x: real, n: int)
    requires Abs(n as real - x) <= 0.5
    requires Abs(n as real - x) == 0.5 ==> n % 2 == 0
    ensures n == RoundHalfEven(x)
  {
    var m := RoundHalfEven(x);
    assert Abs((n - m) as real) <= 1.0;
    assert -1 <= n - m <= 1;
  }

  lemma {:induction false} RoundHalfEvenMonotone(x: real, y: real)
    requires x <= y
    ensures RoundHalfEven(x) <= RoundHalfEven(y)
  {
    var m, n := RoundHalfEven(x), RoundHalfEven(y);
    assert m > n ==> x == y;
  }

  /** `quantize`: the amount in smallest units. */
  function Quantize(amount: real, cur: Currency): int {
    RoundHalfEven(InUnits(amount, cur))
  }

  function Quantizes(amounts: seq<real>, cur: Currency): (r: seq<int>)
    ensures |r| == |amounts|
  {
    seq(|amounts|, i requires 0 <= i < |amounts| => Quantize(amounts[i], cur))
  }

  /** A quantized amount read back in major units. */
  function Major(units: int, cur: Currency): real {
    if Decimals(cur) == 0 then units as real else units as real / 100.0
  }

  lemma {:induction false} QuantizeMajor(units: int, cur: Currency)
    ensures Quantize(Major(units, cur), cur) == units
  {
    assert InUnits(Major(units, cur), cur) == units as real;
    RoundHalfEvenUnique(units as real, units);
  }

  lemma {:induction false} QuantizeMonotone(a: real, b: real, cur: Currency)
    requires a <= b
    ensures Quantize(a, cur) <= Quantize(b, cur)
  {
    RoundHalfEvenMonotone(InUnits(a, cur), InUnits(b, cur));
  }

  lemma {:induction false} QuantizeZero(cur: Currency)
    ensures Quantize(0.0, cur) == 0
  {
    RoundHalfEvenUnique(0.0, 0);
  }

  /** Rounding a sum of two amounts and summing their roundings differ by at most one unit. */
  lemma {:induction false} QuantizePairDrift(a: real, b: real, cur: Currency)
    ensures -1 <= Quantize(a + b, cur) - Quantize(a, cur) - Quantize(b, cur) <= 1
  {
    var d := Quantize(a + b, cur) - Quantize(a, cur) - Quantize(b, cur);
    assert InUnits(a + b, cur) == InUnits(a, cur) + InUnits(b, cur);
    assert Abs(d as real) <= 1.5;
  }

  function Rounds(amounts: seq<real>): (r: seq<int>)
    ensures |r| == |amounts|
  {
    seq(|amounts|, i requires 0 <= i < |amounts| => RoundHalfEven(amounts[i]))
  }

  /** k rounded parts stay within k/2 units of the exact total. */
  lemma {:induction false} RoundsNearExact(amounts: seq<real>)
    ensures 2.0 * Abs(SumInt(Rounds(amounts)) as real - Sum(amounts)) <= |amounts| as real
  {
    if amounts != [] {
      var n := |amounts| - 1;
      RoundsNearExact(amounts[..n]);
      assert Rounds(amounts)[..n] == Rounds(amounts[..n]);
      var whole, part := SumInt(Rounds(amounts[..n])), RoundHalfEven(amounts[n]);
      assert (whole + part) as real == whole as real + part as real;
      assert (n + 1) as real == n as real + 1.0;
    }
  }

  lemma {:induction false} ScaledSum(amounts: seq<real>, cur: Currency) returns (scaled: seq<real>)
    ensures |scaled| == |amounts|
    ensures Quantizes(amounts, cur) == Rounds(scaled)
    ensures forall i :: 0 <= i < |amounts| ==> scaled[i] == InUnits(amounts[i], cur)
    ensures Sum(scaled) == InUnits(Sum(amounts), cur)
  {
    scaled := seq(|amounts|, i requires 0 <= i < |amounts| => InUnits(amounts[i], cur));
    SumScaled(amounts, if Decimals(cur) == 0 then 1.0 else 100.0, scaled);
    assert forall i :: 0 <= i < |amounts| ==> Quantizes(amounts, cur)[i] == Rounds(scaled)[i];
  }

  /** Rounding drift (EN 16931-1 rule BR-CO-14): k rounded parts and the rounded total differ by
      at most (k + 1) / 2 units. */
  lemma {:induction false} QuantizesDrift(amounts: seq<real>, cur: Currency)
    ensures -(|amounts| + 1) <= 2 * (SumInt(Quantizes(amounts, cur)) - Quantize(Sum(amounts), cur)) <= |amounts| + 1
  {
    var scaled := ScaledSum(amounts, cur);
    RoundsDrift(scaled);
  }

  lemma {:induction false} RoundsDrift(amounts: seq<real>)
    ensures -(|amounts| + 1) <= 2 * (SumInt(Rounds(amounts)) - RoundHalfEven(Sum(amounts))) <= |amounts| + 1
  {
    RoundsNearExact(amounts);
    RoundDriftArithmetic(SumInt(Rounds(amounts)), RoundHalfEven(Sum(amounts)), Sum(amounts), |amounts|);
  }

  lemma {:induction false} RoundDriftArithmetic(parts: int, whole: int, exact: real, k: nat)
    requires 2.0 * Abs(parts as real - exact) <= k as real
    requires Abs(whole as real - exact) <= 0.5
    ensures -(k + 1) <= 2 * (parts - whole) <= k + 1
  {
    var d := parts - whole;
    assert d as real == parts as real - whole as real;
    assert -(k as real) - 1.0 <= 2.0 * d as real <= k as real + 1.0;
    assert (2 * d) as real == 2.0 * d as real && (k + 1) as real == k as real + 1.0;
  }

  datatype DiscountType = PERCENTAGE | FIXED
  datatype Discount = Discount(kind: DiscountType, amount: real, reason: Option<string>)

  predicate ValidDiscount(d: Option<Discount>) {
    d.Some? ==> d.value.amount >= 0.0
  }

  /** `discount_amount`: what the discount deducts from `base`, not quantized. */
  function DiscountAmount(base: real, discount: Option<Discount>): real {
    match discount
    case None => 0.0
    case Some(d) =>
      if d.kind.PERCENTAGE? then base * d.amount / 100.0 else Min(d.amount, base)
  }

  /** The docstring promises a deduction that is never negative. That holds exactly when the base
      is not negative, or the discount deducts nothing whatever the base. */
  lemma {:induction false} DiscountNonNegativeIff(base: real, discount: Option<Discount>)
    requires ValidDiscount(discount)
    ensures DiscountAmount(base, discount) >= 0.0
        <==> base >= 0.0 || discount.None? || (discount.value.kind.PERCENTAGE? && discount.value.amount == 0.0)
  {
    if discount.Some? && discount.value.kind.PERCENTAGE? {
      var v := discount.value.amount;
      if base >= 0.0 {
        assert base * v >= 0.0;
      } else if v > 0.0 {
        assert base * v < 0.0;
      }
    }
  }

  /** A discount leaves the sign of its base alone unless it is a percentage above one hundred. */
  lemma {:induction false} DiscountAtMostBase(base: real, discount: Option<Discount>)
    requires base >= 0.0 && ValidDiscount(discount)
    requires discount.Some? && discount.value.kind.PERCENTAGE? ==> discount.value.amount <= 100.0
    ensures 0.0 <= DiscountAmount(base, discount) <= base
  {
    if discount.Some? && discount.value.kind.PERCENTAGE? {
      var v := discount.value.amount;
      assert 0.0 <= base * v;
      assert base * (100.0 - v) >= 0.0;
    }
  }
}

/** What a model call costs, in minor units, at rates per million tokens. */
module CostPricing {
  import opened Wrappers

  const MAX_SAFE: nat := 0x1F_FFFF_FFFF_FFFF
  const MILLION: nat := 1_000_000

  predicate Minor(n: int) { 0 <= n <= MAX_SAFE }

  datatype Pricing = Pricing(input: int, output: int)

  function Numerator(inputTokens: int, outputTokens: int, pricing: Pricing): int {
    inputTokens * pricing.input + outputTokens * pricing.output
  }

  predicate Priceable(inputTokens: int, outputTokens: int, pricing: Pricing) {
    Minor(inputTokens) && Minor(outputTokens) && Minor(pricing.input) && pricing.input != 0
    && Minor(pricing.output) && pricing.output != 0
  }

  /** Rounded up; null for bad input or an unrepresentable amount. */
  function Price(inputTokens: int, outputTokens: int, pricing: Pricing): Option<nat> {
    if !Priceable(inputTokens, outputTokens, pricing) then None
    else
      NumeratorNat(inputTokens, outputTokens, pricing);
      var amount := (Numerator(inputTokens, outputTokens, pricing) + MILLION - 1) / MILLION;
      if amount <= MAX_SAFE then Some(amount) else None
  }

  /** Rounded half up, without the demand that rates be positive. */
  function EstimateBwpMinor(inputTokens: nat, outputTokens: nat, pricing: Pricing): Option<nat> {
    if !Minor(pricing.input) || !Minor(pricing.output) then None
    else
      NumeratorOf(inputTokens, outputTokens, pricing);
      var rounded := (Numerator(inputTokens, outputTokens, pricing) + MILLION / 2) / MILLION;
      if rounded <= MAX_SAFE then Some(rounded) else None
  }

  lemma NumeratorOf(inputTokens: int, outputTokens: int, pricing: Pricing)
    requires 0 <= inputTokens && 0 <= outputTokens && 0 <= pricing.input && 0 <= pricing.output
    ensures Numerator(inputTokens, outputTokens, pricing) >= 0
  {
    MulMonotone(0, inputTokens, 0, pricing.input);
    MulMonotone(0, outputTokens, 0, pricing.output);
  }

  lemma NumeratorNat(inputTokens: int, outputTokens: int, pricing: Pricing)
    requires Priceable(inputTokens, outputTokens, pricing)
    ensures Numerator(inputTokens, outputTokens, pricing) >= 0
  {
    NumeratorOf(inputTokens, outputTokens, pricing);
  }

  lemma MulMonotone(a: nat, b: nat, c: nat, d: nat)
    requires a <= b && c <= d
    ensures a * c <= b * d
  {
    assert a * c <= b * c by {
      assert (b - a) * c >= 0;
    }
    assert b * c <= b * d by {
      assert b * (d - c) >= 0;
    }
  }

  /** The price is the exact ceiling of the amount due: each kind of token at its own rate per million. */
  lemma PriceIsExactCeiling(inputTokens: int, outputTokens: int, pricing: Pricing)
    requires Price(inputTokens, outputTokens, pricing).Some?
    ensures var p := Price(inputTokens, outputTokens, pricing).value;
            (p - 1) * 1_000_000 < inputTokens * pricing.input + outputTokens * pricing.output <= p * 1_000_000
  {
  }

  /** A count of tokens or a rate that is a safe integer. */
  predicate SafeCount(n: int) { 0 <= n <= 9_007_199_254_740_991 }

  /** It is null exactly for a count or rate that is no safe integer, a rate of zero, or an amount past the largest safe integer. */
  lemma PriceIsNullExactly(inputTokens: int, outputTokens: int, pricing: Pricing)
    ensures Price(inputTokens, outputTokens, pricing).Some? <==>
      && SafeCount(inputTokens) && SafeCount(outputTokens)
      && SafeCount(pricing.input) && pricing.input >= 1 && SafeCount(pricing.output) && pricing.output >= 1
      && inputTokens * pricing.input + outputTokens * pricing.output <= 9_007_199_254_740_991 * 1_000_000
  {
    if Priceable(inputTokens, outputTokens, pricing) {
      NumeratorNat(inputTokens, outputTokens, pricing);
    }
  }

  /** The estimate is the amount due rounded half up, null exactly for a rate that is no safe integer or an amount that rounds past one. */
  lemma EstimateRoundsHalfUp(inputTokens: nat, outputTokens: nat, pricing: Pricing)
    ensures EstimateBwpMinor(inputTokens, outputTokens, pricing).Some? <==>
      && SafeCount(pricing.input) && SafeCount(pricing.output)
      && inputTokens * pricing.input + outputTokens * pricing.output < 9_007_199_254_740_991 * 1_000_000 + 500_000
    ensures EstimateBwpMinor(inputTokens, outputTokens, pricing).Some? ==>
      var e := EstimateBwpMinor(inputTokens, outputTokens, pricing).value;
      e * 1_000_000 - 500_000 <= inputTokens * pricing.input + outputTokens * pricing.output < e * 1_000_000 + 500_000
  {
    if Minor(pricing.input) && Minor(pricing.output) {
      NumeratorOf(inputTokens, outputTokens, pricing);
    }
  }

  /** Usage within the reserved bounds always prices, and to no more than the reservation. */
  lemma UsageWithinBoundsIsCovered(inputTokens: int, outputTokens: int, maxInput: int, maxOutput: int, pricing: Pricing)
    requires Price(maxInput, maxOutput, pricing).Some?
    requires 0 <= inputTokens <= maxInput && 0 <= outputTokens <= maxOutput
    ensures Price(inputTokens, outputTokens, pricing).Some?
    ensures Price(inputTokens, outputTokens, pricing).value <= Price(maxInput, maxOutput, pricing).value
  {
    MulMonotone(inputTokens, maxInput, pricing.input, pricing.input);
    MulMonotone(outputTokens, maxOutput, pricing.output, pricing.output);
    assert Numerator(inputTokens, outputTokens, pricing) <= Numerator(maxInput, maxOutput, pricing);
  }

  /** Pricing two uses together never costs more than pricing them apart, and saves at most one unit. */
  lemma PriceIsSubadditive(i1: nat, o1: nat, i2: nat, o2: nat, pricing: Pricing)
    requires Price(i1, o1, pricing).Some? && Price(i2, o2, pricing).Some? && Price(i1 + i2, o1 + o2, pricing).Some?
    ensures var (a, b, both) := (Price(i1, o1, pricing).value, Price(i2, o2, pricing).value, Price(i1 + i2, o1 + o2, pricing).value);
            both <= a + b <= both + 1
  {
    var (n1, n2) := (Numerator(i1, o1, pricing), Numerator(i2, o2, pricing));
    assert Numerator(i1 + i2, o1 + o2, pricing) == n1 + n2 by {
      assert (i1 + i2) * pricing.input == i1 * pricing.input + i2 * pricing.input;
      assert (o1 + o2) * pricing.output == o1 * pricing.output + o2 * pricing.output;
    }
    PriceIsExactCeiling(i1, o1, pricing);
    PriceIsExactCeiling(i2, o2, pricing);
    PriceIsExactCeiling(i1 + i2, o1 + o2, pricing);
    CeilingsAdd(n1, n2, Price(i1, o1, pricing).value, Price(i2, o2, pricing).value, Price(i1 + i2, o1 + o2, pricing).value);
  }

  lemma CeilingsAdd(m: int, n: int, a: int, b: int, both: int)
    requires (a - 1) * MILLION < m <= a * MILLION && (b - 1) * MILLION < n <= b * MILLION
    requires (both - 1) * MILLION < m + n <= both * MILLION
    ensures both <= a + b <= both + 1
  {
  }

  /** The half-up estimate is the charged price, or one unit below it. */
  lemma EstimateWithinOneOfPrice(inputTokens: nat, outputTokens: nat, pricing: Pricing)
    requires Price(inputTokens, outputTokens, pricing).Some?
    ensures EstimateBwpMinor(inputTokens, outputTokens, pricing).Some?
    ensures var (e, p) := (EstimateBwpMinor(inputTokens, outputTokens, pricing).value, Price(inputTokens, outputTokens, pricing).value);
            p <= e + 1 && e <= p
  {
    NumeratorNat(inputTokens, outputTokens, pricing);
  }
}

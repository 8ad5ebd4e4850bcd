/**
 * The tiered fee charged on cash-in and cash-out (TransactionService::computeFee).
 * Amounts and rates are in centavos; the four rates are those of the fee_settings row,
 * read afresh on every call, so they are a parameter here.
 */
module FeePolicy {
  import opened Wrappers

  /** One peso in centavos. */
  const Peso: int := 100
  /** The lower bound of the middle tier, 500 pesos. */
  const FiveHundred: int := 500 * Peso
  /** The lower bound of the per-thousand tier and its unit, 1000 pesos. */
  const OneThousand: int := 1000 * Peso

  datatype FeeRates = FeeRates(below500: int, from500To999: int, per1000: int, discountedPer1000: int)

  /** The rate charged per whole thousand pesos. */
  function PerThousandRate(discounted: bool, rates: FeeRates): int {
    if discounted then rates.discountedPer1000 else rates.per1000
  }

  /**
   * The fee for `amount` centavos: a flat fee below 500 pesos, another flat fee from
   * 500 to below 1000 pesos, and from 1000 pesos on the number of whole thousands
   * (floor(amount / 1000)) times the per-thousand rate, discounted or not.
   */
  function ComputeFee(amount: int, discounted: bool, rates: FeeRates): int {
    if amount < FiveHundred then rates.below500
    else if amount < OneThousand then rates.from500To999
    else (amount / OneThousand) * PerThousandRate(discounted, rates)
  }

  /** The three tiers, stated through the number n of whole thousands rather than through division. */
  lemma FeeTiers(amount: int, discounted: bool, rates: FeeRates, n: int)
    ensures amount < FiveHundred ==> ComputeFee(amount, discounted, rates) == rates.below500
    ensures FiveHundred <= amount < OneThousand ==> ComputeFee(amount, discounted, rates) == rates.from500To999
    ensures 1 <= n && n * OneThousand <= amount < (n + 1) * OneThousand ==>
              ComputeFee(amount, discounted, rates) == n * PerThousandRate(discounted, rates)
  {
    if 1 <= n && n * OneThousand <= amount < (n + 1) * OneThousand {
      assert amount / OneThousand == n;
    }
  }

  /** The discount flag matters only from 1000 pesos on, and there exactly when the two rates differ. */
  lemma DiscountOnlyFromOneThousand(amount: int, rates: FeeRates)
    ensures amount < OneThousand ==> ComputeFee(amount, true, rates) == ComputeFee(amount, false, rates)
    ensures amount >= OneThousand ==>
              (ComputeFee(amount, true, rates) == ComputeFee(amount, false, rates)
               <==> rates.discountedPer1000 == rates.per1000)
  {
    if amount >= OneThousand {
      var n := amount / OneThousand;
      assert n >= 1;
      if rates.discountedPer1000 != rates.per1000 {
        assert n * rates.discountedPer1000 - n * rates.per1000 == n * (rates.discountedPer1000 - rates.per1000);
        assert n * (rates.discountedPer1000 - rates.per1000) != 0;
      }
    }
  }

  predicate NonNegativeRates(rates: FeeRates) {
    rates.below500 >= 0 && rates.from500To999 >= 0 && rates.per1000 >= 0 && rates.discountedPer1000 >= 0
  }

  /** With non-negative rates no (non-negative) amount is charged a negative fee. */
  lemma FeeNonNegative(amount: int, discounted: bool, rates: FeeRates)
    requires NonNegativeRates(rates) && amount >= 0
    ensures ComputeFee(amount, discounted, rates) >= 0
  {
    if amount >= OneThousand {
      var n := amount / OneThousand;
      assert n >= 1;
      MulNonNegative(n, PerThousandRate(discounted, rates));
    }
  }

  lemma MulNonNegative(x: int, y: int)
    requires x >= 0 && y >= 0
    ensures x * y >= 0
  {}

  lemma {:induction false} MulMonotone(x: int, y: int, r: int)
    requires x <= y && r >= 0
    ensures x * r <= y * r
  {
    assert y * r - x * r == (y - x) * r;
    MulNonNegative(y - x, r);
  }

  /** Within the per-thousand tier the fee never decreases as the amount grows. */
  lemma FeeMonotoneFromOneThousand(a: int, b: int, discounted: bool, rates: FeeRates)
    requires NonNegativeRates(rates)
    requires OneThousand <= a <= b
    ensures ComputeFee(a, discounted, rates) <= ComputeFee(b, discounted, rates)
  {
    assert a / OneThousand <= b / OneThousand;
    MulMonotone(a / OneThousand, b / OneThousand, PerThousandRate(discounted, rates));
  }

  /** Each further thousand pesos adds exactly one per-thousand rate. */
  lemma FeeStepPerThousand(amount: int, discounted: bool, rates: FeeRates)
    requires amount >= OneThousand
    ensures ComputeFee(amount + OneThousand, discounted, rates)
         == ComputeFee(amount, discounted, rates) + PerThousandRate(discounted, rates)
  {
    var n := amount / OneThousand;
    assert (amount + OneThousand) / OneThousand == n + 1;
    assert (n + 1) * PerThousandRate(discounted, rates) == n * PerThousandRate(discounted, rates) + PerThousandRate(discounted, rates);
  }

  /** The fee is flat between two multiples of a thousand pesos: 1999 pesos pays as much as 1000. */
  lemma FeeFlatWithinThousand(amount: int, discounted: bool, rates: FeeRates)
    requires amount >= OneThousand
    ensures ComputeFee(amount, discounted, rates)
         == ComputeFee((amount / OneThousand) * OneThousand, discounted, rates)
  {
    var n := amount / OneThousand;
    assert n >= 1;
    assert (n * OneThousand) / OneThousand == n;
  }

  /** The column defaults of fee_settings: 5, 10, 15 and 10 pesos. */
  const DefaultRates: FeeRates := FeeRates(5 * Peso, 10 * Peso, 15 * Peso, 10 * Peso)

  /** Worked examples at the default rates (amounts in pesos times Peso). */
  lemma DefaultRateExamples()
    ensures ComputeFee(499 * Peso, false, DefaultRates) == 5 * Peso
    ensures ComputeFee(999 * Peso, false, DefaultRates) == 10 * Peso
    ensures ComputeFee(1000 * Peso, false, DefaultRates) == 15 * Peso
    ensures ComputeFee(2500 * Peso, false, DefaultRates) == 30 * Peso
    ensures ComputeFee(2500 * Peso, true, DefaultRates) == 20 * Peso
    ensures ComputeFee(1999 * Peso, false, DefaultRates) == 15 * Peso
  {}

  // ---------------------------------------------------------------------------
  // The fee as written. computeFee reads the attribute `five_to_999_fee`, but the
  // fee_settings table has the column `five_hundred_to_999_fee`. Eloquent yields null
  // for an attribute the row does not have, and returning null from a function
  // declared `: float` raises a TypeError, which rolls the whole cash-in or cash-out
  // back. The rest of the model uses ComputeFee above, which charges the middle rate.

  /** A fee_settings row: column name to value in centavos. */
  type SettingsRow = map<string, int>

  /** The fee columns the migration creates. */
  const FeeColumns: set<string> :=
    {"below_500_fee", "five_hundred_to_999_fee", "per_1000_fee", "discounted_per_1000_fee"}

  /** Reading an attribute: null (None) when the row has no such column. */
  function Attribute(row: SettingsRow, name: string): Option<int> {
    if name in row then Some(row[name]) else None
  }

  /** The rates a full fee_settings row holds. */
  function RatesOf(row: SettingsRow): FeeRates
    requires FeeColumns <= row.Keys
  {
    FeeRates(row["below_500_fee"], row["five_hundred_to_999_fee"], row["per_1000_fee"], row["discounted_per_1000_fee"])
  }

  /**
   * computeFee exactly as written: None when a null reaches the float return type.
   * In the per-thousand tier a null rate would be multiplied as 0, as PHP does.
   */
  function ComputeFeeAsWritten(amount: int, discounted: bool, row: SettingsRow): Option<int> {
    if amount < FiveHundred then Attribute(row, "below_500_fee")
    else if amount < OneThousand then Attribute(row, "five_to_999_fee")
    else
      var rate := Attribute(row, if discounted then "discounted_per_1000_fee" else "per_1000_fee");
      Some((amount / OneThousand) * rate.GetOr(0))
  }

  /** For every middle-tier amount the code as written fails, where the intended fee is the 500-999 rate. */
  lemma MiddleTierAsWrittenFails(amount: int, discounted: bool, row: SettingsRow)
    requires FeeColumns <= row.Keys && "five_to_999_fee" !in row.Keys
    requires FiveHundred <= amount < OneThousand
    ensures ComputeFeeAsWritten(amount, discounted, row) == None
    ensures ComputeFee(amount, discounted, RatesOf(row)) == row["five_hundred_to_999_fee"]
  {}

  /** Outside the middle tier the code as written and the corrected fee agree. */
  lemma AsWrittenAgreesOutsideMiddleTier(amount: int, discounted: bool, row: SettingsRow)
    requires FeeColumns <= row.Keys
    requires amount < FiveHundred || amount >= OneThousand
    ensures ComputeFeeAsWritten(amount, discounted, row) == Some(ComputeFee(amount, discounted, RatesOf(row)))
  {}
}

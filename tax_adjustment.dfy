/** Fees, capital-gains tax and inflation applied to simulated end values
    (tax_adjustment.py). */
module TaxAdjustment {
  import opened Outcomes
  import opened Dicts
  import Stats

  const LongTerm := "long_term"
  const ShortTerm := "short_term"

  /** The rate of `tax_rates` that applies: long-term from a one-year holding period on. */
  function TaxRateFor(taxRates: Dict<real>, holdingPeriod: nat): (r: Result<real>)
    ensures holdingPeriod >= 1 ==> r == Lookup(taxRates, LongTerm)
    ensures holdingPeriod < 1 ==> r == Lookup(taxRates, ShortTerm)
  {
    if holdingPeriod >= 1 then Lookup(taxRates, LongTerm) else Lookup(taxRates, ShortTerm)
  }

  /** A value less the total of all fee percentages. */
  function AfterFees(value: real, feeTotal: real): real {
    value * (1.0 - feeTotal / 100.0)
  }

  /** The "gain" the tax is charged on: `max(0, after_fees - value)`. It
      compares the value after fees with the same value before fees, not
      with a cost basis. */
  function TaxableGain(value: real, feeTotal: real): (g: real)
    ensures g >= 0.0
  {
    var d := AfterFees(value, feeTotal) - value;
    if d > 0.0 then d else 0.0
  }

  /** One adjusted projection: the value after fees, less the tax on the gain. */
  function AfterTax(value: real, feeTotal: real, taxRate: real): real {
    AfterFees(value, feeTotal) - TaxableGain(value, feeTotal) * taxRate
  }

  /** The gain is `-value * feeTotal / 100` when that is positive, else nothing. */
  lemma TaxableGainClosedForm(value: real, feeTotal: real)
    ensures TaxableGain(value, feeTotal) == if value * feeTotal < 0.0 then -(value * feeTotal) / 100.0 else 0.0
  {
    assert AfterFees(value, feeTotal) - value == -(value * feeTotal) / 100.0;
  }

  /** Non-negative values pay no tax when fees are non-negative: the output is the value after fees. */
  lemma NoTaxOnNonNegativeValues(value: real, feeTotal: real, taxRate: real)
    requires value >= 0.0 && feeTotal >= 0.0
    ensures TaxableGain(value, feeTotal) == 0.0
    ensures AfterTax(value, feeTotal, taxRate) == AfterFees(value, feeTotal)
  {
    TaxableGainClosedForm(value, feeTotal);
    assert value * feeTotal >= 0.0;
  }

  /** A negative value with positive fees is charged a positive "gain". */
  lemma TaxOnNegativeValues(value: real, feeTotal: real)
    requires value < 0.0 && feeTotal > 0.0
    ensures TaxableGain(value, feeTotal) > 0.0
  {
    TaxableGainClosedForm(value, feeTotal);
    assert value * feeTotal < 0.0;
  }

  /** `apply_taxes_and_fees` as a function of its inputs: one output per
      input, each adjusted with the same fee total and tax rate. */
  function TaxesAndFees(projections: seq<real>, taxRates: Dict<real>, fees: Dict<real>, holdingPeriod: nat): (r: Result<seq<real>>)
    ensures r.Ok? <==> TaxRateFor(taxRates, holdingPeriod).Ok?
    ensures r.Err? ==> r.error == KeyError(if holdingPeriod >= 1 then LongTerm else ShortTerm)
    ensures r.Ok? ==> |r.value| == |projections|
    ensures r.Ok? ==> forall i :: 0 <= i < |projections| ==>
      r.value[i] == AfterTax(projections[i], SumValues(fees), TaxRateFor(taxRates, holdingPeriod).value)
  {
    match TaxRateFor(taxRates, holdingPeriod)
    case Err(e) => Err(e)
    case Ok(rate) =>
      Ok(seq(|projections|, i requires 0 <= i < |projections| => AfterTax(projections[i], SumValues(fees), rate)))
  }

  /** Each output depends on its own input only: adjusting a concatenation
      adjusts the two parts separately. */
  lemma TaxesAndFeesElementwise(p: seq<real>, q: seq<real>, taxRates: Dict<real>, fees: Dict<real>, holdingPeriod: nat)
    requires TaxRateFor(taxRates, holdingPeriod).Ok?
    ensures TaxesAndFees(p + q, taxRates, fees, holdingPeriod).value
         == TaxesAndFees(p, taxRates, fees, holdingPeriod).value + TaxesAndFees(q, taxRates, fees, holdingPeriod).value
  {
  }

  /** The loop of `apply_taxes_and_fees`: the rate is chosen once, then each
      value is adjusted and appended. The input list is a value and stays as it was. */
  method ApplyTaxesAndFees(projections: seq<real>, taxRates: Dict<real>, fees: Dict<real>, holdingPeriod: nat)
    returns (r: Result<seq<real>>)
    ensures r == TaxesAndFees(projections, taxRates, fees, holdingPeriod)
  {
    var rate := TaxRateFor(taxRates, holdingPeriod);
    if rate.Err? {
      return Err(rate.error);
    }
    var taxRate := rate.value;
    var adjusted: seq<real> := [];
    for k := 0 to |projections|
      invariant |adjusted| == k
      invariant forall i :: 0 <= i < k ==> adjusted[i] == AfterTax(projections[i], SumValues(fees), taxRate)
    {
      var value := projections[k];
      var afterFees := value * (1.0 - SumValues(fees) / 100.0);
      var taxableGain := if afterFees - value > 0.0 then afterFees - value else 0.0;
      var afterTax := afterFees - taxableGain * taxRate;
      adjusted := adjusted + [afterTax];
    }
    assert adjusted == TaxesAndFees(projections, taxRates, fees, holdingPeriod).value;
    r := Ok(adjusted);
  }

  /** `base ** n` for a whole exponent. */
  function Pow(base: real, n: nat): real {
    if n == 0 then 1.0 else Pow(base, n - 1) * base
  }

  lemma {:induction false} PowPositive(base: real, n: nat)
    requires base > 0.0
    ensures Pow(base, n) > 0.0
  {
    if n > 0 {
      PowPositive(base, n - 1);
      MulPositive(Pow(base, n - 1), base);
    }
  }

  lemma MulPositive(a: real, b: real)
    requires a > 0.0 && b > 0.0
    ensures a * b > 0.0
  {
  }

  /** The discount factor vanishes only for a zero base and a positive exponent. */
  lemma {:induction false} PowZeroIff(base: real, n: nat)
    ensures Pow(base, n) == 0.0 <==> base == 0.0 && n > 0
  {
    if n > 0 {
      PowZeroIff(base, n - 1);
      assert Pow(base, n) == Pow(base, n - 1) * base;
      if Pow(base, n - 1) != 0.0 && base != 0.0 {
        assert Pow(base, n - 1) * base != 0.0;
      }
    }
  }

  lemma {:induction false} PowOne(n: nat)
    ensures Pow(1.0, n) == 1.0
  {
    if n > 0 {
      PowOne(n - 1);
    }
  }

  /** `(1 + inflation_rate) ** years`, which is zero only at a rate of -100%. */
  function DiscountFactor(inflationRate: real, years: nat): (f: real)
    ensures f == 0.0 <==> inflationRate == -1.0 && years > 0
    ensures inflationRate > -1.0 ==> f > 0.0
  {
    PowZeroIff(1.0 + inflationRate, years);
    if inflationRate > -1.0 then PowPositive(1.0 + inflationRate, years); Pow(1.0 + inflationRate, years)
    else Pow(1.0 + inflationRate, years)
  }

  /** `adjust_for_inflation`: every value divided by `(1 + rate) ** years`;
      the division fails as soon as there is a value and the factor is zero. */
  function AdjustForInflation(projections: seq<real>, inflationRate: real, years: nat): (r: Result<seq<real>>)
    ensures r.Err? <==> |projections| > 0 && inflationRate == -1.0 && years > 0
    ensures r.Err? ==> r.error == ZeroDivisionError
    ensures r.Ok? ==> |r.value| == |projections|
    ensures r.Ok? ==> forall i :: 0 <= i < |projections| ==>
      r.value[i] == projections[i] / DiscountFactor(inflationRate, years)
  {
    var factor := DiscountFactor(inflationRate, years);
    if |projections| > 0 && factor == 0.0 then Err(ZeroDivisionError)
    else Ok(seq(|projections|, i requires 0 <= i < |projections| => projections[i] / factor))
  }

  /** For an inflation rate above -100%, discounting keeps every value's sign
      and the order between any two values. */
  lemma InflationKeepsSignAndOrder(projections: seq<real>, inflationRate: real, years: nat)
    requires inflationRate > -1.0
    ensures AdjustForInflation(projections, inflationRate, years).Ok?
    ensures var adjusted := AdjustForInflation(projections, inflationRate, years).value;
      && (forall i :: 0 <= i < |projections| ==>
            (adjusted[i] > 0.0 <==> projections[i] > 0.0) && (adjusted[i] < 0.0 <==> projections[i] < 0.0))
      && (forall i, j :: 0 <= i < |projections| && 0 <= j < |projections| && projections[i] <= projections[j] ==>
            adjusted[i] <= adjusted[j])
  {
    var factor := DiscountFactor(inflationRate, years);
    var adjusted := AdjustForInflation(projections, inflationRate, years).value;
    forall i | 0 <= i < |projections|
      ensures (adjusted[i] > 0.0 <==> projections[i] > 0.0) && (adjusted[i] < 0.0 <==> projections[i] < 0.0)
    {
      DivideKeepsSign(projections[i], factor);
    }
    forall i, j | 0 <= i < |projections| && 0 <= j < |projections| && projections[i] <= projections[j]
      ensures adjusted[i] <= adjusted[j]
    {
      Stats.DivMonotone(projections[i], projections[j], factor);
    }
  }

  lemma DivideKeepsSign(x: real, d: real)
    requires d > 0.0
    ensures x / d > 0.0 <==> x > 0.0
    ensures x / d < 0.0 <==> x < 0.0
  {
    assert x == (x / d) * d;
  }

  /** With no inflation the values are unchanged. */
  lemma NoInflationIsIdentity(projections: seq<real>, years: nat)
    ensures AdjustForInflation(projections, 0.0, years) == Ok(projections)
  {
    PowOne(years);
    var adjusted := AdjustForInflation(projections, 0.0, years).value;
    assert forall i :: 0 <= i < |projections| ==> adjusted[i] == projections[i] / 1.0 == projections[i];
    assert adjusted == projections;
  }

  /** Lines 61-63: fees and tax first, then inflation over the holding period. */
  function NetValues(projections: seq<real>, taxRates: Dict<real>, fees: Dict<real>, inflationRate: real, holdingPeriod: nat)
    : (r: Result<seq<real>>)
    ensures r.Ok? <==> TaxRateFor(taxRates, holdingPeriod).Ok? && !(|projections| > 0 && inflationRate == -1.0 && holdingPeriod > 0)
    ensures r.Ok? ==> |r.value| == |projections|
    ensures r.Ok? ==> forall i :: 0 <= i < |projections| ==>
      r.value[i] == AfterTax(projections[i], SumValues(fees), TaxRateFor(taxRates, holdingPeriod).value)
                      / DiscountFactor(inflationRate, holdingPeriod)
  {
    match TaxesAndFees(projections, taxRates, fees, holdingPeriod)
    case Err(e) => Err(e)
    case Ok(adjusted) => AdjustForInflation(adjusted, inflationRate, holdingPeriod)
  }

  /** Discounting first and then charging fees and tax gives the same values:
      the adjustment is linear on each side of zero and a positive factor keeps the side. */
  lemma TaxAndDiscountCommute(value: real, feeTotal: real, taxRate: real, factor: real)
    requires factor > 0.0
    ensures AfterTax(value / factor, feeTotal, taxRate) == AfterTax(value, feeTotal, taxRate) / factor
  {
    var v' := value / factor;
    assert value == v' * factor;
    TaxableGainClosedForm(value, feeTotal);
    TaxableGainClosedForm(v', feeTotal);
    assert value * feeTotal == (v' * feeTotal) * factor;
    assert (value * feeTotal < 0.0) <==> (v' * feeTotal < 0.0) by {
      SignOfProduct(v' * feeTotal, factor);
    }
    assert AfterTax(value, feeTotal, taxRate) == AfterTax(v', feeTotal, taxRate) * factor;
  }

  lemma SignOfProduct(x: real, d: real)
    requires d > 0.0
    ensures x * d < 0.0 <==> x < 0.0
  {
    if x < 0.0 {
      assert -(x * d) == (-x) * d;
      MulPositive(-x, d);
    } else if x > 0.0 {
      MulPositive(x, d);
    }
  }

  /** The two orders of the pipeline agree whenever the inflation rate is above -100%. */
  lemma AdjustmentOrderIrrelevant(projections: seq<real>, taxRates: Dict<real>, fees: Dict<real>, inflationRate: real, holdingPeriod: nat)
    requires inflationRate > -1.0
    requires TaxRateFor(taxRates, holdingPeriod).Ok?
    ensures var discounted := AdjustForInflation(projections, inflationRate, holdingPeriod).value;
      TaxesAndFees(discounted, taxRates, fees, holdingPeriod) == NetValues(projections, taxRates, fees, inflationRate, holdingPeriod)
  {
    var factor := DiscountFactor(inflationRate, holdingPeriod);
    var rate := TaxRateFor(taxRates, holdingPeriod).value;
    var discounted := AdjustForInflation(projections, inflationRate, holdingPeriod).value;
    var a := TaxesAndFees(discounted, taxRates, fees, holdingPeriod).value;
    var b := NetValues(projections, taxRates, fees, inflationRate, holdingPeriod).value;
    forall i | 0 <= i < |projections| ensures a[i] == b[i] {
      TaxAndDiscountCommute(projections[i], SumValues(fees), rate, factor);
    }
    assert a == b;
  }

  const FeasibleAfterAdjustments := "Goal is feasible after adjustments."
  const ReduceCosts := "Increase investment, adjust timeline, or reduce fees."

  /** The dict `calculate_net_projections` returns, before rounding. */
  datatype NetReport = NetReport(
    initialInvestment: real,
    goalAmount: real,
    probabilityOfSuccess: real,
    recommendation: string,
    medianProjection: real,
    projectionRange: (real, real))

  /** `calculate_net_projections`: net values, the share of them at or above
      the goal, the recommendation at the 75% threshold, the median and the
      interquartile range. An empty projection list divides by zero. */
  function CalculateNetProjections(initialInvestment: real, goalAmount: real, projections: seq<real>,
                                   taxRates: Dict<real>, fees: Dict<real>, inflationRate: real, holdingPeriod: nat)
    : (r: Result<NetReport>)
    ensures r.Ok? <==> NetValues(projections, taxRates, fees, inflationRate, holdingPeriod).Ok? && |projections| > 0
    ensures r.Err? ==> r.error == if TaxRateFor(taxRates, holdingPeriod).Err? then TaxRateFor(taxRates, holdingPeriod).error
                                  else ZeroDivisionError
    ensures r.Ok? ==> var net := NetValues(projections, taxRates, fees, inflationRate, holdingPeriod).value;
      && r.value.initialInvestment == initialInvestment
      && r.value.goalAmount == goalAmount
      && r.value.probabilityOfSuccess == Stats.SuccessProbability(net, goalAmount)
      && 0.0 <= r.value.probabilityOfSuccess <= 100.0
      && (r.value.recommendation == FeasibleAfterAdjustments <==> r.value.probabilityOfSuccess >= 75.0)
      && |net| > 0
      && r.value.medianProjection == Stats.Median(net)
      && r.value.projectionRange == (Stats.Percentile(net, 25.0), Stats.Percentile(net, 75.0))
      && r.value.projectionRange.0 <= r.value.medianProjection <= r.value.projectionRange.1
  {
    match NetValues(projections, taxRates, fees, inflationRate, holdingPeriod)
    case Err(e) => Err(e)
    case Ok(net) =>
      if |net| == 0 then Err(ZeroDivisionError)
      else
        var probability := Stats.SuccessProbability(net, goalAmount);
        Stats.QuartilesBracketMedian(net);
        Ok(NetReport(
          initialInvestment,
          goalAmount,
          probability,
          if probability >= 75.0 then FeasibleAfterAdjustments else ReduceCosts,
          Stats.Median(net),
          (Stats.Percentile(net, 25.0), Stats.Percentile(net, 75.0))))
  }

  /** For a fixed projection list, a higher goal never gives a higher probability of success. */
  lemma NetProbabilityAntitone(initialInvestment: real, lower: real, higher: real, projections: seq<real>,
                               taxRates: Dict<real>, fees: Dict<real>, inflationRate: real, holdingPeriod: nat)
    requires lower <= higher
    requires CalculateNetProjections(initialInvestment, lower, projections, taxRates, fees, inflationRate, holdingPeriod).Ok?
    ensures CalculateNetProjections(initialInvestment, higher, projections, taxRates, fees, inflationRate, holdingPeriod).Ok?
    ensures CalculateNetProjections(initialInvestment, higher, projections, taxRates, fees, inflationRate, holdingPeriod).value.probabilityOfSuccess
         <= CalculateNetProjections(initialInvestment, lower, projections, taxRates, fees, inflationRate, holdingPeriod).value.probabilityOfSuccess
  {
    var net := NetValues(projections, taxRates, fees, inflationRate, holdingPeriod).value;
    Stats.ProbabilityAntitone(net, lower, higher);
  }
}

/** The risk score and the rule-based allocation (risk_profiler.py).

    The mean NSEI sentiment is an input: `None` stands for a table without
    NSEI rows, whose mean is NaN and compares false with zero. The
    financial table is accepted and ignored, as in the source. */
module RiskProfiler {
  import opened Outcomes
  import opened Dicts
  import GoalChecker

  const Stocks := "stocks"
  const Bonds := "bonds"
  const RealEstate := "real_estate"
  const Crypto := "crypto"

  /** `max(0, 100 - age) / 100`: full capacity at birth, none from 100 on. */
  function AgeFactor(age: real): (f: real)
    ensures age >= 0.0 ==> 0.0 <= f <= 1.0
    ensures age >= 100.0 ==> f == 0.0
    ensures f >= 0.0
  {
    (if 100.0 - age > 0.0 then 100.0 - age else 0.0) / 100.0
  }

  /** An older investor never gets a larger age factor. */
  lemma AgeFactorAntitone(younger: real, older: real)
    requires younger <= older
    ensures AgeFactor(older) <= AgeFactor(younger)
  {
  }

  const StabilityTable: Dict<real> := [("stable", 1.0), ("moderate", 0.75), ("unstable", 0.5)]
  const ToleranceTable: Dict<real> := [("low", 0.5), ("medium", 0.75), ("high", 1.0)]

  /** `{...}.get(income_stability, 0.5)`: between the default 0.5 and 1. */
  function StabilityFactor(incomeStability: string): (f: real)
    ensures 0.5 <= f <= 1.0
  {
    TableValues(StabilityTable, incomeStability, 0.5, 1.0);
    match Get(StabilityTable, incomeStability)
    case Some(f) => f
    case None => 0.5
  }

  /** `{...}.get(risk_tolerance, 0.75)`: between 0.5 and 1. */
  function ToleranceFactor(riskTolerance: string): (f: real)
    ensures 0.5 <= f <= 1.0
  {
    TableValues(ToleranceTable, riskTolerance, 0.5, 1.0);
    match Get(ToleranceTable, riskTolerance)
    case Some(f) => f
    case None => 0.75
  }

  /** The stability factor is one of the table's values or the 0.5 default. */
  lemma StabilityFactorValues(incomeStability: string)
    ensures incomeStability == "stable" ==> StabilityFactor(incomeStability) == 1.0
    ensures incomeStability == "moderate" ==> StabilityFactor(incomeStability) == 0.75
    ensures incomeStability !in Keys(StabilityTable) ==> StabilityFactor(incomeStability) == 0.5
    ensures 0.5 <= StabilityFactor(incomeStability) <= 1.0
  {
    TableValues(StabilityTable, incomeStability, 0.5, 1.0);
  }

  /** The tolerance factor is one of the table's values or the 0.75 default. */
  lemma ToleranceFactorValues(riskTolerance: string)
    ensures riskTolerance == "low" ==> ToleranceFactor(riskTolerance) == 0.5
    ensures riskTolerance == "high" ==> ToleranceFactor(riskTolerance) == 1.0
    ensures riskTolerance !in Keys(ToleranceTable) ==> ToleranceFactor(riskTolerance) == 0.75
    ensures 0.5 <= ToleranceFactor(riskTolerance) <= 1.0
  {
    TableValues(ToleranceTable, riskTolerance, 0.5, 1.0);
  }

  /** A value found in a table lies within the bounds of all its values. */
  lemma TableValues(table: Dict<real>, key: string, lo: real, hi: real)
    requires forall i :: 0 <= i < |table| ==> lo <= table[i].1 <= hi
    ensures Get(table, key).Some? ==> lo <= Get(table, key).value <= hi
  {
  }

  /** `risk_profile` (lines 4-23) before rounding: the product of the three
      factors. The score is never negative, lies in [0, 1] for a non-negative
      age, and is 0 from age 100 on. */
  function RiskProfile(age: real, incomeStability: string, riskTolerance: string): (score: real)
    ensures score >= 0.0
    ensures age >= 0.0 ==> score <= 1.0
    ensures age >= 100.0 ==> score == 0.0
  {
    var a, s, t := AgeFactor(age), StabilityFactor(incomeStability), ToleranceFactor(riskTolerance);
    ScoreBounds(age, a, s, t);
    a * s * t
  }

  /** The product bounds, stated for the age factor of `age`. */
  lemma ScoreBounds(age: real, a: real, s: real, t: real)
    requires a == AgeFactor(age) && 0.0 <= s <= 1.0 && 0.0 <= t <= 1.0
    ensures a * s * t >= 0.0
    ensures age >= 0.0 ==> a * s * t <= 1.0
    ensures age >= 100.0 ==> a * s * t == 0.0
  {
    ProductBounds(a, s, t);
    assert age >= 0.0 ==> a <= 1.0;
    assert age >= 100.0 ==> a == 0.0;
  }

  lemma ProductBounds(a: real, s: real, t: real)
    requires a >= 0.0 && 0.0 <= s <= 1.0 && 0.0 <= t <= 1.0
    ensures 0.0 <= a * s * t <= a
    ensures a <= 1.0 ==> a * s * t <= 1.0
    ensures a == 0.0 ==> a * s * t == 0.0
  {
    assert 0.0 <= a * s <= a by { assert a - a * s == a * (1.0 - s); }
    assert 0.0 <= a * s * t <= a * s by { assert a * s - a * s * t == a * s * (1.0 - t); }
  }

  /** For the same stability and tolerance, an older investor never scores higher. */
  lemma RiskProfileAntitoneInAge(younger: real, older: real, incomeStability: string, riskTolerance: string)
    requires younger <= older
    ensures RiskProfile(older, incomeStability, riskTolerance) <= RiskProfile(younger, incomeStability, riskTolerance)
  {
    var s, t := StabilityFactor(incomeStability), ToleranceFactor(riskTolerance);
    StabilityFactorValues(incomeStability);
    ToleranceFactorValues(riskTolerance);
    var ao, ay := AgeFactor(older), AgeFactor(younger);
    assert ay * s * t - ao * s * t == (ay - ao) * (s * t);
    assert s * t >= 0.0;
  }

  /** The allocation the adjustment starts from (line 38). */
  const BaseAllocation: Dict<real> := [(Stocks, 0.4), (Bonds, 0.3), (RealEstate, 0.2), (Crypto, 0.1)]

  /** `mean > 0`, false for the NaN mean of an empty selection. */
  predicate PositiveSentiment(nseiSentiment: Option<real>) {
    nseiSentiment.Some? && nseiSentiment.value > 0.0
  }

  /** Lines 43-52 for one asset: the first rule that applies. */
  function AdjustedValue(asset: string, value: real, riskScore: real, nseiSentiment: Option<real>): real {
    if asset == Stocks && PositiveSentiment(nseiSentiment) then value + riskScore * 0.1
    else if asset == Bonds then value - (1.0 - riskScore) * 0.1
    else if asset == Crypto && riskScore > 0.7 then value + 0.05
    else if asset == RealEstate && riskScore < 0.5 then value - 0.05
    else value
  }

  /** The base allocation after the loop of lines 41-52. */
  function Adjusted(riskScore: real, nseiSentiment: Option<real>): (d: Dict<real>)
    ensures |d| == |BaseAllocation|
  {
    seq(|BaseAllocation|, i requires 0 <= i < |BaseAllocation| =>
      (BaseAllocation[i].0, AdjustedValue(BaseAllocation[i].0, BaseAllocation[i].1, riskScore, nseiSentiment)))
  }

  /** The rules asset by asset: stocks gain `risk_score * 0.1` exactly when
      the sentiment is positive, bonds always lose `(1 - risk_score) * 0.1`,
      real estate loses 0.05 exactly when the score is below 0.5, crypto gains
      0.05 exactly when the score is above 0.7. */
  lemma AdjustmentRules(riskScore: real, nseiSentiment: Option<real>)
    ensures var d := Adjusted(riskScore, nseiSentiment);
      && Keys(d) == Keys(BaseAllocation)
      && d[0].1 == (if PositiveSentiment(nseiSentiment) then 0.4 + riskScore * 0.1 else 0.4)
      && d[1].1 == 0.3 - (1.0 - riskScore) * 0.1
      && d[2].1 == (if riskScore < 0.5 then 0.2 - 0.05 else 0.2)
      && d[3].1 == (if riskScore > 0.7 then 0.1 + 0.05 else 0.1)
  {
    var d := Adjusted(riskScore, nseiSentiment);
    assert Keys(d) == Keys(BaseAllocation) by {
      assert forall i :: 0 <= i < |d| ==> Keys(d)[i] == Keys(BaseAllocation)[i];
    }
  }

  /** The comprehension of line 56 before rounding: each share as a percentage of `total`. */
  function Percentages(d: Dict<real>, total: real): (p: Dict<real>)
    requires total != 0.0
    ensures |p| == |d|
    ensures Keys(p) == Keys(d)
  {
    var p := seq(|d|, i requires 0 <= i < |d| => (d[i].0, d[i].1 / total * 100.0));
    assert forall i :: 0 <= i < |d| ==> Keys(p)[i] == Keys(d)[i];
    p
  }

  /** Lines 55-56: divide by the total and scale to 100. An empty dict gives
      an empty dict, since the comprehension divides nothing; otherwise a zero
      total raises, and a non-zero one keeps the keys and gives new values
      adding up to 100. */
  function Normalised(d: Dict<real>): (r: Result<Dict<real>>)
    ensures r.Err? <==> |d| > 0 && SumValues(d) == 0.0
    ensures r.Err? ==> r.error == ZeroDivisionError
    ensures r.Ok? ==> Keys(r.value) == Keys(d)
    ensures r.Ok? ==> forall i :: 0 <= i < |d| ==> r.value[i].1 == d[i].1 / SumValues(d) * 100.0
    ensures r.Ok? ==> SumValues(r.value) == if |d| == 0 then 0.0 else 100.0
  {
    var total := SumValues(d);
    if |d| == 0 then Ok([])
    else if total == 0.0 then Err(ZeroDivisionError)
    else
      PercentagesSum(d, total);
      assert total / total == 1.0;
      Ok(Percentages(d, total))
  }

  /** Percentages of `total` add up to the sum divided by `total`, times 100. */
  lemma {:induction false} PercentagesSum(d: Dict<real>, total: real)
    requires total != 0.0
    ensures SumValues(Percentages(d, total)) == SumValues(d) / total * 100.0
  {
    if |d| > 0 {
      var n := |d| - 1;
      var p := Percentages(d, total);
      assert p[..n] == Percentages(d[..n], total);
      PercentagesSum(d[..n], total);
      var before, x := SumValues(d[..n]), d[n].1;
      assert (before + x) / total * 100.0 == before / total * 100.0 + x / total * 100.0;
    }
  }

  /** `dynamic_allocation` (lines 25-58) before rounding. With a non-negative
      score, which `risk_profile` always yields, the adjusted total is at least
      0.85, so normalisation never divides by zero; the output has the four
      base keys, each share is its adjusted value as a percentage of the
      adjusted total, every share is positive and they add up to 100. */
  function DynamicAllocationOf(riskScore: real, nseiSentiment: Option<real>): (r: Result<Dict<real>>)
    ensures riskScore >= 0.0 ==> r.Ok?
    ensures r.Ok? ==> Keys(r.value) == Keys(BaseAllocation)
    ensures r.Ok? ==> SumValues(Adjusted(riskScore, nseiSentiment)) != 0.0 && forall i :: 0 <= i < |r.value| ==>
      r.value[i].1 == Adjusted(riskScore, nseiSentiment)[i].1 / SumValues(Adjusted(riskScore, nseiSentiment)) * 100.0
    ensures riskScore >= 0.0 ==> forall i :: 0 <= i < |r.value| ==> r.value[i].1 > 0.0
    ensures r.Ok? ==> SumValues(r.value) == 100.0
  {
    var d := Adjusted(riskScore, nseiSentiment);
    AdjustmentRules(riskScore, nseiSentiment);
    SumOfFour(d);
    assert riskScore >= 0.0 ==> forall i :: 0 <= i < |d| ==> d[i].1 > 0.0;
    Normalised(d)
  }

  lemma SumOfFour(d: Dict<real>)
    requires |d| == 4
    ensures SumValues(d) == d[0].1 + d[1].1 + d[2].1 + d[3].1
  {
    assert d[..4] == d;
    assert d[..3][..2] == d[..2];
    assert d[..2][..1] == d[..1];
    assert d[..1][..0] == [];
    assert SumValues(d[..1]) == d[0].1;
    assert SumValues(d[..2]) == d[0].1 + d[1].1;
    assert SumValues(d[..3]) == d[0].1 + d[1].1 + d[2].1;
  }

  /** `dynamic_allocation` as the source runs it: the base allocation is
      adjusted in place, asset by asset, then normalised. `financialData`
      is not read. */
  method DynamicAllocation(riskScore: real, nseiSentiment: Option<real>, financialData: seq<GoalChecker.AssetRow>)
    returns (r: Result<Dict<real>>)
    ensures r == DynamicAllocationOf(riskScore, nseiSentiment)
  {
    var baseAllocation := BaseAllocation;
    for k := 0 to |baseAllocation|
      invariant |baseAllocation| == |BaseAllocation|
      invariant forall i :: 0 <= i < k ==> baseAllocation[i] == Adjusted(riskScore, nseiSentiment)[i]
      invariant forall i :: k <= i < |baseAllocation| ==> baseAllocation[i] == BaseAllocation[i]
    {
      var (asset, percentage) := baseAllocation[k];
      if asset == Stocks && PositiveSentiment(nseiSentiment) {
        percentage := percentage + riskScore * 0.1;
      } else if asset == Bonds {
        percentage := percentage - (1.0 - riskScore) * 0.1;
      } else if asset == Crypto && riskScore > 0.7 {
        percentage := percentage + 0.05;
      } else if asset == RealEstate && riskScore < 0.5 {
        percentage := percentage - 0.05;
      }
      baseAllocation := baseAllocation[k := (asset, percentage)];
    }
    assert baseAllocation == Adjusted(riskScore, nseiSentiment);
    r := Normalised(baseAllocation);
  }
}

/** Single-goal feasibility by Monte Carlo simulation (goal_checker.py).

    The random draws are an argument: `normals[k][y]` is the standard-normal
    sample for year `y` of run `k`. numpy's `normal(mu, sigma)` returns
    `mu + sigma * z` for such a sample, and refuses a negative `sigma`. */
module GoalChecker {
  import opened Outcomes
  import opened Dicts
  import Stats

  /** One row of the financial-data table. */
  datatype AssetRow = AssetRow(ticker: string, annualizedReturn: real, annualizedVolatility: real)

  /** `financial_data[financial_data['ticker'] == ticker]` followed by `.values[0]`:
      the first row with that ticker, or nothing. */
  function FindAsset(financialData: seq<AssetRow>, ticker: string): (r: Option<AssetRow>)
    ensures r.Some? ==> r.value.ticker == ticker && r.value in financialData
  {
    if |financialData| == 0 then None
    else if financialData[0].ticker == ticker then Some(financialData[0])
    else FindAsset(financialData[1..], ticker)
  }

  /** The lookup finds nothing exactly when no row has the ticker, and
      otherwise the first row that has it. */
  lemma {:induction false} FindAssetFindsFirst(financialData: seq<AssetRow>, ticker: string)
    ensures FindAsset(financialData, ticker).None? <==> forall i :: 0 <= i < |financialData| ==> financialData[i].ticker != ticker
    ensures FindAsset(financialData, ticker).Some? ==>
      exists i :: 0 <= i < |financialData| && financialData[i] == FindAsset(financialData, ticker).value
        && financialData[i].ticker == ticker
        && forall j :: 0 <= j < i ==> financialData[j].ticker != ticker
  {
    if |financialData| > 0 && financialData[0].ticker != ticker {
      var rest := financialData[1..];
      FindAssetFindsFirst(rest, ticker);
      assert forall i :: 0 <= i < |rest| ==> rest[i] == financialData[i + 1];
      if FindAsset(rest, ticker).Some? {
        var i :| 0 <= i < |rest| && rest[i] == FindAsset(rest, ticker).value && rest[i].ticker == ticker
          && forall j :: 0 <= j < i ==> rest[j].ticker != ticker;
        assert financialData[i + 1] == FindAsset(financialData, ticker).value;
        assert forall j :: 0 <= j < i + 1 ==> financialData[j].ticker != ticker by {
          forall j | 0 <= j < i + 1
            ensures financialData[j].ticker != ticker
          {
            if j > 0 {
              assert financialData[j] == rest[j - 1];
            }
          }
        }
      } else {
        forall i | 0 <= i < |financialData|
          ensures financialData[i].ticker != ticker
        {
          if i > 0 {
            assert financialData[i] == rest[i - 1];
          }
        }
      }
    }
  }

  /** The first `k` assets of the allocation have a row in the table. */
  predicate ListedUpTo(allocation: Dict<real>, financialData: seq<AssetRow>, k: nat)
    requires k <= |allocation|
  {
    forall i :: 0 <= i < k ==> FindAsset(financialData, allocation[i].0).Some?
  }

  /** Every asset of the allocation has a row in the table. */
  predicate AllListed(allocation: Dict<real>, financialData: seq<AssetRow>) {
    ListedUpTo(allocation, financialData, |allocation|)
  }

  /** The allocation-weighted return and volatility. */
  datatype Profile = Profile(weightedReturn: real, weightedVolatility: real)

  /** The fraction a percentage stands for: `allocation_percent / 100`. */
  function Fraction(percent: real): real {
    percent / 100.0
  }

  /** Adds one asset, held at `percent` percent, to the running weighted figures. */
  function AddWeighted(p: Profile, percent: real, row: AssetRow): Profile {
    Profile(p.weightedReturn + Fraction(percent) * row.annualizedReturn,
            p.weightedVolatility + Fraction(percent) * row.annualizedVolatility)
  }

  /** The weighted profile of the first `k` entries of the allocation, in
      iteration order; an asset without a row is an IndexError. */
  function WeightedPrefix(allocation: Dict<real>, financialData: seq<AssetRow>, k: nat): Result<Profile>
    requires k <= |allocation|
  {
    if k == 0 then Ok(Profile(0.0, 0.0))
    else
      var sofar := WeightedPrefix(allocation, financialData, k - 1);
      var row := FindAsset(financialData, allocation[k - 1].0);
      if sofar.Err? then sofar
      else if row.None? then Err(IndexError)
      else Ok(AddWeighted(sofar.value, allocation[k - 1].1, row.value))
  }

  /** The weighted profile of the whole allocation. */
  function WeightedProfileOf(allocation: Dict<real>, financialData: seq<AssetRow>): Result<Profile> {
    WeightedPrefix(allocation, financialData, |allocation|)
  }

  /** The weighting succeeds exactly when every asset seen so far has a row,
      and fails with an IndexError otherwise. */
  lemma {:induction false} WeightedPrefixOkIff(allocation: Dict<real>, financialData: seq<AssetRow>, k: nat)
    requires k <= |allocation|
    ensures WeightedPrefix(allocation, financialData, k).Ok? <==> ListedUpTo(allocation, financialData, k)
    ensures WeightedPrefix(allocation, financialData, k).Err? ==> WeightedPrefix(allocation, financialData, k).error == IndexError
  {
    if k > 0 {
      WeightedPrefixOkIff(allocation, financialData, k - 1);
    }
  }

  /** `check_goal_feasibility`'s weighting succeeds exactly when every asset is listed. */
  lemma WeightedProfileOkIff(allocation: Dict<real>, financialData: seq<AssetRow>)
    ensures WeightedProfileOf(allocation, financialData).Ok? <==> AllListed(allocation, financialData)
    ensures !AllListed(allocation, financialData) ==> WeightedProfileOf(allocation, financialData) == Err(IndexError)
  {
    WeightedPrefixOkIff(allocation, financialData, |allocation|);
  }

  /** `sum(ws[i] / 100 * xs[i] for i in range(k))`, added in index order. */
  function WeightedSum(ws: seq<real>, xs: seq<real>, k: nat): real
    requires k <= |ws| && k <= |xs|
  {
    if k == 0 then 0.0 else WeightedSum(ws, xs, k - 1) + Fraction(ws[k - 1]) * xs[k - 1]
  }

  /** `sum(ws[:k])`. */
  function Total(ws: seq<real>, k: nat): real
    requires k <= |ws|
  {
    if k == 0 then 0.0 else Total(ws, k - 1) + ws[k - 1]
  }

  /** With non-negative weights and values in `[lo, hi]`, the weighted sum lies
      between `total/100` times `lo` and `total/100` times `hi`. */
  lemma {:induction false} WeightedSumBounds(ws: seq<real>, xs: seq<real>, lo: real, hi: real, k: nat, total: real, sum: real)
    requires k <= |ws| && k <= |xs|
    requires forall i :: 0 <= i < k ==> ws[i] >= 0.0
    requires forall i :: 0 <= i < k ==> lo <= xs[i] <= hi
    requires total == Total(ws, k) && sum == WeightedSum(ws, xs, k)
    ensures total / 100.0 * lo <= sum <= total / 100.0 * hi
  {
    if k > 0 {
      WeightedSumBounds(ws, xs, lo, hi, k - 1, Total(ws, k - 1), WeightedSum(ws, xs, k - 1));
      BoundsStep(Total(ws, k - 1), ws[k - 1], WeightedSum(ws, xs, k - 1), xs[k - 1], lo, hi, total, sum);
    }
  }

  /** One step of the weighted sum keeps it between the scaled bounds. */
  lemma BoundsStep(total: real, weight: real, before: real, x: real, lo: real, hi: real, total': real, after: real)
    requires total / 100.0 * lo <= before <= total / 100.0 * hi
    requires weight >= 0.0 && lo <= x <= hi
    requires total' == total + weight && after == before + Fraction(weight) * x
    ensures total' / 100.0 * lo <= after <= total' / 100.0 * hi
  {
    ScaleBetween(weight / 100.0, lo, x, hi);
    assert (total + weight) / 100.0 * lo == total / 100.0 * lo + weight / 100.0 * lo;
    assert (total + weight) / 100.0 * hi == total / 100.0 * hi + weight / 100.0 * hi;
  }

  lemma ScaleBetween(w: real, lo: real, x: real, hi: real)
    requires w >= 0.0 && lo <= x <= hi
    ensures w * lo <= w * x <= w * hi
  {
    assert w * x - w * lo == w * (x - lo);
    assert w * hi - w * x == w * (hi - x);
  }

  /** The allocation percentages in iteration order. */
  function Weights(allocation: Dict<real>): (ws: seq<real>)
    ensures |ws| == |allocation|
  {
    seq(|allocation|, i requires 0 <= i < |allocation| => allocation[i].1)
  }

  /** The return of each allocated asset as the table lists it (0 for an unlisted asset). */
  function Returns(allocation: Dict<real>, financialData: seq<AssetRow>): (xs: seq<real>)
    ensures |xs| == |allocation|
  {
    seq(|allocation|, i requires 0 <= i < |allocation| =>
      var row := FindAsset(financialData, allocation[i].0);
      if row.Some? then row.value.annualizedReturn else 0.0)
  }

  /** The weighted return the loop accumulates is the percentage-weighted sum of the asset returns. */
  lemma {:induction false} WeightedPrefixReturn(allocation: Dict<real>, financialData: seq<AssetRow>, k: nat)
    requires k <= |allocation|
    requires ListedUpTo(allocation, financialData, k)
    ensures WeightedPrefix(allocation, financialData, k).Ok?
    ensures WeightedPrefix(allocation, financialData, k).value.weightedReturn
         == WeightedSum(Weights(allocation), Returns(allocation, financialData), k)
  {
    if k > 0 {
      WeightedPrefixReturn(allocation, financialData, k - 1);
      var row := FindAsset(financialData, allocation[k - 1].0);
      assert row.Some?;
      assert Weights(allocation)[k - 1] == allocation[k - 1].1;
      assert Returns(allocation, financialData)[k - 1] == row.value.annualizedReturn;
    }
  }

  /** The volatility of each allocated asset as the table lists it (0 for an unlisted asset). */
  function Volatilities(allocation: Dict<real>, financialData: seq<AssetRow>): (xs: seq<real>)
    ensures |xs| == |allocation|
  {
    seq(|allocation|, i requires 0 <= i < |allocation| =>
      var row := FindAsset(financialData, allocation[i].0);
      if row.Some? then row.value.annualizedVolatility else 0.0)
  }

  /** The weighted volatility the loop accumulates is the percentage-weighted sum of the asset volatilities. */
  lemma {:induction false} WeightedPrefixVolatility(allocation: Dict<real>, financialData: seq<AssetRow>, k: nat)
    requires k <= |allocation|
    requires ListedUpTo(allocation, financialData, k)
    ensures WeightedPrefix(allocation, financialData, k).Ok?
    ensures WeightedPrefix(allocation, financialData, k).value.weightedVolatility
         == WeightedSum(Weights(allocation), Volatilities(allocation, financialData), k)
  {
    if k > 0 {
      WeightedPrefixVolatility(allocation, financialData, k - 1);
      var row := FindAsset(financialData, allocation[k - 1].0);
      assert row.Some?;
      assert Weights(allocation)[k - 1] == allocation[k - 1].1;
      assert Volatilities(allocation, financialData)[k - 1] == row.value.annualizedVolatility;
    }
  }

  /** The percentages of the first `k` entries add up to the sum of that prefix's values. */
  lemma {:induction false} TotalIsSumValues(allocation: Dict<real>, k: nat)
    requires k <= |allocation|
    ensures Total(Weights(allocation), k) == SumValues(allocation[..k])
  {
    if k > 0 {
      TotalIsSumValues(allocation, k - 1);
      SumValuesPrefixStep(allocation, k);
    } else {
      assert allocation[..0] == [];
    }
  }

  /** The percentages of the whole allocation add up to the sum of its values. */
  lemma TotalIsSumOfAll(allocation: Dict<real>)
    ensures Total(Weights(allocation), |allocation|) == SumValues(allocation)
  {
    TotalIsSumValues(allocation, |allocation|);
    assert allocation[..|allocation|] == allocation;
  }

  /** The return of every listed asset lies in `[lo, hi]`. */
  predicate ReturnsWithin(allocation: Dict<real>, financialData: seq<AssetRow>, lo: real, hi: real) {
    forall i :: 0 <= i < |allocation| ==>
      var row := FindAsset(financialData, allocation[i].0);
      row.Some? ==> lo <= row.value.annualizedReturn <= hi
  }

  predicate NonNegativeWeights(allocation: Dict<real>) {
    forall i :: 0 <= i < |allocation| ==> allocation[i].1 >= 0.0
  }

  /** The hypotheses on the allocation, restated on its weights and returns. */
  lemma ReturnsBetween(allocation: Dict<real>, financialData: seq<AssetRow>, lo: real, hi: real)
    requires AllListed(allocation, financialData)
    requires ReturnsWithin(allocation, financialData, lo, hi)
    ensures forall i :: 0 <= i < |allocation| ==> lo <= Returns(allocation, financialData)[i] <= hi
  {
  }

  /** With non-negative weights, the weighted return lies between `total/100` times
      the lowest and the highest asset return, where `total` is the sum of the percentages. */
  lemma WeightedReturnBounds(allocation: Dict<real>, financialData: seq<AssetRow>, lo: real, hi: real)
    requires AllListed(allocation, financialData)
    requires NonNegativeWeights(allocation)
    requires ReturnsWithin(allocation, financialData, lo, hi)
    ensures WeightedProfileOf(allocation, financialData).Ok?
    ensures SumValues(allocation) / 100.0 * lo <= WeightedProfileOf(allocation, financialData).value.weightedReturn
    ensures WeightedProfileOf(allocation, financialData).value.weightedReturn <= SumValues(allocation) / 100.0 * hi
  {
    var n := |allocation|;
    var ws, xs := Weights(allocation), Returns(allocation, financialData);
    ReturnsBetween(allocation, financialData, lo, hi);
    WeightedPrefixReturn(allocation, financialData, n);
    TotalIsSumOfAll(allocation);
    WeightedSumBounds(ws, xs, lo, hi, n, SumValues(allocation), WeightedProfileOf(allocation, financialData).value.weightedReturn);
  }

  /** A fully invested allocation (weights non-negative, summing to 100)
      gets a weighted return between the lowest and the highest asset return. */
  lemma WeightedReturnIsAverage(allocation: Dict<real>, financialData: seq<AssetRow>, lo: real, hi: real)
    requires AllListed(allocation, financialData)
    requires NonNegativeWeights(allocation)
    requires SumValues(allocation) == 100.0
    requires ReturnsWithin(allocation, financialData, lo, hi)
    ensures WeightedProfileOf(allocation, financialData).Ok?
    ensures lo <= WeightedProfileOf(allocation, financialData).value.weightedReturn <= hi
  {
    WeightedReturnBounds(allocation, financialData, lo, hi);
  }

  /** Every row of the table has a non-negative volatility. */
  predicate NonNegativeVolatilities(financialData: seq<AssetRow>) {
    forall i :: 0 <= i < |financialData| ==> financialData[i].annualizedVolatility >= 0.0
  }

  /** Non-negative weights on non-negative values give a non-negative weighted sum. */
  lemma {:induction false} WeightedSumNonNegative(ws: seq<real>, xs: seq<real>, k: nat)
    requires k <= |ws| && k <= |xs|
    requires forall i :: 0 <= i < k ==> ws[i] >= 0.0 && xs[i] >= 0.0
    ensures WeightedSum(ws, xs, k) >= 0.0
  {
    if k > 0 {
      WeightedSumNonNegative(ws, xs, k - 1);
      ScaleBetween(Fraction(ws[k - 1]), 0.0, xs[k - 1], xs[k - 1]);
    }
  }

  /** With non-negative percentages and a table of non-negative volatilities,
      the weighted volatility handed to numpy is never negative. */
  lemma NonNegativeVolatility(allocation: Dict<real>, financialData: seq<AssetRow>)
    requires AllListed(allocation, financialData)
    requires NonNegativeWeights(allocation)
    requires NonNegativeVolatilities(financialData)
    ensures WeightedProfileOf(allocation, financialData).Ok?
    ensures WeightedProfileOf(allocation, financialData).value.weightedVolatility >= 0.0
  {
    var n := |allocation|;
    var ws, xs := Weights(allocation), Volatilities(allocation, financialData);
    WeightedPrefixVolatility(allocation, financialData, n);
    forall i | 0 <= i < n
      ensures ws[i] >= 0.0 && xs[i] >= 0.0
    {
      var row := FindAsset(financialData, allocation[i].0);
      if row.Some? {
        var j :| 0 <= j < |financialData| && financialData[j] == row.value;
      }
    }
    WeightedSumNonNegative(ws, xs, n);
  }

  /** The weighting loop of `check_goal_feasibility`. */
  method WeightedProfile(allocation: Dict<real>, financialData: seq<AssetRow>) returns (r: Result<Profile>)
    ensures r == WeightedProfileOf(allocation, financialData)
  {
    var weightedReturn := 0.0;
    var weightedVolatility := 0.0;
    for k := 0 to |allocation|
      invariant WeightedPrefix(allocation, financialData, k) == Ok(Profile(weightedReturn, weightedVolatility))
    {
      var (asset, allocationPercent) := allocation[k];
      var row := FindAsset(financialData, asset);
      if row.None? {
        WeightedProfileOkIff(allocation, financialData);
        return Err(IndexError);
      }
      var found := row.value;
      ghost var next := AddWeighted(Profile(weightedReturn, weightedVolatility), allocationPercent, found);
      assert allocationPercent == allocation[k].1 && asset == allocation[k].0;
      assert WeightedPrefix(allocation, financialData, k + 1) == Ok(next);
      var weight := Fraction(allocationPercent);
      assert next.weightedReturn == weightedReturn + weight * found.annualizedReturn;
      assert next.weightedVolatility == weightedVolatility + weight * found.annualizedVolatility;
      weightedReturn := weightedReturn + weight * found.annualizedReturn;
      weightedVolatility := weightedVolatility + weight * found.annualizedVolatility;
    }
    r := Ok(Profile(weightedReturn, weightedVolatility));
  }

  /** `np.random.normal(annual_return, annual_volatility, years)` for the given standard-normal samples. */
  function YearlyGrowth(annualReturn: real, annualVolatility: real, normals: seq<real>): (g: seq<real>)
    ensures |g| == |normals|
  {
    seq(|normals|, y requires 0 <= y < |normals| => annualReturn + annualVolatility * normals[y])
  }

  /** The end value of one run: the start value grown by `(1 + g)` each year, with no clamping. */
  function Compound(start: real, growth: seq<real>): (c: real)
    ensures start == 0.0 ==> c == 0.0
  {
    if |growth| == 0 then start else Compound(start, growth[..|growth| - 1]) * (1.0 + growth[|growth| - 1])
  }

  /** The end value is proportional to the start value. */
  lemma {:induction false} CompoundScales(start: real, growth: seq<real>)
    ensures Compound(start, growth) == start * Compound(1.0, growth)
  {
    if |growth| > 0 {
      var n := |growth| - 1;
      var prefix, factor := growth[..n], 1.0 + growth[n];
      CompoundScales(start, prefix);
      var unit := Compound(1.0, prefix);
      assert Compound(start, growth) == (start * unit) * factor;
      assert Compound(1.0, growth) == unit * factor;
      assert (start * unit) * factor == start * (unit * factor);
    }
  }

  /** A run ends at exactly zero iff the start is zero or some year grows by exactly -100%. */
  lemma {:induction false} CompoundZeroIff(start: real, growth: seq<real>)
    ensures Compound(start, growth) == 0.0 <==> start == 0.0 || exists y :: 0 <= y < |growth| && growth[y] == -1.0
  {
    if |growth| > 0 {
      var n := |growth| - 1;
      var prefix := growth[..n];
      CompoundZeroIff(start, prefix);
      var before := Compound(start, prefix);
      assert Compound(start, growth) == before * (1.0 + growth[n]);
      ZeroProduct(before, 1.0 + growth[n]);
      if y :| 0 <= y < n && prefix[y] == -1.0 {
        assert growth[y] == -1.0;
      }
      if y :| 0 <= y < |growth| && growth[y] == -1.0 {
        if y < n {
          assert prefix[y] == -1.0;
        }
      }
    }
  }

  lemma ZeroProduct(a: real, b: real)
    ensures a * b == 0.0 <==> a == 0.0 || b == 0.0
  {
  }

  /** A positive start stays positive while every year grows by more than -100%. */
  lemma {:induction false} CompoundPositive(start: real, growth: seq<real>)
    requires start > 0.0
    requires forall y :: 0 <= y < |growth| ==> growth[y] > -1.0
    ensures Compound(start, growth) > 0.0
  {
    if |growth| > 0 {
      var n := |growth| - 1;
      var prefix := growth[..n];
      assert forall y :: 0 <= y < n ==> prefix[y] == growth[y];
      CompoundPositive(start, prefix);
      var before := Compound(start, prefix);
      assert Compound(start, growth) == before * (1.0 + growth[n]);
      PositiveProduct(before, 1.0 + growth[n]);
    }
  }

  lemma PositiveProduct(a: real, b: real)
    requires a > 0.0 && b > 0.0
    ensures a * b > 0.0
  {
  }

  /** A year below -100% turns a positive value negative: results are not clamped. */
  lemma CompoundCanGoNegative(start: real, growth: real)
    requires start > 0.0 && growth < -1.0
    ensures Compound(start, [growth]) < 0.0
  {
    var run := [growth];
    var factor := 1.0 + growth;
    assert run[..0] == [];
    assert Compound(start, run[..0]) == start;
    assert Compound(start, run) == start * factor;
    PositiveProduct(start, -factor);
    assert start * -factor == -(start * factor);
  }

  /** The draws have the shape numpy produces: `runs` rows of `years` samples. */
  predicate DrawShape(normals: seq<seq<real>>, runs: nat, years: nat) {
    |normals| == runs && forall k :: 0 <= k < runs ==> |normals[k]| == years
  }

  /** `monte_carlo_simulation` as a function of the draws: one end value per run. */
  function Simulation(initialInvestment: real, annualReturn: real, annualVolatility: real,
                      years: nat, numSimulations: nat, normals: seq<seq<real>>): (r: Result<seq<real>>)
    requires DrawShape(normals, numSimulations, years)
    ensures r.Err? <==> numSimulations > 0 && annualVolatility < 0.0
    ensures r.Err? ==> r.error == ValueError
    ensures r.Ok? ==> |r.value| == numSimulations
    ensures r.Ok? ==> forall k :: 0 <= k < numSimulations ==>
      r.value[k] == Compound(initialInvestment, YearlyGrowth(annualReturn, annualVolatility, normals[k]))
  {
    if numSimulations > 0 && annualVolatility < 0.0 then Err(ValueError)
    else Ok(seq(numSimulations, k requires 0 <= k < numSimulations =>
                  Compound(initialInvestment, YearlyGrowth(annualReturn, annualVolatility, normals[k]))))
  }

  /** The nested loops of `monte_carlo_simulation`. */
  method MonteCarloSimulation(initialInvestment: real, annualReturn: real, annualVolatility: real,
                              years: nat, numSimulations: nat, normals: seq<seq<real>>)
    returns (r: Result<seq<real>>)
    requires DrawShape(normals, numSimulations, years)
    ensures r == Simulation(initialInvestment, annualReturn, annualVolatility, years, numSimulations, normals)
  {
    var projections: seq<real> := [];
    for k := 0 to numSimulations
      invariant |projections| == k
      invariant k > 0 ==> annualVolatility >= 0.0
      invariant forall j :: 0 <= j < k ==>
        projections[j] == Compound(initialInvestment, YearlyGrowth(annualReturn, annualVolatility, normals[j]))
    {
      if annualVolatility < 0.0 {
        return Err(ValueError);
      }
      var yearlyGrowth := YearlyGrowth(annualReturn, annualVolatility, normals[k]);
      var endValue := initialInvestment;
      for y := 0 to |yearlyGrowth|
        invariant endValue == Compound(initialInvestment, yearlyGrowth[..y])
      {
        assert yearlyGrowth[..y + 1][..y] == yearlyGrowth[..y];
        endValue := endValue * (1.0 + yearlyGrowth[y]);
      }
      assert yearlyGrowth[..|yearlyGrowth|] == yearlyGrowth;
      projections := projections + [endValue];
    }
    assert projections == Simulation(initialInvestment, annualReturn, annualVolatility, years, numSimulations, normals).value;
    r := Ok(projections);
  }

  /** `check_goal_feasibility` always runs the default number of simulations. */
  const DefaultSimulations: nat := 1000

  const Achievable := "Goal is achievable with current inputs."
  const AdjustInputs := "Consider increasing investment, extending timeline, or adjusting risk tolerance."

  /** The dict `check_goal_feasibility` returns, before rounding. */
  datatype GoalReport = GoalReport(
    initialInvestment: real,
    goalAmount: real,
    timelineYears: nat,
    probabilityOfSuccess: real,
    recommendation: string,
    medianProjection: real,
    projectionRange: (real, real))

  /** The report for a non-empty list of end values. */
  function ReportOf(initialInvestment: real, goalAmount: real, timelineYears: nat, projections: seq<real>): (r: GoalReport)
    requires |projections| > 0
    ensures r.initialInvestment == initialInvestment
    ensures r.goalAmount == goalAmount
    ensures r.timelineYears == timelineYears
    ensures r.probabilityOfSuccess == Stats.SuccessProbability(projections, goalAmount)
    ensures 0.0 <= r.probabilityOfSuccess <= 100.0
    ensures r.recommendation == Achievable <==> r.probabilityOfSuccess >= 75.0
    ensures r.medianProjection == Stats.Median(projections)
    ensures r.projectionRange == (Stats.Percentile(projections, 25.0), Stats.Percentile(projections, 75.0))
    ensures r.projectionRange.0 <= r.medianProjection <= r.projectionRange.1
  {
    var probability := Stats.SuccessProbability(projections, goalAmount);
    Stats.QuartilesBracketMedian(projections);
    GoalReport(initialInvestment, goalAmount, timelineYears, probability,
               if probability >= 75.0 then Achievable else AdjustInputs,
               Stats.Median(projections),
               (Stats.Percentile(projections, 25.0), Stats.Percentile(projections, 75.0)))
  }

  /** `check_goal_feasibility` as a function of its inputs and the draws. */
  function Feasibility(initialInvestment: real, goalAmount: real, timelineYears: nat,
                       assetAllocation: Dict<real>, financialData: seq<AssetRow>, normals: seq<seq<real>>)
    : (r: Result<GoalReport>)
    requires DrawShape(normals, DefaultSimulations, timelineYears)
    ensures r.Ok? <==> WeightedProfileOf(assetAllocation, financialData).Ok?
                       && WeightedProfileOf(assetAllocation, financialData).value.weightedVolatility >= 0.0
    ensures !AllListed(assetAllocation, financialData) ==> r == Err(IndexError)
    ensures r.Err? && AllListed(assetAllocation, financialData) ==> r.error == ValueError
    ensures r.Err? ==> r.error == IndexError || r.error == ValueError
  {
    WeightedProfileOkIff(assetAllocation, financialData);
    match WeightedProfileOf(assetAllocation, financialData)
    case Err(e) => Err(e)
    case Ok(p) =>
      match Simulation(initialInvestment, p.weightedReturn, p.weightedVolatility, timelineYears, DefaultSimulations, normals)
      case Err(e) => Err(e)
      case Ok(projections) => Ok(ReportOf(initialInvestment, goalAmount, timelineYears, projections))
  }

  /** `check_goal_feasibility`: weights the table, simulates, and reports. */
  method CheckGoalFeasibility(initialInvestment: real, goalAmount: real, timelineYears: nat,
                              assetAllocation: Dict<real>, financialData: seq<AssetRow>, normals: seq<seq<real>>)
    returns (r: Result<GoalReport>)
    requires DrawShape(normals, DefaultSimulations, timelineYears)
    ensures r == Feasibility(initialInvestment, goalAmount, timelineYears, assetAllocation, financialData, normals)
  {
    var profile := WeightedProfile(assetAllocation, financialData);
    if profile.Err? {
      return Err(profile.error);
    }
    var projections := MonteCarloSimulation(initialInvestment, profile.value.weightedReturn,
                                            profile.value.weightedVolatility, timelineYears,
                                            DefaultSimulations, normals);
    if projections.Err? {
      return Err(projections.error);
    }
    var successfulRuns := Stats.CountAtLeast(projections.value, goalAmount);
    var probabilityOfSuccess := successfulRuns as real / |projections.value| as real * 100.0;
    assert probabilityOfSuccess == Stats.SuccessProbability(projections.value, goalAmount);
    var recommendation := if probabilityOfSuccess >= 75.0 then Achievable else AdjustInputs;
    r := Ok(GoalReport(initialInvestment, goalAmount, timelineYears, probabilityOfSuccess, recommendation,
                       Stats.Median(projections.value),
                       (Stats.Percentile(projections.value, 25.0), Stats.Percentile(projections.value, 75.0))));
    FeasibilityUnfolds(initialInvestment, goalAmount, timelineYears, assetAllocation, financialData, normals,
                       profile.value, projections.value);
  }

  lemma FeasibilityUnfolds(initialInvestment: real, goalAmount: real, timelineYears: nat,
                           assetAllocation: Dict<real>, financialData: seq<AssetRow>, normals: seq<seq<real>>,
                           profile: Profile, projections: seq<real>)
    requires DrawShape(normals, DefaultSimulations, timelineYears)
    requires WeightedProfileOf(assetAllocation, financialData) == Ok(profile)
    requires Simulation(initialInvestment, profile.weightedReturn, profile.weightedVolatility, timelineYears,
                        DefaultSimulations, normals) == Ok(projections)
    ensures Feasibility(initialInvestment, goalAmount, timelineYears, assetAllocation, financialData, normals)
         == Ok(ReportOf(initialInvestment, goalAmount, timelineYears, projections))
  {
  }

  /** For the same inputs and draws, a higher goal never raises the probability of success. */
  lemma FeasibilityProbabilityAntitone(initialInvestment: real, lower: real, higher: real, timelineYears: nat,
                                       assetAllocation: Dict<real>, financialData: seq<AssetRow>, normals: seq<seq<real>>)
    requires DrawShape(normals, DefaultSimulations, timelineYears)
    requires lower <= higher
    requires Feasibility(initialInvestment, lower, timelineYears, assetAllocation, financialData, normals).Ok?
    ensures Feasibility(initialInvestment, higher, timelineYears, assetAllocation, financialData, normals).Ok?
    ensures Feasibility(initialInvestment, higher, timelineYears, assetAllocation, financialData, normals).value.probabilityOfSuccess
         <= Feasibility(initialInvestment, lower, timelineYears, assetAllocation, financialData, normals).value.probabilityOfSuccess
  {
    var p := WeightedProfileOf(assetAllocation, financialData).value;
    var projections := Simulation(initialInvestment, p.weightedReturn, p.weightedVolatility, timelineYears,
                                  DefaultSimulations, normals).value;
    Stats.ProbabilityAntitone(projections, lower, higher);
  }

  /** For a fully non-negative allocation and table, the only way
      `check_goal_feasibility` fails is an unlisted asset. */
  lemma FeasibleExactlyWhenListed(initialInvestment: real, goalAmount: real, timelineYears: nat,
                                  assetAllocation: Dict<real>, financialData: seq<AssetRow>, normals: seq<seq<real>>)
    requires DrawShape(normals, DefaultSimulations, timelineYears)
    requires NonNegativeWeights(assetAllocation)
    requires NonNegativeVolatilities(financialData)
    ensures Feasibility(initialInvestment, goalAmount, timelineYears, assetAllocation, financialData, normals).Ok?
            <==> AllListed(assetAllocation, financialData)
  {
    if AllListed(assetAllocation, financialData) {
      NonNegativeVolatility(assetAllocation, financialData);
    }
  }
}

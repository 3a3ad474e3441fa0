/** Feasibility of several goals at once (goal_checker_multi.py).

    Every goal starts from the same capital and from a fresh copy of the
    allocation, tilted by the goal's priority; its end values are taxed,
    charged fees and discounted for inflation over the goal's own horizon.
    `draws[g]` holds the standard-normal samples of goal `g`'s simulation. */
module GoalCheckerMulti {
  import opened Outcomes
  import opened Dicts
  import Stats
  import GoalChecker
  import TaxAdjustment

  /** One entry of the `goals` dict. */
  datatype Goal = Goal(goalAmount: real, timelineYears: nat, priority: string)

  const Stocks := "stocks"
  const Bonds := "bonds"
  const Crypto := "crypto"
  const High := "high"
  const Low := "low"

  /** The priority tilt moves this much between two keys, in the allocation's own units. */
  const TiltStep := 0.1

  const GoalAchievable := "Goal is achievable"
  const IncreaseInvestment := "Increase investment or extend timeline."

  /** `d[k] += delta`: a KeyError when `k` is missing, otherwise only the value under `k` moves. */
  function AddTo(d: Dict<real>, k: string, delta: real): (r: Result<Dict<real>>)
    ensures r.Ok? <==> HasKey(d, k)
    ensures r.Err? ==> r.error == KeyError(k)
    ensures r.Ok? ==> Keys(r.value) == Keys(d)
    ensures r.Ok? ==> Lookup(r.value, k) == Ok(Lookup(d, k).value + delta)
    ensures r.Ok? ==> forall j :: 0 <= j < |d| && d[j].0 != k ==> r.value[j] == d[j]
    ensures r.Ok? ==> SumValues(r.value) == SumValues(d) + delta
  {
    match Lookup(d, k)
    case Err(e) => Err(e)
    case Ok(v) =>
      SumValuesOfSet(d, k, v + delta);
      Ok(Set(d, k, v + delta))
  }

  /** Lines 26-32: "high" moves 0.1 from crypto to bonds, "low" moves 0.1
      from bonds to stocks, any other priority keeps the allocation. */
  function Tilt(allocation: Dict<real>, priority: string): (r: Result<Dict<real>>)
    ensures r.Ok? ==> Keys(r.value) == Keys(allocation)
    ensures r.Ok? ==> SumValues(r.value) == SumValues(allocation)
    ensures priority != High && priority != Low ==> r == Ok(allocation)
  {
    if priority == High then
      match AddTo(allocation, Bonds, TiltStep)
      case Err(e) => Err(e)
      case Ok(a) => AddTo(a, Crypto, -TiltStep)
    else if priority == Low then
      match AddTo(allocation, Stocks, TiltStep)
      case Err(e) => Err(e)
      case Ok(a) => AddTo(a, Bonds, -TiltStep)
    else Ok(allocation)
  }

  /** The tilt fails exactly when a key it moves is missing, naming the first
      missing key in the order the source touches them. */
  lemma TiltOkIff(allocation: Dict<real>, priority: string)
    ensures Tilt(allocation, priority).Ok? <==>
      (priority == High ==> HasKey(allocation, Bonds) && HasKey(allocation, Crypto))
      && (priority == Low ==> HasKey(allocation, Stocks) && HasKey(allocation, Bonds))
    ensures priority == High && !HasKey(allocation, Bonds) ==> Tilt(allocation, priority) == Err(KeyError(Bonds))
    ensures priority == High && HasKey(allocation, Bonds) && !HasKey(allocation, Crypto)
      ==> Tilt(allocation, priority) == Err(KeyError(Crypto))
    ensures priority == Low && !HasKey(allocation, Stocks) ==> Tilt(allocation, priority) == Err(KeyError(Stocks))
    ensures priority == Low && HasKey(allocation, Stocks) && !HasKey(allocation, Bonds)
      ==> Tilt(allocation, priority) == Err(KeyError(Bonds))
  {
    if priority == High && HasKey(allocation, Bonds) {
      HasKeyInKeys(allocation, Crypto);
      HasKeyInKeys(AddTo(allocation, Bonds, TiltStep).value, Crypto);
    } else if priority == Low && HasKey(allocation, Stocks) {
      HasKeyInKeys(allocation, Bonds);
      HasKeyInKeys(AddTo(allocation, Stocks, TiltStep).value, Bonds);
    }
  }

  /** Under "high", bonds gain 0.1, crypto loses 0.1 and every other entry stays as it was. */
  lemma HighPriorityTilt(allocation: Dict<real>)
    requires Tilt(allocation, High).Ok?
    ensures var r := Tilt(allocation, High).value;
      && Lookup(r, Bonds) == Ok(Lookup(allocation, Bonds).value + TiltStep)
      && Lookup(r, Crypto) == Ok(Lookup(allocation, Crypto).value - TiltStep)
      && forall j :: 0 <= j < |allocation| && allocation[j].0 != Bonds && allocation[j].0 != Crypto ==> r[j] == allocation[j]
  {
    var first := AddTo(allocation, Bonds, TiltStep);
    var a := first.value;
    var second := AddTo(a, Crypto, -TiltStep);
    assert Tilt(allocation, High) == second;
    var r := second.value;
    LookupOtherKey(allocation, a, Bonds, Crypto);
    LookupOtherKey(a, r, Crypto, Bonds);
  }

  /** Under "low", stocks gain 0.1, bonds lose 0.1 and every other entry stays as it was. */
  lemma LowPriorityTilt(allocation: Dict<real>)
    requires Tilt(allocation, Low).Ok?
    ensures var r := Tilt(allocation, Low).value;
      && Lookup(r, Stocks) == Ok(Lookup(allocation, Stocks).value + TiltStep)
      && Lookup(r, Bonds) == Ok(Lookup(allocation, Bonds).value - TiltStep)
      && forall j :: 0 <= j < |allocation| && allocation[j].0 != Stocks && allocation[j].0 != Bonds ==> r[j] == allocation[j]
  {
    var first := AddTo(allocation, Stocks, TiltStep);
    var a := first.value;
    var second := AddTo(a, Bonds, -TiltStep);
    assert Tilt(allocation, Low) == second;
    var r := second.value;
    LookupOtherKey(allocation, a, Stocks, Bonds);
    LookupOtherKey(a, r, Bonds, Stocks);
  }

  /** Two dicts with the same keys find every key at the same position. */
  lemma IndexOfSameKeys(d: Dict<real>, e: Dict<real>, k: string)
    requires Keys(e) == Keys(d)
    ensures IndexOf(e, k) == IndexOf(d, k)
  {
    var i, i' := IndexOf(d, k), IndexOf(e, k);
    assert |e| == |d|;
    assert forall j :: 0 <= j < |d| ==> e[j].0 == Keys(e)[j] == Keys(d)[j] == d[j].0;
  }

  /** Two dicts with the same keys that agree outside key `m` agree on the lookup of any other key. */
  lemma LookupOtherKey(d: Dict<real>, e: Dict<real>, m: string, k: string)
    requires Keys(e) == Keys(d)
    requires forall j :: 0 <= j < |d| && d[j].0 != m ==> e[j] == d[j]
    requires k != m
    ensures Lookup(e, k) == Lookup(d, k)
  {
    IndexOfSameKeys(d, e, k);
  }

  /** One entry of the results dict of lines 53-62, before rounding. */
  datatype GoalResult = GoalResult(
    goalAmount: real,
    timelineYears: nat,
    priority: string,
    successProbability: real,
    medianProjection: real,
    projectionRange: (real, real),
    recommendation: string)

  /** Lines 50-62 for a goal whose net end values are `net`. */
  function ResultOf(goal: Goal, net: seq<real>): (r: GoalResult)
    requires |net| > 0
    ensures r.goalAmount == goal.goalAmount
    ensures r.timelineYears == goal.timelineYears
    ensures r.priority == goal.priority
    ensures r.successProbability == Stats.SuccessProbability(net, goal.goalAmount)
    ensures 0.0 <= r.successProbability <= 100.0
    ensures r.recommendation == GoalAchievable <==> r.successProbability >= 75.0
    ensures r.recommendation == IncreaseInvestment <==> r.successProbability < 75.0
    ensures r.medianProjection == Stats.Median(net)
    ensures r.projectionRange == (Stats.Percentile(net, 25.0), Stats.Percentile(net, 75.0))
    ensures r.projectionRange.0 <= r.medianProjection <= r.projectionRange.1
  {
    var probability := Stats.SuccessProbability(net, goal.goalAmount);
    Stats.QuartilesBracketMedian(net);
    GoalResult(goal.goalAmount, goal.timelineYears, goal.priority, probability,
               Stats.Median(net),
               (Stats.Percentile(net, 25.0), Stats.Percentile(net, 75.0)),
               if probability >= 75.0 then GoalAchievable else IncreaseInvestment)
  }

  /** Every asset of `allocation` is listed and the weighted volatility is
      not negative, so the simulation of lines 6-14 raises nothing. */
  predicate Simulable(allocation: Dict<real>, financialData: seq<GoalChecker.AssetRow>) {
    GoalChecker.WeightedProfileOf(allocation, financialData).Ok?
    && GoalChecker.WeightedProfileOf(allocation, financialData).value.weightedVolatility >= 0.0
  }

  /** Lines 34-47 for a tilted allocation: weight it, simulate from
      `initialInvestment` over `years`, then charge fees and tax and discount
      inflation over the same `years`. */
  function NetProjections(initialInvestment: real, years: nat, allocation: Dict<real>,
                          financialData: seq<GoalChecker.AssetRow>, taxRates: Dict<real>, fees: Dict<real>,
                          inflationRate: real, normals: seq<seq<real>>): (r: Result<seq<real>>)
    requires GoalChecker.DrawShape(normals, GoalChecker.DefaultSimulations, years)
    ensures !GoalChecker.AllListed(allocation, financialData) ==> r == Err(IndexError)
    ensures GoalChecker.WeightedProfileOf(allocation, financialData).Ok?
            && GoalChecker.WeightedProfileOf(allocation, financialData).value.weightedVolatility < 0.0
            ==> r == Err(ValueError)
    ensures Simulable(allocation, financialData) && TaxAdjustment.TaxRateFor(taxRates, years).Err?
            ==> r == Err(TaxAdjustment.TaxRateFor(taxRates, years).error)
    ensures Simulable(allocation, financialData) && TaxAdjustment.TaxRateFor(taxRates, years).Ok?
            && inflationRate == -1.0 && years > 0
            ==> r == Err(ZeroDivisionError)
    ensures r.Ok? <==> Simulable(allocation, financialData) && TaxAdjustment.TaxRateFor(taxRates, years).Ok?
                       && !(inflationRate == -1.0 && years > 0)
    ensures r.Ok? ==> |r.value| == GoalChecker.DefaultSimulations
  {
    GoalChecker.WeightedProfileOkIff(allocation, financialData);
    match GoalChecker.WeightedProfileOf(allocation, financialData)
    case Err(e) => Err(e)
    case Ok(p) =>
      match GoalChecker.Simulation(initialInvestment, p.weightedReturn, p.weightedVolatility,
                                   years, GoalChecker.DefaultSimulations, normals)
      case Err(e) => Err(e)
      case Ok(projections) => TaxAdjustment.NetValues(projections, taxRates, fees, inflationRate, years)
  }

  /** The body of the loop of lines 19-62 for one goal: tilt a copy of the
      caller's allocation, then project it over the goal's own horizon. */
  function GoalOutcome(initialInvestment: real, goal: Goal, assetAllocation: Dict<real>,
                       financialData: seq<GoalChecker.AssetRow>, taxRates: Dict<real>, fees: Dict<real>,
                       inflationRate: real, normals: seq<seq<real>>): (r: Result<GoalResult>)
    requires GoalChecker.DrawShape(normals, GoalChecker.DefaultSimulations, goal.timelineYears)
    ensures Tilt(assetAllocation, goal.priority).Err? ==> r == Err(Tilt(assetAllocation, goal.priority).error)
    ensures Tilt(assetAllocation, goal.priority).Ok?
            && !GoalChecker.AllListed(Tilt(assetAllocation, goal.priority).value, financialData)
            ==> r == Err(IndexError)
    ensures Tilt(assetAllocation, goal.priority).Ok? ==>
      var allocation := Tilt(assetAllocation, goal.priority).value;
      var net := NetProjections(initialInvestment, goal.timelineYears, allocation, financialData, taxRates, fees,
                                inflationRate, normals);
      && (net.Err? ==> r == Err(net.error))
      && (net.Ok? ==> r.Ok? && r.value.successProbability == Stats.SuccessProbability(net.value, goal.goalAmount)
                      && r.value.medianProjection == Stats.Median(net.value)
                      && r.value.projectionRange == (Stats.Percentile(net.value, 25.0), Stats.Percentile(net.value, 75.0)))
    ensures r.Ok? ==> r.value.goalAmount == goal.goalAmount && r.value.timelineYears == goal.timelineYears
                      && r.value.priority == goal.priority
    ensures r.Ok? ==> 0.0 <= r.value.successProbability <= 100.0
    ensures r.Ok? ==> (r.value.recommendation == GoalAchievable <==> r.value.successProbability >= 75.0)
  {
    match Tilt(assetAllocation, goal.priority)
    case Err(e) => Err(e)
    case Ok(allocation) =>
      match NetProjections(initialInvestment, goal.timelineYears, allocation, financialData, taxRates, fees,
                           inflationRate, normals)
      case Err(e) => Err(e)
      case Ok(net) => Ok(ResultOf(goal, net))
  }

  /** The multi-goal figures for a goal are those `calculate_net_projections`
      gives for the same simulated run when the holding period is the goal's
      own horizon. */
  lemma GoalOutcomeAgreesWithNetProjections(initialInvestment: real, goal: Goal, assetAllocation: Dict<real>,
                                            financialData: seq<GoalChecker.AssetRow>, taxRates: Dict<real>,
                                            fees: Dict<real>, inflationRate: real, normals: seq<seq<real>>)
    requires GoalChecker.DrawShape(normals, GoalChecker.DefaultSimulations, goal.timelineYears)
    requires GoalOutcome(initialInvestment, goal, assetAllocation, financialData, taxRates, fees, inflationRate, normals).Ok?
    ensures var allocation := Tilt(assetAllocation, goal.priority).value;
      var p := GoalChecker.WeightedProfileOf(allocation, financialData).value;
      var projections := GoalChecker.Simulation(initialInvestment, p.weightedReturn, p.weightedVolatility,
                                                goal.timelineYears, GoalChecker.DefaultSimulations, normals).value;
      var single := TaxAdjustment.CalculateNetProjections(initialInvestment, goal.goalAmount, projections,
                                                          taxRates, fees, inflationRate, goal.timelineYears);
      var multi := GoalOutcome(initialInvestment, goal, assetAllocation, financialData, taxRates, fees, inflationRate, normals).value;
      && single.Ok?
      && single.value.probabilityOfSuccess == multi.successProbability
      && single.value.medianProjection == multi.medianProjection
      && single.value.projectionRange == multi.projectionRange
  {
  }

  /** Every goal has its draws, shaped for its own horizon. */
  predicate DrawsFor(goals: Dict<Goal>, draws: seq<seq<seq<real>>>) {
    |draws| == |goals|
    && forall g :: 0 <= g < |goals| ==> GoalChecker.DrawShape(draws[g], GoalChecker.DefaultSimulations, goals[g].1.timelineYears)
  }

  /** Every goal's outcome, in the goals' order. Goals do not affect one
      another: each starts from the caller's allocation and capital. */
  function GoalOutcomes(initialInvestment: real, goals: Dict<Goal>, assetAllocation: Dict<real>,
                    financialData: seq<GoalChecker.AssetRow>, taxRates: Dict<real>, fees: Dict<real>,
                    inflationRate: real, draws: seq<seq<seq<real>>>): (os: seq<Result<GoalResult>>)
    requires DrawsFor(goals, draws)
    ensures |os| == |goals|
  {
    seq(|goals|, g requires 0 <= g < |goals| =>
      GoalOutcome(initialInvestment, goals[g].1, assetAllocation, financialData, taxRates, fees, inflationRate, draws[g]))
  }

  /** `check_multi_goal_feasibility` as a function of its inputs and the draws:
      it succeeds exactly when every goal does. */
  function MultiGoalFeasibility(initialInvestment: real, goals: Dict<Goal>, assetAllocation: Dict<real>,
                                financialData: seq<GoalChecker.AssetRow>, taxRates: Dict<real>, fees: Dict<real>,
                                inflationRate: real, draws: seq<seq<seq<real>>>): (r: Result<Dict<GoalResult>>)
    requires DrawsFor(goals, draws)
    ensures r.Ok? <==> forall g :: 0 <= g < |goals| ==>
      GoalOutcomes(initialInvestment, goals, assetAllocation, financialData, taxRates, fees, inflationRate, draws)[g].Ok?
  {
    var outcomes := GoalOutcomes(initialInvestment, goals, assetAllocation, financialData, taxRates, fees, inflationRate, draws);
    GatherOkIff(goals, outcomes, |goals|);
    Gather(goals, outcomes, |goals|)
  }

  /** Lines 19 and 53: the results dict has exactly the goal names as keys, in
      the goals' order, and each goal's entry is computed from the untouched
      caller allocation and the same `initialInvestment`. */
  lemma MultiGoalResults(initialInvestment: real, goals: Dict<Goal>, assetAllocation: Dict<real>,
                         financialData: seq<GoalChecker.AssetRow>, taxRates: Dict<real>,
                         fees: Dict<real>, inflationRate: real, draws: seq<seq<seq<real>>>)
    requires DrawsFor(goals, draws)
    requires DistinctKeys(goals)
    requires MultiGoalFeasibility(initialInvestment, goals, assetAllocation, financialData, taxRates, fees, inflationRate, draws).Ok?
    ensures var results := MultiGoalFeasibility(initialInvestment, goals, assetAllocation, financialData, taxRates, fees, inflationRate, draws).value;
      && Keys(results) == Keys(goals)
      && forall g :: 0 <= g < |goals| ==>
           Ok(results[g].1) == GoalOutcome(initialInvestment, goals[g].1, assetAllocation, financialData, taxRates, fees,
                                           inflationRate, draws[g])
  {
    var outcomes := GoalOutcomes(initialInvestment, goals, assetAllocation, financialData, taxRates, fees, inflationRate, draws);
    GatherEntries(goals, outcomes, |goals|);
    var results := Gather(goals, outcomes, |goals|).value;
    GatheredKeys(goals, outcomes, results);
    forall g | 0 <= g < |goals|
      ensures Ok(results[g].1) == GoalOutcome(initialInvestment, goals[g].1, assetAllocation, financialData, taxRates, fees,
                                              inflationRate, draws[g])
    {
      assert Ok(results[g].1) == outcomes[g];
    }
  }

  /** A failing call fails with the error of the first failing goal. */
  lemma FirstFailingGoal(initialInvestment: real, goals: Dict<Goal>, assetAllocation: Dict<real>,
                       financialData: seq<GoalChecker.AssetRow>, taxRates: Dict<real>,
                       fees: Dict<real>, inflationRate: real, draws: seq<seq<seq<real>>>)
    requires DrawsFor(goals, draws)
    ensures var r := MultiGoalFeasibility(initialInvestment, goals, assetAllocation, financialData, taxRates, fees, inflationRate, draws);
      var outcomes := GoalOutcomes(initialInvestment, goals, assetAllocation, financialData, taxRates, fees, inflationRate, draws);
      r.Err? ==> exists g :: 0 <= g < |goals| && outcomes[g] == Err(r.error)
                              && forall h :: 0 <= h < g ==> outcomes[h].Ok?
  {
    var outcomes := GoalOutcomes(initialInvestment, goals, assetAllocation, financialData, taxRates, fees, inflationRate, draws);
    GatherOkIff(goals, outcomes, |goals|);
  }

  /** `allocation[key] += delta` on the copy. The dict is a value here:
      the method returns the updated copy (or the KeyError) rather than
      changing a shared object. */
  method AddToEntry(allocation: Dict<real>, key: string, delta: real) returns (r: Result<Dict<real>>)
    ensures r == AddTo(allocation, key, delta)
  {
    var current := Lookup(allocation, key);
    if current.Err? {
      return Err(current.error);
    }
    r := Ok(Set(allocation, key, current.value + delta));
  }

  /** Lines 26-32 as the source runs them: the copy, a local value, is
      updated key by key, and the first missing key raises. The caller's
      allocation is a value too, so it cannot be changed. */
  method TiltCopy(assetAllocation: Dict<real>, priority: string) returns (r: Result<Dict<real>>)
    ensures r == Tilt(assetAllocation, priority)
  {
    var allocation := assetAllocation;
    if priority == High {
      var raised := AddToEntry(allocation, Bonds, TiltStep);
      if raised.Err? {
        return raised;
      }
      r := AddToEntry(raised.value, Crypto, -TiltStep);
    } else if priority == Low {
      var raised := AddToEntry(allocation, Stocks, TiltStep);
      if raised.Err? {
        return raised;
      }
      r := AddToEntry(raised.value, Bonds, -TiltStep);
    } else {
      r := Ok(allocation);
    }
  }

  /** Lines 34-47 as the source runs them. */
  method ProjectNet(initialInvestment: real, years: nat, allocation: Dict<real>,
                    financialData: seq<GoalChecker.AssetRow>, taxRates: Dict<real>, fees: Dict<real>,
                    inflationRate: real, normals: seq<seq<real>>) returns (r: Result<seq<real>>)
    requires GoalChecker.DrawShape(normals, GoalChecker.DefaultSimulations, years)
    ensures r == NetProjections(initialInvestment, years, allocation, financialData, taxRates, fees, inflationRate, normals)
  {
    var profile := GoalChecker.WeightedProfile(allocation, financialData);
    if profile.Err? {
      return Err(profile.error);
    }
    var projections := GoalChecker.MonteCarloSimulation(initialInvestment, profile.value.weightedReturn,
                                                        profile.value.weightedVolatility, years,
                                                        GoalChecker.DefaultSimulations, normals);
    if projections.Err? {
      return Err(projections.error);
    }
    var adjusted := TaxAdjustment.ApplyTaxesAndFees(projections.value, taxRates, fees, years);
    if adjusted.Err? {
      return Err(adjusted.error);
    }
    r := TaxAdjustment.AdjustForInflation(adjusted.value, inflationRate, years);
  }

  /** The body of the loop of lines 19-62 for one goal. */
  method CheckGoal(initialInvestment: real, goal: Goal, assetAllocation: Dict<real>,
                   financialData: seq<GoalChecker.AssetRow>, taxRates: Dict<real>, fees: Dict<real>,
                   inflationRate: real, normals: seq<seq<real>>) returns (r: Result<GoalResult>)
    requires GoalChecker.DrawShape(normals, GoalChecker.DefaultSimulations, goal.timelineYears)
    ensures r == GoalOutcome(initialInvestment, goal, assetAllocation, financialData, taxRates, fees, inflationRate, normals)
  {
    var allocation := TiltCopy(assetAllocation, goal.priority);
    if allocation.Err? {
      return Err(allocation.error);
    }
    var inflationAdjusted := ProjectNet(initialInvestment, goal.timelineYears, allocation.value, financialData,
                                        taxRates, fees, inflationRate, normals);
    if inflationAdjusted.Err? {
      return Err(inflationAdjusted.error);
    }
    var net := inflationAdjusted.value;
    var successProbability := Stats.CountAtLeast(net, goal.goalAmount) as real / |net| as real * 100.0;
    var recommendation := if successProbability >= 75.0 then GoalAchievable else IncreaseInvestment;
    assert successProbability == Stats.SuccessProbability(net, goal.goalAmount);
    r := Ok(GoalResult(goal.goalAmount, goal.timelineYears, goal.priority, successProbability,
                       Stats.Median(net), (Stats.Percentile(net, 25.0), Stats.Percentile(net, 75.0)),
                       recommendation));
    GoalOutcomeUnfolds(initialInvestment, goal, assetAllocation, financialData, taxRates, fees, inflationRate, normals,
                       allocation.value, net);
  }

  /** `GoalOutcome` once the tilt and the projection are known to succeed. */
  lemma GoalOutcomeUnfolds(initialInvestment: real, goal: Goal, assetAllocation: Dict<real>,
                           financialData: seq<GoalChecker.AssetRow>, taxRates: Dict<real>, fees: Dict<real>,
                           inflationRate: real, normals: seq<seq<real>>, allocation: Dict<real>, net: seq<real>)
    requires GoalChecker.DrawShape(normals, GoalChecker.DefaultSimulations, goal.timelineYears)
    requires Tilt(assetAllocation, goal.priority) == Ok(allocation)
    requires NetProjections(initialInvestment, goal.timelineYears, allocation, financialData, taxRates, fees,
                            inflationRate, normals) == Ok(net)
    ensures |net| > 0
    ensures GoalOutcome(initialInvestment, goal, assetAllocation, financialData, taxRates, fees, inflationRate, normals)
         == Ok(ResultOf(goal, net))
  {
  }

  /** `check_multi_goal_feasibility`: one entry per goal, in the goals' order. */
  method CheckMultiGoalFeasibility(initialInvestment: real, goals: Dict<Goal>, assetAllocation: Dict<real>,
                                   financialData: seq<GoalChecker.AssetRow>, taxRates: Dict<real>, fees: Dict<real>,
                                   inflationRate: real, draws: seq<seq<seq<real>>>)
    returns (r: Result<Dict<GoalResult>>)
    requires DrawsFor(goals, draws)
    ensures r == MultiGoalFeasibility(initialInvestment, goals, assetAllocation, financialData, taxRates, fees, inflationRate, draws)
  {
    ghost var outcomes := GoalOutcomes(initialInvestment, goals, assetAllocation, financialData, taxRates, fees, inflationRate, draws);
    var results: Dict<GoalResult> := [];
    var totalInvestment := initialInvestment;
    for k := 0 to |goals|
      invariant Gather(goals, outcomes, k) == Ok(results)
    {
      var (goalName, goal) := goals[k];
      var outcome := CheckGoal(totalInvestment, goal, assetAllocation, financialData, taxRates, fees, inflationRate, draws[k]);
      assert outcome == outcomes[k];
      GatherStep(goals, outcomes, k + 1);
      if outcome.Err? {
        GatherErrSticks(goals, outcomes, k + 1, |goals|);
        return Err(outcome.error);
      }
      results := Set(results, goalName, outcome.value);
    }
    r := Ok(results);
  }
}

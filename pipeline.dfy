/** The end-to-end run of script.py: profile the investor, allocate, check
    every goal, then summarise the results.

    The summary reads `initial_investment` from each goal's entry, but the
    multi-goal checker never writes that key, so as written the run stops
    with a KeyError. `AsWrittenSummaryFails` shows this; `Pipeline` uses
    `CorrectedRecord`, which adds the key, and its contract states that the
    corrected run summarises every goal. */
module Pipeline {
  import opened Outcomes
  import opened Dicts
  import GoalChecker
  import GoalCheckerMulti
  import RiskProfiler
  import opened RecommendationEngine

  const TimelineYearsKey := "timeline_years"
  const PriorityKey := "priority"
  const RecommendationKey := "recommendation"

  /** One goal's entry as goal_checker_multi.py writes it (lines 53-62).
      The summary finds the three numbers the recommendation compares and the
      projection range there, but not `initial_investment`. */
  function ResultRecord(r: GoalCheckerMulti.GoalResult): (d: Dict<Value>)
    ensures Lookup(d, SuccessProbabilityKey) == Ok(Num(r.successProbability))
    ensures Lookup(d, GoalAmountKey) == Ok(Num(r.goalAmount))
    ensures Lookup(d, MedianProjectionKey) == Ok(Num(r.medianProjection))
    ensures Lookup(d, ProjectionRangeKey) == Ok(Pair(r.projectionRange.0, r.projectionRange.1))
    ensures !HasKey(d, InitialInvestmentKey)
  {
    var d := [ (GoalAmountKey, Num(r.goalAmount)),
               (TimelineYearsKey, Num(r.timelineYears as real)),
               (PriorityKey, Text(r.priority)),
               (SuccessProbabilityKey, Num(r.successProbability)),
               (MedianProjectionKey, Num(r.medianProjection)),
               (ProjectionRangeKey, Pair(r.projectionRange.0, r.projectionRange.1)),
               (RecommendationKey, Text(r.recommendation)) ];
    assert |d[0].0| == 11 && |d[1].0| == 14 && |d[2].0| == 8 && |d[3].0| == 19;
    assert |d[4].0| == 17 && |d[5].0| == 16 && |d[6].0| == 14;
    assert |InitialInvestmentKey| == 18;
    assert IndexOf(d, GoalAmountKey) == 0;
    assert IndexOf(d, SuccessProbabilityKey) == 3;
    assert IndexOf(d, MedianProjectionKey) == 4;
    assert IndexOf(d, ProjectionRangeKey) == 5;
    d
  }

  /** The same entry with the investment the goal was simulated from, as the
      single-goal report carries it: every key the summary reads is there. */
  function CorrectedRecord(initialInvestment: real, r: GoalCheckerMulti.GoalResult): (d: Dict<Value>)
    ensures Lookup(d, InitialInvestmentKey) == Ok(Num(initialInvestment))
    ensures Lookup(d, SuccessProbabilityKey) == Ok(Num(r.successProbability))
    ensures Lookup(d, GoalAmountKey) == Ok(Num(r.goalAmount))
    ensures Lookup(d, MedianProjectionKey) == Ok(Num(r.medianProjection))
    ensures Lookup(d, ProjectionRangeKey) == Ok(Pair(r.projectionRange.0, r.projectionRange.1))
  {
    var rest := ResultRecord(r);
    var d := [(InitialInvestmentKey, Num(initialInvestment))] + rest;
    assert d[1..] == rest;
    assert |InitialInvestmentKey| == 18;
    d
  }

  /** The results dict as the summary sees it, goal by goal. */
  function Records(results: Dict<GoalCheckerMulti.GoalResult>): (d: Dict<Value>)
    ensures Keys(d) == Keys(results)
  {
    var d := seq(|results|, i requires 0 <= i < |results| => (results[i].0, Record(ResultRecord(results[i].1))));
    assert forall i :: 0 <= i < |results| ==> Keys(d)[i] == Keys(results)[i];
    d
  }

  function CorrectedRecords(initialInvestment: real, results: Dict<GoalCheckerMulti.GoalResult>): (d: Dict<Value>)
    ensures Keys(d) == Keys(results)
  {
    var d := seq(|results|, i requires 0 <= i < |results| =>
      (results[i].0, Record(CorrectedRecord(initialInvestment, results[i].1))));
    assert forall i :: 0 <= i < |results| ==> Keys(d)[i] == Keys(results)[i];
    d
  }

  /** script.py line 46: each goal's runs for the plot are its median alone. */
  function MedianProjections(results: Dict<GoalCheckerMulti.GoalResult>): (p: Projections)
    ensures p.RunsPerGoal? && Keys(p.byGoal) == Keys(results)
  {
    var byGoal := seq(|results|, i requires 0 <= i < |results| => (results[i].0, [results[i].1.medianProjection]));
    assert forall i :: 0 <= i < |results| ==> Keys(byGoal)[i] == Keys(results)[i];
    RunsPerGoal(byGoal)
  }

  /** The as-written run: for any non-empty results dict (with no goal named
      "success_probability", which would pass for a single report), the
      summary fails at recommendation_engine.py line 102 with a KeyError for
      `initial_investment`, whatever the goals' figures. */
  lemma AsWrittenSummaryFails(results: Dict<GoalCheckerMulti.GoalResult>)
    requires |results| > 0
    requires !HasKey(results, SuccessProbabilityKey)
    ensures CreateSummaryOf(Records(results), MedianProjections(results)) == Err(KeyError(InitialInvestmentKey))
  {
    var data, projections := Records(results), MedianProjections(results);
    assert !IsSingleGoal(data) by {
      HasKeyInKeys(data, SuccessProbabilityKey);
      HasKeyInKeys(results, SuccessProbabilityKey);
    }
    RecommendationTiers(ResultRecord(results[0].1), results[0].1.successProbability, results[0].1.goalAmount,
                        results[0].1.medianProjection);
    assert HasKey(projections.byGoal, data[0].0) by {
      HasKeyInKeys(projections.byGoal, data[0].0);
      assert Keys(projections.byGoal)[0] == data[0].0;
    }
    MissingInitialInvestment(data, projections, 0);
  }

  /** The corrected run: every goal gets a summary entry, under its own name
      and in order, carrying the investment, the goal's success probability
      and the recommendation for that goal's figures. */
  lemma CorrectedSummary(initialInvestment: real, results: Dict<GoalCheckerMulti.GoalResult>)
    requires DistinctKeys(results)
    requires !HasKey(results, SuccessProbabilityKey)
    ensures var s := CreateSummaryOf(CorrectedRecords(initialInvestment, results), MedianProjections(results));
      && s.Ok? && s.value.PerGoalSummary?
      && Keys(s.value.entries) == Keys(results)
      && forall i :: 0 <= i < |results| ==>
           && s.value.entries[i].1.initialInvestment == Num(initialInvestment)
           && s.value.entries[i].1.probabilityOfSuccess == Num(results[i].1.successProbability)
  {
    var data, projections := CorrectedRecords(initialInvestment, results), MedianProjections(results);
    CorrectedSummaryBuilt(initialInvestment, results);
    PerGoalSummaryCopies(data, projections);
    forall i | 0 <= i < |results|
      ensures Lookup(data[i].1.fields, InitialInvestmentKey) == Ok(Num(initialInvestment))
      ensures Lookup(data[i].1.fields, SuccessProbabilityKey) == Ok(Num(results[i].1.successProbability))
    {
      assert data[i].1.fields == CorrectedRecord(initialInvestment, results[i].1);
    }
  }

  /** The corrected entries form a dict of goals whose every summary entry is built. */
  lemma CorrectedSummaryBuilt(initialInvestment: real, results: Dict<GoalCheckerMulti.GoalResult>)
    requires DistinctKeys(results)
    requires !HasKey(results, SuccessProbabilityKey)
    ensures var data := CorrectedRecords(initialInvestment, results);
      && !IsSingleGoal(data) && DistinctKeys(data)
      && CreateSummaryOf(data, MedianProjections(results)).Ok?
  {
    SameKeysShape(results, CorrectedRecords(initialInvestment, results));
    CorrectedEntriesBuilt(initialInvestment, results);
  }

  /** A dict with the keys of `results` has distinct keys and is no single report. */
  lemma SameKeysShape<V, W>(results: Dict<V>, data: Dict<W>)
    requires DistinctKeys(results)
    requires !HasKey(results, SuccessProbabilityKey)
    requires Keys(data) == Keys(results)
    ensures !HasKey(data, SuccessProbabilityKey) && DistinctKeys(data)
  {
    HasKeyInKeys(data, SuccessProbabilityKey);
    HasKeyInKeys(results, SuccessProbabilityKey);
    assert forall i :: 0 <= i < |data| ==> data[i].0 == Keys(results)[i];
  }

  /** Every goal's corrected entry yields a summary entry. */
  lemma CorrectedEntriesBuilt(initialInvestment: real, results: Dict<GoalCheckerMulti.GoalResult>)
    ensures var data := CorrectedRecords(initialInvestment, results);
      forall i :: 0 <= i < |data| ==> PerGoalSummaries(data, MedianProjections(results))[i].Ok?
  {
    var data, projections := CorrectedRecords(initialInvestment, results), MedianProjections(results);
    forall i | 0 <= i < |data|
      ensures PerGoalSummaries(data, projections)[i].Ok?
    {
      CorrectedGoalSummary(initialInvestment, results, i);
    }
  }

  /** One goal of the corrected run: its summary entry is built. */
  lemma CorrectedGoalSummary(initialInvestment: real, results: Dict<GoalCheckerMulti.GoalResult>, i: nat)
    requires i < |results|
    ensures GoalSummary(results[i].0, Record(CorrectedRecord(initialInvestment, results[i].1)), MedianProjections(results)).Ok?
  {
    var projections := MedianProjections(results);
    RecommendationTiers(CorrectedRecord(initialInvestment, results[i].1), results[i].1.successProbability,
                        results[i].1.goalAmount, results[i].1.medianProjection);
    HasKeyInKeys(projections.byGoal, results[i].0);
    assert Keys(projections.byGoal)[i] == results[i].0;
  }

  /** script.py lines 36-37: the allocation for the investor's profile. A
      score from `risk_profile` is never negative, so the allocation always
      exists; it has the four base assets, each with a positive share, and
      adds up to 100. */
  function ProfiledAllocation(age: real, incomeStability: string, riskTolerance: string,
                              nseiSentiment: Option<real>): (a: Dict<real>)
    ensures Keys(a) == Keys(RiskProfiler.BaseAllocation)
    ensures forall i :: 0 <= i < |a| ==> a[i].1 > 0.0
    ensures SumValues(a) == 100.0
  {
    RiskProfiler.DynamicAllocationOf(RiskProfiler.RiskProfile(age, incomeStability, riskTolerance), nseiSentiment).value
  }

  /** `run_pipeline` (script.py lines 22-48) with the corrected entries:
      profile, allocate, check every goal with the same investment, then
      summarise. The fetched data and the sentiment mean are inputs. The run
      fails only where the goal checker does, with its error; once every goal
      has been checked, it summarises all of them, under the goal names and
      in the goals' order. */
  function Pipeline(age: real, incomeStability: string, riskTolerance: string, nseiSentiment: Option<real>,
                    initialInvestment: real, goals: Dict<GoalCheckerMulti.Goal>,
                    financialData: seq<GoalChecker.AssetRow>, taxRates: Dict<real>, fees: Dict<real>,
                    inflationRate: real, draws: seq<seq<seq<real>>>): (r: Result<Summary>)
    requires GoalCheckerMulti.DrawsFor(goals, draws)
    ensures var checked := GoalCheckerMulti.MultiGoalFeasibility(
                             initialInvestment, goals, ProfiledAllocation(age, incomeStability, riskTolerance, nseiSentiment),
                             financialData, taxRates, fees, inflationRate, draws);
      && (checked.Err? ==> r == Err(checked.error))
      && (checked.Ok? && DistinctKeys(goals) && !HasKey(goals, SuccessProbabilityKey) ==>
            r.Ok? && r.value.PerGoalSummary? && Keys(r.value.entries) == Keys(goals))
  {
    var assetAllocation := ProfiledAllocation(age, incomeStability, riskTolerance, nseiSentiment);
    match GoalCheckerMulti.MultiGoalFeasibility(initialInvestment, goals, assetAllocation, financialData,
                                                taxRates, fees, inflationRate, draws)
    case Err(e) => Err(e)
    case Ok(results) =>
      CheckedGoalsSummarised(initialInvestment, goals, assetAllocation, financialData, taxRates, fees, inflationRate, draws);
      CreateSummaryOf(CorrectedRecords(initialInvestment, results), MedianProjections(results))
  }

  /** Once every goal has been checked, the corrected summary covers all of
      them when the goal names are distinct and none is "success_probability". */
  lemma CheckedGoalsSummarised(initialInvestment: real, goals: Dict<GoalCheckerMulti.Goal>, allocation: Dict<real>,
                               financialData: seq<GoalChecker.AssetRow>, taxRates: Dict<real>, fees: Dict<real>,
                               inflationRate: real, draws: seq<seq<seq<real>>>)
    requires GoalCheckerMulti.DrawsFor(goals, draws)
    requires GoalCheckerMulti.MultiGoalFeasibility(initialInvestment, goals, allocation, financialData,
                                                   taxRates, fees, inflationRate, draws).Ok?
    ensures var results := GoalCheckerMulti.MultiGoalFeasibility(initialInvestment, goals, allocation, financialData,
                                                                 taxRates, fees, inflationRate, draws).value;
      var s := CreateSummaryOf(CorrectedRecords(initialInvestment, results), MedianProjections(results));
      DistinctKeys(goals) && !HasKey(goals, SuccessProbabilityKey) ==>
        s.Ok? && s.value.PerGoalSummary? && Keys(s.value.entries) == Keys(goals)
  {
    if DistinctKeys(goals) && !HasKey(goals, SuccessProbabilityKey) {
      GoalCheckerMulti.MultiGoalResults(initialInvestment, goals, allocation, financialData, taxRates, fees,
                                        inflationRate, draws);
      var results := GoalCheckerMulti.MultiGoalFeasibility(initialInvestment, goals, allocation, financialData,
                                                           taxRates, fees, inflationRate, draws).value;
      GoalNamesSummarised(initialInvestment, goals, results);
    }
  }

  /** Results keyed by the goal names are summarised under those names. */
  lemma GoalNamesSummarised(initialInvestment: real, goals: Dict<GoalCheckerMulti.Goal>,
                            results: Dict<GoalCheckerMulti.GoalResult>)
    requires DistinctKeys(goals)
    requires !HasKey(goals, SuccessProbabilityKey)
    requires Keys(results) == Keys(goals)
    ensures var s := CreateSummaryOf(CorrectedRecords(initialInvestment, results), MedianProjections(results));
      s.Ok? && s.value.PerGoalSummary? && Keys(s.value.entries) == Keys(goals)
  {
    assert !HasKey(results, SuccessProbabilityKey) by {
      HasKeyInKeys(results, SuccessProbabilityKey);
      HasKeyInKeys(goals, SuccessProbabilityKey);
    }
    assert DistinctKeys(results) by {
      assert forall i :: 0 <= i < |results| ==> results[i].0 == Keys(goals)[i];
    }
    CorrectedSummary(initialInvestment, results);
  }
}

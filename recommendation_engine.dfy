/** Textual recommendations and the summary report (recommendation_engine.py).

    The engine reads the feasibility dicts the goal checkers produce, so its
    input is a Python value: a number, a string, a pair of numbers, or a dict
    of such values. Reading a missing key raises a KeyError, subscripting
    something that is not a dict and comparing values of different kinds
    raise a TypeError. */
module RecommendationEngine {
  import opened Outcomes
  import opened Dicts

  /** The Python values the feasibility dicts hold. */
  datatype Value =
    | Num(n: real)
    | Text(s: string)
    | Pair(first: real, second: real)
    | Record(fields: Dict<Value>)

  const SuccessProbabilityKey := "success_probability"
  const GoalAmountKey := "goal_amount"
  const MedianProjectionKey := "median_projection"
  const InitialInvestmentKey := "initial_investment"
  const ProjectionRangeKey := "projection_range"

  /** The key the single-goal recommendation is stored under. */
  const GoalKey := "Goal"

  /** The success threshold, in percent. */
  const Threshold := 75.0

  const Feasible := "Your goal is feasible with the current setup!"
  const MedianAboveGoal :=
    "Your median projection is above the goal, but success probability is low. Consider adjusting risk allocation slightly."
  const NotAchievable :=
    "Your goal may not be achievable with the current parameters. Consider increasing your initial investment, extending your timeline, or adjusting risk tolerance."

  /** Python's `<` on two strings: code point by code point, a proper prefix first. */
  function TextLess(a: string, b: string): bool {
    if |b| == 0 then false
    else if |a| == 0 then true
    else if a[0] != b[0] then a[0] < b[0]
    else TextLess(a[1..], b[1..])
  }

  /** No string is below itself. */
  lemma {:induction false} TextLessIrreflexive(a: string)
    ensures !TextLess(a, a)
  {
    if |a| > 0 {
      TextLessIrreflexive(a[1..]);
    }
  }

  /** Python's `a >= b`: numbers compare by value, strings and tuples
      lexicographically, anything else raises a TypeError. */
  function AtLeast(a: Value, b: Value): (r: Result<bool>)
    ensures r.Err? <==> !((a.Num? && b.Num?) || (a.Text? && b.Text?) || (a.Pair? && b.Pair?))
    ensures r.Err? ==> r.error == TypeError
    ensures a.Num? && b.Num? ==> r == Ok(a.n >= b.n)
    ensures a.Text? && b.Text? ==> r == Ok(!TextLess(a.s, b.s))
    ensures a.Pair? && b.Pair? ==> r == Ok(a.first > b.first || (a.first == b.first && a.second >= b.second))
  {
    match (a, b)
    case (Num(x), Num(y)) => Ok(x >= y)
    case (Text(x), Text(y)) => Ok(!TextLess(x, y))
    case (Pair(x1, x2), Pair(y1, y2)) => Ok(x1 > y1 || (x1 == y1 && x2 >= y2))
    case _ => Err(TypeError)
  }

  /** `>=` is reflexive wherever Python defines it. */
  lemma AtLeastReflexive(a: Value)
    requires !a.Record?
    ensures AtLeast(a, a) == Ok(true)
  {
    if a.Text? {
      TextLessIrreflexive(a.s);
    }
  }

  /** `single_goal_recommendation` (lines 27-48): three tiers, checked in
      order; the median is only compared when the probability is below 75. */
  function SingleGoalRecommendation(goalData: Value): (r: Result<string>)
    ensures !goalData.Record? ==> r == Err(TypeError)
    ensures goalData.Record? && !HasKey(goalData.fields, SuccessProbabilityKey)
            ==> r == Err(KeyError(SuccessProbabilityKey))
    ensures goalData.Record? && HasKey(goalData.fields, SuccessProbabilityKey) && !HasKey(goalData.fields, GoalAmountKey)
            ==> r == Err(KeyError(GoalAmountKey))
    ensures goalData.Record? && HasKey(goalData.fields, SuccessProbabilityKey) && HasKey(goalData.fields, GoalAmountKey)
            && !HasKey(goalData.fields, MedianProjectionKey)
            ==> r == Err(KeyError(MedianProjectionKey))
    ensures r.Ok? ==> r.value == Feasible || r.value == MedianAboveGoal || r.value == NotAchievable
  {
    if !goalData.Record? then Err(TypeError)
    else
      var d := goalData.fields;
      match Lookup(d, SuccessProbabilityKey)
      case Err(e) => Err(e)
      case Ok(probability) =>
        match Lookup(d, GoalAmountKey)
        case Err(e) => Err(e)
        case Ok(goalAmount) =>
          match Lookup(d, MedianProjectionKey)
          case Err(e) => Err(e)
          case Ok(median) =>
            match AtLeast(probability, Num(Threshold))
            case Err(e) => Err(e)
            case Ok(feasible) =>
              if feasible then Ok(Feasible)
              else
                match AtLeast(median, goalAmount)
                case Err(e) => Err(e)
                case Ok(above) => Ok(if above then MedianAboveGoal else NotAchievable)
  }

  /** The three texts are different, so a tier can be read back from its text. */
  lemma TiersDistinct()
    ensures Feasible != MedianAboveGoal && Feasible != NotAchievable && MedianAboveGoal != NotAchievable
  {
    assert |Feasible| == 45 && |MedianAboveGoal| == 118 && |NotAchievable| == 159;
  }

  /** With numeric fields the tiers are exhaustive and exclusive: feasible
      exactly when the probability reaches 75, otherwise "median above goal"
      exactly when the median reaches the goal, otherwise "not achievable". */
  lemma RecommendationTiers(d: Dict<Value>, probability: real, goalAmount: real, median: real)
    requires Lookup(d, SuccessProbabilityKey) == Ok(Num(probability))
    requires Lookup(d, GoalAmountKey) == Ok(Num(goalAmount))
    requires Lookup(d, MedianProjectionKey) == Ok(Num(median))
    ensures var r := SingleGoalRecommendation(Record(d));
      && r.Ok?
      && (r.value == Feasible <==> probability >= Threshold)
      && (r.value == MedianAboveGoal <==> probability < Threshold && median >= goalAmount)
      && (r.value == NotAchievable <==> probability < Threshold && median < goalAmount)
  {
    TiersDistinct();
  }

  /** A probability of 75 or more is feasible whatever the median and goal
      hold: the comparison of the median is never evaluated. */
  lemma FeasibleRegardlessOfMedian(d: Dict<Value>, probability: real)
    requires Lookup(d, SuccessProbabilityKey) == Ok(Num(probability))
    requires probability >= Threshold
    requires HasKey(d, GoalAmountKey) && HasKey(d, MedianProjectionKey)
    ensures SingleGoalRecommendation(Record(d)) == Ok(Feasible)
  {
  }

  /** Whether `feasibility_data` is one goal's report (line 17, line 84). */
  predicate IsSingleGoal(feasibilityData: Dict<Value>) {
    HasKey(feasibilityData, SuccessProbabilityKey)
  }

  /** Each goal's recommendation, in the order of `feasibility_data`. */
  function PerGoalRecommendations(feasibilityData: Dict<Value>): (rs: seq<Result<string>>)
    ensures |rs| == |feasibilityData|
  {
    seq(|feasibilityData|, i requires 0 <= i < |feasibilityData| => SingleGoalRecommendation(feasibilityData[i].1))
  }

  /** `generate_recommendations` (lines 4-25). A single report yields one
      recommendation, under "Goal"; a dict of goals succeeds exactly when
      every goal's recommendation does. */
  function Recommendations(feasibilityData: Dict<Value>): (r: Result<Dict<string>>)
    ensures IsSingleGoal(feasibilityData) ==>
      (r.Ok? <==> SingleGoalRecommendation(Record(feasibilityData)).Ok?)
    ensures IsSingleGoal(feasibilityData) && r.Ok? ==>
      r.value == [(GoalKey, SingleGoalRecommendation(Record(feasibilityData)).value)]
    ensures IsSingleGoal(feasibilityData) && r.Err? ==>
      r.error == SingleGoalRecommendation(Record(feasibilityData)).error
    ensures !IsSingleGoal(feasibilityData) ==>
      (r.Ok? <==> forall i :: 0 <= i < |feasibilityData| ==> PerGoalRecommendations(feasibilityData)[i].Ok?)
  {
    GatherOkIff(feasibilityData, PerGoalRecommendations(feasibilityData), |feasibilityData|);
    if IsSingleGoal(feasibilityData) then
      match SingleGoalRecommendation(Record(feasibilityData))
      case Err(e) => Err(e)
      case Ok(recommendation) => Ok([(GoalKey, recommendation)])
    else Gather(feasibilityData, PerGoalRecommendations(feasibilityData), |feasibilityData|)
  }

  /** A dict of goals yields one recommendation per goal name, in order, each
      that goal's own recommendation; it fails exactly when some goal's does,
      with the first such error. */
  lemma MultiGoalDispatch(feasibilityData: Dict<Value>)
    requires !IsSingleGoal(feasibilityData)
    requires DistinctKeys(feasibilityData)
    ensures var r := Recommendations(feasibilityData);
      && (r.Ok? <==> forall i :: 0 <= i < |feasibilityData| ==> SingleGoalRecommendation(feasibilityData[i].1).Ok?)
      && (r.Ok? ==> Keys(r.value) == Keys(feasibilityData))
      && (r.Ok? ==> forall i :: 0 <= i < |feasibilityData| ==>
            Ok(r.value[i].1) == SingleGoalRecommendation(feasibilityData[i].1))
  {
    var outcomes := PerGoalRecommendations(feasibilityData);
    GatherOkIff(feasibilityData, outcomes, |feasibilityData|);
    var r := Gather(feasibilityData, outcomes, |feasibilityData|);
    if r.Ok? {
      GatherEntries(feasibilityData, outcomes, |feasibilityData|);
      GatheredKeys(feasibilityData, outcomes, r.value);
    }
  }

  /** A dict of goals stops at the first goal whose recommendation fails,
      with that goal's error. */
  lemma MultiGoalFirstError(feasibilityData: Dict<Value>)
    requires !IsSingleGoal(feasibilityData)
    requires Recommendations(feasibilityData).Err?
    ensures exists i :: FirstFailure(feasibilityData, i, Recommendations(feasibilityData).error)
  {
    var outcomes := PerGoalRecommendations(feasibilityData);
    var r := Gather(feasibilityData, outcomes, |feasibilityData|);
    GatherOkIff(feasibilityData, outcomes, |feasibilityData|);
    var i :| 0 <= i < |feasibilityData| && outcomes[i] == Err(r.error) && forall j :: 0 <= j < i ==> outcomes[j].Ok?;
    forall h | 0 <= h < i
      ensures SingleGoalRecommendation(feasibilityData[h].1).Ok?
    {
      assert outcomes[h].Ok?;
    }
    assert FirstFailure(feasibilityData, i, r.error);
  }

  /** Goal `i` is the first whose recommendation fails, and it fails with `error`. */
  predicate FirstFailure(feasibilityData: Dict<Value>, i: int, error: Error) {
    && 0 <= i < |feasibilityData|
    && SingleGoalRecommendation(feasibilityData[i].1) == Err(error)
    && forall h :: 0 <= h < i ==> SingleGoalRecommendation(feasibilityData[h].1).Ok?
  }

  /** `generate_recommendations` as the source runs it. */
  method GenerateRecommendations(feasibilityData: Dict<Value>) returns (r: Result<Dict<string>>)
    ensures r == Recommendations(feasibilityData)
  {
    if SuccessProbabilityKey in Keys(feasibilityData) {
      assert IsSingleGoal(feasibilityData) by { HasKeyInKeys(feasibilityData, SuccessProbabilityKey); }
      var recommendation := SingleGoalRecommendation(Record(feasibilityData));
      if recommendation.Err? {
        return Err(recommendation.error);
      }
      return Ok([(GoalKey, recommendation.value)]);
    }
    assert !IsSingleGoal(feasibilityData) by { HasKeyInKeys(feasibilityData, SuccessProbabilityKey); }
    ghost var outcomes := PerGoalRecommendations(feasibilityData);
    var recommendations: Dict<string> := [];
    for k := 0 to |feasibilityData|
      invariant Gather(feasibilityData, outcomes, k) == Ok(recommendations)
    {
      var (goalName, goalData) := feasibilityData[k];
      var recommendation := SingleGoalRecommendation(goalData);
      GatherStep(feasibilityData, outcomes, k + 1);
      if recommendation.Err? {
        GatherErrSticks(feasibilityData, outcomes, k + 1, |feasibilityData|);
        return Err(recommendation.error);
      }
      recommendations := Set(recommendations, goalName, recommendation.value);
    }
    r := Ok(recommendations);
  }

  /** One entry of the summary (lines 88-95 and 101-108). */
  datatype SummaryEntry = SummaryEntry(
    initialInvestment: Value,
    goalAmount: Value,
    probabilityOfSuccess: Value,
    medianProjection: Value,
    projectionRange: Value,
    recommendation: string)

  /** What `create_summary` returns: one entry, or one entry per goal name. */
  datatype Summary = SingleSummary(entry: SummaryEntry) | PerGoalSummary(entries: Dict<SummaryEntry>)

  /** The `projections` argument: one goal's runs, or the runs of each goal by name. */
  datatype Projections = Runs(values: seq<real>) | RunsPerGoal(byGoal: Dict<seq<real>>)

  /** The summary dict of one goal, read in the order of its literal:
      initial_investment, goal_amount, success_probability, median_projection,
      projection_range. */
  function SummaryEntryOf(goalData: Dict<Value>, recommendation: string): (r: Result<SummaryEntry>)
    ensures !HasKey(goalData, InitialInvestmentKey) ==> r == Err(KeyError(InitialInvestmentKey))
    ensures HasKey(goalData, InitialInvestmentKey) && !HasKey(goalData, GoalAmountKey)
            ==> r == Err(KeyError(GoalAmountKey))
    ensures HasKey(goalData, InitialInvestmentKey) && HasKey(goalData, GoalAmountKey)
            && !HasKey(goalData, SuccessProbabilityKey)
            ==> r == Err(KeyError(SuccessProbabilityKey))
    ensures HasKey(goalData, InitialInvestmentKey) && HasKey(goalData, GoalAmountKey)
            && HasKey(goalData, SuccessProbabilityKey) && !HasKey(goalData, MedianProjectionKey)
            ==> r == Err(KeyError(MedianProjectionKey))
    ensures HasKey(goalData, InitialInvestmentKey) && HasKey(goalData, GoalAmountKey)
            && HasKey(goalData, SuccessProbabilityKey) && HasKey(goalData, MedianProjectionKey)
            && !HasKey(goalData, ProjectionRangeKey)
            ==> r == Err(KeyError(ProjectionRangeKey))
    ensures r.Ok? ==> Lookup(goalData, InitialInvestmentKey) == Ok(r.value.initialInvestment)
    ensures r.Ok? ==> Lookup(goalData, GoalAmountKey) == Ok(r.value.goalAmount)
    ensures r.Ok? ==> Lookup(goalData, SuccessProbabilityKey) == Ok(r.value.probabilityOfSuccess)
    ensures r.Ok? ==> Lookup(goalData, MedianProjectionKey) == Ok(r.value.medianProjection)
    ensures r.Ok? ==> Lookup(goalData, ProjectionRangeKey) == Ok(r.value.projectionRange)
    ensures r.Ok? ==> r.value.recommendation == recommendation
    ensures r.Ok? <==> HasKey(goalData, InitialInvestmentKey) && HasKey(goalData, GoalAmountKey)
                       && HasKey(goalData, SuccessProbabilityKey) && HasKey(goalData, MedianProjectionKey)
                       && HasKey(goalData, ProjectionRangeKey)
  {
    match Lookup(goalData, InitialInvestmentKey)
    case Err(e) => Err(e)
    case Ok(initialInvestment) =>
      match Lookup(goalData, GoalAmountKey)
      case Err(e) => Err(e)
      case Ok(goalAmount) =>
        match Lookup(goalData, SuccessProbabilityKey)
        case Err(e) => Err(e)
        case Ok(probability) =>
          match Lookup(goalData, MedianProjectionKey)
          case Err(e) => Err(e)
          case Ok(median) =>
            match Lookup(goalData, ProjectionRangeKey)
            case Err(e) => Err(e)
            case Ok(range) => Ok(SummaryEntry(initialInvestment, goalAmount, probability, median, range, recommendation))
  }

  /** Lines 99-108 for one goal: its recommendation, then `projections[goal_name]`
      for the plot, then its summary entry. Indexing a single list of runs by
      a goal name is a TypeError; a missing goal name is a KeyError. */
  function GoalSummary(goalName: string, goalData: Value, projections: Projections): (r: Result<SummaryEntry>)
    ensures SingleGoalRecommendation(goalData).Err? ==> r == Err(SingleGoalRecommendation(goalData).error)
    ensures SingleGoalRecommendation(goalData).Ok? && projections.Runs? ==> r == Err(TypeError)
    ensures SingleGoalRecommendation(goalData).Ok? && projections.RunsPerGoal? ==>
      (!HasKey(projections.byGoal, goalName) ==> r == Err(KeyError(goalName)))
    ensures r.Ok? ==> r.value.recommendation == SingleGoalRecommendation(goalData).value
    ensures r.Ok? ==> projections.RunsPerGoal? && HasKey(projections.byGoal, goalName)
  {
    match SingleGoalRecommendation(goalData)
    case Err(e) => Err(e)
    case Ok(recommendation) =>
      match projections
      case Runs(_) => Err(TypeError)
      case RunsPerGoal(byGoal) =>
        match Lookup(byGoal, goalName)
        case Err(e) => Err(e)
        case Ok(_) => SummaryEntryOf(goalData.fields, recommendation)
  }

  /** Each goal's summary entry, in the order of `feasibility_data`. */
  function PerGoalSummaries(feasibilityData: Dict<Value>, projections: Projections): (es: seq<Result<SummaryEntry>>)
    ensures |es| == |feasibilityData|
  {
    seq(|feasibilityData|, i requires 0 <= i < |feasibilityData| =>
      GoalSummary(feasibilityData[i].0, feasibilityData[i].1, projections))
  }

  /** The data part of `create_summary` (lines 71-110); the histograms are not
      modelled. A single report gives one entry and fails exactly when its
      recommendation or one of its five figures does; a dict of goals gives
      one entry per goal and fails exactly when some goal's entry does. */
  function CreateSummaryOf(feasibilityData: Dict<Value>, projections: Projections): (r: Result<Summary>)
    ensures IsSingleGoal(feasibilityData) ==>
      (r.Ok? <==> SingleGoalRecommendation(Record(feasibilityData)).Ok?
                  && SummaryEntryOf(feasibilityData, SingleGoalRecommendation(Record(feasibilityData)).value).Ok?)
    ensures IsSingleGoal(feasibilityData) && r.Ok? ==> r.value.SingleSummary?
    ensures !IsSingleGoal(feasibilityData) ==>
      (r.Ok? <==> forall i :: 0 <= i < |feasibilityData| ==> PerGoalSummaries(feasibilityData, projections)[i].Ok?)
    ensures !IsSingleGoal(feasibilityData) && r.Ok? ==> r.value.PerGoalSummary?
  {
    GatherOkIff(feasibilityData, PerGoalSummaries(feasibilityData, projections), |feasibilityData|);
    if IsSingleGoal(feasibilityData) then
      match SingleGoalRecommendation(Record(feasibilityData))
      case Err(e) => Err(e)
      case Ok(recommendation) =>
        match SummaryEntryOf(feasibilityData, recommendation)
        case Err(e) => Err(e)
        case Ok(entry) => Ok(SingleSummary(entry))
    else
      match Gather(feasibilityData, PerGoalSummaries(feasibilityData, projections), |feasibilityData|)
      case Err(e) => Err(e)
      case Ok(entries) => Ok(PerGoalSummary(entries))
  }

  /** A single report's summary renames `success_probability` to
      `probability_of_success`, copies the other figures and adds the recommendation. */
  lemma SingleSummaryCopies(feasibilityData: Dict<Value>, projections: Projections)
    requires IsSingleGoal(feasibilityData)
    requires CreateSummaryOf(feasibilityData, projections).Ok?
    ensures var s := CreateSummaryOf(feasibilityData, projections).value;
      && s.SingleSummary?
      && Lookup(feasibilityData, SuccessProbabilityKey) == Ok(s.entry.probabilityOfSuccess)
      && Lookup(feasibilityData, InitialInvestmentKey) == Ok(s.entry.initialInvestment)
      && Lookup(feasibilityData, GoalAmountKey) == Ok(s.entry.goalAmount)
      && Lookup(feasibilityData, MedianProjectionKey) == Ok(s.entry.medianProjection)
      && Lookup(feasibilityData, ProjectionRangeKey) == Ok(s.entry.projectionRange)
      && Ok(s.entry.recommendation) == SingleGoalRecommendation(Record(feasibilityData))
  {
  }

  /** A multi-goal summary has one entry per goal name, in order; each copies
      that goal's `success_probability` into `probability_of_success`, copies
      its other four figures and carries that goal's recommendation. */
  lemma PerGoalSummaryCopies(feasibilityData: Dict<Value>, projections: Projections)
    requires !IsSingleGoal(feasibilityData)
    requires DistinctKeys(feasibilityData)
    requires CreateSummaryOf(feasibilityData, projections).Ok?
    ensures var s := CreateSummaryOf(feasibilityData, projections).value;
      && s.PerGoalSummary?
      && Keys(s.entries) == Keys(feasibilityData)
      && forall i :: 0 <= i < |feasibilityData| ==>
           && feasibilityData[i].1.Record?
           && Lookup(feasibilityData[i].1.fields, SuccessProbabilityKey) == Ok(s.entries[i].1.probabilityOfSuccess)
           && Lookup(feasibilityData[i].1.fields, InitialInvestmentKey) == Ok(s.entries[i].1.initialInvestment)
           && Lookup(feasibilityData[i].1.fields, GoalAmountKey) == Ok(s.entries[i].1.goalAmount)
           && Lookup(feasibilityData[i].1.fields, MedianProjectionKey) == Ok(s.entries[i].1.medianProjection)
           && Lookup(feasibilityData[i].1.fields, ProjectionRangeKey) == Ok(s.entries[i].1.projectionRange)
           && Ok(s.entries[i].1.recommendation) == SingleGoalRecommendation(feasibilityData[i].1)
  {
    var outcomes := PerGoalSummaries(feasibilityData, projections);
    GatherEntries(feasibilityData, outcomes, |feasibilityData|);
    var entries := Gather(feasibilityData, outcomes, |feasibilityData|).value;
    GatheredKeys(feasibilityData, outcomes, entries);
    forall i | 0 <= i < |feasibilityData|
      ensures feasibilityData[i].1.Record?
      ensures Lookup(feasibilityData[i].1.fields, SuccessProbabilityKey) == Ok(entries[i].1.probabilityOfSuccess)
      ensures Lookup(feasibilityData[i].1.fields, InitialInvestmentKey) == Ok(entries[i].1.initialInvestment)
      ensures Lookup(feasibilityData[i].1.fields, GoalAmountKey) == Ok(entries[i].1.goalAmount)
      ensures Lookup(feasibilityData[i].1.fields, MedianProjectionKey) == Ok(entries[i].1.medianProjection)
      ensures Lookup(feasibilityData[i].1.fields, ProjectionRangeKey) == Ok(entries[i].1.projectionRange)
      ensures Ok(entries[i].1.recommendation) == SingleGoalRecommendation(feasibilityData[i].1)
    {
      assert Ok(entries[i].1) == outcomes[i];
    }
  }

  /** Line 102: in a dict of goals, the first goal whose entry lacks
      `initial_investment` (all earlier goals being complete) stops the
      summary with a KeyError naming that key. */
  lemma MissingInitialInvestment(feasibilityData: Dict<Value>, projections: Projections, g: nat)
    requires !IsSingleGoal(feasibilityData)
    requires g < |feasibilityData|
    requires forall i :: 0 <= i < g ==> GoalSummary(feasibilityData[i].0, feasibilityData[i].1, projections).Ok?
    requires SingleGoalRecommendation(feasibilityData[g].1).Ok?
    requires projections.RunsPerGoal? && HasKey(projections.byGoal, feasibilityData[g].0)
    requires !HasKey(feasibilityData[g].1.fields, InitialInvestmentKey)
    ensures CreateSummaryOf(feasibilityData, projections) == Err(KeyError(InitialInvestmentKey))
  {
    var outcomes := PerGoalSummaries(feasibilityData, projections);
    assert outcomes[g] == Err(KeyError(InitialInvestmentKey));
    GatherOkIff(feasibilityData, outcomes, |feasibilityData|);
    var r := Gather(feasibilityData, outcomes, |feasibilityData|);
    var j :| 0 <= j < |feasibilityData| && outcomes[j] == Err(r.error) && forall h :: 0 <= h < j ==> outcomes[h].Ok?;
    assert j == g;
  }

  /** `create_summary` as the source runs it, without the plots. */
  method CreateSummary(feasibilityData: Dict<Value>, projections: Projections) returns (r: Result<Summary>)
    ensures r == CreateSummaryOf(feasibilityData, projections)
  {
    if SuccessProbabilityKey in Keys(feasibilityData) {
      assert IsSingleGoal(feasibilityData) by { HasKeyInKeys(feasibilityData, SuccessProbabilityKey); }
      var recommendation := SingleGoalRecommendation(Record(feasibilityData));
      if recommendation.Err? {
        return Err(recommendation.error);
      }
      var entry := SummaryEntryOf(feasibilityData, recommendation.value);
      if entry.Err? {
        return Err(entry.error);
      }
      return Ok(SingleSummary(entry.value));
    }
    assert !IsSingleGoal(feasibilityData) by { HasKeyInKeys(feasibilityData, SuccessProbabilityKey); }
    ghost var outcomes := PerGoalSummaries(feasibilityData, projections);
    var summary: Dict<SummaryEntry> := [];
    for k := 0 to |feasibilityData|
      invariant Gather(feasibilityData, outcomes, k) == Ok(summary)
    {
      var (goalName, goalData) := feasibilityData[k];
      var entry := GoalSummary(goalName, goalData, projections);
      GatherStep(feasibilityData, outcomes, k + 1);
      if entry.Err? {
        GatherErrSticks(feasibilityData, outcomes, k + 1, |feasibilityData|);
        return Err(entry.error);
      }
      summary := Set(summary, goalName, entry.value);
    }
    r := Ok(PerGoalSummary(summary));
  }
}

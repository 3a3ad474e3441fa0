# Goal feasibility planner — a Dafny model

The modelled system is a small Python toolkit for personal financial goals. It:

- profiles the investor's risk appetite (`risk_profiler.py`);
- derives an asset allocation from that profile and from market sentiment;
- simulates end values of the portfolio by Monte Carlo (`goal_checker.py`, `goal_checker_multi.py`);
- deducts fees and capital-gains tax, and discounts for inflation (`tax_adjustment.py`);
- reports a success probability, the median and the interquartile range of the end values, and a recommendation;
- turns such reports into textual advice and a summary (`recommendation_engine.py`).

This project models the deterministic logic of those five files:

- Every number is a Dafny `real`, an idealised Python float.
- The random draws are inputs. Each run is a sequence of standard-normal samples, and numpy's `normal(mu, sigma)` is `mu + sigma * z`.
- Python dicts are insertion-ordered association lists (`Dicts.Dict<V>`). Assigning to a key replaces its value where it stands or appends the key at the end, as Python does.
- Every Python exception the code can raise becomes an `Outcomes.Result` error: `KeyError(key)`, `IndexError`, `ZeroDivisionError`, `ValueError` or `TypeError`. The one exception: a goal of the multi-goal checker is a datatype with its three fields, so a goal dict missing one of them is not modelled (see Left out).

Modules:

| file | module | models |
|---|---|---|
| outcomes.dfy | Outcomes | `Option`, `Result` and the Python exceptions |
| dicts.dfy | Dicts | dict lookup, assignment, `sum(d.values())`, filling a dict in a loop |
| stats.dfy | Stats | the success count and percentage; `np.median` and `np.percentile` with the default linear interpolation |
| tax_adjustment.dfy | TaxAdjustment | `apply_taxes_and_fees`, `adjust_for_inflation`, `calculate_net_projections` |
| goal_checker.dfy | GoalChecker | the weighted return and volatility, `monte_carlo_simulation`, `check_goal_feasibility` |
| goal_checker_multi.dfy | GoalCheckerMulti | the priority tilt and `check_multi_goal_feasibility` |
| recommendation_engine.dfy | RecommendationEngine | `single_goal_recommendation`, `generate_recommendations`, the data part of `create_summary` |
| risk_profiler.dfy | RiskProfiler | `risk_profile`, `dynamic_allocation` |
| pipeline.dfy | Pipeline | the run of `script.py`, and the summary failure described under Findings |

Shape of the model:

- Loops that build lists or dicts are methods, proved equal to a specification function:
  - the fee/tax loop;
  - the weighting loop;
  - the nested simulation loops;
  - the per-goal loop of the multi-goal checker;
  - the two dict-filling loops of the recommendation engine;
  - the in-place adjustment loop of `dynamic_allocation`.
- The properties are proved about those functions.

Facts about the code that the model keeps:

- **Two texts in the checkers.** Both goal checkers write only two recommendation texts, split at 75 percent (goal_checker.py lines 59-61, goal_checker_multi.py line 51). Three tiers exist only in `single_goal_recommendation`.
- **Tilt size.** The priority tilt adds and subtracts `0.1` in the allocation's own units. After `dynamic_allocation` those units are percentages, so the tilt moves a tenth of a percentage point.
- **Tilt total.** The tilt moves `0.1` from one key to another, so it never changes the allocation's total (`GoalCheckerMulti.Tilt`).
- **Adjustment order.** The fee/tax stage is linear in each value. For any inflation rate above -100 %, charging before or after discounting gives the same values (`TaxAdjustment.AdjustmentOrderIrrelevant`).
- **Input checks.** The simulator checks neither the number of years, nor the number of runs, nor the investment. Only numpy's rejection of a negative standard deviation remains (`ValueError`), and only when at least one run is drawn.

## Model

| member | source | states |
|---|---|---|
| Stats.CountAtLeast | goal_checker.py:55 | the number of runs reaching the goal never exceeds the number of runs |
| Stats.SuccessProbability | goal_checker.py:56 | the percentage lies in [0, 100]; it is 100 exactly when every value reaches the goal and 0 exactly when none does |
| Stats.CountAllIff | goal_checker.py:55 | every run succeeds exactly when the count equals the number of runs |
| Stats.CountNoneIff | goal_checker.py:55 | the count is zero exactly when no run reaches the goal |
| Stats.CountAntitone | goal_checker.py:55 | raising the goal never adds successful runs |
| Stats.ProbabilityAntitone | goal_checker.py:56 | for a fixed list, raising the goal never raises the probability |
| Stats.Sort | goal_checker.py:70-71 | the order statistics are taken on a sorted permutation of the values |
| Stats.Interpolate | goal_checker.py:71 | numpy's linear interpolation lies between the two neighbouring order statistics |
| Stats.InterpolateMonotone | goal_checker.py:71 | interpolation never decreases as the position grows |
| Stats.Percentile | goal_checker.py:71 | the 0th percentile is the smallest value and the 100th the largest |
| Stats.Median | goal_checker.py:70 | the median lies between the two middle order statistics and is the middle one for an odd count |
| Stats.Position | goal_checker.py:71 | the position `(n - 1) * q / 100` lies in [0, n - 1] |
| Stats.PositionMonotone | goal_checker.py:71 | a higher percentile reads a later position |
| Stats.PercentileWithinRange | goal_checker.py:71 | a percentile lies between the smallest and the largest value |
| Stats.PercentileMonotone | goal_checker.py:71 | a higher percentile is never smaller |
| Stats.MedianIsPercentile50 | goal_checker.py:70 | `np.median` equals the 50th percentile |
| Stats.QuartilesBracketMedian | goal_checker.py:70-71 | 25th percentile <= median <= 75th percentile |
| TaxAdjustment.TaxRateFor | tax_adjustment.py:17 | the long-term rate from a one-year holding period on, else the short-term rate; a missing rate is a KeyError for that key |
| TaxAdjustment.TaxableGain | tax_adjustment.py:23 | the taxable gain is never negative |
| TaxAdjustment.TaxableGainClosedForm | tax_adjustment.py:21-23 | the gain is `-value * fee_total / 100` when that is positive, else 0 |
| TaxAdjustment.NoTaxOnNonNegativeValues | tax_adjustment.py:23-24 | a non-negative value with non-negative fees pays no tax; the output is the value after fees |
| TaxAdjustment.TaxOnNegativeValues | tax_adjustment.py:23-24 | a negative value with positive fees is charged tax on a positive "gain" |
| TaxAdjustment.TaxesAndFees | tax_adjustment.py:16-27 | succeeds exactly when the chosen rate exists; the output has the input's length; output i is input i after fees (the same fee total for all) less the tax on its gain |
| TaxAdjustment.TaxesAndFeesElementwise | tax_adjustment.py:19-25 | adjusting a concatenation is adjusting each part: output i depends on input i only |
| TaxAdjustment.ApplyTaxesAndFees | tax_adjustment.py:16-27 | the loop, which chooses the rate once and appends one value per input, computes `TaxesAndFees` |
| TaxAdjustment.DiscountFactor | tax_adjustment.py:41 | `(1 + rate) ** years` is zero exactly at a rate of -100 % over a positive horizon, and positive for a rate above -100 % |
| TaxAdjustment.AdjustForInflation | tax_adjustment.py:41 | a ZeroDivisionError exactly for a non-empty list at a rate of -100 % over a positive horizon; otherwise same length, each value divided by the factor |
| TaxAdjustment.InflationKeepsSignAndOrder | tax_adjustment.py:41 | above -100 % inflation every value keeps its sign and any two values keep their order |
| TaxAdjustment.NoInflationIsIdentity | tax_adjustment.py:41 | zero inflation leaves the values unchanged |
| TaxAdjustment.NetValues | tax_adjustment.py:61-63 | fees and tax first, then inflation over the holding period; the error cases of both stages; same length; each value adjusted on its own |
| TaxAdjustment.TaxAndDiscountCommute | tax_adjustment.py:21-24 | charging fees and tax on a discounted value equals discounting the charged value |
| TaxAdjustment.AdjustmentOrderIrrelevant | tax_adjustment.py:61-63 | above -100 % inflation, discounting first and then charging gives the same values as the code's order |
| TaxAdjustment.CalculateNetProjections | tax_adjustment.py:44-77 | succeeds exactly when the net values exist and the list is non-empty; otherwise the missing rate's KeyError or ZeroDivisionError; echoes the investment and the goal; the probability is the success percentage of the net values, in [0, 100]; "feasible" iff probability >= 75; the median and the (25, 75) percentiles of the net values, with p25 <= median <= p75 |
| TaxAdjustment.NetProbabilityAntitone | tax_adjustment.py:66 | for fixed projections, a higher goal never gives a higher probability of success |
| GoalChecker.FindAsset | goal_checker.py:45-46 | a found row is a row of the table with the asked ticker |
| GoalChecker.FindAssetFindsFirst | goal_checker.py:45-46 | the table filter finds nothing exactly when no row has the ticker, and otherwise the first such row |
| GoalChecker.WeightedPrefixOkIff | goal_checker.py:44-49 | the weighting of the first k assets succeeds exactly when each has a row; otherwise IndexError |
| GoalChecker.WeightedProfileOkIff | goal_checker.py:44-46 | the weighting fails with IndexError exactly when some allocated asset is missing from the table |
| GoalChecker.WeightedPrefixReturn | goal_checker.py:47-48 | the weighted return is the sum of `percent / 100 * return` over the allocation |
| GoalChecker.WeightedReturnBounds | goal_checker.py:42-49 | with non-negative weights and returns in [lo, hi], the weighted return lies in [total/100 * lo, total/100 * hi] |
| GoalChecker.WeightedReturnIsAverage | goal_checker.py:42-49 | a non-negative allocation summing to 100 gives a weighted return within the assets' range |
| GoalChecker.WeightedPrefixVolatility | goal_checker.py:47-49 | the weighted volatility is the sum of `percent / 100 * volatility` over the allocation |
| GoalChecker.WeightedSumNonNegative | goal_checker.py:47-49 | non-negative weights and values give a non-negative weighted sum |
| GoalChecker.NonNegativeVolatility | goal_checker.py:42-49 | a listed allocation with non-negative weights over non-negative volatilities has a non-negative weighted volatility |
| GoalChecker.WeightedProfile | goal_checker.py:42-49 | the accumulating loop computes `WeightedProfileOf`, return and volatility alike |
| GoalChecker.Compound | goal_checker.py:21-23 | a zero start stays zero |
| GoalChecker.YearlyGrowth | goal_checker.py:20 | one growth rate per year of draws |
| GoalChecker.CompoundScales | goal_checker.py:21-23 | a run's end value is proportional to the starting capital |
| GoalChecker.CompoundZeroIff | goal_checker.py:21-23 | a run ends at zero exactly when the start is zero or some year grows by -100 % |
| GoalChecker.CompoundPositive | goal_checker.py:21-23 | a positive start stays positive while every year grows by more than -100 % |
| GoalChecker.CompoundCanGoNegative | goal_checker.py:21-23 | a year below -100 % turns a positive value negative: no clamping |
| GoalChecker.Simulation | goal_checker.py:18-25 | ValueError exactly when runs are drawn with a negative volatility; otherwise exactly `num_simulations` values, each the investment times the product of `(1 + g)` over its run |
| GoalChecker.MonteCarloSimulation | goal_checker.py:18-25 | the nested loops compute `Simulation`; `monte_carlo_simulation_multi` (goal_checker_multi.py lines 6-14) is the same code, so the multi-goal checker calls this method too |
| GoalChecker.ReportOf | goal_checker.py:55-72 | echoes investment, goal and timeline; the probability is the success percentage of the projections, in [0, 100]; "achievable" iff probability >= 75; the median and the (25, 75) percentiles of the projections, with p25 <= median <= p75 |
| GoalChecker.Feasibility | goal_checker.py:27-74 | succeeds exactly when every asset is listed and the weighted volatility is non-negative; an unlisted asset gives IndexError; with every asset listed, a failure is the ValueError of a negative weighted volatility; only IndexError or ValueError can occur |
| GoalChecker.CheckGoalFeasibility | goal_checker.py:27-74 | the weighting loop, simulation and report compute `Feasibility` with 1000 runs |
| GoalChecker.FeasibleExactlyWhenListed | goal_checker.py:27-74 | with non-negative weights and volatilities, the check succeeds exactly when every allocated asset is listed |
| GoalChecker.FeasibilityProbabilityAntitone | goal_checker.py:55-56 | for the same inputs and draws, a higher goal never raises the probability of success |
| GoalCheckerMulti.AddTo | goal_checker_multi.py:28 | `allocation[key] += delta` is a KeyError for a missing key; otherwise it keeps the keys, adds delta to that key only and adds delta to the total |
| GoalCheckerMulti.Tilt | goal_checker_multi.py:26-32 | a successful tilt keeps the keys and the total; a priority other than "high" or "low" leaves the copy unchanged |
| GoalCheckerMulti.TiltOkIff | goal_checker_multi.py:27-32 | the tilt succeeds exactly when its two keys exist; otherwise a KeyError for the first missing key, in the order the code touches them |
| GoalCheckerMulti.HighPriorityTilt | goal_checker_multi.py:27-29 | "high" adds 0.1 to bonds and takes 0.1 from crypto; every other entry is unchanged |
| GoalCheckerMulti.LowPriorityTilt | goal_checker_multi.py:30-32 | "low" adds 0.1 to stocks and takes 0.1 from bonds; every other entry is unchanged |
| GoalCheckerMulti.ResultOf | goal_checker_multi.py:50-62 | echoes goal amount, timeline and priority; the probability is the success percentage of the net values, in [0, 100]; "Goal is achievable" iff >= 75, the other text iff < 75; the median and the (25, 75) percentiles of the net values, with p25 <= median <= p75 |
| GoalCheckerMulti.NetProjections | goal_checker_multi.py:35-47 | the errors in the order the code meets them: an unlisted asset gives IndexError, a negative weighted volatility ValueError, a missing tax rate its KeyError, -100 % inflation over a positive horizon ZeroDivisionError; succeeds exactly when none applies, with 1000 net values |
| GoalCheckerMulti.GoalOutcome | goal_checker_multi.py:20-62 | a failed tilt's error is the goal's error; after the tilt, the net projections' error is the goal's error; otherwise a result echoing the goal, whose probability, median and range are those of the net values |
| GoalCheckerMulti.GoalOutcomeAgreesWithNetProjections | goal_checker_multi.py:18-50 | a goal's probability, median and range are what `calculate_net_projections` gives for the same run from the same investment, with the goal's own timeline as simulation horizon, holding period and inflation horizon |
| GoalCheckerMulti.GoalOutcomes | goal_checker_multi.py:19-62 | one outcome per goal |
| GoalCheckerMulti.MultiGoalResults | goal_checker_multi.py:17-64 | the results have exactly the goal names as keys, in order; each entry is that goal's outcome computed from the caller's unmodified allocation and the same investment |
| GoalCheckerMulti.MultiGoalFeasibility | goal_checker_multi.py:16-64 | succeeds exactly when every goal's outcome does |
| GoalCheckerMulti.FirstFailingGoal | goal_checker_multi.py:19-62 | a failing call fails with the error of the first failing goal, all earlier goals having succeeded |
| GoalCheckerMulti.AddToEntry | goal_checker_multi.py:28 | the update of one entry of the copy, modelled on values, computes `AddTo` |
| GoalCheckerMulti.TiltCopy | goal_checker_multi.py:26-32 | copying the allocation and updating the copy, modelled on values, computes `Tilt` |
| GoalCheckerMulti.ProjectNet | goal_checker_multi.py:35-47 | weighting, simulation, tax and inflation compute `NetProjections` |
| GoalCheckerMulti.CheckGoal | goal_checker_multi.py:20-62 | one iteration of the goal loop computes `GoalOutcome` |
| GoalCheckerMulti.CheckMultiGoalFeasibility | goal_checker_multi.py:16-64 | the loop filling `results` computes `MultiGoalFeasibility` |
| RecommendationEngine.AtLeast | recommendation_engine.py:41 | Python's `>=`: numbers compare numerically; a string is `>=` another exactly when it is not lexicographically below it; a pair compares its first items, then its second; any other mix is a TypeError |
| RecommendationEngine.AtLeastReflexive | recommendation_engine.py:43 | every comparable value is `>=` itself |
| RecommendationEngine.TextLessIrreflexive | recommendation_engine.py:43 | no string is below itself |
| RecommendationEngine.SingleGoalRecommendation | recommendation_engine.py:27-48 | reads success_probability, goal_amount and median_projection in that order (KeyError for the first one missing); a result is one of the three texts |
| RecommendationEngine.TiersDistinct | recommendation_engine.py:41-48 | the three texts differ |
| RecommendationEngine.RecommendationTiers | recommendation_engine.py:41-48 | with numeric fields: "feasible" iff probability >= 75; "median above goal" iff below 75 and median >= goal; "not achievable" iff below 75 and median < goal |
| RecommendationEngine.FeasibleRegardlessOfMedian | recommendation_engine.py:41-42 | probability >= 75 gives "feasible" whatever the median |
| RecommendationEngine.PerGoalRecommendations | recommendation_engine.py:22-23 | one recommendation per goal |
| RecommendationEngine.Recommendations | recommendation_engine.py:4-25 | with success_probability present, succeeds exactly when that report's recommendation does, under the only key "Goal", and otherwise fails with that recommendation's error; without it, succeeds exactly when every entry's recommendation does |
| RecommendationEngine.MultiGoalDispatch | recommendation_engine.py:20-23 | without success_probability, the result succeeds exactly when every entry's recommendation does, and then has exactly the input keys, in order, each holding that entry's recommendation |
| RecommendationEngine.MultiGoalFirstError | recommendation_engine.py:20-23 | a failing multi-goal call fails with the error of the first entry whose recommendation fails, all earlier ones having succeeded |
| RecommendationEngine.GenerateRecommendations | recommendation_engine.py:4-25 | the dict-filling code computes `Recommendations` |
| RecommendationEngine.SummaryEntryOf | recommendation_engine.py:88-95 | reads the five fields in the literal's order, with a KeyError for the first missing one; copies each field, success_probability into probability_of_success |
| RecommendationEngine.GoalSummary | recommendation_engine.py:99-108 | a failing recommendation is the entry's error; then a single list of runs is a TypeError and a goal name missing from `projections` is KeyError(goal name); a built entry carries the recommendation |
| RecommendationEngine.PerGoalSummaries | recommendation_engine.py:99-108 | one entry per goal |
| RecommendationEngine.SingleSummaryCopies | recommendation_engine.py:84-95 | a single report's summary copies initial_investment, goal_amount, median_projection and projection_range, copies success_probability into probability_of_success, and adds the recommendation |
| RecommendationEngine.PerGoalSummaryCopies | recommendation_engine.py:96-108 | a multi-goal summary has exactly the goal names as keys; each entry copies that goal's initial_investment, goal_amount, success_probability, median_projection and projection_range and carries its recommendation |
| RecommendationEngine.MissingInitialInvestment | recommendation_engine.py:102 | the first goal whose entry lacks initial_investment stops the summary with KeyError('initial_investment') |
| RecommendationEngine.CreateSummaryOf | recommendation_engine.py:71-110 | a single report is summarised exactly when its recommendation and all five fields exist, as a single summary; a multi-goal dict exactly when every goal's entry can be built, as a per-goal summary |
| RecommendationEngine.CreateSummary | recommendation_engine.py:71-110 | the dict-filling code computes `CreateSummaryOf` |
| RiskProfiler.AgeFactor | risk_profiler.py:17 | the age factor is never negative, lies in [0, 1] for a non-negative age, and is 0 from age 100 on |
| RiskProfiler.AgeFactorAntitone | risk_profiler.py:17 | an older investor never gets a larger age factor |
| RiskProfiler.StabilityFactor | risk_profiler.py:18 | the stability factor lies in [0.5, 1] |
| RiskProfiler.ToleranceFactor | risk_profiler.py:19 | the tolerance factor lies in [0.5, 1] |
| RiskProfiler.StabilityFactorValues | risk_profiler.py:18 | "stable" is 1.0, "moderate" 0.75, an unknown string defaults to 0.5; always in [0.5, 1] |
| RiskProfiler.ToleranceFactorValues | risk_profiler.py:19 | "low" is 0.5, "high" 1.0, an unknown string defaults to 0.75; always in [0.5, 1] |
| RiskProfiler.RiskProfile | risk_profiler.py:4-23 | the score is never negative, lies in [0, 1] for a non-negative age, and is 0 from age 100 on |
| RiskProfiler.RiskProfileAntitoneInAge | risk_profiler.py:17-22 | with the same stability and tolerance, an older investor never scores higher |
| RiskProfiler.Adjusted | risk_profiler.py:41-52 | the adjustment keeps one entry per base asset |
| RiskProfiler.AdjustmentRules | risk_profiler.py:38-52 | the keys are the four base keys; stocks gain risk*0.1 iff the NSEI mean is positive; bonds lose (1 - risk)*0.1; real estate loses 0.05 iff risk < 0.5; crypto gains 0.05 iff risk > 0.7 |
| RiskProfiler.Percentages | risk_profiler.py:56 | normalising keeps the keys and their order |
| RiskProfiler.PercentagesSum | risk_profiler.py:56 | the percentages add up to the sum divided by the total, times 100 |
| RiskProfiler.Normalised | risk_profiler.py:55-56 | an empty dict stays empty; ZeroDivisionError exactly when a non-empty dict's values add up to zero; otherwise the keys are kept, each value becomes its share of the total times 100, and the values add up to 100 |
| RiskProfiler.DynamicAllocationOf | risk_profiler.py:25-58 | for a non-negative score the total is positive, so no ZeroDivisionError; the output has the four base keys, each value is the adjusted value's share of the adjusted total times 100, every share is positive for a non-negative score, and they sum to 100 |
| RiskProfiler.DynamicAllocation | risk_profiler.py:25-58 | the in-place adjustment loop and the normalisation compute `DynamicAllocationOf`, which does not depend on `financial_data` |
| Pipeline.Records | goal_checker_multi.py:53-62 | the results dict, seen as Python values, keeps the goal names as keys |
| Pipeline.CorrectedRecords | goal_checker_multi.py:53-62 | the corrected results dict keeps the goal names as keys |
| Pipeline.MedianProjections | script.py:46 | the plot's runs are keyed by the goal names |
| Pipeline.ResultRecord | goal_checker_multi.py:53-62 | a written entry holds the probability, the goal amount, the median and the range, but no initial_investment |
| Pipeline.CorrectedRecord | goal_checker_multi.py:53-62 | the corrected entry also holds initial_investment, set to the investment |
| Pipeline.AsWrittenSummaryFails | recommendation_engine.py:102 | summarising any non-empty results dict as written fails with KeyError('initial_investment') |
| Pipeline.CorrectedSummary | recommendation_engine.py:96-108 | with the corrected entries every goal is summarised, under its own name and in order, with the investment and its success probability |
| Pipeline.CorrectedGoalSummary | recommendation_engine.py:99-108 | each corrected goal entry yields a summary entry |
| Pipeline.GoalNamesSummarised | script.py:46-47 | results keyed by the goal names are summarised under those names |
| Pipeline.CorrectedSummaryBuilt | recommendation_engine.py:96-108 | the corrected results take the multi-goal branch, and their summary succeeds |
| Pipeline.CorrectedEntriesBuilt | recommendation_engine.py:99-108 | every corrected goal entry can be summarised |
| Pipeline.ProfiledAllocation | script.py:36-37 | the allocation for any profile exists, has the four base assets, gives each a positive share and adds up to 100 |
| Pipeline.CheckedGoalsSummarised | script.py:41-47 | once every goal has been checked, the corrected summary has exactly the goal names as keys |
| Pipeline.Pipeline | script.py:22-48 | the corrected run, whose results entries carry initial_investment (see Findings): it fails with the goal checker's error whenever that fails; otherwise, with distinct goal names none of which is success_probability, it summarises every goal under its name |

## Left out

- Rounding: `round(..., 2)` on the risk score, the allocation percentages and every reported figure is not modelled; all results are stated before rounding, over exact reals.
- Floating point: IEEE effects (overflow, NaN arithmetic, loss of precision) are not modelled. The one NaN the code meets on purpose is kept: the mean of an empty NSEI selection is `None` in `RiskProfiler.PositiveSentiment` and compares false.
- Randomness: `np.random.normal` is replaced by standard-normal draws passed in; seeding and reproducibility are outside the model.
- Horizons: `timeline_years` and `holding_period` are natural numbers; negative or fractional horizons are not modelled.
- DataFrames: the financial table is a sequence of `(ticker, return, volatility)` rows, so a table without a `ticker` column (a KeyError at goal_checker.py:45 and goal_checker_multi.py:38) is not modelled; the sentiment table is reduced to the mean NSEI sentiment, an input.
- `visualize_projections` and the plotting inside `create_summary`: matplotlib output, not logic.
- `data_fetcher.py`: network download and dates; it is not part of this model.
- `script.py`: the pickle cache, file checks and printing are not modelled; only the wiring of the modules is, in its corrected form (`Pipeline.Pipeline`).
- Pipeline.Pipeline: models the corrected run, in which each results entry carries initial_investment. The run as written passes the results of `check_multi_goal_feasibility` straight to `create_summary` (script.py:46-47) and stops with KeyError('initial_investment') once any goal has been checked; that run is stated by `Pipeline.AsWrittenSummaryFails` (see Findings), not by `Pipeline.Pipeline`.
- Module-level example code in every file: demonstration runs, not logic.
- RecommendationEngine.AtLeast: comparisons between an int and a bool, None, or a nested dict are not distinguished from other mixes; all give TypeError.
- numpy failures other than the negative standard deviation (`ValueError`) are not modelled.
- GoalCheckerMulti.Goal: a goal is a datatype with its amount, timeline and priority, so the KeyError for a goal dict missing `goal_amount`, `timeline_years` or `priority` (goal_checker_multi.py:21-23) is not modelled.
- TaxAdjustment.AdjustForInflation: at -100 % inflation over a positive horizon the model raises ZeroDivisionError, as Python floats do. The simulated end values are numpy floats, for which the same division returns an infinity or NaN with a warning; infinities are outside a model over reals.

## Findings

| source | as written | input that shows it | evidently intended | confidence | as-written member | corrected member |
|---|---|---|---|---|---|---|
| recommendation_engine.py:102 | `create_summary` reads `goal_data['initial_investment']` for every goal of a multi-goal result, but `check_multi_goal_feasibility` (goal_checker_multi.py:53-62) never writes that key, and `script.py:46-47` passes its results straight to `create_summary` | any non-empty results dict that `check_multi_goal_feasibility` returns, unless a goal is named `success_probability` | each goal's entry carries the investment it was simulated from, so the summary lists every goal | not executed | Pipeline.AsWrittenSummaryFails | Pipeline.CorrectedSummary |

# Process Behaviour Chart engine — a Dafny model

This project models the analysis engine of a Process Behaviour Chart
(XmR chart) service for agile delivery metrics. The engine is four Python
services and their records:

- **PBC calculator**: moving ranges, natural process limits, sigma lines,
  and baseline-period validation and recommendation.
- **Signal detector**: the four Western Electric detection rules.
- **Throughput calculator**: sorts completed items by time and groups them
  into daily, weekly or monthly periods. It computes throughput statistics,
  turns the periods into chart points and writes recommendations.
- **Dynamic baseline calculator**: data stability, process-change
  detection, weekly/monthly seasonality, signal density, variation trend,
  the baseline recommendation and the evaluation of alternative baseline
  periods.

Each service is a Dafny module. The records of
`backend/app/models/data_models.py` become datatypes in `DataModels`.

- **Pure code** is modelled by functions, with lemmas that state what the
  code promises.
- **Code that loops and accumulates** is modelled by a `method` with the
  same loop. Its `ensures` ties the result to a specification function.
  This covers moving ranges, the rules' scans, period grouping and its
  trailing-empty pop, change detection, seasonality grouping, moving
  deviations, alternative baselines and the recommendation's stages.
- **Errors** the code raises are `Failure` values of a `Result`.

Modelling choices that shape the contracts:

- **Numbers and time.** Floats are exact `real`s. Timestamps are whole
  seconds since 0001-01-01 00:00. Day 0 is a Monday, matching
  `datetime.weekday()`. Month arithmetic follows the Gregorian calendar.
- **`statistics.stdev`** needs a square root, so it is a parameter
  `stdev`. `Stats.IsStdev` characterises it: non-negative, its square is
  the sample variance, and zero exactly when the variance is.
- **Signal detector builds.** `detect_all_signals` calls a method the
  class does not have, and rules 2–4 build `Signal` with a field name the
  record does not accept (see Findings). The detector is therefore chosen
  by a `DetectorBuild` argument:
  - `AsWrittenBuild` raises, as the code does.
  - `IntendedBuild` returns the signals the rules describe.

  The dynamic baseline's density and alternative-baseline evaluation are
  proved for both builds.

## Model

| member | source | states |
|---|---|---|
| PbcCalculator.MovingRanges | backend/app/services/pbc_calculator.py:13-29 | fewer than 2 points give no ranges; otherwise n−1 ranges, range i is the absolute change from point i to i+1, all non-negative |
| PbcCalculator.CalculateMovingRanges | backend/app/services/pbc_calculator.py:18-29 | the loop collects exactly the moving ranges of the data |
| PbcCalculator.NaturalProcessLimitsSpec | backend/app/services/pbc_calculator.py:31-93 | limits exist iff there are ≥3 points that are not all equal; fewer than 3 is TooFewPoints, no variation is AllMovingRangesZero; on success: average is the mean, mR̄ the mean moving range and positive, upper = avg + 2.66·mR̄, lower = max(0, avg − 2.66·mR̄), URL = 3.27·mR̄, lower ≥ 0, average < upper |
| PbcCalculator.LimitsEncloseAverage | backend/app/services/pbc_calculator.py:72-73 | on non-negative data, 0 ≤ lower ≤ average < upper |
| PbcCalculator.VariationGivesPositiveRange | backend/app/services/pbc_calculator.py:55-68 | data with variation has a non-zero moving range and a positive mR̄, so the "no moving ranges" and "mR̄ is zero" errors never fire |
| PbcCalculator.NoVariationGivesZeroRanges | backend/app/services/pbc_calculator.py:59-60 | data without variation has only zero moving ranges |
| PbcCalculator.SigmaLinesOf | backend/app/services/pbc_calculator.py:95-112 | sigma = mR̄·2.66/3; one/two-sigma upper lines are avg + sigma/2·sigma, lower lines clamped at 0; on non-negative limits the lines nest around the average |
| PbcCalculator.ValidateBaselinePeriod | backend/app/services/pbc_calculator.py:114-130 | valid iff 3 ≤ period ≤ data length; below 3 is BaselineTooShort, above the length BaselineTooLong |
| PbcCalculator.RecommendBaselinePeriod | backend/app/services/pbc_calculator.py:132-150 | the recommendation is in [3, 20]: all the data up to 20 points, 20 beyond, 3 below 3; it passes validation iff the length is ≥ 3 |
| SignalDetector.DetectRule1 | backend/app/services/signal_detector.py:26-39 | the scan returns the rule-1 signals of the data |
| SignalDetector.Rule1Exact | backend/app/services/signal_detector.py:30-37 | each rule-1 signal is one point outside the limits, severity "high", in index order, and every point outside the limits has its signal |
| SignalDetector.CountsDisjoint | backend/app/services/signal_detector.py:50-60 | a window cannot have more values above the upper line plus below the lower line than it has values |
| SignalDetector.DetectRule2 | backend/app/services/signal_detector.py:41-69 | the scan returns the 3-point-window zone signals at the two-sigma lines; fewer than 3 points give none |
| SignalDetector.DetectRule3 | backend/app/services/signal_detector.py:71-99 | the scan returns the 5-point-window zone signals at the one-sigma lines; fewer than 5 points give none |
| SignalDetector.ZoneSound | backend/app/services/signal_detector.py:45-67 | every zone signal reports a window that fires above or below |
| SignalDetector.ZoneComplete | backend/app/services/signal_detector.py:45-67 | a window's signal is reported iff the window fires |
| SignalDetector.ZoneOrdered | backend/app/services/signal_detector.py:45 | zone signals come in window order |
| SignalDetector.ZoneRulesOneSided | backend/app/services/signal_detector.py:137-145 | with the nested sigma lines no window of rule 2 or rule 3 fires on both sides, so window starts strictly increase |
| SignalDetector.ZoneSignalsEmpty | backend/app/services/signal_detector.py:45-69 | a zone rule reports nothing iff no window fires on either side |
| SignalDetector.DetectRule4 | backend/app/services/signal_detector.py:101-135 | the run-tracking loop returns one signal per maximal same-side run of 8 or more, with a value equal to the average counted as below |
| SignalDetector.Rule4Sound | backend/app/services/signal_detector.py:108-133 | every rule-4 signal covers a maximal run of ≥8 values on one side |
| SignalDetector.Rule4Complete | backend/app/services/signal_detector.py:108-133 | every maximal run of ≥8 values is reported |
| SignalDetector.Rule4Ordered | backend/app/services/signal_detector.py:108-133 | rule-4 signals are disjoint and in order |
| SignalDetector.Rule4Empty | backend/app/services/signal_detector.py:101-135 | rule 4 reports nothing iff there is no maximal run of 8 or more |
| SignalDetector.AllSignalsWithin | backend/app/services/signal_detector.py:7-24 | every index any rule reports lies in the data |
| SignalDetector.DetectAllSignals | backend/app/services/signal_detector.py:7-24 | the intended detector concatenates rules 1–4 in order, all indices within the data |
| SignalDetector.DetectAllSignalsAsWritten | backend/app/services/signal_detector.py:10 | as written, detection always fails with AttributeError |
| SignalDetector.Rule2AsWritten | backend/app/services/signal_detector.py:52-67 | as written, rule 2 succeeds (with no signals) iff no window fires |
| SignalDetector.Rule3AsWritten | backend/app/services/signal_detector.py:82-97 | as written, rule 3 succeeds (with no signals) iff no window fires |
| SignalDetector.Rule4AsWritten | backend/app/services/signal_detector.py:114-133 | as written, rule 4 succeeds (with no signals) iff there is no run of 8 |
| SignalDetector.Rule2AsWrittenRaises | backend/app/services/signal_detector.py:52-57 | three equal points above the two-sigma line: the intended rule reports one signal, the code raises ValidationError |
| SignalDetector.Rule3AsWrittenRaises | backend/app/services/signal_detector.py:82-87 | five equal points above the one-sigma line: the intended rule reports one signal, the code raises ValidationError |
| SignalDetector.Rule4AsWrittenRaises | backend/app/services/signal_detector.py:127-133 | eight points above the average: the intended rule reports the run, the code raises ValidationError |
| SignalDetector.DetectAllAsWrittenFails | backend/app/services/signal_detector.py:10 | one point outside the limits: the intended detector reports it, the code raises AttributeError |
| Calendar.PeriodContains | backend/app/services/throughput_calculator.py:136-164 | a period start is at midnight, at or before the instant, its period ends after the instant, and a weekly start is a Monday |
| Calendar.DailyEndIsNextStart | backend/app/services/throughput_calculator.py:152-153 | a day ends one day later, at the next day's start |
| Calendar.WeeklyEndIsNextStart | backend/app/services/throughput_calculator.py:154-155 | a week ends seven days later, at the next Monday |
| Calendar.MonthlyEndIsNextStart | backend/app/services/throughput_calculator.py:156-162 | a month period always ends at midnight on the first day of the next month index (with `NextMonth`, January of the next year after December), which is itself a month start at least a day later |
| Calendar.NextMonth | backend/app/services/throughput_calculator.py:158-161 | after December comes January of the next year, otherwise the next month of the same year |
| Calendar.MonthOfUnique | backend/app/services/throughput_calculator.py:146 | the month containing a day is unique |
| Text.ParseNatToString | backend/app/services/throughput_calculator.py:181 | the decimal rendering of a count reads back as that count |
| Text.NatToStringInjective | backend/app/services/throughput_calculator.py:181 | distinct counts render as distinct texts |
| ThroughputCalculator.SortByTime | backend/app/services/throughput_calculator.py:47 | the items in timestamp order, a permutation of the input |
| ThroughputCalculator.SortByTimeStable | backend/app/services/throughput_calculator.py:47 | items with the same timestamp keep their input order, as Python's stable sort does |
| ThroughputCalculator.ItemsIn | backend/app/services/throughput_calculator.py:109-112 | the selected items are from the data and inside [start, end) |
| ThroughputCalculator.CountSplit | backend/app/services/throughput_calculator.py:109-112 | counting over [lo, hi) is counting over [lo, mid) plus [mid, hi) |
| ThroughputCalculator.ItemName | backend/app/services/throughput_calculator.py:120 | an item's name is its label when it has a non-empty one, and "Item-i" (its position in the period) when the label is missing or empty; never empty |
| ThroughputCalculator.ItemNames | backend/app/services/throughput_calculator.py:119-122 | one non-empty name per item, in item order: its own label whenever that is non-empty, else "Item-k" for its position k |
| ThroughputCalculator.GroupByPeriod | backend/app/services/throughput_calculator.py:88-134 | the grouping method computes the period series of the sorted items |
| ThroughputCalculator.CollectPeriods | backend/app/services/throughput_calculator.py:102-128 | the loop emits one period point per period from the first start up to the last timestamp |
| ThroughputCalculator.PopEmptyPeriods | backend/app/services/throughput_calculator.py:130-131 | the loop drops exactly the trailing empty periods |
| ThroughputCalculator.DropTrailingEmpty | backend/app/services/throughput_calculator.py:130-131 | the result is a prefix that ends in a non-empty period (or is empty), and everything dropped was empty |
| ThroughputCalculator.DropTrailingEmptySum | backend/app/services/throughput_calculator.py:130-131 | dropping trailing empty periods keeps the total count |
| ThroughputCalculator.PeriodsFromSpan | backend/app/services/throughput_calculator.py:105-127 | consecutive periods are contiguous, each ending where the next starts, and the last covers the end date |
| ThroughputCalculator.PeriodsFromWellFormed | backend/app/services/throughput_calculator.py:106-124 | each period point has a well-formed start and end, counts the items in it and names them |
| ThroughputCalculator.PeriodsFromCount | backend/app/services/throughput_calculator.py:105-127 | the periods' counts sum to the number of items from the first start to the end date |
| ThroughputCalculator.GroupedShape | backend/app/services/throughput_calculator.py:88-134 | on sorted non-empty data: periods start at the first item's period, first and last are non-empty, they are contiguous and well formed; empty periods in between are kept |
| ThroughputCalculator.GroupedTotal | backend/app/services/throughput_calculator.py:88-134 | every item is counted in exactly one period: the counts sum to the number of items |
| ThroughputCalculator.ThroughputAnalysisFails | backend/app/services/throughput_calculator.py:41-42 | analysis succeeds iff there are ≥3 items; fewer is TooFewPoints |
| ThroughputCalculator.ThroughputAnalysisCounts | backend/app/services/throughput_calculator.py:47-86 | the periods are the grouping of the sorted items, total items is the input size, there is at least one period and the counts sum to the item total |
| ThroughputCalculator.ThroughputAnalysisStatistics | backend/app/services/throughput_calculator.py:58-71 | min ≤ average ≤ max and min ≤ median ≤ max, max ≥ 1, average = items / periods, predictability ≥ 0 |
| ThroughputCalculator.PredictabilityBounds | backend/app/services/throughput_calculator.py:63-71 | predictability lies in [0, 1] and is 1 for a constant positive series |
| ThroughputCalculator.CreateThroughputPbcData | backend/app/services/throughput_calculator.py:166-184 | one chart point per period: value = item count, timestamp = period midpoint, label "Title i: count items" |
| ThroughputCalculator.MidpointInside | backend/app/services/throughput_calculator.py:175-176 | the midpoint of a grouped period lies strictly inside it and is its exact midpoint |
| ThroughputCalculator.GenerateThroughputRecommendations | backend/app/services/throughput_calculator.py:186-232 | the messages are, in order, those whose condition holds: predictability < 0.7, max > 2·average, a high-severity signal, > 20% zero periods, < 10 periods |
| ThroughputCalculator.RecommendationsSpec | backend/app/services/throughput_calculator.py:194-232 | at most five messages, each present iff its condition holds |
| ThroughputCalculator.FilterHigh | backend/app/services/throughput_calculator.py:209-211 | there are high-severity signals iff some signal has severity "high" |
| ThroughputCalculator.MoreDataMessageDistinct | backend/app/services/throughput_calculator.py:226-230 | the "more data" message differs from the other four, so each message identifies its condition |
| DynamicBaselineCalculator.ClassifyStability | backend/app/services/dynamic_baseline_calculator.py:158-167 | Stable iff score ≥ 0.8, Improving iff in [0.6, 0.8), Degrading iff in [0.4, 0.6), Unstable iff < 0.4 |
| DynamicBaselineCalculator.ClassifyMonotone | backend/app/services/dynamic_baseline_calculator.py:158-167 | a higher score never gets a worse class |
| DynamicBaselineCalculator.SlopeDefined | backend/app/services/dynamic_baseline_calculator.py:143-146 | from two points on the regression denominator is positive, so the "denominator is zero" branch never fires |
| DynamicBaselineCalculator.TrendStability | backend/app/services/dynamic_baseline_calculator.py:129-156 | trend stability is in [0, 1] and 1 below 3 values |
| DynamicBaselineCalculator.TrendStabilityOfConstant | backend/app/services/dynamic_baseline_calculator.py:149-151 | a constant series has trend stability 1 |
| DynamicBaselineCalculator.RangeConsistency | backend/app/services/dynamic_baseline_calculator.py:105-115 | consistency is non-negative, and 1 unless there are ≥2 moving ranges with a positive mean |
| DynamicBaselineCalculator.CalculateDataStability | backend/app/services/dynamic_baseline_calculator.py:87-127 | the method computes the weighted stability score, which lies in [0, 1] |
| DynamicBaselineCalculator.DataStabilityScore | backend/app/services/dynamic_baseline_calculator.py:87-127 | the score is in [0, 1] and 0 below 3 values |
| DynamicBaselineCalculator.ConstantDataFullyStable | backend/app/services/dynamic_baseline_calculator.py:97-127 | a constant series of ≥3 values has stability 1 |
| DynamicBaselineCalculator.ChangeWindow | backend/app/services/dynamic_baseline_calculator.py:180 | the window is at least 6 and at least n/4 |
| DynamicBaselineCalculator.DetectProcessChanges | backend/app/services/dynamic_baseline_calculator.py:169-207 | the method computes the filtered change points |
| DynamicBaselineCalculator.FindCandidates | backend/app/services/dynamic_baseline_calculator.py:182-199 | the scan collects the flagged indices in [w, n−w) |
| DynamicBaselineCalculator.SeparateNearby | backend/app/services/dynamic_baseline_calculator.py:201-205 | the loop keeps a candidate iff no kept one is within 3 |
| DynamicBaselineCalculator.CandidatesComplete | backend/app/services/dynamic_baseline_calculator.py:182-199 | every flagged index in range is a candidate |
| DynamicBaselineCalculator.SeparateSpaced | backend/app/services/dynamic_baseline_calculator.py:201-205 | kept change points are at least 3 apart |
| DynamicBaselineCalculator.SeparateCovers | backend/app/services/dynamic_baseline_calculator.py:201-205 | every candidate is kept or within 3 of a kept one |
| DynamicBaselineCalculator.ProcessChangesShape | backend/app/services/dynamic_baseline_calculator.py:176-207 | below 12 values there are none; change points are ascending, spaced by ≥3 and inside [w, n−w) |
| DynamicBaselineCalculator.ProcessChangesPass | backend/app/services/dynamic_baseline_calculator.py:187-199 | every reported change point is a mean shift of more than 2 pooled deviations |
| DynamicBaselineCalculator.ProcessChangesComplete | backend/app/services/dynamic_baseline_calculator.py:182-205 | every mean shift in range is reported or lies within 3 of a reported one |
| DynamicBaselineCalculator.ConstantDataNoChanges | backend/app/services/dynamic_baseline_calculator.py:196-199 | a constant series has no change points |
| DynamicBaselineSeasonality.WeekOfMonth | backend/app/services/dynamic_baseline_calculator.py:301 | the week of month is 1–5, and 5 exactly for days 29–31 |
| DynamicBaselineSeasonality.GroupBy | backend/app/services/dynamic_baseline_calculator.py:259-262 | the loop builds the groups of values keyed by weekday or week of month |
| DynamicBaselineSeasonality.GroupsOfComplete | backend/app/services/dynamic_baseline_calculator.py:259-262 | every value is in the group of its key |
| DynamicBaselineSeasonality.GroupsOfKeys | backend/app/services/dynamic_baseline_calculator.py:299-302 | every group's key is the key of some point |
| DynamicBaselineSeasonality.GroupsOfValues | backend/app/services/dynamic_baseline_calculator.py:299-302 | every grouped value is the value of some point |
| DynamicBaselineSeasonality.GroupsOfIsFilter | backend/app/services/dynamic_baseline_calculator.py:259-262 | the list under each key is exactly the values of the points with that key, in input order, and empty for a key no point has |
| DynamicBaselineSeasonality.GroupStatistics | backend/app/services/dynamic_baseline_calculator.py:268-272 | the loop takes the mean and variance of each group with more than one value |
| DynamicBaselineSeasonality.SeasonalStrength | backend/app/services/dynamic_baseline_calculator.py:274-291 | strength is in [0, 1] and 0 with too few groups |
| DynamicBaselineSeasonality.PureSeasonalStrength | backend/app/services/dynamic_baseline_calculator.py:284-291 | with differing group means and no spread within groups the strength is 1 |
| DynamicBaselineSeasonality.FlatSeasonalStrength | backend/app/services/dynamic_baseline_calculator.py:284-291 | with equal group means and no spread the strength is 0 |
| DynamicBaselineSeasonality.CalculateWeeklySeasonality | backend/app/services/dynamic_baseline_calculator.py:253-291 | weekly strength is in [0, 1] |
| DynamicBaselineSeasonality.WeeklyStrength | backend/app/services/dynamic_baseline_calculator.py:253-256 | weekly strength is 0 below 14 points |
| DynamicBaselineSeasonality.CalculateMonthlySeasonality | backend/app/services/dynamic_baseline_calculator.py:293-326 | monthly strength is in [0, 1] |
| DynamicBaselineSeasonality.MonthlyStrength | backend/app/services/dynamic_baseline_calculator.py:293-296 | monthly strength is 0 below 60 points |
| DynamicBaselineSeasonality.Patterns | backend/app/services/dynamic_baseline_calculator.py:233-244 | dominant is weekly iff weekly > 0.3, monthly iff weekly ≤ 0.3 < monthly, never quarterly; "weekly"/"monthly" are listed iff their strength > 0.2 |
| DynamicBaselineSeasonality.SeasonalityOf | backend/app/services/dynamic_baseline_calculator.py:209-251 | both strengths in [0, 1]; weekly is 0 below 14 points, monthly below 60; the pattern follows from the strengths |
| DynamicBaselineSeasonality.AnalyzeSeasonality | backend/app/services/dynamic_baseline_calculator.py:209-251 | the method returns the seasonality analysis |
| DynamicBaselineSeasonality.DominantIsDetected | backend/app/services/dynamic_baseline_calculator.py:233-244 | a dominant pattern is always among the detected patterns |
| DynamicBaselineSeasonality.ConstantDataNotSeasonal | backend/app/services/dynamic_baseline_calculator.py:209-326 | a constant series has zero strengths, no dominant and no detected pattern |
| DynamicBaselineMetrics.Detect | backend/app/services/dynamic_baseline_calculator.py:339 | the as-written detector fails with AttributeError, the intended one returns all signals with in-range indices |
| DynamicBaselineMetrics.SignalPointsComplete | backend/app/services/dynamic_baseline_calculator.py:342 | the union holds every point of every signal |
| DynamicBaselineMetrics.PointDensity | backend/app/services/dynamic_baseline_calculator.py:342-343 | the share of flagged points is in [0, 1] |
| DynamicBaselineMetrics.PointDensityAtLeastOne | backend/app/services/dynamic_baseline_calculator.py:342-343 | one flagged point makes the share at least 1/n |
| DynamicBaselineMetrics.SignalDensityOf | backend/app/services/dynamic_baseline_calculator.py:328-349 | density is in [0, 1], 0 below 6 values, and always 0 with the as-written detector (its error is caught) |
| DynamicBaselineMetrics.ConstantDataNoDensity | backend/app/services/dynamic_baseline_calculator.py:338 | a constant series has density 0 (its limits raise) |
| DynamicBaselineMetrics.IntendedDensity | backend/app/services/dynamic_baseline_calculator.py:335-345 | with the intended detector the density is the share of points flagged against the baseline's limits |
| DynamicBaselineMetrics.OutlierRaisesDensity | backend/app/services/dynamic_baseline_calculator.py:335-345 | a point outside the baseline's limits makes the intended density at least 1/n |
| DynamicBaselineMetrics.MovingStdevs | backend/app/services/dynamic_baseline_calculator.py:358-362 | one deviation per window values[j .. j+2w], n−2w+1 of them |
| DynamicBaselineMetrics.TrendOfSlope | backend/app/services/dynamic_baseline_calculator.py:385-390 | Increasing iff normalised slope > 0.1, Decreasing iff < −0.1 |
| DynamicBaselineMetrics.VariationTrendOf | backend/app/services/dynamic_baseline_calculator.py:351-365 | the trend is stable below 12 values (too few points or windows) |
| DynamicBaselineMetrics.AnalyzeVariationTrend | backend/app/services/dynamic_baseline_calculator.py:351-390 | the method collects the moving deviations and classifies their slope |
| DynamicBaselineMetrics.ConstantDataSteadyVariation | backend/app/services/dynamic_baseline_calculator.py:351-390 | a constant series has a steady variation trend |
| DynamicBaselineMetrics.BaselineStabilityScore | backend/app/services/dynamic_baseline_calculator.py:545-560 | the score is in [0, 1]; 0 below 3 values or for a zero mean |
| DynamicBaselineMetrics.ConstantBaselineStable | backend/app/services/dynamic_baseline_calculator.py:555-560 | a constant non-zero baseline has stability 1 |
| DynamicBaselineMetrics.LimitPrecision | backend/app/services/dynamic_baseline_calculator.py:523-524 | precision is positive iff the limits enclose a positive width, else 0 |
| DynamicBaselineMetrics.Evaluate | backend/app/services/dynamic_baseline_calculator.py:506-537 | a period is only recorded when it lies in [6, n] |
| DynamicBaselineMetrics.EvaluateSucceeds | backend/app/services/dynamic_baseline_calculator.py:506-541 | a period is recorded iff it is in [6, n], its baseline varies and the detector runs |
| DynamicBaselineMetrics.EvaluateMetrics | backend/app/services/dynamic_baseline_calculator.py:510-537 | on non-negative data a recorded period has positive precision, 0 ≤ lower ≤ average < upper, average = baseline mean, density and stability in [0, 1] |
| DynamicBaselineMetrics.EvaluateFields | backend/app/services/dynamic_baseline_calculator.py:529-537 | the recorded limits and precision are those of the baseline's natural process limits |
| DynamicBaselineMetrics.EvaluateAlternativeBaselines | backend/app/services/dynamic_baseline_calculator.py:494-543 | the result maps exactly the evaluable listed periods to their metrics; with the as-written detector it is empty |
| DynamicBaselineRecommendation.BaseDraft | backend/app/services/dynamic_baseline_calculator.py:404-439 | the first decision gives one reason and a period ≤ 20; confidence 0.8 after a change with ≥ 6 points since it, 0.6 when the change is too recent, 0.8 for a score ≥ 0.6 without changes, 0.5 below it |
| DynamicBaselineRecommendation.DecideBasePeriod | backend/app/services/dynamic_baseline_calculator.py:404-439 | the branchy first stage computes the base draft |
| DynamicBaselineRecommendation.SeasonalAdjust | backend/app/services/dynamic_baseline_calculator.py:441-453 | weekly, for a period ≤ 20: whole weeks, 14 exactly when the period is ≥ 14 and 7 otherwise, with a whole-weeks reason; weekly above 20: unchanged; monthly: period max(14, p), with a monthly reason exactly when p < 14; otherwise unchanged; earlier reasons kept |
| DynamicBaselineRecommendation.AdjustForSeasonality | backend/app/services/dynamic_baseline_calculator.py:441-453 | the seasonal stage computes the seasonal adjustment |
| DynamicBaselineRecommendation.DensityAdjust | backend/app/services/dynamic_baseline_calculator.py:455-462 | density > 0.2: period −2, or 6 when that would go below 6, confidence ×0.9, a high-density reason; density < 0.05: period +2, or 20 when that would go above 20, a low-density reason; otherwise unchanged |
| DynamicBaselineRecommendation.AdjustForSignalDensity | backend/app/services/dynamic_baseline_calculator.py:455-462 | the density stage computes the density adjustment |
| DynamicBaselineRecommendation.ClampPeriod | backend/app/services/dynamic_baseline_calculator.py:465 | the period is clamped into [6, 20] and unchanged inside it |
| DynamicBaselineRecommendation.StabilityOf | backend/app/services/dynamic_baseline_calculator.py:467-475 | Stable iff score ≥ 0.8 with no changes; Improving iff score ≥ 0.6 otherwise; Degrading iff score < 0.6 with changes; Unstable iff score < 0.6 without |
| DynamicBaselineRecommendation.FinalConfidence | backend/app/services/dynamic_baseline_calculator.py:477-481 | within 2 of the current period the confidence is min(1, confidence × 1.1), otherwise min(1, confidence); never above 1 |
| DynamicBaselineRecommendation.Recommendation | backend/app/services/dynamic_baseline_calculator.py:392-492 | period in [6, 20], confidence in [0.45, 0.88], current period, pattern and date passed through, stability classified, at least one reason |
| DynamicBaselineRecommendation.GenerateBaselineRecommendation | backend/app/services/dynamic_baseline_calculator.py:392-492 | the method runs the stages and returns the recommendation |
| DynamicBaselineRecommendation.FinishRecommendation | backend/app/services/dynamic_baseline_calculator.py:464-492 | the last stage clamps, classifies and adjusts confidence |
| DynamicBaselineRecommendation.FirstReasonKept | backend/app/services/dynamic_baseline_calculator.py:404-439 | the first reason and the recalculation flag are those of the first decision |
| DynamicBaselineRecommendation.ChangeDetectedBranch | backend/app/services/dynamic_baseline_calculator.py:408-416 | with ≥6 points since the latest change: that change is the first reason, recalculation is advised, and the period is min(points since, 20) when nothing else adjusts it |
| DynamicBaselineRecommendation.ChangeTooRecentBranch | backend/app/services/dynamic_baseline_calculator.py:417-421 | with fewer than 6 points since the latest change: a too-recent reason, no recalculation, period 6 when nothing else adjusts it |
| DynamicBaselineRecommendation.HighStabilityBranch | backend/app/services/dynamic_baseline_calculator.py:424-428 | score ≥ 0.8 and no changes: Stable, recalculate iff current < 0.8·min(20, n), period min(20, n) when nothing else adjusts it |
| DynamicBaselineRecommendation.ModerateStabilityBranch | backend/app/services/dynamic_baseline_calculator.py:429-433 | score in [0.6, 0.8) and no changes: Improving, recalculate iff |current − 12| > 3, period 12 when nothing else adjusts it |
| DynamicBaselineRecommendation.LowStabilityBranch | backend/app/services/dynamic_baseline_calculator.py:434-439 | score < 0.6 and no changes: Unstable, recalculate iff current > 9 (= 6·1.5), period 6 when nothing else adjusts it |
| DynamicBaselineRecommendation.WeeklyGivesWholeWeeks | backend/app/services/dynamic_baseline_calculator.py:442-448 | with a weekly pattern and moderate density the period is 7 or 14, with the matching whole-weeks reason |
| DynamicBaselineRecommendation.MonthlyKeepsTwoWeeks | backend/app/services/dynamic_baseline_calculator.py:449-453 | with a monthly pattern and density ≤ 0.2 the period is at least 14 |
| DynamicBaselineRecommendation.DensityReasons | backend/app/services/dynamic_baseline_calculator.py:455-462 | a high-density reason appears iff density > 0.2, a low-density reason iff density < 0.05 |
| DynamicBaselineAnalyzer.AnalysisOf | backend/app/services/dynamic_baseline_calculator.py:34-85 | fails with TooFewForBaseline iff fewer than 6 points; otherwise stability and density in [0, 1], the recommendation's period in [6, 20], its current period, pattern, stability class and date consistent with the analysis |
| DynamicBaselineAnalyzer.AnalyzeDynamicBaseline | backend/app/services/dynamic_baseline_calculator.py:34-85 | the method runs the stages and returns the analysis |
| DynamicBaselineAnalyzer.AnalysisStageResults | backend/app/services/dynamic_baseline_calculator.py:52-70 | each field of the analysis is its stage's result on the values |
| DynamicBaselineAnalyzer.AnalysisRecommendation | backend/app/services/dynamic_baseline_calculator.py:73-76 | the recommendation is computed from the analysis's own score, change points, dominant pattern and density |
| DynamicBaselineAnalyzer.RoomAfterLatestChange | backend/app/services/dynamic_baseline_calculator.py:182 | a detected change point leaves more than 6 points after it |
| DynamicBaselineAnalyzer.ChangesAreNeverTooRecent | backend/app/services/dynamic_baseline_calculator.py:408-421 | with detected changes the analysis always takes the change-detected branch and advises recalculation; the too-recent branch is unreachable |
| DynamicBaselineAnalyzer.AsWrittenAlwaysLowDensity | backend/app/services/dynamic_baseline_calculator.py:339-349 | with the as-written detector the density is always 0 and the low-density reason is always given |
| DynamicBaselineAnalyzer.QuietDataRecommendation | backend/app/services/dynamic_baseline_calculator.py:424-465 | a fully stable series with no changes, pattern or signals gets Stable and period min(20, n+2) |
| DynamicBaselineAnalyzer.ConstantValueStages | backend/app/services/dynamic_baseline_calculator.py:87-390 | constant values: stability 1, no change points, density 0, steady variation |
| DynamicBaselineAnalyzer.ConstantSeriesStages | backend/app/services/dynamic_baseline_calculator.py:209-251 | a constant series has in addition no dominant seasonal pattern |
| DynamicBaselineAnalyzer.ConstantDataAnalysis | backend/app/services/dynamic_baseline_calculator.py:34-85 | the analysis of a constant series: score 1, no changes, density 0, no pattern, steady |
| DynamicBaselineAnalyzer.ConstantDataRecommendation | backend/app/services/dynamic_baseline_calculator.py:73-76 | the recommendation for a constant series is the quiet-data recommendation |
| Stats.MedianBetween | backend/app/services/throughput_calculator.py:59 | the median lies between any bounds of the data |
| Stats.Sort | backend/app/services/throughput_calculator.py:59 | sorting gives an ascending permutation, as `statistics.median` uses |

## Left out

- Logging is left out. It has no effect on results.
- I/O and the service's routers are not modelled. The request and
  response records (`PBCRequest` … `DynamicBaselineResponse`) are left
  out, because they belong to the routers.
- `datetime.now()` becomes the parameter `now`.
- `statistics.stdev` becomes the parameter `stdev`, characterised by
  `Stats.IsStdev`, because a square root is not computable over `real`s.
- Floats are exact reals, so rounding in sums, means and thresholds is
  not modelled.
- A timestamp has whole-second resolution. `create_throughput_pbc_data`'s
  midpoint can carry microseconds in Python. Grouped periods are whole
  days, so their midpoint is exact (`ThroughputCalculator.MidpointInside`).
- Pydantic validation, enum string values and float formatting are not
  modelled.
  - The reasoning strings of the baseline recommendation, which print
    scores with two decimals, are the `Reason` datatype. Each
    constructor carries the numbers the sentence prints.
  - The throughput recommendation texts are string constants. The "more
    data" message renders the period count with `Text.NatToString`.
- Record fields renamed because the names are reserved in Dafny:
  - `Signal.type` is `ruleType`;
  - `DataPoint.label` is `labelText`.
- `metric_type` of `analyze_dynamic_baseline` is passed along but never
  read, so it is dropped.
- Two values the analysis computes and discards are not modelled: the
  stability class at dynamic_baseline_calculator.py:57 and the timestamps
  at line 53.
- The seasonality analysis's unused `values`/`timestamps` lists are not
  modelled.
- Week-of-month key 5 (days 29–31) is grouped but never read, because
  the loop at line 308 only visits weeks 1–4. The model groups it and
  likewise ignores it.
- Branches the code guards against but can never reach are modelled
  anyway, with their unreachability proved:
  - the `len(...) > 1` fall-backs;
  - the "no moving ranges" and "average moving range is zero" errors
    (`PbcCalculator.VariationGivesPositiveRange`);
  - a zero regression denominator (`DynamicBaselineCalculator.SlopeDefined`);
  - the too-recent branch of the recommendation when reached through the
    analysis (`DynamicBaselineAnalyzer.ChangesAreNeverTooRecent`).
- `_generate_baseline_recommendation` is one method in the code. The
  model splits it into four stage methods
  (`DynamicBaselineRecommendation.DecideBasePeriod`, `AdjustForSeasonality`,
  `AdjustForSignalDensity`, `FinishRecommendation`) with the same
  statements in the same order.
- `_get_period_start` and `_get_period_end` raise ValueError for an
  unsupported period. The enum cannot hold one, so that branch is not
  modelled.
- `datetime.replace` in `_get_period_end` raises when the day does not
  exist in the next month. `Calendar.PeriodEnd` returns `MonthOutOfRange`
  for it. `Calendar.PeriodEndIsNextStart` proves that a period start,
  always the first of a month, never takes this path.
- Python's `datetime` covers years 1 to 9999 only. The model's instants
  have no upper year, so the ValueError or OverflowError that
  `_get_period_end` and the `timedelta` additions raise at the end of
  year 9999 is not modelled.
- DynamicBaselineMetrics.VariationTrendOf: its contract only pins the
  short-series case. The trend for longer series is stated by
  `TrendOfSlope` and the loop method `AnalyzeVariationTrend`, since the
  slope of arbitrary deviations has no closed form to state.

## Findings

| source | as written | input that shows it | evidently intended | confidence | as-written member | corrected member |
|---|---|---|---|---|---|---|
| backend/app/services/signal_detector.py:10 | `detect_all_signals` calls `self._calculate_sigma_lines`, but that function is defined at module level (line 137), not on the class, so every call raises AttributeError | any data and limits, e.g. data [5.0] with limits avg 1, upper 2, lower 0 | compute the sigma lines from the limits and run rules 1–4 | high (not executed) | SignalDetector.DetectAllAsWrittenFails | SignalDetector.DetectAllSignals |
| backend/app/services/signal_detector.py:54 | rule 2 passes `data_points=` to `Signal`, whose field is `dataPoints`, so Pydantic raises a validation error whenever rule 2 fires | data [10, 10, 10] with two-sigma upper line 4 | record the window's indices in `dataPoints` | high (not executed) | SignalDetector.Rule2AsWrittenRaises | SignalDetector.DetectRule2 |
| backend/app/services/signal_detector.py:84 | rule 3 passes `data_points=` likewise | data [10, 10, 10, 10, 10] with one-sigma upper line 2 | record the window's indices in `dataPoints` | high (not executed) | SignalDetector.Rule3AsWrittenRaises | SignalDetector.DetectRule3 |
| backend/app/services/signal_detector.py:117 | rule 4 passes `data_points=` likewise, at the run close and the final run (line 130) | eight values 1.0 with average 0 | record the run's indices in `dataPoints` | high (not executed) | SignalDetector.Rule4AsWrittenRaises | SignalDetector.DetectRule4 |
| backend/app/services/dynamic_baseline_calculator.py:339 | because detection always raises and the error is caught, the signal density is always 0. Every recommendation then gets the low-density adjustment, and `evaluate_alternative_baselines` returns an empty map | any series of ≥6 points | density from the signals the rules report | high (not executed) | DynamicBaselineAnalyzer.AsWrittenAlwaysLowDensity | DynamicBaselineMetrics.OutlierRaisesDensity |

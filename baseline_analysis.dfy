/*
 * `analyze_dynamic_baseline` in
 * backend/app/services/dynamic_baseline_calculator.py: the stability
 * score, the change points, the seasonality, the signal density and the
 * variation trend of a series, and the recommendation built from them.
 * The clock is the parameter `now`; `statistics.stdev` is the parameter
 * `stdev`; `build` says which signal detector is called.
 */
module DynamicBaselineAnalyzer {
  import opened DataModels
  import opened Stats
  import opened DynamicBaselineCalculator
  import opened DynamicBaselineSeasonality
  import opened DynamicBaselineMetrics
  import opened DynamicBaselineRecommendation

  /** The analysis of `data`: an error below six points, otherwise every
      stage's result and the recommendation drawn from them. */
  function AnalysisOf(data: seq<DataPoint>, currentPeriod: int, build: DetectorBuild,
                      stdev: seq<real> -> real, now: Instant): (r: Result<DynamicBaselineAnalysis, EngineError>)
    ensures r.Failure? <==> |data| < MinBaseline
    ensures r.Failure? ==> r.error == TooFewForBaseline
    ensures r.Success? ==>
      var a := r.value;
      0.0 <= a.dataStabilityScore <= 1.0 && 0.0 <= a.signalDensity <= 1.0 &&
      a.recommendation.currentPeriod == currentPeriod &&
      a.recommendation.seasonalPattern == a.seasonalityAnalysis.dominantPattern &&
      a.recommendation.stability == StabilityOf(a.dataStabilityScore, a.processChangePoints) &&
      MinBaseline <= a.recommendation.recommendedPeriod <= MaxBaseline &&
      a.recommendation.lastRecalculationDate == now
  {
    if |data| < MinBaseline then Failure(TooFewForBaseline)
    else
      var values := Values(data);
      var score := DataStabilityScore(values, stdev);
      var changePoints := ProcessChanges(values, stdev);
      var seasonality := SeasonalityOf(data);
      var density := SignalDensityOf(values, build);
      var trend := VariationTrendOf(values, stdev);
      var recommendation := Recommendation(|data|, currentPeriod, score, changePoints,
                                           seasonality.dominantPattern, density, now);
      Success(DynamicBaselineAnalysis(recommendation, score, changePoints, seasonality, density, trend))
  }

  /** `analyze_dynamic_baseline`, stage by stage. */
  method AnalyzeDynamicBaseline(data: seq<DataPoint>, currentPeriod: int, build: DetectorBuild,
                                stdev: seq<real> -> real, now: Instant)
    returns (r: Result<DynamicBaselineAnalysis, EngineError>)
    ensures r == AnalysisOf(data, currentPeriod, build, stdev, now)
  {
    if |data| < MinBaseline {
      return Failure(TooFewForBaseline);
    }
    var values := Values(data);
    var stabilityScore := CalculateDataStability(values, stdev);
    var changePoints := DetectProcessChanges(values, stdev);
    var seasonality := AnalyzeSeasonality(data);
    var signalDensity := SignalDensityOf(values, build);
    var variationTrend := AnalyzeVariationTrend(values, stdev);
    var recommendation := GenerateBaselineRecommendation(|data|, currentPeriod, stabilityScore, changePoints,
                                                         seasonality.dominantPattern, signalDensity, now);
    r := Success(DynamicBaselineAnalysis(recommendation, stabilityScore, changePoints, seasonality,
                                         signalDensity, variationTrend));
  }

  /** A successful analysis holds each stage's result. */
  lemma AnalysisStageResults(data: seq<DataPoint>, currentPeriod: int, build: DetectorBuild,
                             stdev: seq<real> -> real, now: Instant, a: DynamicBaselineAnalysis)
    requires AnalysisOf(data, currentPeriod, build, stdev, now) == Success(a)
    ensures a.dataStabilityScore == DataStabilityScore(Values(data), stdev)
    ensures a.processChangePoints == ProcessChanges(Values(data), stdev)
    ensures a.seasonalityAnalysis == SeasonalityOf(data)
    ensures a.signalDensity == SignalDensityOf(Values(data), build)
    ensures a.variationTrend == VariationTrendOf(Values(data), stdev)
  {
  }

  /** ... and the recommendation drawn from them. */
  lemma AnalysisRecommendation(data: seq<DataPoint>, currentPeriod: int, build: DetectorBuild,
                               stdev: seq<real> -> real, now: Instant, a: DynamicBaselineAnalysis)
    requires AnalysisOf(data, currentPeriod, build, stdev, now) == Success(a)
    ensures a.recommendation == Recommendation(|data|, currentPeriod, a.dataStabilityScore, a.processChangePoints,
                                               a.seasonalityAnalysis.dominantPattern, a.signalDensity, now)
  {
  }

  /** The latest change point leaves more than the change window, and so
      more than six points, after it. */
  lemma RoomAfterLatestChange(values: seq<real>, stdev: seq<real> -> real, n: int, changePoints: seq<int>)
    requires n == |values| && changePoints == ProcessChanges(values, stdev) && changePoints != []
    ensures n - MaxInt(changePoints) > MinBaseline
  {
    ProcessChangesShape(values, stdev);
    var k :| 0 <= k < |changePoints| && changePoints[k] == MaxInt(changePoints);
    assert changePoints[k] < n - ChangeWindow(n);
  }

  /** Every change point the analysis reports has more than six points
      after it, so the "change too recent" branch of the recommendation is
      never taken: with change points, the recommendation always asks for a
      recalculation and starts from the points since the latest change
      (`ChangeDetectedBranch`). */
  lemma ChangesAreNeverTooRecent(data: seq<DataPoint>, currentPeriod: int, build: DetectorBuild,
                                 stdev: seq<real> -> real, now: Instant, a: DynamicBaselineAnalysis)
    requires AnalysisOf(data, currentPeriod, build, stdev, now) == Success(a)
    requires a.processChangePoints != []
    ensures |data| - MaxInt(a.processChangePoints) > MinBaseline && a.recommendation.shouldRecalculate
  {
    AnalysisStageResults(data, currentPeriod, build, stdev, now, a);
    AnalysisRecommendation(data, currentPeriod, build, stdev, now, a);
    RoomAfterLatestChange(Values(data), stdev, |data|, a.processChangePoints);
    ChangeDetectedBranch(|data|, currentPeriod, a.dataStabilityScore, a.processChangePoints,
                         a.seasonalityAnalysis.dominantPattern, a.signalDensity, now, a.recommendation);
  }

  /** With the detector as written no signal is ever found, so the density
      is 0 and every recommendation is lengthened for "low signal
      density". */
  lemma AsWrittenAlwaysLowDensity(data: seq<DataPoint>, currentPeriod: int,
                                  stdev: seq<real> -> real, now: Instant, a: DynamicBaselineAnalysis)
    requires AnalysisOf(data, currentPeriod, AsWrittenBuild, stdev, now) == Success(a)
    ensures a.signalDensity == 0.0 && LowSignalDensity(0.0) in a.recommendation.reasoning
  {
    AnalysisStageResults(data, currentPeriod, AsWrittenBuild, stdev, now, a);
    AnalysisRecommendation(data, currentPeriod, AsWrittenBuild, stdev, now, a);
    DensityReasons(|data|, currentPeriod, a.dataStabilityScore, a.processChangePoints,
                   a.seasonalityAnalysis.dominantPattern, a.signalDensity, now, a.recommendation);
  }

  /** The recommendation for perfectly stable data without change points,
      pattern or signals: the longest period the data allows, plus two for
      the low density, at most 20. */
  lemma QuietDataRecommendation(n: int, currentPeriod: int, now: Instant, r: BaselineRecommendation)
    requires n >= MinBaseline
    requires r == Recommendation(n, currentPeriod, 1.0, [], NoPattern, 0.0, now)
    ensures r.stability == Stable && r.recommendedPeriod == IntMin(MaxBaseline, n + 2)
  {
  }

  /** The value-level stages on a constant series: a perfect score, no
      change point, no signal and a steady variation. */
  lemma ConstantValueStages(values: seq<real>, build: DetectorBuild, stdev: seq<real> -> real)
    requires IsStdev(stdev)
    requires |values| >= 3 && forall i | 0 <= i < |values| :: values[i] == values[0]
    ensures DataStabilityScore(values, stdev) == 1.0 && ProcessChanges(values, stdev) == []
    ensures SignalDensityOf(values, build) == 0.0 && VariationTrendOf(values, stdev) == Steady
  {
    ConstantDataFullyStable(values, stdev);
    ConstantDataNoChanges(values, stdev);
    ConstantDataNoDensity(values, build);
    ConstantDataSteadyVariation(values, stdev);
  }

  /** Every stage on a constant series: a perfect score, no change point,
      no seasonal pattern, no signal and a steady variation. */
  lemma ConstantSeriesStages(data: seq<DataPoint>, c: real, build: DetectorBuild, stdev: seq<real> -> real)
    requires IsStdev(stdev) && AllValues(data, c) && |data| >= 3
    ensures DataStabilityScore(Values(data), stdev) == 1.0 && ProcessChanges(Values(data), stdev) == []
    ensures SignalDensityOf(Values(data), build) == 0.0 && VariationTrendOf(Values(data), stdev) == Steady
    ensures SeasonalityOf(data).dominantPattern == NoPattern
  {
    var values := Values(data);
    assert forall i | 0 <= i < |values| :: values[i] == values[0];
    ConstantValueStages(values, build, stdev);
    ConstantDataNotSeasonal(data, c);
  }

  /** So the analysis of a constant series is perfectly stable, unchanged,
      not seasonal, free of signals and steady ... */
  lemma ConstantDataAnalysis(data: seq<DataPoint>, c: real, currentPeriod: int, build: DetectorBuild,
                             stdev: seq<real> -> real, now: Instant, a: DynamicBaselineAnalysis)
    requires IsStdev(stdev) && AllValues(data, c)
    requires AnalysisOf(data, currentPeriod, build, stdev, now) == Success(a)
    ensures a.dataStabilityScore == 1.0 && a.processChangePoints == [] && a.signalDensity == 0.0
    ensures a.seasonalityAnalysis.dominantPattern == NoPattern && a.variationTrend == Steady
  {
    AnalysisStageResults(data, currentPeriod, build, stdev, now, a);
    ConstantSeriesStages(data, c, build, stdev);
  }

  /** ... so its recommendation is the one for quiet data
      (`QuietDataRecommendation`): STABLE, with the longest period the
      data allows plus two for the low density, at most 20. */
  lemma ConstantDataRecommendation(data: seq<DataPoint>, c: real, currentPeriod: int, build: DetectorBuild,
                                   stdev: seq<real> -> real, now: Instant, a: DynamicBaselineAnalysis)
    requires IsStdev(stdev) && AllValues(data, c)
    requires AnalysisOf(data, currentPeriod, build, stdev, now) == Success(a)
    ensures |data| >= MinBaseline
    ensures a.recommendation == Recommendation(|data|, currentPeriod, 1.0, [], NoPattern, 0.0, now)
  {
    ConstantDataAnalysis(data, c, currentPeriod, build, stdev, now, a);
    AnalysisRecommendation(data, currentPeriod, build, stdev, now, a);
  }
}

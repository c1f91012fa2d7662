/*
 * Records and enumerations of the process-behaviour engine
 * (backend/app/models/data_models.py), as Dafny values.
 *
 * Instants are whole seconds since 0001-01-01T00:00:00 of the proleptic
 * Gregorian calendar (naive, no time zone); see module Calendar.
 * Measurements are exact reals.
 */
module DataModels {

  datatype Option<+T> = None | Some(value: T)

  datatype Result<+T, +E> = Success(value: T) | Failure(error: E)

  /** The exceptions the engine raises (all `ValueError` in the source, or
      the errors the two detector defects provoke). */
  datatype EngineError =
    | TooFewPoints           // fewer points than a stage's minimum
    | TooFewForBaseline      // fewer than six points for a baseline analysis
    | NoMovingRanges         // moving ranges could not be computed
    | AllMovingRangesZero    // constant data: no variation
    | ZeroAverageMovingRange
    | BaselineTooShort       // baseline period below 3
    | BaselineTooLong        // baseline period above the data length
    | NoThroughputPeriods
    | MonthOutOfRange        // `datetime.replace` asked for a day the next month lacks
    | AttributeError         // unresolvable `self._calculate_sigma_lines`
    | ValidationError        // `Signal(...)` built without `dataPoints`

  type Instant = nat

  datatype DataPoint = DataPoint(timestamp: Instant, value: real, labelText: Option<string>)

  datatype DetectionRuleType = Rule1 | Rule2 | Rule3 | Rule4

  datatype Signal = Signal(ruleType: DetectionRuleType, dataPoints: seq<int>,
                           description: string, severity: string)

  datatype ProcessLimits = ProcessLimits(average: real, upperLimit: real, lowerLimit: real,
                                         averageMovingRange: real, upperRangeLimit: real)

  /** The four zone lines used by detection rules 2 and 3. */
  datatype SigmaLines = SigmaLines(oneSigmaUpper: real, oneSigmaLower: real,
                                   twoSigmaUpper: real, twoSigmaLower: real)

  datatype ThroughputPeriod = Daily | Weekly | Monthly

  datatype ThroughputDataPoint = ThroughputDataPoint(periodStart: Instant, periodEnd: Instant,
                                                     itemCount: nat, itemsCompleted: seq<string>,
                                                     period: ThroughputPeriod)

  datatype ThroughputAnalysis = ThroughputAnalysis(
    throughputData: seq<ThroughputDataPoint>,
    averageThroughput: real,
    medianThroughput: real,
    minThroughput: int,
    maxThroughput: int,
    period: ThroughputPeriod,
    totalPeriods: nat,
    totalItemsCompleted: nat,
    predictabilityScore: real)

  datatype BaselineStability = Stable | Unstable | Improving | Degrading

  datatype SeasonalPattern = NoPattern | WeeklyPattern | MonthlyPattern | QuarterlyPattern

  /** One entry of the recommendation's reasoning list; the source renders
      each as an English sentence with the numbers formatted in it. */
  datatype Reason =
    | ChangeDetected(changeIndex: int, pointsSinceChange: int)
    | ChangeTooRecent(pointsSinceChange: int)
    | HighStability(score: real)
    | ModerateStability(score: real)
    | LowStability(score: real)
    | WeeklyAdjusted(weeks: int)
    | MonthlyAdjusted
    | HighSignalDensity(density: real)
    | LowSignalDensity(density: real)

  datatype BaselineRecommendation = BaselineRecommendation(
    recommendedPeriod: int,
    currentPeriod: int,
    confidence: real,
    reasoning: seq<Reason>,
    stability: BaselineStability,
    seasonalPattern: SeasonalPattern,
    shouldRecalculate: bool,
    lastRecalculationDate: Instant)

  datatype SeasonalityAnalysis = SeasonalityAnalysis(
    dominantPattern: SeasonalPattern,
    weeklyStrength: real,
    monthlyStrength: real,
    patternsDetected: seq<string>)

  datatype VariationTrend = Increasing | Decreasing | Steady

  datatype DynamicBaselineAnalysis = DynamicBaselineAnalysis(
    recommendation: BaselineRecommendation,
    dataStabilityScore: real,
    processChangePoints: seq<int>,
    seasonalityAnalysis: SeasonalityAnalysis,
    signalDensity: real,
    variationTrend: VariationTrend)

  /** Metrics recorded for one alternative baseline period. */
  datatype BaselineMetrics = BaselineMetrics(
    signalCount: nat,
    signalDensity: real,
    limitPrecision: real,
    baselineStability: real,
    upperLimit: real,
    lowerLimit: real,
    average: real)
}

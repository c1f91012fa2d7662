/*
 * Signal density, variation trend, baseline stability and the evaluation
 * of alternative baseline periods
 * (`_calculate_signal_density`, `_analyze_variation_trend`,
 * `_calculate_baseline_stability` and `evaluate_alternative_baselines` in
 * backend/app/services/dynamic_baseline_calculator.py).
 */
module DynamicBaselineMetrics {
  import opened DataModels
  import opened Stats
  import opened PbcCalculator
  import opened SignalDetector
  import opened DynamicBaselineCalculator

  // ------------------------------------------------ signal density

  /** The call to `detect_all_signals`, in the chosen build. */
  function Detect(build: DetectorBuild, data: seq<real>, limits: ProcessLimits): (r: Result<seq<Signal>, EngineError>)
    ensures build == AsWrittenBuild ==> r == Failure(AttributeError)
    ensures build == IntendedBuild ==> r == Success(AllSignals(data, limits))
    ensures r.Success? ==> IndicesWithin(r.value, |data|)
  {
    match build
    case AsWrittenBuild => DetectAllSignalsAsWritten(data, limits)
    case IntendedBuild =>
      AllSignalsWithin(data, limits);
      Success(AllSignals(data, limits))
  }

  /** The points of one signal, as a set. */
  function PointSet(points: seq<int>): set<int>
  {
    set k | 0 <= k < |points| :: points[k]
  }

  /** `set().union(*[signal.dataPoints for signal in signals])`. */
  function SignalPoints(signals: seq<Signal>): set<int>
  {
    if signals == [] then {}
    else SignalPoints(signals[..|signals| - 1]) + PointSet(signals[|signals| - 1].dataPoints)
  }

  /** The union holds the points of every signal ... */
  lemma {:induction false} SignalPointsComplete(signals: seq<Signal>)
    ensures forall j, k | 0 <= j < |signals| && 0 <= k < |signals[j].dataPoints| ::
      signals[j].dataPoints[k] in SignalPoints(signals)
  {
    if signals != [] {
      var p := signals[..|signals| - 1];
      SignalPointsComplete(p);
      forall j, k | 0 <= j < |signals| && 0 <= k < |signals[j].dataPoints|
        ensures signals[j].dataPoints[k] in SignalPoints(signals)
      {
        if j < |p| {
          assert signals[j] == p[j];
        }
      }
    }
  }

  /** ... and nothing else, so it lies inside the series when the signals do. */
  lemma {:induction false} SignalPointsWithin(signals: seq<Signal>, n: int)
    requires IndicesWithin(signals, n)
    ensures forall x | x in SignalPoints(signals) :: 0 <= x < n
  {
    if signals != [] {
      var p := signals[..|signals| - 1];
      assert IndicesWithin(p, n) by {
        forall j, k | 0 <= j < |p| && 0 <= k < |p[j].dataPoints| ensures 0 <= p[j].dataPoints[k] < n {
          assert p[j] == signals[j];
        }
      }
      SignalPointsWithin(p, n);
      var last := signals[|signals| - 1];
      forall x | x in SignalPoints(signals) ensures 0 <= x < n {
        if x !in SignalPoints(p) {
          assert x in PointSet(last.dataPoints);
          var k :| 0 <= k < |last.dataPoints| && last.dataPoints[k] == x;
        }
      }
    }
  }

  /** A set of indices below `n` has at most `n` elements. */
  lemma {:induction false} IndexSetSize(points: set<int>, n: nat)
    requires forall x | x in points :: 0 <= x < n
    ensures |points| <= n
  {
    if n > 0 {
      var rest := points - {n - 1};
      IndexSetSize(rest, n - 1);
      if n - 1 in points {
        assert points == rest + {n - 1};
      } else {
        assert points == rest;
      }
    } else {
      assert forall x :: x !in points;
      assert points == {};
    }
  }

  /** A share of a positive whole lies in [0, 1]. */
  lemma ShareInUnit(part: real, whole: real)
    requires 0.0 <= part <= whole && whole > 0.0
    ensures 0.0 <= part / whole <= 1.0
  {
    assert part / whole * whole == part;
  }

  /** The share of the `n` points that some signal covers. */
  function PointDensity(signals: seq<Signal>, n: nat): (r: real)
    requires n > 0 && IndicesWithin(signals, n)
    ensures 0.0 <= r <= 1.0
  {
    var points := SignalPoints(signals);
    SignalPointsWithin(signals, n);
    IndexSetSize(points, n);
    ShareInUnit(|points| as real, n as real);
    (|points| as real) / (n as real)
  }

  lemma ShareAtLeast(part: real, whole: real)
    requires part >= 1.0 && whole > 0.0
    ensures part / whole >= 1.0 / whole
  {
  }

  /** One covered point is a share of at least 1/n. */
  lemma PointDensityAtLeastOne(signals: seq<Signal>, n: nat, x: int)
    requires n > 0 && IndicesWithin(signals, n)
    requires x in SignalPoints(signals)
    ensures PointDensity(signals, n) >= 1.0 / (n as real)
  {
    var points := SignalPoints(signals);
    assert |points| >= 1;
    assert PointDensity(signals, n) == (|points| as real) / (n as real);
    ShareAtLeast(|points| as real, n as real);
  }

  /** The first 12 values, or all of them when there are fewer. */
  function DensityBaseline(values: seq<real>): seq<real>
  {
    values[..if OptimalBaseline < |values| then OptimalBaseline else |values|]
  }

  /** `_calculate_signal_density`: limits from the first 12 values (fewer if
      there are fewer), the share of points the detector flags against
      them; 0 below 6 values and whenever a step raises. */
  function SignalDensityOf(values: seq<real>, build: DetectorBuild): (r: real)
    ensures 0.0 <= r <= 1.0
    ensures |values| < MinBaseline ==> r == 0.0
    ensures build == AsWrittenBuild ==> r == 0.0
  {
    if |values| < MinBaseline then 0.0
    else
      match NaturalProcessLimits(DensityBaseline(values))
      case Failure(_) => 0.0
      case Success(limits) =>
        match Detect(build, values, limits)
        case Failure(_) => 0.0
        case Success(signals) => PointDensity(signals, |values|)
  }

  /** A constant series has no limits to detect against, so its density
      is 0 whichever detector is called. */
  lemma ConstantDataNoDensity(values: seq<real>, build: DetectorBuild)
    requires forall i | 0 <= i < |values| :: values[i] == values[0]
    ensures SignalDensityOf(values, build) == 0.0
  {
    if |values| >= MinBaseline {
      var baseline := DensityBaseline(values);
      assert !HasVariation(baseline) by {
        forall i | 0 <= i < |baseline| - 1 ensures baseline[i] == baseline[i + 1] {
          assert baseline[i] == values[i] && baseline[i + 1] == values[i + 1];
        }
      }
      NaturalProcessLimitsSpec(baseline);
    }
  }

  /** The intended density against the limits of the baseline. */
  lemma IntendedDensity(values: seq<real>, limits: ProcessLimits)
    requires |values| >= MinBaseline
    requires NaturalProcessLimits(DensityBaseline(values)) == Success(limits)
    ensures IndicesWithin(AllSignals(values, limits), |values|) &&
      SignalDensityOf(values, IntendedBuild) == PointDensity(AllSignals(values, limits), |values|)
  {
    AllSignalsWithin(values, limits);
  }

  /** Every point outside the limits is among the points the intended
      detector flags. */
  lemma OutlierFlagged(values: seq<real>, limits: ProcessLimits, i: nat)
    requires i < |values| && OutsideLimits(values[i], limits)
    ensures i in SignalPoints(AllSignals(values, limits))
  {
    var signals := AllSignals(values, limits);
    var rule1 := Rule1Signals(values, limits);
    Rule1Exact(values, limits, |values|);
    assert Rule1Signal(i) in rule1;
    var j :| 0 <= j < |rule1| && rule1[j] == Rule1Signal(i);
    assert signals[j] == Rule1Signal(i);
    SignalPointsComplete(signals);
    assert signals[j].dataPoints[0] == i;
  }

  /** Against limits from a baseline with variation, a point outside them
      makes the intended density at least one point in `n`. */
  lemma OutlierRaisesDensity(values: seq<real>, i: nat)
    requires |values| >= MinBaseline && i < |values|
    requires NaturalProcessLimits(DensityBaseline(values)).Success?
    requires OutsideLimits(values[i], NaturalProcessLimits(DensityBaseline(values)).value)
    ensures SignalDensityOf(values, IntendedBuild) >= 1.0 / (|values| as real)
  {
    var limits := NaturalProcessLimits(DensityBaseline(values)).value;
    IntendedDensity(values, limits);
    OutlierFlagged(values, limits, i);
    PointDensityAtLeastOne(AllSignals(values, limits), |values|, i);
  }

  // ------------------------------------------------ variation trend

  /** `max(5, n // 4)`: the half-width of the moving windows. */
  function VariationWindow(n: nat): (r: nat)
    ensures r >= 5 && r >= n / 4
  {
    if n / 4 > 5 then n / 4 else 5
  }

  /** The standard deviation of `values[i - w .. i + w]` for each `i` in
      [w, n - w]. */
  function MovingStdevs(values: seq<real>, w: nat, stdev: seq<real> -> real): (r: seq<real>)
    requires 2 * w <= |values|
    ensures |r| == |values| - 2 * w + 1
    ensures forall j | 0 <= j < |r| :: r[j] == stdev(values[j..j + 2 * w])
  {
    seq(|values| - 2 * w + 1, j requires 0 <= j < |values| - 2 * w + 1 => stdev(values[j..j + 2 * w]))
  }

  /** The verdict on a normalised slope: beyond ±0.1 it is a trend. */
  function TrendOfSlope(normalized: real): (r: VariationTrend)
    ensures r == Increasing <==> normalized > 0.1
    ensures r == Decreasing <==> normalized < -0.1
  {
    if normalized > 0.1 then Increasing
    else if normalized < -0.1 then Decreasing
    else Steady
  }

  /** `_analyze_variation_trend`: the least-squares slope of the moving
      standard deviations, relative to their mean per window; "stable"
      below 10 values, below 3 windows, or without a slope. */
  function VariationTrendOf(values: seq<real>, stdev: seq<real> -> real): (r: VariationTrend)
    ensures |values| < 12 ==> r == Steady
  {
    var n := |values|;
    if n < 10 then Steady
    else
      var stds := MovingStdevs(values, VariationWindow(n), stdev);
      if |stds| < 3 then Steady
      else
        match LeastSquaresSlope(stds)
        case None => Steady
        case Some(slope) =>
          var avg := Mean(stds);
          TrendOfSlope(if avg > 0.0 then slope / (avg / (|stds| as real)) else 0.0)
  }

  method AnalyzeVariationTrend(values: seq<real>, stdev: seq<real> -> real) returns (trend: VariationTrend)
    ensures trend == VariationTrendOf(values, stdev)
  {
    var n := |values|;
    if n < 10 {
      return Steady;
    }
    var w := VariationWindow(n);
    var stds: seq<real> := [];
    for i := w to n - w + 1
      invariant |stds| == i - w
      invariant forall j | 0 <= j < |stds| :: stds[j] == stdev(values[j..j + 2 * w])
    {
      stds := stds + [stdev(values[i - w..i + w])];
    }
    assert stds == MovingStdevs(values, w, stdev);
    if |stds| < 3 {
      return Steady;
    }
    var slope := LeastSquaresSlope(stds);
    if slope.None? {
      return Steady;
    }
    var avg := Mean(stds);
    var normalized := 0.0;
    if avg > 0.0 {
      normalized := slope.value / (avg / (|stds| as real));
    }
    trend := TrendOfSlope(normalized);
  }

  /** Every window of a constant series has zero deviation. */
  lemma ConstantWindowsFlat(values: seq<real>, w: nat, stdev: seq<real> -> real)
    requires IsStdev(stdev)
    requires w >= 1 && 2 * w <= |values|
    requires forall i | 0 <= i < |values| :: values[i] == values[0]
    ensures forall j | 0 <= j < |MovingStdevs(values, w, stdev)| :: MovingStdevs(values, w, stdev)[j] == 0.0
  {
    forall j | 0 <= j < |MovingStdevs(values, w, stdev)| ensures MovingStdevs(values, w, stdev)[j] == 0.0 {
      ConstantWindowFlat(values, w, stdev, j);
    }
  }

  /** One window of a constant series has no spread. */
  lemma ConstantWindowFlat(values: seq<real>, w: nat, stdev: seq<real> -> real, j: nat)
    requires IsStdev(stdev)
    requires w >= 1 && j + 2 * w <= |values|
    requires forall i | 0 <= i < |values| :: values[i] == values[0]
    ensures MovingStdevs(values, w, stdev)[j] == 0.0
  {
    ConstantSliceStdev(stdev, values, j, j + 2 * w);
  }

  /** A constant series has constant spread. */
  lemma ConstantDataSteadyVariation(values: seq<real>, stdev: seq<real> -> real)
    requires IsStdev(stdev)
    requires forall i | 0 <= i < |values| :: values[i] == values[0]
    ensures VariationTrendOf(values, stdev) == Steady
  {
    var n := |values|;
    if n >= 10 {
      var w := VariationWindow(n);
      var stds := MovingStdevs(values, w, stdev);
      ConstantWindowsFlat(values, w, stdev);
      if |stds| >= 3 {
        MeanBetween(stds, 0.0, 0.0);
        assert !(Mean(stds) > 0.0);
      }
    }
  }

  // ------------------------------------------------ baseline stability

  /** `_calculate_baseline_stability`: one minus the coefficient of
      variation, clamped to [0, 1]; 0 below 3 values or for a zero mean. */
  function BaselineStabilityScore(baseline: seq<real>, stdev: seq<real> -> real): (r: real)
    ensures 0.0 <= r <= 1.0
    ensures |baseline| < 3 ==> r == 0.0
    ensures |baseline| >= 3 && Mean(baseline) == 0.0 ==> r == 0.0
  {
    if |baseline| < 3 then 0.0
    else if Mean(baseline) == 0.0 then 0.0
    else Min(1.0, Max(0.0, 1.0 - CoefficientOfVariation(baseline, stdev)))
  }

  /** A constant baseline of non-zero values is perfectly stable. */
  lemma ConstantBaselineStable(baseline: seq<real>, stdev: seq<real> -> real)
    requires IsStdev(stdev)
    requires |baseline| >= 3 && baseline[0] != 0.0
    requires forall i | 0 <= i < |baseline| :: baseline[i] == baseline[0]
    ensures BaselineStabilityScore(baseline, stdev) == 1.0
  {
    MeanBetween(baseline, baseline[0], baseline[0]);
    ConstantStdev(stdev, baseline);
  }

  // ------------------------------------------------ alternative baselines

  /** The reciprocal of the width between the limits, 0 when they do not
      enclose a positive width. */
  function LimitPrecision(limits: ProcessLimits): (r: real)
    ensures limits.lowerLimit < limits.upperLimit ==> r > 0.0
    ensures limits.upperLimit <= limits.lowerLimit ==> r == 0.0
  {
    var range := limits.upperLimit - limits.lowerLimit;
    if range > 0.0 then 1.0 / range else 0.0
  }

  /** The metrics recorded for one candidate period, or None when the
      period is skipped (outside [6, n]) or a step raises. */
  function Evaluate(values: seq<real>, period: int, build: DetectorBuild, stdev: seq<real> -> real): (r: Option<BaselineMetrics>)
    ensures r.Some? ==> MinBaseline <= period <= |values|
  {
    if period < MinBaseline || period > |values| then None
    else
      var baseline := values[..period];
      match NaturalProcessLimits(baseline)
      case Failure(_) => None
      case Success(limits) =>
        match Detect(build, values, limits)
        case Failure(_) => None
        case Success(signals) =>
          Some(BaselineMetrics(
            |signals|,
            PointDensity(signals, |values|),
            LimitPrecision(limits),
            BaselineStabilityScore(baseline, stdev),
            limits.upperLimit,
            limits.lowerLimit,
            limits.average))
  }

  /** A period is evaluated exactly when it lies in [6, n], its baseline
      varies, and the detector can run. */
  lemma EvaluateSucceeds(values: seq<real>, period: int, build: DetectorBuild, stdev: seq<real> -> real)
    ensures Evaluate(values, period, build, stdev).Some? <==>
      MinBaseline <= period <= |values| && HasVariation(values[..period]) && build == IntendedBuild
  {
    if MinBaseline <= period <= |values| {
      NaturalProcessLimitsSpec(values[..period]);
    }
  }

  /** On non-negative data each recorded period has positive precision,
      limits around the baseline's average, and its density and stability
      in [0, 1]. */
  lemma EvaluateMetrics(values: seq<real>, period: int, build: DetectorBuild, stdev: seq<real> -> real)
    requires forall i | 0 <= i < |values| :: values[i] >= 0.0
    requires Evaluate(values, period, build, stdev).Some?
    ensures var m := Evaluate(values, period, build, stdev).value;
      m.limitPrecision > 0.0 &&
      0.0 <= m.lowerLimit <= m.average < m.upperLimit &&
      m.average == Mean(values[..period]) &&
      0.0 <= m.signalDensity <= 1.0 && 0.0 <= m.baselineStability <= 1.0
  {
    var baseline := values[..period];
    EvaluateFields(values, period, build, stdev);
    LimitsEncloseAverage(baseline);
    NaturalProcessLimitsSpec(baseline);
  }

  /** The fields of a recorded period, read off the limits of its baseline. */
  lemma EvaluateFields(values: seq<real>, period: int, build: DetectorBuild, stdev: seq<real> -> real)
    requires Evaluate(values, period, build, stdev).Some?
    ensures NaturalProcessLimits(values[..period]).Success?
    ensures Evaluate(values, period, build, stdev).value.average == NaturalProcessLimits(values[..period]).value.average
    ensures Evaluate(values, period, build, stdev).value.upperLimit == NaturalProcessLimits(values[..period]).value.upperLimit
    ensures Evaluate(values, period, build, stdev).value.lowerLimit == NaturalProcessLimits(values[..period]).value.lowerLimit
    ensures Evaluate(values, period, build, stdev).value.limitPrecision == LimitPrecision(NaturalProcessLimits(values[..period]).value)
    ensures 0.0 <= Evaluate(values, period, build, stdev).value.signalDensity <= 1.0
    ensures 0.0 <= Evaluate(values, period, build, stdev).value.baselineStability <= 1.0
  {
    var baseline := values[..period];
    var limits := NaturalProcessLimits(baseline).value;
    assert NaturalProcessLimits(baseline) == Success(limits);
  }


  /** `evaluate_alternative_baselines`: the metrics of every listed period
      that can be evaluated, keyed by period. */
  method EvaluateAlternativeBaselines(data: seq<DataPoint>, periods: seq<int>, build: DetectorBuild,
                                      stdev: seq<real> -> real)
    returns (results: map<int, BaselineMetrics>)
    ensures forall p :: p in results <==> p in periods && Evaluate(Values(data), p, build, stdev).Some?
    ensures forall p | p in results :: Evaluate(Values(data), p, build, stdev) == Some(results[p])
    ensures build == AsWrittenBuild ==> results == map[]
  {
    var values := Values(data);
    results := map[];
    for i := 0 to |periods|
      invariant forall p :: p in results <==> p in periods[..i] && Evaluate(values, p, build, stdev).Some?
      invariant forall p | p in results :: Evaluate(values, p, build, stdev) == Some(results[p])
    {
      assert periods[..i + 1] == periods[..i] + [periods[i]];
      var period := periods[i];
      var metrics := Evaluate(values, period, build, stdev);
      if metrics.Some? {
        results := results[period := metrics.value];
      }
    }
    assert periods[..|periods|] == periods;
    if build == AsWrittenBuild {
      assert forall p :: p !in results;
    }
  }
}

/*
 * Baseline-period recommendation
 * (backend/app/services/dynamic_baseline_calculator.py).
 *
 * The calculator scores how stable a series is, looks for shifts of the
 * mean, measures weekly and monthly seasonality, counts the points the
 * signal rules flag, and turns all of it into a recommended baseline
 * length between 6 and 20 points. `statistics.stdev` is a parameter (see
 * Stats.IsStdev); the clock is a parameter `now`.
 *
 * The signal detector cannot run as written (see SignalDetector), so every
 * use of it here takes a `DetectorBuild`: `AsWrittenBuild` follows the
 * source's exception handlers, `IntendedBuild` the detector as intended.
 */
module DynamicBaselineCalculator {
  import opened DataModels
  import opened Stats
  import opened Calendar
  import opened PbcCalculator
  import opened SignalDetector

  const MinBaseline: int := 6
  const MaxBaseline: int := 20
  /** The period used when the process is moderately stable. */
  const OptimalBaseline: int := 12

  /** Which signal detector the calculator calls. */
  datatype DetectorBuild = AsWrittenBuild | IntendedBuild

  function Values(data: seq<DataPoint>): (r: seq<real>)
    ensures |r| == |data| && forall i | 0 <= i < |data| :: r[i] == data[i].value
  {
    seq(|data|, i requires 0 <= i < |data| => data[i].value)
  }

  // ------------------------------------------------ stability classes

  /** `_classify_stability`: thresholds 0.8, 0.6 and 0.4. */
  function ClassifyStability(score: real): (r: BaselineStability)
    ensures r == Stable <==> score >= 0.8
    ensures r == Improving <==> 0.6 <= score < 0.8
    ensures r == Degrading <==> 0.4 <= score < 0.6
    ensures r == Unstable <==> score < 0.4
  {
    if score >= 0.8 then Stable
    else if score >= 0.6 then Improving
    else if score >= 0.4 then Degrading
    else Unstable
  }

  /** Unstable < Degrading < Improving < Stable. */
  function Rank(s: BaselineStability): nat
  {
    match s
    case Unstable => 0
    case Degrading => 1
    case Improving => 2
    case Stable => 3
  }

  /** A higher score never gets a worse class. */
  lemma ClassifyMonotone(a: real, b: real)
    requires a <= b
    ensures Rank(ClassifyStability(a)) <= Rank(ClassifyStability(b))
  {
  }

  // ------------------------------------------------ least squares

  /** 0 + 1 + ... + (n - 1). */
  function IndexSum(n: nat): real
  {
    if n == 0 then 0.0 else IndexSum(n - 1) + ((n - 1) as real)
  }

  /** 0² + 1² + ... + (n - 1)². */
  function IndexSquareSum(n: nat): real
  {
    if n == 0 then 0.0 else IndexSquareSum(n - 1) + ((n - 1) as real) * ((n - 1) as real)
  }

  /** The sum of `i * ys[i]`. */
  function WeightedSum(ys: seq<real>): real
  {
    if ys == [] then 0.0 else WeightedSum(ys[..|ys| - 1]) + ((|ys| - 1) as real) * ys[|ys| - 1]
  }

  /** `n * sum_x2 - sum_x * sum_x` over the indices 0 .. n - 1. */
  function SlopeDenominator(n: nat): real
  {
    (n as real) * IndexSquareSum(n) - IndexSum(n) * IndexSum(n)
  }

  /** `n * sum_xy - sum_x * sum_y`. */
  function SlopeNumerator(ys: seq<real>): real
  {
    (|ys| as real) * WeightedSum(ys) - IndexSum(|ys|) * Sum(ys)
  }

  /** The least-squares slope of `ys` against its indices, or None when the
      denominator vanishes. */
  function LeastSquaresSlope(ys: seq<real>): Option<real>
  {
    var den := SlopeDenominator(|ys|);
    if den == 0.0 then None else Some(SlopeNumerator(ys) / den)
  }

  // Polynomial identities behind the closed forms, each on its own.
  lemma IndexSumStep(m: real)
    ensures m * (m - 1.0) + 2.0 * m == (m + 1.0) * m
  {
  }

  lemma SquareSumStep(m: real)
    ensures (m - 1.0) * m * (2.0 * m - 1.0) + 6.0 * (m * m) == m * (m + 1.0) * (2.0 * (m + 1.0) - 1.0)
  {
  }

  lemma DenominatorIdentity(n: real, s: real, q: real)
    requires 2.0 * s == n * (n - 1.0) && 6.0 * q == (n - 1.0) * n * (2.0 * n - 1.0)
    ensures 12.0 * (n * q - s * s) == (n * n) * ((n - 1.0) * (n + 1.0))
  {
  }

  lemma PositiveProduct(r: real)
    requires r >= 2.0
    ensures (r * r) * ((r - 1.0) * (r + 1.0)) > 0.0
  {
    assert r * r > 0.0;
    assert (r - 1.0) * (r + 1.0) > 0.0;
  }

  lemma DenominatorPositive(n: real, s: real, q: real)
    requires n >= 2.0
    requires 2.0 * s == n * (n - 1.0) && 6.0 * q == (n - 1.0) * n * (2.0 * n - 1.0)
    ensures n * q - s * s > 0.0
  {
    DenominatorIdentity(n, s, q);
    PositiveProduct(n);
  }

  lemma {:induction false} IndexSumClosed(n: nat)
    ensures 2.0 * IndexSum(n) == (n as real) * ((n as real) - 1.0)
  {
    if n > 0 {
      IndexSumClosed(n - 1);
      IndexSumStep((n - 1) as real);
    }
  }

  lemma {:induction false} IndexSquareSumClosed(n: nat)
    ensures 6.0 * IndexSquareSum(n) == ((n as real) - 1.0) * (n as real) * (2.0 * (n as real) - 1.0)
  {
    if n > 0 {
      IndexSquareSumClosed(n - 1);
      SquareSumStep((n - 1) as real);
    }
  }

  /** The denominator is n²(n - 1)(n + 1)/12, positive from two points on:
      the "no slope" branch of the source is unreachable for series of
      three or more values. */
  lemma SlopeDenominatorPositive(n: nat)
    requires n >= 2
    ensures SlopeDenominator(n) > 0.0
  {
    IndexSumClosed(n);
    IndexSquareSumClosed(n);
    DenominatorPositive(n as real, IndexSum(n), IndexSquareSum(n));
  }

  /** So the slope is defined for every series of two or more values. */
  lemma SlopeDefined(ys: seq<real>)
    requires |ys| >= 2
    ensures LeastSquaresSlope(ys).Some?
  {
    SlopeDenominatorPositive(|ys|);
  }

  // ------------------------------------------------ trend stability

  /** `_calculate_trend_stability`: one minus the absolute slope relative to
      the range per point, floored at 0; 1 for fewer than three values, a
      vanishing denominator or a zero range. */
  function TrendStability(values: seq<real>): (r: real)
    ensures 0.0 <= r <= 1.0
    ensures |values| < 3 ==> r == 1.0
  {
    if |values| < 3 then 1.0
    else
      match LeastSquaresSlope(values)
      case None => 1.0
      case Some(slope) =>
        var range := MaxOf(values) - MinOf(values);
        if range == 0.0 then 1.0
        else Max(0.0, 1.0 - Abs(slope) / (range / (|values| as real)))
  }

  /** Constant data is perfectly stable. */
  lemma TrendStabilityOfConstant(values: seq<real>)
    requires forall i | 0 <= i < |values| :: values[i] == values[0]
    ensures TrendStability(values) == 1.0
  {
    if |values| >= 3 {
      assert MaxOf(values) in values && MinOf(values) in values;
    }
  }

  // ------------------------------------------------ data stability

  /** The coefficient of variation of the whole series: its standard
      deviation over its mean, 0 when the mean is 0. */
  function CoefficientOfVariation(values: seq<real>, stdev: seq<real> -> real): real
    requires |values| > 0
  {
    var meanVal := Mean(values);
    if meanVal == 0.0 then 0.0
    else (if |values| > 1 then stdev(values) else 0.0) / meanVal
  }

  /** One minus the coefficient of variation of the moving ranges, floored
      at 0; 1 when there are fewer than two ranges or their mean is 0. */
  function RangeConsistency(ranges: seq<real>, stdev: seq<real> -> real): (r: real)
    ensures r >= 0.0
    ensures !(|ranges| > 1 && Mean(ranges) > 0.0) ==> r == 1.0
  {
    if |ranges| > 1 && Mean(ranges) > 0.0 then Max(0.0, 1.0 - stdev(ranges) / Mean(ranges))
    else 1.0
  }

  /** `_calculate_data_stability`: 40% coefficient-of-variation term, 40%
      moving-range consistency, 20% trend stability, clamped to [0, 1];
      0 for fewer than three values. */
  function DataStabilityScore(values: seq<real>, stdev: seq<real> -> real): (r: real)
    ensures 0.0 <= r <= 1.0
    ensures |values| < 3 ==> r == 0.0
  {
    if |values| < 3 then 0.0
    else
      var cv := CoefficientOfVariation(values, stdev);
      var consistency := RangeConsistency(MovingRanges(values), stdev);
      var trend := TrendStability(values);
      Max(0.0, Min(1.0, (1.0 - Min(cv, 1.0)) * 0.4 + consistency * 0.4 + trend * 0.2))
  }

  /** The source's computation, collecting the moving ranges in a loop. */
  method CalculateDataStability(values: seq<real>, stdev: seq<real> -> real) returns (score: real)
    ensures score == DataStabilityScore(values, stdev)
    ensures 0.0 <= score <= 1.0
  {
    if |values| < 3 {
      return 0.0;
    }
    var meanVal := Mean(values);
    var cv := 0.0;
    if meanVal != 0.0 {
      cv := stdev(values) / meanVal;
    }
    var ranges := CalculateMovingRanges(values);
    var consistency := 1.0;
    if |ranges| > 1 {
      var rangeMean := Mean(ranges);
      if rangeMean > 0.0 {
        consistency := Max(0.0, 1.0 - stdev(ranges) / rangeMean);
      }
    }
    var trend := TrendStability(values);
    score := Max(0.0, Min(1.0, (1.0 - Min(cv, 1.0)) * 0.4 + consistency * 0.4 + trend * 0.2));
  }

  /** A constant series of three or more values scores a perfect 1. */
  lemma ConstantDataFullyStable(values: seq<real>, stdev: seq<real> -> real)
    requires IsStdev(stdev)
    requires |values| >= 3 && forall i | 0 <= i < |values| :: values[i] == values[0]
    ensures DataStabilityScore(values, stdev) == 1.0
  {
    var c := values[0];
    MeanBetween(values, c, c);
    ConstantVariance(values);
    assert CoefficientOfVariation(values, stdev) == 0.0;
    var ranges := MovingRanges(values);
    NoVariationGivesZeroRanges(values);
    MeanBetween(ranges, 0.0, 0.0);
    assert RangeConsistency(ranges, stdev) == 1.0;
    TrendStabilityOfConstant(values);
  }

  // ------------------------------------------------ process changes

  /** Distance between two indices. */
  function Distance(a: int, b: int): nat
  {
    if a >= b then a - b else b - a
  }

  /** `max(6, n // 4)`: the window of the change test. */
  function ChangeWindow(n: nat): (r: nat)
    ensures r >= 6 && r >= n / 4
  {
    if n / 4 > 6 then n / 4 else 6
  }

  /** The mean-shift test at index `i`: the `w` values before `i` and the
      `w` values from `i` on (cut at the ends of the series), each at least
      three long, have means more than two pooled standard deviations
      apart. */
  predicate MeanShift(values: seq<real>, i: nat, w: nat, stdev: seq<real> -> real)
    requires i <= |values|
  {
    var before := values[(if i >= w then i - w else 0)..i];
    var after := values[i..(if i + w <= |values| then i + w else |values|)];
    |before| >= 3 && |after| >= 3 &&
    var pooled := (stdev(before) + stdev(after)) / 2.0;
    pooled > 0.0 && Abs(Mean(after) - Mean(before)) / pooled > 2.0
  }

  /** The outcome of the mean-shift test at every index of the series. */
  function ShiftFlags(values: seq<real>, w: nat, stdev: seq<real> -> real): (r: seq<bool>)
    ensures |r| == |values|
  {
    seq(|values|, i requires 0 <= i < |values| => MeanShift(values, i, w, stdev))
  }

  lemma ShiftFlagAt(values: seq<real>, w: nat, stdev: seq<real> -> real, i: nat)
    requires i < |values|
    ensures ShiftFlags(values, w, stdev)[i] == MeanShift(values, i, w, stdev)
  {
  }

  /** The indices `w <= i < hi` whose flag is set, in ascending order. */
  function Candidates(flags: seq<bool>, w: nat, hi: int): (r: seq<int>)
    requires hi <= |flags|
    decreases hi
  {
    if hi <= w then []
    else Candidates(flags, w, hi - 1) + (if flags[hi - 1] then [hi - 1] else [])
  }

  /** Whether `cp` lies closer than 3 to a point already kept. */
  predicate NearKept(kept: seq<int>, cp: int)
  {
    exists e | e in kept :: Distance(cp, e) < 3
  }

  /** Keeps each point, in order, unless it lies closer than 3 to one kept
      before it. */
  function Separate(cps: seq<int>): seq<int>
  {
    if cps == [] then []
    else
      var kept := Separate(cps[..|cps| - 1]);
      if NearKept(kept, cps[|cps| - 1]) then kept else kept + [cps[|cps| - 1]]
  }

  /** The result of `_detect_process_changes`. */
  function ProcessChanges(values: seq<real>, stdev: seq<real> -> real): seq<int>
  {
    var n := |values|;
    if n < 12 then []
    else
      var w := ChangeWindow(n);
      Separate(Candidates(ShiftFlags(values, w, stdev), w, n - w))
  }

  /** The first loop of `_detect_process_changes`: the indices of
      [w, n - w) at which the test fires. */
  method FindCandidates(values: seq<real>, w: nat, stdev: seq<real> -> real) returns (candidates: seq<int>)
    requires 2 * w <= |values|
    ensures candidates == Candidates(ShiftFlags(values, w, stdev), w, |values| - w)
  {
    ghost var flags := ShiftFlags(values, w, stdev);
    candidates := [];
    for i := w to |values| - w
      invariant candidates == Candidates(flags, w, i)
    {
      if MeanShift(values, i, w, stdev) {
        candidates := candidates + [i];
      }
    }
  }

  /** The second loop: keeps each candidate not closer than 3 to one
      already kept. */
  method SeparateNearby(candidates: seq<int>) returns (kept: seq<int>)
    ensures kept == Separate(candidates)
  {
    kept := [];
    for k := 0 to |candidates|
      invariant kept == Separate(candidates[..k])
    {
      assert candidates[..k + 1][..k] == candidates[..k];
      if !NearKept(kept, candidates[k]) {
        kept := kept + [candidates[k]];
      }
    }
    assert candidates[..|candidates|] == candidates;
  }

  /** `_detect_process_changes`: nothing below 12 values; otherwise the
      separated candidates of the window max(6, n // 4). */
  method DetectProcessChanges(values: seq<real>, stdev: seq<real> -> real) returns (changePoints: seq<int>)
    ensures changePoints == ProcessChanges(values, stdev)
  {
    if |values| < 12 {
      return [];
    }
    var w := ChangeWindow(|values|);
    var candidates := FindCandidates(values, w, stdev);
    changePoints := SeparateNearby(candidates);
  }

  predicate StrictlyAscending(s: seq<int>)
  {
    forall i, j | 0 <= i < j < |s| :: s[i] < s[j]
  }

  /** Every element lies in [lo, hi). */
  predicate Within(s: seq<int>, lo: int, hi: int)
  {
    forall k | 0 <= k < |s| :: lo <= s[k] < hi
  }

  /** Every element is an index whose flag is set. */
  predicate AllFlagged(s: seq<int>, flags: seq<bool>)
  {
    forall k | 0 <= k < |s| :: 0 <= s[k] < |flags| && flags[s[k]]
  }

  /** Candidates lie in [w, hi) and have their flag set. */
  lemma {:induction false} CandidatesBounded(flags: seq<bool>, w: nat, hi: int)
    requires hi <= |flags|
    ensures Within(Candidates(flags, w, hi), w, hi)
    ensures AllFlagged(Candidates(flags, w, hi), flags)
    decreases hi
  {
    if hi > w {
      CandidatesBounded(flags, w, hi - 1);
    }
  }

  /** Candidates ascend strictly. */
  lemma {:induction false} CandidatesAscending(flags: seq<bool>, w: nat, hi: int)
    requires hi <= |flags|
    ensures StrictlyAscending(Candidates(flags, w, hi))
    decreases hi
  {
    if hi > w {
      var c' := Candidates(flags, w, hi - 1);
      CandidatesAscending(flags, w, hi - 1);
      CandidatesBounded(flags, w, hi - 1);
      var c := Candidates(flags, w, hi);
      forall i, j | 0 <= i < j < |c| ensures c[i] < c[j] {
        assert c[i] == c'[i];
        if j < |c'| {
          assert c[j] == c'[j];
        }
      }
    }
  }

  /** Every index in [w, hi) whose flag is set is a candidate. */
  lemma {:induction false} CandidatesComplete(flags: seq<bool>, w: nat, hi: int, i: nat)
    requires hi <= |flags| && w <= i < hi && flags[i]
    ensures i in Candidates(flags, w, hi)
    decreases hi
  {
    if i < hi - 1 {
      CandidatesComplete(flags, w, hi - 1, i);
    }
  }

  /** Filtering keeps a subsequence: every kept point is one of the input,
      and the earlier result is a prefix of the later one. */
  lemma {:induction false} SeparateSubset(cps: seq<int>)
    ensures forall x | x in Separate(cps) :: x in cps
  {
    if cps != [] {
      SeparateSubset(cps[..|cps| - 1]);
    }
  }

  /** Any two points at least 3 apart, in ascending order. */
  predicate Spaced(s: seq<int>)
  {
    forall i, j | 0 <= i < j < |s| :: s[j] - s[i] >= 3
  }

  /** On ascending input, the kept points ascend and any two of them are at
      least 3 apart. */
  lemma {:induction false} SeparateSpaced(cps: seq<int>)
    requires StrictlyAscending(cps)
    ensures Spaced(Separate(cps))
  {
    if cps != [] {
      var p := cps[..|cps| - 1];
      var cp := cps[|cps| - 1];
      var kept := Separate(p);
      assert StrictlyAscending(p);
      SeparateSpaced(p);
      SeparateSubset(p);
      if !NearKept(kept, cp) {
        var r := kept + [cp];
        forall i, j | 0 <= i < j < |r| ensures r[j] - r[i] >= 3 {
          if j == |kept| {
            assert r[i] in kept;
            var m :| 0 <= m < |p| && p[m] == r[i];
            assert cps[m] < cps[|cps| - 1];
            assert Distance(cp, r[i]) >= 3;
          } else {
            assert r[i] == kept[i] && r[j] == kept[j];
          }
        }
      }
    }
  }

  /** Every input point lies closer than 3 to some kept point. */
  lemma {:induction false} SeparateCovers(cps: seq<int>)
    ensures forall x | x in cps :: NearKept(Separate(cps), x)
  {
    if cps != [] {
      var p := cps[..|cps| - 1];
      var cp := cps[|cps| - 1];
      SeparateCovers(p);
      var kept := Separate(p);
      var r := Separate(cps);
      assert forall e | e in kept :: e in r;
      forall x | x in cps ensures NearKept(r, x) {
        if x in p {
          var e :| e in kept && Distance(x, e) < 3;
          assert e in r;
        } else {
          assert x == cp;
          if !NearKept(kept, cp) {
            assert cp in r && Distance(cp, cp) == 0;
          }
        }
      }
    }
  }

  /** The filtered candidates lie in [w, hi), are at least 3 apart and
      have their flag set. */
  lemma SeparatedCandidates(flags: seq<bool>, w: nat, hi: int)
    requires hi <= |flags|
    ensures Spaced(Separate(Candidates(flags, w, hi)))
    ensures Within(Separate(Candidates(flags, w, hi)), w, hi)
    ensures AllFlagged(Separate(Candidates(flags, w, hi)), flags)
  {
    var c := Candidates(flags, w, hi);
    CandidatesBounded(flags, w, hi);
    CandidatesAscending(flags, w, hi);
    SeparateSpaced(c);
    SeparateSubset(c);
    var r := Separate(c);
    forall k | 0 <= k < |r| ensures w <= r[k] < hi && 0 <= r[k] < |flags| && flags[r[k]] {
      assert r[k] in c;
    }
  }

  /** `_detect_process_changes` reports nothing below 12 values; otherwise
      its points lie in [w, n - w) for w = max(6, n // 4), ascend, and are
      at least 3 apart. */
  lemma ProcessChangesShape(values: seq<real>, stdev: seq<real> -> real)
    ensures var r := ProcessChanges(values, stdev);
      var n := |values|;
      var w := ChangeWindow(n);
      (n < 12 ==> r == []) && Spaced(r) && Within(r, w, n - w)
  {
    var n := |values|;
    if n >= 12 {
      var w := ChangeWindow(n);
      SeparatedCandidates(ShiftFlags(values, w, stdev), w, n - w);
    }
  }

  /** Every reported point passes the mean-shift test. */
  lemma ProcessChangesPass(values: seq<real>, stdev: seq<real> -> real, k: nat)
    requires k < |ProcessChanges(values, stdev)|
    ensures var r := ProcessChanges(values, stdev);
      0 <= r[k] < |values| && MeanShift(values, r[k], ChangeWindow(|values|), stdev)
  {
    var n := |values|;
    var w := ChangeWindow(n);
    var flags := ShiftFlags(values, w, stdev);
    SeparatedCandidates(flags, w, n - w);
    var r := ProcessChanges(values, stdev);
    assert flags[r[k]];
    ShiftFlagAt(values, w, stdev, r[k]);
  }

  /** Every flagged index of [w, hi) lies closer than 3 to a kept one. */
  lemma SeparatedCandidatesCover(flags: seq<bool>, w: nat, hi: int, i: nat)
    requires hi <= |flags| && w <= i < hi && flags[i]
    ensures NearKept(Separate(Candidates(flags, w, hi)), i)
  {
    CandidatesComplete(flags, w, hi, i);
    SeparateCovers(Candidates(flags, w, hi));
  }

  /** No shift is lost: every index in [w, n - w) that passes the test lies
      closer than 3 to a reported point. */
  lemma ProcessChangesComplete(values: seq<real>, stdev: seq<real> -> real, i: nat)
    requires |values| >= 12
    requires var w := ChangeWindow(|values|);
      w <= i < |values| - w && MeanShift(values, i, w, stdev)
    ensures NearKept(ProcessChanges(values, stdev), i)
  {
    var w := ChangeWindow(|values|);
    var flags := ShiftFlags(values, w, stdev);
    ShiftFlagAt(values, w, stdev, i);
    assert flags[i];
    assert ProcessChanges(values, stdev) == Separate(Candidates(flags, w, |values| - w));
    SeparatedCandidatesCover(flags, w, |values| - w, i);
  }

  /** With no flag set in [w, hi) there is no candidate. */
  lemma {:induction false} CandidatesNone(flags: seq<bool>, w: nat, hi: int)
    requires hi <= |flags|
    requires forall i | w <= i < hi :: !flags[i]
    ensures Candidates(flags, w, hi) == []
    decreases hi
  {
    if hi > w {
      CandidatesNone(flags, w, hi - 1);
    }
  }

  /** Two constant windows have no spread, so the test never fires on a
      constant series. */
  lemma ConstantNoShift(values: seq<real>, stdev: seq<real> -> real, i: nat, w: nat)
    requires IsStdev(stdev)
    requires i <= |values| && forall j | 0 <= j < |values| :: values[j] == values[0]
    ensures !MeanShift(values, i, w, stdev)
  {
    var lo := if i >= w then i - w else 0;
    var hi := if i + w <= |values| then i + w else |values|;
    if i - lo >= 3 && hi - i >= 3 {
      ConstantSliceStdev(stdev, values, lo, i);
      ConstantSliceStdev(stdev, values, i, hi);
    }
  }

  /** A constant series has no change points. */
  lemma ConstantDataNoChanges(values: seq<real>, stdev: seq<real> -> real)
    requires IsStdev(stdev)
    requires forall i | 0 <= i < |values| :: values[i] == values[0]
    ensures ProcessChanges(values, stdev) == []
  {
    if |values| >= 12 {
      var w := ChangeWindow(|values|);
      var flags := ShiftFlags(values, w, stdev);
      ProcessChangesLong(values, stdev);
      ConstantNoFlags(values, stdev, w);
      CandidatesNone(flags, w, |values| - w);
    }
  }

  /** From 12 values on, the change points are the separated candidates. */
  lemma ProcessChangesLong(values: seq<real>, stdev: seq<real> -> real)
    requires |values| >= 12
    ensures var w := ChangeWindow(|values|);
      ProcessChanges(values, stdev) == Separate(Candidates(ShiftFlags(values, w, stdev), w, |values| - w))
  {
  }

  /** No index of a constant series is flagged. */
  lemma ConstantNoFlags(values: seq<real>, stdev: seq<real> -> real, w: nat)
    requires IsStdev(stdev)
    requires forall i | 0 <= i < |values| :: values[i] == values[0]
    ensures forall i | 0 <= i < |values| :: !ShiftFlags(values, w, stdev)[i]
  {
    forall i | 0 <= i < |values| ensures !ShiftFlags(values, w, stdev)[i] {
      ShiftFlagAt(values, w, stdev, i);
      ConstantNoShift(values, stdev, i, w);
    }
  }
}

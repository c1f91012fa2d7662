/*
 * The four Western Electric detection rules
 * (backend/app/services/signal_detector.py).
 *
 * Each rule is a method that scans the series and appends signals as the
 * source does, proved equal to a recursive specification function; lemmas
 * then say which indices each specification flags, in which order.
 *
 * Two defects of the source are recorded here and modelled on their own:
 *  - `detect_all_signals` calls `self._calculate_sigma_lines`, but that
 *    helper is defined at module level after the class, so the lookup
 *    raises AttributeError before any rule runs
 *    (DetectAllSignalsAsWritten). DetectAllSignals is the intended
 *    concatenation, with the sigma lines computed by SigmaLinesOf.
 *  - rules 2, 3 and 4 build `Signal(..., data_points=...)`; the record's
 *    field is `dataPoints`, so the constructor fails validation the first
 *    time one of these rules would report (Rule2AsWritten, Rule3AsWritten,
 *    Rule4AsWritten). DetectRule2/3/4 are the intended rules.
 */
module SignalDetector {
  import opened DataModels
  import opened PbcCalculator

  const Rule1Description: string := "Point outside natural process limits - dominant assignable cause"
  const Rule2Description: string := "Two out of three points beyond 2-sigma - moderate process change"
  const Rule3Description: string := "Four out of five points beyond 1-sigma - small sustained shift"
  const Rule4Description: string := "Eight successive values on same side - sustained shift"

  /** The indices lo, lo + 1, ..., hi - 1, as Python's `list(range(lo, hi))`. */
  function Range(lo: int, hi: int): (r: seq<int>)
    requires lo <= hi
    ensures |r| == hi - lo && forall k | 0 <= k < |r| :: r[k] == lo + k
  {
    seq(hi - lo, k requires 0 <= k < hi - lo => lo + k)
  }

  /** The first index a signal names, or -1 for a signal that names none. */
  function FirstIndex(s: Signal): int
  {
    if s.dataPoints == [] then -1 else s.dataPoints[0]
  }

  // ---------------------------------------------------------------- rule 1

  predicate OutsideLimits(v: real, limits: ProcessLimits)
  {
    v > limits.upperLimit || v < limits.lowerLimit
  }

  function Rule1Signal(i: int): Signal
  {
    Signal(Rule1, [i], Rule1Description, "high")
  }

  /** Rule-1 signals for the points before index `k`. */
  function Rule1Upto(data: seq<real>, limits: ProcessLimits, k: nat): seq<Signal>
    requires k <= |data|
  {
    if k == 0 then []
    else Rule1Upto(data, limits, k - 1) + (if OutsideLimits(data[k - 1], limits) then [Rule1Signal(k - 1)] else [])
  }

  function Rule1Signals(data: seq<real>, limits: ProcessLimits): seq<Signal>
  {
    Rule1Upto(data, limits, |data|)
  }

  /** `detect_rule1_signals`. */
  method DetectRule1(data: seq<real>, limits: ProcessLimits) returns (signals: seq<Signal>)
    ensures signals == Rule1Signals(data, limits)
  {
    signals := [];
    for index := 0 to |data|
      invariant signals == Rule1Upto(data, limits, index)
    {
      if data[index] > limits.upperLimit || data[index] < limits.lowerLimit {
        signals := signals + [Rule1Signal(index)];
      }
    }
  }

  /** Rule 1 flags exactly the points outside the limits, one signal each,
      in ascending order of index, each of severity "high". */
  lemma {:induction false} Rule1Exact(data: seq<real>, limits: ProcessLimits, k: nat)
    requires k <= |data|
    ensures var s := Rule1Upto(data, limits, k);
      (forall j | 0 <= j < |s| ::
         |s[j].dataPoints| == 1 && 0 <= s[j].dataPoints[0] < k &&
         s[j] == Rule1Signal(s[j].dataPoints[0]) && s[j].severity == "high" &&
         OutsideLimits(data[s[j].dataPoints[0]], limits)) &&
      (forall j1, j2 | 0 <= j1 < j2 < |s| :: s[j1].dataPoints[0] < s[j2].dataPoints[0]) &&
      (forall i | 0 <= i < k :: Rule1Signal(i) in s <==> OutsideLimits(data[i], limits))
  {
    if k > 0 {
      Rule1Exact(data, limits, k - 1);
      var p := Rule1Upto(data, limits, k - 1);
      var s := Rule1Upto(data, limits, k);
      forall i | 0 <= i < k ensures Rule1Signal(i) in s <==> OutsideLimits(data[i], limits) {
        if i < k - 1 {
          assert Rule1Signal(i) != Rule1Signal(k - 1);
        }
      }
    }
  }

  // ------------------------------------------------------- rules 2 and 3

  /** Number of values strictly above `t`. */
  function CountAbove(w: seq<real>, t: real): (r: nat)
    ensures r <= |w|
  {
    if w == [] then 0 else CountAbove(w[..|w| - 1], t) + (if w[|w| - 1] > t then 1 else 0)
  }

  /** Number of values strictly below `t`. */
  function CountBelow(w: seq<real>, t: real): (r: nat)
    ensures r <= |w|
  {
    if w == [] then 0 else CountBelow(w[..|w| - 1], t) + (if w[|w| - 1] < t then 1 else 0)
  }

  /** When every value is above `t`, all of them are counted. */
  lemma {:induction false} CountAboveAll(w: seq<real>, t: real)
    requires forall i | 0 <= i < |w| :: w[i] > t
    ensures CountAbove(w, t) == |w|
  {
    if w != [] {
      CountAboveAll(w[..|w| - 1], t);
    }
  }

  /** When no value is below `t`, none is counted. */
  lemma {:induction false} CountBelowNone(w: seq<real>, t: real)
    requires forall i | 0 <= i < |w| :: w[i] >= t
    ensures CountBelow(w, t) == 0
  {
    if w != [] {
      CountBelowNone(w[..|w| - 1], t);
    }
  }

  /** No value is both above `upper` and below `lower` when lower <= upper. */
  lemma {:induction false} CountsDisjoint(w: seq<real>, upper: real, lower: real)
    requires lower <= upper
    ensures CountAbove(w, upper) + CountBelow(w, lower) <= |w|
  {
    if w != [] {
      CountsDisjoint(w[..|w| - 1], upper, lower);
    }
  }

  /** A windowed zone rule: a window of `size` points fires on one side when
      at least `needed` of its values lie strictly beyond that side's line. */
  datatype ZoneRule = ZoneRule(size: nat, needed: nat, upper: real, lower: real,
                               ruleType: DetectionRuleType, description: string)

  function WindowSignal(z: ZoneRule, i: int): Signal
  {
    Signal(z.ruleType, Range(i, i + z.size), z.description, "moderate")
  }

  predicate FiresAbove(data: seq<real>, z: ZoneRule, i: nat)
    requires i + z.size <= |data|
  {
    CountAbove(data[i..i + z.size], z.upper) >= z.needed
  }

  predicate FiresBelow(data: seq<real>, z: ZoneRule, i: nat)
    requires i + z.size <= |data|
  {
    CountBelow(data[i..i + z.size], z.lower) >= z.needed
  }

  /** Number of window starts the source's `range(len(data) - size + 1)` visits. */
  function WindowStarts(data: seq<real>, z: ZoneRule): (r: nat)
    ensures r > 0 ==> z.size > 0 && r + z.size == |data| + 1
  {
    if |data| >= z.size && z.size > 0 then |data| - z.size + 1 else 0
  }

  /** Signals of the windows starting before `k`: for each window, the
      upper-side signal first, then the lower-side one. */
  function WindowsUpto(data: seq<real>, z: ZoneRule, k: nat): seq<Signal>
    requires k == 0 || k + z.size <= |data| + 1
  {
    if k == 0 then []
    else
      WindowsUpto(data, z, k - 1) +
      (if FiresAbove(data, z, k - 1) then [WindowSignal(z, k - 1)] else []) +
      (if FiresBelow(data, z, k - 1) then [WindowSignal(z, k - 1)] else [])
  }

  function ZoneSignals(data: seq<real>, z: ZoneRule): seq<Signal>
  {
    WindowsUpto(data, z, WindowStarts(data, z))
  }

  method DetectZoneRule(data: seq<real>, z: ZoneRule) returns (signals: seq<Signal>)
    ensures signals == ZoneSignals(data, z)
  {
    signals := [];
    var starts := WindowStarts(data, z);
    for i := 0 to starts
      invariant signals == WindowsUpto(data, z, i)
    {
      var window := data[i..i + z.size];
      var indices := Range(i, i + z.size);
      var upperCount := CountAbove(window, z.upper);
      if upperCount >= z.needed {
        signals := signals + [Signal(z.ruleType, indices, z.description, "moderate")];
      }
      var lowerCount := CountBelow(window, z.lower);
      if lowerCount >= z.needed {
        signals := signals + [Signal(z.ruleType, indices, z.description, "moderate")];
      }
    }
  }

  predicate Fires(data: seq<real>, z: ZoneRule, i: nat)
    requires i + z.size <= |data|
  {
    FiresAbove(data, z, i) || FiresBelow(data, z, i)
  }

  /** The signals of the windows before `k` are those before `k - 1`,
      then the window `k - 1` once per side on which it fires. */
  lemma WindowsUptoElem(data: seq<real>, z: ZoneRule, k: nat, j: nat)
    requires 0 < k <= WindowStarts(data, z)
    requires j < |WindowsUpto(data, z, k)|
    ensures var p := WindowsUpto(data, z, k - 1);
      var s := WindowsUpto(data, z, k);
      (j < |p| && s[j] == p[j]) ||
      (j >= |p| && s[j] == WindowSignal(z, k - 1) && Fires(data, z, k - 1))
  {
  }

  /** `sig` is the signal of a window, starting at its first index, that
      fires. */
  predicate ReportsWindow(data: seq<real>, z: ZoneRule, sig: Signal)
  {
    0 <= FirstIndex(sig) && FirstIndex(sig) + z.size <= |data| &&
    sig == WindowSignal(z, FirstIndex(sig)) && Fires(data, z, FirstIndex(sig))
  }

  /** Every zone signal names the full index range of a window, before
      `k`, that fired. */
  lemma {:induction false} ZoneSound(data: seq<real>, z: ZoneRule, k: nat)
    requires k <= WindowStarts(data, z)
    ensures forall j | 0 <= j < |WindowsUpto(data, z, k)| ::
      FirstIndex(WindowsUpto(data, z, k)[j]) < k && ReportsWindow(data, z, WindowsUpto(data, z, k)[j])
  {
    if k > 0 {
      ZoneSound(data, z, k - 1);
      var s := WindowsUpto(data, z, k);
      assert FirstIndex(WindowSignal(z, k - 1)) == k - 1;
      forall j | 0 <= j < |s|
        ensures FirstIndex(s[j]) < k && ReportsWindow(data, z, s[j])
      {
        WindowsUptoElem(data, z, k, j);
      }
    }
  }

  /** Zone signals appear in ascending order of their window's start. */
  lemma {:induction false} ZoneOrdered(data: seq<real>, z: ZoneRule, k: nat)
    requires k <= WindowStarts(data, z)
    ensures var s := WindowsUpto(data, z, k);
      forall j1, j2 | 0 <= j1 < j2 < |s| :: FirstIndex(s[j1]) <= FirstIndex(s[j2])
  {
    if k > 0 {
      ZoneOrdered(data, z, k - 1);
      ZoneSound(data, z, k - 1);
      var s := WindowsUpto(data, z, k);
      assert FirstIndex(WindowSignal(z, k - 1)) == k - 1;
      forall j1, j2 | 0 <= j1 < j2 < |s| ensures FirstIndex(s[j1]) <= FirstIndex(s[j2]) {
        WindowsUptoElem(data, z, k, j1);
        WindowsUptoElem(data, z, k, j2);
      }
    }
  }

  /** Every window before `k` that fires is reported, and only those. */
  lemma {:induction false} ZoneComplete(data: seq<real>, z: ZoneRule, k: nat)
    requires k <= WindowStarts(data, z)
    ensures var s := WindowsUpto(data, z, k);
      forall i | 0 <= i < k :: WindowSignal(z, i) in s <==> Fires(data, z, i)
  {
    if k > 0 {
      ZoneComplete(data, z, k - 1);
      ZoneSound(data, z, k - 1);
      var p := WindowsUpto(data, z, k - 1);
      var s := WindowsUpto(data, z, k);
      assert FirstIndex(WindowSignal(z, k - 1)) == k - 1;
      forall j | 0 <= j < |p| ensures p[j] != WindowSignal(z, k - 1) {
        assert FirstIndex(p[j]) < k - 1;
      }
      forall i | 0 <= i < k ensures WindowSignal(z, i) in s <==> Fires(data, z, i) {
        assert FirstIndex(WindowSignal(z, i)) == i;
        if WindowSignal(z, i) in s {
          var j :| 0 <= j < |s| && s[j] == WindowSignal(z, i);
          WindowsUptoElem(data, z, k, j);
        }
      }
    }
  }

  /** When the lower line is not above the upper one and more than half the
      window is needed, no window fires on both sides, so window starts are
      strictly ascending. */
  lemma {:induction false} ZoneOneSided(data: seq<real>, z: ZoneRule, k: nat)
    requires k <= WindowStarts(data, z)
    requires z.lower <= z.upper && z.size < 2 * z.needed
    ensures var s := WindowsUpto(data, z, k);
      forall j1, j2 | 0 <= j1 < j2 < |s| :: FirstIndex(s[j1]) < FirstIndex(s[j2])
  {
    if k > 0 {
      ZoneOneSided(data, z, k - 1);
      ZoneSound(data, z, k - 1);
      var i := k - 1;
      var p := WindowsUpto(data, z, i);
      var s := WindowsUpto(data, z, k);
      CountsDisjoint(data[i..i + z.size], z.upper, z.lower);
      assert !(FiresAbove(data, z, i) && FiresBelow(data, z, i));
      assert |s| <= |p| + 1;
      assert FirstIndex(WindowSignal(z, i)) == i;
      forall j1, j2 | 0 <= j1 < j2 < |s| ensures FirstIndex(s[j1]) < FirstIndex(s[j2]) {
        WindowsUptoElem(data, z, k, j1);
        WindowsUptoElem(data, z, k, j2);
      }
    }
  }

  /** A zone rule reports nothing exactly when no window fires. */
  lemma ZoneSignalsEmpty(data: seq<real>, z: ZoneRule)
    ensures ZoneSignals(data, z) == [] <==>
      forall i | 0 <= i < WindowStarts(data, z) :: !FiresAbove(data, z, i) && !FiresBelow(data, z, i)
  {
    var n := WindowStarts(data, z);
    ZoneSound(data, z, n);
    ZoneComplete(data, z, n);
    var s := ZoneSignals(data, z);
    if s != [] {
      assert 0 <= FirstIndex(s[0]) < n;
      assert Fires(data, z, FirstIndex(s[0]));
    } else {
      forall i | 0 <= i < n ensures !FiresAbove(data, z, i) && !FiresBelow(data, z, i) {
        assert !Fires(data, z, i);
      }
    }
  }

  function Rule2Zone(sigma: SigmaLines): ZoneRule
  {
    ZoneRule(3, 2, sigma.twoSigmaUpper, sigma.twoSigmaLower, Rule2, Rule2Description)
  }

  function Rule3Zone(sigma: SigmaLines): ZoneRule
  {
    ZoneRule(5, 4, sigma.oneSigmaUpper, sigma.oneSigmaLower, Rule3, Rule3Description)
  }

  /** `detect_rule2_signals` (intended): windows of three consecutive
      points, at least two strictly beyond the same 2-sigma line. The
      average is a parameter of the source that the rule does not use. */
  method DetectRule2(data: seq<real>, average: real, sigma: SigmaLines) returns (signals: seq<Signal>)
    ensures signals == ZoneSignals(data, Rule2Zone(sigma))
    ensures |data| < 3 ==> signals == []
  {
    signals := DetectZoneRule(data, Rule2Zone(sigma));
  }

  /** `detect_rule3_signals` (intended): windows of five consecutive points,
      at least four strictly beyond the same 1-sigma line. */
  method DetectRule3(data: seq<real>, average: real, sigma: SigmaLines) returns (signals: seq<Signal>)
    ensures signals == ZoneSignals(data, Rule3Zone(sigma))
    ensures |data| < 5 ==> signals == []
  {
    signals := DetectZoneRule(data, Rule3Zone(sigma));
  }

  /** With the sigma lines of any limits whose average and average moving
      range are not negative, no rule-2 or rule-3 window fires on both
      sides: window starts are strictly ascending. */
  lemma ZoneRulesOneSided(data: seq<real>, limits: ProcessLimits)
    requires limits.averageMovingRange >= 0.0 && limits.average >= 0.0
    ensures var s := ZoneSignals(data, Rule2Zone(SigmaLinesOf(limits)));
      forall j1, j2 | 0 <= j1 < j2 < |s| :: FirstIndex(s[j1]) < FirstIndex(s[j2])
    ensures var s := ZoneSignals(data, Rule3Zone(SigmaLinesOf(limits)));
      forall j1, j2 | 0 <= j1 < j2 < |s| :: FirstIndex(s[j1]) < FirstIndex(s[j2])
  {
    var sigma := SigmaLinesOf(limits);
    var z2, z3 := Rule2Zone(sigma), Rule3Zone(sigma);
    ZoneOneSided(data, z2, WindowStarts(data, z2));
    ZoneOneSided(data, z3, WindowStarts(data, z3));
    assert ZoneSignals(data, z2) == WindowsUpto(data, z2, WindowStarts(data, z2));
    assert ZoneSignals(data, z3) == WindowsUpto(data, z3, WindowStarts(data, z3));
  }

  // ---------------------------------------------------------------- rule 4

  /** The side of the average a value lies on: "above" when strictly
      greater, otherwise "below" (ties count as below). */
  predicate Above(v: real, average: real)
  {
    v > average
  }

  predicate SameSide(data: seq<real>, average: real, lo: nat, hi: nat)
    requires lo < hi <= |data|
  {
    forall k | lo <= k < hi :: Above(data[k], average) == Above(data[lo], average)
  }

  /** A maximal run: the points of [lo, hi) share one side and the run
      cannot be extended on either end. */
  predicate MaximalRun(data: seq<real>, average: real, lo: nat, hi: nat)
    requires lo < hi <= |data|
  {
    SameSide(data, average, lo, hi) &&
    (lo == 0 || Above(data[lo - 1], average) != Above(data[lo], average)) &&
    (hi == |data| || Above(data[hi], average) != Above(data[lo], average))
  }

  function Rule4Signal(lo: int, hi: int): Signal
    requires lo <= hi
  {
    Signal(Rule4, Range(lo, hi), Rule4Description, "low")
  }

  /** End of the run of same-side points that contains index `i`. */
  function RunEnd(data: seq<real>, average: real, i: nat): (r: nat)
    requires i < |data|
    ensures i < r <= |data| && SameSide(data, average, i, r)
    ensures r == |data| || Above(data[r], average) != Above(data[i], average)
    decreases |data| - i
  {
    if i + 1 < |data| && Above(data[i + 1], average) == Above(data[i], average)
    then RunEnd(data, average, i + 1) else i + 1
  }

  lemma {:induction false} RunEndAt(data: seq<real>, average: real, lo: nat, hi: nat)
    requires lo < hi <= |data| && SameSide(data, average, lo, hi)
    requires hi == |data| || Above(data[hi], average) != Above(data[lo], average)
    ensures RunEnd(data, average, lo) == hi
    decreases hi - lo
  {
    if lo + 1 < hi {
      RunEndAt(data, average, lo + 1, hi);
    }
  }

  /** Signals of the runs from index `i` on, `i` being the start of a run. */
  function RunSignalsFrom(data: seq<real>, average: real, i: nat): seq<Signal>
    requires i <= |data|
    decreases |data| - i
  {
    if i == |data| then []
    else
      var e := RunEnd(data, average, i);
      (if e - i >= 8 then [Rule4Signal(i, e)] else []) + RunSignalsFrom(data, average, e)
  }

  function Rule4Signals(data: seq<real>, average: real): seq<Signal>
  {
    RunSignalsFrom(data, average, 0)
  }

  /** A run start followed by a whole run [lo, hi): its signal, if any,
      then the signals of the runs from hi on. */
  lemma RunSignalsStep(data: seq<real>, average: real, lo: nat, hi: nat)
    requires lo < hi <= |data| && SameSide(data, average, lo, hi)
    requires hi == |data| || Above(data[hi], average) != Above(data[lo], average)
    ensures RunSignalsFrom(data, average, lo) ==
      (if hi - lo >= 8 then [Rule4Signal(lo, hi)] else []) + RunSignalsFrom(data, average, hi)
  {
    RunEndAt(data, average, lo, hi);
  }

  /** Closing the run [lo, hi) keeps the scan's invariant: the signals so
      far followed by those of the runs still to come are all of rule 4's. */
  lemma CloseRun(data: seq<real>, average: real, signals: seq<Signal>, lo: nat, hi: nat)
    requires lo < hi <= |data| && SameSide(data, average, lo, hi)
    requires hi == |data| || Above(data[hi], average) != Above(data[lo], average)
    requires signals + RunSignalsFrom(data, average, lo) == Rule4Signals(data, average)
    ensures hi - lo >= 8 ==>
      signals + [Rule4Signal(lo, hi)] + RunSignalsFrom(data, average, hi) == Rule4Signals(data, average)
    ensures hi - lo < 8 ==> signals + RunSignalsFrom(data, average, hi) == Rule4Signals(data, average)
  {
    RunSignalsStep(data, average, lo, hi);
    if hi - lo >= 8 {
      assert signals + RunSignalsFrom(data, average, lo) ==
        signals + ([Rule4Signal(lo, hi)] + RunSignalsFrom(data, average, hi));
    } else {
      assert [] + RunSignalsFrom(data, average, hi) == RunSignalsFrom(data, average, hi);
    }
  }

  /** `detect_rule4_signals` (intended): tracks the current side, the length
      of the current run and where it started; a run of eight or more is
      reported when the side changes and once more after the last point. */
  method DetectRule4(data: seq<real>, average: real) returns (signals: seq<Signal>)
    ensures signals == Rule4Signals(data, average)
  {
    signals := [];
    var currentRun: nat := 0;
    var currentSide: Option<bool> := None;
    var runStart: nat := 0;
    for index := 0 to |data|
      invariant index == 0 ==> currentSide == None && currentRun == 0 && runStart == 0 && signals == []
      invariant index > 0 ==> runStart < index && currentRun == index - runStart
      invariant index > 0 ==> currentSide == Some(Above(data[runStart], average))
      invariant index > 0 ==> SameSide(data, average, runStart, index)
      invariant index > 0 ==> signals + RunSignalsFrom(data, average, runStart) == Rule4Signals(data, average)
    {
      var side := Above(data[index], average);
      if currentSide == Some(side) {
        currentRun := currentRun + 1;
      } else {
        if index > 0 {
          CloseRun(data, average, signals, runStart, index);
        }
        if currentRun >= 8 {
          signals := signals + [Rule4Signal(runStart, runStart + currentRun)];
        }
        currentSide := Some(side);
        currentRun := 1;
        runStart := index;
      }
    }
    if |data| > 0 {
      CloseRun(data, average, signals, runStart, |data|);
    }
    if currentRun >= 8 {
      signals := signals + [Rule4Signal(runStart, runStart + currentRun)];
    }
  }

  /** `i` starts a run: it is 0, the end of the data, or its side differs
      from the previous point's. */
  predicate RunBoundary(data: seq<real>, average: real, i: nat)
    requires i <= |data|
  {
    i == 0 || i == |data| || Above(data[i - 1], average) != Above(data[i], average)
  }

  lemma RunEndIsBoundary(data: seq<real>, average: real, i: nat)
    requires i < |data|
    ensures RunBoundary(data, average, RunEnd(data, average, i))
  {
    var e := RunEnd(data, average, i);
    if e < |data| {
      assert Above(data[e - 1], average) == Above(data[i], average);
    }
  }

  /** `sig` is the signal of a maximal run of eight or more points that
      starts at its first index. */
  predicate ReportsRun(data: seq<real>, average: real, sig: Signal)
  {
    var lo := FirstIndex(sig);
    var hi := lo + |sig.dataPoints|;
    0 <= lo && lo + 8 <= hi <= |data| && sig == Rule4Signal(lo, hi) &&
    MaximalRun(data, average, lo, hi)
  }

  /** The signals from a run start: the run's own signal, if it is long
      enough, followed by those of the later runs. */
  lemma RunSignalsElem(data: seq<real>, average: real, i: nat, j: nat)
    requires i < |data| && RunBoundary(data, average, i)
    requires j < |RunSignalsFrom(data, average, i)|
    ensures var e := RunEnd(data, average, i);
      var s := RunSignalsFrom(data, average, i);
      var t := RunSignalsFrom(data, average, e);
      (e - i >= 8 && j == 0 && s[j] == Rule4Signal(i, e) && ReportsRun(data, average, s[j]) && FirstIndex(s[j]) == i) ||
      (e - i >= 8 && j > 0 && s[j] == t[j - 1]) ||
      (e - i < 8 && s[j] == t[j])
  {
    var e := RunEnd(data, average, i);
    assert FirstIndex(Rule4Signal(i, e)) == i;
  }

  /** Every rule-4 signal from a run start `i` on is the full index range of
      a maximal run of eight or more points, starting at or after `i`. */
  lemma {:induction false} Rule4Sound(data: seq<real>, average: real, i: nat)
    requires i <= |data| && RunBoundary(data, average, i)
    ensures forall j | 0 <= j < |RunSignalsFrom(data, average, i)| ::
      i <= FirstIndex(RunSignalsFrom(data, average, i)[j]) &&
      ReportsRun(data, average, RunSignalsFrom(data, average, i)[j])
    decreases |data| - i
  {
    if i < |data| {
      var e := RunEnd(data, average, i);
      RunEndIsBoundary(data, average, i);
      Rule4Sound(data, average, e);
      var s := RunSignalsFrom(data, average, i);
      forall j | 0 <= j < |s| ensures i <= FirstIndex(s[j]) && ReportsRun(data, average, s[j]) {
        RunSignalsElem(data, average, i, j);
      }
    }
  }

  /** Rule-4 signals are disjoint and in ascending order: each ends before
      the next begins. */
  lemma {:induction false} Rule4Ordered(data: seq<real>, average: real, i: nat)
    requires i <= |data| && RunBoundary(data, average, i)
    ensures var s := RunSignalsFrom(data, average, i);
      forall j1, j2 | 0 <= j1 < j2 < |s| ::
        FirstIndex(s[j1]) + |s[j1].dataPoints| <= FirstIndex(s[j2])
    decreases |data| - i
  {
    if i < |data| {
      var e := RunEnd(data, average, i);
      RunEndIsBoundary(data, average, i);
      Rule4Ordered(data, average, e);
      Rule4Sound(data, average, e);
      var s := RunSignalsFrom(data, average, i);
      forall j1, j2 | 0 <= j1 < j2 < |s|
        ensures FirstIndex(s[j1]) + |s[j1].dataPoints| <= FirstIndex(s[j2])
      {
        RunSignalsElem(data, average, i, j1);
        RunSignalsElem(data, average, i, j2);
      }
    }
  }

  /** Every maximal run of eight or more points from a run start `i` on is
      reported. */
  lemma {:induction false} Rule4Complete(data: seq<real>, average: real, i: nat)
    requires i <= |data| && RunBoundary(data, average, i)
    ensures var s := RunSignalsFrom(data, average, i);
      forall lo, hi | i <= lo < hi <= |data| && hi - lo >= 8 && MaximalRun(data, average, lo, hi) ::
        Rule4Signal(lo, hi) in s
    decreases |data| - i
  {
    if i < |data| {
      var e := RunEnd(data, average, i);
      RunEndIsBoundary(data, average, i);
      Rule4Complete(data, average, e);
      var s := RunSignalsFrom(data, average, i);
      forall lo, hi | i <= lo < hi <= |data| && hi - lo >= 8 && MaximalRun(data, average, lo, hi)
        ensures Rule4Signal(lo, hi) in s
      {
        if lo == i {
          RunEndAt(data, average, lo, hi);
        } else {
          assert e <= lo;
        }
      }
    }
  }

  /** Rule 4 reports nothing exactly when there is no maximal run of eight
      or more. */
  lemma Rule4Empty(data: seq<real>, average: real)
    ensures Rule4Signals(data, average) == [] <==>
      forall lo, hi | 0 <= lo < hi <= |data| && hi - lo >= 8 :: !MaximalRun(data, average, lo, hi)
  {
    Rule4Sound(data, average, 0);
    Rule4Complete(data, average, 0);
    var s := Rule4Signals(data, average);
    if s != [] {
      assert ReportsRun(data, average, s[0]);
    }
  }

  // ------------------------------------------------------------ all rules

  /** The intended result of `detect_all_signals`: rule 1, then 2, 3 and 4,
      with the sigma lines of the given limits. */
  function AllSignals(data: seq<real>, limits: ProcessLimits): seq<Signal>
  {
    var sigma := SigmaLinesOf(limits);
    Rule1Signals(data, limits) + ZoneSignals(data, Rule2Zone(sigma)) +
    ZoneSignals(data, Rule3Zone(sigma)) + Rule4Signals(data, limits.average)
  }

  predicate IndicesWithin(signals: seq<Signal>, n: int)
  {
    forall j, k | 0 <= j < |signals| && 0 <= k < |signals[j].dataPoints| ::
      0 <= signals[j].dataPoints[k] < n
  }

  lemma IndicesWithinConcat(a: seq<Signal>, b: seq<Signal>, n: int)
    requires IndicesWithin(a, n) && IndicesWithin(b, n)
    ensures IndicesWithin(a + b, n)
  {
    forall j, k | 0 <= j < |a + b| && 0 <= k < |(a + b)[j].dataPoints|
      ensures 0 <= (a + b)[j].dataPoints[k] < n
    {
      if j >= |a| {
        assert (a + b)[j] == b[j - |a|];
      }
    }
  }

  lemma Rule1Within(data: seq<real>, limits: ProcessLimits)
    ensures IndicesWithin(Rule1Signals(data, limits), |data|)
  {
    Rule1Exact(data, limits, |data|);
  }

  lemma ZoneWithin(data: seq<real>, z: ZoneRule)
    ensures IndicesWithin(ZoneSignals(data, z), |data|)
  {
    var s := ZoneSignals(data, z);
    ZoneSound(data, z, WindowStarts(data, z));
    forall j, k | 0 <= j < |s| && 0 <= k < |s[j].dataPoints| ensures 0 <= s[j].dataPoints[k] < |data| {
      assert ReportsWindow(data, z, s[j]);
    }
  }

  lemma Rule4Within(data: seq<real>, average: real)
    ensures IndicesWithin(Rule4Signals(data, average), |data|)
  {
    var s := Rule4Signals(data, average);
    Rule4Sound(data, average, 0);
    forall j, k | 0 <= j < |s| && 0 <= k < |s[j].dataPoints| ensures 0 <= s[j].dataPoints[k] < |data| {
      assert ReportsRun(data, average, s[j]);
    }
  }

  /** Every index any rule reports is a position of the series. */
  lemma AllSignalsWithin(data: seq<real>, limits: ProcessLimits)
    ensures IndicesWithin(AllSignals(data, limits), |data|)
  {
    var sigma := SigmaLinesOf(limits);
    var n := |data|;
    Rule1Within(data, limits);
    ZoneWithin(data, Rule2Zone(sigma));
    ZoneWithin(data, Rule3Zone(sigma));
    Rule4Within(data, limits.average);
    var r1, r2, r3, r4 := Rule1Signals(data, limits), ZoneSignals(data, Rule2Zone(sigma)),
      ZoneSignals(data, Rule3Zone(sigma)), Rule4Signals(data, limits.average);
    IndicesWithinConcat(r1, r2, n);
    IndicesWithinConcat(r1 + r2, r3, n);
    IndicesWithinConcat(r1 + r2 + r3, r4, n);
  }

  /** `detect_all_signals` as intended: the four rules concatenated in
      order, every reported index inside the series. */
  method DetectAllSignals(data: seq<real>, limits: ProcessLimits) returns (signals: seq<Signal>)
    ensures signals == AllSignals(data, limits)
    ensures IndicesWithin(signals, |data|)
  {
    var sigma := SigmaLinesOf(limits);
    var r1 := DetectRule1(data, limits);
    var r2 := DetectRule2(data, limits.average, sigma);
    var r3 := DetectRule3(data, limits.average, sigma);
    var r4 := DetectRule4(data, limits.average);
    signals := r1 + r2 + r3 + r4;
    AllSignalsWithin(data, limits);
  }

  // ------------------------------------------------- the source as written

  /** `detect_all_signals` as written: the lookup of the sigma-line helper
      on the instance fails, on every input. */
  function DetectAllSignalsAsWritten(data: seq<real>, limits: ProcessLimits): (r: Result<seq<Signal>, EngineError>)
    ensures r.Failure? && r.error == AttributeError
  {
    Failure(AttributeError)
  }

  /** How rules 2-4 behave as written: the first signal they would append
      raises a validation error, so they return normally only with nothing
      to report. */
  function AsWritten(intended: seq<Signal>): Result<seq<Signal>, EngineError>
  {
    if intended == [] then Success([]) else Failure(ValidationError)
  }

  function Rule2AsWritten(data: seq<real>, sigma: SigmaLines): (r: Result<seq<Signal>, EngineError>)
    ensures r.Success? ==> r.value == []
    ensures r.Success? <==> forall i | 0 <= i < WindowStarts(data, Rule2Zone(sigma)) ::
      !FiresAbove(data, Rule2Zone(sigma), i) && !FiresBelow(data, Rule2Zone(sigma), i)
  {
    ZoneSignalsEmpty(data, Rule2Zone(sigma));
    AsWritten(ZoneSignals(data, Rule2Zone(sigma)))
  }

  function Rule3AsWritten(data: seq<real>, sigma: SigmaLines): (r: Result<seq<Signal>, EngineError>)
    ensures r.Success? ==> r.value == []
    ensures r.Success? <==> forall i | 0 <= i < WindowStarts(data, Rule3Zone(sigma)) ::
      !FiresAbove(data, Rule3Zone(sigma), i) && !FiresBelow(data, Rule3Zone(sigma), i)
  {
    ZoneSignalsEmpty(data, Rule3Zone(sigma));
    AsWritten(ZoneSignals(data, Rule3Zone(sigma)))
  }

  function Rule4AsWritten(data: seq<real>, average: real): (r: Result<seq<Signal>, EngineError>)
    ensures r.Success? ==> r.value == []
    ensures r.Success? <==> forall lo, hi | 0 <= lo < hi <= |data| && hi - lo >= 8 ::
      !MaximalRun(data, average, lo, hi)
  {
    Rule4Empty(data, average);
    AsWritten(Rule4Signals(data, average))
  }

  /** Three points far above the 2-sigma line: the intended rule 2 reports
      the window, the rule as written raises. */
  lemma Rule2AsWrittenRaises()
    ensures var data := [10.0, 10.0, 10.0];
      var sigma := SigmaLines(2.0, 0.0, 4.0, 0.0);
      ZoneSignals(data, Rule2Zone(sigma)) == [Signal(Rule2, [0, 1, 2], Rule2Description, "moderate")] &&
      Rule2AsWritten(data, sigma) == Failure(ValidationError)
  {
    var data := [10.0, 10.0, 10.0];
    var z := Rule2Zone(SigmaLines(2.0, 0.0, 4.0, 0.0));
    assert data[0..3] == data;
    CountAboveAll(data, z.upper);
    CountBelowNone(data, z.lower);
    assert FiresAbove(data, z, 0) && !FiresBelow(data, z, 0);
    assert Range(0, 3) == [0, 1, 2];
  }

  /** Five points above the 1-sigma line: rule 3 as intended reports the
      window, as written it raises. */
  lemma Rule3AsWrittenRaises()
    ensures var data := [10.0, 10.0, 10.0, 10.0, 10.0];
      var sigma := SigmaLines(2.0, 0.0, 4.0, 0.0);
      ZoneSignals(data, Rule3Zone(sigma)) == [Signal(Rule3, [0, 1, 2, 3, 4], Rule3Description, "moderate")] &&
      Rule3AsWritten(data, sigma) == Failure(ValidationError)
  {
    var data := [10.0, 10.0, 10.0, 10.0, 10.0];
    var z := Rule3Zone(SigmaLines(2.0, 0.0, 4.0, 0.0));
    assert data[0..5] == data;
    CountAboveAll(data, z.upper);
    CountBelowNone(data, z.lower);
    assert FiresAbove(data, z, 0) && !FiresBelow(data, z, 0);
    assert Range(0, 5) == [0, 1, 2, 3, 4];
  }

  /** Eight points above the average: rule 4 as intended reports the run,
      as written it raises. */
  lemma Rule4AsWrittenRaises()
    ensures var data := [1.0, 1.0, 1.0, 1.0, 1.0, 1.0, 1.0, 1.0];
      Rule4Signals(data, 0.0) == [Rule4Signal(0, 8)] &&
      Rule4AsWritten(data, 0.0) == Failure(ValidationError)
  {
    var data := [1.0, 1.0, 1.0, 1.0, 1.0, 1.0, 1.0, 1.0];
    RunEndAt(data, 0.0, 0, 8);
  }

  /** A point above the upper limit: the intended detector reports it, the
      detector as written fails before looking. */
  lemma DetectAllAsWrittenFails()
    ensures var limits := ProcessLimits(1.0, 2.0, 0.0, 1.0, 3.27);
      AllSignals([5.0], limits) == [Rule1Signal(0)] &&
      DetectAllSignalsAsWritten([5.0], limits) == Failure(AttributeError)
  {
    var limits := ProcessLimits(1.0, 2.0, 0.0, 1.0, 3.27);
    var data := [5.0];
    var z2, z3 := Rule2Zone(SigmaLinesOf(limits)), Rule3Zone(SigmaLinesOf(limits));
    assert WindowStarts(data, z2) == 0 && WindowStarts(data, z3) == 0;
    assert RunEnd(data, limits.average, 0) == 1;
  }
}

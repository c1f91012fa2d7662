/*
 * Shewhart XmR limit arithmetic (backend/app/services/pbc_calculator.py).
 * Limits are computed once from the list passed in and then frozen.
 */
module PbcCalculator {
  import opened DataModels
  import opened Stats

  /** Scaling constant of the X chart's natural process limits. */
  const NaturalLimitFactor: real := 2.66
  /** Scaling constant of the mR chart's upper range limit. */
  const RangeLimitFactor: real := 3.27

  /** The moving ranges: the distance between each value and the next. */
  function MovingRanges(data: seq<real>): (r: seq<real>)
    ensures |data| < 2 ==> r == []
    ensures |data| >= 2 ==> |r| == |data| - 1
    ensures forall i | 0 <= i < |r| :: r[i] == Abs(data[i + 1] - data[i])
    ensures forall i | 0 <= i < |r| :: r[i] >= 0.0
  {
    if |data| < 2 then [] else seq(|data| - 1, i requires 0 <= i < |data| - 1 => Abs(data[i + 1] - data[i]))
  }

  /** `calculate_moving_ranges`: appends one range per successive pair. */
  method CalculateMovingRanges(data: seq<real>) returns (ranges: seq<real>)
    ensures ranges == MovingRanges(data)
    ensures forall i | 0 <= i < |ranges| :: ranges[i] >= 0.0
  {
    if |data| < 2 {
      return [];
    }
    ranges := [];
    for i := 1 to |data|
      invariant |ranges| == i - 1
      invariant forall k | 0 <= k < i - 1 :: ranges[k] == Abs(data[k + 1] - data[k])
    {
      ranges := ranges + [Abs(data[i] - data[i - 1])];
    }
  }

  /** True when some two successive values differ. */
  predicate HasVariation(data: seq<real>)
  {
    exists i | 0 <= i < |data| - 1 :: data[i] != data[i + 1]
  }

  predicate AllZero(s: seq<real>)
  {
    forall i | 0 <= i < |s| :: s[i] == 0.0
  }

  /** A sequence of non-negative values that are not all zero has a
      positive sum. */
  lemma {:induction false} PositiveSum(s: seq<real>)
    requires forall i | 0 <= i < |s| :: s[i] >= 0.0
    requires !AllZero(s)
    ensures Sum(s) > 0.0
  {
    var p := s[..|s| - 1];
    SumBounds(p, 0.0, MaxOf(p + [0.0]));
    if s[|s| - 1] == 0.0 {
      assert !AllZero(p) by {
        var i :| 0 <= i < |s| && s[i] != 0.0;
        assert p[i] == s[i];
      }
      PositiveSum(p);
    }
  }

  /** `calculate_natural_process_limits`: the average of the values, the
      average of their moving ranges, and the limits derived from them. */
  function NaturalProcessLimits(data: seq<real>): Result<ProcessLimits, EngineError>
  {
    if |data| < 3 then Failure(TooFewPoints)
    else
      var average := Mean(data);
      var ranges := MovingRanges(data);
      if ranges == [] then Failure(NoMovingRanges)
      else if AllZero(ranges) then Failure(AllMovingRangesZero)
      else
        var mr := Mean(ranges);
        if mr == 0.0 then Failure(ZeroAverageMovingRange)
        else
          Success(ProcessLimits(
            average,
            average + NaturalLimitFactor * mr,
            Max(0.0, average - NaturalLimitFactor * mr),
            mr,
            RangeLimitFactor * mr))
  }

  /** Data with variation has a positive average moving range. */
  lemma VariationGivesPositiveRange(data: seq<real>)
    requires |data| >= 2 && HasVariation(data)
    ensures !AllZero(MovingRanges(data)) && Mean(MovingRanges(data)) > 0.0
  {
    var ranges := MovingRanges(data);
    VariationGivesNonZeroRange(data);
    PositiveSum(ranges);
    PositiveMean(ranges);
  }

  lemma VariationGivesNonZeroRange(data: seq<real>)
    requires HasVariation(data)
    ensures !AllZero(MovingRanges(data))
  {
    var i :| 0 <= i < |data| - 1 && data[i] != data[i + 1];
    assert MovingRanges(data)[i] != 0.0;
  }

  lemma PositiveMean(s: seq<real>)
    requires |s| > 0 && Sum(s) > 0.0
    ensures Mean(s) > 0.0
  {
  }

  /** Data without variation has only zero moving ranges. */
  lemma NoVariationGivesZeroRanges(data: seq<real>)
    requires !HasVariation(data)
    ensures AllZero(MovingRanges(data))
  {
    var ranges := MovingRanges(data);
    forall k | 0 <= k < |ranges| ensures ranges[k] == 0.0 {
      assert data[k] == data[k + 1];
    }
  }

  /** The calculation fails exactly on fewer than three values or on data
      without variation; otherwise the average moving range is positive,
      the lower limit is clamped at zero, and the limits enclose the average. */
  lemma NaturalProcessLimitsSpec(data: seq<real>)
    ensures NaturalProcessLimits(data).Success? <==> |data| >= 3 && HasVariation(data)
    ensures |data| < 3 ==> NaturalProcessLimits(data) == Failure(TooFewPoints)
    ensures |data| >= 3 && !HasVariation(data) ==> NaturalProcessLimits(data) == Failure(AllMovingRangesZero)
    ensures NaturalProcessLimits(data).Success? ==>
      var l := NaturalProcessLimits(data).value;
      l.average == Mean(data) &&
      l.averageMovingRange == Mean(MovingRanges(data)) &&
      l.averageMovingRange > 0.0 &&
      l.upperLimit == l.average + 2.66 * l.averageMovingRange &&
      l.lowerLimit == Max(0.0, l.average - 2.66 * l.averageMovingRange) &&
      l.upperRangeLimit == 3.27 * l.averageMovingRange &&
      l.lowerLimit >= 0.0 &&
      l.average < l.upperLimit
  {
    if |data| >= 3 {
      if HasVariation(data) {
        VariationGivesPositiveRange(data);
      } else {
        NoVariationGivesZeroRanges(data);
      }
    }
  }

  /** For non-negative data the average lies between the two natural
      process limits, the upper one strictly above it. */
  lemma LimitsEncloseAverage(data: seq<real>)
    requires forall i | 0 <= i < |data| :: data[i] >= 0.0
    requires NaturalProcessLimits(data).Success?
    ensures var l := NaturalProcessLimits(data).value;
      0.0 <= l.lowerLimit <= l.average < l.upperLimit
  {
    NaturalProcessLimitsSpec(data);
    MeanBetween(data, 0.0, MaxOf(data));
  }

  /** `calculate_sigma_lines` (and the module-level `_calculate_sigma_lines`
      of the signal detector, which computes the same four values): one
      sigma is 2.66/3 of the average moving range; lower lines are clamped
      at zero. */
  function SigmaLinesOf(limits: ProcessLimits): (r: SigmaLines)
    ensures r.oneSigmaLower >= 0.0 && r.twoSigmaLower >= 0.0
    ensures limits.averageMovingRange >= 0.0 && limits.average >= 0.0 ==>
      r.twoSigmaLower <= r.oneSigmaLower <= limits.average <= r.oneSigmaUpper <= r.twoSigmaUpper
    ensures var sigma := limits.averageMovingRange * 2.66 / 3.0;
      r.oneSigmaUpper == limits.average + sigma && r.twoSigmaUpper == limits.average + 2.0 * sigma &&
      r.oneSigmaLower == Max(0.0, limits.average - sigma) && r.twoSigmaLower == Max(0.0, limits.average - 2.0 * sigma)
  {
    var sigma := limits.averageMovingRange * NaturalLimitFactor / 3.0;
    SigmaLines(limits.average + sigma, Max(0.0, limits.average - sigma),
               limits.average + 2.0 * sigma, Max(0.0, limits.average - 2.0 * sigma))
  }

  /** `validate_baseline_period`: rejects a baseline below three points or
      longer than the data, and otherwise answers true. */
  function ValidateBaselinePeriod(dataLength: int, baselinePeriod: int): (r: Result<bool, EngineError>)
    ensures r.Success? <==> 3 <= baselinePeriod <= dataLength
    ensures r.Success? ==> r.value
    ensures baselinePeriod < 3 ==> r == Failure(BaselineTooShort)
    ensures 3 <= baselinePeriod && dataLength < baselinePeriod ==> r == Failure(BaselineTooLong)
  {
    if baselinePeriod < 3 then Failure(BaselineTooShort)
    else if baselinePeriod > dataLength then Failure(BaselineTooLong)
    else Success(true)
  }

  /** `recommend_baseline_period`: all the data up to 20 points, never fewer
      than 3. */
  function RecommendBaselinePeriod(dataLength: int): (r: int)
    ensures 3 <= r <= 20
    ensures dataLength >= 3 ==> r <= dataLength && (r == dataLength || r == 20)
    ensures dataLength >= 3 ==> r == if dataLength < 20 then dataLength else 20
    ensures dataLength < 3 ==> r == 3
    ensures ValidateBaselinePeriod(dataLength, r).Success? <==> dataLength >= 3
  {
    if dataLength < 6 then (if dataLength > 3 then dataLength else 3)
    else if dataLength < 10 then dataLength
    else if dataLength <= 20 then dataLength
    else 20
  }
}

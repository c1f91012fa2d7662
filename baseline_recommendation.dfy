/*
 * The baseline recommendation (`_generate_baseline_recommendation` in
 * backend/app/services/dynamic_baseline_calculator.py).
 *
 * The recommendation is built in stages: a first period, confidence and
 * reason from the latest change point or from the stability score; an
 * adjustment for a weekly or monthly pattern; an adjustment for the
 * signal density; a clamp to [6, 20]; and a final confidence nudge. Each
 * stage is a function here, `Recommendation` their composition, and
 * `GenerateBaselineRecommendation` the step-by-step method proved equal
 * to it. The clock is the parameter `now`.
 */
module DynamicBaselineRecommendation {
  import opened DataModels
  import opened Stats
  import opened PbcCalculator
  import opened DynamicBaselineCalculator
  import opened DynamicBaselineSeasonality
  import opened DynamicBaselineMetrics

  /** The density above which the period is shortened. */
  const HighDensity: real := 0.2
  /** The density below which the period is lengthened. */
  const LowDensity: real := 0.05

  /** No entry speaks of the signal density. */
  predicate NoDensityReason(rs: seq<Reason>)
  {
    forall i | 0 <= i < |rs| :: !rs[i].HighSignalDensity? && !rs[i].LowSignalDensity?
  }

  /** The recommendation while it is being built. */
  datatype Draft = Draft(period: int, confidence: real, reasoning: seq<Reason>, shouldRecalculate: bool)

  // ------------------------------------------------ the stages

  /** The first decision. With change points, the points since the latest
      one (at most 20) when there are at least 6 of them, else 6 with
      confidence 0.6 and no recalculation. Without, 20 (or all the data)
      for a score of at least 0.8, 12 for at least 0.6, else 6 with
      confidence 0.5. */
  function BaseDraft(n: int, currentPeriod: int, score: real, changePoints: seq<int>): (d: Draft)
    ensures d.period <= MaxBaseline && |d.reasoning| == 1
    ensures d.confidence == 0.8 || d.confidence == 0.6 || d.confidence == 0.5
    ensures changePoints != [] && n - MaxInt(changePoints) >= MinBaseline ==> d.confidence == 0.8
    ensures changePoints != [] && n - MaxInt(changePoints) < MinBaseline ==> d.confidence == 0.6
    ensures changePoints == [] && score >= 0.6 ==> d.confidence == 0.8
    ensures changePoints == [] && score < 0.6 ==> d.confidence == 0.5
    ensures NoDensityReason(d.reasoning)
  {
    if |changePoints| > 0 then
      var mostRecent := MaxInt(changePoints);
      var since := n - mostRecent;
      if since >= MinBaseline then
        Draft(IntMin(since, MaxBaseline), 0.8, [ChangeDetected(mostRecent, since)], true)
      else
        Draft(MinBaseline, 0.6, [ChangeTooRecent(since)], false)
    else if score >= 0.8 then
      var p := IntMin(MaxBaseline, n);
      Draft(p, 0.8, [HighStability(score)], (currentPeriod as real) < (p as real) * 0.8)
    else if score >= 0.6 then
      Draft(OptimalBaseline, 0.8, [ModerateStability(score)], IntAbs(currentPeriod - OptimalBaseline) > 3)
    else
      Draft(MinBaseline, 0.5, [LowStability(score)], (currentPeriod as real) > (MinBaseline as real) * 1.5)
  }

  /** Whole weeks for a weekly pattern, when they fit in 20 points; at least
      two weeks for a monthly one. */
  function SeasonalAdjust(d: Draft, pattern: SeasonalPattern): (r: Draft)
    ensures r.confidence == d.confidence && r.shouldRecalculate == d.shouldRecalculate
    ensures pattern == WeeklyPattern && d.period <= MaxBaseline ==>
      (r.period == 7 || r.period == 14) &&
      r.reasoning == d.reasoning + [WeeklyAdjusted(r.period / 7)]
    ensures pattern == WeeklyPattern && d.period <= MaxBaseline ==> (r.period == 14 <==> d.period >= 14)
    ensures pattern == WeeklyPattern && d.period > MaxBaseline ==> r == d
    ensures pattern == MonthlyPattern ==>
      r.period >= 14 && r.period >= d.period &&
      (r.reasoning == d.reasoning || r.reasoning == d.reasoning + [MonthlyAdjusted])
    ensures pattern == MonthlyPattern ==> r.period == IntMax(14, d.period)
    ensures pattern == MonthlyPattern ==> (r.reasoning == d.reasoning + [MonthlyAdjusted] <==> d.period < 14)
    ensures pattern != WeeklyPattern && pattern != MonthlyPattern ==> r == d
    ensures |r.reasoning| >= |d.reasoning| && r.reasoning[..|d.reasoning|] == d.reasoning
    ensures NoDensityReason(d.reasoning) ==> NoDensityReason(r.reasoning)
  {
    if pattern == WeeklyPattern then
      var weeksNeeded := IntMax(1, d.period / 7);
      var seasonal := weeksNeeded * 7;
      if seasonal <= MaxBaseline then
        d.(period := seasonal, reasoning := d.reasoning + [WeeklyAdjusted(weeksNeeded)])
      else d
    else if pattern == MonthlyPattern then
      if d.period < 14 then d.(period := 14, reasoning := d.reasoning + [MonthlyAdjusted]) else d
    else d
  }

  /** Shorter by two points (not below 6) and 10% less confident for a
      density above 0.2; longer by two (not above 20) below 0.05. */
  function DensityAdjust(d: Draft, density: real): (r: Draft)
    ensures r.shouldRecalculate == d.shouldRecalculate
    ensures density > HighDensity ==>
      MinBaseline <= r.period && (d.period >= MinBaseline + 2 ==> r.period == d.period - 2) &&
      r.confidence == d.confidence * 0.9 && r.reasoning == d.reasoning + [HighSignalDensity(density)]
    ensures density < LowDensity ==>
      r.period <= MaxBaseline && (d.period <= MaxBaseline - 2 ==> r.period == d.period + 2) &&
      r.confidence == d.confidence && r.reasoning == d.reasoning + [LowSignalDensity(density)]
    ensures density > HighDensity && d.period < MinBaseline + 2 ==> r.period == MinBaseline
    ensures density < LowDensity && d.period > MaxBaseline - 2 ==> r.period == MaxBaseline
    ensures LowDensity <= density <= HighDensity ==> r == d
    ensures |r.reasoning| >= |d.reasoning| && r.reasoning[..|d.reasoning|] == d.reasoning
  {
    if density > HighDensity then
      d.(period := IntMax(MinBaseline, d.period - 2), confidence := d.confidence * 0.9,
         reasoning := d.reasoning + [HighSignalDensity(density)])
    else if density < LowDensity then
      d.(period := IntMin(MaxBaseline, d.period + 2), reasoning := d.reasoning + [LowSignalDensity(density)])
    else d
  }

  /** The period forced into [6, 20]. */
  function ClampPeriod(p: int): (r: int)
    ensures MinBaseline <= r <= MaxBaseline
    ensures MinBaseline <= p <= MaxBaseline ==> r == p
  {
    IntMax(MinBaseline, IntMin(MaxBaseline, p))
  }

  /** STABLE for a score of at least 0.8 without change points, else
      IMPROVING from 0.6, else DEGRADING with change points, else UNSTABLE. */
  function StabilityOf(score: real, changePoints: seq<int>): (r: BaselineStability)
    ensures r == Stable <==> score >= 0.8 && changePoints == []
    ensures r == Improving <==> score >= 0.6 && !(score >= 0.8 && changePoints == [])
    ensures r == Degrading <==> score < 0.6 && changePoints != []
    ensures r == Unstable <==> score < 0.6 && changePoints == []
  {
    if score >= 0.8 && |changePoints| == 0 then Stable
    else if score >= 0.6 then Improving
    else if |changePoints| > 0 then Degrading
    else Unstable
  }

  /** 10% more confident when the period is within 2 of the current one,
      and never above 1. */
  function FinalConfidence(confidence: real, period: int, currentPeriod: int): (r: real)
    ensures r <= 1.0
    ensures 0.0 <= confidence <= 0.9 ==> confidence <= r <= confidence * 1.1
    ensures IntAbs(period - currentPeriod) <= 2 ==> r == Min(1.0, confidence * 1.1)
    ensures IntAbs(period - currentPeriod) > 2 ==> r == Min(1.0, confidence)
    ensures 0.0 <= confidence <= 0.9 && IntAbs(period - currentPeriod) > 2 ==> r == confidence
  {
    Min(1.0, if IntAbs(period - currentPeriod) <= 2 then confidence * 1.1 else confidence)
  }

  /** The recommendation for `n` points, from the current period, the
      stability score, the change points, the dominant pattern and the
      signal density. */
  function Recommendation(n: int, currentPeriod: int, score: real, changePoints: seq<int>,
                          pattern: SeasonalPattern, density: real, now: Instant): (r: BaselineRecommendation)
    ensures MinBaseline <= r.recommendedPeriod <= MaxBaseline
    ensures 0.45 <= r.confidence <= 0.88
    ensures r.currentPeriod == currentPeriod && r.seasonalPattern == pattern && r.lastRecalculationDate == now
    ensures r.stability == StabilityOf(score, changePoints)
    ensures |r.reasoning| >= 1
  {
    Finish(DensityAdjust(SeasonalAdjust(BaseDraft(n, currentPeriod, score, changePoints), pattern), density),
           currentPeriod, score, changePoints, pattern, now)
  }

  /** The last stages: the clamp, the stability label and the confidence
      nudge, applied to the adjusted draft. */
  function Finish(d: Draft, currentPeriod: int, score: real, changePoints: seq<int>,
                  pattern: SeasonalPattern, now: Instant): BaselineRecommendation
  {
    var period := ClampPeriod(d.period);
    BaselineRecommendation(period, currentPeriod, FinalConfidence(d.confidence, period, currentPeriod),
                           d.reasoning, StabilityOf(score, changePoints), pattern, d.shouldRecalculate, now)
  }

  /** `_generate_baseline_recommendation`, statement by statement; each
      stage is a method of its own below. */
  method GenerateBaselineRecommendation(n: int, currentPeriod: int, score: real, changePoints: seq<int>,
                                        pattern: SeasonalPattern, density: real, now: Instant)
    returns (r: BaselineRecommendation)
    ensures r == Recommendation(n, currentPeriod, score, changePoints, pattern, density, now)
  {
    var draft := DecideBasePeriod(n, currentPeriod, score, changePoints);
    draft := AdjustForSeasonality(draft, pattern);
    draft := AdjustForSignalDensity(draft, density);

    r := FinishRecommendation(draft, currentPeriod, score, changePoints, pattern, now);
  }

  /** The clamp, the stability label and the confidence nudge of
      `_generate_baseline_recommendation`. */
  method FinishRecommendation(draft: Draft, currentPeriod: int, score: real, changePoints: seq<int>,
                              pattern: SeasonalPattern, now: Instant) returns (r: BaselineRecommendation)
    ensures r == Finish(draft, currentPeriod, score, changePoints, pattern, now)
  {
    var recommendedPeriod := IntMax(MinBaseline, IntMin(MaxBaseline, draft.period));

    var stability: BaselineStability;
    if score >= 0.8 && |changePoints| == 0 {
      stability := Stable;
    } else if score >= 0.6 {
      stability := Improving;
    } else if |changePoints| > 0 {
      stability := Degrading;
    } else {
      stability := Unstable;
    }

    var confidence := draft.confidence;
    if IntAbs(recommendedPeriod - currentPeriod) <= 2 {
      confidence := confidence * 1.1;
    }
    confidence := Min(1.0, confidence);

    r := BaselineRecommendation(recommendedPeriod, currentPeriod, confidence, draft.reasoning, stability,
                                pattern, draft.shouldRecalculate, now);
  }

  /** The first decision of `_generate_baseline_recommendation`. */
  method DecideBasePeriod(n: int, currentPeriod: int, score: real, changePoints: seq<int>) returns (d: Draft)
    ensures d == BaseDraft(n, currentPeriod, score, changePoints)
  {
    var reasoning: seq<Reason> := [];
    var confidence := 0.8;
    var recommendedPeriod: int;
    var shouldRecalculate: bool;
    if |changePoints| > 0 {
      var mostRecentChange := MaxInt(changePoints);
      var dataSinceChange := n - mostRecentChange;
      if dataSinceChange >= MinBaseline {
        recommendedPeriod := IntMin(dataSinceChange, MaxBaseline);
        reasoning := reasoning + [ChangeDetected(mostRecentChange, dataSinceChange)];
        shouldRecalculate := true;
      } else {
        recommendedPeriod := MinBaseline;
        reasoning := reasoning + [ChangeTooRecent(dataSinceChange)];
        confidence := 0.6;
        shouldRecalculate := false;
      }
    } else {
      if score >= 0.8 {
        recommendedPeriod := IntMin(MaxBaseline, n);
        reasoning := reasoning + [HighStability(score)];
        shouldRecalculate := (currentPeriod as real) < (recommendedPeriod as real) * 0.8;
      } else if score >= 0.6 {
        recommendedPeriod := OptimalBaseline;
        reasoning := reasoning + [ModerateStability(score)];
        shouldRecalculate := IntAbs(currentPeriod - recommendedPeriod) > 3;
      } else {
        recommendedPeriod := MinBaseline;
        reasoning := reasoning + [LowStability(score)];
        confidence := 0.5;
        shouldRecalculate := (currentPeriod as real) > (recommendedPeriod as real) * 1.5;
      }
    }
    d := Draft(recommendedPeriod, confidence, reasoning, shouldRecalculate);
  }

  /** The seasonal adjustment of `_generate_baseline_recommendation`. */
  method AdjustForSeasonality(draft: Draft, pattern: SeasonalPattern) returns (d: Draft)
    ensures d == SeasonalAdjust(draft, pattern)
  {
    var recommendedPeriod := draft.period;
    var reasoning := draft.reasoning;
    if pattern == WeeklyPattern {
      var weeksNeeded := IntMax(1, recommendedPeriod / 7);
      var seasonalRecommendation := weeksNeeded * 7;
      if seasonalRecommendation <= MaxBaseline {
        recommendedPeriod := seasonalRecommendation;
        reasoning := reasoning + [WeeklyAdjusted(weeksNeeded)];
      }
    } else if pattern == MonthlyPattern {
      if recommendedPeriod < 14 {
        recommendedPeriod := 14;
        reasoning := reasoning + [MonthlyAdjusted];
      }
    }
    d := draft.(period := recommendedPeriod, reasoning := reasoning);
  }

  /** The signal-density adjustment of `_generate_baseline_recommendation`. */
  method AdjustForSignalDensity(draft: Draft, density: real) returns (d: Draft)
    ensures d == DensityAdjust(draft, density)
  {
    var recommendedPeriod := draft.period;
    var reasoning := draft.reasoning;
    var confidence := draft.confidence;
    if density > HighDensity {
      recommendedPeriod := IntMax(MinBaseline, recommendedPeriod - 2);
      reasoning := reasoning + [HighSignalDensity(density)];
      confidence := confidence * 0.9;
    } else if density < LowDensity {
      recommendedPeriod := IntMin(MaxBaseline, recommendedPeriod + 2);
      reasoning := reasoning + [LowSignalDensity(density)];
    }
    d := Draft(recommendedPeriod, confidence, reasoning, draft.shouldRecalculate);
  }

  // ------------------------------------------------ properties

  /** The stages after the first only append to the reasoning and never
      change whether to recalculate. */
  lemma FirstReasonKept(n: int, currentPeriod: int, score: real, changePoints: seq<int>,
                        pattern: SeasonalPattern, density: real, now: Instant,
                        r: BaselineRecommendation)
    requires r == Recommendation(n, currentPeriod, score, changePoints, pattern, density, now)
    ensures r.reasoning[0] == BaseDraft(n, currentPeriod, score, changePoints).reasoning[0]
    ensures r.shouldRecalculate == BaseDraft(n, currentPeriod, score, changePoints).shouldRecalculate
  {
    var b := BaseDraft(n, currentPeriod, score, changePoints);
    var s := SeasonalAdjust(b, pattern);
    var d := DensityAdjust(s, density);
    assert s.reasoning[..1] == b.reasoning;
    assert d.reasoning[..|s.reasoning|] == s.reasoning;
    assert d.reasoning[0] == d.reasoning[..|s.reasoning|][0];
  }

  /** A change point with at least six points after it: the recommendation
      says so, asks for a recalculation and, with nothing else to adjust
      for, uses the points since the change, at most 20. */
  lemma ChangeDetectedBranch(n: int, currentPeriod: int, score: real, changePoints: seq<int>,
                             pattern: SeasonalPattern, density: real, now: Instant,
                             r: BaselineRecommendation)
    requires changePoints != [] && n - MaxInt(changePoints) >= MinBaseline
    requires r == Recommendation(n, currentPeriod, score, changePoints, pattern, density, now)
    ensures r.reasoning[0] == ChangeDetected(MaxInt(changePoints), n - MaxInt(changePoints))
    ensures r.shouldRecalculate
    ensures pattern == NoPattern && LowDensity <= density <= HighDensity ==>
      r.recommendedPeriod == IntMin(n - MaxInt(changePoints), MaxBaseline)
  {
    FirstReasonKept(n, currentPeriod, score, changePoints, pattern, density, now, r);
  }

  /** A change point fewer than six points back: the minimum period, no
      recalculation. */
  lemma ChangeTooRecentBranch(n: int, currentPeriod: int, score: real, changePoints: seq<int>,
                              pattern: SeasonalPattern, density: real, now: Instant,
                              r: BaselineRecommendation)
    requires changePoints != [] && n - MaxInt(changePoints) < MinBaseline
    requires r == Recommendation(n, currentPeriod, score, changePoints, pattern, density, now)
    ensures r.reasoning[0] == ChangeTooRecent(n - MaxInt(changePoints)) && !r.shouldRecalculate
    ensures pattern == NoPattern && LowDensity <= density <= HighDensity ==> r.recommendedPeriod == MinBaseline
  {
    FirstReasonKept(n, currentPeriod, score, changePoints, pattern, density, now, r);
  }

  /** No change points and a score of at least 0.8: the longest period the
      data allows (at most 20), recalculating when the current period is
      under 80% of it. */
  lemma HighStabilityBranch(n: int, currentPeriod: int, score: real,
                            pattern: SeasonalPattern, density: real, now: Instant,
                            r: BaselineRecommendation)
    requires score >= 0.8
    requires r == Recommendation(n, currentPeriod, score, [], pattern, density, now)
    ensures r.reasoning[0] == HighStability(score) && r.stability == Stable
    ensures r.shouldRecalculate <==> (currentPeriod as real) < (IntMin(MaxBaseline, n) as real) * 0.8
    ensures pattern == NoPattern && LowDensity <= density <= HighDensity && n >= MinBaseline ==>
      r.recommendedPeriod == IntMin(MaxBaseline, n)
  {
    FirstReasonKept(n, currentPeriod, score, [], pattern, density, now, r);
  }

  /** No change points and a score in [0.6, 0.8): the optimal 12 points,
      recalculating when the current period is more than 3 away. */
  lemma ModerateStabilityBranch(n: int, currentPeriod: int, score: real,
                                pattern: SeasonalPattern, density: real, now: Instant,
                                r: BaselineRecommendation)
    requires 0.6 <= score < 0.8
    requires r == Recommendation(n, currentPeriod, score, [], pattern, density, now)
    ensures r.reasoning[0] == ModerateStability(score) && r.stability == Improving
    ensures r.shouldRecalculate <==> IntAbs(currentPeriod - OptimalBaseline) > 3
    ensures pattern == NoPattern && LowDensity <= density <= HighDensity ==> r.recommendedPeriod == OptimalBaseline
  {
    FirstReasonKept(n, currentPeriod, score, [], pattern, density, now, r);
  }

  /** No change points and a score under 0.6: the minimum 6 points,
      recalculating when the current period exceeds 9. */
  lemma LowStabilityBranch(n: int, currentPeriod: int, score: real,
                           pattern: SeasonalPattern, density: real, now: Instant,
                           r: BaselineRecommendation)
    requires score < 0.6
    requires r == Recommendation(n, currentPeriod, score, [], pattern, density, now)
    ensures r.reasoning[0] == LowStability(score) && r.stability == Unstable
    ensures r.shouldRecalculate <==> currentPeriod > 9
    ensures pattern == NoPattern && LowDensity <= density <= HighDensity ==> r.recommendedPeriod == MinBaseline
  {
    FirstReasonKept(n, currentPeriod, score, [], pattern, density, now, r);
  }

  /** A weekly pattern at an ordinary density gives whole weeks. */
  lemma WeeklyGivesWholeWeeks(n: int, currentPeriod: int, score: real, changePoints: seq<int>,
                              density: real, now: Instant,
                              r: BaselineRecommendation)
    requires LowDensity <= density <= HighDensity
    requires r == Recommendation(n, currentPeriod, score, changePoints, WeeklyPattern, density, now)
    ensures r.recommendedPeriod == 7 || r.recommendedPeriod == 14
    ensures WeeklyAdjusted(r.recommendedPeriod / 7) in r.reasoning
  {
    var b := BaseDraft(n, currentPeriod, score, changePoints);
    var s := SeasonalAdjust(b, WeeklyPattern);
    assert s.reasoning[|b.reasoning|] == WeeklyAdjusted(s.period / 7);
  }

  /** A monthly pattern without a high density keeps at least two weeks. */
  lemma MonthlyKeepsTwoWeeks(n: int, currentPeriod: int, score: real, changePoints: seq<int>,
                             density: real, now: Instant)
    requires density <= HighDensity
    ensures Recommendation(n, currentPeriod, score, changePoints, MonthlyPattern, density, now).recommendedPeriod >= 14
  {
  }

  /** The density is mentioned exactly when it is outside [0.05, 0.2]. */
  lemma DensityReasons(n: int, currentPeriod: int, score: real, changePoints: seq<int>,
                       pattern: SeasonalPattern, density: real, now: Instant,
                       r: BaselineRecommendation)
    requires r == Recommendation(n, currentPeriod, score, changePoints, pattern, density, now)
    ensures HighSignalDensity(density) in r.reasoning <==> density > HighDensity
    ensures LowSignalDensity(density) in r.reasoning <==> density < LowDensity
  {
    var s := SeasonalAdjust(BaseDraft(n, currentPeriod, score, changePoints), pattern);
    var d := DensityAdjust(s, density);
    assert NoDensityReason(s.reasoning);
    if density > HighDensity {
      assert d.reasoning[|s.reasoning|] == HighSignalDensity(density);
    } else if density < LowDensity {
      assert d.reasoning[|s.reasoning|] == LowSignalDensity(density);
    } else {
      assert HighSignalDensity(density) !in d.reasoning;
    }
    assert HighSignalDensity(density) !in s.reasoning;
    assert LowSignalDensity(density) !in s.reasoning;
  }
}

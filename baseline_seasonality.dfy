/*
 * Weekly and monthly seasonality of a series
 * (`_analyze_seasonality`, `_calculate_weekly_seasonality` and
 * `_calculate_monthly_seasonality` in
 * backend/app/services/dynamic_baseline_calculator.py).
 *
 * The points are grouped by a calendar key (the weekday, or the week of
 * the month), each group with more than one value contributes its mean and
 * its sample variance, and the strength of the pattern is the variance
 * between the group means over that plus the mean variance within groups.
 */
module DynamicBaselineSeasonality {
  import opened DataModels
  import opened Stats
  import opened Calendar

  /** Seasonality needs two weeks of data; monthly seasonality two months. */
  const WeeklyMinPoints: nat := 14
  const MonthlyMinPoints: nat := 60

  /** The names listed in `patterns_detected`. */
  const WeeklyName: string := "weekly"
  const MonthlyName: string := "monthly"

  /** The two calendar keys points are grouped by. */
  datatype Grouping = ByWeekday | ByWeekOfMonth

  /** `(day - 1) // 7 + 1`: weeks 1-4 of a month, and 5 for its days 29-31. */
  function WeekOfMonth(day: nat): (r: nat)
    ensures 1 <= r <= 5
    ensures r == 5 <==> DayOfMonth(day) >= 29
  {
    (DayOfMonth(day) - 1) / 7 + 1
  }

  /** The key of a point: its weekday (0 = Monday) or its week of the month. */
  function GroupKey(g: Grouping, p: DataPoint): (r: int)
    ensures g == ByWeekday ==> 0 <= r < 7
    ensures g == ByWeekOfMonth ==> 1 <= r <= 5
  {
    match g
    case ByWeekday => Weekday(DayNumber(p.timestamp))
    case ByWeekOfMonth => WeekOfMonth(DayNumber(p.timestamp))
  }

  /** Reading a `defaultdict(list)`: a missing key is an empty list. */
  function Lookup(groups: map<int, seq<real>>, k: int): seq<real>
  {
    if k in groups then groups[k] else []
  }

  /** The dictionary after appending the value of every point, in order, to
      the list under its key. */
  function GroupsOf(data: seq<DataPoint>, g: Grouping): map<int, seq<real>>
  {
    if data == [] then map[]
    else
      var groups := GroupsOf(data[..|data| - 1], g);
      var p := data[|data| - 1];
      var k := GroupKey(g, p);
      groups[k := Lookup(groups, k) + [p.value]]
  }

  /** The grouping loop of both seasonality calculations. */
  method GroupBy(data: seq<DataPoint>, g: Grouping) returns (groups: map<int, seq<real>>)
    ensures groups == GroupsOf(data, g)
  {
    groups := map[];
    for i := 0 to |data|
      invariant groups == GroupsOf(data[..i], g)
    {
      assert data[..i + 1][..i] == data[..i];
      var p := data[i];
      var k := GroupKey(g, p);
      groups := groups[k := Lookup(groups, k) + [p.value]];
    }
    assert data[..|data|] == data;
  }

  /** Only keys some point has are present. */
  lemma {:induction false} GroupsOfKeys(data: seq<DataPoint>, g: Grouping)
    ensures forall k | k in GroupsOf(data, g) :: exists i | 0 <= i < |data| :: GroupKey(g, data[i]) == k
  {
    if data != [] {
      var p := data[..|data| - 1];
      var last := GroupKey(g, data[|data| - 1]);
      GroupsOfKeys(p, g);
      assert GroupsOf(data, g).Keys == GroupsOf(p, g).Keys + {last};
      forall k | k in GroupsOf(data, g) ensures exists i | 0 <= i < |data| :: GroupKey(g, data[i]) == k {
        if k != last {
          var i :| 0 <= i < |p| && GroupKey(g, p[i]) == k;
          assert data[i] == p[i];
        }
      }
    }
  }

  /** No point is lost: each point's key is present and its value sits in
      the list under that key. */
  lemma {:induction false} GroupsOfComplete(data: seq<DataPoint>, g: Grouping)
    ensures forall i | 0 <= i < |data| ::
      GroupKey(g, data[i]) in GroupsOf(data, g) && data[i].value in Lookup(GroupsOf(data, g), GroupKey(g, data[i]))
  {
    if data != [] {
      var p := data[..|data| - 1];
      GroupsOfComplete(p, g);
      forall i | 0 <= i < |data|
        ensures GroupKey(g, data[i]) in GroupsOf(data, g) && data[i].value in Lookup(GroupsOf(data, g), GroupKey(g, data[i]))
      {
        if i < |p| {
          assert p[i] == data[i];
          assert data[i].value in Lookup(GroupsOf(p, g), GroupKey(g, p[i]));
        }
      }
    }
  }

  /** Every value in any group is the value of some point. */
  lemma {:induction false} GroupsOfValues(data: seq<DataPoint>, g: Grouping, k: int)
    ensures forall x | x in Lookup(GroupsOf(data, g), k) :: exists i | 0 <= i < |data| :: data[i].value == x
  {
    if data != [] {
      var p := data[..|data| - 1];
      GroupsOfValues(p, g, k);
      forall x | x in Lookup(GroupsOf(data, g), k) ensures exists i | 0 <= i < |data| :: data[i].value == x {
        if x in Lookup(GroupsOf(p, g), k) {
          var i :| 0 <= i < |p| && p[i].value == x;
          assert data[i] == p[i];
        } else {
          assert data[|data| - 1].value == x;
        }
      }
    }
  }

  /** The values of the points whose key is `k`, in input order. */
  function ValuesWithKey(data: seq<DataPoint>, g: Grouping, k: int): (r: seq<real>)
    ensures |r| <= |data|
  {
    if data == [] then []
    else
      ValuesWithKey(data[..|data| - 1], g, k)
        + (if GroupKey(g, data[|data| - 1]) == k then [data[|data| - 1].value] else [])
  }

  /** The list under each key is exactly the values of the points with
      that key, in input order (a missing key reads as the empty list). */
  lemma {:induction false} GroupsOfIsFilter(data: seq<DataPoint>, g: Grouping, k: int)
    ensures Lookup(GroupsOf(data, g), k) == ValuesWithKey(data, g, k)
  {
    if data != [] {
      GroupsOfIsFilter(data[..|data| - 1], g, k);
    }
  }

  /** The means of the groups under keys lo .. hi - 1 holding more than one
      value, in key order. */
  function MeansOf(groups: map<int, seq<real>>, lo: int, hi: int): (r: seq<real>)
    ensures |r| <= if hi <= lo then 0 else hi - lo
    decreases hi - lo
  {
    if hi <= lo then []
    else
      var s := Lookup(groups, hi - 1);
      MeansOf(groups, lo, hi - 1) + (if |s| > 1 then [Mean(s)] else [])
  }

  /** Their sample variances, one for each mean. */
  function VarsOf(groups: map<int, seq<real>>, lo: int, hi: int): (r: seq<real>)
    ensures |r| == |MeansOf(groups, lo, hi)|
    ensures forall j | 0 <= j < |r| :: r[j] >= 0.0
    decreases hi - lo
  {
    if hi <= lo then []
    else
      var s := Lookup(groups, hi - 1);
      VarsOf(groups, lo, hi - 1) + (if |s| > 1 then [Variance(s)] else [])
  }

  /** The loop over the keys that collects the group means and variances. */
  method GroupStatistics(groups: map<int, seq<real>>, lo: int, hi: int) returns (means: seq<real>, vars: seq<real>)
    requires lo <= hi
    ensures means == MeansOf(groups, lo, hi) && vars == VarsOf(groups, lo, hi)
  {
    means, vars := [], [];
    for key := lo to hi
      invariant means == MeansOf(groups, lo, key) && vars == VarsOf(groups, lo, key)
    {
      if key in groups && |groups[key]| > 1 {
        means := means + [Mean(groups[key])];
        vars := vars + [Variance(groups[key])];
      }
    }
  }

  /** Between-group variance over between plus within; 0 when fewer than
      `minGroups` groups qualify or when both variances vanish; at most 1. */
  function SeasonalStrength(means: seq<real>, vars: seq<real>, minGroups: nat): (r: real)
    requires minGroups >= 2
    ensures 0.0 <= r <= 1.0
    ensures |means| < minGroups ==> r == 0.0
  {
    if |means| < minGroups then 0.0
    else
      var between := Variance(means);
      var within := if vars != [] then Mean(vars) else 0.0;
      var total := between + within;
      Min(1.0, if total > 0.0 then between / total else 0.0)
  }

  /** With no spread inside any group and some spread between the group
      means, the pattern is at full strength. */
  lemma PureSeasonalStrength(means: seq<real>, vars: seq<real>, minGroups: nat)
    requires minGroups >= 2 && |means| >= minGroups
    requires forall j | 0 <= j < |vars| :: vars[j] == 0.0
    requires Variance(means) > 0.0
    ensures SeasonalStrength(means, vars, minGroups) == 1.0
  {
    if vars != [] {
      MeanBetween(vars, 0.0, 0.0);
    }
  }

  /** Groups of identical means and no spread give no pattern at all. */
  lemma FlatSeasonalStrength(means: seq<real>, vars: seq<real>, minGroups: nat, c: real)
    requires minGroups >= 2
    requires forall j | 0 <= j < |means| :: means[j] == c
    requires forall j | 0 <= j < |vars| :: vars[j] == 0.0
    ensures SeasonalStrength(means, vars, minGroups) == 0.0
  {
    if |means| >= minGroups {
      ConstantVariance(means);
      if vars != [] {
        MeanBetween(vars, 0.0, 0.0);
      }
    }
  }

  /** `_calculate_weekly_seasonality`: weekdays 0-6, at least three of them
      with repeated values; 0 below 14 points. */
  function WeeklyStrength(data: seq<DataPoint>): (r: real)
    ensures 0.0 <= r <= 1.0
    ensures |data| < WeeklyMinPoints ==> r == 0.0
  {
    if |data| < WeeklyMinPoints then 0.0
    else
      var groups := GroupsOf(data, ByWeekday);
      SeasonalStrength(MeansOf(groups, 0, 7), VarsOf(groups, 0, 7), 3)
  }

  /** `_calculate_monthly_seasonality`: weeks 1-4 of the month (the days
      29-31, week 5, take no part), at least two of them with repeated
      values; 0 below 60 points. */
  function MonthlyStrength(data: seq<DataPoint>): (r: real)
    ensures 0.0 <= r <= 1.0
    ensures |data| < MonthlyMinPoints ==> r == 0.0
  {
    if |data| < MonthlyMinPoints then 0.0
    else
      var groups := GroupsOf(data, ByWeekOfMonth);
      SeasonalStrength(MeansOf(groups, 1, 5), VarsOf(groups, 1, 5), 2)
  }

  method CalculateWeeklySeasonality(data: seq<DataPoint>) returns (strength: real)
    ensures strength == WeeklyStrength(data)
    ensures 0.0 <= strength <= 1.0
  {
    if |data| < WeeklyMinPoints {
      return 0.0;
    }
    var groups := GroupBy(data, ByWeekday);
    var means, vars := GroupStatistics(groups, 0, 7);
    strength := SeasonalStrength(means, vars, 3);
  }

  method CalculateMonthlySeasonality(data: seq<DataPoint>) returns (strength: real)
    ensures strength == MonthlyStrength(data)
    ensures 0.0 <= strength <= 1.0
  {
    if |data| < MonthlyMinPoints {
      return 0.0;
    }
    var groups := GroupBy(data, ByWeekOfMonth);
    var means, vars := GroupStatistics(groups, 1, 5);
    strength := SeasonalStrength(means, vars, 2);
  }

  /** The verdict of `_analyze_seasonality` on the two strengths: weekly
      dominates above 0.3, else monthly above 0.3; a pattern is listed as
      detected above 0.2. */
  function Patterns(weekly: real, monthly: real): (r: SeasonalityAnalysis)
    ensures r.weeklyStrength == weekly && r.monthlyStrength == monthly
    ensures r.dominantPattern == WeeklyPattern <==> weekly > 0.3
    ensures r.dominantPattern == MonthlyPattern <==> weekly <= 0.3 && monthly > 0.3
    ensures r.dominantPattern != QuarterlyPattern
    ensures WeeklyName in r.patternsDetected <==> weekly > 0.2
    ensures MonthlyName in r.patternsDetected <==> monthly > 0.2
    ensures |r.patternsDetected| <= 2
  {
    var dominant :=
      if weekly > 0.3 then WeeklyPattern
      else if monthly > 0.3 then MonthlyPattern
      else NoPattern;
    var detected := (if weekly > 0.2 then [WeeklyName] else []) + (if monthly > 0.2 then [MonthlyName] else []);
    assert WeeklyName != MonthlyName by {
      assert |WeeklyName| == 6 && |MonthlyName| == 7;
    }
    SeasonalityAnalysis(dominant, weekly, monthly, detected)
  }

  /** `_analyze_seasonality`: both strengths 0 below 14 points, the monthly
      one 0 below 60. */
  function SeasonalityOf(data: seq<DataPoint>): (r: SeasonalityAnalysis)
    ensures 0.0 <= r.weeklyStrength <= 1.0 && 0.0 <= r.monthlyStrength <= 1.0
    ensures |data| < WeeklyMinPoints ==> r.weeklyStrength == 0.0
    ensures |data| < MonthlyMinPoints ==> r.monthlyStrength == 0.0
    ensures r == Patterns(r.weeklyStrength, r.monthlyStrength)
  {
    if |data| < WeeklyMinPoints then SeasonalityAnalysis(NoPattern, 0.0, 0.0, [])
    else
      var monthly := if |data| >= MonthlyMinPoints then MonthlyStrength(data) else 0.0;
      Patterns(WeeklyStrength(data), monthly)
  }

  method AnalyzeSeasonality(data: seq<DataPoint>) returns (r: SeasonalityAnalysis)
    ensures r == SeasonalityOf(data)
  {
    if |data| < WeeklyMinPoints {
      return SeasonalityAnalysis(NoPattern, 0.0, 0.0, []);
    }
    var weekly := CalculateWeeklySeasonality(data);
    var monthly := 0.0;
    if |data| >= MonthlyMinPoints {
      monthly := CalculateMonthlySeasonality(data);
    }
    r := Patterns(weekly, monthly);
  }

  /** The dominant pattern is always among the detected ones. */
  lemma DominantIsDetected(weekly: real, monthly: real)
    ensures var r := Patterns(weekly, monthly);
      (r.dominantPattern == WeeklyPattern ==> WeeklyName in r.patternsDetected) &&
      (r.dominantPattern == MonthlyPattern ==> MonthlyName in r.patternsDetected)
  {
  }

  // ----- constant data

  predicate AllValues(data: seq<DataPoint>, c: real)
  {
    forall i | 0 <= i < |data| :: data[i].value == c
  }

  /** Groups of a constant series hold nothing but that constant. */
  lemma ConstantGroups(data: seq<DataPoint>, g: Grouping, c: real, k: int)
    requires AllValues(data, c)
    ensures forall j | 0 <= j < |Lookup(GroupsOf(data, g), k)| :: Lookup(GroupsOf(data, g), k)[j] == c
  {
    var s := Lookup(GroupsOf(data, g), k);
    GroupsOfValues(data, g, k);
    forall j | 0 <= j < |s| ensures s[j] == c {
      assert s[j] in s;
    }
  }

  /** ... so each qualifying group has mean c and variance 0. */
  lemma {:induction false} ConstantStatistics(data: seq<DataPoint>, g: Grouping, c: real, lo: int, hi: int)
    requires AllValues(data, c)
    ensures forall j | 0 <= j < |MeansOf(GroupsOf(data, g), lo, hi)| :: MeansOf(GroupsOf(data, g), lo, hi)[j] == c
    ensures forall j | 0 <= j < |VarsOf(GroupsOf(data, g), lo, hi)| :: VarsOf(GroupsOf(data, g), lo, hi)[j] == 0.0
    decreases hi - lo
  {
    if lo < hi {
      var groups := GroupsOf(data, g);
      ConstantStatistics(data, g, c, lo, hi - 1);
      var s := Lookup(groups, hi - 1);
      if |s| > 1 {
        ConstantGroups(data, g, c, hi - 1);
        MeanBetween(s, c, c);
        ConstantVariance(s);
      }
    }
  }

  /** A constant series shows no seasonality. */
  lemma ConstantDataNotSeasonal(data: seq<DataPoint>, c: real)
    requires AllValues(data, c)
    ensures var r := SeasonalityOf(data);
      r.weeklyStrength == 0.0 && r.monthlyStrength == 0.0 &&
      r.dominantPattern == NoPattern && r.patternsDetected == []
  {
    var weekly := GroupsOf(data, ByWeekday);
    ConstantStatistics(data, ByWeekday, c, 0, 7);
    FlatSeasonalStrength(MeansOf(weekly, 0, 7), VarsOf(weekly, 0, 7), 3, c);
    var monthly := GroupsOf(data, ByWeekOfMonth);
    ConstantStatistics(data, ByWeekOfMonth, c, 1, 5);
    FlatSeasonalStrength(MeansOf(monthly, 1, 5), VarsOf(monthly, 1, 5), 2, c);
  }
}

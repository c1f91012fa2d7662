/*
 * Throughput bucketing and statistics
 * (backend/app/services/throughput_calculator.py).
 *
 * Completed items are sorted by completion instant and counted per
 * calendar-aligned period [start, end); the periods tile the time from the
 * period of the first completion to the period of the last one, empty
 * periods in between are kept, and only trailing empty periods are
 * dropped. `statistics.stdev` is a parameter (see Stats.IsStdev).
 */
module ThroughputCalculator {
  import opened DataModels
  import opened Stats
  import opened Calendar
  import opened Text

  // ------------------------------------------------ sorting by timestamp

  predicate SortedByTime(s: seq<DataPoint>)
  {
    forall i, j | 0 <= i < j < |s| :: s[i].timestamp <= s[j].timestamp
  }

  /** Inserts `x` after every element whose timestamp is not later. */
  function InsertByTime(x: DataPoint, s: seq<DataPoint>): (r: seq<DataPoint>)
    requires SortedByTime(s)
    ensures SortedByTime(r) && multiset(r) == multiset(s) + multiset{x} && |r| == |s| + 1
  {
    if s == [] then [x]
    else if x.timestamp < s[0].timestamp then [x] + s
    else
      var t := InsertByTime(x, s[1..]);
      assert s == [s[0]] + s[1..];
      assert forall k | 0 <= k < |t| :: s[0].timestamp <= t[k].timestamp by {
        forall k | 0 <= k < |t| ensures s[0].timestamp <= t[k].timestamp {
          assert t[k] in multiset(t);
          if t[k] != x {
            HeadNotLater(s, t[k]);
          }
        }
      }
      [s[0]] + t
  }

  /** The head of a sorted sequence is not later than anything after it. */
  lemma HeadNotLater(s: seq<DataPoint>, y: DataPoint)
    requires SortedByTime(s) && s != [] && y in multiset(s[1..])
    ensures s[0].timestamp <= y.timestamp
  {
    var j :| 0 <= j < |s[1..]| && s[1..][j] == y;
    assert s[j + 1] == y;
  }

  /** `sorted(completion_data, key=lambda x: x.timestamp)`. */
  function SortByTime(s: seq<DataPoint>): (r: seq<DataPoint>)
    ensures SortedByTime(r) && multiset(r) == multiset(s) && |r| == |s|
  {
    if s == [] then []
    else
      assert s == s[..|s| - 1] + [s[|s| - 1]];
      InsertByTime(s[|s| - 1], SortByTime(s[..|s| - 1]))
  }

  /** The elements completed at instant `t`, in their order in `s`. */
  function WithTime(s: seq<DataPoint>, t: Instant): seq<DataPoint>
  {
    if s == [] then [] else (if s[0].timestamp == t then [s[0]] else []) + WithTime(s[1..], t)
  }

  lemma {:induction false} WithTimeConcat(a: seq<DataPoint>, b: seq<DataPoint>, t: Instant)
    ensures WithTime(a + b, t) == WithTime(a, t) + WithTime(b, t)
  {
    if a != [] {
      assert (a + b)[0] == a[0];
      assert (a + b)[1..] == a[1..] + b;
      WithTimeConcat(a[1..], b, t);
    } else {
      assert a + b == b;
    }
  }

  lemma {:induction false} WithTimeNone(s: seq<DataPoint>, t: Instant)
    requires forall i | 0 <= i < |s| :: s[i].timestamp != t
    ensures WithTime(s, t) == []
  {
    if s != [] {
      WithTimeNone(s[1..], t);
    }
  }

  lemma {:induction false} InsertByTimeStable(x: DataPoint, s: seq<DataPoint>, t: Instant)
    requires SortedByTime(s)
    ensures WithTime(InsertByTime(x, s), t) == WithTime(s, t) + (if x.timestamp == t then [x] else [])
  {
    if s == [] {
    } else if x.timestamp < s[0].timestamp {
      assert ([x] + s)[1..] == s;
      if x.timestamp == t {
        WithTimeNone(s, t);
      }
    } else {
      var r := InsertByTime(x, s);
      InsertByTimeStable(x, s[1..], t);
      assert r[1..] == InsertByTime(x, s[1..]);
    }
  }

  /** The sort is stable: items completed at the same instant keep their
      relative order. */
  lemma {:induction false} SortByTimeStable(s: seq<DataPoint>, t: Instant)
    ensures WithTime(SortByTime(s), t) == WithTime(s, t)
  {
    if s != [] {
      var p, x := s[..|s| - 1], s[|s| - 1];
      calc {
        WithTime(SortByTime(s), t);
        WithTime(InsertByTime(x, SortByTime(p)), t);
        { InsertByTimeStable(x, SortByTime(p), t); }
        WithTime(SortByTime(p), t) + (if x.timestamp == t then [x] else []);
        { SortByTimeStable(p, t); }
        WithTime(p, t) + (if x.timestamp == t then [x] else []);
        { WithTimeConcat(p, [x], t); assert s == p + [x]; }
        WithTime(s, t);
      }
    }
  }

  // ------------------------------------------------ items of a period

  /** The items completed in [lo, hi), in order. */
  function ItemsIn(data: seq<DataPoint>, lo: int, hi: int): (r: seq<DataPoint>)
    ensures |r| <= |data|
    ensures forall k | 0 <= k < |r| :: r[k] in data && lo <= r[k].timestamp < hi
  {
    if data == [] then []
    else
      var last := data[|data| - 1];
      ItemsIn(data[..|data| - 1], lo, hi) + (if lo <= last.timestamp < hi then [last] else [])
  }

  function CountIn(data: seq<DataPoint>, lo: int, hi: int): nat
  {
    |ItemsIn(data, lo, hi)|
  }

  /** Counting is additive over adjacent intervals. */
  lemma {:induction false} CountSplit(data: seq<DataPoint>, lo: int, mid: int, hi: int)
    requires lo <= mid <= hi
    ensures CountIn(data, lo, hi) == CountIn(data, lo, mid) + CountIn(data, mid, hi)
  {
    if data != [] {
      CountSplit(data[..|data| - 1], lo, mid, hi);
    }
  }

  lemma {:induction false} CountNone(data: seq<DataPoint>, lo: int, hi: int)
    requires forall i | 0 <= i < |data| :: !(lo <= data[i].timestamp < hi)
    ensures CountIn(data, lo, hi) == 0
  {
    if data != [] {
      CountNone(data[..|data| - 1], lo, hi);
    }
  }

  lemma {:induction false} CountAll(data: seq<DataPoint>, lo: int, hi: int)
    requires forall i | 0 <= i < |data| :: lo <= data[i].timestamp < hi
    ensures CountIn(data, lo, hi) == |data|
  {
    if data != [] {
      CountAll(data[..|data| - 1], lo, hi);
    }
  }

  /** The name of the `i`-th item of a period: its label, or "Item-i" when
      the label is missing or empty (Python's `label or f"Item-{i}"`). */
  function ItemName(item: DataPoint, i: nat): (r: string)
    ensures r != []
    ensures item.labelText.Some? && item.labelText.value != "" ==> r == item.labelText.value
    ensures item.labelText.None? || item.labelText.value == "" ==> r == "Item-" + NatToString(i)
  {
    match item.labelText
    case Some(l) => if l != "" then l else "Item-" + NatToString(i)
    case None => "Item-" + NatToString(i)
  }

  function ItemNames(items: seq<DataPoint>): (r: seq<string>)
    ensures |r| == |items|
    ensures forall k | 0 <= k < |r| :: r[k] != []
    ensures forall k | 0 <= k < |r| && items[k].labelText.Some? && items[k].labelText.value != "" ::
      r[k] == items[k].labelText.value
    ensures forall k | 0 <= k < |r| && (items[k].labelText.None? || items[k].labelText.value == "") ::
      r[k] == "Item-" + NatToString(k)
    ensures forall k | 0 <= k < |r| :: r[k] == ItemName(items[k], k)
  {
    seq(|items|, i requires 0 <= i < |items| => ItemName(items[i], i))
  }

  // ------------------------------------------------ periods

  /** The end of the period starting at `s`, which is where the next one
      starts. */
  function NextStart(s: Instant, p: ThroughputPeriod): (e: Instant)
    requires IsPeriodStart(s, p)
    ensures PeriodEnd(s, p) == Success(e) && s + SecondsPerDay <= e && IsPeriodStart(e, p)
  {
    PeriodEndIsNextStart(s, p);
    PeriodEnd(s, p).value
  }

  /** The throughput point of the period starting at `s`. */
  function PeriodPoint(data: seq<DataPoint>, s: Instant, p: ThroughputPeriod): (r: ThroughputDataPoint)
    requires IsPeriodStart(s, p)
  {
    var e := NextStart(s, p);
    var items := ItemsIn(data, s, e);
    ThroughputDataPoint(s, e, |items|, ItemNames(items), p)
  }

  /** The periods from the one starting at `s` while their start is not
      after `last`. */
  function PeriodsFrom(data: seq<DataPoint>, s: Instant, last: Instant, p: ThroughputPeriod): seq<ThroughputDataPoint>
    requires IsPeriodStart(s, p)
    decreases last + 1 - s
  {
    if s > last then []
    else [PeriodPoint(data, s, p)] + PeriodsFrom(data, NextStart(s, p), last, p)
  }

  lemma PeriodsFromStep(data: seq<DataPoint>, s: Instant, last: Instant, p: ThroughputPeriod)
    requires IsPeriodStart(s, p) && s <= last
    ensures PeriodsFrom(data, s, last, p) == [PeriodPoint(data, s, p)] + PeriodsFrom(data, NextStart(s, p), last, p)
  {
  }

  /** Pops empty periods off the end. */
  function DropTrailingEmpty(ps: seq<ThroughputDataPoint>): (r: seq<ThroughputDataPoint>)
    ensures |r| <= |ps| && r == ps[..|r|]
    ensures r == [] || r[|r| - 1].itemCount > 0
    ensures forall k | |r| <= k < |ps| :: ps[k].itemCount == 0
  {
    if ps != [] && ps[|ps| - 1].itemCount == 0 then DropTrailingEmpty(ps[..|ps| - 1]) else ps
  }

  /** `_group_by_period` on its input as given. */
  function Grouped(data: seq<DataPoint>, p: ThroughputPeriod): seq<ThroughputDataPoint>
  {
    if data == [] then []
    else
      var first := data[0].timestamp;
      PeriodContains(first, p);
      DropTrailingEmpty(PeriodsFrom(data, PeriodStart(first, p), data[|data| - 1].timestamp, p))
  }

  /** `_group_by_period`: walks the periods from the one holding the first
      item while their start is not after the last item, then pops the
      trailing empty ones. */
  method GroupByPeriod(data: seq<DataPoint>, p: ThroughputPeriod) returns (periods: seq<ThroughputDataPoint>)
    ensures periods == Grouped(data, p)
  {
    if data == [] {
      return [];
    }
    var startDate := data[0].timestamp;
    var endDate := data[|data| - 1].timestamp;
    PeriodContains(startDate, p);
    periods := CollectPeriods(data, PeriodStart(startDate, p), endDate, p);
    periods := PopEmptyPeriods(periods);
  }

  /** The `while current_start <= end_date` loop: one point per period. */
  method CollectPeriods(data: seq<DataPoint>, first: Instant, endDate: Instant, p: ThroughputPeriod)
    returns (periods: seq<ThroughputDataPoint>)
    requires IsPeriodStart(first, p)
    ensures periods == PeriodsFrom(data, first, endDate, p)
  {
    periods := [];
    var currentStart := first;
    while currentStart <= endDate
      invariant IsPeriodStart(currentStart, p)
      invariant periods + PeriodsFrom(data, currentStart, endDate, p) == PeriodsFrom(data, first, endDate, p)
      decreases endDate as int + 1 - currentStart as int
    {
      var periodEnd := NextStart(currentStart, p);
      var itemsInPeriod := ItemsIn(data, currentStart, periodEnd);
      var throughputPoint := ThroughputDataPoint(currentStart, periodEnd, |itemsInPeriod|,
                                                 ItemNames(itemsInPeriod), p);
      CollectStep(data, periods, currentStart, first, endDate, p);
      periods := periods + [throughputPoint];
      currentStart := periodEnd;
    }
    assert PeriodsFrom(data, currentStart, endDate, p) == [];
  }

  /** One turn of the loop of `CollectPeriods` keeps its invariant. */
  lemma CollectStep(data: seq<DataPoint>, periods: seq<ThroughputDataPoint>, s: Instant, first: Instant,
                    last: Instant, p: ThroughputPeriod)
    requires IsPeriodStart(s, p) && IsPeriodStart(first, p) && s <= last
    requires periods + PeriodsFrom(data, s, last, p) == PeriodsFrom(data, first, last, p)
    ensures periods + [PeriodPoint(data, s, p)] + PeriodsFrom(data, NextStart(s, p), last, p) ==
      PeriodsFrom(data, first, last, p)
  {
    PeriodsFromStep(data, s, last, p);
    assert periods + [PeriodPoint(data, s, p)] + PeriodsFrom(data, NextStart(s, p), last, p) ==
      periods + PeriodsFrom(data, s, last, p);
  }

  /** The final `while periods and periods[-1].itemCount == 0: pop()`. */
  method PopEmptyPeriods(all: seq<ThroughputDataPoint>) returns (periods: seq<ThroughputDataPoint>)
    ensures periods == DropTrailingEmpty(all)
  {
    periods := all;
    while periods != [] && periods[|periods| - 1].itemCount == 0
      invariant DropTrailingEmpty(periods) == DropTrailingEmpty(all)
      decreases |periods|
    {
      periods := periods[..|periods| - 1];
    }
    assert DropTrailingEmpty(periods) == periods;
  }

  // ------------------------------------------------ properties of the periods

  /** A period as the grouping builds it: a period start, its end, and the
      count and names of the items in between. */
  predicate WellFormed(data: seq<DataPoint>, tp: ThroughputDataPoint, p: ThroughputPeriod)
  {
    IsPeriodStart(tp.periodStart, p) && tp == PeriodPoint(data, tp.periodStart, p)
  }

  /** Each period ends where the next one starts. */
  predicate Contiguous(ps: seq<ThroughputDataPoint>)
  {
    forall k | 0 <= k < |ps| - 1 :: ps[k].periodEnd == ps[k + 1].periodStart
  }

  /** The periods from `s` are well formed and contiguous, the first starts
      at `s`, every start is at most `last`, and the last end is after
      `last`. */
  predicate PeriodsShape(data: seq<DataPoint>, ps: seq<ThroughputDataPoint>, s: Instant, last: Instant, p: ThroughputPeriod)
  {
    PeriodsSpan(ps, s, last) && AllWellFormed(data, ps, s, last, p)
  }

  predicate PeriodsSpan(ps: seq<ThroughputDataPoint>, s: Instant, last: Instant)
  {
    (ps != [] <==> s <= last) &&
    (ps != [] ==> ps[0].periodStart == s && last < ps[|ps| - 1].periodEnd) &&
    Contiguous(ps)
  }

  predicate AllWellFormed(data: seq<DataPoint>, ps: seq<ThroughputDataPoint>, s: Instant, last: Instant, p: ThroughputPeriod)
  {
    forall k | 0 <= k < |ps| :: WellFormed(data, ps[k], p) && s <= ps[k].periodStart <= last
  }

  lemma PeriodsFromShape(data: seq<DataPoint>, s: Instant, last: Instant, p: ThroughputPeriod)
    requires IsPeriodStart(s, p)
    ensures PeriodsShape(data, PeriodsFrom(data, s, last, p), s, last, p)
  {
    PeriodsFromSpan(data, s, last, p);
    PeriodsFromWellFormed(data, s, last, p);
  }

  lemma {:induction false} PeriodsFromSpan(data: seq<DataPoint>, s: Instant, last: Instant, p: ThroughputPeriod)
    requires IsPeriodStart(s, p)
    ensures PeriodsSpan(PeriodsFrom(data, s, last, p), s, last)
    decreases last + 1 - s
  {
    if s <= last {
      var e := NextStart(s, p);
      PeriodsFromSpan(data, e, last, p);
      PeriodsFromStep(data, s, last, p);
      var ps := PeriodsFrom(data, s, last, p);
      var rest := PeriodsFrom(data, e, last, p);
      assert ps == [PeriodPoint(data, s, p)] + rest;
      assert PeriodsSpan(rest, e, last);
      forall k | 0 <= k < |ps| - 1 ensures ps[k].periodEnd == ps[k + 1].periodStart {
        if k > 0 {
          assert ps[k] == rest[k - 1] && ps[k + 1] == rest[k];
        }
      }
    }
  }

  lemma {:induction false} PeriodsFromWellFormed(data: seq<DataPoint>, s: Instant, last: Instant, p: ThroughputPeriod)
    requires IsPeriodStart(s, p)
    ensures AllWellFormed(data, PeriodsFrom(data, s, last, p), s, last, p)
    decreases last + 1 - s
  {
    if s <= last {
      var e := NextStart(s, p);
      PeriodsFromWellFormed(data, e, last, p);
      PeriodsFromStep(data, s, last, p);
      var ps := PeriodsFrom(data, s, last, p);
      var rest := PeriodsFrom(data, e, last, p);
      assert ps == [PeriodPoint(data, s, p)] + rest;
      assert AllWellFormed(data, rest, e, last, p);
      forall k | 0 <= k < |ps| ensures WellFormed(data, ps[k], p) && s <= ps[k].periodStart <= last {
        if k > 0 {
          assert ps[k] == rest[k - 1];
        }
      }
    }
  }

  function SumCounts(ps: seq<ThroughputDataPoint>): nat
  {
    if ps == [] then 0 else SumCounts(ps[..|ps| - 1]) + ps[|ps| - 1].itemCount
  }

  lemma {:induction false} SumCountsFront(tp: ThroughputDataPoint, ps: seq<ThroughputDataPoint>)
    ensures SumCounts([tp] + ps) == tp.itemCount + SumCounts(ps)
  {
    if ps != [] {
      assert ([tp] + ps)[..|ps|] == [tp] + ps[..|ps| - 1];
      SumCountsFront(tp, ps[..|ps| - 1]);
    }
  }

  /** Dropping empty periods does not change the total. */
  lemma {:induction false} DropTrailingEmptySum(ps: seq<ThroughputDataPoint>)
    ensures SumCounts(DropTrailingEmpty(ps)) == SumCounts(ps)
  {
    if ps != [] && ps[|ps| - 1].itemCount == 0 {
      DropTrailingEmptySum(ps[..|ps| - 1]);
    }
  }

  /** When no item is later than `last`, the periods from `s` count every
      item completed at or after `s`. */
  /** The first period's count, then the counts of the rest. */
  lemma SumCountsStep(data: seq<DataPoint>, s: Instant, last: Instant, p: ThroughputPeriod)
    requires IsPeriodStart(s, p) && s <= last
    ensures SumCounts(PeriodsFrom(data, s, last, p)) ==
      CountIn(data, s, NextStart(s, p)) + SumCounts(PeriodsFrom(data, NextStart(s, p), last, p))
  {
    PeriodsFromStep(data, s, last, p);
    SumCountsFront(PeriodPoint(data, s, p), PeriodsFrom(data, NextStart(s, p), last, p));
  }

  lemma {:induction false} PeriodsFromCount(data: seq<DataPoint>, s: Instant, last: Instant, p: ThroughputPeriod)
    requires IsPeriodStart(s, p)
    requires forall i | 0 <= i < |data| :: data[i].timestamp <= last
    ensures SumCounts(PeriodsFrom(data, s, last, p)) == CountIn(data, s, last + 1)
    decreases last + 1 - s
  {
    if s > last {
      CountNone(data, s, last + 1);
    } else {
      var e := NextStart(s, p);
      SumCountsStep(data, s, last, p);
      PeriodsFromCount(data, e, last, p);
      if e <= last + 1 {
        CountSplit(data, s, e, last + 1);
      } else {
        CountSplit(data, s, last + 1, e);
        CountNone(data, last + 1, e);
        CountNone(data, e, last + 1);
      }
    }
  }

  /** For non-empty input the grouping is the periods from the one holding
      the first item up to the last item, less the trailing empty ones. */
  lemma GroupedIsTrimmed(data: seq<DataPoint>, p: ThroughputPeriod)
    requires data != []
    ensures IsPeriodStart(PeriodStart(data[0].timestamp, p), p)
    ensures Grouped(data, p) ==
      DropTrailingEmpty(PeriodsFrom(data, PeriodStart(data[0].timestamp, p), data[|data| - 1].timestamp, p))
  {
    PeriodContains(data[0].timestamp, p);
  }

  /** For sorted, non-empty input the grouping is a non-empty run of
      contiguous, well-formed periods starting with the period of the first
      item; its first and last periods are non-empty (empty periods inside
      are kept). */
  lemma GroupedShape(data: seq<DataPoint>, p: ThroughputPeriod)
    requires SortedByTime(data) && data != []
    ensures Grouped(data, p) != []
    ensures Grouped(data, p)[0].periodStart == PeriodStart(data[0].timestamp, p)
    ensures Grouped(data, p)[0].itemCount > 0 && Grouped(data, p)[|Grouped(data, p)| - 1].itemCount > 0
    ensures Contiguous(Grouped(data, p))
    ensures forall k | 0 <= k < |Grouped(data, p)| :: WellFormed(data, Grouped(data, p)[k], p)
  {
    var first := data[0].timestamp;
    var last := data[|data| - 1].timestamp;
    PeriodContains(first, p);
    var s := PeriodStart(first, p);
    var all := PeriodsFrom(data, s, last, p);
    assert first <= last;
    GroupedIsTrimmed(data, p);
    PeriodsFromShape(data, s, last, p);
    assert all[0].itemCount > 0 by {
      ItemsInHolds(data, 0, s, NextStart(s, p));
    }
    var ps := DropTrailingEmpty(all);
    assert ps != [] && ps[0] == all[0];
    forall k | 0 <= k < |ps| - 1 ensures ps[k].periodEnd == ps[k + 1].periodStart {
      assert ps[k] == all[k] && ps[k + 1] == all[k + 1];
    }
    forall k | 0 <= k < |ps| ensures WellFormed(data, ps[k], p) {
      assert ps[k] == all[k];
    }
  }

  /** For sorted input the counts of the periods add up to the number of
      items: every item is counted, and in exactly one period. */
  lemma GroupedTotal(data: seq<DataPoint>, p: ThroughputPeriod)
    requires SortedByTime(data)
    ensures SumCounts(Grouped(data, p)) == |data|
  {
    if data != [] {
      var first := data[0].timestamp;
      var last := data[|data| - 1].timestamp;
      PeriodContains(first, p);
      var s := PeriodStart(first, p);
      var all := PeriodsFrom(data, s, last, p);
      forall i | 0 <= i < |data| ensures s <= data[i].timestamp <= last {
        assert first <= data[i].timestamp <= last by {
          if 0 < i < |data| - 1 {
            assert data[0].timestamp <= data[i].timestamp;
            assert data[i].timestamp <= data[|data| - 1].timestamp;
          }
        }
      }
      calc {
        SumCounts(Grouped(data, p));
        SumCounts(DropTrailingEmpty(all));
        { DropTrailingEmptySum(all); }
        SumCounts(all);
        { PeriodsFromCount(data, s, last, p); }
        CountIn(data, s, last + 1);
        { CountAll(data, s, last + 1); }
        |data|;
      }
    }
  }

  /** An item inside [lo, hi) is among the items of that interval. */
  lemma {:induction false} ItemsInHolds(data: seq<DataPoint>, i: nat, lo: int, hi: int)
    requires i < |data| && lo <= data[i].timestamp < hi
    ensures data[i] in ItemsIn(data, lo, hi)
  {
    if i < |data| - 1 {
      ItemsInHolds(data[..|data| - 1], i, lo, hi);
    }
  }

  // ------------------------------------------------ the analysis

  function Counts(ps: seq<ThroughputDataPoint>): (r: seq<int>)
    ensures |r| == |ps| && forall k | 0 <= k < |ps| :: r[k] == ps[k].itemCount
  {
    seq(|ps|, k requires 0 <= k < |ps| => ps[k].itemCount as int)
  }

  /** The predictability score: one minus the coefficient of variation of
      the counts, floored at 0; 0 when the average is not positive. */
  function Predictability(xs: seq<real>, average: real, stdev: seq<real> -> real): real
  {
    if average > 0.0 then
      var stdDev := if |xs| > 1 then stdev(xs) else 0.0;
      Max(0.0, 1.0 - stdDev / average)
    else 0.0
  }

  /** `calculate_throughput_analysis`. */
  function ThroughputAnalysisOf(data: seq<DataPoint>, p: ThroughputPeriod, stdev: seq<real> -> real)
    : Result<ThroughputAnalysis, EngineError>
  {
    if |data| < 3 then Failure(TooFewPoints)
    else
      var periods := Grouped(SortByTime(data), p);
      var counts := Counts(periods);
      if counts == [] then Failure(NoThroughputPeriods)
      else
        var xs := IntsToReals(counts);
        var average := Mean(xs);
        Success(ThroughputAnalysis(periods, average, Median(xs), MinInt(counts), MaxInt(counts), p,
                                   |periods|, |data|, Predictability(xs, average, stdev)))
  }

  lemma {:induction false} SumCountsIsSum(ps: seq<ThroughputDataPoint>)
    ensures Sum(IntsToReals(Counts(ps))) == SumCounts(ps) as real
  {
    if ps != [] {
      var q := ps[..|ps| - 1];
      assert IntsToReals(Counts(ps))[..|ps| - 1] == IntsToReals(Counts(q));
      SumCountsIsSum(q);
    }
  }

  /** The analysis fails exactly on fewer than three items; the "no
      periods" error cannot happen. */
  lemma ThroughputAnalysisFails(data: seq<DataPoint>, p: ThroughputPeriod, stdev: seq<real> -> real)
    ensures ThroughputAnalysisOf(data, p, stdev).Success? <==> |data| >= 3
    ensures |data| < 3 ==> ThroughputAnalysisOf(data, p, stdev) == Failure(TooFewPoints)
  {
    if |data| >= 3 {
      GroupedShape(SortByTime(data), p);
    }
  }

  /** A successful analysis counts every item once, over a contiguous run of
      at least one period whose first and last periods are non-empty. */
  lemma ThroughputAnalysisCounts(data: seq<DataPoint>, p: ThroughputPeriod, stdev: seq<real> -> real)
    requires ThroughputAnalysisOf(data, p, stdev).Success?
    ensures var a := ThroughputAnalysisOf(data, p, stdev).value;
      a.throughputData == Grouped(SortByTime(data), p) &&
      a.totalItemsCompleted == |data| &&
      a.totalPeriods == |a.throughputData| >= 1 &&
      SumCounts(a.throughputData) == |data| &&
      a.throughputData[0].itemCount > 0 && a.throughputData[|a.throughputData| - 1].itemCount > 0 &&
      Contiguous(a.throughputData)
  {
    GroupedShape(SortByTime(data), p);
    GroupedTotal(SortByTime(data), p);
  }

  /** The statistics of a successful analysis are ordered: minimum, average
      and median between the smallest and the largest count, the average
      being the items per period, and the predictability score is not
      negative. */
  lemma ThroughputAnalysisStatistics(data: seq<DataPoint>, p: ThroughputPeriod, stdev: seq<real> -> real)
    requires ThroughputAnalysisOf(data, p, stdev).Success?
    ensures var a := ThroughputAnalysisOf(data, p, stdev).value;
      0 <= a.minThroughput && 1 <= a.maxThroughput &&
      a.minThroughput as real <= a.averageThroughput <= a.maxThroughput as real &&
      a.minThroughput as real <= a.medianThroughput <= a.maxThroughput as real &&
      a.averageThroughput == (|data| as real) / (a.totalPeriods as real) &&
      a.predictabilityScore >= 0.0
  {
    ThroughputAnalysisCounts(data, p, stdev);
    var periods := Grouped(SortByTime(data), p);
    var counts := Counts(periods);
    var xs := IntsToReals(counts);
    var lo, hi := MinInt(counts), MaxInt(counts);
    assert counts[0] >= 1;
    assert forall i | 0 <= i < |xs| :: lo as real <= xs[i] <= hi as real;
    MeanBetween(xs, lo as real, hi as real);
    MedianBetween(xs, lo as real, hi as real);
    SumCountsIsSum(periods);
  }

  /** With a genuine standard deviation the predictability score is at
      most 1, and perfectly steady positive throughput scores exactly 1. */
  lemma PredictabilityBounds(xs: seq<real>, stdev: seq<real> -> real)
    requires IsStdev(stdev) && |xs| > 0
    ensures 0.0 <= Predictability(xs, Mean(xs), stdev) <= 1.0
    ensures (forall i | 0 <= i < |xs| :: xs[i] == xs[0]) && xs[0] > 0.0 ==>
      Predictability(xs, Mean(xs), stdev) == 1.0
  {
    var average := Mean(xs);
    if average > 0.0 && |xs| > 1 {
      assert stdev(xs) >= 0.0;
      assert stdev(xs) / average >= 0.0;
    }
    if (forall i | 0 <= i < |xs| :: xs[i] == xs[0]) && xs[0] > 0.0 {
      MeanBetween(xs, xs[0], xs[0]);
      if |xs| > 1 {
        ConstantVariance(xs);
        assert stdev(xs) == 0.0;
      }
    }
  }

  // ------------------------------------------------ data for the chart

  function PeriodTitle(p: ThroughputPeriod): string
  {
    match p
    case Daily => "Daily"
    case Weekly => "Weekly"
    case Monthly => "Monthly"
  }

  /** The midpoint of a period, rounded down to whole seconds. */
  function Midpoint(start: Instant, end: Instant): (r: Instant)
    ensures start <= end ==> start <= r <= end
    ensures (start + end) % 2 == 0 ==> 2 * r == start + end
  {
    (start + end) / 2
  }

  /** `create_throughput_pbc_data`: one chart point per period, in order,
      at the period's midpoint, valued at its count, labelled
      "<Period> <i+1>: <count> items". */
  method CreateThroughputPbcData(analysis: ThroughputAnalysis) returns (pbcData: seq<DataPoint>)
    ensures |pbcData| == |analysis.throughputData|
    ensures forall i | 0 <= i < |pbcData| ::
      var tp := analysis.throughputData[i];
      pbcData[i].value == tp.itemCount as real &&
      pbcData[i].timestamp == Midpoint(tp.periodStart, tp.periodEnd) &&
      pbcData[i].labelText == Some(PeriodTitle(tp.period) + " " + NatToString(i + 1) + ": " +
                                   NatToString(tp.itemCount) + " items")
  {
    pbcData := [];
    for i := 0 to |analysis.throughputData|
      invariant |pbcData| == i
      invariant forall k | 0 <= k < i ::
        var tp := analysis.throughputData[k];
        pbcData[k].value == tp.itemCount as real &&
        pbcData[k].timestamp == Midpoint(tp.periodStart, tp.periodEnd) &&
        pbcData[k].labelText == Some(PeriodTitle(tp.period) + " " + NatToString(k + 1) + ": " +
                                     NatToString(tp.itemCount) + " items")
    {
      var periodData := analysis.throughputData[i];
      var midpoint := Midpoint(periodData.periodStart, periodData.periodEnd);
      var caption := PeriodTitle(periodData.period) + " " + NatToString(i + 1) + ": " +
                   NatToString(periodData.itemCount) + " items";
      pbcData := pbcData + [DataPoint(midpoint, periodData.itemCount as real, Some(caption))];
    }
  }

  /** For periods of the grouping the chart point lies inside its period,
      exactly at the middle (periods last whole days). */
  lemma MidpointInside(data: seq<DataPoint>, tp: ThroughputDataPoint, p: ThroughputPeriod)
    requires WellFormed(data, tp, p)
    ensures tp.periodStart < Midpoint(tp.periodStart, tp.periodEnd) < tp.periodEnd
    ensures 2 * Midpoint(tp.periodStart, tp.periodEnd) == tp.periodStart + tp.periodEnd
  {
    var s, e := tp.periodStart, tp.periodEnd;
    assert e == NextStart(s, p);
    PeriodStartAtMidnight(s, p);
    PeriodStartAtMidnight(e, p);
    WholeDaysMidpoint(s, e);
  }

  /** Two midnights a day or more apart have an even sum strictly between
      them. */
  lemma WholeDaysMidpoint(s: int, e: int)
    requires s % SecondsPerDay == 0 && e % SecondsPerDay == 0 && s + SecondsPerDay <= e
    ensures (s + e) % 2 == 0 && s < (s + e) / 2 < e
  {
    var a, b := s / SecondsPerDay, e / SecondsPerDay;
    assert s == a * SecondsPerDay && e == b * SecondsPerDay;
    assert s + e == 2 * ((a + b) * 43200);
  }

  // ------------------------------------------------ recommendations

  const LowPredictabilityMessage: string :=
    "Low throughput predictability detected. Consider investigating process variation and work intake patterns to improve flow stability."
  const HighVariationMessage: string :=
    "High throughput variation detected. This may indicate batching behavior or irregular work intake. Consider implementing WIP limits and steady work intake."
  const HighSeveritySignalsMessage: string :=
    "High-severity signals detected in throughput data. Investigate process changes or external factors affecting delivery capacity during these periods."
  const ZeroThroughputMessage: string :=
    "Frequent periods with zero throughput detected. This may indicate batching, process bottlenecks, or irregular work intake patterns."

  const MoreDataHead: string := "Consider collecting more throughput data. Current "
  const MoreDataTail: string := " periods may not provide sufficient baseline for reliable forecasting."

  /** The advice to collect more data, quoting the number of periods. */
  function MoreDataMessage(totalPeriods: nat): string
  {
    MoreDataHead + NatToString(totalPeriods) + MoreDataTail
  }

  /** The message about few periods differs from the four fixed ones. */
  lemma MoreDataMessageDistinct(n: nat)
    ensures var m := MoreDataMessage(n);
      m != LowPredictabilityMessage && m != HighVariationMessage &&
      m != HighSeveritySignalsMessage && m != ZeroThroughputMessage
  {
    // The messages differ in their next-to-last character.
    var m := MoreDataMessage(n);
    assert m[|m| - 2] == MoreDataTail[|MoreDataTail| - 2] == 'g';
    assert LowPredictabilityMessage[|LowPredictabilityMessage| - 2] == 'y';
    assert HighVariationMessage[|HighVariationMessage| - 2] == 'e';
    assert HighSeveritySignalsMessage[|HighSeveritySignalsMessage| - 2] == 's';
    assert ZeroThroughputMessage[|ZeroThroughputMessage| - 2] == 's';
  }

  function ZeroPeriods(ps: seq<ThroughputDataPoint>): (r: nat)
    ensures r <= |ps|
  {
    if ps == [] then 0 else ZeroPeriods(ps[..|ps| - 1]) + (if ps[|ps| - 1].itemCount == 0 then 1 else 0)
  }

  predicate HasHighSeverity(signals: seq<Signal>)
  {
    exists s | s in signals :: s.severity == "high"
  }

  predicate LowPredictability(a: ThroughputAnalysis) { a.predictabilityScore < 0.7 }
  predicate HighVariation(a: ThroughputAnalysis) { a.maxThroughput as real > a.averageThroughput * 2.0 }
  predicate FrequentZeros(a: ThroughputAnalysis) { ZeroPeriods(a.throughputData) as real > (a.totalPeriods as real) * 0.2 }
  predicate FewPeriods(a: ThroughputAnalysis) { a.totalPeriods < 10 }

  /** `generate_throughput_recommendations`: up to five messages, each
      appended when its condition holds, in a fixed order. */
  method GenerateThroughputRecommendations(analysis: ThroughputAnalysis, signals: seq<Signal>)
    returns (recommendations: seq<string>)
    ensures recommendations ==
      (if LowPredictability(analysis) then [LowPredictabilityMessage] else []) +
      (if HighVariation(analysis) then [HighVariationMessage] else []) +
      (if HasHighSeverity(signals) then [HighSeveritySignalsMessage] else []) +
      (if FrequentZeros(analysis) then [ZeroThroughputMessage] else []) +
      (if FewPeriods(analysis) then [MoreDataMessage(analysis.totalPeriods)] else [])
  {
    ghost var a1 := if LowPredictability(analysis) then [LowPredictabilityMessage] else [];
    ghost var a2 := if HighVariation(analysis) then [HighVariationMessage] else [];
    ghost var a3 := if HasHighSeverity(signals) then [HighSeveritySignalsMessage] else [];
    ghost var a4 := if FrequentZeros(analysis) then [ZeroThroughputMessage] else [];
    ghost var a5 := if FewPeriods(analysis) then [MoreDataMessage(analysis.totalPeriods)] else [];
    recommendations := [];
    if analysis.predictabilityScore < 0.7 {
      recommendations := recommendations + [LowPredictabilityMessage];
    }
    assert recommendations == a1;
    if analysis.maxThroughput as real > analysis.averageThroughput * 2.0 {
      recommendations := recommendations + [HighVariationMessage];
    }
    assert recommendations == a1 + a2;
    if |signals| > 0 {
      var highSeveritySignals := FilterHigh(signals);
      if |highSeveritySignals| > 0 {
        recommendations := recommendations + [HighSeveritySignalsMessage];
      }
    }
    assert recommendations == a1 + a2 + a3;
    var zeroPeriods := ZeroPeriods(analysis.throughputData);
    if zeroPeriods as real > (analysis.totalPeriods as real) * 0.2 {
      recommendations := recommendations + [ZeroThroughputMessage];
    }
    assert recommendations == a1 + a2 + a3 + a4;
    if analysis.totalPeriods < 10 {
      recommendations := recommendations + [MoreDataMessage(analysis.totalPeriods)];
    }
    assert recommendations == a1 + a2 + a3 + a4 + a5;
  }

  /** The signals of severity "high", in order. */
  function FilterHigh(signals: seq<Signal>): (r: seq<Signal>)
    ensures |r| > 0 <==> HasHighSeverity(signals)
  {
    if signals == [] then []
    else
      var rest := FilterHigh(signals[1..]);
      assert forall s | s in signals :: s == signals[0] || s in signals[1..];
      (if signals[0].severity == "high" then [signals[0]] else []) + rest
  }

  /** The five messages are distinct, so each appears exactly when its
      condition holds, and there are at most five. */
  lemma RecommendationsSpec(a: ThroughputAnalysis, signals: seq<Signal>, r: seq<string>)
    requires r ==
      (if LowPredictability(a) then [LowPredictabilityMessage] else []) +
      (if HighVariation(a) then [HighVariationMessage] else []) +
      (if HasHighSeverity(signals) then [HighSeveritySignalsMessage] else []) +
      (if FrequentZeros(a) then [ZeroThroughputMessage] else []) +
      (if FewPeriods(a) then [MoreDataMessage(a.totalPeriods)] else [])
    ensures |r| <= 5
    ensures LowPredictabilityMessage in r <==> LowPredictability(a)
    ensures HighVariationMessage in r <==> HighVariation(a)
    ensures HighSeveritySignalsMessage in r <==> HasHighSeverity(signals)
    ensures ZeroThroughputMessage in r <==> FrequentZeros(a)
    ensures MoreDataMessage(a.totalPeriods) in r <==> FewPeriods(a)
  {
    MoreDataMessageDistinct(a.totalPeriods);
  }
}

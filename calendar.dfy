/*
 * Calendar arithmetic behind the throughput periods
 * (`_get_period_start` / `_get_period_end` in
 * backend/app/services/throughput_calculator.py).
 *
 * An instant is a count of seconds since 0001-01-01T00:00:00 of the
 * proleptic Gregorian calendar. Day 0 is that date, a Monday, so the
 * weekday of day `d` is `d % 7` with 0 = Monday, as Python's
 * `datetime.weekday()`. Months are numbered from 0 (January of year 1)
 * and their lengths follow the Gregorian leap-year rule. Years do not
 * stop at 9999 as `datetime`'s do.
 */
module Calendar {
  import opened DataModels

  const SecondsPerDay: nat := 86400

  function DayNumber(t: Instant): nat
  {
    t / SecondsPerDay
  }

  function Weekday(day: nat): nat
  {
    day % 7
  }

  function YearOf(month: nat): nat
  {
    1 + month / 12
  }

  /** The month of the year, 1 = January. */
  function MonthOfYear(month: nat): nat
  {
    month % 12 + 1
  }

  predicate IsLeapYear(year: int)
  {
    year % 4 == 0 && (year % 100 != 0 || year % 400 == 0)
  }

  function DaysInMonth(month: nat): (r: nat)
    ensures 28 <= r <= 31
  {
    var m := MonthOfYear(month);
    if m == 2 then (if IsLeapYear(YearOf(month)) then 29 else 28)
    else if m == 4 || m == 6 || m == 9 || m == 11 then 30
    else 31
  }

  /** The day number of the first day of `month`. */
  function MonthStartDay(month: nat): nat
  {
    if month == 0 then 0 else MonthStartDay(month - 1) + DaysInMonth(month - 1)
  }

  lemma {:induction false} MonthStartDayGrows(a: nat, b: nat)
    requires a < b
    ensures MonthStartDay(a) + 28 <= MonthStartDay(b)
  {
    if a < b - 1 {
      MonthStartDayGrows(a, b - 1);
    }
  }

  function MonthFrom(day: nat, month: nat): (r: nat)
    requires MonthStartDay(month) <= day
    ensures month <= r && MonthStartDay(r) <= day < MonthStartDay(r + 1)
    decreases day - MonthStartDay(month)
  {
    if day < MonthStartDay(month + 1) then month else MonthFrom(day, month + 1)
  }

  /** The month that contains day `day`. */
  function MonthOf(day: nat): (r: nat)
    ensures MonthStartDay(r) <= day < MonthStartDay(r + 1)
  {
    MonthFrom(day, 0)
  }

  lemma MonthOfUnique(day: nat, month: nat)
    requires MonthStartDay(month) <= day < MonthStartDay(month + 1)
    ensures MonthOf(day) == month
  {
    var r := MonthOf(day);
    if r < month {
      if r + 1 < month { MonthStartDayGrows(r + 1, month); }
    } else if r > month {
      if month + 1 < r { MonthStartDayGrows(month + 1, r); }
    }
  }

  /** Day of the month, 1-based, as `datetime.day`. */
  function DayOfMonth(day: nat): (r: nat)
    ensures 1 <= r <= DaysInMonth(MonthOf(day))
  {
    day - MonthStartDay(MonthOf(day)) + 1
  }

  /** The month after December is January of the following year; any other
      month is followed by the next month of the same year. */
  lemma NextMonth(month: nat)
    ensures MonthOfYear(month) == 12 ==> YearOf(month + 1) == YearOf(month) + 1 && MonthOfYear(month + 1) == 1
    ensures MonthOfYear(month) < 12 ==> YearOf(month + 1) == YearOf(month) && MonthOfYear(month + 1) == MonthOfYear(month) + 1
  {
  }

  lemma DayOfScaled(k: nat)
    ensures DayNumber(k * SecondsPerDay) == k && (k * SecondsPerDay) % SecondsPerDay == 0
  {
  }

  /** `_get_period_start`: midnight of the day, of the Monday on or before
      the day, or of the first of the month. */
  function PeriodStart(t: Instant, p: ThroughputPeriod): Instant
  {
    var d := DayNumber(t);
    match p
    case Daily => d * SecondsPerDay
    case Weekly => (d - Weekday(d)) * SecondsPerDay
    case Monthly => MonthStartDay(MonthOf(d)) * SecondsPerDay
  }

  /** `_get_period_end`: one day or one week later, or the same day and time
      of the next month (year + 1 and January after December). Python's
      `datetime.replace` raises when that day does not exist in the next
      month. Instants are unbounded here, so the end of December of year
      9999, where Python's `datetime` has no year 10000, is not an error. */
  function PeriodEnd(s: Instant, p: ThroughputPeriod): Result<Instant, EngineError>
  {
    match p
    case Daily => Success(s + SecondsPerDay)
    case Weekly => Success(s + 7 * SecondsPerDay)
    case Monthly =>
      var d := DayNumber(s);
      var m := MonthOf(d);
      var dom := DayOfMonth(d);
      if dom <= DaysInMonth(m + 1) then
        Success((MonthStartDay(m + 1) + dom - 1) * SecondsPerDay + s % SecondsPerDay)
      else
        Failure(MonthOutOfRange)
  }

  predicate IsPeriodStart(s: Instant, p: ThroughputPeriod)
  {
    PeriodStart(s, p) == s
  }

  /** Every instant lies in the period that `PeriodStart` opens and whose
      end `PeriodEnd` computes; that start is itself a period start, at
      midnight, and for weekly periods a Monday. */
  lemma PeriodContains(t: Instant, p: ThroughputPeriod)
    ensures var s := PeriodStart(t, p);
      IsPeriodStart(s, p) && s % SecondsPerDay == 0 && s <= t &&
      PeriodEnd(s, p).Success? && t < PeriodEnd(s, p).value &&
      (p == Weekly ==> Weekday(DayNumber(s)) == 0)
  {
    var d := DayNumber(t);
    var s := PeriodStart(t, p);
    match p
    case Daily =>
      DayOfScaled(d);
    case Weekly =>
      var k := d - Weekday(d);
      DayOfScaled(k);
      assert k % 7 == 0;
    case Monthly =>
      var m := MonthOf(d);
      DayOfScaled(MonthStartDay(m));
      MonthOfUnique(MonthStartDay(m), m);
      assert DayNumber(s) == MonthStartDay(m);
      MonthStartDayGrows(m, m + 1);
      DayOfScaled(MonthStartDay(m + 1));
  }

  /** Period starts fall on midnight. */
  lemma PeriodStartAtMidnight(s: Instant, p: ThroughputPeriod)
    requires IsPeriodStart(s, p)
    ensures s % SecondsPerDay == 0
  {
    PeriodContains(s, p);
  }

  /** The end of a period is the start of the next one, at least a day later. */
  lemma PeriodEndIsNextStart(s: Instant, p: ThroughputPeriod)
    requires IsPeriodStart(s, p)
    ensures PeriodEnd(s, p).Success?
    ensures s + SecondsPerDay <= PeriodEnd(s, p).value && IsPeriodStart(PeriodEnd(s, p).value, p)
  {
    match p
    case Daily => DailyEndIsNextStart(s);
    case Weekly => WeeklyEndIsNextStart(s);
    case Monthly => MonthlyEndIsNextStart(s);
  }

  lemma DailyEndIsNextStart(s: Instant)
    requires IsPeriodStart(s, Daily)
    ensures PeriodEnd(s, Daily) == Success(s + SecondsPerDay) && IsPeriodStart(s + SecondsPerDay, Daily)
  {
    var d := DayNumber(s);
    DayOfScaled(d);
    DayOfScaled(d + 1);
  }

  lemma WeeklyEndIsNextStart(s: Instant)
    requires IsPeriodStart(s, Weekly)
    ensures PeriodEnd(s, Weekly) == Success(s + 7 * SecondsPerDay) && IsPeriodStart(s + 7 * SecondsPerDay, Weekly)
  {
    var d := DayNumber(s);
    var k := d - Weekday(d);
    DayOfScaled(k);
    assert k % 7 == 0;
    DayOfScaled(k + 7);
  }

  /** A monthly period ends at midnight on the first of the next month
      (month index + 1; `NextMonth` gives the December-to-January
      rollover of the year). */
  lemma MonthlyEndIsNextStart(s: Instant)
    requires IsPeriodStart(s, Monthly)
    ensures PeriodEnd(s, Monthly).Success?
    ensures s + SecondsPerDay <= PeriodEnd(s, Monthly).value && IsPeriodStart(PeriodEnd(s, Monthly).value, Monthly)
    ensures PeriodEnd(s, Monthly) == Success(MonthStartDay(MonthOf(DayNumber(s)) + 1) * SecondsPerDay)
    ensures MonthOf(DayNumber(PeriodEnd(s, Monthly).value)) == MonthOf(DayNumber(s)) + 1
  {
    var d := DayNumber(s);
    var m := MonthOf(d);
    DayOfScaled(MonthStartDay(m));
    MonthOfUnique(MonthStartDay(m), m);
    assert DayNumber(s) == MonthStartDay(m);
    MonthStartDayGrows(m, m + 1);
    DayOfScaled(MonthStartDay(m + 1));
    MonthOfUnique(MonthStartDay(m + 1), m + 1);
  }
}

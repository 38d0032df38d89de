/** When the monthly billing run fires next: the first instant of the next
    calendar month, local time, and the delay from now until then.

    A date is a calendar reading with the month counted from 0 (January) to 11
    (December). Turning a date into epoch milliseconds depends on the time
    zone and is not part of this model: it is a parameter `toMillis`, assumed
    only to be strictly increasing over valid dates. */
module Schedule {

  /** A month index as the calendar reports it: 0 is January, 11 December. */
  type Month = m: int | 0 <= m < 12

  datatype Date = Date(year: int, month: Month, day: int, hour: int, minute: int, second: int, millisecond: int)

  predicate IsLeapYear(year: int) {
    year % 4 == 0 && (year % 100 != 0 || year % 400 == 0)
  }

  function DaysInMonth(year: int, month: Month): (days: int)
    ensures 28 <= days <= 31
  {
    if month == 1 then (if IsLeapYear(year) then 29 else 28)
    else if month == 3 || month == 5 || month == 8 || month == 10 then 30
    else 31
  }

  /** Every field of the date is within its calendar range. */
  predicate Valid(d: Date) {
    && 1 <= d.day <= DaysInMonth(d.year, d.month)
    && 0 <= d.hour < 24
    && 0 <= d.minute < 60
    && 0 <= d.second < 60
    && 0 <= d.millisecond < 1000
  }

  /** `a` is an earlier instant than `b`: the fields compared from the year down. */
  predicate Before(a: Date, b: Date) {
    || a.year < b.year
    || (a.year == b.year && a.month < b.month)
    || (a.year == b.year && a.month == b.month && a.day < b.day)
    || (a.year == b.year && a.month == b.month && a.day == b.day && a.hour < b.hour)
    || (a.year == b.year && a.month == b.month && a.day == b.day && a.hour == b.hour && a.minute < b.minute)
    || (a.year == b.year && a.month == b.month && a.day == b.day && a.hour == b.hour && a.minute == b.minute
        && a.second < b.second)
    || (a.year == b.year && a.month == b.month && a.day == b.day && a.hour == b.hour && a.minute == b.minute
        && a.second == b.second && a.millisecond < b.millisecond)
  }

  /** A date-to-milliseconds conversion that keeps the order of valid dates. */
  ghost predicate StrictlyMonotone(toMillis: Date -> int) {
    forall a, b :: Valid(a) && Valid(b) && Before(a, b) ==> toMillis(a) < toMillis(b)
  }

  /** The number of months from January of year 0 to the date's month. */
  function MonthCount(d: Date): int {
    d.year * 12 + d.month
  }

  /** The first instant (midnight of day 1) of the month numbered `k`. */
  function FirstOfMonth(k: int): (d: Date)
    ensures Valid(d) && MonthCount(d) == k
    ensures d.day == 1 && d.hour == 0 && d.minute == 0 && d.second == 0 && d.millisecond == 0
  {
    Date(k / 12, k % 12, 1, 0, 0, 0, 0)
  }

  /** The instant the next monthly run is due: midnight on the first day of the
      month after the one `now` falls in. */
  function NextMonthStart(now: Date): (target: Date)
    ensures Valid(target) && MonthCount(target) == MonthCount(now) + 1
    ensures now.month == 11 ==> target.year == now.year + 1 && target.month == 0
    ensures now.month != 11 ==> target.year == now.year && target.month == now.month + 1
    ensures target.day == 1 && target.hour == 0 && target.minute == 0 && target.second == 0 && target.millisecond == 0
  {
    FirstOfMonth(MonthCount(now) + 1)
  }

  /** Of two dates, the one in the later month is the later instant. */
  lemma LaterMonthIsLater(a: Date, b: Date)
    requires MonthCount(a) < MonthCount(b)
    ensures Before(a, b) && !Before(b, a)
  {
    if a.year >= b.year {
      assert a.year * 12 >= b.year * 12;
    }
  }

  /** The target is after now, and no valid date of a later month than now's
      comes before it: it is the first instant after the current month. */
  lemma NextMonthStartIsFirstLaterInstant(now: Date, d: Date)
    requires Valid(d) && MonthCount(now) < MonthCount(d)
    ensures Before(now, NextMonthStart(now))
    ensures !Before(d, NextMonthStart(now))
  {
    var target := NextMonthStart(now);
    LaterMonthIsLater(now, target);
    if MonthCount(target) < MonthCount(d) {
      LaterMonthIsLater(target, d);
    } else {
      assert d.year == target.year && d.month == target.month;
    }
  }

  /** `getTimeTilNextMonth`: copy the current reading, roll the month (and on
      December the year) forward, force the day to 1 and the time of day to
      midnight, and return target minus now in milliseconds. */
  method TimeTilNextMonth(now: Date, toMillis: Date -> int) returns (delay: int)
    ensures delay == toMillis(NextMonthStart(now)) - toMillis(now)
    ensures Valid(now) && StrictlyMonotone(toMillis) ==> delay > 0
  {
    var next := now;
    if now.month == 11 {
      next := next.(month := 0);
      next := next.(year := now.year + 1);
    } else {
      next := next.(month := now.month + 1);
    }
    next := next.(day := 1);
    next := next.(hour := 0);
    next := next.(minute := 0);
    next := next.(second := 0);
    next := next.(millisecond := 0);
    delay := toMillis(next) - toMillis(now);
    if Valid(now) && StrictlyMonotone(toMillis) {
      LaterMonthIsLater(now, next);
    }
  }

  /** The two dates the monthly trigger is described with. */
  lemma RolloverExamples()
    ensures NextMonthStart(Date(2019, 11, 15, 10, 30, 0, 0)) == Date(2020, 0, 1, 0, 0, 0, 0)
    ensures NextMonthStart(Date(2019, 2, 10, 8, 0, 0, 0)) == Date(2019, 3, 1, 0, 0, 0, 0)
  {
  }
}

/**
 * Civil UTC time as Python's `datetime` computes it (proleptic Gregorian
 * calendar, day 1 = 0001-01-01, a Monday), with instants counted in
 * milliseconds since 0001-01-01T00:00:00 UTC, i.e. since `datetime.min`.
 */
module Calendar {

  const SECOND: nat := 1000
  const MINUTE: nat := 60_000
  const HOUR: nat := 3_600_000
  const DAY: nat := 86_400_000

  predicate IsLeap(y: int) {
    y % 4 == 0 && (y % 100 != 0 || y % 400 == 0)
  }

  function DaysInMonth(y: int, m: int): (n: nat)
    requires 1 <= m <= 12
    ensures 28 <= n <= 31
    ensures m == 2 ==> (n == 29 <==> IsLeap(y))
  {
    if m == 2 then (if IsLeap(y) then 29 else 28)
    else if m == 4 || m == 6 || m == 9 || m == 11 then 30
    else 31
  }

  /** Days of year `y` that precede the first day of month `m`. */
  function DaysBeforeMonth(y: int, m: int): nat
    requires 1 <= m <= 12
  {
    [0, 31, 59, 90, 120, 151, 181, 212, 243, 273, 304, 334][m - 1]
      + (if m > 2 && IsLeap(y) then 1 else 0)
  }

  /** Days from 0001-01-01 to the first day of year `y`. */
  function DaysBeforeYear(y: int): nat
    requires y >= 1
  {
    var p := y - 1;
    p * 365 + p / 4 - p / 100 + p / 400
  }

  datatype DateTime = DateTime(year: int, month: int, day: int,
                               hour: int, minute: int, second: int, milli: int)
  {
    predicate Valid() {
      && 1 <= year <= 9999 && 1 <= month <= 12 && 1 <= day <= DaysInMonth(year, month)
      && 0 <= hour < 24 && 0 <= minute < 60 && 0 <= second < 60 && 0 <= milli < 1000
    }
  }

  /** A `datetime` value: every field within its calendar range. */
  type Instant = d: DateTime | d.Valid() witness DateTime(1, 1, 1, 0, 0, 0, 0)

  /** `date.toordinal()`: 0001-01-01 is day 1. */
  function Ordinal(d: Instant): (n: nat)
    ensures n >= 1
  {
    DaysBeforeYear(d.year) + DaysBeforeMonth(d.year, d.month) + d.day
  }

  /** `datetime.weekday()`: Monday is 0, Sunday is 6. */
  function Weekday(d: Instant): (w: nat)
    ensures w < 7
  {
    (Ordinal(d) + 6) % 7
  }

  /** Milliseconds elapsed since midnight of `d`'s own day. */
  function TimeOfDay(d: Instant): (t: nat)
    ensures t < DAY
  {
    d.hour * HOUR + d.minute * MINUTE + d.second * SECOND + d.milli
  }

  /** The instant `d` on the millisecond clock. */
  function ToMillis(d: Instant): (t: nat)
    ensures t / DAY == Ordinal(d) - 1 && t % DAY == TimeOfDay(d)
  {
    (Ordinal(d) - 1) * DAY + TimeOfDay(d)
  }

  /** `datetime.max`, 9999-12-31T23:59:59.999, on the millisecond clock: the last instant a `datetime` can hold. */
  const MAX_MILLIS: nat := 3_652_059 * DAY - 1

  /** Every instant lies on the clock between `datetime.min` and `datetime.max`, and both ends are instants. */
  lemma ClockRange(d: Instant)
    ensures 0 <= ToMillis(d) <= MAX_MILLIS
    ensures ToMillis(DateTime(1, 1, 1, 0, 0, 0, 0)) == 0
    ensures ToMillis(DateTime(9999, 12, 31, 23, 59, 59, 999)) == MAX_MILLIS
  {
    assert DaysBeforeYear(d.year) <= DaysBeforeYear(9999) by {
      var p, q := d.year - 1, 9998;
      assert p <= q;
      assert p / 4 <= q / 4 && p / 400 <= q / 400;
      assert p / 100 - p / 400 <= p / 4;
    }
  }

  /** Weekday of the day holding millisecond instant `t` (day 0 is a Monday). */
  function WeekdayAt(t: nat): (w: nat)
    ensures w < 7
  {
    (t / DAY) % 7
  }

  lemma WeekdayAgrees(d: Instant)
    ensures WeekdayAt(ToMillis(d)) == Weekday(d)
  {
  }

  /** Midnight (00:00) of `now`'s date, as `datetime(year, month, day)` builds it. */
  function DayStart(now: Instant): (r: nat)
    ensures r % DAY == 0
    ensures r <= ToMillis(now) < r + DAY
  {
    ToMillis(DateTime(now.year, now.month, now.day, 0, 0, 0, 0))
  }

  /**
   * `now - timedelta(days=now.weekday()) - timedelta(hours=.., minutes=.., seconds=..)`:
   * the sub-second part of `now` is not subtracted, so the result lies within
   * one second after the Monday midnight that opens `now`'s week.
   */
  function WeekStart(now: Instant): (r: int)
    ensures r == DayStart(now) - Weekday(now) * DAY + now.milli
  {
    ToMillis(now) - Weekday(now) * DAY - (now.hour * HOUR + now.minute * MINUTE + now.second * SECOND)
  }

  /** Whole days plus a time of day split back into the two. */
  lemma SplitDays(m: int, x: int)
    requires 0 <= x < DAY
    ensures (m * DAY + x) / DAY == m && (m * DAY + x) % DAY == x
  {
  }

  /** Day 0 is a Monday: ordinal `o + 1` falls on weekday `o % 7`. */
  lemma WeekdayShift(o: int)
    ensures (o + 1 + 6) % 7 == o % 7
  {
  }

  lemma DaysApart(o: int, w: int)
    ensures (o - w) * DAY == o * DAY - w * DAY
  {
  }

  /** The Monday that opens day `o`'s week, plus `milli` milliseconds, on the clock. */
  lemma MondayOfWeek(o: nat, tod: int, milli: int)
    requires 0 <= milli <= tod < DAY
    ensures var s := (o - o % 7) * DAY + milli;
            && s >= 0 && (s - milli) % DAY == 0 && (s / DAY) % 7 == 0
            && o * DAY + tod - 7 * DAY < s <= o * DAY + tod
  {
    var m := o - o % 7;
    assert m == 7 * (o / 7);
    SplitDays(m, milli);
    SplitDays(m, 0);
  }

  lemma WeekStartIsMonday(now: Instant)
    ensures WeekStart(now) >= 0
    ensures (WeekStart(now) - now.milli) % DAY == 0
    ensures WeekdayAt(WeekStart(now)) == 0
    ensures ToMillis(now) - 7 * DAY < WeekStart(now) <= ToMillis(now)
  {
    var o := Ordinal(now) - 1;
    WeekdayShift(o);
    var w := Weekday(now);
    DaysApart(o, w);
    assert WeekStart(now) == (o - w) * DAY + now.milli;
    MondayOfWeek(o, TimeOfDay(now), now.milli);
  }

  /** Midnight of the first day of `now`'s month. */
  function MonthStart(now: Instant): (r: nat)
    ensures r % DAY == 0
    ensures r == DayStart(now) - (now.day - 1) * DAY
  {
    ToMillis(DateTime(now.year, now.month, 1, 0, 0, 0, 0))
  }

  /** Midnight of January 1 of `now`'s year. */
  function YearStart(now: Instant): (r: nat)
    ensures r % DAY == 0
    ensures r == MonthStart(now) - DaysBeforeMonth(now.year, now.month) * DAY
  {
    ToMillis(DateTime(now.year, 1, 1, 0, 0, 0, 0))
  }

  /** The starts of the calendar periods containing `now` are nested. */
  lemma {:induction false} PeriodStartsNested(now: Instant)
    ensures 0 <= YearStart(now) <= MonthStart(now) <= DayStart(now) <= ToMillis(now)
    ensures ToMillis(now) - DayStart(now) < DAY
    ensures ToMillis(now) - MonthStart(now) < DaysInMonth(now.year, now.month) * DAY
  {
  }
}

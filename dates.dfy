/**
 * The part of JavaScript's Date that the cost manager relies on: a calendar
 * instant in local time, the Gregorian month lengths, the order in which two
 * instants compare, and the constructor `new Date(year, monthIndex, day,
 * hours, minutes, seconds)` of section 21.4.2.1 of ECMA-262 together with the
 * MakeDay normalisation of section 21.4.1.28 (a month index outside 0..11
 * moves the year, day 0 is the day before day 1).
 */
module Dates {

  /** An instant as its calendar fields; `month` is 1-based, as a reader writes it. */
  datatype Instant = Instant(year: int, month: int, day: int, hour: int, minute: int, second: int, ms: int)

  predicate IsLeapYear(y: int) {
    y % 4 == 0 && (y % 100 != 0 || y % 400 == 0)
  }

  /** The number of days of month `m` (1..12) of year `y` in the proleptic Gregorian calendar. */
  function DaysInMonth(y: int, m: int): (n: int)
    requires 1 <= m <= 12
    ensures 28 <= n <= 31
    ensures n == 28 <==> m == 2 && !IsLeapYear(y)
    ensures n == 29 <==> m == 2 && IsLeapYear(y)
    ensures n == 30 <==> m == 4 || m == 6 || m == 9 || m == 11
  {
    if m == 2 then (if IsLeapYear(y) then 29 else 28)
    else if m == 4 || m == 6 || m == 9 || m == 11 then 30
    else 31
  }

  /** Days of months 1..m of year y, added up. */
  function DaysBeforeMonthEnd(y: int, m: int): int
    requires 0 <= m <= 12
  {
    if m == 0 then 0 else DaysBeforeMonthEnd(y, m - 1) + DaysInMonth(y, m)
  }

  /** The twelve month lengths add up to the length of the year (DaysInYear of ECMA-262). */
  lemma {:induction false} MonthsFillYear(y: int)
    ensures DaysBeforeMonthEnd(y, 12) == if IsLeapYear(y) then 366 else 365
  {
    assert DaysBeforeMonthEnd(y, 0) == 0;
    assert DaysBeforeMonthEnd(y, 1) == 31;
    assert DaysBeforeMonthEnd(y, 2) == 31 + DaysInMonth(y, 2);
    assert DaysBeforeMonthEnd(y, 3) == 62 + DaysInMonth(y, 2);
    assert DaysBeforeMonthEnd(y, 4) == 92 + DaysInMonth(y, 2);
    assert DaysBeforeMonthEnd(y, 5) == 123 + DaysInMonth(y, 2);
    assert DaysBeforeMonthEnd(y, 6) == 153 + DaysInMonth(y, 2);
    assert DaysBeforeMonthEnd(y, 7) == 184 + DaysInMonth(y, 2);
    assert DaysBeforeMonthEnd(y, 8) == 215 + DaysInMonth(y, 2);
    assert DaysBeforeMonthEnd(y, 9) == 245 + DaysInMonth(y, 2);
    assert DaysBeforeMonthEnd(y, 10) == 276 + DaysInMonth(y, 2);
    assert DaysBeforeMonthEnd(y, 11) == 306 + DaysInMonth(y, 2);
  }

  /** The fields of a real calendar instant are all in range. */
  predicate Valid(t: Instant) {
    && 1 <= t.month <= 12
    && 1 <= t.day <= DaysInMonth(t.year, t.month)
    && 0 <= t.hour < 24 && 0 <= t.minute < 60 && 0 <= t.second < 60 && 0 <= t.ms < 1000
  }

  /** `a <= b` on Dates: earlier year first, then month, day, hour, minute, second, millisecond. */
  predicate AtOrBefore(a: Instant, b: Instant) {
    if a.year != b.year then a.year < b.year
    else if a.month != b.month then a.month < b.month
    else if a.day != b.day then a.day < b.day
    else if a.hour != b.hour then a.hour < b.hour
    else if a.minute != b.minute then a.minute < b.minute
    else if a.second != b.second then a.second < b.second
    else a.ms <= b.ms
  }

  lemma AtOrBeforeIsTotalOrder(a: Instant, b: Instant, c: Instant)
    ensures AtOrBefore(a, a)
    ensures AtOrBefore(a, b) || AtOrBefore(b, a)
    ensures AtOrBefore(a, b) && AtOrBefore(b, a) ==> a == b
    ensures AtOrBefore(a, b) && AtOrBefore(b, c) ==> AtOrBefore(a, c)
  {
  }

  /** The Date constructor's two-digit year rule: a year 0..99 means 1900..1999. */
  function FullYear(y: int): int {
    if 0 <= y <= 99 then 1900 + y else y
  }

  /** The calendar day after (y, m, d), rolling over into the next month and year. */
  function NextDay(y: int, m: int, d: int): (int, int, int)
    requires 1 <= m <= 12 && 1 <= d <= DaysInMonth(y, m)
  {
    if d < DaysInMonth(y, m) then (y, m, d + 1)
    else if m < 12 then (y, m + 1, 1)
    else (y + 1, 1, 1)
  }

  /**
   * `new Date(y, monthIndex, date, h, mi, s)`: monthIndex is 0-based and may
   * lie outside 0..11, moving the year by whole years; date 0 stands for the
   * last day of the month before.
   */
  function MakeDate(y: int, monthIndex: int, date: int, h: int, mi: int, s: int): (t: Instant)
    requires 0 <= date <= 28
    requires 0 <= h < 24 && 0 <= mi < 60 && 0 <= s < 60
    ensures Valid(t)
  {
    var yr := FullYear(y) + monthIndex / 12;
    var mn := monthIndex % 12 + 1;
    if date >= 1 then Instant(yr, mn, date, h, mi, s, 0)
    else if mn == 1 then Instant(yr - 1, 12, 31, h, mi, s, 0)
    else Instant(yr, mn - 1, DaysInMonth(yr, mn - 1), h, mi, s, 0)
  }

  /** Day 0 of a month is the day immediately before day 1 of that month. */
  lemma DayZeroPrecedesDayOne(y: int, monthIndex: int)
    ensures var z := MakeDate(y, monthIndex, 0, 0, 0, 0);
            var one := MakeDate(y, monthIndex, 1, 0, 0, 0);
            NextDay(z.year, z.month, z.day) == (one.year, one.month, one.day)
  {
  }

  /**
   * Day 0 of month index `monthIndex` is the last day of the month whose
   * first day is day 1 of month index `monthIndex - 1`.
   */
  lemma {:induction false} DayZeroIsLastDay(y: int, monthIndex: int, h: int, mi: int, s: int)
    requires 0 <= h < 24 && 0 <= mi < 60 && 0 <= s < 60
    ensures var first := MakeDate(y, monthIndex - 1, 1, 0, 0, 0);
            var last := MakeDate(y, monthIndex, 0, h, mi, s);
            && last.year == first.year && last.month == first.month
            && last.day == DaysInMonth(first.year, first.month)
  {
    var q, r := monthIndex / 12, monthIndex % 12;
    assert monthIndex == 12 * q + r && 0 <= r < 12;
    if r == 0 {
      assert (monthIndex - 1) / 12 == q - 1 && (monthIndex - 1) % 12 == 11 by {
        assert monthIndex - 1 == 12 * (q - 1) + 11;
      }
    } else {
      assert (monthIndex - 1) / 12 == q && (monthIndex - 1) % 12 == r - 1 by {
        assert monthIndex - 1 == 12 * q + (r - 1);
      }
    }
  }
}

/**
 Calendar dates and instants. A date is the full-date of RFC 3339, section 5.6, with the day limits
 of its section 5.7 and the leap years of its Appendix C; the calendar is extended backwards.
 Day 0 is 0001-01-01.
 */
module Calendar {
  import opened Common

  datatype Date = Date(year: int, month: int, day: int)

  predicate IsLeap(year: int) {
    year % 4 == 0 && (year % 100 != 0 || year % 400 == 0)
  }

  function DaysIn(year: int, month: int): int {
    if month == 2 then if IsLeap(year) then 29 else 28
    else if month == 4 || month == 6 || month == 9 || month == 11 then 30
    else 31
  }

  predicate IsDate(d: Date) {
    1 <= d.month <= 12 && 1 <= d.day <= DaysIn(d.year, d.month)
  }

  /** The calendar's own order. */
  predicate Earlier(d: Date, e: Date) {
    || d.year < e.year
    || (d.year == e.year && d.month < e.month)
    || (d.year == e.year && d.month == e.month && d.day < e.day)
  }

  predicate NotAfter(d: Date, e: Date) {
    d == e || Earlier(d, e)
  }

  /** The day after, as one turns the page of a calendar. */
  function DayAfter(d: Date): Date {
    if d.day < DaysIn(d.year, d.month) then Date(d.year, d.month, d.day + 1)
    else if d.month < 12 then Date(d.year, d.month + 1, 1)
    else Date(d.year + 1, 1, 1)
  }

  function DayBefore(d: Date): Date {
    if 1 < d.day then Date(d.year, d.month, d.day - 1)
    else if 1 < d.month then Date(d.year, d.month - 1, DaysIn(d.year, d.month - 1))
    else Date(d.year - 1, 12, 31)
  }

  // ---------- counting days by a formula ----------

  function DaysBeforeYear(year: int): int {
    365 * (year - 1) + (year - 1) / 4 - (year - 1) / 100 + (year - 1) / 400
  }

  function DaysBeforeMonth(year: int, month: int): int
    decreases month
  {
    if month <= 1 then 0 else DaysBeforeMonth(year, month - 1) + DaysIn(year, month - 1)
  }

  /** The day a date falls on; a day past the end of its month runs on into the next, as time.Date normalises it. */
  function DayNumber(d: Date): int {
    DaysBeforeYear(d.year) + DaysBeforeMonth(d.year, d.month) + d.day - 1
  }

  lemma Centuries(year: int)
    ensures year % 400 == 0 ==> year % 100 == 0
    ensures year % 100 == 0 ==> year % 4 == 0
  {
    var q := year / 400;
    assert year == 400 * q + year % 400;
    if year % 400 == 0 {
      assert year == 100 * (4 * q);
    }
    var c := year / 100;
    if year % 100 == 0 {
      assert year == 4 * (25 * c);
    }
  }

  lemma YearLength(year: int)
    ensures DaysBeforeYear(year + 1) == DaysBeforeYear(year) + (if IsLeap(year) then 366 else 365)
  {
    Quotient(year, 4);
    Quotient(year, 100);
    Quotient(year, 400);
    Centuries(year);
    assert year + 1 - 1 == year;
  }

  /** One more year crosses a multiple of n exactly when the year is one. */
  lemma Quotient(year: int, n: int)
    requires n == 4 || n == 100 || n == 400
    ensures year / n == (year - 1) / n + (if year % n == 0 then 1 else 0)
  {
  }

  /** A closed form for the days before a month, the thirteenth being the next January. */
  function DaysBeforeByFormula(year: int, month: int): int {
    (367 * month - 362) / 12 - (if month <= 2 then 0 else if IsLeap(year) then 1 else 2)
  }

  /** The month lengths add up to the formula at the start of every month. */
  lemma {:induction false} MonthsByFormula(year: int, month: int)
    requires 1 <= month <= 13
    ensures DaysBeforeMonth(year, month) == DaysBeforeByFormula(year, month)
    decreases month
  {
    if month > 1 {
      MonthsByFormula(year, month - 1);
    }
  }

  lemma YearOfMonths(year: int)
    ensures DaysBeforeMonth(year, 13) == if IsLeap(year) then 366 else 365
  {
    assert DaysBeforeMonth(year, 4) == DaysBeforeMonth(year, 1) + DaysIn(year, 1) + DaysIn(year, 2) + DaysIn(year, 3);
    assert DaysBeforeMonth(year, 7) == DaysBeforeMonth(year, 4) + DaysIn(year, 4) + DaysIn(year, 5) + DaysIn(year, 6);
    assert DaysBeforeMonth(year, 10) == DaysBeforeMonth(year, 7) + DaysIn(year, 7) + DaysIn(year, 8) + DaysIn(year, 9);
    assert DaysBeforeMonth(year, 13) == DaysBeforeMonth(year, 10) + DaysIn(year, 10) + DaysIn(year, 11) + DaysIn(year, 12);
  }

  /** Across month ends, leap days and year ends, the day after has the next number. */
  lemma DayAfterIsNext(d: Date)
    requires IsDate(d)
    ensures IsDate(DayAfter(d)) && DayNumber(DayAfter(d)) == DayNumber(d) + 1
  {
    if d.day == DaysIn(d.year, d.month) && d.month == 12 {
      YearLength(d.year);
      YearOfMonths(d.year);
      assert DaysBeforeMonth(d.year, 13) == DaysBeforeMonth(d.year, 12) + 31;
    }
  }

  lemma DayBeforeUndone(d: Date)
    requires IsDate(d)
    ensures IsDate(DayBefore(d)) && DayAfter(DayBefore(d)) == d
  {
  }

  lemma {:induction false} MonthsAddUp(year: int, month: int, later: int)
    requires 1 <= month <= later <= 13
    ensures DaysBeforeMonth(year, month) + 28 * (later - month) <= DaysBeforeMonth(year, later)
    ensures month < later ==> DaysBeforeMonth(year, month) + DaysIn(year, month) <= DaysBeforeMonth(year, later)
    decreases later - month
  {
    if month < later {
      MonthsAddUp(year, month + 1, later);
    }
  }

  lemma {:induction false} YearsAddUp(year: int, later: int)
    requires year <= later
    ensures DaysBeforeYear(year) + 365 * (later - year) <= DaysBeforeYear(later)
    ensures year < later ==> DaysBeforeYear(year) + DaysBeforeMonth(year, 13) <= DaysBeforeYear(later)
    decreases later - year
  {
    if year < later {
      YearsAddUp(year + 1, later);
      YearLength(year);
      YearOfMonths(year);
    }
  }

  lemma EarlierHasSmallerNumber(d: Date, e: Date)
    requires IsDate(d) && IsDate(e) && Earlier(d, e)
    ensures DayNumber(d) < DayNumber(e)
  {
    if d.year == e.year {
      MonthsAddUp(d.year, d.month, e.month);
    } else {
      MonthsAddUp(d.year, d.month, 13);
      MonthsAddUp(e.year, 1, e.month);
      YearsAddUp(d.year, e.year);
    }
  }

  /** The formula orders dates exactly as the calendar does. */
  lemma OrderOfNumbers(d: Date, e: Date)
    requires IsDate(d) && IsDate(e)
    ensures DayNumber(d) <= DayNumber(e) <==> NotAfter(d, e)
  {
    if Earlier(d, e) {
      EarlierHasSmallerNumber(d, e);
    } else if Earlier(e, d) {
      EarlierHasSmallerNumber(e, d);
    }
  }

  // ---------- the date of an instant ----------

  const TICKS_PER_DAY := 86_400_000_000_000

  /** The date n days from 0001-01-01, found by turning the pages one by one. */
  function DateOfDay(n: int): Date
    decreases if n < 0 then -n else n
  {
    if n == 0 then Date(1, 1, 1)
    else if n > 0 then DayAfter(DateOfDay(n - 1))
    else DayBefore(DateOfDay(n + 1))
  }

  lemma {:induction false} DateOfDayNumber(n: int)
    ensures IsDate(DateOfDay(n)) && DayNumber(DateOfDay(n)) == n
    decreases if n < 0 then -n else n
  {
    if n > 0 {
      DateOfDayNumber(n - 1);
      DayAfterIsNext(DateOfDay(n - 1));
    } else if n < 0 {
      DateOfDayNumber(n + 1);
      DayBeforeUndone(DateOfDay(n + 1));
      DayAfterIsNext(DayBefore(DateOfDay(n + 1)));
    }
  }

  /** The UTC calendar date of an instant. */
  function DateOf(instant: int): Date {
    DateOfDay(instant / TICKS_PER_DAY)
  }

  function Midnight(d: Date): int {
    DayNumber(d) * TICKS_PER_DAY
  }

  lemma WholeDays(instant: int, day: int)
    ensures day * TICKS_PER_DAY <= instant <==> day <= instant / TICKS_PER_DAY
  {
    var q, r := instant / TICKS_PER_DAY, instant % TICKS_PER_DAY;
    assert instant == q * TICKS_PER_DAY + r;
  }

  /** An instant is at or after a date's midnight exactly when its own date is not before that date. */
  lemma MidnightBound(instant: int, d: Date)
    requires IsDate(d)
    ensures Midnight(d) <= instant <==> NotAfter(d, DateOf(instant))
  {
    WholeDays(instant, DayNumber(d));
    DateOfDayNumber(instant / TICKS_PER_DAY);
    OrderOfNumbers(d, DateOf(instant));
  }

  lemma NotAfterOrEarlier(d: Date, e: Date)
    ensures NotAfter(DayAfter(d), e) && IsDate(d) && IsDate(e) ==> Earlier(d, e)
    ensures Earlier(d, e) && IsDate(d) && IsDate(e) ==> NotAfter(DayAfter(d), e)
    ensures NotAfter(d, e) <==> !Earlier(e, d)
  {
    if IsDate(d) && IsDate(e) {
      DayAfterIsNext(d);
      OrderOfNumbers(DayAfter(d), e);
      OrderOfNumbers(d, e);
      OrderOfNumbers(e, d);
    }
  }

  /** An instant is before the midnight that ends a date exactly when its own date is not after it. */
  lemma NextMidnightBound(instant: int, d: Date)
    requires IsDate(d)
    ensures instant < Midnight(DayAfter(d)) <==> NotAfter(DateOf(instant), d)
  {
    DayAfterIsNext(d);
    MidnightBound(instant, DayAfter(d));
    DateOfDayNumber(instant / TICKS_PER_DAY);
    NotAfterOrEarlier(d, DateOf(instant));
    NotAfterOrEarlier(DateOf(instant), d);
  }
}

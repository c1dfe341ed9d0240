/**
 * The Gregorian calendar as Python's `calendar` and `datetime` modules use it:
 * leap years, month lengths (`calendar.monthrange`), day numbers
 * (`date.toordinal`) and stepping back a number of days (`- timedelta(days=n)`).
 */
module Calendar {

  /** The three parts of a calendar date, before validity is imposed. */
  datatype DateParts = DateParts(year: int, month: int, day: int)

  /** A date as a `DATE` column or `datetime.date` holds it: always a real calendar day. */
  type Date = d: DateParts | ValidDate(d) witness DateParts(1970, 1, 1)

  const MicrosecondsPerDay: nat := 86_400_000_000

  /** Microseconds since midnight, as `datetime.time` holds them: less than one day. */
  type TimeOfDay = t: nat | t < MicrosecondsPerDay

  /** A moment as `datetime.now()` gives it: a date plus the time of day. */
  datatype DateTime = DateTime(date: Date, timeOfDay: TimeOfDay)

  predicate ValidDate(d: DateParts) {
    1 <= d.month <= 12 && 1 <= d.day <= DaysInMonth(d.year, d.month)
  }

  /** `calendar.isleap`: divisible by 4, except centuries not divisible by 400. */
  predicate IsLeap(year: int) {
    year % 4 == 0 && (year % 100 != 0 || year % 400 == 0)
  }

  /** The second component of `calendar.monthrange(year, month)`. */
  function DaysInMonth(year: int, month: int): (n: int)
    requires 1 <= month <= 12
    ensures 28 <= n <= 31
    ensures month == 2 ==> (n == 29 <==> IsLeap(year)) && (n == 28 <==> !IsLeap(year))
    ensures month in {4, 6, 9, 11} ==> n == 30
    ensures month in {1, 3, 5, 7, 8, 10, 12} ==> n == 31
  {
    [31, 28, 31, 30, 31, 30, 31, 31, 30, 31, 30, 31][month - 1]
      + (if month == 2 && IsLeap(year) then 1 else 0)
  }

  function DaysInYear(year: int): int {
    if IsLeap(year) then 366 else 365
  }

  /** Days of `year` that come before the first of `month` (a cumulative table,
      as `datetime` keeps it, independent of `DaysInMonth`). */
  function DaysBeforeMonth(year: int, month: int): int
    requires 1 <= month <= 12
  {
    [0, 31, 59, 90, 120, 151, 181, 212, 243, 273, 304, 334][month - 1]
      + (if month > 2 && IsLeap(year) then 1 else 0)
  }

  /** Days from 1 January of year 1 up to 1 January of `year` (negative before year 1). */
  function DaysBeforeYear(year: int): int
    decreases if year >= 1 then year - 1 else 1 - year
  {
    if year == 1 then 0
    else if year > 1 then DaysBeforeYear(year - 1) + DaysInYear(year - 1)
    else DaysBeforeYear(year + 1) - DaysInYear(year)
  }

  /** `date.toordinal()`: 1 January of year 1 is day 1. */
  function DayNumber(d: Date): (r: int)
    ensures DaysBeforeYear(d.year) < r <= DaysBeforeYear(d.year) + DaysInYear(d.year)
  {
    DaysBeforeYear(d.year) + DaysBeforeMonth(d.year, d.month) + d.day
  }

  /** The cumulative table and the month lengths agree. */
  lemma DaysBeforeNextMonth(year: int, month: int)
    requires 1 <= month < 12
    ensures DaysBeforeMonth(year, month + 1) == DaysBeforeMonth(year, month) + DaysInMonth(year, month)
  {
  }

  /** The twelve months fill the year exactly. */
  lemma YearLength(year: int)
    ensures DaysBeforeMonth(year, 12) + DaysInMonth(year, 12) == DaysInYear(year)
  {
  }

  /** The day before `d` (`d - timedelta(days=1)`). */
  function PrevDay(d: Date): Date {
    if d.day > 1 then DateParts(d.year, d.month, d.day - 1)
    else if d.month > 1 then DateParts(d.year, d.month - 1, DaysInMonth(d.year, d.month - 1))
    else DateParts(d.year - 1, 12, 31)
  }

  /** `d - timedelta(days=n)`, one day at a time. */
  function SubtractDays(d: Date, n: nat): Date
    decreases n
  {
    if n == 0 then d else SubtractDays(PrevDay(d), n - 1)
  }

  lemma PrevDayNumber(d: Date)
    ensures DayNumber(PrevDay(d)) == DayNumber(d) - 1
  {
    if d.day == 1 {
      if d.month > 1 {
        DaysBeforeNextMonth(d.year, d.month - 1);
      } else {
        YearLength(d.year - 1);
        assert DaysBeforeYear(d.year) == DaysBeforeYear(d.year - 1) + DaysInYear(d.year - 1);
      }
    }
  }

  /** Stepping back n days lowers the day number by exactly n. */
  lemma {:induction false} SubtractDaysNumber(d: Date, n: nat)
    ensures DayNumber(SubtractDays(d, n)) == DayNumber(d) - n
    decreases n
  {
    if n > 0 {
      PrevDayNumber(d);
      SubtractDaysNumber(PrevDay(d), n - 1);
    }
  }

  /** Stepping back fewer days than the day of the month stays in the same month. */
  lemma {:induction false} SubtractWithinMonth(d: Date, n: nat)
    requires n < d.day
    ensures SubtractDays(d, n) == DateParts(d.year, d.month, d.day - n)
    decreases n
  {
    if n > 0 {
      SubtractWithinMonth(PrevDay(d), n - 1);
    }
  }
}

/**
 * Calendar instants as the finance controller builds and compares them: UTC month
 * boundaries built from ISO strings, and dates built from a year, a month index and a day
 * by the local-time `Date` constructor.
 */
module Time {
  import opened Wrappers

  const MsPerDay: nat := 86_400_000

  type MonthNumber = m: int | 1 <= m <= 12 witness 1

  /** An instant in UTC: the calendar month it falls in and the milliseconds since that month began. */
  datatype Instant = Instant(year: int, month: MonthNumber, ms: nat)

  predicate IsLeapYear(y: int)
  {
    y % 4 == 0 && (y % 100 != 0 || y % 400 == 0)
  }

  function DaysInMonth(y: int, m: MonthNumber): (n: nat)
    ensures 28 <= n <= 31
    ensures n == 29 <==> m == 2 && IsLeapYear(y)
  {
    if m == 2 then (if IsLeapYear(y) then 29 else 28)
    else if m == 4 || m == 6 || m == 9 || m == 11 then 30
    else 31
  }

  /** The instant names a real moment: its offset lies inside its month. */
  predicate WellFormed(t: Instant)
  {
    t.ms < DaysInMonth(t.year, t.month) * MsPerDay
  }

  /** An instant that names a real moment; on these, `Le` is the order of time. */
  type Moment = t: Instant | WellFormed(t) witness Instant(1970, 1, 0)

  /** Chronological order of instants (`a <= b` on `Date` values). */
  predicate Le(a: Instant, b: Instant)
  {
    a.year < b.year || (a.year == b.year && (a.month < b.month || (a.month == b.month && a.ms <= b.ms)))
  }

  predicate Lt(a: Instant, b: Instant)
  {
    !Le(b, a)
  }

  /** The result of `new Date(...)`: an instant, or an Invalid Date whose time value is NaN. */
  datatype DateValue = Invalid | At(instant: Moment)

  /**
   * `new Date("<y>-<mm>-01T00:00:00.000Z")` with the month zero-padded to two digits:
   * the first instant of month m of year y when the string is a well-formed ISO date,
   * that is when the year is written with four digits and the month lies in 1..12.
   */
  function IsoMonthStart(y: int, m: int): (d: DateValue)
    ensures d.At? <==> 1000 <= y <= 9999 && 1 <= m <= 12
    ensures d.At? ==> d.instant.year == y && d.instant.month == m && d.instant.ms == 0
  {
    if 1000 <= y <= 9999 && 1 <= m <= 12 then At(Instant(y, m, 0)) else Invalid
  }

  /** The year the `Date` constructor uses for the number y: 0..99 stand for 1900..1999. */
  function FullYear(y: int): int
  {
    if 0 <= y <= 99 then 1900 + y else y
  }

  /** Month index mi (0-based, any integer) of year y, normalised to a year and a month 1..12. */
  function AddMonths(y: int, mi: int): (r: (int, MonthNumber))
    ensures r.0 * 12 + (r.1 - 1) == y * 12 + mi
  {
    (y + mi / 12, mi % 12 + 1)
  }

  /**
   * The first instant of day `day` of month index mi of year y, with the constructor's
   * overflow rules: day 0 is the last day of the month before, a day past the month's end
   * runs on into the following months.
   */
  function DayStart(y: int, mi: int, day: nat): (t: Moment)
    ensures t.ms % MsPerDay == 0
    ensures day == 0 ==>
      var (py, pm) := AddMonths(y, mi - 1);
      t == Instant(py, pm, (DaysInMonth(py, pm) - 1) * MsPerDay)
    ensures var (yy, mm) := AddMonths(y, mi);
      1 <= day <= DaysInMonth(yy, mm) ==> t == Instant(yy, mm, (day - 1) * MsPerDay)
    decreases day
  {
    var (yy, mm) := AddMonths(y, mi);
    if day == 0 then
      var (py, pm) := AddMonths(y, mi - 1);
      Instant(py, pm, (DaysInMonth(py, pm) - 1) * MsPerDay)
    else if day <= DaysInMonth(yy, mm) then
      Instant(yy, mm, (day - 1) * MsPerDay)
    else
      DayStart(y, mi + 1, day - DaysInMonth(yy, mm))
  }

  /**
   * `new Date(year, mi, day)` with the server's local time zone taken as UTC: an Invalid
   * Date when the year is missing (it converts to NaN).
   */
  function LocalDate(year: Option<int>, mi: int, day: nat): (d: DateValue)
    ensures d.At? <==> year.Some?
  {
    if year.None? then Invalid else At(DayStart(FullYear(year.value), mi, day))
  }

  /** `new Date(y, 0, 1)` is the first instant of the year. */
  lemma FirstOfJanuary(y: int)
    ensures LocalDate(Some(y), 0, 1) == At(Instant(FullYear(y), 1, 0))
  {
  }

  /** `new Date(y, 11, 31)` is midnight at the start of December 31, not the end of the year. */
  lemma LastOfDecember(y: int)
    ensures LocalDate(Some(y), 11, 31) == At(Instant(FullYear(y), 12, 30 * MsPerDay))
  {
  }

  /** `new Date(y, m, 0)` is the start of the last day of month m (1-based) of year y, also for m == 12. */
  lemma LastDayOfMonth(y: int, m: MonthNumber)
    ensures LocalDate(Some(y), m, 0)
         == At(Instant(FullYear(y), m, (DaysInMonth(FullYear(y), m) - 1) * MsPerDay))
  {
  }
}

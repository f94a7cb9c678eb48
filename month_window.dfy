/**
 * The default window of GET /api/calendar (public/server.js): when either
 * bound is missing, both are replaced by the current month, from day 1 at
 * 00:00:00 to the last day at 23:59:59, local time. The `Date` constructor's
 * normalisation (month 12 is January of the next year, day 0 the last day of
 * the previous month) is what makes `new Date(y, m + 1, 0, 23, 59, 59)` the
 * end of month `m`. The constructor also reads a year from 0 to 99 as
 * 1900 plus that year.
 */
module MonthWindow {
  import opened Wrappers
  import opened Events

  /** A local calendar time; `month` counts from 0 as `getMonth()` does. */
  datatype LocalTime = LocalTime(year: int, month: int, day: int, hour: int, minute: int, second: int)

  predicate IsLeapYear(y: int)
  {
    y % 4 == 0 && (y % 100 != 0 || y % 400 == 0)
  }

  function DaysInMonth(y: int, m: int): (n: int)
    requires 0 <= m < 12
    ensures 28 <= n <= 31
    ensures m == 1 ==> (n == 29 <==> IsLeapYear(y))
  {
    if m == 1 then (if IsLeapYear(y) then 29 else 28)
    else if m == 3 || m == 5 || m == 8 || m == 10 then 30
    else 31
  }

  /** A time that names a real day and a time of day. */
  predicate ValidTime(t: LocalTime)
  {
    && 0 <= t.month < 12 && 1 <= t.day <= DaysInMonth(t.year, t.month)
    && 0 <= t.hour < 24 && 0 <= t.minute < 60 && 0 <= t.second < 60
  }

  /** Chronological order of valid local times (field by field). */
  predicate NotAfter(a: LocalTime, b: LocalTime)
  {
    if a.year != b.year then a.year < b.year
    else if a.month != b.month then a.month < b.month
    else if a.day != b.day then a.day < b.day
    else if a.hour != b.hour then a.hour < b.hour
    else if a.minute != b.minute then a.minute < b.minute
    else a.second <= b.second
  }

  /** Year and month of a month counted from January of `year`, possibly outside 0..11. */
  function NormalizeMonth(year: int, month: int): (r: (int, int))
    ensures 0 <= r.1 < 12 && r.0 * 12 + r.1 == year * 12 + month
  {
    (year + month / 12, month % 12)
  }

  /**
   * The day `day` of month `month` of `year`, the day counted on into later
   * months or back into earlier ones when it lies outside the month.
   */
  function NormalizeDay(year: int, month: int, day: int): (r: (int, int, int))
    requires 0 <= month < 12
    ensures 0 <= r.1 < 12 && 1 <= r.2 <= DaysInMonth(r.0, r.1)
    ensures 1 <= day <= DaysInMonth(year, month) ==> r == (year, month, day)
    decreases if day < 1 then 1 else 0, if day < 1 then -day else day
  {
    if day < 1 then
      var (y, m) := NormalizeMonth(year, month - 1);
      NormalizeDay(y, m, day + DaysInMonth(y, m))
    else if day > DaysInMonth(year, month) then
      var (y, m) := NormalizeMonth(year, month + 1);
      NormalizeDay(y, m, day - DaysInMonth(year, month))
    else (year, month, day)
  }

  /** The year the `Date` constructor uses for its year argument: 0 to 99 mean 1900 to 1999. */
  function FullYear(year: int): int
  {
    if 0 <= year <= 99 then 1900 + year else year
  }

  /** `new Date(year, month, day, hour, minute, second)` for an in-range time of day. */
  function MakeLocal(year: int, month: int, day: int, hour: int, minute: int, second: int): (t: LocalTime)
    requires 0 <= hour < 24 && 0 <= minute < 60 && 0 <= second < 60
    ensures ValidTime(t)
    ensures 0 <= month < 12 && 1 <= day <= DaysInMonth(FullYear(year), month) ==>
      t == LocalTime(FullYear(year), month, day, hour, minute, second)
  {
    var (y, m) := NormalizeMonth(FullYear(year), month);
    var (y', m', d) := NormalizeDay(y, m, day);
    LocalTime(y', m', d, hour, minute, second)
  }

  /** A bound of the window: the query text as given, or a time computed from the clock. */
  datatype Bound = FromQuery(text: string) | Computed(time: LocalTime)

  /**
   * The first and last second of the month of `now`: day 1 at 00:00:00 and
   * the last day at 23:59:59, December included. A clock in the years 0 to
   * 99 gives the same month of 1900 to 1999.
   */
  function MonthOf(now: LocalTime): (r: (LocalTime, LocalTime))
    requires ValidTime(now)
    ensures var y := FullYear(now.year);
      && r.0 == LocalTime(y, now.month, 1, 0, 0, 0)
      && r.1 == LocalTime(y, now.month, DaysInMonth(y, now.month), 23, 59, 59)
  {
    var y := FullYear(now.year);
    var (ny, nm) := NormalizeMonth(y, now.month + 1);
    var (py, pm) := NormalizeMonth(ny, nm - 1);
    assert py == y && pm == now.month;
    (MakeLocal(now.year, now.month, 1, 0, 0, 0), MakeLocal(now.year, now.month + 1, 0, 23, 59, 59))
  }

  /** `if (!timeMin || !timeMax)`: the bounds the handler forwards. */
  function CalendarWindow(timeMin: Option<string>, timeMax: Option<string>, now: LocalTime): (r: (Bound, Bound))
    requires ValidTime(now)
    ensures NonEmpty(timeMin) && NonEmpty(timeMax) ==> r == (FromQuery(timeMin.value), FromQuery(timeMax.value))
    ensures !NonEmpty(timeMin) || !NonEmpty(timeMax) ==> r.0.Computed? && r.1.Computed?
  {
    if NonEmpty(timeMin) && NonEmpty(timeMax) then (FromQuery(timeMin.value), FromQuery(timeMax.value))
    else
      var (first, last) := MonthOf(now);
      (Computed(first), Computed(last))
  }

  // ------------------------------------------------------------------ lemmas

  /** A valid time lies in the default window exactly when it is in the current month. */
  lemma WindowIsTheMonth(now: LocalTime, t: LocalTime)
    requires ValidTime(now) && ValidTime(t)
    ensures NotAfter(MonthOf(now).0, t) && NotAfter(t, MonthOf(now).1)
      <==> t.year == FullYear(now.year) && t.month == now.month
  {
  }

  /** A missing or empty bound replaces both: a given `timeMax` is dropped when `timeMin` is missing, and the other way round. */
  lemma MissingBoundReplacesBoth(timeMin: Option<string>, timeMax: Option<string>, now: LocalTime)
    requires ValidTime(now)
    requires !NonEmpty(timeMin) || !NonEmpty(timeMax)
    ensures CalendarWindow(timeMin, timeMax, now) == (Computed(MonthOf(now).0), Computed(MonthOf(now).1))
  {
  }
}

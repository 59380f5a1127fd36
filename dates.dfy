/** Calendar dates and the month bucketing shared by the profit breakdown
    and the sales trend (`dt.to_period('M')` and `dt.to_timestamp()`). */
module Dates {
  import opened Ordering

  datatype Date = Date(year: int, month: int, day: int)

  /** Gregorian leap years. */
  predicate IsLeapYear(y: int) {
    (y % 4 == 0 && y % 100 != 0) || y % 400 == 0
  }

  function DaysInMonth(y: int, m: int): (n: int)
    requires 1 <= m <= 12
    ensures 28 <= n <= 31
    ensures n == 29 <==> m == 2 && IsLeapYear(y)
  {
    if m == 2 then (if IsLeapYear(y) then 29 else 28)
    else if m == 4 || m == 6 || m == 9 || m == 11 then 30
    else 31
  }

  predicate IsValidDate(d: Date) {
    1 <= d.month <= 12 && 1 <= d.day <= DaysInMonth(d.year, d.month)
  }

  /** A date that `pd.to_datetime` accepts: a real day of a real month. */
  type CalendarDate = d: Date | IsValidDate(d) witness Date(1970, 1, 1)

  /** A monthly period, pandas' `Period(freq='M')`. */
  datatype MonthKey = MonthKey(year: int, month: int)

  predicate IsValidMonth(m: MonthKey) {
    1 <= m.month <= 12
  }

  /** Chronological order of months. */
  predicate MonthLess(a: MonthKey, b: MonthKey) {
    a.year < b.year || (a.year == b.year && a.month < b.month)
  }

  /** Chronological order of dates. */
  predicate DateLess(a: Date, b: Date) {
    a.year < b.year || (a.year == b.year && (a.month < b.month || (a.month == b.month && a.day < b.day)))
  }

  /** `to_period('M')`: the month a date falls in; the day is dropped. */
  function MonthOf(d: Date): (m: MonthKey)
    ensures IsValidDate(d) ==> IsValidMonth(m)
  {
    MonthKey(d.year, d.month)
  }

  /** `to_timestamp()` on a monthly period: the first day of that month. */
  function FirstDay(m: MonthKey): (d: Date)
    ensures d.day == 1 && MonthOf(d) == m
    ensures IsValidMonth(m) ==> IsValidDate(d)
  {
    Date(m.year, m.month, 1)
  }

  /** Two dates share a month key exactly when they share year and month,
      whatever their days. */
  lemma SameMonthKey(d1: Date, d2: Date)
    ensures MonthOf(d1) == MonthOf(d2) <==> d1.year == d2.year && d1.month == d2.month
  {
  }

  /** Bucketing the representative date of a month gives that month back,
      and the representative is the earliest day of every date in it. */
  lemma FirstDayIsEarliest(d: CalendarDate)
    ensures FirstDay(MonthOf(d)) == d || DateLess(FirstDay(MonthOf(d)), d)
    ensures MonthOf(FirstDay(MonthOf(d))) == MonthOf(d)
  {
  }

  /** Bucketing is monotone: a later date never falls in an earlier month. */
  lemma MonthOfMonotone(d1: Date, d2: Date)
    requires DateLess(d1, d2)
    ensures !MonthLess(MonthOf(d2), MonthOf(d1))
  {
  }

  /** Mapping months back to their first days keeps chronological order. */
  lemma FirstDayMonotone(a: MonthKey, b: MonthKey)
    ensures MonthLess(a, b) <==> DateLess(FirstDay(a), FirstDay(b))
  {
  }

  lemma MonthLessIsStrictTotalOrder()
    ensures StrictTotalOrder(MonthLess)
  {
  }
}

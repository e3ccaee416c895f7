/**
 * Calendar dates as (year, month, day) triples, the month arithmetic the dashboard
 * needs, and the whole-month difference used for a goat's age.
 */
module Calendar {

  /** A calendar date; the time of day is not modelled. */
  datatype Date = Date(year: int, month: int, day: int)

  /** A calendar month of a given year. */
  datatype YearMonth = YearMonth(year: int, month: int)

  predicate IsLeapYear(y: int) {
    (y % 4 == 0 && y % 100 != 0) || y % 400 == 0
  }

  predicate ValidMonth(ym: YearMonth) {
    1 <= ym.month <= 12
  }

  /** The number of days of month `m` of year `y` in the Gregorian calendar. */
  function DaysInMonth(y: int, m: int): (n: int)
    requires 1 <= m <= 12
    ensures 28 <= n <= 31
    ensures n == 28 <==> m == 2 && !IsLeapYear(y)
  {
    if m == 2 then (if IsLeapYear(y) then 29 else 28)
    else if m == 4 || m == 6 || m == 9 || m == 11 then 30
    else 31
  }

  predicate ValidDate(d: Date) {
    1 <= d.month <= 12 && 1 <= d.day <= DaysInMonth(d.year, d.month)
  }

  /** `a` is on or before `b` (the order of a SQL `date` column). */
  predicate DateLe(a: Date, b: Date) {
    a.year < b.year || (a.year == b.year && (a.month < b.month || (a.month == b.month && a.day <= b.day)))
  }

  lemma DateLeTransitive(a: Date, b: Date, c: Date)
    requires DateLe(a, b) && DateLe(b, c)
    ensures DateLe(a, c)
  {
  }

  lemma DateLeTotal(a: Date, b: Date)
    ensures DateLe(a, b) || DateLe(b, a)
    ensures DateLe(a, b) && DateLe(b, a) ==> a == b
  {
  }

  function MonthOf(d: Date): YearMonth {
    YearMonth(d.year, d.month)
  }

  /** First day of the month (Carbon `startOfMonth`). */
  function FirstDay(ym: YearMonth): Date {
    Date(ym.year, ym.month, 1)
  }

  /** Last day of the month (Carbon `endOfMonth`, whose time of day is not modelled). */
  function LastDay(ym: YearMonth): Date
    requires ValidMonth(ym)
  {
    Date(ym.year, ym.month, DaysInMonth(ym.year, ym.month))
  }

  /** First day of the year of `d` (Carbon `startOfYear`). */
  function StartOfYear(d: Date): Date {
    Date(d.year, 1, 1)
  }

  /** A valid date lies in the closed window first day .. last day of a month exactly when it is in that month. */
  lemma MonthWindow(d: Date, ym: YearMonth)
    requires ValidDate(d) && ValidMonth(ym)
    ensures DateLe(FirstDay(ym), d) && DateLe(d, LastDay(ym)) <==> MonthOf(d) == ym
  {
  }

  /** Months counted from year 0: consecutive months have consecutive indices. */
  function MonthIndex(ym: YearMonth): int {
    ym.year * 12 + ym.month - 1
  }

  function PrevMonth(ym: YearMonth): (r: YearMonth)
    requires ValidMonth(ym)
    ensures ValidMonth(r)
    ensures MonthIndex(r) == MonthIndex(ym) - 1
  {
    if ym.month == 1 then YearMonth(ym.year - 1, 12) else YearMonth(ym.year, ym.month - 1)
  }

  function NextMonth(ym: YearMonth): (r: YearMonth)
    requires ValidMonth(ym)
    ensures ValidMonth(r)
    ensures MonthIndex(r) == MonthIndex(ym) + 1
  {
    if ym.month == 12 then YearMonth(ym.year + 1, 1) else YearMonth(ym.year, ym.month + 1)
  }

  /** The month `i` months before `ym`, by (year, month) arithmetic. */
  function SubMonths(ym: YearMonth, i: nat): (r: YearMonth)
    requires ValidMonth(ym)
    ensures ValidMonth(r)
    ensures MonthIndex(r) == MonthIndex(ym) - i
  {
    if i == 0 then ym else PrevMonth(SubMonths(ym, i - 1))
  }

  /**
   * Carbon's `subMonths` with its default month overflow: the day of the month is kept,
   * and a day the target month does not have spills over into the following month
   * (31 March minus one month is 3 March in a common year).
   */
  function CarbonSubMonths(d: Date, i: nat): (r: Date)
    requires ValidDate(d)
    ensures ValidDate(r)
    ensures MonthIndex(MonthOf(r)) == MonthIndex(MonthOf(d)) - i ==> r.day == d.day
    ensures MonthIndex(MonthOf(r)) != MonthIndex(MonthOf(d)) - i ==>
      MonthIndex(MonthOf(r)) == MonthIndex(MonthOf(d)) - i + 1 && 1 <= r.day <= 3 && r.day < d.day
    ensures var t := SubMonths(MonthOf(d), i);
      && (MonthOf(r) == t <==> d.day <= DaysInMonth(t.year, t.month))
      && (MonthOf(r) != t ==> r.day == d.day - DaysInMonth(t.year, t.month))
  {
    var target := SubMonths(MonthOf(d), i);
    var n := DaysInMonth(target.year, target.month);
    if d.day <= n then Date(target.year, target.month, d.day)
    else
      var next := NextMonth(target);
      Date(next.year, next.month, d.day - n)
  }

  /**
   * Whole months from `from` to `to`: the calendar month difference, less one when the
   * day of the month of `to` has not reached that of `from`; negative when `to` is earlier,
   * truncated toward zero.
   */
  function WholeMonthsBetween(from: Date, to: Date): (r: int)
    requires ValidDate(from) && ValidDate(to)
    ensures DateLe(from, to) ==> r >= 0
    ensures DateLe(to, from) ==> r <= 0
    ensures DateLe(from, to) ==>
      MonthIndex(MonthOf(to)) - MonthIndex(MonthOf(from)) - 1 <= r <= MonthIndex(MonthOf(to)) - MonthIndex(MonthOf(from))
    decreases if DateLe(from, to) then 0 else 1
  {
    if DateLe(from, to) then
      var m := MonthIndex(MonthOf(to)) - MonthIndex(MonthOf(from));
      if to.day < from.day then m - 1 else m
    else
      -WholeMonthsBetween(to, from)
  }
}

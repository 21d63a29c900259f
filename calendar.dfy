/** Calendar dates as the store compares them, the days-in-month rule behind the
    monthly window, and the month arithmetic of the trend computation. */
module Calendar {

  /** A calendar date (the `date` columns, `YYYY-MM-DD`). */
  datatype Date = Date(year: int, month: int, day: int)

  /** Chronological order of dates: the order of the zero-padded `YYYY-MM-DD` text. */
  predicate DateLe(a: Date, b: Date) {
    a.year < b.year
    || (a.year == b.year && a.month < b.month)
    || (a.year == b.year && a.month == b.month && a.day <= b.day)
  }

  /** Gregorian leap years, as JavaScript's `Date` computes them. */
  predicate IsLeapYear(y: int) {
    (y % 4 == 0 && y % 100 != 0) || y % 400 == 0
  }

  function DaysInMonth(year: int, month: int): (n: int)
    requires 1 <= month <= 12
    ensures 28 <= n <= 31
    ensures n == 29 <==> month == 2 && IsLeapYear(year)
    ensures n == 28 <==> month == 2 && !IsLeapYear(year)
    ensures n == 30 <==> month in {4, 6, 9, 11}
  {
    if month == 2 then (if IsLeapYear(year) then 29 else 28)
    else if month in {4, 6, 9, 11} then 30
    else 31
  }

  predicate ValidDate(d: Date) {
    1 <= d.month <= 12 && 1 <= d.day <= DaysInMonth(d.year, d.month)
  }

  /** First day of a month: `${year}-${month padded}-01`. */
  function MonthStart(year: int, month: int): Date {
    Date(year, month, 1)
  }

  /** Last day of a month: `new Date(year, month, 0)`, the day before the first of the next month. */
  function MonthEnd(year: int, month: int): (d: Date)
    requires 1 <= month <= 12
    ensures ValidDate(d) && d.year == year && d.month == month
  {
    Date(year, month, DaysInMonth(year, month))
  }

  /** A valid date lies in the inclusive window [MonthStart, MonthEnd] exactly when
      it belongs to that calendar month. */
  lemma MonthWindow(d: Date, year: int, month: int)
    requires ValidDate(d) && 1 <= month <= 12
    ensures DateLe(MonthStart(year, month), d) && DateLe(d, MonthEnd(year, month))
            <==> d.year == year && d.month == month
  {
  }

  /** A year and a month (1 to 12). */
  datatype YearMonth = YearMonth(year: int, month: int)

  /** The month `back` months before (year, month):
      `new Date(year, month - 1 - back, 1)` with JavaScript's normalisation of the month
      index, which borrows whole years exactly like floor division. */
  function MonthsBefore(year: int, month: int, back: int): (ym: YearMonth)
    requires 1 <= month <= 12
    ensures 1 <= ym.month <= 12
    ensures (ym.year - year) * 12 + (ym.month - month) == -back
  {
    var index := (month - 1) - back;
    YearMonth(year + index / 12, index % 12 + 1)
  }

  /** The calendar month after `ym`. */
  function NextMonth(ym: YearMonth): YearMonth {
    if ym.month == 12 then YearMonth(ym.year + 1, 1) else YearMonth(ym.year, ym.month + 1)
  }

  /** Going back zero months gives the current month. */
  lemma MonthsBeforeZero(year: int, month: int)
    requires 1 <= month <= 12
    ensures MonthsBefore(year, month, 0) == YearMonth(year, month)
  {
  }

  /** Consecutive offsets give consecutive calendar months. */
  lemma MonthsBeforeStep(year: int, month: int, back: int)
    requires 1 <= month <= 12
    ensures NextMonth(MonthsBefore(year, month, back + 1)) == MonthsBefore(year, month, back)
  {
    var a := MonthsBefore(year, month, back + 1);
    var b := MonthsBefore(year, month, back);
    assert (a.year - b.year) * 12 + (a.month - b.month) == -1;
    if a.month == 12 {
      assert b.month == 1 && b.year == a.year + 1 by {
        assert (a.year - b.year) * 12 == -13 + b.month;
      }
    } else {
      assert b.month == a.month + 1 && b.year == a.year by {
        assert (a.year - b.year) * 12 == b.month - a.month - 1;
      }
    }
  }

  /** Going back one month from January lands on December of the previous year. */
  lemma YearRollover(year: int)
    ensures MonthsBefore(year, 1, 1) == YearMonth(year - 1, 12)
  {
  }
}

/**
 * The proleptic Gregorian calendar as java.time's `LocalDate` and
 * `YearMonth` implement it: leap years, month lengths, day-of-year,
 * ordering and month arithmetic (the day is clamped to the target month).
 */
module Calendar {

  /** `Year.MIN_VALUE` and `Year.MAX_VALUE`. */
  const MinYear: int := -999_999_999
  const MaxYear: int := 999_999_999

  /** A `LocalDate`. */
  datatype Date = Date(year: int, month: int, day: int)

  /** A `YearMonth`. */
  datatype YearMonth = YearMonth(year: int, month: int)

  predicate IsLeap(y: int) {
    y % 4 == 0 && (y % 100 != 0 || y % 400 == 0)
  }

  function DaysInMonth(y: int, m: int): (n: int)
    requires 1 <= m <= 12
    ensures 28 <= n <= 31
    ensures m == 2 ==> (n == 29 <==> IsLeap(y))
  {
    if m == 2 then (if IsLeap(y) then 29 else 28)
    else if m == 4 || m == 6 || m == 9 || m == 11 then 30
    else 31
  }

  function DaysInYear(y: int): (n: int)
    ensures n == 365 || n == 366
  {
    if IsLeap(y) then 366 else 365
  }

  /** Month and day are in range; the year is one `LocalDate` can hold. */
  predicate ValidDate(d: Date) {
    && MinYear <= d.year <= MaxYear
    && 1 <= d.month <= 12
    && 1 <= d.day <= DaysInMonth(d.year, d.month)
  }

  /** Days of the year that lie in months before `m` (`Month.firstDayOfYear` minus one). */
  function DaysBefore(y: int, m: int): (n: int)
    requires 1 <= m <= 12
  {
    var common :=
      if m == 1 then 0 else if m == 2 then 31 else if m == 3 then 59
      else if m == 4 then 90 else if m == 5 then 120 else if m == 6 then 151
      else if m == 7 then 181 else if m == 8 then 212 else if m == 9 then 243
      else if m == 10 then 273 else if m == 11 then 304 else 334;
    if m > 2 && IsLeap(y) then common + 1 else common
  }

  /** Consecutive months tile the year: each month starts where the previous one ends. */
  lemma DaysBeforeStep(y: int, m: int)
    requires 1 <= m <= 12
    ensures m < 12 ==> DaysBefore(y, m + 1) == DaysBefore(y, m) + DaysInMonth(y, m)
    ensures m == 12 ==> DaysInYear(y) == DaysBefore(y, m) + DaysInMonth(y, m)
  {
  }

  /** `LocalDate.getDayOfYear`. */
  function DayOfYear(d: Date): int
    requires 1 <= d.month <= 12
  {
    DaysBefore(d.year, d.month) + d.day
  }

  /**
   * `LocalDate.ofYearDay(y, n)`: guesses the month as `(n - 1) / 31 + 1`
   * and moves one month on when `n` lies past that month's end.
   */
  function FromDayOfYear(y: int, n: int): (d: Date)
    requires 1 <= n <= DaysInYear(y)
    ensures d.year == y && 1 <= d.month <= 12 && 1 <= d.day <= DaysInMonth(y, d.month)
    ensures DayOfYear(d) == n
  {
    var guess := (n - 1) / 31 + 1;
    var monthEnd := DaysBefore(y, guess) + DaysInMonth(y, guess);
    var m := if n > monthEnd then guess + 1 else guess;
    Date(y, m, n - DaysBefore(y, m))
  }

  /** Day-of-year numbering is a bijection between valid dates of a year and 1..DaysInYear. */
  lemma FromDayOfYearInverse(d: Date)
    requires ValidDate(d)
    ensures 1 <= DayOfYear(d) <= DaysInYear(d.year)
    ensures FromDayOfYear(d.year, DayOfYear(d)) == d
  {
    DaysBeforeStep(d.year, d.month);
    MonthGuess(d);
    var g := (DayOfYear(d) - 1) / 31 + 1;
    if g < d.month {
      DaysBeforeStep(d.year, g);
    }
  }

  /** The first guess `(n - 1) / 31 + 1` is the right month or the one before it. */
  lemma MonthGuess(d: Date)
    requires ValidDate(d)
    ensures var g := (DayOfYear(d) - 1) / 31 + 1; g == d.month || g == d.month - 1
  {
    assert 31 * (d.month - 1) - 7 <= DaysBefore(d.year, d.month) <= 31 * (d.month - 1);
  }

  /** The first 31 days of every year are the days of January. */
  lemma EarlyDayOfYearIsJanuary(y: int, n: int)
    requires 1 <= n <= 31
    ensures FromDayOfYear(y, n) == Date(y, 1, n)
  {
  }

  /** `LocalDate.isBefore`: chronological order, year first, then month, then day. */
  predicate IsBefore(a: Date, b: Date) {
    a.year < b.year
    || (a.year == b.year && a.month < b.month)
    || (a.year == b.year && a.month == b.month && a.day < b.day)
  }

  /** `YearMonth.from(date)`. */
  function YearMonthOf(d: Date): YearMonth {
    YearMonth(d.year, d.month)
  }

  /** The number of months since January of year 0 (java.time's `year * 12 + month - 1`). */
  function MonthIndex(ym: YearMonth): int {
    ym.year * 12 + ym.month - 1
  }

  /** The year-month with the given index: `floorDiv` and `floorMod` by 12. */
  function FromMonthIndex(k: int): (ym: YearMonth)
    ensures 1 <= ym.month <= 12 && MonthIndex(ym) == k
  {
    YearMonth(k / 12, k % 12 + 1)
  }

  /** Month indices identify year-months with a month in 1..12. */
  lemma MonthIndexInjective(a: YearMonth, b: YearMonth)
    requires 1 <= a.month <= 12 && 1 <= b.month <= 12
    ensures MonthIndex(a) == MonthIndex(b) <==> a == b
  {
    if MonthIndex(a) == MonthIndex(b) {
      assert FromMonthIndex(MonthIndex(a)) == a by { FromMonthIndexOfIndex(a); }
      assert FromMonthIndex(MonthIndex(b)) == b by { FromMonthIndexOfIndex(b); }
    }
  }

  lemma FromMonthIndexOfIndex(ym: YearMonth)
    requires 1 <= ym.month <= 12
    ensures FromMonthIndex(MonthIndex(ym)) == ym
  {
    var k := MonthIndex(ym);
    assert k == ym.year * 12 + (ym.month - 1);
    assert k / 12 == ym.year && k % 12 == ym.month - 1 by {
      DivModUnique(k, ym.year, ym.month - 1);
    }
  }

  lemma DivModUnique(k: int, q: int, r: int)
    requires 0 <= r < 12 && k == q * 12 + r
    ensures k / 12 == q && k % 12 == r
  {
  }

  /** `YearMonth.plusMonths(n)` (and `minusMonths` for negative `n`). */
  function PlusMonths(ym: YearMonth, n: int): (r: YearMonth)
    ensures 1 <= r.month <= 12 && MonthIndex(r) == MonthIndex(ym) + n
  {
    FromMonthIndex(MonthIndex(ym) + n)
  }

  /**
   * `LocalDate.minusMonths(n)`: moves the year-month back by `n` and keeps
   * the day unless the target month is shorter, in which case the day
   * becomes that month's last day.
   */
  function MinusMonths(d: Date, n: int): (r: Date)
    requires 1 <= d.month <= 12 && 1 <= d.day
    ensures 1 <= r.month <= 12 && 1 <= r.day <= DaysInMonth(r.year, r.month)
    ensures MonthIndex(YearMonthOf(r)) == MonthIndex(YearMonthOf(d)) - n
    ensures r.day == if d.day <= DaysInMonth(r.year, r.month) then d.day else DaysInMonth(r.year, r.month)
  {
    var ym := PlusMonths(YearMonthOf(d), -n);
    var last := DaysInMonth(ym.year, ym.month);
    Date(ym.year, ym.month, if d.day <= last then d.day else last)
  }
}

/**
 * The proleptic Gregorian calendar of Python's `datetime` and `relativedelta`:
 * dates are (year, month, day) triples, compared lexicographically, and the
 * day count between two dates is the difference of their ordinals (the day
 * number counted from 0001-01-01, which has ordinal 1).
 */
module Dates {

  datatype Date = Date(year: int, month: int, day: int)

  predicate IsLeapYear(y: int) {
    y % 4 == 0 && (y % 100 != 0 || y % 400 == 0)
  }

  /** The number of days of month `m` of year `y` (the second value of `monthrange`). */
  function DaysInMonth(y: int, m: int): (n: int)
    requires 1 <= m <= 12
    ensures 28 <= n <= 31
    ensures n == 29 <==> m == 2 && IsLeapYear(y)
  {
    if m == 2 then (if IsLeapYear(y) then 29 else 28)
    else if m == 4 || m == 6 || m == 9 || m == 11 then 30
    else 31
  }

  /** A date that exists: a positive year, a month 1..12 and a day within that month. */
  predicate Valid(d: Date) {
    1 <= d.year && 1 <= d.month <= 12 && 1 <= d.day <= DaysInMonth(d.year, d.month)
  }

  function YearLength(y: int): int {
    if IsLeapYear(y) then 366 else 365
  }

  /** Days in the years 1 .. y-1, as `_days_before_year` counts them. */
  function DaysBeforeYear(y: int): int {
    var p := y - 1;
    p * 365 + p / 4 - p / 100 + p / 400
  }

  /** Days in the months 1 .. m-1 of year y, as `_days_before_month` counts them. */
  function DaysBeforeMonth(y: int, m: int): int
    requires 1 <= m <= 13
  {
    var before :=
      if m == 1 then 0 else if m == 2 then 31 else if m == 3 then 59 else if m == 4 then 90
      else if m == 5 then 120 else if m == 6 then 151 else if m == 7 then 181 else if m == 8 then 212
      else if m == 9 then 243 else if m == 10 then 273 else if m == 11 then 304 else if m == 12 then 334
      else 365;
    before + (if m > 2 && IsLeapYear(y) then 1 else 0)
  }

  /** The day number of a date, as `date.toordinal`: 0001-01-01 is day 1. */
  function Ordinal(d: Date): int
    requires Valid(d)
  {
    DaysBeforeYear(d.year) + DaysBeforeMonth(d.year, d.month) + d.day
  }

  /** Python's `a > b` on dates: lexicographic on (year, month, day). */
  predicate After(a: Date, b: Date) {
    a.year > b.year || (a.year == b.year && (a.month > b.month || (a.month == b.month && a.day > b.day)))
  }

  function Min(a: int, b: int): int {
    if a <= b then a else b
  }

  /** `d + timedelta(days=1)`. */
  function NextDay(d: Date): (r: Date)
    requires Valid(d)
    ensures Valid(r)
  {
    if d.day < DaysInMonth(d.year, d.month) then Date(d.year, d.month, d.day + 1)
    else if d.month < 12 then Date(d.year, d.month + 1, 1)
    else Date(d.year + 1, 1, 1)
  }

  /**
   * `d - timedelta(days=1)`. The day before 0001-01-01 does not exist in the
   * calendar of Python's `date`; here it is the value Date(0, 12, 31), which is not Valid.
   */
  function PrevDay(d: Date): (r: Date)
    requires Valid(d)
    ensures d.year > 1 || d.month > 1 || d.day > 1 ==> Valid(r)
  {
    if d.day > 1 then Date(d.year, d.month, d.day - 1)
    else if d.month > 1 then Date(d.year, d.month - 1, DaysInMonth(d.year, d.month - 1))
    else Date(d.year - 1, 12, 31)
  }

  /** `d.replace(day=1)`. */
  function FirstOfMonth(d: Date): Date {
    Date(d.year, d.month, 1)
  }

  /** The running month count year*12 + (month-1): consecutive months differ by one. */
  function MonthIndex(d: Date): int {
    d.year * 12 + (d.month - 1)
  }

  /**
   * Add `n` months, clamping the day to the length of the target month: the
   * month arithmetic of `_compute_warranty_date` and of `relativedelta(months=n)`.
   * Python's `//` and `%` floor; Dafny's `/` and `%` are Euclidean, which agrees
   * with flooring for the positive divisor 12.
   */
  function AddMonths(d: Date, n: int): (r: Date)
    requires 1 <= d.month <= 12
    ensures 1 <= r.month <= 12
    ensures MonthIndex(r) == MonthIndex(d) + n
    ensures r.day == Min(d.day, DaysInMonth(r.year, r.month))
  {
    var idx := d.month - 1 + n;
    var y := d.year + idx / 12;
    var m := idx % 12 + 1;
    Date(y, m, Min(d.day, DaysInMonth(y, m)))
  }

  /** The last day of the month of `d`. */
  function MonthEnd(d: Date): (r: Date)
    requires Valid(d)
    ensures Valid(r)
  {
    Date(d.year, d.month, DaysInMonth(d.year, d.month))
  }

  /**
   * The month end as `update_monthly_revenue` computes it,
   * `(d + relativedelta(months=1)).replace(day=1) - timedelta(days=1)`, is MonthEnd.
   */
  lemma {:induction false} MonthEndFormula(d: Date)
    requires Valid(d)
    ensures PrevDay(FirstOfMonth(AddMonths(d, 1))) == MonthEnd(d)
  {
    NextMonthLemma(d);
  }

  /** The first day of the following month is (y, m+1) or (y+1, 1). */
  lemma {:induction false} NextMonthLemma(d: Date)
    requires Valid(d)
    ensures var n := AddMonths(d, 1);
      if d.month < 12 then n.year == d.year && n.month == d.month + 1
      else n.year == d.year + 1 && n.month == 1
  {
    var n := AddMonths(d, 1);
    assert MonthIndex(n) == MonthIndex(d) + 1;
  }

  // ---------------------------------------------------------------------
  // Ordinals and the calendar order

  /** Each month adds its own length; the thirteenth "month" starts after the whole year. */
  lemma {:induction false} DaysBeforeMonthStep(y: int, m: int)
    requires 1 <= m <= 12
    ensures DaysBeforeMonth(y, m + 1) == DaysBeforeMonth(y, m) + DaysInMonth(y, m)
    ensures DaysBeforeMonth(y, 13) == YearLength(y)
  {
  }

  lemma {:induction false} DaysBeforeMonthMonotone(y: int, m1: int, m2: int)
    requires 1 <= m1 <= m2 <= 13
    ensures DaysBeforeMonth(y, m1) <= DaysBeforeMonth(y, m2)
    decreases m2
  {
    if m1 < m2 {
      DaysBeforeMonthStep(y, m2 - 1);
      DaysBeforeMonthMonotone(y, m1, m2 - 1);
    }
  }

  /** Counting the multiples of `k` up to p + 1 adds one exactly when p + 1 is one. */
  lemma {:induction false} MultiplesStep(p: int, k: int)
    requires k == 4 || k == 100 || k == 400
    ensures (p + 1) / k == p / k + (if (p + 1) % k == 0 then 1 else 0)
  {
    if k == 4 {
      assert (p + 1) / 4 == p / 4 + (if (p + 1) % 4 == 0 then 1 else 0);
    } else if k == 100 {
      assert (p + 1) / 100 == p / 100 + (if (p + 1) % 100 == 0 then 1 else 0);
    } else {
      assert (p + 1) / 400 == p / 400 + (if (p + 1) % 400 == 0 then 1 else 0);
    }
  }

  /** Each year adds its own length. */
  lemma {:induction false} DaysBeforeYearStep(y: int)
    ensures DaysBeforeYear(y + 1) == DaysBeforeYear(y) + YearLength(y)
  {
    MultiplesStep(y - 1, 4);
    MultiplesStep(y - 1, 100);
    MultiplesStep(y - 1, 400);
  }

  lemma {:induction false} DaysBeforeYearMonotone(y1: int, y2: int)
    requires y1 < y2
    ensures DaysBeforeYear(y1) + YearLength(y1) <= DaysBeforeYear(y2)
    decreases y2 - y1
  {
    DaysBeforeYearStep(y1);
    if y1 < y2 - 1 {
      DaysBeforeYearMonotone(y1 + 1, y2);
    }
  }

  /** A date's ordinal lies within its year. */
  lemma {:induction false} OrdinalWithinYear(d: Date)
    requires Valid(d)
    ensures DaysBeforeYear(d.year) < Ordinal(d) <= DaysBeforeYear(d.year) + YearLength(d.year)
  {
    DaysBeforeMonthStep(d.year, d.month);
    DaysBeforeMonthMonotone(d.year, d.month + 1, 13);
  }

  /** The calendar order of valid dates is the order of their ordinals. */
  lemma {:induction false} OrdinalOrder(a: Date, b: Date)
    requires Valid(a) && Valid(b)
    ensures After(a, b) <==> Ordinal(a) > Ordinal(b)
    ensures a == b <==> Ordinal(a) == Ordinal(b)
  {
    OrdinalWithinYear(a);
    OrdinalWithinYear(b);
    if a.year < b.year {
      DaysBeforeYearMonotone(a.year, b.year);
    } else if a.year > b.year {
      DaysBeforeYearMonotone(b.year, a.year);
    } else if a.month < b.month {
      DaysBeforeMonthMonotone(a.year, a.month + 1, b.month);
    } else if a.month > b.month {
      DaysBeforeMonthMonotone(a.year, b.month + 1, a.month);
    }
  }

  /** The next day is one day later. */
  lemma {:induction false} NextDayOrdinal(d: Date)
    requires Valid(d)
    ensures Ordinal(NextDay(d)) == Ordinal(d) + 1
  {
    DaysBeforeMonthStep(d.year, d.month);
    if d.day == DaysInMonth(d.year, d.month) && d.month == 12 {
      DaysBeforeYearStep(d.year);
    }
  }

  /** The previous day is one day earlier. */
  lemma {:induction false} PrevDayOrdinal(d: Date)
    requires Valid(d) && (d.year > 1 || d.month > 1 || d.day > 1)
    ensures Ordinal(PrevDay(d)) == Ordinal(d) - 1
  {
    if d.day == 1 && d.month == 1 {
      DaysBeforeMonthStep(d.year - 1, 12);
      DaysBeforeYearStep(d.year - 1);
    } else if d.day == 1 {
      DaysBeforeMonthStep(d.year, d.month - 1);
    }
  }

  /** A date lies within its month: between its first day and MonthEnd. */
  lemma {:induction false} WithinMonth(d: Date)
    requires Valid(d)
    ensures Ordinal(FirstOfMonth(d)) <= Ordinal(d) <= Ordinal(MonthEnd(d))
  {
  }

  /** The day after a month's end opens the next month. */
  lemma {:induction false} AfterMonthEnd(d: Date)
    requires Valid(d)
    ensures NextDay(MonthEnd(d)) == FirstOfMonth(AddMonths(d, 1))
    ensures MonthIndex(NextDay(MonthEnd(d))) == MonthIndex(d) + 1
  {
    NextMonthLemma(d);
  }

  /**
   * `d.replace(day=1) - timedelta(days=1)` is the last day of the month before
   * the month of `d`.
   */
  lemma {:induction false} PreviousMonthEnd(d: Date)
    requires Valid(d) && (d.year > 1 || d.month > 1)
    ensures Valid(PrevDay(FirstOfMonth(d)))
    ensures MonthIndex(PrevDay(FirstOfMonth(d))) == MonthIndex(d) - 1
    ensures PrevDay(FirstOfMonth(d)) == MonthEnd(PrevDay(FirstOfMonth(d)))
  {
  }
}

/**
 * Warranty expiry of a piece of equipment: the purchase date moved forward by
 * the warranty category's duration in months, the day clamped to the length
 * of the target month.
 */
module Equipment {
  import opened Wrappers
  import opened Dates

  /** The year limits of Python's `date` type. */
  const MinYear := 1
  const MaxYear := 9999

  /** A value that Python's `date` can hold. */
  predicate PyDate(d: Date) {
    Valid(d) && MinYear <= d.year <= MaxYear
  }

  datatype WarrantyError =
    | NoPurchaseDate          // the purchase date field is unset: `False.month` raises
    | YearOutOfRange(year: int) // `date(year, month, day)` raises for a year outside 1..9999

  /**
   * `_compute_warranty_date`. An unset warranty category reads as duration 0.
   */
  function WarrantyDate(purchase: Option<Date>, duration: int): (r: Result<Date, WarrantyError>)
    requires purchase.Some? ==> PyDate(purchase.value)
    ensures purchase.None? ==> r == Failure(NoPurchaseDate)
    ensures r.Success? ==> PyDate(r.value)
    ensures r.Success? ==> MonthIndex(r.value) == MonthIndex(purchase.value) + duration
    ensures r.Success? ==> r.value.day == Min(purchase.value.day, DaysInMonth(r.value.year, r.value.month))
    ensures purchase.Some? && r.Failure? ==>
      r.error.YearOutOfRange? && (MonthIndex(purchase.value) + duration) / 12 == r.error.year &&
      !(MinYear <= r.error.year <= MaxYear)
  {
    match purchase
    case None => Failure(NoPurchaseDate)
    case Some(p) =>
      var month := p.month - 1 + duration;
      var year := p.year + month / 12;
      var m := month % 12 + 1;
      if !(MinYear <= year <= MaxYear) then Failure(YearOutOfRange(year))
      else Success(Date(year, m, Min(p.day, DaysInMonth(year, m))))
  }

  /** The three facts of WarrantyDate's contract determine the date: no other date has them. */
  lemma {:induction false} WarrantyDateUnique(p: Date, duration: int, q: Date)
    requires PyDate(p)
    requires WarrantyDate(Some(p), duration).Success?
    requires 1 <= q.month <= 12
    requires MonthIndex(q) == MonthIndex(p) + duration
    requires q.day == Min(p.day, DaysInMonth(q.year, q.month))
    ensures WarrantyDate(Some(p), duration) == Success(q)
  {
    var r := WarrantyDate(Some(p), duration).value;
    assert MonthIndex(r) == MonthIndex(q);
  }

  /** A warranty of zero months ends on the purchase date. */
  lemma {:induction false} WarrantyZero(p: Date)
    requires PyDate(p)
    ensures WarrantyDate(Some(p), 0) == Success(p)
  {
    WarrantyDateUnique(p, 0, p);
  }

  /** When the purchase day exists in the target month, the day is kept. */
  lemma {:induction false} WarrantyKeepsDay(p: Date, duration: int)
    requires PyDate(p)
    requires WarrantyDate(Some(p), duration).Success?
    requires var r := WarrantyDate(Some(p), duration).value; p.day <= DaysInMonth(r.year, r.month)
    ensures WarrantyDate(Some(p), duration).value.day == p.day
  {
  }

  /** A leap day plus twelve months is the 28th of February of the following year. */
  lemma {:induction false} WarrantyLeapDay(y: int)
    requires MinYear <= y < MaxYear && IsLeapYear(y)
    ensures WarrantyDate(Some(Date(y, 2, 29)), 12) == Success(Date(y + 1, 2, 28))
  {
    assert !IsLeapYear(y + 1);
    WarrantyDateUnique(Date(y, 2, 29), 12, Date(y + 1, 2, 28));
  }

  /**
   * Two warranty periods in a row give the same date as their sum, as long as
   * the first does not clamp the day.
   */
  lemma {:induction false} WarrantyCompose(p: Date, a: int, b: int)
    requires PyDate(p)
    requires WarrantyDate(Some(p), a).Success?
    requires var r := WarrantyDate(Some(p), a).value; p.day <= DaysInMonth(r.year, r.month)
    requires WarrantyDate(Some(WarrantyDate(Some(p), a).value), b).Success?
    ensures WarrantyDate(Some(p), a + b) == WarrantyDate(Some(WarrantyDate(Some(p), a).value), b)
  {
    var mid := WarrantyDate(Some(p), a).value;
    var q := WarrantyDate(Some(mid), b).value;
    assert mid.day == p.day;
    WarrantyDateUnique(p, a + b, q);
  }
}

/**
 * The CRM lead: its date constraint, its onchange handlers and the
 * regeneration of its monthly revenue lines and revenue-split records.
 */
module CrmLead {
  import opened Wrappers
  import opened Dates
  import opened Proration

  datatype LeadError =
    | EndBeforeStart   // the ValidationError of `_check_dates`
    | DivisionByZero   // `total_days` is 0, which happens when start is the day after end
    | Incomparable     // `start_date > end_date` with the end date unset raises a TypeError

  /** `_check_dates`: the dates are rejected when both are set and the start is after the end. */
  function CheckDates(start: Option<Date>, end: Option<Date>): Outcome<LeadError> {
    if start.Some? && end.Some? && After(start.value, end.value) then Fail(EndBeforeStart) else Pass
  }

  /**
   * Accepted dates give the proration a positive day count, so it never divides
   * by zero, and rejected ones are exactly those whose day count is not positive.
   */
  lemma {:induction false} CheckDatesTotalDays(sd: Date, ed: Date)
    requires Valid(sd) && Valid(ed)
    ensures CheckDates(Some(sd), Some(ed)).Pass? <==> TotalDays(sd, ed) >= 1
    ensures CheckDates(Some(sd), Some(ed)).Fail? ==> CheckDates(Some(sd), Some(ed)) == Fail(EndBeforeStart)
  {
    OrdinalOrder(sd, ed);
  }

  /** A date missing on either side is never rejected. */
  lemma {:induction false} CheckDatesUnset(start: Option<Date>, end: Option<Date>)
    requires start.None? || end.None?
    ensures CheckDates(start, end) == Pass
  {
  }

  // ---------------------------------------------------------------------
  // Rounding to cents

  /**
   * `round(x, 2)` on an exact value: to the nearest multiple of 0.01, ties to
   * the even multiple.
   */
  function Round2(x: real): (r: real)
    ensures ((r * 100.0).Floor as real) == r * 100.0
    ensures -0.005 <= r - x <= 0.005
  {
    var scaled := x * 100.0;
    var f := scaled.Floor;
    var frac := scaled - f as real;
    var n := if frac > 0.5 then f + 1 else if frac < 0.5 then f else if f % 2 == 0 then f else f + 1;
    assert (n as real / 100.0) * 100.0 == n as real;
    n as real / 100.0
  }

  /** A whole number of cents is its own rounding. */
  lemma {:induction false} Round2Cents(n: int)
    ensures Round2(n as real / 100.0) == n as real / 100.0
  {
    assert (n as real / 100.0) * 100.0 == n as real;
  }

  /** Rounding a rounded value changes nothing. */
  lemma {:induction false} Round2Idempotent(x: real)
    ensures Round2(Round2(x)) == Round2(x)
  {
    var r := Round2(x);
    var n := (r * 100.0).Floor;
    assert r == n as real / 100.0;
    Round2Cents(n);
  }

  /** The "totals differ" flag: the rounded line sum is not the rounded prorated revenue. */
  predicate TotalsDiffer(lines: seq<MonthlyRevenue>, prorated: real) {
    Round2(SumExpected(lines)) != Round2(prorated)
  }

  /**
   * Lines freshly generated for [sd, ed] next to some manual lines differ
   * from the prorated revenue exactly when the manual lines shift the rounded
   * total; with no manual lines they never differ.
   */
  lemma {:induction false} GeneratedLinesAgree(sd: Date, ed: Date, prorated: real, probability: real,
                            fiscalMonth: Date -> RangeId, fiscalYear: Date -> RangeId,
                            manual: seq<MonthlyRevenue>)
    requires Valid(sd) && Valid(ed) && TotalDays(sd, ed) != 0
    ensures var lines := ComputedLines(sd, ed, prorated, probability, fiscalMonth, fiscalYear);
      TotalsDiffer(lines + manual, prorated) <==> Round2(prorated + SumExpected(manual)) != Round2(prorated)
    ensures !TotalsDiffer(ComputedLines(sd, ed, prorated, probability, fiscalMonth, fiscalYear), prorated)
  {
    LinesSumToProrated(sd, ed, prorated, probability, fiscalMonth, fiscalYear);
    LinesAgree(ComputedLines(sd, ed, prorated, probability, fiscalMonth, fiscalYear), manual, prorated);
  }

  /** Lines whose revenues add up to the prorated revenue, followed by manual ones. */
  lemma {:induction false} LinesAgree(lines: seq<MonthlyRevenue>, manual: seq<MonthlyRevenue>, prorated: real)
    requires SumExpected(lines) == prorated
    ensures TotalsDiffer(lines + manual, prorated) <==> Round2(prorated + SumExpected(manual)) != Round2(prorated)
    ensures !TotalsDiffer(lines, prorated)
  {
    SumExpectedAppend(lines, manual);
  }

  /** After `recalculate_total` has taken the line sum as the prorated revenue, the totals agree. */
  lemma {:induction false} RecalculatedTotalsAgree(lines: seq<MonthlyRevenue>)
    ensures !TotalsDiffer(lines, Round2(SumExpected(lines)))
  {
    Round2Idempotent(SumExpected(lines));
  }

  // ---------------------------------------------------------------------
  // Line selections

  /** The manual lines, those not generated by the proration, in their order. */
  function ManualLines(lines: seq<MonthlyRevenue>): (ms: seq<MonthlyRevenue>)
    ensures forall i :: 0 <= i < |ms| ==> !ms[i].computed
    ensures |ms| <= |lines|
  {
    if lines == [] then []
    else
      var rest := ManualLines(lines[..|lines| - 1]);
      var last := lines[|lines| - 1];
      if last.computed then rest else rest + [last]
  }

  /** The manual lines are exactly the lines of `lines` that are not computed. */
  lemma {:induction false} ManualLinesMembers(lines: seq<MonthlyRevenue>)
    ensures forall l :: l in ManualLines(lines) <==> l in lines && !l.computed
    decreases |lines|
  {
    if lines != [] {
      var init := lines[..|lines| - 1];
      var last := lines[|lines| - 1];
      ManualLinesMembers(init);
      assert lines == init + [last];
    }
  }

  lemma {:induction false} ManualLinesAppend(a: seq<MonthlyRevenue>, b: seq<MonthlyRevenue>)
    ensures ManualLines(a + b) == ManualLines(a) + ManualLines(b)
    decreases |b|
  {
    if b == [] {
      assert a + b == a;
    } else {
      assert (a + b)[..|a + b| - 1] == a + b[..|b| - 1];
      assert (a + b)[|a + b| - 1] == b[|b| - 1];
      ManualLinesAppend(a, b[..|b| - 1]);
    }
  }

  /** Selecting the manual lines of manual lines keeps them all. */
  lemma {:induction false} ManualLinesIdempotent(lines: seq<MonthlyRevenue>)
    ensures ManualLines(ManualLines(lines)) == ManualLines(lines)
    decreases |lines|
  {
    if lines != [] {
      var init := lines[..|lines| - 1];
      var last := lines[|lines| - 1];
      ManualLinesIdempotent(init);
      if !last.computed {
        ManualLinesAppend(ManualLines(init), [last]);
        assert ManualLines([last]) == [last] by {
          assert [last][..0] == [];
        }
      }
    }
  }

  /** Generated lines hold no manual line. */
  lemma {:induction false} ManualLinesOfComputed(lines: seq<MonthlyRevenue>)
    requires forall i :: 0 <= i < |lines| ==> lines[i].computed
    ensures ManualLines(lines) == []
    decreases |lines|
  {
    if lines != [] {
      ManualLinesOfComputed(lines[..|lines| - 1]);
    }
  }

  /**
   * Computed lines put before the manual lines of `lines` leave exactly those
   * manual lines to select, and the split records of the computed lines go
   * with the lines before the manual ones.
   */
  lemma {:induction false} ComputedThenManual(generated: seq<MonthlyRevenue>, lines: seq<MonthlyRevenue>, unit: string)
    requires forall i :: 0 <= i < |generated| ==> generated[i].computed
    ensures var ls := generated + ManualLines(lines);
      var ss := SplitsOf(generated, unit);
      ManualLines(ls) == ManualLines(lines) &&
      |ss| == |ls| - |ManualLines(lines)| &&
      (forall i :: 0 <= i < |ss| ==> ls[i].computed && ss[i].totalRevenue == ls[i].expectedRevenue)
  {
    ManualAfterComputed(generated, lines);
    SplitsOfTotals(generated, unit);
    AppendPrefix(generated, ManualLines(lines));
  }

  lemma {:induction false} ManualAfterComputed(generated: seq<MonthlyRevenue>, lines: seq<MonthlyRevenue>)
    requires forall i :: 0 <= i < |generated| ==> generated[i].computed
    ensures ManualLines(generated + ManualLines(lines)) == ManualLines(lines)
  {
    ManualLinesOfComputed(generated);
    ManualLinesAppend(generated, ManualLines(lines));
    ManualLinesIdempotent(lines);
  }

  lemma {:induction false} AppendPrefix<T>(a: seq<T>, b: seq<T>)
    ensures forall i :: 0 <= i < |a| ==> (a + b)[i] == a[i]
  {
  }

  /**
   * The date `create` records as the lead's latest revenue date: the last date
   * of the lines sorted by date, among the lines that have one.
   */
  function LatestLineDate(lines: seq<MonthlyRevenue>): (r: Option<Date>)
    ensures r.None? <==> forall i :: 0 <= i < |lines| ==> lines[i].date.None?
    ensures r.Some? ==> exists i :: 0 <= i < |lines| && lines[i].date == r
    ensures r.Some? ==> forall i :: 0 <= i < |lines| && lines[i].date.Some? ==> !After(lines[i].date.value, r.value)
  {
    if lines == [] then None
    else
      var init := lines[..|lines| - 1];
      var last := lines[|lines| - 1];
      var rest := LatestLineDate(init);
      assert forall i :: 0 <= i < |lines| - 1 ==> lines[i] == init[i];
      if last.date.None? then rest
      else if rest.None? || !After(rest.value, last.date.value) then last.date
      else rest
  }

  /** ApplyProbability's result: every line's percentage replaced by the stage's probability. */
  function WithPercentage(lines: seq<MonthlyRevenue>, p: real): (r: seq<MonthlyRevenue>)
    ensures |r| == |lines|
    ensures forall i :: 0 <= i < |lines| ==> r[i] == lines[i].(percentage := p)
  {
    seq(|lines|, i requires 0 <= i < |lines| => lines[i].(percentage := p))
  }

  /** The split records with the operating-unit onchange applied to each. */
  function AssignUnitAll(recs: seq<RevenueSplit>, unit: string): (r: seq<RevenueSplit>)
    ensures |r| == |recs|
    ensures forall i :: 0 <= i < |recs| ==> r[i] == AssignUnit(recs[i], unit)
  {
    seq(|recs|, i requires 0 <= i < |recs| => AssignUnit(recs[i], unit))
  }

  /** The operating-unit onchange leaves the splits generated for the same unit as they are. */
  lemma {:induction false} AssignUnitAllFixesGenerated(lines: seq<MonthlyRevenue>, unit: string)
    ensures AssignUnitAll(SplitsOf(lines, unit), unit) == SplitsOf(lines, unit)
  {
    var s := SplitsOf(lines, unit);
    forall i | 0 <= i < |s| ensures AssignUnitAll(s, unit)[i] == s[i] {
      SplitsOfAt(lines, unit, i);
      AssignUnitFixesSplit(lines[i].month, lines[i].expectedRevenue, unit);
    }
  }

  /** The lines and split records one walk over a lead's date range generates. */
  datatype Generated = Generated(lines: seq<MonthlyRevenue>, splits: seq<RevenueSplit>)

  /**
   * The body of one pass of that loop: the expected-revenue line and the split
   * record of the segment from `start` to `monthEnd`. The method builds the
   * line field by field, in the order of the statements of
   * `update_monthly_revenue`; ComputedLine is the specification it is proved
   * against, which the lemmas about the whole walk use.
   */
  method EmitMonth(start: Date, monthEnd: Date, totalDays: int, prorated: real, probability: real, unit: string,
                   fiscalMonth: Date -> RangeId, fiscalYear: Date -> RangeId)
    returns (line: MonthlyRevenue, split: RevenueSplit)
    requires Valid(start) && Valid(monthEnd) && totalDays != 0
    ensures line == ComputedLine(Segment(start, monthEnd), totalDays, prorated, probability, fiscalMonth, fiscalYear)
    ensures split == SplitLine(line.month, line.expectedRevenue, unit)
  {
    var daysPerMonth := Ordinal(monthEnd) - Ordinal(start) + 1;
    var expected := Portion(prorated, daysPerMonth, totalDays);
    var weighted := WeightedPortion(prorated, daysPerMonth, totalDays, probability);
    line := MonthlyRevenue(
      Some(monthEnd),
      Some(PrevDay(FirstOfMonth(monthEnd))),
      fiscalYear(monthEnd),
      fiscalMonth(monthEnd),
      Some(DurationLabel(daysPerMonth, daysPerMonth > 1, start.day, monthEnd.day, start.month)),
      weighted,
      expected,
      true,
      probability);
    split := SplitLine(fiscalMonth(monthEnd), expected, unit);
  }

  /**
   * What the loop of `update_monthly_revenue` has produced once it has walked
   * the segments `done` and stands at `start`: the segments still ahead are
   * those from `start`, and the lines and split records are those of `done`.
   */
  ghost predicate WalkedSoFar(sd: Date, start: Date, ed: Date, done: seq<Segment>, totalDays: int,
                              prorated: real, probability: real, unit: string,
                              fiscalMonth: Date -> RangeId, fiscalYear: Date -> RangeId,
                              lines: seq<MonthlyRevenue>, splits: seq<RevenueSplit>)
    requires Valid(sd) && Valid(start) && Valid(ed)
  {
    && totalDays == TotalDays(sd, ed) && totalDays != 0
    && Segments(sd, ed) == done + Segments(start, ed)
    && (forall i :: 0 <= i < |done| ==> ValidSegment(done[i]))
    && lines == LinesOf(done, totalDays, prorated, probability, fiscalMonth, fiscalYear)
    && splits == SplitsOf(lines, unit)
  }

  /** One pass of the loop keeps WalkedSoFar, and the walk ends once the day after the segment is past `ed`. */
  lemma {:induction false} WalkStep(sd: Date, start: Date, ed: Date, done: seq<Segment>, totalDays: int,
                 prorated: real, probability: real, unit: string,
                 fiscalMonth: Date -> RangeId, fiscalYear: Date -> RangeId,
                 lines: seq<MonthlyRevenue>, splits: seq<RevenueSplit>)
    requires Valid(sd) && Valid(start) && Valid(ed)
    requires WalkedSoFar(sd, start, ed, done, totalDays, prorated, probability, unit, fiscalMonth, fiscalYear, lines, splits)
    ensures var seg := Segment(start, SegmentEnd(start, ed));
      var line := ComputedLine(seg, totalDays, prorated, probability, fiscalMonth, fiscalYear);
      var next := NextDay(seg.end);
      Valid(next) &&
      (After(next, ed) ==>
        Segments(sd, ed) == done + [seg] &&
        lines + [line] == LinesOf(done + [seg], totalDays, prorated, probability, fiscalMonth, fiscalYear) &&
        splits + [SplitLine(line.month, line.expectedRevenue, unit)] == SplitsOf(lines + [line], unit)) &&
      (!After(next, ed) ==>
        Ordinal(start) < Ordinal(next) <= Ordinal(ed) &&
        WalkedSoFar(sd, next, ed, done + [seg], totalDays, prorated, probability, unit, fiscalMonth, fiscalYear,
                    lines + [line], splits + [SplitLine(line.month, line.expectedRevenue, unit)]))
  {
    var seg := Segment(start, SegmentEnd(start, ed));
    var line := ComputedLine(seg, totalDays, prorated, probability, fiscalMonth, fiscalYear);
    if After(NextDay(seg.end), ed) {
      WalkStop(sd, start, ed, done);
    } else {
      WalkContinue(sd, start, ed, done);
    }
    LinesOfSnoc(done, seg, totalDays, prorated, probability, fiscalMonth, fiscalYear);
    SplitsOfSnoc(lines, line, unit);
  }

  /**
   * The loop of `update_monthly_revenue`: walks [sd, ed] one month at a time and
   * emits an expected-revenue line and a split record per month. It fails with
   * a division by zero exactly when `total_days` is 0.
   */
  method WalkMonths(sd: Date, ed: Date, prorated: real, probability: real, unit: string,
                    fiscalMonth: Date -> RangeId, fiscalYear: Date -> RangeId)
    returns (r: Result<Generated, LeadError>)
    requires Valid(sd) && Valid(ed)
    ensures r.Failure? <==> TotalDays(sd, ed) == 0
    ensures r.Failure? ==> r.error == DivisionByZero
    ensures r.Success? ==>
      TotalDays(sd, ed) != 0 &&
      r.value.lines == ComputedLines(sd, ed, prorated, probability, fiscalMonth, fiscalYear) &&
      r.value.splits == SplitsOf(r.value.lines, unit)
  {
    var start := sd;
    var monthEnd := PrevDay(FirstOfMonth(AddMonths(start, 1)));
    MonthEndFormula(start);
    if After(monthEnd, ed) {
      monthEnd := ed;
    }
    var lines: seq<MonthlyRevenue> := [];
    var splits: seq<RevenueSplit> := [];
    var totalDays := Ordinal(ed) - Ordinal(start) + 1;
    if totalDays == 0 {
      // the first pass divides by `total_days`
      return Failure(DivisionByZero);
    }
    ghost var done: seq<Segment> := [];
    while true
      invariant Valid(start) && monthEnd == SegmentEnd(start, ed)
      invariant WalkedSoFar(sd, start, ed, done, totalDays, prorated, probability, unit, fiscalMonth, fiscalYear, lines, splits)
      decreases Ordinal(ed) - Ordinal(start)
    {
      var next := NextDay(monthEnd);
      WalkStep(sd, start, ed, done, totalDays, prorated, probability, unit, fiscalMonth, fiscalYear, lines, splits);
      var line, split := EmitMonth(start, monthEnd, totalDays, prorated, probability, unit, fiscalMonth, fiscalYear);
      lines := lines + [line];
      splits := splits + [split];
      done := done + [Segment(start, monthEnd)];
      start := next;
      monthEnd := PrevDay(FirstOfMonth(AddMonths(start, 1)));
      MonthEndFormula(start);
      if After(start, ed) {
        break;
      }
      if After(monthEnd, ed) {
        monthEnd := ed;
      }
    }
    return Success(Generated(lines, splits));
  }

  // ---------------------------------------------------------------------
  // What `update_monthly_revenue` leaves behind

  /** The outcome of `update_monthly_revenue` with the lines and split records it leaves. */
  datatype Regeneration = Regeneration(outcome: Outcome<LeadError>, lines: seq<MonthlyRevenue>, splits: seq<RevenueSplit>)

  /**
   * `update_monthly_revenue` on a lead with these dates, revenue, probability,
   * operating unit, lines and split records. With both dates set and a nonzero
   * `total_days`, the lines become the generated ones followed by the manual
   * ones, and the split records those of the generated lines.
   */
  function Regenerate(start: Option<Date>, end: Option<Date>, prorated: real, probability: real, unit: string,
                      lines: seq<MonthlyRevenue>, splits: seq<RevenueSplit>,
                      fiscalMonth: Date -> RangeId, fiscalYear: Date -> RangeId): Regeneration
    requires start.Some? ==> Valid(start.value)
    requires end.Some? ==> Valid(end.value)
  {
    if start.None? || end.None? then Regeneration(Pass, lines, splits)
    else if TotalDays(start.value, end.value) == 0 then Regeneration(Fail(DivisionByZero), lines, splits)
    else
      var generated := ComputedLines(start.value, end.value, prorated, probability, fiscalMonth, fiscalYear);
      Regeneration(Pass, generated + ManualLines(lines), SplitsOf(generated, unit))
  }

  /**
   * A regeneration keeps exactly the manual lines. With a date unset it changes
   * nothing; with a zero `total_days` it changes nothing and reports the
   * division by zero; otherwise every other line it leaves is a generated one,
   * and there is a split record per generated line.
   */
  lemma {:induction false} RegenerateKeepsManual(start: Option<Date>, end: Option<Date>, prorated: real, probability: real, unit: string,
                              lines: seq<MonthlyRevenue>, splits: seq<RevenueSplit>,
                              fiscalMonth: Date -> RangeId, fiscalYear: Date -> RangeId)
    requires start.Some? ==> Valid(start.value)
    requires end.Some? ==> Valid(end.value)
    ensures var g := Regenerate(start, end, prorated, probability, unit, lines, splits, fiscalMonth, fiscalYear);
      ManualLines(g.lines) == ManualLines(lines)
    ensures var g := Regenerate(start, end, prorated, probability, unit, lines, splits, fiscalMonth, fiscalYear);
      start.None? || end.None? ==> g == Regeneration(Pass, lines, splits)
    ensures var g := Regenerate(start, end, prorated, probability, unit, lines, splits, fiscalMonth, fiscalYear);
      start.Some? && end.Some? && TotalDays(start.value, end.value) == 0 ==>
        g == Regeneration(Fail(DivisionByZero), lines, splits)
    ensures var g := Regenerate(start, end, prorated, probability, unit, lines, splits, fiscalMonth, fiscalYear);
      start.Some? && end.Some? && TotalDays(start.value, end.value) != 0 ==>
        g.outcome == Pass &&
        |g.splits| == |g.lines| - |ManualLines(lines)| &&
        (forall i :: 0 <= i < |g.splits| ==> g.lines[i].computed && g.splits[i].totalRevenue == g.lines[i].expectedRevenue)
  {
    if start.Some? && end.Some? && TotalDays(start.value, end.value) != 0 {
      ComputedLinesAreComputed(start.value, end.value, prorated, probability, fiscalMonth, fiscalYear);
      ComputedThenManual(ComputedLines(start.value, end.value, prorated, probability, fiscalMonth, fiscalYear), lines, unit);
    }
  }

  // ---------------------------------------------------------------------
  // The lead

  class Lead {
    var startDate: Option<Date>
    var endDate: Option<Date>
    var proratedRevenue: real
    var probability: real
    var operatingUnit: string
    var monthlyRevenues: seq<MonthlyRevenue>
    var revenueSplits: seq<RevenueSplit>
    var showButton: bool
    var latestRevenueDate: Option<Date>

    /** Dates that are set are real dates. */
    ghost predicate Valid()
      reads this`startDate, this`endDate
    {
      (startDate.Some? ==> Dates.Valid(startDate.value)) && (endDate.Some? ==> Dates.Valid(endDate.value))
    }

    /**
     * `create`: the record holds the given values, and when some of its lines
     * carry a date the latest of them becomes the latest revenue date.
     */
    constructor Create(start: Option<Date>, end: Option<Date>, prorated: real, probability: real,
                       unit: string, lines: seq<MonthlyRevenue>, splits: seq<RevenueSplit>,
                       showButton: bool, latest: Option<Date>)
      requires start.Some? ==> Dates.Valid(start.value)
      requires end.Some? ==> Dates.Valid(end.value)
      ensures Valid()
      ensures startDate == start && endDate == end && proratedRevenue == prorated
      ensures this.probability == probability && operatingUnit == unit
      ensures monthlyRevenues == lines && revenueSplits == splits && this.showButton == showButton
      ensures latestRevenueDate == if LatestLineDate(lines).Some? then LatestLineDate(lines) else latest
    {
      startDate, endDate, proratedRevenue, this.probability := start, end, prorated, probability;
      operatingUnit, monthlyRevenues, revenueSplits, this.showButton := unit, lines, splits, showButton;
      var dated := LatestLineDate(lines);
      latestRevenueDate := if dated.Some? then dated else latest;
    }

    /** The probability change of a stage change, copied to every monthly line. */
    method ApplyProbability(p: real)
      modifies this`monthlyRevenues
      ensures monthlyRevenues == WithPercentage(old(monthlyRevenues), p)
    {
      var i := 0;
      while i < |monthlyRevenues|
        invariant 0 <= i <= |monthlyRevenues| == |old(monthlyRevenues)|
        invariant forall k :: 0 <= k < i ==> monthlyRevenues[k] == old(monthlyRevenues)[k].(percentage := p)
        invariant forall k :: i <= k < |monthlyRevenues| ==> monthlyRevenues[k] == old(monthlyRevenues)[k]
      {
        monthlyRevenues := monthlyRevenues[i := monthlyRevenues[i].(percentage := p)];
        i := i + 1;
      }
    }

    /** `onchange_operating_unit_id`: each split record is reassigned to the lead's unit. */
    method OnchangeOperatingUnit()
      modifies this`revenueSplits
      ensures revenueSplits == AssignUnitAll(old(revenueSplits), operatingUnit)
    {
      var i := 0;
      while i < |revenueSplits|
        invariant 0 <= i <= |revenueSplits| == |old(revenueSplits)|
        invariant forall k :: 0 <= k < i ==> revenueSplits[k] == AssignUnit(old(revenueSplits)[k], operatingUnit)
        invariant forall k :: i <= k < |revenueSplits| ==> revenueSplits[k] == old(revenueSplits)[k]
      {
        var rec := revenueSplits[i];
        rec := rec.(blue := EntityShare(0.0, 0.0), red := EntityShare(0.0, 0.0),
                    green := EntityShare(0.0, 0.0), black := EntityShare(0.0, 0.0));
        if operatingUnit == EntityName(Blue) {
          rec := rec.(blue := EntityShare(100.0, rec.totalRevenue));
        }
        if operatingUnit == EntityName(Red) {
          rec := rec.(red := EntityShare(100.0, rec.totalRevenue));
        }
        if operatingUnit == EntityName(Green) {
          rec := rec.(green := EntityShare(100.0, rec.totalRevenue));
        }
        if operatingUnit == EntityName(Black) {
          rec := rec.(black := EntityShare(100.0, rec.totalRevenue));
        }
        revenueSplits := revenueSplits[i := rec];
        i := i + 1;
      }
    }

    /** `onchange_monthly_revenue_ids`: the button shows exactly when the rounded totals differ. */
    method OnchangeMonthlyRevenues()
      modifies this`showButton
      ensures showButton == TotalsDiffer(monthlyRevenues, proratedRevenue)
    {
      if Round2(SumExpected(monthlyRevenues)) != Round2(proratedRevenue) {
        showButton := true;
      } else {
        showButton := false;
      }
    }

    /**
     * `recalculate_total`: when the rounded totals differ, the rounded line sum
     * becomes the prorated revenue and the button is hidden; otherwise nothing
     * changes. Afterwards the totals never differ.
     */
    method RecalculateTotal()
      modifies this`proratedRevenue, this`showButton
      ensures old(TotalsDiffer(monthlyRevenues, proratedRevenue)) ==>
        proratedRevenue == Round2(SumExpected(monthlyRevenues)) && !showButton
      ensures !old(TotalsDiffer(monthlyRevenues, proratedRevenue)) ==>
        proratedRevenue == old(proratedRevenue) && showButton == old(showButton)
      ensures !TotalsDiffer(monthlyRevenues, proratedRevenue)
    {
      if Round2(SumExpected(monthlyRevenues)) != Round2(proratedRevenue) {
        proratedRevenue := Round2(SumExpected(monthlyRevenues));
        showButton := false;
        RecalculatedTotalsAgree(monthlyRevenues);
      }
    }

    /**
     * `update_monthly_revenue`. With both dates set, the computed lines are
     * regenerated for [start, end] and followed by the manual lines, and one
     * split record is generated per computed line. With a date unset nothing
     * changes; when start is the day after end the division by `total_days`
     * fails and nothing changes.
     */
    method UpdateMonthlyRevenue(fiscalMonth: Date -> RangeId, fiscalYear: Date -> RangeId)
      returns (r: Outcome<LeadError>)
      requires Valid()
      modifies this`monthlyRevenues, this`revenueSplits
      ensures Regeneration(r, monthlyRevenues, revenueSplits) ==
        Regenerate(old(startDate), old(endDate), old(proratedRevenue), old(probability), old(operatingUnit),
                   old(monthlyRevenues), old(revenueSplits), fiscalMonth, fiscalYear)
    {
      r := Pass;
      if startDate.Some? && endDate.Some? {
        var sd, ed := startDate.value, endDate.value;
        var manual := ManualLines(monthlyRevenues);
        var walk := WalkMonths(sd, ed, proratedRevenue, probability, operatingUnit, fiscalMonth, fiscalYear);
        if walk.Failure? {
          r := Fail(walk.error);
        } else {
          monthlyRevenues := walk.value.lines + manual;
          revenueSplits := walk.value.splits;
        }
      }
    }

    /**
     * `onchange_date`: a new lead whose start is after its end gets its end moved
     * to its start; then the lines are regenerated. Comparing a set start with
     * an unset end raises, and then nothing changes.
     */
    method OnchangeDate(originEnd: Option<Date>, fiscalMonth: Date -> RangeId, fiscalYear: Date -> RangeId)
      returns (r: Outcome<LeadError>)
      requires Valid()
      modifies this`endDate, this`monthlyRevenues, this`revenueSplits
      ensures Valid()
      ensures old(startDate).Some? && originEnd.None? && old(endDate).None? ==>
        r == Fail(Incomparable) && endDate == old(endDate) &&
        monthlyRevenues == old(monthlyRevenues) && revenueSplits == old(revenueSplits)
      ensures !(old(startDate).Some? && originEnd.None? && old(endDate).None?) ==>
        var end := if old(startDate).Some? && originEnd.None? && After(old(startDate).value, old(endDate).value)
                   then old(startDate) else old(endDate);
        endDate == end &&
        Regeneration(r, monthlyRevenues, revenueSplits) ==
          Regenerate(old(startDate), end, old(proratedRevenue), old(probability), old(operatingUnit),
                     old(monthlyRevenues), old(revenueSplits), fiscalMonth, fiscalYear)
      ensures old(startDate).Some? && originEnd.None? && r.Pass? ==>
        endDate.Some? && !After(old(startDate).value, endDate.value) &&
        TotalDays(old(startDate).value, endDate.value) >= 1
    {
      if startDate.Some? && originEnd.None? {
        if endDate.None? {
          return Fail(Incomparable);
        }
        if After(startDate.value, endDate.value) {
          endDate := startDate;
        }
        OrdinalOrder(startDate.value, endDate.value);
      }
      r := UpdateMonthlyRevenue(fiscalMonth, fiscalYear);
    }
  }
}

/**
 * The monthly revenue proration of a CRM lead, as pure values: the range
 * [start, end] is cut into per-month segments, and each segment yields an
 * expected-revenue line and a revenue-split record.
 */
module Proration {
  import opened Wrappers
  import opened Dates

  /** The id of a fiscal `date.range` record found by a lookup, or None when none is found. */
  type RangeId = Option<nat>

  /** One step of the walk over the date range: the days start..end of one month. */
  datatype Segment = Segment(start: Date, end: Date)

  /** The "N day(s) (a-b Month)" label; the month is kept as its number. */
  datatype DurationLabel = DurationLabel(days: int, plural: bool, firstDay: int, lastDay: int, month: int)

  /** A `crm.monthly.revenue` line. */
  datatype MonthlyRevenue = MonthlyRevenue(
    date: Option<Date>,
    latestRevenueDate: Option<Date>,
    year: RangeId,
    month: RangeId,
    duration: Option<DurationLabel>,
    weightedRevenue: real,
    expectedRevenue: real,
    computed: bool,
    percentage: real)

  /** The four operating units a split record can attribute revenue to. */
  datatype Entity = Blue | Red | Green | Black

  function EntityName(e: Entity): string {
    match e
    case Blue => "Magnus Blue B.V."
    case Red => "Magnus Red B.V."
    case Green => "Magnus Green B.V."
    case Black => "Magnus Black B.V."
  }

  /** The percentage and amount of one operating unit in a split record. */
  datatype EntityShare = EntityShare(per: real, amount: real)

  /** A `crm.revenue.split` record. */
  datatype RevenueSplit = RevenueSplit(
    month: RangeId,
    totalRevenue: real,
    totalRevenuePer: real,
    blue: EntityShare,
    red: EntityShare,
    green: EntityShare,
    black: EntityShare)

  function Share(r: RevenueSplit, e: Entity): EntityShare {
    match e
    case Blue => r.blue
    case Red => r.red
    case Green => r.green
    case Black => r.black
  }

  // ---------------------------------------------------------------------
  // Segments

  predicate ValidSegment(s: Segment) {
    Valid(s.start) && Valid(s.end)
  }

  /** `(end - start).days + 1`. */
  function Days(s: Segment): int
    requires ValidSegment(s)
  {
    Ordinal(s.end) - Ordinal(s.start) + 1
  }

  /** `total_days = (ed - sd).days + 1`. */
  function TotalDays(sd: Date, ed: Date): int
    requires Valid(sd) && Valid(ed)
  {
    Ordinal(ed) - Ordinal(sd) + 1
  }

  /** Where the segment that starts on `sd` ends: its month's last day, or `ed` if that is earlier. */
  function SegmentEnd(sd: Date, ed: Date): (e: Date)
    requires Valid(sd) && Valid(ed)
    ensures Valid(e)
  {
    var me := MonthEnd(sd);
    if After(me, ed) then ed else me
  }

  lemma {:induction false} SegmentEndFacts(sd: Date, ed: Date)
    requires Valid(sd) && Valid(ed)
    ensures Ordinal(SegmentEnd(sd, ed)) <= Ordinal(ed)
    ensures Ordinal(sd) <= Ordinal(ed) ==>
      Ordinal(sd) <= Ordinal(SegmentEnd(sd, ed)) &&
      SegmentEnd(sd, ed).year == sd.year && SegmentEnd(sd, ed).month == sd.month
    ensures Ordinal(NextDay(SegmentEnd(sd, ed))) == Ordinal(SegmentEnd(sd, ed)) + 1
    ensures !After(NextDay(SegmentEnd(sd, ed)), ed) ==>
      SegmentEnd(sd, ed) == MonthEnd(sd) && Ordinal(sd) < Ordinal(NextDay(SegmentEnd(sd, ed))) <= Ordinal(ed)
    ensures After(NextDay(SegmentEnd(sd, ed)), ed) && Ordinal(sd) <= Ordinal(ed) ==> SegmentEnd(sd, ed) == ed
    ensures Ordinal(sd) > Ordinal(ed) ==> SegmentEnd(sd, ed) == ed && After(NextDay(SegmentEnd(sd, ed)), ed)
  {
    var me := MonthEnd(sd);
    var e := SegmentEnd(sd, ed);
    OrdinalOrder(me, ed);
    WithinMonth(sd);
    NextDayOrdinal(e);
    OrdinalOrder(NextDay(e), ed);
    if Ordinal(sd) <= Ordinal(ed) && e == ed {
      // ed lies between sd and the end of sd's month, so it is in sd's month
      OrdinalOrder(ed, Date(sd.year, sd.month, 1));
      OrdinalOrder(ed, me);
    }
  }

  /**
   * The segments the loop of `update_monthly_revenue` walks through, in order.
   * The first starts on `sd`; each next one starts the day after the previous
   * one ends, and the walk stops once that day is after `ed`.
   */
  function Segments(sd: Date, ed: Date): (segs: seq<Segment>)
    requires Valid(sd) && Valid(ed)
    ensures |segs| >= 1 && segs[0] == Segment(sd, SegmentEnd(sd, ed))
    ensures forall i :: 0 <= i < |segs| ==> ValidSegment(segs[i])
    decreases Ordinal(ed) - Ordinal(sd)
  {
    var e := SegmentEnd(sd, ed);
    var next := NextDay(e);
    if After(next, ed) then [Segment(sd, e)]
    else
      SegmentEndFacts(sd, ed);
      [Segment(sd, e)] + Segments(next, ed)
  }

  /** Each segment ends at the last day of its start's month or at `ed`, whichever is earlier. */
  lemma {:induction false} SegmentsEnd(sd: Date, ed: Date, i: int)
    requires Valid(sd) && Valid(ed)
    requires 0 <= i < |Segments(sd, ed)|
    ensures var s := Segments(sd, ed)[i];
      s.end == (if After(MonthEnd(s.start), ed) then ed else MonthEnd(s.start))
    decreases Ordinal(ed) - Ordinal(sd)
  {
    if i > 0 {
      SegmentsShift(sd, ed, i);
      SegmentsEnd(NextDay(SegmentEnd(sd, ed)), ed, i - 1);
    }
  }

  /** Past the first segment, the walk continues from the day after the first segment's end. */
  lemma {:induction false} SegmentsTail(sd: Date, ed: Date)
    requires Valid(sd) && Valid(ed) && |Segments(sd, ed)| > 1
    ensures !After(NextDay(SegmentEnd(sd, ed)), ed)
    ensures Segments(sd, ed)[0] == Segment(sd, SegmentEnd(sd, ed))
    ensures Segments(sd, ed)[1..] == Segments(NextDay(SegmentEnd(sd, ed)), ed)
    ensures Ordinal(sd) < Ordinal(NextDay(SegmentEnd(sd, ed))) <= Ordinal(ed)
    ensures NextDay(SegmentEnd(sd, ed)) == FirstOfMonth(AddMonths(sd, 1))
  {
    SegmentEndFacts(sd, ed);
    AfterMonthEnd(sd);
  }

  /** Past the first, the i-th segment is segment i-1 of the walk that starts the day after the first one ends. */
  lemma {:induction false} SegmentsShift(sd: Date, ed: Date, i: int)
    requires Valid(sd) && Valid(ed)
    requires 0 < i < |Segments(sd, ed)|
    ensures !After(NextDay(SegmentEnd(sd, ed)), ed)
    ensures Ordinal(sd) < Ordinal(NextDay(SegmentEnd(sd, ed))) <= Ordinal(ed)
    ensures i - 1 < |Segments(NextDay(SegmentEnd(sd, ed)), ed)|
    ensures Segments(sd, ed)[i] == Segments(NextDay(SegmentEnd(sd, ed)), ed)[i - 1]
  {
    SegmentEndFacts(sd, ed);
    var rest := Segments(NextDay(SegmentEnd(sd, ed)), ed);
    assert Segments(sd, ed) == [Segment(sd, SegmentEnd(sd, ed))] + rest;
  }

  /**
   * When sd <= ed every segment lies inside one calendar month, starts no later
   * than it ends, and lies within [sd, ed].
   */
  lemma {:induction false} SegmentsWithinMonth(sd: Date, ed: Date, i: int)
    requires Valid(sd) && Valid(ed) && Ordinal(sd) <= Ordinal(ed)
    requires 0 <= i < |Segments(sd, ed)|
    ensures var s := Segments(sd, ed)[i];
      s.start.year == s.end.year && s.start.month == s.end.month &&
      Ordinal(sd) <= Ordinal(s.start) <= Ordinal(s.end) <= Ordinal(ed)
    decreases Ordinal(ed) - Ordinal(sd)
  {
    if i == 0 {
      SegmentEndFacts(sd, ed);
    } else {
      SegmentsShift(sd, ed, i);
      SegmentsWithinMonth(NextDay(SegmentEnd(sd, ed)), ed, i - 1);
    }
  }

  /** Every segment but the first starts on the first day of its month. */
  lemma {:induction false} SegmentsStartMonth(sd: Date, ed: Date, i: int)
    requires Valid(sd) && Valid(ed)
    requires 0 < i < |Segments(sd, ed)|
    ensures Segments(sd, ed)[i].start.day == 1
    decreases Ordinal(ed) - Ordinal(sd)
  {
    SegmentsTail(sd, ed);
    SegmentsShift(sd, ed, i);
    if i > 1 {
      SegmentsStartMonth(NextDay(SegmentEnd(sd, ed)), ed, i - 1);
    }
  }

  /** Segments are contiguous: each starts the day after the previous one ends. */
  lemma {:induction false} SegmentsContiguous(sd: Date, ed: Date, i: int)
    requires Valid(sd) && Valid(ed)
    requires 0 <= i && i + 1 < |Segments(sd, ed)|
    ensures Segments(sd, ed)[i + 1].start == NextDay(Segments(sd, ed)[i].end)
    decreases Ordinal(ed) - Ordinal(sd)
  {
    SegmentsShift(sd, ed, i + 1);
    if i > 0 {
      SegmentsShift(sd, ed, i);
      SegmentsContiguous(NextDay(SegmentEnd(sd, ed)), ed, i - 1);
    }
  }

  /** When sd <= ed the last segment ends on `ed`; otherwise there is the single segment (sd, ed). */
  lemma {:induction false} SegmentsLast(sd: Date, ed: Date)
    requires Valid(sd) && Valid(ed)
    ensures Ordinal(sd) <= Ordinal(ed) ==> Segments(sd, ed)[|Segments(sd, ed)| - 1].end == ed
    ensures Ordinal(sd) > Ordinal(ed) ==> Segments(sd, ed) == [Segment(sd, ed)]
    decreases Ordinal(ed) - Ordinal(sd)
  {
    var e := SegmentEnd(sd, ed);
    var next := NextDay(e);
    SegmentEndFacts(sd, ed);
    if !After(next, ed) {
      var rest := Segments(next, ed);
      assert Segments(sd, ed) == [Segment(sd, e)] + rest;
      SegmentsLast(next, ed);
      LastOfAppend([Segment(sd, e)], rest);
    }
  }

  lemma {:induction false} LastOfAppend<T>(a: seq<T>, b: seq<T>)
    requires |b| > 0
    ensures (a + b)[|a + b| - 1] == b[|b| - 1]
  {
  }

  function SumDays(segs: seq<Segment>): int
    requires forall i :: 0 <= i < |segs| ==> ValidSegment(segs[i])
  {
    if segs == [] then 0 else SumDays(segs[..|segs| - 1]) + Days(segs[|segs| - 1])
  }

  lemma {:induction false} SumDaysAppend(a: seq<Segment>, b: seq<Segment>)
    requires forall i :: 0 <= i < |a| ==> ValidSegment(a[i])
    requires forall i :: 0 <= i < |b| ==> ValidSegment(b[i])
    ensures SumDays(a + b) == SumDays(a) + SumDays(b)
    decreases |b|
  {
    if b == [] {
      assert a + b == a;
    } else {
      assert (a + b)[..|a + b| - 1] == a + b[..|b| - 1];
      assert (a + b)[|a + b| - 1] == b[|b| - 1];
      SumDaysAppend(a, b[..|b| - 1]);
    }
  }

  /** The days of all segments add up to `total_days`, whatever the order of sd and ed. */
  lemma {:induction false} SegmentsCoverRange(sd: Date, ed: Date)
    requires Valid(sd) && Valid(ed)
    ensures SumDays(Segments(sd, ed)) == TotalDays(sd, ed)
    decreases Ordinal(ed) - Ordinal(sd)
  {
    var e := SegmentEnd(sd, ed);
    var next := NextDay(e);
    SegmentEndFacts(sd, ed);
    assert SumDays([Segment(sd, e)]) == Days(Segment(sd, e));
    if !After(next, ed) {
      SegmentsCoverRange(next, ed);
      SumDaysAppend([Segment(sd, e)], Segments(next, ed));
    } else {
      OrdinalOrder(next, ed);
      OrdinalOrder(e, ed);
      if Ordinal(sd) <= Ordinal(ed) {
        assert e == ed;
      } else {
        OrdinalOrder(MonthEnd(sd), ed);
        WithinMonth(sd);
      }
    }
  }

  /** When sd <= ed there is one segment per calendar month from sd's month to ed's. */
  lemma {:induction false} SegmentsPerMonth(sd: Date, ed: Date)
    requires Valid(sd) && Valid(ed) && Ordinal(sd) <= Ordinal(ed)
    ensures |Segments(sd, ed)| == MonthIndex(ed) - MonthIndex(sd) + 1
    decreases Ordinal(ed) - Ordinal(sd)
  {
    var e := SegmentEnd(sd, ed);
    var next := NextDay(e);
    SegmentEndFacts(sd, ed);
    if !After(next, ed) {
      AfterMonthEnd(sd);
      SegmentsPerMonth(next, ed);
    } else {
      OrdinalOrder(next, ed);
      OrdinalOrder(e, ed);
    }
  }

  // ---------------------------------------------------------------------
  // Lines and split records

  /** `prorated_revenue * days_per_month / total_days`, in exact arithmetic. */
  function Portion(amount: real, days: int, total: int): real
    requires total != 0
  {
    amount * (days as real) / (total as real)
  }

  /** A month's portion of a nonnegative revenue lies between 0 and the whole revenue. */
  lemma {:induction false} PortionBounds(amount: real, days: int, total: int)
    requires total != 0 && 0 <= days <= total && 0.0 <= amount
    ensures 0.0 <= Portion(amount, days, total) <= amount
  {
    var t := total as real;
    assert 0.0 <= amount * (days as real) <= amount * t;
    assert amount * t / t == amount;
  }

  /** `((days / total) * prorated_revenue) * (probability / 100)`, in exact arithmetic. */
  function WeightedPortion(amount: real, days: int, total: int, probability: real): real
    requires total != 0
  {
    ((days as real) / (total as real) * amount) * (probability / 100.0)
  }

  /** The weighted revenue is the portion scaled by the probability. */
  lemma {:induction false} WeightedIsScaledPortion(amount: real, days: int, total: int, probability: real)
    requires total != 0
    ensures WeightedPortion(amount, days, total, probability) == Portion(amount, days, total) * probability / 100.0
  {
    var x := (days as real) / (total as real);
    assert amount * (days as real) / (total as real) == amount * x;
  }

  /**
   * The line the loop emits for one segment: its revenue is the segment's share
   * `prorated * days / total` of the lead's revenue, and its weighted revenue
   * that share scaled by the probability.
   */
  function ComputedLine(s: Segment, total: int, prorated: real, probability: real,
                        fiscalMonth: Date -> RangeId, fiscalYear: Date -> RangeId): (l: MonthlyRevenue)
    requires ValidSegment(s) && total != 0
    ensures l.computed && l.percentage == probability && l.date == Some(s.end)
    ensures l.expectedRevenue == Portion(prorated, Days(s), total)
    ensures l.weightedRevenue == WeightedPortion(prorated, Days(s), total, probability)
    ensures l.duration.Some? && l.duration.value.days == Days(s) && (l.duration.value.plural <==> Days(s) > 1)
  {
    var days := Days(s);
    var expected := Portion(prorated, days, total);
    var weighted := WeightedPortion(prorated, days, total, probability);
    MonthlyRevenue(
      Some(s.end),
      Some(PrevDay(FirstOfMonth(s.end))),
      fiscalYear(s.end),
      fiscalMonth(s.end),
      Some(DurationLabel(days, days > 1, s.start.day, s.end.day, s.start.month)),
      weighted,
      expected,
      true,
      probability)
  }

  /** The lines of a sequence of segments, one per segment and in the same order. */
  function LinesOf(segs: seq<Segment>, total: int, prorated: real, probability: real,
                   fiscalMonth: Date -> RangeId, fiscalYear: Date -> RangeId): (ls: seq<MonthlyRevenue>)
    requires forall i :: 0 <= i < |segs| ==> ValidSegment(segs[i])
    requires total != 0
    ensures |ls| == |segs|
  {
    if segs == [] then []
    else
      LinesOf(segs[..|segs| - 1], total, prorated, probability, fiscalMonth, fiscalYear) +
      [ComputedLine(segs[|segs| - 1], total, prorated, probability, fiscalMonth, fiscalYear)]
  }

  /** The i-th line is the line of the i-th segment. */
  lemma {:induction false} LinesOfAt(segs: seq<Segment>, total: int, prorated: real, probability: real,
                                     fiscalMonth: Date -> RangeId, fiscalYear: Date -> RangeId, i: int)
    requires forall k :: 0 <= k < |segs| ==> ValidSegment(segs[k])
    requires total != 0 && 0 <= i < |segs|
    ensures LinesOf(segs, total, prorated, probability, fiscalMonth, fiscalYear)[i]
            == ComputedLine(segs[i], total, prorated, probability, fiscalMonth, fiscalYear)
    decreases |segs|
  {
    var init := segs[..|segs| - 1];
    if i < |segs| - 1 {
      assert init[i] == segs[i];
      LinesOfAt(init, total, prorated, probability, fiscalMonth, fiscalYear, i);
    }
  }

  /** The expected-revenue lines that `update_monthly_revenue` generates for [sd, ed]. */
  function ComputedLines(sd: Date, ed: Date, prorated: real, probability: real,
                         fiscalMonth: Date -> RangeId, fiscalYear: Date -> RangeId): (ls: seq<MonthlyRevenue>)
    requires Valid(sd) && Valid(ed) && TotalDays(sd, ed) != 0
    ensures |ls| == |Segments(sd, ed)|
  {
    LinesOf(Segments(sd, ed), TotalDays(sd, ed), prorated, probability, fiscalMonth, fiscalYear)
  }

  /** Every generated line is a computed one. */
  lemma {:induction false} ComputedLinesAreComputed(sd: Date, ed: Date, prorated: real, probability: real,
                                                    fiscalMonth: Date -> RangeId, fiscalYear: Date -> RangeId)
    requires Valid(sd) && Valid(ed) && TotalDays(sd, ed) != 0
    ensures var ls := ComputedLines(sd, ed, prorated, probability, fiscalMonth, fiscalYear);
      forall i :: 0 <= i < |ls| ==> ls[i].computed
  {
    var ls := ComputedLines(sd, ed, prorated, probability, fiscalMonth, fiscalYear);
    forall i | 0 <= i < |ls| ensures ls[i].computed {
      LinesOfAt(Segments(sd, ed), TotalDays(sd, ed), prorated, probability, fiscalMonth, fiscalYear, i);
    }
  }

  /** The share of operating unit `e` when the lead's unit is named `unit` and the amount is `amount`. */
  function UnitShare(unit: string, e: Entity, amount: real): EntityShare {
    if unit == EntityName(e) then EntityShare(100.0, amount) else EntityShare(0.0, 0.0)
  }

  /** A split record for a line: 100 % to the lead's operating unit, if it is one of the four. */
  function SplitLine(month: RangeId, amount: real, unit: string): (r: RevenueSplit)
    ensures r.month == month && r.totalRevenue == amount && r.totalRevenuePer == 100.0
    ensures forall e :: Share(r, e) == (if unit == EntityName(e) then EntityShare(100.0, amount) else EntityShare(0.0, 0.0))
  {
    RevenueSplit(month, amount, 100.0,
      UnitShare(unit, Blue, amount), UnitShare(unit, Red, amount),
      UnitShare(unit, Green, amount), UnitShare(unit, Black, amount))
  }

  /**
   * `onchange_operating_unit_id` on one record: every share is reset, then the
   * unit named like the lead's operating unit gets 100 % of the record's total.
   */
  function AssignUnit(rec: RevenueSplit, unit: string): (r: RevenueSplit)
    ensures r.month == rec.month && r.totalRevenue == rec.totalRevenue && r.totalRevenuePer == rec.totalRevenuePer
    ensures forall e :: Share(r, e) == (if unit == EntityName(e) then EntityShare(100.0, rec.totalRevenue) else EntityShare(0.0, 0.0))
  {
    rec.(blue := UnitShare(unit, Blue, rec.totalRevenue), red := UnitShare(unit, Red, rec.totalRevenue),
         green := UnitShare(unit, Green, rec.totalRevenue), black := UnitShare(unit, Black, rec.totalRevenue))
  }

  /** The split records that go with a sequence of computed lines. */
  function SplitsOf(lines: seq<MonthlyRevenue>, unit: string): (rs: seq<RevenueSplit>)
    ensures |rs| == |lines|
  {
    if lines == [] then []
    else SplitsOf(lines[..|lines| - 1], unit) + [SplitLine(lines[|lines| - 1].month, lines[|lines| - 1].expectedRevenue, unit)]
  }

  /** The i-th split record is the one of the i-th line. */
  lemma {:induction false} SplitsOfAt(lines: seq<MonthlyRevenue>, unit: string, i: int)
    requires 0 <= i < |lines|
    ensures SplitsOf(lines, unit)[i] == SplitLine(lines[i].month, lines[i].expectedRevenue, unit)
    decreases |lines|
  {
    var init := lines[..|lines| - 1];
    if i < |lines| - 1 {
      assert init[i] == lines[i];
      SplitsOfAt(init, unit, i);
    }
  }

  /** Each split record carries the expected revenue of its line. */
  lemma {:induction false} SplitsOfTotals(lines: seq<MonthlyRevenue>, unit: string)
    ensures forall i :: 0 <= i < |lines| ==> SplitsOf(lines, unit)[i].totalRevenue == lines[i].expectedRevenue
  {
    forall i | 0 <= i < |lines| ensures SplitsOf(lines, unit)[i].totalRevenue == lines[i].expectedRevenue {
      SplitsOfAt(lines, unit, i);
    }
  }

  /** At most one operating unit of a split record gets a nonzero percentage. */
  lemma {:induction false} AtMostOneUnit(month: RangeId, amount: real, unit: string, e1: Entity, e2: Entity)
    requires Share(SplitLine(month, amount, unit), e1).per != 0.0
    requires Share(SplitLine(month, amount, unit), e2).per != 0.0
    ensures e1 == e2
  {
  }

  /** The operating-unit onchange leaves the records `update_monthly_revenue` generated as they are. */
  lemma {:induction false} AssignUnitFixesSplit(month: RangeId, amount: real, unit: string)
    ensures AssignUnit(SplitLine(month, amount, unit), unit) == SplitLine(month, amount, unit)
  {
  }

  /** Applying the operating-unit onchange twice is the same as once. */
  lemma {:induction false} AssignUnitIdempotent(rec: RevenueSplit, unit: string)
    ensures AssignUnit(AssignUnit(rec, unit), unit) == AssignUnit(rec, unit)
  {
  }

  // ---------------------------------------------------------------------
  // Sums

  function SumExpected(lines: seq<MonthlyRevenue>): real {
    if lines == [] then 0.0 else SumExpected(lines[..|lines| - 1]) + lines[|lines| - 1].expectedRevenue
  }

  lemma {:induction false} SumExpectedAppend(a: seq<MonthlyRevenue>, b: seq<MonthlyRevenue>)
    ensures SumExpected(a + b) == SumExpected(a) + SumExpected(b)
    decreases |b|
  {
    if b == [] {
      assert a + b == a;
    } else {
      assert (a + b)[..|a + b| - 1] == a + b[..|b| - 1];
      assert (a + b)[|a + b| - 1] == b[|b| - 1];
      SumExpectedAppend(a, b[..|b| - 1]);
    }
  }

  /** Portions of the same amount add up: sum of the parts is the portion of the summed days. */
  lemma {:induction false} PortionAdd(amount: real, a: int, b: int, total: int)
    requires total != 0
    ensures Portion(amount, a, total) + Portion(amount, b, total) == Portion(amount, a + b, total)
  {
    var t := total as real;
    assert amount * (a as real) + amount * (b as real) == amount * ((a + b) as real);
    assert amount * (a as real) / t + amount * (b as real) / t == (amount * (a as real) + amount * (b as real)) / t;
  }

  lemma {:induction false} PortionWhole(amount: real, total: int)
    requires total != 0
    ensures Portion(amount, total, total) == amount
  {
  }

  /** Lines that carry the portions of some segments carry together the portion of their summed days. */
  lemma {:induction false} PortionsSum(ls: seq<MonthlyRevenue>, segs: seq<Segment>, total: int, prorated: real)
    requires forall i :: 0 <= i < |segs| ==> ValidSegment(segs[i])
    requires total != 0 && |ls| == |segs|
    requires forall i :: 0 <= i < |ls| ==> ls[i].expectedRevenue == Portion(prorated, Days(segs[i]), total)
    ensures SumExpected(ls) == Portion(prorated, SumDays(segs), total)
    decreases |segs|
  {
    if segs != [] {
      var n := |segs| - 1;
      assert forall i :: 0 <= i < n ==> ls[..n][i] == ls[i] && segs[..n][i] == segs[i];
      PortionsSum(ls[..n], segs[..n], total, prorated);
      PortionAdd(prorated, SumDays(segs[..n]), Days(segs[n]), total);
    }
  }

  /** The lines of some segments carry together the portion of their summed days. */
  lemma {:induction false} LinesOfSum(segs: seq<Segment>, total: int, prorated: real, probability: real,
                                      fiscalMonth: Date -> RangeId, fiscalYear: Date -> RangeId)
    requires forall i :: 0 <= i < |segs| ==> ValidSegment(segs[i])
    requires total != 0
    ensures SumExpected(LinesOf(segs, total, prorated, probability, fiscalMonth, fiscalYear))
            == Portion(prorated, SumDays(segs), total)
  {
    var ls := LinesOf(segs, total, prorated, probability, fiscalMonth, fiscalYear);
    forall i | 0 <= i < |ls| ensures ls[i].expectedRevenue == Portion(prorated, Days(segs[i]), total) {
      LinesOfAt(segs, total, prorated, probability, fiscalMonth, fiscalYear, i);
    }
    PortionsSum(ls, segs, total, prorated);
  }

  /** In exact arithmetic the generated lines' expected revenues add up to the prorated revenue. */
  lemma {:induction false} LinesSumToProrated(sd: Date, ed: Date, prorated: real, probability: real,
                           fiscalMonth: Date -> RangeId, fiscalYear: Date -> RangeId)
    requires Valid(sd) && Valid(ed) && TotalDays(sd, ed) != 0
    ensures SumExpected(ComputedLines(sd, ed, prorated, probability, fiscalMonth, fiscalYear)) == prorated
  {
    var total := TotalDays(sd, ed);
    LinesOfSum(Segments(sd, ed), total, prorated, probability, fiscalMonth, fiscalYear);
    SegmentsCoverRange(sd, ed);
    PortionWhole(prorated, total);
  }

  /**
   * Each generated line is dated on its segment's end and records the last day of
   * the previous month as its latest revenue date.
   */
  lemma {:induction false} ComputedLineDates(sd: Date, ed: Date, prorated: real, probability: real,
                          fiscalMonth: Date -> RangeId, fiscalYear: Date -> RangeId, i: int)
    requires Valid(sd) && Valid(ed) && TotalDays(sd, ed) != 0
    requires 0 <= i < |Segments(sd, ed)|
    ensures var l := ComputedLines(sd, ed, prorated, probability, fiscalMonth, fiscalYear)[i];
      var s := Segments(sd, ed)[i];
      l.date == Some(s.end) && l.computed && l.percentage == probability &&
      l.latestRevenueDate == Some(PrevDay(FirstOfMonth(s.end))) &&
      l.month == fiscalMonth(s.end) && l.year == fiscalYear(s.end) &&
      (s.end.year > 1 || s.end.month > 1 ==>
        Valid(l.latestRevenueDate.value) &&
        MonthIndex(l.latestRevenueDate.value) == MonthIndex(s.end) - 1 &&
        l.latestRevenueDate.value == MonthEnd(l.latestRevenueDate.value))
  {
    var s := Segments(sd, ed)[i];
    LinesOfAt(Segments(sd, ed), TotalDays(sd, ed), prorated, probability, fiscalMonth, fiscalYear, i);
    if s.end.year > 1 || s.end.month > 1 {
      PreviousMonthEnd(s.end);
    }
  }

  // ---------------------------------------------------------------------
  // One step of the walk, as the loop of `update_monthly_revenue` takes it

  /** The walk from `sd0` has produced `done` and is at `sd`: when the day after this segment is past `ed`, it is complete. */
  lemma {:induction false} WalkStop(sd0: Date, sd: Date, ed: Date, done: seq<Segment>)
    requires Valid(sd0) && Valid(sd) && Valid(ed)
    requires Segments(sd0, ed) == done + Segments(sd, ed)
    requires After(NextDay(SegmentEnd(sd, ed)), ed)
    ensures Segments(sd0, ed) == done + [Segment(sd, SegmentEnd(sd, ed))]
  {
  }

  /** Otherwise the walk continues the day after, one segment further on and one day closer to `ed`. */
  lemma {:induction false} WalkContinue(sd0: Date, sd: Date, ed: Date, done: seq<Segment>)
    requires Valid(sd0) && Valid(sd) && Valid(ed)
    requires Segments(sd0, ed) == done + Segments(sd, ed)
    requires !After(NextDay(SegmentEnd(sd, ed)), ed)
    ensures Segments(sd0, ed) == (done + [Segment(sd, SegmentEnd(sd, ed))]) + Segments(NextDay(SegmentEnd(sd, ed)), ed)
    ensures Ordinal(sd) < Ordinal(NextDay(SegmentEnd(sd, ed))) <= Ordinal(ed)
  {
    var e := SegmentEnd(sd, ed);
    SegmentEndFacts(sd, ed);
    var rest := Segments(NextDay(e), ed);
    assert Segments(sd, ed) == [Segment(sd, e)] + rest;
    assert done + ([Segment(sd, e)] + rest) == (done + [Segment(sd, e)]) + rest;
  }

  lemma {:induction false} LinesOfSnoc(segs: seq<Segment>, s: Segment, total: int, prorated: real, probability: real,
                    fiscalMonth: Date -> RangeId, fiscalYear: Date -> RangeId)
    requires forall i :: 0 <= i < |segs| ==> ValidSegment(segs[i])
    requires ValidSegment(s) && total != 0
    ensures forall i :: 0 <= i < |segs + [s]| ==> ValidSegment((segs + [s])[i])
    ensures LinesOf(segs + [s], total, prorated, probability, fiscalMonth, fiscalYear)
         == LinesOf(segs, total, prorated, probability, fiscalMonth, fiscalYear)
            + [ComputedLine(s, total, prorated, probability, fiscalMonth, fiscalYear)]
  {
    assert (segs + [s])[..|segs|] == segs;
  }

  lemma {:induction false} SplitsOfSnoc(lines: seq<MonthlyRevenue>, l: MonthlyRevenue, unit: string)
    ensures SplitsOf(lines + [l], unit) == SplitsOf(lines, unit) + [SplitLine(l.month, l.expectedRevenue, unit)]
  {
    assert (lines + [l])[..|lines|] == lines;
  }
}

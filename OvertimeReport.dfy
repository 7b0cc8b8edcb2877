/**
 * The overtime balance report: a database view that joins time lines with
 * the projects booked on their analytic account, keeps the rows of overtime
 * projects, groups them by (date, user) and sums the hours taken and earned.
 *
 * The view is stated here twice: once as a one-pass aggregation over the
 * joined rows (how a hash aggregate evaluates the GROUP BY) and once by
 * reference sums per group; the lemmas tie the two together.
 */
module OvertimeReport {
  import opened Dates

  /** One time line (`ps_time_line`) as far as the view reads it. */
  datatype TimeLine = TimeLine(
    id: int,
    date: Date,
    user: int,
    account: int,      // analytic account the time is booked on
    uom: int,          // unit of measure of `unit_amount`
    unitAmount: real)

  /** A project and the analytic account it is booked through. */
  datatype Project = Project(analyticAccount: int, overtime: bool, overtimeHrs: bool)

  /** One row of the join `ps_time_line JOIN project_project`. */
  datatype Row = Row(line: TimeLine, project: Project)

  /** The grouping key of the view. */
  datatype Key = Key(date: Date, user: int)

  /** One row of the view. */
  datatype BalanceRow = BalanceRow(id: int, taken: real, hrs: real, balanced: real)

  /** The running aggregate of one group. */
  datatype Group = Group(minId: int, taken: real, hrs: real)

  /** The two conditional sums of the view. */
  datatype Column = Taken | Hours

  /** A project joins a line when it is booked on the line's account; the WHERE clause keeps overtime projects. */
  predicate Joins(l: TimeLine, p: Project) {
    p.analyticAccount == l.account && (p.overtime || p.overtimeHrs)
  }

  function KeyOf(r: Row): Key {
    Key(r.line.date, r.line.user)
  }

  /** The rows of the join that pass the WHERE clause for one line, in project order. */
  function RowsOf(l: TimeLine, projects: seq<Project>): (rs: seq<Row>)
    ensures forall r :: r in rs <==> r.line == l && r.project in projects && Joins(l, r.project)
    decreases |projects|
  {
    if |projects| == 0 then []
    else
      var init := RowsOf(l, projects[..|projects| - 1]);
      var p := projects[|projects| - 1];
      assert projects == projects[..|projects| - 1] + [p];
      if Joins(l, p) then init + [Row(l, p)] else init
  }

  /** The filtered join of all lines with all projects. */
  function Included(lines: seq<TimeLine>, projects: seq<Project>): seq<Row>
    decreases |lines|
  {
    if |lines| == 0 then []
    else Included(lines[..|lines| - 1], projects) + RowsOf(lines[|lines| - 1], projects)
  }

  /** The `CASE WHEN … THEN unit_amount ELSE 0 END` term of one row for one column. */
  function Part(r: Row, c: Column, uom: int): real {
    var flag := if c == Taken then r.project.overtime else r.project.overtimeHrs;
    if flag && r.line.uom == uom then r.line.unitAmount else 0.0
  }

  function MinInt(a: int, b: int): int {
    if a <= b then a else b
  }

  /** Adds one joined row to the running aggregates. */
  function Accumulate(acc: map<Key, Group>, r: Row, uom: int): map<Key, Group> {
    var k := KeyOf(r);
    var g := if k in acc
      then Group(MinInt(acc[k].minId, r.line.id), acc[k].taken + Part(r, Taken, uom), acc[k].hrs + Part(r, Hours, uom))
      else Group(r.line.id, Part(r, Taken, uom), Part(r, Hours, uom));
    acc[k := g]
  }

  /** The GROUP BY evaluated in one pass over the joined rows. */
  function Aggregate(rows: seq<Row>, uom: int): map<Key, Group>
    decreases |rows|
  {
    if |rows| == 0 then map[]
    else Accumulate(Aggregate(rows[..|rows| - 1], uom), rows[|rows| - 1], uom)
  }

  /** The view: one row per group, with the balance as hours earned minus hours taken. */
  function Report(lines: seq<TimeLine>, projects: seq<Project>, uom: int): (v: map<Key, BalanceRow>)
    ensures forall k :: k in v ==> v[k].balanced == v[k].hrs - v[k].taken
  {
    var agg := Aggregate(Included(lines, projects), uom);
    map k | k in agg :: BalanceRow(agg[k].minId, agg[k].taken, agg[k].hrs, agg[k].hrs - agg[k].taken)
  }

  // ---------------------------------------------------------------------------
  // Reference definitions of the view's columns, group by group.

  /** `SUM(CASE …)` of one column over the rows of group `k`. */
  function ColumnSum(rows: seq<Row>, k: Key, c: Column, uom: int): real
    decreases |rows|
  {
    if |rows| == 0 then 0.0
    else
      var r := rows[|rows| - 1];
      ColumnSum(rows[..|rows| - 1], k, c, uom) + (if KeyOf(r) == k then Part(r, c, uom) else 0.0)
  }

  /** Some row of the join falls in group `k`. */
  predicate InGroup(rows: seq<Row>, k: Key) {
    exists i :: 0 <= i < |rows| && KeyOf(rows[i]) == k
  }

  // ---------------------------------------------------------------------------
  // The one-pass aggregation computes the reference columns.

  lemma {:induction false} AggregateKeys(rows: seq<Row>, uom: int, k: Key)
    ensures k in Aggregate(rows, uom) <==> InGroup(rows, k)
    decreases |rows|
  {
    if |rows| > 0 {
      var init := rows[..|rows| - 1];
      AggregateKeys(init, uom, k);
      if InGroup(init, k) {
        var i :| 0 <= i < |init| && KeyOf(init[i]) == k;
        assert rows[i] == init[i];
      }
      if InGroup(rows, k) && KeyOf(rows[|rows| - 1]) != k {
        var i :| 0 <= i < |rows| && KeyOf(rows[i]) == k;
        assert init[i] == rows[i];
      }
    }
  }

  lemma {:induction false} AggregateSums(rows: seq<Row>, uom: int, k: Key)
    requires k in Aggregate(rows, uom)
    ensures Aggregate(rows, uom)[k].taken == ColumnSum(rows, k, Taken, uom)
    ensures Aggregate(rows, uom)[k].hrs == ColumnSum(rows, k, Hours, uom)
    decreases |rows|
  {
    var init := rows[..|rows| - 1];
    var r := rows[|rows| - 1];
    if k in Aggregate(init, uom) {
      AggregateSums(init, uom, k);
    } else if KeyOf(r) == k {
      AggregateKeys(init, uom, k);
      ColumnSumOutside(init, k, Taken, uom);
      ColumnSumOutside(init, k, Hours, uom);
    }
  }

  /** A group with no rows sums to zero. */
  lemma {:induction false} ColumnSumOutside(rows: seq<Row>, k: Key, c: Column, uom: int)
    requires !InGroup(rows, k)
    ensures ColumnSum(rows, k, c, uom) == 0.0
    decreases |rows|
  {
    if |rows| > 0 {
      var init := rows[..|rows| - 1];
      assert forall i :: 0 <= i < |init| ==> init[i] == rows[i];
      ColumnSumOutside(init, k, c, uom);
    }
  }

  lemma {:induction false} AggregateMinId(rows: seq<Row>, uom: int, k: Key)
    requires k in Aggregate(rows, uom)
    ensures exists i :: 0 <= i < |rows| && KeyOf(rows[i]) == k && rows[i].line.id == Aggregate(rows, uom)[k].minId
    ensures forall i :: 0 <= i < |rows| && KeyOf(rows[i]) == k ==> Aggregate(rows, uom)[k].minId <= rows[i].line.id
    decreases |rows|
  {
    var init := rows[..|rows| - 1];
    var n := |rows| - 1;
    var m := Aggregate(rows, uom)[k].minId;
    if k in Aggregate(init, uom) {
      AggregateMinId(init, uom, k);
      var j :| 0 <= j < |init| && KeyOf(init[j]) == k && init[j].line.id == Aggregate(init, uom)[k].minId;
      if KeyOf(rows[n]) == k && rows[n].line.id < Aggregate(init, uom)[k].minId {
        assert rows[n].line.id == m;
      } else {
        assert rows[j] == init[j];
      }
      forall i | 0 <= i < |rows| && KeyOf(rows[i]) == k
        ensures m <= rows[i].line.id
      {
        if i < n {
          assert rows[i] == init[i];
        }
      }
    } else {
      AggregateKeys(init, uom, k);
      forall i | 0 <= i < n
        ensures KeyOf(rows[i]) != k
      {
        assert rows[i] == init[i];
      }
    }
  }

  // ---------------------------------------------------------------------------
  // Properties of the view.

  /** A joined row passes the WHERE clause exactly when its project does. */
  lemma {:induction false} IncludedMembers(lines: seq<TimeLine>, projects: seq<Project>, r: Row)
    ensures r in Included(lines, projects) <==> r.line in lines && r.project in projects && Joins(r.line, r.project)
    decreases |lines|
  {
    if |lines| > 0 {
      var init := lines[..|lines| - 1];
      IncludedMembers(init, projects, r);
      assert lines == init + [lines[|lines| - 1]];
    }
  }

  /** The view has a row for a (date, user) exactly when some line of that date and user joins an overtime project. */
  lemma {:induction false} ReportKeys(lines: seq<TimeLine>, projects: seq<Project>, uom: int, k: Key)
    ensures k in Report(lines, projects, uom) <==>
      exists l, p :: l in lines && p in projects && Joins(l, p) && Key(l.date, l.user) == k
  {
    var rows := Included(lines, projects);
    AggregateKeys(rows, uom, k);
    if k in Report(lines, projects, uom) {
      var i :| 0 <= i < |rows| && KeyOf(rows[i]) == k;
      IncludedMembers(lines, projects, rows[i]);
    }
    if exists l, p :: l in lines && p in projects && Joins(l, p) && Key(l.date, l.user) == k {
      var l, p :| l in lines && p in projects && Joins(l, p) && Key(l.date, l.user) == k;
      IncludedMembers(lines, projects, Row(l, p));
      var i :| 0 <= i < |rows| && rows[i] == Row(l, p);
      assert KeyOf(rows[i]) == k;
    }
  }

  /** Each row's id is the smallest id among the joined rows of its group. */
  lemma {:induction false} ReportId(lines: seq<TimeLine>, projects: seq<Project>, uom: int, k: Key)
    requires k in Report(lines, projects, uom)
    ensures exists l, p ::
      l in lines && p in projects && Joins(l, p) && Key(l.date, l.user) == k && l.id == Report(lines, projects, uom)[k].id
    ensures forall l, p :: l in lines && p in projects && Joins(l, p) && Key(l.date, l.user) == k ==>
      Report(lines, projects, uom)[k].id <= l.id
  {
    var rows := Included(lines, projects);
    AggregateMinId(rows, uom, k);
    var i :| 0 <= i < |rows| && KeyOf(rows[i]) == k && rows[i].line.id == Aggregate(rows, uom)[k].minId;
    IncludedMembers(lines, projects, rows[i]);
    forall l, p | l in lines && p in projects && Joins(l, p) && Key(l.date, l.user) == k
      ensures Report(lines, projects, uom)[k].id <= l.id
    {
      IncludedMembers(lines, projects, Row(l, p));
      var j :| 0 <= j < |rows| && rows[j] == Row(l, p);
      assert KeyOf(rows[j]) == k;
    }
  }

  /** Hours taken and hours earned are the conditional sums over the joined rows of the group. */
  lemma {:induction false} ReportSums(lines: seq<TimeLine>, projects: seq<Project>, uom: int, k: Key)
    requires k in Report(lines, projects, uom)
    ensures Report(lines, projects, uom)[k].taken == ColumnSum(Included(lines, projects), k, Taken, uom)
    ensures Report(lines, projects, uom)[k].hrs == ColumnSum(Included(lines, projects), k, Hours, uom)
  {
    AggregateSums(Included(lines, projects), uom, k);
  }

  lemma {:induction false} ColumnSumAppend(a: seq<Row>, b: seq<Row>, k: Key, c: Column, uom: int)
    ensures ColumnSum(a + b, k, c, uom) == ColumnSum(a, k, c, uom) + ColumnSum(b, k, c, uom)
    decreases |b|
  {
    if |b| == 0 {
      assert a + b == a;
    } else {
      var init := b[..|b| - 1];
      assert (a + b)[..|a + b| - 1] == a + init;
      assert (a + b)[|a + b| - 1] == b[|b| - 1];
      ColumnSumAppend(a, init, k, c, uom);
    }
  }

  /** Rows whose unit is not the hour add nothing to either sum. */
  lemma {:induction false} ColumnSumNonHour(rows: seq<Row>, k: Key, c: Column, uom: int)
    requires forall i :: 0 <= i < |rows| ==> rows[i].line.uom != uom
    ensures ColumnSum(rows, k, c, uom) == 0.0
    decreases |rows|
  {
    if |rows| > 0 {
      ColumnSumNonHour(rows[..|rows| - 1], k, c, uom);
    }
  }

  /**
   * A line booked in another unit than the hour still makes its group appear,
   * and leaves the sums of every group as they were.
   */
  lemma {:induction false} NonHourLine(lines: seq<TimeLine>, projects: seq<Project>, uom: int, l: TimeLine, p: Project)
    requires l.uom != uom && p in projects && Joins(l, p)
    ensures Key(l.date, l.user) in Report(lines + [l], projects, uom)
    ensures forall k :: k in Report(lines, projects, uom) ==>
      k in Report(lines + [l], projects, uom) &&
      Report(lines + [l], projects, uom)[k].taken == Report(lines, projects, uom)[k].taken &&
      Report(lines + [l], projects, uom)[k].hrs == Report(lines, projects, uom)[k].hrs
  {
    var lines' := lines + [l];
    assert lines'[..|lines'| - 1] == lines;
    var extra := RowsOf(l, projects);
    assert Included(lines', projects) == Included(lines, projects) + extra;
    ReportKeys(lines', projects, uom, Key(l.date, l.user));
    forall k | k in Report(lines, projects, uom)
      ensures k in Report(lines', projects, uom)
      ensures Report(lines', projects, uom)[k].taken == Report(lines, projects, uom)[k].taken
      ensures Report(lines', projects, uom)[k].hrs == Report(lines, projects, uom)[k].hrs
    {
      var rows := Included(lines, projects);
      AggregateKeys(rows, uom, k);
      var i :| 0 <= i < |rows| && KeyOf(rows[i]) == k;
      assert (rows + extra)[i] == rows[i];
      AggregateKeys(rows + extra, uom, k);
      ReportSums(lines, projects, uom, k);
      ReportSums(lines', projects, uom, k);
      ColumnSumAppend(rows, extra, k, Taken, uom);
      ColumnSumAppend(rows, extra, k, Hours, uom);
      ColumnSumNonHour(extra, k, Taken, uom);
      ColumnSumNonHour(extra, k, Hours, uom);
    }
  }

  lemma {:induction false} RowsOfUnmatched(l: TimeLine, projects: seq<Project>)
    requires forall p :: p in projects ==> !Joins(l, p)
    ensures RowsOf(l, projects) == []
    decreases |projects|
  {
    if |projects| > 0 {
      var init := projects[..|projects| - 1];
      assert forall i :: 0 <= i < |init| ==> init[i] == projects[i];
      RowsOfUnmatched(l, init);
    }
  }

  /** A line that joins no overtime project leaves the view unchanged. */
  lemma {:induction false} UnmatchedLine(lines: seq<TimeLine>, projects: seq<Project>, uom: int, l: TimeLine)
    requires forall p :: p in projects ==> !Joins(l, p)
    ensures Report(lines + [l], projects, uom) == Report(lines, projects, uom)
  {
    var lines' := lines + [l];
    assert lines'[..|lines'| - 1] == lines;
    RowsOfUnmatched(l, projects);
    assert Included(lines', projects) == Included(lines, projects);
  }
}

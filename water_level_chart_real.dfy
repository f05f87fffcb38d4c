/** The water-level chart of the dashboard's front page: a line of the first 20 readings,
    oldest at the left, and under it the per-day table, newest day first and at most ten
    days. */
module WaterLevelChartReal {
  import opened Numbers
  import opened Records
  import opened Sequences
  import opened DayTable

  /** A point of the line: the reading's date (the axis shows its day and month, the
      tooltip all of it), its level and its sensor. */
  datatype ChartPoint = ChartPoint(date: Date, level: Milli, sensorId: int)

  const ChartSize := 20
  const TableSize := 10

  function PointOf(r: Reading): ChartPoint
  {
    ChartPoint(r.createdAt.date, r.level, r.sensorId)
  }

  /** `chartData`: the first 20 readings, in reverse order. */
  function ChartData(rs: seq<Reading>): (points: seq<ChartPoint>)
    ensures |points| == if |rs| < ChartSize then |rs| else ChartSize
    ensures forall i :: 0 <= i < |points| ==> points[i] == PointOf(rs[|points| - 1 - i])
  {
    if rs == [] then []
    else
      var first := Take(rs, ChartSize);
      Reverse(seq(|first|, i requires 0 <= i < |first| => PointOf(first[i])))
  }

  /** The table groups by the full date (dd/MM/yyyy). */
  function DateKey(r: Reading): Date
  {
    r.createdAt.date
  }

  /** The sort key: later dates first. */
  function NewestFirst(row: DayRow): int
  {
    -DayNumber(row.date)
  }

  /** `tableData`. */
  function Table(rs: seq<Reading>): seq<DayRow>
  {
    if rs == [] then [] else Take(SortBy(Rows(rs, DateKey), NewestFirst), TableSize)
  }

  method TableData(rs: seq<Reading>) returns (rows: seq<DayRow>)
    ensures rows == Table(rs)
  {
    if |rs| == 0 {
      return [];
    }
    var all := GroupRows(rs, DateKey);
    rows := Take(SortBy(all, NewestFirst), TableSize);
  }

  /** The table shows the ten most recent days, or all of them when there are fewer: every
      shown row is a row of the whole table, and every day left out is no later than any
      day shown. */
  lemma TableMostRecent(rs: seq<Reading>)
    ensures var t := Table(rs);
            var all := Rows(rs, DateKey);
            && |t| == (if |all| < TableSize then |all| else TableSize)
            && (forall i :: 0 <= i < |t| ==> t[i] in all)
            && forall r :: r in all && r !in t ==>
                 forall i :: 0 <= i < |t| ==> DayNumber(r.date) <= DayNumber(t[i].date)
  {
    if rs != [] {
      TakeSorted(Rows(rs, DateKey), NewestFirst, TableSize);
    }
  }

  /** Every shown day is the date of some reading. */
  lemma ShownDatesValid(rs: seq<Reading>)
    requires forall i :: 0 <= i < |rs| ==> ValidDate(rs[i].createdAt.date)
    ensures forall i :: 0 <= i < |Table(rs)| ==> ValidDate(Table(rs)[i].date)
  {
    var t := Table(rs);
    var all := Rows(rs, DateKey);
    TableMostRecent(rs);
    forall i | 0 <= i < |t| ensures ValidDate(t[i].date) {
      RowDateOccurs(rs, DateKey, t[i]);
    }
  }

  /** The days are listed newest first: no row shows a day earlier than a row below it. */
  lemma TableNewestFirst(rs: seq<Reading>)
    requires forall i :: 0 <= i < |rs| ==> ValidDate(rs[i].createdAt.date)
    ensures var t := Table(rs);
            forall i, j :: 0 <= i < j < |t| ==> !Earlier(t[i].date, t[j].date)
  {
    var t := Table(rs);
    if rs != [] {
      var sorted := SortBy(Rows(rs, DateKey), NewestFirst);
      SortByAscending(Rows(rs, DateKey), NewestFirst);
      ShownDatesValid(rs);
      forall i, j | 0 <= i < j < |t| ensures !Earlier(t[i].date, t[j].date) {
        assert t[i] == sorted[i] && t[j] == sorted[j];
        DayNumberOrder(t[i].date, t[j].date);
      }
    }
  }

  /** No readings, no points and no rows; otherwise there is at least one of each. */
  lemma EmptyIffNothingShown(rs: seq<Reading>)
    ensures ChartData(rs) == [] <==> rs == []
    ensures Table(rs) == [] <==> rs == []
  {
    if rs != [] {
      KeysExact(rs, DateKey);
      assert DateKey(rs[0]) in Keys(rs, DateKey);
    }
  }
}

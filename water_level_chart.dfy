/** The older water-level chart: one point per reading, and the per-day table keyed by the
    short date (dd/MM/yy), oldest day first, with no cap on the number of days. The sort
    reads the two-digit year back as 20yy. */
module WaterLevelChart {
  import opened Numbers
  import opened Records
  import opened Sequences
  import opened DayTable

  /** A point of the line: the reading's date (the axis shows its day and month) and its
      level. */
  datatype ChartPoint = ChartPoint(date: Date, level: Milli)

  /** `chartData`: `data.map(...)`. */
  function ChartData(rs: seq<Reading>): (points: seq<ChartPoint>)
    ensures |points| == |rs|
    ensures forall i :: 0 <= i < |rs| ==>
              points[i].date == rs[i].createdAt.date && points[i].level == rs[i].level
  {
    if rs == [] then []
    else [ChartPoint(rs[0].createdAt.date, rs[0].level)] + ChartData(rs[1..])
  }

  /** The date as "dd/MM/yy" shows it: the year reduced to its last two digits. */
  function ShortDate(d: Date): Date
  {
    Date(d.day, d.month, d.year % 100)
  }

  function ShortDateKey(r: Reading): Date
  {
    ShortDate(r.createdAt.date)
  }

  /** The short date read back with the year `20yy`. */
  function InCentury(d: Date): Date
  {
    Date(d.day, d.month, 2000 + d.year)
  }

  /** The sort key: earlier dates first. */
  function OldestFirst(row: DayRow): int
  {
    DayNumber(InCentury(row.date))
  }

  /** `tableData`. */
  function Table(rs: seq<Reading>): seq<DayRow>
  {
    SortBy(Rows(rs, ShortDateKey), OldestFirst)
  }

  method TableData(rs: seq<Reading>) returns (rows: seq<DayRow>)
    ensures rows == Table(rs)
  {
    var all := GroupRows(rs, ShortDateKey);
    rows := SortBy(all, OldestFirst);
  }

  /** Every short date gets its row, none is dropped: there are as many rows as distinct
      short dates, they are the unsorted rows reordered, and their samples add up to the
      number of readings. */
  lemma TableComplete(rs: seq<Reading>)
    ensures var t := Table(rs);
            && |t| == |Keys(rs, ShortDateKey)|
            && multiset(t) == multiset(Rows(rs, ShortDateKey))
            && SampleSum(t) == |rs|
  {
    SampleSumSorted(Rows(rs, ShortDateKey), OldestFirst);
    SamplesAddUp(rs, ShortDateKey);
  }

  /** Each row's short date is that of one of the readings, so it is valid when they all
      are. */
  lemma RowDatesValid(rs: seq<Reading>)
    requires forall i :: 0 <= i < |rs| ==> ValidDate(rs[i].createdAt.date)
    ensures forall i :: 0 <= i < |Table(rs)| ==> ValidDate(InCentury(Table(rs)[i].date))
  {
    var all := Rows(rs, ShortDateKey);
    var t := Table(rs);
    forall i | 0 <= i < |t| ensures ValidDate(InCentury(t[i].date)) {
      assert t[i] in multiset(all);
      RowDateOccurs(rs, ShortDateKey, t[i]);
    }
  }

  /** Rows are listed oldest first, reading their year as 20yy. */
  lemma TableOldestFirst(rs: seq<Reading>)
    requires forall i :: 0 <= i < |rs| ==> ValidDate(rs[i].createdAt.date)
    ensures var t := Table(rs);
            forall i, j :: 0 <= i < j < |t| ==> !Earlier(InCentury(t[j].date), InCentury(t[i].date))
  {
    var t := Table(rs);
    SortByAscending(Rows(rs, ShortDateKey), OldestFirst);
    RowDatesValid(rs);
    forall i, j | 0 <= i < j < |t| ensures !Earlier(InCentury(t[j].date), InCentury(t[i].date)) {
      DayNumberOrder(InCentury(t[j].date), InCentury(t[i].date));
    }
  }

  /** Dates a hundred years apart share a row, and a year before 2000 sorts as 20yy. */
  lemma CenturiesShareARow(r: Reading, s: Reading)
    requires r.createdAt.date.day == s.createdAt.date.day
    requires r.createdAt.date.month == s.createdAt.date.month
    requires s.createdAt.date.year == r.createdAt.date.year + 100
    ensures ShortDateKey(r) == ShortDateKey(s)
    ensures r.createdAt.date.year == 1999 ==> InCentury(ShortDateKey(r)).year == 2099
  {
  }
}

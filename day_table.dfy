/** The per-day table both water-level charts show under their graph: the readings grouped
    by their date, one row per date with the number of readings that day and the lowest and
    highest level. The rows are built with the `reduce` grouping idiom and `Object.entries`;
    the date keys are not array indices, so the entries come in order of first appearance.
    The average and the standard deviation are floating-point and not part of this model. */
module DayTable {
  import opened Numbers
  import opened Records
  import opened Sequences

  datatype DayRow = DayRow(date: Date, samples: nat, min: Milli, max: Milli)

  /** `readings.map(r => r.level)`. */
  function LevelsOf(rs: seq<Reading>): (ls: seq<Milli>)
    ensures |ls| == |rs| && forall i :: 0 <= i < |rs| ==> ls[i] == rs[i].level
  {
    seq(|rs|, i requires 0 <= i < |rs| => rs[i].level)
  }

  /** The row for one date from that date's readings (`Math.min`/`Math.max` over the
      levels). */
  function RowOf(date: Date, members: seq<Reading>): DayRow
  {
    var ls := LevelsOf(members);
    DayRow(date, |members|, MinOr0(ls), MaxOr0(ls))
  }

  /** The rows for the dates `ks`, in that order. */
  function RowsFor(rs: seq<Reading>, key: Reading -> Date, ks: seq<Date>): (rows: seq<DayRow>)
    ensures |rows| == |ks|
    ensures forall i :: 0 <= i < |ks| ==> rows[i] == RowOf(ks[i], Members(rs, key, ks[i]))
  {
    if ks == [] then [] else [RowOf(ks[0], Members(rs, key, ks[0]))] + RowsFor(rs, key, ks[1..])
  }

  /** The table before sorting: one row per date, in order of first appearance. */
  function Rows(rs: seq<Reading>, key: Reading -> Date): seq<DayRow>
  {
    RowsFor(rs, key, Keys(rs, key))
  }

  function SampleSum(rows: seq<DayRow>): nat
  {
    if rows == [] then 0 else rows[0].samples + SampleSum(rows[1..])
  }

  lemma {:induction false} SampleSumFor(rs: seq<Reading>, key: Reading -> Date, ks: seq<Date>)
    ensures SampleSum(RowsFor(rs, key, ks)) == GroupSizes(rs, key, ks)
    decreases ks
  {
    if ks != [] {
      SampleSumFor(rs, key, ks[1..]);
      assert RowsFor(rs, key, ks)[1..] == RowsFor(rs, key, ks[1..]);
    }
  }

  /** Every reading is counted in exactly one row: the samples add up to the number of
      readings. */
  lemma SamplesAddUp(rs: seq<Reading>, key: Reading -> Date)
    ensures SampleSum(Rows(rs, key)) == |rs|
  {
    SampleSumFor(rs, key, Keys(rs, key));
    GroupsCoverAll(rs, key);
  }

  /** One row per date that occurs, each date once. */
  lemma RowsPerDate(rs: seq<Reading>, key: Reading -> Date)
    ensures var rows := Rows(rs, key);
            && (forall i, j :: 0 <= i < j < |rows| ==> rows[i].date != rows[j].date)
            && (forall i :: 0 <= i < |rs| ==> exists j :: 0 <= j < |rows| && rows[j].date == key(rs[i]))
            && (forall j :: 0 <= j < |rows| ==> exists i :: 0 <= i < |rs| && key(rs[i]) == rows[j].date)
  {
    var rows := Rows(rs, key);
    var ks := Keys(rs, key);
    KeysExact(rs, key);
    forall i | 0 <= i < |rs| ensures exists j :: 0 <= j < |rows| && rows[j].date == key(rs[i]) {
      var j :| 0 <= j < |ks| && ks[j] == key(rs[i]);
      assert rows[j].date == ks[j];
    }
    forall j | 0 <= j < |rows| ensures exists i :: 0 <= i < |rs| && key(rs[i]) == rows[j].date {
      assert rows[j].date == ks[j] && ks[j] in ks;
    }
  }

  /** A row's date is the date of one of the readings. */
  lemma RowDateOccurs(rs: seq<Reading>, key: Reading -> Date, row: DayRow)
    requires row in Rows(rs, key)
    ensures exists k :: 0 <= k < |rs| && key(rs[k]) == row.date
  {
    var ks := Keys(rs, key);
    var j :| 0 <= j < |Rows(rs, key)| && Rows(rs, key)[j] == row;
    assert row.date == ks[j] && ks[j] in ks;
  }

  /** A row counts the readings of its date, at least one, and its minimum and maximum
      bound every level of that date and are levels of that date. */
  lemma RowFigures(rs: seq<Reading>, key: Reading -> Date, j: nat)
    requires j < |Rows(rs, key)|
    ensures var row := Rows(rs, key)[j];
            && row.samples == |Members(rs, key, row.date)| >= 1
            && row.min <= row.max
            && (exists i :: 0 <= i < |rs| && key(rs[i]) == row.date && rs[i].level == row.min)
            && (exists i :: 0 <= i < |rs| && key(rs[i]) == row.date && rs[i].level == row.max)
            && forall i :: 0 <= i < |rs| && key(rs[i]) == row.date ==>
                 row.min <= rs[i].level <= row.max
  {
    var row := Rows(rs, key)[j];
    var ks := Keys(rs, key);
    var ms := Members(rs, key, row.date);
    var ls := LevelsOf(ms);
    assert row.date == ks[j] && ks[j] in ks;
    var w :| 0 <= w < |rs| && key(rs[w]) == row.date;
    MembersExact(rs, key, row.date, rs[w]);
    forall i | 0 <= i < |rs| && key(rs[i]) == row.date ensures row.min <= rs[i].level <= row.max {
      MembersExact(rs, key, row.date, rs[i]);
      var m :| 0 <= m < |ms| && ms[m] == rs[i];
      assert ls[m] == rs[i].level;
    }
    var a :| 0 <= a < |ls| && ls[a] == row.min;
    MembersExact(rs, key, row.date, ms[a]);
    var b :| 0 <= b < |ls| && ls[b] == row.max;
    MembersExact(rs, key, row.date, ms[b]);
  }

  /** Sorting the rows keeps their samples' total. */
  lemma {:induction false} SampleSumInsert(x: DayRow, rows: seq<DayRow>, key: DayRow -> int)
    ensures SampleSum(Insert(x, rows, key)) == x.samples + SampleSum(rows)
    decreases rows
  {
    if rows != [] && key(x) > key(rows[0]) {
      SampleSumInsert(x, rows[1..], key);
      assert Insert(x, rows, key)[1..] == Insert(x, rows[1..], key);
    } else {
      assert ([x] + rows)[1..] == rows;
    }
  }

  lemma {:induction false} SampleSumSorted(rows: seq<DayRow>, key: DayRow -> int)
    ensures SampleSum(SortBy(rows, key)) == SampleSum(rows)
    decreases rows
  {
    if rows != [] {
      SampleSumSorted(rows[1..], key);
      SampleSumInsert(rows[0], SortBy(rows[1..], key), key);
    }
  }

  /** The rows from the grouping loop: `Object.entries(groupedByDate).map(...)`. */
  method GroupRows(rs: seq<Reading>, key: Reading -> Date) returns (rows: seq<DayRow>)
    ensures rows == Rows(rs, key)
  {
    var order, groups := GroupBy(rs, key);
    rows := seq(|order|, i requires 0 <= i < |order| && order[i] in groups
                          => RowOf(order[i], groups[order[i]]));
  }
}

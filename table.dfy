/**
 * The draw table and its cleaning (script.py, sections "Scraping" and
 * "Preparar datos").
 *
 * The scraped records become a table of eight columns, seven main balls
 * and the supplementary ball. A record shorter than the table is padded
 * with missing cells; a table whose widest record does not span exactly the
 * eight columns cannot be built at all. Cleaning then drops every row with
 * a missing cell and keeps the others, in order, as integers.
 */
module Table {
  import opened Optional
  import Scrape

  /** A table row; None is a missing cell. */
  type Row = seq<Option<int>>

  /** Width of the widest record, 0 when there is none. */
  function MaxWidth(records: seq<seq<int>>): (w: nat)
    ensures forall i :: 0 <= i < |records| ==> |records[i]| <= w
    ensures records != [] ==> exists i :: 0 <= i < |records| && |records[i]| == w
    ensures records == [] ==> w == 0
    decreases |records|
  {
    if records == [] then 0
    else
      var rest := MaxWidth(records[..|records| - 1]);
      var last := |records[|records| - 1]|;
      assert forall i :: 0 <= i < |records| - 1 ==> records[i] == records[..|records| - 1][i];
      if last > rest then last else rest
  }

  /** A record as a table row: its values, then missing cells up to the table width. */
  function Pad(r: seq<int>): (row: Row)
    requires |r| <= Scrape.RecordWidth
    ensures |row| == Scrape.RecordWidth
    ensures forall j :: 0 <= j < |r| ==> row[j] == Some(r[j])
    ensures forall j :: |r| <= j < Scrape.RecordWidth ==> row[j] == None
  {
    seq(Scrape.RecordWidth, j requires 0 <= j < Scrape.RecordWidth => if j < |r| then Some(r[j]) else None)
  }

  /**
   * Building the eight-column table from the records: None when there are
   * records and the widest of them is not eight wide (the table library
   * refuses a column count that does not match the data), otherwise one
   * padded row per record.
   */
  function BuildTable(records: seq<seq<int>>): (t: Option<seq<Row>>)
  {
    if records != [] && MaxWidth(records) != Scrape.RecordWidth then None
    else Some(seq(|records|, i requires 0 <= i < |records| => Pad(records[i])))
  }

  /** A row with no missing cell. */
  predicate Complete(row: Row) {
    forall j :: 0 <= j < |row| ==> row[j].Some?
  }

  /** The integer values of a complete row. */
  function Values(row: Row): (v: seq<int>)
    requires Complete(row)
    ensures |v| == |row|
    ensures forall j :: 0 <= j < |row| ==> row[j] == Some(v[j])
  {
    seq(|row|, j requires 0 <= j < |row| => row[j].value)
  }

  /** dropna over all columns followed by the conversion to integers. */
  function DropIncomplete(table: seq<Row>): (clean: seq<seq<int>>)
    ensures |clean| <= |table|
    decreases |table|
  {
    if table == [] then []
    else
      var last := table[|table| - 1];
      DropIncomplete(table[..|table| - 1]) + (if Complete(last) then [Values(last)] else [])
  }

  /**
   * Positions, in the original table, of the rows cleaning keeps: in
   * increasing order, each of a complete row.
   */
  function KeptRows(table: seq<Row>): (kept: seq<nat>)
    ensures forall j :: 0 <= j < |kept| ==> kept[j] < |table| && Complete(table[kept[j]])
    ensures forall j, k :: 0 <= j < k < |kept| ==> kept[j] < kept[k]
    decreases |table|
  {
    if table == [] then []
    else
      var init := table[..|table| - 1];
      assert forall i :: 0 <= i < |init| ==> table[i] == init[i];
      KeptRows(init) + (if Complete(table[|table| - 1]) then [|table| - 1] else [])
  }

  /** Cleaning removes exactly the rows with a missing cell: row i is kept if and only if it is complete. */
  lemma {:induction false} KeptExactly(table: seq<Row>)
    ensures forall i :: 0 <= i < |table| ==> (Complete(table[i]) <==> i in KeptRows(table))
    decreases |table|
  {
    if table != [] {
      var init := table[..|table| - 1];
      KeptExactly(init);
      assert forall i :: 0 <= i < |init| ==> table[i] == init[i];
    }
  }

  /**
   * Cleaning keeps the complete rows in their original relative order: the
   * j-th cleaned row holds the values of the j-th kept row.
   */
  lemma {:induction false} CleanedInOrder(table: seq<Row>)
    ensures |DropIncomplete(table)| == |KeptRows(table)|
    ensures forall j :: 0 <= j < |KeptRows(table)| ==>
              DropIncomplete(table)[j] == Values(table[KeptRows(table)[j]])
    decreases |table|
  {
    if table != [] {
      var init := table[..|table| - 1];
      var last := table[|table| - 1];
      CleanedInOrder(init);
      var kept, clean := KeptRows(init), DropIncomplete(init);
      if Complete(last) {
        assert KeptRows(table) == kept + [|table| - 1];
        assert DropIncomplete(table) == clean + [Values(last)];
      } else {
        assert KeptRows(table) == kept;
        assert DropIncomplete(table) == clean;
      }
      forall j | 0 <= j < |kept|
        ensures DropIncomplete(table)[j] == Values(table[KeptRows(table)[j]])
      {
        assert table[kept[j]] == init[kept[j]];
      }
    }
  }

  /** The records of full width, in order. */
  function FullRecords(records: seq<seq<int>>): (full: seq<seq<int>>)
    ensures forall j :: 0 <= j < |full| ==> |full[j]| == Scrape.RecordWidth
    decreases |records|
  {
    if records == [] then []
    else
      var last := records[|records| - 1];
      FullRecords(records[..|records| - 1]) + (if |last| == Scrape.RecordWidth then [last] else [])
  }

  /** Cleaning the padded rows of records at most eight wide leaves exactly the full records, in order. */
  lemma {:induction false} DropPadded(records: seq<seq<int>>)
    requires forall i :: 0 <= i < |records| ==> |records[i]| <= Scrape.RecordWidth
    ensures DropIncomplete(seq(|records|, i requires 0 <= i < |records| => Pad(records[i]))) == FullRecords(records)
    decreases |records|
  {
    var rows := seq(|records|, i requires 0 <= i < |records| => Pad(records[i]));
    if records != [] {
      var init := records[..|records| - 1];
      DropPadded(init);
      assert rows[..|rows| - 1] == seq(|init|, i requires 0 <= i < |init| => Pad(init[i]));
      var last := records[|records| - 1];
      var row := rows[|rows| - 1];
      if |last| == Scrape.RecordWidth {
        assert Values(row) == last;
      } else {
        assert !row[|last|].Some?;
      }
    }
  }

  /**
   * From records to the cleaned table: the table cannot be built exactly
   * when there are records and none of them spans the eight columns; when
   * it can, cleaning leaves precisely the full records, in order, because
   * padding is what makes a row incomplete.
   */
  lemma BuildThenClean(records: seq<seq<int>>)
    requires forall i :: 0 <= i < |records| ==> |records[i]| <= Scrape.RecordWidth
    ensures BuildTable(records).None? <==>
              records != [] && forall i :: 0 <= i < |records| ==> |records[i]| < Scrape.RecordWidth
    ensures BuildTable(records).Some? ==> DropIncomplete(BuildTable(records).value) == FullRecords(records)
  {
    DropPadded(records);
  }
}

/**
 * What a row's detail panel shows. Both detail panels (src/tables/tools/rowtools.ts and
 * src/tables/extensions/detailsextensions.ts) build the same records and differ only in the
 * column span of their trailing tools/extensions cell, so the records are defined once here.
 */
module DetailsContent {
  import opened Tables

  /** The record a row wraps, as its data accessor returns it, keyed by column name. The source's
      values have any type; the map holds the text a value cell shows for each, which is its string
      form, with `null` and `undefined` shown as "" and arrays joined with commas. */
  type RowData = map<string, string>

  /** One row of a detail panel's table. */
  datatype DetailRow =
      /** Three cells: the column's display name, the row's value for it, and a button that moves
          the column named `showAsColumn` back to the grid. */
    | Record(displayName: string, value: string, showAsColumn: string)
      /** The trailing cell that hosts tools or extensions: its column span and how many children it got. */
    | ToolsRow(colSpan: nat, children: nat)

  /** The text of a value cell: a missing value renders as the empty text. */
  function CellValue(data: RowData, name: string): string {
    if name in data then data[name] else ""
  }

  function RecordOf(column: TableColumn, data: RowData): DetailRow {
    Record(column.displayName, CellValue(data, column.name), column.name)
  }

  /** The records of the columns located in the row, in column order. */
  function DetailRecords(columns: seq<TableColumn>, data: RowData): (records: seq<DetailRow>)
    ensures |records| <= |columns|
    ensures forall r :: r in records ==> r.Record?
  {
    if columns == [] then []
    else
      var last := columns[|columns| - 1];
      DetailRecords(columns[..|columns| - 1], data) + (if last.location == Row then [RecordOf(last, data)] else [])
  }

  /** How many columns are located in the row. */
  function RowColumnCount(columns: seq<TableColumn>): nat {
    if columns == [] then 0
    else (if columns[0].location == Row then 1 else 0) + RowColumnCount(columns[1..])
  }

  /** The whole panel `open` builds: the records, then the tools cell only if it received a child. */
  function DetailRows(columns: seq<TableColumn>, data: RowData, colSpan: nat, toolsChildren: nat): seq<DetailRow> {
    DetailRecords(columns, data) + (if toolsChildren != 0 then [ToolsRow(colSpan, toolsChildren)] else [])
  }

  /** Records keep column order: the records of an earlier part of the columns come first. */
  lemma {:induction false} DetailRecordsAppend(a: seq<TableColumn>, b: seq<TableColumn>, data: RowData)
    ensures DetailRecords(a + b, data) == DetailRecords(a, data) + DetailRecords(b, data)
  {
    if b == [] {
      assert a + b == a;
    } else {
      assert (a + b)[..|a + b| - 1] == a + b[..|b| - 1];
      DetailRecordsAppend(a, b[..|b| - 1], data);
    }
  }

  /** A record is shown exactly for each column located in the row. */
  lemma {:induction false} DetailRecordsMembership(columns: seq<TableColumn>, data: RowData, r: DetailRow)
    ensures r in DetailRecords(columns, data) <==>
      exists c :: c in columns && c.location == Row && r == RecordOf(c, data)
  {
    if columns != [] {
      var init, last := columns[..|columns| - 1], columns[|columns| - 1];
      DetailRecordsMembership(init, data, r);
      assert columns == init + [last];
      if r in DetailRecords(columns, data) && r !in DetailRecords(init, data) {
        assert last in columns;
      }
      if exists c :: c in columns && c.location == Row && r == RecordOf(c, data) {
        var c :| c in columns && c.location == Row && r == RecordOf(c, data);
        if c != last {
          assert c in init;
        }
      }
    }
  }

  /** There are exactly as many records as columns located in the row. */
  lemma {:induction false} DetailRecordsCount(columns: seq<TableColumn>, data: RowData)
    ensures |DetailRecords(columns, data)| == RowColumnCount(columns)
  {
    if columns != [] {
      DetailRecordsCount(columns[1..], data);
      DetailRecordsAppend([columns[0]], columns[1..], data);
      assert [columns[0]] + columns[1..] == columns;
      assert DetailRecords([columns[0]], data) == DetailRecords([], data) + (if columns[0].location == Row then [RecordOf(columns[0], data)] else []);
    }
  }

  /** The tools cell is appended exactly when it received a child; otherwise the panel holds the records only. */
  lemma DetailRowsShape(columns: seq<TableColumn>, data: RowData, colSpan: nat, toolsChildren: nat)
    ensures var rows := DetailRows(columns, data, colSpan, toolsChildren);
      && |rows| == RowColumnCount(columns) + (if toolsChildren != 0 then 1 else 0)
      && rows[..RowColumnCount(columns)] == DetailRecords(columns, data)
      && (toolsChildren != 0 ==> rows[|rows| - 1] == ToolsRow(colSpan, toolsChildren))
      && forall k :: 0 <= k < RowColumnCount(columns) ==> rows[k].Record?
  {
    DetailRecordsCount(columns, data);
    var rows := DetailRows(columns, data, colSpan, toolsChildren);
    assert rows[..RowColumnCount(columns)] == DetailRecords(columns, data);
    forall k | 0 <= k < RowColumnCount(columns) ensures rows[k].Record? {
      assert rows[k] in DetailRecords(columns, data);
    }
  }
}

/**
 * The detail panel of src/tables/extensions/detailsextensions.ts. It builds the same records as
 * the panel of src/tables/tools/rowtools.ts; its trailing cell hosts the extensions registered
 * for the "details" location and spans three columns, and `close` detaches only an attached panel.
 * The extension registry lies outside this model: callers pass how many children its rendering produced.
 */
module DetailsExtensions {
  import opened Tables
  import opened DetailsContent

  class Details {
    const table: Table
    /** What the owning row's `getRowData()` returns. */
    const rowData: RowData
    /** The rows the panel's table element holds. */
    var content: seq<DetailRow>
    /** Whether the panel's table element has a parent node. */
    var attached: bool

    constructor (table: Table, rowData: RowData)
      ensures this.table == table && this.rowData == rowData
      ensures content == [] && !attached
    {
      this.table := table;
      this.rowData := rowData;
      content := [];
      attached := false;
    }

    /** `open`: empties the panel, rebuilds it from the table's current columns (the extensions
        cell spans three columns) and attaches it. */
    method Open(extensionChildren: nat)
      modifies this
      ensures content == DetailRows(table.columns, rowData, 3, extensionChildren)
      ensures attached
    {
      content := [];
      var rows: seq<DetailRow> := [];
      var columns := table.columns;
      var i := 0;
      while i < |columns|
        invariant 0 <= i <= |columns|
        invariant rows == DetailRecords(columns[..i], rowData)
      {
        var column := columns[i];
        if column.location == Row {
          rows := rows + [RecordOf(column, rowData)];
        }
        assert columns[..i + 1][..i] == columns[..i];
        i := i + 1;
      }
      assert columns[..|columns|] == columns;
      if extensionChildren != 0 {
        rows := rows + [ToolsRow(3, extensionChildren)];
      }
      content := content + rows;
      attached := true;
    }

    /** `close`: removes the panel from its parent when it has one; otherwise nothing changes. */
    method Close()
      modifies this
      ensures !attached && content == old(content)
      ensures !old(attached) ==> unchanged(this)
    {
      if attached {
        attached := false;
      }
    }
  }

  /** The table fires `onColumnsLocationChanged`: every panel closes itself. */
  method NotifyColumnsLocationChanged(panels: seq<Details>)
    modifies set p | p in panels
    ensures forall p :: p in panels ==> !p.attached && p.content == old(p.content)
  {
    var i := 0;
    while i < |panels|
      invariant 0 <= i <= |panels|
      invariant forall k :: 0 <= k < i ==> !panels[k].attached
      invariant forall p :: p in panels ==> p.content == old(p.content)
    {
      panels[i].Close();
      i := i + 1;
    }
  }

  /** Opening twice shows what opening once shows, and closing twice what closing once does. */
  method OpenCloseScenario(table: Table, data: RowData, extensionChildren: nat) {
    var panel := new Details(table, data);
    panel.Open(extensionChildren);
    var shown := panel.content;
    panel.Open(extensionChildren);
    assert panel.content == shown && panel.attached;
    DetailRowsShape(table.columns, data, 3, extensionChildren);
    assert extensionChildren == 0 ==> |panel.content| == RowColumnCount(table.columns);
    panel.Close();
    panel.Close();
    assert !panel.attached && panel.content == shown;
  }
}

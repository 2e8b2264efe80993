/**
 * A table row's detail-panel state machine and its panel (src/tables/tools/rowtools.ts).
 * DOM nodes are abstracted: the panel is its list of rows plus an "attached" flag, the row
 * element's CSS marker is a flag, and `onToggleDetails` is the list of payloads fired on it.
 * The tools rendered into the panel's trailing cell come from a registry outside this model:
 * callers pass how many children that rendering produced.
 */
module RowTools {
  import opened Tables
  import opened DetailsContent

  /** The detail panel of one row. */
  class Details {
    const table: Table
    /** What the owning row's `getData()` returns. */
    const rowData: RowData
    /** The rows the panel's table element holds. */
    var content: seq<DetailRow>
    /** Whether the panel's table element is attached to the row's details container. */
    var attached: bool

    constructor (table: Table, rowData: RowData)
      ensures this.table == table && this.rowData == rowData
      ensures content == [] && !attached
    {
      this.table := table;
      this.rowData := rowData;
      content := [];
      attached := false;
    }

    /** `open`: empties the panel, rebuilds it from the table's current columns (the tools cell
        spans one column) and attaches it. */
    method Open(toolsChildren: nat)
      modifies this
      ensures content == DetailRows(table.columns, rowData, 1, toolsChildren)
      ensures attached
    {
      content := [];
      var rows: seq<DetailRow> := [];
      var columns := table.columns;
      var i := 0;
      while i < |columns|
        invariant 0 <= i <= |columns|
        invariant rows == DetailRecords(columns[..i], rowData)
      {
        var column := columns[i];
        if column.location == Row {
          rows := rows + [RecordOf(column, rowData)];
        }
        assert columns[..i + 1][..i] == columns[..i];
        i := i + 1;
      }
      assert columns[..|columns|] == columns;
      if toolsChildren != 0 {
        rows := rows + [ToolsRow(1, toolsChildren)];
      }
      content := content + rows;
      attached := true;
    }

    /** `close`: detaches the panel; on a detached panel this does nothing. */
    method Close()
      modifies this
      ensures !attached && content == old(content)
      ensures !old(attached) ==> unchanged(this)
    {
      attached := false;
    }
  }

  /** One row of the grid, wrapping a row of the underlying grid library. */
  class TableRow {
    const table: Table
    const details: Details
    /** What `getData()` returns: the record the library's row wraps. */
    const data: RowData
    var isDetailsExpanded: bool
    /** Whether the row element carries the detail-row CSS class. */
    var hasDetailClass: bool
    /** The `isExpanded` payloads fired on `onToggleDetails`, oldest first. */
    var toggleEvents: seq<bool>

    ghost predicate Valid() {
      details.table == table && details.rowData == data
    }

    constructor (table: Table, data: RowData)
      ensures Valid() && this.table == table && this.data == data && fresh(details)
      ensures !isDetailsExpanded && !hasDetailClass && toggleEvents == []
      ensures details.content == [] && !details.attached
    {
      this.table := table;
      this.data := data;
      details := new Details(table, data);
      isDetailsExpanded := false;
      hasDetailClass := false;
      toggleEvents := [];
    }

    /** `getIsDetailsExpanded` as written: it answers false whatever the row's state. */
    predicate GetIsDetailsExpanded() {
      false
    }

    /** Whether the row's details are expanded: what `getIsDetailsExpanded` evidently means to report. */
    predicate IsDetailsExpanded()
      reads this
    {
      isDetailsExpanded
    }

    /** `openDetails`: builds and attaches the panel, marks the row, fires `{isExpanded: true}`. */
    method OpenDetails(toolsChildren: nat)
      requires Valid()
      modifies this, details
      ensures details.content == DetailRows(table.columns, data, 1, toolsChildren) && details.attached
      ensures hasDetailClass && IsDetailsExpanded()
      ensures toggleEvents == old(toggleEvents) + [true]
    {
      details.Open(toolsChildren);
      hasDetailClass := true;
      toggleEvents := toggleEvents + [true];
      isDetailsExpanded := true;
    }

    /** `closeDetails`: detaches the panel, unmarks the row, fires `{isExpanded: false}`; it has no
        guard, so it fires on a collapsed row as well. */
    method CloseDetails()
      modifies this, details
      ensures !details.attached && details.content == old(details.content)
      ensures !hasDetailClass && !IsDetailsExpanded()
      ensures toggleEvents == old(toggleEvents) + [false]
    {
      details.Close();
      hasDetailClass := false;
      toggleEvents := toggleEvents + [false];
      isDetailsExpanded := false;
    }

    /** `toggleDetails`: opens a collapsed row and closes an expanded one. */
    method ToggleDetails(toolsChildren: nat)
      requires Valid()
      modifies this, details
      ensures IsDetailsExpanded() == !old(IsDetailsExpanded())
      ensures hasDetailClass == IsDetailsExpanded() && details.attached == IsDetailsExpanded()
      ensures toggleEvents == old(toggleEvents) + [IsDetailsExpanded()]
      ensures if IsDetailsExpanded() then details.content == DetailRows(table.columns, data, 1, toolsChildren)
              else details.content == old(details.content)
    {
      if isDetailsExpanded {
        CloseDetails();
      } else {
        OpenDetails(toolsChildren);
      }
    }

    /** The row's two handlers of the table's `onColumnsLocationChanged`, in the order they were
        added: the panel's own `close`, then the row's `closeDetails`. */
    method ColumnsLocationChanged()
      modifies this, details
      ensures !details.attached && details.content == old(details.content)
      ensures !hasDetailClass && !IsDetailsExpanded()
      ensures toggleEvents == old(toggleEvents) + [false]
    {
      details.Close();
      CloseDetails();
    }
  }

  /** The table fires `onColumnsLocationChanged`: every row's handlers run, so afterwards no row is
      expanded and no panel is attached. */
  method NotifyColumnsLocationChanged(rows: seq<TableRow>)
    modifies set r | r in rows, set r | r in rows :: r.details
    ensures forall r :: r in rows ==> !r.IsDetailsExpanded() && !r.hasDetailClass && !r.details.attached
    ensures forall r :: r in rows ==> r.details.content == old(r.details.content)
    ensures Distinct(rows) ==> forall r :: r in rows ==> r.toggleEvents == old(r.toggleEvents) + [false]
  {
    var i := 0;
    while i < |rows|
      invariant 0 <= i <= |rows|
      invariant forall k :: 0 <= k < i ==> !rows[k].IsDetailsExpanded() && !rows[k].hasDetailClass && !rows[k].details.attached
      invariant forall r :: r in rows ==> r.details.content == old(r.details.content)
      invariant Distinct(rows) ==> forall k :: 0 <= k < i ==> rows[k].toggleEvents == old(rows[k].toggleEvents) + [false]
      invariant Distinct(rows) ==> forall k :: i <= k < |rows| ==> rows[k].toggleEvents == old(rows[k].toggleEvents)
    {
      rows[i].ColumnsLocationChanged();
      i := i + 1;
    }
  }

  predicate Distinct(rows: seq<TableRow>) {
    forall i, j :: 0 <= i < j < |rows| ==> rows[i] != rows[j]
  }

  /** The as-written getter disagrees with the row's state as soon as the row is expanded. */
  lemma GetIsDetailsExpandedIgnoresState(row: TableRow)
    requires row.IsDetailsExpanded()
    ensures row.GetIsDetailsExpanded() != row.IsDetailsExpanded()
  {}

  /** Expanding, collapsing and re-expanding a row, then relocating a column. */
  method DetailsScenario(table: Table, data: RowData, toolsChildren: nat) {
    var row := new TableRow(table, data);
    row.ToggleDetails(toolsChildren);
    assert row.IsDetailsExpanded() && !row.GetIsDetailsExpanded();
    assert row.toggleEvents == [true] && row.details.attached;
    var shown := row.details.content;
    row.ToggleDetails(toolsChildren);
    assert !row.IsDetailsExpanded() && row.toggleEvents == [true, false];
    row.ToggleDetails(toolsChildren);
    assert row.details.content == shown;
    NotifyColumnsLocationChanged([row]);
    assert !row.details.attached && !row.IsDetailsExpanded();
    assert row.toggleEvents == [true, false, true, false];
  }
}

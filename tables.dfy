/**
 * The Table's column, state and permission model. The Table's own source is not part of this
 * model; what is modelled here follows what tests/tables/tables.test.ts asserts of it, and where the
 * tests leave a rule open (when the permissions callback fires, which of two entries with one name
 * wins) the model makes a choice that the tests are consistent with.
 */
module Tables {
  import opened Wrappers

  // ------------------------------------------------------------------ columns

  /** What a column shows (`ColumnDataType`): code 0 is text, code 1 a file link. */
  datatype ColumnDataType = Text | File

  /** The visibility tier of a column (`ColumnVisibility`), codes 0, 1 and 2. */
  datatype ColumnVisibility = Visible | Invisible | PublicInvisible

  /** Where a column is shown (`QuestionLocation`): in the grid (code 0) or in the row's detail panel (code 1). */
  datatype QuestionLocation = Column | Row

  /** One column of the Table; its order is its position in the Table's sequence. */
  datatype TableColumn = TableColumn(
    name: string,
    displayName: string,
    dataType: ColumnDataType,
    visibility: ColumnVisibility,
    location: QuestionLocation,
    width: Option<int>)

  function DataTypeCode(dataType: ColumnDataType): nat {
    match dataType
    case Text => 0
    case File => 1
  }

  function VisibilityCode(visibility: ColumnVisibility): nat {
    match visibility
    case Visible => 0
    case Invisible => 1
    case PublicInvisible => 2
  }

  function LocationCode(location: QuestionLocation): nat {
    match location
    case Column => 0
    case Row => 1
  }

  /** Reads a visibility of the permission exchange format; a code other than 0, 1 or 2 names no tier. */
  function VisibilityOfCode(code: int): (visibility: Option<ColumnVisibility>)
    ensures visibility.Some? <==> 0 <= code <= 2
    ensures visibility.Some? ==> VisibilityCode(visibility.value) == code
  {
    if code == 0 then Some(Visible)
    else if code == 1 then Some(Invisible)
    else if code == 2 then Some(PublicInvisible)
    else None
  }

  lemma VisibilityCodeRoundTrip(visibility: ColumnVisibility)
    ensures VisibilityOfCode(VisibilityCode(visibility)) == Some(visibility)
  {}

  // ------------------------------------------------------- columns from a survey

  /** What the Table reads of a survey question: its name, its title ("" when none is set) and its type. */
  datatype Question = Question(name: string, title: string, kind: string)

  /** The column `buildColumns` derives from one question. */
  function BuildColumn(question: Question): TableColumn {
    var isFile := question.kind == "file";
    TableColumn(
      question.name,
      if question.title != "" then question.title else question.name,
      if isFile then File else Text,
      if isFile then Invisible else Visible,
      Column,
      None)
  }

  /** `buildColumns`: one column per question, in question order. */
  function BuildColumns(questions: seq<Question>): (columns: seq<TableColumn>)
    ensures |columns| == |questions|
    ensures forall i :: 0 <= i < |questions| ==>
      && columns[i].name == questions[i].name
      && columns[i].displayName == (if questions[i].title != "" then questions[i].title else questions[i].name)
      && columns[i].dataType == (if questions[i].kind == "file" then File else Text)
      && columns[i].visibility == (if questions[i].kind == "file" then Invisible else Visible)
      && columns[i].location == Column
      && columns[i].width == None
  {
    if questions == [] then [] else [BuildColumn(questions[0])] + BuildColumns(questions[1..])
  }

  /** The survey of the tests: a required radiogroup "car" with a title and an untitled file question "photo". */
  function SampleQuestions(): seq<Question> {
    [Question("car", "What car are you driving?", "radiogroup"), Question("photo", "", "file")]
  }

  lemma BuildColumnsSample()
    ensures var columns := BuildColumns(SampleQuestions());
      && |columns| == 2
      && columns[0] == TableColumn("car", "What car are you driving?", Text, Visible, Column, None)
      && columns[1] == TableColumn("photo", "photo", File, Invisible, Column, None)
      && DataTypeCode(columns[0].dataType) == 0 && VisibilityCode(columns[0].visibility) == 0
      && LocationCode(columns[0].location) == 0
      && DataTypeCode(columns[1].dataType) == 1 && VisibilityCode(columns[1].visibility) == 1
      && LocationCode(columns[1].location) == 0
  {}

  // ---------------------------------------------------------------- visibility

  /** `isVisible`: whether a column of this tier is shown to a caller with the given trust. */
  predicate IsVisible(visibility: ColumnVisibility, isTrustedAccess: bool) {
    match visibility
    case Visible => true
    case Invisible => false
    case PublicInvisible => isTrustedAccess
  }

  lemma IsVisibleTruthTable(isTrustedAccess: bool)
    ensures !IsVisible(Invisible, isTrustedAccess)
    ensures IsVisible(Visible, isTrustedAccess)
    ensures IsVisible(PublicInvisible, isTrustedAccess) == isTrustedAccess
  {}

  /** The filter of `getAvailableColumns`: only a PublicInvisible column is withheld, and only from an untrusted caller. */
  predicate IsAvailable(visibility: ColumnVisibility, isTrustedAccess: bool) {
    isTrustedAccess || visibility != PublicInvisible
  }

  /** Every visible column is available; the two predicates disagree exactly on Invisible columns. */
  lemma VisibleIsAvailable(visibility: ColumnVisibility, isTrustedAccess: bool)
    ensures IsVisible(visibility, isTrustedAccess) ==> IsAvailable(visibility, isTrustedAccess)
    ensures (IsAvailable(visibility, isTrustedAccess) && !IsVisible(visibility, isTrustedAccess)) <==> visibility == Invisible
  {}

  /** `getAvailableColumns`: the available columns, in their original order. */
  function AvailableColumns(columns: seq<TableColumn>, isTrustedAccess: bool): (available: seq<TableColumn>)
    ensures |available| <= |columns|
    ensures forall c :: c in available ==> c in columns && IsAvailable(c.visibility, isTrustedAccess)
  {
    if columns == [] then []
    else
      (if IsAvailable(columns[0].visibility, isTrustedAccess) then [columns[0]] else [])
      + AvailableColumns(columns[1..], isTrustedAccess)
  }

  /** No available column is dropped. */
  lemma {:induction false} AvailableColumnsComplete(columns: seq<TableColumn>, isTrustedAccess: bool, c: TableColumn)
    requires c in columns && IsAvailable(c.visibility, isTrustedAccess)
    ensures c in AvailableColumns(columns, isTrustedAccess)
  {
    if columns[0] != c {
      AvailableColumnsComplete(columns[1..], isTrustedAccess, c);
    }
  }

  /** The filter keeps order: what comes from an earlier part of the columns comes first. */
  lemma {:induction false} AvailableColumnsAppend(a: seq<TableColumn>, b: seq<TableColumn>, isTrustedAccess: bool)
    ensures AvailableColumns(a + b, isTrustedAccess) == AvailableColumns(a, isTrustedAccess) + AvailableColumns(b, isTrustedAccess)
  {
    if a == [] {
      assert a + b == b;
    } else {
      assert (a + b)[1..] == a[1..] + b;
      AvailableColumnsAppend(a[1..], b, isTrustedAccess);
    }
  }

  /** A trusted caller gets every column. */
  lemma {:induction false} TrustedSeesAllColumns(columns: seq<TableColumn>)
    ensures AvailableColumns(columns, true) == columns
  {
    if columns != [] {
      TrustedSeesAllColumns(columns[1..]);
    }
  }

  // ------------------------------------------------------------------ moving

  /** `moveColumn(from, to)`: take the element at `from` out, then insert it at `to` of what remains. */
  function Moved<T>(s: seq<T>, from: nat, to: nat): (r: seq<T>)
    requires from < |s| && to < |s|
    ensures |r| == |s| && r[to] == s[from]
  {
    var rest := s[..from] + s[from + 1..];
    rest[..to] + [s[from]] + rest[to..]
  }

  /** Taking the moved element out again leaves the other elements in their old relative order. */
  lemma MovedKeepsOthersInOrder<T>(s: seq<T>, from: nat, to: nat)
    requires from < |s| && to < |s|
    ensures var r := Moved(s, from, to); r[..to] + r[to + 1..] == s[..from] + s[from + 1..]
  {
    var rest := s[..from] + s[from + 1..];
    var r := Moved(s, from, to);
    assert r[..to] == rest[..to];
    assert r[to + 1..] == rest[to..];
    assert rest[..to] + rest[to..] == rest;
  }

  /** Moving neither adds nor removes columns. */
  lemma MovedIsPermutation<T>(s: seq<T>, from: nat, to: nat)
    requires from < |s| && to < |s|
    ensures multiset(Moved(s, from, to)) == multiset(s)
  {
    var rest := s[..from] + s[from + 1..];
    assert s == s[..from] + [s[from]] + s[from + 1..];
    assert rest == rest[..to] + rest[to..];
    calc {
      multiset(Moved(s, from, to));
      multiset(rest[..to]) + multiset([s[from]]) + multiset(rest[to..]);
      multiset(rest) + multiset([s[from]]);
      multiset(s[..from]) + multiset(s[from + 1..]) + multiset([s[from]]);
      multiset(s);
    }
  }

  /** Moving back from `to` to `from` restores the original order. */
  lemma MovedBack<T>(s: seq<T>, from: nat, to: nat)
    requires from < |s| && to < |s|
    ensures Moved(Moved(s, from, to), to, from) == s
  {
    var r := Moved(s, from, to);
    MovedKeepsOthersInOrder(s, from, to);
    var rest := s[..from] + s[from + 1..];
    assert rest[..from] == s[..from];
    assert rest[from..] == s[from + 1..];
    assert s == s[..from] + [s[from]] + s[from + 1..];
  }

  // ------------------------------------------------------------------ width

  /** Whether some column carries this name. */
  predicate HasColumn(columns: seq<TableColumn>, name: string) {
    exists k :: 0 <= k < |columns| && columns[k].name == name
  }

  /** The position of the first column named `name`, or |columns| when there is none. */
  function IndexOfColumn(columns: seq<TableColumn>, name: string): (i: nat)
    ensures i <= |columns|
    ensures i < |columns| ==> columns[i].name == name
    ensures forall k :: 0 <= k < i ==> columns[k].name != name
  {
    if columns == [] then 0
    else if columns[0].name == name then 0
    else 1 + IndexOfColumn(columns[1..], name)
  }

  /** `setColumnWidth(name, width)` on the column sequence: the first column so named gets the width. */
  function WithWidth(columns: seq<TableColumn>, name: string, width: int): (r: seq<TableColumn>)
    requires HasColumn(columns, name)
    ensures |r| == |columns|
    ensures IndexOfColumn(columns, name) < |columns|
    ensures forall k :: 0 <= k < |columns| && k != IndexOfColumn(columns, name) ==> r[k] == columns[k]
    ensures r[IndexOfColumn(columns, name)] == columns[IndexOfColumn(columns, name)].(width := Some(width))
  {
    var i := IndexOfColumn(columns, name);
    columns[i := columns[i].(width := Some(width))]
  }

  // ------------------------------------------------------------- permissions

  /** One entry of the permission exchange format. */
  datatype Permission = Permission(name: string, visibility: ColumnVisibility)

  /** The `permissions` getter: name and visibility of every column, in column order. */
  function PermissionsOf(columns: seq<TableColumn>): (permissions: seq<Permission>)
    ensures |permissions| == |columns|
    ensures forall i :: 0 <= i < |columns| ==>
      permissions[i].name == columns[i].name && permissions[i].visibility == columns[i].visibility
  {
    if columns == [] then []
    else [Permission(columns[0].name, columns[0].visibility)] + PermissionsOf(columns[1..])
  }

  /** The visibility the permission setter leaves on a column named `name` that had `current`:
      the entries are applied in order, so the last entry with that name wins. */
  function GrantedVisibility(permissions: seq<Permission>, name: string, current: ColumnVisibility): ColumnVisibility {
    if permissions == [] then current
    else
      var last := permissions[|permissions| - 1];
      if last.name == name then last.visibility
      else GrantedVisibility(permissions[..|permissions| - 1], name, current)
  }

  /** The `permissions` setter on the column sequence: only visibilities change. */
  function ApplyPermissions(columns: seq<TableColumn>, permissions: seq<Permission>): (r: seq<TableColumn>)
    ensures |r| == |columns|
    ensures forall i :: 0 <= i < |columns| ==>
      r[i] == columns[i].(visibility := GrantedVisibility(permissions, columns[i].name, columns[i].visibility))
  {
    if columns == [] then []
    else
      [columns[0].(visibility := GrantedVisibility(permissions, columns[0].name, columns[0].visibility))]
      + ApplyPermissions(columns[1..], permissions)
  }

  /** An entry whose name is unique among the entries decides that column's visibility. */
  lemma {:induction false} GrantedBySoleEntry(permissions: seq<Permission>, j: nat, current: ColumnVisibility)
    requires j < |permissions|
    requires forall k :: 0 <= k < |permissions| && k != j ==> permissions[k].name != permissions[j].name
    ensures GrantedVisibility(permissions, permissions[j].name, current) == permissions[j].visibility
  {
    if j < |permissions| - 1 {
      GrantedBySoleEntry(permissions[..|permissions| - 1], j, current);
    }
  }

  /** Entries for names no column has are ignored. */
  lemma {:induction false} UnmatchedNameKeepsVisibility(permissions: seq<Permission>, name: string, current: ColumnVisibility)
    requires forall k :: 0 <= k < |permissions| ==> permissions[k].name != name
    ensures GrantedVisibility(permissions, name, current) == current
  {
    if permissions != [] {
      UnmatchedNameKeepsVisibility(permissions[..|permissions| - 1], name, current);
    }
  }

  predicate UniqueNames(columns: seq<TableColumn>) {
    forall i, j :: 0 <= i < j < |columns| ==> columns[i].name != columns[j].name
  }

  /** Entries that name the columns in column order set each column's visibility to its own entry's. */
  lemma ApplyMatchingPermissions(columns: seq<TableColumn>, permissions: seq<Permission>)
    requires UniqueNames(columns) && |permissions| == |columns|
    requires forall k :: 0 <= k < |columns| ==> permissions[k].name == columns[k].name
    ensures forall i :: 0 <= i < |columns| ==>
      ApplyPermissions(columns, permissions)[i] == columns[i].(visibility := permissions[i].visibility)
  {
    forall i | 0 <= i < |columns|
      ensures GrantedVisibility(permissions, columns[i].name, columns[i].visibility) == permissions[i].visibility
    {
      forall k | 0 <= k < |permissions| && k != i
        ensures permissions[k].name != permissions[i].name
      {
        assert permissions[k].name == columns[k].name;
      }
      GrantedBySoleEntry(permissions, i, columns[i].visibility);
    }
  }

  /** Setting the unmodified permissions back changes no column. */
  lemma ReapplyPermissions(columns: seq<TableColumn>)
    requires UniqueNames(columns)
    ensures ApplyPermissions(columns, PermissionsOf(columns)) == columns
  {
    var permissions := PermissionsOf(columns);
    ApplyMatchingPermissions(columns, permissions);
    var r := ApplyPermissions(columns, permissions);
    forall i | 0 <= i < |columns|
      ensures r[i] == columns[i]
    {
      assert r[i] == columns[i].(visibility := columns[i].visibility);
    }
  }

  /** Changing one entry of the permissions and setting them changes that column's visibility and nothing else. */
  lemma ChangeOnePermission(columns: seq<TableColumn>, j: nat, visibility: ColumnVisibility)
    requires UniqueNames(columns) && j < |columns|
    ensures var r := ApplyPermissions(columns, PermissionsOf(columns)[j := Permission(columns[j].name, visibility)]);
      && r[j] == columns[j].(visibility := visibility)
      && forall k :: 0 <= k < |columns| && k != j ==> r[k] == columns[k]
  {
    var original := PermissionsOf(columns);
    var permissions := original[j := Permission(columns[j].name, visibility)];
    ApplyMatchingPermissions(columns, permissions);
    var r := ApplyPermissions(columns, permissions);
    forall k | 0 <= k < |columns| && k != j
      ensures r[k] == columns[k]
    {
      assert permissions[k] == original[k];
      assert r[k] == columns[k].(visibility := columns[k].visibility);
    }
  }

  // ------------------------------------------------------------------- state

  /** The serialisable snapshot of a Table; `elements` is its column layout. */
  datatype TableState = TableState(locale: string, elements: seq<TableColumn>, pageSize: int)

  class Table {
    var columns: seq<TableColumn>
    var isTrustedAccess: bool
    var locale: string
    var pageSize: int
    /** How many times `onStateChanged` has fired. */
    var stateChangedCount: nat
    /** How many times `onPermissionsChangedCallback` has been called. */
    var permissionsChangedCount: nat

    constructor (questions: seq<Question>, isTrustedAccess: bool)
      ensures columns == BuildColumns(questions) && this.isTrustedAccess == isTrustedAccess
      ensures State() == TableState("", BuildColumns(questions), 5)
      ensures stateChangedCount == 0 && permissionsChangedCount == 0
    {
      columns := BuildColumns(questions);
      this.isTrustedAccess := isTrustedAccess;
      locale := "";
      pageSize := 5;
      stateChangedCount := 0;
      permissionsChangedCount := 0;
    }

    /** The `state` getter. */
    function State(): TableState
      reads this
    {
      TableState(locale, columns, pageSize)
    }

    /** The `state` setter: restores a snapshot and fires nothing. */
    method SetState(state: TableState)
      modifies this
      ensures State() == state
      ensures isTrustedAccess == old(isTrustedAccess)
      ensures stateChangedCount == old(stateChangedCount)
      ensures permissionsChangedCount == old(permissionsChangedCount)
    {
      locale := state.locale;
      columns := state.elements;
      pageSize := state.pageSize;
    }

    /** The `locale` setter: fires `onStateChanged` once. */
    method SetLocale(newLocale: string)
      modifies this
      ensures State() == old(State()).(locale := newLocale)
      ensures isTrustedAccess == old(isTrustedAccess)
      ensures stateChangedCount == old(stateChangedCount) + 1
      ensures permissionsChangedCount == old(permissionsChangedCount)
    {
      locale := newLocale;
      stateChangedCount := stateChangedCount + 1;
    }

    function GetPageSize(): int
      reads this
    {
      pageSize
    }

    /** `setPageSize`: fires `onStateChanged` once. */
    method SetPageSize(newPageSize: int)
      modifies this
      ensures State() == old(State()).(pageSize := newPageSize)
      ensures isTrustedAccess == old(isTrustedAccess)
      ensures stateChangedCount == old(stateChangedCount) + 1
      ensures permissionsChangedCount == old(permissionsChangedCount)
    {
      pageSize := newPageSize;
      stateChangedCount := stateChangedCount + 1;
    }

    predicate IsColumnVisible(visibility: ColumnVisibility)
      reads this
    {
      IsVisible(visibility, isTrustedAccess)
    }

    /** `getAvailableColumns`: for an untrusted caller, the columns that are not PublicInvisible;
        for a trusted one, all of them. */
    function GetAvailableColumns(): (available: seq<TableColumn>)
      reads this
      ensures forall c :: c in available ==> c in columns && IsAvailable(c.visibility, isTrustedAccess)
      ensures isTrustedAccess ==> available == columns
    {
      if isTrustedAccess then TrustedSeesAllColumns(columns); AvailableColumns(columns, isTrustedAccess)
      else AvailableColumns(columns, isTrustedAccess)
    }

    /** `moveColumn`: a reorder of the columns. */
    method MoveColumn(from: nat, to: nat)
      requires from < |columns| && to < |columns|
      modifies this
      ensures columns == Moved(old(columns), from, to)
      ensures locale == old(locale) && pageSize == old(pageSize) && isTrustedAccess == old(isTrustedAccess)
      ensures stateChangedCount == old(stateChangedCount)
      ensures permissionsChangedCount == old(permissionsChangedCount)
    {
      columns := Moved(columns, from, to);
    }

    /** `setColumnWidth`: sets the width of the named column and fires `onStateChanged` once. */
    method SetColumnWidth(name: string, width: int)
      requires HasColumn(columns, name)
      modifies this
      ensures columns == WithWidth(old(columns), name, width)
      ensures locale == old(locale) && pageSize == old(pageSize) && isTrustedAccess == old(isTrustedAccess)
      ensures stateChangedCount == old(stateChangedCount) + 1
      ensures permissionsChangedCount == old(permissionsChangedCount)
    {
      columns := WithWidth(columns, name, width);
      stateChangedCount := stateChangedCount + 1;
    }

    /** The `permissions` getter. */
    function Permissions(): seq<Permission>
      reads this
    {
      PermissionsOf(columns)
    }

    /** The `permissions` setter: applies the visibilities and calls the callback once when one changed. */
    method SetPermissions(permissions: seq<Permission>)
      modifies this
      ensures columns == ApplyPermissions(old(columns), permissions)
      ensures permissionsChangedCount == old(permissionsChangedCount) + (if columns == old(columns) then 0 else 1)
      ensures locale == old(locale) && pageSize == old(pageSize) && isTrustedAccess == old(isTrustedAccess)
      ensures stateChangedCount == old(stateChangedCount)
    {
      var updated := ApplyPermissions(columns, permissions);
      if updated != columns {
        permissionsChangedCount := permissionsChangedCount + 1;
      }
      columns := updated;
    }
  }

  // --------------------------------------------------- the scenarios of the tests

  /** Three columns that differ only in name and visibility tier. */
  function VisibilityColumns(): seq<TableColumn> {
    [ TableColumn("visible", "visible", Text, Visible, Column, None),
      TableColumn("invisible", "invisible", Text, Invisible, Column, None),
      TableColumn("publicinvisible", "publicinvisible", Text, PublicInvisible, Column, None) ]
  }

  function PlainColumn(name: string): TableColumn {
    TableColumn(name, name, Text, Visible, Column, None)
  }

  method AvailableColumnsScenario() {
    var table := new Table([], false);
    var columns := VisibilityColumns();
    table.SetState(TableState("", columns, 5));
    assert columns[1..][1..][1..] == [];
    assert table.GetAvailableColumns() == [columns[0], columns[1]];
    table.isTrustedAccess := true;
    TrustedSeesAllColumns(columns);
    assert table.GetAvailableColumns() == columns;
  }

  method MoveColumnScenario() {
    var table := new Table([], false);
    var c1, c2, c3 := PlainColumn("column1"), PlainColumn("column2"), PlainColumn("column3");
    table.SetState(TableState("", [c1, c2, c3], 5));
    table.MoveColumn(0, 1);
    assert table.columns == [c2, c1, c3];
    table.MoveColumn(0, 2);
    assert table.columns == [c1, c3, c2];
  }

  method StateScenario() {
    var table := new Table([], false);
    assert table.State() == TableState("", [], 5);
    table.SetState(TableState("fr", [], 5));
    assert table.State() == TableState("fr", [], 5) && table.stateChangedCount == 0;
    table.SetLocale("ru");
    assert table.stateChangedCount == 1 && table.State().locale == "ru";
  }

  method PageSizeScenario() {
    var table := new Table([], false);
    table.SetPageSize(2);
    assert table.stateChangedCount == 1 && table.State().pageSize == 2;
    table.SetState(TableState("", [], 4));
    assert table.GetPageSize() == 4;
  }

  method ColumnWidthScenario() {
    var table := new Table([], false);
    table.SetState(TableState("", [PlainColumn("column1")], 5));
    assert table.columns[0].name == "column1";
    table.SetColumnWidth("column1", 50);
    assert table.columns[0].width == Some(50) && table.stateChangedCount == 1;
  }

  method PermissionsScenario() {
    var table := new Table(SampleQuestions(), false);
    BuildColumnsSample();
    var permissions := table.Permissions();
    ReapplyPermissions(table.columns);
    table.SetPermissions(permissions);
    assert table.permissionsChangedCount == 0;
    assert table.Permissions()[0] == Permission("car", Visible);
    var changed := table.Permissions()[0 := Permission("car", VisibilityOfCode(2).value)];
    ChangeOnePermission(table.columns, 0, PublicInvisible);
    table.SetPermissions(changed);
    assert table.permissionsChangedCount == 1;
    assert table.Permissions()[0].visibility == PublicInvisible;
  }
}

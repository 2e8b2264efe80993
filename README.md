# survey-analytics table core, modelled in Dafny

This project models the tabular core of the survey-analytics dashboard and proves properties of
that model. It covers:

- **Tables**: the Table's columns, derived from a survey's questions. Each column has a name, a
  display name, a data type, a visibility tier (Visible, Invisible, PublicInvisible), a location
  (grid column or detail row) and an optional width. The module also covers:
  - the `isVisible` rule and the `getAvailableColumns` filter;
  - `moveColumn` and `setColumnWidth`;
  - the `permissions` exchange format;
  - the `state` snapshot with its locale and page size;
  - how often `onStateChanged` and `onPermissionsChangedCallback` fire.

  The Table's own source is not part of this model. Its behaviour follows what
  `tests/tables/tables.test.ts` asserts. Where the tests leave a rule open, the model makes a choice
  the tests agree with; "## Left out" names each such choice.
- **DetailsContent**: what a row's detail panel lists. There is one record per column located in
  the row, in column order. Each record holds the column's display name, the row's value for it and
  a "show as column" control. A trailing tools cell follows only when the tools rendered something.
- **RowTools**: from `src/tables/tools/rowtools.ts`.
  - A grid row's expand/collapse state machine: `openDetails`, `closeDetails` and `toggleDetails`,
    the CSS marker, and the `onToggleDetails` payloads.
  - Its detail panel (`Details.open` / `close`, tools cell spanning one column).
  - The broadcast of the Table's `onColumnsLocationChanged` to every row.
- **DetailsExtensions**: the detail panel of `src/tables/extensions/detailsextensions.ts`. Its
  extensions cell spans three columns, and its `close` detaches only an attached panel.
- **Visualization**: the visualizer registry of `src/visualizationManager.ts`, covering per-type
  constructor lists, the `VisualizerBase` fallback and the alternatives visualizer.
- **Visualizer**: the non-DOM logic of `src/visualizerBase.ts`. This is:
  - the colour palette and `getColors`;
  - the series fallbacks and the name fallback;
  - toolbar-item registration and creation, and the `showHeader` setter;
  - the lazily created, cached footer visualizer;
  - the `render` / `updateData` / `destroy` lifecycle.

Objects the source updates in place are classes: `Table`, `TableRow`, both `Details`,
`VisualizationManager` and `VisualizerBase`. Their methods state their whole new state. The
functions they are specified by carry the lemmas. DOM elements are opaque handles. Event
subscribers are modelled as counters or as lists of fired payloads.

Two Table rules read differently from what their names suggest. The model follows
`tests/tables/tables.test.ts`:

- `buildColumns` gives the file question visibility code 1 (Invisible) and the radiogroup
  question code 0 (tables.test.ts:41). The model extends the radiogroup's case to every question
  that is not a file question; "## Left out" says so.
- `getAvailableColumns` is not `isVisible`. For an untrusted caller it keeps Invisible columns and
  withholds only PublicInvisible ones (tables.test.ts:144-145). `Tables.VisibleIsAvailable` states
  where the two differ.

## Model

| member | source | states |
|---|---|---|
| Tables.VisibilityOfCode | tests/tables/tables.test.ts:77-86 | a permission visibility code names a tier exactly when it is 0, 1 or 2, and the tier named has that code |
| Tables.VisibilityCodeRoundTrip | tests/tables/tables.test.ts:77-86 | encoding a tier and decoding the code gives the tier back |
| Tables.BuildColumns | tests/tables/tables.test.ts:34-43 | one column per question, in order; a file question gives a File/Invisible column, any other a Text/Visible one; the display name is the title, or the name when untitled; location Column, no width |
| Tables.BuildColumnsSample | tests/tables/tables.test.ts:34-43 | the two columns of the fixture survey, with data type, visibility and location codes 0,0,0 and 1,1,0 |
| Tables.IsVisible | tests/tables/tables.test.ts:45-55 | the `isVisible` rule; a definition with no contract of its own, whose truth table `Tables.IsVisibleTruthTable` states |
| Tables.IsVisibleTruthTable | tests/tables/tables.test.ts:45-55 | Invisible is never visible, Visible always is, PublicInvisible exactly for a trusted caller |
| Tables.IsAvailable | tests/tables/tables.test.ts:144-148 | the filter of `getAvailableColumns`; a definition with no contract of its own, compared with `isVisible` by `Tables.VisibleIsAvailable` |
| Tables.VisibleIsAvailable | tests/tables/tables.test.ts:119-149 | every visible column is available, and a column is available but not visible exactly when it is Invisible |
| Tables.AvailableColumns | tests/tables/tables.test.ts:119-149 | the available columns are columns of the table that pass the trust filter, no more of them than there are columns |
| Tables.AvailableColumnsComplete | tests/tables/tables.test.ts:119-149 | no column passing the filter is dropped |
| Tables.AvailableColumnsAppend | tests/tables/tables.test.ts:144-148 | the filter keeps the original column order |
| Tables.TrustedSeesAllColumns | tests/tables/tables.test.ts:146-148 | a trusted caller gets every column, unchanged and in order |
| Tables.Moved | tests/tables/tables.test.ts:151-182 | moving keeps the length and puts the element from `from` at `to` |
| Tables.MovedKeepsOthersInOrder | tests/tables/tables.test.ts:176-181 | apart from the moved column, the columns keep their relative order |
| Tables.MovedIsPermutation | tests/tables/tables.test.ts:151-182 | moving neither adds nor removes columns (same multiset) |
| Tables.MovedBack | tests/tables/tables.test.ts:151-182 | moving from `to` back to `from` restores the original sequence |
| Tables.IndexOfColumn | tests/tables/tables.test.ts:213-214 | the index found is that of the first column with the name, or the length when there is none |
| Tables.WithWidth | tests/tables/tables.test.ts:202-215 | the first column with that name (at `IndexOfColumn`) gets the given width and keeps its other fields; every other column, including later ones with the same name, is unchanged |
| Tables.PermissionsOf | tests/tables/tables.test.ts:66-87 | one entry per column, in column order, carrying its name and visibility |
| Tables.ApplyPermissions | tests/tables/tables.test.ts:66-87 | setting permissions changes only visibilities: each column takes the visibility of the last entry with its name, or keeps its own |
| Tables.GrantedBySoleEntry | tests/tables/tables.test.ts:80-86 | an entry whose name no other entry has decides that column's visibility |
| Tables.UnmatchedNameKeepsVisibility | tests/tables/tables.test.ts:66-87 | entries for names no column has are ignored |
| Tables.ApplyMatchingPermissions | tests/tables/tables.test.ts:80-86 | entries that name the columns in column order (as the getter returns them) set each column's visibility to its own entry's |
| Tables.ReapplyPermissions | tests/tables/tables.test.ts:70-71 | setting the unmodified permissions back changes no column; under `SetPermissions`'s firing rule the callback then does not fire |
| Tables.ChangeOnePermission | tests/tables/tables.test.ts:80-86 | changing one entry's visibility and setting the permissions changes that column's visibility and nothing else |
| Tables.Table.constructor | tests/tables/tables.test.ts:89-108 | a new table holds the derived columns, locale "" and page size 5, and no event has fired |
| Tables.Table.State | tests/tables/tables.test.ts:89-117 | the `state` getter; a definition with no contract of its own: locale, columns and page size, which every state-changing method's contract is stated through |
| Tables.Table.SetState | tests/tables/tables.test.ts:108-112 | the state setter restores the snapshot and fires nothing |
| Tables.Table.SetLocale | tests/tables/tables.test.ts:57-64 | the locale setter changes only the locale and fires `onStateChanged` once |
| Tables.Table.GetPageSize | tests/tables/tables.test.ts:194-199 | `getPageSize`; a definition with no contract of its own, returning the page size that `SetState` and `SetPageSize` set |
| Tables.Table.IsColumnVisible | tests/tables/tables.test.ts:45-55 | `isVisible` on the table's own trust flag; a definition with no contract of its own, whose truth table `Tables.IsVisibleTruthTable` states |
| Tables.Table.GetAvailableColumns | tests/tables/tables.test.ts:119-149 | every column returned is a column of the table that passes the trust filter, and a trusted caller gets all columns in order |
| Tables.Table.Permissions | tests/tables/tables.test.ts:77-78 | the `permissions` getter; a definition with no contract of its own, whose result `Tables.PermissionsOf` characterises |
| Tables.Table.SetPageSize | tests/tables/tables.test.ts:184-200 | `setPageSize` changes only the page size and fires `onStateChanged` once |
| Tables.Table.MoveColumn | tests/tables/tables.test.ts:151-182 | `moveColumn` reorders the columns as `Moved` does and changes nothing else |
| Tables.Table.SetColumnWidth | tests/tables/tables.test.ts:202-234 | `setColumnWidth` sets the named column's width and fires `onStateChanged` once |
| Tables.Table.SetPermissions | tests/tables/tables.test.ts:66-87 | the permissions setter applies the visibilities and calls the callback once exactly when some column changed |
| DetailsContent.DetailRecords | src/tables/tools/rowtools.ts:143-159 | the panel holds only records, at most one per column |
| DetailsContent.DetailRecordsAppend | src/tables/tools/rowtools.ts:144-159 | records follow column order |
| DetailsContent.DetailRecordsMembership | src/tables/tools/rowtools.ts:144-159 | a record is shown exactly for a column located in the row: its display name, the row's value ("" when missing) and the control for that column |
| DetailsContent.DetailRecordsCount | src/tables/tools/rowtools.ts:144-159 | there are exactly as many records as columns located in the row |
| DetailsContent.DetailRows | src/tables/tools/rowtools.ts:141-173 | the whole panel `open` builds; a definition with no contract of its own, whose shape `DetailsContent.DetailRowsShape` states |
| DetailsContent.DetailRowsShape | src/tables/tools/rowtools.ts:160-171 | the records come first; the tools cell, with its column span, is appended exactly when it received a child |
| RowTools.Details.constructor | src/tables/tools/rowtools.ts:124-137 | a new panel is empty and detached |
| RowTools.Details.Open | src/tables/tools/rowtools.ts:141-173 | `open` replaces the panel's content with the row's records and a one-column tools cell, and attaches it |
| RowTools.Details.Close | src/tables/tools/rowtools.ts:189-191 | `close` detaches the panel, keeps its content, and on a detached panel changes nothing |
| RowTools.TableRow.constructor | src/tables/tools/rowtools.ts:10-24 | a new row is collapsed and unmarked, with a fresh, empty, detached panel and no event fired |
| RowTools.TableRow.GetIsDetailsExpanded | src/tables/tools/rowtools.ts:33-35 | (as written) a definition with no contract of its own that answers false in every state; `RowTools.GetIsDetailsExpandedIgnoresState` shows the disagreement |
| RowTools.TableRow.IsDetailsExpanded | src/tables/tools/rowtools.ts:24 | (corrected) a definition with no contract of its own that reports the expanded flag; `OpenDetails`, `CloseDetails` and `ToggleDetails` state how it changes |
| RowTools.GetIsDetailsExpandedIgnoresState | src/tables/tools/rowtools.ts:33-35 | on an expanded row the as-written getter disagrees with the row's state |
| RowTools.TableRow.OpenDetails | src/tables/tools/rowtools.ts:41-46 | the panel is rebuilt and attached, the row is marked and expanded, and `{isExpanded: true}` is fired |
| RowTools.TableRow.CloseDetails | src/tables/tools/rowtools.ts:48-53 | the panel is detached, the row is unmarked and collapsed, and `{isExpanded: false}` is fired even on a collapsed row |
| RowTools.TableRow.ToggleDetails | src/tables/tools/rowtools.ts:55-59 | the expanded state flips; marker and attachment follow it, and the fired payload is the new state |
| RowTools.TableRow.ColumnsLocationChanged | src/tables/tools/rowtools.ts:17-19 | after a column is relocated, the row is collapsed, unmarked and detached, and one `{isExpanded: false}` is fired |
| RowTools.NotifyColumnsLocationChanged | src/tables/tools/rowtools.ts:134-136 | after the broadcast no row is expanded, marked or attached, every panel keeps its content, and each distinct row has fired exactly one `false` |
| DetailsExtensions.Details.constructor | src/tables/extensions/detailsextensions.ts:9-22 | a new panel is empty and detached |
| DetailsExtensions.Details.Open | src/tables/extensions/detailsextensions.ts:26-58 | `open` replaces the content with the row's records and a three-column extensions cell, and attaches the panel |
| DetailsExtensions.Details.Close | src/tables/extensions/detailsextensions.ts:74-78 | `close` detaches an attached panel, keeps its content, and changes nothing on a detached one |
| DetailsExtensions.NotifyColumnsLocationChanged | src/tables/extensions/detailsextensions.ts:19-21 | after the broadcast no panel is attached, and every panel keeps its content |
| Visualization.WithVisualizer | src/visualizationManager.ts:16-26 | registering appends the constructor to its type's list, creating the list when absent, and leaves every other type untouched |
| Visualization.VisualizersByType | src/visualizationManager.ts:30-36 | the lookup with its `[VisualizerBase]` fallback; a definition with no contract of its own, whose result after any registrations `Visualization.ReplayLookup` states |
| Visualization.ReplayLookup | src/visualizationManager.ts:16-36 | after any run of registrations, a type's list is exactly what was registered for it, in order with duplicates, and an unregistered type gets `[VisualizerBase]` |
| Visualization.VisualizationManager.constructor | src/visualizationManager.ts:11-12 | the registry starts empty, with no alternatives visualizer |
| Visualization.VisualizationManager.RegisterVisualizer | src/visualizationManager.ts:16-26 | the registry becomes `WithVisualizer` of the old one; lists stay non-empty |
| Visualization.VisualizationManager.GetVisualizersByType | src/visualizationManager.ts:30-36 | the result is the registered list for a type that has one, and `[VisualizerBase]` otherwise; never empty |
| Visualization.VisualizationManager.RegisterAlternativesVisualizer | src/visualizationManager.ts:40-48 | the getter then returns the registered constructor, or `VisualizerBase` when it is undefined |
| Visualization.VisualizationManager.GetAlternativesVisualizer | src/visualizationManager.ts:40-42 | the registered alternatives visualizer or `VisualizerBase`; a definition with no contract of its own, stated through `RegisterAlternativesVisualizer`'s contract |
| Visualizer.Palette | src/visualizerBase.ts:291-296 | the custom colours when there are any, else the ten built-in colours; never empty |
| Visualizer.RepeatLength | src/visualizerBase.ts:298-302 | `count` repetitions hold `count` times the palette's colours |
| Visualizer.RepeatAt | src/visualizerBase.ts:298-302 | colour `i` of the repetition is palette colour `i mod n` |
| Visualizer.ToolbarItems | src/visualizerBase.ts:144-151 | at most one toolbar item per registered creator |
| Visualizer.ToolbarItemsSound | src/visualizerBase.ts:144-151 | every toolbar item is what some registered creator returned |
| Visualizer.ToolbarItemsComplete | src/visualizerBase.ts:144-151 | every creator that returns an element puts it on the toolbar |
| Visualizer.ToolbarItemsAppend | src/visualizerBase.ts:145-150 | items keep registration order: the items of earlier creators come first |
| Visualizer.ToolbarItemsCount | src/visualizerBase.ts:145-150 | each creator that returns an element contributes exactly one item, and a creator returning nothing contributes none |
| Visualizer.VisualizerBase.constructor | src/visualizerBase.ts:10-32 | the header is shown, there is no footer, nothing is rendered, and the own provider holds the data unless a provider was given |
| Visualizer.VisualizerBase.HasFooter | src/visualizerBase.ts:42-46 | whether the question takes a comment or an "other" answer; a definition with no contract of its own, which `GetFooterVisualizer`, `UpdateData` and `Render` state their footer behaviour through |
| Visualizer.VisualizerBase.Name | src/visualizerBase.ts:96-98 | the name is never empty: the given name, or "visualizer" when none or "" was given |
| Visualizer.VisualizerBase.GetSeriesValues | src/visualizerBase.ts:73-75 | a definition with no contract of its own: the configured series values, or none |
| Visualizer.VisualizerBase.GetSeriesLabels | src/visualizerBase.ts:77-79 | a definition with no contract of its own: the configured labels, else the series values |
| Visualizer.VisualizerBase.GetColors | src/visualizerBase.ts:291-305 | `max(count, 0)` copies of the palette: colour `i` is palette colour `i mod n` |
| Visualizer.VisualizerBase.RegisterToolbarItem | src/visualizerBase.ts:89-94 | a new name is added at the end, an existing one keeps its place and gets the new creator; nothing else changes |
| Visualizer.VisualizerBase.CreateToolbarItems | src/visualizerBase.ts:144-151 | the toolbar gets every creator's element appended in registration order, skipping empty results |
| Visualizer.VisualizerBase.GetFooterVisualizer | src/visualizerBase.ts:57-71 | nothing without a footer; otherwise the cached footer visualizer, created on first access for the question's comment and reused after |
| Visualizer.VisualizerBase.UpdateData | src/visualizerBase.ts:111-118 | the own provider's data is replaced unless a provider was given; with a footer, the data is forwarded to the cached footer visualizer, or to one created for the question's comment on first use; nothing else changes |
| Visualizer.VisualizerBase.Render | src/visualizerBase.ts:225-248 | the target and the three containers are recorded, the toolbar shows the created items when the header is shown, and a footer visualizer exists exactly when there is a footer: the cached one is kept, otherwise one is created for the question's comment; nothing else changes |
| Visualizer.VisualizerBase.SetShowHeader | src/visualizerBase.ts:307-318 | an unchanged value does nothing; a changed one re-renders a rendered toolbar for the new value and changes nothing else |
| Visualizer.VisualizerBase.Destroy | src/visualizerBase.ts:126-142 | a rendered visualizer forgets its containers and empties its toolbar; a cached footer visualizer is disposed and forgotten |

## Left out

- DOM markup is not modelled. Elements are opaque handles, and class names, `innerHTML` and styles are left out.
- The TableTools and TableExtensions registries are outside this model. A detail panel is told how many children its tools or extensions cell received.
- `refresh`, which defers redrawing with `setTimeout`, is left out, and so is `onDataChanged`.
- `getRandomColor` uses `Math.random` and is left out.
- `getValues`, `getLabels`, `getData`, `dataName`, `createVisualizer` and `VisualizerFactory` are left out. They are either unimplemented stubs or depend on code outside this model.
- The `columnsChanged` subscription of the DataTables row, which re-renders its tools, is left out.
- Rendering the row tools (`TableRow.render`, `RowTools`, `DetailsTools`) is left out, because it delegates to the tools registry.
- The "show as column" button's click handler is left out. It calls the Table's `setColumnLocation`, which is not part of this model. A record names the column the button moves.
- `TabulatorRow` and `DatatablesRow` are left out. As a modelling choice, a row's data is a const field fixed when the row is made. That matches `DatatablesRow`, which copies its element and data once (rowtools.ts:88-89). It does not match `TabulatorRow`, whose `getElement()` and `getData()` ask the library row again on every call (rowtools.ts:71-77). Reopening a Tabulator row whose data changed shows the new values, because `open` reads the data when it runs (rowtools.ts:152). The model cannot show this.
- `Object.keys` lists integer-like keys first. The model keeps insertion order for toolbar-item names.
- Prototype keys such as `"constructor"` in the visualizer registry object are not modelled.
- The registry's static fields are modelled as one `VisualizationManager` object.
- The footer visualizer's `onUpdate` wiring is left out.
- `options.renderContent` and `options.destroyContent` are left out.
- The footer's collapse/expand button is left out.
- A non-array `customColors` is not modelled. Custom colours are a sequence.
- Tables.Table.MoveColumn: requires both indices to be in range, so how `splice` clamps out-of-range indices is not modelled. It is also not modelled as firing `onStateChanged`, because the tests do not say whether it does.
- Tables.Table.SetColumnWidth: requires a column with that name. The Table's source is not part of this model, and the tests only use existing names.
- Tables.Table.SetLocale: fires `onStateChanged` even when the locale is unchanged. The tests only set a new value.
- Tables.AvailableColumns: filters by visibility tier only. Whether the Table's source also filters by location is not visible in the tests.
- Tables.BuildColumns: derives a column from every question given. Which questions the survey engine reports as visible is outside this model. Any question that is not a file question gets a Text/Visible column. This is a modelling choice, since the fixture has only one such question, a radiogroup (tables.test.ts:11-23, 41).
- Tables.Table.State: the snapshot's `elements` is the column sequence itself, so `SetState` replaces the columns with it. This is a modelling choice, since the tests only use `elements: []` (tables.test.ts:94, 99, 198).
- Tables.WithWidth: widens only the first of several columns with the same name. This is a modelling choice, since the tests use a single column (tables.test.ts:204-213).
- Tables.Table.constructor: takes only the survey's questions and the trust flag. The other constructor arguments (the data, the options and the permissions, passed as `[]`, `null` and `[]` at tables.test.ts:36) are not modelled.
- Visualization.VisualizationManager.GetVisualizersByType: returns the registered list as a value. The source returns the registry's own array (visualizationManager.ts:35), so a result a caller holds sees later registrations (line 25), and a caller that changes it changes the registry. This aliasing is not modelled.
- Tables.Table.SetPermissions: calls the callback only when some column's visibility changed. This is a modelling choice. The tests set the unmodified permissions back before the callback is attached (tables.test.ts:70-73), so they fit a setter that always fires just as well.
- Tables.ApplyPermissions: when two entries share a name, the last one wins. This is a modelling choice, since the tests never pass duplicate names.
- Visualizer.VisualizerBase.GetColors: `count` is an integer with no default. The source's default of 10 and a fractional `count` are not modelled; a loop up to `2.5` runs three times.
- RowTools.NotifyColumnsLocationChanged: states the fired payloads only when the rows are distinct objects. A row listed twice would be notified twice.

## Findings

| source | as written | input that shows it | evidently intended | confidence | as-written member | corrected member |
|---|---|---|---|---|---|---|
| src/tables/tools/rowtools.ts:33-35 | `getIsDetailsExpanded` returns false unconditionally, ignoring the `isDetailsExpanded` field that `openDetails`/`closeDetails` maintain | any row after `openDetails()`: the field is true, the getter answers false | the getter reports the field | high, not executed | RowTools.GetIsDetailsExpandedIgnoresState | RowTools.TableRow.IsDetailsExpanded |

The corrected getter is what `OpenDetails`, `CloseDetails`, `ToggleDetails` and the broadcast use.
Their contracts prove the intended property: the getter is true after opening, false after
closing, and flips on every toggle.

# Query-state model of the advanced filterable data grid

The grid is a filterable, sortable, paginated table. Its only logic is the
query state it keeps: the `IFilter` value, which holds a list of filter
criteria (field, operator, value), a list of order entries (field, direction),
an optional `offset` and an optional `limit`. The model covers three parts.

- **Table reducers.** These build a new state from the old one when the user
  clicks sort, replaces or removes filters, changes page or changes page size.
  The table also keeps some state of its own: the lit sort arrow and which
  column's filter editor is open.
- **Filter editor.** This is a small state machine over a tentative list of
  conditions and a draft condition. It has add, remove, apply, cancel, draft
  edits and a resync. It also holds the table of operators each column type
  offers.
- **Encoder.** The grid turns the state into an ordered list of calls on the
  filter library's query builder. It keeps the committed state, replaces it
  wholesale on each change, and recomputes the query once per change.

Modules, one per source file plus the shared data model:

- `query_model.dfy` (`Model`): the datatypes, the `limit || 10` and
  `offset || 0` readings, and `Math.floor` division (`FloorDiv`). Dafny's `/`
  agrees with `Math.floor` only for a positive divisor, so `FloorDiv` handles
  both signs.
- `filterable_table.dfy` (`Table`): the reducers as functions over
  `QueryState`, the class `TableState` for the component's own fields, and
  the lemmas.
- `filter_popover.dfy` (`Popover`): the operator table, and the class
  `FilterEditor` with the editor's handlers.
- `data_grid.dfy` (`Grid`): builder calls as a datatype; `FilterBuilder`, a
  recorder of calls; `UpdateQueryString`, proved against the specification
  function `Encode`; `Parse`, its inverse; and the class `DataGrid`.

The table's chip removal is modelled as the code behaves
(`Table.RemoveFilter`). It compares the chip's per-column index with the
entry's position in the whole list. See "## Findings".

## Model

| member | source | states |
|---|---|---|
| `Model.PageSize` | src/AdvancedFiltrableDataGrid/AdvancedFilterableDataGrid.tsx:49 | the page size is never 0: it is the limit when that is set and non-zero, otherwise 10 |
| `Model.FloorDiv` | src/AdvancedFiltrableDataGrid/FilterableTable.tsx:220 | the result is the floor of the real quotient, for either sign of divisor |
| `Model.DisplayedPage` | src/AdvancedFiltrableDataGrid/FilterableTable.tsx:220 | the page shown is the one whose rows contain the offset: `size * p <= offset < size * (p + 1)`, reading offset as `offset || 0` and size as `limit || 10` (mirrored for a negative size) |
| `Model.FloorDivMultiple` | src/AdvancedFiltrableDataGrid/FilterableTable.tsx:115 | an offset of p whole pages floors back to page p, for every p and every non-zero page size |
| `Model.InitialState` | src/AdvancedFiltrableDataGrid/AdvancedFilterableDataGrid.tsx:28-30 | with no caller state, the start state is exactly `{ filter: [], order: [], offset: 0, limit: 10 }` (so offset 0 and page size 10); otherwise it is the caller's state |
| `Table.NextDirection` | src/AdvancedFiltrableDataGrid/FilterableTable.tsx:49-54 | the new direction is descending exactly when the clicked field is the sorted one and it was ascending |
| `Table.SortDirectionRule` | src/AdvancedFiltrableDataGrid/FilterableTable.tsx:49-54 | a click on the sorted field flips the direction; a click on any other field, or with nothing sorted, gives ascending |
| `Table.SortTwiceToggles` | src/AdvancedFiltrableDataGrid/FilterableTable.tsx:44-69 | repeated clicks on one column alternate the direction |
| `Table.SortBy` | src/AdvancedFiltrableDataGrid/FilterableTable.tsx:56-64 | after a sort click, `order` is the single entry (field, new direction); filters, offset and limit are unchanged |
| `Table.TableState.constructor` | src/AdvancedFiltrableDataGrid/FilterableTable.tsx:39-42 | nothing sorted, direction ascending, editor closed |
| `Table.TableState.HandleSortChange` | src/AdvancedFiltrableDataGrid/FilterableTable.tsx:44-72 | the sort arrow moves to the clicked field with the new direction; the state committed is `SortBy` of the old state; the editor fields are unchanged |
| `Table.TableState.HandleFilterClick` | src/AdvancedFiltrableDataGrid/FilterableTable.tsx:74-80 | the editor opens for the clicked column; the sort fields are unchanged |
| `Table.TableState.HandleFilterClose` | src/AdvancedFiltrableDataGrid/FilterableTable.tsx:82-85 | both the anchor and the open field are cleared |
| `Table.TableState.EditorFilters` | src/AdvancedFiltrableDataGrid/FilterableTable.tsx:230-232 | with no open field the editor gets no conditions; otherwise it gets the open field's conditions in list order, and a condition is among them exactly when the list holds a criterion of the open field with that condition |
| `Table.FieldConditions` | src/AdvancedFiltrableDataGrid/FilterableTable.tsx:184-186 | a column never shows more chips than there are criteria |
| `Table.FieldConditionsInOrder` | src/AdvancedFiltrableDataGrid/FilterableTable.tsx:184-186 | a column's chips, bound back to the column, occur in the criteria list in the same order, so chip k is the k-th criterion of that column |
| `Table.FieldConditionsMembership` | src/AdvancedFiltrableDataGrid/FilterableTable.tsx:230-232 | the conditions handed to the editor for a field are exactly those of that field's criteria, for every condition at once |
| `Table.FieldConditionsMembers` | src/AdvancedFiltrableDataGrid/FilterableTable.tsx:184-186 | a column shows a chip for a condition exactly when the list holds a criterion of that column with that condition |
| `Table.FindColumn` | src/AdvancedFiltrableDataGrid/FilterableTable.tsx:229 | a column is found exactly when one is declared for the open field; the one found has that field and no earlier declared column has it (the first match) |
| `Table.ReplaceFieldFilters` | src/AdvancedFiltrableDataGrid/FilterableTable.tsx:92-101 | replacing one field's filters leaves order, offset and limit unchanged |
| `Table.ReplaceResultForField` | src/AdvancedFiltrableDataGrid/FilterableTable.tsx:95-99 | afterwards the field's conditions are exactly the supplied list, in order; no old entry of the field survives |
| `Table.ReplaceKeepsOtherFields` | src/AdvancedFiltrableDataGrid/FilterableTable.tsx:92-101 | every other field's conditions are unchanged, in their original order |
| `Table.ReplaceLayout` | src/AdvancedFiltrableDataGrid/FilterableTable.tsx:94-100 | the result begins with a subsequence of the old list that is free of the field, and ends with the supplied conditions bound to the field, in order |
| `Table.TaggedShape` | src/AdvancedFiltrableDataGrid/FilterableTable.tsx:96-99 | the new entries are the supplied conditions, one for one and in order, each bound to the edited field |
| `Table.OthersCharacterized` | src/AdvancedFiltrableDataGrid/FilterableTable.tsx:95 | the kept entries are a subsequence of the old list and none is of the field; they are as many as the old entries not of the field; together with the field's entries they are the old list, as a multiset |
| `Table.ApplyUneditedPermutes` | src/AdvancedFiltrableDataGrid/FilterableTable.tsx:92-101 | re-committing a field's own conditions changes no field's chips and only permutes the list |
| `Table.RemoveFilter` | src/AdvancedFiltrableDataGrid/FilterableTable.tsx:106-110 | chip removal leaves order, offset and limit untouched |
| `Table.RemoveFilterRule` | src/AdvancedFiltrableDataGrid/FilterableTable.tsx:106-110 | removal deletes the entry at global position `index` when that entry belongs to the field; otherwise, including out of range, the list is unchanged |
| `Table.RemoveFilterWrongChip` | src/AdvancedFiltrableDataGrid/FilterableTable.tsx:184-191 | on [(name, Eq, "x"), (age, Gt, "1"), (age, Lt, "9")], deleting age chip 1 (per-column index) removes (age, Gt, "1"), the age chip 0, instead of (age, Lt, "9") |
| `Table.RemoveFilterIgnoredChip` | src/AdvancedFiltrableDataGrid/FilterableTable.tsx:184-191 | whenever another column's entry comes first in the list, deleting the column's chip 0 leaves the state unchanged |
| `Table.RemoveColumnChip` | src/AdvancedFiltrableDataGrid/FilterableTable.tsx:184-191 | corrected removal by per-column chip index; order, offset and limit are untouched |
| `Table.RemoveColumnChipRule` | src/AdvancedFiltrableDataGrid/FilterableTable.tsx:184-191 | corrected removal deletes exactly the k-th chip of the column (none when k is out of range) and leaves other columns' chips alone |
| `Table.ChangePage` | src/AdvancedFiltrableDataGrid/FilterableTable.tsx:112-117 | offset becomes the new page times the page size; filters, order and limit are unchanged |
| `Table.ChangePageShowsPage` | src/AdvancedFiltrableDataGrid/FilterableTable.tsx:112-117 | after moving to page p, the page the widget derives is p |
| `Table.ChangeRowsPerPage` | src/AdvancedFiltrableDataGrid/FilterableTable.tsx:119-127 | the limit becomes the new value and offset 0; filters and order are unchanged |
| `Table.ChangeRowsPerPageFirstPage` | src/AdvancedFiltrableDataGrid/FilterableTable.tsx:119-127 | after a page-size change, page 0 is shown, at the new size when that is non-zero |
| `Table.PagingExample` | src/AdvancedFiltrableDataGrid/FilterableTable.tsx:220 | offset 20 with limit 10 shows page 2; switching to 25 rows shows page 0 |
| `Popover.Operations` | src/AdvancedFiltrableDataGrid/FilterPopover.tsx:31-55 | every menu starts with (Eq, "Equals"), the default draft's operator, and every menu label is non-empty |
| `Popover.StringOperators` | src/AdvancedFiltrableDataGrid/FilterPopover.tsx:31-55 | string columns allow exactly Eq, Ne, Contains, StartsWith and EndsWith |
| `Popover.ComparisonOperators` | src/AdvancedFiltrableDataGrid/FilterPopover.tsx:31-55 | number and date columns allow the same six operators: Eq, Ne, Lt, Lte, Gt, Gte |
| `Popover.CommonOperators` | src/AdvancedFiltrableDataGrid/FilterPopover.tsx:31-55 | Eq and Ne are allowed for every column type |
| `Popover.MenuHasNoDuplicates` | src/AdvancedFiltrableDataGrid/FilterPopover.tsx:31-55 | no menu lists an operator twice |
| `Popover.OpLabel` | src/AdvancedFiltrableDataGrid/FilterPopover.tsx:128-132 | a non-empty chip label is the label of a menu entry for that operator |
| `Popover.OpLabelOfAllowed` | src/AdvancedFiltrableDataGrid/FilterPopover.tsx:128-132 | when all labels are non-empty, a chip's label is non-empty exactly when its operator is in the menu |
| `Popover.MenuLabels` | src/AdvancedFiltrableDataGrid/FilterPopover.tsx:128-132 | with a column's own menu, a chip shows a label exactly when the menu offers its operator |
| `Popover.AddGuard` | src/AdvancedFiltrableDataGrid/FilterPopover.tsx:77 | the fresh form cannot be added; typing a value into it makes it addable exactly when the value is non-empty; clearing the operator or the value makes any form unaddable |
| `Popover.EditDraft` | src/AdvancedFiltrableDataGrid/FilterPopover.tsx:99-104 | editing one key of the draft sets that key and keeps the other |
| `Popover.RemoveIndexRule` | src/AdvancedFiltrableDataGrid/FilterPopover.tsx:83-85 | removing index k deletes exactly position k and keeps the rest in order; an out-of-range k changes nothing |
| `Popover.FilterEditor.constructor` | src/AdvancedFiltrableDataGrid/FilterPopover.tsx:66-70 | the tentative list starts as the committed list and the draft as (Eq, "") |
| `Popover.FilterEditor.Resync` | src/AdvancedFiltrableDataGrid/FilterPopover.tsx:72-74 | a new committed list replaces the tentative list; the draft is kept |
| `Popover.FilterEditor.HandleAddFilter` | src/AdvancedFiltrableDataGrid/FilterPopover.tsx:76-81 | the draft is appended exactly when its operator and value are both non-empty, and the draft then resets to (Eq, ""); otherwise nothing changes |
| `Popover.FilterEditor.HandleRemoveFilter` | src/AdvancedFiltrableDataGrid/FilterPopover.tsx:83-85 | the tentative list loses the entry at the index (see `RemoveIndexRule`); the draft is kept |
| `Popover.FilterEditor.HandleApply` | src/AdvancedFiltrableDataGrid/FilterPopover.tsx:87-92 | the tentative list is committed for the field exactly when a non-empty field key is given (JavaScript truthiness); the editor always closes |
| `Popover.FilterEditor.HandleCancel` | src/AdvancedFiltrableDataGrid/FilterPopover.tsx:94-97 | the tentative list reverts to the committed list, nothing is committed, and the editor closes |
| `Popover.FilterEditor.HandleNewFilterChange` | src/AdvancedFiltrableDataGrid/FilterPopover.tsx:99-104 | the draft becomes the edited draft; the tentative list is unchanged |
| `Grid.FilterBuilder.AddFilter` | src/AdvancedFiltrableDataGrid/AdvancedFilterableDataGrid.tsx:42 | one filter call is appended to the recorded calls |
| `Grid.FilterBuilder.AddOrderBy` | src/AdvancedFiltrableDataGrid/AdvancedFilterableDataGrid.tsx:46 | one order call is appended to the recorded calls |
| `Grid.FilterBuilder.SetPageSize` | src/AdvancedFiltrableDataGrid/AdvancedFilterableDataGrid.tsx:49 | the page-size call is appended to the recorded calls |
| `Grid.FilterBuilder.RequestPage` | src/AdvancedFiltrableDataGrid/AdvancedFilterableDataGrid.tsx:50-52 | the page call is appended to the recorded calls |
| `Grid.RequestedPage` | src/AdvancedFiltrableDataGrid/AdvancedFilterableDataGrid.tsx:50-52 | the one-based page sent is the one whose rows contain the offset: `size * (r - 1) <= offset < size * r` (mirrored for a negative size) |
| `Grid.Encode` | src/AdvancedFiltrableDataGrid/AdvancedFilterableDataGrid.tsx:41-52 | the query has one call per filter and per order entry plus two; it ends with the page size and then the page, and no earlier call is a paging call |
| `Grid.UpdateQueryString` | src/AdvancedFiltrableDataGrid/AdvancedFilterableDataGrid.tsx:37-58 | the two loops and the two page calls produce exactly the call sequence `Encode` specifies |
| `Grid.FilterCallsAt` | src/AdvancedFiltrableDataGrid/AdvancedFilterableDataGrid.tsx:41-43 | one filter call per criterion, at the same position |
| `Grid.OrderCallsAt` | src/AdvancedFiltrableDataGrid/AdvancedFilterableDataGrid.tsx:45-47 | one order call per order entry, at the same position |
| `Grid.EncodeLayout` | src/AdvancedFiltrableDataGrid/AdvancedFilterableDataGrid.tsx:41-52 | filter calls come first in list order, then order calls in list order, then the page size, then the page; nothing else |
| `Grid.EncodeRoundTrip` | src/AdvancedFiltrableDataGrid/AdvancedFilterableDataGrid.tsx:41-52 | parsing the calls gives back the filters, the order entries, the page size and the page |
| `Grid.EncodeDeterminedByQuery` | src/AdvancedFiltrableDataGrid/AdvancedFilterableDataGrid.tsx:37-52 | two states give the same calls exactly when their lists, page sizes and pages agree, so the calls depend on the state alone |
| `Grid.PageSizeSent` | src/AdvancedFiltrableDataGrid/AdvancedFilterableDataGrid.tsx:49 | the page size sent is the limit, or 10 when the limit is missing or 0 |
| `Grid.RequestedPageIsDisplayedPlusOne` | src/AdvancedFiltrableDataGrid/AdvancedFilterableDataGrid.tsx:50-52 | the requested one-based page is the table's displayed page plus one, so it is at least 1 for a non-negative offset and a positive page size |
| `Grid.DefaultEncoding` | src/AdvancedFiltrableDataGrid/AdvancedFilterableDataGrid.tsx:28 | the default state asks for page 1 at page size 10 with no filter or order calls |
| `Grid.EncodingExample` | src/AdvancedFiltrableDataGrid/AdvancedFilterableDataGrid.tsx:41-52 | a state with filter (age, Gt, "25"), order (name, Asc), offset 0 and limit 10 gives one filter call, one order call, page size 10 and page 1 |
| `Grid.DataGrid.constructor` | src/AdvancedFiltrableDataGrid/AdvancedFilterableDataGrid.tsx:28-35 | on mount the committed state is the initial state, its calls are computed, and one fetch is issued |
| `Grid.DataGrid.HandleFiltersChange` | src/AdvancedFiltrableDataGrid/AdvancedFilterableDataGrid.tsx:62-68 | a change replaces the whole state, recomputes the calls from it, and issues exactly one more fetch, for that state |

## Left out

- Rendering is left out: tables, chips, icons, popover positioning, the
  pagination widget, and cell text (`String(row[field])`). It is presentation
  only.
- `FilterBuilder.toQueryString` and the query-string grammar are left out.
  They belong to the filter library `@chax-at/prisma-filter-common`, which is
  not part of this model. Only the ordered builder calls are modelled.
- `fetchData` and its promise are left out. A fetch is recorded as an entry
  of `DataGrid.requests`. Responses, and the race between out-of-order
  responses, are concurrency and are not modelled.
- React hook semantics are left out: `useCallback` dependencies, effect
  scheduling, reference identity, and the nested `setSortField` /
  `setSortDirection` updaters. Each handler is one atomic step.
  - Two consequences are not captured. The resync effect fires whenever the
    committed array is a new object. The grid's effect is skipped when the
    same object is set again.
- `anchorEl` is a DOM element; it is modelled as the boolean `anchorOpen`.
- `parseInt(event.target.value, 10)` is not modelled; the new limit is an
  integer parameter. `NaN` is therefore not modelled.
- JavaScript numbers are modelled as unbounded integers. Fractional offsets
  and limits are not modelled.
- An `IFilter` whose `filter` or `order` list is undefined is identified with
  the empty list. Every reader in the core treats the two alike (`?.` and
  `|| []`).
- Model.Op: holds only the nine operators the menus offer, and a
  criterion's value is a string. `FilterOperationType` belongs to the filter
  library and is not part of this model, so a caller's `initialFilters`, or
  a state passed to `handleFiltersChange`, could carry another operator or a
  non-string value. The encoder would forward it, and its chip would get the
  label "". The model does not represent such states.
- Popover.CanAdd: treats every operator as truthy in `newFilter.type &&
  newFilter.value`. That holds when the library's enum values are non-empty
  strings, which is not visible here. With numeric enum values one operator
  could be 0, and then it could never be added.
- Field keys are strings. Numeric and symbol keys of a row type are not
  modelled.
- The spread `{ field, ...f }` in `handleFilterChange` would let an entry
  that carries its own `field` keep it. The editor only ever holds entries of
  the open field, so the model binds every condition to the field.
- The editor's `if (!field || !column) return null` only decides whether the
  editor is drawn. `Table.FindColumn` models the lookup, but the guard is not
  modelled.
- The demo page (`src/App.tsx`) and the query-string display
  (`QueryStringDisplay.tsx`) are not part of this model.

## Findings

| source | as written | input that shows it | evidently intended | confidence | as-written member | corrected member |
|---|---|---|---|---|---|---|
| src/AdvancedFiltrableDataGrid/FilterableTable.tsx:106-110 with 184-191 | a chip's delete passes its index among its own column's chips, but `handleRemoveFilter` compares it with the position in the whole list | filters [(name, Eq, "x"), (age, Gt, "1"), (age, Lt, "9")]: deleting age chip 1 removes (age, Gt, "1") instead of (age, Lt, "9"). With [(name, Eq, "x"), (age, Gt, "1")], deleting age chip 0 removes nothing | delete the k-th chip of that column | high (not executed) | `Table.RemoveFilterWrongChip` | `Table.RemoveColumnChipRule` |

The table's handler model, `Table.RemoveFilter`, follows the code as
written. `Table.RemoveColumnChip` is the corrected removal, and
`Table.RemoveColumnChipRule` proves the intended property of it.

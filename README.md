# WasserMonat table view, modelled in Dafny

WasserMonat shows monthly water-meter readings (Jahr, Monat, Wasser-Zählerstand,
Wasserverbrauch) in a table. This project models the part of the React component
`AppWasserMonat` with logic in it:

- `filterData`: keep the records of one Jahr, and of one Monat when the month is
  truthy. Sort them by Monat. Append one "Summe" row with the totals of both
  quantities. A missing quantity counts as 0.
- The drop-down options: the distinct years and months, sorted with JavaScript's
  default `sort()`. The default year is `Math.max` of the years.
- The component state and its handlers: load, the two `Select` handlers, Filtern,
  Reset Filter, and opening and closing the edit modal.

Modules, one file each:

- `wrappers.dfy` (`Wrappers`): `Option`, standing for `null`/`undefined`.
- `records.dfy` (`WasserRecords`): the `Record` and `Row` datatypes, `Amount`
  (`x || 0`), `Total` (the `reduce`), and the two `filter`s.
- `monat_sort.dfy` (`MonatSorting`): the stable sort by Monat. It is a function
  (`MonatSort`) and an in-place array insertion sort (`SortByMonatInPlace`) proved
  to compute it.
- `filter_view.dfy` (`FilterView`): `FilterData`, the imperative `ComputeView`
  (filter, sort a fresh array in place, sum, append), and the view's properties.
- `selectors.dfy` (`Selectors`): de-duplication through a `Set`, the default `sort()`, and
  `Math.max`.
- `app.dfy` (`App`): the class `WasserMonatState` with one field per piece of
  component state the logic uses.

Modelling choices:

- Quantities, Jahr, Monat and WasserMonatID are `int`. The backend binds them as
  `sql.Int`.
- A missing quantity is `None`. `Amount` counts both `None` and `Some(0)` as 0, as
  `|| 0` does.
- The `month` argument is falsy when it is `None` (`null`/`undefined`) or `Some(0)`.
- The `year` argument is an `Option<int>`. `None` stands for `selectedYear` before
  the first load, and for the `-Infinity` that `Math.max` returns for an empty list.
  Neither one matches a record, so the view is the summary row alone.
- With no comparator, the option lists are sorted by the decimal strings of the
  values, compared code unit by code unit. So months come out as 1, 10, 11, 12, 2, …
  (`MonthsSortAsStrings`). No numeric order is claimed.
- The sort by `a.Monat - b.Monat` is stable, as JavaScript requires. The model says
  so explicitly: records with the same Monat keep their input order (`ViewStable`).
- `fetchData` does not reset `selectedMonth`. After a reload the table shows the
  whole latest year, while the month selection keeps its old value. `Load` states
  this.
- `Monatname` is a field of each record as the backend delivers it; the component
  derives no month names itself.
- `FilterData` is a function, so equal inputs give equal views. It cannot change its
  input. This matches the source: it sorts the fresh array returned by `filter`, not
  `allData`.

## Model

| member | source | states |
|---|---|---|
| FilterView.ViewShape | Wasser/frontend/src/App.js:60-75 | The view is one data row per matching record, then exactly one summary row. That row is last, has key "sum" and Jahr "Summe", and empty Monat and Monatname. |
| FilterView.ViewSound | Wasser/frontend/src/App.js:56-57 | Every data row has the selected Jahr. When the month is truthy, it also has the selected Monat. A falsy month puts no restriction on Monat. |
| FilterView.ViewComplete | Wasser/frontend/src/App.js:56-57 | The data rows are exactly the matching input records. Each appears as often as in the input. Nothing is dropped or added. |
| FilterView.ViewAscending | Wasser/frontend/src/App.js:58 | The data rows are in ascending Monat order. |
| FilterView.ViewStable | Wasser/frontend/src/App.js:58 | Records with the same Monat keep the order of the filtered input (the sort is stable). |
| FilterView.ViewTotals | Wasser/frontend/src/App.js:65-72 | Each summary total equals the sum of that quantity over the matching input records, missing values counted as 0. It also equals the sum over the data rows shown. |
| FilterView.ViewEmpty | Wasser/frontend/src/App.js:55-75 | No input record matches if and only if the view is the summary row alone with both totals 0. An unknown year is one such case. |
| FilterView.MatchingSnoc | Wasser/frontend/src/App.js:56-57 | The two filters keep input order. One more input record is appended exactly when it matches. |
| FilterView.MatchingCount | Wasser/frontend/src/App.js:56-57 | After the two filters, a record occurs as often as in the input if it matches, and not at all otherwise. |
| FilterView.MatchingSound | Wasser/frontend/src/App.js:56-57 | Every record left by the two filters matches the year and the truthy month. |
| FilterView.MatchingTotals | Wasser/frontend/src/App.js:65-72 | Summing over the filtered records equals summing only the matching records over the whole input. |
| FilterView.ComputeView | Wasser/frontend/src/App.js:55-76 | Filtering, sorting a fresh array in place and appending the summary row computes exactly `FilterData` for the same arguments. |
| MonatSorting.SortByMonatInPlace | Wasser/frontend/src/App.js:58 | The in-place sort leaves the array holding `MonatSort` of its old contents. |
| MonatSorting.InsertInPlace | Wasser/frontend/src/App.js:58 | One insertion step moves a[i] behind the last earlier record whose Monat is not larger. Nothing behind position i changes. |
| MonatSorting.MonatSortAscending | Wasser/frontend/src/App.js:58 | The sorted records are in ascending Monat order. |
| MonatSorting.MonatSortPermutes | Wasser/frontend/src/App.js:58 | The sort is a permutation: same multiset of records. |
| MonatSorting.MonatSortStable | Wasser/frontend/src/App.js:58 | For every month, the records of that month appear in the same order before and after the sort. |
| MonatSorting.MonatSortTotal | Wasser/frontend/src/App.js:58-72 | Sorting does not change either total, so summing the sorted array sums the filtered records. |
| Selectors.MaxYear | Wasser/frontend/src/App.js:41 | `Math.max` of the years is absent exactly for an empty list. Otherwise it is one of the years and no year exceeds it. |
| Selectors.DistinctCount | Wasser/frontend/src/App.js:36-37 | Spreading a `Set` of the values holds each value of the input exactly once and nothing else. |
| Selectors.JsSortPermutes | Wasser/frontend/src/App.js:36-37 | The default `sort()` is a permutation of its input. |
| Selectors.JsSortAscending | Wasser/frontend/src/App.js:36-37 | After the default `sort()`, values are ordered by their decimal strings, compared code unit by code unit. |
| Selectors.UniqueValues | Wasser/frontend/src/App.js:36-37 | The option list of any projection holds each projected value exactly once, in string order. |
| Selectors.UniqueYearsSpec | Wasser/frontend/src/App.js:36 | The year list holds every Jahr in the data exactly once, nothing else, in string order. |
| Selectors.UniqueMonthsSpec | Wasser/frontend/src/App.js:37 | The month list holds every Monat in the data exactly once, nothing else, in string order, not numeric order. |
| Selectors.LatestYear | Wasser/frontend/src/App.js:36-41 | A default year exists exactly when there is data. It is the Jahr of some record, and no record has a larger Jahr. |
| Selectors.MonthsSortAsStrings | Wasser/frontend/src/App.js:37 | The default sort orders the months 2, 10, 1 as 1, 10, 2. |
| App.WasserMonatState.constructor | Wasser/frontend/src/App.js:16-22 | The initial state: empty data, view and option lists; no year, month or record being edited. |
| App.WasserMonatState.Load | Wasser/frontend/src/App.js:29-43 | After loading: the data is the fetched data; the option lists are its distinct years and months; the selected year is the latest year. The view is the filter for that year with no month. The selected month and the edited record do not change. |
| App.WasserMonatState.SelectYear | Wasser/frontend/src/App.js:165 | Choosing a year sets only the selected year. The view and the rest of the state do not change. |
| App.WasserMonatState.SelectMonth | Wasser/frontend/src/App.js:178-179 | Choosing or clearing a month sets only the selected month. The view and the rest of the state do not change. |
| App.WasserMonatState.HandleFilter | Wasser/frontend/src/App.js:78 | Filtern sets the view to `FilterData` of the current data, year and month. Nothing else changes. |
| App.WasserMonatState.ResetFilter | Wasser/frontend/src/App.js:80-85 | Reset selects the maximum of the year list and clears the month. The view becomes the filter for that year with no month. Data, options and the edited record do not change. |
| App.WasserMonatState.HandleEdit | Wasser/frontend/src/App.js:87-88 | Editing a record opens the modal on that record. Nothing else changes. |
| App.WasserMonatState.CancelEdit | Wasser/frontend/src/App.js:250-253 | Cancel closes the modal. Nothing else changes. |
| App.FilterSession | Wasser/frontend/src/App.js:159-206 | The session is: load, change the year and the month, press Filtern, press Reset Filter. The table keeps the default view after the selections change. Filtern shows the selected year and month. Reset shows the default view again. |

## Left out

- The HTTP calls (the GET in `fetchData`, the PUT in `handleSave`) are I/O. `Load` takes the fetched records as a parameter. A failed GET only logs the error and leaves the state as it was, so it needs no model.
- The `loadingAktualisieren`, `saving` and `successMessage` state, `handleSave`, its minimum 2-second delay and the 4-second success message: wall-clock timers around an HTTP call.
- `form.setFieldsValue(record)` in `handleEdit`, and the form, modal, table, column and sum-row styling: rendering.
- The backend (`Wasser/backend/server.js`): Express routes, SQL Server connection and statements. Wasser/backend/server.js is not part of this model.
- The KPI dashboard and a month-name table: neither appears in the component's code; `Monatname` is a field of the records.
- Selectors.MaxYear: for an empty list it returns `None`, where `Math.max` returns `-Infinity`. Both match no record, but the year drop-down would show `-Infinity` where the model has no selection.
- JavaScript coercion: if a quantity arrived as a string, `acc + (x || 0)` would concatenate. All fields are integers here. `null` Jahr or Monat values are not modelled.
- MonatSorting.SortByMonatInPlace: it is an insertion sort, not the engine's own algorithm. Its result is the same, because a stable sort by a key has exactly one result.

# Registros — a verified model of the finance app's core

Registros is a personal-finance web app. It stores income and expense transactions in a
hosted database. On top of that it shows summary cards and two charts, lists and filters
transactions, and imports and exports spreadsheets. This project models, in Dafny, the
plain logic under the user interface and proves what that logic guarantees:

- the record model and its two category lists (`types.dfy`);
- the dashboard aggregations: the income/expense/net cards (`summary.dfy`), the
  expense-by-category chart (`expense_chart.dfy`), the expense-by-day chart
  (`daily_chart.dfy`), and the month selector and filter (`dashboard.dfy`);
- the transactions page: the filter-then-sort pipeline, the sort toggle, the category
  list for the type filter, and the export rows (`transactions_page.dfy`);
- the spreadsheet import dialog: header zipping, field mapping, row normalisation, and
  the single bulk write (`import_dialog.dfy`);
- the add/edit form: schema, resets, type/category reconciliation, auto-categorize, and
  submit (`entry_form.dfy`);
- the store adapter: the snapshot list, the write payloads, and lookup by id (`store.dfy`).

Shared pieces live in `wrappers.dfy` (`Option`, `Result`), `seqs.dfy` (sum, filter, map,
distinctness, an insertion sort as a function and an in-place array sort) and
`strings.dfy` (number rendering and parsing, `split`, code-unit order, ASCII case
mapping, `includes`). `dates.dfy` holds the local calendar fields of an instant.

Modelling choices:

- **Amounts** are `real`. The NaN a failed `parseFloat` or `z.coerce.number` produces is
  `None`.
- **Dates** are the local calendar fields of an instant (`Dates.Stamp`). `getTime` is
  their lexicographic order.
- **Storage and keys.** The database is a log of the writes sent (`Store.writes`). The
  keys `push` hands out come from a key function given at construction.
- **Spreadsheet cell conversions** (`String`, `new Date`, `parseFloat`) are a parameter
  (`ImportDialog.CellReader`). The few facts the lemmas need are stated in
  `ReaderLaws`.
- **Outside inputs.** The clock reading (`now`) and the categoriser's reply are
  parameters.

Two behaviours of the code are worth stating plainly:

- The form schema and the import accept any known category, whatever the transaction's
  type.
- The form's description check is `min(1)` on the raw text, without trimming, and every
  failing field is reported.

## Model

| member | source | states |
|---|---|---|
| Types.WithId | src/lib/types.ts:41-49 | a record is a draft plus an id, and the draft comes back unchanged without the id |
| Types.CategoryListsWellFormed | src/lib/types.ts:17-33 | eight expense names and four income names, none repeated |
| Types.CategoryListsDisjoint | src/lib/types.ts:17-33 | no name is in both lists |
| Types.InCategoriesIff | src/lib/types.ts:35 | a name is in `categories` iff it is in exactly one of the two lists |
| Types.IconsCoverCategories | src/lib/types.ts:51-66 | the icon table's keys are exactly the categories |
| SummaryCards.ComputeTotals | srcv/components/dashboard/summary-cards.tsx:13-30 | the loop's income and expenses equal the income and non-income sums of the whole list; net is their difference |
| SummaryCards.TotalsOfEmpty | srcv/components/dashboard/summary-cards.tsx:14-15 | no records give zero income, zero expenses and zero net |
| SummaryCards.TotalsAreFilteredSums | srcv/components/dashboard/summary-cards.tsx:17-23 | income is the sum over income records, expenses the sum over expense records |
| SummaryCards.IncomePlusExpensesIsTotal | srcv/components/dashboard/summary-cards.tsx:17-23 | income plus expenses is the sum of all amounts |
| SummaryCards.TotalsAdditive | srcv/components/dashboard/summary-cards.tsx:17-23 | the totals of a concatenation are the sums of the parts' totals |
| SummaryCards.TotalsOrderIndependent | srcv/components/dashboard/summary-cards.tsx:17-23 | reordering the records leaves the totals unchanged |
| ExpenseChart.ExpenseByCategorySums | srcv/components/dashboard/expense-chart.tsx:25-30 | the accumulator holds, for every name, the sum of the expense amounts filed under it |
| ExpenseChart.ChartDataSpec | srcv/components/dashboard/expense-chart.tsx:24-39 | each bar is an expense category with its positive expense sum; every such category has a bar; no category twice; at most eight bars; totals non-increasing |
| ExpenseChart.BarsAreSums | srcv/components/dashboard/expense-chart.tsx:32-37 | any arrangement of the positive entries holds only expense categories with their positive sums |
| ExpenseChart.BarsCoverPositiveSums | srcv/components/dashboard/expense-chart.tsx:32-37 | every expense category with a positive sum is among the entries |
| ExpenseChart.BarsDistinct | srcv/components/dashboard/expense-chart.tsx:32-37 | categories are distinct among the entries, so there are at most eight |
| ExpenseChart.IncomeOnlyGivesEmptyChart | srcv/components/dashboard/expense-chart.tsx:26 | only income records give no bars |
| ExpenseChart.IncomeCategoryExpenseIsDropped | srcv/components/dashboard/expense-chart.tsx:32-35 | an expense filed under an income category changes no bar, while the expense card grows by its amount |
| ExpenseChart.ExpenseAppended | srcv/components/dashboard/expense-chart.tsx:26-30 | an appended expense is one more reduction step |
| DailyExpensesChart.AccumulateSummarises | srcv/components/dashboard/daily-expenses-chart.tsx:35-39 | the reduction has each day once, exactly the days of its input, each with that day's sum, and totals that add up to the input's sum |
| DailyExpensesChart.ChartDataSpec | srcv/components/dashboard/daily-expenses-chart.tsx:32-48 | each point is a day with an expense and that day's expense sum, whatever its sign; every expense day has its point; days strictly ascending; the totals add up to the expense card |
| DailyExpensesChart.ChartPointsAreDaySums | srcv/components/dashboard/daily-expenses-chart.tsx:33-41 | every point's total is its day's expense sum and some expense falls on its day |
| DailyExpensesChart.ChartCoversExpenseDays | srcv/components/dashboard/daily-expenses-chart.tsx:33-41 | every expense record's day has a point |
| DailyExpensesChart.ChartDaysAscend | srcv/components/dashboard/daily-expenses-chart.tsx:47 | points are in strictly ascending day order |
| DailyExpensesChart.IncomeOnlyGivesEmptyChart | srcv/components/dashboard/daily-expenses-chart.tsx:34 | only income records give no points |
| Dashboard.SplitMonthKey | src/components/dashboard/dashboard-page.tsx:59 | a month key splits at '-' into the year and month texts it was built from |
| Dashboard.MonthKeyInjective | src/components/dashboard/dashboard-page.tsx:34 | different months have different keys |
| Dashboard.CollectMonths | src/components/dashboard/dashboard-page.tsx:29-45 | the table holds every record's month and the current month, no other key, each key once, each with its month's label |
| Dashboard.AvailableMonths | src/components/dashboard/dashboard-page.tsx:28-53 | the options are exactly the record months and the current month, as capitalised labels, each key once, in non-increasing string order of the key |
| Dashboard.OptionsCoverMonths | src/components/dashboard/dashboard-page.tsx:30-45 | any arrangement of the entries holds the option of every record month and of the current month |
| Dashboard.OptionsOnlyCollectedMonths | src/components/dashboard/dashboard-page.tsx:28-48 | any arrangement of the entries holds nothing but those options |
| Dashboard.EntryIsCollectedMonth | src/components/dashboard/dashboard-page.tsx:28-48 | each table entry is the option of the current month or of some record's month |
| Dashboard.OptionKeysDistinct | src/components/dashboard/dashboard-page.tsx:47-52 | no key appears twice among the options |
| Dashboard.TextualOrderPutsMarchBeforeNovember | src/components/dashboard/dashboard-page.tsx:52 | keys are ordered as text: "2024-2" is listed before "2024-10" |
| Dashboard.AllShowsEverything | src/components/dashboard/dashboard-page.tsx:56-58 | selection `all` returns the list unchanged |
| Dashboard.SelectingMonthKeepsThatMonth | src/components/dashboard/dashboard-page.tsx:59-63 | a month key keeps exactly the records of that year and zero-based month, in their order |
| Dashboard.InitialSelectionShowsCurrentMonth | src/components/dashboard/dashboard-page.tsx:23-26 | the first selection shows exactly the current month's records |
| Dashboard.SelectionWithoutMonthKeepsNothing | src/components/dashboard/dashboard-page.tsx:59-63 | a selection other than `all` without a '-' keeps no record |
| TransactionsPage.VisibleIsOneFilter | src/components/transactions/transactions-page.tsx:56-70 | the three filters in a row equal one filter by their conjunction, order kept |
| TransactionsPage.VisibleMembers | src/components/transactions/transactions-page.tsx:58-70 | a record is visible iff it passes the type, category and case-insensitive search tests |
| TransactionsPage.NeutralControlsShowEverything | src/components/transactions/transactions-page.tsx:58-66 | all types, all categories and no search show the whole list |
| TransactionsPage.NotAfterIsPreorder | src/components/transactions/transactions-page.tsx:72-82 | each sort comparator is a total preorder |
| TransactionsPage.NextSortToggles | src/components/transactions/transactions-page.tsx:85-90 | the clicked key becomes the sort key; ascending iff it was already the key and descending; two clicks toggle |
| TransactionsPage.CategoriesForFilter | src/components/transactions/transactions-page.tsx:92-96 | the offered categories are those of the filtered type, or all of them |
| TransactionsPage.TransactionsView.constructor | src/components/transactions/transactions-page.tsx:28-34 | no search, all types, all categories, date descending |
| TransactionsPage.TransactionsView.HandleSort | src/components/transactions/transactions-page.tsx:85-90 | the sort becomes the toggled one; the filters are unchanged |
| TransactionsPage.TransactionsView.SelectType | src/components/transactions/transactions-page.tsx:142-145 | a new type filter resets the category filter to all |
| TransactionsPage.TransactionsView.SelectCategory | src/components/transactions/transactions-page.tsx:155 | only the category filter changes |
| TransactionsPage.TransactionsView.SetSearchTerm | src/components/transactions/transactions-page.tsx:139 | only the search term changes |
| TransactionsPage.TransactionsView.SortedAndFiltered | src/components/transactions/transactions-page.tsx:55-83 | the result is a permutation of exactly the visible records, all passing the filters, ordered by the chosen key and direction |
| TransactionsPage.SortedCopy | src/components/transactions/transactions-page.tsx:72 | sorting a fresh copy gives a permutation of the list in comparator order |
| TransactionsPage.ExportRowsFaithful | src/components/transactions/transactions-page.tsx:102-110 | one row per displayed record, in order; `Ingreso` iff income; absent comments become ''; amount, description and category unchanged; the date as 'yyyy-MM-dd' |
| TransactionsContext.Clean | src/contexts/transactions-context.tsx:56 | exactly the undefined properties are removed; the others are kept unchanged |
| TransactionsContext.CleanDraft | src/contexts/transactions-context.tsx:56 | cleaning a draft's object removes at most the comments, and removes them iff absent |
| TransactionsContext.BatchPaths | src/contexts/transactions-context.tsx:50-59 | the batch's paths are `/finanzas/<key>` for exactly the records that received a non-empty key |
| TransactionsContext.BatchEntries | src/contexts/transactions-context.tsx:50-59 | with distinct keys, each such record is sent cleaned under its own path |
| TransactionsContext.FindById | src/contexts/transactions-context.tsx:74-76 | a found record is in the list with that id; nothing is found iff no record has it |
| TransactionsContext.FindByIdIsFirst | src/contexts/transactions-context.tsx:74-76 | the record found is the first with that id |
| TransactionsContext.SnapshotRecords | src/contexts/transactions-context.tsx:29-33 | one record per child, with the child's key as id and its stored fields |
| TransactionsContext.Store.constructor | src/contexts/transactions-context.tsx:24 | no records and no writes at first |
| TransactionsContext.Store.OnSnapshot | src/contexts/transactions-context.tsx:26-40 | a null snapshot publishes no records; otherwise a permutation of the children's records, newest first |
| TransactionsContext.Store.AddTransaction | src/contexts/transactions-context.tsx:45-48 | one `set` of the draft under a freshly pushed key; the list is untouched |
| TransactionsContext.Store.AddMultipleTransactions | src/contexts/transactions-context.tsx:50-61 | one key pushed per draft and a single update carrying the batch; the list is untouched |
| TransactionsContext.Store.UpdateTransaction | src/contexts/transactions-context.tsx:63-67 | one update of every field except the id at `finanzas/<id>` |
| TransactionsContext.Store.DeleteTransaction | src/contexts/transactions-context.tsx:69-72 | one removal of `finanzas/<id>` only |
| ImportDialog.MissingFieldsExact | src/components/transactions/import-transactions-dialog.tsx:42-48 | the missing fields are exactly the unmapped required ones, in declaration order; comments never |
| ImportDialog.NoMissingFieldsIff | src/components/transactions/import-transactions-dialog.tsx:144-145 | no field is missing iff every required field is mapped |
| ImportDialog.SheetRecordKeys | src/components/transactions/import-transactions-dialog.tsx:107-112 | a record has a property for exactly the header names offered; a hole in the header row gives its column none |
| ImportDialog.SheetRecordWithoutHoles | src/components/transactions/import-transactions-dialog.tsx:107-112 | with no holes in the header row, the record is the column-by-column zip of the header names with the row's cells |
| ImportDialog.RowRecordZips | src/components/transactions/import-transactions-dialog.tsx:107-112 | a record has a property per header; with distinct headers each holds its column's cell |
| ImportDialog.RowKeptIff | src/components/transactions/import-transactions-dialog.tsx:155-172 | a row is kept iff its date parses, its description is non-empty, its amount is a number and its category is known |
| ImportDialog.TypeNeverRejects | src/components/transactions/import-transactions-dialog.tsx:157-162 | the type cell never decides whether a row is kept |
| ImportDialog.KindNormalisation | src/components/transactions/import-transactions-dialog.tsx:157-162 | `ingreso` and `income` in any case are income; anything else is an expense |
| ImportDialog.ImportRowsAppend | src/components/transactions/import-transactions-dialog.tsx:155-173 | rows are processed independently and in order |
| ImportDialog.ImportRowsKept | src/components/transactions/import-transactions-dialog.tsx:155-173 | the drafts are exactly the normalised kept rows, never more than the rows |
| ImportDialog.ImportRowsAllKept | src/components/transactions/import-transactions-dialog.tsx:155-173 | when every row is acceptable, the drafts are the rows' drafts, in order |
| ImportDialog.LenientRowIsKept | src/components/transactions/import-transactions-dialog.tsx:161-167 | a negative amount with an income category on an expense row is accepted |
| ImportDialog.ScenarioCompleteRowKept | src/components/transactions/import-transactions-dialog.tsx:155-168 | a complete expense row becomes its draft |
| ImportDialog.ScenarioEmptyDescriptionSkipped | src/components/transactions/import-transactions-dialog.tsx:160-167 | a row with empty description text is skipped |
| ImportDialog.ScenarioOneKeptOneSkipped | src/components/transactions/import-transactions-dialog.tsx:155-173 | a complete row followed by an empty one gives one draft |
| ImportDialog.ExportedKindReadsBack | src/components/transactions/import-transactions-dialog.tsx:157-162 | the export's type labels read back as the kinds they came from |
| ImportDialog.ExportedRowReadsBack | src/components/transactions/import-transactions-dialog.tsx:155-168 | an exported row re-imports iff its date text parses, its description is non-empty and its category is known, and gives back the record's fields |
| ImportDialog.ExportImportRoundTrip | src/components/transactions/import-transactions-dialog.tsx:155-173 | exporting a list and importing it gives one draft per record, in order, with the same kind, amount, category and description |
| ImportDialog.ImportDialogState.constructor | src/components/transactions/import-transactions-dialog.tsx:63-67 | step 1 with empty headers, data and mapping |
| ImportDialog.ImportDialogState.ResetState | src/components/transactions/import-transactions-dialog.tsx:69-78 | back to step 1 with empty headers, data and mapping |
| ImportDialog.ImportDialogState.HandleClose | src/components/transactions/import-transactions-dialog.tsx:80-85 | the dialog takes the new visibility; closing resets it to step 1, opening changes nothing else |
| ImportDialog.ImportDialogState.LoadSheet | src/components/transactions/import-transactions-dialog.tsx:97-133 | a non-empty grid gives the names in its first row as headers, holes left out, and one record per later row at step 2; an empty or unreadable one resets |
| ImportDialog.ImportDialogState.HandleMappingChange | src/components/transactions/import-transactions-dialog.tsx:139-141 | only the named field's mapping changes |
| ImportDialog.ImportDialogState.HandleImport | src/components/transactions/import-transactions-dialog.tsx:143-189 | unmapped fields are reported and nothing changes; otherwise one bulk write of all kept drafts, or none when none is kept, with their count reported, ending closed in the reset state |
| EntryForm.ValidateSpec | src/components/transactions/add-transaction-sheet.tsx:46-55 | the form passes iff the amount is a number above zero, the category is known and the description is non-empty; each failure is reported; an accepted form is copied unchanged |
| EntryForm.SchemaIgnoresCategoryKind | src/components/transactions/add-transaction-sheet.tsx:50-52 | an expense category on an income passes the schema |
| EntryForm.EditedRecordValidates | src/components/transactions/add-transaction-sheet.tsx:86-94 | a loaded record passes iff its amount is non-zero, its category known and its description non-empty; only a negative amount's sign changes |
| EntryForm.NewValuesNeedInput | src/components/transactions/add-transaction-sheet.tsx:95-104 | a fresh form is rejected for its amount and description only |
| EntryForm.EntrySheet.constructor | src/components/transactions/add-transaction-sheet.tsx:74-81 | a closed sheet with new-transaction values and no errors |
| EntryForm.EntrySheet.ResetOnOpen | src/components/transactions/add-transaction-sheet.tsx:85-105 | with an id, the stored record is loaded with a non-negative amount, or nothing happens if absent; without one, the new-transaction values |
| EntryForm.EntrySheet.ReconcileCategory | src/components/transactions/add-transaction-sheet.tsx:107-113 | afterwards the category belongs to the type's list; one already there is kept, any other becomes the list's first entry |
| EntryForm.EntrySheet.ChangeType | src/components/transactions/add-transaction-sheet.tsx:107-113 | a real type change sets the type and reconciles the category as the effect does; choosing the current type changes nothing |
| EntryForm.EntrySheet.AutoCategorize | src/components/transactions/add-transaction-sheet.tsx:129-157 | an empty description flags an error and asks nothing; an income or expense suggestion sets that type and category; anything else changes nothing |
| EntryForm.EntrySheet.Submit | src/components/transactions/add-transaction-sheet.tsx:115-127 | an invalid form writes nothing; a valid one is an update of the id when set, otherwise an add, and the sheet closes; the description error is shown exactly when the description is empty |
| Seqs.SortBy | srcv/components/dashboard/expense-chart.tsx:38 | the sort gives a permutation ordered by the comparator (also used for daily-expenses-chart.tsx:47 and dashboard-page.tsx:52) |
| Seqs.SortArray | src/contexts/transactions-context.tsx:35 | the in-place sort leaves the array ordered and a permutation of what it held |
| Strings.ParseNatToString | src/components/dashboard/dashboard-page.tsx:59 | `Number` of a rendered number gives that number back |

## Left out

- Database semantics (`ref`, `push`, `set`, `update`, `remove`, `onValue`) are not modelled. The store records the calls it makes and does not model merge, atomicity, failure, or the snapshot that follows a write.
- Firebase rejecting `undefined` in `set` and `update` is not modelled. `AddTransaction` and `UpdateTransaction` record the draft as given.
- Spreadsheet reading and writing (`XLSX.read`, `sheet_to_json`, `json_to_sheet`, `writeFile`) and `FileReader` are not modelled. The model starts from the parsed grid and stops at the export rows. The `file` state and the file input reset are left out too.
- `LoadSheet` turns header cells into property names with the reader's text conversion, which is what JavaScript property keys do. A hole in the header row is skipped, so its column gets no property and is not offered. A hole in a data row reads as an absent cell. The `headers` state holds the names shown, not the raw header array with its holes.
- The `Date` parsing behind `new Date(...)` and `toISOString` is not modelled. Neither are time zones or the date-fns formats other than 'yyyy-MM-dd' and 'MMMM yyyy'. Stored dates keep their calendar fields rather than an ISO string.
- The daily chart keys points by calendar day rather than by the 'yyyy-MM-dd' text. The display-only `formattedDate` is left out.
- Floating-point arithmetic, NaN and infinities are not modelled. Amounts are exact reals, so sums do not round.
- `parseFloat` and `z.coerce.number` on text are parameters. The import lemmas assume only that plain digit strings read as their value.
- `Number` on the month selection is modelled for digit strings only. Leading signs, spaces and exponents are not modelled.
- `toLowerCase` and `toUpperCase` map ASCII letters only.
- `localeCompare` is modelled as code-unit order. On keys made of digits and '-' the two agree.
- The stability of `Array.prototype.sort` is not stated. The contracts say only that the result is ordered and is a permutation.
- The auto-categorize call itself is left out. Its reply, or its failure, is a parameter.
- The spending-insights flow is left out.
- Toasts, the loading flag, rendering and React scheduling are not modelled. The effects are methods that the caller runs after the state change that triggers them.
- EntryForm.EntrySheet.constructor starts from the new-transaction values. The form's own defaults carry no date or category, but the reset effect replaces them before the form is shown.

# my-paisa-planner, modelled in Dafny

my-paisa-planner is a personal finance tracker that runs entirely in the
browser. It keeps a list of income and expense transactions, a monthly
budget and a theme setting in `localStorage`. On top of that data it shows:

- a dashboard for the current month;
- a reports page with filters, charts and CSV export;
- a searchable transaction list;
- a stand-alone demo dashboard;
- an investments page.

Records are entered through two forms.

This project models the logic behind those screens.

- **Storage** (`storage.dfy`): the persistence adapter.
  - `localStorage` is a class holding a `map<string, Value>` with `GetItem`, `SetItem` and `RemoveItem`.
  - The typed getters and savers decode stored text, falling back to defaults when it is absent or malformed.
  - Also modelled: sample-data seeding and the three-key reset.
- **Finance** (`finance.dfy`): the finance state container.
  - A class with the in-memory transactions, budget, settings and the page's dark flag.
  - Add, update, delete, the budget and theme setters, and the reset.
  - The persist effects are modelled as a write-through to the store at the end of each method.
  - The invariant `Synced` ties the store to the memory, and every operation keeps it.
- **Dashboard** (`dashboard.dfy`): the current month's transactions and their totals, the remaining budget, the eight most recent records, the spending per category, and the six-month trend loop.
- **Reports** (`reports.dfy`):
  - the five-condition filter and the distinct categories;
  - the expense-by-category and net-spend-per-day maps, and the line chart series;
  - the CSV rows, with a reader that proves each row reads back as its cells.
- **TransactionList** (`transaction_list.dfy`): the case-insensitive search, the type filter and the category icon lookup.
- **ExpenseDashboard** (`expense_dashboard.dfy`): the demo dashboard's local list, its add, edit and delete handlers, and the monthly summary.
- **Investments** (`investments.dfy`): the total invested, the per-category and per-month maps, the bar series, and the page's add-or-update dispatch.
- **TransactionForm** and **InvestmentForm** (`transaction_form.dfy`, `investment_form.dfy`): the two forms as classes over their field state.
  - Required-field validation, what a submit hands on, and which fields are reset afterwards.
  - Pure `Submission` functions state what a submit sends. Prefill-then-submit round trips relate them to the records.

Supporting modules:

- `calendar.dfy`: a UTC calendar date. Includes the `yyyy-MM-dd`, `MMM yyyy` and ISO-8601 texts, with parsers proved to round-trip.
- `json_text.dfy`: `JSON.stringify` of a string, with a reader proved to undo it.
- `tallies.dfy`: insertion-ordered `Map<string, number>` folds, whose totals and per-key sums are proved.
- `sequences.dfy`: filter, sum and insertion sort laws.
- `expense.dfy`: the record types.
- `wrappers.dfy`: `Option`.

Some inputs are passed in as parameters:

- The ids (`crypto.randomUUID`, `Date.now`) and the current instant.
- `parseFloat` and `toString`/`String` of numbers, as functions.

Amounts are `real`, so sums are exact.

## Model

| member | source | states |
|---|---|---|
| Calendar.DayTextRoundTrip | src/pages/Reports.tsx:39-40 | `new Date` of an instant's `yyyy-MM-dd` text is midnight UTC of that instant's day |
| Calendar.ParseDayCanonical | src/pages/Reports.tsx:39-40 | a text that reads as a day is exactly the `yyyy-MM-dd` text of that day |
| Calendar.IsoRoundTrip | src/lib/storage.ts:16-35 | the ISO text `toISOString` writes for an instant reads back as that instant |
| Calendar.ParseIsoCanonical | src/lib/storage.ts:16-21 | a text that reads as an ISO timestamp is the canonical text of that instant |
| Calendar.MonthIndexOfParts | src/pages/Dashboard.tsx:66-69 | the month index of a date gives back its month number and year |
| Storage.KeyValueStore.constructor | src/lib/storage.ts:23-24 | the store starts with the given entries |
| Storage.KeyValueStore.GetItem | src/lib/storage.ts:24 | `getItem` answers the stored value, or nothing for an absent key |
| Storage.KeyValueStore.SetItem | src/lib/storage.ts:34 | `setItem` replaces one key and keeps every other |
| Storage.KeyValueStore.RemoveItem | src/lib/storage.ts:101-103 | `removeItem` drops one key and keeps every other |
| Storage.SerializeAll | src/lib/storage.ts:33 | one stored record per record, in order, each the record with its date as ISO text |
| Storage.Revive | src/lib/storage.ts:16-21 | a revived record keeps its id, amount and type |
| Storage.ReviveTransactions | src/lib/storage.ts:16-21 | reviving never yields more records than were stored |
| Storage.ReviveTransactionsSpec | src/lib/storage.ts:16-21 | the revived list is, in order, the stored records whose date text reads as an instant, each revived |
| Storage.ReviveKeepsAll | src/lib/storage.ts:16-21 | one revived record per stored record, each the revival of its own record, exactly when every stored date text reads |
| Storage.ReviveOfSerialize | src/lib/storage.ts:16-35 | one record serialised and revived is itself |
| Storage.ReviveSerializeAll | src/lib/storage.ts:16-35 | a saved list revives field for field, in order, to the list |
| Storage.ReadTransactions | src/lib/storage.ts:23-30 | an absent or unparsable transactions value reads as the empty list |
| Storage.ReadBudget | src/lib/storage.ts:37-40 | an absent budget reads as 0; the budget is a finite number exactly when it is absent or stored as number text, and then it is that number; any other text (an array, an object) reads as NaN |
| Storage.ReadSettings | src/lib/storage.ts:46-56 | absent or malformed settings read as theme "light" |
| Storage.TransactionsRoundTrip | src/lib/storage.ts:23-35 | saving a list and reading it back gives the list |
| Storage.BudgetRoundTrip | src/lib/storage.ts:37-44 | saving a budget and reading it back gives it, or 0 when it was falsy (0 or NaN) |
| Storage.SettingsRoundTrip | src/lib/storage.ts:46-60 | a saved theme overrides the default on read-back |
| Storage.KeysDistinct | src/lib/storage.ts:3-7 | the three storage keys are distinct |
| Storage.ReadersIndependent | src/lib/storage.ts:23-60 | writing one adapter key changes what neither of the other two getters reads |
| Storage.SampleTransactions | src/lib/storage.ts:66-96 | the sample is three records |
| Storage.SeedEmpty | src/lib/storage.ts:62-97 | seeding a store whose list reads as empty stores the sample: one income, two expenses; every other key is present exactly as before and holds what it held |
| Storage.SeedOnce | src/lib/storage.ts:62-64 | seeding a seeded store changes nothing, so seeding twice is seeding once |
| Storage.Cleared | src/lib/storage.ts:100-104 | the reset store lacks exactly the three keys and keeps every other key and value |
| Storage.ClearedReadsDefaults | src/lib/storage.ts:100-104 | after a reset the getters answer the empty list, 0 and theme "light" |
| Storage.GetTransactions | src/lib/storage.ts:23-30 | `getTransactions` returns what the store decodes to |
| Storage.SaveTransactions | src/lib/storage.ts:32-35 | `saveTransactions` writes the encoded list under its key only |
| Storage.GetBudget | src/lib/storage.ts:37-40 | `getBudget` returns what the store decodes to |
| Storage.SaveBudget | src/lib/storage.ts:42-44 | `saveBudget` writes `amount \|\| 0` under its key only |
| Storage.GetSettings | src/lib/storage.ts:46-56 | `getSettings` returns what the store decodes to |
| Storage.SaveSettings | src/lib/storage.ts:58-60 | `saveSettings` writes the settings under its key only |
| Storage.SeedSampleDataIfNeeded | src/lib/storage.ts:62-98 | the store becomes the seeded store |
| Storage.ResetAllData | src/lib/storage.ts:100-104 | the store becomes the cleared store |
| Finance.Prepend | src/context/FinanceContext.tsx:62-65 | the list grows by one; the head is the input's fields under the new id and the tail is the old list |
| Finance.ReplaceById | src/context/FinanceContext.tsx:66-68 | update keeps the length |
| Finance.ReplaceByIdAt | src/context/FinanceContext.tsx:66-68 | update keeps order and every id; the records with the id become `{...tx, id}` and all others are unchanged |
| Finance.ReplaceUnknownId | src/context/FinanceContext.tsx:67 | updating an id that is not in the list leaves the list unchanged |
| Finance.RemoveByIdSpec | src/context/FinanceContext.tsx:69-71 | delete keeps an order-preserving subsequence holding every record of another id as often as before and none with the id |
| Finance.RemoveUnknownId | src/context/FinanceContext.tsx:70 | deleting an absent id leaves the list unchanged |
| Finance.RemoveByIdIdempotent | src/context/FinanceContext.tsx:69-71 | deleting twice is deleting once |
| Finance.PrependKeepsIdsUnique | src/context/FinanceContext.tsx:63-64 | adding under an id not yet present keeps the ids pairwise distinct |
| Finance.ReplaceKeepsIdsUnique | src/context/FinanceContext.tsx:66-68 | update keeps distinct ids distinct |
| Finance.RemoveKeepsIdsUnique | src/context/FinanceContext.tsx:69-71 | delete keeps distinct ids distinct |
| Finance.FinanceProvider.constructor | src/context/FinanceContext.tsx:29-56 | mounting seeds the store if needed, loads the three values from it and leaves store and memory in sync |
| Finance.FinanceProvider.AddTransaction | src/context/FinanceContext.tsx:62-65 | the list becomes the prepended list, the rest of the state is unchanged, the store holds the new list, the state stays in sync |
| Finance.FinanceProvider.UpdateTransaction | src/context/FinanceContext.tsx:66-68 | the list becomes the replaced list and is saved; budget and settings are unchanged |
| Finance.FinanceProvider.DeleteTransaction | src/context/FinanceContext.tsx:69-71 | the list loses the records with the id and is saved; budget and settings are unchanged |
| Finance.FinanceProvider.SetBudget | src/context/FinanceContext.tsx:72 | the budget becomes `amount \|\| 0` and is saved when it changed; the rest is unchanged |
| Finance.FinanceProvider.SetTheme | src/context/FinanceContext.tsx:73 | only the theme changes; it is saved and the page is dark exactly when the theme is "dark" |
| Finance.FinanceProvider.Reload | src/context/FinanceContext.tsx:77-79 | the three values are read from the store, and the persist effects leave the store in sync with no other key changed |
| Finance.FinanceProvider.ReloadBudget | src/context/FinanceContext.tsx:78 | the loaded budget is in memory and reads back from the store |
| Finance.FinanceProvider.ResetData | src/context/FinanceContext.tsx:74-80 | after a reset memory and store hold the three sample records, budget 0 and theme "light", the page is light, and other keys are as they were |
| Finance.SameOtherKeysUpdate | src/context/FinanceContext.tsx:43-56 | writing one of the adapter's keys leaves every other key as it was |
| Finance.SameOtherKeysTransitive | src/context/FinanceContext.tsx:43-56 | "no other key changed" composes across steps |
| Finance.SyncedReadsBack | src/context/FinanceContext.tsx:43-56 | while synced, the getters return the in-memory list, budget (with NaN read as 0) and settings |
| Dashboard.MonthTxSpec | src/pages/Dashboard.tsx:39 | `monthTx` is the order-preserving subsequence of the transactions in the current month, each kept as often as it occurs |
| Dashboard.NetSum | src/pages/Dashboard.tsx:40-43 | summing income as plus and expenses as minus gives income less spending |
| Dashboard.Savings | src/pages/Dashboard.tsx:40-43 | savings plus spending is income, and savings are the sum over the month's transactions of each one's net amount (plus for an income, minus for an expense) |
| Dashboard.MonthSplit | src/pages/Dashboard.tsx:40-43 | spending and income together are the month's total amount |
| Dashboard.Remaining | src/pages/Dashboard.tsx:42 | the remaining budget is never negative and is `max(0, (budget \|\| 0) - spent)` |
| Dashboard.NewerOrSamePreorder | src/pages/Dashboard.tsx:45 | "newer or same" is a total preorder on transactions |
| Dashboard.SortedNewestFirst | src/pages/Dashboard.tsx:45 | the sort orders newest first and keeps the length |
| Dashboard.RecentSpec | src/pages/Dashboard.tsx:45 | `recent` holds min(8, n) records, newest first, drawn from the list, and none left out is newer than one kept |
| Dashboard.CategoryMap | src/pages/Dashboard.tsx:48-51 | the values sum to `spent`, the keys are exactly this month's expense categories, listed in the order they first occur, and each value is the sum of its category |
| Dashboard.CurrentMonthTrend | src/pages/Dashboard.tsx:64-73 | the trend's expense sum for the current month is `spent` |
| Dashboard.Trend | src/pages/Dashboard.tsx:64-73 | the loop yields six month names and six totals, oldest first, each the expense sum of its month, and the last is `spent` |
| Reports.CatsSpec | src/pages/Reports.tsx:34 | `cats` lists every category that occurs, each exactly once |
| Reports.FilteredSpec | src/pages/Reports.tsx:36-46 | `filtered` is an order-preserving subsequence, and a transaction is in it exactly when it passes the category, minimum, maximum, from and to conditions |
| Reports.BlankFilters | src/pages/Reports.tsx:37-42 | with category "all" and blank bounds only the date window limits the result; with blank dates too every transaction from 1970 on is kept |
| Reports.ToDayEndsAtMidnight | src/pages/Reports.tsx:40-44 | a transaction later in the day the "to" filter names is excluded |
| Reports.ExpenseByCategory | src/pages/Reports.tsx:49-50 | the map is the group-by of the expenses of `filtered` by category; its keys, which label the pie, are exactly the categories of those expenses, each once, in order of first occurrence (the list `Cats` gives for them); the values sum to the expense total and each is its category's sum |
| Reports.SignedSum | src/pages/Reports.tsx:60 | the signed amounts total expenses minus income |
| Reports.DateMap | src/pages/Reports.tsx:57-61 | the day map's values total expenses minus income over `filtered`, each day holding its own signed sum |
| Reports.DayLabels | src/pages/Reports.tsx:63 | the sorted day keys are ascending, distinct and exactly the days that occur |
| Reports.LineSeries | src/pages/Reports.tsx:62-65 | labels are sorted, distinct and exactly the days that occur, and data[i] is the day map's value at labels[i] |
| Reports.CsvCells | src/pages/Reports.tsx:69-70 | a row has six cells |
| Reports.CsvRows | src/pages/Reports.tsx:67-71 | the header and then one row per filtered transaction, in order |
| Reports.QuotedPairRoundTrip | src/pages/Reports.tsx:70 | the two quoted cells that end a row read back as their texts |
| Reports.PlainCellRoundTrip | src/pages/Reports.tsx:70-71 | a cell without a comma reads back up to its separator |
| Reports.DayTextHasNoComma | src/pages/Reports.tsx:70 | the date cell holds no comma |
| Reports.CsvRowRoundTrip | src/pages/Reports.tsx:69-71 | a row reads back as its six fields, with missing notes written as a quoted empty string, when category and amount hold no comma |
| JsonText.EscapeRoundTrip | src/pages/Reports.tsx:70 | reading back what `JSON.stringify` escaped gives the text and what follows the closing quote |
| JsonText.QuoteRoundTrip | src/pages/Reports.tsx:70 | a quoted cell reads back as its text |
| TransactionList.LowerIdempotent | src/components/expense/TransactionList.tsx:22-23 | lower-casing twice is lower-casing once |
| TransactionList.IncludesSpec | src/components/expense/TransactionList.tsx:22-23 | `includes` holds exactly when the term occurs at some position |
| TransactionList.IncludesEmpty | src/components/expense/TransactionList.tsx:22 | every text includes the empty term |
| TransactionList.FilterKeepsOrder | src/components/expense/TransactionList.tsx:21 | the result is an order-preserving subsequence of the input |
| TransactionList.EmptySearchShowsAll | src/components/expense/TransactionList.tsx:22-24 | an empty term under "all" keeps every transaction |
| TransactionList.TypeFilterSound | src/components/expense/TransactionList.tsx:24 | under "income" or "expense" only that type is kept |
| TransactionList.SearchSpec | src/components/expense/TransactionList.tsx:21-26 | a transaction is shown exactly when it is in the list, the lower-cased term occurs in its lower-cased description or category, and its type passes |
| TransactionList.SearchIgnoresTermCase | src/components/expense/TransactionList.tsx:22-23 | the term's case does not matter |
| TransactionList.CategoryIcon | src/components/expense/TransactionList.tsx:28-42 | the mapped icon for the ten listed categories, the money bag exactly for any other |
| ExpenseDashboard.MonthlyStatsOf | src/components/expense/ExpenseDashboard.tsx:64-83 | income and expenses are the month's sums of each type, the count is the month's size |
| ExpenseDashboard.MonthlyStatsSpec | src/components/expense/ExpenseDashboard.tsx:64-81 | the balance is income minus expenses, and the count is the number of income plus expense records |
| ExpenseDashboard.SampleTransactions | src/components/expense/ExpenseDashboard.tsx:13-53 | the demo list has four records |
| ExpenseDashboard.SampleKinds | src/components/expense/ExpenseDashboard.tsx:13-53 | the first demo record is the only income |
| ExpenseDashboard.SampleInJanuary | src/components/expense/ExpenseDashboard.tsx:13-53 | all demo records lie in January 2024 |
| ExpenseDashboard.SampleSummary | src/components/expense/ExpenseDashboard.tsx:13-83 | the demo ids are distinct, and in January 2024 the summary is 3500 income, 1330.5 expenses, 2169.5 balance, 4 records |
| ExpenseDashboard.DashboardState.constructor | src/components/expense/ExpenseDashboard.tsx:56-58 | the list starts as the demo data, the dialog closed and nothing selected |
| ExpenseDashboard.DashboardState.SetFormOpen | src/components/expense/ExpenseDashboard.tsx:132 | only the dialog flag changes |
| ExpenseDashboard.DashboardState.SelectForEdit | src/components/expense/ExpenseDashboard.tsx:249-261 | only the selection changes |
| ExpenseDashboard.DashboardState.HandleAdd | src/components/expense/ExpenseDashboard.tsx:85-92 | one record with the input fields is prepended and the form closes |
| ExpenseDashboard.DashboardState.HandleEdit | src/components/expense/ExpenseDashboard.tsx:94-106 | with nothing selected nothing changes; otherwise the records with the selected id take the new fields under that id and the selection is cleared |
| ExpenseDashboard.DashboardState.HandleDelete | src/components/expense/ExpenseDashboard.tsx:108-110 | the records with the id are removed, the rest kept in order |
| Investments.CategoryTotals | src/pages/Investments.tsx:47-53 | the map is the group-by of the investments by category; the values sum to `totalInvested`, the keys (the pie's labels) are the categories that occur, each once, in order of first occurrence, and each value is the sum of its category |
| Investments.MonthlyTotals | src/pages/Investments.tsx:64-68 | the values sum to `totalInvested`, each the sum of its month |
| Investments.MonthLabels | src/pages/Investments.tsx:71 | the sorted month keys are ascending as strings, distinct and exactly the months that occur |
| Investments.BarSeries | src/pages/Investments.tsx:70-74 | labels are the month keys sorted ascending, and data[i] is the month map's value at labels[i] |
| Investments.WithInvestmentId | src/pages/Investments.tsx:93 | `{...data, id}` carries the id and exactly the data |
| Investments.InvestmentsPage.constructor | src/pages/Investments.tsx:30-31 | the form starts closed with nothing selected |
| Investments.InvestmentsPage.HandleEdit | src/pages/Investments.tsx:81-84 | the investment is selected and the form opens |
| Investments.InvestmentsPage.HandleAdd | src/pages/Investments.tsx:86-89 | the selection is cleared and the form opens |
| Investments.InvestmentsPage.HandleSubmit | src/pages/Investments.tsx:91-99 | while editing, the update call carries the edited id; otherwise the add call carries the data unchanged; the form then closes with nothing selected |
| Investments.InvestmentsPage.Cancel | src/pages/Investments.tsx:264-267 | the form closes with nothing selected |
| Investments.InvestmentsPage.SetShowForm | src/pages/Investments.tsx:256 | only the open flag changes |
| TransactionForm.FilterCategoriesSpec | src/components/expense/TransactionForm.tsx:79 | `filteredCategories` is the order-preserving subsequence of the categories of the current type or of "both" |
| TransactionForm.DefaultKinds | src/components/expense/TransactionForm.tsx:22-44 | the default list is twelve expense categories followed by six income ones |
| TransactionForm.DefaultOptions | src/components/expense/TransactionForm.tsx:22-44 | with the default list an expense is offered the first twelve categories and an income the last six |
| TransactionForm.SubmissionSpec | src/components/expense/TransactionForm.tsx:55-67 | a submit is sent exactly when amount, description and category are filled, and carries description, category, type, date, payment method and notes as held |
| TransactionForm.FreshFormBlocked | src/components/expense/TransactionForm.tsx:47-57 | a new adding form and a cleared one cannot be submitted |
| TransactionForm.EditRoundTrip | src/components/expense/TransactionForm.tsx:47-67 | submitting an untouched edit form gives back the record's fields, with a missing payment method or notes sent as empty texts |
| TransactionForm.Form.constructor | src/components/expense/TransactionForm.tsx:46-53 | the fields copy the record being edited, or are empty with type "expense" and the current date; the category list defaults to `defaultCategories` |
| TransactionForm.Form.SetAmount | src/components/expense/TransactionForm.tsx:118 | only the amount changes |
| TransactionForm.Form.SetDescription | src/components/expense/TransactionForm.tsx:130 | only the description changes |
| TransactionForm.Form.SelectCategory | src/components/expense/TransactionForm.tsx:137-144 | only the category changes, to an offered name |
| TransactionForm.Form.SetType | src/components/expense/TransactionForm.tsx:95-103 | only the type changes |
| TransactionForm.Form.SetDate | src/components/expense/TransactionForm.tsx:173 | only the date changes |
| TransactionForm.Form.SetPaymentMethod | src/components/expense/TransactionForm.tsx:183 | only the payment method changes |
| TransactionForm.Form.SetNotes | src/components/expense/TransactionForm.tsx:205 | only the notes change |
| TransactionForm.Form.HandleSubmit | src/components/expense/TransactionForm.tsx:55-77 | the submission is handed on; after an adding submit amount, description, category, payment method and notes are cleared with type and date kept; an editing form keeps every field |
| TransactionForm.EmptyListBlocksAdding | src/components/expense/TransactionForm.tsx:46-79 | with an empty category list an adding form offers no category and every submit is refused |
| TransactionForm.DefaultListOffersEveryType | src/components/expense/TransactionForm.tsx:22-46 | without a category list every type is offered at least one category |
| InvestmentForm.Fresh | src/components/investment/InvestmentForm.tsx:26-30 | the fresh form's date text reads as midnight of today |
| InvestmentForm.PrefillOf | src/components/investment/InvestmentForm.tsx:32-40 | the prefilled date text reads as midnight of the investment's day |
| InvestmentForm.SubmissionSpec | src/components/investment/InvestmentForm.tsx:42-57 | a submit is sent exactly when amount and category are filled; the category is passed unchanged, so "Uncategorized" never appears; expected return and notes are absent exactly when their fields are empty |
| InvestmentForm.EditRoundTrip | src/components/investment/InvestmentForm.tsx:32-57 | submitting an untouched edit form gives back the investment's fields with its date cut to midnight |
| InvestmentForm.Form.constructor | src/components/investment/InvestmentForm.tsx:26-30 | the fields start empty with today's date |
| InvestmentForm.Form.Prefill | src/components/investment/InvestmentForm.tsx:32-40 | an investment fills every field, and a missing expected return or missing notes become ""; no investment leaves the form as it is |
| InvestmentForm.Form.SetAmount | src/components/investment/InvestmentForm.tsx:76 | only the amount changes |
| InvestmentForm.Form.SetCategory | src/components/investment/InvestmentForm.tsx:83-88 | only the category changes, to one of the six options |
| InvestmentForm.Form.SetDate | src/components/investment/InvestmentForm.tsx:101-103 | only the date text changes |
| InvestmentForm.Form.SetExpectedReturn | src/components/investment/InvestmentForm.tsx:115 | only the expected return changes |
| InvestmentForm.Form.SetNotes | src/components/investment/InvestmentForm.tsx:125 | only the notes change |
| InvestmentForm.Form.HandleSubmit | src/components/investment/InvestmentForm.tsx:42-65 | the submission is handed on, and after a successful submit all five fields reset to empty and today, in edit mode too |
| InvestmentForm.FreshFormBlocked | src/components/investment/InvestmentForm.tsx:26-47 | a fresh form cannot be submitted |

## Left out

Time and dates:
- Time zones: every date is an instant in UTC. date-fns `startOfMonth`, `endOfMonth`, `format` and `new Date(y, m, d)` work in the browser's local zone, so a month or day boundary here is the UTC one.
- Years outside 0..9999 and dates before 1970: instants are limited to four-digit years. Consequence: the Reports "from" default `new Date(0)` keeps every transaction from 1970 on, which is what the code does, but BlankFilters states it under that hypothesis.
- The `to` default `new Date(8640000000000000)` is later than every instant of the model, so it is written as "no upper bound".

Storage:
- Storage.ReviveTransactions: a stored record is kept only when its date text is the canonical text `toISOString` writes (`ParseIso`). The source keeps every record: `new Date` also accepts other ISO forms, such as "2024-01-15" or "2024-01-15T10:00:00Z", and turns any other text into an Invalid Date; the model's `Instant` holds neither an Invalid Date nor the reading of the other forms, so it drops those records. One consequence: a stored list made only of such records reads as `[]`, so `Seeded` overwrites it with the sample, where `seedSampleDataIfNeeded` sees a non-empty list and leaves it. Texts the application writes always read back (ReviveSerializeAll).
- The mount effects' first persist: on mount React runs the persist effects with the initial `[]`, `0` and `{theme: "light"}` before the loaded state arrives. The model writes through once, after loading.
- `JSON.parse` and `Number` over arbitrary text are not modelled character by character. Stored text is classified into the shapes the adapter meets (`Value`); every text `Number` reads as a finite number, padded or hexadecimal text included, is a `NumberText`.
- Storage.ReadBudget: a stored text that `Number` reads as plus or minus Infinity ("Infinity", "1e999") is an `OtherText` and reads as NaN, since `JsNumber` has no infinities; the source's budget would be infinite.

Numbers and text:
- NaN from `parseFloat` in the two forms: `parse` returns a `real`, so a NaN amount is not modelled there. Where it matters, the Reports bounds use `JsNumber`.
- Infinity, and floating-point rounding of sums, are not modelled.
- The exact text of `toString`/`String(number)` is left to the `show` parameter.
- `toLowerCase` is modelled on ASCII letters only.
- String sort order: `sort()` compares UTF-16 code units, while `StrLe` compares characters (code points). The two agree below U+10000.
- Icon lookup through inherited object keys (`icons["constructor"]`) is not modelled: `Icons` is a plain map.

Outside the model:
- The estimated value and per-row current value on the investments page use floating-point compound interest.
- The CSV `Blob` download and the PDF export: only the rows are modelled.
- The investment list and `addInvestment`/`updateInvestment`/`deleteInvestment` are used by the investments page, but the context interface does not define them and storage has no investments key. The list is a parameter; the calls are returned as `InvestmentCall` values, not carried out.
- The `useFinance` outside-provider throw, React effect scheduling and memoisation, JSX, charts, dialogs and routing.

Other modelling choices:
- Dashboard.RecentSpec: the sort is an insertion sort, which is stable like `Array.prototype.sort`. Beyond the ordering, stability is carried only by that definition. `transactions` being left unmodified holds because lists are values.
- Reports.CsvRowRoundTrip: a category or amount text containing a comma is not quoted by the export. The row then does not read back, so the lemma requires that neither holds one.
- InvestmentForm.Form.SetDate: the date input is assumed to report a day of the calendar. A cleared input (empty text, which `new Date` turns into an Invalid Date) is not modelled.
- Finance.FinanceProvider.Reload: requires the stored budget to read as a finite number. That holds where `resetData` calls it, right after the reset has removed the budget key. A reload of a NaN budget on its own is not modelled; the mount path, which does meet it, is in the constructor.
- TransactionForm.Form.SelectCategory: only names of the offered categories can be picked, as in the select.

## Findings

| source | as written | input that shows it | evidently intended | confidence | as-written member | corrected member |
|---|---|---|---|---|---|---|
| src/components/expense/TransactionForm.tsx:46 | the adding forms of the add page (src/pages/AddExpense.tsx:19), of the dashboard's quick-add button (src/pages/Dashboard.tsx:270, `QuickAddFAB categories={[]}`) and of the expense dashboard (src/components/expense/ExpenseDashboard.tsx:142) receive `categories={[]}`, which overrides `defaultCategories`, so the category select offers nothing; the global quick-add button (src/App.tsx:18-21) passes no list, so its form offers the defaults and adds work there; the edit forms given `[]` keep the edited record's category | open the add page's form, fill in amount and description; no category can be chosen, so `!category` holds and submit returns without calling `onSubmit` | the form offers `defaultCategories` when the caller gives no list, so each type has options and an add can be submitted | high (not executed) | TransactionForm.EmptyListBlocksAdding | TransactionForm.DefaultListOffersEveryType |

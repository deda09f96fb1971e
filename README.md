# Expense tracker record store, modelled in Dafny

The tracker is a single-window desktop program: one `ExpenseTracker` class keeps the user's expenses in a list field, `self.expenses`, and mirrors that list to a JSON file. Each expense is a record with a date, a category, an amount and a description. This project models what that class does to the list once the widgets are taken away:

- adding an expense, after checking the amount and the category;
- deleting the first record that matches a selected row;
- rewriting dates stored in the old `yyyy-mm-dd` format as `dd/mm/yyyy`;
- the list view, which sorts the records by date with the newest first and raises if a date cannot be parsed;
- the summary panel and the pie chart: the grand total, the total of each category, and the highest category.

Files, one module each:

- `options.dfy` (`Options`): `Option` and `Result`.
- `date_text.dfy` (`DateText`): calendar dates. It models `datetime.strptime` for `%d/%m/%Y` and `%Y-%m-%d`, and `strftime("%d/%m/%Y")`. Each field accepts what CPython's strptime pattern accepts: `%d` is `3[01]|[12]\d|0[1-9]|[1-9]| [1-9]`, `%m` is `1[0-2]|0[1-9]|[1-9]`, `%Y` is exactly four digits. The whole text must be used up, and the date must exist: years 1 to 9999, Gregorian leap years. It also holds the date migration for one text, `NormalizeDate`.
- `records.dfy` (`Records`): the `Record` datatype. It holds the functions that say what the store's in-place updates must produce: `RemoveFirst` for delete and `NormalizeAll` for the migration loop.
- `sorting.dfy` (`Sorting`): `sorted(..., reverse=True)` as a stable insertion sort, and `SortedView`, which fails with the first date that does not parse.
- `summary.dfy` (`Summary`): the `sum(...)` total. `TallyOf` is the insertion-ordered dict that the `category_totals` loop builds, modelled as keys plus a map. `Highest` is the `max(...)` over that dict.
- `store.dfy` (`ExpenseStore`): the class `Store`. Its field `expenses` is a `seq<Record>`. Its methods are the callbacks, with their loops: `Add`, `Delete`, `NormalizeDates`, `CategoryTotals`, `UpdateSummary`, `Refresh`, `PieChart`. The module also holds lemmas that connect the pieces and the two-expense worked example.

Modelling choices:

- Amounts are whole cents (`int`). A record read from the file may hold any amount. `Add` takes the amount text after parsing: `None` stands for text that `float()` rejects.
- Dates in records are text, because the file may hold any string there. They are parsed to a `Date(day, month, year)`. Two dates compare by year, then month, then day, as `datetime` values do.
- A selected row matches a record when the date, category, amount and description are all equal. The shown amount has two decimals, so with amounts in cents, "formatted amounts equal" is the same as "amounts equal".
- The category is any non-empty text. The category box is editable, so it is not limited to the six names it lists (expense_tracker.py:33-35).
- Dates read from the file are not guaranteed to be valid. The migration leaves unparseable text in place, and the list view then fails (`SortedView` returns `Failure`).
- `update_summary` changes the "Highest Category" label only when there is at least one category. `SummaryLine.highest` is `None` for an empty list. In the program this means the label keeps whatever it showed before; after the last record is deleted, that is the old category.
- `Add` covers the checks and the append (lines 76-96). The program then saves the list and calls `refresh_expense_list`; `Refresh` models that call. `ViewAfterAdd` states what the view looks like after an add.

## Model

| member | source | states |
|---|---|---|
| `DateText.ParseDmy` | expense_tracker.py:116 | a date that strptime accepts as `%d/%m/%Y` is a real calendar date (year 1-9999, day within its month, leap years counted) |
| `DateText.ParseYmd` | expense_tracker.py:119 | a date that strptime accepts as `%Y-%m-%d` is a real calendar date |
| `DateText.ParseDayField` | expense_tracker.py:116 | the `%d` field yields a day from 1 to 31 |
| `DateText.ParseMonthField` | expense_tracker.py:116 | the `%m` field yields a month from 1 to 12 |
| `DateText.ParseYearField` | expense_tracker.py:116 | the `%Y` field is four digits and yields 0 to 9999 |
| `DateText.FormatDmy` | expense_tracker.py:78 | `strftime("%d/%m/%Y")` yields ten characters with `/` at positions 2 and 5 |
| `DateText.FormatDmyRoundTrip` | expense_tracker.py:119 | parsing a formatted date as `%d/%m/%Y` gives back the same date, so every date the program writes can be read back |
| `DateText.NotAfterIsTotalOrder` | expense_tracker.py:123 | the date comparison used as the sort key is a total order: reflexive, total, antisymmetric and transitive |
| `DateText.NormalizeDateMeaning` | expense_tracker.py:114-121 | a valid `dd/mm/yyyy` date is untouched; a valid `yyyy-mm-dd` date becomes `dd/mm/yyyy` for the same day, month and year; other text is untouched; the result parses as `dd/mm/yyyy` exactly when the input parsed in either format |
| `DateText.NormalizeDateIdempotent` | expense_tracker.py:114-121 | migrating a date twice gives the same text as migrating it once |
| `Records.RemoveFirstNoMatch` | expense_tracker.py:157-163 | when no record matches the selected row, delete leaves the list unchanged |
| `Records.RemoveFirstAt` | expense_tracker.py:157-163 | when record i is the first match, delete leaves exactly the records before i followed by the records after i, in order |
| `Records.RemoveFirstCount` | expense_tracker.py:162 | a delete that finds a match shortens the list by one and removes only that record (multiset) |
| `Records.NormalizedMeaning` | expense_tracker.py:114-121 | the migration changes no field but the date, changes the date only as `NormalizeDateMeaning` says, and a second pass leaves the record as it is |
| `Records.NormalizeAllIdempotent` | expense_tracker.py:114-121 | the migration loop keeps the number and order of records, and a second run changes nothing |
| `Sorting.SortDescCorrect` | expense_tracker.py:123 | the sorted list is a permutation of the records, newest first, and for every date its records keep their original order (stable sort) |
| `Sorting.FirstUnparseable` | expense_tracker.py:123 | gives no text exactly when every date parses as `dd/mm/yyyy`; otherwise gives the date of the first record whose date does not parse, which is where sorted() raises |
| `Sorting.SortedView` | expense_tracker.py:123 | the list view fails exactly when some record's date does not parse as `dd/mm/yyyy` |
| `Sorting.SortedViewCorrect` | expense_tracker.py:123 | a view that succeeds holds the same records, all with parseable dates, in non-increasing date order, with equal dates in insertion order |
| `Summary.TotalAppend` | expense_tracker.py:136 | the total of a list with one more record is the old total plus that record's amount |
| `Summary.TallyOf` | expense_tracker.py:139-142 | the dict the loop builds has each key once, and exactly the keys that have a value |
| `Summary.TallyKeysAreCategories` | expense_tracker.py:139-142 | the dict has a key for each category that occurs in the records, and no other key |
| `Summary.TallyTotalsAreSums` | expense_tracker.py:139-142 | the value under each category is the sum of the amounts of the records in that category |
| `Summary.TallyKeysInFirstOccurrenceOrder` | expense_tracker.py:178-184 | the dict's keys, and so the pie chart's labels, come in the order in which each category first appears in the records |
| `Summary.TallyAddsUpToTotal` | expense_tracker.py:136-142 | the category totals add up to the grand total |
| `Summary.BestIndex` | expense_tracker.py:145 | `max(..., key=total)` picks a key whose total is at least every other, and every earlier key has a strictly smaller total |
| `Summary.Highest` | expense_tracker.py:144-145 | nothing is picked exactly when the dict is empty; otherwise the pick is a key with its own total, no key has a larger total, and no earlier key has an equal one |
| `Summary.SummaryOfEmpty` | expense_tracker.py:136-148 | the summary shows the grand total and reports no highest category exactly when there are no records |
| `Summary.HighestIsLargest` | expense_tracker.py:139-148 | the highest category occurs in the records, is reported with the sum of its amounts, and no category has a larger sum |
| `Summary.HighestIsFirstOfEqual` | expense_tracker.py:145 | if two categories tie for the largest sum, the one reported is the one that first appears earlier in the records |
| `ExpenseStore.Store.constructor` | expense_tracker.py:200-208 | the store starts with the list read from the file, or empty when the file is missing or cannot be read |
| `ExpenseStore.Store.Add` | expense_tracker.py:76-96 | amount text that is not a number, an empty category or an amount of at most 0 is refused with its own error, in that order of checks, and the list is unchanged; otherwise exactly one record (the date formatted `dd/mm/yyyy`, the category, amount and description given) is appended |
| `ExpenseStore.Store.Delete` | expense_tracker.py:150-165 | without a selection or a confirmation nothing changes; otherwise the new list is `RemoveFirst` of the old one for the selected row |
| `ExpenseStore.Store.NormalizeDates` | expense_tracker.py:114-121 | the in-place loop leaves exactly `NormalizeAll` of the old list |
| `ExpenseStore.Store.CategoryTotals` | expense_tracker.py:139-142 | the dictionary-building loop produces `TallyOf` of the records |
| `ExpenseStore.Store.UpdateSummary` | expense_tracker.py:135-148 | the summary shown is the grand total and the highest category of the current records |
| `ExpenseStore.Store.Refresh` | expense_tracker.py:110-133 | refresh migrates the dates, gives the sorted view or the date it fails on, and updates the summary only if the sort succeeded |
| `ExpenseStore.Store.PieChart` | expense_tracker.py:173-184 | no chart data exactly when there are no records; otherwise labels in first-appearance order and, for each label, the sum of its category's amounts |
| `ExpenseStore.NormalizedViewFails` | expense_tracker.py:114-123 | after the migration, the sort fails exactly when some stored date parsed in neither format |
| `ExpenseStore.ViewAfterAdd` | expense_tracker.py:96-98 | after an add, the view still succeeds, holds the new record once more than before, and places it after every record of the same day |
| `ExpenseStore.LaterListedFirst` | expense_tracker.py:123 | of two records with different parseable dates, the later one is listed first |
| `ExpenseStore.ScenarioDates` | expense_tracker.py:116 | "01/06/2024" and "02/06/2024" parse to 1 and 2 June 2024 |
| `ExpenseStore.ScenarioView` | expense_tracker.py:123 | lunch on 1 June and a bus ticket on 2 June are listed bus first, lunch second |
| `ExpenseStore.ScenarioSummary` | expense_tracker.py:136-148 | for those two expenses the total is 17.50 and the highest category is Food at 12.50 |

## Left out

- The widgets are not modelled: the date picker, the category box, the entries, the Treeview, the context menu, `clear_fields` and the message boxes (expense_tracker.py:18-74, 99-108, 167-171). The picked date, the amount, the selection and the confirmation are parameters. The message shown for each refusal is the `AddError` constructor.
- Saving to and loading from `expenses.json` is not modelled (expense_tracker.py:193-208), because it is file I/O through the json library. The constructor takes the loaded list, or `None` for "file missing or unreadable". Save failures do not change the list.
- Floating point is not modelled. Amounts are exact cents. `float()` parsing of the amount text is reduced to "a number or not". `NaN` and infinite amounts, which pass the `amount <= 0` check in the program, are not represented.
- ExpenseStore.Store.Delete: the row's amount is compared as cents. Two amounts that differ by less than a cent print alike in the program and would match there; that case is not modelled. Tkinter's conversion of cell values read back from the Treeview (line 156) is not modelled either.
- Only one selected row is modelled; a multiple selection in the Treeview is not.
- DateText.ParseDmy: Python's `\d` in strptime patterns also accepts non-ASCII decimal digits. The model accepts ASCII digits only.
- DateText.FormatDmy: the year is always four digits, zero-padded, as CPython 3.13 and later write `%Y`. Older CPython versions on glibc write years below 1000 without padding.
- ExpenseStore.Store.Add: when the refresh after an add raises on an unparseable date, the program shows "Please enter a valid amount!" from the handler at lines 101-102, although the record was already appended. That message is not modelled. The error itself is `Refresh`'s `Failure`.
- The pie chart drawing and its percentages are not modelled (expense_tracker.py:186-191); only the labels and amounts passed to it are.

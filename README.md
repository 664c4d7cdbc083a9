# Budget tracker expense log, in Dafny

This project models the core of a single-user desktop budget tracker. The tracker keeps one
table, `ExpenseLog`, with the rows `(ID, Date, Payee, Description, Category, Amount, Mode)` and
SQLite's AUTOINCREMENT counter for it. The GUI acts on that table in these ways:

- add a row behind a validation guard;
- delete the selected row by id;
- clear the whole table and restart the id sequence;
- sum the amounts;
- group the amounts by payment mode, payee, category or the `YYYY-MM` month of the date, for the
  bar and pie charts;
- hand every row to the exporters.

Modules:

- `Wrappers`: the `Option` type, used for a missing selection and for an amount field that holds
  no number.
- `Dates`: calendar dates, the `YYYY-MM-DD` text the table stores them as, reading that text
  back, and the month label that `strftime('%Y-%m', Date)` derives from it.
- `Records`: the row, the add guard (`Screen`), the total (`Total`), deletion by id (`Without`),
  and their lemmas.
- `Aggregation`: the view selector of the bar chart (`ViewFor`) and the GROUP BY sums
  (`GroupSums`). GROUP BY output is unordered, so the sums are a map. Lemmas say that each
  label's sum is the total of exactly its rows, that the sums add up to the total, and that
  any rearrangement of the rows gives the same sums.
- `Tracker`: the class `ExpenseLog`. Its fields are `rows` (the table, in ascending id order)
  and `nextId` (the sqlite_sequence entry plus one). Its methods `Add`, `Delete` and `ClearAll`
  change the table in place. `CalculateTotal`, `BarChart`, `PieChart` and `Export` only read it.
  Three client methods replay concrete scenarios.

Amounts are exact Dafny `real`s. The SQLite connection is replaced by the in-memory fields of
`ExpenseLog`. A failing INSERT is modelled as a boolean parameter, `insertFails`.

## Model

| member | source | states |
|---|---|---|
| `Records.Screen` | main.py:72-74 | The add guard accepts exactly when payee and description are non-empty and the amount is a number above 0. An unreadable amount is reported only when payee and description are both present, because the amount is read last. Category and mode are never checked. |
| `Tracker.ExpenseLog.constructor` | main.py:18-29 | A freshly created table has no rows, and the first insert gets id 1. |
| `Tracker.ExpenseLog.Add` | main.py:71-84 | A rejected or failed add changes neither the rows nor the counter. A successful add appends exactly one row and leaves the old rows as they were. The new row holds the inputs, with the date as `YYYY-MM-DD` text. Its id is the counter, which is above every id in the table, and the counter then advances by one. The total grows by exactly the amount. An insert past the largest rowid fails. |
| `Tracker.ExpenseLog.Delete` | main.py:86-95 | With no selection nothing changes. Otherwise exactly the rows with the selected id disappear and every other row stays, in order. The id counter never changes, so a deleted id is not issued again before the next clear-all. |
| `Tracker.ExpenseLog.ClearAll` | main.py:97-102 | Once confirmed, the table is empty and the counter is back at 1. Without confirmation nothing changes. |
| `Tracker.ExpenseLog.CalculateTotal` | main.py:104-106 | The total is the sum of all amounts: SUM's NULL on an empty table becomes 0. It is never negative, and it is 0 exactly when the table is empty. |
| `Tracker.ExpenseLog.BarChart` | main.py:108-126 | The result is "no data" exactly when the table is empty. Otherwise the title is the selector's title and the sums are the grouping under the selector's key. The sums add up to the total, and each sum is positive. |
| `Tracker.ExpenseLog.PieChart` | main.py:137-141 | The result is "no data" exactly when the table is empty. Otherwise the sums are the category grouping under the pie chart's title, they add up to the total, and each is positive. |
| `Tracker.ExpenseLog.Grouped` | main.py:123-126 | An empty GROUP BY result means "no data", and that happens exactly for an empty table. Otherwise the outcome carries the grouping with its total and positivity facts. |
| `Tracker.ExpenseLog.Export` | main.py:149-155 | The result is "no records" exactly when the table is empty. Otherwise the exporters get the seven column headings and every row, in table order. |
| `Aggregation.ViewFor` | main.py:109-121 | "Method", "Receiver" and "Category" select mode, payee and category, each with its title, and each in both directions. Every other selector value, "Month" included, selects the month of the date under "Monthly Expense Overview". |
| `Aggregation.KeyOf` | main.py:111-120 | The GROUP BY label of a row: its Mode, Payee or Category column for those views, and for the month view `MonthKey` of the date, which on a date text is a seven-character `YYYY-MM` label (four digits, '-', two digits). |
| `Aggregation.GroupSums` | main.py:111-120 | Every row's label is a key of the grouping, and there are no more groups than rows. |
| `Aggregation.GroupKeys` | main.py:111-120 | The keys of the grouping are exactly the distinct labels of the rows. |
| `Aggregation.GroupAt` | main.py:111-120 | A label has a group exactly when some row carries it. Its sum is the total of exactly the rows carrying it. |
| `Aggregation.GroupSumsEmpty` | main.py:123-126 | The grouping is empty exactly when the table is empty. This is the shared no-data condition of both charts and the export. |
| `Aggregation.GroupSumsPositive` | main.py:111-120 | With positive amounts, every group's sum is positive. |
| `Aggregation.GroupSumsAddUp` | main.py:111-120 | The values of the grouping add up to the total of all amounts. |
| `Aggregation.GroupSumsOrderFree` | main.py:111-120 | Any rearrangement of the same rows (equal multisets) gives the same grouping, so the order the rows sit in does not matter. |
| `Aggregation.MatchingPerm` | main.py:111-120 | Rearranging the rows rearranges the rows of each group and nothing more. |
| `Aggregation.MatchingConcat` | main.py:111-120 | The rows in one group of a concatenation are that group's rows from each part, in order. |
| `Records.Total` | main.py:105 | `SUM(Amount)` over the rows, 0 for no rows; it is never negative when no amount is negative. |
| `Records.TotalAppend` | main.py:105 | Appending one row raises SUM(Amount) by exactly its amount. |
| `Records.TotalConcat` | main.py:105 | The total of two runs of rows is the sum of their totals. |
| `Records.TotalPerm` | main.py:105 | Any rearrangement of the same rows has the same SUM(Amount). |
| `Records.TotalPositive` | main.py:105 | With positive amounts, the total is non-negative, and it is positive exactly when there is a row. |
| `Records.TotalAfterDelete` | main.py:92 | Deleting a present id lowers the total by that row's amount. Deleting an absent id leaves the total as it was. |
| `Records.Without` | main.py:92 | Deleting never adds rows. Deleting an id that no row carries returns the table unchanged. |
| `Records.WithoutMembers` | main.py:92 | After deleting an id, a row is present exactly when it was present before and does not carry that id. |
| `Records.WithoutIncreasing` | main.py:92 | Deleting keeps the remaining ids in ascending order. |
| `Records.WithoutUnique` | main.py:21 | Ids are unique, so deleting the id of row `i` removes row `i` and nothing else. |
| `Dates.FormatDate` | main.py:77 | The stored date is ten characters: a four-digit year, '-', a two-digit month, '-', a two-digit day, each zero-padded. |
| `Dates.FormatDateRoundTrip` | main.py:77 | The stored text loses nothing: reading it back with the `%Y-%m-%d` layout gives the date that was stored. This is what `FormatDateInjective` rests on. |
| `Dates.ParseDate` | main.py:13 | Reads a date text with the `%Y-%m-%d` layout: the year is below 10000, and the month and day are below 100. The program registers this reading but never applies it (see "## Left out"). |
| `Dates.DigitsValueBound` | main.py:13 | A run of `n` digits denotes a number below 10^n. |
| `Dates.MonthKey` | main.py:120 | `strftime('%Y-%m', Date)`: on a date text, seven characters made of the text's year field, '-', and its month field. |
| `Dates.FormatDateInjective` | main.py:77 | Two dates are stored as the same text exactly when they are the same date. |
| `Dates.MonthKeyOfFormat` | main.py:120 | The month label of a stored date is its padded year, '-', and its padded month. |
| `Dates.MonthKeyOfDate` | main.py:120 | Two stored dates fall in the same month group exactly when their years and months agree. |
| `Dates.Padded` | main.py:77 | Zero padding gives exactly `width` characters, all of them digits. |
| `Dates.PaddedRoundTrip` | main.py:77 | Reading a zero-padded field back as digits gives the number that was written. |
| `Tracker.RentScenario` | main.py:104-121 | Rent of 1200 logged on 2024-01-05 gives a total of 1200, and the "Month" view gives `{"2024-01": 1200}` under "Monthly Expense Overview". |
| `Tracker.RentMonth` | main.py:120 | The month label of 2024-01-05 is "2024-01". |
| `Tracker.CategoryScenario` | main.py:137-141 | The pie chart on an empty table is "no data". After logging Food 100 and Travel 50 it is `{"Food": 100, "Travel": 50}`. Logging Travel 50 first and Food 100 second in another table gives the same chart, although the two rows get the other ids. |
| `Tracker.FoodThenTravel` | main.py:138 | Two rows, Food 100 then Travel 50, group by category into `{"Food": 100, "Travel": 50}`. |
| `Tracker.TravelThenFood` | main.py:138 | Two rows, Travel 50 then Food 100, group by category into the same `{"Food": 100, "Travel": 50}`. |
| `Tracker.IdScenario` | main.py:21 | Two adds get ids 1 and 2. After deleting id 2, the next add gets id 3, not the deleted 2. After a clear, the next add gets id 1. |

## Left out

- The Tkinter window, the form variables, `reset_fields`, the Treeview and `refresh_expenses`
  (main.py:33-69, main.py:189-241) are left out. They are presentation state; the table itself is
  `ExpenseLog.rows`.
- The SQLite connection, the database file path, the adapter and converter registration, and the
  commits (main.py:11-30) are left out. They are I/O. The table is the in-memory `rows` and
  `nextId`. Each operation's change is committed at once, so the model changes the fields
  directly.
- The matplotlib bar and pie rendering (main.py:128-135, main.py:142-147) is left out. It is a
  foreign plotting library; the model stops at the (title, sums) pair handed to it.
- The pandas, CSV, Excel and FPDF writers and the save-file dialogs (main.py:155-187) are left
  out. They are foreign encoders and file I/O; the model stops at the column headings and rows.
- Floating-point `REAL` arithmetic and the `₹{total:.2f}` formatting (main.py:26, main.py:106)
  are left out. Amounts are exact reals, so no sum is rounded.
- Message boxes and their texts are left out. Each outcome is a datatype constructor, and the
  confirmation dialog of clear-all is the `confirmed` parameter.
- Add: an exception raised after the commit, by the table refresh or `reset_fields` inside the
  same `try`, is not modelled. Such an exception would leave the row inserted. The model's
  `insertFails` stands for an INSERT that raised and left the table as it was.
- Add: `date` is taken as an already valid calendar date, because the date picker only
  produces those. `FormatDate` pads years below 1000 to four digits; on some platforms the
  `%Y` of `strftime` does not pad them.
- Dates.MonthKey: it gives the first seven characters of the text. That is what
  `strftime('%Y-%m', Date)` gives for the texts `FormatDate` produces, and `ExpenseLog.Valid()`
  requires every stored date to be such a text (`IsStoredDate`). The NULL that SQLite gives for
  text that is not a date never arises in the table and is not modelled.
- The date adapter and converter registered at main.py:12-13 never take effect: the INSERT
  passes the date already formatted as text, and the converter is keyed on a column declared
  `DATE` while the Date column is declared `TEXT`. Rows therefore keep the date as text, and
  `ParseDate` is used only to prove that the stored text determines the date.
- Delete: the selection is the id of the first selected Treeview row. A multiple selection
  deletes only that one, as in the source. The Treeview lookup of the id is not modelled.
- Aggregation.GroupSumsOrderFree: it covers rearrangements of the same rows. The same expenses
  logged in another order get other ids, so their rows are not a rearrangement. That general
  case is not stated as a lemma; `CategoryScenario` shows one instance of it.
- Creating the table when it already exists (`CREATE TABLE IF NOT EXISTS` on an existing file)
  is not modelled separately: the constructor models a fresh file only.

# Keuanganku — a Dafny model of the finance tracker's data layer

Keuanganku is a single-page personal finance tracker. It keeps every
transaction in one spreadsheet (`keuanganku.xlsx`) with five columns:
`Tanggal` (date), `Kategori` (category), `Tipe` (type), `Nominal` (amount)
and `Keterangan` (note). The app has three menu actions:

- the dashboard shows the income total, the expense total, the remaining
  balance and the history with the newest row first;
- the input form appends one row. The category list it offers depends on
  the chosen type;
- the analysis view groups expense rows by category. It shows each group's
  share and names the category with the largest spend.

This project models that logic as pure functions over an immutable table.
It proves what each figure means.

| file | module | contents |
|---|---|---|
| `lexical.dfy` | `Lexical` | `Below`, the code-point lexicographic order the group-by sorts keys by, proved a strict total order |
| `ledger.dfy` | `Ledger` | `Transaction`, `Table`, the income and expense totals, the balance, append, the newest-first view, the category lists |
| `grouping.dfy` | `Grouping` | expense grouping as an ascending association list, `idxmax`, the top expense category |
| `views.dfy` | `Views` | load of a possibly missing file, submit, the dashboard and analysis branches, concrete scenarios |

Modelling choices:

- `Tipe` is the datatype `Kind = Pemasukan | Pengeluaran`. The form only
  offers these two values.
- `Nominal` is a `nat`. The form's number input has `min_value=0` and whole
  steps.
- Totals are reference sums over the rows filtered by type. The balance is
  also given an independent reference definition, a signed running sum,
  and the two are proved equal.
- The group-by sorts its keys by default. A grouping is therefore a
  sequence of `(category, total)` pairs whose keys are strictly ascending
  in `Below`, so each category appears once. Each group is proved equal to
  `CategoryTotal`, a direct sum over the rows of that category.
- The library's `idxmax` returns the first label that reaches the maximum.
  Since the keys are sorted, a tie goes to the category that sorts first,
  not to the one entered first. `TieScenario` shows this.
- `TopExpenseCategory` requires at least one expense row. The app only
  calls it on the branch where the expense rows are not empty
  (webapp.py:107-109). Otherwise the analysis view shows its warning, and
  `ShowAnalysis` models that branch.

## Model

| member | source | states |
|---|---|---|
| `Ledger.OfKind` | webapp.py:44-45 | a row is in the filtered table exactly when it is in the table and has the given type, and the filter never adds rows |
| `Ledger.OfKindCounts` | webapp.py:44-45 | the type filter keeps every row of the given type as often as it occurs, duplicates included, and keeps no row of the other type |
| `Ledger.OfKindConcat` | webapp.py:44-45 | filtering a concatenation is concatenating the filtered parts, so the kept rows stay in table order |
| `Ledger.IncomeTotal` | webapp.py:44 | reference definition with no contract of its own: the sum of `Nominal` over the rows typed `Pemasukan` |
| `Ledger.ExpenseTotal` | webapp.py:45 | reference definition with no contract of its own: the sum of `Nominal` over the rows typed `Pengeluaran` |
| `Ledger.Balance` | webapp.py:46 | reference definition with no contract of its own: income total minus expense total |
| `Ledger.TotalsPartitionAmounts` | webapp.py:44-45 | income total plus expense total is the sum of every row's amount, so each row is counted in exactly one total |
| `Ledger.BalanceIsSignedSum` | webapp.py:44-46 | the balance, income total minus expense total, equals the running sum of +amount for income rows and -amount for expense rows |
| `Ledger.Append` | webapp.py:84-94 | a submit's concat yields one more row; the old rows are unchanged and in order, and the new record is last |
| `Ledger.AppendTotals` | webapp.py:44-46 | after appending a row, only the total of that row's type rises, by the row's amount, and the balance moves by its signed amount |
| `Ledger.NewestFirst` | webapp.py:59 | the history view has as many rows as the table, and position i holds the row entered i-th from last |
| `Ledger.NewestFirstOfAppend` | webapp.py:59 | after an append, the history view is the new row followed by the previous history view |
| `Ledger.NewestFirstInvolution` | webapp.py:59 | reversing the history view gives back the table in insertion order |
| `Ledger.NewestFirstKeepsTotals` | webapp.py:44-59 | the history view has the same income and expense totals as the table |
| `Ledger.CategoriesFor` | webapp.py:72-75 | expense gets the six labels starting with Makan, income the four starting with Gaji; both contain Lainnya and neither repeats a label |
| `Ledger.SharedCategoryIsLainnya` | webapp.py:72-75 | a label is offered for both types exactly when it is Lainnya |
| `Lexical.BelowTotal` | webapp.py:114 | any two distinct category names are ordered by the group-by's key order |
| `Lexical.BelowTransitive` | webapp.py:114 | the key order is transitive |
| `Grouping.Expenses` | webapp.py:105 | reference definition with no contract of its own: the expense rows of the table, in table order |
| `Grouping.HasExpense` | webapp.py:107 | reference definition with no contract of its own: the table has at least one expense row, the negation of the `empty` check |
| `Grouping.Insert` | webapp.py:114 | adding a row to a grouping keeps the keys ascending, adds its category to the keys, adds its amount to that key's total only, and raises the grand total by that amount |
| `Grouping.Group` | webapp.py:114 | grouping rows gives ascending keys that are exactly the categories present; each group's value is the category's amount sum, and the values add up to the rows' amount sum |
| `Grouping.LookupAt` | webapp.py:114 | in an ascending grouping, looking up the key at a position gives that position's value, because keys are unique |
| `Grouping.ExpenseByCategory` | webapp.py:105-114 | expense grouping lists each category on an expense row exactly once, in ascending order, with that category's expense sum; its values add up to the expense total |
| `Grouping.GroupEntryOf` | webapp.py:105-114 | every category that appears on an expense row has an entry in the expense grouping holding its expense sum |
| `Grouping.IdxMax` | webapp.py:125-126 | idxmax returns a position whose value is at least every value, and every earlier position holds a strictly smaller value, so it is the first maximum |
| `Grouping.IdxMaxIsTop` | webapp.py:125-126 | the first maximum of the expense grouping is an expense category whose sum no category exceeds; any category that ties sorts after it |
| `Grouping.TopExpenseCategory` | webapp.py:105-126 | with at least one expense row, the top category occurs on an expense row and the value is its expense sum; no category spends more, and ties go to the smallest category |
| `Views.Load` | webapp.py:16-19 | reference definition with no contract of its own: a missing file loads as the empty table, and a stored table loads unchanged |
| `Views.Submit` | webapp.py:84-96 | a submit stores the loaded table plus one row; the old rows are unchanged, only the row's own type total rises, and the new row heads the history view |
| `Views.ShowDashboard` | webapp.py:40-61 | the dashboard shows the no-data note exactly when the table is empty; otherwise the two totals add up to all amounts, the balance is income minus expense and the signed sum, and the history is the whole table in reverse insertion order |
| `Views.ShowAnalysis` | webapp.py:104-127 | the analysis warns exactly when no row is an expense; otherwise the pie lists each expense category once in ascending order with its expense sum, adding up to the expense total; the callout is a pie entry holding its category's expense sum, no entry exceeds it, and any tied category sorts after it |
| `Views.EmptyFileScenario` | webapp.py:16-17 | with no file yet, the dashboard shows its no-data note and the analysis shows its warning |
| `Views.FirstExpenseScenario` | webapp.py:84-96 | one Makan expense of 50000 submitted with no file gives income 0, expense 50000 and balance -50000 |
| `Views.TwoExpensesScenario` | webapp.py:114-126 | expenses Makan 50000 and Transport 30000 group to exactly those two entries, in that order, and Makan is the top category |
| `Views.TieScenario` | webapp.py:125-126 | Transport 100 entered before Makan 100 still makes Makan the top category, because ties go to the key that sorts first |
| `Views.IncomeOnlyScenario` | webapp.py:105-108 | a table with only an income row shows the warning, and no top category is computed |

## Left out

- Reading the file: `pd.read_excel` and `os.path.exists` (webapp.py:14-19) are library calls on the filesystem. `Views.Load` keeps only their outcome: a missing file gives the empty table, and a stored table is read back unchanged.
- The parse-failure path of `load_data` (webapp.py:20-22) is not modelled. It returns a table without columns. The three views react differently to it:
  - the analysis view reads `Tipe` from it (webapp.py:105) and raises;
  - the dashboard does not raise: the table is `empty`, so it shows the no-data note (webapp.py:43, 61);
  - a submit appends the new row to that empty table (webapp.py:94) and overwrites the unreadable file with a one-row table (webapp.py:96). Every earlier row is lost, so on this path the old rows do not survive, which `Views.Submit` promises only for a readable file.
- Writing the file: `to_excel` and its failure message (webapp.py:24-29) are not modelled. `Views.Submit` assumes the write succeeds. The app's success message is shown even when saving failed, and that is also outside the model.
- All Streamlit presentation is left out: page setup, sidebar, forms, metrics, dataframes, messages and balloons. It renders data and computes nothing.
- The matplotlib pie chart and its percentage labels (webapp.py:116-122) are left out. They are floating-point rendering in a foreign library. `ShowAnalysis` keeps the data handed to it.
- Currency formatting (`Rp {x:,.0f}`) and the `datetime.now()` default date are left out, because they are formatting and clock-dependent. Dates are opaque values.
- The form's step of 1000 is left out. It only sets the increment of the input buttons, so any whole amount of at least 0 can still be entered, and the model accepts any `nat`.
- Type conversions the spreadsheet format may apply on the round trip (whole numbers read back as floats, empty notes read back as missing) are not modelled.
- Ledger.IncomeTotal, Ledger.ExpenseTotal, Ledger.Balance, Grouping.CategoryTotal and Grouping.SumValues are unbounded integers. The library keeps `Nominal` and its sums as 64-bit integers (webapp.py:44-45, 114), and a sum past 2^63 - 1 wraps silently. The model does not bound amounts or sums, so it does not model that wrap-around.
- Concurrency is not modelled: two sessions each load, append and save, and the last writer wins. The code has no concurrency primitives.

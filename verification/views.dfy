/**
  The three menu actions of the tracker as pure functions of the stored
  table: the dashboard, the transaction form's submit, and the expense
  analysis. Reading and writing the spreadsheet file is reduced to its
  outcome: the file is either missing or holds a table.
 */
module Views {
  import Lexical
  import opened Ledger
  import opened Grouping

  /** State of the backing spreadsheet file. */
  datatype StoredFile = Missing | Stored(rows: Table)

  /** Loading a missing file gives the empty five-column table. */
  function Load(f: StoredFile): Table
  {
    match f
    case Missing => []
    case Stored(rows) => rows
  }

  /** A submit reloads the file, appends the one new row and writes the whole
      table back. The stored table grows by that row only: the total of the
      row's type rises by its amount, the other total stays, and the new row
      heads the history view. */
  function Submit(f: StoredFile, x: Transaction): (f': StoredFile)
    ensures |Load(f')| == |Load(f)| + 1
    ensures Load(f')[..|Load(f)|] == Load(f)
    ensures IncomeTotal(Load(f')) == IncomeTotal(Load(f)) + (if x.kind == Pemasukan then x.amount else 0)
    ensures ExpenseTotal(Load(f')) == ExpenseTotal(Load(f)) + (if x.kind == Pengeluaran then x.amount else 0)
    ensures NewestFirst(Load(f'))[0] == x
  {
    AppendTotals(Load(f), x);
    NewestFirstOfAppend(Load(f), x);
    Stored(Append(Load(f), x))
  }

  /** What the dashboard shows: an informational note for an empty table, or
      the three figures and the history newest first. */
  datatype Dashboard = NoData | Summary(income: nat, expense: nat, balance: int, history: Table)

  function ShowDashboard(t: Table): (d: Dashboard)
    ensures d.NoData? <==> t == []
    ensures d.Summary? ==> d.income + d.expense == SumAmounts(t)
    ensures d.Summary? ==> d.balance == d.income - d.expense == SignedSum(t)
    ensures d.Summary? ==> |d.history| == |t|
    ensures d.Summary? ==> forall i :: 0 <= i < |t| ==> d.history[i] == t[|t| - 1 - i]
  {
    if t == [] then NoData
    else
      TotalsPartitionAmounts(t);
      BalanceIsSignedSum(t);
      Summary(IncomeTotal(t), ExpenseTotal(t), Balance(t), NewestFirst(t))
  }

  /** What the analysis view shows: a warning when there are no expense rows,
      otherwise the per-category pie data and the top category callout. */
  datatype Analysis = NoExpenseWarning | Insight(pie: Groups, top: string, topTotal: nat)

  function ShowAnalysis(t: Table): (v: Analysis)
    ensures v.NoExpenseWarning? <==> forall x :: x in t ==> x.kind != Pengeluaran
    ensures v.Insight? ==> |v.pie| > 0 && SumValues(v.pie) == ExpenseTotal(t)
    ensures v.Insight? ==> exists i :: 0 <= i < |v.pie| && v.pie[i] == (v.top, v.topTotal)
    ensures v.Insight? ==> forall i :: 0 <= i < |v.pie| ==> v.pie[i].1 <= v.topTotal
    ensures v.Insight? ==> Ascending(v.pie) && Keys(v.pie) == ExpenseCategoriesOf(t)
    ensures v.Insight? ==> forall i :: 0 <= i < |v.pie| ==> v.pie[i].1 == CategoryTotal(Expenses(t), v.pie[i].0)
    ensures v.Insight? ==> v.topTotal == CategoryTotal(Expenses(t), v.top)
    ensures v.Insight? ==> forall c :: c in ExpenseCategoriesOf(t) && CategoryTotal(Expenses(t), c) == v.topTotal ==>
              c == v.top || Lexical.Below(v.top, c)
  {
    if Expenses(t) == [] then NoExpenseWarning
    else
      var x := Expenses(t)[0];
      assert x in Expenses(t);
      var pie := ExpenseByCategory(t);
      var top := TopExpenseCategory(t);
      assert exists i :: 0 <= i < |pie| && pie[i] == top by {
        var j := GroupEntryOf(t, top.0);
        assert pie[j] == top;
      }
      assert forall i :: 0 <= i < |pie| ==> pie[i].0 in ExpenseCategoriesOf(t) by {
        forall i | 0 <= i < |pie|
          ensures pie[i].0 in ExpenseCategoriesOf(t)
        {
          assert pie[i].0 in Keys(pie);
        }
      }
      Insight(pie, top.0, top.1)
  }

  function Expense(category: string, amount: nat): Transaction
  {
    Transaction(Date(2024, 1, 10), category, Pengeluaran, amount, "")
  }

  /** With no file yet, the dashboard shows its note and the analysis view
      its warning. */
  lemma EmptyFileScenario()
    ensures ShowDashboard(Load(Missing)) == NoData
    ensures ShowAnalysis(Load(Missing)) == NoExpenseWarning
  {
  }

  /** A first expense of 50000 on `Makan`, submitted with no file yet, gives
      income 0, expense 50000 and balance -50000. */
  lemma FirstExpenseScenario()
    ensures ShowDashboard(Load(Submit(Missing, Expense("Makan", 50000)))) ==
              Summary(0, 50000, -50000, [Expense("Makan", 50000)])
  {
  }

  /** Two expenses, `Makan` 50000 then `Transport` 30000: the pie lists both
      and `Makan` is the top category. */
  lemma TwoExpensesScenario()
    ensures ExpenseByCategory([Expense("Makan", 50000), Expense("Transport", 30000)]) ==
              [("Makan", 50000), ("Transport", 30000)]
    ensures TopExpenseCategory([Expense("Makan", 50000), Expense("Transport", 30000)]) ==
              ("Makan", 50000)
  {
  }

  /** A tie goes to the category that sorts first, not to the one entered
      first: `Transport` 100 then `Makan` 100 makes `Makan` the top. */
  lemma TieScenario()
    ensures TopExpenseCategory([Expense("Transport", 100), Expense("Makan", 100)]) == ("Makan", 100)
  {
  }

  /** A table of income only never reaches the top-category computation. */
  lemma IncomeOnlyScenario()
    ensures ShowAnalysis([Transaction(Date(2024, 1, 1), "Gaji", Pemasukan, 5000000, "")]) == NoExpenseWarning
  {
  }
}

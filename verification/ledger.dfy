/**
  The transaction table of the finance tracker and the figures the dashboard
  derives from it: income total, expense total and balance; the append a
  form submit performs; the newest-first history view; and the category
  labels the form offers for each transaction type.
 */
module Ledger {

  /** Calendar date of a transaction; stored, never interpreted. */
  datatype Date = Date(year: int, month: nat, day: nat)

  /** The `Tipe` column: income (`Pemasukan`) or expense (`Pengeluaran`). */
  datatype Kind = Pemasukan | Pengeluaran

  /** One row: `Tanggal`, `Kategori`, `Tipe`, `Nominal`, `Keterangan`. */
  datatype Transaction = Transaction(
    date: Date,
    category: string,
    kind: Kind,
    amount: nat,
    note: string)

  /** The table, rows in insertion order. */
  type Table = seq<Transaction>

  /** The rows of `t` whose type is `k`, in their original order. */
  function OfKind(t: Table, k: Kind): (r: Table)
    ensures |r| <= |t|
    ensures forall x :: x in r <==> x in t && x.kind == k
  {
    if t == [] then []
    else if t[0].kind == k then [t[0]] + OfKind(t[1..], k)
    else OfKind(t[1..], k)
  }

  /** The type filter keeps every matching row as often as it occurs,
      duplicates included, and no other row. */
  lemma {:induction false} OfKindCounts(t: Table, k: Kind)
    ensures forall x :: multiset(OfKind(t, k))[x] == (if x.kind == k then multiset(t)[x] else 0)
  {
    if t != [] {
      OfKindCounts(t[1..], k);
      assert t == [t[0]] + t[1..];
      assert multiset(t) == multiset{t[0]} + multiset(t[1..]);
    }
  }

  /** Sum of the `Nominal` column. */
  function SumAmounts(t: Table): nat
  {
    if t == [] then 0 else t[0].amount + SumAmounts(t[1..])
  }

  function IncomeTotal(t: Table): nat
  {
    SumAmounts(OfKind(t, Pemasukan))
  }

  function ExpenseTotal(t: Table): nat
  {
    SumAmounts(OfKind(t, Pengeluaran))
  }

  /** Remaining balance: income total minus expense total. */
  function Balance(t: Table): int
  {
    IncomeTotal(t) - ExpenseTotal(t)
  }

  /** What one row contributes to the balance. */
  function Signed(x: Transaction): int
  {
    match x.kind
    case Pemasukan => x.amount
    case Pengeluaran => -(x.amount as int)
  }

  /** Reference definition of the balance: a running signed sum over rows. */
  function SignedSum(t: Table): int
  {
    if t == [] then 0 else Signed(t[0]) + SignedSum(t[1..])
  }

  /** A submit adds the new row after every row already in the table. */
  function Append(t: Table, x: Transaction): (u: Table)
    ensures |u| == |t| + 1
    ensures u[..|t|] == t
    ensures u[|t|] == x
  {
    t + [x]
  }

  /** The history view, most recently entered row first. */
  function NewestFirst(t: Table): (r: Table)
    ensures |r| == |t|
    ensures forall i :: 0 <= i < |t| ==> r[i] == t[|t| - 1 - i]
  {
    if t == [] then [] else NewestFirst(t[1..]) + [t[0]]
  }

  const ExpenseCategories: seq<string> :=
    ["Makan", "Transport", "Belanja", "Tagihan", "Hiburan", "Lainnya"]

  const IncomeCategories: seq<string> :=
    ["Gaji", "Bonus", "Freelance", "Lainnya"]

  /** The category labels the form offers once a type is chosen. */
  function CategoriesFor(k: Kind): (r: seq<string>)
    ensures k == Pengeluaran ==> |r| == 6 && r[0] == "Makan"
    ensures k == Pemasukan ==> |r| == 4 && r[0] == "Gaji"
    ensures "Lainnya" in r
    ensures forall i, j :: 0 <= i < j < |r| ==> r[i] != r[j]
  {
    if k == Pengeluaran then ExpenseCategories else IncomeCategories
  }

  /** The only label offered for both types is `Lainnya`. */
  lemma SharedCategoryIsLainnya(c: string)
    ensures c in CategoriesFor(Pemasukan) && c in CategoriesFor(Pengeluaran) <==> c == "Lainnya"
  {
  }

  /** Filtering by type distributes over concatenation, keeping row order. */
  lemma {:induction false} OfKindConcat(a: Table, b: Table, k: Kind)
    ensures OfKind(a + b, k) == OfKind(a, k) + OfKind(b, k)
  {
    if a != [] {
      assert (a + b)[1..] == a[1..] + b;
      OfKindConcat(a[1..], b, k);
    } else {
      assert a + b == b;
    }
  }

  lemma {:induction false} SumAmountsConcat(a: Table, b: Table)
    ensures SumAmounts(a + b) == SumAmounts(a) + SumAmounts(b)
  {
    if a != [] {
      assert (a + b)[1..] == a[1..] + b;
      SumAmountsConcat(a[1..], b);
    } else {
      assert a + b == b;
    }
  }

  /** Every row is either income or expense, so the two totals partition the
      `Nominal` column. */
  lemma {:induction false} TotalsPartitionAmounts(t: Table)
    ensures IncomeTotal(t) + ExpenseTotal(t) == SumAmounts(t)
  {
    if t != [] {
      TotalsPartitionAmounts(t[1..]);
    }
  }

  /** The balance equals the running signed sum over the rows. */
  lemma {:induction false} BalanceIsSignedSum(t: Table)
    ensures Balance(t) == SignedSum(t)
  {
    if t != [] {
      BalanceIsSignedSum(t[1..]);
    }
  }

  /** Appending a row raises exactly the total of its own type by its amount
      and leaves the other total alone. */
  lemma AppendTotals(t: Table, x: Transaction)
    ensures IncomeTotal(Append(t, x)) == IncomeTotal(t) + (if x.kind == Pemasukan then x.amount else 0)
    ensures ExpenseTotal(Append(t, x)) == ExpenseTotal(t) + (if x.kind == Pengeluaran then x.amount else 0)
    ensures Balance(Append(t, x)) == Balance(t) + Signed(x)
  {
    OfKindConcat(t, [x], Pemasukan);
    OfKindConcat(t, [x], Pengeluaran);
    SumAmountsConcat(OfKind(t, Pemasukan), OfKind([x], Pemasukan));
    SumAmountsConcat(OfKind(t, Pengeluaran), OfKind([x], Pengeluaran));
  }

  /** After a submit the history view starts with the new row, followed by
      the earlier view unchanged. */
  lemma NewestFirstOfAppend(t: Table, x: Transaction)
    ensures NewestFirst(Append(t, x)) == [x] + NewestFirst(t)
  {
  }

  /** Reversing the history view gives back the table. */
  lemma NewestFirstInvolution(t: Table)
    ensures NewestFirst(NewestFirst(t)) == t
  {
  }

  /** The history view holds the same rows, so it has the same totals. */
  lemma {:induction false} NewestFirstKeepsTotals(t: Table)
    ensures IncomeTotal(NewestFirst(t)) == IncomeTotal(t)
    ensures ExpenseTotal(NewestFirst(t)) == ExpenseTotal(t)
  {
    if t != [] {
      NewestFirstKeepsTotals(t[1..]);
      forall k: Kind
        ensures SumAmounts(OfKind(NewestFirst(t), k)) == SumAmounts(OfKind(t, k))
      {
        OfKindConcat(NewestFirst(t[1..]), [t[0]], k);
        SumAmountsConcat(OfKind(NewestFirst(t[1..]), k), OfKind([t[0]], k));
      }
    }
  }
}

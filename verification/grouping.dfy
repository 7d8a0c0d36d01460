/**
  The analysis view's aggregation: expense rows grouped by category with
  the amounts summed per group, and the category with the largest sum.

  The spreadsheet library sorts group keys, so a grouping is an association
  list whose keys are strictly ascending in `Lexical.Below` order. Its
  `idxmax` returns the first key that reaches the maximum; with ascending
  keys that makes ties go to the smallest category.
 */
module Grouping {
  import opened Lexical
  import opened Ledger

  /** `(category, summed amount)` pairs. */
  type Groups = seq<(string, nat)>

  /** Keys strictly ascending, hence each key listed once. */
  predicate Ascending(g: Groups)
  {
    forall i, j :: 0 <= i < j < |g| ==> Below(g[i].0, g[j].0)
  }

  function Keys(g: Groups): set<string>
  {
    set i | 0 <= i < |g| :: g[i].0
  }

  /** The summed amount listed for `k`, or 0 when `k` is not a key. */
  function Lookup(g: Groups, k: string): nat
  {
    if g == [] then 0
    else if g[0].0 == k then g[0].1
    else Lookup(g[1..], k)
  }

  function SumValues(g: Groups): nat
  {
    if g == [] then 0 else g[0].1 + SumValues(g[1..])
  }

  /** The categories that occur on the rows of `t`. */
  function CategoriesOf(t: Table): set<string>
  {
    set x | x in t :: x.category
  }

  /** Reference definition of one group: the sum of the amounts of the rows
      whose category is `c`. */
  function CategoryTotal(t: Table, c: string): nat
  {
    if t == [] then 0
    else (if t[0].category == c then t[0].amount else 0) + CategoryTotal(t[1..], c)
  }

  /** Adds amount `a` to the group of category `c`, opening that group at its
      sorted position when `c` is new. */
  function Insert(g: Groups, c: string, a: nat): (r: Groups)
    requires Ascending(g)
    ensures Ascending(r)
    ensures Keys(r) == Keys(g) + {c}
    ensures SumValues(r) == SumValues(g) + a
    ensures forall k :: Lookup(r, k) == Lookup(g, k) + (if k == c then a else 0)
  {
    if g == [] then
      assert Keys([(c, a)]) == {c} by {
        KeysCons([(c, a)]);
      }
      [(c, a)]
    else if g[0].0 == c then
      InsertAtHead(g, a);
      [(c, g[0].1 + a)] + g[1..]
    else if Below(c, g[0].0) then
      InsertBeforeHead(g, c, a);
      [(c, a)] + g
    else
      var rest := Insert(g[1..], c, a);
      InsertAfterHead(g, c, a, rest);
      [g[0]] + rest
  }

  lemma InsertAtHead(g: Groups, a: nat)
    requires Ascending(g) && g != []
    ensures var r := [(g[0].0, g[0].1 + a)] + g[1..];
      && Ascending(r)
      && Keys(r) == Keys(g)
      && SumValues(r) == SumValues(g) + a
      && forall k :: Lookup(r, k) == Lookup(g, k) + (if k == g[0].0 then a else 0)
  {
    var c := g[0].0;
    var r := [(c, g[0].1 + a)] + g[1..];
    assert r[1..] == g[1..];
    KeysCons(r);
    KeysCons(g);
    forall j | 0 <= j < |g| - 1
      ensures g[1..][j].0 != c
    {
      assert g[1..][j] == g[j + 1];
      BelowIrreflexive(c);
    }
    LookupMissing(g[1..], c);
  }

  lemma InsertBeforeHead(g: Groups, c: string, a: nat)
    requires Ascending(g) && g != [] && Below(c, g[0].0)
    ensures var r := [(c, a)] + g;
      && Ascending(r)
      && Keys(r) == Keys(g) + {c}
      && SumValues(r) == SumValues(g) + a
      && forall k :: Lookup(r, k) == Lookup(g, k) + (if k == c then a else 0)
  {
    var r := [(c, a)] + g;
    assert r[1..] == g;
    forall j | 0 <= j < |g|
      ensures Below(c, g[j].0)
    {
      if j > 0 {
        BelowTransitive(c, g[0].0, g[j].0);
      }
    }
    forall j | 0 <= j < |g|
      ensures g[j].0 != c
    {
      BelowAsymmetric(c, g[j].0);
    }
    assert Ascending(r) by {
      forall i, j | 0 <= i < j < |r|
        ensures Below(r[i].0, r[j].0)
      {
        assert r[j] == g[j - 1];
        if i > 0 {
          assert r[i] == g[i - 1];
        }
      }
    }
    KeysCons(r);
    LookupMissing(g, c);
  }

  lemma InsertAfterHead(g: Groups, c: string, a: nat, rest: Groups)
    requires Ascending(g) && g != [] && g[0].0 != c && !Below(c, g[0].0)
    requires Ascending(rest)
    requires Keys(rest) == Keys(g[1..]) + {c}
    requires SumValues(rest) == SumValues(g[1..]) + a
    requires forall k :: Lookup(rest, k) == Lookup(g[1..], k) + (if k == c then a else 0)
    ensures var r := [g[0]] + rest;
      && Ascending(r)
      && Keys(r) == Keys(g) + {c}
      && SumValues(r) == SumValues(g) + a
      && forall k :: Lookup(r, k) == Lookup(g, k) + (if k == c then a else 0)
  {
    var r := [g[0]] + rest;
    assert r[1..] == rest;
    BelowTotal(c, g[0].0);
    forall j | 0 <= j < |rest|
      ensures Below(g[0].0, rest[j].0)
    {
      assert rest[j].0 in Keys(rest);
      if rest[j].0 != c {
        var m :| 0 <= m < |g| - 1 && g[1..][m].0 == rest[j].0;
        assert g[m + 1].0 == rest[j].0;
      }
    }
    assert Ascending(r) by {
      forall i, j | 0 <= i < j < |r|
        ensures Below(r[i].0, r[j].0)
      {
        assert r[j] == rest[j - 1];
        if i > 0 {
          assert r[i] == rest[i - 1];
        }
      }
    }
    KeysCons(r);
    KeysCons(g);
  }

  /** A list's keys are its first key and the keys of the rest. */
  lemma KeysCons(g: Groups)
    requires g != []
    ensures Keys(g) == {g[0].0} + Keys(g[1..])
  {
  }

  /** A key that is not listed looks up to 0. */
  lemma {:induction false} LookupMissing(g: Groups, k: string)
    requires forall j :: 0 <= j < |g| ==> g[j].0 != k
    ensures Lookup(g, k) == 0
  {
    if g != [] {
      LookupMissing(g[1..], k);
    }
  }

  /** In an ascending list, looking up the key at position `i` gives the value
      at position `i`. */
  lemma {:induction false} LookupAt(g: Groups, i: nat)
    requires Ascending(g)
    requires i < |g|
    ensures Lookup(g, g[i].0) == g[i].1
  {
    if i > 0 {
      assert g[0].0 != g[i].0 by {
        BelowIrreflexive(g[0].0);
      }
      assert g[1..][i - 1] == g[i];
      LookupAt(g[1..], i - 1);
    }
  }

  /** Groups the rows by category, summing amounts; the result is the sorted
      association list the spreadsheet library's group-by produces. */
  function Group(t: Table): (r: Groups)
    ensures Ascending(r)
    ensures Keys(r) == CategoriesOf(t)
    ensures SumValues(r) == SumAmounts(t)
    ensures forall k :: Lookup(r, k) == CategoryTotal(t, k)
  {
    if t == [] then []
    else
      assert CategoriesOf(t) == {t[0].category} + CategoriesOf(t[1..]) by {
        assert t == [t[0]] + t[1..];
      }
      Insert(Group(t[1..]), t[0].category, t[0].amount)
  }

  /** The rows of the analysis view: expense rows only. */
  function Expenses(t: Table): Table
  {
    OfKind(t, Pengeluaran)
  }

  /** The categories that occur on expense rows of `t`. */
  function ExpenseCategoriesOf(t: Table): set<string>
  {
    set x | x in t && x.kind == Pengeluaran :: x.category
  }

  /** Expense rows grouped by category: one entry per category that occurs on
      an expense row, in ascending order, each holding the sum of that
      category's expense amounts; the entries add up to the expense total. */
  function ExpenseByCategory(t: Table): (r: Groups)
    ensures Ascending(r)
    ensures forall i, j :: 0 <= i < j < |r| ==> r[i].0 != r[j].0
    ensures Keys(r) == ExpenseCategoriesOf(t)
    ensures forall i :: 0 <= i < |r| ==> r[i].1 == CategoryTotal(Expenses(t), r[i].0)
    ensures SumValues(r) == ExpenseTotal(t)
  {
    var r := Group(Expenses(t));
    assert CategoriesOf(Expenses(t)) == ExpenseCategoriesOf(t);
    forall i, j | 0 <= i < j < |r|
      ensures r[i].0 != r[j].0
    {
      BelowIrreflexive(r[i].0);
    }
    forall i | 0 <= i < |r|
      ensures r[i].1 == CategoryTotal(Expenses(t), r[i].0)
    {
      LookupAt(r, i);
    }
    r
  }

  /** Position of the first entry holding the largest value. */
  function IdxMax(g: Groups): (i: nat)
    requires |g| > 0
    ensures i < |g|
    ensures forall j :: 0 <= j < |g| ==> g[j].1 <= g[i].1
    ensures forall j :: 0 <= j < i ==> g[j].1 < g[i].1
  {
    if |g| == 1 then 0
    else
      var k := 1 + IdxMax(g[1..]);
      if g[0].1 >= g[k].1 then 0 else k
  }

  /** True when the table has at least one expense row. */
  predicate HasExpense(t: Table)
  {
    exists x :: x in t && x.kind == Pengeluaran
  }

  /** Every category on an expense row has an entry in the grouping, and
      that entry holds the category's expense sum. */
  lemma GroupEntryOf(t: Table, c: string) returns (j: nat)
    requires c in ExpenseCategoriesOf(t)
    ensures j < |ExpenseByCategory(t)|
    ensures ExpenseByCategory(t)[j].0 == c
    ensures ExpenseByCategory(t)[j].1 == CategoryTotal(Expenses(t), c)
  {
    var g := ExpenseByCategory(t);
    assert c in Keys(g);
    j :| 0 <= j < |g| && g[j].0 == c;
  }

  /** The first entry reaching the maximum of an ascending grouping beats
      every other category, and ties only with categories sorting after it. */
  lemma IdxMaxIsTop(t: Table, i: nat)
    requires i < |ExpenseByCategory(t)|
    requires forall j :: 0 <= j < |ExpenseByCategory(t)| ==> ExpenseByCategory(t)[j].1 <= ExpenseByCategory(t)[i].1
    requires forall j :: 0 <= j < i ==> ExpenseByCategory(t)[j].1 < ExpenseByCategory(t)[i].1
    ensures ExpenseByCategory(t)[i].0 in ExpenseCategoriesOf(t)
    ensures forall c :: c in ExpenseCategoriesOf(t) ==>
              CategoryTotal(Expenses(t), c) <= ExpenseByCategory(t)[i].1
    ensures forall c :: c in ExpenseCategoriesOf(t) && CategoryTotal(Expenses(t), c) == ExpenseByCategory(t)[i].1 ==>
              c == ExpenseByCategory(t)[i].0 || Below(ExpenseByCategory(t)[i].0, c)
  {
  }

  /** The category with the largest expense sum, and that sum. Only reached
      when there is an expense row; among tied categories the smallest wins. */
  function TopExpenseCategory(t: Table): (top: (string, nat))
    requires HasExpense(t)
    ensures top.0 in ExpenseCategoriesOf(t)
    ensures top.1 == CategoryTotal(Expenses(t), top.0)
    ensures forall c :: c in ExpenseCategoriesOf(t) ==> CategoryTotal(Expenses(t), c) <= top.1
    ensures forall c :: c in ExpenseCategoriesOf(t) && CategoryTotal(Expenses(t), c) == top.1 ==>
              c == top.0 || Below(top.0, c)
  {
    var g := ExpenseByCategory(t);
    assert |g| > 0 by {
      var x :| x in t && x.kind == Pengeluaran;
      assert x.category in Keys(g);
    }
    var i := IdxMax(g);
    IdxMaxIsTop(t, i);
    (g[i].0, g[i].1)
  }
}

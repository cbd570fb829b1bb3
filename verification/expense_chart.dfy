/**
 * The expense-by-category bar chart (srcv/components/dashboard/expense-chart.tsx):
 * expense amounts summed per category, one bar per expense category with a positive
 * total, largest first.
 */
module ExpenseChart {
  import opened Types
  import opened Seqs
  import SummaryCards

  datatype CategoryTotal = CategoryTotal(category: string, total: real)

  /** `acc[c] || 0`. */
  function Lookup(acc: map<string, real>, c: string): real
  {
    if c in acc then acc[c] else 0.0
  }

  /** One step of the `reduce`: `acc[t.category] = (acc[t.category] || 0) + t.amount`. */
  function AddToCategory(acc: map<string, real>, t: Transaction): map<string, real>
  {
    acc[t.category := Lookup(acc, t.category) + t.amount]
  }

  /** `reduce(..., {})` over a list, first element first. */
  function Accumulate(ts: seq<Transaction>): map<string, real>
  {
    if ts == [] then map[] else AddToCategory(Accumulate(ts[..|ts| - 1]), ts[|ts| - 1])
  }

  /** `expenseByCategory`: the reduction of the expense records only. */
  function ExpenseByCategory(ts: seq<Transaction>): map<string, real>
  {
    Accumulate(Filter(ts, SummaryCards.IsExpense))
  }

  /** `expenseCategories.map(category => ({ category, total: expenseByCategory[category] || 0 }))`. */
  function Entries(cats: seq<string>, acc: map<string, real>): (r: seq<CategoryTotal>)
    ensures |r| == |cats|
    ensures forall i :: 0 <= i < |cats| ==> r[i] == CategoryTotal(cats[i], Lookup(acc, cats[i]))
  {
    seq(|cats|, i requires 0 <= i < |cats| => CategoryTotal(cats[i], Lookup(acc, cats[i])))
  }

  /** `.filter(item => item.total > 0)`. */
  predicate HasPositiveTotal(e: CategoryTotal) { e.total > 0.0 }

  /** `.sort((a, b) => b.total - a.total)`: `a` may stay before `b` when its total is not smaller. */
  predicate NotSmaller(a: CategoryTotal, b: CategoryTotal) { a.total >= b.total }

  lemma NotSmallerIsPreorder()
    ensures TotalPreorder(NotSmaller)
  {
  }

  /** `chartData`. */
  function ChartData(ts: seq<Transaction>): seq<CategoryTotal>
  {
    NotSmallerIsPreorder();
    SortBy(PositiveEntries(ts), NotSmaller)
  }

  // ---------------------------------------------------------------- specification

  /** What one record adds to the bar of category `c`: its amount if it is an expense filed under `c`. */
  function CategoryShare(c: string): Transaction -> real
  {
    (t: Transaction) => if t.kind == Expense && t.category == c then t.amount else 0.0
  }

  /** The sum of the amounts of the expense records filed under `c`. */
  function CategorySum(ts: seq<Transaction>, c: string): real
  {
    Sum(ts, CategoryShare(c))
  }

  function AmountUnder(c: string): Transaction -> real
  {
    (t: Transaction) => if t.category == c then t.amount else 0.0
  }

  lemma {:induction false} AccumulateSums(xs: seq<Transaction>, c: string)
    ensures Lookup(Accumulate(xs), c) == Sum(xs, AmountUnder(c))
  {
    if xs != [] {
      AccumulateSums(xs[..|xs| - 1], c);
    }
  }

  /** The accumulator holds, for every name, the sum of the expense amounts filed under it. */
  lemma ExpenseByCategorySums(ts: seq<Transaction>, c: string)
    ensures Lookup(ExpenseByCategory(ts), c) == CategorySum(ts, c)
  {
    AccumulateSums(Filter(ts, SummaryCards.IsExpense), c);
    SumFilter(ts, SummaryCards.IsExpense, AmountUnder(c), CategoryShare(c));
  }

  /** The bars before sorting: the expense categories, with their sums, whose sum is positive. */
  function PositiveEntries(ts: seq<Transaction>): seq<CategoryTotal>
  {
    Filter(Entries(ExpenseCategories, ExpenseByCategory(ts)), HasPositiveTotal)
  }

  /**
   * The chart: one bar per expense category whose expense sum is positive, with that
   * sum as its total, no category twice (so at most eight bars), largest total first.
   */
  lemma ChartDataSpec(ts: seq<Transaction>)
    ensures forall e :: e in ChartData(ts) ==>
      e.category in ExpenseCategories && e.total == CategorySum(ts, e.category) && e.total > 0.0
    ensures forall c :: c in ExpenseCategories && CategorySum(ts, c) > 0.0 ==>
      CategoryTotal(c, CategorySum(ts, c)) in ChartData(ts)
    ensures forall i, j :: 0 <= i < j < |ChartData(ts)| ==>
      ChartData(ts)[i].category != ChartData(ts)[j].category
    ensures |ChartData(ts)| <= 8
    ensures forall i, j :: 0 <= i < j < |ChartData(ts)| ==>
      ChartData(ts)[i].total >= ChartData(ts)[j].total
  {
    var r := ChartData(ts);
    assert multiset(r) == multiset(PositiveEntries(ts));
    BarsAreSums(ts, r);
    BarsCoverPositiveSums(ts, r);
    BarsDistinct(ts, r);
  }

  /** Every bar is an expense category with its positive expense sum. */
  lemma BarsAreSums(ts: seq<Transaction>, r: seq<CategoryTotal>)
    requires multiset(r) == multiset(PositiveEntries(ts))
    ensures forall e :: e in r ==>
      e.category in ExpenseCategories && e.total == CategorySum(ts, e.category) && e.total > 0.0
  {
    var entries := Entries(ExpenseCategories, ExpenseByCategory(ts));
    forall e | e in r
      ensures e.category in ExpenseCategories && e.total == CategorySum(ts, e.category) && e.total > 0.0
    {
      assert e in multiset(PositiveEntries(ts));
      assert e in entries;
      var i :| 0 <= i < |entries| && entries[i] == e;
      ExpenseByCategorySums(ts, e.category);
    }
  }

  /** Every expense category with a positive sum has its bar. */
  lemma BarsCoverPositiveSums(ts: seq<Transaction>, r: seq<CategoryTotal>)
    requires multiset(r) == multiset(PositiveEntries(ts))
    ensures forall c :: c in ExpenseCategories && CategorySum(ts, c) > 0.0 ==> CategoryTotal(c, CategorySum(ts, c)) in r
  {
    var entries := Entries(ExpenseCategories, ExpenseByCategory(ts));
    forall c | c in ExpenseCategories && CategorySum(ts, c) > 0.0
      ensures CategoryTotal(c, CategorySum(ts, c)) in r
    {
      var i :| 0 <= i < |ExpenseCategories| && ExpenseCategories[i] == c;
      ExpenseByCategorySums(ts, c);
      assert entries[i] in PositiveEntries(ts);
      assert entries[i] in multiset(r);
    }
  }

  /** No category has two bars, so there are at most eight. */
  lemma BarsDistinct(ts: seq<Transaction>, r: seq<CategoryTotal>)
    requires multiset(r) == multiset(PositiveEntries(ts))
    ensures forall i, j :: 0 <= i < j < |r| ==> r[i].category != r[j].category
    ensures |r| <= 8
  {
    var entries := Entries(ExpenseCategories, ExpenseByCategory(ts));
    CategoryListsWellFormed();
    assert Distinct(entries);
    FilterDistinct(entries, HasPositiveTotal);
    DistinctPermutation(PositiveEntries(ts), r);
    assert |r| == |multiset(r)| == |multiset(PositiveEntries(ts))| == |PositiveEntries(ts)|;
    BarsAreSums(ts, r);
    forall i, j | 0 <= i < j < |r| ensures r[i].category != r[j].category {
      assert r[i] in r && r[j] in r;
    }
  }

  /** Records that are all income give an empty chart. */
  lemma IncomeOnlyGivesEmptyChart(ts: seq<Transaction>)
    requires forall t :: t in ts ==> t.kind == Income
    ensures ChartData(ts) == []
  {
    ChartDataSpec(ts);
    forall c ensures CategorySum(ts, c) == 0.0 {
      SumZero(ts, CategoryShare(c));
    }
    assert forall i :: 0 <= i < |ChartData(ts)| ==> ChartData(ts)[i] in ChartData(ts);
  }

  /**
   * An expense filed under an income category adds to no bar of the chart, although
   * the expense card counts it.
   */
  lemma IncomeCategoryExpenseIsDropped(ts: seq<Transaction>, t: Transaction)
    requires t.kind == Expense && t.category in IncomeCategories
    ensures ChartData(ts + [t]) == ChartData(ts)
    ensures SummaryCards.TotalExpenses(ts + [t]) == SummaryCards.TotalExpenses(ts) + t.amount
  {
    var before, after := ExpenseByCategory(ts), ExpenseByCategory(ts + [t]);
    ExpenseAppended(ts, t);
    forall c | c in ExpenseCategories ensures Lookup(after, c) == Lookup(before, c) {
      CategoryListsDisjoint(c);
    }
    assert Entries(ExpenseCategories, after) == Entries(ExpenseCategories, before);
    SummaryCards.TotalsAdditive(ts, [t]);
  }

  /** An expense appended to the list is one more step of the reduction. */
  lemma ExpenseAppended(ts: seq<Transaction>, t: Transaction)
    requires t.kind == Expense
    ensures ExpenseByCategory(ts + [t]) == AddToCategory(ExpenseByCategory(ts), t)
  {
    var xs := Filter(ts, SummaryCards.IsExpense);
    FilterAppend(ts, [t], SummaryCards.IsExpense);
    assert Filter([t], SummaryCards.IsExpense) == [t] by {
      assert [t][..0] == [];
    }
    AccumulateAppend(xs, t);
  }

  /** `Accumulate` takes one more step for an appended record. */
  lemma AccumulateAppend(xs: seq<Transaction>, t: Transaction)
    ensures Accumulate(xs + [t]) == AddToCategory(Accumulate(xs), t)
  {
    assert (xs + [t])[..|xs|] == xs;
  }
}

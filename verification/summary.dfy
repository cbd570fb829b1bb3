/**
 * The three summary cards of the dashboard (srcv/components/dashboard/summary-cards.tsx):
 * total income, total expenses and the net balance of the records they are given.
 */
module SummaryCards {
  import opened Types
  import opened Seqs

  /** What one record adds to the income card. */
  function IncomeShare(t: Transaction): real
  {
    if t.kind == Income then t.amount else 0.0
  }

  /** What one record adds to the expense card: every record that is not income. */
  function ExpenseShare(t: Transaction): real
  {
    if t.kind == Income then 0.0 else t.amount
  }

  function AmountOf(t: Transaction): real { t.amount }

  predicate IsIncome(t: Transaction) { t.kind == Income }

  predicate IsExpense(t: Transaction) { t.kind == Expense }

  function TotalIncome(ts: seq<Transaction>): real { Sum(ts, IncomeShare) }

  function TotalExpenses(ts: seq<Transaction>): real { Sum(ts, ExpenseShare) }

  datatype Totals = Totals(totalIncome: real, totalExpenses: real, netBalance: real)

  /** The `forEach` loop that fills the `income` and `expenses` accumulators. */
  method ComputeTotals(ts: seq<Transaction>) returns (r: Totals)
    ensures r.totalIncome == TotalIncome(ts)
    ensures r.totalExpenses == TotalExpenses(ts)
    ensures r.netBalance == r.totalIncome - r.totalExpenses
  {
    var income, expenses := 0.0, 0.0;
    var i := 0;
    while i < |ts|
      invariant 0 <= i <= |ts|
      invariant income == TotalIncome(ts[..i])
      invariant expenses == TotalExpenses(ts[..i])
    {
      var t := ts[i];
      if t.kind == Income {
        income := income + t.amount;
      } else {
        expenses := expenses + t.amount;
      }
      assert ts[..i + 1][..i] == ts[..i];
      i := i + 1;
    }
    assert ts[..|ts|] == ts;
    r := Totals(income, expenses, income - expenses);
  }

  /** No records: every card shows zero. */
  lemma TotalsOfEmpty()
    ensures TotalIncome([]) == 0.0 && TotalExpenses([]) == 0.0
    ensures TotalIncome([]) - TotalExpenses([]) == 0.0
  {
  }

  /** The cards are the sums of the amounts of the income records and of all other records. */
  lemma TotalsAreFilteredSums(ts: seq<Transaction>)
    ensures TotalIncome(ts) == Sum(Filter(ts, IsIncome), AmountOf)
    ensures TotalExpenses(ts) == Sum(Filter(ts, IsExpense), AmountOf)
  {
    SumFilter(ts, IsIncome, AmountOf, IncomeShare);
    SumFilter(ts, IsExpense, AmountOf, ExpenseShare);
  }

  /** Income plus expenses is the sum of every amount. */
  lemma {:induction false} IncomePlusExpensesIsTotal(ts: seq<Transaction>)
    ensures TotalIncome(ts) + TotalExpenses(ts) == Sum(ts, AmountOf)
  {
    if ts != [] {
      IncomePlusExpensesIsTotal(ts[..|ts| - 1]);
    }
  }

  /** The totals of a concatenation are the sums of the totals of the parts. */
  lemma TotalsAdditive(a: seq<Transaction>, b: seq<Transaction>)
    ensures TotalIncome(a + b) == TotalIncome(a) + TotalIncome(b)
    ensures TotalExpenses(a + b) == TotalExpenses(a) + TotalExpenses(b)
  {
    SumAppend(a, b, IncomeShare);
    SumAppend(a, b, ExpenseShare);
  }

  /** Reordering the records does not change the totals. */
  lemma TotalsOrderIndependent(a: seq<Transaction>, b: seq<Transaction>)
    requires multiset(a) == multiset(b)
    ensures TotalIncome(a) == TotalIncome(b)
    ensures TotalExpenses(a) == TotalExpenses(b)
  {
    SumPermutation(a, b, IncomeShare);
    SumPermutation(a, b, ExpenseShare);
  }
}

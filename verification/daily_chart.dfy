/**
 * The daily expenses line chart (srcv/components/dashboard/daily-expenses-chart.tsx):
 * expense amounts summed per calendar day, one point per day that has an expense,
 * earliest day first.
 */
module DailyExpensesChart {
  import opened Types
  import opened Dates
  import opened Seqs
  import SummaryCards

  /** One point of the chart: a day (the 'yyyy-MM-dd' key) and its total. */
  datatype DayTotal = DayTotal(day: Day, total: real)

  /** Where `d` sits in the accumulator, or its length when it is not there yet. */
  function IndexOfDay(acc: seq<DayTotal>, d: Day): (i: nat)
    ensures i <= |acc|
    ensures i < |acc| ==> acc[i].day == d
    ensures i == |acc| ==> forall k :: 0 <= k < |acc| ==> acc[k].day != d
  {
    if acc == [] then 0
    else if acc[0].day == d then 0
    else 1 + IndexOfDay(acc[1..], d)
  }

  /**
   * One step of the `reduce`: `acc[day] = (acc[day] || 0) + t.amount`. The accumulator
   * is kept as its entry list, in the insertion order that `Object.entries` reports.
   */
  function AddToDay(acc: seq<DayTotal>, t: Transaction): seq<DayTotal>
  {
    var d := DayOf(t.date);
    var i := IndexOfDay(acc, d);
    if i < |acc| then acc[i := DayTotal(d, acc[i].total + t.amount)]
    else acc + [DayTotal(d, t.amount)]
  }

  function Accumulate(ts: seq<Transaction>): seq<DayTotal>
  {
    if ts == [] then [] else AddToDay(Accumulate(ts[..|ts| - 1]), ts[|ts| - 1])
  }

  /** `Object.entries(dailyExpenses)` for the expense records. */
  function DailyTotals(ts: seq<Transaction>): seq<DayTotal>
  {
    Accumulate(Filter(ts, SummaryCards.IsExpense))
  }

  /** `.sort((a, b) => new Date(a.date).getTime() - new Date(b.date).getTime())`. */
  predicate NotLater(a: DayTotal, b: DayTotal) { DayOrdinal(a.day) <= DayOrdinal(b.day) }

  lemma NotLaterIsPreorder()
    ensures TotalPreorder(NotLater)
  {
  }

  /** `chartData` (without the display-only `formattedDate`). */
  function ChartData(ts: seq<Transaction>): seq<DayTotal>
  {
    NotLaterIsPreorder();
    SortBy(DailyTotals(ts), NotLater)
  }

  // ---------------------------------------------------------------- specification

  /** What one record adds to day `d`: its amount if it is an expense on that day. */
  function DayShare(d: Day): Transaction -> real
  {
    (t: Transaction) => if t.kind == Expense && DayOf(t.date) == d then t.amount else 0.0
  }

  /** The sum of the amounts of the expense records dated on day `d`. */
  function DaySum(ts: seq<Transaction>, d: Day): real
  {
    Sum(ts, DayShare(d))
  }

  function AmountOn(d: Day): Transaction -> real
  {
    (t: Transaction) => if DayOf(t.date) == d then t.amount else 0.0
  }

  function TotalOf(e: DayTotal): real { e.total }

  predicate DistinctDays(acc: seq<DayTotal>)
  {
    forall i, j :: 0 <= i < j < |acc| ==> acc[i].day != acc[j].day
  }

  /** Each point's total is the sum of the amounts of `xs` dated on its day. */
  ghost predicate TotalsMatch(acc: seq<DayTotal>, xs: seq<Transaction>)
  {
    forall i :: 0 <= i < |acc| ==> acc[i].total == Sum(xs, AmountOn(acc[i].day))
  }

  /** Each point's day is the day of some record of `xs`. */
  ghost predicate DaysWitnessed(acc: seq<DayTotal>, xs: seq<Transaction>)
  {
    forall i :: 0 <= i < |acc| ==> exists x :: x in xs && DayOf(x.date) == acc[i].day
  }

  /** Each record of `xs` has a point for its day. */
  ghost predicate DaysCovered(acc: seq<DayTotal>, xs: seq<Transaction>)
  {
    forall x :: x in xs ==> IndexOfDay(acc, DayOf(x.date)) < |acc|
  }

  lemma AddToDayKeepsDistinct(acc: seq<DayTotal>, x: Transaction)
    requires DistinctDays(acc)
    ensures DistinctDays(AddToDay(acc, x))
  {
  }

  lemma AddToDayKeepsTotals(acc: seq<DayTotal>, xs: seq<Transaction>, x: Transaction)
    requires DistinctDays(acc) && TotalsMatch(acc, xs) && DaysCovered(acc, xs)
    ensures TotalsMatch(AddToDay(acc, x), xs + [x])
  {
    var acc' := AddToDay(acc, x);
    var d := DayOf(x.date);
    if IndexOfDay(acc, d) == |acc| {
      forall y | y in xs ensures AmountOn(d)(y) == 0.0 {
        assert acc[IndexOfDay(acc, DayOf(y.date))].day == DayOf(y.date);
      }
      SumZero(xs, AmountOn(d));
    }
    forall e | 0 <= e < |acc'|
      ensures acc'[e].total == Sum(xs + [x], AmountOn(acc'[e].day))
    {
      SumAppend(xs, [x], AmountOn(acc'[e].day));
      assert Sum([x], AmountOn(acc'[e].day)) == AmountOn(acc'[e].day)(x) by { assert [x][..0] == []; }
    }
  }

  lemma AddToDayKeepsWitnesses(acc: seq<DayTotal>, xs: seq<Transaction>, x: Transaction)
    requires DaysWitnessed(acc, xs)
    ensures DaysWitnessed(AddToDay(acc, x), xs + [x])
  {
    var acc' := AddToDay(acc, x);
    forall e | 0 <= e < |acc'|
      ensures exists y :: y in xs + [x] && DayOf(y.date) == acc'[e].day
    {
      if e < |acc| && acc'[e].day == acc[e].day {
        var y :| y in xs && DayOf(y.date) == acc[e].day;
        assert y in xs + [x];
      } else {
        assert x in xs + [x];
      }
    }
  }

  lemma AddToDayKeepsCover(acc: seq<DayTotal>, xs: seq<Transaction>, x: Transaction)
    requires DaysCovered(acc, xs)
    ensures DaysCovered(AddToDay(acc, x), xs + [x])
  {
    var acc' := AddToDay(acc, x);
    forall y | y in xs + [x] ensures IndexOfDay(acc', DayOf(y.date)) < |acc'| {
      if y in xs {
        var k := IndexOfDay(acc, DayOf(y.date));
        assert acc'[k].day == DayOf(y.date);
      } else {
        assert acc'[IndexOfDay(acc, DayOf(x.date))].day == DayOf(x.date);
      }
    }
  }

  lemma AddToDayAddsAmount(acc: seq<DayTotal>, x: Transaction)
    ensures Sum(AddToDay(acc, x), TotalOf) == Sum(acc, TotalOf) + x.amount
  {
    var d := DayOf(x.date);
    var i := IndexOfDay(acc, d);
    if i < |acc| {
      SumUpdate(acc, i, DayTotal(d, acc[i].total + x.amount), TotalOf);
    } else {
      SumAppend(acc, [DayTotal(d, x.amount)], TotalOf);
      assert Sum([DayTotal(d, x.amount)], TotalOf) == x.amount by {
        assert [DayTotal(d, x.amount)][..0] == [];
      }
    }
  }

  /** The accumulator after `xs`: each day once, exactly the days of `xs`, each total that day's sum. */
  lemma {:induction false} AccumulateSummarises(xs: seq<Transaction>)
    ensures DistinctDays(Accumulate(xs))
    ensures TotalsMatch(Accumulate(xs), xs)
    ensures DaysWitnessed(Accumulate(xs), xs)
    ensures DaysCovered(Accumulate(xs), xs)
    ensures Sum(Accumulate(xs), TotalOf) == Sum(xs, SummaryCards.AmountOf)
  {
    if xs != [] {
      var xs', x := xs[..|xs| - 1], xs[|xs| - 1];
      assert xs == xs' + [x];
      AccumulateSummarises(xs');
      var acc := Accumulate(xs');
      AddToDayKeepsDistinct(acc, x);
      AddToDayKeepsTotals(acc, xs', x);
      AddToDayKeepsWitnesses(acc, xs', x);
      AddToDayKeepsCover(acc, xs', x);
      AddToDayAddsAmount(acc, x);
      SumAppend(xs', [x], SummaryCards.AmountOf);
      assert Sum([x], SummaryCards.AmountOf) == x.amount by { assert [x][..0] == []; }
    }
  }

  lemma ExpenseDaySums(ts: seq<Transaction>)
    ensures forall d :: Sum(Filter(ts, SummaryCards.IsExpense), AmountOn(d)) == DaySum(ts, d)
  {
    forall d ensures Sum(Filter(ts, SummaryCards.IsExpense), AmountOn(d)) == DaySum(ts, d) {
      SumFilter(ts, SummaryCards.IsExpense, AmountOn(d), DayShare(d));
    }
  }

  lemma ChartPointsAreDaySums(ts: seq<Transaction>)
    ensures forall e :: e in ChartData(ts) ==> e.total == DaySum(ts, e.day)
    ensures forall e :: e in ChartData(ts) ==>
      exists t :: t in ts && t.kind == Expense && DayOf(t.date) == e.day
  {
    var xs := Filter(ts, SummaryCards.IsExpense);
    var acc := DailyTotals(ts);
    AccumulateSummarises(xs);
    ExpenseDaySums(ts);
    forall e | e in ChartData(ts) ensures e.total == DaySum(ts, e.day)
      && exists t :: t in ts && t.kind == Expense && DayOf(t.date) == e.day
    {
      assert e in multiset(acc);
      var i :| 0 <= i < |acc| && acc[i] == e;
      var y :| y in xs && DayOf(y.date) == acc[i].day;
      assert y in ts && y.kind == Expense;
    }
  }

  lemma ChartCoversExpenseDays(ts: seq<Transaction>)
    ensures forall t :: t in ts && t.kind == Expense ==>
      DayTotal(DayOf(t.date), DaySum(ts, DayOf(t.date))) in ChartData(ts)
  {
    var xs := Filter(ts, SummaryCards.IsExpense);
    var acc := DailyTotals(ts);
    AccumulateSummarises(xs);
    ExpenseDaySums(ts);
    forall t | t in ts && t.kind == Expense
      ensures DayTotal(DayOf(t.date), DaySum(ts, DayOf(t.date))) in ChartData(ts)
    {
      assert t in xs;
      var k := IndexOfDay(acc, DayOf(t.date));
      assert acc[k] in multiset(ChartData(ts));
    }
  }

  lemma ChartDaysAscend(ts: seq<Transaction>)
    ensures forall i, j :: 0 <= i < j < |ChartData(ts)| ==>
      DayOrdinal(ChartData(ts)[i].day) < DayOrdinal(ChartData(ts)[j].day)
  {
    var acc := DailyTotals(ts);
    var r := ChartData(ts);
    AccumulateSummarises(Filter(ts, SummaryCards.IsExpense));
    ChartPointsAreDaySums(ts);
    assert Distinct(acc);
    DistinctPermutation(acc, r);
    forall i, j | 0 <= i < j < |r| ensures DayOrdinal(r[i].day) < DayOrdinal(r[j].day) {
      assert r[i] in r && r[j] in r;
      if DayOrdinal(r[i].day) == DayOrdinal(r[j].day) {
        DayOrdinalInjective(r[i].day, r[j].day);
      }
    }
  }

  /**
   * The chart: one point per day that has at least one expense record, and no other;
   * each point's total is that day's expense sum, whatever its sign; days strictly
   * ascending; the totals add up to the expense card.
   */
  lemma ChartDataSpec(ts: seq<Transaction>)
    ensures forall e :: e in ChartData(ts) ==> e.total == DaySum(ts, e.day)
    ensures forall e :: e in ChartData(ts) ==>
      exists t :: t in ts && t.kind == Expense && DayOf(t.date) == e.day
    ensures forall t :: t in ts && t.kind == Expense ==>
      DayTotal(DayOf(t.date), DaySum(ts, DayOf(t.date))) in ChartData(ts)
    ensures forall i, j :: 0 <= i < j < |ChartData(ts)| ==>
      DayOrdinal(ChartData(ts)[i].day) < DayOrdinal(ChartData(ts)[j].day)
    ensures Sum(ChartData(ts), TotalOf) == SummaryCards.TotalExpenses(ts)
  {
    ChartPointsAreDaySums(ts);
    ChartCoversExpenseDays(ts);
    ChartDaysAscend(ts);
    AccumulateSummarises(Filter(ts, SummaryCards.IsExpense));
    SumPermutation(DailyTotals(ts), ChartData(ts), TotalOf);
    SummaryCards.TotalsAreFilteredSums(ts);
  }

  /** Records that are all income give an empty chart. */
  lemma IncomeOnlyGivesEmptyChart(ts: seq<Transaction>)
    requires forall t :: t in ts ==> t.kind == Income
    ensures ChartData(ts) == []
  {
    FilterNone(ts, SummaryCards.IsExpense);
  }
}

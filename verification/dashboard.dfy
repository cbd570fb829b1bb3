/**
 * The month selector of the dashboard (src/components/dashboard/dashboard-page.tsx):
 * the initial selection, the list of selectable months and the month filter that feeds
 * the cards and the charts.
 */
module Dashboard {
  import opened Wrappers
  import opened Strings
  import opened Dates
  import opened Seqs
  import opened Types

  /** `${getYear(date)}-${getMonth(date)}`, the month zero-based and neither part padded. */
  function MonthKey(year: nat, month: MonthIndex): string
  {
    NatToString(year) + "-" + NatToString(month)
  }

  /** The key of the month a record's date falls in. */
  function KeyOf(s: Stamp): string { MonthKey(s.year, s.month) }

  /** The `useState` initialiser: the key of the month of `now`. */
  function InitialSelection(now: Stamp): string { KeyOf(now) }

  /** A digit string holds no '-'. */
  lemma NoSeparatorInNumber(n: nat)
    ensures '-' !in NatToString(n)
  {
    var s := NatToString(n);
    forall i | 0 <= i < |s| ensures s[i] != '-' {
      assert IsDigit(s[i]);
    }
  }

  /** A month key splits back, at its '-', into the year and month it was built from. */
  lemma SplitMonthKey(year: nat, month: MonthIndex)
    ensures Split(MonthKey(year, month), '-') == [NatToString(year), NatToString(month)]
  {
    NoSeparatorInNumber(year);
    NoSeparatorInNumber(month);
    SplitAfterSeparator(NatToString(year), NatToString(month), '-');
  }

  /** Different months have different keys. */
  lemma MonthKeyInjective(y1: nat, m1: MonthIndex, y2: nat, m2: MonthIndex)
    requires MonthKey(y1, m1) == MonthKey(y2, m2)
    ensures y1 == y2 && m1 == m2
  {
    SplitMonthKey(y1, m1);
    SplitMonthKey(y2, m2);
    NatToStringInjective(y1, y2);
    NatToStringInjective(m1, m2);
  }

  // ---------------------------------------------------------------- available months

  /** One entry of the month selector. */
  datatype MonthOption = MonthOption(value: string, text: string)

  /** The entry for a month: its key, and "julio 2024" shown as "Julio 2024". */
  function OptionFor(year: nat, month: MonthIndex): MonthOption
  {
    MonthOption(MonthKey(year, month), Capitalize(MonthYearText(year, month)))
  }

  /** `(a, b) => b.value.localeCompare(a.value)`: `a` may come first when its key is not smaller. */
  predicate KeyNotSmaller(a: MonthOption, b: MonthOption) { LexLe(b.value, a.value) }

  lemma KeyNotSmallerIsPreorder()
    ensures TotalPreorder(KeyNotSmaller)
  {
    forall a: MonthOption, b: MonthOption ensures KeyNotSmaller(a, b) || KeyNotSmaller(b, a) {
      LexLeTotal(a.value, b.value);
    }
    forall a: MonthOption, b: MonthOption, c: MonthOption | KeyNotSmaller(a, b) && KeyNotSmaller(b, c)
      ensures KeyNotSmaller(a, c)
    {
      LexLeTransitive(c.value, b.value, a.value);
    }
  }

  /** `months` maps every key in `order` (and no other) to the label of a month with that key. */
  ghost predicate MonthTable(months: map<string, string>, order: seq<string>)
  {
    && (forall k :: k in months <==> k in order)
    && Distinct(order)
    && (forall k :: k in months ==>
          exists y: nat, m: MonthIndex :: k == MonthKey(y, m) && months[k] == MonthYearText(y, m))
  }

  /** Adding a month that is not in the table yet keeps it a table. */
  lemma TableInsert(months: map<string, string>, order: seq<string>, year: nat, month: MonthIndex)
    requires MonthTable(months, order) && MonthKey(year, month) !in months
    ensures MonthTable(months[MonthKey(year, month) := MonthYearText(year, month)], order + [MonthKey(year, month)])
  {
    var k := MonthKey(year, month);
    var months', order' := months[k := MonthYearText(year, month)], order + [k];
    forall k' | k' in months' ensures exists y: nat, m: MonthIndex :: k' == MonthKey(y, m) && months'[k'] == MonthYearText(y, m) {
      if k' == k {
        assert k' == MonthKey(year, month) && months'[k'] == MonthYearText(year, month);
      } else {
        var y: nat, m: MonthIndex :| k' == MonthKey(y, m) && months[k'] == MonthYearText(y, m);
      }
    }
  }

  lemma KeysKept(months: map<string, string>, key: string, text: string)
    ensures forall k :: k in months[key := text] <==> k in months || k == key
  {
  }

  /** The table after the `forEach` and the current-month insertion. */
  ghost predicate Collected(months: map<string, string>, order: seq<string>, ts: seq<Transaction>, now: Stamp)
  {
    && MonthTable(months, order)
    && (forall t :: t in ts ==> KeyOf(t.date) in months)
    && KeyOf(now) in months
    && (forall k :: k in months ==> k == KeyOf(now) || exists t :: t in ts && k == KeyOf(t.date))
  }

  /** A month's key in the table carries that month's label. */
  lemma TableLabel(months: map<string, string>, order: seq<string>, year: nat, month: MonthIndex)
    requires MonthTable(months, order) && MonthKey(year, month) in months
    ensures months[MonthKey(year, month)] == MonthYearText(year, month)
  {
    var k := MonthKey(year, month);
    var y: nat, m: MonthIndex :| k == MonthKey(y, m) && months[k] == MonthYearText(y, m);
    MonthKeyInjective(y, m, year, month);
  }

  /** `Array.from(months.entries()).map(...)`: the capitalised entries in insertion order. */
  function Entries(months: map<string, string>, order: seq<string>): (r: seq<MonthOption>)
    requires forall k :: k in order ==> k in months
    ensures |r| == |order|
    ensures forall i :: 0 <= i < |order| ==> r[i] == MonthOption(order[i], Capitalize(months[order[i]]))
  {
    seq(|order|, i requires 0 <= i < |order| => MonthOption(order[i], Capitalize(months[order[i]])))
  }

  /** Every entry is the option of the month its key names, and its key is in the table. */
  lemma EntriesAreOptions(months: map<string, string>, order: seq<string>)
    requires MonthTable(months, order)
    ensures forall o :: o in Entries(months, order) ==>
      o.value in months && exists y: nat, m: MonthIndex :: o == OptionFor(y, m)
  {
    var entries := Entries(months, order);
    forall o | o in entries
      ensures o.value in months && exists y: nat, m: MonthIndex :: o == OptionFor(y, m)
    {
      var i :| 0 <= i < |entries| && entries[i] == o;
      var y: nat, m: MonthIndex :| order[i] == MonthKey(y, m) && months[order[i]] == MonthYearText(y, m);
      assert o == OptionFor(y, m);
    }
  }

  lemma EntriesDistinct(months: map<string, string>, order: seq<string>)
    requires forall k :: k in order ==> k in months
    requires Distinct(order)
    ensures Distinct(Entries(months, order))
  {
    var entries := Entries(months, order);
    forall p, q | 0 <= p < q < |entries| ensures entries[p] != entries[q] {
      assert entries[p].value == order[p];
    }
  }

  /** Two options of months with the same key are the same option. */
  lemma OptionsWithSameKey(a: MonthOption, b: MonthOption)
    requires exists y: nat, m: MonthIndex :: a == OptionFor(y, m)
    requires exists y: nat, m: MonthIndex :: b == OptionFor(y, m)
    ensures a.value == b.value ==> a == b
  {
    var y1: nat, m1: MonthIndex :| a == OptionFor(y1, m1);
    var y2: nat, m2: MonthIndex :| b == OptionFor(y2, m2);
    if a.value == b.value {
      MonthKeyInjective(y1, m1, y2, m2);
    }
  }

  /** Any arrangement of the entries has the option of every record's month and of the current month. */
  lemma OptionsCoverMonths(months: map<string, string>, order: seq<string>, ts: seq<Transaction>, now: Stamp,
                           r: seq<MonthOption>)
    requires Collected(months, order, ts, now)
    requires multiset(r) == multiset(Entries(months, order))
    ensures forall t :: t in ts ==> OptionFor(t.date.year, t.date.month) in r
    ensures OptionFor(now.year, now.month) in r
  {
    var entries := Entries(months, order);
    forall t | t in ts ensures OptionFor(t.date.year, t.date.month) in r {
      var i :| 0 <= i < |order| && order[i] == KeyOf(t.date);
      TableLabel(months, order, t.date.year, t.date.month);
      assert entries[i] in multiset(r);
    }
    var i :| 0 <= i < |order| && order[i] == KeyOf(now);
    TableLabel(months, order, now.year, now.month);
    assert entries[i] in multiset(r);
  }

  /** Any arrangement of the entries holds only options of record months and the current month. */
  lemma OptionsOnlyCollectedMonths(months: map<string, string>, order: seq<string>, ts: seq<Transaction>,
                                   now: Stamp, r: seq<MonthOption>)
    requires Collected(months, order, ts, now)
    requires multiset(r) == multiset(Entries(months, order))
    ensures forall o :: o in r ==>
      o == OptionFor(now.year, now.month) || exists t :: t in ts && o == OptionFor(t.date.year, t.date.month)
  {
    forall o | o in r
      ensures o == OptionFor(now.year, now.month) || exists t :: t in ts && o == OptionFor(t.date.year, t.date.month)
    {
      assert o in multiset(Entries(months, order));
      EntryIsCollectedMonth(months, order, ts, now, o);
    }
  }

  /** An entry of the table is the option of the current month or of some record's month. */
  lemma EntryIsCollectedMonth(months: map<string, string>, order: seq<string>, ts: seq<Transaction>,
                              now: Stamp, o: MonthOption)
    requires Collected(months, order, ts, now)
    requires o in Entries(months, order)
    ensures o == OptionFor(now.year, now.month) || exists t :: t in ts && o == OptionFor(t.date.year, t.date.month)
  {
    EntriesAreOptions(months, order);
    var y: nat, m: MonthIndex :| o == OptionFor(y, m);
    if o.value != KeyOf(now) {
      var t :| t in ts && o.value == KeyOf(t.date);
      MonthKeyInjective(y, m, t.date.year, t.date.month);
    } else {
      MonthKeyInjective(y, m, now.year, now.month);
    }
  }

  /** Any arrangement of the entries has each key once. */
  lemma OptionKeysDistinct(months: map<string, string>, order: seq<string>, r: seq<MonthOption>)
    requires MonthTable(months, order)
    requires multiset(r) == multiset(Entries(months, order))
    ensures forall i, j :: 0 <= i < j < |r| ==> r[i].value != r[j].value
  {
    var entries := Entries(months, order);
    EntriesAreOptions(months, order);
    EntriesDistinct(months, order);
    DistinctPermutation(entries, r);
    forall i, j | 0 <= i < j < |r| ensures r[i].value != r[j].value {
      assert r[i] in multiset(entries) && r[j] in multiset(entries);
      OptionsWithSameKey(r[i], r[j]);
    }
  }

  /**
   * The first half of `availableMonths`: the `forEach` that fills the `Map` with the
   * label of every month key not seen before, then the insertion of the current month.
   * `order` is the `Map`'s insertion order.
   */
  method CollectMonths(ts: seq<Transaction>, now: Stamp) returns (months: map<string, string>, order: seq<string>)
    ensures Collected(months, order, ts, now)
  {
    months, order := map[], [];
    for i := 0 to |ts|
      invariant MonthTable(months, order)
      invariant forall t :: t in ts[..i] ==> KeyOf(t.date) in months
      invariant forall k :: k in months ==> exists t :: t in ts[..i] && k == KeyOf(t.date)
    {
      var d := ts[i].date;
      var key := KeyOf(d);
      assert ts[..i + 1] == ts[..i] + [ts[i]];
      if !(key in months) {
        TableInsert(months, order, d.year, d.month);
        KeysKept(months, key, MonthYearText(d.year, d.month));
        months := months[key := MonthYearText(d.year, d.month)];
        order := order + [key];
      }
    }
    assert ts[..|ts|] == ts;
    var current := KeyOf(now);
    if !(current in months) {
      TableInsert(months, order, now.year, now.month);
      KeysKept(months, current, MonthYearText(now.year, now.month));
      months := months[current := MonthYearText(now.year, now.month)];
      order := order + [current];
    }
  }

  /**
   * `availableMonths`: the months collected from the records and the clock, as
   * capitalised options sorted by key, largest first in string order.
   */
  method AvailableMonths(ts: seq<Transaction>, now: Stamp) returns (r: seq<MonthOption>)
    ensures forall t :: t in ts ==> OptionFor(t.date.year, t.date.month) in r
    ensures OptionFor(now.year, now.month) in r
    ensures forall o :: o in r ==>
      o == OptionFor(now.year, now.month) || exists t :: t in ts && o == OptionFor(t.date.year, t.date.month)
    ensures forall i, j :: 0 <= i < j < |r| ==> r[i].value != r[j].value
    ensures forall i, j :: 0 <= i < j < |r| ==> LexLe(r[j].value, r[i].value)
  {
    var months, order := CollectMonths(ts, now);
    KeyNotSmallerIsPreorder();
    r := SortBy(Entries(months, order), KeyNotSmaller);
    OptionsCoverMonths(months, order, ts, now, r);
    OptionsOnlyCollectedMonths(months, order, ts, now, r);
    OptionKeysDistinct(months, order, r);
  }

  /**
   * Keys are compared as text, not as numbers: in a list ordered like the selector,
   * March ("2024-2") comes before November ("2024-10") of the same year.
   */
  lemma TextualOrderPutsMarchBeforeNovember(r: seq<MonthOption>, i: nat, j: nat)
    requires forall p, q :: 0 <= p < q < |r| ==> r[p].value != r[q].value
    requires forall p, q :: 0 <= p < q < |r| ==> LexLe(r[q].value, r[p].value)
    requires i < |r| && r[i].value == MonthKey(2024, 2)
    requires j < |r| && r[j].value == MonthKey(2024, 10)
    ensures i < j
  {
    assert NatToString(2024) == "2024" by {
      assert NatToString(2) == "2" && NatToString(0) == "0" && NatToString(4) == "4";
      assert NatToString(20) == "20" && NatToString(202) == "202";
    }
    assert NatToString(10) == "10" by { assert NatToString(1) == "1" && NatToString(0) == "0"; }
    assert NatToString(2) == "2";
    assert MonthKey(2024, 2) == "2024-2";
    assert MonthKey(2024, 10) == "2024-10";
    assert !LexLe("2024-2"[5..], "2024-10"[5..]);
  }

  // ---------------------------------------------------------------- month filter

  /** The records whose local year and zero-based month are `year` and `month`. */
  function InMonth(year: nat, month: MonthIndex): Transaction -> bool
  {
    (t: Transaction) => t.date.year == year && t.date.month == month
  }

  /**
   * `filteredTransactions`: `all` passes the list through; any other selection is split
   * at '-', both pieces go through `Number`, and a record is kept when its year and
   * month equal them (a piece that is not a number, or a missing month, keeps nothing).
   */
  function FilterByMonth(ts: seq<Transaction>, selection: string): seq<Transaction>
  {
    if selection == "all" then ts
    else
      var parts := Split(selection, '-');
      var year := ParseNumber(parts[0]);
      var month: Option<nat> := if |parts| > 1 then ParseNumber(parts[1]) else None;
      Filter(ts, (t: Transaction) =>
        year == Some(t.date.year) && month == Some(t.date.month as nat))
  }

  /** `all` shows every record, in the list's order. */
  lemma AllShowsEverything(ts: seq<Transaction>)
    ensures FilterByMonth(ts, "all") == ts
  {
  }

  /** Selecting a month key keeps exactly that month's records, in their original order. */
  lemma SelectingMonthKeepsThatMonth(ts: seq<Transaction>, year: nat, month: MonthIndex)
    ensures FilterByMonth(ts, MonthKey(year, month)) == Filter(ts, InMonth(year, month))
    ensures forall t :: t in FilterByMonth(ts, MonthKey(year, month)) <==>
      t in ts && t.date.year == year && t.date.month == month
  {
    var key := MonthKey(year, month);
    assert key != "all" by { NoSeparatorInNumber(year); assert key[|NatToString(year)|] == '-'; }
    SplitMonthKey(year, month);
    ParseNatToString(year);
    ParseNatToString(month);
    var p := (t: Transaction) =>
      Some(year) == Some(t.date.year) && Some(month as nat) == Some(t.date.month as nat);
    FilterPointwise(ts, p, InMonth(year, month));
  }

  /** On first render the dashboard shows the records of the current month. */
  lemma InitialSelectionShowsCurrentMonth(ts: seq<Transaction>, now: Stamp)
    ensures FilterByMonth(ts, InitialSelection(now)) == Filter(ts, InMonth(now.year, now.month))
  {
    SelectingMonthKeepsThatMonth(ts, now.year, now.month);
  }

  /** A selection without a '-' keeps nothing, whatever its digits. */
  lemma SelectionWithoutMonthKeepsNothing(ts: seq<Transaction>, selection: string)
    requires selection != "all" && '-' !in selection
    ensures FilterByMonth(ts, selection) == []
  {
    SplitNoSeparator(selection, '-');
    var year := ParseNumber(selection);
    FilterNone(ts, (t: Transaction) => year == Some(t.date.year) && None == Some(t.date.month as nat));
  }
}

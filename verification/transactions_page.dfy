/**
 * The transactions page (src/components/transactions/transactions-page.tsx): the
 * filter and sort controls, the filtered and sorted list they produce, the category
 * choices offered for the type filter, and the rows handed to the spreadsheet export.
 */
module TransactionsPage {
  import opened Strings
  import opened Dates
  import opened Seqs
  import opened Types

  /** `typeFilter: 'all' | 'income' | 'expense'`. */
  datatype TypeFilter = AllTypes | OnlyKind(kind: Kind)

  /** `categoryFilter: Category | 'all'`. */
  datatype CategoryFilter = AnyCategory | OnlyCategory(name: string)

  datatype SortKey = ByDate | ByAmount

  datatype Direction = Asc | Desc

  /** `sortConfig`. */
  datatype SortConfig = SortConfig(key: SortKey, direction: Direction)

  // ---------------------------------------------------------------- filters

  function TypeTest(f: TypeFilter): Transaction -> bool
  {
    (t: Transaction) => f.AllTypes? || t.kind == f.kind
  }

  function CategoryTest(f: CategoryFilter): Transaction -> bool
  {
    (t: Transaction) => f.AnyCategory? || t.category == f.name
  }

  /** An empty search term is falsy and filters nothing; otherwise a case-insensitive `includes`. */
  function SearchTest(term: string): Transaction -> bool
  {
    (t: Transaction) => term == "" || Contains(ToLower(t.description), ToLower(term))
  }

  /** A record is shown when it passes all three controls. */
  function Shows(f: TypeFilter, c: CategoryFilter, term: string): Transaction -> bool
  {
    (t: Transaction) => TypeTest(f)(t) && CategoryTest(c)(t) && SearchTest(term)(t)
  }

  /** The `filtered` chain: by type, then by category, then by search term. */
  function Visible(ts: seq<Transaction>, f: TypeFilter, c: CategoryFilter, term: string): seq<Transaction>
  {
    Filter(Filter(Filter(ts, TypeTest(f)), CategoryTest(c)), SearchTest(term))
  }

  /** The chain is a single filter by the conjunction of the three controls: order is kept. */
  lemma VisibleIsOneFilter(ts: seq<Transaction>, f: TypeFilter, c: CategoryFilter, term: string)
    ensures Visible(ts, f, c, term) == Filter(ts, Shows(f, c, term))
  {
    var typeAndCategory := (t: Transaction) => TypeTest(f)(t) && CategoryTest(c)(t);
    FilterFilter(ts, TypeTest(f), CategoryTest(c), typeAndCategory);
    FilterFilter(ts, typeAndCategory, SearchTest(term), Shows(f, c, term));
  }

  /** The list shows exactly the records that pass all three controls. */
  lemma VisibleMembers(ts: seq<Transaction>, f: TypeFilter, c: CategoryFilter, term: string)
    ensures forall t :: t in Visible(ts, f, c, term) <==>
      t in ts && (f.AllTypes? || t.kind == f.kind) && (c.AnyCategory? || t.category == c.name)
      && (term == "" || Contains(ToLower(t.description), ToLower(term)))
  {
    VisibleIsOneFilter(ts, f, c, term);
  }

  /** With every control at its neutral value the list shows every record. */
  lemma NeutralControlsShowEverything(ts: seq<Transaction>)
    ensures Visible(ts, AllTypes, AnyCategory, "") == ts
  {
    FilterAll(ts, TypeTest(AllTypes));
    FilterAll(ts, CategoryTest(AnyCategory));
    FilterAll(ts, SearchTest(""));
  }

  // ---------------------------------------------------------------- ordering

  /**
   * The comparator as a "may come first" relation: by `getTime()` or by amount, smaller
   * first for `asc` and larger first for `desc`.
   */
  function NotAfter(config: SortConfig): (Transaction, Transaction) -> bool
  {
    (a: Transaction, b: Transaction) =>
      match config
      case SortConfig(ByDate, Asc) => Time(a.date) <= Time(b.date)
      case SortConfig(ByDate, Desc) => Time(b.date) <= Time(a.date)
      case SortConfig(ByAmount, Asc) => a.amount <= b.amount
      case SortConfig(ByAmount, Desc) => b.amount <= a.amount
  }

  lemma NotAfterIsPreorder(config: SortConfig)
    ensures TotalPreorder(NotAfter(config))
  {
  }

  /** The updater passed to `setSortConfig` by `handleSort`. */
  function NextSort(prev: SortConfig, key: SortKey): SortConfig
  {
    SortConfig(key, if prev.key == key && prev.direction == Desc then Asc else Desc)
  }

  /** Clicking the current key while it is descending makes it ascending; any other click sorts descending by the clicked key. */
  lemma NextSortToggles(prev: SortConfig, key: SortKey)
    ensures NextSort(prev, key).key == key
    ensures NextSort(prev, key).direction == Asc <==> prev.key == key && prev.direction == Desc
    ensures NextSort(NextSort(prev, key), key).key == key
    ensures NextSort(NextSort(prev, key), key).direction != NextSort(prev, key).direction
  {
  }

  /** `availableCategories`: the list offered by the category control for the type filter. */
  function CategoriesFor(f: TypeFilter): seq<string>
  {
    match f
    case OnlyKind(Income) => IncomeCategories
    case OnlyKind(Expense) => ExpenseCategories
    case AllTypes => Categories
  }

  /** The offered categories are the categories of the filtered type, or all of them. */
  lemma CategoriesForFilter(f: TypeFilter, c: string)
    ensures c in CategoriesFor(f) <==> c in Categories && (f.OnlyKind? ==> c in CategoriesOf(f.kind))
  {
  }

  // ---------------------------------------------------------------- the page state

  /** The page's filter and sort state. */
  class TransactionsView {
    var searchTerm: string
    var typeFilter: TypeFilter
    var categoryFilter: CategoryFilter
    var sort: SortConfig

    /** The initial state: no search, all types, all categories, newest first. */
    constructor()
      ensures searchTerm == "" && typeFilter == AllTypes && categoryFilter == AnyCategory
      ensures sort == SortConfig(ByDate, Desc)
    {
      searchTerm := "";
      typeFilter := AllTypes;
      categoryFilter := AnyCategory;
      sort := SortConfig(ByDate, Desc);
    }

    /** `handleSort(key)`. */
    method HandleSort(key: SortKey)
      modifies this
      ensures sort == NextSort(old(sort), key)
      ensures searchTerm == old(searchTerm) && typeFilter == old(typeFilter)
      ensures categoryFilter == old(categoryFilter)
    {
      sort := NextSort(sort, key);
    }

    /** The type control's `onValueChange`: a new type filter and the category filter back to `all`. */
    method SelectType(f: TypeFilter)
      modifies this
      ensures typeFilter == f && categoryFilter == AnyCategory
      ensures searchTerm == old(searchTerm) && sort == old(sort)
    {
      typeFilter := f;
      categoryFilter := AnyCategory;
    }

    /** The category control's `onValueChange`. */
    method SelectCategory(c: CategoryFilter)
      modifies this
      ensures categoryFilter == c
      ensures searchTerm == old(searchTerm) && typeFilter == old(typeFilter) && sort == old(sort)
    {
      categoryFilter := c;
    }

    /** The search box's `onChange`. */
    method SetSearchTerm(term: string)
      modifies this
      ensures searchTerm == term
      ensures typeFilter == old(typeFilter) && categoryFilter == old(categoryFilter) && sort == old(sort)
    {
      searchTerm := term;
    }

    /**
     * `sortedAndFilteredTransactions`: the filter chain over the store's list, then a sort
     * of a fresh copy. The result is a reordering of exactly the visible records, in the
     * chosen order; the list passed in is a value and is left as it was.
     */
    method SortedAndFiltered(ts: seq<Transaction>) returns (r: seq<Transaction>)
      ensures multiset(r) == multiset(Visible(ts, typeFilter, categoryFilter, searchTerm))
      ensures forall t :: t in r ==> Shows(typeFilter, categoryFilter, searchTerm)(t)
      ensures SortedBy(r, NotAfter(sort))
    {
      var f, c, term := typeFilter, categoryFilter, searchTerm;
      var filtered := ts;
      if f != AllTypes {
        filtered := Filter(filtered, TypeTest(f));
      } else {
        FilterAll(filtered, TypeTest(f));
      }
      if c != AnyCategory {
        filtered := Filter(filtered, CategoryTest(c));
      } else {
        FilterAll(filtered, CategoryTest(c));
      }
      if term != "" {
        filtered := Filter(filtered, SearchTest(term));
      } else {
        FilterAll(filtered, SearchTest(term));
      }
      VisibleIsOneFilter(ts, f, c, term);
      r := SortedCopy(filtered, sort);
      forall t | t in r ensures Shows(f, c, term)(t) {
        assert t in multiset(filtered);
      }
    }
  }

  /** `[...filtered].sort(comparator)`: a fresh array holding the list, sorted in place. */
  method SortedCopy(s: seq<Transaction>, config: SortConfig) returns (r: seq<Transaction>)
    ensures multiset(r) == multiset(s)
    ensures SortedBy(r, NotAfter(config))
  {
    var copy := new Transaction[|s|](i requires 0 <= i < |s| => s[i]);
    assert copy[..] == s;
    NotAfterIsPreorder(config);
    SortArray(copy, NotAfter(config));
    r := copy[..];
  }

  // ---------------------------------------------------------------- export

  /** One spreadsheet row of `handleExport`. */
  datatype ExportRow = ExportRow(
    fecha: string,
    descripcion: string,
    monto: real,
    tipo: string,
    categoria: string,
    comentarios: string)

  function ExportRowOf(t: Transaction): ExportRow
  {
    ExportRow(
      DayText(DayOf(t.date)),
      t.description,
      t.amount,
      if t.kind == Income then "Ingreso" else "Gasto",
      t.category,
      if t.comments.Some? then t.comments.value else "")
  }

  /** `dataToExport`: the displayed records mapped to rows. */
  function ExportRows(shown: seq<Transaction>): seq<ExportRow>
  {
    Map(shown, ExportRowOf)
  }

  /**
   * One row per displayed record, in the same order; the type label is "Ingreso" exactly
   * for income; absent comments become the empty string; the amount, description and
   * category are copied unchanged.
   */
  lemma ExportRowsFaithful(shown: seq<Transaction>)
    ensures |ExportRows(shown)| == |shown|
    ensures forall i :: 0 <= i < |shown| ==>
      var row, t := ExportRows(shown)[i], shown[i];
      && (row.tipo == "Ingreso" <==> t.kind == Income)
      && (row.tipo == "Gasto" <==> t.kind == Expense)
      && (t.comments.None? ==> row.comentarios == "")
      && (t.comments.Some? ==> row.comentarios == t.comments.value)
      && row.monto == t.amount && row.descripcion == t.description && row.categoria == t.category
      && row.fecha == DayText(DayOf(t.date))
  {
  }
}

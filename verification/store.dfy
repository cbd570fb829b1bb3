/**
 * The store adapter (src/contexts/transactions-context.tsx): the list published from a
 * database snapshot, the writes the add, bulk-add, update and delete operations send,
 * and the lookup by id. The database itself is outside the model: each write is
 * recorded, in order, in `writes`, and the keys `push` hands out come from `keys`.
 */
module TransactionsContext {
  import opened Wrappers
  import opened Dates
  import opened Seqs
  import opened Types

  /** A property value of the object sent to the database. */
  datatype Value = Text(text: string) | Number(number: real) | Instant(stamp: Stamp) | Undefined

  /** A record as a plain object: property name to value. */
  type Fields = map<string, Value>

  /** The object a draft is written as; absent comments are an `undefined` property. */
  function FieldsOf(d: Draft): Fields
  {
    map[
      "type" := Text(if d.kind == Income then "income" else "expense"),
      "amount" := Number(d.amount),
      "date" := Instant(d.date),
      "category" := Text(d.category),
      "description" := Text(d.description),
      "comments" := if d.comments.Some? then Text(d.comments.value) else Undefined
    ]
  }

  /**
   * `Object.fromEntries(Object.entries(t).filter(([_, v]) => v !== undefined))`: the
   * properties whose value is `undefined` are dropped and every other one is kept as is.
   */
  function Clean(fields: Fields): (r: Fields)
    ensures forall k :: k in r <==> k in fields && fields[k] != Undefined
    ensures forall k :: k in r ==> r[k] == fields[k]
  {
    map k | k in fields && fields[k] != Undefined :: fields[k]
  }

  /** Cleaning a draft's object removes at most the comments. */
  lemma CleanDraft(d: Draft)
    ensures "comments" in Clean(FieldsOf(d)) <==> d.comments.Some?
    ensures forall k :: k in FieldsOf(d) && k != "comments" ==> k in Clean(FieldsOf(d))
  {
  }

  /** One call into the database API, with the path and payload it is given. */
  datatype Write =
    | SetAt(path: string, record: Draft)
    | MultiUpdate(updates: map<string, Fields>)
    | UpdateAt(path: string, record: Draft)
    | RemoveAt(path: string)

  /** One snapshot child: its key and its stored object. */
  type Child = (string, Draft)

  /** `{ id: key, ...data[key] }`. */
  function RecordOf(c: Child): Transaction
  {
    WithId(c.0, c.1)
  }

  /** The comparator `new Date(b.date).getTime() - new Date(a.date).getTime()`: later first. */
  predicate NewestFirst(a: Transaction, b: Transaction)
  {
    Time(b.date) <= Time(a.date)
  }

  lemma NewestFirstIsPreorder()
    ensures TotalPreorder(NewestFirst)
  {
  }

  /**
   * The bulk update `addMultipleTransactions` builds for `ds` when `push` hands out
   * `keys(start)`, `keys(start + 1)`, ...: a record whose key is empty gets no entry.
   */
  function BatchUpdates(ds: seq<Draft>, keys: nat -> string, start: nat): map<string, Fields>
  {
    if ds == [] then map[]
    else
      var n := |ds| - 1;
      var updates := BatchUpdates(ds[..n], keys, start);
      var key := keys(start + n);
      if key != "" then updates["/finanzas/" + key := Clean(FieldsOf(ds[n]))] else updates
  }

  /** The paths of the batch are those of the records that received a key, and no other. */
  lemma {:induction false} BatchPaths(ds: seq<Draft>, keys: nat -> string, start: nat)
    ensures forall path :: path in BatchUpdates(ds, keys, start) <==>
      exists k :: start <= k < start + |ds| && keys(k) != "" && path == "/finanzas/" + keys(k)
  {
    if ds != [] {
      var n := |ds| - 1;
      BatchPaths(ds[..n], keys, start);
      forall path | path in BatchUpdates(ds, keys, start)
        ensures exists k :: start <= k < start + |ds| && keys(k) != "" && path == "/finanzas/" + keys(k)
      {
        if path !in BatchUpdates(ds[..n], keys, start) {
          assert keys(start + n) != "" && path == "/finanzas/" + keys(start + n);
        } else {
          var k :| start <= k < start + n && keys(k) != "" && path == "/finanzas/" + keys(k);
        }
      }
      forall k | start <= k < start + |ds| && keys(k) != ""
        ensures "/finanzas/" + keys(k) in BatchUpdates(ds, keys, start)
      {
        if k < start + n {
          assert "/finanzas/" + keys(k) in BatchUpdates(ds[..n], keys, start);
        }
      }
    }
  }

  /** The key can be read back from the path it is written under. */
  lemma PathInjective(a: string, b: string)
    requires "/finanzas/" + a == "/finanzas/" + b
    ensures a == b
  {
    assert a == ("/finanzas/" + a)[10..];
    assert b == ("/finanzas/" + b)[10..];
  }

  /** With distinct keys, each record that received a key is sent, cleaned, under its own path. */
  lemma {:induction false} BatchEntries(ds: seq<Draft>, keys: nat -> string, start: nat)
    requires forall i, j :: start <= i < j < start + |ds| ==> keys(i) != keys(j)
    ensures forall k :: start <= k < start + |ds| && keys(k) != "" ==>
      "/finanzas/" + keys(k) in BatchUpdates(ds, keys, start)
      && BatchUpdates(ds, keys, start)["/finanzas/" + keys(k)] == Clean(FieldsOf(ds[k - start]))
  {
    if ds != [] {
      var n := |ds| - 1;
      BatchEntries(ds[..n], keys, start);
      forall k | start <= k < start + n && keys(k) != ""
        ensures "/finanzas/" + keys(start + n) != "/finanzas/" + keys(k)
      {
        if "/finanzas/" + keys(start + n) == "/finanzas/" + keys(k) {
          PathInjective(keys(start + n), keys(k));
        }
      }
    }
  }

  /** The first record with the given id: `transactions.find(t => t.id === id)`. */
  function FindById(ts: seq<Transaction>, id: string): (r: Option<Transaction>)
    ensures r.Some? ==> r.value in ts && r.value.id == id
    ensures r.None? <==> forall t :: t in ts ==> t.id != id
  {
    if ts == [] then None
    else if ts[0].id == id then Some(ts[0])
    else FindById(ts[1..], id)
  }

  /** The record found is the first one with that id: no earlier record has it. */
  lemma {:induction false} FindByIdIsFirst(ts: seq<Transaction>, id: string)
    requires FindById(ts, id).Some?
    ensures exists i ::
      && 0 <= i < |ts| && ts[i] == FindById(ts, id).value
      && forall j :: 0 <= j < i ==> ts[j].id != id
  {
    if ts[0].id != id {
      FindByIdIsFirst(ts[1..], id);
      var i :| 0 <= i < |ts[1..]| && ts[1..][i] == FindById(ts, id).value
        && forall j :: 0 <= j < i ==> ts[1..][j].id != id;
      assert ts[i + 1] == FindById(ts, id).value;
      assert forall j :: 0 <= j < i + 1 ==> ts[j].id != id by {
        forall j | 0 <= j < i + 1 ensures ts[j].id != id {
          if j > 0 { assert ts[j] == ts[1..][j - 1]; }
        }
      }
    } else {
      assert ts[0] == FindById(ts, id).value;
    }
  }

  /** The provider's state: the published list, the writes sent so far and the keys used. */
  class Store {
    var transactions: seq<Transaction>
    var writes: seq<Write>
    var pushed: nat
    const keys: nat -> string

    /** Before the first snapshot: no records, nothing written. */
    constructor(keys: nat -> string)
      ensures transactions == [] && writes == [] && pushed == 0 && this.keys == keys
    {
      transactions := [];
      writes := [];
      pushed := 0;
      this.keys := keys;
    }

    /**
     * The `onValue` listener. A null snapshot publishes nothing; otherwise every child
     * becomes one record whose id is its key, and the list is sorted newest first.
     */
    method OnSnapshot(data: Option<seq<Child>>)
      modifies this
      ensures data.None? ==> transactions == []
      ensures data.Some? ==> multiset(transactions) == multiset(Map(data.value, RecordOf))
      ensures SortedBy(transactions, NewestFirst)
      ensures writes == old(writes) && pushed == old(pushed)
    {
      if data.Some? {
        var children := data.value;
        var list := new Transaction[|children|](i requires 0 <= i < |children| => RecordOf(children[i]));
        assert list[..] == Map(children, RecordOf);
        NewestFirstIsPreorder();
        SortArray(list, NewestFirst);
        transactions := list[..];
      } else {
        transactions := [];
      }
    }

    /** `addTransaction`: the draft is `set` under one freshly pushed key; the list is untouched. */
    method AddTransaction(d: Draft)
      modifies this
      ensures writes == old(writes) + [SetAt("finanzas/" + keys(old(pushed)), d)]
      ensures pushed == old(pushed) + 1
      ensures transactions == old(transactions)
    {
      var key := keys(pushed);
      pushed := pushed + 1;
      writes := writes + [SetAt("finanzas/" + key, d)];
    }

    /**
     * `addMultipleTransactions`: one key pushed per draft, one entry per draft that got a
     * non-empty key, and a single update carrying all of them.
     */
    method AddMultipleTransactions(ds: seq<Draft>)
      modifies this
      ensures writes == old(writes) + [MultiUpdate(BatchUpdates(ds, keys, old(pushed)))]
      ensures pushed == old(pushed) + |ds|
      ensures transactions == old(transactions)
    {
      var updates: map<string, Fields> := map[];
      var start := pushed;
      for i := 0 to |ds|
        invariant pushed == start + i
        invariant updates == BatchUpdates(ds[..i], keys, start)
        invariant transactions == old(transactions) && writes == old(writes)
      {
        var key := keys(pushed);
        pushed := pushed + 1;
        if key != "" {
          updates := updates["/finanzas/" + key := Clean(FieldsOf(ds[i]))];
        }
        assert ds[..i + 1][..i] == ds[..i];
      }
      assert ds[..|ds|] == ds;
      writes := writes + [MultiUpdate(updates)];
    }

    /** `updateTransaction`: every field except the id, sent to `finanzas/<id>`. */
    method UpdateTransaction(t: Transaction)
      modifies this
      ensures writes == old(writes) + [UpdateAt("finanzas/" + t.id, DraftOf(t))]
      ensures pushed == old(pushed) && transactions == old(transactions)
    {
      writes := writes + [UpdateAt("finanzas/" + t.id, DraftOf(t))];
    }

    /** `deleteTransaction`: a removal of `finanzas/<id>` only. */
    method DeleteTransaction(id: string)
      modifies this
      ensures writes == old(writes) + [RemoveAt("finanzas/" + id)]
      ensures pushed == old(pushed) && transactions == old(transactions)
    {
      writes := writes + [RemoveAt("finanzas/" + id)];
    }

    /** `getTransactionById`. */
    function GetTransactionById(id: string): Option<Transaction>
      reads this
    {
      FindById(transactions, id)
    }
  }

  /** Each snapshot child gives one record with its key as id and its stored fields. */
  lemma SnapshotRecords(children: seq<Child>, published: seq<Transaction>)
    requires multiset(published) == multiset(Map(children, RecordOf))
    ensures |published| == |children|
    ensures forall t :: t in published <==> exists c :: c in children && t == WithId(c.0, c.1)
    ensures forall t :: t in published ==> exists c :: c in children && t.id == c.0 && DraftOf(t) == c.1
  {
    var m := Map(children, RecordOf);
    assert |published| == |multiset(published)| == |m|;
    forall t ensures t in published <==> exists c :: c in children && t == WithId(c.0, c.1) {
      if t in published {
        assert t in multiset(m);
        var i :| 0 <= i < |m| && m[i] == t;
        assert children[i] in children;
      }
      if exists c :: c in children && t == WithId(c.0, c.1) {
        var c :| c in children && t == WithId(c.0, c.1);
        var i :| 0 <= i < |children| && children[i] == c;
        assert m[i] == t;
        assert t in multiset(published);
      }
    }
  }
}

/** The objects of a shard as a table, and the table-level effect of a write and of an abort. */
module Tables {
  import opened TransactionIds
  import opened Objects
  import opened Ledger

  type Table = map<Key, ObjectState>

  datatype StoreOutcome = Stored | StoreNotFound | StoreTooLate

  /** The object a write lands on: a missing account gets a default object. */
  function Target(t: Table, k: Key): ObjectState {
    if k in t then t[k] else Fresh(k.shard)
  }

  /** A missing account is only opened by a valid balance. */
  predicate Opens(t: Table, k: Key, value: int) {
    k in t || Valid(value)
  }

  ghost function StoreRule(t: Table, k: Key, id: TransactionId, value: int): StoreOutcome {
    if !Opens(t, k, value) then StoreNotFound
    else if MayWrite(Target(t, k), id) then Stored
    else StoreTooLate
  }

  ghost function AfterStore(t: Table, k: Key, id: TransactionId, value: int): Table {
    if Opens(t, k, value) then t[k := AfterWrite(Target(t, k), id, value)] else t
  }

  function KeysAt(t: Table, node: NodeId): set<Key> {
    set k | k in t && k.shard == node
  }

  /** Aborting id removes the object at k. */
  predicate Reaped(o: ObjectState, id: TransactionId) {
    CanReap(AfterAbort(o, id), id)
  }

  /** The table without a trace of id on one node: its entries, and any unopened account it leaves behind. */
  function Erased(t: Table, id: TransactionId, node: NodeId): Table {
    map k | k in t && !(k.shard == node && Reaped(t[k], id)) ::
      if k.shard == node then AfterAbort(t[k], id) else t[k]
  }

  /** No never-committed account is left without a tentative write. */
  ghost predicate NoHusks(t: Table) {
    forall k :: k in t && t[k].committed.IsDefault() ==> t[k].tentative != map[]
  }

  ghost predicate Absent(t: Table, id: TransactionId, node: NodeId) {
    forall k :: k in t && k.shard == node ==> id !in t[k].readers && id !in t[k].tentative
  }

  // ----- abort erases

  lemma ReadIsErasable(t: Table, k: Key, id: TransactionId)
    requires k in t
    ensures Erased(t[k := AfterRead(t[k], id)], id, k.shard) == Erased(t, id, k.shard)
  {
    var o, o' := t[k], AfterRead(t[k], id);
    assert AfterAbort(o', id) == AfterAbort(o, id);
  }

  lemma StoreIsErasable(t: Table, k: Key, id: TransactionId, value: int)
    requires !id.IsDefault()
    ensures Erased(AfterStore(t, k, id, value), id, k.shard) == Erased(t, id, k.shard)
  {
    if Opens(t, k, value) {
      var o, o' := Target(t, k), AfterWrite(Target(t, k), id, value);
      assert AfterAbort(o', id) == AfterAbort(o, id);
      if k !in t {
        assert AfterAbort(o', id) == Fresh(k.shard);
      }
    }
  }

  lemma ErasedWhenAbsent(t: Table, id: TransactionId, node: NodeId)
    requires Absent(t, id, node) && NoHusks(t)
    ensures Erased(t, id, node) == t
  {
    forall k | k in t && k.shard == node ensures AfterAbort(t[k], id) == t[k] && !Reaped(t[k], id) {
      assert t[k].readers - {id} == t[k].readers;
      assert t[k].tentative - {id} == t[k].tentative;
    }
  }

  datatype Access = AccessRead(key: Key) | AccessWrite(key: Key, value: int)

  ghost function AfterAccess(t: Table, id: TransactionId, a: Access): Table {
    match a
    case AccessRead(k) => if k in t then t[k := AfterRead(t[k], id)] else t
    case AccessWrite(k, v) => AfterStore(t, k, id, v)
  }

  ghost function AfterAccesses(t: Table, id: TransactionId, accesses: seq<Access>): Table {
    if accesses == [] then t
    else AfterAccess(AfterAccesses(t, id, accesses[..|accesses| - 1]), id, accesses[|accesses| - 1])
  }

  /** Nothing a transaction does on a shard is visible once the shard erases it. */
  lemma {:induction false} AccessesAreErasable(t: Table, id: TransactionId, accesses: seq<Access>, node: NodeId)
    requires !id.IsDefault()
    requires forall a :: a in accesses ==> a.key.shard == node
    ensures Erased(AfterAccesses(t, id, accesses), id, node) == Erased(t, id, node)
  {
    if accesses != [] {
      var init, last := accesses[..|accesses| - 1], accesses[|accesses| - 1];
      assert last in accesses && forall a :: a in init ==> a in accesses;
      AccessesAreErasable(t, id, init, node);
      var t1 := AfterAccesses(t, id, init);
      match last {
        case AccessRead(k) => if k in t1 { ReadIsErasable(t1, k, id); }
        case AccessWrite(k, v) => StoreIsErasable(t1, k, id, v);
      }
    }
  }

  /** A fresh transaction that reads and writes a shard at will and then aborts leaves it as it was. */
  lemma AbortRestores(t: Table, id: TransactionId, accesses: seq<Access>, node: NodeId)
    requires !id.IsDefault() && Absent(t, id, node) && NoHusks(t)
    requires forall a :: a in accesses ==> a.key.shard == node
    ensures Erased(AfterAccesses(t, id, accesses), id, node) == t
  {
    AccessesAreErasable(t, id, accesses, node);
    ErasedWhenAbsent(t, id, node);
  }
}

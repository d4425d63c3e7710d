/**
 * The invariant of the data in every run: each balance is the version its committed writers leave one
 * upon the other, and every live transaction was answered from the versions below it.
 */
module Isolation {
  import opened TransactionIds
  import opened Objects
  import opened Ledger
  import opened Tables
  import opened Store

  /** A tentative value is the version its writer's log makes of k, on a base that cannot change any more. */
  ghost predicate WriterInv(s: State, k: Key, t: TransactionId)
    requires k in s.objects && t in s.objects[k].tentative
  {
    && t in s.txs && Wrote(s.txs[t].log, k)
    && s.objects[k].tentative[t] == Own(s, t, k)
    && (Created(s.txs[t].log, k) || Shields(s, t, k))
  }

  ghost predicate KeyInv(s: State, k: Key)
    requires k in s.objects
  {
    var o := s.objects[k];
    && Sound(o, k.shard)
    && (forall t {:trigger WriterInv(s, k, t)} :: t in o.tentative ==> WriterInv(s, k, t))
    && o.value == Version(s.ledger, k, Through(o.committed))
    && (!o.committed.IsDefault() ==>
          exists e :: e in s.ledger && e.id == o.committed && Wrote(e.log, k))
  }

  /** What t read on k cannot be undercut by an older transaction. */
  ghost predicate Shields(s: State, t: TransactionId, k: Key) {
    k in s.objects &&
    var o := s.objects[k];
    t.Le(o.committed) || (t in o.readers && forall u :: u in o.tentative ==> t.Le(u))
  }

  /** The version t's log makes of k. */
  ghost function Own(s: State, t: TransactionId, k: Key): int
    requires t in s.txs
  {
    Leaves(Version(s.ledger, k, Before(t)), s.txs[t].log, k)
  }

  /** t's write to k is tentative, or was committed and installed. */
  ghost predicate Keeps(s: State, t: TransactionId, k: Key)
    requires t in s.txs
  {
    k in s.objects &&
    var o := s.objects[k];
    t in o.tentative || (s.txs[t].status == Committed && t.Le(o.committed))
  }

  /** A change in the middle found nothing, or holds the version t is to build on. */
  ghost predicate PendingInv(s: State, t: TransactionId, put: Put)
    requires t in s.txs
  {
    var log := s.txs[t].log;
    match put
    case Create(k, _) => !Touched(log, k)
    case Update(k, balance, _) => balance == Own(s, t, k) && Known(s.ledger, t, log, k) && (Created(log, k) || Shields(s, t, k))
  }

  /** What t may rely on at k, by what its log did there. */
  ghost predicate Holds(s: State, t: TransactionId, k: Key)
    requires t in s.txs
  {
    var log := s.txs[t].log;
    && (Touched(log, k) && !Created(log, k) ==> Shields(s, t, k))
    && (Wrote(log, k) ==> Keeps(s, t, k))
  }

  ghost predicate TxInv(s: State, t: TransactionId)
    requires t in s.txs
  {
    var tx := s.txs[t];
    tx.status != Aborted ==>
      && Faithful(s.ledger, t, tx.log)
      && (forall k {:trigger Holds(s, t, k)} :: Holds(s, t, k))
      && (tx.pending.Some? ==> tx.status == Running && PendingInv(s, t, tx.pending.value))
      && (tx.status == Committed ==> Entry(t, tx.log) in s.ledger)
  }

  ghost predicate EntryInv(s: State, e: Entry) {
    && e.id in s.txs
    && s.txs[e.id].status == Committed
    && s.txs[e.id].log == e.log
    && (forall k :: Wrote(e.log, k) ==> Own(s, e.id, k) >= 0)
  }

  ghost predicate Inv(s: State) {
    && Base(s)
    && (forall k {:trigger KeyInv(s, k)} :: k in s.objects ==> KeyInv(s, k))
    && (forall t {:trigger TxInv(s, t)} :: t in s.txs ==> TxInv(s, t))
    && (forall e {:trigger EntryInv(s, e)} :: e in s.ledger ==> EntryInv(s, e))
    && Sorted(s.ledger)
  }

  // ----- consequences used in every step

  lemma HoldsAt(s: State, t: TransactionId, k: Key)
    requires Inv(s) && t in s.txs && s.txs[t].status != Aborted
    ensures Holds(s, t, k)
  {
    assert TxInv(s, t);
  }

  lemma CreatedWrote(log: Log, k: Key)
    ensures Created(log, k) ==> Wrote(log, k)
    ensures Wrote(log, k) ==> Touched(log, k)
  {
  }

  /** Whoever is live and has touched an account finds it there. */
  lemma TouchedIsThere(s: State, t: TransactionId, k: Key)
    requires Inv(s) && t in s.txs && s.txs[t].status != Aborted && Touched(s.txs[t].log, k)
    ensures k in s.objects
  {
    HoldsAt(s, t, k);
    CreatedWrote(s.txs[t].log, k);
  }

  /** A committed writer of k is installed or is a tentative writer. */
  lemma CommittedWriter(s: State, e: Entry, k: Key)
    requires Inv(s) && e in s.ledger && Wrote(e.log, k)
    ensures k in s.objects
    ensures e.id.Le(s.objects[k].committed) || e.id in s.objects[k].tentative
  {
    assert EntryInv(s, e);
    HoldsAt(s, e.id, k);
  }

  /** For a transaction above the committed version, with no committed writer in between, the balance is its own base. */
  lemma BaseBalance(s: State, k: Key, t: TransactionId)
    requires Inv(s) && k in s.objects && s.objects[k].committed.Lt(t)
    requires forall u :: u in s.objects[k].tentative && u in s.txs && s.txs[u].status == Committed ==> !u.Lt(t)
    ensures s.objects[k].value == Version(s.ledger, k, Before(t))
    ensures !s.objects[k].committed.IsDefault() ==> Opened(s.ledger, k, t)
  {
    var o := s.objects[k];
    assert KeyInv(s, k);
    forall e | e in s.ledger && Wrote(e.log, k)
      ensures Through(o.committed).Has(e.id) <==> Before(t).Has(e.id)
    {
      CommittedWriter(s, e, k);
      assert EntryInv(s, e);
    }
    VersionAgree(s.ledger, k, Through(o.committed), Before(t), 0);
    if !o.committed.IsDefault() {
      var e :| e in s.ledger && e.id == o.committed && Wrote(e.log, k);
      assert Before(t).Has(e.id);
    }
  }

  /** Nobody above t relies on a version of an account where t is a tentative writer. */
  lemma NewerStaysOff(s: State, t: TransactionId, v: TransactionId, k: Key)
    requires Inv(s) && k in s.objects && t in s.objects[k].tentative && t.Lt(v)
    ensures !Shields(s, v, k)
  {
    assert KeyInv(s, k);
  }

  lemma OthersAreNewer(s: State, t: TransactionId, k: Key)
    requires Inv(s) && k in s.objects && t !in s.objects[k].tentative && ReadRule(s.objects[k], t).Read?
    ensures forall u :: u in s.objects[k].tentative ==> t.Lt(u)
  {
    var o := s.objects[k];
    assert KeyInv(s, k);
    assert forall u :: u in Visible(o, t) <==> u in o.tentative && u.Le(t);
  }

  /** What a permitted read returns: the version the committed transactions below t left, with t's own changes on it. */
  lemma ReadValue(s: State, t: TransactionId, k: Key)
    requires Inv(s) && t in s.txs && s.txs[t].status == Running
    requires k in s.objects && ReadRule(s.objects[k], t).Read?
    ensures ReadRule(s.objects[k], t).value == Own(s, t, k) && Known(s.ledger, t, s.txs[t].log, k)
    ensures Created(s.txs[t].log, k) || forall u :: u in s.objects[k].tentative ==> t.Le(u)
  {
    var o := s.objects[k];
    assert KeyInv(s, k);
    HoldsAt(s, t, k);
    CreatedWrote(s.txs[t].log, k);
    if t in o.tentative {
      assert WriterInv(s, k, t) && t in Visible(o, t);
    } else {
      OthersAreNewer(s, t, k);
      BaseBalance(s, k, t);
      UnwrittenLeaves(o.value, s.txs[t].log, k);
    }
  }

  // ----- what an event leaves alone

  ghost predicate SameOn(s: State, s': State, u: TransactionId, k: Key) {
    && u in s.txs && u in s'.txs && Own(s', u, k) == Own(s, u, k)
    && (Wrote(s.txs[u].log, k) ==> Wrote(s'.txs[u].log, k))
    && (Created(s.txs[u].log, k) ==> Created(s'.txs[u].log, k))
  }

  lemma WriterFrame(s: State, s': State, k: Key, u: TransactionId)
    requires k in s.objects && u in s.objects[k].tentative && WriterInv(s, k, u) && SameOn(s, s', u, k)
    requires k in s'.objects && u in s'.objects[k].tentative && s'.objects[k].tentative[u] == s.objects[k].tentative[u]
    requires Shields(s, u, k) ==> Shields(s', u, k)
    ensures WriterInv(s', k, u)
  {
  }

  lemma KeyFrame(s: State, s': State, k: Key)
    requires k in s.objects && KeyInv(s, k)
    requires s'.ledger == s.ledger && k in s'.objects && s'.objects[k] == s.objects[k]
    requires forall u :: u in s.objects[k].tentative && u in s.txs ==> SameOn(s, s', u, k)
    ensures KeyInv(s', k)
  {
    forall u | u in s'.objects[k].tentative ensures WriterInv(s', k, u) {
      assert WriterInv(s, k, u);
      WriterFrame(s, s', k, u);
    }
  }

  lemma HoldsFrame(s: State, s': State, u: TransactionId, k: Key)
    requires u in s.txs && u in s'.txs && s'.txs[u] == s.txs[u] && s'.ledger == s.ledger && Holds(s, u, k)
    requires Shields(s, u, k) ==> Shields(s', u, k)
    requires Keeps(s, u, k) ==> Keeps(s', u, k)
    ensures Holds(s', u, k)
  {
  }

  lemma TxFrame(s: State, s': State, u: TransactionId)
    requires u in s.txs && TxInv(s, u)
    requires s'.ledger == s.ledger && u in s'.txs && s'.txs[u] == s.txs[u]
    requires forall k :: Shields(s, u, k) ==> Shields(s', u, k)
    requires forall k :: Keeps(s, u, k) ==> Keeps(s', u, k)
    ensures TxInv(s', u)
  {
    if s.txs[u].status != Aborted {
      forall k ensures Holds(s', u, k) {
        assert Holds(s, u, k);
        HoldsFrame(s, s', u, k);
      }
    }
  }

  lemma EntryFrame(s: State, s': State)
    requires forall e :: e in s.ledger ==> EntryInv(s, e)
    requires s'.ledger == s.ledger
    requires forall u :: u in s.txs && s.txs[u].status == Committed ==> u in s'.txs && s'.txs[u] == s.txs[u]
    ensures forall e :: e in s'.ledger ==> EntryInv(s', e)
  {
    forall e | e in s'.ledger ensures EntryInv(s', e) {
      assert EntryInv(s, e);
      assert forall k :: Own(s', e.id, k) == Own(s, e.id, k);
    }
  }

  // ----- reads

  ghost predicate AddsReader(s: State, s': State, t: TransactionId, k: Key) {
    && t in s.txs && s.txs[t].status == Running
    && k in s.objects && ReadRule(s.objects[k], t).Read?
    && s'.ledger == s.ledger && s'.objects == s.objects[k := AfterRead(s.objects[k], t)]
    && t in s'.txs && s'.txs == s.txs[t := s'.txs[t]]
    && s'.txs[t].status == Running
    && forall k2 :: SameOn(s, s', t, k2)
  }

  lemma ReaderKeys(s: State, s': State, t: TransactionId, k: Key, k2: Key)
    requires Inv(s) && AddsReader(s, s', t, k) && k2 in s'.objects
    ensures KeyInv(s', k2)
  {
    assert KeyInv(s, k2);
    forall u | u in s.txs ensures SameOn(s, s', u, k2) {
    }
    if k2 == k {
      assert ObjectBase(s, k);
      SoundKept(s.objects[k], k.shard, CallRead(t));
      ReaderShields(s, s', t, k);
      forall u | u in s'.objects[k].tentative ensures WriterInv(s', k, u) {
        assert WriterInv(s, k, u);
        WriterFrame(s, s', k, u);
      }
    } else {
      KeyFrame(s, s', k2);
    }
  }

  lemma ReaderShields(s: State, s': State, t: TransactionId, k: Key)
    requires AddsReader(s, s', t, k)
    ensures forall u, k2 :: Shields(s, u, k2) ==> Shields(s', u, k2)
    ensures forall u, k2 :: u in s.txs && u != t && Keeps(s, u, k2) ==> Keeps(s', u, k2)
  {
  }

  lemma ReaderOthers(s: State, s': State, t: TransactionId, k: Key)
    requires Inv(s) && AddsReader(s, s', t, k)
    ensures forall u :: u in s'.txs && u != t ==> TxInv(s', u)
    ensures forall e :: e in s'.ledger ==> EntryInv(s', e)
  {
    ReaderShields(s, s', t, k);
    forall u | u in s'.txs && u != t ensures TxInv(s', u) {
      assert TxInv(s, u);
      TxFrame(s, s', u);
    }
    EntryFrame(s, s');
  }

  lemma ReaderHolds(s: State, s': State, t: TransactionId, k: Key, k2: Key)
    requires AddsReader(s, s', t, k) && Holds(s, t, k2)
    requires Created(s.txs[t].log, k) || forall u :: u in s.objects[k].tentative ==> t.Le(u)
    requires Wrote(s'.txs[t].log, k2) ==> Wrote(s.txs[t].log, k2)
    requires Touched(s'.txs[t].log, k2) ==> Touched(s.txs[t].log, k2) || k2 == k
    ensures Holds(s', t, k2)
    ensures k2 == k ==> Created(s.txs[t].log, k) || Shields(s', t, k)
  {
    assert SameOn(s, s', t, k2);
  }

  lemma LookKeepsInv(s: State, ev: Event)
    requires Inv(s) && Enabled(s, ev) && ev.LookOk?
    ensures Inv(Apply(s, ev))
  {
    var s', t, k := Apply(s, ev), ev.tx, ev.key;
    BaseKept(s, ev);
    ReadValue(s, t, k);
    assert TxInv(s, t);
    var log, op := s.txs[t].log, Look(k, ReadRule(s.objects[k], t).value);
    forall k2 ensures SameOn(s, s', t, k2) { LeavesAppend(Version(s.ledger, k2, Before(t)), log, op, k2); }
    assert AddsReader(s, s', t, k);
    forall k2 ensures Holds(s', t, k2) {
      NetAppend(log, op, k2);
      assert Holds(s, t, k2);
      ReaderHolds(s, s', t, k, k2);
    }
    forall k2 | k2 in s'.objects ensures KeyInv(s', k2) { ReaderKeys(s, s', t, k, k2); }
    ReaderOthers(s, s', t, k);
    FaithfulAppend(s.ledger, t, log, op);
    assert TxInv(s', t);
  }

  lemma FetchKeepsInv(s: State, ev: Event)
    requires Inv(s) && Enabled(s, ev) && ev.FetchOk?
    ensures Inv(Apply(s, ev))
  {
    var s', t, k := Apply(s, ev), ev.tx, ev.key;
    BaseKept(s, ev);
    ReadValue(s, t, k);
    assert TxInv(s, t);
    assert AddsReader(s, s', t, k);
    forall k2 ensures Holds(s', t, k2) {
      assert Holds(s, t, k2);
      ReaderHolds(s, s', t, k, k2);
    }
    forall k2 | k2 in s'.objects ensures KeyInv(s', k2) { ReaderKeys(s, s', t, k, k2); }
    ReaderOthers(s, s', t, k);
    assert Holds(s, t, k);
    ReaderHolds(s, s', t, k, k);
    assert TxInv(s', t);
  }

  // ----- events that only touch a transaction's own record

  lemma RecordKeepsInv(s: State, ev: Event)
    requires Inv(s) && Enabled(s, ev)
    requires ev.Begin? || ev.FetchMissing? || ev.Prepare? || ev.CheckPass? || ev.GiveUp?
    ensures Inv(Apply(s, ev))
  {
    var s', t := Apply(s, ev), ev.tx;
    BaseKept(s, ev);
    assert s'.objects == s.objects && s'.ledger == s.ledger && s'.txs == s.txs[t := s'.txs[t]];
    assert t in s.txs ==> s'.txs[t].log == s.txs[t].log && s.txs[t].status != Committed && s'.txs[t].status != Committed;
    RecordFrame(s, s', t);
    assert t in s.txs ==> TxInv(s, t);
    if ev.FetchMissing? && Touched(s.txs[t].log, ev.key) { TouchedIsThere(s, t, ev.key); }
    RecordTx(s, s', t);
  }

  lemma RecordTx(s: State, s': State, t: TransactionId)
    requires Inv(s) && t in s'.txs && s'.objects == s.objects && s'.ledger == s.ledger
    requires s'.txs[t].status != Committed
    requires if t in s.txs then s'.txs[t].log == s.txs[t].log && s.txs[t].status !in {Committed, Aborted} else s'.txs[t].log == []
    requires s'.txs[t].status == Aborted || s'.txs[t].pending.None?
             || (s'.txs[t].status == Running && s'.txs[t].pending.value.Create? && !Touched(s'.txs[t].log, s'.txs[t].pending.value.key))
    ensures TxInv(s', t)
  {
    if s'.txs[t].status != Aborted {
      forall k ensures Holds(s', t, k) {
        if t in s.txs { HoldsAt(s, t, k); }
      }
      assert t in s.txs ==> TxInv(s, t);
    }
  }

  lemma RecordFrame(s: State, s': State, t: TransactionId)
    requires Inv(s) && t in s'.txs && s'.txs == s.txs[t := s'.txs[t]]
    requires s'.objects == s.objects && s'.ledger == s.ledger
    requires t in s.txs ==> s'.txs[t].log == s.txs[t].log && s.txs[t].status != Committed
    ensures forall k :: k in s'.objects ==> KeyInv(s', k)
    ensures forall u :: u in s'.txs && u != t ==> TxInv(s', u)
    ensures forall e :: e in s'.ledger ==> EntryInv(s', e)
  {
    forall k | k in s'.objects ensures KeyInv(s', k) {
      assert KeyInv(s, k);
      KeyFrame(s, s', k);
    }
    forall u | u in s'.txs && u != t ensures TxInv(s', u) {
      assert TxInv(s, u);
      TxFrame(s, s', u);
    }
    EntryFrame(s, s');
  }

  // ----- writes

  /** t's write of amount to k, logged as op, lands in the table. */
  ghost predicate AddsWrite(s: State, s': State, t: TransactionId, k: Key, amount: int, op: Op) {
    && t in s.txs && s.txs[t].status == Running && !t.IsDefault()
    && op.Change? && op.key == k
    && MayWrite(Target(s.objects, k), t)
    && s'.ledger == s.ledger
    && s'.objects == s.objects[k := AfterWrite(Target(s.objects, k), t, amount)]
    && s'.txs == s.txs[t := s.txs[t].(log := s.txs[t].log + [op], pending := None)]
  }

  /** The amount is op's diff on t's own version, or the diff alone for a create. */
  ghost predicate BuildsOn(s: State, t: TransactionId, k: Key, amount: int, op: Op)
    requires t in s.txs && op.Change?
  {
    if op.creates then amount == op.diff && !Touched(s.txs[t].log, k)
    else amount == Own(s, t, k) + op.diff && (Created(s.txs[t].log, k) || Shields(s, t, k))
  }

  lemma WriterOwn(s: State, s': State, t: TransactionId, k: Key, op: Op)
    requires t in s.txs && t in s'.txs && s'.ledger == s.ledger && s'.txs[t].log == s.txs[t].log + [op]
    requires op.Change? && op.key == k
    ensures Wrote(s'.txs[t].log, k)
    ensures Created(s'.txs[t].log, k) <==> Created(s.txs[t].log, k) || op.creates
    ensures op.creates && !Touched(s.txs[t].log, k) ==> Own(s', t, k) == op.diff
    ensures !op.creates ==> Own(s', t, k) == Own(s, t, k) + op.diff
  {
    var log := s.txs[t].log;
    NetAppend(log, op, k);
    CreatedWrote(log, k);
    if !Touched(log, k) { NetOfNothing(log, k); }
  }

  lemma WriterEntry(s: State, s': State, t: TransactionId, k: Key, amount: int, op: Op)
    requires AddsWrite(s, s', t, k, amount, op) && BuildsOn(s, t, k, amount, op)
    ensures WriterInv(s', k, t) && Holds(s', t, k)
  {
    WriterOwn(s, s', t, k, op);
    WriteShields(s, s', t, k, amount, op, t, k);
    assert s'.objects[k].tentative[t] == amount;
  }

  lemma WriterHoldsOther(s: State, s': State, t: TransactionId, k: Key, amount: int, op: Op, k2: Key)
    requires AddsWrite(s, s', t, k, amount, op) && Holds(s, t, k2) && k2 != k
    ensures Holds(s', t, k2)
  {
    NetAppend(s.txs[t].log, op, k2);
  }

  lemma WriterKey(s: State, s': State, t: TransactionId, k: Key, amount: int, op: Op)
    requires Inv(s) && AddsWrite(s, s', t, k, amount, op) && BuildsOn(s, t, k, amount, op)
    ensures KeyInv(s', k)
  {
    var o := Target(s.objects, k);
    WriterEntry(s, s', t, k, amount, op);
    assert k in s.objects ==> KeyInv(s, k);
    SoundKept(o, k.shard, CallWrite(t, amount));
    if k in s.objects {
      forall u | u in o.tentative && u != t ensures WriterInv(s', k, u) {
        assert WriterInv(s, k, u);
        WriteShields(s, s', t, k, amount, op, u, k);
        WriterFrame(s, s', k, u);
      }
    } else {
      forall e | e in s.ledger && Wrote(e.log, k) ensures false { CommittedWriter(s, e, k); }
      VersionNone(s.ledger, k, Through(o.committed), 0);
    }
  }

  lemma WriteSameOn(s: State, s': State, t: TransactionId, k: Key, amount: int, op: Op, u: TransactionId, k2: Key)
    requires AddsWrite(s, s', t, k, amount, op) && u in s.txs && k2 != k
    ensures SameOn(s, s', u, k2)
  {
    if u == t {
      LeavesAppend(Version(s.ledger, k2, Before(t)), s.txs[t].log, op, k2);
    } else {
      assert s'.txs[u] == s.txs[u];
    }
  }

  lemma WriteOtherKey(s: State, s': State, t: TransactionId, k: Key, amount: int, op: Op, k2: Key)
    requires Inv(s) && AddsWrite(s, s', t, k, amount, op) && k2 in s'.objects && k2 != k
    ensures KeyInv(s', k2)
  {
    assert KeyInv(s, k2);
    forall u | u in s.txs ensures SameOn(s, s', u, k2) { WriteSameOn(s, s', t, k, amount, op, u, k2); }
    KeyFrame(s, s', k2);
  }

  lemma WriteShields(s: State, s': State, t: TransactionId, k: Key, amount: int, op: Op, u: TransactionId, k2: Key)
    requires AddsWrite(s, s', t, k, amount, op)
    ensures Shields(s, u, k2) ==> Shields(s', u, k2)
    ensures u in s.txs && u != t && Keeps(s, u, k2) ==> Keeps(s', u, k2)
  {
  }

  lemma WriteOthers(s: State, s': State, t: TransactionId, k: Key, amount: int, op: Op)
    requires Inv(s) && AddsWrite(s, s', t, k, amount, op)
    ensures forall u :: u in s'.txs && u != t ==> TxInv(s', u)
    ensures forall e :: e in s'.ledger ==> EntryInv(s', e)
  {
    forall u | u in s'.txs && u != t ensures TxInv(s', u) {
      assert TxInv(s, u);
      forall k2 ensures (Shields(s, u, k2) ==> Shields(s', u, k2)) && (Keeps(s, u, k2) ==> Keeps(s', u, k2)) {
        WriteShields(s, s', t, k, amount, op, u, k2);
      }
      TxFrame(s, s', u);
    }
    EntryFrame(s, s');
  }

  lemma PutKeepsInv(s: State, ev: Event)
    requires Inv(s) && Enabled(s, ev) && ev.PutOk?
    ensures Inv(Apply(s, ev))
  {
    var s', t, put := Apply(s, ev), ev.tx, s.txs[ev.tx].pending.value;
    var k, amount, op := put.key, put.Amount(), Change(put.key, put.diff, put.Create?);
    BaseKept(s, ev);
    assert TxInv(s, t) && PendingInv(s, t, put);
    assert AddsWrite(s, s', t, k, amount, op);
    WriterKey(s, s', t, k, amount, op);
    forall k2 | k2 in s'.objects && k2 != k ensures KeyInv(s', k2) {
      WriteOtherKey(s, s', t, k, amount, op, k2);
    }
    WriteOthers(s, s', t, k, amount, op);
    forall k2 ensures Holds(s', t, k2) {
      assert Holds(s, t, k2);
      if k2 == k { WriterEntry(s, s', t, k, amount, op); } else { WriterHoldsOther(s, s', t, k, amount, op, k2); }
    }
    FaithfulAppend(s.ledger, t, s.txs[t].log, op);
    assert TxInv(s', t);
  }

  // ----- the commit decision

  ghost predicate TurnsCommitted(s: State, s': State, t: TransactionId) {
    && t in s.txs && s.txs[t].status == Preparing
    && s'.objects == s.objects
    && s'.txs == s.txs[t := s.txs[t].(status := Committed)]
    && s'.ledger == Insert(s.ledger, Entry(t, s.txs[t].log))
  }

  /** Accounts t wrote are the ones where it is a tentative writer. */
  lemma DeciderWrites(s: State, t: TransactionId, k: Key)
    requires Inv(s) && t in s.txs && s.txs[t].status == Preparing && Wrote(s.txs[t].log, k)
    ensures k in s.objects && t in s.objects[k].tentative && s.objects[k].tentative[t] == Own(s, t, k)
    ensures s.objects[k].committed.Lt(t)
  {
    HoldsAt(s, t, k);
    assert KeyInv(s, k) && WriterInv(s, k, t);
  }

  /** No version a newer transaction relies on changes. */
  lemma DecideLeavesVersions(s: State, s': State, t: TransactionId, u: TransactionId, k: Key)
    requires Inv(s) && TurnsCommitted(s, s', t) && (Shields(s, u, k) || u == t)
    ensures Version(s'.ledger, k, Before(u)) == Version(s.ledger, k, Before(u))
    ensures t.Lt(u) ==> !Wrote(s.txs[t].log, k)
  {
    if t.Lt(u) && Wrote(s.txs[t].log, k) {
      DeciderWrites(s, t, k);
      NewerStaysOff(s, t, u, k);
    }
    VersionInsert(s.ledger, Entry(t, s.txs[t].log), k, Before(u), 0);
  }

  /** Nor does anybody's own version. */
  lemma DecideOwn(s: State, s': State, t: TransactionId, u: TransactionId, k: Key)
    requires Inv(s) && TurnsCommitted(s, s', t) && u in s.txs && (Created(s.txs[u].log, k) || Shields(s, u, k) || u == t)
    ensures Own(s', u, k) == Own(s, u, k)
  {
    if !Created(s.txs[u].log, k) { DecideLeavesVersions(s, s', t, u, k); }
  }

  lemma DecideKey(s: State, s': State, t: TransactionId, k: Key)
    requires Inv(s) && TurnsCommitted(s, s', t) && k in s'.objects
    ensures KeyInv(s', k)
  {
    var o, mine := s.objects[k], Entry(t, s.txs[t].log);
    assert KeyInv(s, k);
    if Wrote(mine.log, k) { DeciderWrites(s, t, k); }
    VersionInsert(s.ledger, mine, k, Through(o.committed), 0);
    forall u | u in o.tentative ensures WriterInv(s', k, u) {
      assert WriterInv(s, k, u);
      DecideOwn(s, s', t, u, k);
      WriterFrame(s, s', k, u);
    }
    if !o.committed.IsDefault() {
      var e :| e in s.ledger && e.id == o.committed && Wrote(e.log, k);
      InsertMembers(s.ledger, mine, e);
    }
  }

  lemma DecideHolds(s: State, s': State, t: TransactionId, u: TransactionId, k: Key)
    requires Inv(s) && TurnsCommitted(s, s', t) && u in s.txs && s.txs[u].status != Aborted
    ensures Holds(s', u, k)
  {
    HoldsAt(s, u, k);
  }

  lemma DecideTx(s: State, s': State, t: TransactionId, u: TransactionId)
    requires Inv(s) && TurnsCommitted(s, s', t) && s.txs[t].pending.None? && u in s'.txs
    ensures TxInv(s', u)
  {
    var e := Entry(t, s.txs[t].log);
    assert TxInv(s, u);
    if s'.txs[u].status != Aborted {
      var log := s.txs[u].log;
      forall k ensures Holds(s', u, k) { DecideHolds(s, s', t, u, k); }
      forall k | t.Lt(u) && Touched(log, k) && !Created(log, k) ensures !Wrote(e.log, k) {
        HoldsAt(s, u, k);
        DecideLeavesVersions(s, s', t, u, k);
      }
      FaithfulInsert(s.ledger, e, u, log);
      InsertMembers(s.ledger, e, Entry(u, log));
      if u != t && s.txs[u].pending.Some? && s.txs[u].pending.value.Update? {
        var k := s.txs[u].pending.value.key;
        assert PendingInv(s, u, s.txs[u].pending.value);
        DecideOwn(s, s', t, u, k);
        OpenedInsert(s.ledger, e, k, u);
        assert PendingInv(s', u, s'.txs[u].pending.value);
      }
    }
  }

  lemma DecideEntry(s: State, s': State, t: TransactionId, e: Entry)
    requires Inv(s) && TurnsCommitted(s, s', t) && e in s'.ledger
    requires forall k :: k in s.objects && t in s.objects[k].tentative ==> k in s.txs[t].checked
    ensures EntryInv(s', e)
  {
    var mine := Entry(t, s.txs[t].log);
    InsertMembers(s.ledger, mine, e);
    if e != mine { assert EntryInv(s, e); }
    forall k | Wrote(e.log, k) ensures Own(s', e.id, k) >= 0 {
      if e == mine {
        DeciderWrites(s, t, k);
        assert CheckedBase(s, t, k);
      } else {
        HoldsAt(s, e.id, k);
        CreatedWrote(e.log, k);
      }
      DecideOwn(s, s', t, e.id, k);
    }
  }

  lemma DecideKeepsInv(s: State, ev: Event)
    requires Inv(s) && Enabled(s, ev) && ev.Decide?
    ensures Inv(Apply(s, ev))
  {
    var s', t := Apply(s, ev), ev.tx;
    BaseKept(s, ev);
    assert TxInv(s, t);
    forall k | k in s'.objects ensures KeyInv(s', k) { DecideKey(s, s', t, k); }
    forall u | u in s'.txs ensures TxInv(s', u) { DecideTx(s, s', t, u); }
    forall e | e in s'.ledger ensures EntryInv(s', e) { DecideEntry(s, s', t, e); }
    forall x | x in s.ledger ensures x.id != t { assert EntryInv(s, x); }
    InsertSorted(s.ledger, Entry(t, s.txs[t].log));
  }

  // ----- installing a committed write

  ghost predicate PutsInPlace(s: State, s': State, t: TransactionId, k: Key) {
    && t in s.txs && s.txs[t].status == Committed && k in s.objects
    && s' == s.(objects := s.objects[k := AfterCommit(s.objects[k], t)])
  }

  lemma InstallKey(s: State, s': State, t: TransactionId, k: Key)
    requires Inv(s) && PutsInPlace(s, s', t, k)
    ensures KeyInv(s', k)
  {
    var o := s.objects[k];
    assert KeyInv(s, k) && ObjectBase(s, k) && TxInv(s, t);
    if CheckRule(o, t).CommitValue? {
      assert WriterInv(s, k, t);
      VersionStep(s.ledger, Entry(t, s.txs[t].log), k, 0);
      SoundKept(o, k.shard, CallCommit(t));
      forall u | u in s'.objects[k].tentative ensures WriterInv(s', k, u) {
        assert WriterInv(s, k, u);
        InstallShields(s, s', t, k, u, k);
        WriterFrame(s, s', k, u);
      }
    } else {
      KeyFrame(s, s', k);
    }
  }

  lemma InstallShields(s: State, s': State, t: TransactionId, k: Key, u: TransactionId, k2: Key)
    requires PutsInPlace(s, s', t, k) && Sound(s.objects[k], k.shard) && u in s.txs
    ensures Shields(s, u, k2) ==> Shields(s', u, k2)
    ensures Keeps(s, u, k2) ==> Keeps(s', u, k2)
  {
  }

  lemma InstallKeepsInv(s: State, ev: Event)
    requires Inv(s) && Enabled(s, ev) && ev.Install?
    ensures Inv(Apply(s, ev))
  {
    var s', t, k := Apply(s, ev), ev.tx, ev.key;
    BaseKept(s, ev);
    InstallKey(s, s', t, k);
    forall k2 | k2 in s'.objects && k2 != k ensures KeyInv(s', k2) {
      assert KeyInv(s, k2);
      KeyFrame(s, s', k2);
    }
    assert KeyInv(s, k);
    forall u | u in s'.txs ensures TxInv(s', u) {
      assert TxInv(s, u);
      forall k2 ensures (Shields(s, u, k2) ==> Shields(s', u, k2)) && (Keeps(s, u, k2) ==> Keeps(s', u, k2)) {
        InstallShields(s, s', t, k, u, k2);
      }
      TxFrame(s, s', u);
    }
    EntryFrame(s, s');
  }

  // ----- erasing an aborted transaction

  lemma EraseShields(s: State, s': State, t: TransactionId, node: NodeId, u: TransactionId, k: Key)
    requires u in s.txs && u != t && !u.IsDefault()
    requires k in s.objects ==> Sound(s.objects[k], k.shard)
    requires s' == s.(objects := Erased(s.objects, t, node))
    ensures Shields(s, u, k) ==> Shields(s', u, k)
    ensures Keeps(s, u, k) ==> Keeps(s', u, k)
  {
    if k in s.objects {
      assert u in s.objects[k].tentative ==> u in AfterAbort(s.objects[k], t).tentative;
    }
  }

  lemma EraseKey(s: State, s': State, t: TransactionId, node: NodeId, k: Key)
    requires Inv(s) && t in s.txs && s.txs[t].status == Aborted
    requires s' == s.(objects := Erased(s.objects, t, node)) && k in s'.objects
    ensures KeyInv(s', k)
  {
    assert KeyInv(s, k) && ObjectBase(s, k);
    if k.shard != node {
      KeyFrame(s, s', k);
    } else {
      SoundKept(s.objects[k], k.shard, CallAbort(t));
      forall u | u in s'.objects[k].tentative ensures WriterInv(s', k, u) {
        assert WriterInv(s, k, u);
        EraseShields(s, s', t, node, u, k);
        WriterFrame(s, s', k, u);
      }
    }
  }

  lemma EraseKeepsInv(s: State, ev: Event)
    requires Inv(s) && Enabled(s, ev) && ev.Erase?
    ensures Inv(Apply(s, ev))
  {
    var s', t := Apply(s, ev), ev.tx;
    BaseKept(s, ev);
    forall k | k in s'.objects ensures KeyInv(s', k) { EraseKey(s, s', t, ev.node, k); }
    forall u | u in s'.txs ensures TxInv(s', u) {
      assert TxInv(s, u);
      if u != t {
        forall k ensures (Shields(s, u, k) ==> Shields(s', u, k)) && (Keeps(s, u, k) ==> Keeps(s', u, k)) {
          assert k in s.objects ==> ObjectBase(s, k);
          EraseShields(s, s', t, ev.node, u, k);
        }
        TxFrame(s, s', u);
      }
    }
    EntryFrame(s, s');
  }

  /** Every event keeps the invariant, blind creates included. */
  lemma InvKept(s: State, ev: Event)
    requires Inv(s) && Enabled(s, ev)
    ensures Inv(Apply(s, ev))
  {
    match ev
    case LookOk(_, _) => LookKeepsInv(s, ev);
    case FetchOk(_, _, _) => FetchKeepsInv(s, ev);
    case PutOk(_) => PutKeepsInv(s, ev);
    case Decide(_) => DecideKeepsInv(s, ev);
    case Install(_, _) => InstallKeepsInv(s, ev);
    case Erase(_, _) => EraseKeepsInv(s, ev);
    case _ => RecordKeepsInv(s, ev);
  }
}

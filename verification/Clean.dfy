/**
 * What holds besides at an account while no event is a blind create there: it has at most one tentative
 * writer, and every create of it opened a new account with a valid balance.
 */
module CleanStates {
  import opened TransactionIds
  import opened Objects
  import opened Ledger
  import opened Tables
  import opened Store
  import opened Isolation

  /**
   * At most one tentative write, by a transaction at or above every reader that has itself read the
   * account, or that created an account nobody has committed to.
   */
  ghost predicate OneWriter(o: ObjectState) {
    && (forall t, u :: t in o.tentative && u in o.tentative ==> t == u)
    && (forall t, r :: t in o.tentative && r in o.readers ==> r.Le(t))
    && (forall t :: t in o.tentative ==> t in o.readers || o.committed.IsDefault())
    && (o.committed.IsDefault() ==> o.tentative != map[])
  }

  /** Nobody below t has committed a change of an account t created. */
  ghost predicate OpensNew(s: State, t: TransactionId, op: Op) {
    op.Change? && op.creates ==> op.diff >= 0 && !Opened(s.ledger, op.key, t)
  }

  /** t is not aborted, or its entry on k is still there. */
  ghost predicate Lives(s: State, t: TransactionId, k: Key)
    requires t in s.txs
  {
    s.txs[t].status != Aborted || (k in s.objects && t in s.objects[k].tentative)
  }

  ghost predicate CreatesInv(s: State, t: TransactionId, k: Key)
    requires t in s.txs
  {
    forall op :: op in s.txs[t].log && op.key == k && Lives(s, t, k) ==> OpensNew(s, t, op)
  }

  /** Nothing at k shows a blind create. */
  ghost predicate CleanAt(s: State, k: Key) {
    && Inv(s)
    && (k in s.objects ==> OneWriter(s.objects[k]))
    && (forall t {:trigger CreatesInv(s, t, k)} :: t in s.txs ==> CreatesInv(s, t, k))
  }

  // ----- one writer

  lemma ReadKeepsOneWriter(s: State, t: TransactionId, k: Key)
    requires Inv(s) && k in s.objects && OneWriter(s.objects[k])
    ensures OneWriter(AfterRead(s.objects[k], t))
  {
    if ReadRule(s.objects[k], t).Read? && t !in s.objects[k].tentative { OthersAreNewer(s, t, k); }
  }

  /** A write by somebody who has read or written the account leaves it with one writer. */
  lemma WriteKeepsOneWriter(o: ObjectState, owner: NodeId, t: TransactionId, amount: int)
    requires Sound(o, owner) && OneWriter(o) && MayWrite(o, t)
    requires t in o.readers || t in o.tentative
    ensures OneWriter(AfterWrite(o, t, amount))
  {
  }

  lemma CommitKeepsOneWriter(o: ObjectState, owner: NodeId, t: TransactionId)
    requires Sound(o, owner) && OneWriter(o)
    ensures OneWriter(AfterCommit(o, t))
  {
    if CheckRule(o, t).CommitValue? { assert AfterCommit(o, t).tentative == map[]; }
  }

  /** Whoever is about to update an account has an entry on it. */
  lemma UpdaterHasEntry(s: State, t: TransactionId)
    requires Inv(s) && Enabled(s, PutOk(t)) && s.txs[t].pending.value.Update?
    ensures var k := s.txs[t].pending.value.key;
            k in s.objects && (t in s.objects[k].readers || t in s.objects[k].tentative)
  {
    var put := s.txs[t].pending.value;
    assert TxInv(s, t) && PendingInv(s, t, put);
    HoldsAt(s, t, put.key);
    CreatedWrote(s.txs[t].log, put.key);
  }

  lemma PutKeepsOneWriter(s: State, t: TransactionId)
    requires Enabled(s, PutOk(t)) && CleanAt(s, s.txs[t].pending.value.key) && !BlindOn(s, PutOk(t), s.txs[t].pending.value.key)
    ensures OneWriter(Apply(s, PutOk(t)).objects[s.txs[t].pending.value.key])
  {
    var put := s.txs[t].pending.value;
    if put.Update? {
      UpdaterHasEntry(s, t);
      assert KeyInv(s, put.key);
      WriteKeepsOneWriter(s.objects[put.key], put.key.shard, t, put.Amount());
    } else {
      assert Apply(s, PutOk(t)).objects[put.key].tentative.Keys == {t};
    }
  }

  lemma OneWriterKept(s: State, ev: Event, k: Key)
    requires CleanAt(s, k) && Enabled(s, ev) && !BlindOn(s, ev, k) && k in Apply(s, ev).objects
    ensures OneWriter(Apply(s, ev).objects[k])
  {
    if k in s.objects { assert KeyInv(s, k); }
    match ev
    case LookOk(t, k2) => if k == k2 { ReadKeepsOneWriter(s, t, k); }
    case FetchOk(t, k2, _) => if k == k2 { ReadKeepsOneWriter(s, t, k); }
    case PutOk(t) => if k == s.txs[t].pending.value.key { PutKeepsOneWriter(s, t); }
    case Install(t, k2) => if k == k2 { CommitKeepsOneWriter(s.objects[k], k.shard, t); }
    case Erase(t, node) => if k.shard == node { assert Apply(s, ev).objects[k] == AfterAbort(s.objects[k], t); }
    case _ =>
  }

  // ----- creates

  /** No transaction older than t can still commit a change of an account t created. */
  lemma DecideOpensNew(s: State, u: TransactionId, t: TransactionId, op: Op)
    requires CleanAt(s, op.key) && Enabled(s, Decide(u)) && t in s.txs && op in s.txs[t].log && Lives(s, t, op.key)
    ensures OpensNew(Apply(s, Decide(u)), t, op)
  {
    var s', k := Apply(s, Decide(u)), op.key;
    assert CreatesInv(s, t, k) && OpensNew(s, t, op);
    if op.Change? && op.creates && Opened(s'.ledger, k, t) {
      var e :| e in s'.ledger && Before(t).Has(e.id) && Wrote(e.log, k);
      InsertMembers(s.ledger, Entry(u, s.txs[u].log), e);
      assert e.id == u && Wrote(s.txs[t].log, k);
      DeciderWrites(s, u, k);
      if s.txs[t].status != Aborted { HoldsAt(s, t, k); }
    }
  }

  lemma PutOpensNew(s: State, t: TransactionId)
    requires Inv(s) && Enabled(s, PutOk(t)) && !BlindOn(s, PutOk(t), s.txs[t].pending.value.key)
    ensures var put := s.txs[t].pending.value;
            OpensNew(Apply(s, PutOk(t)), t, Change(put.key, put.diff, put.Create?))
  {
    var put := s.txs[t].pending.value;
    if put.Create? && Opened(s.ledger, put.key, t) {
      var e :| e in s.ledger && Before(t).Has(e.id) && Wrote(e.log, put.key);
      CommittedWriter(s, e, put.key);
    }
  }

  lemma LivesBefore(s: State, ev: Event, t: TransactionId, k: Key)
    requires Enabled(s, ev) && t in s.txs && Lives(Apply(s, ev), t, k)
    ensures Lives(s, t, k)
  {
    if k in Apply(s, ev).objects { ObjectStep(s, ev, k); }
  }

  lemma CreatesKept(s: State, ev: Event, t: TransactionId, k: Key)
    requires CleanAt(s, k) && Enabled(s, ev) && !BlindOn(s, ev, k) && t in Apply(s, ev).txs
    ensures CreatesInv(Apply(s, ev), t, k)
  {
    var s' := Apply(s, ev);
    if t in s.txs {
      assert CreatesInv(s, t, k);
      forall op | op in s'.txs[t].log && op.key == k && Lives(s', t, k) ensures OpensNew(s', t, op) {
        LivesBefore(s, ev, t, k);
        if ev.Decide? {
          DecideOpensNew(s, ev.tx, t, op);
        } else if op in s.txs[t].log {
          assert OpensNew(s, t, op);
        } else if ev.PutOk? {
          PutOpensNew(s, t);
        }
      }
    }
  }

  /** Every event but a blind create at k keeps k clean. */
  lemma CleanKept(s: State, ev: Event, k: Key)
    requires CleanAt(s, k) && Enabled(s, ev) && !BlindOn(s, ev, k)
    ensures CleanAt(Apply(s, ev), k)
  {
    InvKept(s, ev);
    if k in Apply(s, ev).objects { OneWriterKept(s, ev, k); }
    forall t | t in Apply(s, ev).txs ensures CreatesInv(Apply(s, ev), t, k) { CreatesKept(s, ev, t, k); }
  }
}

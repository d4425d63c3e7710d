/**
 * The data of the whole cluster as a state machine: every event is one critical section of one
 * transaction on one object (or one shard, for an abort), interleaved arbitrarily.
 */
module Store {
  import opened TransactionIds
  import opened Objects
  import opened Ledger
  import opened Tables

  datatype Option<T> = None | Some(value: T)

  /** A balance change between its read and its write. */
  datatype Put =
    | Update(key: Key, balance: int, diff: int)
    | Create(key: Key, diff: int)
  {
    /** The balance about to be written. */
    function Amount(): int {
      match this
      case Update(_, balance, diff) => balance + diff
      case Create(_, diff) => diff
    }
  }

  datatype Status = Running | Preparing | Committed | Aborted

  datatype Tx = Tx(status: Status, log: Log, pending: Option<Put>, checked: set<Key>)

  datatype Submission = Submission(tx: TransactionId, key: Key, diff: int)

  /** ledger and submitted are history: who committed (in id order), and every change ever attempted. */
  datatype State = State(
    objects: Table,
    txs: map<TransactionId, Tx>,
    ledger: seq<Entry>,
    submitted: seq<Submission>)

  const EMPTY := State(map[], map[], [], [])

  datatype Event =
    | Begin(tx: TransactionId)
    | LookOk(tx: TransactionId, key: Key)
    | FetchOk(tx: TransactionId, key: Key, diff: int)
    | FetchMissing(tx: TransactionId, key: Key, diff: int)
    | PutOk(tx: TransactionId)
    | Prepare(tx: TransactionId)
    | CheckPass(tx: TransactionId, key: Key)
    | Decide(tx: TransactionId)
    | Install(tx: TransactionId, key: Key)
    | GiveUp(tx: TransactionId)
    | Erase(tx: TransactionId, node: NodeId)

  ghost predicate Enabled(s: State, ev: Event) {
    if ev.Begin? then ev.tx !in s.txs && !ev.tx.IsDefault()
    else
      ev.tx in s.txs &&
      var tx := s.txs[ev.tx];
      match ev
      case LookOk(t, k) =>
        tx.status == Running && tx.pending.None? && k in s.objects && ReadRule(s.objects[k], t).Read?
      case FetchOk(t, k, _) =>
        tx.status == Running && tx.pending.None? && k in s.objects && ReadRule(s.objects[k], t).Read?
      case FetchMissing(_, k, _) =>
        tx.status == Running && tx.pending.None? && k !in s.objects
      case PutOk(t) =>
        tx.status == Running && tx.pending.Some? &&
        StoreRule(s.objects, tx.pending.value.key, t, tx.pending.value.Amount()) == Stored
      case Prepare(_) =>
        tx.status == Running && tx.pending.None?
      case CheckPass(t, k) =>
        tx.status == Preparing && k in s.objects && CheckRule(s.objects[k], t).Passes()
      case Decide(t) =>
        tx.status == Preparing &&
        forall k :: k in s.objects && t in s.objects[k].tentative ==> k in tx.checked
      case Install(_, k) =>
        tx.status == Committed && k in s.objects
      case GiveUp(_) =>
        tx.status == Running || tx.status == Preparing
      case Erase(_, _) =>
        tx.status == Aborted
  }

  ghost function Apply(s: State, ev: Event): State
    requires Enabled(s, ev)
  {
    if ev.Begin? then s.(txs := s.txs[ev.tx := Tx(Running, [], None, {})])
    else
      var tx := s.txs[ev.tx];
      match ev
      case LookOk(t, k) =>
        s.(objects := s.objects[k := AfterRead(s.objects[k], t)],
           txs := s.txs[t := tx.(log := tx.log + [Look(k, ReadRule(s.objects[k], t).value)])])
      case FetchOk(t, k, d) =>
        s.(objects := s.objects[k := AfterRead(s.objects[k], t)],
           txs := s.txs[t := tx.(pending := Some(Update(k, ReadRule(s.objects[k], t).value, d)))],
           submitted := s.submitted + [Submission(t, k, d)])
      case FetchMissing(t, k, d) =>
        s.(txs := s.txs[t := tx.(pending := Some(Create(k, d)))],
           submitted := s.submitted + [Submission(t, k, d)])
      case PutOk(t) =>
        var put := tx.pending.value;
        s.(objects := AfterStore(s.objects, put.key, t, put.Amount()),
           txs := s.txs[t := tx.(log := tx.log + [Change(put.key, put.diff, put.Create?)], pending := None)])
      case Prepare(t) =>
        s.(txs := s.txs[t := tx.(status := Preparing)])
      case CheckPass(t, k) =>
        s.(txs := s.txs[t := tx.(checked := tx.checked + {k})])
      case Decide(t) =>
        s.(txs := s.txs[t := tx.(status := Committed)],
           ledger := Insert(s.ledger, Entry(t, tx.log)))
      case Install(t, k) =>
        s.(objects := s.objects[k := AfterCommit(s.objects[k], t)])
      case GiveUp(t) =>
        s.(txs := s.txs[t := tx.(status := Aborted)])
      case Erase(t, node) =>
        s.(objects := Erased(s.objects, t, node))
  }

  /** A change that found no account when it read is written over an account that exists by now. */
  ghost predicate BlindOn(s: State, ev: Event, k: Key) {
    && ev.PutOk? && ev.tx in s.txs && s.txs[ev.tx].pending.Some? && s.txs[ev.tx].pending.value.Create?
    && s.txs[ev.tx].pending.value.key == k && k in s.objects
  }

  // ----- what holds in every run

  ghost predicate ObjectBase(s: State, k: Key)
    requires k in s.objects
  {
    var o := s.objects[k];
    Sound(o, k.shard) && o.readers <= s.txs.Keys && o.tentative.Keys <= s.txs.Keys
  }

  /** A check that passed stays valid as far as the balance goes, and a decision rests on such checks. */
  ghost predicate CheckedBase(s: State, t: TransactionId, k: Key)
    requires t in s.txs && k in s.objects
  {
    var tx, o := s.txs[t], s.objects[k];
    t in o.tentative ==>
      && (tx.status in {Preparing, Committed} && k in tx.checked ==> Valid(o.tentative[t]))
      && (tx.status == Committed ==> k in tx.checked)
  }

  /** Between finding an account missing and creating it, a transaction has no entry on it. */
  ghost predicate CreateBase(s: State, t: TransactionId)
    requires t in s.txs
  {
    var tx := s.txs[t];
    tx.status == Running && tx.pending.Some? && tx.pending.value.Create? && tx.pending.value.key in s.objects ==>
      var o := s.objects[tx.pending.value.key];
      t !in o.readers && t !in o.tentative
  }

  ghost predicate Base(s: State) {
    && (forall k {:trigger ObjectBase(s, k)} :: k in s.objects ==> ObjectBase(s, k))
    && (forall t :: t in s.txs ==> !t.IsDefault())
    && (forall t, k {:trigger CheckedBase(s, t, k)} :: t in s.txs && k in s.objects ==> CheckedBase(s, t, k))
    && (forall t :: t in s.txs && s.txs[t].status == Running ==> s.txs[t].checked == {})
    && (forall t {:trigger CreateBase(s, t)} :: t in s.txs ==> CreateBase(s, t))
  }

  /** The object at k after an event, when the account survives it. */
  lemma ObjectStep(s: State, ev: Event, k: Key)
    requires Enabled(s, ev) && k in Apply(s, ev).objects
    ensures var o' := Apply(s, ev).objects[k];
            || (k in s.objects && o' == s.objects[k])
            || (k in s.objects && o' == AfterRead(s.objects[k], ev.tx))
            || (ev.PutOk? && o' == AfterWrite(Target(s.objects, k), ev.tx, s.txs[ev.tx].pending.value.Amount()))
            || (ev == Install(ev.tx, k) && k in s.objects && o' == AfterCommit(s.objects[k], ev.tx))
            || (ev.Erase? && k in s.objects && o' == AfterAbort(s.objects[k], ev.tx))
  {
  }

  lemma ObjectBaseKept(s: State, ev: Event, k: Key)
    requires Base(s) && Enabled(s, ev) && k in Apply(s, ev).objects
    ensures ObjectBase(Apply(s, ev), k)
  {
    var t := ev.tx;
    ObjectStep(s, ev, k);
    if k in s.objects {
      assert ObjectBase(s, k);
      SoundKept(s.objects[k], k.shard, CallRead(t));
      SoundKept(s.objects[k], k.shard, CallCommit(t));
      SoundKept(s.objects[k], k.shard, CallAbort(t));
    }
    if ev.PutOk? {
      SoundKept(Target(s.objects, k), k.shard, CallWrite(t, s.txs[t].pending.value.Amount()));
    }
  }

  lemma CheckedBaseKept(s: State, ev: Event, u: TransactionId, k: Key)
    requires Base(s) && Enabled(s, ev) && u in Apply(s, ev).txs && k in Apply(s, ev).objects
    ensures CheckedBase(Apply(s, ev), u, k)
  {
    ObjectStep(s, ev, k);
    if k in s.objects {
      assert ObjectBase(s, k);
      assert u in s.txs ==> CheckedBase(s, u, k);
    }
  }

  lemma CreateBaseKept(s: State, ev: Event, u: TransactionId)
    requires Base(s) && Enabled(s, ev) && u in Apply(s, ev).txs
    ensures CreateBase(Apply(s, ev), u)
  {
    var s' := Apply(s, ev);
    assert u in s.txs ==> CreateBase(s, u);
    if s'.txs[u].pending.Some? && s'.txs[u].pending.value.key in s'.objects {
      ObjectStep(s, ev, s'.txs[u].pending.value.key);
    }
  }

  lemma BaseKept(s: State, ev: Event)
    requires Base(s) && Enabled(s, ev)
    ensures Base(Apply(s, ev))
  {
    var s' := Apply(s, ev);
    forall k | k in s'.objects ensures ObjectBase(s', k) { ObjectBaseKept(s, ev, k); }
    forall u, k | u in s'.txs && k in s'.objects ensures CheckedBase(s', u, k) { CheckedBaseKept(s, ev, u, k); }
    forall u | u in s'.txs ensures CreateBase(s', u) { CreateBaseKept(s, ev, u); }
  }

  /** No event, in any interleaving, leaves a never-committed account without a tentative write. */
  lemma NoHusksKept(s: State, ev: Event)
    requires Base(s) && Enabled(s, ev) && NoHusks(s.objects)
    ensures NoHusks(Apply(s, ev).objects)
  {
    var s' := Apply(s, ev);
    forall k | k in s'.objects && s'.objects[k].committed.IsDefault() ensures s'.objects[k].tentative != map[] {
      ObjectStep(s, ev, k);
      if ev.PutOk? && s'.objects[k] == AfterWrite(Target(s.objects, k), ev.tx, s.txs[ev.tx].pending.value.Amount()) && k !in s.objects {
        assert ev.tx in s'.objects[k].tentative;
      }
    }
  }
}

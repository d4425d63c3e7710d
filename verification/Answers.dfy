/**
 * What clients are told, and why: in every run each read and each write step ends exactly as the versions
 * and the ledger call for, every error a client is told has its cause in the run, and so has every wait.
 */
module Answers {
  import opened TransactionIds
  import opened Objects
  import opened Ledger
  import opened Tables
  import S = Store
  import opened Protocol
  import opened Coordination
  import opened CoordinationSteps
  import opened Cluster
  import opened Progress
  import opened Deliveries
  import opened Transactions
  import I = Isolation
  import G = Guarantees

  // ----- what a read finds

  /** Somebody's committed change of k is installed. */
  ghost predicate Established(s: S.State, k: Key) {
    k in s.objects && exists e :: e in s.ledger && Wrote(e.log, k) && e.id !in s.objects[k].tentative
  }

  ghost predicate NobodyInFront(s: S.State, t: TransactionId, k: Key) {
    k in s.objects && forall u :: u in s.objects[k].tentative ==> t.Lt(u)
  }

  /** t may read k: no newer change is installed, and the newest version at or below t is t's own or installed. */
  ghost predicate Readable(s: S.State, t: TransactionId, k: Key) {
    && k in s.objects && !G.OvertakenOn(s, t, k)
    && (t in s.objects[k].tentative || (NobodyInFront(s, t, k) && Established(s, k)))
  }

  /** t comes too late for k: a newer change is installed, or there are only newer creators. */
  ghost predicate Stale(s: S.State, t: TransactionId, k: Key) {
    G.OvertakenOn(s, t, k) || (NobodyInFront(s, t, k) && !Established(s, k))
  }

  /** u is the newest of the older writers t has to wait for at k. */
  ghost predicate InFront(s: S.State, t: TransactionId, k: Key, u: TransactionId) {
    && k in s.objects && t !in s.objects[k].tentative && u in s.objects[k].tentative && u.Lt(t)
    && forall w :: w in s.objects[k].tentative && w.Lt(t) ==> w.Le(u)
  }

  lemma EstablishedIsCommitted(s: S.State, k: Key)
    requires I.Inv(s) && k in s.objects
    ensures Established(s, k) <==> !s.objects[k].committed.IsDefault()
  {
    var o := s.objects[k];
    assert I.KeyInv(s, k);
    if Established(s, k) {
      var e :| e in s.ledger && Wrote(e.log, k) && e.id !in o.tentative;
      I.CommittedWriter(s, e, k);
      assert I.EntryInv(s, e);
    }
    if !o.committed.IsDefault() {
      var e :| e in s.ledger && e.id == o.committed && Wrote(e.log, k);
      assert e.id !in o.tentative;
    }
  }

  /** A read of k by t ends in exactly one of three ways. */
  lemma ReadsExactly(s: S.State, t: TransactionId, k: Key)
    requires I.Inv(s) && t in s.txs && s.txs[t].status == S.Running && k in s.objects
    ensures forall v :: ReadRule(s.objects[k], t) == Read(v) <==> Readable(s, t, k) && v == I.Own(s, t, k)
    ensures ReadRule(s.objects[k], t).ReadTooLate? || ReadRule(s.objects[k], t).ReadNotFound? <==> Stale(s, t, k)
    ensures forall u :: ReadRule(s.objects[k], t) == ReadWait(u) <==> InFront(s, t, k, u)
  {
    EstablishedIsCommitted(s, k);
    G.ReadRefusals(s, t, k);
    ReadOutcomes(s.objects[k], t);
    assert I.KeyInv(s, k);
    if ReadRule(s.objects[k], t).Read? { I.ReadValue(s, t, k); }
  }

  /** A put of t on k comes too late: somebody newer has read the account, or a newer change is installed. */
  ghost predicate Shut(s: S.State, t: TransactionId, k: Key) {
    k in s.objects && (G.OvertakenOn(s, t, k) || exists r :: r in s.objects[k].readers && t.Lt(r))
  }

  lemma PutsExactly(s: S.State, t: TransactionId, k: Key, amount: int)
    requires I.Inv(s) && t in s.txs && s.txs[t].status == S.Running
    ensures StoreRule(s.objects, k, t, amount) == StoreNotFound <==> k !in s.objects && amount < 0
    ensures StoreRule(s.objects, k, t, amount) == StoreTooLate <==> Shut(s, t, k)
  {
    if k in s.objects { G.TooLateMeans(s, t, k); }
  }

  // ----- what becomes of it

  /** The answer is on its way to the client. */
  ghost predicate Told(flight: multiset<Token>, t: TransactionId, p: NodeId, resp: ClientResponse) {
    (if p == t.coordinator then Incoming(resp, p) else Packet(p, t.coordinator, Response(resp))) in flight
  }

  /** What an attempt leaves in flight is all there is in flight for the transaction. */
  lemma OnlyToken(nodes: set<NodeId>, states: seq<State>, steps: seq<Step>, i: nat, t: TransactionId, tok: Token)
    requires IsRun(nodes, states, steps) && i <= |steps| && t in states[i].sessions
    requires states[i].sessions[t].phase == AwaitReply && tok in states[i].sessions[t].flight
    ensures forall x :: x in states[i].sessions[t].flight ==> x == tok
  {
    RunAt(nodes, states, steps, i, t);
  }

  /** The state in which a job attempts an operation. */
  lemma Attempting(nodes: set<NodeId>, states: seq<State>, steps: seq<Step>, i: nat, t: TransactionId, job: Token)
    requires IsRun(nodes, states, steps) && i < |steps| && steps[i] == Step(t, Act(job, Go)) && job.Job? && !job.work.Erase?
    ensures t in states[i].sessions && t in states[i + 1].sessions && Attempts(job)
    ensures t in states[i].store.txs && states[i].store.txs[t].status == S.Running
    ensures I.Inv(states[i].store) && states[i].sessions[t].phase == AwaitReply == states[i + 1].sessions[t].phase
    ensures states[i + 1].sessions[t] == Swap(states[i].sessions[t], job, multiset{OpLeaves(t, states[i].store.objects, job)})
    ensures job.work.PutBack? ==> states[i].store.txs[t].pending == S.Some(job.work.put)
  {
    DataInv(nodes, states, steps, i);
    RunStep(nodes, states, steps, i);
    RunAt(nodes, states, steps, i, t);
    assert TokenOk(nodes, t, states[i].sessions[t], states[i].store.txs[t], states[i].store.objects, job);
    OpSwaps(t, states[i].sessions[t], states[i].store.objects, job);
  }

  /** The one token in flight after an attempt decides everything that is said about it. */
  ghost predicate Becomes(flight: multiset<Token>, after: Token) {
    after in flight && forall x :: x in flight ==> x == after
  }

  lemma AttemptBecomes(nodes: set<NodeId>, states: seq<State>, steps: seq<Step>, i: nat, t: TransactionId, job: Token)
    requires IsRun(nodes, states, steps) && i < |steps| && steps[i] == Step(t, Act(job, Go)) && job.Job? && !job.work.Erase?
    ensures t in states[i].sessions && t in states[i + 1].sessions && Attempts(job)
    ensures Becomes(states[i + 1].sessions[t].flight, OpLeaves(t, states[i].store.objects, job))
  {
    Attempting(nodes, states, steps, i, t, job);
    var after := OpLeaves(t, states[i].store.objects, job);
    assert after in Swap(states[i].sessions[t], job, multiset{after}).flight;
    OnlyToken(nodes, states, steps, i + 1, t, after);
  }

  /** How a balance request ends. */
  ghost predicate QueryEnds(s: S.State, flight: multiset<Token>, t: TransactionId, p: NodeId, account: string)
    requires t in s.txs
  {
    var k := Key(p, account);
    && (Told(flight, t, p, AbortedNotFound) <==> k !in s.objects)
    && (Told(flight, t, p, Aborted) <==> Stale(s, t, k))
    && (forall v :: Told(flight, t, p, Value(account, v)) <==> Readable(s, t, k) && v == I.Own(s, t, k))
    && (forall u :: Job(p, Query(account), S.Some(u)) in flight <==> InFront(s, t, k, u))
  }

  /**
   * In every run a balance request is answered with the version below the reader and its own changes, is
   * "not found" for a missing account, is aborted when it comes too late, and waits for the newest older
   * writer, each exactly when that is the case.
   */
  lemma QueryOutcome(nodes: set<NodeId>, states: seq<State>, steps: seq<Step>, i: nat, t: TransactionId, job: Token)
    requires IsRun(nodes, states, steps) && i < |steps| && steps[i] == Step(t, Act(job, Go)) && job.Job? && job.work.Query?
    ensures t in states[i].store.txs && t in states[i + 1].sessions
    ensures QueryEnds(states[i].store, states[i + 1].sessions[t].flight, t, job.node, job.work.account)
  {
    Attempting(nodes, states, steps, i, t, job);
    AttemptBecomes(nodes, states, steps, i, t, job);
    QueryDecided(states[i].store, states[i + 1].sessions[t].flight, t, job.node, job.work.account);
  }

  lemma QueryDecided(s: S.State, flight: multiset<Token>, t: TransactionId, p: NodeId, account: string)
    requires I.Inv(s) && t in s.txs && s.txs[t].status == S.Running && Becomes(flight, QueryLeaves(t, s.objects, p, account))
    ensures QueryEnds(s, flight, t, p, account)
  {
    var k := Key(p, account);
    if k in s.objects { ReadsExactly(s, t, k); }
  }

  /** How the read of a balance change ends. */
  ghost predicate FetchEnds(s: S.State, flight: multiset<Token>, t: TransactionId, p: NodeId, account: string, d: int)
    requires t in s.txs
  {
    var k := Key(p, account);
    && (Job(p, PutBack(S.Create(k, d)), S.None) in flight <==> k !in s.objects)
    && (Told(flight, t, p, Aborted) <==> Stale(s, t, k))
    && (forall v :: Job(p, PutBack(S.Update(k, v, d)), S.None) in flight <==> Readable(s, t, k) && v == I.Own(s, t, k))
    && (forall u :: Job(p, Fetch(account, d), S.Some(u)) in flight <==> InFront(s, t, k, u))
  }

  /**
   * In every run the read of a balance change leads to a create for a missing account, to a put upon the
   * version below the reader with its own changes, to an abort when it comes too late, or to waiting for
   * the newest older writer, each exactly when that is the case.
   */
  lemma FetchOutcome(nodes: set<NodeId>, states: seq<State>, steps: seq<Step>, i: nat, t: TransactionId, job: Token)
    requires IsRun(nodes, states, steps) && i < |steps| && steps[i] == Step(t, Act(job, Go)) && job.Job? && job.work.Fetch?
    ensures t in states[i].store.txs && t in states[i + 1].sessions
    ensures FetchEnds(states[i].store, states[i + 1].sessions[t].flight, t, job.node, job.work.account, job.work.diff)
  {
    Attempting(nodes, states, steps, i, t, job);
    AttemptBecomes(nodes, states, steps, i, t, job);
    FetchDecided(states[i].store, states[i + 1].sessions[t].flight, t, job.node, job.work.account, job.work.diff);
  }

  lemma FetchDecided(s: S.State, flight: multiset<Token>, t: TransactionId, p: NodeId, account: string, d: int)
    requires I.Inv(s) && t in s.txs && s.txs[t].status == S.Running && Becomes(flight, FetchLeaves(t, s.objects, p, account, d))
    ensures FetchEnds(s, flight, t, p, account, d)
  {
    var k := Key(p, account);
    if k in s.objects { ReadsExactly(s, t, k); }
  }

  /** How the write of a balance change ends. */
  ghost predicate PutEnds(s: S.State, flight: multiset<Token>, t: TransactionId, p: NodeId, put: S.Put) {
    && (Told(flight, t, p, AbortedNotFound) <==> put.key !in s.objects && put.Amount() < 0)
    && (Told(flight, t, p, Aborted) <==> Shut(s, t, put.key))
    && (Told(flight, t, p, Ok) <==> !(put.key !in s.objects && put.Amount() < 0) && !Shut(s, t, put.key))
  }

  /**
   * In every run the write of a balance change is "not found" exactly when the account is missing and the
   * amount negative, is aborted exactly when somebody newer has read or overtaken the account, and is
   * answered Ok otherwise; the amount written is then t's own version of the account.
   */
  lemma PutOutcome(nodes: set<NodeId>, states: seq<State>, steps: seq<Step>, i: nat, t: TransactionId, job: Token)
    requires IsRun(nodes, states, steps) && i < |steps| && steps[i] == Step(t, Act(job, Go)) && job.Job? && job.work.PutBack?
    ensures t in states[i].store.txs && t in states[i + 1].sessions && t in states[i + 1].store.txs
    ensures PutEnds(states[i].store, states[i + 1].sessions[t].flight, t, job.node, job.work.put)
    ensures var s', put := states[i + 1].store, job.work.put;
            Told(states[i + 1].sessions[t].flight, t, job.node, Ok) ==>
              && put.key in s'.objects && t in s'.objects[put.key].tentative
              && s'.objects[put.key].tentative[t] == put.Amount() == I.Own(s', t, put.key)
              && s'.txs[t].log == states[i].store.txs[t].log + [Change(put.key, put.diff, put.Create?)]
  {
    Attempting(nodes, states, steps, i, t, job);
    var s, p, put := states[i].store, job.node, job.work.put;
    PutsExactly(s, t, put.key, put.Amount());
    AttemptBecomes(nodes, states, steps, i, t, job);
    RunAt(nodes, states, steps, i + 1, t);
    if StoreRule(s.objects, put.key, t, put.Amount()) == Stored { PutLands(nodes, states, steps, i, t, job); }
  }

  lemma PutLands(nodes: set<NodeId>, states: seq<State>, steps: seq<Step>, i: nat, t: TransactionId, job: Token)
    requires IsRun(nodes, states, steps) && i < |steps| && steps[i] == Step(t, Act(job, Go)) && job.Job? && job.work.PutBack?
    requires StoreRule(states[i].store.objects, job.work.put.key, t, job.work.put.Amount()) == Stored
    ensures t in states[i].store.txs && t in states[i + 1].store.txs
    ensures var s', put := states[i + 1].store, job.work.put;
            && put.key in s'.objects && t in s'.objects[put.key].tentative
            && s'.objects[put.key].tentative[t] == put.Amount() == I.Own(s', t, put.key)
            && s'.txs[t].log == states[i].store.txs[t].log + [Change(put.key, put.diff, put.Create?)]
  {
    Attempting(nodes, states, steps, i, t, job);
    RunStep(nodes, states, steps, i);
    DataInv(nodes, states, steps, i + 1);
    var k := job.work.put.key;
    assert states[i + 1].store == S.Apply(states[i].store, S.PutOk(t));
    assert I.KeyInv(states[i + 1].store, k) && I.WriterInv(states[i + 1].store, k, t);
  }
}

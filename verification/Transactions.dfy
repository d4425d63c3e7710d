/**
 * The guarantees for transactions over whole runs of the cluster: exactly when a run is serialisable
 * and loses nothing, what holds in every run, and what holds while there is no blind create.
 */
module Transactions {
  import opened TransactionIds
  import opened Objects
  import opened Ledger
  import opened Histories
  import opened Tables
  import S = Store
  import opened Protocol
  import opened Coordination
  import opened CoordinationSteps
  import opened Cluster
  import I = Isolation
  import C = CleanStates
  import G = Guarantees

  // ----- every run

  lemma DataAdvances(s: State, t: TransactionId, e: Effect)
    requires I.Inv(s.store) && G.Bounded(s.store) && (e.event.Some? ==> S.Enabled(s.store, e.event.value))
    ensures I.Inv(Advance(s, t, e).store) && G.Bounded(Advance(s, t, e).store)
  {
    if e.event.Some? {
      I.InvKept(s.store, e.event.value);
      G.BoundedKept(s.store, e.event.value);
    }
  }

  /** The invariant of the data holds in every state of every run. */
  lemma {:induction false} DataInv(nodes: set<NodeId>, states: seq<State>, steps: seq<Step>, i: nat)
    requires IsRun(nodes, states, steps) && i <= |steps|
    ensures I.Inv(states[i].store) && G.Bounded(states[i].store)
  {
    if i > 0 {
      DataInv(nodes, states, steps, i - 1);
      var e := RunEffect(nodes, states, steps, i - 1);
      DataAdvances(states[i - 1], steps[i - 1].tx, e);
    }
  }

  /** The ledger holds exactly the transactions whose commit was decided, sorted by id. */
  lemma LedgerIsDecided(nodes: set<NodeId>, states: seq<State>, steps: seq<Step>, i: nat, t: TransactionId)
    requires IsRun(nodes, states, steps) && i <= |steps|
    ensures HasStatus(states[i], t, S.Committed) <==> exists e :: e in states[i].store.ledger && e.id == t
    ensures HasStatus(states[i], t, S.Committed) ==> Entry(t, states[i].store.txs[t].log) in states[i].store.ledger
    ensures Sorted(states[i].store.ledger)
  {
    DataInv(nodes, states, steps, i);
    G.LedgerIsCommitted(states[i].store, t);
  }

  /**
   * What a committed transaction's log records is what its client asked for in the run, in order, and
   * what it was told: the requests the serial run performs and the replies it is held to.
   */
  lemma ClientsAskedAndSaw(nodes: set<NodeId>, states: seq<State>, steps: seq<Step>, i: nat, t: TransactionId)
    requires IsRun(nodes, states, steps) && i <= |steps| && HasStatus(states[i], t, S.Committed)
    ensures t in states[i].sessions
    ensures var log, asked, told := states[i].store.txs[t].log, AsksIn(steps[..i], t), states[i].sessions[t].replies;
            && Entry(t, log) in states[i].store.ledger
            && |asked| == |told| == |log| == |Requests(log)| == |Replies(log)|
            && (forall n :: 0 <= n < |log| ==> Matches(nodes, asked[n], told[n], Requests(log)[n], Replies(log)[n]))
  {
    RunAt(nodes, states, steps, i, t);
    LedgerIsDecided(nodes, states, steps, i, t);
    AskedInRun(nodes, states, steps, i, t);
    var log, sess := states[i].store.txs[t].log, states[i].sessions[t];
    assert InStep(sess, states[i].store.txs[t]) && RoutedLog(nodes, log);
    forall n | 0 <= n < |log| ensures Matches(nodes, sess.asked[n], sess.replies[n], Requests(log)[n], Replies(log)[n]) {
      assert log[n] in log && sess.asked[n] == AskedFor(log[n]) && sess.replies[n] == ToldAbout(log[n]);
    }
  }

  /** A client's request and the response to it, against a request of the serial run, on the account's shard, and its reply. */
  ghost predicate Matches(nodes: set<NodeId>, asked: ClientRequest, told: ClientResponse, r: Request, reply: Reply) {
    && r.key.shard in nodes && Owned(r.key.account, r.key.shard)
    && match r
       case Balance(k) => asked == ReadBalance(k.account) && reply.Told? && told == Value(k.account, reply.amount)
       case Adjust(k, d) => asked == WriteBalance(k.account, d) && told == Ok && reply == Done
  }

  /**
   * Serialisability, exactly, in every state of every run: running the committed transactions one at a
   * time in id order on a plain map is possible with the same answers, and gives the balances the
   * cluster has once the decided commits are installed, if and only if every create fits.
   */
  lemma ClusterSerialisable(nodes: set<NodeId>, states: seq<State>, steps: seq<Step>, i: nat)
    requires IsRun(nodes, states, steps) && i <= |steps|
    ensures Serial(states[i].store.ledger) == Final(G.Settled(states[i].store)) <==> CreatesFit(states[i].store.ledger)
  {
    DataInv(nodes, states, steps, i);
    G.SerialisableIff(states[i].store);
  }

  /** ... and once every install is done those are the balances the objects hold. */
  lemma FinalBalances(nodes: set<NodeId>, states: seq<State>, steps: seq<Step>, i: nat)
    requires IsRun(nodes, states, steps) && i <= |steps|
    requires forall t :: t in states[i].sessions && HasStatus(states[i], t, S.Committed) ==> InstallsDone(states[i].sessions[t])
    ensures var objects, ledger := states[i].store.objects, states[i].store.ledger;
            CreatesFit(ledger) <==>
              Serial(ledger) == Final(map k | k in objects && !objects[k].committed.IsDefault() :: objects[k].value)
  {
    var s := states[i].store;
    forall k, t | k in s.objects && G.IsCommitted(s, t) ensures t !in s.objects[k].tentative {
      RunAt(nodes, states, steps, i, t);
      CommitCompletes(nodes, states, steps, i, t, k);
    }
    G.SettledIsInstalled(s);
    ClusterSerialisable(nodes, states, steps, i);
  }

  /**
   * Conservation, exactly, in every state of every run: a committed balance never exceeds the sum of the
   * installed changes, equals it if and only if every installed creator started from a total of zero,
   * and every other committed change is waiting to be installed; and a tentative balance relates in the
   * same way to the changes below its writer.
   */
  lemma ClusterConservation(nodes: set<NodeId>, states: seq<State>, steps: seq<Step>, i: nat, k: Key)
    requires IsRun(nodes, states, steps) && i <= |steps| && k in states[i].store.objects
    ensures var s, o := states[i].store, states[i].store.objects[k];
            && 0 <= o.value <= Sum(s.ledger, k, Through(o.committed))
            && (o.value == Sum(s.ledger, k, Through(o.committed)) <==>
                  forall e :: e in s.ledger && e.id.Le(o.committed) && Created(e.log, k) ==> Sum(s.ledger, k, Before(e.id)) == 0)
            && (forall e :: e in s.ledger && Wrote(e.log, k) ==> e.id.Le(o.committed) || e.id in o.tentative)
            && (forall t :: t in o.tentative ==>
                  && t in s.txs
                  && o.tentative[t] <= Sum(s.ledger, k, Before(t)) + Net(s.txs[t].log, k)
                  && (o.tentative[t] == Sum(s.ledger, k, Before(t)) + Net(s.txs[t].log, k) <==> CountsAll(s.ledger, t, s.txs[t].log, k)))
  {
    DataInv(nodes, states, steps, i);
    G.Conservation(states[i].store, k);
  }

  /**
   * Views, exactly, in every state of every run: what a live transaction was told of an account is at most
   * the sum of all committed changes below it and its own, and equal to it if and only if neither it nor a
   * committed creator below it dropped anything. And an account touched and not created has every
   * committed write below installed, even between the decision and the arrival of DoCommit elsewhere.
   */
  lemma ClusterViews(nodes: set<NodeId>, states: seq<State>, steps: seq<Step>, i: nat, v: TransactionId, n: nat, k: Key, amount: int)
    requires IsRun(nodes, states, steps) && i <= |steps|
    requires G.Saw(states[i].store, v, n, k, amount) && !HasStatus(states[i], v, S.Aborted)
    ensures var s, prefix := states[i].store, states[i].store.txs[v].log[..n];
            && amount <= Sum(s.ledger, k, Before(v)) + Net(prefix, k)
            && (amount == Sum(s.ledger, k, Before(v)) + Net(prefix, k) <==> CountsAll(s.ledger, v, prefix, k))
            && (!Created(s.txs[v].log, k) ==> forall t :: HasStatus(states[i], t, S.Committed) && t.Lt(v) && Wrote(s.txs[t].log, k) ==>
                  k in s.objects && t.Le(s.objects[k].committed) && t !in s.objects[k].tentative)
  {
    var s := states[i].store;
    DataInv(nodes, states, steps, i);
    G.Views(s, v, n, k, amount);
    assert s.txs[v].log[n] in s.txs[v].log;
    if !Created(s.txs[v].log, k) {
      forall t | HasStatus(states[i], t, S.Committed) && t.Lt(v) && Wrote(s.txs[t].log, k)
        ensures k in s.objects && t.Le(s.objects[k].committed) && t !in s.objects[k].tentative
      {
        G.TouchedIsInstalled(s, t, v, k);
      }
    }
  }

  const I64_MAX := 0x7fff_ffff_ffff_ffff

  /** If the changes submitted on an account add up, in size, to at most the largest amount, no addition on it overflows, in any run. */
  lemma NoOverflow(nodes: set<NodeId>, states: seq<State>, steps: seq<Step>, i: nat, t: TransactionId)
    requires IsRun(nodes, states, steps) && i <= |steps|
    requires t in states[i].store.txs && states[i].store.txs[t].pending.Some?
    requires G.TotalSubmitted(states[i].store.submitted, states[i].store.txs[t].pending.value.key) <= I64_MAX
    ensures -I64_MAX <= states[i].store.txs[t].pending.value.Amount() <= I64_MAX
  {
    DataInv(nodes, states, steps, i);
    assert G.PutBounded(states[i].store, t);
  }

  /** In every run what a transaction has submitted is the changes it has made and the one it is in the middle of, one for one. */
  lemma {:induction false} SubmittedOnce(nodes: set<NodeId>, states: seq<State>, steps: seq<Step>, i: nat, t: TransactionId)
    requires IsRun(nodes, states, steps) && i <= |steps|
    ensures G.OnRecord(states[i].store, t)
  {
    if i > 0 {
      SubmittedOnce(nodes, states, steps, i - 1, t);
      var e := RunEffect(nodes, states, steps, i - 1);
      if e.event.Some? { G.OnRecordKept(states[i - 1].store, e.event.value, t); }
    }
  }

  // ----- writes and creates in a run

  /** The write of a balance change, permitted by the account's rules. */
  ghost predicate WritesNow(s: State, st: Step) {
    && st.action.Act? && st.action.job.Job? && st.action.job.parked.None? && st.action.job.work.PutBack?
    && var put := st.action.job.work.put;
       StoreRule(s.store.objects, put.key, st.tx, put.Amount()) == Stored
  }

  ghost predicate WritesOn(s: State, st: Step, u: TransactionId, k: Key) {
    st.tx == u && WritesNow(s, st) && st.action.job.work.put.key == k
  }

  /** A blind create: a change that found no account when it read, written over an account that exists by now. */
  ghost predicate BlindCreate(s: State, st: Step, k: Key) {
    WritesOn(s, st, st.tx, k) && st.action.job.work.put.Create? && k in s.store.objects
  }

  /** No blind create at k in the first n steps. */
  ghost predicate CleanOn(states: seq<State>, steps: seq<Step>, n: nat, k: Key)
    requires n <= |steps| <= |states|
  {
    forall i :: 0 <= i < n ==> !BlindCreate(states[i], steps[i], k)
  }

  ghost predicate CleanRun(states: seq<State>, steps: seq<Step>, n: nat)
    requires n <= |steps| <= |states|
  {
    forall k :: CleanOn(states, steps, n, k)
  }

  lemma EventIsWrite(s: State, st: Step)
    requires Enabled(s, st)
    ensures WritesNow(s, st) <==> EffectOf(s, st).event.Some? && EffectOf(s, st).event.value.PutOk?
  {
  }

  lemma WriteIsPending(s: State, st: Step)
    requires st.tx in s.sessions && At(s, st.tx) && Enabled(s, st) && WritesNow(s, st)
    ensures s.store.txs[st.tx].pending == S.Some(st.action.job.work.put)
  {
    assert TokenOk(s.nodes, st.tx, s.sessions[st.tx], s.store.txs[st.tx], s.store.objects, st.action.job);
  }

  /** The data sees a blind create exactly when the step is one. */
  lemma BlindEvent(s: State, st: Step, k: Key)
    requires Inv(s) && Enabled(s, st)
    ensures var ev := EffectOf(s, st).event;
            ev.Some? && S.BlindOn(s.store, ev.value, k) <==> BlindCreate(s, st, k)
  {
    EventIsWrite(s, st);
    EventIsOwn(s, st);
    if WritesNow(s, st) {
      assert At(s, st.tx);
      WriteIsPending(s, st);
    }
  }

  /** While a run has no blind create at k, k is clean. */
  lemma {:induction false} CleanOnInv(nodes: set<NodeId>, states: seq<State>, steps: seq<Step>, i: nat, k: Key)
    requires IsRun(nodes, states, steps) && i <= |steps| && CleanOn(states, steps, i, k)
    ensures C.CleanAt(states[i].store, k)
  {
    if i > 0 {
      CleanOnInv(nodes, states, steps, i - 1, k);
      var e := CleanEffect(nodes, states, steps, i - 1, k);
      CleanAdvances(states[i - 1], steps[i - 1].tx, e, k);
    }
  }

  lemma CleanEffect(nodes: set<NodeId>, states: seq<State>, steps: seq<Step>, i: nat, k: Key) returns (e: Effect)
    requires IsRun(nodes, states, steps) && i < |steps| && !BlindCreate(states[i], steps[i], k)
    ensures e.event.Some? ==> S.Enabled(states[i].store, e.event.value) && !S.BlindOn(states[i].store, e.event.value, k)
    ensures states[i + 1] == Advance(states[i], steps[i].tx, e)
  {
    RunInv(nodes, states, steps, i);
    RunStep(nodes, states, steps, i);
    BlindEvent(states[i], steps[i], k);
    e := EffectOf(states[i], steps[i]);
  }

  lemma CleanAdvances(s: State, t: TransactionId, e: Effect, k: Key)
    requires C.CleanAt(s.store, k)
    requires e.event.Some? ==> S.Enabled(s.store, e.event.value) && !S.BlindOn(s.store, e.event.value, k)
    ensures C.CleanAt(Advance(s, t, e).store, k)
  {
    if e.event.Some? { C.CleanKept(s.store, e.event.value, k); }
  }

  /** A run without blind creates is serialisable in every state. */
  lemma CleanRunSerialisable(nodes: set<NodeId>, states: seq<State>, steps: seq<Step>, i: nat)
    requires IsRun(nodes, states, steps) && i <= |steps| && CleanRun(states, steps, i)
    ensures CreatesFit(states[i].store.ledger) && Serial(states[i].store.ledger) == Final(G.Settled(states[i].store))
  {
    forall k ensures C.CleanAt(states[i].store, k) { CleanOnInv(nodes, states, steps, i, k); }
    G.CleanCreatesFit(states[i].store);
    ClusterSerialisable(nodes, states, steps, i);
  }

  // ----- accounts without blind creates

  /** No lost update at an account without blind creates, in every state. */
  lemma ClusterNoLostUpdate(nodes: set<NodeId>, states: seq<State>, steps: seq<Step>, i: nat, k: Key)
    requires IsRun(nodes, states, steps) && i <= |steps| && CleanOn(states, steps, i, k) && k in states[i].store.objects
    ensures var s, o := states[i].store, states[i].store.objects[k];
            && o.value == Sum(s.ledger, k, Through(o.committed)) && o.value >= 0
            && (forall e :: e in s.ledger && Wrote(e.log, k) ==> e.id.Le(o.committed) || e.id in o.tentative)
            && (forall t :: t in o.tentative ==> t in s.txs && o.tentative[t] == o.value + Net(s.txs[t].log, k))
  {
    CleanOnInv(nodes, states, steps, i, k);
    G.NoLostUpdate(states[i].store, k);
  }

  /**
   * Prepare is stable at accounts without blind creates: once shard p passed t's check, and until t is
   * aborted, a check of t on such an object of p passes, at that state and in every later one. In
   * particular the objects, checked at different moments, all pass together.
   */
  lemma ClusterPrepareStable(nodes: set<NodeId>, states: seq<State>, steps: seq<Step>, i: nat, j: nat, t: TransactionId, p: NodeId, k: Key)
    requires IsRun(nodes, states, steps) && i <= j <= |steps| && CleanOn(states, steps, j, k)
    requires t in states[i].sessions && p in states[i].sessions[t].passed
    requires t in states[j].store.txs && !HasStatus(states[j], t, S.Aborted)
    requires k in states[j].store.objects && k.shard == p
    ensures CheckRule(states[j].store.objects[k], t).Passes()
  {
    CleanOnInv(nodes, states, steps, j, k);
    PassedSince(nodes, states, steps, i, j, t, p, k);
    G.PrepareIsStable(states[j].store, t, k);
  }

  lemma PassedChecked(nodes: set<NodeId>, t: TransactionId, sess: Session, tx: S.Tx, objects: Table, p: NodeId, k: Key)
    requires SessionInv(nodes, t, sess, tx, objects) && p in sess.passed && tx.status != S.Aborted
    requires k in objects && k.shard == p
    ensures tx.status == S.Committed || (tx.status == S.Preparing && (t in objects[k].tentative ==> k in tx.checked))
  {
    assert tx.status == S.Preparing ==> AllChecked(objects, t, tx, p);
  }

  /** A shard's pass means that t's entries there have passed their checks, then and later. */
  lemma PassedSince(nodes: set<NodeId>, states: seq<State>, steps: seq<Step>, i: nat, j: nat, t: TransactionId, p: NodeId, k: Key)
    requires IsRun(nodes, states, steps) && i <= j <= |steps|
    requires t in states[i].sessions && p in states[i].sessions[t].passed
    requires t in states[j].store.txs && !HasStatus(states[j], t, S.Aborted)
    requires k in states[j].store.objects && k.shard == p
    ensures states[j].store.txs[t].status in {S.Preparing, S.Committed}
    ensures t in states[j].store.objects[k].tentative ==> k in states[j].store.txs[t].checked
  {
    PassedStays(nodes, states, steps, i, j, t, p);
    RunInv(nodes, states, steps, j);
    RunAt(nodes, states, steps, j, t);
    PassedChecked(nodes, t, states[j].sessions[t], states[j].store.txs[t], states[j].store.objects, p, k);
    assert S.CheckedBase(states[j].store, t, k);
  }

  lemma {:induction false} PassedStays(nodes: set<NodeId>, states: seq<State>, steps: seq<Step>, i: nat, j: nat, t: TransactionId, p: NodeId)
    requires IsRun(nodes, states, steps) && i <= j <= |steps|
    requires t in states[i].sessions && p in states[i].sessions[t].passed
    ensures t in states[j].sessions && p in states[j].sessions[t].passed
  {
    if i < j {
      PassedStays(nodes, states, steps, i, j - 1, t, p);
      RunGrows(nodes, states, steps, j - 1, t);
    }
  }

  /** A visit of a scan at an object that is still there. */
  ghost predicate Visits(s: State, st: Step, k: Key) {
    st.action.Act? && st.action.choice == Visit(k) && st.action.job.Job?
    && (st.action.job.work.Check? || st.action.job.work.Install?) && k in s.store.objects
  }

  /** At an account without blind creates no check waits, and no install meets either of the branches that should not be reached. */
  lemma ScansNeverStall(nodes: set<NodeId>, states: seq<State>, steps: seq<Step>, i: nat, k: Key)
    requires IsRun(nodes, states, steps) && i < |steps| && CleanOn(states, steps, i, k) && Visits(states[i], steps[i], k)
    ensures var outcome := CheckRule(states[i].store.objects[k], steps[i].tx);
            !outcome.CheckWait? && (steps[i].action.job.work.Install? ==> outcome.Passes())
  {
    var t := steps[i].tx;
    RunStep(nodes, states, steps, i);
    RunAt(nodes, states, steps, i, t);
    CleanOnInv(nodes, states, steps, i, k);
    G.PrepareIsStable(states[i].store, t, k);
    if steps[i].action.job.work.Install? {
      InstallIsDecided(nodes, t, states[i].sessions[t], states[i].store.txs[t], states[i].store.objects, steps[i].action.job);
    }
  }

  /** In every run an install never fails the consistency check; it may wait. */
  lemma InstallsNeverFail(nodes: set<NodeId>, states: seq<State>, steps: seq<Step>, i: nat, k: Key)
    requires IsRun(nodes, states, steps) && i < |steps| && Visits(states[i], steps[i], k) && steps[i].action.job.work.Install?
    ensures !CheckRule(states[i].store.objects[k], steps[i].tx).CheckFailed?
  {
    var t := steps[i].tx;
    RunStep(nodes, states, steps, i);
    RunAt(nodes, states, steps, i, t);
    RunInv(nodes, states, steps, i);
    InstallIsDecided(nodes, t, states[i].sessions[t], states[i].store.txs[t], states[i].store.objects, steps[i].action.job);
    assert S.CheckedBase(states[i].store, t, k);
  }

  /** No torn view at an account without blind creates, in every state. */
  lemma ClusterNoTornView(nodes: set<NodeId>, states: seq<State>, steps: seq<Step>, i: nat, t: TransactionId, v: TransactionId, k: Key)
    requires IsRun(nodes, states, steps) && i <= |steps| && CleanOn(states, steps, i, k)
    requires HasStatus(states[i], t, S.Committed) && v in states[i].store.txs && !HasStatus(states[i], v, S.Aborted) && t.Lt(v)
    ensures var s := states[i].store;
            && (forall n: nat, amount :: G.Saw(s, v, n, k, amount) ==>
                  amount == Sum(G.Without(s.ledger, t), k, Before(v)) + Net(s.txs[t].log, k) + Net(s.txs[v].log[..n], k))
            && (Wrote(s.txs[t].log, k) && Touched(s.txs[v].log, k) ==>
                  k in s.objects && t.Le(s.objects[k].committed) && t !in s.objects[k].tentative)
  {
    CleanOnInv(nodes, states, steps, i, k);
    G.NoTornView(states[i].store, t, v, k);
  }

  // ----- what a passed check is worth in every run

  ghost predicate HasEntry(s: State, u: TransactionId, k: Key) {
    k in s.store.objects && u in s.store.objects[k].tentative
  }

  lemma EntryStep(s: State, st: Step, u: TransactionId, k: Key)
    requires Inv(s) && Enabled(s, st) && EventEnabled(s, st)
    requires !HasEntry(s, u, k) && HasEntry(Next(s, st), u, k)
    ensures WritesOn(s, st, u, k) && u in s.store.txs && s.store.txs[u].status == S.Running
  {
    EventIsOwn(s, st);
    EventIsWrite(s, st);
    var ev := EffectOf(s, st).event;
    assert ev.Some?;
    S.ObjectStep(s.store, ev.value, k);
    assert ev.value.PutOk?;
    assert At(s, st.tx);
    WriteIsPending(s, st);
  }

  /** A tentative entry gets there by a write. */
  lemma {:induction false} EntryAppears(nodes: set<NodeId>, states: seq<State>, steps: seq<Step>, i: nat, j: nat, u: TransactionId, k: Key) returns (w: nat)
    requires IsRun(nodes, states, steps) && i <= j <= |steps| && !HasEntry(states[i], u, k) && HasEntry(states[j], u, k)
    ensures i <= w < j && WritesOn(states[w], steps[w], u, k) && HasStatus(states[w], u, S.Running)
  {
    if HasEntry(states[j - 1], u, k) {
      w := EntryAppears(nodes, states, steps, i, j - 1, u, k);
    } else {
      w := j - 1;
      RunInv(nodes, states, steps, w);
      RunStep(nodes, states, steps, w);
      EntryStep(states[w], steps[w], u, k);
    }
  }

  /** t's commit check passes on k in this step. */
  ghost predicate PassingVisit(s: State, st: Step, t: TransactionId, k: Key) {
    st.tx == t && Visits(s, st, k) && st.action.job.work.Check? && CheckRule(s.store.objects[k], t).Passes()
  }

  lemma CheckedStep(s: State, st: Step, t: TransactionId, k: Key)
    requires Enabled(s, st) && EventEnabled(s, st)
    requires t in Next(s, st).store.txs && k in Next(s, st).store.txs[t].checked
    ensures (t in s.store.txs && k in s.store.txs[t].checked) || PassingVisit(s, st, t, k)
  {
    var ev := EffectOf(s, st).event;
    if ev.Some? && ev.value.CheckPass? { CheckEventIsVisit(s, st); }
  }

  lemma CheckEventIsVisit(s: State, st: Step)
    requires Enabled(s, st) && EffectOf(s, st).event.Some? && EffectOf(s, st).event.value.CheckPass?
    ensures EffectOf(s, st).event.value.tx == st.tx && PassingVisit(s, st, st.tx, EffectOf(s, st).event.value.key)
  {
  }

  /** An entry counts as checked only because of a passing visit earlier in the run. */
  lemma {:induction false} CheckedByVisit(nodes: set<NodeId>, states: seq<State>, steps: seq<Step>, j: nat, t: TransactionId, k: Key) returns (v: nat)
    requires IsRun(nodes, states, steps) && j <= |steps| && t in states[j].store.txs && k in states[j].store.txs[t].checked
    ensures v < j && PassingVisit(states[v], steps[v], t, k)
  {
    assert j > 0;
    RunStep(nodes, states, steps, j - 1);
    CheckedStep(states[j - 1], steps[j - 1], t, k);
    if PassingVisit(states[j - 1], steps[j - 1], t, k) {
      v := j - 1;
    } else {
      v := CheckedByVisit(nodes, states, steps, j - 1, t, k);
    }
  }

  lemma EffectKeepsDone(s: State, u: TransactionId, e: Effect, t: TransactionId)
    requires e.event.Some? ==> S.Enabled(s.store, e.event.value)
    requires t in s.store.txs && s.store.txs[t].status != S.Running
    ensures !HasStatus(Advance(s, u, e), t, S.Running) && t in Advance(s, u, e).store.txs
  {
  }

  lemma {:induction false} DoneRunning(nodes: set<NodeId>, states: seq<State>, steps: seq<Step>, i: nat, j: nat, t: TransactionId)
    requires IsRun(nodes, states, steps) && i <= j <= |steps| && t in states[i].store.txs && !HasStatus(states[i], t, S.Running)
    ensures t in states[j].store.txs && !HasStatus(states[j], t, S.Running)
  {
    if i < j {
      DoneRunning(nodes, states, steps, i, j - 1, t);
      var e := RunEffect(nodes, states, steps, j - 1);
      EffectKeepsDone(states[j - 1], steps[j - 1].tx, e, t);
    }
  }

  /** Since step v an older transaction wrote k, and its write is still tentative in state j. */
  ghost predicate OlderWrote(states: seq<State>, steps: seq<Step>, v: nat, j: nat, t: TransactionId, k: Key)
    requires j <= |steps| < |states|
  {
    exists u: TransactionId, w :: v < w < j && u.Lt(t) && WritesOn(states[w], steps[w], u, k) && HasEntry(states[j], u, k)
  }

  /** Whoever is in front of t was not there when t's check passed. */
  lemma VisitWasFirst(nodes: set<NodeId>, states: seq<State>, steps: seq<Step>, v: nat, j: nat, t: TransactionId, k: Key, u: TransactionId)
    requires IsRun(nodes, states, steps) && v < j <= |steps| && PassingVisit(states[v], steps[v], t, k)
    requires HasEntry(states[j], t, k) && u.Lt(t)
    ensures !HasEntry(states[v], u, k) && !WritesOn(states[v], steps[v], u, k)
  {
    RunStep(nodes, states, steps, v);
    RunAt(nodes, states, steps, v, t);
    CheckPhase(nodes, t, states[v].sessions[t], states[v].store.txs[t], states[v].store.objects, steps[v].action.job);
    if !HasEntry(states[v], t, k) {
      var w := EntryAppears(nodes, states, steps, v, j, t, k);
      DoneRunning(nodes, states, steps, v, w, t);
    }
    CheckPassesOldest(states[v].store.objects[k], t);
  }

  lemma WaitsBehind(o: ObjectState, t: TransactionId)
    requires t in o.tentative
    ensures CheckRule(o, t).CheckWait? <==> exists u :: u in o.tentative && u.Lt(t)
  {
    WaitsPointBack(o, t);
    CheckPassesOldest(o, t);
  }

  /** Whoever is in front of t after a passing visit has written k since. */
  lemma WroteSince(nodes: set<NodeId>, states: seq<State>, steps: seq<Step>, v: nat, j: nat, t: TransactionId, k: Key, u: TransactionId)
    requires IsRun(nodes, states, steps) && v < j <= |steps| && PassingVisit(states[v], steps[v], t, k)
    requires HasEntry(states[j], t, k) && HasEntry(states[j], u, k) && u.Lt(t)
    ensures OlderWrote(states, steps, v, j, t, k)
  {
    VisitWasFirst(nodes, states, steps, v, j, t, k, u);
    var w := EntryAppears(nodes, states, steps, v, j, u, k);
    assert v < w < j && WritesOn(states[w], steps[w], u, k);
  }

  /** After a passing visit, t's check of k waits exactly when an older transaction has written k since and has not been resolved. */
  lemma WaitsIffOvertaken(nodes: set<NodeId>, states: seq<State>, steps: seq<Step>, v: nat, j: nat, t: TransactionId, k: Key)
    requires IsRun(nodes, states, steps) && v < j <= |steps| && PassingVisit(states[v], steps[v], t, k) && HasEntry(states[j], t, k)
    ensures CheckRule(states[j].store.objects[k], t).CheckWait? <==> OlderWrote(states, steps, v, j, t, k)
  {
    var o := states[j].store.objects[k];
    WaitsBehind(o, t);
    if u :| u in o.tentative && u.Lt(t) {
      WroteSince(nodes, states, steps, v, j, t, k, u);
    }
  }

  /**
   * What prepares guarantee in every run: once shard p passed t's check, and until t is aborted, no check of
   * t on p's objects fails. There was a passing visit of each of t's entries there, and a later check waits
   * exactly when an older transaction has written the account since; that takes an account t created and a
   * blind create there.
   */
  lemma ClusterPrepareKept(nodes: set<NodeId>, states: seq<State>, steps: seq<Step>, i: nat, j: nat, t: TransactionId, p: NodeId, k: Key)
      returns (v: nat)
    requires IsRun(nodes, states, steps) && i <= j <= |steps|
    requires t in states[i].sessions && p in states[i].sessions[t].passed
    requires t in states[j].store.txs && !HasStatus(states[j], t, S.Aborted)
    requires k in states[j].store.objects && k.shard == p
    ensures var o := states[j].store.objects[k];
            && !CheckRule(o, t).CheckFailed?
            && (t !in o.tentative ==> CheckRule(o, t) == NothingToCommit)
            && (t in o.tentative ==>
                  && v < j && PassingVisit(states[v], steps[v], t, k)
                  && (CheckRule(o, t).CheckWait? <==> OlderWrote(states, steps, v, j, t, k)))
            && (CheckRule(o, t).CheckWait? ==> Created(states[j].store.txs[t].log, k) && !CleanOn(states, steps, j, k))
  {
    var s := states[j].store;
    v := 0;
    DataInv(nodes, states, steps, j);
    PassedSince(nodes, states, steps, i, j, t, p, k);
    if t in s.objects[k].tentative {
      G.PrepareIsKept(s, t, k);
      v := CheckedByVisit(nodes, states, steps, j, t, k);
      WaitsIffOvertaken(nodes, states, steps, v, j, t, k);
      if CleanOn(states, steps, j, k) {
        CleanOnInv(nodes, states, steps, j, k);
        G.PrepareIsStable(s, t, k);
      }
    }
  }

  // ----- exactly when an account keeps its one writer

  ghost predicate OneWriterAt(s: State, k: Key) {
    k in s.store.objects ==> C.OneWriter(s.store.objects[k])
  }

  /** An account has one legitimate writer throughout a run exactly when the run has no blind create there. */
  lemma OneWriterIffClean(nodes: set<NodeId>, states: seq<State>, steps: seq<Step>, k: Key)
    requires IsRun(nodes, states, steps)
    ensures (forall i :: 0 <= i <= |steps| ==> OneWriterAt(states[i], k)) <==> CleanOn(states, steps, |steps|, k)
  {
    if CleanOn(states, steps, |steps|, k) {
      forall i | 0 <= i <= |steps| ensures OneWriterAt(states[i], k) { CleanOnInv(nodes, states, steps, i, k); }
    }
    if forall i :: 0 <= i <= |steps| ==> OneWriterAt(states[i], k) {
      OneWriterClean(nodes, states, steps, |steps|, k);
    }
  }

  lemma {:induction false} OneWriterClean(nodes: set<NodeId>, states: seq<State>, steps: seq<Step>, n: nat, k: Key)
    requires IsRun(nodes, states, steps) && n <= |steps|
    requires forall i :: 0 <= i <= |steps| ==> OneWriterAt(states[i], k)
    ensures CleanOn(states, steps, n, k)
  {
    if n > 0 {
      OneWriterClean(nodes, states, steps, n - 1, k);
      CleanOnInv(nodes, states, steps, n - 1, k);
      if BlindCreate(states[n - 1], steps[n - 1], k) {
        BlindCreateBreaks(nodes, states, steps, n - 1, k);
      }
    }
  }

  /** A blind create at a clean account leaves it with two writers, or with one that never read it. */
  lemma BlindCreateBreaks(nodes: set<NodeId>, states: seq<State>, steps: seq<Step>, i: nat, k: Key)
    requires IsRun(nodes, states, steps) && i < |steps| && C.CleanAt(states[i].store, k) && BlindCreate(states[i], steps[i], k)
    ensures !OneWriterAt(states[i + 1], k)
  {
    var s, st := states[i], steps[i];
    RunInv(nodes, states, steps, i);
    RunStep(nodes, states, steps, i);
    EventIsWrite(s, st);
    EventIsOwn(s, st);
    BlindEvent(s, st, k);
    G.OneWriterIffClean(s.store, st.tx);
  }
}

/** The guarantees of the protocol over whole runs of the cluster. */
module Cluster {
  import opened TransactionIds
  import opened Objects
  import opened Ledger
  import opened Tables
  import S = Store
  import opened Protocol
  import opened Coordination
  import opened CoordinationSteps
  import opened Coordinator

  // ----- every run

  lemma {:induction false} RunInv(nodes: set<NodeId>, states: seq<State>, steps: seq<Step>, i: nat)
    requires IsRun(nodes, states, steps) && i <= |steps|
    ensures Inv(states[i]) && states[i].nodes == nodes
  {
    if i > 0 {
      RunInv(nodes, states, steps, i - 1);
      assert StepAt(states, steps, i - 1);
      StepKeepsInv(states[i - 1], steps[i - 1]);
    }
  }

  /** Every step of a run makes sense on the data. */
  lemma RunStep(nodes: set<NodeId>, states: seq<State>, steps: seq<Step>, i: nat)
    requires IsRun(nodes, states, steps) && i < |steps|
    ensures Enabled(states[i], steps[i]) && EventEnabled(states[i], steps[i]) && states[i + 1] == Next(states[i], steps[i])
  {
    RunInv(nodes, states, steps, i);
    assert StepAt(states, steps, i);
    StepKeepsInv(states[i], steps[i]);
  }

  /** The effect of step i, without saying which. */
  lemma RunEffect(nodes: set<NodeId>, states: seq<State>, steps: seq<Step>, i: nat) returns (e: Effect)
    requires IsRun(nodes, states, steps) && i < |steps|
    ensures e.event.Some? ==> S.Enabled(states[i].store, e.event.value)
    ensures states[i + 1] == Advance(states[i], steps[i].tx, e)
  {
    RunStep(nodes, states, steps, i);
    e := EffectOf(states[i], steps[i]);
  }

  lemma RunAt(nodes: set<NodeId>, states: seq<State>, steps: seq<Step>, i: nat, t: TransactionId)
    requires IsRun(nodes, states, steps) && i <= |steps|
    requires t in states[i].sessions || t in states[i].store.txs
    ensures states[i].nodes == nodes && t in states[i].sessions && t in states[i].store.txs
    ensures SessionInv(nodes, t, states[i].sessions[t], states[i].store.txs[t], states[i].store.objects)
  {
    RunInv(nodes, states, steps, i);
    assert At(states[i], t);
  }

  ghost predicate HasStatus(s: State, t: TransactionId, status: S.Status) {
    t in s.store.txs && s.store.txs[t].status == status
  }

  lemma EffectStatus(s: State, u: TransactionId, e: Effect, t: TransactionId)
    requires e.event.Some? ==> S.Enabled(s.store, e.event.value)
    requires t in s.store.txs && s.store.txs[t].status in {S.Committed, S.Aborted}
    ensures HasStatus(Advance(s, u, e), t, s.store.txs[t].status)
  {
  }

  lemma StatusStep(nodes: set<NodeId>, states: seq<State>, steps: seq<Step>, i: nat, t: TransactionId, status: S.Status)
    requires IsRun(nodes, states, steps) && i < |steps|
    requires status in {S.Committed, S.Aborted} && HasStatus(states[i], t, status)
    ensures HasStatus(states[i + 1], t, status)
  {
    var e := RunEffect(nodes, states, steps, i);
    EffectStatus(states[i], steps[i].tx, e, t);
  }

  /** A verdict is final. */
  lemma {:induction false} VerdictIsFinal(nodes: set<NodeId>, states: seq<State>, steps: seq<Step>, i: nat, j: nat, t: TransactionId, status: S.Status)
    requires IsRun(nodes, states, steps) && i <= j <= |steps|
    requires status in {S.Committed, S.Aborted} && HasStatus(states[i], t, status)
    ensures HasStatus(states[j], t, status)
  {
    if i < j {
      VerdictIsFinal(nodes, states, steps, i, j - 1, t, status);
      StatusStep(nodes, states, steps, j - 1, t, status);
    }
  }

  /** In this step a shard commits its objects for t. */
  predicate CommitsOnShard(st: Step, t: TransactionId) {
    st.tx == t && st.action.Act? && st.action.job.Job? && st.action.job.work.Install?
  }

  /** In this step a shard aborts t: the coordinator's own, or a peer's. */
  predicate AbortsOnShard(st: Step, t: TransactionId) {
    st.tx == t && (st.action.AbortLocally? || (st.action.Act? && st.action.job.Job? && st.action.job.work.Erase?))
  }

  lemma CommittingIsDecided(nodes: set<NodeId>, states: seq<State>, steps: seq<Step>, i: nat, t: TransactionId)
    requires IsRun(nodes, states, steps) && i < |steps| && CommitsOnShard(steps[i], t)
    ensures HasStatus(states[i], t, S.Committed) && t in states[i].sessions
    ensures nodes <= states[i].sessions[t].passed
  {
    RunStep(nodes, states, steps, i);
    RunAt(nodes, states, steps, i, t);
    InstallIsDecided(nodes, t, states[i].sessions[t], states[i].store.txs[t], states[i].store.objects, steps[i].action.job);
  }

  lemma AbortingIsDecided(nodes: set<NodeId>, states: seq<State>, steps: seq<Step>, i: nat, t: TransactionId)
    requires IsRun(nodes, states, steps) && i < |steps| && AbortsOnShard(steps[i], t)
    ensures HasStatus(states[i], t, S.Aborted)
  {
    RunStep(nodes, states, steps, i);
    RunAt(nodes, states, steps, i, t);
    if steps[i].action.Act? {
      assert TokenOk(nodes, t, states[i].sessions[t], states[i].store.txs[t], states[i].store.objects, steps[i].action.job);
    }
  }

  /**
   * Two-phase commit agreement: no run has one shard commit t and any shard abort t; and a shard
   * commits t only after all n shards passed their check.
   */
  lemma Agreement(nodes: set<NodeId>, states: seq<State>, steps: seq<Step>, i: nat, j: nat, t: TransactionId)
    requires IsRun(nodes, states, steps) && i < |steps| && j < |steps| && CommitsOnShard(steps[i], t)
    ensures !AbortsOnShard(steps[j], t)
    ensures t in states[i].sessions && nodes <= states[i].sessions[t].passed
  {
    CommittingIsDecided(nodes, states, steps, i, t);
    if AbortsOnShard(steps[j], t) {
      AbortingIsDecided(nodes, states, steps, j, t);
      if i <= j {
        VerdictIsFinal(nodes, states, steps, i, j, t, S.Committed);
      } else {
        VerdictIsFinal(nodes, states, steps, j, i, t, S.Aborted);
      }
    }
  }

  /** The step in which the shard p reports that t's commit check passed on all its objects. */
  ghost predicate PassesCheck(st: Step, t: TransactionId, p: NodeId) {
    st.tx == t && st.action.Act? && st.action.choice == Finish
    && st.action.job.Job? && st.action.job.node == p && st.action.job.work.Check?
  }

  /** How a step treats the parts of its session that only ever grow or vanish. */
  ghost predicate Grows(sess: Session, sess': Session, st: Step) {
    && sess.passed <= sess'.passed
    && (forall p :: p in sess'.passed ==> p in sess.passed || PassesCheck(st, st.tx, p))
    && sess'.asked == sess.asked + OpAsked(st)
    && (sess'.handle.None? || (sess.handle.Some? && sess'.handle.value == Counted(sess.handle.value, st)))
  }

  /** The operation the client asks for in this step, if any. */
  function OpAsked(st: Step): seq<ClientRequest> {
    if st.action.Ask? && (st.action.req.WriteBalance? || st.action.req.ReadBalance?) then [st.action.req] else []
  }

  /** The vote the server takes in in this step, if any. */
  function VoteIn(st: Step): seq<Vote> {
    match st.action
    case Serve(Packet(src, _, TwoPhaseCommitStatus(status))) => [Vote(src, status)]
    case _ => []
  }

  function Counted(h: Handle, st: Step): Handle {
    if VoteIn(st) == [] then h else CountVote(h, VoteIn(st)[0].from, VoteIn(st)[0].status)
  }

  /** Only the phase, the bag in flight and the fault flag differ. */
  predicate HistoryKept(sess: Session, sess': Session) {
    sess' == sess.(phase := sess'.phase, flight := sess'.flight, fault := sess'.fault)
  }

  lemma CheckKeepsHistory(t: TransactionId, sess: Session, objects: Table, job: Token, choice: Choice)
    requires job.Job? && job.work.Check? && choice != Finish
    ensures HistoryKept(sess, OnCheck(t, sess, objects, job, choice).session)
  {
  }

  lemma InstallKeepsHistory(t: TransactionId, sess: Session, objects: Table, job: Token, choice: Choice)
    requires job.Job? && job.work.Install?
    ensures HistoryKept(sess, OnInstall(t, sess, objects, job, choice).session)
  {
  }

  lemma KeptGrows(sess: Session, sess': Session, st: Step)
    requires HistoryKept(sess, sess') && st.action.Act?
    ensures Grows(sess, sess', st)
  {
  }

  lemma CheckFinishGrows(t: TransactionId, sess: Session, objects: Table, job: Token)
    requires job.Job? && job.work.Check?
    ensures Grows(sess, OnCheck(t, sess, objects, job, Finish).session, Step(t, Act(job, Finish)))
  {
    assert OnCheck(t, sess, objects, job, Finish).session.passed == sess.passed + {job.node};
  }

  lemma CheckGrows(t: TransactionId, sess: Session, objects: Table, job: Token, choice: Choice)
    requires job.Job? && job.work.Check?
    ensures Grows(sess, OnCheck(t, sess, objects, job, choice).session, Step(t, Act(job, choice)))
  {
    if choice == Finish {
      CheckFinishGrows(t, sess, objects, job);
    } else {
      CheckKeepsHistory(t, sess, objects, job, choice);
      KeptGrows(sess, OnCheck(t, sess, objects, job, choice).session, Step(t, Act(job, choice)));
    }
  }

  lemma InstallGrows(t: TransactionId, sess: Session, objects: Table, job: Token, choice: Choice)
    requires job.Job? && job.work.Install?
    ensures Grows(sess, OnInstall(t, sess, objects, job, choice).session, Step(t, Act(job, choice)))
  {
    InstallKeepsHistory(t, sess, objects, job, choice);
    KeptGrows(sess, OnInstall(t, sess, objects, job, choice).session, Step(t, Act(job, choice)));
  }

  lemma OpGrows(t: TransactionId, sess: Session, objects: Table, job: Token, choice: Choice)
    requires job.Job? && (job.parked.Some? || !(job.work.Check? || job.work.Install?))
    ensures Grows(sess, OnAct(t, sess, objects, job, choice).session, Step(t, Act(job, choice)))
  {
  }

  lemma ActGrows(s: State, st: Step)
    requires Enabled(s, st) && st.action.Act?
    ensures Grows(s.sessions[st.tx], EffectOf(s, st).session, st)
  {
    var job, sess := st.action.job, s.sessions[st.tx];
    if job.parked.None? && job.work.Check? {
      CheckGrows(st.tx, sess, s.store.objects, job, st.action.choice);
    } else if job.parked.None? && job.work.Install? {
      InstallGrows(st.tx, sess, s.store.objects, job, st.action.choice);
    } else {
      OpGrows(st.tx, sess, s.store.objects, job, st.action.choice);
    }
  }

  lemma ServeGrows(s: State, st: Step)
    requires Enabled(s, st) && st.action.Serve?
    ensures Grows(s.sessions[st.tx], EffectOf(s, st).session, st)
  {
  }

  lemma SessionGrows(s: State, st: Step)
    requires Enabled(s, st) && !st.action.Connect?
    ensures Grows(s.sessions[st.tx], EffectOf(s, st).session, st)
  {
    if st.action.Act? { ActGrows(s, st); } else if st.action.Serve? { ServeGrows(s, st); }
  }

  /** The same for every session across step i of a run. */
  lemma RunGrows(nodes: set<NodeId>, states: seq<State>, steps: seq<Step>, i: nat, t: TransactionId)
    requires IsRun(nodes, states, steps) && i < |steps|
    ensures t in states[i].sessions ==> t in states[i + 1].sessions
    ensures t in states[i].sessions && t != steps[i].tx ==> states[i + 1].sessions[t] == states[i].sessions[t]
    ensures t in states[i].sessions && t == steps[i].tx ==> Grows(states[i].sessions[t], states[i + 1].sessions[t], steps[i])
    ensures t !in states[i].sessions && t in states[i + 1].sessions ==>
              steps[i] == Step(t, Connect) && states[i + 1].sessions[t] == Session(Idle, multiset{}, S.Some(NEW_HANDLE), [], [], {}, false)
  {
    RunStep(nodes, states, steps, i);
    if t == steps[i].tx && t in states[i].sessions { SessionGrows(states[i], steps[i]); }
  }

  lemma PassedStep(nodes: set<NodeId>, states: seq<State>, steps: seq<Step>, i: nat, t: TransactionId, p: NodeId)
    requires IsRun(nodes, states, steps) && i < |steps|
    requires t in states[i + 1].sessions && p in states[i + 1].sessions[t].passed
    ensures (t in states[i].sessions && p in states[i].sessions[t].passed) || PassesCheck(steps[i], t, p)
  {
    RunGrows(nodes, states, steps, i, t);
  }

  /** A shard counts as having passed only because it finished such a scan earlier in the run. */
  lemma {:induction false} PassedMeansChecked(nodes: set<NodeId>, states: seq<State>, steps: seq<Step>, i: nat, t: TransactionId, p: NodeId) returns (j: nat)
    requires IsRun(nodes, states, steps) && i <= |steps|
    requires t in states[i].sessions && p in states[i].sessions[t].passed
    ensures j < i && PassesCheck(steps[j], t, p)
  {
    assert i > 0;
    PassedStep(nodes, states, steps, i - 1, t, p);
    if PassesCheck(steps[i - 1], t, p) {
      j := i - 1;
    } else {
      j := PassedMeansChecked(nodes, states, steps, i - 1, t, p);
    }
  }

  /** Nothing in flight for t still has to install it. */
  ghost predicate InstallsDone(sess: Session) {
    forall tok :: tok in sess.flight ==> tok == Finished
  }

  /** Once t is decided and nothing of the commit is in flight, no shard holds a tentative write of t. */
  lemma CommitCompletes(nodes: set<NodeId>, states: seq<State>, steps: seq<Step>, i: nat, t: TransactionId, k: Key)
    requires IsRun(nodes, states, steps) && i <= |steps|
    requires t in states[i].sessions && InstallsDone(states[i].sessions[t])
    requires HasStatus(states[i], t, S.Committed) && k in states[i].store.objects
    ensures t !in states[i].store.objects[k].tentative
  {
    RunAt(nodes, states, steps, i, t);
  }

  /** When do_abort has returned, no shard holds an entry of t. */
  lemma AbortCompletes(nodes: set<NodeId>, states: seq<State>, steps: seq<Step>, i: nat, t: TransactionId, resp: ClientResponse)
    requires IsRun(nodes, states, steps) && i <= |steps|
    requires t in states[i].sessions && states[i].sessions[t].phase == Closed(S.Some(resp)) && resp != CommitOk
    ensures resp.IsErr() && HasStatus(states[i], t, S.Aborted)
    ensures forall p :: p in nodes ==> Absent(states[i].store.objects, t, p)
  {
    RunAt(nodes, states, steps, i, t);
  }

  /** The abort loop counts exactly one Aborted reply from each of the n - 1 peers, and nothing else. */
  lemma AbortCount(nodes: set<NodeId>, states: seq<State>, steps: seq<Step>, i: nat, t: TransactionId, resp: ClientResponse, from: NodeId)
    requires IsRun(nodes, states, steps) && i < |steps| && steps[i] == Step(t, Receive(resp, from))
    requires t in states[i].sessions && states[i].sessions[t].phase.AwaitAborts?
    ensures resp == Aborted
    ensures var phase := states[i].sessions[t].phase;
            && phase.count == 1 + |phase.acked| && phase.acked <= Peers(nodes, t) && from in Peers(nodes, t) - phase.acked
            && t in states[i + 1].sessions
            && (states[i + 1].sessions[t].phase.Closed? <==> phase.acked + {from} == Peers(nodes, t))
  {
    RunAt(nodes, states, steps, i, t);
    RunStep(nodes, states, steps, i);
    AckStep(nodes, t, states[i].sessions[t], states[i].store.txs[t], states[i].store.objects, resp, from);
  }

  lemma AckStep(nodes: set<NodeId>, t: TransactionId, sess: Session, tx: S.Tx, objects: Table, resp: ClientResponse, from: NodeId)
    requires SessionInv(nodes, t, sess, tx, objects) && sess.phase.AwaitAborts? && Incoming(resp, from) in sess.flight
    ensures resp == Aborted && from in Peers(nodes, t) - sess.phase.acked
    ensures OnReceive(nodes, t, sess, objects, resp, from).session.phase.Closed? <==> sess.phase.acked + {from} == Peers(nodes, t)
  {
    assert AbortToken(nodes, t, sess, objects, Incoming(resp, from));
    PeersSize(nodes, t);
    if sess.phase.count + 1 >= |nodes| {
      SubsetOfSameSize(sess.phase.acked + {from}, Peers(nodes, t));
    }
  }

  /** No unwrap fails and no error branch of the coordinator ever runs, in any run. */
  lemma NoFaults(nodes: set<NodeId>, states: seq<State>, steps: seq<Step>, i: nat, t: TransactionId)
    requires IsRun(nodes, states, steps) && i <= |steps| && t in states[i].sessions
    ensures !states[i].sessions[t].fault
  {
    RunAt(nodes, states, steps, i, t);
  }

  /** After its client is reaped, nothing the server would hand to it is in flight; only installs may be. */
  lemma NoStrayMessages(nodes: set<NodeId>, states: seq<State>, steps: seq<Step>, i: nat, j: nat, t: TransactionId)
    requires IsRun(nodes, states, steps) && i <= j <= |steps|
    requires t in states[i].sessions && states[i].sessions[t].handle.None?
    ensures t in states[j].sessions && states[j].sessions[t].handle.None?
    ensures forall tok :: tok in states[j].sessions[t].flight ==>
              || (tok.Packet? && tok.msg == DoCommit && tok.dst in Peers(nodes, t))
              || (tok.Job? && tok.work.Install? && tok.node in Peers(nodes, t))
  {
    HandleStaysGone(nodes, states, steps, i, j, t);
    RunAt(nodes, states, steps, j, t);
    forall tok | tok in states[j].sessions[t].flight
      ensures (tok.Packet? && tok.msg == DoCommit && tok.dst in Peers(nodes, t)) || (tok.Job? && tok.work.Install? && tok.node in Peers(nodes, t))
    {
      assert TokenOk(nodes, t, states[j].sessions[t], states[j].store.txs[t], states[j].store.objects, tok);
    }
  }

  lemma {:induction false} HandleStaysGone(nodes: set<NodeId>, states: seq<State>, steps: seq<Step>, i: nat, j: nat, t: TransactionId)
    requires IsRun(nodes, states, steps) && i <= j <= |steps|
    requires t in states[i].sessions && states[i].sessions[t].handle.None?
    ensures t in states[j].sessions && states[j].sessions[t].handle.None?
  {
    if i < j {
      HandleStaysGone(nodes, states, steps, i, j - 1, t);
      RunGrows(nodes, states, steps, j - 1, t);
    }
  }

  // ----- requests and votes, in the order they come in

  /** The operations t's client asks for in these steps. */
  function AsksIn(steps: seq<Step>, t: TransactionId): seq<ClientRequest> {
    if steps == [] then []
    else
      var last := steps[|steps| - 1];
      AsksIn(steps[..|steps| - 1], t) + if last.tx == t then OpAsked(last) else []
  }

  /** The votes on t its server takes in in these steps. */
  function VotesIn(steps: seq<Step>, t: TransactionId): seq<Vote> {
    if steps == [] then []
    else
      var last := steps[|steps| - 1];
      VotesIn(steps[..|steps| - 1], t) + if last.tx == t then VoteIn(last) else []
  }

  lemma OneStepMore(steps: seq<Step>, t: TransactionId, i: nat)
    requires i < |steps|
    ensures AsksIn(steps[..i + 1], t) == AsksIn(steps[..i], t) + if steps[i].tx == t then OpAsked(steps[i]) else []
    ensures VotesIn(steps[..i + 1], t) == VotesIn(steps[..i], t) + if steps[i].tx == t then VoteIn(steps[i]) else []
  {
    assert steps[..i + 1][..i] == steps[..i];
  }

  /** The history of a session's requests is what its client asked for in the run. */
  lemma {:induction false} AskedInRun(nodes: set<NodeId>, states: seq<State>, steps: seq<Step>, i: nat, t: TransactionId)
    requires IsRun(nodes, states, steps) && i <= |steps|
    ensures AsksIn(steps[..i], t) == if t in states[i].sessions then states[i].sessions[t].asked else []
  {
    if i > 0 {
      AskedInRun(nodes, states, steps, i - 1, t);
      RunStep(nodes, states, steps, i - 1);
      RunGrows(nodes, states, steps, i - 1, t);
      OneStepMore(steps, t, i - 1);
    }
  }

  /** No peer's vote is among them twice, and the session's count, while it has one, is their tally. */
  ghost predicate CountedUp(nodes: set<NodeId>, s: State, t: TransactionId, votes: seq<Vote>) {
    && NobodyTwice(votes) && Senders(votes) <= Peers(nodes, t)
    && if t !in s.sessions then votes == []
       else s.sessions[t].handle.Some? ==> s.sessions[t].handle.value == Tallied(votes)
  }

  /** A vote taken in finds its client, and comes from a peer whose vote was not counted before. */
  lemma VoteServed(nodes: set<NodeId>, states: seq<State>, steps: seq<Step>, i: nat)
    requires IsRun(nodes, states, steps) && i < |steps| && VoteIn(steps[i]) != []
    ensures var t, v := steps[i].tx, VoteIn(steps[i])[0];
            && t in states[i].sessions && states[i].sessions[t].handle.Some?
            && v.from in Peers(nodes, t) - states[i].sessions[t].handle.value.voters
  {
    var t := steps[i].tx;
    RunStep(nodes, states, steps, i);
    RunAt(nodes, states, steps, i, t);
    VoteIsNew(nodes, t, states[i].sessions[t], states[i].store.txs[t], states[i].store.objects, steps[i].action.tok);
  }

  lemma TallyMore(votes: seq<Vote>, v: Vote, peers: set<NodeId>)
    requires NobodyTwice(votes) && Senders(votes) <= peers && v.from in peers - Tallied(votes).voters
    ensures NobodyTwice(votes + [v]) && Senders(votes + [v]) <= peers
    ensures Tallied(votes + [v]) == CountVote(Tallied(votes), v.from, v.status)
  {
    TallyMeans(votes);
    assert (votes + [v])[..|votes|] == votes;
    forall i, j | 0 <= i < j < |votes + [v]| ensures (votes + [v])[i].from != (votes + [v])[j].from {
      assert (votes + [v])[i] in votes;
    }
  }

  lemma CountStays(nodes: set<NodeId>, states: seq<State>, steps: seq<Step>, i: nat, t: TransactionId, votes: seq<Vote>)
    requires IsRun(nodes, states, steps) && i < |steps| && (steps[i].tx != t || VoteIn(steps[i]) == [])
    requires CountedUp(nodes, states[i], t, votes)
    ensures CountedUp(nodes, states[i + 1], t, votes)
  {
    RunGrows(nodes, states, steps, i, t);
    RunStep(nodes, states, steps, i);
  }

  lemma VoteTaken(nodes: set<NodeId>, states: seq<State>, steps: seq<Step>, i: nat, t: TransactionId, votes: seq<Vote>)
    requires IsRun(nodes, states, steps) && i < |steps| && steps[i].tx == t && VoteIn(steps[i]) != []
    requires CountedUp(nodes, states[i], t, votes)
    ensures CountedUp(nodes, states[i + 1], t, votes + VoteIn(steps[i]))
  {
    VoteServed(nodes, states, steps, i);
    RunGrows(nodes, states, steps, i, t);
    assert VoteIn(steps[i]) == [VoteIn(steps[i])[0]];
    TallyMore(votes, VoteIn(steps[i])[0], Peers(nodes, t));
  }

  lemma CountStep(nodes: set<NodeId>, states: seq<State>, steps: seq<Step>, i: nat, t: TransactionId)
    requires IsRun(nodes, states, steps) && i < |steps| && CountedUp(nodes, states[i], t, VotesIn(steps[..i], t))
    ensures CountedUp(nodes, states[i + 1], t, VotesIn(steps[..i + 1], t))
  {
    var votes := VotesIn(steps[..i], t);
    OneStepMore(steps, t, i);
    if steps[i].tx == t && VoteIn(steps[i]) != [] {
      VoteTaken(nodes, states, steps, i, t, votes);
    } else {
      CountStays(nodes, states, steps, i, t, votes);
      assert votes + [] == votes;
    }
  }

  /** In every run no peer's vote on t is taken in twice, and the server's entry is the tally of the votes. */
  lemma {:induction false} VotesInRun(nodes: set<NodeId>, states: seq<State>, steps: seq<Step>, i: nat, t: TransactionId)
    requires IsRun(nodes, states, steps) && i <= |steps|
    ensures CountedUp(nodes, states[i], t, VotesIn(steps[..i], t))
  {
    if i > 0 {
      VotesInRun(nodes, states, steps, i - 1, t);
      CountStep(nodes, states, steps, i - 1, t);
    }
  }

  /**
   * The server counts replies and not senders, yet in every run the client is told CommitOk exactly
   * when one Ready vote of every peer has come in, and Aborted exactly when all have voted, not all Ready.
   */
  lemma VerdictIsQuorum(nodes: set<NodeId>, states: seq<State>, steps: seq<Step>, i: nat, t: TransactionId)
    requires IsRun(nodes, states, steps) && i <= |steps| && t in states[i].sessions && states[i].sessions[t].handle.Some?
    ensures var votes, verdict := VotesIn(steps[..i], t), Tally(states[i].sessions[t].handle.value, |Peers(nodes, t)|);
            && (verdict == S.Some(CommitOk) <==> AllReady(votes) && Senders(votes) == Peers(nodes, t))
            && (verdict == S.Some(Aborted) <==> !AllReady(votes) && Senders(votes) == Peers(nodes, t))
  {
    VotesInRun(nodes, states, steps, i, t);
    CountIsQuorum(VotesIn(steps[..i], t), Peers(nodes, t));
  }

  // ----- erasure

  lemma {:induction false} RunNoHusks(nodes: set<NodeId>, states: seq<State>, steps: seq<Step>, i: nat)
    requires IsRun(nodes, states, steps) && i <= |steps|
    ensures NoHusks(states[i].store.objects)
  {
    if i > 0 {
      RunNoHusks(nodes, states, steps, i - 1);
      RunInv(nodes, states, steps, i - 1);
      var e := RunEffect(nodes, states, steps, i - 1);
      if e.event.Some? { S.NoHusksKept(states[i - 1].store, e.event.value); }
    }
  }

  /**
   * Abort erases, in every state of every run: whatever reads and writes a transaction with no entry on
   * a shard makes there, its abort gives back the shard as it was.
   */
  lemma AbortErases(nodes: set<NodeId>, states: seq<State>, steps: seq<Step>, i: nat, t: TransactionId, p: NodeId, accesses: seq<Access>)
    requires IsRun(nodes, states, steps) && i <= |steps| && !t.IsDefault() && Absent(states[i].store.objects, t, p)
    requires forall a :: a in accesses ==> a.key.shard == p
    ensures Erased(AfterAccesses(states[i].store.objects, t, accesses), t, p) == states[i].store.objects
  {
    RunNoHusks(nodes, states, steps, i);
    AbortRestores(states[i].store.objects, t, accesses, p);
  }

  // ----- waiting

  /** Some job of t is parked until u is resolved. */
  ghost predicate WaitsOn(s: State, t: TransactionId, u: TransactionId) {
    t in s.sessions && exists tok :: tok in s.sessions[t].flight && tok.Job? && tok.parked == S.Some(u)
  }

  ghost predicate Blocked(s: State, t: TransactionId) {
    exists u :: WaitsOn(s, t, u)
  }

  lemma WaitsAreOlder(s: State, t: TransactionId, u: TransactionId)
    requires Inv(s) && WaitsOn(s, t, u)
    ensures u.Lt(t)
  {
    var sess := s.sessions[t];
    var tok :| tok in sess.flight && tok.Job? && tok.parked == S.Some(u);
    assert At(s, t);
    assert TokenOk(s.nodes, t, sess, s.store.txs[t], s.store.objects, tok);
  }

  ghost predicate WaitPath(s: State, path: seq<TransactionId>) {
    forall n :: 0 <= n < |path| - 1 ==> WaitsOn(s, path[n], path[n + 1])
  }

  lemma {:induction false} PathDescends(s: State, path: seq<TransactionId>)
    requires forall t, u :: WaitsOn(s, t, u) ==> u.Lt(t)
    requires |path| >= 2 && WaitPath(s, path)
    ensures path[|path| - 1].Lt(path[0])
  {
    assert WaitsOn(s, path[|path| - 2], path[|path| - 1]);
    if |path| > 2 {
      var init := path[..|path| - 1];
      forall n | 0 <= n < |init| - 1 ensures WaitsOn(s, init[n], init[n + 1]) {
        assert WaitsOn(s, path[n], path[n + 1]);
      }
      PathDescends(s, init);
    }
  }

  /** Following waits only ever leads to older transactions, so the cluster-wide wait graph has no cycle. */
  lemma NoWaitCycle(nodes: set<NodeId>, states: seq<State>, steps: seq<Step>, i: nat, path: seq<TransactionId>)
    requires IsRun(nodes, states, steps) && i <= |steps|
    requires |path| >= 2 && WaitPath(states[i], path)
    ensures path[|path| - 1].Lt(path[0]) && path[|path| - 1] != path[0]
  {
    RunInv(nodes, states, steps, i);
    forall t, u | WaitsOn(states[i], t, u) ensures u.Lt(t) { WaitsAreOlder(states[i], t, u); }
    PathDescends(states[i], path);
  }

  /** The oldest blocked transaction waits only on unblocked ones. */
  lemma OldestBlockedCanGo(nodes: set<NodeId>, states: seq<State>, steps: seq<Step>, i: nat, t: TransactionId) returns (oldest: TransactionId)
    requires IsRun(nodes, states, steps) && i <= |steps| && Blocked(states[i], t)
    ensures Blocked(states[i], oldest)
    ensures forall u :: WaitsOn(states[i], oldest, u) ==> u.Lt(oldest) && !Blocked(states[i], u)
  {
    RunInv(nodes, states, steps, i);
    var s := states[i];
    var blocked := set u | u in s.sessions && Blocked(s, u);
    assert t in blocked;
    oldest := Oldest(blocked);
    forall u | WaitsOn(s, oldest, u) ensures u.Lt(oldest) && !Blocked(s, u) {
      WaitsAreOlder(s, oldest, u);
      assert u !in blocked;
    }
  }
}

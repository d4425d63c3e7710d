/** Every error a client is told, and every wait, has its cause earlier in the run. */
module Causes {
  import opened TransactionIds
  import opened Objects
  import opened Ledger
  import opened Tables
  import S = Store
  import opened Protocol
  import opened Coordination
  import opened CoordinationSteps
  import opened Cluster
  import opened Progress
  import opened Deliveries
  import opened Transactions
  import opened Answers
  import I = Isolation

  // ----- errors have causes

  /** In this step t is refused, or asks for it, in a way that the client is told by resp. */
  ghost predicate Refuses(nodes: set<NodeId>, s: State, st: Step, t: TransactionId, resp: ClientResponse) {
    && st.tx == t
    && match st.action
       case Ask(Abort) => resp == Aborted
       case Ask(WriteBalance(a, _)) => resp == AbortedNotFound && Unrouted(a, nodes)
       case Ask(ReadBalance(a)) => resp == AbortedNotFound && Unrouted(a, nodes)
       case Act(Job(p, Query(a), _), Go) =>
         (resp == AbortedNotFound && Key(p, a) !in s.store.objects) || (resp == Aborted && Stale(s.store, t, Key(p, a)))
       case Act(Job(p, Fetch(a, _), _), Go) => resp == Aborted && Stale(s.store, t, Key(p, a))
       case Act(Job(_, PutBack(put), _), Go) =>
         || (resp == AbortedNotFound && put.key !in s.store.objects && put.Amount() < 0)
         || (resp == Aborted && Shut(s.store, t, put.key))
       case Act(Job(_, Check(_), _), Visit(k)) => resp == Aborted && Overdraws(s.store.objects, t, k)
       case _ => false
  }

  /** A token that will end in an abort of the commit. */
  predicate Negative(phase: Phase, tok: Token) {
    || (tok.Job? && tok.work.Check? && tok.work.scan.failed)
    || (tok.Packet? && tok.msg == TwoPhaseCommitStatus(CannotCommit))
    || (phase == AwaitVotes && tok.Incoming? && tok.resp == Aborted)
  }

  ghost predicate Doomed(sess: Session) {
    || (sess.handle.Some? && sess.handle.value.status == CannotCommit)
    || exists tok :: tok in sess.flight && Negative(sess.phase, tok)
  }

  ghost predicate Pronounced(phase: Phase, resp: ClientResponse) {
    phase == Aborting(resp) || (phase.AwaitAborts? && phase.resp == resp) || phase == Closed(S.Some(resp))
  }

  predicate Brings(tok: Token, resp: ClientResponse) {
    (tok.Incoming? && tok.resp == resp) || (tok.Packet? && tok.msg == Response(resp))
  }

  /** The client has been told resp, or is going to be. */
  ghost predicate Carries(sess: Session, resp: ClientResponse) {
    && resp.IsErr()
    && (|| Pronounced(sess.phase, resp)
        || (sess.phase == AwaitReply && exists tok :: tok in sess.flight && Brings(tok, resp))
        || (resp == Aborted && Doomed(sess)))
  }

  lemma AskCause(s: State, t: TransactionId, req: ClientRequest, resp: ClientResponse)
    requires At(s, t) && Enabled(s, Step(t, Ask(req))) && Carries(EffectOf(s, Step(t, Ask(req))).session, resp)
    ensures Refuses(s.nodes, s, Step(t, Ask(req)), t, resp)
  {
    assert forall x :: x !in s.sessions[t].flight;
    if req.WriteBalance? || req.ReadBalance? { Routing(req.account, t.coordinator, s.nodes); }
  }

  /** A token that is replaced by others that say no worse tells the client nothing new. */
  lemma SwapCause(sess: Session, tok: Token, news: multiset<Token>, resp: ClientResponse)
    requires Carries(Swap(sess, tok, news), resp) && tok in sess.flight
    requires forall x :: x in news && sess.phase == AwaitReply && Brings(x, resp) ==> Brings(tok, resp)
    requires forall x :: x in news && Negative(sess.phase, x) ==> Negative(sess.phase, tok)
    ensures Carries(sess, resp)
  {
    var sess' := Swap(sess, tok, news);
    if !Pronounced(sess.phase, resp) {
      if sess.phase == AwaitReply && exists x :: x in sess'.flight && Brings(x, resp) {
        var x :| x in sess'.flight && Brings(x, resp);
        assert x in sess.flight || x in news;
      } else if !(sess.handle.Some? && sess.handle.value.status == CannotCommit) {
        var x :| x in sess'.flight && Negative(sess.phase, x);
        assert x in sess.flight || x in news;
      }
    }
  }

  lemma ReplyCause(nodes: set<NodeId>, t: TransactionId, sess: Session, objects: Table, got: ClientResponse, from: NodeId, resp: ClientResponse)
    requires sess.phase == AwaitReply && Incoming(got, from) in sess.flight && forall x :: x in sess.flight ==> x == Incoming(got, from)
    requires Carries(OnReceive(nodes, t, sess, objects, got, from).session, resp)
    ensures Carries(sess, resp)
  {
    assert Brings(Incoming(got, from), got);
  }

  lemma WaitedVerdictCause(nodes: set<NodeId>, t: TransactionId, sess: Session, objects: Table, got: ClientResponse, from: NodeId, resp: ClientResponse)
    requires sess.phase == AwaitVotes && Incoming(got, from) in sess.flight && (got == CommitOk || got == Aborted)
    requires Carries(OnReceive(nodes, t, sess, objects, got, from).session, resp)
    ensures Carries(sess, resp)
  {
    var sess' := OnReceive(nodes, t, sess, objects, got, from).session;
    assert Negative(sess.phase, Incoming(Aborted, from));
    if got == CommitOk && !(sess.handle.Some? && sess.handle.value.status == CannotCommit) {
      var x :| x in sess'.flight && Negative(sess'.phase, x);
      assert x in sess.flight && Negative(sess.phase, x);
    }
  }

  lemma AckCause(nodes: set<NodeId>, t: TransactionId, sess: Session, objects: Table, got: ClientResponse, from: NodeId, resp: ClientResponse)
    requires sess.phase.AwaitAborts? && Incoming(got, from) in sess.flight
    requires Carries(OnReceive(nodes, t, sess, objects, got, from).session, resp)
    ensures Carries(sess, resp)
  {
    var sess' := OnReceive(nodes, t, sess, objects, got, from).session;
    if !Pronounced(sess'.phase, resp) && !(sess.handle.Some? && sess.handle.value.status == CannotCommit) {
      var x :| x in sess'.flight && Negative(sess'.phase, x);
      assert x in sess.flight && Negative(sess.phase, x);
    }
  }

  lemma ReceiveCause(s: State, t: TransactionId, got: ClientResponse, from: NodeId, resp: ClientResponse)
    requires At(s, t) && Enabled(s, Step(t, Receive(got, from))) && Carries(EffectOf(s, Step(t, Receive(got, from))).session, resp)
    ensures Carries(s.sessions[t], resp)
  {
    var sess := s.sessions[t];
    match sess.phase
    case AwaitReply => ReplyCause(s.nodes, t, sess, s.store.objects, got, from, resp);
    case AwaitVotes =>
      VerdictToken(s.nodes, t, sess, s.store.txs[t], s.store.objects, Incoming(got, from));
      WaitedVerdictCause(s.nodes, t, sess, s.store.objects, got, from, resp);
    case AwaitAborts(_, _, _) => AckCause(s.nodes, t, sess, s.store.objects, got, from, resp);
  }

  /** Two ready votes make no negative token. */
  lemma ReadyCause(nodes: set<NodeId>, t: TransactionId, sess: Session, tok: Token, h: Handle)
    requires sess.phase == AwaitVotes && h.status == ReadyToCommit
    requires exists x :: x in Swap(sess, tok, VerdictNews(nodes, t, Tally(h, |Peers(nodes, t)|))).flight && Negative(AwaitVotes, x)
    ensures Doomed(sess)
  {
    var news := VerdictNews(nodes, t, Tally(h, |Peers(nodes, t)|));
    var x :| x in Swap(sess, tok, news).flight && Negative(AwaitVotes, x);
    Broadcasted(t, nodes, DoCommit);
    assert x !in news && x in sess.flight;
  }

  lemma VoteCause(nodes: set<NodeId>, t: TransactionId, sess: Session, tok: Token, resp: ClientResponse)
    requires sess.phase == AwaitVotes && sess.handle.Some? && tok in sess.flight && tok.Packet? && tok.msg.TwoPhaseCommitStatus?
    requires Carries(OnVote(nodes, t, sess, tok).session, resp)
    ensures Carries(sess, resp)
  {
    VoteNews(nodes, t, sess, tok);
    if sess.handle.value.status == ReadyToCommit && tok.msg.status == ReadyToCommit {
      ReadyCause(nodes, t, sess, tok, CountVote(sess.handle.value, tok.src, tok.msg.status));
    } else {
      assert tok.msg.status == CannotCommit ==> Negative(sess.phase, tok);
    }
  }

  lemma JobCause(sess: Session, tok: Token, job: Token, resp: ClientResponse)
    requires tok in sess.flight && job.Job? && (job.work.Check? ==> !job.work.scan.failed) && Carries(Swap(sess, tok, multiset{job}), resp)
    ensures Carries(sess, resp)
  {
    SwapCause(sess, tok, multiset{job}, resp);
  }

  lemma ResponseCause(sess: Session, tok: Token, got: ClientResponse, from: NodeId, resp: ClientResponse)
    requires tok in sess.flight && tok.Packet? && tok.msg == Response(got) && sess.phase != AwaitVotes
    requires Carries(Swap(sess, tok, multiset{Incoming(got, from)}), resp)
    ensures Carries(sess, resp)
  {
    SwapCause(sess, tok, multiset{Incoming(got, from)}, resp);
  }

  lemma PacketCause(nodes: set<NodeId>, t: TransactionId, sess: Session, objects: Table, tok: Token, resp: ClientResponse)
    requires tok in sess.flight && tok.Packet? && !tok.msg.TwoPhaseCommitStatus? && (tok.msg.Response? ==> sess.phase != AwaitVotes && sess.handle.Some?)
    requires Carries(OnServe(nodes, t, sess, objects, tok).session, resp)
    ensures Carries(sess, resp)
  {
    match tok.msg
    case Request(req) => JobCause(sess, tok, Job(tok.dst, WorkFor(req, objects, tok.dst), S.None), resp);
    case Response(got) => ResponseCause(sess, tok, got, tok.src, resp);
    case DoCommit => JobCause(sess, tok, Job(tok.dst, Install(FreshScan(objects, tok.dst)), S.None), resp);
  }

  lemma ResponsePhase(nodes: set<NodeId>, t: TransactionId, sess: Session, tx: S.Tx, objects: Table, tok: Token)
    requires SessionInv(nodes, t, sess, tx, objects) && tok in sess.flight && tok.Packet? && tok.msg.Response?
    ensures sess.phase != AwaitVotes && sess.handle.Some?
  {
    assert TokenOk(nodes, t, sess, tx, objects, tok);
  }

  lemma BroadcastCause(nodes: set<NodeId>, t: TransactionId, sess: Session, req: ClientRequest, resp: ClientResponse)
    requires Forward(Broadcast, req) in sess.flight && Carries(Swap(sess, Forward(Broadcast, req), Bcast(t, nodes, Request(req))), resp)
    ensures Carries(sess, resp)
  {
    Broadcasted(t, nodes, Request(req));
    SwapCause(sess, Forward(Broadcast, req), Bcast(t, nodes, Request(req)), resp);
  }

  lemma ReapedCause(sess: Session, resp: ClientResponse)
    requires Finished in sess.flight && Carries(Swap(sess, Finished, multiset{}).(handle := S.None), resp)
    ensures Carries(sess, resp)
  {
    var gone := Swap(sess, Finished, multiset{});
    assert Doomed(gone.(handle := S.None)) ==> Doomed(gone);
    SwapCause(sess, Finished, multiset{}, resp);
  }

  lemma ForwardCause(nodes: set<NodeId>, t: TransactionId, sess: Session, objects: Table, tok: Token, resp: ClientResponse)
    requires tok in sess.flight && (tok.Forward? || tok.Finished?) && Carries(OnServe(nodes, t, sess, objects, tok).session, resp)
    ensures Carries(sess, resp)
  {
    match tok
    case Forward(Node(p), req) => SwapCause(sess, tok, multiset{Packet(t.coordinator, p, Request(req))}, resp);
    case Forward(Broadcast, req) => BroadcastCause(nodes, t, sess, req, resp);
    case Finished => ReapedCause(sess, resp);
  }

  lemma ServeCause(s: State, t: TransactionId, tok: Token, resp: ClientResponse)
    requires At(s, t) && Enabled(s, Step(t, Serve(tok))) && Carries(EffectOf(s, Step(t, Serve(tok))).session, resp)
    ensures Carries(s.sessions[t], resp)
  {
    var sess := s.sessions[t];
    if !tok.Packet? {
      ForwardCause(s.nodes, t, sess, s.store.objects, tok, resp);
    } else if tok.msg.TwoPhaseCommitStatus? {
      VoteIsNew(s.nodes, t, sess, s.store.txs[t], s.store.objects, tok);
      VoteCause(s.nodes, t, sess, tok, resp);
    } else {
      if tok.msg.Response? { ResponsePhase(s.nodes, t, sess, s.store.txs[t], s.store.objects, tok); }
      PacketCause(s.nodes, t, sess, s.store.objects, tok, resp);
    }
  }

  // ----- ... of jobs

  lemma WakeCause(sess: Session, job: Token, resp: ClientResponse)
    requires job in sess.flight && job.Job? && Carries(Swap(sess, job, multiset{job.(parked := S.None)}), resp)
    ensures Carries(sess, resp)
  {
    SwapCause(sess, job, multiset{job.(parked := S.None)}, resp);
  }

  lemma EraseCause(t: TransactionId, sess: Session, job: Token, resp: ClientResponse)
    requires job in sess.flight && job.Job? && sess.phase.AwaitAborts? && Carries(Finishes(t, sess, job, Aborted), resp)
    ensures Carries(sess, resp)
  {
    SwapCause(sess, job, multiset{Answer(t, job.node, Aborted)}, resp);
  }

  lemma VisitCause(nodes: set<NodeId>, t: TransactionId, s: State, sess: Session, job: Token, k: Key, resp: ClientResponse)
    requires job in sess.flight && job.Job? && job.work.Check? && Carries(OnCheck(t, sess, s.store.objects, job, Visit(k)).session, resp)
    ensures Carries(sess, resp) || (resp == Aborted && Overdraws(s.store.objects, t, k))
  {
    var scan := CheckReports(t, sess, s.store.objects, job, k);
    if !Overdraws(s.store.objects, t, k) {
      SwapCause(sess, job, multiset{Job(job.node, Check(scan), S.None)}, resp);
    } else if resp != Aborted {
      UndoomedCause(sess, job, multiset{Job(job.node, Check(scan), S.None)}, resp);
    }
  }

  /** Only Aborted is told because of votes. */
  lemma UndoomedCause(sess: Session, tok: Token, news: multiset<Token>, resp: ClientResponse)
    requires Carries(Swap(sess, tok, news), resp) && tok in sess.flight && resp != Aborted && forall x :: x in news ==> !Brings(x, resp)
    ensures Carries(sess, resp)
  {
    if !Pronounced(sess.phase, resp) {
      var x :| x in Swap(sess, tok, news).flight && Brings(x, resp);
      assert x in sess.flight;
    }
  }

  lemma FailCause(sess: Session, job: Token)
    requires job in sess.flight && job.Job? && job.work.Check? && job.work.scan.failed
    ensures Carries(sess, Aborted)
  {
    assert Negative(sess.phase, job);
  }

  lemma FailTellsAborted(t: TransactionId, sess: Session, objects: Table, job: Token, resp: ClientResponse)
    requires job.Job? && job.work.Check? && (sess.phase == Checking || sess.phase == AwaitVotes)
    requires Carries(OnCheck(t, sess, objects, job, Fail).session, resp)
    ensures resp == Aborted
  {
  }

  lemma CheckCause(nodes: set<NodeId>, t: TransactionId, s: State, sess: Session, job: Token, choice: Choice, resp: ClientResponse)
    requires job in sess.flight && job.Job? && job.parked.None? && job.work.Check? && ScanReady(job.work.scan, choice)
    requires if job.node == t.coordinator then sess.phase == Checking && forall x :: x in sess.flight ==> x == job else sess.phase == AwaitVotes
    requires sess.flight[job] == 1 && Carries(OnCheck(t, sess, s.store.objects, job, choice).session, resp)
    ensures Carries(sess, resp) || Refuses(nodes, s, Step(t, Act(job, choice)), t, resp)
  {
    match choice
    case Visit(k) => VisitCause(nodes, t, s, sess, job, k, resp);
    case Retry(u) => JobCause(sess, job, Job(job.node, Check(FreshScan(s.store.objects, job.node)), S.Some(u)), resp);
    case Finish => CheckFinishCause(t, sess, s.store.objects, job, resp);
    case Fail =>
      FailTellsAborted(t, sess, s.store.objects, job, resp);
      FailCause(sess, job);
  }

  lemma CheckFinishCause(t: TransactionId, sess: Session, objects: Table, job: Token, resp: ClientResponse)
    requires job in sess.flight && job.Job? && job.work.Check? && sess.flight[job] == 1
    requires if job.node == t.coordinator then sess.phase == Checking && forall x :: x in sess.flight ==> x == job else sess.phase == AwaitVotes
    requires Carries(OnCheck(t, sess, objects, job, Finish).session, resp)
    ensures Carries(sess, resp)
  {
    var sess' := OnCheck(t, sess, objects, job, Finish).session;
    if job.node == t.coordinator {
      RemovedLast(sess.flight, job);
      assert sess'.flight == multiset{} + multiset{} + multiset{Forward(Broadcast, Commit)};
      assert forall x :: x in sess'.flight ==> !Negative(AwaitVotes, x);
    } else {
      var vote, ready := Packet(job.node, t.coordinator, TwoPhaseCommitStatus(ReadyToCommit)), sess.(passed := sess.passed + {job.node});
      SwapCause(ready, job, multiset{vote}, resp);
      assert Doomed(ready) ==> Doomed(sess);
    }
  }

  lemma InstallCause(nodes: set<NodeId>, t: TransactionId, s: State, sess: Session, job: Token, choice: Choice, resp: ClientResponse)
    requires job in sess.flight && job.Job? && job.work.Install? && ScanReady(job.work.scan, choice)
    requires Carries(OnInstall(t, sess, s.store.objects, job, choice).session, resp)
    requires sess.phase == AwaitVotes || sess.phase == Committing || sess.phase == Closed(S.Some(CommitOk))
    requires job.node == t.coordinator ==> sess.phase == Committing
    ensures Carries(sess, resp)
  {
    match choice
    case Visit(k) =>
      var scan := InstallVisitSwaps(t, sess, s.store.objects, job, k);
      SwapCause(sess, job, multiset{Job(job.node, Install(scan), S.None)}, resp);
    case Retry(u) => SwapCause(sess, job, multiset{Job(job.node, Install(FreshScan(s.store.objects, job.node)), S.Some(u))}, resp);
    case _ => InstallEndCause(t, sess, s.store.objects, job, choice, resp);
  }

  lemma InstallEndCause(t: TransactionId, sess: Session, objects: Table, job: Token, choice: Choice, resp: ClientResponse)
    requires job in sess.flight && job.Job? && job.work.Install? && !choice.Visit? && !choice.Retry?
    requires sess.phase == AwaitVotes || sess.phase == Committing || sess.phase == Closed(S.Some(CommitOk))
    requires job.node == t.coordinator ==> sess.phase == Committing
    requires Carries(OnInstall(t, sess, objects, job, choice).session, resp)
    ensures Carries(sess, resp)
  {
    var rest := Swap(sess, job, multiset{});
    if job.node == t.coordinator {
      var sess' := OnInstall(t, sess, objects, job, choice).session;
      assert sess'.flight == rest.flight + multiset{Finished} && sess'.phase == Closed(S.Some(CommitOk));
      assert Doomed(sess') ==> Doomed(rest);
    } else {
      assert Doomed(OnInstall(t, sess, objects, job, choice).session) ==> Doomed(rest);
    }
    SwapCause(sess, job, multiset{}, resp);
  }

  /** An operation answered with an error was refused. */
  lemma OpCause(nodes: set<NodeId>, s: State, t: TransactionId, job: Token, resp: ClientResponse)
    requires At(s, t) && I.Inv(s.store) && Enabled(s, Step(t, Act(job, Go))) && Attempts(job)
    requires Carries(EffectOf(s, Step(t, Act(job, Go))).session, resp)
    ensures Refuses(nodes, s, Step(t, Act(job, Go)), t, resp)
  {
    var after := OpLeaves(t, s.store.objects, job);
    OpAlone(s, t, job);
    OpSwaps(t, s.sessions[t], s.store.objects, job);
    OpLeavesOther(t, s.store.objects, job);
    OnlyAfter(s.sessions[t], job, after);
    ErrorBrought(Swap(s.sessions[t], job, multiset{after}), after, resp);
    RefusedOp(nodes, s, t, job, resp);
  }

  lemma RefusedOp(nodes: set<NodeId>, s: State, t: TransactionId, job: Token, resp: ClientResponse)
    requires I.Inv(s.store) && t in s.store.txs && s.store.txs[t].status == S.Running && Attempts(job)
    requires Brings(OpLeaves(t, s.store.objects, job), resp) && resp.IsErr()
    ensures Refuses(nodes, s, Step(t, Act(job, Go)), t, resp)
  {
    match job.work
    case Query(a) => if Key(job.node, a) in s.store.objects { ReadsExactly(s.store, t, Key(job.node, a)); }
    case Fetch(a, _) => if Key(job.node, a) in s.store.objects { ReadsExactly(s.store, t, Key(job.node, a)); }
    case PutBack(put) => PutsExactly(s.store, t, put.key, put.Amount());
  }

  lemma OpAlone(s: State, t: TransactionId, job: Token)
    requires At(s, t) && job in s.sessions[t].flight && Attempts(job)
    ensures s.sessions[t].phase == AwaitReply && s.store.txs[t].status == S.Running && s.sessions[t].flight[job] == 1
    ensures s.sessions[t].handle == S.Some(NEW_HANDLE) && forall x :: x in s.sessions[t].flight ==> x == job
  {
    assert TokenOk(s.nodes, t, s.sessions[t], s.store.txs[t], s.store.objects, job);
  }

  lemma OnlyAfter(sess: Session, job: Token, after: Token)
    requires sess.flight[job] == 1 && forall x :: x in sess.flight ==> x == job
    ensures forall x :: x in Swap(sess, job, multiset{after}).flight <==> x == after
  {
    RemovedLast(sess.flight, job);
  }

  lemma ErrorBrought(sess: Session, after: Token, resp: ClientResponse)
    requires sess.phase == AwaitReply && sess.handle == S.Some(NEW_HANDLE) && (forall x :: x in sess.flight <==> x == after)
    requires !Negative(AwaitReply, after) && Carries(sess, resp)
    ensures resp.IsErr() && Brings(after, resp)
  {
  }

  lemma ActCause(s: State, t: TransactionId, job: Token, choice: Choice, resp: ClientResponse)
    requires At(s, t) && I.Inv(s.store) && Enabled(s, Step(t, Act(job, choice)))
    requires Carries(EffectOf(s, Step(t, Act(job, choice))).session, resp)
    ensures Carries(s.sessions[t], resp) || Refuses(s.nodes, s, Step(t, Act(job, choice)), t, resp)
  {
    var sess, tx, objects := s.sessions[t], s.store.txs[t], s.store.objects;
    if job.parked.Some? {
      WakeCause(sess, job, resp);
    } else if job.work.Check? {
      CheckPhase(s.nodes, t, sess, tx, objects, job);
      if job.node == t.coordinator { LocalCheckAlone(s.nodes, t, sess, tx, objects, job); }
      CheckCause(s.nodes, t, s, sess, job, choice, resp);
    } else if job.work.Install? {
      InstallIsDecided(s.nodes, t, sess, tx, objects, job);
      InstallCause(s.nodes, t, s, sess, job, choice, resp);
    } else if job.work.Erase? {
      ErasePhase(s.nodes, t, sess, tx, objects, job);
      EraseCause(t, sess, job, resp);
    } else {
      OpCause(s.nodes, s, t, job, resp);
    }
  }

  lemma LocalCheckAlone(nodes: set<NodeId>, t: TransactionId, sess: Session, tx: S.Tx, objects: Table, job: Token)
    requires SessionInv(nodes, t, sess, tx, objects) && sess.phase == Checking && job in sess.flight
    ensures forall x :: x in sess.flight ==> x == job
  {
    forall x | x in sess.flight ensures x == job {
      assert TokenOk(nodes, t, sess, tx, objects, x) && TokenOk(nodes, t, sess, tx, objects, job);
      assert Slot(t, x) == Slot(t, job);
    }
  }

  lemma ErasePhase(nodes: set<NodeId>, t: TransactionId, sess: Session, tx: S.Tx, objects: Table, job: Token)
    requires SessionInv(nodes, t, sess, tx, objects) && job in sess.flight && job.Job? && job.work.Erase?
    ensures sess.phase.AwaitAborts?
  {
    assert TokenOk(nodes, t, sess, tx, objects, job);
  }

  lemma LaunchCause(s: State, st: Step, resp: ClientResponse)
    requires Enabled(s, st) && (st.action.Hangup? || st.action.AbortLocally?) && Carries(EffectOf(s, st).session, resp)
    ensures Carries(s.sessions[st.tx], resp)
  {
    var sess, sess' := s.sessions[st.tx], EffectOf(s, st).session;
    if !Pronounced(sess'.phase, resp) && !(sess.handle.Some? && sess.handle.value.status == CannotCommit) {
      var x :| x in sess'.flight && Negative(sess'.phase, x);
      assert x in sess.flight && Negative(sess.phase, x);
    }
  }

  /** An error on its way was on its way before, or the step refused. */
  lemma StepCause(s: State, st: Step, resp: ClientResponse)
    requires Inv(s) && I.Inv(s.store) && Enabled(s, st) && Carries(EffectOf(s, st).session, resp)
    ensures (st.tx in s.sessions && Carries(s.sessions[st.tx], resp)) || Refuses(s.nodes, s, st, st.tx, resp)
  {
    var t := st.tx;
    assert t in s.sessions ==> At(s, t);
    match st.action
    case Connect =>
    case Ask(req) => AskCause(s, t, req, resp);
    case Receive(got, from) => ReceiveCause(s, t, got, from, resp);
    case Serve(tok) => ServeCause(s, t, tok, resp);
    case Act(job, choice) => ActCause(s, t, job, choice, resp);
    case _ => LaunchCause(s, st, resp);
  }

  lemma RunCause(nodes: set<NodeId>, states: seq<State>, steps: seq<Step>, i: nat, t: TransactionId, resp: ClientResponse)
    requires IsRun(nodes, states, steps) && i < |steps| && t in states[i + 1].sessions && Carries(states[i + 1].sessions[t], resp)
    ensures (t in states[i].sessions && Carries(states[i].sessions[t], resp)) || Refuses(nodes, states[i], steps[i], t, resp)
  {
    RunInv(nodes, states, steps, i);
    DataInv(nodes, states, steps, i);
    RunStep(nodes, states, steps, i);
    if t == steps[i].tx { StepCause(states[i], steps[i], resp); }
  }

  /**
   * Every error has its cause: an error that a client is told, or is going to be told, goes back to an
   * earlier step of the run in which its transaction was refused in a way that calls for just that error.
   */
  lemma {:induction false} ErrorsHaveCauses(nodes: set<NodeId>, states: seq<State>, steps: seq<Step>, i: nat, t: TransactionId, resp: ClientResponse) returns (j: nat)
    requires IsRun(nodes, states, steps) && i <= |steps| && t in states[i].sessions && Carries(states[i].sessions[t], resp)
    ensures j < i && Refuses(nodes, states[j], steps[j], t, resp)
  {
    assert i > 0;
    RunCause(nodes, states, steps, i - 1, t, resp);
    if Refuses(nodes, states[i - 1], steps[i - 1], t, resp) {
      j := i - 1;
    } else {
      j := ErrorsHaveCauses(nodes, states, steps, i - 1, t, resp);
    }
  }

  /**
   * What a client is told last: CommitOk exactly for a committed transaction, and otherwise an error, with
   * its cause, for an aborted one.
   */
  lemma LastWord(nodes: set<NodeId>, states: seq<State>, steps: seq<Step>, i: nat, t: TransactionId, resp: ClientResponse) returns (j: nat)
    requires IsRun(nodes, states, steps) && i <= |steps| && t in states[i].sessions && states[i].sessions[t].phase == Closed(S.Some(resp))
    ensures resp == CommitOk <==> HasStatus(states[i], t, S.Committed)
    ensures resp.IsErr() <==> HasStatus(states[i], t, S.Aborted)
    ensures resp != CommitOk ==> j < i && Refuses(nodes, states[j], steps[j], t, resp)
  {
    RunAt(nodes, states, steps, i, t);
    j := 0;
    if resp != CommitOk { j := ErrorsHaveCauses(nodes, states, steps, i, t, resp); }
  }

  // ----- waits have causes

  /** In this step t finds u in front of it: the newest older writer for a read, the oldest writer for a check or install. */
  ghost predicate Hinders(s: State, st: Step, t: TransactionId, u: TransactionId) {
    && st.tx == t
    && match st.action
       case Act(Job(p, Query(a), _), Go) => InFront(s.store, t, Key(p, a), u)
       case Act(Job(p, Fetch(a, _), _), Go) => InFront(s.store, t, Key(p, a), u)
       case Act(Job(_, Check(_), _), Visit(k)) => Behind(s.store.objects, t, k, u)
       case Act(Job(_, Install(_), _), Visit(k)) => Behind(s.store.objects, t, k, u)
       case _ => false
  }

  /** A job that is parked on u, or has met u on its scan. */
  predicate Minds(tok: Token, u: TransactionId) {
    tok.Job? && (tok.parked == S.Some(u) || ((tok.work.Check? || tok.work.Install?) && u in tok.work.scan.waits))
  }

  ghost predicate AnyMinds(sess: Session, u: TransactionId) {
    exists tok :: tok in sess.flight && Minds(tok, u)
  }

  lemma SwapMinds(sess: Session, tok: Token, after: Token, u: TransactionId)
    requires tok in sess.flight && AnyMinds(Swap(sess, tok, multiset{after}), u) && (Minds(after, u) ==> Minds(tok, u))
    ensures AnyMinds(sess, u)
  {
    var x :| x in Swap(sess, tok, multiset{after}).flight && Minds(x, u);
    assert x in sess.flight || x == after;
  }

  lemma FewerMind(sess: Session, sess': Session, u: TransactionId)
    requires AnyMinds(sess', u) && forall x :: x in sess'.flight && Minds(x, u) ==> x in sess.flight
    ensures AnyMinds(sess, u)
  {
  }

  lemma ReceiveMinds(nodes: set<NodeId>, t: TransactionId, sess: Session, objects: Table, resp: ClientResponse, from: NodeId, u: TransactionId)
    requires AnyMinds(OnReceive(nodes, t, sess, objects, resp, from).session, u)
    ensures AnyMinds(sess, u)
  {
    var sess' := OnReceive(nodes, t, sess, objects, resp, from).session;
    var x :| x in sess'.flight && Minds(x, u);
    assert x in sess.flight;
  }

  lemma VoteMinds(nodes: set<NodeId>, t: TransactionId, sess: Session, tok: Token, u: TransactionId)
    requires tok.Packet? && tok.msg.TwoPhaseCommitStatus? && AnyMinds(OnVote(nodes, t, sess, tok).session, u)
    ensures AnyMinds(sess, u)
  {
    Broadcasted(t, nodes, DoCommit);
    if sess.handle.Some? { VoteNews(nodes, t, sess, tok); }
    FewerMind(sess, OnVote(nodes, t, sess, tok).session, u);
  }

  lemma NewsMinds(sess: Session, tok: Token, news: multiset<Token>, u: TransactionId)
    requires AnyMinds(Swap(sess, tok, news), u) && forall x :: x in news ==> !x.Job?
    ensures AnyMinds(sess, u)
  {
    var x :| x in Swap(sess, tok, news).flight && Minds(x, u);
    assert x in sess.flight;
  }

  lemma ForwardMinds(nodes: set<NodeId>, t: TransactionId, sess: Session, objects: Table, tok: Token, u: TransactionId)
    requires (tok.Forward? || tok.Finished?) && AnyMinds(OnServe(nodes, t, sess, objects, tok).session, u)
    ensures AnyMinds(sess, u)
  {
    match tok
    case Forward(Broadcast, req) =>
      Broadcasted(t, nodes, Request(req));
      NewsMinds(sess, tok, Bcast(t, nodes, Request(req)), u);
    case Forward(Node(p), req) => NewsMinds(sess, tok, multiset{Packet(t.coordinator, p, Request(req))}, u);
    case Finished =>
      assert AnyMinds(Swap(sess, tok, multiset{}), u);
      NewsMinds(sess, tok, multiset{}, u);
  }

  lemma RequestMinds(nodes: set<NodeId>, t: TransactionId, sess: Session, objects: Table, tok: Token, u: TransactionId)
    requires tok in sess.flight && tok.Packet? && tok.msg.Request? && AnyMinds(OnServe(nodes, t, sess, objects, tok).session, u)
    ensures AnyMinds(sess, u)
  {
    SwapMinds(sess, tok, Job(tok.dst, WorkFor(tok.msg.req, objects, tok.dst), S.None), u);
  }

  lemma DoCommitMinds(nodes: set<NodeId>, t: TransactionId, sess: Session, objects: Table, tok: Token, u: TransactionId)
    requires tok in sess.flight && tok.Packet? && tok.msg.DoCommit? && AnyMinds(OnServe(nodes, t, sess, objects, tok).session, u)
    ensures AnyMinds(sess, u)
  {
    SwapMinds(sess, tok, Job(tok.dst, Install(FreshScan(objects, tok.dst)), S.None), u);
  }

  lemma ServeMinds(nodes: set<NodeId>, t: TransactionId, sess: Session, objects: Table, tok: Token, u: TransactionId)
    requires tok in sess.flight && (tok.Forward? || tok.Finished? || (tok.Packet? && !tok.msg.TwoPhaseCommitStatus?))
    requires tok.Packet? && tok.msg.Response? ==> sess.handle.Some?
    requires AnyMinds(OnServe(nodes, t, sess, objects, tok).session, u)
    ensures AnyMinds(sess, u)
  {
    if !tok.Packet? {
      ForwardMinds(nodes, t, sess, objects, tok, u);
    } else if tok.msg.Request? {
      RequestMinds(nodes, t, sess, objects, tok, u);
    } else if tok.msg.DoCommit? {
      DoCommitMinds(nodes, t, sess, objects, tok, u);
    } else {
      NewsMinds(sess, tok, multiset{Incoming(tok.msg.resp, tok.src)}, u);
    }
  }

  lemma OpMinds(s: State, t: TransactionId, job: Token, u: TransactionId)
    requires At(s, t) && I.Inv(s.store) && Enabled(s, Step(t, Act(job, Go))) && Attempts(job)
    requires AnyMinds(EffectOf(s, Step(t, Act(job, Go))).session, u)
    ensures AnyMinds(s.sessions[t], u) || Hinders(s, Step(t, Act(job, Go)), t, u)
  {
    var after := OpLeaves(t, s.store.objects, job);
    OpAlone(s, t, job);
    OpSwaps(t, s.sessions[t], s.store.objects, job);
    if Minds(after, u) { HinderedOp(s, t, job, u); } else { SwapMinds(s.sessions[t], job, after, u); }
  }

  lemma HinderedOp(s: State, t: TransactionId, job: Token, u: TransactionId)
    requires I.Inv(s.store) && t in s.store.txs && s.store.txs[t].status == S.Running && Attempts(job)
    requires Minds(OpLeaves(t, s.store.objects, job), u)
    ensures Hinders(s, Step(t, Act(job, Go)), t, u)
  {
    match job.work
    case Query(a) => if Key(job.node, a) in s.store.objects { ReadsExactly(s.store, t, Key(job.node, a)); }
    case Fetch(a, _) => if Key(job.node, a) in s.store.objects { ReadsExactly(s.store, t, Key(job.node, a)); }
    case PutBack(_) =>
  }

  lemma CheckEndMinds(t: TransactionId, sess: Session, objects: Table, job: Token, choice: Choice, u: TransactionId)
    requires job.Job? && job.work.Check? && (choice == Finish || choice == Fail)
    requires AnyMinds(OnCheck(t, sess, objects, job, choice).session, u)
    ensures AnyMinds(sess, u)
  {
    var sess' := OnCheck(t, sess, objects, job, choice).session;
    var x :| x in sess'.flight && Minds(x, u);
    assert x in sess.flight;
  }

  lemma CheckMinds(s: State, t: TransactionId, sess: Session, job: Token, choice: Choice, u: TransactionId)
    requires job in sess.flight && job.Job? && job.parked.None? && job.work.Check? && ScanReady(job.work.scan, choice)
    requires AnyMinds(OnCheck(t, sess, s.store.objects, job, choice).session, u)
    ensures AnyMinds(sess, u) || Hinders(s, Step(t, Act(job, choice)), t, u)
  {
    if choice.Visit? {
      var scan := CheckReports(t, sess, s.store.objects, job, choice.key);
      if !Behind(s.store.objects, t, choice.key, u) { SwapMinds(sess, job, Job(job.node, Check(scan), S.None), u); }
    } else if choice.Retry? {
      SwapMinds(sess, job, Job(job.node, Check(FreshScan(s.store.objects, job.node)), S.Some(choice.on)), u);
    } else {
      CheckEndMinds(t, sess, s.store.objects, job, choice, u);
    }
  }

  lemma InstallEndMinds(t: TransactionId, sess: Session, objects: Table, job: Token, choice: Choice, u: TransactionId)
    requires job.Job? && job.work.Install? && (choice == Finish || choice == Fail)
    requires AnyMinds(OnInstall(t, sess, objects, job, choice).session, u)
    ensures AnyMinds(sess, u)
  {
    var sess' := OnInstall(t, sess, objects, job, choice).session;
    var x :| x in sess'.flight && Minds(x, u);
    assert x in sess.flight;
  }

  lemma InstallMinds(s: State, t: TransactionId, sess: Session, job: Token, choice: Choice, u: TransactionId)
    requires job in sess.flight && job.Job? && job.parked.None? && job.work.Install? && ScanReady(job.work.scan, choice)
    requires AnyMinds(OnInstall(t, sess, s.store.objects, job, choice).session, u)
    ensures AnyMinds(sess, u) || Hinders(s, Step(t, Act(job, choice)), t, u)
  {
    if choice.Visit? {
      var scan := InstallReports(t, sess, s.store.objects, job, choice.key);
      if !Behind(s.store.objects, t, choice.key, u) { SwapMinds(sess, job, Job(job.node, Install(scan), S.None), u); }
    } else if choice.Retry? {
      SwapMinds(sess, job, Job(job.node, Install(FreshScan(s.store.objects, job.node)), S.Some(choice.on)), u);
    } else {
      InstallEndMinds(t, sess, s.store.objects, job, choice, u);
    }
  }

  lemma ActMinds(s: State, t: TransactionId, job: Token, choice: Choice, u: TransactionId)
    requires At(s, t) && I.Inv(s.store) && Enabled(s, Step(t, Act(job, choice)))
    requires AnyMinds(EffectOf(s, Step(t, Act(job, choice))).session, u)
    ensures AnyMinds(s.sessions[t], u) || Hinders(s, Step(t, Act(job, choice)), t, u)
  {
    var sess := s.sessions[t];
    if job.parked.Some? {
      SwapMinds(sess, job, job.(parked := S.None), u);
    } else if job.work.Check? {
      CheckMinds(s, t, sess, job, choice, u);
    } else if job.work.Install? {
      InstallMinds(s, t, sess, job, choice, u);
    } else if job.work.Erase? {
      SwapMinds(sess, job, Answer(t, job.node, Aborted), u);
    } else {
      OpMinds(s, t, job, u);
    }
  }

  lemma LaunchMinds(s: State, st: Step, u: TransactionId)
    requires Enabled(s, st) && (st.action.Ask? || st.action.Hangup? || st.action.AbortLocally?) && AnyMinds(EffectOf(s, st).session, u)
    ensures AnyMinds(s.sessions[st.tx], u)
  {
    FewerMind(s.sessions[st.tx], EffectOf(s, st).session, u);
  }

  lemma StepMinds(s: State, st: Step, u: TransactionId)
    requires Inv(s) && I.Inv(s.store) && Enabled(s, st) && AnyMinds(EffectOf(s, st).session, u)
    ensures (st.tx in s.sessions && AnyMinds(s.sessions[st.tx], u)) || Hinders(s, st, st.tx, u)
  {
    var t := st.tx;
    assert t in s.sessions ==> At(s, t);
    match st.action
    case Connect =>
    case Receive(resp, from) => ReceiveMinds(s.nodes, t, s.sessions[t], s.store.objects, resp, from, u);
    case Serve(tok) =>
      if tok.Packet? && tok.msg.TwoPhaseCommitStatus? {
        VoteMinds(s.nodes, t, s.sessions[t], tok, u);
      } else {
        if tok.Packet? && tok.msg.Response? { ResponsePhase(s.nodes, t, s.sessions[t], s.store.txs[t], s.store.objects, tok); }
        ServeMinds(s.nodes, t, s.sessions[t], s.store.objects, tok, u);
      }
    case Act(job, choice) => ActMinds(s, t, job, choice, u);
    case _ => LaunchMinds(s, st, u);
  }

  lemma RunMinds(nodes: set<NodeId>, states: seq<State>, steps: seq<Step>, i: nat, t: TransactionId, u: TransactionId)
    requires IsRun(nodes, states, steps) && i < |steps| && t in states[i + 1].sessions && AnyMinds(states[i + 1].sessions[t], u)
    ensures (t in states[i].sessions && AnyMinds(states[i].sessions[t], u)) || Hinders(states[i], steps[i], t, u)
  {
    RunInv(nodes, states, steps, i);
    DataInv(nodes, states, steps, i);
    RunStep(nodes, states, steps, i);
    if t == steps[i].tx { StepMinds(states[i], steps[i], u); }
  }

  /** Every wait has its cause: a transaction is parked on u, or has met u on a scan, only because u's write was in front of it in an earlier step. */
  lemma {:induction false} WaitsHaveCauses(nodes: set<NodeId>, states: seq<State>, steps: seq<Step>, i: nat, t: TransactionId, u: TransactionId) returns (j: nat)
    requires IsRun(nodes, states, steps) && i <= |steps| && t in states[i].sessions && AnyMinds(states[i].sessions[t], u)
    ensures j < i && Hinders(states[j], steps[j], t, u)
  {
    assert i > 0;
    RunMinds(nodes, states, steps, i - 1, t, u);
    if Hinders(states[i - 1], steps[i - 1], t, u) {
      j := i - 1;
    } else {
      j := WaitsHaveCauses(nodes, states, steps, i - 1, t, u);
    }
  }
}

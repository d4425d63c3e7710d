/**
 * What every step sends on, and that nothing is dropped: in every run each open session can move, every
 * token taken is replaced by what it calls for, and the client is told every verdict.
 */
module Progress {
  import opened TransactionIds
  import opened Objects
  import opened Ledger
  import opened Tables
  import S = Store
  import opened Protocol
  import opened Coordination
  import opened CoordinationSteps
  import opened Coordinator
  import opened Cluster

  // ----- somebody is always working for an open session

  /** Something in flight will bring p to act or to answer. */
  ghost predicate Attended(t: TransactionId, sess: Session, p: NodeId) {
    exists tok :: tok in sess.flight && (Slot(t, tok) == p || (tok.Forward? && tok.target == Broadcast))
  }

  ghost predicate Covered(nodes: set<NodeId>, t: TransactionId, sess: Session, tx: S.Tx) {
    match sess.phase
    case AwaitReply => sess.flight != multiset{}
    case Checking => sess.flight != multiset{}
    case AwaitVotes =>
      sess.handle.Some? &&
      if tx.status == S.Committed then Incoming(CommitOk, t.coordinator) in sess.flight
      else
        && (forall p :: p in Peers(nodes, t) - sess.handle.value.voters ==> Attended(t, sess, p))
        && (Peers(nodes, t) <= sess.handle.value.voters ==> Incoming(Aborted, t.coordinator) in sess.flight)
    case Committing => exists tok :: tok in sess.flight && tok.Job? && tok.node == t.coordinator
    case AwaitAborts(_, acked, _) => forall p :: p in Peers(nodes, t) - acked ==> Attended(t, sess, p)
    case Closed(_) => sess.handle.None? || Finished in sess.flight
    case _ => true
  }

  /** A token that is replaced by one for the same node leaves every node attended to. */
  lemma StillAttended(t: TransactionId, sess: Session, sess': Session, tok: Token, after: Token, p: NodeId)
    requires Attended(t, sess, p) && after in sess'.flight && (forall x :: x in sess.flight && x != tok ==> x in sess'.flight)
    requires !tok.Forward? && (Slot(t, tok) == p ==> Slot(t, after) == p)
    ensures Attended(t, sess', p)
  {
    var x :| x in sess.flight && (Slot(t, x) == p || (x.Forward? && x.target == Broadcast));
    if x == tok { assert Slot(t, after) == p; } else { assert x in sess'.flight; }
  }

  /** A token that goes leaves every other node attended to. */
  lemma OthersAttended(t: TransactionId, sess: Session, sess': Session, tok: Token, p: NodeId)
    requires Attended(t, sess, p) && (forall x :: x in sess.flight && x != tok ==> x in sess'.flight)
    requires !tok.Forward? && Slot(t, tok) != p
    ensures Attended(t, sess', p)
  {
    var x :| x in sess.flight && (Slot(t, x) == p || (x.Forward? && x.target == Broadcast));
    assert x in sess'.flight;
  }

  lemma BroadcastReaches(nodes: set<NodeId>, t: TransactionId, sess: Session, msg: Forwarded, p: NodeId)
    requires p in Peers(nodes, t) && forall x :: x in Bcast(t, nodes, msg) ==> x in sess.flight
    ensures Packet(t.coordinator, p, msg) in sess.flight && Attended(t, sess, p)
  {
    Broadcasted(t, nodes, msg);
    assert Packet(t.coordinator, p, msg) in Bcast(t, nodes, msg);
    assert Slot(t, Packet(t.coordinator, p, msg)) == p;
  }

  /** One token becomes another for the same node. */
  lemma SwapCovered(nodes: set<NodeId>, t: TransactionId, sess: Session, tx: S.Tx, tok: Token, after: Token)
    requires Covered(nodes, t, sess, tx) && tok in sess.flight && !tok.Forward? && !tok.Finished? && !tok.Incoming?
    requires Slot(t, after) == Slot(t, tok) && (tok.Job? && tok.node == t.coordinator && sess.phase == Committing ==> after.Job? && after.node == tok.node)
    ensures Covered(nodes, t, Swap(sess, tok, multiset{after}), tx)
  {
    var sess' := Swap(sess, tok, multiset{after});
    assert after in sess'.flight && forall x :: x in sess.flight && x != tok ==> x in sess'.flight;
    forall p | Attended(t, sess, p) ensures Attended(t, sess', p) { StillAttended(t, sess, sess', tok, after, p); }
    if sess.phase == Committing {
      var x :| x in sess.flight && x.Job? && x.node == t.coordinator;
      if x == tok { assert after in sess'.flight; } else { assert x in sess'.flight; }
    }
  }

  // ----- the client task

  lemma AskCovers(s: State, t: TransactionId, req: ClientRequest, tx': S.Tx)
    requires Enabled(s, Step(t, Ask(req)))
    ensures Covered(s.nodes, t, EffectOf(s, Step(t, Ask(req))).session, tx')
  {
    var sess' := EffectOf(s, Step(t, Ask(req))).session;
    match req
    case Abort =>
    case Commit => assert Job(t.coordinator, WorkFor(req, s.store.objects, t.coordinator), S.None) in sess'.flight;
    case _ =>
      match ExtractShard(req.account, t.coordinator, s.nodes)
      case DoesNotExist =>
      case Local => assert Job(t.coordinator, WorkFor(req, s.store.objects, t.coordinator), S.None) in sess'.flight;
      case Remote(p) => assert Forward(Node(p), req) in sess'.flight;
  }

  lemma AckCovers(nodes: set<NodeId>, t: TransactionId, sess: Session, tx: S.Tx, objects: Table, from: NodeId)
    requires SessionInv(nodes, t, sess, tx, objects) && Covered(nodes, t, sess, tx)
    requires sess.phase.AwaitAborts? && Incoming(Aborted, from) in sess.flight
    ensures Covered(nodes, t, OnReceive(nodes, t, sess, objects, Aborted, from).session, tx)
  {
    var tok, sess' := Incoming(Aborted, from), OnReceive(nodes, t, sess, objects, Aborted, from).session;
    if sess.phase.count + 1 < |nodes| {
      assert forall x :: x in sess.flight && x != tok ==> x in sess'.flight;
      forall p | p in Peers(nodes, t) - sess'.phase.acked ensures Attended(t, sess', p) {
        OthersAttended(t, sess, sess', tok, p);
      }
    } else {
      assert Finished in sess'.flight;
    }
  }

  lemma VerdictCovers(nodes: set<NodeId>, t: TransactionId, sess: Session, tx': S.Tx, objects: Table, resp: ClientResponse, from: NodeId)
    requires sess.phase == AwaitReply || sess.phase == AwaitVotes
    ensures Covered(nodes, t, OnReceive(nodes, t, sess, objects, resp, from).session, tx')
  {
    var sess' := OnReceive(nodes, t, sess, objects, resp, from).session;
    if sess'.phase == Committing {
      assert Job(t.coordinator, Install(FreshScan(objects, t.coordinator)), S.None) in sess'.flight;
    }
    if sess'.phase.Closed? { assert Finished in sess'.flight; }
  }

  // ----- the server loop

  lemma BroadcastCovers(nodes: set<NodeId>, t: TransactionId, sess: Session, tx: S.Tx, objects: Table, req: ClientRequest)
    requires SessionInv(nodes, t, sess, tx, objects) && |nodes| >= 2 && Forward(Broadcast, req) in sess.flight
    ensures Covered(nodes, t, Swap(sess, Forward(Broadcast, req), Bcast(t, nodes, Request(req))), tx)
  {
    var sess' := Swap(sess, Forward(Broadcast, req), Bcast(t, nodes, Request(req)));
    assert TokenOk(nodes, t, sess, tx, objects, Forward(Broadcast, req));
    PeersSize(nodes, t);
    forall p | p in Peers(nodes, t) ensures Attended(t, sess', p) { BroadcastReaches(nodes, t, sess', Request(req), p); }
    assert sess.phase == AwaitVotes ==> sess.handle.value.voters == {} && Peers(nodes, t) != {};
  }

  lemma VoteCovers(nodes: set<NodeId>, t: TransactionId, sess: Session, tx: S.Tx, tx': S.Tx, objects: Table, tok: Token)
    requires SessionInv(nodes, t, sess, tx, objects) && Covered(nodes, t, sess, tx)
    requires tok in sess.flight && tok.Packet? && tok.msg.TwoPhaseCommitStatus?
    requires tx'.status == S.Committed <==> OnVote(nodes, t, sess, tok).event.Some?
    ensures Covered(nodes, t, OnVote(nodes, t, sess, tok).session, tx')
  {
    VoteIsNew(nodes, t, sess, tx, objects, tok);
    var sess' := OnVote(nodes, t, sess, tok).session;
    var voters' := sess.handle.value.voters + {tok.src};
    if sess.handle.value.count + 1 == |Peers(nodes, t)| {
      LastVote(nodes, t, sess, tx, objects, tok);
    } else {
      assert forall x :: x in sess.flight && x != tok ==> x in sess'.flight;
      forall p | p in Peers(nodes, t) - voters' ensures Attended(t, sess', p) { OthersAttended(t, sess, sess', tok, p); }
      if Peers(nodes, t) <= voters' { SubsetSize(Peers(nodes, t), voters'); }
    }
  }

  lemma PacketCovers(nodes: set<NodeId>, t: TransactionId, sess: Session, tx: S.Tx, objects: Table, tok: Token)
    requires SessionInv(nodes, t, sess, tx, objects) && Covered(nodes, t, sess, tx)
    requires tok in sess.flight && tok.Packet? && !tok.msg.TwoPhaseCommitStatus?
    ensures Covered(nodes, t, OnServe(nodes, t, sess, objects, tok).session, tx)
  {
    assert TokenOk(nodes, t, sess, tx, objects, tok);
    match tok.msg
    case Request(req) => SwapCovered(nodes, t, sess, tx, tok, Job(tok.dst, WorkFor(req, objects, tok.dst), S.None));
    case Response(resp) => SwapCovered(nodes, t, sess, tx, tok, Incoming(resp, tok.src));
    case DoCommit => SwapCovered(nodes, t, sess, tx, tok, Job(tok.dst, Install(FreshScan(objects, tok.dst)), S.None));
  }

  lemma ServeCovers(nodes: set<NodeId>, t: TransactionId, sess: Session, tx: S.Tx, objects: Table, tok: Token)
    requires SessionInv(nodes, t, sess, tx, objects) && Covered(nodes, t, sess, tx) && |nodes| >= 2
    requires tok in sess.flight && (tok.Forward? || tok.Finished? || (tok.Packet? && !tok.msg.TwoPhaseCommitStatus?))
    ensures Covered(nodes, t, OnServe(nodes, t, sess, objects, tok).session, tx)
  {
    match tok
    case Packet(_, _, _) => PacketCovers(nodes, t, sess, tx, objects, tok);
    case Forward(Broadcast, req) => BroadcastCovers(nodes, t, sess, tx, objects, req);
    case Forward(Node(p), req) =>
      assert TokenOk(nodes, t, sess, tx, objects, tok);
      assert Packet(t.coordinator, p, Request(req)) in OnServe(nodes, t, sess, objects, tok).session.flight;
    case Finished => assert TokenOk(nodes, t, sess, tx, objects, tok);
  }

  // ----- jobs

  ghost function QueryLeaves(t: TransactionId, objects: Table, p: NodeId, account: string): Token {
    var k := Key(p, account);
    if k !in objects then Answer(t, p, AbortedNotFound)
    else match ReadRule(objects[k], t)
      case Read(v) => Answer(t, p, Value(account, v))
      case ReadWait(u) => Job(p, Query(account), S.Some(u))
      case _ => Answer(t, p, Aborted)
  }

  ghost function FetchLeaves(t: TransactionId, objects: Table, p: NodeId, account: string, d: int): Token {
    var k := Key(p, account);
    if k !in objects then Job(p, PutBack(S.Create(k, d)), S.None)
    else match ReadRule(objects[k], t)
      case Read(v) => Job(p, PutBack(S.Update(k, v, d)), S.None)
      case ReadWait(u) => Job(p, Fetch(account, d), S.Some(u))
      case _ => Answer(t, p, Aborted)
  }

  ghost function PutLeaves(t: TransactionId, objects: Table, p: NodeId, put: S.Put): Token {
    match StoreRule(objects, put.key, t, put.Amount())
    case Stored => Answer(t, p, Ok)
    case StoreNotFound => Answer(t, p, AbortedNotFound)
    case StoreTooLate => Answer(t, p, Aborted)
  }

  predicate Attempts(job: Token) {
    job.Job? && job.parked.None? && (job.work.Query? || job.work.Fetch? || job.work.PutBack?)
  }

  /** What a read or write attempt leaves in flight instead of its job: an answer, the put, or the parked job. */
  ghost function OpLeaves(t: TransactionId, objects: Table, job: Token): Token
    requires Attempts(job)
  {
    match job.work
    case Query(a) => QueryLeaves(t, objects, job.node, a)
    case Fetch(a, d) => FetchLeaves(t, objects, job.node, a, d)
    case PutBack(put) => PutLeaves(t, objects, job.node, put)
  }

  lemma QuerySwaps(t: TransactionId, sess: Session, objects: Table, job: Token)
    requires job.Job? && job.work.Query?
    ensures OnQuery(t, sess, objects, job).session == Swap(sess, job, multiset{QueryLeaves(t, objects, job.node, job.work.account)})
  {
  }

  lemma FetchSwaps(t: TransactionId, sess: Session, objects: Table, job: Token)
    requires job.Job? && job.work.Fetch?
    ensures OnFetch(t, sess, objects, job).session == Swap(sess, job, multiset{FetchLeaves(t, objects, job.node, job.work.account, job.work.diff)})
  {
  }

  lemma PutSwaps(t: TransactionId, sess: Session, objects: Table, job: Token)
    requires job.Job? && job.work.PutBack?
    ensures OnPutBack(t, sess, objects, job).session == Swap(sess, job, multiset{PutLeaves(t, objects, job.node, job.work.put)})
  {
  }

  lemma OpSwaps(t: TransactionId, sess: Session, objects: Table, job: Token)
    requires Attempts(job)
    ensures OnAct(t, sess, objects, job, Go).session == Swap(sess, job, multiset{OpLeaves(t, objects, job)})
  {
    match job.work
    case Query(_) => QuerySwaps(t, sess, objects, job);
    case Fetch(_, _) => FetchSwaps(t, sess, objects, job);
    case PutBack(_) => PutSwaps(t, sess, objects, job);
  }

  lemma OpLeavesOther(t: TransactionId, objects: Table, job: Token)
    requires Attempts(job)
    ensures var after := OpLeaves(t, objects, job);
            && after != job && !after.Forward? && !after.Finished?
            && (after.Job? ==> after.node == job.node && !after.work.Check? && !after.work.Install?)
            && (after.Packet? ==> after.msg.Response?)
  {
  }

  lemma OpCovers(nodes: set<NodeId>, t: TransactionId, sess: Session, tx: S.Tx, tx': S.Tx, objects: Table, job: Token)
    requires SessionInv(nodes, t, sess, tx, objects) && job in sess.flight && job.Job? && job.parked.None?
    requires job.work.Query? || job.work.Fetch? || job.work.PutBack?
    ensures Covered(nodes, t, OnAct(t, sess, objects, job, Go).session, tx')
  {
    assert TokenOk(nodes, t, sess, tx, objects, job);
    var after := OpLeaves(t, objects, job);
    OpSwaps(t, sess, objects, job);
    assert after in Swap(sess, job, multiset{after}).flight;
  }

  /** The scan after a visit; what it reports is stated elsewhere. */
  lemma CheckVisitSwaps(t: TransactionId, sess: Session, objects: Table, job: Token, k: Key) returns (scan: Scan)
    requires job.Job? && job.work.Check?
    ensures OnCheck(t, sess, objects, job, Visit(k)).session == Swap(sess, job, multiset{Job(job.node, Check(scan), S.None)})
    ensures scan.todo == job.work.scan.todo - {k}
    ensures scan.failed <==> job.work.scan.failed || (k in objects && CheckRule(objects[k], t).CheckFailed?)
    ensures forall u :: u in scan.waits <==> u in job.work.scan.waits || (k in objects && CheckRule(objects[k], t) == CheckWait(u))
  {
    scan := job.work.scan.(todo := job.work.scan.todo - {k});
    if k in objects {
      match CheckRule(objects[k], t)
      case CheckWait(u) => scan := scan.(waits := scan.waits + {u});
      case CheckFailed => scan := scan.(failed := true);
      case _ =>
    }
  }

  lemma InstallVisitSwaps(t: TransactionId, sess: Session, objects: Table, job: Token, k: Key) returns (scan: Scan)
    requires job.Job? && job.work.Install?
    ensures OnInstall(t, sess, objects, job, Visit(k)).session == Swap(sess, job, multiset{Job(job.node, Install(scan), S.None)})
    ensures scan.todo == job.work.scan.todo - {k}
    ensures scan.failed <==> job.work.scan.failed || (k in objects && CheckRule(objects[k], t).CheckFailed?)
    ensures forall u :: u in scan.waits <==> u in job.work.scan.waits || (k in objects && CheckRule(objects[k], t) == CheckWait(u))
  {
    scan := job.work.scan.(todo := job.work.scan.todo - {k});
    if k in objects {
      match CheckRule(objects[k], t)
      case CheckWait(u) => scan := scan.(waits := scan.waits + {u});
      case CheckFailed => scan := scan.(failed := true);
      case _ =>
    }
  }

  lemma CheckFinishCovers(nodes: set<NodeId>, t: TransactionId, sess: Session, tx: S.Tx, objects: Table, job: Token)
    requires SessionInv(nodes, t, sess, tx, objects) && Covered(nodes, t, sess, tx) && |nodes| >= 2
    requires job in sess.flight && job.Job? && job.work.Check?
    ensures Covered(nodes, t, OnCheck(t, sess, objects, job, Finish).session, tx)
  {
    CheckPhase(nodes, t, sess, tx, objects, job);
    if job.node == t.coordinator {
      PeersSize(nodes, t);
      assert Forward(Broadcast, Commit) in OnCheck(t, sess, objects, job, Finish).session.flight && Peers(nodes, t) != {};
    } else {
      SwapCovered(nodes, t, sess, tx, job, Packet(job.node, t.coordinator, TwoPhaseCommitStatus(ReadyToCommit)));
      PassedCovered(nodes, t, Swap(sess, job, multiset{Packet(job.node, t.coordinator, TwoPhaseCommitStatus(ReadyToCommit))}), tx, sess.passed + {job.node});
    }
  }

  lemma PassedCovered(nodes: set<NodeId>, t: TransactionId, sess: Session, tx: S.Tx, passed: set<NodeId>)
    requires Covered(nodes, t, sess, tx)
    ensures Covered(nodes, t, sess.(passed := passed), tx)
  {
    forall p | Attended(t, sess, p) ensures Attended(t, sess.(passed := passed), p) {
      var x :| x in sess.flight && (Slot(t, x) == p || (x.Forward? && x.target == Broadcast));
      assert x in sess.(passed := passed).flight;
    }
  }

  lemma CheckFailCovers(nodes: set<NodeId>, t: TransactionId, sess: Session, tx: S.Tx, objects: Table, job: Token)
    requires SessionInv(nodes, t, sess, tx, objects) && Covered(nodes, t, sess, tx)
    requires job in sess.flight && job.Job? && job.work.Check?
    ensures Covered(nodes, t, OnCheck(t, sess, objects, job, Fail).session, tx)
  {
    CheckPhase(nodes, t, sess, tx, objects, job);
    if job.node != t.coordinator {
      SwapCovered(nodes, t, sess, tx, job, Packet(job.node, t.coordinator, TwoPhaseCommitStatus(CannotCommit)));
    }
  }

  lemma CheckCovers(nodes: set<NodeId>, t: TransactionId, sess: Session, tx: S.Tx, objects: Table, job: Token, choice: Choice)
    requires SessionInv(nodes, t, sess, tx, objects) && Covered(nodes, t, sess, tx) && |nodes| >= 2
    requires job in sess.flight && job.Job? && job.parked.None? && job.work.Check? && ScanReady(job.work.scan, choice)
    ensures Covered(nodes, t, OnCheck(t, sess, objects, job, choice).session, tx)
  {
    match choice
    case Visit(k) =>
      var scan := CheckVisitSwaps(t, sess, objects, job, k);
      SwapCovered(nodes, t, sess, tx, job, Job(job.node, Check(scan), S.None));
    case Retry(u) => SwapCovered(nodes, t, sess, tx, job, Job(job.node, Check(FreshScan(objects, job.node)), S.Some(u)));
    case Finish => CheckFinishCovers(nodes, t, sess, tx, objects, job);
    case Fail => CheckFailCovers(nodes, t, sess, tx, objects, job);
  }

  lemma InstallFinishCovers(nodes: set<NodeId>, t: TransactionId, sess: Session, tx: S.Tx, objects: Table, job: Token)
    requires SessionInv(nodes, t, sess, tx, objects) && Covered(nodes, t, sess, tx)
    requires job in sess.flight && job.Job? && job.work.Install?
    ensures Covered(nodes, t, OnInstall(t, sess, objects, job, Finish).session, tx)
  {
    InstallIsDecided(nodes, t, sess, tx, objects, job);
    var sess' := OnInstall(t, sess, objects, job, Finish).session;
    if job.node == t.coordinator {
      assert Finished in sess'.flight;
    } else {
      assert forall x :: x in sess.flight && x != job ==> x in sess'.flight;
      if sess.phase == Committing {
        var x :| x in sess.flight && x.Job? && x.node == t.coordinator;
        assert x in sess'.flight;
      }
    }
  }

  lemma InstallCovers(nodes: set<NodeId>, t: TransactionId, sess: Session, tx: S.Tx, objects: Table, job: Token, choice: Choice)
    requires SessionInv(nodes, t, sess, tx, objects) && Covered(nodes, t, sess, tx)
    requires job in sess.flight && job.Job? && job.parked.None? && job.work.Install? && ScanReady(job.work.scan, choice)
    ensures Covered(nodes, t, OnInstall(t, sess, objects, job, choice).session, tx)
  {
    InstallScanOk(nodes, t, sess, tx, objects, job);
    match choice
    case Visit(k) =>
      var scan := InstallVisitSwaps(t, sess, objects, job, k);
      SwapCovered(nodes, t, sess, tx, job, Job(job.node, Install(scan), S.None));
    case Retry(u) => SwapCovered(nodes, t, sess, tx, job, Job(job.node, Install(FreshScan(objects, job.node)), S.Some(u)));
    case Finish => InstallFinishCovers(nodes, t, sess, tx, objects, job);
  }

  lemma WakeCovers(nodes: set<NodeId>, t: TransactionId, sess: Session, tx: S.Tx, job: Token)
    requires Covered(nodes, t, sess, tx) && job in sess.flight && job.Job?
    ensures Covered(nodes, t, Swap(sess, job, multiset{job.(parked := S.None)}), tx)
  {
    SwapCovered(nodes, t, sess, tx, job, job.(parked := S.None));
  }

  lemma EraseCovers(nodes: set<NodeId>, t: TransactionId, sess: Session, tx: S.Tx, objects: Table, job: Token)
    requires SessionInv(nodes, t, sess, tx, objects) && Covered(nodes, t, sess, tx)
    requires job in sess.flight && job.Job? && job.work.Erase?
    ensures Covered(nodes, t, Finishes(t, sess, job, Aborted), tx)
  {
    assert TokenOk(nodes, t, sess, tx, objects, job);
    SwapCovered(nodes, t, sess, tx, job, Answer(t, job.node, Aborted));
  }

  // ----- the whole cluster

  ghost predicate CoveredAt(s: State, t: TransactionId) {
    t in s.sessions && t in s.store.txs && Covered(s.nodes, t, s.sessions[t], s.store.txs[t])
  }

  /** Whether a transaction counts as committed changes only when it is decided. */
  lemma DecidedByVote(s: State, st: Step)
    requires Enabled(s, st) && EventEnabled(s, st) && st.tx in s.store.txs
    ensures var e, t := EffectOf(s, st), st.tx;
            && t in Next(s, st).store.txs
            && (Next(s, st).store.txs[t].status == S.Committed <==> s.store.txs[t].status == S.Committed || e.event == S.Some(S.Decide(t)))
  {
    EventIsOwn(s, st);
  }

  lemma NoDecision(s: State, st: Step)
    requires Enabled(s, st) && EffectOf(s, st).event == S.Some(S.Decide(st.tx))
    ensures st.action.Serve? && st.action.tok.Packet? && st.action.tok.msg.TwoPhaseCommitStatus?
  {
  }

  lemma SameCover(nodes: set<NodeId>, t: TransactionId, sess: Session, tx: S.Tx, tx': S.Tx)
    requires Covered(nodes, t, sess, tx) && (tx.status == S.Committed <==> tx'.status == S.Committed)
    ensures Covered(nodes, t, sess, tx')
  {
  }

  lemma ActCovers(s: State, t: TransactionId, job: Token, choice: Choice)
    requires At(s, t) && |s.nodes| >= 2 && CoveredAt(s, t) && Enabled(s, Step(t, Act(job, choice)))
    ensures Covered(s.nodes, t, EffectOf(s, Step(t, Act(job, choice))).session, s.store.txs[t])
  {
    var nodes, sess, tx, objects := s.nodes, s.sessions[t], s.store.txs[t], s.store.objects;
    if job.parked.Some? {
      WakeCovers(nodes, t, sess, tx, job);
    } else if job.work.Check? {
      CheckCovers(nodes, t, sess, tx, objects, job, choice);
    } else if job.work.Install? {
      InstallCovers(nodes, t, sess, tx, objects, job, choice);
    } else if job.work.Erase? {
      EraseCovers(nodes, t, sess, tx, objects, job);
    } else {
      OpCovers(nodes, t, sess, tx, tx, objects, job);
    }
  }

  lemma ReceiveCovers(s: State, t: TransactionId, resp: ClientResponse, from: NodeId, tx': S.Tx)
    requires At(s, t) && CoveredAt(s, t) && Enabled(s, Step(t, Receive(resp, from)))
    requires tx'.status == S.Committed <==> s.store.txs[t].status == S.Committed
    ensures Covered(s.nodes, t, EffectOf(s, Step(t, Receive(resp, from))).session, tx')
  {
    var nodes, sess, tx, objects := s.nodes, s.sessions[t], s.store.txs[t], s.store.objects;
    if sess.phase.AwaitAborts? {
      assert TokenOk(nodes, t, sess, tx, objects, Incoming(resp, from));
      AckCovers(nodes, t, sess, tx, objects, from);
      SameCover(nodes, t, EffectOf(s, Step(t, Receive(resp, from))).session, tx, tx');
    } else {
      VerdictCovers(nodes, t, sess, tx', objects, resp, from);
    }
  }

  lemma LaunchCovers(s: State, st: Step, tx': S.Tx)
    requires Enabled(s, st) && (st.action.Connect? || st.action.Hangup? || st.action.AbortLocally?)
    ensures Covered(s.nodes, st.tx, EffectOf(s, st).session, tx')
  {
    var sess' := EffectOf(s, st).session;
    assert st.action.Hangup? ==> Finished in sess'.flight;
    if st.action.AbortLocally? { assert Forward(Broadcast, Abort) in sess'.flight; }
  }

  lemma ServedCovers(s: State, t: TransactionId, tok: Token, tx': S.Tx)
    requires At(s, t) && |s.nodes| >= 2 && CoveredAt(s, t) && Enabled(s, Step(t, Serve(tok)))
    requires tx'.status == S.Committed <==>
             s.store.txs[t].status == S.Committed || EffectOf(s, Step(t, Serve(tok))).event == S.Some(S.Decide(t))
    ensures Covered(s.nodes, t, EffectOf(s, Step(t, Serve(tok))).session, tx')
  {
    if tok.Packet? && tok.msg.TwoPhaseCommitStatus? {
      VoteIsNew(s.nodes, t, s.sessions[t], s.store.txs[t], s.store.objects, tok);
      VoteCovers(s.nodes, t, s.sessions[t], s.store.txs[t], tx', s.store.objects, tok);
    } else {
      if EffectOf(s, Step(t, Serve(tok))).event == S.Some(S.Decide(t)) { NoDecision(s, Step(t, Serve(tok))); }
      ServeCovers(s.nodes, t, s.sessions[t], s.store.txs[t], s.store.objects, tok);
      SameCover(s.nodes, t, EffectOf(s, Step(t, Serve(tok))).session, s.store.txs[t], tx');
    }
  }

  lemma StepCovers(s: State, st: Step)
    requires Inv(s) && Enabled(s, st) && EventEnabled(s, st) && (!st.action.Connect? ==> CoveredAt(s, st.tx))
    requires st.tx in Next(s, st).store.txs
    ensures CoveredAt(Next(s, st), st.tx)
  {
    var t, tx' := st.tx, Next(s, st).store.txs[st.tx];
    if !st.action.Connect? {
      assert At(s, t);
      DecidedByVote(s, st);
      if EffectOf(s, st).event == S.Some(S.Decide(t)) { NoDecision(s, st); }
    }
    match st.action
    case Ask(req) => AskCovers(s, t, req, tx');
    case Receive(resp, from) => ReceiveCovers(s, t, resp, from, tx');
    case Serve(tok) => ServedCovers(s, t, tok, tx');
    case Act(job, choice) =>
      ActCovers(s, t, job, choice);
      SameCover(s.nodes, t, EffectOf(s, st).session, s.store.txs[t], tx');
    case _ => LaunchCovers(s, st, tx');
  }

  lemma OtherCovered(s: State, t: TransactionId, e: Effect, u: TransactionId)
    requires e.event.Some? ==> S.Enabled(s.store, e.event.value) && e.event.value.tx == t
    requires u != t && CoveredAt(s, u)
    ensures CoveredAt(Advance(s, t, e), u)
  {
    if e.event.Some? { EventOfOther(s.store, e.event.value, u); }
  }

  lemma NextCovered(s: State, st: Step, t: TransactionId)
    requires Inv(s) && Enabled(s, st) && EventEnabled(s, st) && t in Next(s, st).sessions && t in Next(s, st).store.txs
    requires t in s.sessions ==> CoveredAt(s, t)
    ensures CoveredAt(Next(s, st), t)
  {
    if t == st.tx {
      StepCovers(s, st);
    } else {
      EventIsOwn(s, st);
      OtherCovered(s, st.tx, EffectOf(s, st), t);
    }
  }

  lemma CoverAdvances(nodes: set<NodeId>, states: seq<State>, steps: seq<Step>, i: nat, t: TransactionId)
    requires IsRun(nodes, states, steps) && i < |steps| && t in states[i + 1].sessions
    requires t in states[i].sessions ==> CoveredAt(states[i], t)
    ensures CoveredAt(states[i + 1], t)
  {
    RunInv(nodes, states, steps, i);
    RunStep(nodes, states, steps, i);
    RunAt(nodes, states, steps, i + 1, t);
    NextCovered(states[i], steps[i], t);
  }

  /** In every run, somebody is working for every open session. */
  lemma {:induction false} RunCovered(nodes: set<NodeId>, states: seq<State>, steps: seq<Step>, i: nat, t: TransactionId)
    requires IsRun(nodes, states, steps) && i <= |steps| && t in states[i].sessions
    ensures CoveredAt(states[i], t)
  {
    assert i > 0;
    if t in states[i - 1].sessions { RunCovered(nodes, states, steps, i - 1, t); }
    CoverAdvances(nodes, states, steps, i - 1, t);
  }

  // ----- nobody is stuck

  /** Whatever is in flight can be taken up. */
  lemma ChoiceExists(job: Token) returns (choice: Choice)
    requires job.Job?
    ensures ChoiceReady(job, choice)
  {
    if job.parked.Some? { return Wake; }
    if !job.work.Check? && !job.work.Install? { return Go; }
    var scan := job.work.scan;
    if scan.todo != {} {
      var k :| k in scan.todo;
      choice := Visit(k);
    } else if scan.failed {
      choice := Fail;
    } else if scan.waits != {} {
      var u :| u in scan.waits;
      choice := Retry(u);
    } else {
      choice := Finish;
    }
  }

  lemma TokenMoves(s: State, t: TransactionId, tok: Token) returns (action: Action)
    requires t in s.sessions && tok in s.sessions[t].flight
    requires tok.Incoming? ==> s.sessions[t].phase == AwaitReply || s.sessions[t].phase == AwaitVotes || s.sessions[t].phase.AwaitAborts?
    ensures Enabled(s, Step(t, action)) && !action.Ask? && !action.Connect?
  {
    match tok
    case Job(_, _, _) =>
      var choice := ChoiceExists(tok);
      action := Act(tok, choice);
    case Incoming(resp, from) => action := Receive(resp, from);
    case _ => action := Serve(tok);
  }

  /** A session that awaits something has a token in flight that can be taken up. */
  lemma SomethingInFlight(nodes: set<NodeId>, t: TransactionId, sess: Session, tx: S.Tx, objects: Table) returns (tok: Token)
    requires SessionInv(nodes, t, sess, tx, objects) && Covered(nodes, t, sess, tx) && !sess.phase.Idle? && !sess.phase.Aborting? && !sess.phase.Closed?
    ensures tok in sess.flight
    ensures tok.Incoming? ==> sess.phase == AwaitReply || sess.phase == AwaitVotes || sess.phase.AwaitAborts?
  {
    match sess.phase
    case AwaitVotes =>
      if tx.status == S.Committed { return Incoming(CommitOk, t.coordinator); }
      if Peers(nodes, t) <= sess.handle.value.voters { return Incoming(Aborted, t.coordinator); }
      var p :| p in Peers(nodes, t) && p !in sess.handle.value.voters;
      assert Attended(t, sess, p);
      tok :| tok in sess.flight && (Slot(t, tok) == p || (tok.Forward? && tok.target == Broadcast));
    case Committing => tok :| tok in sess.flight && tok.Job? && tok.node == t.coordinator;
    case AwaitAborts(_, acked, _) =>
      var p := SomebodyMissing(acked, Peers(nodes, t));
      assert Attended(t, sess, p);
      tok :| tok in sess.flight && (Slot(t, tok) == p || (tok.Forward? && tok.target == Broadcast));
    case AwaitReply => tok :| tok in sess.flight;
    case Checking =>
      tok :| tok in sess.flight;
      assert TokenOk(nodes, t, sess, tx, objects, tok);
  }

  lemma SomebodyMissing(a: set<NodeId>, b: set<NodeId>) returns (p: NodeId)
    requires a <= b && |a| < |b|
    ensures p in b - a
  {
    assert |b - a| == |b| - |a|;
    p :| p in b - a;
  }

  /**
   * In every state of every run no session is stuck: an idle one takes any request or a hang-up, one that awaits
   * something can move by itself, and a closed one is reaped or about to be. In particular a session that
   * awaits votes always has something in flight.
   */
  lemma NeverStuck(nodes: set<NodeId>, states: seq<State>, steps: seq<Step>, i: nat, t: TransactionId)
    requires IsRun(nodes, states, steps) && i <= |steps| && t in states[i].sessions
    ensures var s, sess := states[i], states[i].sessions[t];
            && (sess.phase == Idle ==> Enabled(s, Step(t, Hangup)) && forall req :: Enabled(s, Step(t, Ask(req))))
            && (!sess.phase.Idle? && !sess.phase.Closed? ==>
                  exists action: Action :: Enabled(s, Step(t, action)) && !action.Ask? && !action.Connect?)
            && (sess.phase == AwaitVotes ==> sess.flight != multiset{})
            && (sess.phase.Closed? ==> sess.handle.None? || Enabled(s, Step(t, Serve(Finished))))
  {
    var s, sess := states[i], states[i].sessions[t];
    RunAt(nodes, states, steps, i, t);
    RunCovered(nodes, states, steps, i, t);
    if sess.phase.Aborting? {
      assert Enabled(s, Step(t, AbortLocally));
    } else if !sess.phase.Idle? && !sess.phase.Closed? {
      var tok := SomethingInFlight(nodes, t, sess, s.store.txs[t], s.store.objects);
      var action := TokenMoves(s, t, tok);
      assert tok in sess.flight && Enabled(s, Step(t, action));
    }
  }

  /** In every state of every run a client with an id nobody has had yet can connect to any node. */
  lemma AnyoneConnects(nodes: set<NodeId>, states: seq<State>, steps: seq<Step>, i: nat, t: TransactionId)
    requires IsRun(nodes, states, steps) && i <= |steps| && t !in states[i].sessions && !t.IsDefault() && t.coordinator in nodes
    ensures Enabled(states[i], Step(t, Connect))
  {
    RunInv(nodes, states, steps, i);
  }
}

/** Where requests, answers, votes and verdicts go: what is in flight after each step of a run. */
module Deliveries {
  import opened TransactionIds
  import opened Objects
  import opened Ledger
  import opened Tables
  import S = Store
  import opened Protocol
  import opened Coordination
  import opened CoordinationSteps
  import opened Coordinator
  import opened Cluster
  import opened Progress

  // ----- requests

  /** An operation is looked for on the node that its account's first character names, and given up exactly when that is no node. */
  lemma AskRoutes(nodes: set<NodeId>, states: seq<State>, steps: seq<Step>, i: nat, t: TransactionId, req: ClientRequest)
    requires IsRun(nodes, states, steps) && i < |steps| && steps[i] == Step(t, Ask(req)) && (req.WriteBalance? || req.ReadBalance?)
    ensures t in states[i + 1].sessions
    ensures var sess, home := states[i + 1].sessions[t], if req.account == "" then t.coordinator else req.account[0];
            && (sess.phase == Aborting(AbortedNotFound) <==> Unrouted(req.account, nodes))
            && (!Unrouted(req.account, nodes) && home != t.coordinator <==> Forward(Node(home), req) in sess.flight)
            && (!Unrouted(req.account, nodes) && home == t.coordinator <==> JobFor(sess.flight, home, req, states[i].store.objects))
  {
    RunStep(nodes, states, steps, i);
    RunAt(nodes, states, steps, i, t);
    Routing(req.account, t.coordinator, nodes);
    assert forall x :: x !in states[i].sessions[t].flight;
    var job := Job(t.coordinator, WorkFor(req, states[i].store.objects, t.coordinator), S.None);
    assert Serves(job.work, req, states[i].store.objects, t.coordinator);
    assert job in states[i + 1].sessions[t].flight ==> JobFor(states[i + 1].sessions[t].flight, t.coordinator, req, states[i].store.objects);
  }

  /** A job on the node, not parked, that does what was asked for. */
  ghost predicate JobFor(flight: multiset<Token>, node: NodeId, req: ClientRequest, objects: Table) {
    exists tok :: tok in flight && tok.Job? && tok.node == node && tok.parked.None? && Serves(tok.work, req, objects, node)
  }

  ghost predicate InstallsOn(flight: multiset<Token>, node: NodeId, objects: Table) {
    exists tok :: tok in flight && tok.Job? && tok.node == node && tok.parked.None? && tok.work.Install? && Untouched(tok.work.scan, objects, node)
  }

  /** The local shard begins to check a commit that is asked for, and an abort that is asked for begins; a client that hangs up is reaped. */
  lemma AskStarts(nodes: set<NodeId>, states: seq<State>, steps: seq<Step>, i: nat)
    requires IsRun(nodes, states, steps) && i < |steps|
    ensures var t, a := steps[i].tx, steps[i].action;
            && (a == Ask(Abort) ==> t in states[i + 1].sessions && states[i + 1].sessions[t].phase == Aborting(Aborted))
            && (a == Ask(Commit) ==>
                  && t in states[i + 1].sessions && states[i + 1].sessions[t].phase == Checking
                  && JobFor(states[i + 1].sessions[t].flight, t.coordinator, Commit, states[i].store.objects))
            && (a == Hangup ==> t in states[i + 1].sessions && states[i + 1].sessions[t].phase == Closed(S.None) && Finished in states[i + 1].sessions[t].flight)
  {
    RunStep(nodes, states, steps, i);
    var t := steps[i].tx;
    if steps[i].action == Ask(Commit) {
      var job := Job(t.coordinator, Check(FreshScan(states[i].store.objects, t.coordinator)), S.None);
      assert job in states[i + 1].sessions[t].flight && Serves(job.work, Commit, states[i].store.objects, t.coordinator);
    }
  }

  /** An abort erases the transaction on the coordinator's shard, and then every peer is asked to. */
  lemma AbortStarts(nodes: set<NodeId>, states: seq<State>, steps: seq<Step>, i: nat, t: TransactionId)
    requires IsRun(nodes, states, steps) && i < |steps| && steps[i] == Step(t, AbortLocally)
    ensures t in states[i].sessions && t in states[i + 1].sessions
    ensures Absent(states[i + 1].store.objects, t, t.coordinator)
    ensures var sess, sess' := states[i].sessions[t], states[i + 1].sessions[t];
            sess.phase.Aborting? && sess'.phase.AwaitAborts? && sess'.phase.resp == sess.phase.resp && Forward(Broadcast, Abort) in sess'.flight
  {
    RunStep(nodes, states, steps, i);
    RunAt(nodes, states, steps, i + 1, t);
  }

  /** A request becomes a job that does what was asked for. */
  ghost predicate Serves(work: Work, req: ClientRequest, objects: Table, node: NodeId) {
    match req
    case WriteBalance(a, d) => work == Fetch(a, d)
    case ReadBalance(a) => work == Query(a)
    case Commit => work.Check? && Untouched(work.scan, objects, node)
    case Abort => work == Erase
  }

  /** A scan at its beginning: every object of the shard is still to visit. */
  ghost predicate Untouched(scan: Scan, objects: Table, node: NodeId) {
    (forall k :: k in scan.todo <==> k in objects && k.shard == node) && !scan.failed && scan.waits == {}
  }

  // ----- nothing is taken twice, and nothing else is lost

  /** The token a step takes. */
  function Taken(action: Action): Token
    requires action.Receive? || action.Serve? || action.Act?
  {
    match action
    case Receive(resp, from) => Incoming(resp, from)
    case Serve(tok) => tok
    case Act(job, _) => job
  }

  ghost predicate Takes(sess: Session, sess': Session, tok: Token) {
    tok !in sess'.flight && forall x :: x in sess.flight && x != tok ==> x in sess'.flight
  }

  lemma SwapTakes(sess: Session, tok: Token, news: multiset<Token>)
    requires sess.flight[tok] == 1 && tok !in news
    ensures Takes(sess, Swap(sess, tok, news), tok)
    ensures forall x :: x in news ==> x in Swap(sess, tok, news).flight
  {
  }

  lemma ReceiveTakes(nodes: set<NodeId>, t: TransactionId, sess: Session, objects: Table, resp: ClientResponse, from: NodeId)
    requires sess.flight[Incoming(resp, from)] == 1
    requires sess.phase == AwaitReply || sess.phase == AwaitVotes || sess.phase.AwaitAborts?
    ensures Takes(sess, OnReceive(nodes, t, sess, objects, resp, from).session, Incoming(resp, from))
  {
    SwapTakes(sess, Incoming(resp, from), multiset{});
  }

  /** What a token other than a vote calls for is in flight once the server has taken it up. */
  ghost predicate Delivered(nodes: set<NodeId>, t: TransactionId, sess': Session, objects: Table, tok: Token) {
    match tok
    case Forward(Node(p), req) => Packet(t.coordinator, p, Request(req)) in sess'.flight
    case Forward(Broadcast, req) => forall p :: p in Peers(nodes, t) ==> Packet(t.coordinator, p, Request(req)) in sess'.flight
    case Finished => sess'.handle.None?
    case Packet(_, dst, Request(req)) => JobFor(sess'.flight, dst, req, objects)
    case Packet(src, _, Response(resp)) => Incoming(resp, src) in sess'.flight
    case Packet(_, dst, DoCommit) => InstallsOn(sess'.flight, dst, objects)
    case _ => true
  }

  lemma ForwardMoves(nodes: set<NodeId>, t: TransactionId, sess: Session, objects: Table, tok: Token)
    requires sess.flight[tok] == 1 && (tok.Forward? || tok.Finished?)
    ensures var sess' := OnServe(nodes, t, sess, objects, tok).session;
            Takes(sess, sess', tok) && Delivered(nodes, t, sess', objects, tok)
  {
    match tok
    case Forward(Node(p), req) => SwapTakes(sess, tok, multiset{Packet(t.coordinator, p, Request(req))});
    case Forward(Broadcast, req) =>
      Broadcasted(t, nodes, Request(req));
      SwapTakes(sess, tok, Bcast(t, nodes, Request(req)));
    case Finished => SwapTakes(sess, tok, multiset{});
  }

  lemma RequestMoves(nodes: set<NodeId>, t: TransactionId, sess: Session, objects: Table, tok: Token)
    requires sess.flight[tok] == 1 && tok.Packet? && tok.msg.Request?
    ensures var sess' := OnServe(nodes, t, sess, objects, tok).session;
            Takes(sess, sess', tok) && Delivered(nodes, t, sess', objects, tok)
  {
    var job := Job(tok.dst, WorkFor(tok.msg.req, objects, tok.dst), S.None);
    SwapTakes(sess, tok, multiset{job});
    assert job in Swap(sess, tok, multiset{job}).flight && Serves(job.work, tok.msg.req, objects, tok.dst);
  }

  lemma DoCommitMoves(nodes: set<NodeId>, t: TransactionId, sess: Session, objects: Table, tok: Token)
    requires sess.flight[tok] == 1 && tok.Packet? && tok.msg.DoCommit?
    ensures var sess' := OnServe(nodes, t, sess, objects, tok).session;
            Takes(sess, sess', tok) && Delivered(nodes, t, sess', objects, tok)
  {
    var job := Job(tok.dst, Install(FreshScan(objects, tok.dst)), S.None);
    SwapTakes(sess, tok, multiset{job});
    assert job in Swap(sess, tok, multiset{job}).flight && Untouched(job.work.scan, objects, tok.dst);
  }

  lemma ServeMoves(nodes: set<NodeId>, t: TransactionId, sess: Session, objects: Table, tok: Token)
    requires sess.flight[tok] == 1 && (tok.Forward? || tok.Finished? || (tok.Packet? && !tok.msg.TwoPhaseCommitStatus?))
    requires tok.Packet? && tok.msg.Response? ==> sess.handle.Some?
    ensures var sess' := OnServe(nodes, t, sess, objects, tok).session;
            Takes(sess, sess', tok) && Delivered(nodes, t, sess', objects, tok)
  {
    if !tok.Packet? {
      ForwardMoves(nodes, t, sess, objects, tok);
    } else if tok.msg.Request? {
      RequestMoves(nodes, t, sess, objects, tok);
    } else if tok.msg.DoCommit? {
      DoCommitMoves(nodes, t, sess, objects, tok);
    } else {
      SwapTakes(sess, tok, multiset{Incoming(tok.msg.resp, tok.src)});
    }
  }

  /** In every run a token the server takes up is gone, nothing else is lost, and what it calls for is in flight. */
  lemma ServeDelivers(nodes: set<NodeId>, states: seq<State>, steps: seq<Step>, i: nat, t: TransactionId, tok: Token)
    requires IsRun(nodes, states, steps) && i < |steps| && steps[i] == Step(t, Serve(tok))
    requires !(tok.Packet? && tok.msg.TwoPhaseCommitStatus?)
    ensures t in states[i].sessions && t in states[i + 1].sessions && tok in states[i].sessions[t].flight
    ensures Takes(states[i].sessions[t], states[i + 1].sessions[t], tok)
    ensures Delivered(nodes, t, states[i + 1].sessions[t], states[i].store.objects, tok)
  {
    RunStep(nodes, states, steps, i);
    RunAt(nodes, states, steps, i, t);
    if tok.Packet? && tok.msg.Response? { ResponseFine(states[i], t, tok); }
    ServeMoves(nodes, t, states[i].sessions[t], states[i].store.objects, tok);
  }

  // ----- votes and verdicts

  ghost predicate Sends(nodes: set<NodeId>, t: TransactionId, sess': Session, verdict: Option<ClientResponse>) {
    && (forall resp :: Incoming(resp, t.coordinator) in sess'.flight <==> verdict == S.Some(resp))
    && (verdict == S.Some(CommitOk) ==> forall p :: p in Peers(nodes, t) ==> Packet(t.coordinator, p, DoCommit) in sess'.flight)
  }

  lemma FlightSum(a: multiset<Token>, b: multiset<Token>, c: multiset<Token>)
    ensures a + multiset{} == a && a + b + c == a + (b + c) && b + multiset{} == b
  {
  }

  lemma VoteNews(nodes: set<NodeId>, t: TransactionId, sess: Session, tok: Token)
    requires tok.Packet? && tok.msg.TwoPhaseCommitStatus? && sess.handle.Some?
    ensures var h := CountVote(sess.handle.value, tok.src, tok.msg.status);
            OnVote(nodes, t, sess, tok).session ==
              Swap(sess, tok, VerdictNews(nodes, t, Tally(h, |Peers(nodes, t)|))).(handle := S.Some(h))
  {
    var rest, verdict := sess.flight - multiset{tok}, Tally(CountVote(sess.handle.value, tok.src, tok.msg.status), |Peers(nodes, t)|);
    if verdict.Some? {
      FlightSum(rest, multiset{Incoming(verdict.value, t.coordinator)}, Bcast(t, nodes, DoCommit));
    }
  }

  lemma VoteSends(nodes: set<NodeId>, t: TransactionId, sess: Session, tok: Token)
    requires sess.flight[tok] == 1 && tok.Packet? && tok.msg.TwoPhaseCommitStatus? && sess.handle.Some?
    requires forall x :: x in sess.flight ==> !x.Incoming?
    ensures var sess' := OnVote(nodes, t, sess, tok).session;
            sess'.handle.Some? && Takes(sess, sess', tok) && Sends(nodes, t, sess', Tally(sess'.handle.value, |Peers(nodes, t)|))
  {
    var news := VerdictNews(nodes, t, Tally(CountVote(sess.handle.value, tok.src, tok.msg.status), |Peers(nodes, t)|));
    VoteNews(nodes, t, sess, tok);
    Broadcasted(t, nodes, DoCommit);
    SwapTakes(sess, tok, news);
  }

  ghost function VerdictNews(nodes: set<NodeId>, t: TransactionId, verdict: Option<ClientResponse>): multiset<Token> {
    match verdict
    case None => multiset{}
    case Some(resp) => multiset{Incoming(resp, t.coordinator)} + if resp == CommitOk then Bcast(t, nodes, DoCommit) else multiset{}
  }

  /**
   * In every run, once a vote is taken in, the client has been sent CommitOk exactly when one Ready vote of
   * every peer has come in, and Aborted exactly when all have voted, not all Ready; and with CommitOk every
   * peer is sent DoCommit.
   */
  lemma VerdictIsSent(nodes: set<NodeId>, states: seq<State>, steps: seq<Step>, i: nat, t: TransactionId)
    requires IsRun(nodes, states, steps) && i < |steps| && steps[i].tx == t && VoteIn(steps[i]) != []
    ensures t in states[i].sessions && t in states[i + 1].sessions
    ensures var sess, sess', votes, peers := states[i].sessions[t], states[i + 1].sessions[t], VotesIn(steps[..i + 1], t), Peers(nodes, t);
            && Takes(sess, sess', steps[i].action.tok)
            && (Incoming(CommitOk, t.coordinator) in sess'.flight <==> AllReady(votes) && Senders(votes) == peers)
            && (Incoming(Aborted, t.coordinator) in sess'.flight <==> !AllReady(votes) && Senders(votes) == peers)
            && (AllReady(votes) && Senders(votes) == peers ==> forall p :: p in peers ==> Packet(t.coordinator, p, DoCommit) in sess'.flight)
  {
    RunStep(nodes, states, steps, i);
    RunAt(nodes, states, steps, i, t);
    var sess, tok := states[i].sessions[t], steps[i].action.tok;
    VoteIsNew(nodes, t, sess, states[i].store.txs[t], states[i].store.objects, tok);
    VoteSends(nodes, t, sess, tok);
    VerdictIsQuorum(nodes, states, steps, i + 1, t);
  }

  // ----- scans

  /** t's write on the object is the oldest tentative one and leaves a negative balance. */
  ghost predicate Overdraws(objects: Table, t: TransactionId, k: Key) {
    k in objects && t in objects[k].tentative && objects[k].tentative[t] < 0 && forall w :: w in objects[k].tentative ==> t.Le(w)
  }

  /** t's write on the object is behind that of u, the oldest. */
  ghost predicate Behind(objects: Table, t: TransactionId, k: Key, u: TransactionId) {
    k in objects && t in objects[k].tentative && u in objects[k].tentative && u != t && forall w :: w in objects[k].tentative ==> u.Le(w)
  }

  /** One more visit: the scan leaves the object behind and reports an overdraft, or a wait, exactly when there is one. */
  ghost predicate Reports(scan: Scan, scan': Scan, objects: Table, t: TransactionId, k: Key) {
    && scan'.todo == scan.todo - {k}
    && (scan'.failed <==> scan.failed || Overdraws(objects, t, k))
    && (forall u :: u in scan'.waits <==> u in scan.waits || Behind(objects, t, k, u))
  }

  lemma CheckReports(t: TransactionId, sess: Session, objects: Table, job: Token, k: Key) returns (scan': Scan)
    requires job.Job? && job.work.Check?
    ensures OnCheck(t, sess, objects, job, Visit(k)).session == Swap(sess, job, multiset{Job(job.node, Check(scan'), S.None)})
    ensures Reports(job.work.scan, scan', objects, t, k)
  {
    scan' := CheckVisitSwaps(t, sess, objects, job, k);
    if k in objects { CheckPassesOldest(objects[k], t); }
  }

  lemma InstallReports(t: TransactionId, sess: Session, objects: Table, job: Token, k: Key) returns (scan': Scan)
    requires job.Job? && job.work.Install?
    ensures OnInstall(t, sess, objects, job, Visit(k)).session == Swap(sess, job, multiset{Job(job.node, Install(scan'), S.None)})
    ensures Reports(job.work.scan, scan', objects, t, k)
  {
    scan' := InstallVisitSwaps(t, sess, objects, job, k);
    if k in objects { CheckPassesOldest(objects[k], t); }
  }

  lemma CheckTakes(t: TransactionId, sess: Session, objects: Table, job: Token, choice: Choice)
    requires sess.flight[job] == 1 && job.Job? && job.parked.None? && job.work.Check? && ScanReady(job.work.scan, choice)
    ensures Takes(sess, OnCheck(t, sess, objects, job, choice).session, job)
  {
    match choice
    case Visit(k) =>
      var scan := CheckVisitSwaps(t, sess, objects, job, k);
      assert k in job.work.scan.todo && k !in scan.todo;
      SwapTakes(sess, job, multiset{Job(job.node, Check(scan), S.None)});
    case Retry(u) => SwapTakes(sess, job, multiset{Job(job.node, Check(FreshScan(objects, job.node)), S.Some(u))});
    case Finish =>
      SwapTakes(sess, job, multiset{});
      SwapTakes(sess, job, multiset{Packet(job.node, t.coordinator, TwoPhaseCommitStatus(ReadyToCommit))});
    case Fail =>
      SwapTakes(sess, job, multiset{});
      SwapTakes(sess, job, multiset{Packet(job.node, t.coordinator, TwoPhaseCommitStatus(CannotCommit))});
  }

  lemma InstallTakes(t: TransactionId, sess: Session, objects: Table, job: Token, choice: Choice)
    requires sess.flight[job] == 1 && job.Job? && job.parked.None? && job.work.Install? && ScanReady(job.work.scan, choice)
    ensures Takes(sess, OnInstall(t, sess, objects, job, choice).session, job)
  {
    match choice
    case Visit(k) =>
      var scan := InstallVisitSwaps(t, sess, objects, job, k);
      assert k in job.work.scan.todo && k !in scan.todo;
      SwapTakes(sess, job, multiset{Job(job.node, Install(scan), S.None)});
    case Retry(u) => SwapTakes(sess, job, multiset{Job(job.node, Install(FreshScan(objects, job.node)), S.Some(u))});
    case _ => SwapTakes(sess, job, multiset{});
  }

  lemma ActTakes(t: TransactionId, sess: Session, objects: Table, job: Token, choice: Choice)
    requires sess.flight[job] == 1 && job.Job? && ChoiceReady(job, choice)
    ensures Takes(sess, OnAct(t, sess, objects, job, choice).session, job)
  {
    if job.parked.Some? {
      SwapTakes(sess, job, multiset{job.(parked := S.None)});
    } else if job.work.Check? {
      CheckTakes(t, sess, objects, job, choice);
    } else if job.work.Install? {
      InstallTakes(t, sess, objects, job, choice);
    } else if job.work.Erase? {
      SwapTakes(sess, job, multiset{Answer(t, job.node, Aborted)});
    } else {
      OpSwaps(t, sess, objects, job);
      OpLeavesOther(t, objects, job);
      SwapTakes(sess, job, multiset{OpLeaves(t, objects, job)});
    }
  }

  /** In every run a step that takes up something in flight takes just that, for good. */
  lemma TokenTaken(nodes: set<NodeId>, states: seq<State>, steps: seq<Step>, i: nat)
    requires IsRun(nodes, states, steps) && i < |steps| && (steps[i].action.Receive? || steps[i].action.Serve? || steps[i].action.Act?)
    ensures var t, tok := steps[i].tx, Taken(steps[i].action);
            && t in states[i].sessions && t in states[i + 1].sessions
            && tok in states[i].sessions[t].flight && Takes(states[i].sessions[t], states[i + 1].sessions[t], tok)
  {
    var t, tok := steps[i].tx, Taken(steps[i].action);
    RunStep(nodes, states, steps, i);
    RunAt(nodes, states, steps, i, t);
    var sess, objects := states[i].sessions[t], states[i].store.objects;
    match steps[i].action
    case Receive(resp, from) => ReceiveTakes(nodes, t, sess, objects, resp, from);
    case Serve(x) =>
      if x.Packet? && x.msg.TwoPhaseCommitStatus? {
        VerdictIsSent(nodes, states, steps, i, t);
      } else {
        ServeDelivers(nodes, states, steps, i, t, x);
      }
    case Act(job, choice) => ActTakes(t, sess, objects, job, choice);
  }

  /** A scan ends only when every object has been visited: well when nothing was reported, badly for an overdraft, again for a wait. */
  lemma ScanEnds(nodes: set<NodeId>, states: seq<State>, steps: seq<Step>, i: nat, t: TransactionId, job: Token)
    requires IsRun(nodes, states, steps) && i <= |steps| && t in states[i].sessions && job in states[i].sessions[t].flight
    requires job.Job? && job.parked.None? && (job.work.Check? || job.work.Install?)
    ensures var scan := job.work.scan;
            && (Enabled(states[i], Step(t, Act(job, Finish))) <==> (forall k :: k !in scan.todo) && !scan.failed && forall u :: u !in scan.waits)
            && (Enabled(states[i], Step(t, Act(job, Fail))) <==> (forall k :: k !in scan.todo) && scan.failed)
            && (forall u :: Enabled(states[i], Step(t, Act(job, Retry(u)))) <==> (forall k :: k !in scan.todo) && u in scan.waits)
            && (forall k :: Enabled(states[i], Step(t, Act(job, Visit(k)))) <==> k in scan.todo)
  {
  }

  /** The scan goes on, on the same node and for the same purpose. */
  ghost predicate GoesOn(flight: multiset<Token>, job: Token, parked: Option<TransactionId>, scan: Scan)
    requires job.Job? && (job.work.Check? || job.work.Install?)
  {
    Job(job.node, if job.work.Check? then Check(scan) else Install(scan), parked) in flight
  }

  /**
   * In every run, a visit of a commit check or of an install reports an overdraft, or a wait for the oldest
   * writer, exactly when there is one.
   */
  lemma VisitReports(nodes: set<NodeId>, states: seq<State>, steps: seq<Step>, i: nat, t: TransactionId, job: Token, k: Key) returns (scan': Scan)
    requires IsRun(nodes, states, steps) && i < |steps| && steps[i] == Step(t, Act(job, Visit(k)))
    ensures t in states[i + 1].sessions && job.Job? && (job.work.Check? || job.work.Install?)
    ensures GoesOn(states[i + 1].sessions[t].flight, job, S.None, scan')
    ensures Reports(job.work.scan, scan', states[i].store.objects, t, k)
  {
    RunStep(nodes, states, steps, i);
    if job.work.Check? {
      scan' := CheckReports(t, states[i].sessions[t], states[i].store.objects, job, k);
    } else {
      scan' := InstallReports(t, states[i].sessions[t], states[i].store.objects, job, k);
    }
  }

  /** In every run, a scan that has to wait is parked on somebody it reported, and begins again with every object of its shard. */
  lemma RetryParks(nodes: set<NodeId>, states: seq<State>, steps: seq<Step>, i: nat, t: TransactionId, job: Token, u: TransactionId) returns (scan': Scan)
    requires IsRun(nodes, states, steps) && i < |steps| && steps[i] == Step(t, Act(job, Retry(u)))
    ensures t in states[i + 1].sessions && job.Job? && (job.work.Check? || job.work.Install?) && u in job.work.scan.waits
    ensures GoesOn(states[i + 1].sessions[t].flight, job, S.Some(u), scan')
    ensures Untouched(scan', states[i].store.objects, job.node)
  {
    RunStep(nodes, states, steps, i);
    scan' := FreshScan(states[i].store.objects, job.node);
  }
}

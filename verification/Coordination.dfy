/**
 * The invariant of the protocol, one transaction at a time: what is in flight in each phase, who has
 * voted or acknowledged, and what the shards still hold. It needs no assumption on the run.
 */
module Coordination {
  import opened TransactionIds
  import opened Ledger
  import opened Tables
  import S = Store
  import opened Protocol

  // ----- what may be in flight

  /** The node a token concerns: the peer it was sent to, came from or runs on, else the coordinator. */
  function Slot(t: TransactionId, tok: Token): NodeId {
    match tok
    case Packet(src, dst, _) => if src == t.coordinator then dst else src
    case Job(node, _, _) => node
    case Incoming(_, from) => from
    case _ => t.coordinator
  }

  /** At most one token per node. */
  ghost predicate OneEach(t: TransactionId, flight: multiset<Token>) {
    && (forall a :: a in flight ==> flight[a] == 1)
    && (forall a, b :: a in flight && b in flight && Slot(t, a) == Slot(t, b) ==> a == b)
  }

  /** A token that is alone in flight. */
  predicate Solo(phase: Phase, tok: Token) {
    phase == AwaitReply || tok.Forward?
  }

  ghost predicate Alone(phase: Phase, flight: multiset<Token>) {
    forall a, b :: a in flight && b in flight && Solo(phase, a) ==> a == b
  }

  lemma Replaced(t: TransactionId, flight: multiset<Token>, before: Token, after: Token)
    requires OneEach(t, flight) && before in flight && Slot(t, after) == Slot(t, before)
    ensures var f := flight - multiset{before} + multiset{after};
            OneEach(t, f) && forall x :: x in f <==> x == after || (x in flight && x != before)
  {
  }

  lemma Removed(t: TransactionId, flight: multiset<Token>, before: Token)
    requires OneEach(t, flight) && before in flight
    ensures var f := flight - multiset{before};
            OneEach(t, f) && forall x :: x in f <==> x in flight && x != before
    ensures flight - multiset{before} + multiset{} == flight - multiset{before}
  {
  }

  lemma RemovedLast(flight: multiset<Token>, before: Token)
    requires before in flight && flight[before] == 1 && forall x :: x in flight ==> x == before
    ensures flight - multiset{before} == multiset{}
  {
    assert forall x :: (flight - multiset{before})[x] == 0;
  }

  lemma Broadcasted(t: TransactionId, nodes: set<NodeId>, msg: Forwarded)
    ensures OneEach(t, Bcast(t, nodes, msg))
    ensures forall x :: x in Bcast(t, nodes, msg) <==> x.Packet? && x.src == t.coordinator && x.dst in Peers(nodes, t) && x.msg == msg
  {
  }

  // ----- operations

  /** The request that makes a client's operation. */
  function AskedFor(op: Op): ClientRequest {
    match op
    case Look(k, _) => ReadBalance(k.account)
    case Change(k, d, _) => WriteBalance(k.account, d)
  }

  function ToldAbout(op: Op): ClientResponse {
    match op
    case Look(k, v) => Value(k.account, v)
    case Change(_, _, _) => Ok
  }

  function AskedOf(log: Log): seq<ClientRequest> {
    seq(|log|, i requires 0 <= i < |log| => AskedFor(log[i]))
  }

  function RepliesOf(log: Log): seq<ClientResponse> {
    seq(|log|, i requires 0 <= i < |log| => ToldAbout(log[i]))
  }

  /** All the client asked for is done, and it was told so. */
  ghost predicate InStep(sess: Session, tx: S.Tx) {
    AskedOf(tx.log) == sess.asked && RepliesOf(tx.log) == sess.replies
  }

  /** The client's last request is still to be done. */
  ghost predicate Due(sess: Session, tx: S.Tx, req: ClientRequest) {
    AskedOf(tx.log) + [req] == sess.asked && RepliesOf(tx.log) == sess.replies
  }

  /** The client's last request is done, and it is about to be told so. */
  ghost predicate Answering(sess: Session, tx: S.Tx, resp: ClientResponse) {
    AskedOf(tx.log) == sess.asked && RepliesOf(tx.log) == sess.replies + [resp]
  }

  lemma LogAppend(log: Log, op: Op)
    ensures AskedOf(log + [op]) == AskedOf(log) + [AskedFor(op)]
    ensures RepliesOf(log + [op]) == RepliesOf(log) + [ToldAbout(op)]
  {
  }

  /** The account lives on this node. */
  predicate Owned(account: string, node: NodeId) {
    account != "" && account[0] == node
  }

  ghost predicate RoutedLog(nodes: set<NodeId>, log: Log) {
    forall op :: op in log ==> op.key.shard in nodes && Owned(op.key.account, op.key.shard)
  }

  predicate OpRequest(req: ClientRequest, node: NodeId) {
    (req.WriteBalance? || req.ReadBalance?) && Owned(req.account, node)
  }

  /** An answer the client has not seen yet. */
  ghost predicate AnswerOk(sess: Session, tx: S.Tx, resp: ClientResponse) {
    if resp.IsErr() then true
    else (resp.Ok? || resp.Value?) && tx.pending.None? && Answering(sess, tx, resp)
  }

  ghost predicate ParkedOk(t: TransactionId, parked: Option<TransactionId>) {
    parked.Some? ==> parked.value.Lt(t)
  }

  ghost predicate OpWorkOk(sess: Session, tx: S.Tx, node: NodeId, work: Work) {
    match work
    case Query(a) => Owned(a, node) && tx.pending.None? && Due(sess, tx, ReadBalance(a))
    case Fetch(a, d) => Owned(a, node) && tx.pending.None? && Due(sess, tx, WriteBalance(a, d))
    case PutBack(put) =>
      put.key.shard == node && Owned(put.key.account, node) && tx.pending == S.Some(put)
      && Due(sess, tx, WriteBalance(put.key.account, put.diff))
    case _ => false
  }

  ghost predicate OpToken(nodes: set<NodeId>, t: TransactionId, sess: Session, tx: S.Tx, tok: Token) {
    var c, peers := t.coordinator, Peers(nodes, t);
    match tok
    case Forward(Node(p), req) => p in peers && OpRequest(req, p) && tx.pending.None? && Due(sess, tx, req)
    case Packet(src, dst, Request(req)) =>
      src == c && dst in peers && OpRequest(req, dst) && tx.pending.None? && Due(sess, tx, req)
    case Job(p, work, parked) => p in nodes && OpWorkOk(sess, tx, p, work) && ParkedOk(t, parked)
    case Packet(src, dst, Response(r)) => src in peers && dst == c && AnswerOk(sess, tx, r)
    case Incoming(r, from) => AnswerOk(sess, tx, r)
    case _ => false
  }

  // ----- commit checks

  /** Every tentative write of t at the node has passed its check. */
  ghost predicate AllChecked(objects: Table, t: TransactionId, tx: S.Tx, node: NodeId) {
    forall k :: k in objects && k.shard == node && t in objects[k].tentative ==> k in tx.checked
  }

  ghost predicate CheckScanOk(objects: Table, t: TransactionId, tx: S.Tx, node: NodeId, scan: Scan) {
    && (forall u :: u in scan.waits ==> u.Lt(t))
    && (!scan.failed && scan.waits == {} ==>
          forall k :: k in objects && k.shard == node && t in objects[k].tentative ==> k in scan.todo || k in tx.checked)
  }

  ghost predicate VoteToken(nodes: set<NodeId>, t: TransactionId, sess: Session, tx: S.Tx, objects: Table, tok: Token)
    requires sess.handle.Some?
  {
    var c, left := t.coordinator, Peers(nodes, t) - sess.handle.value.voters;
    match tok
    case Forward(Broadcast, req) => req == Commit && sess.handle.value.voters == {}
    case Packet(src, dst, Request(req)) => src == c && dst in left && req == Commit
    case Job(p, Check(scan), parked) => p in left && CheckScanOk(objects, t, tx, p, scan) && ParkedOk(t, parked)
    case Packet(src, dst, TwoPhaseCommitStatus(st)) => src in left && dst == c && (st == ReadyToCommit ==> src in sess.passed)
    case Incoming(r, from) =>
      r == Aborted && from == c && sess.handle.value.count == |Peers(nodes, t)|
    case _ => false
  }

  // ----- installs

  ghost predicate InstallToken(nodes: set<NodeId>, t: TransactionId, tok: Token) {
    var c, peers := t.coordinator, Peers(nodes, t);
    match tok
    case Packet(src, dst, msg) => src == c && dst in peers && msg == DoCommit
    case Job(p, Install(scan), parked) =>
      p in peers && ParkedOk(t, parked) && !scan.failed && forall u :: u in scan.waits ==> u.Lt(t)
    case _ => false
  }

  ghost predicate LocalInstall(t: TransactionId, tok: Token) {
    tok.Job? && tok.node == t.coordinator && ParkedOk(t, tok.parked)
    && tok.work.Install? && !tok.work.scan.failed && forall u :: u in tok.work.scan.waits ==> u.Lt(t)
  }

  /** The token answers for t's write on k being installed. */
  ghost predicate Owes(t: TransactionId, tok: Token, k: Key) {
    match tok
    case Incoming(r, _) => r == CommitOk && k.shard == t.coordinator
    case Packet(_, dst, msg) => msg == DoCommit && dst == k.shard
    case Job(p, Install(scan), _) => p == k.shard && (k in scan.todo || scan.waits != {})
    case _ => false
  }

  ghost predicate AllOwed(t: TransactionId, sess: Session, objects: Table) {
    forall k :: k in objects && t in objects[k].tentative ==> exists tok :: tok in sess.flight && Owes(t, tok, k)
  }

  // ----- aborts

  ghost predicate AbortToken(nodes: set<NodeId>, t: TransactionId, sess: Session, objects: Table, tok: Token)
    requires sess.phase.AwaitAborts?
  {
    var c, left := t.coordinator, Peers(nodes, t) - sess.phase.acked;
    match tok
    case Forward(Broadcast, req) => req == Abort && sess.phase.acked == {}
    case Packet(src, dst, Request(req)) => src == c && dst in left && req == Abort
    case Job(p, work, parked) => p in left && work == Erase && parked.None?
    case Packet(src, dst, Response(r)) => src in left && dst == c && r == Aborted && Absent(objects, t, src)
    case Incoming(r, from) => from in left && r == Aborted && Absent(objects, t, from)
    case _ => false
  }

  // ----- the whole session

  ghost predicate TokenOk(nodes: set<NodeId>, t: TransactionId, sess: Session, tx: S.Tx, objects: Table, tok: Token) {
    match sess.phase
    case AwaitReply => OpToken(nodes, t, sess, tx, tok)
    case Checking =>
      tok.Job? && tok.node == t.coordinator && ParkedOk(t, tok.parked)
      && tok.work.Check? && CheckScanOk(objects, t, tx, t.coordinator, tok.work.scan)
    case AwaitVotes =>
      if tx.status == S.Preparing then sess.handle.Some? && VoteToken(nodes, t, sess, tx, objects, tok)
      else InstallToken(nodes, t, tok) || tok == Incoming(CommitOk, t.coordinator)
    case Committing => InstallToken(nodes, t, tok) || LocalInstall(t, tok)
    case AwaitAborts(_, _, _) => AbortToken(nodes, t, sess, objects, tok)
    case Closed(reply) =>
      (tok == Finished && sess.handle.Some?) || (reply == S.Some(CommitOk) && InstallToken(nodes, t, tok))
    case _ => false
  }

  ghost predicate PhaseOk(nodes: set<NodeId>, t: TransactionId, sess: Session, tx: S.Tx, objects: Table) {
    match sess.phase
    case Idle =>
      tx.status == S.Running && tx.pending.None? && InStep(sess, tx) && Unvoted(sess)
    case AwaitReply => tx.status == S.Running && Unvoted(sess)
    case Checking => tx.status == S.Preparing && Unvoted(sess) && InStep(sess, tx)
    case AwaitVotes => VotesOk(nodes, t, sess, tx)
    case Committing => DecidedOk(nodes, sess, tx) && sess.handle.Some?
    case Aborting(resp) => tx.status == S.Aborted && sess.handle.Some? && resp.IsErr()
    case AwaitAborts(count, acked, resp) =>
      && tx.status == S.Aborted && sess.handle.Some? && resp.IsErr()
      && acked <= Peers(nodes, t) && |acked| < |Peers(nodes, t)| && count == 1 + |acked|
      && Absent(objects, t, t.coordinator) && forall p :: p in acked ==> Absent(objects, t, p)
    case Closed(reply) =>
      match reply
      case None => tx.status == S.Running && sess.passed == {}
      case Some(r) =>
        if r == CommitOk then DecidedOk(nodes, sess, tx)
        else r.IsErr() && tx.status == S.Aborted && forall p :: p in nodes ==> Absent(objects, t, p)
  }

  predicate Unvoted(sess: Session) {
    sess.handle == S.Some(NEW_HANDLE) && sess.passed == {}
  }

  ghost predicate VotesOk(nodes: set<NodeId>, t: TransactionId, sess: Session, tx: S.Tx) {
    && sess.handle.Some?
    && InStep(sess, tx)
    && var h, peers := sess.handle.value, Peers(nodes, t);
    && h.voters <= peers && h.count == |h.voters|
    && t.coordinator in sess.passed
    && (h.status == ReadyToCommit ==> h.voters <= sess.passed)
    && (tx.status == S.Preparing || DecidedOk(nodes, sess, tx))
  }

  ghost predicate DecidedOk(nodes: set<NodeId>, sess: Session, tx: S.Tx) {
    tx.status == S.Committed && nodes <= sess.passed && InStep(sess, tx)
  }

  /** t's own entries: where they may be, and which of them have been checked. */
  ghost predicate EntriesOk(nodes: set<NodeId>, t: TransactionId, sess: Session, tx: S.Tx, objects: Table) {
    && (forall k :: k in objects && t in objects[k].tentative ==> k.shard in nodes)
    && (tx.status == S.Preparing ==> forall p :: p in sess.passed ==> AllChecked(objects, t, tx, p))
    && (tx.status == S.Committed ==> AllOwed(t, sess, objects))
    && RoutedLog(nodes, tx.log)
  }

  ghost predicate FlightOk(nodes: set<NodeId>, t: TransactionId, sess: Session, tx: S.Tx, objects: Table) {
    && OneEach(t, sess.flight)
    && Alone(sess.phase, sess.flight)
    && forall tok :: tok in sess.flight ==> TokenOk(nodes, t, sess, tx, objects, tok)
  }

  ghost predicate SessionInv(nodes: set<NodeId>, t: TransactionId, sess: Session, tx: S.Tx, objects: Table) {
    && t.coordinator in nodes
    && !sess.fault
    && PhaseOk(nodes, t, sess, tx, objects)
    && EntriesOk(nodes, t, sess, tx, objects)
    && FlightOk(nodes, t, sess, tx, objects)
  }

  ghost predicate At(s: State, t: TransactionId) {
    t in s.sessions && t in s.store.txs && SessionInv(s.nodes, t, s.sessions[t], s.store.txs[t], s.store.objects)
  }

  ghost predicate Inv(s: State) {
    && |s.nodes| >= 2
    && S.Base(s.store)
    && s.sessions.Keys == s.store.txs.Keys
    && forall t {:trigger At(s, t)} :: t in s.sessions ==> At(s, t)
  }

  // ----- other transactions' steps

  /** No entry of t was added or changed. */
  ghost predicate OthersOnly(t: TransactionId, objects: Table, objects': Table) {
    forall k :: k in objects' ==>
      && (t in objects'[k].tentative ==> k in objects && t in objects[k].tentative)
      && (t in objects'[k].readers ==> k in objects && t in objects[k].readers)
  }

  lemma EventOfOther(s: S.State, ev: S.Event, t: TransactionId)
    requires S.Enabled(s, ev) && ev.tx != t
    ensures OthersOnly(t, s.objects, S.Apply(s, ev).objects)
    ensures t in s.txs ==> t in S.Apply(s, ev).txs && S.Apply(s, ev).txs[t] == s.txs[t]
  {
  }

  lemma AbsentFrame(t: TransactionId, objects: Table, objects': Table, p: NodeId)
    requires OthersOnly(t, objects, objects') && Absent(objects, t, p)
    ensures Absent(objects', t, p)
  {
  }

  lemma TokenFrame(nodes: set<NodeId>, t: TransactionId, sess: Session, tx: S.Tx, objects: Table, objects': Table, tok: Token)
    requires TokenOk(nodes, t, sess, tx, objects, tok) && OthersOnly(t, objects, objects')
    ensures TokenOk(nodes, t, sess, tx, objects', tok)
  {
  }

  lemma PhaseFrame(nodes: set<NodeId>, t: TransactionId, sess: Session, tx: S.Tx, objects: Table, objects': Table)
    requires PhaseOk(nodes, t, sess, tx, objects) && OthersOnly(t, objects, objects')
    ensures PhaseOk(nodes, t, sess, tx, objects')
  {
    forall p | Absent(objects, t, p) ensures Absent(objects', t, p) { AbsentFrame(t, objects, objects', p); }
  }

  lemma SessionFrame(nodes: set<NodeId>, t: TransactionId, sess: Session, tx: S.Tx, objects: Table, objects': Table)
    requires SessionInv(nodes, t, sess, tx, objects) && OthersOnly(t, objects, objects')
    ensures SessionInv(nodes, t, sess, tx, objects')
  {
    PhaseFrame(nodes, t, sess, tx, objects, objects');
    forall tok | tok in sess.flight ensures TokenOk(nodes, t, sess, tx, objects', tok) {
      TokenFrame(nodes, t, sess, tx, objects, objects', tok);
    }
  }
}

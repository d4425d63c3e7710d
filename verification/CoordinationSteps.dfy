/** Every step of the protocol keeps the session invariant of its transaction, and its event is enabled on the data. */
module CoordinationSteps {
  import opened TransactionIds
  import opened Objects
  import opened Ledger
  import opened Tables
  import S = Store
  import opened Protocol
  import opened Coordination

  /** The step makes sense on the data and leaves its transaction's session in order. */
  ghost predicate Fine(s: State, st: Step)
    requires Enabled(s, st)
  {
    EventEnabled(s, st) &&
    var s' := Next(s, st);
    st.tx in s'.store.txs && At(s', st.tx)
  }

  lemma QuietFine(s: State, st: Step, sess': Session)
    requires Enabled(s, st) && st.tx in s.store.txs && EffectOf(s, st) == Quiet(sess')
    requires SessionInv(s.nodes, st.tx, sess', s.store.txs[st.tx], s.store.objects)
    ensures Fine(s, st)
  {
  }

  lemma EventFine(s: State, st: Step, sess': Session, ev: S.Event, tx': S.Tx, objects': Table)
    requires Enabled(s, st) && EffectOf(s, st) == Effect(sess', S.Some(ev)) && S.Enabled(s.store, ev)
    requires st.tx in S.Apply(s.store, ev).txs && S.Apply(s.store, ev).txs[st.tx] == tx' && S.Apply(s.store, ev).objects == objects'
    requires SessionInv(s.nodes, st.tx, sess', tx', objects')
    ensures Fine(s, st)
  {
  }

  // ----- the bag

  lemma Launched(t: TransactionId, phase: Phase, flight: multiset<Token>, tok: Token)
    requires forall x :: x !in flight
    ensures var f := flight + multiset{tok};
            OneEach(t, f) && Alone(phase, f) && forall x :: x in f <==> x == tok
  {
  }

  lemma SoloSwap(t: TransactionId, phase: Phase, flight: multiset<Token>, tok: Token, after: Token)
    requires OneEach(t, flight) && tok in flight && forall x :: x in flight ==> x == tok
    ensures var f := flight - multiset{tok} + multiset{after};
            OneEach(t, f) && Alone(phase, f) && forall x :: x in f <==> x == after
  {
    RemovedLast(flight, tok);
  }

  lemma SoloGone(t: TransactionId, flight: multiset<Token>, tok: Token)
    requires OneEach(t, flight) && tok in flight && forall x :: x in flight ==> x == tok
    ensures var f := flight - multiset{tok} + multiset{};
            f == multiset{}
  {
    RemovedLast(flight, tok);
  }

  lemma SubsetOfSameSize(a: set<NodeId>, b: set<NodeId>)
    requires a <= b && |a| == |b|
    ensures a == b
  {
    assert |b - a| == |b| - |a|;
  }

  lemma PeersSize(nodes: set<NodeId>, t: TransactionId)
    requires t.coordinator in nodes
    ensures |Peers(nodes, t)| == |nodes| - 1
  {
  }

  // ----- the client task

  lemma ConnectFine(s: State, t: TransactionId)
    requires S.Base(s.store) && Enabled(s, Step(t, Connect))
    ensures Fine(s, Step(t, Connect))
  {
    forall k | k in s.store.objects ensures t !in s.store.objects[k].tentative {
      assert S.ObjectBase(s.store, k);
    }
  }

  lemma AskCommit(nodes: set<NodeId>, t: TransactionId, sess: Session, tx: S.Tx, objects: Table)
    requires SessionInv(nodes, t, sess, tx, objects) && sess.phase == Idle
    ensures SessionInv(nodes, t, OnAsk(nodes, t, sess, objects, Commit).session, tx.(status := S.Preparing), objects)
  {
  }

  lemma AskAbort(nodes: set<NodeId>, t: TransactionId, sess: Session, tx: S.Tx, objects: Table, asked: seq<ClientRequest>, resp: ClientResponse)
    requires SessionInv(nodes, t, sess, tx, objects) && sess.phase == Idle && resp.IsErr()
    ensures SessionInv(nodes, t, sess.(phase := Aborting(resp), asked := asked), tx.(status := S.Aborted), objects)
  {
    assert forall x :: x !in sess.flight;
  }

  lemma AskOp(nodes: set<NodeId>, t: TransactionId, sess: Session, tx: S.Tx, objects: Table, req: ClientRequest, tok: Token)
    requires SessionInv(nodes, t, sess, tx, objects) && sess.phase == Idle
    requires OpToken(nodes, t, Asking(sess, req), tx, tok)
    ensures SessionInv(nodes, t, Launch(Asking(sess, req), AwaitReply, tok), tx, objects)
  {
    Launched(t, AwaitReply, sess.flight, tok);
    assert OpToken(nodes, t, Launch(Asking(sess, req), AwaitReply, tok), tx, tok);
  }

  ghost function Asking(sess: Session, req: ClientRequest): Session {
    sess.(asked := sess.asked + [req])
  }

  lemma AskFine(s: State, t: TransactionId, req: ClientRequest)
    requires At(s, t) && Enabled(s, Step(t, Ask(req)))
    ensures Fine(s, Step(t, Ask(req)))
  {
    var sess, tx, objects := s.sessions[t], s.store.txs[t], s.store.objects;
    var st := Step(t, Ask(req));
    match req
    case Commit =>
      AskCommit(s.nodes, t, sess, tx, objects);
      EventFine(s, st, OnAsk(s.nodes, t, sess, objects, Commit).session, S.Prepare(t), tx.(status := S.Preparing), objects);
    case Abort =>
      AskAbort(s.nodes, t, sess, tx, objects, sess.asked, Aborted);
      EventFine(s, st, sess.(phase := Aborting(Aborted)), S.GiveUp(t), tx.(status := S.Aborted), objects);
    case _ => AskOpFine(s, t, req);
  }

  lemma AskOpFine(s: State, t: TransactionId, req: ClientRequest)
    requires At(s, t) && Enabled(s, Step(t, Ask(req))) && (req.WriteBalance? || req.ReadBalance?)
    ensures Fine(s, Step(t, Ask(req)))
  {
    var sess, tx, objects, st := s.sessions[t], s.store.txs[t], s.store.objects, Step(t, Ask(req));
    var asking := Asking(sess, req);
    match ExtractShard(req.account, t.coordinator, s.nodes)
    case DoesNotExist =>
      AskAbort(s.nodes, t, sess, tx, objects, asking.asked, AbortedNotFound);
      EventFine(s, st, asking.(phase := Aborting(AbortedNotFound)), S.GiveUp(t), tx.(status := S.Aborted), objects);
    case Local =>
      var job := Job(t.coordinator, WorkFor(req, objects, t.coordinator), S.None);
      AskOp(s.nodes, t, sess, tx, objects, req, job);
      QuietFine(s, st, Launch(asking, AwaitReply, job));
    case Remote(p) =>
      AskOp(s.nodes, t, sess, tx, objects, req, Forward(Node(p), req));
      QuietFine(s, st, Launch(asking, AwaitReply, Forward(Node(p), req)));
  }

  lemma HangupFine(s: State, t: TransactionId)
    requires At(s, t) && Enabled(s, Step(t, Hangup))
    ensures Fine(s, Step(t, Hangup))
  {
    Launched(t, Closed(S.None), s.sessions[t].flight, Finished);
  }

  lemma EraseEntries(objects: Table, t: TransactionId, node: NodeId)
    ensures OthersOnly(t, objects, Erased(objects, t, node)) && Absent(Erased(objects, t, node), t, node)
  {
  }

  lemma LocalAbortKeeps(nodes: set<NodeId>, t: TransactionId, sess: Session, tx: S.Tx, objects: Table)
    requires SessionInv(nodes, t, sess, tx, objects) && sess.phase.Aborting? && |nodes| >= 2
    ensures SessionInv(nodes, t, Launch(sess, AwaitAborts(1, {}, sess.phase.resp), Forward(Broadcast, Abort)), tx,
                       Erased(objects, t, t.coordinator))
  {
  }

  lemma AbortLocallyFine(s: State, t: TransactionId)
    requires At(s, t) && |s.nodes| >= 2 && Enabled(s, Step(t, AbortLocally))
    ensures Fine(s, Step(t, AbortLocally))
  {
    LocalAbortKeeps(s.nodes, t, s.sessions[t], s.store.txs[t], s.store.objects);
  }

  lemma ReceiveError(nodes: set<NodeId>, t: TransactionId, sess: Session, tx: S.Tx, objects: Table, tok: Token)
    requires SessionInv(nodes, t, sess, tx, objects) && sess.phase == AwaitReply
    requires tok.Incoming? && tok in sess.flight && tok.resp.IsErr()
    ensures SessionInv(nodes, t, Swap(sess, tok, multiset{}).(phase := Aborting(tok.resp)), tx.(status := S.Aborted), objects)
  {
    SoloGone(t, sess.flight, tok);
  }

  lemma ReceiveAnswer(nodes: set<NodeId>, t: TransactionId, sess: Session, tx: S.Tx, objects: Table, tok: Token)
    requires SessionInv(nodes, t, sess, tx, objects) && sess.phase == AwaitReply
    requires tok.Incoming? && tok in sess.flight && !tok.resp.IsErr()
    ensures SessionInv(nodes, t, Swap(sess, tok, multiset{}).(phase := Idle, replies := sess.replies + [tok.resp]), tx, objects)
  {
    assert OpToken(nodes, t, sess, tx, tok);
    SoloGone(t, sess.flight, tok);
  }

  lemma AckMore(nodes: set<NodeId>, t: TransactionId, sess: Session, tx: S.Tx, objects: Table, tok: Token)
    requires SessionInv(nodes, t, sess, tx, objects) && sess.phase.AwaitAborts?
    requires tok.Incoming? && tok in sess.flight && sess.phase.count + 1 < |nodes|
    ensures SessionInv(nodes, t,
              Swap(sess, tok, multiset{}).(phase := AwaitAborts(sess.phase.count + 1, sess.phase.acked + {tok.from}, sess.phase.resp)),
              tx, objects)
  {
    assert AbortToken(nodes, t, sess, objects, tok);
    Removed(t, sess.flight, tok);
    PeersSize(nodes, t);
    var sess' := Swap(sess, tok, multiset{}).(phase := AwaitAborts(sess.phase.count + 1, sess.phase.acked + {tok.from}, sess.phase.resp));
    forall x | x in sess'.flight ensures AbortToken(nodes, t, sess', objects, x) {
      assert AbortToken(nodes, t, sess, objects, x) && Slot(t, x) != tok.from;
      assert x.Forward? ==> x == tok;
    }
  }

  lemma LastAck(nodes: set<NodeId>, t: TransactionId, sess: Session, tx: S.Tx, objects: Table, tok: Token)
    requires SessionInv(nodes, t, sess, tx, objects) && sess.phase.AwaitAborts?
    requires tok.Incoming? && tok in sess.flight && sess.phase.count + 1 >= |nodes|
    ensures sess.phase.acked + {tok.from} == Peers(nodes, t) && sess.phase.count + 1 == |nodes|
    ensures Absent(objects, t, tok.from) && forall x :: x in sess.flight ==> x == tok
  {
    assert AbortToken(nodes, t, sess, objects, tok);
    PeersSize(nodes, t);
    SubsetOfSameSize(sess.phase.acked + {tok.from}, Peers(nodes, t));
    forall x | x in sess.flight ensures x == tok {
      assert AbortToken(nodes, t, sess, objects, x);
      assert x.Forward? || Slot(t, x) == tok.from;
    }
  }

  lemma AckLast(nodes: set<NodeId>, t: TransactionId, sess: Session, tx: S.Tx, objects: Table, tok: Token)
    requires SessionInv(nodes, t, sess, tx, objects) && sess.phase.AwaitAborts?
    requires tok.Incoming? && tok in sess.flight && sess.phase.count + 1 >= |nodes|
    ensures SessionInv(nodes, t, Launch(Swap(sess, tok, multiset{}), Closed(S.Some(sess.phase.resp)), Finished), tx, objects)
  {
    LastAck(nodes, t, sess, tx, objects, tok);
    SoloGone(t, sess.flight, tok);
    var sess' := Launch(Swap(sess, tok, multiset{}), Closed(S.Some(sess.phase.resp)), Finished);
    Launched(t, sess'.phase, multiset{}, Finished);
    forall p | p in nodes ensures Absent(objects, t, p) {
      assert p == t.coordinator || p in sess.phase.acked + {tok.from};
    }
  }

  /** With the verdict come only the peers' installs. */
  lemma VerdictSent(nodes: set<NodeId>, t: TransactionId, sess: Session, tx: S.Tx, objects: Table)
    requires SessionInv(nodes, t, sess, tx, objects) && sess.phase == AwaitVotes
    requires Incoming(CommitOk, t.coordinator) in sess.flight
    ensures sess.handle.Some? && DecidedOk(nodes, sess, tx)
    ensures forall x :: x in sess.flight && x != Incoming(CommitOk, t.coordinator) ==> InstallToken(nodes, t, x)
  {
    assert TokenOk(nodes, t, sess, tx, objects, Incoming(CommitOk, t.coordinator));
    forall x | x in sess.flight && x != Incoming(CommitOk, t.coordinator) ensures InstallToken(nodes, t, x) {
      assert TokenOk(nodes, t, sess, tx, objects, x);
    }
  }

  lemma CommittingOk(nodes: set<NodeId>, t: TransactionId, sess: Session, tx: S.Tx, objects: Table)
    requires t.coordinator in nodes && !sess.fault && sess.phase == Committing && sess.handle.Some?
    requires DecidedOk(nodes, sess, tx) && EntriesOk(nodes, t, sess, tx, objects) && OneEach(t, sess.flight)
    requires forall x :: x in sess.flight ==> InstallNow(nodes, t, Committing, x)
    ensures SessionInv(nodes, t, sess, tx, objects)
  {
    forall x | x in sess.flight ensures TokenOk(nodes, t, sess, tx, objects, x) && !x.Forward? {
      assert InstallNow(nodes, t, Committing, x);
    }
  }

  lemma CommitLaunched(nodes: set<NodeId>, t: TransactionId, sess: Session, sess': Session, tx: S.Tx, objects: Table, tok: Token, job: Token)
    requires t.coordinator in nodes && !sess.fault && sess.handle.Some? && DecidedOk(nodes, sess, tx)
    requires EntriesOk(nodes, t, sess, tx, objects) && OneEach(t, sess.flight) && tok in sess.flight
    requires forall x :: x in sess.flight && x != tok ==> InstallToken(nodes, t, x)
    requires tok == Incoming(CommitOk, t.coordinator) && job == Job(t.coordinator, Install(FreshScan(objects, t.coordinator)), S.None)
    requires sess' == sess.(phase := Committing, flight := sess.flight - multiset{tok} + multiset{job})
    ensures SessionInv(nodes, t, sess', tx, objects)
  {
    Replaced(t, sess.flight, tok, job);
    OwedOnward(t, sess, sess', objects, tok, job);
    CommittingOk(nodes, t, sess', tx, objects);
  }

  lemma VotesInCommit(nodes: set<NodeId>, t: TransactionId, sess: Session, tx: S.Tx, objects: Table)
    requires SessionInv(nodes, t, sess, tx, objects) && sess.phase == AwaitVotes
    requires Incoming(CommitOk, t.coordinator) in sess.flight
    ensures SessionInv(nodes, t,
              Launch(Swap(sess, Incoming(CommitOk, t.coordinator), multiset{}), Committing,
                     Job(t.coordinator, Install(FreshScan(objects, t.coordinator)), S.None)),
              tx, objects)
  {
    var tok, job := Incoming(CommitOk, t.coordinator), Job(t.coordinator, Install(FreshScan(objects, t.coordinator)), S.None);
    var sess' := Launch(Swap(sess, tok, multiset{}), Committing, job);
    assert sess'.flight == sess.flight - multiset{tok} + multiset{job};
    VerdictSent(nodes, t, sess, tx, objects);
    CommitLaunched(nodes, t, sess, sess', tx, objects, tok, job);
  }

  /** What one token owed another owes now. */
  lemma OwedOnward(t: TransactionId, sess: Session, sess': Session, objects: Table, tok: Token, after: Token)
    requires AllOwed(t, sess, objects) && after in sess'.flight && forall x :: x in sess.flight && x != tok ==> x in sess'.flight
    requires forall k :: k in objects && t in objects[k].tentative && Owes(t, tok, k) ==> Owes(t, after, k)
    ensures AllOwed(t, sess', objects)
  {
    forall k | k in objects && t in objects[k].tentative ensures exists x :: x in sess'.flight && Owes(t, x, k) {
      var x :| x in sess.flight && Owes(t, x, k);
      assert x == tok ==> Owes(t, after, k);
    }
  }

  lemma VotesInAbort(nodes: set<NodeId>, t: TransactionId, sess: Session, tx: S.Tx, objects: Table)
    requires SessionInv(nodes, t, sess, tx, objects) && sess.phase == AwaitVotes && |nodes| >= 2
    requires Incoming(Aborted, t.coordinator) in sess.flight
    ensures tx.status == S.Preparing
    ensures SessionInv(nodes, t, Swap(sess, Incoming(Aborted, t.coordinator), multiset{}).(phase := Aborting(Aborted)),
                       tx.(status := S.Aborted), objects)
  {
    var tok := Incoming(Aborted, t.coordinator);
    assert VoteToken(nodes, t, sess, tx, objects, tok);
    PeersSize(nodes, t);
    SubsetOfSameSize(sess.handle.value.voters, Peers(nodes, t));
    forall x | x in sess.flight ensures x == tok {
      assert VoteToken(nodes, t, sess, tx, objects, x);
    }
    SoloGone(t, sess.flight, tok);
  }

  lemma ReceiveReplyFine(s: State, t: TransactionId, resp: ClientResponse, from: NodeId)
    requires At(s, t) && Enabled(s, Step(t, Receive(resp, from))) && s.sessions[t].phase == AwaitReply
    ensures Fine(s, Step(t, Receive(resp, from)))
  {
    var tok := Incoming(resp, from);
    if resp.IsErr() {
      ReceiveError(s.nodes, t, s.sessions[t], s.store.txs[t], s.store.objects, tok);
    } else {
      ReceiveAnswer(s.nodes, t, s.sessions[t], s.store.txs[t], s.store.objects, tok);
    }
  }

  lemma ReceiveCommitOk(s: State, t: TransactionId, from: NodeId)
    requires At(s, t) && Enabled(s, Step(t, Receive(CommitOk, from))) && s.sessions[t].phase == AwaitVotes && from == t.coordinator
    ensures Fine(s, Step(t, Receive(CommitOk, from)))
  {
    VotesInCommit(s.nodes, t, s.sessions[t], s.store.txs[t], s.store.objects);
    QuietFine(s, Step(t, Receive(CommitOk, from)),
              Launch(Swap(s.sessions[t], Incoming(CommitOk, from), multiset{}), Committing,
                     Job(from, Install(FreshScan(s.store.objects, from)), S.None)));
  }

  lemma ReceiveAborted(s: State, t: TransactionId, from: NodeId)
    requires At(s, t) && |s.nodes| >= 2 && Enabled(s, Step(t, Receive(Aborted, from))) && s.sessions[t].phase == AwaitVotes
    requires from == t.coordinator
    ensures Fine(s, Step(t, Receive(Aborted, from)))
  {
    var tx := s.store.txs[t];
    VotesInAbort(s.nodes, t, s.sessions[t], tx, s.store.objects);
    EventFine(s, Step(t, Receive(Aborted, from)), Swap(s.sessions[t], Incoming(Aborted, from), multiset{}).(phase := Aborting(Aborted)),
              S.GiveUp(t), tx.(status := S.Aborted), s.store.objects);
  }

  lemma VerdictToken(nodes: set<NodeId>, t: TransactionId, sess: Session, tx: S.Tx, objects: Table, tok: Token)
    requires SessionInv(nodes, t, sess, tx, objects) && sess.phase == AwaitVotes && tok in sess.flight && tok.Incoming?
    ensures (tok.resp == CommitOk || tok.resp == Aborted) && tok.from == t.coordinator
  {
    assert TokenOk(nodes, t, sess, tx, objects, tok);
  }

  /** The commit wait sees only CommitOk or Aborted. */
  lemma ReceiveVerdictFine(s: State, t: TransactionId, resp: ClientResponse, from: NodeId)
    requires At(s, t) && |s.nodes| >= 2 && Enabled(s, Step(t, Receive(resp, from))) && s.sessions[t].phase == AwaitVotes
    ensures resp == CommitOk || resp == Aborted
    ensures Fine(s, Step(t, Receive(resp, from)))
  {
    VerdictToken(s.nodes, t, s.sessions[t], s.store.txs[t], s.store.objects, Incoming(resp, from));
    if resp == CommitOk { ReceiveCommitOk(s, t, from); } else { ReceiveAborted(s, t, from); }
  }

  /** The abort count sees only Aborted. */
  lemma ReceiveAckFine(s: State, t: TransactionId, resp: ClientResponse, from: NodeId)
    requires At(s, t) && Enabled(s, Step(t, Receive(resp, from))) && s.sessions[t].phase.AwaitAborts?
    ensures resp == Aborted
    ensures Fine(s, Step(t, Receive(resp, from)))
  {
    var tok := Incoming(resp, from);
    assert TokenOk(s.nodes, t, s.sessions[t], s.store.txs[t], s.store.objects, tok);
    var sess, st := s.sessions[t], Step(t, Receive(resp, from));
    var rest, phase := Swap(sess, tok, multiset{}), sess.phase;
    if phase.count + 1 < |s.nodes| {
      AckMore(s.nodes, t, sess, s.store.txs[t], s.store.objects, tok);
      QuietFine(s, st, rest.(phase := AwaitAborts(phase.count + 1, phase.acked + {from}, phase.resp)));
    } else {
      AckLast(s.nodes, t, sess, s.store.txs[t], s.store.objects, tok);
      QuietFine(s, st, Launch(rest, Closed(S.Some(phase.resp)), Finished));
    }
  }

  // ----- one token becomes another

  lemma FlightMove(nodes: set<NodeId>, t: TransactionId, sess: Session, sess': Session, tx: S.Tx, objects: Table, tok: Token, after: Token)
    requires OneEach(t, sess.flight) && Alone(sess.phase, sess.flight) && tok in sess.flight
    requires sess'.phase == sess.phase && sess'.flight == sess.flight - multiset{tok} + multiset{after}
    requires Slot(t, after) == Slot(t, tok) && (Solo(sess.phase, after) ==> Solo(sess.phase, tok))
    requires forall x :: x in sess.flight && x != tok ==> TokenOk(nodes, t, sess', tx, objects, x)
    requires TokenOk(nodes, t, sess', tx, objects, after)
    ensures FlightOk(nodes, t, sess', tx, objects)
  {
    Replaced(t, sess.flight, tok, after);
  }

  /** Steps of an operation: the one token in flight turns into another. */
  lemma OpMove(nodes: set<NodeId>, t: TransactionId, sess: Session, tx: S.Tx, objects: Table, tx': S.Tx, objects': Table, tok: Token, after: Token)
    requires SessionInv(nodes, t, sess, tx, objects) && sess.phase == AwaitReply && tok in sess.flight
    requires tx'.status == S.Running && RoutedLog(nodes, tx'.log)
    requires forall k :: k in objects' && t in objects'[k].tentative ==> k.shard in nodes
    requires OpToken(nodes, t, Swap(sess, tok, multiset{after}), tx', after)
    ensures SessionInv(nodes, t, Swap(sess, tok, multiset{after}), tx', objects')
  {
    SoloSwap(t, AwaitReply, sess.flight, tok, after);
  }

  /** Steps of the voting round that change nothing but one token (and what has been checked). */
  lemma VoteMove(nodes: set<NodeId>, t: TransactionId, sess: Session, tx: S.Tx, objects: Table, checked: set<Key>, tok: Token, after: Token)
    requires SessionInv(nodes, t, sess, tx, objects) && sess.phase == AwaitVotes && tx.status == S.Preparing
    requires tok in sess.flight && !after.Forward? && Slot(t, after) == Slot(t, tok) && tx.checked <= checked
    requires VoteToken(nodes, t, Swap(sess, tok, multiset{after}), tx.(checked := checked), objects, after)
    ensures SessionInv(nodes, t, Swap(sess, tok, multiset{after}), tx.(checked := checked), objects)
  {
    var sess', tx' := Swap(sess, tok, multiset{after}), tx.(checked := checked);
    forall x | x in sess.flight && x != tok ensures TokenOk(nodes, t, sess', tx', objects, x) {
      assert VoteToken(nodes, t, sess, tx, objects, x);
      assert VoteToken(nodes, t, sess', tx', objects, x);
    }
    FlightMove(nodes, t, sess, sess', tx', objects, tok, after);
  }

  /** A shard's vote to commit. */
  lemma VoteReady(nodes: set<NodeId>, t: TransactionId, sess: Session, tx: S.Tx, objects: Table, tok: Token)
    requires SessionInv(nodes, t, sess, tx, objects) && sess.phase == AwaitVotes && tx.status == S.Preparing
    requires tok in sess.flight && tok.Job? && tok.work.Check? && ScanReady(tok.work.scan, Finish)
    ensures tok.node != t.coordinator
    ensures SessionInv(nodes, t,
              Swap(sess.(passed := sess.passed + {tok.node}), tok, multiset{Packet(tok.node, t.coordinator, TwoPhaseCommitStatus(ReadyToCommit))}),
              tx, objects)
  {
    var after := Packet(tok.node, t.coordinator, TwoPhaseCommitStatus(ReadyToCommit));
    var sess' := Swap(sess.(passed := sess.passed + {tok.node}), tok, multiset{after});
    assert VoteToken(nodes, t, sess, tx, objects, tok);
    forall x | x in sess.flight && x != tok ensures TokenOk(nodes, t, sess', tx, objects, x) {
      assert VoteToken(nodes, t, sess, tx, objects, x);
      assert VoteToken(nodes, t, sess', tx, objects, x);
    }
    FlightMove(nodes, t, sess, sess', tx, objects, tok, after);
  }

  /** Steps of the abort round that change one token. */
  lemma AbortMove(nodes: set<NodeId>, t: TransactionId, sess: Session, tx: S.Tx, objects: Table, objects': Table, tok: Token, after: Token)
    requires SessionInv(nodes, t, sess, tx, objects) && sess.phase.AwaitAborts? && OthersOnly(t, objects, objects')
    requires tok in sess.flight && !after.Forward? && Slot(t, after) == Slot(t, tok)
    requires AbortToken(nodes, t, Swap(sess, tok, multiset{after}), objects', after)
    ensures SessionInv(nodes, t, Swap(sess, tok, multiset{after}), tx, objects')
  {
    var sess' := Swap(sess, tok, multiset{after});
    SessionFrame(nodes, t, sess, tx, objects, objects');
    forall x | x in sess.flight && x != tok ensures TokenOk(nodes, t, sess', tx, objects', x) {
      assert AbortToken(nodes, t, sess, objects', x);
      assert AbortToken(nodes, t, sess', objects', x);
    }
    FlightMove(nodes, t, sess, sess', tx, objects', tok, after);
  }

  ghost predicate Installing(sess: Session, tx: S.Tx) {
    tx.status == S.Committed && (sess.phase == AwaitVotes || sess.phase == Committing || sess.phase == Closed(S.Some(CommitOk)))
  }

  ghost predicate InstallNow(nodes: set<NodeId>, t: TransactionId, phase: Phase, tok: Token) {
    InstallToken(nodes, t, tok) || (phase == Committing && LocalInstall(t, tok))
  }

  /** Steps of the install round: the new token owes whatever the old one owed and is still tentative. */
  lemma InstallMove(nodes: set<NodeId>, t: TransactionId, sess: Session, tx: S.Tx, objects: Table, objects': Table, tok: Token, after: Token)
    requires SessionInv(nodes, t, sess, tx, objects) && Installing(sess, tx) && OthersOnly(t, objects, objects')
    requires tok in sess.flight && !after.Forward? && Slot(t, after) == Slot(t, tok)
    requires InstallNow(nodes, t, sess.phase, after)
    requires forall k :: k in objects' && t in objects'[k].tentative && Owes(t, tok, k) ==> Owes(t, after, k)
    ensures SessionInv(nodes, t, Swap(sess, tok, multiset{after}), tx, objects')
  {
    var sess' := Swap(sess, tok, multiset{after});
    SessionFrame(nodes, t, sess, tx, objects, objects');
    FlightMove(nodes, t, sess, sess', tx, objects', tok, after);
    Replaced(t, sess.flight, tok, after);
    OwedOnward(t, sess, sess', objects', tok, after);
  }

  /** A finished install leaves nothing of t tentative on its shard. */
  lemma InstalledAll(nodes: set<NodeId>, t: TransactionId, sess: Session, tx: S.Tx, objects: Table, tok: Token)
    requires SessionInv(nodes, t, sess, tx, objects) && Installing(sess, tx)
    requires tok in sess.flight && tok.Job? && tok.work.Install? && ScanReady(tok.work.scan, Finish)
    ensures forall k :: k in objects && k.shard == tok.node ==> t !in objects[k].tentative
    ensures forall k :: k in objects && t in objects[k].tentative ==> exists x :: x in sess.flight && x != tok && Owes(t, x, k)
  {
  }

  lemma InstallEnds(nodes: set<NodeId>, t: TransactionId, sess: Session, tx: S.Tx, objects: Table, tok: Token)
    requires SessionInv(nodes, t, sess, tx, objects) && Installing(sess, tx)
    requires tok in sess.flight && tok.Job? && tok.work.Install? && ScanReady(tok.work.scan, Finish) && tok.node != t.coordinator
    ensures SessionInv(nodes, t, Swap(sess, tok, multiset{}), tx, objects)
  {
    Removed(t, sess.flight, tok);
    OwedElsewhere(nodes, t, sess, Swap(sess, tok, multiset{}), tx, objects, tok);
  }

  lemma OwedElsewhere(nodes: set<NodeId>, t: TransactionId, sess: Session, sess': Session, tx: S.Tx, objects: Table, tok: Token)
    requires SessionInv(nodes, t, sess, tx, objects) && Installing(sess, tx)
    requires tok in sess.flight && tok.Job? && tok.work.Install? && ScanReady(tok.work.scan, Finish)
    requires forall x :: x in sess.flight && x != tok ==> x in sess'.flight
    ensures AllOwed(t, sess', objects)
  {
    InstalledAll(nodes, t, sess, tx, objects, tok);
    forall k | k in objects && t in objects[k].tentative ensures exists x :: x in sess'.flight && Owes(t, x, k) {
      var x :| x in sess.flight && x != tok && Owes(t, x, k);
      assert x in sess'.flight;
    }
  }

  /** Besides the local install, only the peers' installs are in flight. */
  lemma PeersStillInstall(nodes: set<NodeId>, t: TransactionId, sess: Session, tx: S.Tx, objects: Table, tok: Token, x: Token)
    requires SessionInv(nodes, t, sess, tx, objects) && sess.phase == Committing
    requires tok in sess.flight && tok.Job? && tok.node == t.coordinator && x in sess.flight && x != tok
    ensures InstallToken(nodes, t, x)
  {
  }

  lemma LocalInstallEnds(nodes: set<NodeId>, t: TransactionId, sess: Session, tx: S.Tx, objects: Table, tok: Token)
    requires SessionInv(nodes, t, sess, tx, objects) && sess.phase == Committing
    requires tok in sess.flight && tok.Job? && tok.work.Install? && ScanReady(tok.work.scan, Finish) && tok.node == t.coordinator
    ensures SessionInv(nodes, t, Launch(Swap(sess, tok, multiset{}), Closed(S.Some(CommitOk)), Finished), tx, objects)
  {
    var sess' := Launch(Swap(sess, tok, multiset{}), Closed(S.Some(CommitOk)), Finished);
    assert sess'.flight == sess.flight - multiset{tok} + multiset{Finished};
    Replaced(t, sess.flight, tok, Finished);
    OwedElsewhere(nodes, t, sess, sess', tx, objects, tok);
    forall x | x in sess'.flight ensures TokenOk(nodes, t, sess', tx, objects, x) && !x.Forward? {
      if x != Finished { PeersStillInstall(nodes, t, sess, tx, objects, tok, x); }
    }
    ClosedOk(nodes, t, sess', tx, objects);
  }

  lemma ClosedOk(nodes: set<NodeId>, t: TransactionId, sess: Session, tx: S.Tx, objects: Table)
    requires t.coordinator in nodes && !sess.fault && sess.phase == Closed(S.Some(CommitOk))
    requires DecidedOk(nodes, sess, tx) && EntriesOk(nodes, t, sess, tx, objects) && OneEach(t, sess.flight)
    requires forall x :: x in sess.flight ==> TokenOk(nodes, t, sess, tx, objects, x) && !x.Forward?
    ensures SessionInv(nodes, t, sess, tx, objects)
  {
  }

  // ----- counting votes

  /** A vote comes from a peer not counted yet, and is the only thing in flight for it. */
  lemma VoteIsNew(nodes: set<NodeId>, t: TransactionId, sess: Session, tx: S.Tx, objects: Table, tok: Token)
    requires SessionInv(nodes, t, sess, tx, objects)
    requires tok in sess.flight && tok.Packet? && tok.msg.TwoPhaseCommitStatus?
    ensures sess.phase == AwaitVotes && tx.status == S.Preparing && VoteToken(nodes, t, sess, tx, objects, tok)
    ensures |sess.handle.value.voters + {tok.src}| == sess.handle.value.count + 1 <= |Peers(nodes, t)|
    ensures forall x :: x in sess.flight && x != tok ==> VoteToken(nodes, t, sess, tx, objects, x) && !x.Incoming? && !x.Forward? && Slot(t, x) != tok.src
  {
    assert TokenOk(nodes, t, sess, tx, objects, tok);
    var h, peers := sess.handle.value, Peers(nodes, t);
    assert h.voters + {tok.src} <= peers;
    SubsetSize(h.voters + {tok.src}, peers);
    forall x | x in sess.flight && x != tok
      ensures VoteToken(nodes, t, sess, tx, objects, x) && !x.Incoming? && !x.Forward? && Slot(t, x) != tok.src
    {
      assert TokenOk(nodes, t, sess, tx, objects, x);
    }
  }

  lemma SubsetSize(a: set<NodeId>, b: set<NodeId>)
    requires a <= b
    ensures |a| <= |b|
  {
    assert |b - a| == |b| - |a|;
  }

  ghost function Voted(sess: Session, tok: Token): Session
    requires sess.handle.Some? && tok.Packet? && tok.msg.TwoPhaseCommitStatus?
  {
    Swap(sess, tok, multiset{}).(handle := S.Some(CountVote(sess.handle.value, tok.src, tok.msg.status)))
  }

  lemma VoteCounted(nodes: set<NodeId>, t: TransactionId, sess: Session, tx: S.Tx, objects: Table, tok: Token)
    requires SessionInv(nodes, t, sess, tx, objects) && sess.handle.Some?
    requires tok in sess.flight && tok.Packet? && tok.msg.TwoPhaseCommitStatus?
    ensures SessionInv(nodes, t, Voted(sess, tok), tx, objects)
  {
    VoteIsNew(nodes, t, sess, tx, objects, tok);
    Removed(t, sess.flight, tok);
    var sess' := Voted(sess, tok);
    forall x | x in sess'.flight ensures TokenOk(nodes, t, sess', tx, objects, x) {
      assert VoteToken(nodes, t, sess, tx, objects, x) && Slot(t, x) != tok.src;
      assert VoteToken(nodes, t, sess', tx, objects, x);
    }
  }

  lemma LastVote(nodes: set<NodeId>, t: TransactionId, sess: Session, tx: S.Tx, objects: Table, tok: Token)
    requires SessionInv(nodes, t, sess, tx, objects) && sess.handle.Some?
    requires tok in sess.flight && tok.Packet? && tok.msg.TwoPhaseCommitStatus?
    requires sess.handle.value.count + 1 == |Peers(nodes, t)|
    ensures Voted(sess, tok).flight == multiset{} && sess.handle.value.voters + {tok.src} == Peers(nodes, t)
  {
    VoteIsNew(nodes, t, sess, tx, objects, tok);
    SubsetOfSameSize(sess.handle.value.voters + {tok.src}, Peers(nodes, t));
    SoloGone(t, sess.flight, tok);
  }

  lemma VoteRefuses(nodes: set<NodeId>, t: TransactionId, sess: Session, tx: S.Tx, objects: Table, tok: Token)
    requires SessionInv(nodes, t, sess, tx, objects) && sess.handle.Some?
    requires tok in sess.flight && tok.Packet? && tok.msg.TwoPhaseCommitStatus?
    requires sess.handle.value.count + 1 == |Peers(nodes, t)|
    ensures var v := Voted(sess, tok);
            SessionInv(nodes, t, v.(flight := v.flight + multiset{Incoming(Aborted, t.coordinator)}), tx, objects)
  {
    VoteCounted(nodes, t, sess, tx, objects, tok);
    LastVote(nodes, t, sess, tx, objects, tok);
    var v := Voted(sess, tok);
    Launched(t, AwaitVotes, v.flight, Incoming(Aborted, t.coordinator));
  }

  ghost function Verdict(nodes: set<NodeId>, t: TransactionId): multiset<Token> {
    multiset{} + multiset{Incoming(CommitOk, t.coordinator)} + Bcast(t, nodes, DoCommit)
  }

  lemma VerdictFlight(nodes: set<NodeId>, t: TransactionId)
    ensures OneEach(t, Verdict(nodes, t)) && Alone(AwaitVotes, Verdict(nodes, t))
    ensures forall x :: x in Verdict(nodes, t) ==> InstallToken(nodes, t, x) || x == Incoming(CommitOk, t.coordinator)
    ensures forall k: Key :: k.shard in nodes ==> exists x :: x in Verdict(nodes, t) && Owes(t, x, k)
  {
    Broadcasted(t, nodes, DoCommit);
    var ok, f := Incoming(CommitOk, t.coordinator), Verdict(nodes, t);
    assert forall x :: f[x] == (if x == ok then 1 else 0) + Bcast(t, nodes, DoCommit)[x];
    forall k: Key | k.shard in nodes ensures exists x :: x in f && Owes(t, x, k) {
      var x := if k.shard == t.coordinator then ok else Packet(t.coordinator, k.shard, DoCommit);
      assert x in f && Owes(t, x, k);
    }
  }

  /** When the last vote makes the count full and all votes are Ready, every shard has passed its check. */
  lemma EveryoneReady(nodes: set<NodeId>, t: TransactionId, sess: Session, tx: S.Tx, objects: Table, tok: Token)
    requires SessionInv(nodes, t, sess, tx, objects) && sess.handle.Some?
    requires tok in sess.flight && tok.Packet? && tok.msg.TwoPhaseCommitStatus?
    requires sess.handle.value.count + 1 == |Peers(nodes, t)|
    requires CountVote(sess.handle.value, tok.src, tok.msg.status).status == ReadyToCommit
    ensures nodes <= sess.passed
    ensures forall k :: k in objects && t in objects[k].tentative ==> k in tx.checked
  {
    VoteIsNew(nodes, t, sess, tx, objects, tok);
    LastVote(nodes, t, sess, tx, objects, tok);
    forall p | p in nodes ensures p in sess.passed {
      assert p == t.coordinator || p in sess.handle.value.voters + {tok.src};
    }
    forall k | k in objects && t in objects[k].tentative ensures k in tx.checked {
      assert AllChecked(objects, t, tx, k.shard);
    }
  }

  lemma VoteCommits(nodes: set<NodeId>, t: TransactionId, sess: Session, tx: S.Tx, objects: Table, tok: Token)
    requires SessionInv(nodes, t, sess, tx, objects) && sess.handle.Some?
    requires tok in sess.flight && tok.Packet? && tok.msg.TwoPhaseCommitStatus?
    requires sess.handle.value.count + 1 == |Peers(nodes, t)|
    requires CountVote(sess.handle.value, tok.src, tok.msg.status).status == ReadyToCommit
    ensures forall k :: k in objects && t in objects[k].tentative ==> k in tx.checked
    ensures var v := Voted(sess, tok);
            SessionInv(nodes, t, v.(flight := v.flight + multiset{Incoming(CommitOk, t.coordinator)} + Bcast(t, nodes, DoCommit)),
                       tx.(status := S.Committed), objects)
  {
    VoteCounted(nodes, t, sess, tx, objects, tok);
    LastVote(nodes, t, sess, tx, objects, tok);
    EveryoneReady(nodes, t, sess, tx, objects, tok);
    VoteIsNew(nodes, t, sess, tx, objects, tok);
    VerdictFlight(nodes, t);
    Decided(nodes, t, Voted(sess, tok).(flight := Verdict(nodes, t)), tx.(status := S.Committed), objects);
  }

  lemma Decided(nodes: set<NodeId>, t: TransactionId, sess: Session, tx: S.Tx, objects: Table)
    requires sess.phase == AwaitVotes && sess.flight == Verdict(nodes, t) && t.coordinator in nodes && !sess.fault
    requires VotesOk(nodes, t, sess, tx) && DecidedOk(nodes, sess, tx) && RoutedLog(nodes, tx.log)
    requires forall k :: k in objects && t in objects[k].tentative ==> k.shard in nodes
    ensures SessionInv(nodes, t, sess, tx, objects)
  {
    VerdictFlight(nodes, t);
  }

  lemma VoteFine(s: State, t: TransactionId, tok: Token)
    requires At(s, t) && Enabled(s, Step(t, Serve(tok))) && tok.Packet? && tok.msg.TwoPhaseCommitStatus?
    ensures s.sessions[t].handle.Some?
    ensures Fine(s, Step(t, Serve(tok)))
  {
    var nodes, sess, tx, objects := s.nodes, s.sessions[t], s.store.txs[t], s.store.objects;
    VoteIsNew(nodes, t, sess, tx, objects, tok);
    var st, v := Step(t, Serve(tok)), Voted(sess, tok);
    if sess.handle.value.count + 1 != |Peers(nodes, t)| {
      VoteCounted(nodes, t, sess, tx, objects, tok);
      QuietFine(s, st, v);
    } else if CountVote(sess.handle.value, tok.src, tok.msg.status).status == ReadyToCommit {
      VoteCommits(nodes, t, sess, tx, objects, tok);
      EventFine(s, st, v.(flight := v.flight + multiset{Incoming(CommitOk, t.coordinator)} + Bcast(t, nodes, DoCommit)),
                S.Decide(t), tx.(status := S.Committed), objects);
    } else {
      VoteRefuses(nodes, t, sess, tx, objects, tok);
      QuietFine(s, st, v.(flight := v.flight + multiset{Incoming(Aborted, t.coordinator)}));
    }
  }

  // ----- the rest of the server loop

  lemma FinishedServed(nodes: set<NodeId>, t: TransactionId, sess: Session, tx: S.Tx, objects: Table)
    requires SessionInv(nodes, t, sess, tx, objects) && Finished in sess.flight
    ensures SessionInv(nodes, t, Swap(sess, Finished, multiset{}).(handle := S.None), tx, objects)
  {
    assert TokenOk(nodes, t, sess, tx, objects, Finished);
    Removed(t, sess.flight, Finished);
    var sess' := Swap(sess, Finished, multiset{}).(handle := S.None);
    if tx.status == S.Committed {
      forall k | k in objects && t in objects[k].tentative ensures exists x :: x in sess'.flight && Owes(t, x, k) {
        var x :| x in sess.flight && Owes(t, x, k);
        assert x in sess'.flight;
      }
    }
  }

  lemma BroadcastFlight(nodes: set<NodeId>, t: TransactionId, phase: Phase, flight: multiset<Token>, req: ClientRequest)
    requires OneEach(t, flight) && Alone(phase, flight) && Forward(Broadcast, req) in flight && phase != AwaitReply
    ensures var f := flight - multiset{Forward(Broadcast, req)} + Bcast(t, nodes, Request(req));
            && OneEach(t, f) && Alone(phase, f)
            && forall x :: x in f ==> x.Packet? && x.src == t.coordinator && x.dst in Peers(nodes, t) && x.msg == Request(req)
  {
    RemovedLast(flight, Forward(Broadcast, req));
    Broadcasted(t, nodes, Request(req));
    assert multiset{} + Bcast(t, nodes, Request(req)) == Bcast(t, nodes, Request(req));
  }

  lemma BroadcastServed(nodes: set<NodeId>, t: TransactionId, sess: Session, tx: S.Tx, objects: Table, req: ClientRequest)
    requires SessionInv(nodes, t, sess, tx, objects) && Forward(Broadcast, req) in sess.flight
    ensures SessionInv(nodes, t, Swap(sess, Forward(Broadcast, req), Bcast(t, nodes, Request(req))), tx, objects)
  {
    assert TokenOk(nodes, t, sess, tx, objects, Forward(Broadcast, req));
    BroadcastFlight(nodes, t, sess.phase, sess.flight, req);
  }

  lemma ForwardNodeFine(s: State, t: TransactionId, p: NodeId, req: ClientRequest)
    requires At(s, t) && Enabled(s, Step(t, Serve(Forward(Node(p), req))))
    ensures Fine(s, Step(t, Serve(Forward(Node(p), req))))
  {
    var sess, tok, packet := s.sessions[t], Forward(Node(p), req), Packet(t.coordinator, p, Request(req));
    assert TokenOk(s.nodes, t, sess, s.store.txs[t], s.store.objects, tok);
    OpMove(s.nodes, t, sess, s.store.txs[t], s.store.objects, s.store.txs[t], s.store.objects, tok, packet);
    QuietFine(s, Step(t, Serve(tok)), Swap(sess, tok, multiset{packet}));
  }

  lemma BroadcastFine(s: State, t: TransactionId, req: ClientRequest)
    requires At(s, t) && Enabled(s, Step(t, Serve(Forward(Broadcast, req))))
    ensures Fine(s, Step(t, Serve(Forward(Broadcast, req))))
  {
    BroadcastServed(s.nodes, t, s.sessions[t], s.store.txs[t], s.store.objects, req);
    QuietFine(s, Step(t, Serve(Forward(Broadcast, req))), Swap(s.sessions[t], Forward(Broadcast, req), Bcast(t, s.nodes, Request(req))));
  }

  lemma FinishedFine(s: State, t: TransactionId)
    requires At(s, t) && Enabled(s, Step(t, Serve(Finished)))
    ensures Fine(s, Step(t, Serve(Finished)))
  {
    FinishedServed(s.nodes, t, s.sessions[t], s.store.txs[t], s.store.objects);
    QuietFine(s, Step(t, Serve(Finished)), Swap(s.sessions[t], Finished, multiset{}).(handle := S.None));
  }

  lemma RequestFine(s: State, t: TransactionId, tok: Token)
    requires At(s, t) && Enabled(s, Step(t, Serve(tok))) && tok.Packet? && tok.msg.Request?
    ensures Fine(s, Step(t, Serve(tok)))
  {
    var nodes, sess, tx, objects := s.nodes, s.sessions[t], s.store.txs[t], s.store.objects;
    assert TokenOk(nodes, t, sess, tx, objects, tok);
    var job := Job(tok.dst, WorkFor(tok.msg.req, objects, tok.dst), S.None);
    match sess.phase
    case AwaitReply => OpMove(nodes, t, sess, tx, objects, tx, objects, tok, job);
    case AwaitVotes => VoteMove(nodes, t, sess, tx, objects, tx.checked, tok, job);
    case AwaitAborts(_, _, _) => AbortMove(nodes, t, sess, tx, objects, objects, tok, job);
  }

  /** A response always finds its client in the table. */
  lemma ResponseFine(s: State, t: TransactionId, tok: Token)
    requires At(s, t) && Enabled(s, Step(t, Serve(tok))) && tok.Packet? && tok.msg.Response?
    ensures s.sessions[t].handle.Some?
    ensures Fine(s, Step(t, Serve(tok)))
  {
    var nodes, sess, tx, objects := s.nodes, s.sessions[t], s.store.txs[t], s.store.objects;
    assert TokenOk(nodes, t, sess, tx, objects, tok);
    var after := Incoming(tok.msg.resp, tok.src);
    match sess.phase
    case AwaitReply => OpMove(nodes, t, sess, tx, objects, tx, objects, tok, after);
    case AwaitAborts(_, _, _) => AbortMove(nodes, t, sess, tx, objects, objects, tok, after);
  }

  lemma DoCommitFine(s: State, t: TransactionId, tok: Token)
    requires At(s, t) && Enabled(s, Step(t, Serve(tok))) && tok.Packet? && tok.msg.DoCommit?
    ensures Fine(s, Step(t, Serve(tok)))
  {
    var nodes, sess, tx, objects := s.nodes, s.sessions[t], s.store.txs[t], s.store.objects;
    assert TokenOk(nodes, t, sess, tx, objects, tok);
    InstallMove(nodes, t, sess, tx, objects, objects, tok, Job(tok.dst, Install(FreshScan(objects, tok.dst)), S.None));
  }

  lemma ServeFine(s: State, t: TransactionId, tok: Token)
    requires At(s, t) && Enabled(s, Step(t, Serve(tok)))
    ensures Fine(s, Step(t, Serve(tok)))
  {
    match tok
    case Packet(_, _, Request(_)) => RequestFine(s, t, tok);
    case Packet(_, _, Response(_)) => ResponseFine(s, t, tok);
    case Packet(_, _, TwoPhaseCommitStatus(_)) => VoteFine(s, t, tok);
    case Packet(_, _, DoCommit) => DoCommitFine(s, t, tok);
    case Forward(Node(p), req) => ForwardNodeFine(s, t, p, req);
    case Forward(Broadcast, req) => BroadcastFine(s, t, req);
    case Finished => FinishedFine(s, t);
  }

  // ----- jobs of an operation

  lemma ReadEntries(objects: Table, t: TransactionId, k: Key)
    requires k in objects
    ensures forall k2 :: k2 in objects ==> objects[k := AfterRead(objects[k], t)][k2].tentative == objects[k2].tentative
  {
  }

  lemma RoutedAppend(nodes: set<NodeId>, log: Log, op: Op)
    requires RoutedLog(nodes, log) && op.key.shard in nodes && Owned(op.key.account, op.key.shard)
    ensures RoutedLog(nodes, log + [op])
  {
  }

  /** A job's operation ends without touching the data: refused, or parked. */
  lemma OpRefused(nodes: set<NodeId>, t: TransactionId, sess: Session, tx: S.Tx, objects: Table, job: Token, resp: ClientResponse)
    requires SessionInv(nodes, t, sess, tx, objects) && sess.phase == AwaitReply && job in sess.flight && job.Job? && resp.IsErr()
    ensures SessionInv(nodes, t, Finishes(t, sess, job, resp), tx, objects)
  {
    assert OpToken(nodes, t, sess, tx, job);
    OpMove(nodes, t, sess, tx, objects, tx, objects, job, Answer(t, job.node, resp));
  }

  lemma OpParked(nodes: set<NodeId>, t: TransactionId, sess: Session, tx: S.Tx, objects: Table, job: Token, u: TransactionId)
    requires SessionInv(nodes, t, sess, tx, objects) && sess.phase == AwaitReply && job in sess.flight && job.Job? && u.Lt(t)
    ensures SessionInv(nodes, t, Park(sess, job, u), tx, objects)
  {
    assert OpToken(nodes, t, sess, tx, job);
    OpMove(nodes, t, sess, tx, objects, tx, objects, job, Job(job.node, job.work, S.Some(u)));
  }

  lemma OpReads(nodes: set<NodeId>, t: TransactionId, sess: Session, tx: S.Tx, objects: Table, tx': S.Tx, job: Token, k: Key, after: Token)
    requires SessionInv(nodes, t, sess, tx, objects) && sess.phase == AwaitReply && job in sess.flight && k in objects
    requires tx'.status == S.Running && RoutedLog(nodes, tx'.log)
    requires OpToken(nodes, t, Swap(sess, job, multiset{after}), tx', after)
    ensures SessionInv(nodes, t, Swap(sess, job, multiset{after}), tx', objects[k := AfterRead(objects[k], t)])
  {
    ReadEntries(objects, t, k);
    OpMove(nodes, t, sess, tx, objects, tx', objects[k := AfterRead(objects[k], t)], job, after);
  }

  lemma QueryReads(nodes: set<NodeId>, t: TransactionId, sess: Session, tx: S.Tx, objects: Table, job: Token, k: Key, v: int)
    requires SessionInv(nodes, t, sess, tx, objects) && job in sess.flight && job.Job? && job.work.Query?
    requires k == Key(job.node, job.work.account) && k in objects
    ensures sess.phase == AwaitReply
    ensures SessionInv(nodes, t, Finishes(t, sess, job, Value(k.account, v)), tx.(log := tx.log + [Look(k, v)]),
                       objects[k := AfterRead(objects[k], t)])
  {
    assert TokenOk(nodes, t, sess, tx, objects, job);
    LogAppend(tx.log, Look(k, v));
    RoutedAppend(nodes, tx.log, Look(k, v));
    OpReads(nodes, t, sess, tx, objects, tx.(log := tx.log + [Look(k, v)]), job, k, Answer(t, job.node, Value(k.account, v)));
  }

  lemma QueryFine(s: State, t: TransactionId, job: Token)
    requires At(s, t) && Enabled(s, Step(t, Act(job, Go))) && job.parked.None? && job.work.Query?
    ensures Fine(s, Step(t, Act(job, Go)))
  {
    var nodes, sess, tx, objects := s.nodes, s.sessions[t], s.store.txs[t], s.store.objects;
    assert TokenOk(nodes, t, sess, tx, objects, job);
    var k, st := Key(job.node, job.work.account), Step(t, Act(job, Go));
    if k !in objects {
      OpRefused(nodes, t, sess, tx, objects, job, AbortedNotFound);
      QuietFine(s, st, Finishes(t, sess, job, AbortedNotFound));
    } else if ReadRule(objects[k], t).Read? {
      var v := ReadRule(objects[k], t).value;
      QueryReads(nodes, t, sess, tx, objects, job, k, v);
      EventFine(s, st, Finishes(t, sess, job, Value(k.account, v)), S.LookOk(t, k), tx.(log := tx.log + [Look(k, v)]),
                objects[k := AfterRead(objects[k], t)]);
    } else if ReadRule(objects[k], t).ReadWait? {
      WaitsPointBack(objects[k], t);
      OpParked(nodes, t, sess, tx, objects, job, ReadRule(objects[k], t).on);
      QuietFine(s, st, Park(sess, job, ReadRule(objects[k], t).on));
    } else {
      OpRefused(nodes, t, sess, tx, objects, job, Aborted);
      QuietFine(s, st, Finishes(t, sess, job, Aborted));
    }
  }

  lemma FetchReads(nodes: set<NodeId>, t: TransactionId, sess: Session, tx: S.Tx, objects: Table, job: Token, put: S.Put)
    requires SessionInv(nodes, t, sess, tx, objects) && job in sess.flight && job.Job? && job.work.Fetch?
    requires put.key == Key(job.node, job.work.account) && put.diff == job.work.diff
    ensures sess.phase == AwaitReply
    ensures SessionInv(nodes, t, Continue(sess, job, PutBack(put)), tx.(pending := S.Some(put)), objects)
    ensures put.key in objects ==> SessionInv(nodes, t, Continue(sess, job, PutBack(put)), tx.(pending := S.Some(put)),
                                              objects[put.key := AfterRead(objects[put.key], t)])
  {
    assert TokenOk(nodes, t, sess, tx, objects, job);
    OpMove(nodes, t, sess, tx, objects, tx.(pending := S.Some(put)), objects, job, Job(job.node, PutBack(put), S.None));
    if put.key in objects {
      OpReads(nodes, t, sess, tx, objects, tx.(pending := S.Some(put)), job, put.key, Job(job.node, PutBack(put), S.None));
    }
  }

  lemma FetchFine(s: State, t: TransactionId, job: Token)
    requires At(s, t) && Enabled(s, Step(t, Act(job, Go))) && job.parked.None? && job.work.Fetch?
    ensures Fine(s, Step(t, Act(job, Go)))
  {
    var nodes, sess, tx, objects := s.nodes, s.sessions[t], s.store.txs[t], s.store.objects;
    assert TokenOk(nodes, t, sess, tx, objects, job);
    var k, d, st := Key(job.node, job.work.account), job.work.diff, Step(t, Act(job, Go));
    if k !in objects {
      var put := S.Create(k, d);
      FetchReads(nodes, t, sess, tx, objects, job, put);
      EventFine(s, st, Continue(sess, job, PutBack(put)), S.FetchMissing(t, k, d), tx.(pending := S.Some(put)), objects);
    } else if ReadRule(objects[k], t).Read? {
      var put := S.Update(k, ReadRule(objects[k], t).value, d);
      FetchReads(nodes, t, sess, tx, objects, job, put);
      EventFine(s, st, Continue(sess, job, PutBack(put)), S.FetchOk(t, k, d), tx.(pending := S.Some(put)),
                objects[k := AfterRead(objects[k], t)]);
    } else if ReadRule(objects[k], t).ReadWait? {
      WaitsPointBack(objects[k], t);
      OpParked(nodes, t, sess, tx, objects, job, ReadRule(objects[k], t).on);
      QuietFine(s, st, Park(sess, job, ReadRule(objects[k], t).on));
    } else {
      OpRefused(nodes, t, sess, tx, objects, job, Aborted);
      QuietFine(s, st, Finishes(t, sess, job, Aborted));
    }
  }

  lemma PutBackStores(nodes: set<NodeId>, t: TransactionId, sess: Session, tx: S.Tx, objects: Table, job: Token, put: S.Put)
    requires SessionInv(nodes, t, sess, tx, objects) && job in sess.flight && job.Job? && job.work == PutBack(put)
    ensures sess.phase == AwaitReply && tx.status == S.Running && tx.pending == S.Some(put)
    ensures SessionInv(nodes, t, Finishes(t, sess, job, Ok),
                       tx.(log := tx.log + [Change(put.key, put.diff, put.Create?)], pending := S.None),
                       AfterStore(objects, put.key, t, put.Amount()))
  {
    assert TokenOk(nodes, t, sess, tx, objects, job);
    var op := Change(put.key, put.diff, put.Create?);
    LogAppend(tx.log, op);
    RoutedAppend(nodes, tx.log, op);
    OpMove(nodes, t, sess, tx, objects, tx.(log := tx.log + [op], pending := S.None),
           AfterStore(objects, put.key, t, put.Amount()), job, Answer(t, job.node, Ok));
  }

  lemma PutBackFine(s: State, t: TransactionId, job: Token)
    requires At(s, t) && Enabled(s, Step(t, Act(job, Go))) && job.parked.None? && job.work.PutBack?
    ensures Fine(s, Step(t, Act(job, Go)))
  {
    var nodes, sess, tx, objects, st := s.nodes, s.sessions[t], s.store.txs[t], s.store.objects, Step(t, Act(job, Go));
    var put := job.work.put;
    PutBackStores(nodes, t, sess, tx, objects, job, put);
    match StoreRule(objects, put.key, t, put.Amount())
    case Stored =>
      EventFine(s, st, Finishes(t, sess, job, Ok), S.PutOk(t),
                tx.(log := tx.log + [Change(put.key, put.diff, put.Create?)], pending := S.None),
                AfterStore(objects, put.key, t, put.Amount()));
    case StoreNotFound =>
      OpRefused(nodes, t, sess, tx, objects, job, AbortedNotFound);
      QuietFine(s, st, Finishes(t, sess, job, AbortedNotFound));
    case StoreTooLate =>
      OpRefused(nodes, t, sess, tx, objects, job, Aborted);
      QuietFine(s, st, Finishes(t, sess, job, Aborted));
  }

  // ----- jobs of the commit check

  /** A visit of the local check. */
  lemma CheckingMove(nodes: set<NodeId>, t: TransactionId, sess: Session, tx: S.Tx, objects: Table, checked: set<Key>, tok: Token, after: Token)
    requires SessionInv(nodes, t, sess, tx, objects) && sess.phase == Checking && tok in sess.flight && tx.checked <= checked
    requires TokenOk(nodes, t, Swap(sess, tok, multiset{after}), tx.(checked := checked), objects, after)
    ensures SessionInv(nodes, t, Swap(sess, tok, multiset{after}), tx.(checked := checked), objects)
  {
    forall x | x in sess.flight ensures x == tok {
      assert TokenOk(nodes, t, sess, tx, objects, x) && TokenOk(nodes, t, sess, tx, objects, tok);
      assert Slot(t, x) == Slot(t, tok);
    }
    SoloSwap(t, Checking, sess.flight, tok, after);
  }

  lemma CheckMove(nodes: set<NodeId>, t: TransactionId, sess: Session, tx: S.Tx, objects: Table, checked: set<Key>, tok: Token, scan: Scan, parked: Option<TransactionId>)
    requires SessionInv(nodes, t, sess, tx, objects) && tok in sess.flight && tok.Job? && tok.work.Check? && tx.checked <= checked
    requires CheckScanOk(objects, t, tx.(checked := checked), tok.node, scan) && ParkedOk(t, parked)
    ensures tx.status == S.Preparing && (sess.phase == Checking || sess.phase == AwaitVotes)
    ensures SessionInv(nodes, t, Swap(sess, tok, multiset{Job(tok.node, Check(scan), parked)}), tx.(checked := checked), objects)
  {
    assert TokenOk(nodes, t, sess, tx, objects, tok);
    if sess.phase == Checking {
      CheckingMove(nodes, t, sess, tx, objects, checked, tok, Job(tok.node, Check(scan), parked));
    } else {
      VoteMove(nodes, t, sess, tx, objects, checked, tok, Job(tok.node, Check(scan), parked));
    }
  }

  /** The scan after visiting k without success: k reaped, or a failure or a wait reported. */
  lemma CheckUnpassed(nodes: set<NodeId>, t: TransactionId, sess: Session, tx: S.Tx, objects: Table, job: Token, k: Key, scan: Scan)
    requires SessionInv(nodes, t, sess, tx, objects) && job in sess.flight && job.Job? && job.work.Check?
    requires scan.todo == job.work.scan.todo - {k} && (job.work.scan.failed ==> scan.failed) && job.work.scan.waits <= scan.waits
    requires k !in objects || scan.failed || scan.waits != {}
    requires forall u :: u in scan.waits ==> u in job.work.scan.waits || u.Lt(t)
    ensures SessionInv(nodes, t, Continue(sess, job, Check(scan)), tx, objects)
  {
    assert TokenOk(nodes, t, sess, tx, objects, job);
    CheckMove(nodes, t, sess, tx, objects, tx.checked, job, scan, S.None);
  }

  lemma CheckPassed(nodes: set<NodeId>, t: TransactionId, sess: Session, tx: S.Tx, objects: Table, job: Token, k: Key)
    requires SessionInv(nodes, t, sess, tx, objects) && job in sess.flight && job.Job? && job.work.Check?
    ensures tx.status == S.Preparing
    ensures SessionInv(nodes, t, Continue(sess, job, Check(job.work.scan.(todo := job.work.scan.todo - {k}))),
                       tx.(checked := tx.checked + {k}), objects)
  {
    assert TokenOk(nodes, t, sess, tx, objects, job);
    CheckMove(nodes, t, sess, tx, objects, tx.checked + {k}, job, job.work.scan.(todo := job.work.scan.todo - {k}), S.None);
  }

  lemma CheckVisit(s: State, t: TransactionId, job: Token, k: Key)
    requires At(s, t) && Enabled(s, Step(t, Act(job, Visit(k)))) && job.parked.None? && job.work.Check?
    ensures Fine(s, Step(t, Act(job, Visit(k))))
  {
    var nodes, sess, tx, objects := s.nodes, s.sessions[t], s.store.txs[t], s.store.objects;
    var rest := job.work.scan.(todo := job.work.scan.todo - {k});
    if k in objects && CheckRule(objects[k], t).Passes() {
      CheckPassed(nodes, t, sess, tx, objects, job, k);
      EventFine(s, Step(t, Act(job, Visit(k))), Continue(sess, job, Check(rest)), S.CheckPass(t, k),
                tx.(checked := tx.checked + {k}), objects);
    } else {
      var scan := if k !in objects then rest
                  else if CheckRule(objects[k], t).CheckWait? then rest.(waits := rest.waits + {CheckRule(objects[k], t).on})
                  else rest.(failed := true);
      if k in objects { WaitsPointBack(objects[k], t); }
      CheckUnpassed(nodes, t, sess, tx, objects, job, k, scan);
      QuietFine(s, Step(t, Act(job, Visit(k))), Continue(sess, job, Check(scan)));
    }
  }

  lemma LocalCheckEnds(nodes: set<NodeId>, t: TransactionId, sess: Session, tx: S.Tx, objects: Table, tok: Token)
    requires SessionInv(nodes, t, sess, tx, objects) && sess.phase == Checking && tok in sess.flight && tok.Job?
    requires tok.work.Check? && ScanReady(tok.work.scan, Finish)
    ensures SessionInv(nodes, t,
              Launch(Swap(sess.(passed := sess.passed + {tok.node}), tok, multiset{}), AwaitVotes, Forward(Broadcast, Commit)), tx, objects)
  {
    forall x | x in sess.flight ensures x == tok {
      assert TokenOk(nodes, t, sess, tx, objects, x) && TokenOk(nodes, t, sess, tx, objects, tok);
      assert Slot(t, x) == Slot(t, tok);
    }
    SoloGone(t, sess.flight, tok);
    Launched(t, AwaitVotes, multiset{}, Forward(Broadcast, Commit));
    assert AllChecked(objects, t, tx, t.coordinator);
  }

  lemma LocalCheckFails(nodes: set<NodeId>, t: TransactionId, sess: Session, tx: S.Tx, objects: Table, tok: Token)
    requires SessionInv(nodes, t, sess, tx, objects) && sess.phase == Checking && tok in sess.flight
    ensures SessionInv(nodes, t, Swap(sess, tok, multiset{}).(phase := Aborting(Aborted)), tx.(status := S.Aborted), objects)
  {
    forall x | x in sess.flight ensures x == tok {
      assert TokenOk(nodes, t, sess, tx, objects, x) && TokenOk(nodes, t, sess, tx, objects, tok);
      assert Slot(t, x) == Slot(t, tok);
    }
    SoloGone(t, sess.flight, tok);
  }

  /** The local check runs before the votes, a peer's while they are awaited. */
  lemma CheckPhase(nodes: set<NodeId>, t: TransactionId, sess: Session, tx: S.Tx, objects: Table, job: Token)
    requires SessionInv(nodes, t, sess, tx, objects) && job in sess.flight && job.Job? && job.work.Check?
    ensures tx.status == S.Preparing && CheckScanOk(objects, t, tx, job.node, job.work.scan)
    ensures if job.node == t.coordinator then sess.phase == Checking
            else sess.phase == AwaitVotes && sess.handle.Some? && VoteToken(nodes, t, sess, tx, objects, job)
  {
    assert TokenOk(nodes, t, sess, tx, objects, job);
  }

  lemma CheckRetryFine(s: State, t: TransactionId, job: Token, u: TransactionId)
    requires At(s, t) && Enabled(s, Step(t, Act(job, Retry(u)))) && job.parked.None? && job.work.Check?
    ensures Fine(s, Step(t, Act(job, Retry(u))))
  {
    var sess, tx, objects := s.sessions[t], s.store.txs[t], s.store.objects;
    var scan := FreshScan(objects, job.node);
    CheckPhase(s.nodes, t, sess, tx, objects, job);
    CheckMove(s.nodes, t, sess, tx, objects, tx.checked, job, scan, S.Some(u));
    QuietFine(s, Step(t, Act(job, Retry(u))), Swap(sess, job, multiset{Job(job.node, Check(scan), S.Some(u))}));
  }

  lemma CheckFinishFine(s: State, t: TransactionId, job: Token)
    requires At(s, t) && Enabled(s, Step(t, Act(job, Finish))) && job.parked.None? && job.work.Check?
    ensures Fine(s, Step(t, Act(job, Finish)))
  {
    var sess, tx, objects, st := s.sessions[t], s.store.txs[t], s.store.objects, Step(t, Act(job, Finish));
    var ready := sess.(passed := sess.passed + {job.node});
    CheckPhase(s.nodes, t, sess, tx, objects, job);
    if job.node == t.coordinator {
      LocalCheckEnds(s.nodes, t, sess, tx, objects, job);
      QuietFine(s, st, Launch(Swap(ready, job, multiset{}), AwaitVotes, Forward(Broadcast, Commit)));
    } else {
      VoteReady(s.nodes, t, sess, tx, objects, job);
      QuietFine(s, st, Swap(ready, job, multiset{Packet(job.node, t.coordinator, TwoPhaseCommitStatus(ReadyToCommit))}));
    }
  }

  lemma CheckFailFine(s: State, t: TransactionId, job: Token)
    requires At(s, t) && Enabled(s, Step(t, Act(job, Fail))) && job.parked.None? && job.work.Check?
    ensures Fine(s, Step(t, Act(job, Fail)))
  {
    var sess, tx, objects, st := s.sessions[t], s.store.txs[t], s.store.objects, Step(t, Act(job, Fail));
    CheckPhase(s.nodes, t, sess, tx, objects, job);
    if job.node == t.coordinator {
      LocalCheckFails(s.nodes, t, sess, tx, objects, job);
      EventFine(s, st, Swap(sess, job, multiset{}).(phase := Aborting(Aborted)), S.GiveUp(t), tx.(status := S.Aborted), objects);
    } else {
      var vote := Packet(job.node, t.coordinator, TwoPhaseCommitStatus(CannotCommit));
      VoteMove(s.nodes, t, sess, tx, objects, tx.checked, job, vote);
      QuietFine(s, st, Swap(sess, job, multiset{vote}));
    }
  }

  // ----- jobs of the install and of the abort

  lemma InstallIsDecided(nodes: set<NodeId>, t: TransactionId, sess: Session, tx: S.Tx, objects: Table, job: Token)
    requires SessionInv(nodes, t, sess, tx, objects) && job in sess.flight && job.Job? && job.work.Install?
    ensures Installing(sess, tx) && InstallNow(nodes, t, sess.phase, job)
    ensures job.node == t.coordinator ==> sess.phase == Committing
  {
    assert TokenOk(nodes, t, sess, tx, objects, job);
  }

  lemma CommitEntries(objects: Table, t: TransactionId, k: Key)
    requires k in objects && CheckRule(objects[k], t).Passes()
    ensures OthersOnly(t, objects, objects[k := AfterCommit(objects[k], t)])
    ensures t !in AfterCommit(objects[k], t).tentative
  {
  }

  lemma InstallVisited(nodes: set<NodeId>, t: TransactionId, sess: Session, tx: S.Tx, objects: Table, job: Token, k: Key)
    requires SessionInv(nodes, t, sess, tx, objects) && job in sess.flight && job.Job? && job.work.Install?
    requires k in objects && CheckRule(objects[k], t).Passes()
    ensures tx.status == S.Committed
    ensures SessionInv(nodes, t, Continue(sess, job, Install(job.work.scan.(todo := job.work.scan.todo - {k}))), tx,
                       objects[k := AfterCommit(objects[k], t)])
  {
    InstallIsDecided(nodes, t, sess, tx, objects, job);
    CommitEntries(objects, t, k);
    var rest := job.work.scan.(todo := job.work.scan.todo - {k});
    InstallMove(nodes, t, sess, tx, objects, objects[k := AfterCommit(objects[k], t)], job, Job(job.node, Install(rest), S.None));
  }

  lemma InstallSkipped(nodes: set<NodeId>, t: TransactionId, sess: Session, tx: S.Tx, objects: Table, job: Token, scan: Scan)
    requires SessionInv(nodes, t, sess, tx, objects) && job in sess.flight && job.Job? && job.work.Install?
    requires !scan.failed && forall u :: u in scan.waits ==> u.Lt(t)
    requires forall k :: k in objects && t in objects[k].tentative && Owes(t, job, k) ==> k in scan.todo || scan.waits != {}
    ensures SessionInv(nodes, t, Continue(sess, job, Install(scan)), tx, objects)
  {
    InstallIsDecided(nodes, t, sess, tx, objects, job);
    InstallMove(nodes, t, sess, tx, objects, objects, job, Job(job.node, Install(scan), S.None));
  }

  /** The visit finds nothing to install, or an older writer in front. */
  lemma InstallPasses(s: State, t: TransactionId, job: Token, k: Key, scan: Scan)
    requires At(s, t) && Enabled(s, Step(t, Act(job, Visit(k)))) && job.parked.None? && job.work.Install?
    requires EffectOf(s, Step(t, Act(job, Visit(k)))) == Quiet(Continue(s.sessions[t], job, Install(scan)))
    requires !scan.failed && forall u :: u in scan.waits ==> u.Lt(t)
    requires scan.todo == job.work.scan.todo - {k} && job.work.scan.waits <= scan.waits && (k in s.store.objects ==> scan.waits != {})
    ensures Fine(s, Step(t, Act(job, Visit(k))))
  {
    InstallSkipped(s.nodes, t, s.sessions[t], s.store.txs[t], s.store.objects, job, scan);
    QuietFine(s, Step(t, Act(job, Visit(k))), Continue(s.sessions[t], job, Install(scan)));
  }

  lemma InstallHits(s: State, t: TransactionId, job: Token, k: Key)
    requires At(s, t) && Enabled(s, Step(t, Act(job, Visit(k)))) && job.parked.None? && job.work.Install?
    requires k in s.store.objects && CheckRule(s.store.objects[k], t).Passes()
    ensures Fine(s, Step(t, Act(job, Visit(k))))
  {
    var sess, tx, objects := s.sessions[t], s.store.txs[t], s.store.objects;
    InstallVisited(s.nodes, t, sess, tx, objects, job, k);
    EventFine(s, Step(t, Act(job, Visit(k))), Continue(sess, job, Install(job.work.scan.(todo := job.work.scan.todo - {k}))),
              S.Install(t, k), tx, objects[k := AfterCommit(objects[k], t)]);
  }

  lemma InstallScanOk(nodes: set<NodeId>, t: TransactionId, sess: Session, tx: S.Tx, objects: Table, job: Token)
    requires SessionInv(nodes, t, sess, tx, objects) && job in sess.flight && job.Job? && job.work.Install?
    ensures tx.status == S.Committed && !job.work.scan.failed && forall u :: u in job.work.scan.waits ==> u.Lt(t)
  {
    InstallIsDecided(nodes, t, sess, tx, objects, job);
  }

  /** A visit of the install never fails the consistency check. */
  lemma InstallVisit(s: State, t: TransactionId, job: Token, k: Key)
    requires At(s, t) && S.Base(s.store) && Enabled(s, Step(t, Act(job, Visit(k)))) && job.parked.None? && job.work.Install?
    ensures k in s.store.objects ==> !CheckRule(s.store.objects[k], t).CheckFailed?
    ensures Fine(s, Step(t, Act(job, Visit(k))))
  {
    var objects := s.store.objects;
    InstallScanOk(s.nodes, t, s.sessions[t], s.store.txs[t], objects, job);
    var rest := job.work.scan.(todo := job.work.scan.todo - {k});
    if k !in objects {
      InstallPasses(s, t, job, k, rest);
    } else {
      WaitsPointBack(objects[k], t);
      assert S.CheckedBase(s.store, t, k);
      if CheckRule(objects[k], t).CheckWait? {
        InstallPasses(s, t, job, k, rest.(waits := rest.waits + {CheckRule(objects[k], t).on}));
      } else {
        InstallHits(s, t, job, k);
      }
    }
  }

  lemma InstallRetryFine(s: State, t: TransactionId, job: Token, u: TransactionId)
    requires At(s, t) && Enabled(s, Step(t, Act(job, Retry(u)))) && job.parked.None? && job.work.Install?
    ensures Fine(s, Step(t, Act(job, Retry(u))))
  {
    var sess, tx, objects := s.sessions[t], s.store.txs[t], s.store.objects;
    InstallIsDecided(s.nodes, t, sess, tx, objects, job);
    var again := Job(job.node, Install(FreshScan(objects, job.node)), S.Some(u));
    InstallMove(s.nodes, t, sess, tx, objects, objects, job, again);
    QuietFine(s, Step(t, Act(job, Retry(u))), Swap(sess, job, multiset{again}));
  }

  lemma InstallFinishFine(s: State, t: TransactionId, job: Token)
    requires At(s, t) && Enabled(s, Step(t, Act(job, Finish))) && job.parked.None? && job.work.Install?
    ensures Fine(s, Step(t, Act(job, Finish)))
  {
    var sess, tx, objects, st := s.sessions[t], s.store.txs[t], s.store.objects, Step(t, Act(job, Finish));
    InstallIsDecided(s.nodes, t, sess, tx, objects, job);
    if job.node == t.coordinator {
      LocalInstallEnds(s.nodes, t, sess, tx, objects, job);
      QuietFine(s, st, Launch(Swap(sess, job, multiset{}), Closed(S.Some(CommitOk)), Finished));
    } else {
      InstallEnds(s.nodes, t, sess, tx, objects, job);
      QuietFine(s, st, Swap(sess, job, multiset{}));
    }
  }

  lemma EraseFine(s: State, t: TransactionId, job: Token)
    requires At(s, t) && Enabled(s, Step(t, Act(job, Go))) && job.parked.None? && job.work.Erase?
    ensures Fine(s, Step(t, Act(job, Go)))
  {
    var sess, tx, objects := s.sessions[t], s.store.txs[t], s.store.objects;
    assert TokenOk(s.nodes, t, sess, tx, objects, job);
    EraseEntries(objects, t, job.node);
    AbortMove(s.nodes, t, sess, tx, objects, Erased(objects, t, job.node), job, Answer(t, job.node, Aborted));
    EventFine(s, Step(t, Act(job, Go)), Finishes(t, sess, job, Aborted), S.Erase(t, job.node), tx, Erased(objects, t, job.node));
  }

  /** A parked job is an operation, a check or an install. */
  lemma ParkedPhase(nodes: set<NodeId>, t: TransactionId, sess: Session, tx: S.Tx, objects: Table, job: Token)
    requires SessionInv(nodes, t, sess, tx, objects) && job in sess.flight && job.Job? && job.parked.Some?
    ensures sess.phase == AwaitReply ==> OpToken(nodes, t, sess, tx, job)
    ensures sess.phase != AwaitReply ==> job.work.Check? || job.work.Install?
  {
    assert TokenOk(nodes, t, sess, tx, objects, job);
  }

  lemma WakeFine(s: State, t: TransactionId, job: Token)
    requires At(s, t) && Enabled(s, Step(t, Act(job, Wake))) && job.parked.Some?
    ensures Fine(s, Step(t, Act(job, Wake)))
  {
    var nodes, sess, tx, objects := s.nodes, s.sessions[t], s.store.txs[t], s.store.objects;
    var awake := job.(parked := S.None);
    ParkedPhase(nodes, t, sess, tx, objects, job);
    if sess.phase == AwaitReply {
      OpMove(nodes, t, sess, tx, objects, tx, objects, job, awake);
    } else if job.work.Check? {
      CheckPhase(nodes, t, sess, tx, objects, job);
      CheckMove(nodes, t, sess, tx, objects, tx.checked, job, job.work.scan, S.None);
    } else {
      InstallIsDecided(nodes, t, sess, tx, objects, job);
      InstallMove(nodes, t, sess, tx, objects, objects, job, awake);
    }
    QuietFine(s, Step(t, Act(job, Wake)), Swap(sess, job, multiset{awake}));
  }

  lemma CheckFine(s: State, t: TransactionId, job: Token, choice: Choice)
    requires At(s, t) && Enabled(s, Step(t, Act(job, choice))) && job.parked.None? && job.work.Check?
    ensures Fine(s, Step(t, Act(job, choice)))
  {
    match choice
    case Visit(k) => CheckVisit(s, t, job, k);
    case Retry(u) => CheckRetryFine(s, t, job, u);
    case Finish => CheckFinishFine(s, t, job);
    case Fail => CheckFailFine(s, t, job);
  }

  lemma InstallFine(s: State, t: TransactionId, job: Token, choice: Choice)
    requires At(s, t) && S.Base(s.store) && Enabled(s, Step(t, Act(job, choice))) && job.parked.None? && job.work.Install?
    ensures Fine(s, Step(t, Act(job, choice)))
  {
    InstallScanOk(s.nodes, t, s.sessions[t], s.store.txs[t], s.store.objects, job);
    match choice
    case Visit(k) => InstallVisit(s, t, job, k);
    case Retry(u) => InstallRetryFine(s, t, job, u);
    case Finish => InstallFinishFine(s, t, job);
  }

  lemma ActFine(s: State, t: TransactionId, job: Token, choice: Choice)
    requires At(s, t) && S.Base(s.store) && Enabled(s, Step(t, Act(job, choice)))
    ensures Fine(s, Step(t, Act(job, choice)))
  {
    if job.parked.Some? {
      WakeFine(s, t, job);
    } else {
      match job.work
      case Query(_) => QueryFine(s, t, job);
      case Fetch(_, _) => FetchFine(s, t, job);
      case PutBack(_) => PutBackFine(s, t, job);
      case Check(_) => CheckFine(s, t, job, choice);
      case Install(_) => InstallFine(s, t, job, choice);
      case Erase => EraseFine(s, t, job);
    }
  }

  // ----- every step

  lemma StepFine(s: State, st: Step)
    requires Inv(s) && Enabled(s, st)
    ensures Fine(s, st)
  {
    var t := st.tx;
    assert t in s.sessions ==> At(s, t);
    match st.action
    case Connect => ConnectFine(s, t);
    case Ask(req) => AskFine(s, t, req);
    case Hangup => HangupFine(s, t);
    case Receive(resp, from) =>
      match s.sessions[t].phase {
        case AwaitReply => ReceiveReplyFine(s, t, resp, from);
        case AwaitVotes => ReceiveVerdictFine(s, t, resp, from);
        case _ => ReceiveAckFine(s, t, resp, from);
      }
    case AbortLocally => AbortLocallyFine(s, t);
    case Serve(tok) => ServeFine(s, t, tok);
    case Act(job, choice) => ActFine(s, t, job, choice);
  }

  lemma OtherSession(s: State, t: TransactionId, e: Effect, u: TransactionId)
    requires e.event.Some? ==> S.Enabled(s.store, e.event.value) && e.event.value.tx == t
    requires u != t && At(s, u)
    ensures At(Advance(s, t, e), u)
  {
    if e.event.Some? {
      EventOfOther(s.store, e.event.value, u);
      SessionFrame(s.nodes, u, s.sessions[u], s.store.txs[u], s.store.objects, Advance(s, t, e).store.objects);
    }
  }

  lemma EventIsOwn(s: State, st: Step)
    requires Enabled(s, st)
    ensures EffectOf(s, st).event.Some? ==> EffectOf(s, st).event.value.tx == st.tx
  {
  }

  lemma SameKeys(s: State, t: TransactionId, e: Effect)
    requires e.event.Some? ==> S.Enabled(s.store, e.event.value) && e.event.value.tx == t
    requires s.sessions.Keys == s.store.txs.Keys && t in Advance(s, t, e).store.txs
    ensures Advance(s, t, e).sessions.Keys == Advance(s, t, e).store.txs.Keys == s.sessions.Keys + {t}
  {
    assert e.event.Some? ==> S.Apply(s.store, e.event.value).txs.Keys == s.store.txs.Keys + {t};
  }

  lemma EffectKeepsInv(s: State, t: TransactionId, e: Effect)
    requires Inv(s)
    requires e.event.Some? ==> S.Enabled(s.store, e.event.value) && e.event.value.tx == t
    requires At(Advance(s, t, e), t)
    ensures Inv(Advance(s, t, e))
  {
    SameKeys(s, t, e);
    forall u | u in s.sessions && u != t ensures At(Advance(s, t, e), u) {
      OtherSession(s, t, e, u);
    }
    BaseAdvances(s, t, e);
  }

  lemma BaseAdvances(s: State, t: TransactionId, e: Effect)
    requires S.Base(s.store) && (e.event.Some? ==> S.Enabled(s.store, e.event.value))
    ensures S.Base(Advance(s, t, e).store)
  {
    if e.event.Some? { S.BaseKept(s.store, e.event.value); }
  }

  /** The protocol invariant holds across every step of every run. */
  lemma StepKeepsInv(s: State, st: Step)
    requires Inv(s) && Enabled(s, st)
    ensures EventEnabled(s, st) && Inv(Next(s, st))
  {
    StepFine(s, st);
    EventIsOwn(s, st);
    EffectKeepsInv(s, st.tx, EffectOf(s, st));
  }
}

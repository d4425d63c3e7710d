/**
 * The cluster protocol: the client task that coordinates one transaction, the server loop of each
 * node, and the jobs shards run for remote requests. Everything in flight for a transaction (channel
 * items, packets, spawned jobs) sits in one unordered bag, so any delivery order is covered.
 */
module Protocol {
  import opened TransactionIds
  import opened Objects
  import opened Ledger
  import opened Tables
  import S = Store

  type Option<T> = S.Option<T>

  // ----- messages

  datatype ClientRequest =
    | WriteBalance(account: string, diff: int)
    | ReadBalance(account: string)
    | Commit
    | Abort

  datatype ClientResponse = Ok | CommitOk | Aborted | AbortedNotFound | Value(account: string, amount: int) {
    predicate IsErr() {
      Aborted? || AbortedNotFound?
    }
  }

  datatype CommitStatus = ReadyToCommit | CannotCommit

  datatype Forwarded =
    | Request(req: ClientRequest)
    | Response(resp: ClientResponse)
    | TwoPhaseCommitStatus(status: CommitStatus)
    | DoCommit

  datatype ForwardTarget = Node(node: NodeId) | Broadcast

  datatype TargetShard = Remote(node: NodeId) | Local | DoesNotExist

  /** Accounts live on the shard named by their first character. */
  function ExtractShard(account: string, self: NodeId, nodes: set<NodeId>): TargetShard {
    if account == "" || account[0] !in nodes then DoesNotExist
    else if account[0] == self then Local
    else Remote(account[0])
  }

  /** The account's first character names no node. */
  predicate Unrouted(account: string, nodes: set<NodeId>) {
    account == "" || account[0] !in nodes
  }

  /** Where an account is looked for: on the node its first character names, if there is one. */
  lemma Routing(account: string, self: NodeId, nodes: set<NodeId>)
    ensures forall p :: ExtractShard(account, self, nodes) == Remote(p) <==> account != "" && account[0] == p && p in nodes && p != self
    ensures ExtractShard(account, self, nodes) == Local <==> account != "" && account[0] == self && self in nodes
    ensures ExtractShard(account, self, nodes) == DoesNotExist <==> Unrouted(account, nodes)
  {
  }

  // ----- state

  /** A visit of every object of a shard: what is left, and what the visits so far reported. */
  datatype Scan = Scan(todo: set<Key>, failed: bool, waits: set<TransactionId>)

  function FreshScan(objects: Table, node: NodeId): Scan {
    Scan(KeysAt(objects, node), false, {})
  }

  datatype Work =
    | Query(account: string)
    | Fetch(account: string, diff: int)
    | PutBack(put: S.Put)
    | Check(scan: Scan)
    | Install(scan: Scan)
    | Erase

  /** Something in flight. The source of an Incoming response is history: the client never sees it. */
  datatype Token =
    | Forward(target: ForwardTarget, req: ClientRequest)
    | Finished
    | Packet(src: NodeId, dst: NodeId, msg: Forwarded)
    | Job(node: NodeId, work: Work, parked: Option<TransactionId>)
    | Incoming(resp: ClientResponse, from: NodeId)

  /** acked is history: the client only counts. */
  datatype Phase =
    | Idle
    | AwaitReply
    | Checking
    | AwaitVotes
    | Committing
    | Aborting(resp: ClientResponse)
    | AwaitAborts(count: nat, acked: set<NodeId>, resp: ClientResponse)
    | Closed(reply: Option<ClientResponse>)

  /** The server's entry for a client; voters is history. */
  datatype Handle = Handle(count: nat, status: CommitStatus, voters: set<NodeId>)

  const NEW_HANDLE := Handle(0, ReadyToCommit, {})

  /**
   * One transaction's coordination. asked (the client's operations), replies (to them) and passed
   * (shards whose commit check succeeded) are history; fault records that an unwrap failed or an error branch ran.
   */
  datatype Session = Session(
    phase: Phase,
    flight: multiset<Token>,
    handle: Option<Handle>,
    asked: seq<ClientRequest>,
    replies: seq<ClientResponse>,
    passed: set<NodeId>,
    fault: bool)

  datatype State = State(nodes: set<NodeId>, store: S.State, sessions: map<TransactionId, Session>)

  function Peers(nodes: set<NodeId>, t: TransactionId): set<NodeId> {
    nodes - {t.coordinator}
  }

  function Bcast(t: TransactionId, nodes: set<NodeId>, msg: Forwarded): multiset<Token> {
    multiset(set p | p in Peers(nodes, t) :: Packet(t.coordinator, p, msg))
  }

  // ----- steps

  datatype Choice = Go | Visit(key: Key) | Finish | Fail | Retry(on: TransactionId) | Wake

  datatype Action =
    | Connect
    | Ask(req: ClientRequest)
    | Hangup
    | Receive(resp: ClientResponse, from: NodeId)
    | AbortLocally
    | Serve(tok: Token)
    | Act(job: Token, choice: Choice)

  datatype Step = Step(tx: TransactionId, action: Action)

  ghost predicate ChoiceReady(job: Token, choice: Choice)
    requires job.Job?
  {
    if job.parked.Some? then choice == Wake
    else match job.work
      case Check(scan) => ScanReady(scan, choice)
      case Install(scan) => ScanReady(scan, choice)
      case _ => choice == Go
  }

  ghost predicate ScanReady(scan: Scan, choice: Choice) {
    match choice
    case Visit(k) => k in scan.todo
    case Finish => scan.todo == {} && !scan.failed && scan.waits == {}
    case Fail => scan.todo == {} && scan.failed
    case Retry(u) => scan.todo == {} && u in scan.waits
    case _ => false
  }

  ghost predicate Enabled(s: State, st: Step) {
    if st.action.Connect? then
      st.tx !in s.sessions && st.tx !in s.store.txs && !st.tx.IsDefault() && st.tx.coordinator in s.nodes
    else
      st.tx in s.sessions &&
      var sess := s.sessions[st.tx];
      match st.action
      case Ask(_) => sess.phase == Idle
      case Hangup => sess.phase == Idle
      case Receive(resp, from) =>
        Incoming(resp, from) in sess.flight && (sess.phase == AwaitReply || sess.phase == AwaitVotes || sess.phase.AwaitAborts?)
      case AbortLocally => sess.phase.Aborting?
      case Serve(tok) => tok in sess.flight && (tok.Forward? || tok.Finished? || tok.Packet?)
      case Act(job, choice) => job in sess.flight && job.Job? && ChoiceReady(job, choice)
  }

  /** The session after a step, and the event on the cluster's data it stands for. */
  datatype Effect = Effect(session: Session, event: Option<S.Event>)

  function Quiet(sess: Session): Effect {
    Effect(sess, S.None)
  }

  function Swap(sess: Session, tok: Token, news: multiset<Token>): Session {
    sess.(flight := sess.flight - multiset{tok} + news)
  }

  function Launch(sess: Session, phase: Phase, tok: Token): Session {
    sess.(phase := phase, flight := sess.flight + multiset{tok})
  }

  // ----- the client task

  function OnAsk(nodes: set<NodeId>, t: TransactionId, sess: Session, objects: Table, req: ClientRequest): Effect {
    match req
    case Commit =>
      Effect(Launch(sess, Checking, Job(t.coordinator, WorkFor(req, objects, t.coordinator), S.None)), S.Some(S.Prepare(t)))
    case Abort => Effect(sess.(phase := Aborting(Aborted)), S.Some(S.GiveUp(t)))
    case _ =>
      var asking := sess.(asked := sess.asked + [req]);
      match ExtractShard(req.account, t.coordinator, nodes)
      case DoesNotExist => Effect(asking.(phase := Aborting(AbortedNotFound)), S.Some(S.GiveUp(t)))
      case Local => Quiet(Launch(asking, AwaitReply, Job(t.coordinator, WorkFor(req, objects, t.coordinator), S.None)))
      case Remote(p) => Quiet(Launch(asking, AwaitReply, Forward(Node(p), req)))
  }

  function OnReceive(nodes: set<NodeId>, t: TransactionId, sess: Session, objects: Table, resp: ClientResponse, from: NodeId): Effect {
    var rest := Swap(sess, Incoming(resp, from), multiset{});
    match sess.phase
    case AwaitReply =>
      if resp.IsErr() then Effect(rest.(phase := Aborting(resp)), S.Some(S.GiveUp(t)))
      else Quiet(rest.(phase := Idle, replies := rest.replies + [resp]))
    case AwaitVotes =>
      if resp == CommitOk then
        Quiet(Launch(rest, Committing, Job(t.coordinator, Install(FreshScan(objects, t.coordinator)), S.None)))
      else if resp == Aborted then Effect(rest.(phase := Aborting(resp)), S.Some(S.GiveUp(t)))
      else Quiet(Launch(rest, Closed(S.Some(resp)), Finished).(fault := true))
    case AwaitAborts(count, acked, final) =>
      if resp != Aborted then Quiet(rest.(fault := true))
      else if count + 1 < |nodes| then Quiet(rest.(phase := AwaitAborts(count + 1, acked + {from}, final)))
      else Quiet(Launch(rest, Closed(S.Some(final)), Finished))
    case _ => Quiet(sess)
  }

  // ----- the server loop

  function CountVote(h: Handle, from: NodeId, status: CommitStatus): Handle {
    Handle(h.count + 1, if status == CannotCommit then CannotCommit else h.status, h.voters + {from})
  }

  /** What the server tells the client once every peer is counted. */
  function Tally(h: Handle, peers: nat): Option<ClientResponse> {
    if h.count != peers then S.None
    else S.Some(if h.status == ReadyToCommit then CommitOk else Aborted)
  }

  function WorkFor(req: ClientRequest, objects: Table, node: NodeId): Work {
    match req
    case WriteBalance(a, d) => Fetch(a, d)
    case ReadBalance(a) => Query(a)
    case Commit => Check(FreshScan(objects, node))
    case Abort => Erase
  }

  function OnVote(nodes: set<NodeId>, t: TransactionId, sess: Session, tok: Token): Effect
    requires tok.Packet? && tok.msg.TwoPhaseCommitStatus?
  {
    if sess.handle.None? then Quiet(Swap(sess, tok, multiset{}).(fault := true))
    else
      var h := CountVote(sess.handle.value, tok.src, tok.msg.status);
      var rest := Swap(sess, tok, multiset{}).(handle := S.Some(h));
      match Tally(h, |Peers(nodes, t)|)
      case None => Quiet(rest)
      case Some(verdict) =>
        var told := rest.(flight := rest.flight + multiset{Incoming(verdict, t.coordinator)});
        if verdict == CommitOk then Effect(told.(flight := told.flight + Bcast(t, nodes, DoCommit)), S.Some(S.Decide(t)))
        else Quiet(told)
  }

  function OnServe(nodes: set<NodeId>, t: TransactionId, sess: Session, objects: Table, tok: Token): Effect {
    match tok
    case Forward(Node(p), req) => Quiet(Swap(sess, tok, multiset{Packet(t.coordinator, p, Request(req))}))
    case Forward(Broadcast, req) => Quiet(Swap(sess, tok, Bcast(t, nodes, Request(req))))
    case Finished => Quiet(Swap(sess, tok, multiset{}).(handle := S.None))
    case Packet(src, dst, Request(req)) => Quiet(Swap(sess, tok, multiset{Job(dst, WorkFor(req, objects, dst), S.None)}))
    case Packet(src, dst, Response(resp)) =>
      if sess.handle.None? then Quiet(Swap(sess, tok, multiset{}).(fault := true))
      else Quiet(Swap(sess, tok, multiset{Incoming(resp, src)}))
    case Packet(src, dst, TwoPhaseCommitStatus(_)) => OnVote(nodes, t, sess, tok)
    case Packet(src, dst, DoCommit) => Quiet(Swap(sess, tok, multiset{Job(dst, Install(FreshScan(objects, dst)), S.None)}))
    case _ => Quiet(sess)
  }

  // ----- jobs on shards

  /** A local answer reaches the client at once; a remote one travels back through its server. */
  function Answer(t: TransactionId, node: NodeId, resp: ClientResponse): Token {
    if node == t.coordinator then Incoming(resp, node) else Packet(node, t.coordinator, Response(resp))
  }

  function Finishes(t: TransactionId, sess: Session, job: Token, resp: ClientResponse): Session
    requires job.Job?
  {
    Swap(sess, job, multiset{Answer(t, job.node, resp)})
  }

  function Continue(sess: Session, job: Token, work: Work): Session
    requires job.Job?
  {
    Swap(sess, job, multiset{Job(job.node, work, S.None)})
  }

  function Park(sess: Session, job: Token, on: TransactionId): Session
    requires job.Job?
  {
    Swap(sess, job, multiset{Job(job.node, job.work, S.Some(on))})
  }

  function OnQuery(t: TransactionId, sess: Session, objects: Table, job: Token): Effect
    requires job.Job? && job.work.Query?
  {
    var k := Key(job.node, job.work.account);
    if k !in objects then Quiet(Finishes(t, sess, job, AbortedNotFound))
    else match ReadRule(objects[k], t)
      case Read(v) => Effect(Finishes(t, sess, job, Value(k.account, v)), S.Some(S.LookOk(t, k)))
      case ReadWait(u) => Quiet(Park(sess, job, u))
      case _ => Quiet(Finishes(t, sess, job, Aborted))
  }

  function OnFetch(t: TransactionId, sess: Session, objects: Table, job: Token): Effect
    requires job.Job? && job.work.Fetch?
  {
    var k, d := Key(job.node, job.work.account), job.work.diff;
    if k !in objects then Effect(Continue(sess, job, PutBack(S.Create(k, d))), S.Some(S.FetchMissing(t, k, d)))
    else match ReadRule(objects[k], t)
      case Read(v) => Effect(Continue(sess, job, PutBack(S.Update(k, v, d))), S.Some(S.FetchOk(t, k, d)))
      case ReadWait(u) => Quiet(Park(sess, job, u))
      case _ => Quiet(Finishes(t, sess, job, Aborted))
  }

  ghost function OnPutBack(t: TransactionId, sess: Session, objects: Table, job: Token): Effect
    requires job.Job? && job.work.PutBack?
  {
    match StoreRule(objects, job.work.put.key, t, job.work.put.Amount())
    case Stored => Effect(Finishes(t, sess, job, Ok), S.Some(S.PutOk(t)))
    case StoreNotFound => Quiet(Finishes(t, sess, job, AbortedNotFound))
    case StoreTooLate => Quiet(Finishes(t, sess, job, Aborted))
  }

  /** A commit check of one more object. An object reaped since the scan began holds nothing of t. */
  function OnCheck(t: TransactionId, sess: Session, objects: Table, job: Token, choice: Choice): Effect
    requires job.Job? && job.work.Check?
  {
    var scan, local := job.work.scan, job.node == t.coordinator;
    match choice
    case Visit(k) =>
      var rest := scan.(todo := scan.todo - {k});
      if k !in objects then Quiet(Continue(sess, job, Check(rest)))
      else (match CheckRule(objects[k], t)
        case CheckWait(u) => Quiet(Continue(sess, job, Check(rest.(waits := rest.waits + {u}))))
        case CheckFailed => Quiet(Continue(sess, job, Check(rest.(failed := true))))
        case _ => Effect(Continue(sess, job, Check(rest)), S.Some(S.CheckPass(t, k))))
    case Finish =>
      var ready := sess.(passed := sess.passed + {job.node});
      if local then Quiet(Launch(Swap(ready, job, multiset{}), AwaitVotes, Forward(Broadcast, Commit)))
      else Quiet(Swap(ready, job, multiset{Packet(job.node, t.coordinator, TwoPhaseCommitStatus(ReadyToCommit))}))
    case Fail =>
      if local then Effect(Swap(sess, job, multiset{}).(phase := Aborting(Aborted)), S.Some(S.GiveUp(t)))
      else Quiet(Swap(sess, job, multiset{Packet(job.node, t.coordinator, TwoPhaseCommitStatus(CannotCommit))}))
    case Retry(u) => Quiet(Swap(sess, job, multiset{Job(job.node, Check(FreshScan(objects, job.node)), S.Some(u))}))
    case _ => Quiet(sess)
  }

  function OnInstall(t: TransactionId, sess: Session, objects: Table, job: Token, choice: Choice): Effect
    requires job.Job? && job.work.Install?
  {
    var scan, local := job.work.scan, job.node == t.coordinator;
    match choice
    case Visit(k) =>
      var rest := scan.(todo := scan.todo - {k});
      if k !in objects then Quiet(Continue(sess, job, Install(rest)))
      else (match CheckRule(objects[k], t)
        case CheckWait(u) => Quiet(Continue(sess, job, Install(rest.(waits := rest.waits + {u}))))
        case CheckFailed => Quiet(Continue(sess, job, Install(rest.(failed := true))))
        case _ => Effect(Continue(sess, job, Install(rest)), S.Some(S.Install(t, k))))
    case Retry(u) => Quiet(Swap(sess, job, multiset{Job(job.node, Install(FreshScan(objects, job.node)), S.Some(u))}))
    case _ =>
      var ended := Swap(sess, job, multiset{}).(fault := sess.fault || choice == Fail);
      Quiet(if local then Launch(ended, Closed(S.Some(CommitOk)), Finished) else ended)
  }

  ghost function OnAct(t: TransactionId, sess: Session, objects: Table, job: Token, choice: Choice): Effect
    requires job.Job?
  {
    if job.parked.Some? then Quiet(Swap(sess, job, multiset{job.(parked := S.None)}))
    else match job.work
      case Query(_) => OnQuery(t, sess, objects, job)
      case Fetch(_, _) => OnFetch(t, sess, objects, job)
      case PutBack(_) => OnPutBack(t, sess, objects, job)
      case Check(_) => OnCheck(t, sess, objects, job, choice)
      case Install(_) => OnInstall(t, sess, objects, job, choice)
      case Erase => Effect(Finishes(t, sess, job, Aborted), S.Some(S.Erase(t, job.node)))
  }

  // ----- the machine

  ghost function EffectOf(s: State, st: Step): Effect
    requires Enabled(s, st)
  {
    var t, objects := st.tx, s.store.objects;
    if st.action.Connect? then
      Effect(Session(Idle, multiset{}, S.Some(NEW_HANDLE), [], [], {}, false), S.Some(S.Begin(t)))
    else
      var sess := s.sessions[t];
      match st.action
      case Ask(req) => OnAsk(s.nodes, t, sess, objects, req)
      case Hangup => Quiet(Launch(sess, Closed(S.None), Finished))
      case Receive(resp, from) => OnReceive(s.nodes, t, sess, objects, resp, from)
      case AbortLocally =>
        Effect(Launch(sess, AwaitAborts(1, {}, sess.phase.resp), Forward(Broadcast, Abort)),
               S.Some(S.Erase(t, t.coordinator)))
      case Serve(tok) => OnServe(s.nodes, t, sess, objects, tok)
      case Act(job, choice) => OnAct(t, sess, objects, job, choice)
  }

  ghost predicate EventEnabled(s: State, st: Step)
    requires Enabled(s, st)
  {
    var ev := EffectOf(s, st).event;
    ev.Some? ==> S.Enabled(s.store, ev.value)
  }

  /** The cluster after an effect of transaction t. */
  ghost function Advance(s: State, t: TransactionId, e: Effect): State
    requires e.event.Some? ==> S.Enabled(s.store, e.event.value)
  {
    State(s.nodes, if e.event.Some? then S.Apply(s.store, e.event.value) else s.store, s.sessions[t := e.session])
  }

  ghost function Next(s: State, st: Step): State
    requires Enabled(s, st) && EventEnabled(s, st)
  {
    Advance(s, st.tx, EffectOf(s, st))
  }

  /** Anything may follow a step whose event makes no sense on the data, so runs do not assume there is none. */
  ghost predicate Follows(s: State, st: Step, s': State) {
    Enabled(s, st) && (EventEnabled(s, st) ==> s' == Next(s, st))
  }

  ghost function Init(nodes: set<NodeId>): State {
    State(nodes, S.EMPTY, map[])
  }

  ghost predicate StepAt(states: seq<State>, steps: seq<Step>, i: nat)
    requires |states| == |steps| + 1 && i < |steps|
  {
    Follows(states[i], steps[i], states[i + 1])
  }

  /** A run of the cluster: any number of nodes from two, any transactions, any interleaving. */
  ghost predicate IsRun(nodes: set<NodeId>, states: seq<State>, steps: seq<Step>) {
    && |nodes| >= 2
    && |states| == |steps| + 1
    && states[0] == Init(nodes)
    && forall i :: 0 <= i < |steps| ==> StepAt(states, steps, i)
  }
}

/**
 * Building blocks for concrete runs of a cluster of two nodes: transactions of node A on one of its
 * accounts, one step after the other.
 */
module Scenarios {
  import opened TransactionIds
  import opened Objects
  import opened Ledger
  import opened Tables
  import S = Store
  import opened Protocol

  // ----- building a run

  ghost predicate Runs(s: State, steps: seq<Step>, s': State)
    decreases |steps|
  {
    if steps == [] then s' == s
    else Enabled(s, steps[0]) && EventEnabled(s, steps[0]) && Runs(Next(s, steps[0]), steps[1..], s')
  }

  lemma RunsFrom(s: State, st: Step, steps: seq<Step>, s': State)
    requires Enabled(s, st) && EventEnabled(s, st) && Runs(Next(s, st), steps, s')
    ensures Runs(s, [st] + steps, s')
  {
    assert ([st] + steps)[1..] == steps;
  }

  lemma FirstAndRest(a: seq<Step>, b: seq<Step>)
    requires a != []
    ensures a + b == [a[0]] + (a[1..] + b)
  {
  }

  lemma {:induction false} RunsJoin(s: State, a: seq<Step>, m: State, b: seq<Step>, s': State)
    requires Runs(s, a, m) && Runs(m, b, s')
    ensures Runs(s, a + b, s')
    decreases |a|
  {
    if a == [] {
      assert a + b == b;
    } else {
      RunsJoin(Next(s, a[0]), a[1..], m, b, s');
      RunsFrom(s, a[0], a[1..] + b, s');
      FirstAndRest(a, b);
    }
  }

  lemma {:induction false} RunsTrace(s: State, steps: seq<Step>, s': State) returns (states: seq<State>)
    requires Runs(s, steps, s')
    ensures |states| == |steps| + 1 && states[0] == s && states[|steps|] == s'
    ensures forall i :: 0 <= i < |steps| ==> StepAt(states, steps, i)
    decreases |steps|
  {
    if steps == [] { return [s]; }
    var rest := RunsTrace(Next(s, steps[0]), steps[1..], s');
    states := [s] + rest;
    forall i | 0 <= i < |steps| ensures StepAt(states, steps, i) {
      if i > 0 { assert StepAt(rest, steps[1..], i - 1); }
    }
  }

  ghost predicate Reaches(s: State, s': State) {
    exists steps :: Runs(s, steps, s')
  }

  lemma ReachesRun(nodes: set<NodeId>, s: State) returns (states: seq<State>, steps: seq<Step>)
    requires |nodes| >= 2 && Reaches(Init(nodes), s)
    ensures IsRun(nodes, states, steps) && states[|steps|] == s
  {
    steps :| Runs(Init(nodes), steps, s);
    states := RunsTrace(Init(nodes), steps, s);
  }

  lemma ReachesOn(o: State, s: State, s': State)
    requires Reaches(o, s) && Reaches(s, s')
    ensures Reaches(o, s')
  {
    var a :| Runs(o, a, s);
    var b :| Runs(s, b, s');
    RunsJoin(o, a, s, b, s');
  }

  /** The cluster with t's session and the data replaced. */
  function With(o: State, t: TransactionId, sess: Session, store: S.State): State {
    State(o.nodes, store, o.sessions[t := sess])
  }

  /** One more step of t. */
  lemma Hop(o: State, t: TransactionId, sess: Session, store: S.State, action: Action, e: Effect)
    requires Reaches(o, With(o, t, sess, store)) && Enabled(With(o, t, sess, store), Step(t, action))
    requires EffectOf(With(o, t, sess, store), Step(t, action)) == e && (e.event.Some? ==> S.Enabled(store, e.event.value))
    ensures Reaches(o, With(o, t, e.session, if e.event.Some? then S.Apply(store, e.event.value) else store))
  {
    var m, st := With(o, t, sess, store), Step(t, action);
    var m' := With(o, t, e.session, if e.event.Some? then S.Apply(store, e.event.value) else store);
    assert m.sessions[t := e.session] == m'.sessions;
    assert Next(m, st) == m' && [st][1..] == [];
    assert Runs(m', [], m') && Runs(m, [st], m');
    ReachesOn(o, m, m');
  }

  // ----- what sessions look like

  const NODES: set<NodeId> := {'A', 'B'}
  const ACCOUNT := Key('A', "Ann")
  const VOTED := Handle(1, ReadyToCommit, {'B'})
  const GO := Packet('A', 'B', DoCommit)
  const ASK := Forward(Broadcast, Commit)
  const VOTE := Packet('B', 'A', TwoPhaseCommitStatus(ReadyToCommit))

  /** What a client asked for and was told. */
  datatype Talk = Talk(asked: seq<ClientRequest>, replies: seq<ClientResponse>)

  function Wanting(c: Talk, d: int): Talk {
    c.(asked := c.asked + [WriteBalance("Ann", d)])
  }

  function Hears(c: Talk): Talk {
    c.(replies := c.replies + [Ok])
  }

  function Open(phase: Phase, flight: multiset<Token>, c: Talk, passed: set<NodeId>): Session {
    Session(phase, flight, S.Some(NEW_HANDLE), c.asked, c.replies, passed, false)
  }

  function Resting(c: Talk): Session {
    Open(Idle, multiset{}, c, {})
  }

  function Working(c: Talk, work: Work): Session {
    Open(AwaitReply, multiset{OnA(work)}, c, {})
  }

  function InCheck(c: Talk, todo: set<Key>): Session {
    Open(Checking, multiset{OnA(Check(Todo(todo)))}, c, {})
  }

  function Voting(c: Talk, tok: Token, passed: set<NodeId>): Session {
    Open(AwaitVotes, multiset{tok}, c, passed)
  }

  function Deciding(c: Talk, phase: Phase, tok: Token): Session {
    Session(phase, multiset{GO, tok}, S.Some(VOTED), c.asked, c.replies, NODES, false)
  }

  function InInstall(c: Talk, todo: set<Key>): Session {
    Deciding(c, Committing, OnA(Install(Todo(todo))))
  }

  /** The client was told CommitOk. */
  function ToldCommitOk(c: Talk): Session {
    Deciding(c, Closed(S.Some(CommitOk)), Finished)
  }

  function OnA(work: Work): Token {
    Job('A', work, S.None)
  }

  function Todo(keys: set<Key>): Scan {
    Scan(keys, false, {})
  }

  lemma Swapped(tok: Token, after: Token)
    ensures multiset{tok} - multiset{tok} + multiset{after} == multiset{after}
    ensures multiset{tok} - multiset{tok} + multiset{} == multiset{}
    ensures multiset{} + multiset{after} == multiset{after}
  {
  }

  lemma SwappedBeside(tok: Token, after: Token)
    requires tok != GO
    ensures multiset{GO, tok} - multiset{tok} + multiset{after} == multiset{GO, after}
    ensures multiset{GO, tok} - multiset{tok} + multiset{} + multiset{after} == multiset{GO, after}
  {
  }

  // ----- what the data looks like

  /** t's record and the objects replaced. */
  function Staged(store: S.State, t: TransactionId, tx: S.Tx, objects: Table): S.State {
    store.(objects := objects, txs := store.txs[t := tx])
  }

  lemma Restaged(store: S.State, t: TransactionId, tx: S.Tx, tx': S.Tx)
    ensures store.txs[t := tx][t := tx'] == store.txs[t := tx']
  {
  }

  /** t's tentative write of d on an object otherwise like base. */
  function Written(base: ObjectState, t: TransactionId, d: int): Table {
    map[ACCOUNT := base.(tentative := base.tentative[t := d])]
  }

  function Closing(base: ObjectState, t: TransactionId, d: int): Table {
    map[ACCOUNT := ObjectState(d, t, base.readers, map[])]
  }

  ghost predicate OnlyAccount(objects: Table) {
    forall k :: k in objects ==> k == ACCOUNT
  }

  // ----- operations

  const BEGUN := S.Tx(S.Running, [], S.None, {})
  const SILENCE := Talk([], [])

  function Pending(put: S.Put, log: Log): S.Tx {
    S.Tx(S.Running, log, S.Some(put), {})
  }

  function Missed(store: S.State, t: TransactionId, d: int): S.State {
    store.(txs := store.txs[t := Pending(S.Create(ACCOUNT, d), [])], submitted := store.submitted + [S.Submission(t, ACCOUNT, d)])
  }

  /** A client connects. */
  lemma Connects(o: State, t: TransactionId)
    requires o.nodes == NODES && t.coordinator == 'A' && !t.IsDefault() && t !in o.sessions && t !in o.store.txs
    ensures Reaches(o, With(o, t, Resting(SILENCE), o.store.(txs := o.store.txs[t := BEGUN])))
  {
    var m := With(o, t, Resting(SILENCE), o.store.(txs := o.store.txs[t := BEGUN]));
    assert Next(o, Step(t, Connect)) == m && [Step(t, Connect)][1..] == [];
    assert Runs(m, [], m) && Runs(o, [Step(t, Connect)], m);
  }

  /** It asks for a change. */
  lemma AsksChange(o: State, t: TransactionId, c: Talk, d: int, store: S.State)
    requires o.nodes == NODES && t.coordinator == 'A' && Reaches(o, With(o, t, Resting(c), store))
    ensures Reaches(o, With(o, t, Working(Wanting(c, d), Fetch("Ann", d)), store))
  {
    var job := OnA(Fetch("Ann", d));
    Swapped(job, job);
    Hop(o, t, Resting(c), store, Ask(WriteBalance("Ann", d)), Quiet(Working(Wanting(c, d), Fetch("Ann", d))));
  }

  /** A client connects and asks for a change of an account that does not exist. */
  lemma Misses(o: State, t: TransactionId, d: int)
    requires o.nodes == NODES && t.coordinator == 'A' && !t.IsDefault() && t !in o.sessions && t !in o.store.txs
    requires o.store.objects == map[]
    ensures Reaches(o, With(o, t, Working(Wanting(SILENCE, d), PutBack(S.Create(ACCOUNT, d))), Missed(o.store, t, d)))
  {
    var store := o.store.(txs := o.store.txs[t := BEGUN]);
    Connects(o, t);
    AsksChange(o, t, SILENCE, d, store);
    var job, put := OnA(Fetch("Ann", d)), OnA(PutBack(S.Create(ACCOUNT, d)));
    Swapped(job, put);
    Restaged(o.store, t, BEGUN, Missed(o.store, t, d).txs[t]);
    Hop(o, t, Working(Wanting(SILENCE, d), job.work), store, Act(job, Go),
        Effect(Working(Wanting(SILENCE, d), put.work), S.Some(S.FetchMissing(t, ACCOUNT, d))));
  }

  function OkOnItsWay(c: Talk): Session {
    Open(AwaitReply, multiset{Incoming(Ok, 'A')}, c, {})
  }

  lemma HearsOk(o: State, t: TransactionId, c: Talk, store: S.State)
    requires o.nodes == NODES && t.coordinator == 'A' && Reaches(o, With(o, t, OkOnItsWay(c), store))
    ensures Reaches(o, With(o, t, Resting(Hears(c)), store))
  {
    Swapped(Incoming(Ok, 'A'), Incoming(Ok, 'A'));
    Hop(o, t, OkOnItsWay(c), store, Receive(Ok, 'A'), Quiet(Resting(Hears(c))));
  }

  /** The write of a change, and its answer. */
  lemma Writes(o: State, t: TransactionId, c: Talk, put: S.Put, log: Log, store: S.State, base: ObjectState)
    requires o.nodes == NODES && t.coordinator == 'A' && put.key == ACCOUNT && t in store.txs && store.txs[t] == Pending(put, log)
    requires Target(store.objects, ACCOUNT) == base && OnlyAccount(store.objects)
    requires StoreRule(store.objects, ACCOUNT, t, put.Amount()) == Stored
    requires Reaches(o, With(o, t, Working(c, PutBack(put)), store))
    ensures Reaches(o, With(o, t, Resting(Hears(c)), Staged(store, t, S.Tx(S.Running, log + [Change(ACCOUNT, put.diff, put.Create?)], S.None, {}),
                                                            Written(base, t, put.Amount()))))
  {
    var job := OnA(PutBack(put));
    Swapped(job, Incoming(Ok, 'A'));
    Hop(o, t, Working(c, PutBack(put)), store, Act(job, Go), Effect(OkOnItsWay(c), S.Some(S.PutOk(t))));
    assert S.Apply(store, S.PutOk(t)).objects == Written(base, t, put.Amount());
    HearsOk(o, t, c, S.Apply(store, S.PutOk(t)));
  }

  /** A client connects, reads the account and is told its balance. */
  lemma Reads(o: State, t: TransactionId, amount: int)
    requires o.nodes == NODES && t.coordinator == 'A' && !t.IsDefault() && t !in o.sessions && t !in o.store.txs
    requires ACCOUNT in o.store.objects && ReadRule(o.store.objects[ACCOUNT], t) == Read(amount)
    ensures Reaches(o, With(o, t, Resting(Talk([ReadBalance("Ann")], [Value("Ann", amount)])), Looked(o.store, t, amount)))
  {
    var store, c := o.store.(txs := o.store.txs[t := BEGUN]), Talk([ReadBalance("Ann")], []);
    Connects(o, t);
    var job, told := OnA(Query("Ann")), Incoming(Value("Ann", amount), 'A');
    Swapped(job, job);
    assert [] + [ReadBalance("Ann")] == [ReadBalance("Ann")];
    Hop(o, t, Resting(SILENCE), store, Ask(ReadBalance("Ann")), Quiet(Working(c, Query("Ann"))));
    LooksUp(o, t, c, store, amount);
    Restaged(o.store, t, BEGUN, Looked(o.store, t, amount).txs[t]);
    Swapped(told, told);
    assert [] + [Value("Ann", amount)] == [Value("Ann", amount)];
    Hop(o, t, Open(AwaitReply, multiset{told}, c, {}), Looked(o.store, t, amount), Receive(Value("Ann", amount), 'A'),
        Quiet(Resting(Talk([ReadBalance("Ann")], [Value("Ann", amount)]))));
  }

  ghost function Looked(store: S.State, t: TransactionId, amount: int): S.State
    requires ACCOUNT in store.objects
  {
    Staged(store, t, BEGUN.(log := [Look(ACCOUNT, amount)]), store.objects[ACCOUNT := AfterRead(store.objects[ACCOUNT], t)])
  }

  lemma LooksUp(o: State, t: TransactionId, c: Talk, store: S.State, amount: int)
    requires o.nodes == NODES && t.coordinator == 'A' && t in store.txs && store.txs[t] == BEGUN
    requires ACCOUNT in store.objects && ReadRule(store.objects[ACCOUNT], t) == Read(amount)
    requires Reaches(o, With(o, t, Working(c, Query("Ann")), store))
    ensures Reaches(o, With(o, t, Open(AwaitReply, multiset{Incoming(Value("Ann", amount), 'A')}, c, {}), Looked(store, t, amount)))
  {
    var job, told := OnA(Query("Ann")), Incoming(Value("Ann", amount), 'A');
    Swapped(job, told);
    assert [] + [Look(ACCOUNT, amount)] == [Look(ACCOUNT, amount)];
    Hop(o, t, Working(c, Query("Ann")), store, Act(job, Go), Effect(Open(AwaitReply, multiset{told}, c, {}), S.Some(S.LookOk(t, ACCOUNT))));
  }

  // ----- committing an account nobody else has an entry on

  lemma AloneOnAccount(t: TransactionId, d: int, base: ObjectState)
    requires d >= 0 && base.tentative == map[]
    ensures CheckRule(Written(base, t, d)[ACCOUNT], t) == CommitValue
    ensures Written(base, t, d)[ACCOUNT := AfterCommit(Written(base, t, d)[ACCOUNT], t)] == Closing(base, t, d)
    ensures KeysAt(Written(base, t, d), 'A') == {ACCOUNT} && KeysAt(Written(base, t, d), 'B') == {}
  {
    assert Written(base, t, d)[ACCOUNT].tentative.Keys == {t};
    assert map[t := d] - {t} == map[];
  }

  lemma AsksCommit(o: State, t: TransactionId, c: Talk, store: S.State, tx: S.Tx)
    requires o.nodes == NODES && t.coordinator == 'A' && KeysAt(store.objects, 'A') == {ACCOUNT}
    requires t in store.txs && store.txs[t] == tx && tx.status == S.Running && tx.pending.None?
    requires Reaches(o, With(o, t, Resting(c), store))
    ensures Reaches(o, With(o, t, InCheck(c, {ACCOUNT}), store.(txs := store.txs[t := tx.(status := S.Preparing)])))
  {
    var job := OnA(Check(Todo({ACCOUNT})));
    Swapped(job, job);
    Hop(o, t, Resting(c), store, Ask(Commit), Effect(InCheck(c, {ACCOUNT}), S.Some(S.Prepare(t))));
  }

  /** The local check. */
  lemma Checks(o: State, t: TransactionId, c: Talk, store: S.State, tx: S.Tx)
    requires o.nodes == NODES && t.coordinator == 'A' && ACCOUNT in store.objects && CheckRule(store.objects[ACCOUNT], t) == CommitValue
    requires t in store.txs && store.txs[t] == tx && tx.status == S.Preparing && tx.checked == {}
    requires Reaches(o, With(o, t, InCheck(c, {ACCOUNT}), store))
    ensures Reaches(o, With(o, t, Voting(c, ASK, {'A'}), store.(txs := store.txs[t := tx.(checked := {ACCOUNT})])))
  {
    var job1, job2 := OnA(Check(Todo({ACCOUNT}))), OnA(Check(Todo({})));
    Swapped(job1, job2);
    assert {ACCOUNT} - {ACCOUNT} == {} && {} + {ACCOUNT} == {ACCOUNT};
    Hop(o, t, InCheck(c, {ACCOUNT}), store, Act(job1, Visit(ACCOUNT)), Effect(InCheck(c, {}), S.Some(S.CheckPass(t, ACCOUNT))));
    Swapped(job2, ASK);
    assert {} + {'A'} == {'A'};
    Hop(o, t, InCheck(c, {}), S.Apply(store, S.CheckPass(t, ACCOUNT)), Act(job2, Finish), Quiet(Voting(c, ASK, {'A'})));
  }

  lemma OnePeer(t: TransactionId, msg: Forwarded)
    requires t.coordinator == 'A'
    ensures Peers(NODES, t) == {'B'} && Bcast(t, NODES, msg) == multiset{Packet('A', 'B', msg)}
  {
    assert Peers(NODES, t) == {'B'};
    assert (set p | p in Peers(NODES, t) :: Packet(t.coordinator, p, msg)) == {Packet('A', 'B', msg)};
  }

  /** The other shard is asked. */
  lemma PeerIsAsked(o: State, t: TransactionId, c: Talk, store: S.State)
    requires o.nodes == NODES && t.coordinator == 'A' && KeysAt(store.objects, 'B') == {}
    requires Reaches(o, With(o, t, Voting(c, ASK, {'A'}), store))
    ensures Reaches(o, With(o, t, Voting(c, Job('B', Check(Todo({})), S.None), {'A'}), store))
  {
    var packet, job := Packet('A', 'B', Request(Commit)), Job('B', Check(Todo({})), S.None);
    OnePeer(t, Request(Commit));
    Swapped(ASK, packet);
    Hop(o, t, Voting(c, ASK, {'A'}), store, Serve(ASK), Quiet(Voting(c, packet, {'A'})));
    Swapped(packet, job);
    Hop(o, t, Voting(c, packet, {'A'}), store, Serve(packet), Quiet(Voting(c, job, {'A'})));
  }

  /** Its check has nothing to look at. */
  lemma PeerVotes(o: State, t: TransactionId, c: Talk, store: S.State)
    requires o.nodes == NODES && t.coordinator == 'A' && KeysAt(store.objects, 'B') == {}
    requires Reaches(o, With(o, t, Voting(c, ASK, {'A'}), store))
    ensures Reaches(o, With(o, t, Voting(c, VOTE, NODES), store))
  {
    PeerIsAsked(o, t, c, store);
    var job := Job('B', Check(Todo({})), S.None);
    Swapped(job, VOTE);
    assert {'A'} + {'B'} == NODES;
    Hop(o, t, Voting(c, job, {'A'}), store, Act(job, Finish), Quiet(Voting(c, VOTE, NODES)));
  }

  lemma VerdictOf(t: TransactionId, c: Talk)
    requires t.coordinator == 'A'
    ensures OnVote(NODES, t, Voting(c, VOTE, NODES), VOTE)
            == Effect(Deciding(c, AwaitVotes, Incoming(CommitOk, 'A')), S.Some(S.Decide(t)))
  {
    OnePeer(t, DoCommit);
    Swapped(VOTE, Incoming(CommitOk, 'A'));
    assert multiset{Incoming(CommitOk, 'A')} + multiset{GO} == multiset{GO, Incoming(CommitOk, 'A')};
    assert {} + {'B'} == {'B'};
    assert CountVote(NEW_HANDLE, 'B', ReadyToCommit) == VOTED;
  }

  /** The vote decides. */
  lemma Decides(o: State, t: TransactionId, c: Talk, store: S.State)
    requires o.nodes == NODES && t.coordinator == 'A' && KeysAt(store.objects, 'B') == {} && OnlyAccount(store.objects)
    requires t in store.txs && store.txs[t].status == S.Preparing && store.txs[t].checked == {ACCOUNT}
    requires Reaches(o, With(o, t, Voting(c, ASK, {'A'}), store))
    ensures S.Enabled(store, S.Decide(t))
    ensures Reaches(o, With(o, t, Deciding(c, AwaitVotes, Incoming(CommitOk, 'A')), S.Apply(store, S.Decide(t))))
  {
    PeerVotes(o, t, c, store);
    VerdictOf(t, c);
    assert EffectOf(With(o, t, Voting(c, VOTE, NODES), store), Step(t, Serve(VOTE))) == OnVote(NODES, t, Voting(c, VOTE, NODES), VOTE);
    Hop(o, t, Voting(c, VOTE, NODES), store, Serve(VOTE), Effect(Deciding(c, AwaitVotes, Incoming(CommitOk, 'A')), S.Some(S.Decide(t))));
  }

  lemma StartsInstall(o: State, t: TransactionId, c: Talk, store: S.State)
    requires o.nodes == NODES && t.coordinator == 'A' && KeysAt(store.objects, 'A') == {ACCOUNT}
    requires Reaches(o, With(o, t, Deciding(c, AwaitVotes, Incoming(CommitOk, 'A')), store))
    ensures Reaches(o, With(o, t, InInstall(c, {ACCOUNT}), store))
  {
    var ok := Incoming(CommitOk, 'A');
    SwappedBeside(ok, OnA(Install(Todo({ACCOUNT}))));
    Hop(o, t, Deciding(c, AwaitVotes, ok), store, Receive(CommitOk, 'A'), Quiet(InInstall(c, {ACCOUNT})));
  }

  lemma EndsInstall(o: State, t: TransactionId, c: Talk, store: S.State)
    requires o.nodes == NODES && t.coordinator == 'A' && Reaches(o, With(o, t, InInstall(c, {}), store))
    ensures Reaches(o, With(o, t, ToldCommitOk(c), store))
  {
    var job := OnA(Install(Todo({})));
    SwappedBeside(job, Finished);
    Hop(o, t, InInstall(c, {}), store, Act(job, Finish), Quiet(ToldCommitOk(c)));
  }

  /** The local install. */
  lemma InstallsAlone(o: State, t: TransactionId, c: Talk, store: S.State)
    requires o.nodes == NODES && t.coordinator == 'A' && KeysAt(store.objects, 'A') == {ACCOUNT}
    requires ACCOUNT in store.objects && CheckRule(store.objects[ACCOUNT], t) == CommitValue
    requires t in store.txs && store.txs[t].status == S.Committed
    requires Reaches(o, With(o, t, Deciding(c, AwaitVotes, Incoming(CommitOk, 'A')), store))
    ensures Reaches(o, With(o, t, ToldCommitOk(c), store.(objects := store.objects[ACCOUNT := AfterCommit(store.objects[ACCOUNT], t)])))
  {
    StartsInstall(o, t, c, store);
    var job1, job2 := OnA(Install(Todo({ACCOUNT}))), OnA(Install(Todo({})));
    SwappedBeside(job1, job2);
    assert {ACCOUNT} - {ACCOUNT} == {};
    Hop(o, t, InInstall(c, {ACCOUNT}), store, Act(job1, Visit(ACCOUNT)), Effect(InInstall(c, {}), S.Some(S.Install(t, ACCOUNT))));
    EndsInstall(o, t, c, S.Apply(store, S.Install(t, ACCOUNT)));
  }

  function DecidedData(store: S.State, t: TransactionId, log: Log, objects: Table): S.State {
    store.(objects := objects, txs := store.txs[t := S.Tx(S.Committed, log, S.None, {ACCOUNT})], ledger := Insert(store.ledger, Entry(t, log)))
  }

  /** From the commit request to the verdict, when nobody interferes. */
  lemma DecidesAlone(o: State, t: TransactionId, c: Talk, d: int, log: Log, store: S.State, base: ObjectState)
    requires o.nodes == NODES && t.coordinator == 'A' && d >= 0 && base.tentative == map[] && t in store.txs
    requires Reaches(o, With(o, t, Resting(c), Staged(store, t, S.Tx(S.Running, log, S.None, {}), Written(base, t, d))))
    ensures Reaches(o, With(o, t, Deciding(c, AwaitVotes, Incoming(CommitOk, 'A')), DecidedData(store, t, log, Written(base, t, d))))
  {
    var tx1 := S.Tx(S.Running, log, S.None, {});
    var tx2, w := tx1.(status := S.Preparing), Written(base, t, d);
    var tx3 := tx2.(checked := {ACCOUNT});
    AloneOnAccount(t, d, base);
    AsksCommit(o, t, c, Staged(store, t, tx1, w), tx1);
    Restaged(store, t, tx1, tx2);
    Checks(o, t, c, Staged(store, t, tx2, w), tx2);
    Restaged(store, t, tx2, tx3);
    Decides(o, t, c, Staged(store, t, tx3, w));
    Restaged(store, t, tx3, tx3.(status := S.Committed));
  }

  /** From the commit request to the install, when nobody interferes. */
  lemma CommitsAlone(o: State, t: TransactionId, c: Talk, d: int, log: Log, store: S.State, base: ObjectState)
    requires o.nodes == NODES && t.coordinator == 'A' && d >= 0 && base.tentative == map[] && t in store.txs
    requires Reaches(o, With(o, t, Resting(c), Staged(store, t, S.Tx(S.Running, log, S.None, {}), Written(base, t, d))))
    ensures Reaches(o, With(o, t, ToldCommitOk(c), DecidedData(store, t, log, Closing(base, t, d))))
  {
    AloneOnAccount(t, d, base);
    DecidesAlone(o, t, c, d, log, store, base);
    InstallsAlone(o, t, c, DecidedData(store, t, log, Written(base, t, d)));
  }
}

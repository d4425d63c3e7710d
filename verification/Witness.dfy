/**
 * Runs of the cluster with one blind create each: two that no serial run explains, so that the condition
 * on creates cannot be dropped, nor either half of it; one in which a mere reader misses a committed
 * change; and one in which a decided commit has to wait for an older transaction.
 */
module Witness {
  import opened TransactionIds
  import opened Objects
  import opened Ledger
  import opened Tables
  import S = Store
  import opened Protocol
  import opened Scenarios

  const FIRST := TransactionId(1, 'A')
  const SECOND := TransactionId(2, 'A')

  function Wants(d: int): Talk {
    Wanting(SILENCE, d)
  }

  /** The change has found no account and is about to create it. */
  function Creating(d: int): Session {
    Working(Wants(d), PutBack(S.Create(ACCOUNT, d)))
  }

  function Opening(d: int): Log {
    [Change(ACCOUNT, d, true)]
  }

  /** Both changes find nothing before either creates the account. */
  lemma BothMiss(a: int, b: int) returns (s: State)
    ensures Reaches(Init(NODES), s) && s.nodes == NODES && s.sessions == map[FIRST := Creating(a), SECOND := Creating(b)]
    ensures s.store.objects == map[] && s.store.ledger == []
    ensures s.store.txs == map[FIRST := Pending(S.Create(ACCOUNT, a), []), SECOND := Pending(S.Create(ACCOUNT, b), [])]
  {
    var o := Init(NODES);
    Misses(o, FIRST, a);
    var m := With(o, FIRST, Creating(a), Missed(o.store, FIRST, a));
    Misses(m, SECOND, b);
    s := With(m, SECOND, Creating(b), Missed(m.store, SECOND, b));
    ReachesOn(o, m, s);
  }

  lemma Stays(o: State, t: TransactionId)
    requires t in o.sessions
    ensures Reaches(o, With(o, t, o.sessions[t], o.store))
  {
    assert With(o, t, o.sessions[t], o.store) == o && Runs(o, [], o);
  }

  lemma Creates(o: State, t: TransactionId, d: int, base: ObjectState)
    requires o.nodes == NODES && t.coordinator == 'A' && t in o.store.txs && o.store.txs[t] == Pending(S.Create(ACCOUNT, d), [])
    requires t in o.sessions && o.sessions[t] == Creating(d) && OnlyAccount(o.store.objects)
    requires Target(o.store.objects, ACCOUNT) == base && StoreRule(o.store.objects, ACCOUNT, t, d) == Stored
    ensures Reaches(o, With(o, t, Resting(Hears(Wants(d))), Staged(o.store, t, S.Tx(S.Running, Opening(d), S.None, {}), Written(base, t, d))))
  {
    Stays(o, t);
    assert [] + Opening(d) == Opening(d);
    Writes(o, t, Wants(d), S.Create(ACCOUNT, d), [], o.store, base);
  }

  // ----- a lost deposit

  /** From its write to its install, a creation that nobody interferes with any more. */
  lemma Completes(o: State, t: TransactionId, d: int, base: ObjectState)
    requires o.nodes == NODES && t.coordinator == 'A' && d >= 0 && t in o.store.txs && o.store.txs[t] == Pending(S.Create(ACCOUNT, d), [])
    requires Target(o.store.objects, ACCOUNT) == base && base.tentative == map[] && base.readers == {} && base.committed.Lt(t)
    requires OnlyAccount(o.store.objects) && t in o.sessions && o.sessions[t] == Creating(d)
    ensures Reaches(o, With(o, t, ToldCommitOk(Hears(Wants(d))), DecidedData(o.store, t, Opening(d), Closing(base, t, d))))
  {
    Creates(o, t, d, base);
    CommitsAlone(o, t, Hears(Wants(d)), d, Opening(d), o.store, base);
  }

  lemma FirstCommits() returns (s: State)
    ensures Reaches(Init(NODES), s) && s.nodes == NODES && s.sessions == map[FIRST := ToldCommitOk(Hears(Wants(100))), SECOND := Creating(5)]
    ensures s.store.ledger == [Entry(FIRST, Opening(100))] && s.store.objects == Closing(Fresh('A'), FIRST, 100)
    ensures s.store.txs.Keys == {FIRST, SECOND} && s.store.txs[SECOND] == Pending(S.Create(ACCOUNT, 5), [])
  {
    var b := BothMiss(100, 5);
    Completes(b, FIRST, 100, Fresh('A'));
    s := With(b, FIRST, ToldCommitOk(Hears(Wants(100))), DecidedData(b.store, FIRST, Opening(100), Closing(Fresh('A'), FIRST, 100)));
    ReachesOn(Init(NODES), b, s);
    InsertsLast();
  }

  lemma BothCommit() returns (s: State)
    ensures Reaches(Init(NODES), s) && s.nodes == NODES && s.store.txs.Keys == {FIRST, SECOND}
    ensures s.sessions == map[FIRST := ToldCommitOk(Hears(Wants(100))), SECOND := ToldCommitOk(Hears(Wants(5)))]
    ensures s.store.ledger == [Entry(FIRST, Opening(100)), Entry(SECOND, Opening(5))]
    ensures s.store.objects == map[ACCOUNT := ObjectState(5, SECOND, {}, map[])]
  {
    var c := FirstCommits();
    var base := c.store.objects[ACCOUNT];
    Completes(c, SECOND, 5, base);
    s := With(c, SECOND, ToldCommitOk(Hears(Wants(5))), DecidedData(c.store, SECOND, Opening(5), Closing(base, SECOND, 5)));
    ReachesOn(Init(NODES), c, s);
    InsertsLast();
    assert s.sessions == map[FIRST := ToldCommitOk(Hears(Wants(100))), SECOND := ToldCommitOk(Hears(Wants(5)))];
  }

  lemma InsertsLast()
    ensures Insert([], Entry(FIRST, Opening(100))) == [Entry(FIRST, Opening(100))]
    ensures Insert([Entry(FIRST, Opening(100))], Entry(SECOND, Opening(5))) == [Entry(FIRST, Opening(100)), Entry(SECOND, Opening(5))]
  {
  }

  lemma SerialSum()
    ensures Serial([Entry(FIRST, Opening(100)), Entry(SECOND, Opening(5))]) == Final(map[ACCOUNT := 105])
  {
    var a, b := Opening(100), Opening(5);
    var ledger := [Entry(FIRST, a), Entry(SECOND, b)];
    assert a[..0] == [] && b[..0] == [];
    var first := ledger[..1];
    assert first == [Entry(FIRST, a)] && first[..0] == [];
    assert Requests(a) == [Adjust(ACCOUNT, 100)] && Requests(b) == [Adjust(ACCOUNT, 5)];
    assert Requests(a)[..0] == [] && Requests(b)[..0] == [];
    assert PerformAll(map[], Requests(a)) == Ran(map[ACCOUNT := 100], [Done]);
    assert PerformAll(map[ACCOUNT := 100], Requests(b)) == Ran(map[ACCOUNT := 100][ACCOUNT := 105], [Done]);
    assert Serial(first) == Final(map[ACCOUNT := 100]);
  }

  /**
   * Deposits of 100 and of 5 find no account, both commit with their clients told so and nothing left
   * tentative, and the account holds 5: the serial run gives 105.
   */
  lemma LostUpdate() returns (states: seq<State>, steps: seq<Step>)
    ensures IsRun(NODES, states, steps)
    ensures var s := states[|steps|];
            && s.sessions == map[FIRST := ToldCommitOk(Hears(Wants(100))), SECOND := ToldCommitOk(Hears(Wants(5)))]
            && s.store.ledger == [Entry(FIRST, Opening(100)), Entry(SECOND, Opening(5))]
            && s.store.objects == map[ACCOUNT := ObjectState(5, SECOND, {}, map[])]
            && Serial(s.store.ledger) == Final(map[ACCOUNT := 105])
  {
    var s := BothCommit();
    states, steps := ReachesRun(NODES, s);
    SerialSum();
  }

  // ----- a reader that misses a change

  const THIRD := TransactionId(3, 'A')

  lemma SumBelow(ledger: seq<Entry>)
    requires ledger == [Entry(FIRST, Opening(100)), Entry(SECOND, Opening(5))]
    ensures Sum(ledger, ACCOUNT, Before(THIRD)) == 105 && Net(Opening(100), ACCOUNT) == 100
    ensures Sum(ledger, ACCOUNT, Before(SECOND)) == 100
  {
    assert Opening(100)[..0] == [] && Opening(5)[..0] == [];
    assert Net(Opening(100), ACCOUNT) == 100 && Net(Opening(5), ACCOUNT) == 5;
    assert ledger[1..] == [Entry(SECOND, Opening(5))] && ledger[1..][1..] == [];
    assert Sum(ledger[1..], ACCOUNT, Before(THIRD)) == 5 && Sum(ledger[1..], ACCOUNT, Before(SECOND)) == 0;
  }

  lemma ThirdReads() returns (s: State)
    ensures Reaches(Init(NODES), s) && THIRD in s.sessions && s.sessions[THIRD].replies == [Value("Ann", 5)]
    ensures THIRD in s.store.txs && s.store.txs[THIRD] == BEGUN.(log := [Look(ACCOUNT, 5)])
    ensures s.store.ledger == [Entry(FIRST, Opening(100)), Entry(SECOND, Opening(5))]
  {
    var b := BothCommit();
    assert Visible(b.store.objects[ACCOUNT], THIRD) == {};
    Reads(b, THIRD, 5);
    s := With(b, THIRD, Resting(Talk([ReadBalance("Ann")], [Value("Ann", 5)])), Looked(b.store, THIRD, 5));
    ReachesOn(Init(NODES), b, s);
  }

  /**
   * After that run a third transaction reads the account. It created nothing, and is told 5, although the
   * committed changes below it sum to 105: the creator between it and the first deposit dropped 100.
   */
  lemma ReaderMissesChange() returns (states: seq<State>, steps: seq<Step>)
    ensures IsRun(NODES, states, steps)
    ensures var s := states[|steps|];
            && THIRD in s.sessions && s.sessions[THIRD].replies == [Value("Ann", 5)]
            && THIRD in s.store.txs && s.store.txs[THIRD].status == S.Running && s.store.txs[THIRD].log == [Look(ACCOUNT, 5)]
            && s.store.ledger == [Entry(FIRST, Opening(100)), Entry(SECOND, Opening(5))]
            && Sum(s.store.ledger, ACCOUNT, Before(THIRD)) == 105
            && !Created(s.store.txs[THIRD].log, ACCOUNT)
            && Created(Opening(5), ACCOUNT) && Sum(s.store.ledger, ACCOUNT, Before(SECOND)) == 100
  {
    var s := ThirdReads();
    states, steps := ReachesRun(NODES, s);
    SumBelow(s.store.ledger);
    assert Change(ACCOUNT, 5, true) in Opening(5);
  }

  // ----- a decided commit that waits

  /** The younger deposit creates the account and is decided while the older one is still to write. */
  lemma SecondDecides() returns (s: State)
    ensures Reaches(Init(NODES), s) && s.nodes == NODES
    ensures SECOND in s.sessions && s.sessions[SECOND] == Deciding(Hears(Wants(100)), AwaitVotes, Incoming(CommitOk, 'A'))
    ensures FIRST in s.sessions && s.sessions[FIRST] == Creating(5)
    ensures s.store.objects == Written(Fresh('A'), SECOND, 100)
    ensures FIRST in s.store.txs && s.store.txs[FIRST] == Pending(S.Create(ACCOUNT, 5), [])
    ensures SECOND in s.store.txs && s.store.txs[SECOND].status == S.Committed
  {
    var b := BothMiss(5, 100);
    Creates(b, SECOND, 100, Fresh('A'));
    DecidesAlone(b, SECOND, Hears(Wants(100)), 100, Opening(100), b.store, Fresh('A'));
    s := With(b, SECOND, Deciding(Hears(Wants(100)), AwaitVotes, Incoming(CommitOk, 'A')),
              DecidedData(b.store, SECOND, Opening(100), Written(Fresh('A'), SECOND, 100)));
    ReachesOn(Init(NODES), b, s);
  }

  const CROWDED := Fresh('A').(tentative := map[SECOND := 100, FIRST := 5])

  lemma FirstIsInFront()
    ensures CheckRule(CROWDED, SECOND) == CheckWait(FIRST)
  {
    assert FIRST in CROWDED.tentative && SECOND in CROWDED.tentative;
    CheckPassesOldest(CROWDED, SECOND);
  }

  /** Then the older one writes. */
  lemma FirstOvertakes() returns (s: State)
    ensures Reaches(Init(NODES), s) && s.nodes == NODES && s.store.objects == map[ACCOUNT := CROWDED]
    ensures SECOND in s.sessions && s.sessions[SECOND] == Deciding(Hears(Wants(100)), AwaitVotes, Incoming(CommitOk, 'A'))
    ensures SECOND in s.store.txs && s.store.txs[SECOND].status == S.Committed
  {
    var b := SecondDecides();
    var base := b.store.objects[ACCOUNT];
    Creates(b, FIRST, 5, base);
    s := With(b, FIRST, Resting(Hears(Wants(5))), Staged(b.store, FIRST, S.Tx(S.Running, Opening(5), S.None, {}), Written(base, FIRST, 5)));
    ReachesOn(Init(NODES), b, s);
  }

  /**
   * Both shards passed the check of the younger deposit and its commit is decided. Its install is about to
   * visit the account and will have to wait for the older one: the branch marked as not to be reached.
   */
  lemma DecidedCommitWaits() returns (states: seq<State>, steps: seq<Step>)
    ensures IsRun(NODES, states, steps)
    ensures var s := states[|steps|];
            && SECOND in s.sessions && s.sessions[SECOND] == InInstall(Hears(Wants(100)), {ACCOUNT}) && s.sessions[SECOND].passed == NODES
            && SECOND in s.store.txs && s.store.txs[SECOND].status == S.Committed
            && Enabled(s, Step(SECOND, Act(OnA(Install(Todo({ACCOUNT}))), Visit(ACCOUNT))))
            && ACCOUNT in s.store.objects && CheckRule(s.store.objects[ACCOUNT], SECOND) == CheckWait(FIRST)
  {
    var b := FirstOvertakes();
    Stays(b, SECOND);
    assert KeysAt(b.store.objects, 'A') == {ACCOUNT};
    StartsInstall(b, SECOND, Hears(Wants(100)), b.store);
    var s := With(b, SECOND, InInstall(Hears(Wants(100)), {ACCOUNT}), b.store);
    ReachesOn(Init(NODES), b, s);
    states, steps := ReachesRun(NODES, s);
    FirstIsInFront();
  }

  // ----- a withdrawal that opens an account

  /** A deposit of 10 opens the account. */
  lemma FirstWrites() returns (s: State)
    ensures Reaches(Init(NODES), s) && s.nodes == NODES
    ensures FIRST in s.sessions && s.sessions[FIRST] == Resting(Hears(Wants(10)))
    ensures SECOND in s.sessions && s.sessions[SECOND] == Creating(-1)
    ensures s.store.objects == Written(Fresh('A'), FIRST, 10) && s.store.ledger == []
    ensures FIRST in s.store.txs && s.store.txs[FIRST] == S.Tx(S.Running, Opening(10), S.None, {})
    ensures SECOND in s.store.txs && s.store.txs[SECOND] == Pending(S.Create(ACCOUNT, -1), [])
  {
    var b := BothMiss(10, -1);
    Creates(b, FIRST, 10, Fresh('A'));
    s := With(b, FIRST, Resting(Hears(Wants(10))), Staged(b.store, FIRST, S.Tx(S.Running, Opening(10), S.None, {}), Written(Fresh('A'), FIRST, 10)));
    ReachesOn(Init(NODES), b, s);
  }

  /** A withdrawal of 1 that had found nothing is written over it. */
  lemma BothWrite() returns (s: State)
    ensures Reaches(Init(NODES), s) && s.nodes == NODES
    ensures FIRST in s.sessions && s.sessions[FIRST] == Resting(Hears(Wants(10)))
    ensures SECOND in s.sessions && s.sessions[SECOND] == Resting(Hears(Wants(-1)))
    ensures s.store.objects == map[ACCOUNT := Fresh('A').(tentative := map[FIRST := 10, SECOND := -1])] && s.store.ledger == []
    ensures FIRST in s.store.txs && s.store.txs[FIRST] == S.Tx(S.Running, Opening(10), S.None, {})
    ensures SECOND in s.store.txs && s.store.txs[SECOND] == S.Tx(S.Running, Opening(-1), S.None, {})
  {
    var c := FirstWrites();
    var base := c.store.objects[ACCOUNT];
    Creates(c, SECOND, -1, base);
    s := With(c, SECOND, Resting(Hears(Wants(-1))), Staged(c.store, SECOND, S.Tx(S.Running, Opening(-1), S.None, {}), Written(base, SECOND, -1)));
    ReachesOn(Init(NODES), c, s);
  }

  const OVERDRAWN := map[ACCOUNT := Fresh('A').(tentative := map[SECOND := -1])]

  lemma ErasesFirst()
    ensures Erased(map[ACCOUNT := Fresh('A').(tentative := map[FIRST := 10, SECOND := -1])], FIRST, 'A') == OVERDRAWN
  {
    var o := Fresh('A').(tentative := map[FIRST := 10, SECOND := -1]);
    assert map[FIRST := 10, SECOND := -1] - {FIRST} == map[SECOND := -1];
    assert AfterAbort(o, FIRST) == OVERDRAWN[ACCOUNT];
    assert SECOND in OVERDRAWN[ACCOUNT].tentative;
    assert !Reaped(o, FIRST);
  }

  /** The depositor aborts; its shard has erased it. */
  lemma FirstAborts() returns (s: State)
    ensures Reaches(Init(NODES), s) && s.nodes == NODES && SECOND in s.sessions && s.sessions[SECOND] == Resting(Hears(Wants(-1)))
    ensures s.store.objects == OVERDRAWN && s.store.ledger == []
    ensures FIRST in s.store.txs && s.store.txs[FIRST].status == S.Aborted
    ensures SECOND in s.store.txs && s.store.txs[SECOND] == S.Tx(S.Running, Opening(-1), S.None, {})
  {
    var b := BothWrite();
    var sess, gone := b.sessions[FIRST], b.store.(txs := b.store.txs[FIRST := b.store.txs[FIRST].(status := S.Aborted)]);
    Stays(b, FIRST);
    Hop(b, FIRST, sess, b.store, Ask(Abort), Effect(sess.(phase := Aborting(Aborted)), S.Some(S.GiveUp(FIRST))));
    var told := Launch(sess, AwaitAborts(1, {}, Aborted), Forward(Broadcast, Abort));
    Hop(b, FIRST, sess.(phase := Aborting(Aborted)), gone, AbortLocally, Effect(told, S.Some(S.Erase(FIRST, 'A'))));
    ErasesFirst();
    s := With(b, FIRST, told, gone.(objects := OVERDRAWN));
    ReachesOn(Init(NODES), b, s);
  }

  function Correction(): Log {
    [Change(ACCOUNT, -1, true), Change(ACCOUNT, 5, false)]
  }

  const READ_OWN := Fresh('A').(readers := {SECOND})

  /** The withdrawer reads its own balance of -1 and is about to deposit 5. */
  lemma ReadsOwn(o: State) returns (store: S.State)
    requires o.nodes == NODES && SECOND in o.sessions && o.sessions[SECOND] == Resting(Hears(Wants(-1)))
    requires o.store.objects == OVERDRAWN && SECOND in o.store.txs && o.store.txs[SECOND] == S.Tx(S.Running, Opening(-1), S.None, {})
    ensures Reaches(o, With(o, SECOND, Working(Wanting(Hears(Wants(-1)), 5), PutBack(S.Update(ACCOUNT, -1, 5))), store))
    ensures store.objects == Written(READ_OWN, SECOND, -1) && store.ledger == o.store.ledger
    ensures store.txs == o.store.txs[SECOND := Pending(S.Update(ACCOUNT, -1, 5), Opening(-1))]
  {
    var c := Hears(Wants(-1));
    Stays(o, SECOND);
    AsksChange(o, SECOND, c, 5, o.store);
    var x := OVERDRAWN[ACCOUNT];
    assert Visible(x, SECOND) == {SECOND};
    assert ReadRule(x, SECOND) == Read(-1);
    var job, put := OnA(Fetch("Ann", 5)), OnA(PutBack(S.Update(ACCOUNT, -1, 5)));
    Swapped(job, put);
    Hop(o, SECOND, Working(Wanting(c, 5), job.work), o.store, Act(job, Go),
        Effect(Working(Wanting(c, 5), put.work), S.Some(S.FetchOk(SECOND, ACCOUNT, 5))));
    store := S.Apply(o.store, S.FetchOk(SECOND, ACCOUNT, 5));
    assert {} + {SECOND} == {SECOND};
  }

  /** It deposits, and the balance is 4. */
  lemma Corrects(o: State, c: Talk, store: S.State)
    requires o.nodes == NODES && store.objects == Written(READ_OWN, SECOND, -1)
    requires SECOND in store.txs && store.txs[SECOND] == Pending(S.Update(ACCOUNT, -1, 5), Opening(-1))
    requires Reaches(o, With(o, SECOND, Working(c, PutBack(S.Update(ACCOUNT, -1, 5))), store))
    ensures Reaches(o, With(o, SECOND, Resting(Hears(c)), Staged(store, SECOND, S.Tx(S.Running, Correction(), S.None, {}), Written(READ_OWN, SECOND, 4))))
  {
    var base := store.objects[ACCOUNT];
    assert Opening(-1) + [Change(ACCOUNT, 5, false)] == Correction();
    Writes(o, SECOND, c, S.Update(ACCOUNT, -1, 5), Opening(-1), store, base);
    assert map[SECOND := -1][SECOND := 4] == map[SECOND := 4];
  }

  lemma SecondCommits() returns (s: State)
    ensures Reaches(Init(NODES), s) && SECOND in s.sessions && s.sessions[SECOND] == ToldCommitOk(Hears(Wanting(Hears(Wants(-1)), 5)))
    ensures s.store.objects == map[ACCOUNT := ObjectState(4, SECOND, {SECOND}, map[])]
    ensures s.store.ledger == [Entry(SECOND, Correction())]
  {
    var o := FirstAborts();
    var c := Wanting(Hears(Wants(-1)), 5);
    var store := ReadsOwn(o);
    Corrects(o, c, store);
    CommitsAlone(o, SECOND, Hears(c), 4, Correction(), store, READ_OWN);
    s := With(o, SECOND, ToldCommitOk(Hears(c)), DecidedData(store, SECOND, Correction(), Closing(READ_OWN, SECOND, 4)));
    ReachesOn(Init(NODES), o, s);
  }

  lemma SerialRefuses()
    ensures Serial([Entry(SECOND, Correction())]) == Impossible
  {
    var rs := Requests(Correction());
    assert rs == [Adjust(ACCOUNT, -1), Adjust(ACCOUNT, 5)] && rs[..1] == [Adjust(ACCOUNT, -1)] && rs[..1][..0] == [];
    assert PerformAll(map[], rs[..1]) == Refused;
    assert [Entry(SECOND, Correction())][..0] == [];
  }

  /**
   * A withdrawal of 1 finds no account, is written over an account a deposit is creating, and stays
   * when that deposit aborts. Its transaction deposits 5 and commits with a balance of 4, although no
   * serial run lets a withdrawal open an account.
   */
  lemma OpenedByWithdrawal() returns (states: seq<State>, steps: seq<Step>)
    ensures IsRun(NODES, states, steps)
    ensures var s := states[|steps|];
            && SECOND in s.sessions && s.sessions[SECOND] == ToldCommitOk(Hears(Wanting(Hears(Wants(-1)), 5)))
            && s.store.ledger == [Entry(SECOND, Correction())]
            && s.store.objects == map[ACCOUNT := ObjectState(4, SECOND, {SECOND}, map[])]
            && Serial(s.store.ledger) == Impossible
            && Sum(s.store.ledger, ACCOUNT, Before(SECOND)) == 0
  {
    var s := SecondCommits();
    states, steps := ReachesRun(NODES, s);
    SerialRefuses();
    assert s.store.ledger[1..] == [];
  }
}

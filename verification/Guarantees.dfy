/** What the invariants mean for clients: when runs are serialisable, conservation, stable prepares, untorn views. */
module Guarantees {
  import opened TransactionIds
  import opened Objects
  import opened Ledger
  import opened Histories
  import opened Tables
  import opened Store
  import opened Isolation
  import opened CleanStates

  // ----- serialisability

  /** t's commit has been decided. */
  ghost predicate IsCommitted(s: State, t: TransactionId) {
    t in s.txs && s.txs[t].status == Committed
  }

  /** Decided commits still to be installed at k. */
  ghost function Waiting(s: State, k: Key): set<TransactionId>
    requires k in s.objects
  {
    set t | t in s.objects[k].tentative && IsCommitted(s, t)
  }

  /** The balances once every decided commit is installed, for the accounts somebody committed to. */
  ghost function Settled(s: State): map<Key, int> {
    map k | k in s.objects && (Waiting(s, k) != {} || !s.objects[k].committed.IsDefault()) ::
      if Waiting(s, k) != {} then s.objects[k].tentative[Newest(Waiting(s, k))] else s.objects[k].value
  }

  /** The ledger is exactly the committed transactions in id order, with what they did. */
  lemma LedgerIsCommitted(s: State, t: TransactionId)
    requires Inv(s)
    ensures IsCommitted(s, t) <==> exists e :: e in s.ledger && e.id == t
    ensures IsCommitted(s, t) ==> Entry(t, s.txs[t].log) in s.ledger
    ensures Sorted(s.ledger)
  {
    if IsCommitted(s, t) {
      assert TxInv(s, t);
      assert Entry(t, s.txs[t].log).id == t;
    }
    if e :| e in s.ledger && e.id == t {
      assert EntryInv(s, e);
    }
  }

  lemma LedgerIsGenuine(s: State)
    requires Inv(s)
    ensures Genuine(s.ledger)
  {
    forall e | e in s.ledger ensures Faithful(s.ledger, e.id, e.log) {
      assert EntryInv(s, e) && TxInv(s, e.id);
    }
    forall k ensures SolventFrom(s.ledger, k, 0) {
      forall e | e in s.ledger && Wrote(e.log, k) ensures Version(s.ledger, k, Through(e.id)) >= 0 {
        assert EntryInv(s, e);
        VersionStep(s.ledger, e, k, 0);
      }
    }
  }

  lemma SettledAtWriter(s: State, k: Key)
    requires Inv(s) && k in s.objects && Waiting(s, k) != {}
    ensures VersionAt(Settled(s), s.ledger, k)
  {
    var o, t := s.objects[k], Newest(Waiting(s, k));
    assert KeyInv(s, k) && TxInv(s, t) && WriterInv(s, k, t);
    var e := Entry(t, s.txs[t].log);
    assert Everyone.Has(e.id);
    VersionStep(s.ledger, e, k, 0);
    forall x | x in s.ledger && Wrote(x.log, k) ensures Through(t).Has(x.id) {
      CommittedWriter(s, x, k);
      assert EntryInv(s, x);
      assert x.id in o.tentative ==> x.id in Waiting(s, k);
    }
    VersionAgree(s.ledger, k, Through(t), Everyone, 0);
  }

  lemma SettledAtValue(s: State, k: Key)
    requires Inv(s) && k in s.objects && Waiting(s, k) == {}
    ensures VersionAt(Settled(s), s.ledger, k)
  {
    var o := s.objects[k];
    assert KeyInv(s, k);
    forall x | x in s.ledger && Wrote(x.log, k) ensures Through(o.committed).Has(x.id) && !o.committed.IsDefault() {
      assert EntryInv(s, x);
      assert x.id !in Waiting(s, k);
      CommittedWriter(s, x, k);
    }
    VersionAgree(s.ledger, k, Through(o.committed), Everyone, 0);
    if !o.committed.IsDefault() {
      var e :| e in s.ledger && e.id == o.committed && Wrote(e.log, k);
      assert Everyone.Has(e.id);
    }
  }

  /** The settled balances are the versions the committed transactions leave, account by account. */
  lemma SettledIsVersion(s: State, k: Key)
    requires Inv(s)
    ensures VersionAt(Settled(s), s.ledger, k)
  {
    if k !in s.objects {
      forall e | e in s.ledger && Wrote(e.log, k) ensures false { CommittedWriter(s, e, k); }
    } else if Waiting(s, k) != {} {
      SettledAtWriter(s, k);
    } else {
      SettledAtValue(s, k);
    }
  }

  /**
   * Serialisability, exactly: the committed transactions, run one at a time in id order on a plain map
   * of balances, are all accepted, get exactly the answers they got and end with the cluster's
   * balances, if and only if every create among them fits.
   */
  lemma SerialisableIff(s: State)
    requires Inv(s)
    ensures Serial(s.ledger) == Final(Settled(s)) <==> CreatesFit(s.ledger)
  {
    LedgerIsGenuine(s);
    forall k ensures VersionAt(Settled(s), s.ledger, k) { SettledIsVersion(s, k); }
    SerialIffCreatesFit(s.ledger, Settled(s));
  }

  /** Once all commits are installed the settled balances are the objects' own. */
  lemma SettledIsInstalled(s: State)
    requires forall k, t :: k in s.objects && IsCommitted(s, t) ==> t !in s.objects[k].tentative
    ensures Settled(s) == map k | k in s.objects && !s.objects[k].committed.IsDefault() :: s.objects[k].value
  {
    assert forall k :: k in s.objects ==> Waiting(s, k) == {};
  }

  // ----- conservation

  /**
   * Conservation, exactly: a committed balance never exceeds the sum of the installed changes, and
   * equals it if and only if every installed creator of the account started from a total of zero. The
   * same holds of a tentative balance and the changes below its writer.
   */
  lemma Conservation(s: State, k: Key)
    requires Inv(s) && k in s.objects
    ensures var o := s.objects[k];
            && 0 <= o.value <= Sum(s.ledger, k, Through(o.committed))
            && (o.value == Sum(s.ledger, k, Through(o.committed)) <==>
                  forall e :: e in s.ledger && e.id.Le(o.committed) && Created(e.log, k) ==> Sum(s.ledger, k, Before(e.id)) == 0)
            && (forall e :: e in s.ledger && Wrote(e.log, k) ==> e.id.Le(o.committed) || e.id in o.tentative)
            && (forall t :: t in o.tentative ==> t in s.txs && Accounts(s, t, s.txs[t].log, k, o.tentative[t]))
  {
    var b := Through(s.objects[k].committed);
    assert KeyInv(s, k);
    LedgerIsGenuine(s);
    assert SolventFrom(s.ledger, k, 0);
    VersionAgainstSum(s.ledger, k, b, 0);
    assert CreatesFromZero(s.ledger, k, b, 0) <==>
           forall e :: e in s.ledger && e.id.Le(s.objects[k].committed) && Created(e.log, k) ==> Sum(s.ledger, k, Before(e.id)) == 0;
    forall e | e in s.ledger && Wrote(e.log, k) ensures e.id.Le(s.objects[k].committed) || e.id in s.objects[k].tentative {
      CommittedWriter(s, e, k);
    }
    forall t | t in s.objects[k].tentative
      ensures t in s.txs && Accounts(s, t, s.txs[t].log, k, s.objects[k].tentative[t])
    {
      assert WriterInv(s, k, t);
      LeavesAgainstSum(s.ledger, t, s.txs[t].log, k);
    }
  }

  /** The amount is at most the sum of all committed changes below t and t's own, and equal exactly when nothing was dropped. */
  ghost predicate Accounts(s: State, t: TransactionId, log: Log, k: Key, amount: int) {
    var all := Sum(s.ledger, k, Before(t)) + Net(log, k);
    amount <= all && (amount == all <==> CountsAll(s.ledger, t, log, k))
  }

  /** While there has been no blind create anywhere, every create fits. */
  lemma CleanCreatesFit(s: State)
    requires forall k :: CleanAt(s, k)
    ensures CreatesFit(s.ledger)
  {
    forall e, op | e in s.ledger && op in e.log && op.Change? && op.creates ensures CreateFits(s.ledger, e.id, op) {
      assert CleanAt(s, op.key);
      assert EntryInv(s, e) && CreatesInv(s, e.id, op.key) && OpensNew(s, e.id, op);
      SumNone(s.ledger, op.key, Before(e.id));
    }
  }

  /** At a clean account nothing was ever dropped, by t or by a creator below it. */
  lemma CleanCountsAll(s: State, t: TransactionId, prefix: Log, k: Key)
    requires CleanAt(s, k) && t in s.txs && Lives(s, t, k) && forall op :: op in prefix ==> op in s.txs[t].log
    ensures CountsAll(s.ledger, t, prefix, k)
  {
    if Created(prefix, k) {
      var op :| op in prefix && op.Change? && op.key == k && op.creates;
      assert CreatesInv(s, t, k) && OpensNew(s, t, op);
      SumNone(s.ledger, k, Before(t));
    } else {
      CleanCreators(s, k);
    }
  }

  lemma CleanCreators(s: State, k: Key)
    requires CleanAt(s, k)
    ensures forall e :: e in s.ledger && Created(e.log, k) ==> Sum(s.ledger, k, Before(e.id)) == 0
  {
    forall e | e in s.ledger && Created(e.log, k) ensures Sum(s.ledger, k, Before(e.id)) == 0 {
      var op :| op in e.log && op.Change? && op.key == k && op.creates;
      assert EntryInv(s, e) && CreatesInv(s, e.id, k) && OpensNew(s, e.id, op);
      SumNone(s.ledger, k, Before(e.id));
    }
  }

  /**
   * No lost update at an account without blind creates: the committed balance is the sum of the changes
   * of the transactions installed on it, every committed transaction that changed it is installed or is
   * its one tentative writer, and a tentative balance is the committed one plus the writer's own changes.
   */
  lemma NoLostUpdate(s: State, k: Key)
    requires CleanAt(s, k) && k in s.objects
    ensures var o := s.objects[k];
            && o.value == Sum(s.ledger, k, Through(o.committed)) && Valid(o.value)
            && (forall e :: e in s.ledger && Wrote(e.log, k) ==> e.id.Le(o.committed) || e.id in o.tentative)
            && (forall t :: t in o.tentative ==> t in s.txs && o.tentative[t] == o.value + Net(s.txs[t].log, k))
  {
    var o := s.objects[k];
    Conservation(s, k);
    CleanCreators(s, k);
    forall t | t in o.tentative ensures t in s.txs && o.tentative[t] == o.value + Net(s.txs[t].log, k) {
      assert Accounts(s, t, s.txs[t].log, k, o.tentative[t]);
      CleanCountsAll(s, t, s.txs[t].log, k);
      InstalledBelow(s, k, t);
    }
  }

  /** Below the one tentative writer of a clean account everything is installed. */
  lemma InstalledBelow(s: State, k: Key, t: TransactionId)
    requires CleanAt(s, k) && k in s.objects && t in s.objects[k].tentative
    ensures Sum(s.ledger, k, Before(t)) == Sum(s.ledger, k, Through(s.objects[k].committed))
  {
    var c := s.objects[k].committed;
    assert KeyInv(s, k);
    forall e | e in s.ledger && Wrote(e.log, k) ensures Before(t).Has(e.id) <==> Through(c).Has(e.id) {
      CommittedWriter(s, e, k);
    }
    SumAgree(s.ledger, k, Before(t), Through(c));
  }

  // ----- prepare

  /** A commit check waits only for an account the transaction itself created. */
  lemma WaitsOnCreates(s: State, t: TransactionId, k: Key)
    requires Inv(s) && t in s.txs && k in s.objects && CheckRule(s.objects[k], t).CheckWait?
    ensures Created(s.txs[t].log, k)
  {
    assert KeyInv(s, k) && WriterInv(s, k, t);
  }

  /** In every run a check that passed never fails later, and it waits only for an account its transaction created. */
  lemma PrepareIsKept(s: State, t: TransactionId, k: Key)
    requires Inv(s) && t in s.txs && k in s.objects
    requires s.txs[t].status == Committed || (s.txs[t].status == Preparing && k in s.txs[t].checked)
    ensures !CheckRule(s.objects[k], t).CheckFailed?
    ensures !CheckRule(s.objects[k], t).Passes() ==> Created(s.txs[t].log, k)
  {
    assert CheckedBase(s, t, k);
    if CheckRule(s.objects[k], t).CheckWait? { WaitsOnCreates(s, t, k); }
  }

  /** At an account without blind creates no commit check waits, and one that passed keeps passing until its transaction is resolved. */
  lemma PrepareIsStable(s: State, t: TransactionId, k: Key)
    requires CleanAt(s, k) && t in s.txs && k in s.objects
    ensures !CheckRule(s.objects[k], t).CheckWait?
    ensures s.txs[t].status in {Preparing, Committed} && k in s.txs[t].checked ==> CheckRule(s.objects[k], t).Passes()
    ensures s.txs[t].status == Committed ==> CheckRule(s.objects[k], t).Passes()
  {
    assert KeyInv(s, k) && CheckedBase(s, t, k);
  }

  // ----- no torn view

  function Without(entries: seq<Entry>, t: TransactionId): seq<Entry> {
    if entries == [] then []
    else (if entries[0].id == t then [] else [entries[0]]) + Without(entries[1..], t)
  }

  lemma {:induction false} SumWithout(entries: seq<Entry>, e: Entry, k: Key, b: Bound)
    requires Sorted(entries) && e in entries && b.Has(e.id)
    ensures Sum(entries, k, b) == Sum(Without(entries, e.id), k, b) + Net(e.log, k)
  {
    var rest := entries[1..];
    if entries[0] == e {
      WithoutAbsent(rest, e.id);
      assert Without(entries, e.id) == rest;
    } else {
      assert e in rest;
      SumWithout(rest, e, k, b);
      assert ([entries[0]] + Without(rest, e.id))[1..] == Without(rest, e.id);
    }
  }

  lemma {:induction false} WithoutAbsent(entries: seq<Entry>, t: TransactionId)
    requires forall i :: 0 <= i < |entries| ==> entries[i].id != t
    ensures Without(entries, t) == entries
  {
    if entries != [] {
      WithoutAbsent(entries[1..], t);
    }
  }

  /** The i-th thing v did was to read k and be told amount. */
  ghost predicate Saw(s: State, v: TransactionId, i: nat, k: Key, amount: int) {
    v in s.txs && i < |s.txs[v].log| && s.txs[v].log[i] == Look(k, amount)
  }

  lemma CreatorIsNot(s: State, t: TransactionId, v: TransactionId, k: Key)
    requires CleanAt(s, k) && IsCommitted(s, t) && Wrote(s.txs[t].log, k) && v in s.txs && s.txs[v].status != Aborted && t.Lt(v)
    ensures !Created(s.txs[v].log, k)
  {
    assert TxInv(s, t) && CreatesInv(s, v, k);
    assert Before(v).Has(Entry(t, s.txs[t].log).id);
    assert forall op :: op in s.txs[v].log && op.key == k ==> OpensNew(s, v, op);
  }

  /**
   * Views, exactly, in every run: what live v was told of k is at most the sum of all committed changes
   * below v and its own, and equal to it if and only if neither v nor a committed creator below v dropped
   * anything.
   */
  lemma Views(s: State, v: TransactionId, i: nat, k: Key, amount: int)
    requires Inv(s) && Saw(s, v, i, k, amount) && s.txs[v].status != Aborted
    ensures Accounts(s, v, s.txs[v].log[..i], k, amount)
  {
    assert TxInv(s, v);
    AnsweredAt(s.ledger, v, s.txs[v].log, i);
    LedgerIsGenuine(s);
    assert SolventFrom(s.ledger, k, 0);
    LeavesAgainstSum(s.ledger, v, s.txs[v].log[..i], k);
  }

  /** In every run an account that a committed t below v wrote and live v touched has t installed, unless v created it. */
  lemma TouchedIsInstalled(s: State, t: TransactionId, v: TransactionId, k: Key)
    requires Inv(s) && IsCommitted(s, t) && v in s.txs && s.txs[v].status != Aborted && t.Lt(v)
    requires Wrote(s.txs[t].log, k) && Touched(s.txs[v].log, k) && !Created(s.txs[v].log, k)
    ensures k in s.objects && t.Le(s.objects[k].committed) && t !in s.objects[k].tentative
  {
    HoldsAt(s, t, k);
    HoldsAt(s, v, k);
    if t in s.objects[k].tentative { NewerStaysOff(s, t, v, k); }
  }

  /**
   * No torn view at an account without blind creates: whatever live v above a committed t has read there
   * includes t's changes, in full, even while t's commit is still being installed elsewhere; and if t
   * wrote it and v touched it, t is already installed.
   */
  lemma NoTornView(s: State, t: TransactionId, v: TransactionId, k: Key)
    requires CleanAt(s, k) && IsCommitted(s, t) && v in s.txs && s.txs[v].status != Aborted && t.Lt(v)
    ensures forall i: nat, amount :: Saw(s, v, i, k, amount) ==>
              amount == Sum(Without(s.ledger, t), k, Before(v)) + Net(s.txs[t].log, k) + Net(s.txs[v].log[..i], k)
    ensures Wrote(s.txs[t].log, k) && Touched(s.txs[v].log, k) ==>
              k in s.objects && t.Le(s.objects[k].committed) && t !in s.objects[k].tentative
  {
    assert TxInv(s, t);
    var e := Entry(t, s.txs[t].log);
    forall i: nat, amount | Saw(s, v, i, k, amount)
      ensures amount == Sum(Without(s.ledger, t), k, Before(v)) + Net(s.txs[t].log, k) + Net(s.txs[v].log[..i], k)
    {
      Views(s, v, i, k, amount);
      CleanCountsAll(s, v, s.txs[v].log[..i], k);
      SumWithout(s.ledger, e, k, Before(v));
    }
    if Wrote(s.txs[t].log, k) && Touched(s.txs[v].log, k) {
      CreatorIsNot(s, t, v, k);
      TouchedIsInstalled(s, t, v, k);
    }
  }

  // ----- nothing is refused without a conflict

  /** Some committed transaction newer than t has its change of k installed. */
  ghost predicate OvertakenOn(s: State, t: TransactionId, k: Key) {
    k in s.objects && exists e :: e in s.ledger && t.Lt(e.id) && Wrote(e.log, k) && e.id !in s.objects[k].tentative
  }

  /** A read is refused exactly when a newer change is installed, or nobody has committed the account and its creator is newer. */
  lemma ReadRefusals(s: State, t: TransactionId, k: Key)
    requires Inv(s) && t in s.txs && s.txs[t].status == Running && k in s.objects
    ensures ReadRule(s.objects[k], t).ReadTooLate? <==> OvertakenOn(s, t, k)
    ensures ReadRule(s.objects[k], t).ReadNotFound? <==>
              s.objects[k].committed.IsDefault() && forall u :: u in s.objects[k].tentative ==> t.Lt(u)
    ensures forall u :: ReadRule(s.objects[k], t) == ReadWait(u) <==>
              t !in s.objects[k].tentative && u in s.objects[k].tentative && u.Lt(t)
              && forall w :: w in s.objects[k].tentative && w.Lt(t) ==> w.Le(u)
  {
    var o := s.objects[k];
    assert KeyInv(s, k);
    TooLateMeans(s, t, k);
    if o.committed.Lt(t) && Visible(o, t) != {} {
      assert Newest(Visible(o, t)) in Visible(o, t);
    }
    forall u | u in o.tentative ensures u in Visible(o, t) <==> o.committed.Lt(t) && u.Le(t) {
    }
  }

  lemma TooLateMeans(s: State, t: TransactionId, k: Key)
    requires Inv(s) && t in s.txs && s.txs[t].status == Running && k in s.objects
    ensures !s.objects[k].committed.Lt(t) <==> OvertakenOn(s, t, k)
  {
    var o := s.objects[k];
    assert KeyInv(s, k);
    if !o.committed.Lt(t) {
      var e :| e in s.ledger && e.id == o.committed && Wrote(e.log, k);
      assert EntryInv(s, e) && e.id != t;
      assert t.Lt(e.id) && e.id !in o.tentative;
    }
    if OvertakenOn(s, t, k) {
      var e :| e in s.ledger && t.Lt(e.id) && Wrote(e.log, k) && e.id !in o.tentative;
      CommittedWriter(s, e, k);
    }
  }

  /** A change that has read its balance is refused exactly when a newer transaction has read the account or overtaken it. */
  lemma WriteRefusals(s: State, t: TransactionId)
    requires Inv(s) && t in s.txs && s.txs[t].status == Running
    requires s.txs[t].pending.Some? && s.txs[t].pending.value.Update?
    ensures var put := s.txs[t].pending.value;
            StoreRule(s.objects, put.key, t, put.Amount()) != Stored <==>
              (put.key in s.objects && exists r :: r in s.objects[put.key].readers && t.Lt(r)) || OvertakenOn(s, t, put.key)
  {
    var put := s.txs[t].pending.value;
    assert TxInv(s, t) && PendingInv(s, t, put);
    CreatedWrote(s.txs[t].log, put.key);
    if Touched(s.txs[t].log, put.key) { TouchedIsThere(s, t, put.key); }
    TooLateMeans(s, t, put.key);
  }

  // ----- exactly when an account keeps its one writer

  /** A write by somebody with no entry on the account leaves it with two writers, or with one that never read it. */
  lemma BlindWriteBreaks(o: ObjectState, t: TransactionId, amount: int)
    requires OneWriter(o) && MayWrite(o, t) && t !in o.readers && t !in o.tentative
    ensures !OneWriter(AfterWrite(o, t, amount))
  {
    var o' := AfterWrite(o, t, amount);
    assert t in o'.tentative && forall u :: u in o.tentative ==> u in o'.tentative;
  }

  /** A permitted write to a clean account keeps the one-writer rule exactly when it is no blind create. */
  lemma OneWriterIffClean(s: State, t: TransactionId)
    requires Enabled(s, PutOk(t)) && CleanAt(s, s.txs[t].pending.value.key)
    ensures var k := s.txs[t].pending.value.key;
            OneWriter(Apply(s, PutOk(t)).objects[k]) <==> !BlindOn(s, PutOk(t), k)
  {
    var put := s.txs[t].pending.value;
    if !BlindOn(s, PutOk(t), put.key) {
      PutKeepsOneWriter(s, t);
    } else {
      assert CreateBase(s, t);
      BlindWriteBreaks(s.objects[put.key], t, put.Amount());
    }
  }

  // ----- amounts stay within the changes submitted

  function Abs(x: int): nat {
    if x < 0 then -x else x
  }

  /** The total size of the changes to k ever attempted. */
  function TotalSubmitted(subs: seq<Submission>, k: Key): nat {
    if subs == [] then 0
    else
      var x := subs[|subs| - 1];
      TotalSubmitted(subs[..|subs| - 1], k) + if x.key == k then Abs(x.diff) else 0
  }

  ghost predicate ObjectBounded(s: State, k: Key)
    requires k in s.objects
  {
    var o, total := s.objects[k], TotalSubmitted(s.submitted, k);
    Abs(o.value) <= total && forall t :: t in o.tentative ==> Abs(o.tentative[t]) <= total
  }

  ghost predicate PutBounded(s: State, t: TransactionId)
    requires t in s.txs
  {
    var pending := s.txs[t].pending;
    pending.Some? ==> Abs(pending.value.Amount()) <= TotalSubmitted(s.submitted, pending.value.key)
  }

  /** No balance held or about to be written exceeds the total size of the changes submitted on the account. */
  ghost predicate Bounded(s: State) {
    && (forall k {:trigger ObjectBounded(s, k)} :: k in s.objects ==> ObjectBounded(s, k))
    && (forall t {:trigger PutBounded(s, t)} :: t in s.txs ==> PutBounded(s, t))
  }

  lemma SubmittedGrows(s: State, ev: Event, k: Key)
    requires Enabled(s, ev)
    ensures TotalSubmitted(Apply(s, ev).submitted, k) ==
            TotalSubmitted(s.submitted, k) + if (ev.FetchOk? || ev.FetchMissing?) && ev.key == k then Abs(ev.diff) else 0
  {
    if ev.FetchOk? || ev.FetchMissing? {
      assert (s.submitted + [Submission(ev.tx, ev.key, ev.diff)])[..|s.submitted|] == s.submitted;
    }
  }

  lemma ObjectBoundedKept(s: State, ev: Event, k: Key)
    requires Bounded(s) && Enabled(s, ev) && k in Apply(s, ev).objects
    ensures ObjectBounded(Apply(s, ev), k)
  {
    ObjectStep(s, ev, k);
    SubmittedGrows(s, ev, k);
    assert k in s.objects ==> ObjectBounded(s, k);
    assert ev.PutOk? ==> PutBounded(s, ev.tx);
  }

  lemma ReadBounded(s: State, t: TransactionId, k: Key)
    requires k in s.objects && ObjectBounded(s, k) && ReadRule(s.objects[k], t).Read?
    ensures Abs(ReadRule(s.objects[k], t).value) <= TotalSubmitted(s.submitted, k)
  {
    var visible := Visible(s.objects[k], t);
    assert visible != {} ==> Newest(visible) in s.objects[k].tentative;
  }

  lemma FetchBounded(s: State, ev: Event)
    requires Bounded(s) && Enabled(s, ev) && (ev.FetchOk? || ev.FetchMissing?)
    ensures PutBounded(Apply(s, ev), ev.tx)
  {
    SubmittedGrows(s, ev, ev.key);
    if ev.FetchOk? {
      assert ObjectBounded(s, ev.key);
      ReadBounded(s, ev.tx, ev.key);
    }
  }

  lemma PutBoundedKept(s: State, ev: Event, t: TransactionId)
    requires Bounded(s) && Enabled(s, ev) && t in Apply(s, ev).txs
    ensures PutBounded(Apply(s, ev), t)
  {
    assert t in s.txs ==> PutBounded(s, t);
    if t == ev.tx && (ev.FetchOk? || ev.FetchMissing?) {
      FetchBounded(s, ev);
    } else if Apply(s, ev).txs[t].pending.Some? {
      SubmittedGrows(s, ev, Apply(s, ev).txs[t].pending.value.key);
    }
  }

  /** Every event keeps all amounts within what was submitted, in any interleaving. */
  lemma BoundedKept(s: State, ev: Event)
    requires Bounded(s) && Enabled(s, ev)
    ensures Bounded(Apply(s, ev))
  {
    forall k | k in Apply(s, ev).objects ensures ObjectBounded(Apply(s, ev), k) { ObjectBoundedKept(s, ev, k); }
    forall t | t in Apply(s, ev).txs ensures PutBounded(Apply(s, ev), t) { PutBoundedKept(s, ev, t); }
  }

  // ----- what was submitted

  function ChangesOf(log: Log): seq<(Key, int)> {
    if log == [] then []
    else
      var op := log[|log| - 1];
      ChangesOf(log[..|log| - 1]) + if op.Change? then [(op.key, op.diff)] else []
  }

  function SubmittedBy(subs: seq<Submission>, t: TransactionId): seq<(Key, int)> {
    if subs == [] then []
    else
      var x := subs[|subs| - 1];
      SubmittedBy(subs[..|subs| - 1], t) + if x.tx == t then [(x.key, x.diff)] else []
  }

  /** What t has submitted is the changes it has made and the one it is in the middle of, one for one. */
  ghost predicate OnRecord(s: State, t: TransactionId) {
    SubmittedBy(s.submitted, t) ==
      if t !in s.txs then []
      else ChangesOf(s.txs[t].log) + if s.txs[t].pending.Some? then [(s.txs[t].pending.value.key, s.txs[t].pending.value.diff)] else []
  }

  lemma ChangesAppend(log: Log, op: Op)
    ensures ChangesOf(log + [op]) == ChangesOf(log) + if op.Change? then [(op.key, op.diff)] else []
  {
    assert (log + [op])[..|log|] == log;
  }

  lemma SubmittedByAppend(subs: seq<Submission>, x: Submission, t: TransactionId)
    ensures SubmittedBy(subs + [x], t) == SubmittedBy(subs, t) + if x.tx == t then [(x.key, x.diff)] else []
  {
    assert (subs + [x])[..|subs|] == subs;
  }

  lemma OnRecordKept(s: State, ev: Event, t: TransactionId)
    requires OnRecord(s, t) && Enabled(s, ev)
    ensures OnRecord(Apply(s, ev), t)
  {
    if ev.FetchOk? || ev.FetchMissing? { SubmittedByAppend(s.submitted, Submission(ev.tx, ev.key, ev.diff), t); }
    if ev.tx == t && ev.LookOk? { ChangesAppend(s.txs[t].log, Look(ev.key, ReadRule(s.objects[ev.key], t).value)); }
    if ev.tx == t && ev.PutOk? {
      var put := s.txs[t].pending.value;
      ChangesAppend(s.txs[t].log, Change(put.key, put.diff, put.Create?));
    }
  }
}

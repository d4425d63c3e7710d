/**
 * The timestamp-ordering rules for one account, as functions on the object's state, and what
 * they guarantee over every sequence of calls, blind writes included.
 */
module Objects {
  import opened TransactionIds

  datatype ObjectState = ObjectState(
    value: int,
    committed: TransactionId,
    readers: set<TransactionId>,
    tentative: map<TransactionId, int>)

  function Fresh(owner: NodeId): ObjectState {
    ObjectState(0, Default(owner), {}, map[])
  }

  /** The consistency check every committed balance has to pass. */
  predicate Valid(value: int) {
    value >= 0
  }

  lemma {:induction false} NewestExists(s: set<TransactionId>)
    requires s != {}
    ensures exists m :: m in s && forall x :: x in s ==> x.Le(m)
    decreases |s|
  {
    var m :| m in s;
    var rest := s - {m};
    assert s == rest + {m};
    if rest != {} {
      NewestExists(rest);
      var n :| n in rest && forall x :: x in rest ==> x.Le(n);
      var best := if m.Lt(n) then n else m;
      assert best in s && forall x :: x in s ==> x.Le(best);
    } else {
      assert m in s && forall x :: x in s ==> x.Le(m);
    }
  }

  lemma {:induction false} OldestExists(s: set<TransactionId>)
    requires s != {}
    ensures exists m :: m in s && forall x :: x in s ==> m.Le(x)
    decreases |s|
  {
    var m :| m in s;
    var rest := s - {m};
    assert s == rest + {m};
    if rest != {} {
      OldestExists(rest);
      var n :| n in rest && forall x :: x in rest ==> n.Le(x);
      var best := if n.Lt(m) then n else m;
      assert best in s && forall x :: x in s ==> best.Le(x);
    } else {
      assert m in s && forall x :: x in s ==> m.Le(x);
    }
  }

  function Newest(s: set<TransactionId>): (m: TransactionId)
    requires s != {}
    ensures m in s && forall x :: x in s ==> x.Le(m)
  {
    NewestExists(s);
    var m :| m in s && forall x :: x in s ==> x.Le(m);
    m
  }

  function Oldest(s: set<TransactionId>): (m: TransactionId)
    requires s != {}
    ensures m in s && forall x :: x in s ==> m.Le(x)
  {
    OldestExists(s);
    var m :| m in s && forall x :: x in s ==> m.Le(x);
    m
  }

  // ----- the read rule

  datatype ReadOutcome = Read(value: int) | ReadTooLate | ReadNotFound | ReadWait(on: TransactionId)

  /** Tentative writers between the committed version and id, inclusive of id. */
  function Visible(o: ObjectState, id: TransactionId): set<TransactionId> {
    set t | t in o.tentative && o.committed.Lt(t) && t.Le(id)
  }

  function ReadRule(o: ObjectState, id: TransactionId): ReadOutcome {
    if !o.committed.Lt(id) then ReadTooLate
    else if Visible(o, id) == {} then
      if o.committed.IsDefault() then ReadNotFound else Read(o.value)
    else
      var newest := Newest(Visible(o, id));
      if newest == id then Read(o.tentative[id]) else ReadWait(newest)
  }

  function AfterRead(o: ObjectState, id: TransactionId): ObjectState {
    if ReadRule(o, id).Read? then o.(readers := o.readers + {id}) else o
  }

  // ----- the write rule

  ghost predicate MayWrite(o: ObjectState, id: TransactionId) {
    o.committed.Lt(id) && forall r :: r in o.readers ==> r.Le(id)
  }

  ghost function AfterWrite(o: ObjectState, id: TransactionId, value: int): ObjectState {
    if MayWrite(o, id) then o.(tentative := o.tentative[id := value]) else o
  }

  // ----- the commit rule

  datatype CheckOutcome = NothingToCommit | CommitValue | CheckFailed | CheckWait(on: TransactionId) {
    predicate Passes() {
      NothingToCommit? || CommitValue?
    }
  }

  function CheckRule(o: ObjectState, id: TransactionId): CheckOutcome {
    if id !in o.tentative then NothingToCommit
    else
      var oldest := Oldest(o.tentative.Keys);
      if oldest != id then CheckWait(oldest)
      else if Valid(o.tentative[id]) then CommitValue
      else CheckFailed
  }

  function AfterCommit(o: ObjectState, id: TransactionId): ObjectState {
    if CheckRule(o, id).CommitValue? then
      ObjectState(o.tentative[id], id, o.readers, o.tentative - {id})
    else o
  }

  // ----- the abort rule

  function AfterAbort(o: ObjectState, id: TransactionId): ObjectState {
    o.(readers := o.readers - {id}, tentative := o.tentative - {id})
  }

  predicate CanReap(o: ObjectState, id: TransactionId) {
    o.committed.IsDefault() && (o.tentative == map[] || o.tentative.Keys == {id})
  }

  // ----- what the rules mean

  /** The timestamps of all versions of the object that id may see. */
  function VersionsUpTo(o: ObjectState, id: TransactionId): set<TransactionId> {
    set t | t in o.tentative.Keys + {o.committed} && t.Le(id)
  }

  /**
   * A read serves the version with the largest write timestamp at or below the reader: committed
   * versions and the reader's own are returned, anybody else's is waited for.
   */
  lemma ReadServesNewest(o: ObjectState, owner: NodeId, id: TransactionId)
    requires Sound(o, owner) && o.committed.Lt(id)
    ensures VersionsUpTo(o, id) != {}
    ensures var v := Newest(VersionsUpTo(o, id));
            && (ReadRule(o, id).ReadWait? <==> v != o.committed && v != id)
            && (ReadRule(o, id).ReadWait? ==> ReadRule(o, id).on == v)
            && (v == id ==> ReadRule(o, id) == Read(o.tentative[id]))
            && (v == o.committed ==> ReadRule(o, id) == if o.committed.IsDefault() then ReadNotFound else Read(o.value))
  {
    assert o.committed in VersionsUpTo(o, id);
    var v := Newest(VersionsUpTo(o, id));
    if Visible(o, id) != {} {
      assert Newest(Visible(o, id)) in VersionsUpTo(o, id);
      assert v in Visible(o, id);
    } else {
      assert v !in o.tentative;
    }
  }

  /** Every tentative write above the committed version is newer than id. */
  ghost predicate AllNewer(o: ObjectState, id: TransactionId) {
    forall u :: u in o.tentative && o.committed.Lt(u) ==> id.Lt(u)
  }

  /** u is the newest tentative writer above the committed version and below id. */
  ghost predicate NewestBelow(o: ObjectState, id: TransactionId, u: TransactionId) {
    && u in o.tentative && o.committed.Lt(u) && u.Lt(id)
    && forall w :: w in o.tentative && w.Lt(id) ==> w.Le(u)
  }

  /** What a read answers, in every state of the object. */
  lemma ReadOutcomes(o: ObjectState, id: TransactionId)
    ensures ReadRule(o, id).ReadTooLate? <==> !o.committed.Lt(id)
    ensures forall v :: ReadRule(o, id) == Read(v) <==>
              && o.committed.Lt(id)
              && if id in o.tentative then v == o.tentative[id] else AllNewer(o, id) && !o.committed.IsDefault() && v == o.value
    ensures ReadRule(o, id).ReadNotFound? <==> o.committed.Lt(id) && id !in o.tentative && AllNewer(o, id) && o.committed.IsDefault()
    ensures forall u :: ReadRule(o, id) == ReadWait(u) <==> id !in o.tentative && NewestBelow(o, id, u)
  {
    if o.committed.Lt(id) {
      if Visible(o, id) == {} {
        forall u | u in o.tentative && o.committed.Lt(u) ensures id.Lt(u) {
          assert u !in Visible(o, id);
        }
      } else {
        var newest := Newest(Visible(o, id));
        assert forall w :: w in Visible(o, id) ==> w.Le(newest);
        assert forall w :: w in o.tentative && o.committed.Lt(w) && w.Le(id) ==> w in Visible(o, id);
      }
    }
  }

  /** A commit check passes exactly for the oldest tentative writer with a valid balance, or for a non-writer. */
  lemma CheckPassesOldest(o: ObjectState, id: TransactionId)
    ensures CheckRule(o, id).CommitValue? <==>
              id in o.tentative && Valid(o.tentative[id]) && forall t :: t in o.tentative ==> id.Le(t)
    ensures CheckRule(o, id).CheckFailed? <==>
              id in o.tentative && !Valid(o.tentative[id]) && forall t :: t in o.tentative ==> id.Le(t)
    ensures forall u :: CheckRule(o, id) == CheckWait(u) <==>
              id in o.tentative && u in o.tentative && u != id && forall t :: t in o.tentative ==> u.Le(t)
  {
  }

  // ----- every call sequence

  datatype Call =
    | CallRead(id: TransactionId)
    | CallWrite(id: TransactionId, value: int)
    | CallCommit(id: TransactionId)
    | CallAbort(id: TransactionId)

  ghost function After(o: ObjectState, call: Call): ObjectState {
    match call
    case CallRead(id) => AfterRead(o, id)
    case CallWrite(id, value) => AfterWrite(o, id, value)
    case CallCommit(id) => AfterCommit(o, id)
    case CallAbort(id) => AfterAbort(o, id)
  }

  /** Ids come from a generator, so their timestamps are at least one. */
  ghost predicate RealIds(calls: seq<Call>) {
    forall i :: 0 <= i < |calls| ==> !calls[i].id.IsDefault()
  }

  /** The object after the first n calls. */
  ghost function StateAt(owner: NodeId, calls: seq<Call>, n: nat): ObjectState
    requires n <= |calls|
  {
    if n == 0 then Fresh(owner) else After(StateAt(owner, calls, n - 1), calls[n - 1])
  }

  /** Call number i committed a value. */
  ghost predicate Commits(owner: NodeId, calls: seq<Call>, i: nat)
    requires i < |calls|
  {
    calls[i].CallCommit? && CheckRule(StateAt(owner, calls, i), calls[i].id).CommitValue?
  }

  /** What holds of an object after any sequence of calls. */
  ghost predicate Sound(o: ObjectState, owner: NodeId) {
    && (forall t :: t in o.tentative ==> o.committed.Lt(t) && !t.IsDefault())
    && (forall t :: t in o.readers ==> !t.IsDefault())
    && (o.committed.IsDefault() ==>
          o.readers <= o.tentative.Keys && o.value == 0 && o.committed == Default(owner))
    && Valid(o.value)
  }

  lemma SoundKept(o: ObjectState, owner: NodeId, call: Call)
    requires Sound(o, owner) && !call.id.IsDefault()
    ensures Sound(After(o, call), owner)
    ensures o.committed.Le(After(o, call).committed)
  {
  }

  lemma {:induction false} AlwaysSound(owner: NodeId, calls: seq<Call>, n: nat)
    requires RealIds(calls) && n <= |calls|
    ensures Sound(StateAt(owner, calls, n), owner)
  {
    if n > 0 {
      AlwaysSound(owner, calls, n - 1);
      SoundKept(StateAt(owner, calls, n - 1), owner, calls[n - 1]);
    }
  }

  lemma {:induction false} CommittedNeverGoesBack(owner: NodeId, calls: seq<Call>, i: nat, j: nat)
    requires RealIds(calls) && i <= j <= |calls|
    ensures StateAt(owner, calls, i).committed.Le(StateAt(owner, calls, j).committed)
  {
    if i < j {
      CommittedNeverGoesBack(owner, calls, i, j - 1);
      AlwaysSound(owner, calls, j - 1);
      SoundKept(StateAt(owner, calls, j - 1), owner, calls[j - 1]);
    }
  }

  /** Commits on one object happen in strictly increasing id order and only with valid balances. */
  lemma CommitOrder(owner: NodeId, calls: seq<Call>, i: nat, j: nat)
    requires RealIds(calls) && i < j < |calls|
    requires Commits(owner, calls, i) && Commits(owner, calls, j)
    ensures calls[i].id.Lt(calls[j].id)
    ensures Valid(StateAt(owner, calls, i + 1).value) && Valid(StateAt(owner, calls, j + 1).value)
    ensures StateAt(owner, calls, i + 1).committed == calls[i].id
  {
    CommittedNeverGoesBack(owner, calls, i + 1, j);
    AlwaysSound(owner, calls, j);
    AlwaysSound(owner, calls, i + 1);
    AlwaysSound(owner, calls, j + 1);
  }

  /** Call number i returned the version committed at c to transaction id. */
  ghost predicate ReadsCommitted(owner: NodeId, calls: seq<Call>, i: nat, id: TransactionId, c: TransactionId)
    requires i < |calls|
  {
    var o := StateAt(owner, calls, i);
    calls[i] == CallRead(id) && ReadRule(o, id).Read? && Visible(o, id) == {} && o.committed == c
  }

  /** id stays a recorded reader and nobody strictly between c and id holds a write. */
  ghost predicate Shielded(o: ObjectState, c: TransactionId, id: TransactionId) {
    id in o.readers && forall t :: t in o.tentative && t.Lt(id) ==> t.Le(c)
  }

  lemma ShieldKept(o: ObjectState, call: Call, c: TransactionId, id: TransactionId)
    requires Shielded(o, c, id) && call != CallAbort(id)
    ensures Shielded(After(o, call), c, id)
  {
  }

  lemma {:induction false} StaysShielded(owner: NodeId, calls: seq<Call>, i: nat, j: nat, id: TransactionId, c: TransactionId)
    requires i < j <= |calls|
    requires ReadsCommitted(owner, calls, i, id, c)
    requires forall n :: i < n < |calls| ==> calls[n] != CallAbort(id)
    ensures Shielded(StateAt(owner, calls, j), c, id)
  {
    var o := StateAt(owner, calls, i);
    if j == i + 1 {
      assert forall t :: t in o.tentative && t.Lt(id) && !t.Le(c) ==> t in Visible(o, id);
    } else {
      StaysShielded(owner, calls, i, j - 1, id, c);
      ShieldKept(StateAt(owner, calls, j - 1), calls[j - 1], c, id);
    }
  }

  /**
   * A reader that never aborts stays valid: no transaction between the version it read and itself
   * ever commits a write on the object, neither before the read nor at any time after it.
   */
  lemma SurvivingReader(owner: NodeId, calls: seq<Call>, i: nat, id: TransactionId, c: TransactionId, j: nat)
    requires RealIds(calls) && i < |calls| && j < |calls|
    requires ReadsCommitted(owner, calls, i, id, c)
    requires forall n :: i < n < |calls| ==> calls[n] != CallAbort(id)
    requires Commits(owner, calls, j)
    ensures !(c.Lt(calls[j].id) && calls[j].id.Lt(id))
  {
    if j < i {
      AlwaysSound(owner, calls, j);
      CommittedNeverGoesBack(owner, calls, j + 1, i);
    } else if i < j {
      StaysShielded(owner, calls, i, j, id, c);
    }
  }

  /** Reaping loses nothing: an object that may be reaped after an abort is a fresh object. */
  lemma ReapLosesNothing(owner: NodeId, calls: seq<Call>, id: TransactionId)
    requires RealIds(calls) && !id.IsDefault()
    ensures var o := AfterAbort(StateAt(owner, calls, |calls|), id);
            CanReap(o, id) <==> o == Fresh(owner)
  {
    AlwaysSound(owner, calls, |calls|);
    SoundKept(StateAt(owner, calls, |calls|), owner, CallAbort(id));
  }

  /** Waiting always points at a strictly older transaction. */
  lemma WaitsPointBack(o: ObjectState, id: TransactionId)
    ensures ReadRule(o, id).ReadWait? ==> ReadRule(o, id).on.Lt(id) && ReadRule(o, id).on in o.tentative
    ensures CheckRule(o, id).CheckWait? ==> CheckRule(o, id).on.Lt(id) && CheckRule(o, id).on in o.tentative
  {
  }
}

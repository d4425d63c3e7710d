/** The object of one account, updated in place; each method is proved against the rules of module Objects. */
module TimestampedObjects {
  import opened TransactionIds
  import opened Objects

  /** The last id of an ordered set. */
  method LastOf(s: set<TransactionId>) returns (m: TransactionId)
    requires s != {}
    ensures m in s && forall x :: x in s ==> x.Le(m)
    ensures m == Newest(s)
  {
    m :| m in s;
    var rest := s - {m};
    while rest != {}
      invariant rest <= s && m in s
      invariant forall x :: x in s && x !in rest ==> x.Le(m)
      decreases |rest|
    {
      var x :| x in rest;
      if m.Lt(x) { m := x; }
      rest := rest - {x};
    }
  }

  /** The first id of an ordered set. */
  method FirstOf(s: set<TransactionId>) returns (m: TransactionId)
    requires s != {}
    ensures m in s && forall x :: x in s ==> m.Le(x)
    ensures m == Oldest(s)
  {
    m :| m in s;
    var rest := s - {m};
    while rest != {}
      invariant rest <= s && m in s
      invariant forall x :: x in s && x !in rest ==> m.Le(x)
      decreases |rest|
    {
      var x :| x in rest;
      if x.Lt(m) { m := x; }
      rest := rest - {x};
    }
  }

  lemma OnlyKey(s: set<TransactionId>, id: TransactionId)
    ensures s == {} || s == {id} <==> forall u :: u in s ==> u == id
  {
  }

  class TimestampedObject {
    var value: int
    var committedTimestamp: TransactionId
    var readTimestamps: set<TransactionId>
    var tentativeWrites: map<TransactionId, int>

    ghost function State(): ObjectState
      reads this
    {
      ObjectState(value, committedTimestamp, readTimestamps, tentativeWrites)
    }

    constructor (owner: NodeId)
      ensures State() == Fresh(owner)
      ensures value == 0 && committedTimestamp.IsDefault() && committedTimestamp.coordinator == owner && readTimestamps == {} && tentativeWrites == map[]
    {
      value, committedTimestamp, readTimestamps, tentativeWrites := 0, Default(owner), {}, map[];
    }

    method Read(id: TransactionId) returns (r: ReadOutcome)
      modifies this
      ensures r == ReadRule(old(State()), id)
      ensures State() == AfterRead(old(State()), id)
      ensures value == old(value) && committedTimestamp == old(committedTimestamp) && tentativeWrites == old(tentativeWrites)
      ensures readTimestamps == old(readTimestamps) + (if r.Read? then {id} else {})
    {
      if committedTimestamp.Lt(id) {
        var range := set t | t in tentativeWrites && committedTimestamp.Lt(t) && t.Le(id);
        assert range == Visible(State(), id);
        if range == {} {
          if committedTimestamp.IsDefault() {
            r := ReadNotFound;
          } else {
            r := ReadOutcome.Read(value);
            readTimestamps := readTimestamps + {id};
          }
        } else {
          var ts := LastOf(range);
          if ts == id {
            r := ReadOutcome.Read(tentativeWrites[id]);
            readTimestamps := readTimestamps + {id};
          } else {
            r := ReadWait(ts);
          }
        }
      } else {
        r := ReadTooLate;
      }
    }

    method Write(id: TransactionId, amount: int) returns (ok: bool)
      modifies this
      ensures ok <==> MayWrite(old(State()), id)
      ensures State() == AfterWrite(old(State()), id, amount)
      ensures ok <==> old(committedTimestamp).Lt(id) && forall x :: x in old(readTimestamps) ==> x.Le(id)
      ensures tentativeWrites == if ok then old(tentativeWrites)[id := amount] else old(tentativeWrites)
      ensures value == old(value) && committedTimestamp == old(committedTimestamp) && readTimestamps == old(readTimestamps)
    {
      var isAfterMrt := true;
      if readTimestamps != {} {
        var mrt := LastOf(readTimestamps);
        isAfterMrt := mrt.Le(id);
      }
      ok := isAfterMrt && committedTimestamp.Lt(id);
      if ok { tentativeWrites := tentativeWrites[id := amount]; }
    }

    method CheckCommit(id: TransactionId) returns (r: CheckOutcome)
      ensures r == CheckRule(State(), id)
      ensures r.CommitValue? <==>
                id in tentativeWrites && tentativeWrites[id] >= 0 && forall t :: t in tentativeWrites ==> id.Le(t)
      ensures r.CheckFailed? <==>
                id in tentativeWrites && tentativeWrites[id] < 0 && forall t :: t in tentativeWrites ==> id.Le(t)
      ensures r.NothingToCommit? <==> id !in tentativeWrites
    {
      if id !in tentativeWrites { return NothingToCommit; }
      var first := FirstOf(tentativeWrites.Keys);
      if id == first {
        r := if Valid(tentativeWrites[id]) then CommitValue else CheckFailed;
      } else {
        r := CheckWait(first);
      }
    }

    method Commit(id: TransactionId) returns (r: CheckOutcome)
      modifies this
      ensures r == CheckRule(old(State()), id)
      ensures State() == AfterCommit(old(State()), id)
      ensures r.CommitValue? ==> committedTimestamp == id && value == old(tentativeWrites)[id] && tentativeWrites == old(tentativeWrites) - {id}
      ensures !r.CommitValue? ==> State() == old(State())
      ensures readTimestamps == old(readTimestamps)
    {
      r := CheckCommit(id);
      if r.CommitValue? {
        committedTimestamp, value, tentativeWrites := id, tentativeWrites[id], tentativeWrites - {id};
      }
    }

    method MayReap(aborting: TransactionId) returns (b: bool)
      ensures b <==> CanReap(State(), aborting)
      ensures b <==> committedTimestamp.IsDefault() && forall u :: u in tentativeWrites ==> u == aborting
    {
      var onlyViolation := |tentativeWrites| == 1 && aborting in tentativeWrites;
      assert onlyViolation <==> tentativeWrites.Keys == {aborting} by {
        if onlyViolation { assert |tentativeWrites.Keys - {aborting}| == 0; }
        if tentativeWrites.Keys == {aborting} { assert |tentativeWrites.Keys| == 1; }
      }
      b := committedTimestamp.IsDefault() && (|tentativeWrites| == 0 || onlyViolation);
      assert (|tentativeWrites| == 0 || onlyViolation) <==> forall u :: u in tentativeWrites ==> u == aborting by {
        OnlyKey(tentativeWrites.Keys, aborting);
      }
    }

    method Abort(id: TransactionId)
      modifies this
      ensures State() == AfterAbort(old(State()), id)
      ensures tentativeWrites == old(tentativeWrites) - {id} && readTimestamps == old(readTimestamps) - {id}
      ensures value == old(value) && committedTimestamp == old(committedTimestamp)
    {
      tentativeWrites := tentativeWrites - {id};
      readTimestamps := readTimestamps - {id};
    }
  }
}

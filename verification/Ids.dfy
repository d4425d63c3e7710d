/** Transaction ids, their total order, and the clock-driven generator that issues them. */
module TransactionIds {

  type NodeId = char

  /** An id is a timestamp with the coordinating node as tie-breaker; the derived order is lexicographic. */
  datatype TransactionId = TransactionId(ts: nat, coordinator: NodeId) {
    predicate IsDefault() {
      ts == 0
    }

    predicate Lt(other: TransactionId) {
      ts < other.ts || (ts == other.ts && coordinator < other.coordinator)
    }

    predicate Le(other: TransactionId) {
      this == other || Lt(other)
    }
  }

  /** Ids are totally ordered, timestamps first; equal timestamps are ordered by the coordinator's name. */
  lemma IdOrder(a: TransactionId, b: TransactionId, c: TransactionId)
    ensures a.Lt(b) || a == b || b.Lt(a)
    ensures !(a.Lt(b) && b.Le(a))
    ensures a.Lt(b) && b.Lt(c) ==> a.Lt(c)
    ensures a.ts < b.ts ==> a.Lt(b)
    ensures a.ts == b.ts && a.Lt(b) ==> a.coordinator < b.coordinator
  {
  }

  /** The id carried by an object nobody has committed to yet. */
  function Default(owner: NodeId): TransactionId {
    TransactionId(0, owner)
  }

  /** The two counters of a generator: last clock reading adopted, and ids issued since then. */
  datatype Clock = Clock(lastSystime: nat, lastCount: nat)

  const START := Clock(0, 0)

  function Tick(c: Clock, reading: nat): Clock {
    if reading <= c.lastSystime then Clock(c.lastSystime, c.lastCount + 1) else Clock(reading, 0)
  }

  /** The clock after the first n readings. */
  function ClockAfter(readings: seq<nat>, n: nat): Clock
    requires n <= |readings|
  {
    if n == 0 then START else Tick(ClockAfter(readings, n - 1), readings[n - 1])
  }

  /** The timestamp issued for reading number i. */
  function Issued(readings: seq<nat>, i: nat): nat
    requires i < |readings|
  {
    var c := ClockAfter(readings, i + 1);
    c.lastSystime + c.lastCount
  }

  class ClockTransactionIdGenerator {
    const nodeId: NodeId
    var lastSystime: nat
    var lastCount: nat

    ghost function State(): Clock
      reads this
    {
      Clock(lastSystime, lastCount)
    }

    constructor (nodeId: NodeId)
      ensures this.nodeId == nodeId && State() == START
    {
      this.nodeId := nodeId;
      lastSystime, lastCount := 0, 0;
    }

    method Next(reading: nat) returns (id: TransactionId)
      modifies this
      ensures State() == Tick(old(State()), reading)
      ensures id == TransactionId(lastSystime + lastCount, nodeId)
      ensures id.ts >= 1 && Default(nodeId).Lt(id)
      ensures id.ts == if reading > old(lastSystime) then reading else old(lastSystime + lastCount) + 1
      ensures id.ts > old(lastSystime + lastCount) <==> !Collides(old(State()), reading)
    {
      var ts := reading;
      if ts <= lastSystime {
        lastCount := lastCount + 1;
        ts := lastSystime + lastCount;
      } else {
        lastCount := 0;
        lastSystime := ts;
      }
      id := TransactionId(ts, nodeId);
    }
  }

  /** A reading that moved past the adopted clock value but not past the ids already handed out from it. */
  predicate Collides(c: Clock, reading: nat) {
    c.lastSystime < reading <= c.lastSystime + c.lastCount
  }

  ghost predicate CollidesAt(readings: seq<nat>, i: nat)
    requires i < |readings|
  {
    Collides(ClockAfter(readings, i), readings[i])
  }

  ghost predicate NoCollision(readings: seq<nat>) {
    forall i :: 0 <= i < |readings| ==> !CollidesAt(readings, i)
  }

  ghost predicate Increasing(readings: seq<nat>) {
    forall i, j :: 0 <= i < j < |readings| ==> Issued(readings, i) < Issued(readings, j)
  }

  ghost predicate AllDistinct(readings: seq<nat>) {
    forall i, j :: 0 <= i < j < |readings| ==> Issued(readings, i) != Issued(readings, j)
  }

  /** Ids of one node, one per reading. */
  function IdOf(node: NodeId, readings: seq<nat>, i: nat): TransactionId
    requires i < |readings|
  {
    TransactionId(Issued(readings, i), node)
  }

  /** Every id is above the default timestamp of every object, whatever the clock does. */
  lemma {:induction false} IssuedAboveDefault(readings: seq<nat>, i: nat, node: NodeId, owner: NodeId)
    requires i < |readings|
    ensures Issued(readings, i) >= 1
    ensures Default(owner).Lt(IdOf(node, readings, i)) && !IdOf(node, readings, i).IsDefault()
  {
  }

  lemma NextIsAbove(readings: seq<nat>, j: nat)
    requires 0 < j < |readings|
    ensures Issued(readings, j - 1) < Issued(readings, j) <==> !CollidesAt(readings, j)
  {
  }

  lemma {:induction false} NoCollisionIncreases(readings: seq<nat>, i: nat, j: nat)
    requires i < j < |readings|
    requires NoCollision(readings)
    ensures Issued(readings, i) < Issued(readings, j)
  {
    NextIsAbove(readings, j);
    if i + 1 < j {
      NoCollisionIncreases(readings, i, j - 1);
    }
  }

  /** The timestamp issued is the reading itself, or one more than the last one when the clock has not moved on. */
  lemma IssuedIsReadingOrNext(readings: seq<nat>, i: nat)
    requires i < |readings|
    ensures forall j :: 0 <= j < i && readings[i] <= readings[j] ==> i > 0 && Issued(readings, i) == Issued(readings, i - 1) + 1
    ensures (forall j :: 0 <= j < i ==> readings[j] < readings[i]) && readings[i] > 0 ==> Issued(readings, i) == readings[i]
  {
    ClockIsLargest(readings, i);
  }

  /** The adopted clock value is the largest reading so far. */
  lemma {:induction false} ClockIsLargest(readings: seq<nat>, n: nat)
    requires n <= |readings|
    ensures forall j :: 0 <= j < n ==> readings[j] <= ClockAfter(readings, n).lastSystime
    ensures ClockAfter(readings, n).lastSystime > 0 ==> exists j :: 0 <= j < n && readings[j] == ClockAfter(readings, n).lastSystime
  {
    if n > 0 {
      ClockIsLargest(readings, n - 1);
      if ClockAfter(readings, n).lastSystime > 0 {
        if readings[n - 1] > ClockAfter(readings, n - 1).lastSystime {
          assert readings[n - 1] == ClockAfter(readings, n).lastSystime;
        } else {
          var j :| 0 <= j < n - 1 && readings[j] == ClockAfter(readings, n - 1).lastSystime;
          assert readings[j] == ClockAfter(readings, n).lastSystime;
        }
      }
    }
  }

  /** Every timestamp between the adopted clock value and the last id was handed out. */
  lemma {:induction false} BurstWasIssued(readings: seq<nat>, n: nat, ts: nat) returns (i: nat)
    requires n <= |readings|
    requires Collides(ClockAfter(readings, n), ts)
    ensures i < n && Issued(readings, i) == ts
  {
    var c := ClockAfter(readings, n);
    if ts == c.lastSystime + c.lastCount {
      i := n - 1;
    } else {
      i := BurstWasIssued(readings, n - 1, ts);
    }
  }

  /**
   * A generator's ids are all distinct exactly when they strictly increase, and exactly when no
   * reading lands on an id already derived from the previous clock value.
   */
  lemma UniqueIffNoCollision(readings: seq<nat>)
    ensures Increasing(readings) <==> NoCollision(readings)
    ensures AllDistinct(readings) <==> NoCollision(readings)
  {
    if NoCollision(readings) {
      forall i, j | 0 <= i < j < |readings| ensures Issued(readings, i) < Issued(readings, j) {
        NoCollisionIncreases(readings, i, j);
      }
    } else {
      var n :| 0 <= n < |readings| && CollidesAt(readings, n);
      var i := BurstWasIssued(readings, n, readings[n]);
      assert Issued(readings, n) == readings[n] == Issued(readings, i);
    }
  }

  /** A clock that advances by one nanosecond after a tie repeats an id. */
  lemma RepeatedIdWitness()
    ensures !AllDistinct([100, 100, 101])
  {
    var r := [100, 100, 101];
    assert ClockAfter(r, 1) == Clock(100, 0);
    assert ClockAfter(r, 2) == Clock(100, 1);
    assert CollidesAt(r, 2);
    UniqueIffNoCollision(r);
  }

  /** Across the cluster: ids are distinct for every pair of nodes and positions iff no generator collides. */
  lemma ClusterIdsDistinct(readings: map<NodeId, seq<nat>>)
    ensures (forall a, b, i, j ::
               a in readings && b in readings && 0 <= i < |readings[a]| && 0 <= j < |readings[b]| && (a != b || i != j)
               ==> IdOf(a, readings[a], i) != IdOf(b, readings[b], j))
       <==> (forall a :: a in readings ==> NoCollision(readings[a]))
  {
    forall a | a in readings ensures AllDistinct(readings[a]) <==> NoCollision(readings[a]) {
      UniqueIffNoCollision(readings[a]);
    }
    forall a | a in readings && !AllDistinct(readings[a])
      ensures exists i, j :: 0 <= i < |readings[a]| && 0 <= j < |readings[a]| && i != j
                             && IdOf(a, readings[a], i) == IdOf(a, readings[a], j)
    {
      var i, j :| 0 <= i < j < |readings[a]| && Issued(readings[a], i) == Issued(readings[a], j);
      assert IdOf(a, readings[a], i) == IdOf(a, readings[a], j);
    }
  }
}

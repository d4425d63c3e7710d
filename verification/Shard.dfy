/**
 * One shard: its map of objects and of pending notifications, updated in place. A call makes one
 * attempt; an attempt that has to wait changes no object, registers a notification and says on whom.
 */
module Shards {
  import opened TransactionIds
  import opened Objects
  import opened Ledger
  import opened Tables
  import opened TimestampedObjects

  datatype Attempt<T> = Ended(result: T) | WaitOn(tx: TransactionId)

  datatype Failure = ConsistencyCheckFailed | OrderViolation | ObjectNotFound | ObjectNotFoundSpecialCase

  datatype Result<T> = Success(value: T) | Failed(reason: Failure)

  /** Every object after a commit of id. */
  ghost function CommittedAll(t: Table, id: TransactionId): Table {
    map k | k in t :: AfterCommit(t[k], id)
  }

  /** What the commit check says of each object. */
  ghost function Outcomes(t: Table, id: TransactionId): map<Key, CheckOutcome> {
    map k | k in t :: CheckRule(t[k], id)
  }

  /** What committing an object answers: the outcome, and the balance it then has. */
  datatype Answer = Answer(outcome: CheckOutcome, balance: int)

  ghost function Answers(t: Table, id: TransactionId): map<Key, Answer> {
    map k | k in t :: Answer(CheckRule(t[k], id), AfterCommit(t[k], id).value)
  }

  /** The answers of all objects but those still to do. */
  ghost predicate Collected(t: Table, id: TransactionId, answers: map<Key, Answer>, todo: set<Key>) {
    answers == Answers(t, id) - todo
  }

  lemma CollectOne(t: Table, id: TransactionId, answers: map<Key, Answer>, todo: set<Key>, k: Key)
    requires Collected(t, id, answers, todo) && k in todo && k in t
    ensures Collected(t, id, answers[k := Answer(CheckRule(t[k], id), AfterCommit(t[k], id).value)], todo - {k})
  {
  }

  ghost function AbortedAll(t: Table, id: TransactionId): Table {
    map k | k in t :: AfterAbort(t[k], id)
  }

  /** An object's answer to a read of id: each kind of answer with exactly its cause. */
  ghost predicate ReadAnswer(o: ObjectState, id: TransactionId, r: Attempt<Result<int>>) {
    && (forall v :: r == Ended(Success(v)) <==>
          && o.committed.Lt(id)
          && if id in o.tentative then v == o.tentative[id] else AllNewer(o, id) && !o.committed.IsDefault() && v == o.value)
    && (r == Ended(Failed(OrderViolation)) <==> !o.committed.Lt(id))
    && (r == Ended(Failed(ObjectNotFoundSpecialCase)) <==>
          o.committed.Lt(id) && o.committed.IsDefault() && id !in o.tentative && AllNewer(o, id))
    && (forall u :: r == WaitOn(u) <==> id !in o.tentative && NewestBelow(o, id, u))
  }

  /** A write on an account that is there or has just been opened is the table's write. */
  lemma WriteLands(t: Table, k: Key, id: TransactionId, amount: int)
    requires Opens(t, k, amount)
    ensures var o := Target(t, k);
            && AfterStore(t, k, id, amount) == (if k in t then t else t[k := Fresh(k.shard)])[k := AfterWrite(o, id, amount)]
            && (!MayWrite(o, id) <==> !o.committed.Lt(id) || exists x :: x in o.readers && id.Lt(x))
            && (MayWrite(o, id) ==> id in AfterWrite(o, id, amount).tentative && AfterWrite(o, id, amount).tentative[id] == amount)
  {
  }

  class Shard {
    const shardId: NodeId
    var objects: map<Key, TimestampedObject>
    var notifications: set<TransactionId>

    /** Accounts are this shard's own and do not share objects. */
    ghost predicate Valid()
      reads this`objects
    {
      && (forall k :: k in objects ==> k.shard == shardId)
      && (forall k, l :: k in objects && l in objects && k != l ==> objects[k] != objects[l])
    }

    ghost function Contents(): Table
      reads this`objects, objects.Values
    {
      map k | k in objects :: objects[k].State()
    }

    constructor (shardId: NodeId)
      ensures this.shardId == shardId && Valid() && Contents() == map[] && notifications == {}
    {
      this.shardId := shardId;
      objects, notifications := map[], {};
    }

    method GetNotification(id: TransactionId)
      modifies this`notifications
      ensures notifications == old(notifications) + {id}
    {
      notifications := notifications + {id};
    }

    method NotifyAndRemove(id: TransactionId)
      modifies this`notifications
      ensures notifications == old(notifications) - {id}
    {
      notifications := notifications - {id};
    }

    method Read(id: TransactionId, k: Key) returns (r: Attempt<Result<int>>)
      requires Valid()
      modifies objects.Values, this`notifications
      ensures Valid() && objects == old(objects)
      ensures var t := old(Contents());
              && (r == Ended(Failed(ObjectNotFound)) <==> k !in t)
              && (k in t ==> ReadAnswer(t[k], id, r))
      ensures Contents() == if k in old(Contents()) then old(Contents())[k := AfterRead(old(Contents())[k], id)] else old(Contents())
      ensures notifications == old(notifications) + (if r.WaitOn? then {r.tx} else {})
    {
      if k !in objects { return Ended(Failed(ObjectNotFound)); }
      ReadOutcomes(Contents()[k], id);
      var out := ReadAt(id, k);
      match out
      case Read(v) => r := Ended(Success(v));
      case ReadTooLate => r := Ended(Failed(OrderViolation));
      case ReadNotFound => r := Ended(Failed(ObjectNotFoundSpecialCase));
      case ReadWait(u) =>
        GetNotification(u);
        r := WaitOn(u);
    }

    method ReadAt(id: TransactionId, k: Key) returns (out: ReadOutcome)
      requires Valid() && k in objects
      modifies objects[k]
      ensures out == ReadRule(old(Contents())[k], id)
      ensures Contents() == old(Contents())[k := AfterRead(old(Contents())[k], id)]
    {
      out := objects[k].Read(id);
      assert forall l :: l in objects && l != k ==> objects[l] != objects[k];
    }

    method WriteAt(id: TransactionId, k: Key, amount: int) returns (ok: bool)
      requires Valid() && k in objects
      modifies objects[k]
      ensures ok <==> MayWrite(old(Contents())[k], id)
      ensures Contents() == old(Contents())[k := AfterWrite(old(Contents())[k], id, amount)]
    {
      ok := objects[k].Write(id, amount);
      assert forall l :: l in objects && l != k ==> objects[l] != objects[k];
    }

    /** A default object for an account that is missing. */
    method OpenAccount(k: Key)
      requires Valid() && k !in objects && k.shard == shardId
      modifies this`objects
      ensures Valid() && objects.Keys == old(objects.Keys) + {k} && fresh(objects.Values - old(objects.Values))
      ensures Contents() == old(Contents())[k := Fresh(shardId)]
    {
      var created := new TimestampedObject(shardId);
      objects := objects[k := created];
    }

    method Write(id: TransactionId, k: Key, amount: int) returns (r: Result<()>)
      requires Valid() && k.shard == shardId
      modifies this`objects, objects.Values
      ensures Valid() && fresh(objects.Values - old(objects.Values))
      ensures Contents() == AfterStore(old(Contents()), k, id, amount)
      ensures var t := old(Contents());
              && (r == Failed(ObjectNotFound) <==> k !in t && amount < 0)
              && (r == Failed(OrderViolation) <==>
                    if k in t then !t[k].committed.Lt(id) || exists x :: x in t[k].readers && id.Lt(x)
                    else amount >= 0 && !Default(shardId).Lt(id))
              && (r.Failed? ==> r.reason == ObjectNotFound || r.reason == OrderViolation)
      ensures r.Success? ==> k in Contents() && id in Contents()[k].tentative && Contents()[k].tentative[id] == amount
    {
      ghost var t := Contents();
      if k !in objects {
        if !Objects.Valid(amount) { return Failed(ObjectNotFound); }
        OpenAccount(k);
      }
      WriteLands(t, k, id, amount);
      var ok := WriteAt(id, k, amount);
      r := if ok then Success(()) else Failed(OrderViolation);
    }

    /** One pass of the commit check over all objects, in any order. */
    method CheckCommit(id: TransactionId) returns (r: Attempt<Result<()>>)
      requires Valid()
      modifies this`notifications
      ensures Contents() == old(Contents())
      ensures var w := Outcomes(Contents(), id);
              && (r == Ended(Success(())) <==> forall k :: k in w ==> w[k].Passes())
              && (r.Ended? && r.result.Failed? ==> r.result.reason == ConsistencyCheckFailed && exists k :: k in w && w[k].CheckFailed?)
              && (r.WaitOn? ==> exists k :: k in w && w[k] == CheckWait(r.tx))
      ensures notifications == old(notifications) + (if r.WaitOn? then {r.tx} else {})
    {
      ghost var table := Contents();
      ghost var w := Outcomes(table, id);
      var todo := objects.Keys;
      while todo != {}
        invariant todo <= objects.Keys && notifications == old(notifications)
        invariant forall k :: k in w && k !in todo ==> w[k].Passes()
        decreases todo
      {
        var k :| k in todo;
        var out := objects[k].CheckCommit(id);
        assert k in w && out == w[k];
        if out.CheckFailed? { return Ended(Failed(ConsistencyCheckFailed)); }
        if out.CheckWait? {
          GetNotification(out.on);
          return WaitOn(out.on);
        }
        todo := todo - {k};
      }
      return Ended(Success(()));
    }

    /** The objects of the keys still to do are as in t, the others as in u. */
    ghost predicate Halfway(t: Table, u: Table, todo: set<Key>)
      reads this`objects, objects.Values
    {
      && t.Keys == u.Keys == objects.Keys
      && forall k :: k in objects ==> objects[k].State() == if k in todo then t[k] else u[k]
    }

    lemma HalfwayDone(t: Table, u: Table)
      requires Halfway(t, u, {})
      ensures Contents() == u
    {
    }

    method CommitOne(id: TransactionId, k: Key, ghost t: Table, ghost todo: set<Key>) returns (answer: Answer)
      requires Valid() && k in todo && k in objects && Halfway(t, CommittedAll(t, id), todo)
      modifies objects[k]
      ensures Halfway(t, CommittedAll(t, id), todo - {k})
      ensures answer == Answer(CheckRule(t[k], id), AfterCommit(t[k], id).value)
    {
      var out := objects[k].Commit(id);
      answer := Answer(out, objects[k].value);
      assert forall l :: l in objects && l != k ==> objects[l] != objects[k];
    }

    method CommitAll(id: TransactionId) returns (answers: map<Key, Answer>)
      requires Valid()
      modifies objects.Values
      ensures Contents() == CommittedAll(old(Contents()), id)
      ensures answers == Answers(old(Contents()), id)
    {
      ghost var t := Contents();
      var todo := objects.Keys;
      answers := map[];
      while todo != {}
        invariant todo <= objects.Keys && Halfway(t, CommittedAll(t, id), todo) && Collected(t, id, answers, todo)
        decreases todo
      {
        var k :| k in todo;
        var answer := CommitOne(id, k, t, todo);
        CollectOne(t, id, answers, todo, k);
        answers := answers[k := answer];
        todo := todo - {k};
      }
      HalfwayDone(t, CommittedAll(t, id));
      assert answers == Answers(t, id);
    }

    /** The first answer, in any order, that is not a pass. */
    static method Inspect(answers: map<Key, Answer>) returns (first: CheckOutcome)
      ensures first.Passes() <==> forall k :: k in answers ==> answers[k].outcome.Passes()
      ensures !first.Passes() ==> exists k :: k in answers && answers[k].outcome == first
    {
      var todo := answers.Keys;
      while todo != {}
        invariant todo <= answers.Keys
        invariant forall k :: k in answers && k !in todo ==> answers[k].outcome.Passes()
        decreases todo
      {
        var k :| k in todo;
        if !answers[k].outcome.Passes() { return answers[k].outcome; }
        todo := todo - {k};
      }
      return NothingToCommit;
    }

    static method Summarise(answers: map<Key, Answer>) returns (r: Attempt<Result<(bool, map<Key, int>)>>)
      ensures Reports(answers, r)
    {
      var first := Inspect(answers);
      if first.CheckWait? { return WaitOn(first.on); }
      if first.CheckFailed? { return Ended(Failed(ConsistencyCheckFailed)); }
      var changed := exists k :: k in answers && answers[k].outcome.CommitValue?;
      r := Ended(Success((changed, map k | k in answers :: answers[k].balance)));
    }

    method Conclude(id: TransactionId, answers: map<Key, Answer>) returns (r: Attempt<Result<(bool, map<Key, int>)>>)
      modifies this`notifications
      ensures Reports(answers, r)
      ensures notifications == if r.WaitOn? then old(notifications) + {r.tx} else old(notifications) - {id}
    {
      r := Summarise(answers);
      if r.WaitOn? { GetNotification(r.tx); } else { NotifyAndRemove(id); }
    }

    /** One pass of the commit: every object is committed, then the answers are looked at. */
    method Commit(id: TransactionId) returns (r: Attempt<Result<(bool, map<Key, int>)>>)
      requires Valid()
      modifies objects.Values, this`notifications
      ensures Valid()
      ensures Contents() == CommittedAll(old(Contents()), id)
      ensures Reports(Answers(old(Contents()), id), r)
      ensures notifications == if r.WaitOn? then old(notifications) + {r.tx} else old(notifications) - {id}
    {
      ghost var w := Answers(Contents(), id);
      var answers := CommitAll(id);
      ghost var table := Contents();
      r := Conclude(id, answers);
      assert Reports(w, r) && Contents() == table;
    }

    /** The result of a commit, given every object's answer. */
    static ghost predicate Reports(w: map<Key, Answer>, r: Attempt<Result<(bool, map<Key, int>)>>) {
      && (r.Ended? && r.result.Success? <==> forall k :: k in w ==> w[k].outcome.Passes())
      && (r.Ended? && r.result.Failed? ==>
            r.result.reason == ConsistencyCheckFailed && exists k :: k in w && w[k].outcome.CheckFailed?)
      && (r.WaitOn? ==> exists k :: k in w && w[k].outcome == CheckWait(r.tx))
      && (r.Ended? && r.result.Success? ==>
            && (r.result.value.0 <==> exists k :: k in w && w[k].outcome.CommitValue?)
            && r.result.value.1 == map k | k in w :: w[k].balance)
    }

    method AbortOne(id: TransactionId, k: Key, ghost t: Table, ghost u: Table, ghost todo: set<Key>) returns (reaps: bool)
      requires Valid() && Halfway(t, u, todo) && k in todo && k in objects && u[k] == AfterAbort(t[k], id)
      modifies objects[k]
      ensures Halfway(t, u, todo - {k}) && (reaps <==> Reaped(t[k], id))
    {
      objects[k].Abort(id);
      reaps := objects[k].MayReap(id);
      assert forall l :: l in objects && l != k ==> objects[l] != objects[k];
    }

    method AbortAll(id: TransactionId) returns (reap: set<Key>)
      requires Valid()
      modifies objects.Values
      ensures Contents() == AbortedAll(old(Contents()), id)
      ensures reap <= old(Contents()).Keys
      ensures forall k :: k in old(Contents()) ==> (k in reap <==> Reaped(old(Contents())[k], id))
    {
      ghost var t := Contents();
      ghost var u := AbortedAll(t, id);
      var todo := objects.Keys;
      reap := {};
      while todo != {}
        invariant todo <= objects.Keys && Halfway(t, u, todo)
        invariant reap <= t.Keys - todo && forall k :: k in t && k !in todo ==> (k in reap <==> Reaped(t[k], id))
        decreases todo
      {
        var k :| k in todo;
        var reaps := AbortOne(id, k, t, u, todo);
        if reaps { reap := reap + {k}; }
        todo := todo - {k};
      }
      HalfwayDone(t, u);
    }

    method Reap(reap: set<Key>)
      requires Valid()
      modifies this`objects
      ensures Valid() && objects == old(objects) - reap && Contents() == old(Contents()) - reap
    {
      objects := objects - reap;
    }

    /** Abort every object under the map lock, then drop those that hold nothing. */
    method Abort(id: TransactionId)
      requires Valid()
      modifies this, objects.Values
      ensures Valid() && objects.Values <= old(objects.Values)
      ensures Contents() == Erased(old(Contents()), id, shardId)
      ensures notifications == old(notifications) - {id}
    {
      ghost var t := Contents();
      var reap := AbortAll(id);
      Reap(reap);
      ReapedIsErased(t, id, shardId, reap);
      NotifyAndRemove(id);
    }
  }

  lemma ReapedIsErased(t: Table, id: TransactionId, node: NodeId, reap: set<Key>)
    requires forall k :: k in t ==> k.shard == node && (k in reap <==> Reaped(t[k], id))
    ensures AbortedAll(t, id) - reap == Erased(t, id, node)
  {
  }
}

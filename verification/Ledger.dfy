/**
 * What transactions did (logs), what serial execution means, and how balances decompose into sums
 * of the committed transactions' changes.
 */
module Ledger {
  import opened TransactionIds

  /** An account as held by one shard. */
  datatype Key = Key(shard: NodeId, account: string)

  /**
   * A finished operation of a transaction, with what the client was told. Whether a change found no
   * account when it read, so that it wrote its diff as the balance, is history.
   */
  datatype Op =
    | Look(key: Key, seen: int)
    | Change(key: Key, diff: int, creates: bool)

  type Log = seq<Op>

  /** A committed transaction. */
  datatype Entry = Entry(id: TransactionId, log: Log)

  // ----- the reference: one transaction at a time on a plain map of balances

  datatype Request = Balance(key: Key) | Adjust(key: Key, diff: int)
  datatype Reply = Told(amount: int) | Done

  datatype Outcome = Refused | Ran(balances: map<Key, int>, replies: seq<Reply>)

  function RequestOf(op: Op): Request {
    match op
    case Look(k, _) => Balance(k)
    case Change(k, d, _) => Adjust(k, d)
  }

  function ReplyOf(op: Op): Reply {
    match op
    case Look(_, v) => Told(v)
    case Change(_, _, _) => Done
  }

  function Requests(log: Log): seq<Request> {
    seq(|log|, i requires 0 <= i < |log| => RequestOf(log[i]))
  }

  function Replies(log: Log): seq<Reply> {
    seq(|log|, i requires 0 <= i < |log| => ReplyOf(log[i]))
  }

  /** A balance can only be read once the account exists; only a deposit opens an account. */
  function Perform(b: map<Key, int>, r: Request): Outcome {
    match r
    case Balance(k) => if k in b then Ran(b, [Told(b[k])]) else Refused
    case Adjust(k, d) =>
      if k in b then Ran(b[k := b[k] + d], [Done])
      else if d >= 0 then Ran(b[k := d], [Done])
      else Refused
  }

  function PerformAll(b: map<Key, int>, rs: seq<Request>): Outcome {
    if rs == [] then Ran(b, [])
    else
      match PerformAll(b, rs[..|rs| - 1])
      case Refused => Refused
      case Ran(b1, replies) =>
        match Perform(b1, rs[|rs| - 1])
        case Refused => Refused
        case Ran(b2, reply) => Ran(b2, replies + reply)
  }

  /** A transaction commits only if every balance it leaves behind is valid. */
  function Transact(b: map<Key, int>, rs: seq<Request>): Outcome {
    match PerformAll(b, rs)
    case Refused => Refused
    case Ran(b1, replies) => if forall k :: k in b1 ==> b1[k] >= 0 then Ran(b1, replies) else Refused
  }

  datatype History = Impossible | Final(balances: map<Key, int>)

  /** Run the entries' requests serially; each must be answered exactly as recorded. */
  function Serial(entries: seq<Entry>): History {
    if entries == [] then Final(map[])
    else
      var last := entries[|entries| - 1];
      match Serial(entries[..|entries| - 1])
      case Impossible => Impossible
      case Final(b) =>
        match Transact(b, Requests(last.log))
        case Refused => Impossible
        case Ran(b1, replies) => if replies == Replies(last.log) then Final(b1) else Impossible
  }

  // ----- sums of changes

  function Delta(op: Op, k: Key): int {
    if op.Change? && op.key == k then op.diff else 0
  }

  function Net(log: Log, k: Key): int {
    if log == [] then 0 else Net(log[..|log| - 1], k) + Delta(log[|log| - 1], k)
  }

  ghost predicate Wrote(log: Log, k: Key) {
    exists op :: op in log && op.Change? && op.key == k
  }

  ghost predicate Touched(log: Log, k: Key) {
    exists op :: op in log && op.key == k
  }

  ghost predicate Created(log: Log, k: Key) {
    exists op :: op in log && op.Change? && op.key == k && op.creates
  }

  /** The balance a log leaves on k, when k held base: a create starts from nothing. */
  ghost function Leaves(base: int, log: Log, k: Key): int {
    if Created(log, k) then Net(log, k) else base + Net(log, k)
  }

  lemma NetAppend(log: Log, op: Op, k: Key)
    ensures Net(log + [op], k) == Net(log, k) + Delta(op, k)
    ensures Wrote(log + [op], k) <==> Wrote(log, k) || (op.Change? && op.key == k)
    ensures Touched(log + [op], k) <==> Touched(log, k) || op.key == k
    ensures Created(log + [op], k) <==> Created(log, k) || (op.Change? && op.key == k && op.creates)
  {
  }

  /** An operation that does not change k leaves it as it was. */
  lemma LeavesAppend(base: int, log: Log, op: Op, k: Key)
    requires op.Look? || op.key != k
    ensures Leaves(base, log + [op], k) == Leaves(base, log, k)
    ensures Wrote(log + [op], k) <==> Wrote(log, k)
    ensures Created(log + [op], k) <==> Created(log, k)
  {
    NetAppend(log, op, k);
  }

  lemma {:induction false} NetOfNothing(log: Log, k: Key)
    requires !Wrote(log, k)
    ensures Net(log, k) == 0
  {
    if log != [] {
      var init := log[..|log| - 1];
      assert forall o :: o in init ==> o in log;
      assert log[|log| - 1] in log;
      NetOfNothing(init, k);
    }
  }

  /** Which entries a partial sum counts. */
  datatype Bound = Before(t: TransactionId) | Through(t: TransactionId) | Everyone {
    predicate Has(id: TransactionId) {
      match this
      case Before(t) => id.Lt(t)
      case Through(t) => id.Le(t)
      case Everyone => true
    }
  }

  /** The sum of the entries' changes to k, over the entries within the bound. */
  function Sum(entries: seq<Entry>, k: Key, b: Bound): int {
    if entries == [] then 0
    else (if b.Has(entries[0].id) then Net(entries[0].log, k) else 0) + Sum(entries[1..], k, b)
  }

  /** Some entry within the bound changed k, so the account exists. */
  ghost predicate OpenedBy(entries: seq<Entry>, k: Key, b: Bound) {
    exists e :: e in entries && b.Has(e.id) && Wrote(e.log, k)
  }

  ghost predicate Opened(entries: seq<Entry>, k: Key, t: TransactionId) {
    OpenedBy(entries, k, Before(t))
  }

  ghost predicate Sorted(entries: seq<Entry>) {
    forall i, j :: 0 <= i < j < |entries| ==> entries[i].id.Lt(entries[j].id)
  }

  function Insert(entries: seq<Entry>, e: Entry): seq<Entry> {
    if entries == [] || e.id.Lt(entries[0].id) then [e] + entries
    else [entries[0]] + Insert(entries[1..], e)
  }

  lemma {:induction false} InsertMembers(entries: seq<Entry>, e: Entry, x: Entry)
    ensures x in Insert(entries, e) <==> x in entries || x == e
  {
    if entries == [] || e.id.Lt(entries[0].id) {
    } else {
      assert entries == [entries[0]] + entries[1..];
      InsertMembers(entries[1..], e, x);
    }
  }

  lemma {:induction false} InsertSorted(entries: seq<Entry>, e: Entry)
    requires Sorted(entries)
    requires forall x :: x in entries ==> x.id != e.id
    ensures Sorted(Insert(entries, e))
  {
    if entries == [] || e.id.Lt(entries[0].id) {
    } else {
      var rest := entries[1..];
      assert forall x :: x in rest ==> x in entries;
      InsertSorted(rest, e);
      var r := Insert(rest, e);
      forall i | 0 <= i < |r| ensures entries[0].id.Lt(r[i].id) {
        InsertMembers(rest, e, r[i]);
      }
    }
  }

  /** Two bounds that agree on the writers of k give the same balance. */
  lemma {:induction false} SumAgree(entries: seq<Entry>, k: Key, b: Bound, c: Bound)
    requires forall e :: e in entries && Wrote(e.log, k) ==> (b.Has(e.id) <==> c.Has(e.id))
    ensures Sum(entries, k, b) == Sum(entries, k, c)
  {
    if entries != [] {
      assert entries[0] in entries;
      assert forall e :: e in entries[1..] ==> e in entries;
      if !Wrote(entries[0].log, k) { NetOfNothing(entries[0].log, k); }
      SumAgree(entries[1..], k, b, c);
    }
  }

  lemma {:induction false} SumNone(entries: seq<Entry>, k: Key, b: Bound)
    requires forall e :: e in entries && Wrote(e.log, k) ==> !b.Has(e.id)
    ensures Sum(entries, k, b) == 0
  {
    if entries != [] {
      assert entries[0] in entries;
      assert forall e :: e in entries[1..] ==> e in entries;
      if !Wrote(entries[0].log, k) { NetOfNothing(entries[0].log, k); }
      SumNone(entries[1..], k, b);
    }
  }

  /** Counting a transaction itself adds exactly its own change. */
  lemma {:induction false} SumStep(entries: seq<Entry>, e: Entry, k: Key)
    requires Sorted(entries) && e in entries
    ensures Sum(entries, k, Through(e.id)) == Sum(entries, k, Before(e.id)) + Net(e.log, k)
  {
    var rest := entries[1..];
    if entries[0] == e {
      forall x | x in rest ensures Before(e.id).Has(x.id) <==> Through(e.id).Has(x.id) {
      }
      SumAgree(rest, k, Before(e.id), Through(e.id));
    } else {
      assert e in rest;
      SumStep(rest, e, k);
    }
  }

  // ----- versions: the balances the shards arrive at

  /** The balance of k after the entries within the bound, each leaving its version upon the one before. */
  ghost function VersionFrom(entries: seq<Entry>, k: Key, b: Bound, base: int): int {
    if entries == [] then base
    else VersionFrom(entries[1..], k, b, if b.Has(entries[0].id) then Leaves(base, entries[0].log, k) else base)
  }

  ghost function Version(entries: seq<Entry>, k: Key, b: Bound): int {
    VersionFrom(entries, k, b, 0)
  }

  lemma UnwrittenLeaves(base: int, log: Log, k: Key)
    requires !Wrote(log, k)
    ensures Leaves(base, log, k) == base
  {
    NetOfNothing(log, k);
  }

  lemma {:induction false} VersionAgree(entries: seq<Entry>, k: Key, b: Bound, c: Bound, base: int)
    requires forall e :: e in entries && Wrote(e.log, k) ==> (b.Has(e.id) <==> c.Has(e.id))
    ensures VersionFrom(entries, k, b, base) == VersionFrom(entries, k, c, base)
  {
    if entries != [] {
      assert entries[0] in entries;
      assert forall e :: e in entries[1..] ==> e in entries;
      if !Wrote(entries[0].log, k) { UnwrittenLeaves(base, entries[0].log, k); }
      VersionAgree(entries[1..], k, b, c, if b.Has(entries[0].id) then Leaves(base, entries[0].log, k) else base);
    }
  }

  lemma {:induction false} VersionNone(entries: seq<Entry>, k: Key, b: Bound, base: int)
    requires forall e :: e in entries && Wrote(e.log, k) ==> !b.Has(e.id)
    ensures VersionFrom(entries, k, b, base) == base
  {
    if entries != [] {
      assert entries[0] in entries;
      assert forall e :: e in entries[1..] ==> e in entries;
      if !Wrote(entries[0].log, k) { UnwrittenLeaves(base, entries[0].log, k); }
      VersionNone(entries[1..], k, b, base);
    }
  }

  /** An entry outside the bound, or one that leaves k alone, does not matter. */
  lemma {:induction false} VersionInsert(entries: seq<Entry>, e: Entry, k: Key, b: Bound, base: int)
    requires b.Has(e.id) ==> !Wrote(e.log, k)
    ensures VersionFrom(Insert(entries, e), k, b, base) == VersionFrom(entries, k, b, base)
  {
    if !Wrote(e.log, k) { UnwrittenLeaves(base, e.log, k); }
    if entries == [] || e.id.Lt(entries[0].id) {
      assert ([e] + entries)[1..] == entries;
    } else {
      assert ([entries[0]] + Insert(entries[1..], e))[1..] == Insert(entries[1..], e);
      VersionInsert(entries[1..], e, k, b, if b.Has(entries[0].id) then Leaves(base, entries[0].log, k) else base);
    }
  }

  lemma {:induction false} VersionStep(entries: seq<Entry>, e: Entry, k: Key, base: int)
    requires Sorted(entries) && e in entries
    ensures VersionFrom(entries, k, Through(e.id), base) == Leaves(VersionFrom(entries, k, Before(e.id), base), e.log, k)
  {
    var rest := entries[1..];
    if entries[0] == e {
      VersionNone(rest, k, Before(e.id), base);
      VersionNone(rest, k, Through(e.id), Leaves(base, e.log, k));
    } else {
      assert e in rest;
      VersionStep(rest, e, k, Leaves(base, entries[0].log, k));
    }
  }

  /** Every entry leaves a valid balance on the accounts it changed. */
  ghost predicate SolventFrom(entries: seq<Entry>, k: Key, base: int) {
    forall e :: e in entries && Wrote(e.log, k) ==> VersionFrom(entries, k, Through(e.id), base) >= 0
  }

  /** Every creator of k within the bound started from a total of zero. */
  ghost predicate CreatesFromZero(entries: seq<Entry>, k: Key, b: Bound, base: int) {
    forall e :: e in entries && b.Has(e.id) && Created(e.log, k) ==> base + Sum(entries, k, Before(e.id)) == 0
  }

  lemma SolventTail(entries: seq<Entry>, k: Key, base: int)
    requires Sorted(entries) && entries != [] && SolventFrom(entries, k, base) && base >= 0
    ensures Sorted(entries[1..]) && Leaves(base, entries[0].log, k) >= 0
    ensures SolventFrom(entries[1..], k, Leaves(base, entries[0].log, k))
  {
    var head, rest := entries[0], entries[1..];
    assert head in entries && forall e :: e in rest ==> e in entries;
    if Wrote(head.log, k) {
      VersionNone(rest, k, Through(head.id), Leaves(base, head.log, k));
    } else {
      UnwrittenLeaves(base, head.log, k);
    }
    forall e | e in rest && Wrote(e.log, k) ensures VersionFrom(rest, k, Through(e.id), Leaves(base, head.log, k)) >= 0 {
      assert Through(e.id).Has(head.id);
    }
  }

  lemma CreatesTail(entries: seq<Entry>, k: Key, b: Bound, base: int)
    requires Sorted(entries) && entries != [] && b.Has(entries[0].id)
    ensures CreatesFromZero(entries, k, b, base) <==>
            (Created(entries[0].log, k) ==> base == 0) && CreatesFromZero(entries[1..], k, b, base + Net(entries[0].log, k))
  {
    var head, rest := entries[0], entries[1..];
    assert entries == [head] + rest;
    SumNone(entries, k, Before(head.id));
    forall e | e in rest
      ensures base + Sum(entries, k, Before(e.id)) == base + Net(head.log, k) + Sum(rest, k, Before(e.id))
    {
      assert Before(e.id).Has(head.id);
    }
  }

  /**
   * Conservation: the balance the shards arrive at never exceeds the sum of all changes, and equals
   * it exactly when every creator started from a total of zero.
   */
  lemma {:induction false} VersionAgainstSum(entries: seq<Entry>, k: Key, b: Bound, base: int)
    requires Sorted(entries) && SolventFrom(entries, k, base) && base >= 0
    ensures 0 <= VersionFrom(entries, k, b, base) <= base + Sum(entries, k, b)
    ensures VersionFrom(entries, k, b, base) == base + Sum(entries, k, b) <==> CreatesFromZero(entries, k, b, base)
  {
    if entries != [] {
      var head, rest := entries[0], entries[1..];
      if b.Has(head.id) {
        SolventTail(entries, k, base);
        CreatesTail(entries, k, b, base);
        VersionAgainstSum(rest, k, b, Leaves(base, head.log, k));
      } else {
        assert forall e :: e in entries ==> !b.Has(e.id);
        VersionNone(entries, k, b, base);
        SumNone(entries, k, b);
      }
    }
  }

  /** Nothing below t is missing from what t's log makes of k: neither t nor a creator below it dropped anything. */
  ghost predicate CountsAll(entries: seq<Entry>, t: TransactionId, log: Log, k: Key) {
    if Created(log, k) then Sum(entries, k, Before(t)) == 0
    else forall e :: e in entries && e.id.Lt(t) && Created(e.log, k) ==> Sum(entries, k, Before(e.id)) == 0
  }

  /** What a log makes of k never exceeds the sum of the changes below it and its own, and equals it exactly when all count. */
  lemma LeavesAgainstSum(entries: seq<Entry>, t: TransactionId, log: Log, k: Key)
    requires Sorted(entries) && SolventFrom(entries, k, 0)
    ensures var made, all := Leaves(Version(entries, k, Before(t)), log, k), Sum(entries, k, Before(t)) + Net(log, k);
            made <= all && (made == all <==> CountsAll(entries, t, log, k))
  {
    VersionAgainstSum(entries, k, Before(t), 0);
    assert CreatesFromZero(entries, k, Before(t), 0) <==>
           forall e :: e in entries && e.id.Lt(t) && Created(e.log, k) ==> Sum(entries, k, Before(e.id)) == 0;
  }

  // ----- the answers a transaction got, against the committed transactions below it

  ghost predicate Known(entries: seq<Entry>, t: TransactionId, prefix: Log, k: Key) {
    Opened(entries, k, t) || Wrote(prefix, k)
  }

  /** op, issued after prefix, was answered from the version the older committed transactions left and prefix. */
  ghost predicate Answered(entries: seq<Entry>, t: TransactionId, prefix: Log, op: Op) {
    match op
    case Look(k, v) => Known(entries, t, prefix, k) && v == Leaves(Version(entries, k, Before(t)), prefix, k)
    case Change(k, _, creates) => if creates then !Touched(prefix, k) else Known(entries, t, prefix, k)
  }

  ghost predicate Faithful(entries: seq<Entry>, t: TransactionId, log: Log) {
    log != [] ==>
      var n := |log| - 1;
      Faithful(entries, t, log[..n]) && Answered(entries, t, log[..n], log[n])
  }

  lemma FaithfulAppend(entries: seq<Entry>, t: TransactionId, log: Log, op: Op)
    requires Faithful(entries, t, log) && Answered(entries, t, log, op)
    ensures Faithful(entries, t, log + [op])
  {
    assert (log + [op])[..|log|] == log;
  }

  lemma {:induction false} AnsweredAt(entries: seq<Entry>, t: TransactionId, log: Log, i: nat)
    requires Faithful(entries, t, log) && i < |log|
    ensures Answered(entries, t, log[..i], log[i])
  {
    var n := |log| - 1;
    if i < n {
      AnsweredAt(entries, t, log[..n], i);
      assert log[..n][..i] == log[..i];
    }
  }

  /** A newly committed transaction does not disturb a log that read none of the accounts it wrote. */
  lemma {:induction false} FaithfulInsert(entries: seq<Entry>, e: Entry, t: TransactionId, log: Log)
    requires Faithful(entries, t, log)
    requires forall k :: e.id.Lt(t) && Touched(log, k) && !Created(log, k) ==> !Wrote(e.log, k)
    ensures Faithful(Insert(entries, e), t, log)
  {
    if log != [] {
      var n := |log| - 1;
      var prefix, op := log[..n], log[n];
      assert log == prefix + [op];
      forall k ensures Touched(log, k) <==> Touched(prefix, k) || k == op.key
        ensures Created(log, k) <==> Created(prefix, k) || (op.Change? && op.key == k && op.creates)
      {
        NetAppend(prefix, op, k);
      }
      FaithfulInsert(entries, e, t, prefix);
      OpenedInsert(entries, e, op.key, t);
      if op.Look? && !Created(prefix, op.key) {
        VersionInsert(entries, e, op.key, Before(t), 0);
      }
    }
  }

  lemma OpenedInsert(entries: seq<Entry>, e: Entry, k: Key, t: TransactionId)
    ensures Opened(entries, k, t) ==> Opened(Insert(entries, e), k, t)
  {
    if Opened(entries, k, t) {
      var x :| x in entries && Before(t).Has(x.id) && Wrote(x.log, k);
      InsertMembers(entries, e, x);
    }
  }
}

/**
 * Exactly which lists of committed transactions are serial histories: first in terms of the answers
 * they got, then, for lists the shards can produce, in terms of the creates they contain.
 */
module Histories {
  import opened TransactionIds
  import opened Ledger

  /** op, issued after prefix, was answered as a serial run of the older committed transactions and prefix answers it. */
  ghost predicate Expected(entries: seq<Entry>, t: TransactionId, prefix: Log, op: Op) {
    match op
    case Look(k, v) => Known(entries, t, prefix, k) && v == Sum(entries, k, Before(t)) + Net(prefix, k)
    case Change(k, d, _) => Known(entries, t, prefix, k) || d >= 0
  }

  ghost predicate AllExpected(entries: seq<Entry>, t: TransactionId, log: Log) {
    forall i :: 0 <= i < |log| ==> Expected(entries, t, log[..i], log[i])
  }

  /** The entry's answers and the balances it leaves are those of the serial run. */
  ghost predicate Fits(entries: seq<Entry>, e: Entry) {
    AllExpected(entries, e.id, e.log)
    && forall k :: Wrote(e.log, k) ==> Sum(entries, k, Before(e.id)) + Net(e.log, k) >= 0
  }

  /** Account k stands in the plain map as the entries within the bound leave it. */
  ghost predicate TotalAt(b: map<Key, int>, entries: seq<Entry>, bound: Bound, k: Key) {
    (k in b <==> OpenedBy(entries, k, bound)) && (k in b ==> b[k] == Sum(entries, k, bound))
  }

  ghost predicate Totals(b: map<Key, int>, entries: seq<Entry>, bound: Bound) {
    forall k :: TotalAt(b, entries, bound, k)
  }

  /** Account k after the entries below t and then the given part of t's own log. */
  ghost predicate MidwayAt(b: map<Key, int>, entries: seq<Entry>, t: TransactionId, log: Log, k: Key) {
    (k in b <==> Known(entries, t, log, k)) && (k in b ==> b[k] == Sum(entries, k, Before(t)) + Net(log, k))
  }

  ghost predicate Midway(b: map<Key, int>, entries: seq<Entry>, t: TransactionId, log: Log) {
    forall k :: MidwayAt(b, entries, t, log, k)
  }

  lemma PerformMore(b: map<Key, int>, log: Log, op: Op)
    ensures var r := PerformAll(b, Requests(log));
            PerformAll(b, Requests(log + [op])) ==
              if r.Refused? || Perform(r.balances, RequestOf(op)).Refused? then Refused
              else Ran(Perform(r.balances, RequestOf(op)).balances, r.replies + Perform(r.balances, RequestOf(op)).replies)
    ensures Replies(log + [op]) == Replies(log) + [ReplyOf(op)]
  {
    var rs := Requests(log + [op]);
    assert rs[..|log|] == Requests(log) && rs[|log|] == RequestOf(op);
  }

  lemma AllExpectedMore(entries: seq<Entry>, t: TransactionId, log: Log, op: Op)
    ensures AllExpected(entries, t, log + [op]) <==> AllExpected(entries, t, log) && Expected(entries, t, log, op)
  {
    var all := log + [op];
    assert all[..|log|] == log && all[|log|] == op;
    assert forall i :: 0 <= i < |log| ==> all[..i] == log[..i] && all[i] == log[i];
  }

  /** One more reply matches exactly when the earlier ones do and it does. */
  lemma RepliesMore(got: seq<Reply>, last: seq<Reply>, want: seq<Reply>, reply: Reply)
    requires |last| == 1
    ensures got + last == want + [reply] <==> got == want && last == [reply]
  {
    if got + last == want + [reply] {
      assert got == (got + last)[..|got|] && last == (got + last)[|got|..];
    }
  }

  /** The log's replay is possible with its own answers exactly when they are as expected. */
  ghost predicate ReplaysRight(b: map<Key, int>, entries: seq<Entry>, t: TransactionId, log: Log) {
    var r := PerformAll(b, Requests(log));
    && (r.Ran? && r.replies == Replies(log) <==> AllExpected(entries, t, log))
    && (AllExpected(entries, t, log) ==> Midway(r.balances, entries, t, log))
  }

  lemma ReplaysMore(b: map<Key, int>, entries: seq<Entry>, t: TransactionId, log: Log, op: Op)
    requires ReplaysRight(b, entries, t, log)
    ensures ReplaysRight(b, entries, t, log + [op])
  {
    var r := PerformAll(b, Requests(log));
    PerformMore(b, log, op);
    AllExpectedMore(entries, t, log, op);
    if r.Ran? {
      var last := Perform(r.balances, RequestOf(op));
      if last.Ran? { RepliesMore(r.replies, last.replies, Replies(log), ReplyOf(op)); }
      if AllExpected(entries, t, log) { MidwayStep(r.balances, entries, t, log, op); }
    }
  }

  /** On a map that stands as the older entries left it, a log replays with its own answers exactly when they are as expected. */
  lemma {:induction false} Replays(b: map<Key, int>, entries: seq<Entry>, t: TransactionId, log: Log)
    requires Totals(b, entries, Before(t))
    ensures ReplaysRight(b, entries, t, log)
  {
    if log == [] {
      assert Requests(log) == [];
      forall k ensures MidwayAt(b, entries, t, log, k) {
        assert TotalAt(b, entries, Before(t), k);
      }
    } else {
      var n := |log| - 1;
      Replays(b, entries, t, log[..n]);
      ReplaysMore(b, entries, t, log[..n], log[n]);
      assert log == log[..n] + [log[n]];
    }
  }

  lemma MidwayStep(b1: map<Key, int>, entries: seq<Entry>, t: TransactionId, prefix: Log, op: Op)
    requires Midway(b1, entries, t, prefix)
    ensures var r := Perform(b1, RequestOf(op));
            && (r.Ran? && r.replies == [ReplyOf(op)] <==> Expected(entries, t, prefix, op))
            && (Expected(entries, t, prefix, op) ==> Midway(r.balances, entries, t, prefix + [op]))
  {
    assert MidwayAt(b1, entries, t, prefix, op.key);
    if Expected(entries, t, prefix, op) {
      var b2 := Perform(b1, RequestOf(op)).balances;
      forall k ensures MidwayAt(b2, entries, t, prefix + [op], k) {
        assert MidwayAt(b1, entries, t, prefix, k);
        NetAppend(prefix, op, k);
        if !Opened(entries, k, t) { SumNone(entries, k, Before(t)); }
        if !Wrote(prefix, k) { NetOfNothing(prefix, k); }
      }
    }
  }

  lemma TotalsAgree(b: map<Key, int>, entries: seq<Entry>, c: Bound, d: Bound)
    requires Totals(b, entries, c)
    requires forall e :: e in entries ==> (c.Has(e.id) <==> d.Has(e.id))
    ensures Totals(b, entries, d)
  {
    forall k ensures TotalAt(b, entries, d, k) {
      assert TotalAt(b, entries, c, k);
      SumAgree(entries, k, c, d);
    }
  }

  /** The bound reached by running the first n entries. */
  ghost function Reached(entries: seq<Entry>, n: nat): Bound
    requires n <= |entries|
  {
    if n == |entries| then Everyone else Before(entries[n].id)
  }

  ghost predicate NonNegative(b: map<Key, int>) {
    forall k :: k in b ==> b[k] >= 0
  }

  lemma EntryRuns(b: map<Key, int>, entries: seq<Entry>, n: nat)
    requires Sorted(entries) && n < |entries|
    requires Totals(b, entries, Before(entries[n].id)) && NonNegative(b)
    ensures var e, r := entries[n], Transact(b, Requests(entries[n].log));
            && (r.Ran? && r.replies == Replies(e.log) <==> Fits(entries, e))
            && (Fits(entries, e) ==> Totals(r.balances, entries, Reached(entries, n + 1)) && NonNegative(r.balances))
  {
    var e := entries[n];
    Replays(b, entries, e.id, e.log);
    if AllExpected(entries, e.id, e.log) {
      var b1 := PerformAll(b, Requests(e.log)).balances;
      EntryTotals(b, b1, entries, e);
      TotalsAgree(b1, entries, Through(e.id), Reached(entries, n + 1));
    }
  }

  lemma EntryTotals(b: map<Key, int>, b1: map<Key, int>, entries: seq<Entry>, e: Entry)
    requires Sorted(entries) && e in entries && Totals(b, entries, Before(e.id)) && NonNegative(b)
    requires Midway(b1, entries, e.id, e.log)
    ensures Totals(b1, entries, Through(e.id))
    ensures NonNegative(b1) <==> forall k :: Wrote(e.log, k) ==> Sum(entries, k, Before(e.id)) + Net(e.log, k) >= 0
  {
    forall k ensures TotalAt(b1, entries, Through(e.id), k)
      ensures Wrote(e.log, k) ==> k in b1 && b1[k] == Sum(entries, k, Before(e.id)) + Net(e.log, k)
      ensures k in b1 && !Wrote(e.log, k) ==> b1[k] >= 0
    {
      assert MidwayAt(b1, entries, e.id, e.log, k) && TotalAt(b, entries, Before(e.id), k);
      SumStep(entries, e, k);
      OpenedStep(entries, e, k);
      if !Wrote(e.log, k) { NetOfNothing(e.log, k); }
    }
  }

  lemma OpenedStep(entries: seq<Entry>, e: Entry, k: Key)
    requires Sorted(entries) && e in entries
    ensures OpenedBy(entries, k, Through(e.id)) <==> Opened(entries, k, e.id) || Wrote(e.log, k)
  {
  }

  lemma {:induction false} SerialPrefix(entries: seq<Entry>, n: nat)
    requires Sorted(entries) && n <= |entries|
    ensures var r := Serial(entries[..n]);
            && (r.Final? <==> forall i :: 0 <= i < n ==> Fits(entries, entries[i]))
            && (r.Final? ==> Totals(r.balances, entries, Reached(entries, n)) && NonNegative(r.balances))
  {
    if n == 0 {
      assert entries[..0] == [];
      var empty: map<Key, int> := map[];
      forall k ensures TotalAt(empty, entries, Reached(entries, 0), k) {
      }
    } else {
      SerialPrefix(entries, n - 1);
      assert entries[..n][..n - 1] == entries[..n - 1];
      if Serial(entries[..n - 1]).Final? {
        EntryRuns(Serial(entries[..n - 1]).balances, entries, n - 1);
      }
    }
  }

  /**
   * A sorted list of transactions is a serial history exactly when every entry got the answers, and
   * left the balances, that the sums of the changes below it call for; the plain map then ends with
   * the summed balances.
   */
  lemma SerialHistory(entries: seq<Entry>)
    requires Sorted(entries)
    ensures Serial(entries).Final? <==> forall e :: e in entries ==> Fits(entries, e)
    ensures Serial(entries).Final? ==> Totals(Serial(entries).balances, entries, Everyone)
  {
    SerialPrefix(entries, |entries|);
    assert entries[..|entries|] == entries;
  }

  // ----- the lists the shards produce

  /** In id order, answered from the versions below, and never leaving an invalid balance. */
  ghost predicate Genuine(entries: seq<Entry>) {
    && Sorted(entries)
    && (forall e :: e in entries ==> Faithful(entries, e.id, e.log))
    && (forall k :: SolventFrom(entries, k, 0))
  }

  /** A create of t loses nothing that was there, and opens an account only with a valid balance. */
  ghost predicate CreateFits(entries: seq<Entry>, t: TransactionId, op: Op) {
    Sum(entries, op.key, Before(t)) == 0 && (Opened(entries, op.key, t) || (op.Change? && op.diff >= 0))
  }

  ghost predicate CreatesFit(entries: seq<Entry>) {
    forall e, op :: e in entries && op in e.log && op.Change? && op.creates ==> CreateFits(entries, e.id, op)
  }

  /** Account k stands in the map with the version the shards arrive at. */
  ghost predicate VersionAt(b: map<Key, int>, entries: seq<Entry>, k: Key) {
    (k in b <==> OpenedBy(entries, k, Everyone)) && (k in b ==> b[k] == Version(entries, k, Everyone))
  }

  lemma FitFromZero(entries: seq<Entry>, k: Key, b: Bound)
    requires CreatesFit(entries)
    ensures CreatesFromZero(entries, k, b, 0)
  {
    forall e | e in entries && b.Has(e.id) && Created(e.log, k) ensures Sum(entries, k, Before(e.id)) == 0 {
      var op :| op in e.log && op.Change? && op.key == k && op.creates;
      assert CreateFits(entries, e.id, op);
    }
  }

  /** With fitting creates the versions are the sums. */
  lemma FitVersion(entries: seq<Entry>, k: Key, b: Bound)
    requires Genuine(entries) && CreatesFit(entries)
    ensures Version(entries, k, b) == Sum(entries, k, b)
  {
    FitFromZero(entries, k, b);
    VersionAgainstSum(entries, k, b, 0);
  }

  lemma FitAnswer(entries: seq<Entry>, e: Entry, i: nat)
    requires Genuine(entries) && CreatesFit(entries) && e in entries && i < |e.log|
    ensures Expected(entries, e.id, e.log[..i], e.log[i])
  {
    var prefix, op := e.log[..i], e.log[i];
    AnsweredAt(entries, e.id, e.log, i);
    FitVersion(entries, op.key, Before(e.id));
    if op.Change? && op.creates { assert CreateFits(entries, e.id, op); }
    if Created(prefix, op.key) {
      assert Created(e.log, op.key);
      FitFromZero(entries, op.key, Everyone);
    }
  }

  lemma FitEntry(entries: seq<Entry>, e: Entry)
    requires Genuine(entries) && CreatesFit(entries) && e in entries
    ensures Fits(entries, e)
  {
    forall i | 0 <= i < |e.log| ensures Expected(entries, e.id, e.log[..i], e.log[i]) { FitAnswer(entries, e, i); }
    forall k | Wrote(e.log, k) ensures Sum(entries, k, Before(e.id)) + Net(e.log, k) >= 0 {
      assert SolventFrom(entries, k, 0);
      FitVersion(entries, k, Through(e.id));
      SumStep(entries, e, k);
    }
  }

  /** If the serial run ends with the shards' balances, every create fits. */
  lemma SerialCreateFits(entries: seq<Entry>, b: map<Key, int>, e: Entry, op: Op)
    requires Genuine(entries) && (forall k :: VersionAt(b, entries, k)) && Serial(entries) == Final(b)
    requires e in entries && op in e.log && op.Change? && op.creates
    ensures CreateFits(entries, e.id, op)
  {
    var k := op.key;
    SerialHistory(entries);
    assert Wrote(e.log, k) && Created(e.log, k) && Everyone.Has(e.id);
    assert VersionAt(b, entries, k) && TotalAt(b, entries, Everyone, k) && SolventFrom(entries, k, 0);
    VersionAgainstSum(entries, k, Everyone, 0);
    var i :| 0 <= i < |e.log| && e.log[i] == op;
    AnsweredAt(entries, e.id, e.log, i);
    assert Fits(entries, e) && Expected(entries, e.id, e.log[..i], e.log[i]);
    UntouchedUnwritten(e.log[..i], k);
  }

  lemma UntouchedUnwritten(log: Log, k: Key)
    requires !Touched(log, k)
    ensures !Wrote(log, k)
  {
  }

  /** The committed transactions replay serially, answers and balances included, exactly when every create fits. */
  lemma SerialIffCreatesFit(entries: seq<Entry>, b: map<Key, int>)
    requires Genuine(entries) && forall k :: VersionAt(b, entries, k)
    ensures Serial(entries) == Final(b) <==> CreatesFit(entries)
  {
    if CreatesFit(entries) {
      forall e | e in entries ensures Fits(entries, e) { FitEntry(entries, e); }
      SerialHistory(entries);
      var c := Serial(entries).balances;
      forall k ensures (k in b <==> k in c) && (k in b ==> b[k] == c[k]) {
        assert VersionAt(b, entries, k) && TotalAt(c, entries, Everyone, k);
        FitVersion(entries, k, Everyone);
      }
      assert b == c;
    }
    if Serial(entries) == Final(b) {
      forall e, op | e in entries && op in e.log && op.Change? && op.creates ensures CreateFits(entries, e.id, op) {
        SerialCreateFits(entries, b, e, op);
      }
    }
  }
}

/** The imperative parts of a node: the server's client table and the coordinator's abort loop. */
module Coordinator {
  import opened TransactionIds
  import S = Store
  import opened Protocol

  class Server {
    const nodeId: NodeId
    const peers: set<NodeId>
    var clients: map<TransactionId, Handle>

    constructor (nodeId: NodeId, nodes: set<NodeId>)
      ensures this.nodeId == nodeId && peers == nodes - {nodeId} && clients == map[]
    {
      this.nodeId, this.peers := nodeId, nodes - {nodeId};
      clients := map[];
    }

    method Accept(tx: TransactionId)
      modifies this
      ensures clients == old(clients)[tx := NEW_HANDLE]
    {
      clients := clients[tx := NEW_HANDLE];
    }

    /** Finished: the client's entry is reaped. */
    method Reap(tx: TransactionId)
      modifies this
      ensures clients == old(clients) - {tx}
    {
      clients := clients - {tx};
    }

    /** A vote arrives; verdict is what the client is told, and a CommitOk is followed by a DoCommit broadcast. */
    method HandleTwoPhaseCommit(tx: TransactionId, from: NodeId, status: CommitStatus) returns (verdict: Option<ClientResponse>, doCommit: bool)
      requires tx in clients
      modifies this
      ensures clients == old(clients)[tx := CountVote(old(clients)[tx], from, status)]
      ensures verdict == Tally(clients[tx], |peers|)
      ensures doCommit <==> verdict == S.Some(CommitOk)
      ensures verdict.Some? <==> old(clients)[tx].count + 1 == |peers|
      ensures verdict == S.Some(CommitOk) ==> status == ReadyToCommit && old(clients)[tx].status == ReadyToCommit
    {
      var count, kept := clients[tx].count + 1, clients[tx].status;
      if status == CannotCommit { kept := status; }
      clients := clients[tx := Handle(count, kept, clients[tx].voters + {from})];
      verdict, doCommit := S.None, false;
      if count == |peers| {
        match kept
        case ReadyToCommit => verdict, doCommit := S.Some(CommitOk), true;
        case CannotCommit => verdict := S.Some(Aborted);
      }
    }
  }

  /** A vote as it reaches the server. */
  datatype Vote = Vote(from: NodeId, status: CommitStatus)

  ghost function Tallied(votes: seq<Vote>): Handle {
    if votes == [] then NEW_HANDLE
    else CountVote(Tallied(votes[..|votes| - 1]), votes[|votes| - 1].from, votes[|votes| - 1].status)
  }

  ghost predicate NobodyTwice(votes: seq<Vote>) {
    forall i, j :: 0 <= i < j < |votes| ==> votes[i].from != votes[j].from
  }

  ghost predicate AllReady(votes: seq<Vote>) {
    forall v :: v in votes ==> v.status == ReadyToCommit
  }

  ghost function Senders(votes: seq<Vote>): set<NodeId> {
    set v | v in votes :: v.from
  }

  lemma OneMoreVote(init: seq<Vote>, last: Vote)
    requires NobodyTwice(init + [last])
    ensures NobodyTwice(init) && Senders(init + [last]) == Senders(init) + {last.from} && last.from !in Senders(init)
    ensures AllReady(init + [last]) <==> AllReady(init) && last.status == ReadyToCommit
  {
    var votes := init + [last];
    assert forall i :: 0 <= i < |init| ==> votes[i] == init[i];
    assert votes[|init|] == last && last in votes;
    assert forall v :: v in votes <==> v in init || v == last;
  }

  lemma {:induction false} TallyMeans(votes: seq<Vote>)
    requires NobodyTwice(votes)
    ensures Tallied(votes).count == |Senders(votes)| && Tallied(votes).voters == Senders(votes)
    ensures Tallied(votes).status == ReadyToCommit <==> AllReady(votes)
  {
    if votes != [] {
      var init, last := votes[..|votes| - 1], votes[|votes| - 1];
      assert votes == init + [last];
      OneMoreVote(init, last);
      TallyMeans(init);
    }
  }

  /**
   * Counting replies is counting senders: if no peer votes twice, the client is told CommitOk after
   * a sequence of votes exactly when they are one Ready vote from every peer.
   */
  lemma CountIsQuorum(votes: seq<Vote>, peers: set<NodeId>)
    requires NobodyTwice(votes) && Senders(votes) <= peers
    ensures Tally(Tallied(votes), |peers|) == S.Some(CommitOk) <==> AllReady(votes) && Senders(votes) == peers
    ensures Tally(Tallied(votes), |peers|) == S.Some(Aborted) <==> !AllReady(votes) && Senders(votes) == peers
  {
    TallyMeans(votes);
    assert |peers - Senders(votes)| == |peers| - |Senders(votes)|;
  }

  ghost function AbortedIn(responses: seq<ClientResponse>): nat {
    if responses == [] then 0
    else AbortedIn(responses[..|responses| - 1]) + if responses[|responses| - 1] == Aborted then 1 else 0
  }

  /** The counting loop of an abort over the responses that arrive; it returns once all n shards are accounted for. */
  method CountAborts(responses: seq<ClientResponse>, n: nat) returns (used: nat, errors: nat, done: bool)
    requires n >= 1
    ensures used <= |responses| && used == AbortedIn(responses[..used]) + errors
    ensures done <==> AbortedIn(responses[..used]) == n - 1
    ensures !done ==> used == |responses| && AbortedIn(responses) < n - 1
    ensures done && used > 0 ==> responses[used - 1] == Aborted
    ensures (forall i :: 0 <= i < |responses| ==> responses[i] == Aborted) ==> errors == 0 && (done <==> |responses| >= n - 1)
  {
    var abortCount := 1;
    used, errors := 0, 0;
    while abortCount < n && used < |responses|
      invariant used <= |responses| && 1 <= abortCount <= n
      invariant abortCount == 1 + AbortedIn(responses[..used]) && used == AbortedIn(responses[..used]) + errors
      invariant abortCount == n && used > 0 ==> responses[used - 1] == Aborted
      invariant (forall i :: 0 <= i < |responses| ==> responses[i] == Aborted) ==> errors == 0
    {
      assert responses[..used + 1][..used] == responses[..used];
      if responses[used] == Aborted {
        abortCount := abortCount + 1;
      } else {
        errors := errors + 1;
      }
      used := used + 1;
    }
    done := abortCount == n;
    assert used == |responses| ==> responses[..used] == responses;
  }
}

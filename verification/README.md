# A model of the sharded bank store, and proofs about it

The repository is a bank whose accounts are spread over shards. Each account is an object under
timestamp-ordering concurrency control (committed value and timestamp, read timestamps, tentative
writes); a transaction is coordinated by the node its client connected to, and commits by a two-phase
commit across all shards. This project models that system in Dafny and proves what it guarantees.

## How the model is built

The layers, bottom up:

- `Ids.dfy` (module `TransactionIds`): transaction ids, their order, and the id generator as a class
  over an arbitrary sequence of clock readings.
- `Objects.dfy`: the read, write, check, commit, abort and reap rules of one object as functions on
  its state, and what holds after **any** sequence of calls, blind writes included.
  `TimestampedObject.dfy` has the class that updates an object in place, each method proved equal to
  its rule.
- `Tables.dfy`: a shard's objects as a table, creation and erasure. `Shard.dfy` has the class with the
  map of objects and of notifications; its loops are proved against the table functions.
- `Ledger.dfy`: what transactions did, the reference, and balances. The reference is a plain map from
  account to balance and an interpreter that runs whole transactions one at a time on it; nothing in it
  knows about timestamps, shards or messages. Balances are described in two ways: as sums of changes,
  and as the versions that transactions leave one upon the other, where a create starts from nothing.
- `Histories.dfy`: exactly which lists of committed transactions are serial histories.
- `Store.dfy`: the data of the whole cluster as a state machine. An event is one critical section: a
  read of one object, a write of one object, a check of one object, a commit of one object, the abort
  of one shard, or a step of a transaction's status. Events interleave arbitrarily. `Isolation.dfy` is
  the invariant of the data in every run, `Clean.dfy` what holds besides at an account while no event is
  a blind create there, and `Guarantees.dfy` derives the results from both.
- `Protocol.dfy`: the cluster as a step relation, for any set of at least two nodes and any number of
  transactions: the client task, the server loop of each node, and the jobs spawned for remote
  requests. Everything in flight for a transaction (channel items, packets, spawned jobs) is in one
  unordered bag, so every delivery order is covered, including the ones TCP would rule out. A balance
  change is a read step and a later, separately interleaved write step. Commit checks and installs
  visit the objects of a shard one at a time. Every change to the data is a `Store` event.
- `Coordination.dfy` is the protocol's invariant and `CoordinationSteps.dfy` proves that every step
  keeps it. `Cluster.dfy` states the results on the protocol over whole runs, `Transactions.dfy` those
  on the data, and `Coordinator.dfy` has the server's client table and the abort loop in imperative form.
- `Progress.dfy`: no session is ever stuck. `Deliveries.dfy`: what each step sends on, in every run.
  `Answers.dfy`: how each read and write step ends, by the versions and the ledger. `Causes.dfy`: every
  error a client is told and every wait goes back to its cause in the run.
- `Scenarios.dfy` and `Witness.dfy`: concrete runs of the cluster that show what blind creates can do.

Some fields are history that no step decides on: `voters`, `acked`, `passed`, `asked`, `replies`, the
sender of an `Incoming` response, `ledger` (the committed transactions in id order), `submitted`, and
the flag on a logged change that says it was a create. The field
`fault` is set by the branches the source treats as fatal (an `unwrap` on a missing client, "did not
receive an abort", "waiting for CommitOk or Aborted", a failed commit after `DoCommit`); the proofs
show that it is never set. A run does not assume that the events of its steps make sense on the data
(`Protocol.Follows`): that is proved.

### Creates

A balance change that finds no account releases every lock before it creates the account, and then
writes its diff as the balance. The model keeps these two steps apart, as the code does. So two changes
can both find nothing and both write. A write is a *blind create* when its read found no account and the
account exists by the time it writes. What follows from that is stated exactly:

- Agreement, completeness of commit and abort, absence of faults and stray messages, deadlock freedom,
  the ledger, what clients asked and were told, the arithmetic bound, erasure by aborts and all results
  on call sequences hold in **every** run.
- In every state of every run, the committed transactions replay serially, with the same answers and
  balances, **if and only if** every committed create *fits*: the committed changes of the account by
  older transactions sum to zero, and the create is a deposit or the account was opened by an older
  committed transaction (`Transactions.ClusterSerialisable`, `Transactions.FinalBalances`).
- In every state of every run a committed balance is at most the sum of the installed changes, and
  equal to it **if and only if** every installed creator of the account started from a sum of zero
  (`Transactions.ClusterConservation`): races lose money and never make any. The same holds of a
  tentative balance, and of every amount a client was told (`Transactions.ClusterViews`): it counts all
  committed changes below the transaction **if and only if** neither the transaction nor a committed
  creator below it dropped anything.
- After a commit check has passed on an account, a later check or install of that transaction never
  fails, and waits there **if and only if** an older transaction has written the account since and is
  unresolved (`Transactions.WaitsIffOvertaken`, `Transactions.ClusterPrepareKept`).
- An account has one legitimate writer throughout a run **if and only if** the run has no blind create at
  that account (`Transactions.OneWriterIffClean`). At such an account nothing is lost, no check waits and
  no view is torn, whatever happens at other accounts. A run without any blind create is serialisable.
- Runs show that these conditions matter. In `Witness.LostUpdate` deposits of 100 and 5 both commit and
  the account holds 5, against the repository's README.md:36, which says concurrent deposits never use
  stale data. In `Witness.ReaderMissesChange` a transaction that created nothing then reads 5. In
  `Witness.OpenedByWithdrawal` a withdrawal that found nothing is written over an account somebody else is
  creating and survives that creator's abort, against README.md:21, which says a withdrawal from a
  missing account is aborted. In `Witness.DecidedCommitWaits` a decided commit meets the branch of
  tx-server/src/sharding/shard.rs:227-231 that is marked as not to be reached.

### Where the code and its documentation disagree

The model follows the code.

- README.md:15 says a tie sets the new timestamp to the last one plus 1. The code adds a counter to the
  last *clock reading*, so readings 100, 100, 101 issue the same id twice. `UniqueIffNoCollision` gives
  the exact condition.
- README.md:49 says the client hears of a failed commit after one negative vote. The code waits for the
  votes of all peers.
- README.md:18 says older transactions never wait on newer ones. That is true, and proved.

## Model

| member | source | states |
|---|---|---|
| `TransactionIds.ClockTransactionIdGenerator.constructor` | tx-server/src/sharding/transaction_id.rs:36-38 | a generator starts at the zero clock |
| `TransactionIds.IdOrder` | tx-server/src/sharding/transaction_id.rs:7-11 | ids are totally ordered, timestamps first, and equal timestamps in the order of the coordinators' names |
| `TransactionIds.ClockTransactionIdGenerator.Next` | tx-server/src/sharding/transaction_id.rs:47-58 | the id's timestamp is the reading if the clock has moved on and one more than the last id otherwise, is at least 1, is above the object default, and is above the previous id exactly when the reading does not collide |
| `TransactionIds.IssuedIsReadingOrNext` | tx-server/src/sharding/transaction_id.rs:47-58 | a reading above all earlier ones is the timestamp issued, any other issues one more than the last id |
| `TransactionIds.IssuedAboveDefault` | tx-server/src/sharding/transaction_id.rs:19-27 | for every clock sequence every id is above the default timestamp of every object |
| `TransactionIds.NextIsAbove` | tx-server/src/sharding/transaction_id.rs:49-55 | an id exceeds its predecessor iff its reading does not collide |
| `TransactionIds.NoCollisionIncreases` | tx-server/src/sharding/transaction_id.rs:47-58 | without collisions ids strictly increase at any distance |
| `TransactionIds.BurstWasIssued` | tx-server/src/sharding/transaction_id.rs:49-51 | every timestamp a reading could collide with really was issued before |
| `TransactionIds.UniqueIffNoCollision` | tx-server/src/sharding/transaction_id.rs:47-58 | ids are distinct iff they strictly increase iff no reading above the last clock value is at or below last clock value plus count |
| `TransactionIds.RepeatedIdWitness` | README.md:15 | readings 100, 100, 101 repeat an id |
| `TransactionIds.ClusterIdsDistinct` | tx-server/src/sharding/transaction_id.rs:7-11 | over all nodes ids are distinct iff no single generator collides: nodes never collide with each other |
| `Objects.ReadServesNewest` | tx-server/src/sharding/object.rs:73-113 | a read is decided by the newest version at or below the reader: own or committed is served, another's is waited for, the default is "not found" |
| `Objects.ReadOutcomes` | tx-server/src/sharding/object.rs:73-119 | in every state of an object, the exact cause of each answer to a read: own value, committed value, too late, not found, wait for the newest older writer |
| `Objects.CheckPassesOldest` | tx-server/src/sharding/object.rs:148-171 | exactly when a check passes, fails or waits, in terms of all tentative writers |
| `Objects.SoundKept` | tx-server/src/sharding/object.rs:73-203 | every call keeps writers above the committed timestamp and a valid value, readers of a never-committed object among its writers, and never lowers the committed timestamp |
| `Objects.AlwaysSound` | tx-server/src/sharding/object.rs:64-203 | these hold after any call sequence |
| `Objects.CommittedNeverGoesBack` | tx-server/src/sharding/object.rs:173-188 | committed timestamps never decrease over any call sequence |
| `Objects.CommitOrder` | tx-server/src/sharding/object.rs:131-188 | two commits on an object happen in strictly increasing id order, each with a balance that passes the check |
| `Objects.StaysShielded` | tx-server/src/sharding/object.rs:121-146 | until it aborts, a reader of a committed version stays recorded and nobody between version and reader holds a write |
| `Objects.SurvivingReader` | tx-server/src/sharding/object.rs:73-203 | if T read the version committed at c and never aborts, no transaction strictly between c and T commits there, before or after the read, over any call sequence |
| `Objects.ReapLosesNothing` | tx-server/src/sharding/object.rs:190-203 | an object that can be reaped after an abort equals a fresh object in every field |
| `Objects.WaitsPointBack` | tx-server/src/sharding/object.rs:100-111 | read waits and check waits point at a strictly older tentative writer |
| `TimestampedObjects.LastOf` | tx-server/src/sharding/object.rs:82-83 | the last id of a range of the ordered map is its newest |
| `TimestampedObjects.FirstOf` | tx-server/src/sharding/object.rs:153-155 | the first id of the ordered map is its oldest |
| `TimestampedObjects.TimestampedObject.constructor` | tx-server/src/sharding/object.rs:64-71 | a new object is the fresh state of its owner |
| `TimestampedObjects.TimestampedObject.Read` | tx-server/src/sharding/object.rs:73-119 | outcome and new state are those of the read rule; a refused read changes nothing |
| `TimestampedObjects.TimestampedObject.Write` | tx-server/src/sharding/object.rs:121-146 | accepted iff at or above every reader and above the committed timestamp; the new state is the write rule's |
| `TimestampedObjects.TimestampedObject.CheckCommit` | tx-server/src/sharding/object.rs:148-171 | the outcome is the check rule's, stated also over all writers |
| `TimestampedObjects.TimestampedObject.Commit` | tx-server/src/sharding/object.rs:173-188 | a passing check moves the tentative value and id to the committed ones, anything else changes nothing |
| `TimestampedObjects.TimestampedObject.MayReap` | tx-server/src/sharding/object.rs:190-196 | never committed, and no writer other than the aborting one |
| `TimestampedObjects.TimestampedObject.Abort` | tx-server/src/sharding/object.rs:198-203 | exactly the id's write and read entries go |
| `Tables.ReadIsErasable` | tx-server/src/sharding/object.rs:73-119 | a read of T is invisible once T is erased |
| `Tables.StoreIsErasable` | tx-server/src/sharding/shard.rs:122-155 | a write of T, creation included, is invisible once T is erased |
| `Tables.AccessesAreErasable` | tx-server/src/sharding/shard.rs:88-155 | the same for any sequence of T's reads and writes |
| `Tables.AbortRestores` | tx-server/src/sharding/shard.rs:260-295 | a fresh transaction's reads and writes on a shard followed by its abort restore the shard exactly |
| `Shards.Shard.constructor` | tx-server/src/sharding/shard.rs:37-43 | an empty shard |
| `Shards.Shard.GetNotification` | tx-server/src/sharding/shard.rs:71-78 | the notification exists afterwards |
| `Shards.Shard.NotifyAndRemove` | tx-server/src/sharding/shard.rs:80-86 | exactly that notification is gone |
| `Shards.Shard.Read` | tx-server/src/sharding/shard.rs:88-120 | each of the five answers with exactly its cause, the value of a success (own tentative, else committed), the new table, and on whom a waiting caller is subscribed |
| `Shards.Shard.Write` | tx-server/src/sharding/shard.rs:122-155 | "not found" iff the account is missing and the amount negative, an order violation iff a newer reader is recorded or the committed timestamp is not below the id, else the amount is the id's tentative value; the new table; objects stay unshared |
| `Shards.Shard.OpenAccount` | tx-server/src/sharding/shard.rs:53-69 | a default object for a missing account |
| `Shards.Shard.CheckCommit` | tx-server/src/sharding/shard.rs:157-198 | succeeds iff every object passes; a failure or a wait comes from an object that says so; nothing but the notifications changes |
| `Shards.Shard.CommitAll` | tx-server/src/sharding/shard.rs:203-214 | every object is committed once, and every answer is that object's |
| `Shards.Shard.Inspect` | tx-server/src/sharding/shard.rs:216-233 | a pass iff all answers pass, else the outcome of some object |
| `Shards.Shard.Summarise` | tx-server/src/sharding/shard.rs:216-256 | the reported result, with "changed" iff some object changed and the balance of every account |
| `Shards.Shard.Commit` | tx-server/src/sharding/shard.rs:200-258 | one pass: new table, result, and notification removed unless the pass has to wait |
| `Shards.Shard.AbortAll` | tx-server/src/sharding/shard.rs:263-283 | every object is aborted, and the reap set is exactly the objects that can be reaped |
| `Shards.Shard.Abort` | tx-server/src/sharding/shard.rs:260-295 | the new table is the erasure of the id, and its notification is gone |
| `Shards.ReapedIsErased` | tx-server/src/sharding/shard.rs:280-288 | aborting all objects and then dropping the reaped ones is the one-step erasure |
| `Ledger.VersionAgainstSum` | tx-server/src/coordinator/client.rs:85-92 | for any sorted list of transactions that leave valid balances: a balance built version upon version is at least zero and at most the sum of the changes, and equals it iff every creator started from a sum of zero |
| `Ledger.LeavesAgainstSum` | tx-server/src/coordinator/client.rs:85-98 | the same for what a further log makes of the account: at most the sum below and its own, equal iff neither it nor a creator below dropped anything |
| `Histories.SerialHistory` | README.md:15 | a sorted list of transactions is a serial history on a plain map iff every entry's answers and balances are those the sums below it call for, and the map then ends with the sums |
| `Histories.SerialIffCreatesFit` | tx-server/src/coordinator/client.rs:85-98 | for any list answered from the versions below: it replays serially and ends with the versions iff every create fits |
| `Store.BaseKept` | tx-server/src/sharding/object.rs:73-203 | every event, in any interleaving, keeps objects sound and passed checks valid as to the balance |
| `Isolation.ReadValue` | tx-server/src/sharding/object.rs:82-113 | in every run, a permitted read returns the version the older committed transactions left with the reader's own changes on it |
| `Isolation.PutKeepsInv` | tx-server/src/sharding/object.rs:121-146 | a write, blind creates included, keeps the isolation invariant |
| `Isolation.DecideKeepsInv` | tx-server/src/coordinator/mod.rs:226-240 | deciding a commit, before any shard installs it, keeps the isolation invariant: no newer live transaction's answers change |
| `Isolation.InstallKeepsInv` | tx-server/src/sharding/shard.rs:200-258 | an install of a decided commit makes its version the committed one and keeps the isolation invariant |
| `Isolation.EraseKeepsInv` | tx-server/src/sharding/shard.rs:260-295 | an abort of one shard keeps the isolation invariant of everybody else |
| `Isolation.InvKept` | tx-server/src/sharding/shard.rs:88-295 | every event keeps the isolation invariant, in any interleaving |
| `CleanStates.OneWriterKept` | tx-server/src/sharding/object.rs:121-171 | every event but a blind create at the account leaves it with at most one legitimate writer |
| `CleanStates.DecideOpensNew` | tx-server/src/coordinator/mod.rs:226-240 | at an account without blind creates no transaction older than its creator can still commit a change of it |
| `CleanStates.CleanKept` | tx-server/src/sharding/shard.rs:88-295 | every event but a blind create at an account keeps that account clean |
| `Guarantees.LedgerIsCommitted` | tx-server/src/coordinator/mod.rs:226-240 | the ledger is exactly the committed transactions, sorted by id, with their logs |
| `Guarantees.SettledIsVersion` | tx-server/src/sharding/shard.rs:200-258 | an account's balance once all decided commits are installed is the version they leave, and it exists iff one of them changed it |
| `Guarantees.SerialisableIff` | tx-server/src/sharding/object.rs:73-188 | the ledger runs serially on a plain map with the same answers and ends with exactly the cluster's settled balances, iff every create fits |
| `Guarantees.Conservation` | tx-server/src/sharding/object.rs:173-188 | a committed balance is at most the sum of installed changes, with equality iff every installed creator started from zero; a tentative one relates in the same way to the changes below its writer |
| `Guarantees.CleanCreatesFit` | tx-server/src/sharding/shard.rs:53-69 | without blind creates at any account every create fits |
| `Guarantees.NoLostUpdate` | tx-server/src/coordinator/client.rs:83-98 | at an account without blind creates the committed value is the sum of installed changes and every tentative value is that plus the writer's own |
| `Guarantees.PrepareIsKept` | tx-server/src/sharding/shard.rs:157-258 | in every run a passed check never fails later, and loses its pass only at an account the transaction created |
| `Guarantees.PrepareIsStable` | tx-server/src/sharding/shard.rs:157-258 | at an account without blind creates no check waits, and a passed check keeps passing until its transaction is resolved |
| `Guarantees.Views` | tx-server/src/sharding/object.rs:82-112 | in every run, what a live transaction was told is at most the sum of all committed changes below it and its own, and equal iff neither it nor a committed creator below it dropped anything |
| `Guarantees.TouchedIsInstalled` | tx-server/src/sharding/object.rs:82-112 | in every run, an account a committed transaction wrote and a newer live one touched and did not create has that write installed |
| `Guarantees.NoTornView` | tx-server/src/sharding/object.rs:82-112 | at an account without blind creates what a newer live transaction sees includes the whole of an older committed one |
| `Guarantees.ReadRefusals` | README.md:30 | in every run, a read is refused iff a newer change is installed, is "not found" iff only newer creators exist, and waits for exactly the newest older tentative writer (what a step makes of it: `Answers.QueryOutcome`, `Answers.FetchOutcome`) |
| `Guarantees.WriteRefusals` | README.md:36-46 | in every run, a change that has read its balance is refused iff a newer transaction has read the account or overtaken it: all four interleavings of two deposits |
| `Guarantees.BlindWriteBreaks` | tx-server/src/sharding/object.rs:121-146 | a write by somebody with no entry on the account breaks the one-writer rule |
| `Guarantees.OneWriterIffClean` | tx-server/src/coordinator/client.rs:85-98 | a permitted write to a clean account keeps the one-writer rule iff it is not a blind create |
| `Guarantees.BoundedKept` | tx-server/src/coordinator/client.rs:85-92 | every event keeps each committed, tentative and about-to-be-written balance within the total size of the changes submitted on the account |
| `Coordinator.Server.constructor` | tx-server/src/coordinator/mod.rs:84-95 | a server starts with no clients and all other nodes as peers |
| `Coordinator.Server.Accept` | tx-server/src/coordinator/mod.rs:296-303 | a new client gets a zero count and a ready status |
| `Coordinator.Server.Reap` | tx-server/src/coordinator/mod.rs:136-139 | exactly that client's entry goes |
| `Coordinator.Server.HandleTwoPhaseCommit` | tx-server/src/coordinator/mod.rs:218-250 | a verdict exactly at the last peer's vote, CommitOk only if no vote was negative, and DoCommit exactly with CommitOk |
| `Coordinator.TallyMeans` | tx-server/src/coordinator/mod.rs:218-224 | count and status after a list of votes are the number of senders and whether all are ready |
| `Coordinator.CountIsQuorum` | tx-server/src/coordinator/mod.rs:226-248 | although the server counts replies and not senders, the verdict is CommitOk iff every peer voted ready and Aborted iff every peer voted and one did not |
| `Coordinator.CountAborts` | tx-server/src/coordinator/client.rs:182-189 | the counting loop stops after n-1 Aborted replies, reports each other reply as an error, and sees no error if all replies are Aborted |
| `CoordinationSteps.VoteIsNew` | tx-server/src/coordinator/mod.rs:218-226 | a vote in flight is the only thing in flight for a peer not counted yet |
| `CoordinationSteps.EveryoneReady` | tx-server/src/coordinator/mod.rs:226-240 | a full count of ready votes means every shard passed and every tentative write was checked |
| `CoordinationSteps.ReceiveVerdictFine` | tx-server/src/coordinator/client.rs:220-225 | the commit wait sees only CommitOk or Aborted, and either keeps the invariant |
| `CoordinationSteps.ReceiveAckFine` | tx-server/src/coordinator/client.rs:182-189 | the abort wait sees only Aborted, and it keeps the invariant |
| `CoordinationSteps.ResponseFine` | tx-server/src/coordinator/mod.rs:261-267 | a response finds its client in the table |
| `CoordinationSteps.VoteFine` | tx-server/src/coordinator/mod.rs:218-250 | a vote finds its client in the table, and counting it keeps the invariant whatever the outcome (what is then sent: `Deliveries.VerdictIsSent`) |
| `CoordinationSteps.AskFine` | tx-server/src/coordinator/client.rs:232-258 | every request of a client, to its own shard, to a peer or to no shard, keeps the invariant (where it goes: `Deliveries.AskRoutes`) |
| `Protocol.Routing` | tx-server/src/coordinator/client.rs:47-63 | remote iff the account's first character names another node, local iff it names this one, nowhere iff the account is empty or it names no node |
| `CoordinationSteps.InstalledAll` | tx-server/src/sharding/shard.rs:200-258 | a finished install leaves no tentative write of its transaction on the shard |
| `CoordinationSteps.InstallVisit` | tx-server/src/sharding/shard.rs:218-233 | a visit of an install never fails the consistency check and keeps the invariant |
| `CoordinationSteps.StepKeepsInv` | tx-server/src/coordinator/mod.rs:133-287 | every step of every node keeps the protocol invariant, and its event is enabled on the data |
| `Cluster.RunInv` | tx-server/src/coordinator/mod.rs:289-314 | the invariant holds in every state of every run |
| `Cluster.VerdictIsFinal` | tx-server/src/coordinator/mod.rs:218-250 | a transaction once committed or aborted stays so |
| `Cluster.Agreement` | tx-server/src/coordinator/client.rs:192-230 | no run has one shard commit T and any shard abort T, and a shard commits T only after all n shards passed the check |
| `Cluster.PassedMeansChecked` | tx-server/src/coordinator/mod.rs:194-204 | a shard counts as passed only if it finished such a check earlier in the run |
| `Cluster.CommitCompletes` | tx-server/src/coordinator/mod.rs:272-281 | once the installs of a committed T are done, no shard holds a tentative write of T |
| `Cluster.AbortCompletes` | tx-server/src/coordinator/client.rs:170-190 | when the abort has returned, no shard holds any entry of T |
| `Cluster.AbortCount` | tx-server/src/coordinator/client.rs:182-189 | the loop counts one Aborted from each peer, and ends exactly when the last peer has answered |
| `Cluster.NoFaults` | tx-server/src/coordinator/mod.rs:105-111 | no unwrap fails and no fatal branch is taken, in any run |
| `Cluster.NoStrayMessages` | tx-server/src/coordinator/mod.rs:136-139 | once a client is reaped only DoCommits and installs at peers are in flight for it, then and ever after |
| `Store.NoHusksKept` | tx-server/src/sharding/shard.rs:278-288 | no event leaves a never-committed account without a tentative write |
| `Cluster.AbortErases` | tx-server/src/sharding/shard.rs:260-295 | in every state of every run, a transaction with no entry on a shard that reads and writes there and aborts gives back the shard as it was |
| `Cluster.AskedInRun` | tx-server/src/coordinator/client.rs:232-245 | the requests recorded for a session are those its client asked for in the run, in order |
| `Cluster.VotesInRun` | tx-server/src/coordinator/mod.rs:218-226 | in every run no peer's vote is taken in twice, and the server's entry is the tally of the votes taken in |
| `Cluster.VerdictIsQuorum` | tx-server/src/coordinator/mod.rs:218-228 | in every run the server's tally stands at CommitOk iff one ready vote of every peer has come in, and at Aborted iff all have voted and one is not ready |
| `Progress.RunCovered` | tx-server/src/coordinator/client.rs:170-230 | in every run every peer whose vote or acknowledgement is missing has something in flight that will bring it, a full count has its verdict in flight, and a closed client is reaped or about to be |
| `Progress.NeverStuck` | tx-server/src/coordinator/mod.rs:289-314 | in every state of every run an idle session takes any request, one that awaits something can move by itself, and one that awaits votes has something in flight |
| `Progress.AnyoneConnects` | tx-server/src/coordinator/mod.rs:292-307 | a client with a fresh id can connect to any node at any time |
| `Deliveries.AskRoutes` | tx-server/src/coordinator/client.rs:65-103 | in every run an operation is given up before reaching a shard iff its account's first character names no node, and else goes to the node it names |
| `Deliveries.AskStarts` | tx-server/src/coordinator/client.rs:246-263 | a commit request begins the local check of every object, an abort request begins the abort, a hang-up reaps the client |
| `Deliveries.AbortStarts` | tx-server/src/coordinator/client.rs:170-182 | the coordinator's shard is erased first, then every peer is to be asked, and the client's error is kept |
| `Deliveries.ServeDelivers` | tx-server/src/coordinator/mod.rs:133-281 | in every run a request goes to its node or to every peer, becomes a job that does what was asked, a response is handed to the client as the shard sent it, DoCommit starts an install of every object; the token is gone and nothing else is lost |
| `Deliveries.VerdictIsSent` | tx-server/src/coordinator/mod.rs:226-248 | in every run, once a vote is taken in, CommitOk is on its way to the client iff one ready vote of every peer has come in, Aborted iff all have voted and one is not ready, and with CommitOk every peer is sent DoCommit |
| `Deliveries.TokenTaken` | tx-server/src/coordinator/mod.rs:252-287 | in every run a step that takes up something in flight takes just that, once |
| `Deliveries.VisitReports` | tx-server/src/sharding/shard.rs:164-188 | in every run a visit of a check or install reports an overdraft iff the transaction's write is the oldest and negative, and a wait for exactly the oldest writer in front |
| `Deliveries.ScanEnds` | tx-server/src/sharding/shard.rs:173-196 | a pass ends only when every object was visited: well iff nothing was reported, badly iff an overdraft was, again for a reported wait |
| `Deliveries.RetryParks` | tx-server/src/sharding/shard.rs:190-197 | a pass that has to wait is parked on somebody it met and begins again with every object of the shard |
| `Cluster.NoWaitCycle` | README.md:18 | following waits across the cluster leads to strictly older transactions, so there is no cycle |
| `Cluster.OldestBlockedCanGo` | tx-server/src/sharding/shard.rs:113-116 | the oldest blocked transaction waits only on unblocked ones |
| `Transactions.DataInv` | tx-server/src/coordinator/mod.rs:157-287 | the isolation invariant and the bound on amounts hold in every state of every run |
| `Transactions.LedgerIsDecided` | tx-server/src/coordinator/mod.rs:226-240 | in every run the ledger holds exactly the transactions whose commit was decided, with their logs, sorted by id |
| `Transactions.ClientsAskedAndSaw` | tx-server/src/coordinator/client.rs:65-168 | in every run a committed transaction's log is, operation by operation, what its client asked for (account and diff) and was told, routed to the account's shard |
| `Transactions.ClusterSerialisable` | tx-server/src/coordinator/client.rs:65-230 | in every state of every run: the committed transactions, run one at a time in id order on a plain map, give the same answers and balances iff every create fits |
| `Transactions.FinalBalances` | tx-server/src/coordinator/mod.rs:272-281 | once all installs are done the objects hold exactly the serial balances iff every create fits |
| `Transactions.ClusterConservation` | tx-server/src/coordinator/mod.rs:167-181 | in every state of every run: no committed balance exceeds the sum of installed changes and no tentative one the sum below its writer and its own, each with the exact condition for equality |
| `Transactions.ClusterViews` | tx-server/src/coordinator/mod.rs:226-240 | in every run, an amount a live transaction was told counts all committed changes below it iff neither it nor a committed creator below it dropped anything, and never counts more; accounts it did not create have every committed write below installed, even between decision and DoCommit |
| `Transactions.NoOverflow` | tx-server/src/coordinator/mod.rs:169 | in every run: if the sizes of the changes submitted on an account sum to at most the largest i64, no sum of balance and diff leaves the i64 range |
| `Transactions.SubmittedOnce` | tx-server/src/coordinator/client.rs:85-98 | in every run what a transaction has submitted is the changes it has made and the one it is in the middle of, one for one |
| `Answers.ReadsExactly` | tx-server/src/sharding/object.rs:73-119 | a read returns the transaction's own version iff no newer change is installed and the newest version at or below it is its own or installed, is refused iff it comes too late, waits iff an older writer is in front |
| `Answers.QueryOutcome` | tx-server/src/coordinator/client.rs:140-147 | in every run a balance request is answered with the version, "not found", aborted or parked, each exactly in its case |
| `Answers.FetchOutcome` | tx-server/src/coordinator/mod.rs:167-181 | in every run the read of a deposit or withdrawal leads to a put upon the version plus diff, to a create, to an abort or to waiting, each exactly in its case |
| `Answers.PutOutcome` | tx-server/src/coordinator/client.rs:86-96 | in every run the write of a change is "not found" iff the account is missing and the amount negative, aborted iff somebody newer has read or overtaken it, and else Ok with the amount as the transaction's version |
| `Causes.ErrorsHaveCauses` | tx-server/src/coordinator/client.rs:106-113 | in every run each error a client is told, or is going to be told, goes back to an earlier step in which its transaction was refused in a way that calls for just that error |
| `Causes.LastWord` | tx-server/src/coordinator/client.rs:199-230 | in every run a client is told CommitOk last iff its transaction committed, and else an error, with its cause, iff it aborted |
| `Causes.WaitsHaveCauses` | tx-server/src/sharding/shard.rs:113-116 | in every run a transaction is parked on another only because that one's write was in front of it in an earlier step: the newest older one for a read, the oldest for a check or install |
| `Transactions.BlindEvent` | tx-server/src/coordinator/mod.rs:167-181 | the data sees a blind create at an account iff the step is one |
| `Transactions.CleanOnInv` | tx-server/src/coordinator/mod.rs:157-287 | while a run has no blind create at an account, that account is clean |
| `Transactions.CleanRunSerialisable` | tx-server/src/coordinator/client.rs:65-230 | every state of a run without blind creates is serialisable |
| `Transactions.ClusterNoLostUpdate` | tx-server/src/coordinator/mod.rs:167-181 | at an account without blind creates: committed value, missing installs and tentative values as sums in every state, although read and write are separate steps |
| `Transactions.ClusterPrepareStable` | tx-server/src/sharding/shard.rs:157-198 | once a shard passed T's staggered check, all its objects without blind creates pass together then and in every later state until T aborts |
| `Transactions.CheckedByVisit` | tx-server/src/sharding/shard.rs:164-170 | an entry counts as checked only because of a passing visit earlier in the run |
| `Transactions.WaitsIffOvertaken` | tx-server/src/sharding/shard.rs:218-231 | in every run, after a passing visit T's check of the account waits iff an older transaction has written it since and is still tentative |
| `Transactions.ClusterPrepareKept` | tx-server/src/sharding/shard.rs:157-258 | in every run, once a shard passed T's check no check of T there fails until T aborts; each entry had its passing visit; and a check waits iff an older transaction wrote the account since, which takes an account T created and a blind create there |
| `Transactions.ScansNeverStall` | tx-server/src/sharding/shard.rs:218-232 | at an account without blind creates no check waits, and an install meets neither of the branches marked as not to be reached |
| `Transactions.InstallsNeverFail` | tx-server/src/sharding/shard.rs:222-226 | in every run an install never fails the consistency check |
| `Transactions.ClusterNoTornView` | tx-server/src/coordinator/mod.rs:226-240 | at an account without blind creates a newer transaction sees all of an older committed one, even between the decision and the arrival of DoCommit |
| `Transactions.OneWriterIffClean` | tx-server/src/sharding/object.rs:121-171 | an account has one legitimate writer throughout a run iff the run has no blind create there |
| `Transactions.BlindCreateBreaks` | tx-server/src/sharding/shard.rs:53-69 | a blind create leaves its account with two writers, or with one that never read it |
| `Witness.LostUpdate` | tx-server/src/coordinator/client.rs:91-96 | a complete run in which two deposits create the same account, both commit, and one is lost |
| `Witness.ReaderMissesChange` | tx-server/src/sharding/object.rs:93-98 | a run in which a transaction that created nothing is told 5 although the committed changes below it sum to 105 |
| `Witness.DecidedCommitWaits` | tx-server/src/sharding/shard.rs:227-231 | a run in which all shards passed, the commit is decided, and its install is about to wait for an older transaction |
| `Witness.OpenedByWithdrawal` | tx-server/src/sharding/shard.rs:58-59 | a run in which a withdrawal that found no account opens it and commits, which no serial run allows |

## Left out

- Looking up an object and applying its rule is one step. The code drops the map lock between the two, so a concurrent abort can reap a just-inserted empty object and the write then lands on an object nobody can find; the model does not have that.
- Subscribing to a notification is atomic with the answer to wait, and a parked job may wake at any time. A session can always take a step, but nothing is claimed about wake-ups arriving or about steps being taken.
- Shards.Shard.Read: makes one attempt; the retry loop around an attempt that waits is the caller's, and in the cluster it is the parked job.
- Shards.Shard.CheckCommit: makes one pass, with no other call between two objects; passes with interleaving are the scans of the cluster layer.
- Shards.Shard.Commit: makes one pass, like `Shards.Shard.CheckCommit`.
- Shards.Shard.GetNotification: registers the transaction and does not hand out the handle that a caller awaits.
- Shards.Shard.NotifyAndRemove: removes the registration; the waiters it wakes are the parked jobs of the cluster layer, which may wake at any time.
- Coordinator.Server.HandleTwoPhaseCommit: requires the client to be in the table, where the code unwraps; `CoordinationSteps.VoteFine` and `Cluster.NoFaults` prove that it always is.
- Witness.OpenedByWithdrawal: its run ends while the depositor's abort, already applied at the account's shard, is still to reach the other one.
- The abort of one shard is one step of the cluster. The code holds the map lock throughout it, which blocks lookups and new scans; check and commit tasks that already hold object handles can still run between its objects, but each visits one object, and visits of different objects commute, so every such interleaving is one of visits before and after the whole abort.
- A scan lists the objects of its shard when the request is served, or when the job is parked for a retry; the code takes the list when its task starts or wakes. In between no write of the scanning transaction can be added, so both lists hold all of its entries.
- The bodies of the server loop other than the client table and the vote count, and the client task other than the abort count, are a step relation on values and not classes; the message channels are the bag in flight.
- A local shard's answer to the client task travels through the same inbox as a remote one, so its arrival is a separate step.
- A client may hang up only between requests; its transaction then stays unresolved, as in the code. Others may wait on it for ever.
- Transaction ids are distinct in the cluster layer; the generator layer gives the exact condition.
- Integers are unbounded. The i64 range of amounts has its own result, the u128 and usize counters of the generator do not.
- Single-node clusters, where the vote count never triggers, are excluded (at least two nodes).
- TCP connections, framing, serialisation, timeouts, retries and disconnects (which end the process): delivery is reliable, in any order.
- The command-line client, configuration parsing, logging, the printing of balances after a commit, Docker files and scripts.

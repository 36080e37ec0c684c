# TideVec in Dafny

A model of the parts of TideVec on which its safety rests, with proofs:

* the Raft node of `include/tidevec/consensus/raft.hpp`: as a class whose methods are its handlers and locked sections,
  as a value, and as a cluster of such nodes with a set of messages that may be lost, delayed, duplicated and reordered.
  The proofs cover elections with pre-vote, truncation, the current-term commit rule, compaction, chunked snapshots,
  membership changes, restarts and ReadIndex together, and show that from the end of any run a quorum can go on to elect,
  commit, apply and read. They follow Ongaro and Ousterhout (USENIX ATC 2014), sections 5.2
  to 5.4 and 7, and Ongaro's dissertation, sections 4.1 and 6.4;
* its log and snapshot files;
* Reed-Solomon coding over GF(2^8);
* the payload index and BM25 index against a plain scan of the documents;
* the product quantizer, shard placement and the token-bucket limiter.

## Layout

| files | contents |
|---|---|
| `RaftTypes` | entries, memberships, and when the quorums of two memberships meet |
| `RaftState`, `RaftNodeInvariant`, `RaftNode` | the node as a value, what every handler keeps, and the class that updates fields in place |
| `RaftCluster` | the cluster, its steps and its runs |
| `RaftHistory`, `RaftCompleteness`, `RaftSteps` | the history of a run (leader logs, votes, acknowledgements, commits) and its invariant |
| `RaftGhost`, `RaftRefine*`, `RaftInduction` | every step of the cluster extends a history that explains the cluster |
| `RaftSafety`, `RaftRollback`, `RaftDoubleAdd` | what holds of every run, how log probing converges, and what removing a server listed twice costs |
| `RaftProgress` | what single handlers get done: when they commit, grant, install and count |
| `RaftPeers`, `RaftReach`, `RaftCatchUp`, `RaftElect`, `RaftRecovery` | what a cluster can still do from the end of any run: catch a server up, elect, serve an operation and a read |
| `RaftDisk`, `RaftSnapshotFile` | the record format, torn tails, compaction on disk |
| `GF256`, `GFLinear`, `GFMatrix`, `ReedSolomonCode`, `ReedSolomon` | the field and its tables, Gauss-Jordan, the code |
| `ShardChoice` | for which k and m any k shards are enough |
| `Filters`, `NumericIndex`, `PayloadSpec`, `PayloadIndex` | filters and the secondary indexes |
| `Bm25Spec`, `Bm25Ranking`, `Bm25Index` | keyword search: direct scoring, what it ranks first, the index |
| `Lloyd`, `ProductQuantizer` | vector compression |
| `Word64`, `Placement` | hashing, ranges, splitting a write |
| `RateLimiter` | the token bucket |
| `Wrappers`, `Multisets`, `Quotients` | missing values, small lemmas on multisets and division |

## How the Raft proof goes

`RaftHistory.Hist` remembers, for every term, the log of its leader. Every log in the cluster is a prefix of the leader
log of the term of its last entry, from which Log Matching follows. A vote promises that the candidate has all the voter
acknowledged, unless a later leader already lost it. Two logs that part after a point up to which every later membership
change was justified by a commit use memberships that are at most one change apart, so their quorums, counted per listing
as the source counts, share a server (`RaftHistory.MembershipsMeet`); from this come one winner per term and Leader
Completeness. `RaftGhost.CInv` ties a cluster to
its history, `RaftInduction` shows that every step keeps the tie, and `RaftSafety` reads the theorems off it.

Safety alone would hold of a node that refuses everything, so the second half says what gets done. `RaftReach.Sound` holds
of every cluster of a clean run. From such a cluster `RaftElect.Elect` makes a server leader whose log is not behind a
quorum's: it stands until its term is beyond theirs and collects their votes. `RaftCatchUp.CatchUp` brings any server it
tracks to hold its whole log: rejections move the probe strictly back until a request is accepted or the snapshot has to
be sent, whose chunks then leave strictly less to send, and a server in the leader's term accepts what follows on from its
last acknowledgement (`RaftHistory.CurrentOk`). `RaftRecovery.Recovery` puts these together.

## Findings

* `add_server` (raft.hpp:539-578) looks the id up before the catch-up wait but not after it, so two overlapping calls can
  list one server twice. That alone is harmless: any addition keeps quorums meeting (`RaftTypes.AdditionMeets`). But
  `remove_server` (raft.hpp:582-602) drops all listings at once. `RaftTypes.RemovalMeetsIff` says exactly when the quorums
  before and after still meet, and `RaftDoubleAdd.DoubleAddIsUnsafe` is a run of two servers, with batches of one entry and
  both calls waiting as the source makes them, that ends with different committed entries at index 6. The theorems of
  `RaftSafety` hold for all runs whose removals are safe in that sense (`RaftCluster.CleanRun`), additions of a listed id
  included.
* The header of `reed_solomon.hpp` (line 9) promises any 10 of 14 shards. Any k of the k + m shards are enough exactly when
  m <= 2 or k <= 3 (`ShardChoice.AnyMaskDecodesIff`); RS(10,4) does not survive the loss of data shards 0, 1 and 3, nor of
  1, 2 and 4 (`ReedSolomonCode.TenFourFails`). The model follows the code, and for each mask says what decoding returns.
* `{"$or": []}` and a number compared with `_id` are answered wrongly by the payload index (payload_index.hpp:138-146,
  255): `PayloadSpec.EmptyOrIsWrong`, and `PayloadSpec.NumericIdIff` with the exact condition.
* `Placement::validate` lets its running bound wrap around (multi_raft_router.hpp:161), so overlapping ranges pass;
  `Placement.AcceptedTilesIff` says exactly when an accepted placement tiles.
* Without a positive rate the limiter's eviction forgets who is out of tokens (server_security.hpp:110-116).
  `RateLimiter.EvictionIsInvisibleIff` says exactly when eviction changes no answer: with a positive rate, or with a burst
  below one, which allows nothing anyway.

The repository's README describes release 0.3.0, without compaction, membership changes and linearizable reads, and calls
them in progress (lines 289 and 494). The model follows the code, which has them.

## Model

| member | source | states |
|---|---|---|
| RaftSafety.StateMachineSafety | include/tidevec/consensus/raft.hpp:1319-1363 | What any two servers have applied, at any two moments of a run, is prefix-comparable: never different entries at one index |
| RaftSafety.AppliedIsLogPrefix | include/tidevec/consensus/raft.hpp:1326-1357 | What a server has applied is its own log up to lastApplied, at indices 1, 2, 3, ... |
| RaftSafety.AppliesForward | include/tidevec/consensus/raft.hpp:1326-1360 | Within a process lifetime a state machine moves by the entry of the next index or by a snapshot that extends it |
| RaftSafety.ElectionSafety | include/tidevec/consensus/raft.hpp:1031-1084 | At most one leader per term over a whole run, also while the membership changes |
| RaftSafety.LeaderAppendOnly | include/tidevec/consensus/raft.hpp:908-918 | A leader never overwrites or drops an entry of its own log |
| RaftSafety.LogMatching | include/tidevec/consensus/raft.hpp:619-685 | Two logs that agree on the term at an index agree up to it, across servers, moments, truncation, snapshots and compaction |
| RaftSafety.LeaderCompleteness | include/tidevec/consensus/raft.hpp:694-730 | Whatever a server has committed is in the log of every later leader of its term or a later one |
| RaftSafety.ReadIndexIsLinearizable | include/tidevec/consensus/raft.hpp:478-506 | When read_index returns, its index covers every commit index at the call's start and the local state extends every state applied anywhere before |
| RaftSafety.SnapshotReassembly | include/tidevec/consensus/raft.hpp:743-790 | The bytes a node installs are exactly the snapshot that the leader of the message's term had at that index |
| RaftSafety.ReceivedIsPrefix | include/tidevec/consensus/raft.hpp:743-754 | The receive buffer is always a prefix of one snapshot of one leader, under loss, delay, duplication and leader changes |
| RaftSafety.SnapshotsCoverCommitted | include/tidevec/consensus/raft.hpp:773-791 | Installing a snapshot never drops a committed entry |
| RaftSafety.NodesStayValid | include/tidevec/consensus/raft.hpp:875-877 | In every run every node keeps its local invariant, and every request in flight is well formed |
| RaftRecovery.Recovery | include/tidevec/consensus/raft.hpp:1121-1363 | From the end of every run: if q is a quorum of the members that v knows, and v's log is not behind theirs, the run can go on, without any server outside q, until v leads, an operation given to it is the last entry of its log, and every server of q has committed and applied all of that log; whatever terms, votes, logs and snapshots they started from |
| RaftRecovery.FreshCluster | include/tidevec/consensus/raft.hpp:700-720 | A cluster that has just been started can elect any member and serve an operation |
| RaftRecovery.ReadCompletes | include/tidevec/consensus/raft.hpp:478-506 | From the end of every run in which a leader has committed an entry of its term and a quorum is in no later one, a read_index call can begin, be confirmed and return |
| RaftRecovery.CommitTravels | include/tidevec/consensus/raft.hpp:681-686 | In every run a follower that accepts a request reaching the sender's commit index has committed as much |
| RaftRecovery.TakesSnapshot | include/tidevec/consensus/raft.hpp:1365-1412 | A server can take a snapshot of all it has applied; its full log stays what it is |
| RaftRecovery.Apply | include/tidevec/consensus/raft.hpp:1319-1363 | Whatever the apply thread is at, it can get to the commit index |
| RaftElect.Elect | include/tidevec/consensus/raft.hpp:1031-1084 | A quorum in any terms, with any votes cast, can elect a server whose log is not behind theirs |
| RaftElect.SomeoneIsAhead | include/tidevec/consensus/raft.hpp:700-702 | Among any servers of a run there is one whose log is behind none of the others |
| RaftCatchUp.CatchUp | include/tidevec/consensus/raft.hpp:1165-1316 | A leader can bring any server that it tracks, in no later term, to hold its whole log, for any batch and chunk size, by snapshot where it has to |
| RaftCatchUp.Attempt | include/tidevec/consensus/raft.hpp:1228-1272 | One request either succeeds, and the leader counts again, or moves the probe strictly back |
| RaftCatchUp.Transfer | include/tidevec/consensus/raft.hpp:1277-1316 | A snapshot transfer ends, from any offset the two may have got to, with the leader's matchIndex at the snapshot or beyond |
| RaftCatchUp.Heartbeat | include/tidevec/consensus/raft.hpp:1228-1261 | A request without entries to a server that holds everything acknowledges the round and makes it commit what the leader has committed |
| RaftCatchUp.FullHasLog | include/tidevec/consensus/raft.hpp:1257-1260 | What the leader counts as stored by a server in its term is a prefix of that server's log |
| RaftPeers.AlwaysCovered | include/tidevec/consensus/raft.hpp:966-993 | In every run every node tracks all the other members it knows |
| RaftProgress.AcceptedCommits | include/tidevec/consensus/raft.hpp:681-686 | A success commits all that the leader has committed and the request reaches, also without entries, and nothing beyond |
| RaftProgress.ConsistentIsAccepted | include/tidevec/consensus/raft.hpp:633-686 | A request that follows on and would not drop a committed entry is accepted |
| RaftProgress.AcceptedStores | include/tidevec/consensus/raft.hpp:647-680 | After a success every entry of the request above the snapshot is in the log |
| RaftProgress.UpToDateIsOrder | include/tidevec/consensus/raft.hpp:700-702 | Of any two logs one is up to date for the other, each for itself, transitively |
| RaftProgress.ExtensionIsUpToDate | include/tidevec/consensus/raft.hpp:700-702 | A log is up to date for each of its prefixes |
| RaftProgress.GrantedIff | include/tidevec/consensus/raft.hpp:694-730 | A vote is granted exactly when term, earlier vote, stickiness and the write allow it and the candidate's log is up to date for the voter's |
| RaftProgress.ContinuingCandidateIsGranted | include/tidevec/consensus/raft.hpp:700-720 | A candidate whose log is the voter's, or continues it, gets the vote |
| RaftProgress.PreVoteGrantedIff | include/tidevec/consensus/raft.hpp:704-707 | The same for a pre-vote, which changes nothing |
| RaftProgress.QuorumLeads | include/tidevec/consensus/raft.hpp:1220-1224 | The vote that completes a quorum makes a leader with a NOOP of its term; another one is counted |
| RaftProgress.TimeoutStands | include/tidevec/consensus/raft.hpp:1156-1160 | A member whose timer fires stands for the next term, and leads it if it is a quorum alone |
| RaftProgress.PreQuorumStands | include/tidevec/consensus/raft.hpp:1200-1207 | A quorum of pre-votes makes it stand |
| RaftProgress.PreVoteThenStand | include/tidevec/consensus/raft.hpp:1023-1029 | Asking for pre-votes changes neither term nor vote, answers to another round are ignored, and the one that completes a quorum makes the node stand for the next term |
| RaftProgress.LeavesWhenCommitted | include/tidevec/consensus/raft.hpp:1102-1111 | A leader outside the membership steps down as soon as that membership is committed, and not before |
| RaftProgress.SelfRemoval | include/tidevec/consensus/raft.hpp:580-601 | A leader that removes itself leads until that is committed |
| RaftProgress.LearnerTracked | include/tidevec/consensus/raft.hpp:546-566 | A new server is tracked before it is a member; abandoning it leaves the rest as it is |
| RaftProgress.AdvanceCommitsAll | include/tidevec/consensus/raft.hpp:1086-1112 | After counting, every entry of the current term that a quorum holds is committed |
| RaftProgress.SuccessHeard | include/tidevec/consensus/raft.hpp:1255-1261 | What a leader makes of a success |
| RaftProgress.LastChunkHeard | include/tidevec/consensus/raft.hpp:1305-1312 | With the answer to the last chunk the leader's matchIndex reaches the snapshot |
| RaftProgress.TransferInstalls | include/tidevec/consensus/raft.hpp:732-798 | For any chunk size, taking the chunks of a leader's snapshot in order ends with it installed and a success that reports all its bytes |
| RaftProgress.ChunkTaken | include/tidevec/consensus/raft.hpp:745-757 | One chunk in order is added to the buffer and reported |
| RaftProgress.CompactedIs | include/tidevec/consensus/raft.hpp:1388-1412 | Compaction moves the snapshot to the index, with these bytes, and keeps the end of the log |
| RaftProgress.MembershipChanges | include/tidevec/consensus/raft.hpp:567-602 | Adding lists the server, removing drops its id and nobody else; the new membership is the log's last entry and in force at once |
| RaftDoubleAdd.DoubleAddIsUnsafe | include/tidevec/consensus/raft.hpp:539-602 | A run of the cluster, both add_server calls waiting for the learner, in which a server is listed twice and removed, and two servers commit different entries at index 6 |
| RaftDoubleAdd.BothWait | include/tidevec/consensus/raft.hpp:553-561 | Both calls find the new server more than one batch behind, so both release the lock |
| RaftDoubleAdd.AddedTwice | include/tidevec/consensus/raft.hpp:557-577 | The second call goes on once its predicate holds and the first CONFIG has committed, and lists the id again |
| RaftHistory.Matching | include/tidevec/consensus/raft.hpp:633-645 | Log Matching for logs that are prefixes of leader logs |
| RaftHistory.MembershipsMeet | include/tidevec/consensus/raft.hpp:929-935 | Logs whose later CONFIGs were justified before they part use memberships whose quorums share a server |
| RaftTypes.AdditionMeets | include/tidevec/consensus/raft.hpp:567-572 | After any addition, also of an id already listed, every quorum meets every quorum from before |
| RaftTypes.RemovalMeets | include/tidevec/consensus/raft.hpp:593-595 | After removing an id that is listed once, or twice beside an even number of others, every quorum meets every quorum from before |
| RaftTypes.RemovalMeetsIff | include/tidevec/consensus/raft.hpp:593-595 | Where the others are listed once each, that condition is exact |
| RaftTypes.CountWithout | include/tidevec/consensus/raft.hpp:594-595 | Removing an id drops exactly its listings from every count of votes |
| RaftCompleteness.WinnerHas | include/tidevec/consensus/raft.hpp:694-730 | The winner of an election has every entry committed in earlier terms |
| RaftCompleteness.NewCommitHeld | include/tidevec/consensus/raft.hpp:1086-1104 | An entry committed now is already in the log of every leader of a later term |
| RaftCompleteness.OneWinner | include/tidevec/consensus/raft.hpp:1031-1052 | Two winners of one term are the same server, under membership changes |
| RaftSteps.AppendStep | include/tidevec/consensus/raft.hpp:908-935 | Appending, also a CONFIG under its guard, keeps the history's invariant |
| RaftSteps.GrantStep | include/tidevec/consensus/raft.hpp:712-722 | Granting a vote to an up-to-date candidate keeps the invariant |
| RaftSteps.WinStep | include/tidevec/consensus/raft.hpp:1054-1084 | Winning an election keeps the invariant |
| RaftSteps.AcceptStep | include/tidevec/consensus/raft.hpp:647-680 | Taking a leader's entries, dropping only what disagrees with it, keeps the invariant |
| RaftSteps.CommitStep | include/tidevec/consensus/raft.hpp:1086-1104 | Committing an entry of the current term that a majority stored keeps the invariant |
| RaftInduction.StepKeepsInvariant | include/tidevec/consensus/raft.hpp:1165-1275 | Every step of the cluster keeps the relation to its history |
| RaftInduction.EveryRunHasWitness | include/tidevec/consensus/raft.hpp:326-345 | Every clean run has a history for each of its states |
| RaftRefineAppend.HandleAppendStep | include/tidevec/consensus/raft.hpp:606-692 | Handling AppendEntries is a history step, and its reply tells the truth |
| RaftRefineAppend.NeverRefuses | include/tidevec/consensus/raft.hpp:656-660 | In a cluster the branch that refuses to truncate a committed entry is never taken |
| RaftRefineAppend.AcceptedIsLeaders | include/tidevec/consensus/raft.hpp:647-680 | After success the log starts with what the leader sent, and nothing shared with the leader is lost |
| RaftRefineAppend.MakeAppendOk | include/tidevec/consensus/raft.hpp:1231-1245 | What is sent is a piece of the leader's full log with the true previous term |
| RaftRefineVotes.HandleVoteStep | include/tidevec/consensus/raft.hpp:694-730 | Handling RequestVote is a history step, and a granted vote is recorded |
| RaftRefineLeader.BecomeLeaderOk | include/tidevec/consensus/raft.hpp:1054-1084 | Becoming leader, with or without a stored NOOP, is a history step |
| RaftRefineLeader.MayChangeHolds | include/tidevec/consensus/raft.hpp:929-935 | The guard on membership changes means: all CONFIGs committed, and an entry of the own term committed |
| RaftRefineLocal.AddAtOnce | include/tidevec/consensus/raft.hpp:550-577 | add_server without a wait is a history step |
| RaftRefineLocal.AddFinishStep | include/tidevec/consensus/raft.hpp:564-577 | So is what it does after the wait, whether or not the id is listed by then |
| RaftRefineLocal.RemoveStep | include/tidevec/consensus/raft.hpp:582-602 | So is a safe removal |
| RaftRefineSnapshot.HandleSnapshotStep | include/tidevec/consensus/raft.hpp:732-806 | Handling a chunk is a history step: stale, partial, covered and final chunks |
| RaftRefineSnapshot.ReassembledIs | include/tidevec/consensus/raft.hpp:743-756 | The buffer at the last chunk is the whole snapshot |
| RaftRefineSnapshot.InstalledIsLeaders | include/tidevec/consensus/raft.hpp:773-780 | With or without a kept suffix the log agrees with the leader's up to the snapshot |
| RaftRefineSnapshot.SendSnapshotStep | include/tidevec/consensus/raft.hpp:1277-1297 | A chunk is cut from the snapshot the leader has at that index |
| RaftRefineLocal.CompactRep | include/tidevec/consensus/raft.hpp:1388-1412 | Compaction changes no entry of the full log and records the membership in force at the index |
| RaftRefineLocal.CrashStep | include/tidevec/consensus/raft.hpp:326-345 | Restarting from disk keeps the relation to the history |
| RaftRefineRead.NoLaterCommit | include/tidevec/consensus/raft.hpp:489-501 | If a majority had not left the leader's term, no commit so far is of a later term |
| RaftRefineRead.ReadIndexCovers | include/tidevec/consensus/raft.hpp:484-488 | A leader that committed an entry of its own term knows every commit up to its term |
| RaftNodeInvariant.OnAppendEntriesValid | include/tidevec/consensus/raft.hpp:606-692 | The handler keeps the sentinel, consecutive indices, the CONFIG list and snapshot <= commit <= last |
| RaftNodeInvariant.OnInstallSnapshotValid | include/tidevec/consensus/raft.hpp:732-806 | So does installing a snapshot that covers what is committed |
| RaftNodeInvariant.CompactStoreOk | include/tidevec/consensus/raft.hpp:1388-1403 | Compaction keeps every entry above the snapshot and the membership in force |
| RaftNodeInvariant.NewCommitRange | include/tidevec/consensus/raft.hpp:1086-1104 | A new commit index is of the current term and held by a majority |
| RaftNodeInvariant.NewCommitIsMax | include/tidevec/consensus/raft.hpp:1088-1104 | The search misses no committable index of the current term |
| RaftNode.RaftNode.HandleAppendEntries | include/tidevec/consensus/raft.hpp:606-692 | The in-place handler makes of the node what the value-level handler says, and keeps the node valid |
| RaftNode.RaftNode.HandleRequestVote | include/tidevec/consensus/raft.hpp:694-730 | The same for RequestVote |
| RaftNode.RaftNode.HandleInstallSnapshot | include/tidevec/consensus/raft.hpp:732-806 | The same for InstallSnapshot |
| RaftNode.RaftNode.HighestHeld | include/tidevec/consensus/raft.hpp:1088-1104 | The downward search finds the highest index of the current term that a quorum holds |
| RaftNode.RaftNode.AdvanceCommitIndex | include/tidevec/consensus/raft.hpp:1086-1112 | Raising the commit index and the step-down of a removed leader |
| RaftNode.RaftNode.ConflictStart | include/tidevec/consensus/raft.hpp:638-644 | The loop finds the start of the run of equal terms |
| RaftNode.RaftNode.FindFirstNew | include/tidevec/consensus/raft.hpp:647-655 | The loop finds the first entry that is new or conflicts |
| RaftNode.RaftNode.Overwrite | include/tidevec/consensus/raft.hpp:663-672 | Truncation keeps exactly the entries and CONFIGs below the cut |
| RaftNode.RaftNode.HasQuorum | include/tidevec/consensus/raft.hpp:881-886 | The counting loop decides the quorum |
| RaftNode.RaftNode.ReconcilePeers | include/tidevec/consensus/raft.hpp:966-993 | Exactly the members and learners gain a peer; known peers keep their progress |
| RaftNode.RaftNode.BuildAppend | include/tidevec/consensus/raft.hpp:1231-1245 | The loop collects the entries to send |
| RaftNode.RaftNode.BackUp | include/tidevec/consensus/raft.hpp:1264-1269 | The loop finds where to probe next |
| RaftNode.RaftNode.AppendReplied | include/tidevec/consensus/raft.hpp:1251-1272 | Handling a reply to AppendEntries |
| RaftNode.RaftNode.SnapshotReplied | include/tidevec/consensus/raft.hpp:1299-1315 | Handling a reply to a chunk |
| RaftNode.RaftNode.BeginElection | include/tidevec/consensus/raft.hpp:1031-1052 | Standing for election |
| RaftNode.RaftNode.Lead | include/tidevec/consensus/raft.hpp:1054-1084 | Becoming leader |
| RaftNode.RaftNode.CompactTo | include/tidevec/consensus/raft.hpp:1388-1412 | Compaction in place |
| RaftNode.RaftNode.DropMember | include/tidevec/consensus/raft.hpp:582-602 | Removing a member appends the membership without it |
| RaftNode.RaftNode.PromoteLearner | include/tidevec/consensus/raft.hpp:567-577 | Adding a member after its catch-up |
| RaftRollback.RollbackInRuns | include/tidevec/consensus/raft.hpp:1251-1270 | In every run: a rejection of a request made earlier, heard of later, moves the probe strictly back but above every index up to which the leader's log agrees with the one that was rejected |
| RaftRollback.RejectionBacksUp | include/tidevec/consensus/raft.hpp:1264-1269 | One rejection: d < next <= prev, d being the length of the longest common prefix |
| RaftRollback.ProbesEndAtMatch | include/tidevec/consensus/raft.hpp:1260-1270 | The probes end exactly after the longest common prefix |
| RaftRollback.AcceptsIff | include/tidevec/consensus/raft.hpp:633-645 | The consistency check succeeds exactly up to the longest common prefix |
| RaftRollback.ConflictIsNotTransient | include/tidevec/consensus/raft.hpp:1260-1262 | A conflict is never taken for a failed write |
| RaftRollback.FailureIs | include/tidevec/consensus/raft.hpp:633-692 | A reply counts as a failed write exactly when entries above the commit index could not be stored |
| RaftDisk.RecordRoundTrip | include/tidevec/consensus/raft.hpp:1451-1464 | A whole record is read back whatever surrounds it |
| RaftDisk.TornRecord | include/tidevec/consensus/raft.hpp:1509-1526 | A record cut anywhere is never read, whatever the checksum function |
| RaftDisk.ScanOfCut | include/tidevec/consensus/raft.hpp:1508-1537 | Reading a file cut at any byte finds exactly the whole records and the end of the last one |
| RaftDisk.RecoveryIsExact | include/tidevec/consensus/raft.hpp:1508-1542 | A crash at any byte of an append loses exactly the records not wholly written, and the file truncated there is again good for appending |
| RaftDisk.CompactionIsAtomic | include/tidevec/consensus/raft.hpp:1388-1412 | A crash between snapshot and log rewrite loads the same entries as a completed compaction |
| RaftDisk.GetPut | include/tidevec/consensus/raft.hpp:1436-1449 | Integers of any width are read back |
| RaftDisk.PutDigit | include/tidevec/consensus/raft.hpp:1436-1441 | The bytes of an integer are its digits to the base 256, the lowest first, as on a little-endian machine |
| RaftDisk.LogFile.PersistEntries | include/tidevec/consensus/raft.hpp:1590-1607 | All records are appended, or the file is as before |
| RaftDisk.LogFile.Load | include/tidevec/consensus/raft.hpp:1497-1546 | The loading loop finds what the scan says and cuts the rest off |
| RaftDisk.LogFile.CrashAndRecover | include/tidevec/consensus/raft.hpp:1497-1546 | After a crash in an append the log is the old one plus the whole records |
| RaftDisk.LogFile.Compact | include/tidevec/consensus/raft.hpp:1388-1412 | File and log stay in step whether or not the rewrite succeeds |
| RaftSnapshotFile.SnapshotRoundTrip | include/tidevec/consensus/raft.hpp:1548-1579 | A written snapshot file is read back |
| RaftSnapshotFile.DecodedIsEncoded | include/tidevec/consensus/raft.hpp:1624-1641 | A file that passes the checks is exactly what would be written for its contents |
| GF256.TimesDistributes | include/tidevec/erasure/reed_solomon.hpp:70-76 | Multiplication distributes over addition |
| GF256.TimesAssociates | include/tidevec/erasure/reed_solomon.hpp:73-76 | Multiplication is associative |
| GF256.TimesCommutes | include/tidevec/erasure/reed_solomon.hpp:73-76 | Multiplication is commutative |
| GF256.InverseCancels | include/tidevec/erasure/reed_solomon.hpp:90-93 | Every nonzero element has an inverse |
| GF256.IsPower | include/tidevec/erasure/reed_solomon.hpp:58-68 | x generates the multiplicative group, so the log table has no gap |
| GF256.PrimitiveElement | include/tidevec/erasure/reed_solomon.hpp:56-56 | x has order 255 |
| GF256.Tables.constructor | include/tidevec/erasure/reed_solomon.hpp:58-68 | The loop builds the powers of x and their logarithms |
| GF256.Tables.Mul | include/tidevec/erasure/reed_solomon.hpp:73-76 | The table product is the product of polynomials modulo the primitive one |
| GF256.Tables.Div | include/tidevec/erasure/reed_solomon.hpp:78-82 | The table quotient; division by zero is refused |
| GF256.Tables.Pow | include/tidevec/erasure/reed_solomon.hpp:84-88 | The table power is repeated multiplication |
| GF256.Tables.Inv | include/tidevec/erasure/reed_solomon.hpp:90-93 | The table inverse; the inverse of zero is refused |
| GFLinear.SwapKeeps | include/tidevec/erasure/reed_solomon.hpp:149-152 | Swapping rows keeps right half * A = left half, and the right half without kernel |
| GFLinear.ScaleKeeps | include/tidevec/erasure/reed_solomon.hpp:153-156 | So does scaling a row |
| GFLinear.AddRowKeeps | include/tidevec/erasure/reed_solomon.hpp:157-164 | So does adding a multiple of another row |
| GFLinear.Finished | include/tidevec/erasure/reed_solomon.hpp:166-171 | When all columns are done the right half inverts A from both sides |
| GFLinear.Stuck | include/tidevec/erasure/reed_solomon.hpp:143-147 | Without a pivot the columns of A are dependent |
| GFLinear.ProductsAreIdentity | include/tidevec/erasure/reed_solomon.hpp:132-172 | B A = A B = I |
| GFMatrix.GFMatrix.Invert | include/tidevec/erasure/reed_solomon.hpp:132-172 | inverse() throws exactly when the columns are dependent, and otherwise inverts from both sides |
| GFMatrix.GFMatrix.MulVec | include/tidevec/erasure/reed_solomon.hpp:175-181 | The loops compute matrix times vector |
| GFMatrix.GFMatrix.RowsSubset | include/tidevec/erasure/reed_solomon.hpp:123-129 | The selected rows, in order |
| ReedSolomonCode.Systematic | include/tidevec/erasure/reed_solomon.hpp:207-214 | The first k shards are the data itself |
| ReedSolomonCode.TwoParityShards | include/tidevec/erasure/reed_solomon.hpp:215-217 | With m <= 2 any k shards determine the data |
| ShardChoice.AnyMaskDecodesIff | include/tidevec/erasure/reed_solomon.hpp:260-272 | Every mask with at least k bits can be decoded exactly when m <= 2 or k <= 3 |
| ShardChoice.AnyChoiceDecodesIff | include/tidevec/erasure/reed_solomon.hpp:9-9 | Any k of the k + m shards determine the data exactly when m <= 2 or k <= 3 |
| ShardChoice.SmallCodes | include/tidevec/erasure/reed_solomon.hpp:215-217 | With k <= 3 and any number of parity shards any k shards determine the data |
| ShardChoice.LargeCodesFail | include/tidevec/erasure/reed_solomon.hpp:215-217 | For every k >= 4 and m >= 3 data shards 0, 1 and 3 cannot be replaced by the first three parity shards |
| ReedSolomonCode.TenFourFails | include/tidevec/erasure/reed_solomon.hpp:9-9 | RS(10,4) does not survive the loss of shards 1, 2 and 4 |
| ReedSolomonCode.AmbiguousIff | include/tidevec/erasure/reed_solomon.hpp:270-272 | A mask is judged by the chosen parity rows on the lost columns alone: the data shards that are there do not matter |
| ReedSolomonCode.AmbiguousDataExists | include/tidevec/erasure/reed_solomon.hpp:270-272 | Where decoding fails, two different inputs have the same chosen shards |
| ReedSolomonCode.AvailableCount | include/tidevec/erasure/reed_solomon.hpp:260-266 | k shards are found exactly when k are present |
| ReedSolomon.ReedSolomon.constructor | include/tidevec/erasure/reed_solomon.hpp:207-218 | The loops build identity rows over Vandermonde rows |
| ReedSolomon.ReedSolomon.Encode | include/tidevec/erasure/reed_solomon.hpp:223-249 | Each column of the padded data times the generator |
| ReedSolomon.ReedSolomon.Decode | include/tidevec/erasure/reed_solomon.hpp:255-291 | Fails exactly with too few shards or dependent rows; otherwise returns the data the shards were made from |
| Filters.RangeOfMeans | include/tidevec/core/filter.hpp:161-171 | The range builder applies all four optional bounds, however they overlap |
| Filters.LeafComplements | include/tidevec/core/filter.hpp:243-252 | $ne and $nin select exactly what $eq and $in leave out, and `exists` false what `exists` true leaves out |
| Filters.ExistsMeans | include/tidevec/core/filter.hpp:214-224 | `exists` holds for the two fields and for a payload key exactly when the document has it |
| Filters.InIsSomeEq | include/tidevec/core/filter.hpp:245-252 | $in is the disjunction of $eq over its values, $nin the conjunction of $ne |
| Filters.EqMeans | include/tidevec/core/filter.hpp:230-241 | A payload key equals a text exactly when it holds that text, and a number exactly when what it holds reads as that number |
| Filters.EqOfFields | include/tidevec/core/filter.hpp:214-241 | The id is compared as text, the time stamp as a number |
| Filters.RangeSelects | include/tidevec/core/filter.hpp:253-257 | A range selects exactly the documents whose key reads as a number within all given bounds |
| Filters.NegateMeans | include/tidevec/core/filter.hpp:205-206 | NOT of one child is its complement |
| Filters.DeMorgan | include/tidevec/core/filter.hpp:196-206 | NOT turns AND into OR of NOTs and back, on lists that are not empty |
| Filters.ListsJoin | include/tidevec/core/filter.hpp:197-204 | AND of two lists asks for both, OR for either; both hold of everything when empty |
| Filters.LegacySelects | include/tidevec/core/filter.hpp:276-280 | "key=value" selects exactly the documents that hold the value under the key |
| Filters.LegacySplits | include/tidevec/core/filter.hpp:276-280 | It is split at the first '=' |
| Filters.LegacyIff | include/tidevec/core/filter.hpp:277-278 | and is a filter exactly when it holds one |
| Filters.EffectiveFilter | include/tidevec/core/filter.hpp:274-295 | The combined filter holds exactly when each given restriction holds |
| NumericIndex.Index.Add | include/tidevec/index/payload_index.hpp:37-40 | Adding, with or without a merge, keeps the multiset of entries |
| NumericIndex.Index.Bounds | include/tidevec/index/payload_index.hpp:69-83 | The two binary searches delimit exactly the entries in range |
| NumericIndex.Index.Count | include/tidevec/index/payload_index.hpp:45-50 | As many as a plain scan over everything added |
| NumericIndex.Index.Collect | include/tidevec/index/payload_index.hpp:52-58 | The ids a plain scan over everything added finds |
| NumericIndex.MergeSorted | include/tidevec/index/payload_index.hpp:85-91 | Merging two ordered runs is ordered and keeps the multiset |
| NumericIndex.ScanPermuted | include/tidevec/index/payload_index.hpp:45-58 | A scan does not depend on the order of the entries |
| PayloadSpec.EstimateBounds | include/tidevec/index/payload_index.hpp:127-167 | When estimate() answers, no more live documents match, for every filter tree |
| PayloadSpec.RangeIsExact | include/tidevec/index/payload_index.hpp:157-163 | The estimate of a range is exactly the number of adds that match it |
| PayloadSpec.EqIsExact | include/tidevec/index/payload_index.hpp:147-156 | So is that of an equality with one value, unless it names the document id |
| PayloadSpec.AndIsLeast | include/tidevec/index/payload_index.hpp:132-137 | AND is estimated as its most selective part, and not at all only when no part can be |
| PayloadSpec.OrAdds | include/tidevec/index/payload_index.hpp:138-146 | OR is estimated as the sum of its parts, and only when all can be |
| PayloadSpec.EmptyOrIsWrong | include/tidevec/index/payload_index.hpp:138-146 | An OR without children matches everything and is estimated at none |
| PayloadSpec.NumericIdIff | include/tidevec/index/payload_index.hpp:253-256 | The estimate for a number compared with the document id is a bound exactly when no other text is that number |
| PayloadIndex.PayloadIndex.Add | include/tidevec/index/payload_index.hpp:109-119 | Postings, numbers, dates and completeness are those of all adds so far |
| PayloadIndex.PayloadIndex.Estimate | include/tidevec/index/payload_index.hpp:127-167 | The recursion answers what the adds say |
| PayloadIndex.PayloadIndex.Collect | include/tidevec/index/payload_index.hpp:195-245 | Every live match is among the candidates, and there are no more candidates than estimate() says, for every filter tree that it answers |
| PayloadIndex.Intersect | include/tidevec/index/payload_index.hpp:219-223 | Walking two ascending lists finds exactly the common ids |
| Bm25Spec.ScoreOrder | include/tidevec/index/bm25_index.hpp:110-123 | The order in which the query's terms are visited does not matter |
| Bm25Spec.TokensAreWords | include/tidevec/index/bm25_index.hpp:37-50 | Tokens are nonempty and hold only lower-cased word characters |
| Bm25Spec.TokensKeepLetters | include/tidevec/index/bm25_index.hpp:37-50 | The tokens of a text, joined, are its lower-cased word characters: none is lost |
| Bm25Spec.TokensSplit | include/tidevec/index/bm25_index.hpp:43-46 | Every other character separates |
| Bm25Spec.RunIsToken | include/tidevec/index/bm25_index.hpp:41-42 | and word characters do not: a run of them is one token |
| Bm25Ranking.RarerWeighsMore | include/tidevec/index/bm25_index.hpp:113-120 | A term's weight is positive and strictly falls as more documents contain it |
| Bm25Ranking.OftenerWeighsMore | include/tidevec/index/bm25_index.hpp:118-120 | It strictly rises with the term's occurrences |
| Bm25Ranking.LongerWeighsLess | include/tidevec/index/bm25_index.hpp:118-120 | It strictly falls with the document's length |
| Bm25Ranking.OnceAtAverage | include/tidevec/index/bm25_index.hpp:114-120 | In a document of average length one occurrence weighs exactly the idf, whatever k1 and b are |
| Bm25Ranking.AverageIs | include/tidevec/index/bm25_index.hpp:107-108 | The average length is the tokens per document, never taken below one |
| Bm25Ranking.RarerFirst | include/tidevec/index/bm25_index.hpp:110-135 | Of two equally long documents that hold one query term each, equally often, the one with the rarer term is returned first |
| Bm25Ranking.OftenerFirst | include/tidevec/index/bm25_index.hpp:110-135 | Of two equally long documents with the same query term, the one that holds it more often |
| Bm25Ranking.ShorterFirst | include/tidevec/index/bm25_index.hpp:110-135 | Of two documents that hold it equally often, the shorter one |
| Bm25Ranking.ScoresPositive | include/tidevec/index/bm25_index.hpp:110-122 | A document scores above zero exactly when it contains a query term |
| Bm25Index.Tokenize | include/tidevec/index/bm25_index.hpp:37-50 | The loop cuts the text into its maximal runs |
| Bm25Index.SeenIffContains | include/tidevec/index/bm25_index.hpp:115-117 | search accepts a posting of a term for exactly the live documents that contain it |
| Bm25Index.OnePerDocument | include/tidevec/index/bm25_index.hpp:115-117 | and at most one per document |
| Bm25Index.Index.Add | include/tidevec/index/bm25_index.hpp:54-71 | Postings, frequencies and lengths are exact for the documents with the new one |
| Bm25Index.Index.Remove | include/tidevec/index/bm25_index.hpp:73-86 | and for the documents without the removed one |
| Bm25Index.Index.Search | include/tidevec/index/bm25_index.hpp:99-137 | The answer is the top k of direct scoring over the live documents |
| Lloyd.NearestIsClosest | include/tidevec/quantization/product_quantizer.hpp:79-90 | The chosen centroid is closest |
| Lloyd.MeanIsClosest | include/tidevec/quantization/product_quantizer.hpp:91-105 | The mean minimizes the total squared distance of its cluster |
| Lloyd.LloydDescent | include/tidevec/quantization/product_quantizer.hpp:77-106 | One iteration never increases the total distance to the nearest centroids, also with empty clusters |
| ProductQuantizer.TrainingDescends | include/tidevec/quantization/product_quantizer.hpp:77-106 | Nor do any number of iterations |
| ProductQuantizer.UntouchedBeyond | include/tidevec/quantization/product_quantizer.hpp:71-106 | Seeding and any number of iterations leave the centroids beyond the number of samples as they were |
| ProductQuantizer.FewSamplesStay | include/tidevec/quantization/product_quantizer.hpp:67-106 | Training on at most 256 samples leaves every one among the centroids, at cost zero, after any number of iterations |
| ProductQuantizer.SamplesRoundTrip | include/tidevec/quantization/product_quantizer.hpp:50-136 | Every one of at most 256 training samples is then decoded exactly from its code |
| ProductQuantizer.Iterate | include/tidevec/quantization/product_quantizer.hpp:77-106 | The loops assign every sample to its nearest centroid and move the nonempty clusters to their means |
| ProductQuantizer.ClusterSums | include/tidevec/quantization/product_quantizer.hpp:91-100 | The accumulating loops compute sums and sizes of the clusters |
| ProductQuantizer.Quantizer.Train | include/tidevec/quantization/product_quantizer.hpp:50-108 | Every codebook is seeded from the samples and iterated; a wrong dimension changes nothing |
| ProductQuantizer.EncodingIsOptimal | include/tidevec/quantization/product_quantizer.hpp:111-127 | The code decodes at least as close as any of the 256^M codes |
| ProductQuantizer.Quantizer.Encode | include/tidevec/quantization/product_quantizer.hpp:111-127 | The loop finds that code |
| ProductQuantizer.Quantizer.Decode | include/tidevec/quantization/product_quantizer.hpp:130-136 | The named centroids, one after another |
| ProductQuantizer.DistanceSplits | include/tidevec/quantization/product_quantizer.hpp:157-163 | The distance to a decoded vector is the sum over the subspaces |
| ProductQuantizer.Quantizer.AdcDistance | include/tidevec/quantization/product_quantizer.hpp:146-163 | The table sum is exactly the squared distance to the decoded vector |
| Placement.MixIsBijection | include/tidevec/cluster/multi_raft_router.hpp:60-63 | The final mixing of the hash is a bijection on 64-bit words |
| Placement.OneByteMatters | include/tidevec/cluster/multi_raft_router.hpp:49-64 | Ids that differ in one byte never have the same hash |
| Placement.FnvStepUndone | include/tidevec/cluster/multi_raft_router.hpp:51-51 | A step can be undone, for the hash before it and for the byte |
| Placement.KnownHash | include/tidevec/cluster/multi_raft_router.hpp:49-53 | The unmixed hash of "a" |
| Placement.ShardHashOf | include/tidevec/cluster/multi_raft_router.hpp:49-64 | The steps compute the mixed FNV-1a hash |
| Placement.Uniform | include/tidevec/cluster/multi_raft_router.hpp:92-107 | An equal split tiles the hash space with sizes differing by at most n - 1 |
| Placement.Validate | include/tidevec/cluster/multi_raft_router.hpp:147-164 | Accepts exactly ordered ranges joined modulo 2^64 |
| Placement.AcceptedTilesIff | include/tidevec/cluster/multi_raft_router.hpp:147-164 | An accepted placement tiles exactly when only its last group reaches the top |
| Placement.OverlapAccepted | include/tidevec/cluster/multi_raft_router.hpp:161-161 | Two groups that both own everything are accepted |
| Placement.Owner | include/tidevec/cluster/multi_raft_router.hpp:166-171 | The binary search returns the only group that owns the id |
| Placement.SplitUpsert | include/tidevec/cluster/multi_raft_router.hpp:397-405 | Each item goes to its owner, in order; non-objects are refused |
| Placement.NothingLost | include/tidevec/cluster/multi_raft_router.hpp:397-405 | The parts together hold every item once |
| RateLimiter.WindowBound | include/tidevec/api/server_security.hpp:79-98 | In any window of length t the limiter, evicting at any number of buckets, allows at most burst + rate * t requests of a key |
| RateLimiter.AllowedIff | include/tidevec/api/server_security.hpp:79-98 | Exactly the requests are allowed that keep every window ending with them within burst + rate * t: none that could be allowed is refused |
| RateLimiter.PruningIsInvisible | include/tidevec/api/server_security.hpp:110-116 | With a positive rate, or a burst below one, evicting never changes an answer of a run |
| RateLimiter.EvictionIsInvisibleIff | include/tidevec/api/server_security.hpp:79-116 | and for no other limiter |
| RateLimiter.ForgottenTwice | include/tidevec/api/server_security.hpp:110-116 | The run that shows it: one client spends its burst, others fill the table, and the first is allowed again |
| RateLimiter.RateLimiter.Allow | include/tidevec/api/server_security.hpp:79-98 | One request: refill, answer, spend |
| RateLimiter.RateLimiter.Prune | include/tidevec/api/server_security.hpp:110-116 | Exactly the buckets idle for burst / rate are erased |

## Left out

- RaftSafety.StateMachineSafety: proved, like the other theorems of RaftSafety, for runs in which remove_server drops no id listed so often that quorums could part (RaftTypes.SafeRemoval); without a condition it is false (RaftDoubleAdd.DoubleAddIsUnsafe).
- RaftTypes.RemovalMeetsIff: the other ids are listed once each; with several ids listed more than once, RaftTypes.RemovalMeets still shows the condition to be enough.
- RaftDoubleAdd.DoubleAddIsUnsafe: fixes batches of one entry; the model's add_server takes any batch size.
- RaftNodeInvariant.OnInstallSnapshotValid: requires that the snapshot covers what is committed; RaftSafety.SnapshotsCoverCommitted shows that this holds in every clean run.
- RaftRollback.RollbackInRuns: for a leader that has not compacted its log; a compacted one falls back to sending its snapshot (RaftRollback.Parting admits a snapshot below the parting point).
- RaftDisk.RecordRoundTrip: for records below 4 GiB; the format's 32-bit lengths truncate larger ones.
- RaftRecovery.Recovery: says that such a run exists, not that timers and the network bring it about; its election goes without pre-vote (RaftProgress.PreQuorumStands is the step that pre-vote adds).
- Bm25Ranking.RarerFirst: for documents that hold one of the query's terms each; sums over several terms are compared only through their scores (Bm25Ranking.HigherFirst).
- Threads, condition variables, clocks and random timers: a timer may fire at any time, leader stickiness is an arbitrary refusal, and check-quorum an arbitrary step-down.
- `lease_read` (raft.hpp:511-531): depends on clock drift.
- Swallowed persistence failures: a term adopted in memory but not on disk (raft.hpp:1006-1011), and a failed log rewrite after installing a snapshot without a kept suffix (raft.hpp:771-790). Writes succeed or the handler refuses; that install is one atomic write.
- A failing `ftruncate` after a failed append (raft.hpp:1602-1605).
- 64-bit wrap-around of terms and indices, and the 32-bit wrap-around of BM25's lengths, frequencies and versions.
- `leader_id`, the addresses of peers, transports, and retired peers: they do not influence what a node stores or commits. Retired peers stay in the peer table, as in the source.
- Exceptions of the application's apply and restore callbacks: they succeed. Whether an entry is passed on (NOOP and CONFIG are not) is left to the state machine.
- What a waiting caller of `wait_committed` may conclude (raft.hpp:457-463): it returns once the commit index passes, whatever entry is there.
- The text form of a membership and of `raft_meta`: a CONFIG entry holds the membership itself.
- The FNV-1a checksum: recovery is proved for any checksum function.
- `GFMatrix` keeps its entries in a two-dimensional array instead of a flat one; the bit mask of present shards is a set.
- `durability_loss_probability` and the other probability estimates.
- Floating point: reals in the quantizer, BM25, the token bucket and the numeric index; the logarithm and number parsing are parameters.
- `std::sort`, `std::partial_sort`, `std::inplace_merge` and `std::set_intersection` are replaced by simple loops with the same result; `std::shuffle` by an arbitrary order.
- `PayloadIndex::expected` (payload_index.hpp:172-193): only used to pick a plan.
- A null id lookup in the payload index, and internal ids shared by two live documents.
- Date parsing (filter.hpp:44-112).
- `Placement::from_json`, HTTP, authentication, tenants, backups and the vector index itself.

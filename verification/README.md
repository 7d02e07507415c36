# Gringofts, verified in Dafny

Gringofts is an event-sourcing framework in C++: commands are turned into events, commands and events are
replicated by a Raft implementation, and every node applies the committed events to its own state. This project
models the three parts of it that are hardest to get right, and proves what they promise.

* **Consensus.** `RaftNode` is one node of `RaftCore.cpp` as a value: a function per handler and per step of the main
  loop, with every assertion of the program as a `Fault`. `RaftCluster` lets any number of nodes with one fixed
  membership (voters, learners, pre-followers, or a joint membership) exchange calls that may be lost, delayed,
  reordered and served more than once, with restarts at any time. `RaftLedger` holds the argument why this is safe,
  `RaftSteps` shows that each step keeps it, and `RaftSafety` states what holds in every run. `RaftProbing` and
  `RaftProbeTrace` settle when the assertion about probing a follower holds. `RaftCore` is the mutable object of the
  program, and `RaftDriver` runs such objects through any run of the cluster.
* **The log on disk.** `SegmentFiles` is the pair of memory-mapped files of a segment, byte by byte; `Segment` adds the
  authentication codes; `SegmentTear` is about records that reach the disk out of order; `SegmentLog` is the log made of
  segments, with its directory, and `SegmentRestart` about opening it after a truncation; `InMemoryLog` is the plain log
  the program uses for comparison, and `StorageAB` compares them. `LogSpec`, `SegmentRow` and `SegmentDisk` say what
  they all mean.
* **From committed entries to state and back to clients.** `Pipeline` loads, decrypts and delivers; `LeaderPath` is one
  node with its raft thread, its command loop and its apply loop, from winning an election to the first command;
  `ReplyLoop` answers clients; `Checkpoint` is the state machine in RocksDB; `MpscQueue` connects threads.
  `RaftProjection` and `RaftEnvironment` show that what these models let consensus do is what every cluster run does.

Threads are modelled as steps: a step is one atomic access or one region under a lock, and a run is any sequence of
enabled steps. Objects the program updates in place are classes; each method is proved against a function of the old
state. Clocks, the network and cryptography are choices or parameters.

Verify everything with `dafny verify dfyconfig.toml`.

## Model

| member | source | states |
|---|---|---|
| `RaftSafety.StateMachineSafety` | src/infra/raft/v2/RaftCore.cpp:944-967 | In every run, any two nodes at any two moments hold the same entry at every index both have committed. |
| `RaftSafety.LeadersAreComplete` | src/infra/raft/v2/RaftCore.cpp:748-826 | What any node has ever committed is in the log of every leader of a later term, at any moment of its reign. |
| `RaftSafety.ElectionSafety` | src/infra/raft/v2/RaftCore.cpp:1026-1068 | No two nodes ever lead in the same term, even at different moments. |
| `RaftSafety.LogsMatch` | src/infra/raft/v2/RaftCore.cpp:566-605 | Logs of any two nodes at any two moments that have the same term at an index are equal up to it. |
| `RaftSafety.CommitWithinLeader` | src/infra/raft/v2/RaftCore.cpp:620-628 | What a follower has committed is a prefix of the log of the leader of its term. |
| `RaftSafety.LeaderUntilTermEnds` | src/infra/raft/v2/RaftCore.cpp:641-647 | A leader that does not restart stays leader until its term ends. |
| `RaftSafety.OnlyProbingMayFail` | src/infra/raft/v2/RaftCore.cpp:510-745 | In every reachable state no assertion of any handler fails, except possibly the one on the probing gap. |
| `RaftSafety.PeerBounds` | src/infra/raft/v2/RaftCore.cpp:665-743 | A leader always has matchIndex < nextIndex <= lastIndex + 1 for every peer. |
| `RaftProbing.ProbingFailsIff` | src/infra/raft/v2/RaftCore.cpp:710-743 | In every reachable state, completing a call trips the probing assertion if and only if the caller still leads, and the answer is a refusal of its term and of the index it asks about now, which is its match index, above 0, and inside the follower's log. |
| `RaftProbeTrace.ProbingAssertionCanFail` | src/infra/raft/v2/RaftCore.cpp:734 | There is a run of a cluster of three, from its start, after which a step trips that assertion. |
| `RaftProbing.NoAssertionFails` | src/infra/raft/v2/RaftCore.cpp:104-113 | In every run in which no node wins an election while an AppendEntries call of its own is still open, no assertion of any handler fails. |
| `RaftProbing.RefusalNarrows` | src/infra/raft/v2/RaftCore.cpp:695-743 | In such runs each refusal moves nextIndex strictly down, never to the match index. |
| `RaftProbing.ProbeUntilAccepted` | src/infra/raft/v2/RaftCore.cpp:379-452 | Rounds of building, serving and completing a request: after at most nextIndex - matchIndex of them the follower has accepted, at an index where the logs agree; no assertion fails and neither log changes. |
| `RaftProbing.ProbingEnds` | src/infra/raft/v2/RaftCore.cpp:695-743 | In every reachable state, for every leader that holds back bulk data and every node not ahead of its term, such rounds end within that bound, and the new match is an index up to which the two logs are equal. |
| `RaftLedger.LeaderCompleteness` | src/infra/raft/v2/RaftCore.cpp:788-812 | A history in which votes respect logs: an entry committed in a term is in the log every later leader started with. |
| `RaftLedger.CommittedAgree` | src/infra/raft/v2/RaftCore.cpp:955-963 | Two logs agree on what is committed in both. |
| `RaftLedger.MergeAdopts` | src/infra/raft/v2/RaftCore.cpp:575-605 | Skipping matching entries, cutting at the first conflict and appending the rest gives exactly the leader's log up to the last entry sent, keeps the rest of a log that already agrees, and never cuts below the commit index. |
| `RaftSteps.StepKeeps` | src/infra/raft/v2/RaftCore.cpp:262-280 | Every step of the cluster keeps the invariant behind all this and lets the recorded history only grow. |
| `Quorum.VoteMeetsCommit` | src/infra/raft/v2/RaftCore.h:402-441 | In any membership, plain or joint, a winning vote of voters shares a voter with every commit quorum. |
| `Quorum.VoteMeetsVote` | src/infra/raft/v2/RaftCore.h:402-441 | Two winning votes share a member. |
| `Quorum.PreFollowerVotesCanMissCommit` | src/infra/raft/v2/RaftCore.h:402-424 | If pre-followers could be asked for votes, a winning vote could miss a commit quorum. |
| `Quorum.MajorityIndexOf` | src/infra/raft/v2/RaftCore.h:338-374 | Sorting the match indices and taking the middle one gives the largest index that a strict majority stores. |
| `Quorum.GetMajorityIndex` | src/infra/raft/v2/RaftCore.h:376-400 | The same for plain and joint memberships and in-sync learners: the least of the majority indices concerned. |
| `Quorum.CommitIndexUnique` | src/infra/raft/v2/RaftCore.h:376-400 | There is only one such index. |
| `Quorum.CheckQuorumVote` | src/infra/raft/v2/RaftCore.h:402-424 | Counting votes and learners one by one decides whether a strict majority of the members that are not learners voted for the node, itself included. |
| `Quorum.CheckVotePass` | src/infra/raft/v2/RaftCore.h:427-441 | The same for plain and joint memberships. |
| `RaftCore.Core.constructor` | src/infra/raft/v2/RaftCore.cpp:141-195 | A started node is the initial node value. |
| `RaftCore.Core.Restart` | src/infra/raft/v2/RaftCore.cpp:141-222 | Starting over keeps term, vote and log, and nothing else. |
| `RaftCore.Core.TakeEntries` | src/infra/raft/v2/RaftCore.cpp:575-605 | The loop over the entries yields the merged log, or the fault of a gap or of a cut below the commit index. |
| `RaftCore.Core.RecognizeLeader` | src/infra/raft/v2/RaftCore.cpp:551-564 | The node joins the sender's term as its follower, or reports which assertion fails. |
| `RaftCore.Core.HandleAppendEntriesRequest` | src/infra/raft/v2/RaftCore.cpp:510-632 | The object ends as the node value says, with the same reply, and faults exactly when the value does. |
| `RaftCore.Core.HandleAppendEntriesResponse` | src/infra/raft/v2/RaftCore.cpp:637-745 | The same for a response, with the same fault. |
| `RaftCore.Core.CompleteAppendEntries` | src/infra/raft/v2/RaftCore.cpp:312-329 | The same for a finished call, failed or not. |
| `RaftCore.Core.HandleRequestVoteRequest` | src/infra/raft/v2/RaftCore.cpp:748-826 | Node and reply are those of the node value, for votes and pre-votes. |
| `RaftCore.Core.HandleRequestVoteResponse` | src/infra/raft/v2/RaftCore.cpp:828-866 | The same for a vote response. |
| `RaftCore.Core.HandleClientRequests` | src/infra/raft/v2/RaftCore.cpp:868-908 | The loop keeps just the requests of the leader's term that continue its log, in order. |
| `RaftCore.Core.ElectionTimeout` | src/infra/raft/v2/RaftCore.cpp:1070-1117 | An expired timer does to the object what it does to the node value, loop over the peers included. |
| `RaftCore.Core.BecomeCandidate` | src/infra/raft/v2/RaftCore.cpp:990-1024 | A pre-candidate with a quorum stands for the next term; others do not move. |
| `RaftCore.Core.BecomeLeader` | src/infra/raft/v2/RaftCore.cpp:1026-1068 | A candidate with a quorum leads, appends its no-op and resets every peer. |
| `RaftCore.Core.LeadershipTimeout` | src/infra/raft/v2/RaftCore.cpp:1119-1137 | A leader that lost its authority gives up its term. |
| `RaftCore.Core.StepDown` | src/infra/raft/v2/RaftCore.cpp:1202-1220 | The object adopts the term as the node value does. |
| `RaftCore.Core.AdvanceCommitIndex` | src/infra/raft/v2/RaftCore.cpp:944-967 | The commit index moves to the one majority index, if that is an entry of the leader's term. |
| `RaftCore.Core.AppendEntriesTo` | src/infra/raft/v2/RaftCore.cpp:379-452 | The request for a peer, and what sending changes about that peer. |
| `RaftDriver.Execute` | src/infra/raft/v2/RaftCore.cpp:262-377 | For every run of the cluster, objects take all its steps without a fault, exchange the same calls and replies, and end in its last state; so every theorem about runs is about these objects. |
| `RaftProjection.CommittedStays` | src/infra/raft/v2/RaftCore.cpp:594-600 | What a node has committed stays in its log at every later moment, also after it restarts. |
| `RaftProjection.IdsMatchEverywhere` | src/infra/es/store/RaftCommandEventStore.cpp:31-58 | If clients stamp entries with their command's id, then on every node at every moment every command that carries events has its log index as id. |
| `RaftEnvironment.RunIsPath` | src/infra/raft/v2/RaftCore.cpp:262-280 | Between restarts, any cluster run is to a node's other threads a sequence of legal steps of the raft thread as `LeaderPath` has them, whatever prefix is known to be committed at its start. |
| `RaftEnvironment.StepIsPath` | src/infra/raft/v2/RaftCore.cpp:262-280 | The same for one step, whatever prefix of the log is known to be committed. |
| `RaftEnvironment.BootIsStart` | src/infra/raft/v2/RaftCore.cpp:141-222 | A node that starts or restarts is in a state in which `LeaderPath` may start, whatever prefix is known to be committed. |
| `RaftEnvironment.EverCommitted` | src/infra/es/store/ReadonlyRaftCommandEventStore.cpp:344-345 | What a node has ever committed is still known to be committed at every later moment, also when it has restarted and knows less. |
| `RaftEnvironment.RestartsFromCheckpoint` | src/app_util/EventApplyLoop.h:395-408 | After a restart the threads may start and the apply loop may recover at any index that the node had committed before, although its commit index is 0. |
| `RaftEnvironment.StepIsLegal` | src/infra/es/store/ReadonlyRaftCommandEventStore.cpp:224-265 | Each step is also one that `Pipeline` and `ReplyLoop` allow: terms and commit indices rise, committed prefixes stay, ids match. |
| `RaftEnvironment.SameEvents` | src/infra/es/store/ReadonlyRaftCommandEventStore.cpp:159-176 | In every run, the events in a committed prefix on one node are a prefix of those in any longer committed prefix on any node, at any two moments. |
| `RaftEnvironment.DeliveriesAgree` | src/infra/es/store/ReadonlyRaftCommandEventStore.cpp:224-402 | From consensus to state: what the pipelines of any two nodes have delivered, at any two moments and in any interleaving of their threads, is the one a prefix of the other. |
| `InMemoryLog.Log.AppendEntries` | src/infra/raft/storage/InMemoryLog.h:31-48 | Entries are taken as long as each continues the log. |
| `InMemoryLog.Log.GetEntry` | src/infra/raft/storage/InMemoryLog.h:50-66 | The entry at the index, if the log has it. |
| `InMemoryLog.Log.GetEntries` | src/infra/raft/storage/InMemoryLog.h:94-136 | A batch is the longest run from the start index that fits both limits. |
| `InMemoryLog.Log.TruncatePrefix` | src/infra/raft/storage/InMemoryLog.h:138-158 | The log from the kept index on; empty behind its end. |
| `InMemoryLog.Log.TruncateSuffix` | src/infra/raft/storage/InMemoryLog.h:160-179 | The log up to the kept index. |
| `LogSpec.BatchIsGreedy` | src/infra/raft/storage/InMemoryLog.h:106-134 | What a batch is: within the limits, and one more entry would not be. |
| `SegmentFiles.Files.AppendCutShort` | src/infra/raft/storage/Segment.cpp:247-313 | Power is lost in an append: since data is synced before meta records are written, the files hold the old items and the first n new ones, whatever n is. |
| `SegmentFiles.Files.Append` | src/infra/raft/storage/Segment.cpp:247-313 | Both files start with the old and the new items, byte by byte. A scan finds just these if and only if the record behind them does not carry the next index. |
| `SegmentFiles.Files.Recover` | src/infra/raft/storage/Segment.cpp:110-195 | Opening files in which a scan finds certain items gives a segment that holds exactly these, from the files alone. |
| `SegmentFiles.ScanMetas` | src/infra/raft/storage/Segment.cpp:160-170 | The scan ends at the first record whose index does not count on. |
| `SegmentFiles.FoundIff` | src/infra/raft/storage/Segment.cpp:160-170 | Items at the start of the files are what a scan finds if and only if the record behind them does not carry the next index. |
| `SegmentFiles.Files.Read` | src/infra/raft/storage/Segment.cpp:330-357 | The bytes of an item are read back. |
| `SegmentFiles.Files.TruncateSuffix` | src/infra/raft/storage/Segment.cpp:451-488 | The files hold the kept items and are blank behind them. |
| `SegmentFiles.CrashAndRecover` | src/infra/raft/storage/Segment.cpp:110-195 | After a crash in an append, what is recovered from the same two files is the old items and a prefix of the new ones. |
| `SegmentTear.AppendTorn` | src/infra/raft/storage/Segment.cpp:247-313 | Power is lost in an append and any subset of the new meta records has reached the disk: a scan finds the old items and the first unbroken stretch of new ones. |
| `SegmentTear.CleanIff` | src/infra/raft/storage/Segment.cpp:247-313 | The meta file is then blank behind what is found if and only if the records that survived were the first ones. |
| `SegmentTear.TearAndGoOn` | src/infra/raft/storage/Segment.cpp:110-195 | The next process appends in turn: what the one after it finds is right if and only if no record of the lost append survived in the place behind the new ones. |
| `SegmentTear.LostRecordReturns` | src/infra/raft/storage/Segment.cpp:110-195 | A run in which it did: one entry is stored, a scan finds two. |
| `Segment.RotationReaches` | src/infra/raft/storage/Segment.cpp:521-553 | Trying key versions in rotation reaches each exactly once. |
| `Segment.Segment.VerifyHmac` | src/infra/raft/storage/Segment.cpp:521-553 | A digest is accepted if and only if some key version gives it. |
| `Segment.Segment.ShouldRoll` | src/infra/raft/storage/Segment.cpp:219-245 | A batch is refused exactly when its data or its meta records would pass a limit. |
| `Segment.Segment.AppendEntries` | src/infra/raft/storage/Segment.cpp:247-313 | The segment holds the old entries and the new ones. |
| `Segment.Segment.GetEntry` | src/infra/raft/storage/Segment.cpp:345-357 | What was appended is found authentic and parses to itself. |
| `Segment.Segment.GetEntries` | src/infra/raft/storage/Segment.cpp:397-449 | The batch is that of the plain log, every entry authentic. |
| `Segment.Segment.TruncateSuffix` | src/infra/raft/storage/Segment.cpp:451-488 | The segment holds the entries up to the kept index. |
| `Segment.Segment.Recover` | src/infra/raft/storage/Segment.cpp:110-195 | A segment opened on files that hold entries has just these. |
| `Segment.CrashAndReopen` | src/infra/raft/storage/Segment.cpp:110-195 | After a crash in an append the segment reopened on the same files has the old entries and a prefix of the new ones, all authentic. |
| `SegmentLog.Log.constructor` | src/infra/raft/storage/SegmentLog.cpp:68-88 | An empty directory gives the empty log that starts at 1. |
| `SegmentLog.Log.RollActiveSegment` | src/infra/raft/storage/SegmentLog.cpp:172-181 | Rolling changes neither the log nor what a restart would find. |
| `SegmentLog.Log.AppendEntries` | src/infra/raft/storage/SegmentLog.cpp:282-307 | A batch that continues the log is appended, rolling if it must; one that does not is refused. |
| `SegmentLog.Log.GetSegment` | src/infra/raft/storage/SegmentLog.cpp:187-211 | The segment that holds the index, or none if the index is outside the log. |
| `SegmentLog.Log.GetEntry` | src/infra/raft/storage/SegmentLog.cpp:213-222 | The entry at the index, if the log has it. |
| `SegmentLog.Log.GetTerm` | src/infra/raft/storage/SegmentLog.cpp:224-235 | The term at the index, and 0 for the index in front of the first. |
| `SegmentLog.Log.GetEntries` | src/infra/raft/storage/SegmentLog.cpp:237-256 | A batch from one segment: the greedy one, cut at the end of the segment that holds the start index. |
| `SegmentLog.Log.TruncatePrefix` | src/infra/raft/storage/SegmentLog.cpp:309-352 | The log from the kept index on. What a restart would find is the same log, except exactly when the kept index is behind the end and not where the active segment starts: then the directory has two segments in progress. |
| `SegmentLog.Log.TruncateSuffix` | src/infra/raft/storage/SegmentLog.cpp:354-431 | The log up to the kept index, and a restart would find it, if the kept index is at least first - 1. Below that, exactly what goes wrong. |
| `SegmentRestart.TruncatePrefixAndReopen` | src/infra/raft/storage/SegmentLog.cpp:309-352 | After a prefix truncation the log can be opened again, and is the truncated one, if and only if the kept index is at most the first or the last one or is where the active segment starts. |
| `SegmentRestart.StrandedByPrefix` | src/infra/raft/storage/SegmentLog.cpp:309-352 | One entry, truncation to index 3, and the log cannot be opened: two segments are in progress. |
| `SegmentRestart.TruncateSuffixAndReopen` | src/infra/raft/storage/SegmentLog.cpp:354-431 | After a suffix truncation the next process finds the truncated log if and only if the kept index is at least first - 1. |
| `SegmentRestart.ForgottenBySuffix` | src/infra/raft/storage/SegmentLog.cpp:354-431 | Three entries, the first two cut off, truncation to index 1: the next process does not find the truncated log. |
| `SegmentLog.Log.ListSegments` | src/infra/raft/storage/SegmentLog.cpp:90-121 | Listing finds the segments the directory describes, and fails if two are in progress. |
| `SegmentLog.Log.LoadClosed` | src/infra/raft/storage/SegmentLog.cpp:123-158 | Going through the names in ascending order loads the segments that adjoin, from the one that reaches the first index on; anything else is refused. |
| `SegmentLog.Log.Reopen` | src/infra/raft/storage/SegmentLog.cpp:68-170 | A new process that knows only the directory gets just the segments that the old one left. |
| `SegmentLog.Log.CloseAndReopen` | src/infra/raft/storage/SegmentLog.cpp:68-170 | Closing and opening changes nothing. |
| `SegmentLog.Log.CrashInAppend` | src/infra/raft/storage/SegmentLog.cpp:282-307 | Power is lost in an append, on the files themselves: the reopened log is the old one and a prefix of the batch. |
| `StorageAB.Drive` | src/infra/raft/StorageMain.cpp:51-173 | After any sequence of appends, truncations and restarts within the limits the log of segments, the plain log and the specification agree in every respect. |
| `StorageAB.Compare` | src/infra/raft/StorageMain.cpp:51-173 | Reading any index gives the same answer from both. |
| `Pipeline.DeliversInOrder` | src/infra/es/store/ReadonlyRaftCommandEventStore.cpp:224-402 | In every interleaving of loader, decrypting workers and apply thread, while raft rewrites uncommitted entries: what was delivered is exactly the events of the committed commands behind the offset up to some index, in order, none twice and none missing. |
| `Pipeline.DeliveredGrows` | src/infra/es/store/ReadonlyRaftCommandEventStore.cpp:113-134 | What was delivered stays delivered, and the applied index never falls. |
| `Pipeline.AsyncIsSync` | src/infra/es/store/ReadonlyRaftCommandEventStore.cpp:338-402 | A run of all threads delivers what a run in which the apply thread loads by itself delivers. |
| `LeaderPathSafety.ReadyMeansApplied` | src/infra/es/store/ReadonlyRaftCommandEventStore.cpp:178-218 | When waiting returns an index for a term, that record is a committed no-op of the term, and the apply loop has applied exactly the events up to there, or further. |
| `LeaderPathSafety.ProcessedOnlyWhenPrepared` | src/app_util/CommandProcessLoop.h:180-257 | A command is processed only in a term this node led and for which the loop has waited and taken over the state. |
| `LeaderPathSafety.CommandsMeetTheirIndex` | src/app_demo/should_be_generated/domain/CommandProcessLoop.hpp:23-56 | A command that reaches the leader of its term is the next record of the log: its id is its index, and it was processed on exactly the state of the log in front of it. |
| `LeaderPathSafety.LogFollowsPlan` | src/infra/raft/RaftLogStore.cpp:80-149 | While a term lasts, the leader's log is its no-op and a prefix, in order, of the commands processed in the term. |
| `LeaderPathSafety.IdsMatchIndices` | src/infra/es/store/RaftCommandEventStore.cpp:31-58 | At every moment records with events have their index as id. |
| `LeaderPathSafety.RecordedLeadershipIsReal` | src/infra/raft/RaftLogStore.cpp:44-78 | A leadership is recorded only for a term in which this node was crowned. |
| `LeaderPathSafety.RecordedTermGrows` | src/infra/raft/RaftLogStore.cpp:44-78 | The recorded term never falls, and a recorded leadership lasts as long as its term. |
| `LeaderPathSafety.TransitionsPossible` | src/infra/es/store/RaftCommandEventStore.cpp:60-118 | The table of transitions never meets a case it asserts to be impossible. |
| `ReplyLoop.RepliesAreSound` | src/infra/raft/RaftReplyLoop.cpp:98-197 | In every run each task is answered at most once; with its own code only if the entry with its index and term is committed; and it leaves the queue only answered. |
| `ReplyLoop.AnswersStay` | src/infra/raft/RaftReplyLoop.cpp:49-97 | A task keeps what it was pushed with, and an answer is never changed or repeated. |
| `ReplyLoop.TermNeverBehind` | src/infra/raft/RaftReplyLoop.cpp:126-170 | The assertion that the term is not behind that of a task holds at every read. |
| `Checkpoint.StateMachine.Commit` | src/app_demo/v2/RocksDBBackedAppStateMachine.cpp:53-69 | The index joins the batch, and the batch is written if the index is a batch ahead, in unsigned 64-bit arithmetic. |
| `Checkpoint.StateMachine.ApplyBundle` | src/app_util/EventApplyLoop.h:194-243 | Applying a bundle moves the state to its index; what is on disk is always the state at the index on disk. |
| `Checkpoint.StateMachine.CommitAgain` | src/app_util/EventApplyLoop.h:202-206 | The periodic commit changes nothing that could be recovered. |
| `Checkpoint.StateMachine.SwapOut` | src/app_demo/v2/MemoryBackedAppStateMachine.h:46-52 | The state handed over is that of the log up to the applied index, and the database has caught up with it. |
| `Checkpoint.StateMachine.RecoverSelf` | src/app_demo/v2/RocksDBBackedAppStateMachine.cpp:41-51 | The state is that of the log up to the index on disk. |
| `Checkpoint.StateMachine.Replay` | src/app_util/EventApplyLoop.h:194-243 | Applying what follows leads to the state of the log up to any index. |
| `Checkpoint.CrashAndReplay` | src/app_demo/v2/RocksDBBackedAppStateMachine.cpp:21-69 | Dying at any moment and replaying gives the state of never having died. |
| `Checkpoint.Drive` | src/app_demo/v2/RocksDBBackedAppStateMachine.cpp:21-142 | After any sequence of bundles, periodic commits, handovers, recoveries and crashes, also inside a bundle: the machine holds the state of the log up to the last index it got to, the database holds the state of the log up to its own index, and that is less than a batch behind. |
| `Checkpoint.CatchUp` | src/app_util/EventApplyLoop.h:194-243 | From wherever such a sequence ended, applying the rest of the log leads to the state of never having stopped. |
| `Checkpoint.FlushedSoon` | src/app_demo/v2/RocksDBBackedAppStateMachine.cpp:60-69 | In any such sequence the index on disk is always less than one batch behind the applied one. |
| `MpscQueue.Queue.Enqueue` | src/infra/mpscqueue/MpscDoubleBufferQueue.cpp:18-33 | The item is behind all others, and the consumer is woken if it may be asleep. |
| `MpscQueue.Queue.MayEnqueue` | src/infra/mpscqueue/MpscDoubleBufferQueue.cpp:18-22 | The check in front of the lock passes exactly while the queue is not shut down. |
| `MpscQueue.Queue.Dequeue` | src/infra/mpscqueue/MpscDoubleBufferQueue.cpp:36-72 | The oldest item that has not come out; stopped only when nothing is left. |
| `MpscQueue.Interleave` | src/infra/mpscqueue/MpscDoubleBufferQueue.cpp:18-72 | In any interleaving each attempt to dequeue gets its answer: the next item in the order of the lock if one is left, otherwise stopped after a shutdown and blocked before it. A producer whose check came before the shutdown still gets in, a later one does not. |
| `MpscQueue.ItemsInOrder` | src/infra/mpscqueue/MpscDoubleBufferQueue.cpp:18-72 | The items among these answers are those put in, in the order of the lock: none lost, none twice. |

## Findings

Properties the program does not have, each with the exact condition under which it has them.

* **The probing assertion can fail** (`src/infra/raft/v2/RaftCore.cpp:734`). A leader that loses its authority and wins
  again while a call of its earlier reign is open gets its AppendEntries switch turned on by the completion of the old
  call. It then has two calls of its new term under way to the same peer, and the refusal of the first may come back
  when the second and third have been accepted. `RaftProbeTrace.ProbingAssertionCanFail` is such a run of three nodes;
  `RaftProbing.ProbingFailsIff` is the exact condition on the state and the answer. On the condition that no node wins
  an election while an AppendEntries call of its own is open, no assertion fails (`RaftProbing.NoAssertionFails`). The
  program demands timeouts (lines 104-113 of the same file) that aim at this condition; that they bring it about is not
  proved here. No other assertion can fail (`RaftSafety.OnlyProbingMayFail`).
* **Truncating a prefix past the last index can leave two segments in progress**
  (`src/infra/raft/storage/SegmentLog.cpp:309-352`). The log in memory is right, but the file of the old active segment
  stays, and the next start stops at an assertion. `SegmentRestart.TruncatePrefixAndReopen` says exactly when, and
  `SegmentRestart.StrandedByPrefix` is a run. Consensus itself asserts that the kept index is at most the commit index
  (`src/infra/raft/v2/RaftCore.h:257`), so only direct users of the log can meet this.
* **Truncating a suffix below first - 1 is not persistent** (`src/infra/raft/storage/SegmentLog.cpp:354-431`). If the kept
  index is below the first index of every segment, the first index is moved in memory but not on disk; if it is between
  that and the first index of the log, the first index is not moved at all. `SegmentLog.Log.TruncateSuffix` says so,
  `SegmentRestart.TruncateSuffixAndReopen` says exactly when the next process finds the truncated log, and
  `SegmentRestart.ForgottenBySuffix` is a run.
* **A meta record of a lost append can come back** (`src/infra/raft/storage/Segment.cpp:247-313`). The records of one
  append are written together and then synced. If the disk has written a later one but not an earlier one when power is
  lost, the next scan stops in front of the gap, which is right, but does not blank what lies behind. After further
  entries have closed the gap, a scan takes the old record for the next entry. `SegmentTear.TearAndGoOn` is the exact
  condition, and `SegmentTear.LostRecordReturns` is a run.
* **Votes of pre-followers would be unsafe.** They count in the total but not for commits, so safety rests on nobody
  asking them: `Quorum.PreFollowerVotesCanMissCommit` against `Quorum.VoteMeetsCommit`. `requestVote` asks voters only,
  and the cluster model proves that no other vote is ever held.

## Left out

- Membership changes: `configurationSwitch` and runs across two memberships; every membership, joint ones included, is fixed for a run.
- The log synchronisation role (Syncer) and its requests; streaming; metrics; test points.
- Prefix truncation inside a cluster: logs in `RaftCluster` start at 1, so the branches of `handleAppendEntriesResponse` for a leader whose log starts later are only modelled as far as a first index of 1 reaches them.
- Replies to clients from `handleClientRequests` itself; `ReplyLoop` covers the replies of the reply threads.
- gRPC: a call to an unknown node is one that is never answered; an unknown id is treated as a non-voter.
- Time: timers are choices. The only use of real time is the condition of `RaftProbing.NoAssertionFails`.
- Term and vote are written by two calls; the model treats a change of both as one.
- Crashes between the two renames of a rolled segment, or inside a truncation.
- Memory mapping, file growth on reopening, OpenSSL: authentication codes and sizes are parameters.
- Aliasing between a `SegmentLog.Log` and its segments: the log holds segments as values; `SegmentLog.Log.CrashInAppend` ties its active segment to a `Segment` object with files.
- Concurrent readers of a log of segments.
- 64-bit wrap-around, except the subtraction in `Checkpoint.StateMachine.Commit`.
- SQLite stores, snapshots, the splitting of clusters, and the applications other than the demo counter.
- RaftEnvironment.RunIsPath: takes the requests a node will be handed as already in its inbox; requests only ever join at its end.
- SegmentLog.Log.AppendEntries: takes batches whose indices count on, which the program asserts, and which fit an empty segment, which the program does not check before it writes.
- SegmentFiles.Files.AppendCutShort: lets the meta records reach the disk in order only, and so do the crashes of whole segments and logs built on it; `SegmentTear` covers any order for the files of one segment.
- StorageAB.Drive: leaves the truncations listed under Findings to `SegmentLog.Log.TruncatePrefix` and `SegmentLog.Log.TruncateSuffix`, since there the two logs do differ.
- RaftDriver.Execute: needs a membership in which the majorities are not empty, since the program takes the middle of a list.

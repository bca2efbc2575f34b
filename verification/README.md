# PyRaftKV in Dafny

A model of PyRaftKV, a key-value store replicated by a single Raft group, with proofs. It covers
elections, log replication with conflict repair, majority commit, compaction and InstallSnapshot,
leadership transfer, the journal and crash recovery of a node, reads through a quorum barrier,
and the standalone write-ahead-log engine.

`dafny verify dfyconfig.toml` checks everything.

## How it is laid out

**Nodes.** `RaftState`, `RaftLog`, `KVStore`, `ElectionTracker`, `LeaderReplication`,
`RaftPersistence` and `RaftNode` are classes with the program's fields, aliases and loops. Each of
their methods is one region the program runs under a node's Raft lock, and is proved to do to the
object, and to its files, exactly what a function of values does (`LogView`, `StateView`,
`NodeView`, `Disk`). Where a method of the program raises, the function is `None` and the method
says so.

**The cluster** (`Cluster.dfy`) is a map of node values and disks, and a set of messages that never
shrinks: what was sent may arrive late, twice, in any order or never. An event is one region of one
node, or a crash after any number of that region's durable writes followed by recovery, or a
restart. Timers and clients act whenever they like.

**The proof** goes through a history that the program does not keep (`History.dfy`): every node's
log as it would be had nothing been compacted, the log of each term's leader, votes, candidacies,
acknowledgements and commits. Eight ways it may grow are shown to keep the laws of section 5.4.3 of
the Raft paper (`HistorySteps.dfy`). `Agreement.dfy` says what ties nodes, disks and messages to the
history; `ElectionProof`, `AppendProof`, `SnapshotProof`, `LeaderProof`, `ClientProof` and
`RecoveryProof` show for each region, and for each crash inside it, how the history goes on;
`ClusterProof.StepKeeps` puts them together. The results over whole runs (`Safety`, `Durability`,
`Reads`, `Submissions`, `MatchIndexes`, `Backtracking`, `Operations`) speak of nodes, disks and messages
alone. `Answers` says exactly when each region says yes, and what it leaves behind.
`StaleRead`, `FalseSuccess`, `EndlessRetry` and `TrueApart` are single runs, built event by event (`Traces`).

Section numbers are those of Ongaro and Ousterhout, "In Search of an Understandable Consensus
Algorithm (Extended Version)".

## What does not hold

Five things the program or its documentation suggests are false. Each has a concrete case and the
condition under which it is true.

- *A True from a submission means the leader committed that entry* (docs/raft.md:64). The program
  rechecks its role but not its term. `SuccessForLostEntry` is a run where True is reported for an
  entry another leader has overwritten. `SubmissionRecheck`: the report is about that very entry
  exactly when the log still has the entry's term at its index. `SubmissionCommitted`: in the term
  of the submission it always is.
- *A read confirmed by a fresh quorum is linearizable* (docs/raft.md:82-91). A new leader appends no
  entry of its own and may not know what its predecessor committed. `BarrierAloneReadsStale` is a
  run where such a read misses a committed write. `BarrierRead`: the leader's log always begins with
  everything committed before the barrier, and its store has all of it unless an entry of an earlier
  term is still pending at the leader. Then the leader cannot tell: in `SameLeaderReadsAll` the very
  same leader, with the very same answers, misses nothing.
- *The retry loop of a leader ends.* `RetriesForEver` is a run after which it does not: a follower
  compacts what it was sent, its reply is lost, and the leader has no snapshot to send. `LoopEndsExactly`:
  the loop ends if and only if `Returns`.
- *True from that loop means that the follower's log is the leader's.* `TrueOutOfStep` is a run of
  five nodes where it is not: the follower stopped in the middle of installing a later leader's
  snapshot, came back in its old term, and the old leader goes on counting what it acknowledged
  before. `WhatItReturns`: the logs are in step if and only if `LeavesInStep` held before the loop.
  `RetryLoopEnds`: that is always so for a leader that has committed its whole log, up to an entry of
  its own term; and the boundaries always agree at a follower that has committed past its own.
- *The standalone engine loses no completed put.* A torn last line, and a whole record that lacks
  its newline, are read by recovery but stay as they are. `TornLineLosesPuts`: the next put goes onto
  that line and is lost, and the one after makes the log unreadable. `WriteLands`: a put is there
  after a restart if and only if the file is empty or ends after a whole line, or the log without its
  unfinished last line already holds the result. `NothingLostExactly`: a run loses nothing if and
  only if this holds at each write. A snapshot makes the log whole again (`SnapshotSeals`).

## Model

| member | source | states |
|---|---|---|
| `Safety.OneCommittedLog` | src/pyraftkv/raft/node.py:413-629 | State Machine Safety over a whole run, with crashes: one log exists such that what any node has committed at any time is its prefix: retained entries, boundary term, snapshot state and store |
| `Safety.StateMachineSafety` | tests/helpers/raft_cluster.py:193-208 | node against node, at any two times: the same entry at an index both committed and retain, equal stores at equal commit indexes, equal snapshots at equal snapshot indexes |
| `Safety.ElectionSafety` | src/pyraftkv/raft/election.py:26-75 | at most one node leads a term in a run, through duplicated and late replies, restarts, crashes and same-term step-down |
| `Safety.LeaderIdNamesLeader` | src/pyraftkv/raft/state.py:23-49 | a node's `leader_id` is never wrong for its term: at any two times of a run, nodes of one term that name a leader name the same one, and nobody else leads that term |
| `Safety.LeaderAppendOnly` | src/pyraftkv/raft/log.py:67-139 | Leader Append-Only: between any two times at which a node leads one term, what it retains is unchanged and its uncompacted log has only grown at the end |
| `Safety.LeaderHoldsCommitted` | src/pyraftkv/raft/leader.py:112-136 | Leader Completeness: what a leader ever commits is in the uncompacted log of every leader of a later term at any time of the run, also observed before the commit, and of its own term from then on |
| `Safety.LogsMatch` | src/pyraftkv/raft/replication.py:35-56 | Log Matching across compaction, between any nodes at any two times: same term at an index, same log up to it |
| `Safety.StoreIsFold` | src/pyraftkv/raft/node.py:357-397 | the store is the snapshot's state with the retained entries up to last_applied applied in order, also after an installation moved last_applied back |
| `Safety.NothingRaises` | src/pyraftkv/raft/node.py:437-629 | no region of a reachable node raises, whatever message, timer, client or crash comes next |
| `ClusterProof.StepKeeps` | src/pyraftkv/raft/node.py:413-1562 | every possible event of a cluster with a lawful history succeeds and leads to one with a lawful history that continues it |
| `ClusterProof.Crashes` | src/pyraftkv/raft/node.py:469-477 | after any number of the durable writes of any region, the disk is one a node can restart from without breaking any law |
| `HistorySteps.LeaderUnique` | src/pyraftkv/raft/election.py:63-75 | two majorities of one term elected the same node |
| `HistorySteps.UpToDateHolds` | src/pyraftkv/raft/vote.py:8-17 | the up-to-date check at work: a log at least as up to date as the voter's holds whatever the voter holds that may still be chosen |
| `HistorySteps.CastVoteSafe` | src/pyraftkv/raft/vote.py:20-55 | a granted vote keeps this for every voter: the candidate holds what the voter acknowledged |
| `HistorySteps.ElectLeadersSafe` | src/pyraftkv/raft/election.py:63-75 | a node elected by a majority holds every entry an earlier term may still choose |
| `HistorySteps.LeaderCompleteness` | src/pyraftkv/raft/leader.py:112-136 | a prefix committed in a term is a prefix of the log of every later term's leader |
| `HistorySteps.CompletenessBefore` | src/pyraftkv/raft/leader.py:112-136 | it was one already in any earlier history that has the later leader: its electorate no longer acknowledged anything in the term of the commit |
| `HistorySteps.CommittedAgree` | src/pyraftkv/raft/leader.py:112-136 | two committed prefixes: one begins the other |
| `HistorySteps.LogMatching` | src/pyraftkv/raft/replication.py:35-56 | two sourced logs with the same term at an index are equal up to it |
| `ElectionProof.ElectionTimeoutKeeps` | src/pyraftkv/raft/election_trigger.py:7-34 | timing out, even as a leader, keeps the node true to its history, and the vote requests sent are true |
| `ElectionProof.VoteRequestKeeps` | src/pyraftkv/raft/node.py:413-435 | answering a vote request does, and a granted reply is a vote really cast |
| `ElectionProof.VoteReplyKeeps` | src/pyraftkv/raft/node.py:769-818 | counting a reply does, and so does winning |
| `AppendProof.AppendKeeps` | src/pyraftkv/raft/node.py:437-485 | a truthful AppendEntries never raises, keeps the node true to its history, and a success is an acknowledgement of everything up to the last entry |
| `AppendProof.FollowerRule` | src/pyraftkv/raft/commit.py:7-25 | the follower's commit rule: the new commit index is the greater of the old one and the leader's, lies inside what the request verified, and no truncation reached the old one |
| `AppendProof.AppendCrash` | src/pyraftkv/raft/node.py:469-477 | a crash between the log records, or between them and the state file, leaves a disk the node can restart from |
| `SnapshotProof.SnapshotKeeps` | src/pyraftkv/raft/node.py:486-629 | a truthful snapshot is accepted exactly by nodes of its term or an earlier one, never raises, and loses no committed entry |
| `SnapshotProof.SnapshotCrash` | src/pyraftkv/raft/node.py:583-609 | a crash after the snapshot file, or after snapshot and log, leaves a disk the node can restart from |
| `SnapshotProof.SnapshotFits` | src/pyraftkv/raft/node.py:529-581 | what a snapshot of a prefix leaves of a log that agrees with it on what is committed |
| `LeaderProof.NextRequestTruthful` | src/pyraftkv/raft/node.py:849-897 | building a request never raises, carries the whole suffix from next_index, and what it says is true |
| `LeaderProof.AppendReplyKeeps` | src/pyraftkv/raft/node.py:928-985 | taking an AppendEntries reply keeps next_index and match_index truthful |
| `LeaderProof.SnapshotReplyKeeps` | src/pyraftkv/raft/node.py:946-961 | taking an InstallSnapshot reply does |
| `LeaderProof.QuorumChooses` | src/pyraftkv/raft/leader.py:112-136 | an entry of the leader's own term that a majority matched is chosen |
| `LeaderProof.AdvanceKeeps` | src/pyraftkv/raft/node.py:1119-1142 | advancing to the quorum index and applying never raises and commits only what is chosen |
| `LeaderProof.AppendAllIs` | src/pyraftkv/raft/node.py:1525-1531 | appending a batch puts the commands at consecutive indexes, in order, in the leader's term |
| `ClientProof.SubmitKeeps` | src/pyraftkv/raft/node.py:1493-1539 | a submission extends the log of its term's leader by exactly the batch |
| `ClientProof.SubmitCrash` | src/pyraftkv/raft/node.py:1533-1537 | a crash after some of the batch's records extends it by exactly those |
| `ClientProof.CompactKeeps` | src/pyraftkv/raft/node.py:354-407 | compaction never raises and changes only the image of the full log, not the log |
| `ClientProof.CompactCrash` | src/pyraftkv/raft/node.py:380-394 | a crash after the snapshot file, or after snapshot and log, leaves a disk the node can restart from |
| `ClientProof.TimeoutNowKeeps` | src/pyraftkv/raft/node.py:632-665 | TimeoutNow keeps the node true to its history, though the replication object is kept |
| `ClientProof.TimeoutReplyKeeps` | src/pyraftkv/raft/node.py:1452-1474 | stepping down within the term after a transfer does |
| `Nodes.StaleLeaderStepsDown` | src/pyraftkv/raft/node.py:928-944 | a leader of an earlier term is turned away by any peer, which changes nothing, and whichever reply it takes makes it a follower of the later term, without a vote, on disk too, with its log and store kept |
| `Nodes.StaleCandidateStepsDown` | src/pyraftkv/raft/node.py:769-818 | the same for a candidate and a voter |
| `Operations.VoteTaken` | src/pyraftkv/raft/vote.py:20-55 | over runs: a vote is granted, also a second time, if and only if the request is of no earlier term, the node never voted for another in that term, and the candidate's whole log is up to date with the voter's; the reply carries the greater term and is sent |
| `Operations.TimerExpired` | src/pyraftkv/raft/election_trigger.py:7-34 | over runs, whatever the role: the next term with a vote for itself; it leads at once if and only if one vote is a majority, and otherwise every other member, and nobody else, is sent the new term and the end of the whole log |
| `Operations.ReplyTaken` | src/pyraftkv/raft/node.py:928-985 | over runs: the retry loop returns True on a reply if and only if it is a success in the term still led, to a request that named the commit index of the moment, and the follower has then matched the whole log of the moment; False if and only if the reply comes too late or from a later term |
| `Operations.BatchTaken` | src/pyraftkv/raft/node.py:1493-1531 | over runs: a batch is refused if and only if the node does not lead, or some command is neither a DELETE nor a PUT with a value; a refusal changes no node, disk or message |
| `Operations.TransferAccepted` | src/pyraftkv/raft/node.py:632-665 | over runs: TimeoutNow is accepted if and only if it is of a later term, or from the leader a follower names; the reply carries the greater term and is sent |
| `Operations.TransferReported` | src/pyraftkv/raft/node.py:1452-1474 | over runs: a transfer is reported if and only if a leader still in its term takes an acceptance of no later term; it then follows nobody with its vote and data kept, and nobody leads that term from then on |
| `Operations.TermEndsForGood` | src/pyraftkv/raft/state.py:44-49 | once the node that led a term no longer does, through step-down, transfer or crash, nobody ever leads that term again |
| `Answers.VoteAnswered` | src/pyraftkv/raft/vote.py:20-55 | the condition for a vote in terms of the votes ever given and the uncompacted logs |
| `Answers.VoteNoted` | src/pyraftkv/raft/node.py:413-435 | everything else the request does to the node and its state file |
| `Answers.VoteRepeated` | src/pyraftkv/raft/vote.py:42-50 | the same request again gets the same answer and changes nothing more |
| `Answers.TimeoutNoted` | src/pyraftkv/raft/node.py:694-729 | everything an expired timer does to the node and its state file, in any role |
| `Answers.BallotAnswered` | src/pyraftkv/raft/election.py:37-75 | a counted ballot makes the node lead if and only if those who granted it their vote are a majority; late ballots change nothing, a later term deposes it |
| `Answers.AppendAnswered` | src/pyraftkv/raft/replication.py:11-71 | a request is accepted if and only if it is of no earlier term and the node's whole log is the leader's up to where the request begins, nothing there being compacted away |
| `Answers.AppendNoted` | src/pyraftkv/raft/node.py:437-485 | a refused request of the term or a later one still makes the node follow its leader; a stale one changes nothing |
| `Answers.InstallAnswered` | src/pyraftkv/raft/node.py:486-629 | a snapshot is accepted if and only if it is of no earlier term, and then boundary and commit index are the greater of the node's and the snapshot's |
| `Answers.InstallRefused` | src/pyraftkv/raft/node.py:505-545 | a malformed snapshot, or one at odds with what is committed, is refused though its sender is followed |
| `Answers.AppendReplyAnswered` | src/pyraftkv/raft/node.py:928-985 | what each reply does to match_index and next_index of the follower, and to nobody else's |
| `Answers.SnapshotReplyAnswered` | src/pyraftkv/raft/node.py:928-961 | the same for a snapshot's reply, with when the loop goes on |
| `Answers.CompactAnswered` | src/pyraftkv/raft/node.py:354-407 | a node compacts if and only if it has committed past its boundary; snapshot and log are then the two halves of its whole log at its commit index |
| `Answers.ReadAnswered` | src/pyraftkv/raft/node.py:1314-1318 | before a read everything committed is applied, however far the node had got |
| `Answers.ReplicationStarted` | src/pyraftkv/raft/node.py:830-842 | only a leader has a replication object; an existing one is kept, a new one takes every follower to lack nothing and to have confirmed nothing |
| `Answers.TimeoutNowAnswered` | src/pyraftkv/raft/node.py:632-665 | everything TimeoutNow does to the node and its state file, and when it is accepted |
| `Answers.TimeoutReplyAnswered` | src/pyraftkv/raft/node.py:1452-1474 | everything a transfer's reply does to the leader, and when the transfer is reported |
| `Answers.SubmitAnswered` | src/pyraftkv/raft/node.py:1493-1531 | which answer a batch gets, by role and by operation and value of its commands |
| `RecoveryProof.Recovers` | src/pyraftkv/raft/node.py:95-171 | the constructor does not raise on a disk any crash may leave; the commit index is the greater of the durable one and the snapshot's, the store the fold of the full log up to it, and disk and node match afterwards |
| `Durability.CrashRecovery` | src/pyraftkv/raft/node.py:95-171 | the same over runs, for a crash after any write of any region: nothing committed before is taken back |
| `Durability.RecoveryResumes` | src/pyraftkv/raft/node.py:121-140 | for every disk: recovery cut short after any of its own writes and begun again gives the same node and the same disk |
| `Answers.RecoveryRefused` | src/pyraftkv/raft/node.py:95-140 | the files the constructor raises on: a malformed snapshot, one behind the log's boundary or at odds with it, or a log that ends before the commit index |
| `Durability.CommitNeverRetreats` | tests/helpers/raft_cluster.py:154-170 | over runs with crashes commit indexes never decrease, last_applied equals commit_index, and both lie between boundary and last index |
| `Durability.DisksFollow` | src/pyraftkv/raft/node.py:296-352 | between any two events replaying a node's journal gives its log, boundary and entries, and its other files the rest |
| `Durability.VotesLast` | src/pyraftkv/raft/vote.py:20-55 | over runs with crashes a node's term never goes back, and a vote is neither taken back nor given to another within its term |
| `Reads.BarrierRead` | src/pyraftkv/raft/node.py:1183-1318 | a leader that stayed in its term and was answered by a majority since the barrier began has a log that begins with everything any node had committed when it began; with no entry of an earlier term pending, as when it has committed one of its own, its store has all of that applied |
| `Reads.NoLaterReign` | src/pyraftkv/raft/node.py:1298-1318 | a confirmed barrier means no later term had a leader when it began |
| `StaleRead.BarrierAloneReadsStale` | src/pyraftkv/raft/node.py:830-842 | a run in which an entry of an earlier term is pending, the barrier is passed and the read misses a committed write |
| `StaleRead.SameLeaderReadsAll` | src/pyraftkv/raft/node.py:830-842 | a run in which the same leader node passes the same barrier and nothing committed is missed: no condition on the leader separates the two |
| `Submissions.BatchAppended` | src/pyraftkv/raft/node.py:1525-1539 | over runs: entry k of a batch has index last_index + 1 + k, the leader's term and command k, and the leader holds it |
| `Submissions.SubmissionCommitted` | src/pyraftkv/raft/node.py:1546-1556 | a True result, in the term of the submission, means that very entry is committed and applied here and held by a majority |
| `Submissions.SubmissionRecheck` | src/pyraftkv/raft/node.py:1546-1556 | in any later term: of the one log all nodes commit it is that very entry if and only if the leader's log has its term at its index; where the leader has compacted past it, the same term at the boundary means that entry, a smaller one another |
| `FalseSuccess.SuccessForLostEntry` | src/pyraftkv/raft/node.py:1546-1556 | a run in which True is reported for an entry that was overwritten |
| `Submissions.AdvanceBacked` | src/pyraftkv/raft/leader.py:112-136 | each advance goes to the quorum index, onto an entry of the leader's own term that a majority holds |
| `Submissions.FollowerCommitRule` | src/pyraftkv/raft/commit.py:13-19 | over runs: every request on the network verifies past its own commit index, and whoever takes it keeps the follower's rule |
| `MatchIndexes.MatchIndexTruthful` | src/pyraftkv/raft/leader.py:64-98 | whenever match_index reaches an entry of the leader's own term, that follower's success reply of that term, covering it, was sent |
| `MatchIndexes.WonVouched` | src/pyraftkv/raft/node.py:837-842 | a new leader, with whatever replication object it kept, has matched nobody up to an entry of its own term |
| `Backtracking.LoopEndsExactly` | src/pyraftkv/raft/node.py:849-985 | for any two nodes: the retry loop ends if and only if there is no leader to go on or a later term to learn of; or, where the logs agree at the follower's boundary, it is compacted no further than the leader, or not as far as next_index, or no further than match_index while the leader has a snapshot; or, where they do not, a snapshot goes out and completes the leader's log |
| `Backtracking.WhatItReturns` | src/pyraftkv/raft/node.py:849-985 | where it ends it returns True exactly for a leader whose follower is in no later term, and the logs are then equal from the later boundary to the leader's last index exactly when `LeavesInStep` held before |
| `Backtracking.RetryLoopEnds` | src/pyraftkv/raft/node.py:849-985 | both for any two nodes of a reachable cluster; there the boundaries agree once the follower has committed past its own, and True always means in step when the leader has committed its whole log up to an entry of its own term |
| `Backtracking.Turn` | src/pyraftkv/raft/node.py:863-985 | one turn returns True, with the logs in step exactly as foretold, or decreases next_index or sends a snapshot, and the loop will still end |
| `EndlessRetry.RetriesForEver` | src/pyraftkv/raft/leader.py:100-110 | a run that leaves a leader and a follower, holding the same entry in the same term, between which the loop never ends |
| `TrueApart.TrueOutOfStep` | src/pyraftkv/raft/node.py:946-961 | a run of five nodes, with a crash inside an installation, after which the loop returns True to a leader whose last entry is not the follower's |
| `Backtracking.ReplicateToFollower` | src/pyraftkv/raft/node.py:844-985 | the loop in place: wherever it ends at all, what it returns and whether it leaves the logs in step |
| `RaftLogs.RepresentedReads` | src/pyraftkv/raft/log.py:85-128 | get, term_at and entries_from agree with the uncompacted log at every index from the boundary on |
| `RaftLogs.RepresentedAppend` | src/pyraftkv/raft/log.py:67-83 | append and append_entry refine appending to the uncompacted log |
| `RaftLogs.RepresentedTruncate` | src/pyraftkv/raft/log.py:107-116 | truncate_from refines cutting it |
| `RaftLogs.RepresentedCompact` | src/pyraftkv/raft/log.py:141-160 | compact_through leaves it as it is |
| `RaftLogs.RepresentedBoundary` | src/pyraftkv/raft/log.py:162-186 | installing a boundary keeps it where it agrees with the snapshot and replaces it by the snapshot's prefix elsewhere |
| `RaftLogs.RefusedExactly` | src/pyraftkv/raft/log.py:107-186 | exactly when append_entry, truncate_from, compact_through and install_snapshot_boundary raise |
| `RaftLogs.RaftLog.Append` | src/pyraftkv/raft/log.py:67-83 | the next index, the given term and command; a negative term is refused and nothing changes |
| `RaftLogs.RaftLog.AppendEntry` | src/pyraftkv/raft/log.py:130-139 | only the entry with the next index is taken |
| `RaftLogs.RaftLog.TruncateFrom` | src/pyraftkv/raft/log.py:107-116 | removes the suffix, refuses to reach the boundary |
| `RaftLogs.RaftLog.CompactThrough` | src/pyraftkv/raft/log.py:141-160 | moves the boundary onto a retained entry and keeps what follows |
| `RaftLogs.RaftLog.InstallSnapshotBoundary` | src/pyraftkv/raft/log.py:162-186 | moves the boundary, keeping what follows only where the term matches |
| `RaftStates.RaftState.BecomeFollower` | src/pyraftkv/raft/state.py:23-36 | an older term is refused, a later one clears the vote, the same one keeps it |
| `RaftStates.RaftState.BecomeCandidate` | src/pyraftkv/raft/state.py:38-42 | the next term, with a vote for itself |
| `RaftStates.RaftState.BecomeLeader` | src/pyraftkv/raft/state.py:44-49 | only from candidate |
| `StateMachines.AppliesFold` | src/pyraftkv/raft/state_machine.py:26-44 | applying from a correct store never raises and ends with the fold of the full log up to the commit index |
| `StateMachines.FoldSplits` | src/pyraftkv/raft/state_machine.py:26-44 | folding a log is folding its parts one after the other |
| `StateMachines.LastWriteWins` | src/pyraftkv/raft/state_machine.py:6-23 | after a log is applied a key has the value of the last PUT on it, none after a DELETE, and its old one where no command names it |
| `StateMachines.AppliesExactly` | src/pyraftkv/raft/state_machine.py:26-44 | the apply loop gets to the commit index if and only if every entry up to there is retained and can be applied, and otherwise stops right before the first that is not |
| `StateMachines.FollowerCommitIs` | src/pyraftkv/raft/commit.py:7-25 | the new commit index is the smaller of the leader's and the last index, never below the old one, and the store the fold of the whole log up to it |
| `StateMachines.ApplyCommand` | src/pyraftkv/raft/state_machine.py:6-23 | PUT with a value and DELETE are applied, anything else is refused |
| `StateMachines.ApplyCommittedEntries` | src/pyraftkv/raft/state_machine.py:26-44 | the loop applies exactly the entries up to the commit index, or stops where one is missing |
| `StateMachines.UpdateFollowerCommit` | src/pyraftkv/raft/commit.py:7-25 | the commit index becomes the minimum of the leader's and the last index, never decreasing by a smaller one |
| `Stores.KVStore.Put` | src/pyraftkv/storage/store.py:9-11 | one key changes |
| `Stores.KVStore.Delete` | src/pyraftkv/storage/store.py:17-23 | the key goes, and the result says whether it was there |
| `Votes.HandleRequestVote` | src/pyraftkv/raft/vote.py:20-55 | one vote per term, for an up-to-date candidate; a later term is adopted first |
| `Elections.ElectionTracker.Start` | src/pyraftkv/raft/election.py:26-35 | a new candidacy with its own vote, promoted at once where that is a quorum |
| `Elections.ElectionTracker.RecordVote` | src/pyraftkv/raft/election.py:37-66 | later terms step down, stale and unknown votes are ignored, a quorum of distinct members promotes |
| `Elections.ElectionTracker.PromoteIfQuorum` | src/pyraftkv/raft/election.py:68-75 | promotion at half the members plus one |
| `Elections.RecordedExactly` | src/pyraftkv/raft/election.py:37-75 | a member's ballot of the candidate's own term counts once and promotes if and only if the votes are then a majority; later terms and lost candidacies end the election, stale ballots and strangers change nothing |
| `Leaders.QuorumIndexIsGreatest` | src/pyraftkv/raft/leader.py:112-119 | the quorum index is exactly the greatest index a strict majority holds |
| `Leaders.PositionReached` | src/pyraftkv/raft/leader.py:118-120 | the element at position p of the descending list is reached by more than p of them and its successor is not |
| `Leaders.BuiltExactly` | src/pyraftkv/raft/leader.py:30-62 | a request can be built if and only if the entry before next_index is retained or is the boundary |
| `Leaders.AdvanceCommitKeeps` | src/pyraftkv/raft/leader.py:122-136 | advancing never lowers the commit index, stays within the log, and moves only onto the current term |
| `Leaders.LeaderReplication.AdvanceCommitIndex` | src/pyraftkv/raft/leader.py:112-136 | sorting and taking the middle finds the quorum index |
| `Leaders.LeaderReplication.BuildRequest` | src/pyraftkv/raft/leader.py:30-62 | the suffix from next_index; refused for a compacted or missing previous entry and for strangers |
| `Leaders.LeaderReplication.RecordSuccess` | src/pyraftkv/raft/leader.py:64-82 | match_index never decreases, next_index follows it |
| `Leaders.LeaderReplication.RecordSnapshotSuccess` | src/pyraftkv/raft/leader.py:84-98 | the same for a snapshot |
| `Leaders.LeaderReplication.RecordFailure` | src/pyraftkv/raft/leader.py:100-110 | next_index goes back one, never below 1 |
| `Replications.MergesRepresented` | src/pyraftkv/raft/replication.py:45-56 | the merge loop never raises under Log Matching, keeps a log that begins with the leader's prefix, and makes any other that prefix |
| `Replications.MergeIdempotent` | src/pyraftkv/raft/replication.py:45-56 | a redelivered request, or an older shorter one, changes nothing |
| `Replications.ConflictReplacesSuffix` | src/pyraftkv/raft/replication.py:45-56 | the first conflict replaces exactly the suffix from there |
| `Replications.RedeliveredRequest` | src/pyraftkv/raft/replication.py:11-71 | handling a request twice is handling it once, for log, state, store and reply |
| `Replications.HandleAppendEntries` | src/pyraftkv/raft/replication.py:11-71 | the handler in place, with its loop |
| `Journals.ChangesFaithful` | src/pyraftkv/raft/node.py:296-352 | the records of a change turn the journal of one log into the journal of the next |
| `Journals.ChangesReplay` | src/pyraftkv/raft/node.py:322-352 | after any first records of a change the journal replays to a prefix of the new entries that keeps all the common ones |
| `Journals.NothingChanged` | src/pyraftkv/raft/node.py:305-306 | records are written if and only if the entries changed |
| `Journals.RaftPersistence.AppendLogEntries` | src/pyraftkv/raft/persistence.py:268-283 | one append record per entry |
| `Journals.RaftPersistence.ReplaceLogSuffix` | src/pyraftkv/raft/persistence.py:304-328 | one truncate record, then the appends |
| `Journals.RaftPersistence.SaveLog` | src/pyraftkv/raft/persistence.py:330-354 | one record with boundary and entries replaces the journal |
| `Journals.RaftPersistence.LoadLog` | src/pyraftkv/raft/persistence.py:419-525 | the replay loop gives the log the records describe, or raises where one does not fit |
| `RaftNodes.RaftNode.HandleRequestVote` | src/pyraftkv/raft/node.py:413-435 | node, files and reply are what `ReceiveVoteRequest` says |
| `RaftNodes.RaftNode.Tick` | src/pyraftkv/raft/node.py:694-735 | the first region of tick: candidacy, vote file, requests to all others |
| `RaftNodes.RaftNode.CountBallot` | src/pyraftkv/raft/node.py:769-818 | the region of tick that counts a reply |
| `RaftNodes.RaftNode.InitializeLeaderReplication` | src/pyraftkv/raft/node.py:830-842 | an existing object is kept, a non-leader has none |
| `RaftNodes.RaftNode.PersistLogChange` | src/pyraftkv/raft/node.py:296-352 | the prefix scan finds the common prefix, and only the rest is written |
| `RaftNodes.RaftNode.HandleAppendEntries` | src/pyraftkv/raft/node.py:437-485 | node, files and reply are what `ReceiveAppend` says: records first, then the state file |
| `RaftNodes.RaftNode.HandleInstallSnapshot` | src/pyraftkv/raft/node.py:486-629 | the same for `ReceiveSnapshot`: snapshot, log, state |
| `RaftNodes.RaftNode.NextRequestTo` | src/pyraftkv/raft/node.py:852-897 | an AppendEntries, a snapshot, or nothing |
| `RaftNodes.RaftNode.TakeAppendReply` | src/pyraftkv/raft/node.py:928-985 | step down, record, or walk back; and whether the loop goes on |
| `RaftNodes.RaftNode.TakeSnapshotReply` | src/pyraftkv/raft/node.py:928-961 | the same for a snapshot |
| `RaftNodes.RaftNode.AdvanceAndApplyEntries` | src/pyraftkv/raft/node.py:1119-1142 | commit file before the entries are applied |
| `RaftNodes.RaftNode.ApplyAndRead` | src/pyraftkv/raft/node.py:1314-1318 | what is committed is applied before the store is read |
| `RaftNodes.RaftNode.SubmitCommands` | src/pyraftkv/raft/node.py:1493-1539 | all commands checked before any is appended; one record each |
| `RaftNodes.RaftNode.ReportSubmission` | src/pyraftkv/raft/node.py:1546-1556 | what is reported for each entry |
| `RaftNodes.RaftNode.CompactLog` | src/pyraftkv/raft/node.py:354-407 | snapshot file, shorter log, state file; the replication object is given the new log |
| `RaftNodes.RaftNode.HandleTimeoutNow` | src/pyraftkv/raft/node.py:632-665 | accepted only from the leader the node follows |
| `RaftNodes.RaftNode.FinishTransfer` | src/pyraftkv/raft/node.py:1452-1474 | the old leader steps down within its term |
| `RaftNodes.RaftNode.Open` | src/pyraftkv/raft/node.py:58-186 | the constructor on existing files, null where it raises |
| `Storage.ReplayIdempotent` | src/pyraftkv/storage/engine.py:24-33 | replaying a log onto its own result changes nothing |
| `Storage.CrashRecovers` | src/pyraftkv/storage/engine.py:35-59 | after any of an operation's writes recovery gives the data before it, or after it once all are done |
| `Storage.LineAdded` | src/pyraftkv/storage/engine.py:35-59 | a delete writes to the log if and only if it changes the data, a put always, a snapshot never |
| `Storage.EngineRecovers` | src/pyraftkv/storage/engine.py:24-59 | over any run whose crashes fall between writes, or in the middle of one with a snapshot next, recovery gives exactly the data of the operations that were written |
| `Storage.WriteLands` | src/pyraftkv/storage/wal.py:31-35 | for any readable files: a completed write is there after a restart if and only if the file ends after a whole line, or without its unfinished last line already holds the result |
| `Storage.NothingLostExactly` | src/pyraftkv/storage/engine.py:24-59 | over any run, with crashes between and inside writes: a restart would bring back what it should at every point if and only if each line is added where it lands |
| `Storage.ReplayIs` | src/pyraftkv/storage/wal.py:37-60 | a log can be read exactly when no line but the last is garbled, and gives all its records in order |
| `Storage.TornLineLosesPuts` | src/pyraftkv/storage/wal.py:31-60 | a torn last line, or a whole record without its newline, is read once; then a put is lost with it, then the log is unreadable |
| `Storage.WAL.Replay` | src/pyraftkv/storage/wal.py:37-60 | blank lines skipped, a garbled last line ignored, any other refused |
| `Storage.StorageEngine.Open` | src/pyraftkv/storage/engine.py:24-33 | snapshot, then log; null where recovery raises |
| `Storage.StorageEngine.Put` | src/pyraftkv/storage/engine.py:35-38 | log before memory; what could be recovered still can exactly when the line lands |
| `Storage.StorageEngine.Delete` | src/pyraftkv/storage/engine.py:43-49 | the same; an absent key writes nothing |
| `Storage.StorageEngine.CreateSnapshot` | src/pyraftkv/storage/engine.py:51-59 | snapshot before truncation; whatever the log was, all is recoverable afterwards |

## Left out

- Transport, HTTP routes, CLI, Docker, metrics, observers and status objects: the network is a set of messages, and the rest only reports.
- Threads, futures, deadlines and locks as such: each region run under the Raft lock is one atomic step, and steps interleave freely. `_replicate_followers_concurrently` is therefore any order of sends and replies, which allows more than the program does.
- Real time: an election timer may expire at any moment, also at a leader. Nothing is claimed about liveness of elections.
- The 500 ms read lease as a linearizability claim: voters do not refuse candidates after recent leader contact, so it does not follow from the code.
- JSON text, fsync, temporary files and the field-by-field converters: a file is a value, a journal a sequence of records, and a record is written whole or not at all.
- Migration of the older JSON-array log, and failures of the file system itself.
- A node without a data directory: every node here has one.
- The flag that refuses submissions while a transfer is in progress, and the choice among eligible transfer targets: a submission at any time, and any caught-up follower, are allowed.
- `RaftCommandProcessor` and the unused heartbeat handler.
- `RaftLog.copy` checks the term again; logs here keep their boundary term non-negative, so the copy is plain.
- `entries_from` refuses an index below 1; no caller passes one.
- Backtracking.ReplicateToFollower: has the follower answer at once and takes `Returns` as its precondition, because a Dafny method has to end; `LoopEndsExactly` shows that the loop ends nowhere else.

// Crashes and commit indexes over runs: what was durable comes back, what was committed
// stays committed, and recovery may itself be interrupted.

module Durability {
  import opened Prelude
  import opened Types
  import opened History
  import opened HistorySteps
  import opened RaftLogs
  import opened RaftStates
  import opened Leaders
  import opened Journals
  import opened Nodes
  import opened Clusters
  import opened Agreement
  import opened ElectionProof
  import opened RecoveryProof
  import opened AppendProof
  import opened SnapshotProof
  import opened ClusterProof
  import opened Safety

  // ---- The commit index never goes back ----

  lemma ReactCommits(h: History, s: Cluster, a: Action)
    requires Acting(h, s, a) && React(s, a).Some?
    ensures s.nodes[a.node].state.commitIndex <= React(s, a).value.node.state.commitIndex
  {
    hide Consistent, VotesSafe, LeadersSafe, AcksKept, CommitsBacked, NodeFaithful, DiskMatches, AppendTruthful;
    hide SnapshotTruthful, CommittedBy, ReceiveAppend, ReceiveSnapshot, RuleKept, InitReplication, VoteRequestOf;
    var n := s.nodes[a.node];
    if a.TakeAppend? {
      assert Truthful(h, AppendMsg(a.rpc, a.node, a.append));
      FollowerRule(h, n, a.node, a.append);
      RuleCommits(n, a.append, ReceiveAppend(n, a.append).value.node, ReceiveAppend(n, a.append).value.reply.success);
    } else if a.TakeSnapshot? {
      assert Truthful(h, SnapshotMsg(a.rpc, a.node, a.install));
      SnapshotCommits(h, n, a.node, a.install);
    } else {
      hide Enabled, Truthful;
      QuietCommits(s, a);
    }
  }

  lemma RuleCommits(n: NodeView, req: AppendRequest, m: NodeView, success: bool)
    requires RuleKept(n, req, m, success)
    ensures n.state.commitIndex <= m.state.commitIndex
  {
  }

  lemma SnapshotCommits(h: History, n: NodeView, id: NodeId, req: SnapshotRequest)
    requires Consistent(h) && LeadersSafe(h) && CommitsBacked(h) && n.Sound() && NodeFaithful(h, n, id)
    requires SnapshotTruthful(h, req) && CommittedBy(h, req.term, req.lastIncludedIndex)
    requires ReceiveSnapshot(n, req).Some?
    ensures n.state.commitIndex <= ReceiveSnapshot(n, req).value.node.state.commitIndex
  {
    var m, ws := SnapshotEnds(h, n, id, req);
  }

  lemma QuietCommits(s: Cluster, a: Action)
    requires s.Sound() && Enabled(s, a) && React(s, a).Some? && !a.TakeAppend? && !a.TakeSnapshot?
    ensures s.nodes[a.node].state.commitIndex <= React(s, a).value.node.state.commitIndex
  {
    hide BeginElection, ReceiveVoteRequest, ReceiveVoteReply, ReceiveAppendReply, ReceiveSnapshotReply, AdvanceAndApply;
    hide ReceiveTimeoutNow, ReceiveTimeoutReply, ApplyForRead, NextRequest, Submit, CreateSnapshot;
    hide InitReplication, VoteRequestOf, IsQuorumIndex;
  }

  lemma ReactSavesOnly(s: Cluster, a: Action)
    requires s.Sound() && Enabled(s, a) && React(s, a).Some?
    ensures SavesOnly(React(s, a).value.writes, React(s, a).value.node.state)
  {
    hide BeginElection, ReceiveVoteRequest, ReceiveVoteReply, ReceiveAppendReply, ReceiveSnapshotReply, AdvanceAndApply;
    hide ReceiveTimeoutNow, ReceiveTimeoutReply, ApplyForRead, NextRequest, ReceiveAppend, ReceiveSnapshot, Submit,
          CreateSnapshot;
    hide InitReplication, VoteRequestOf, IsQuorumIndex;
  }

  lemma {:induction false} SavedCommit(d: Disk, ws: seq<Write>, s: StateView, c: int)
    requires SavesOnly(ws, s) && c <= d.commitIndex && c <= s.commitIndex
    ensures c <= PerformAll(d, ws).commitIndex
    decreases |ws|
  {
    if ws != [] {
      SavedCommit(d, ws[..|ws| - 1], s, c);
    }
  }

  predicate CommitsOnward(s: Cluster, s': Cluster) {
    forall n :: n in s.members ==>
      n in s.nodes && n in s'.nodes && n in s'.members && s.nodes[n].state.commitIndex <= s'.nodes[n].state.commitIndex
  }

  lemma MatchedCommit(h: History, s: Cluster, id: NodeId)
    requires Invariant(h, s) && id in s.members
    ensures s.disks[id].commitIndex == s.nodes[id].state.commitIndex
  {
    hide NodeFaithful, Truthful, Lawful;
    assert Faithful(h, s.nodes[id], s.disks[id], id);
  }

  lemma RebootCommits(k: History, s: Cluster, id: NodeId, d: Disk, s': Cluster)
    requires s.Sound() && id in s.members && k.members == s.members && Consistent(k) && DiskFaithful(k, d, id)
    requires Reboot(s, id, d) == Some(s') && s.nodes[id].state.commitIndex <= d.commitIndex
    ensures CommitsOnward(s, s')
  {
    hide Recover, Consistent, DiskFaithful, PerformAll;
    var m, ws := Recovers(k, d, id);
  }

  lemma CrashReboots(s: Cluster, a: Action, j: nat, s': Cluster)
    requires s.Sound() && Possible(s, CrashDuring(a, j)) && Step(s, CrashDuring(a, j)) == Some(s')
    ensures a.node in s.members && Enabled(s, a) && React(s, a).Some? && j <= |React(s, a).value.writes|
    ensures Reboot(s, a.node, PerformAll(s.disks[a.node], React(s, a).value.writes[..j])) == Some(s')
  {
    hide Enabled, React, Reboot;
    EnabledNode(s, a);
  }

  // What is on disk after part of an action names no earlier commit index than before it.
  lemma CutCommits(h: History, s: Cluster, a: Action, j: nat)
    requires Acting(h, s, a) && React(s, a).Some? && j <= |React(s, a).value.writes|
    requires s.disks[a.node].commitIndex == s.nodes[a.node].state.commitIndex
    ensures s.nodes[a.node].state.commitIndex <= PerformAll(s.disks[a.node], React(s, a).value.writes[..j]).commitIndex
  {
    ReactCommits(h, s, a);
    ReactSavesOnly(s, a);
    hide React, Acting, SavesOnly, PerformAll;
    var r := React(s, a).value;
    PrefixSavesOnly(r.writes, j, r.node.state);
    SavedCommit(s.disks[a.node], r.writes[..j], r.node.state, s.nodes[a.node].state.commitIndex);
  }

  lemma CrashCommits(h: History, s: Cluster, a: Action, j: nat, s': Cluster)
    requires s.Sound() && Possible(s, CrashDuring(a, j)) && Step(s, CrashDuring(a, j)) == Some(s')
    requires Invariant(h, s)
    ensures CommitsOnward(s, s')
  {
    hide Invariant, Enabled, React, Reboot, Acting, DiskFaithful, Continues, PerformAll, Possible, Step,
          CommitsOnward, Lawful;
    hide Consistent, LeadersSafe, CommitsBacked, AcksKept;
    InvariantLaws(h, s);
    CrashReboots(s, a, j, s');
    InvariantActs(h, s, a);
    var k := Crashes(h, s, a, j);
    MatchedCommit(h, s, a.node);
    CutCommits(h, s, a, j);
    SameMembers(h, k, a.node);
    ContinuesConsistent(h, k, a.node);
    RebootCommits(k, s, a.node, PerformAll(s.disks[a.node], React(s, a).value.writes[..j]), s');
  }

  lemma RebootMembers(s: Cluster, id: NodeId, d: Disk, s': Cluster)
    requires s.Sound() && id in s.members && Reboot(s, id, d) == Some(s')
    ensures s'.members == s.members
  {
    hide Recover;
  }

  lemma PrefixSavesOnly(ws: seq<Write>, j: nat, s: StateView)
    requires SavesOnly(ws, s) && j <= |ws|
    ensures SavesOnly(ws[..j], s)
  {
  }

  lemma CompleteCommits(h: History, s: Cluster, a: Action, s': Cluster)
    requires s.Sound() && Possible(s, Complete(a)) && Step(s, Complete(a)) == Some(s')
    requires Invariant(h, s)
    ensures CommitsOnward(s, s')
  {
    hide Invariant, Enabled, React, Acting, PerformAll, Lawful, Consistent, LeadersSafe, CommitsBacked, AcksKept;
    InvariantLaws(h, s);
    InvariantActs(h, s, a);
    EnabledNode(s, a);
    ReactCommits(h, s, a);
  }

  lemma RestartCommits(h: History, s: Cluster, id: NodeId, s': Cluster)
    requires s.Sound() && id in s.members && Step(s, Restart(id)) == Some(s')
    requires Invariant(h, s)
    ensures CommitsOnward(s, s')
  {
    hide Invariant, Faithful, DiskFaithful, Consistent, Reboot, CommitsOnward, Lawful, LeadersSafe, CommitsBacked;
    hide AcksKept;
    InvariantLaws(h, s);
    MatchedCommit(h, s, id);
    InvariantFaithful(h, s, id);
    FaithfulDisk(h, s.nodes[id], s.disks[id], id);
    RebootCommits(h, s, id, s.disks[id], s');
  }

  lemma InvariantFaithful(h: History, s: Cluster, id: NodeId)
    requires Invariant(h, s) && id in s.members
    ensures Faithful(h, s.nodes[id], s.disks[id], id)
  {
    hide Faithful, Truthful, Lawful;
  }

  lemma StepCommits(h: History, s: Cluster, e: Event, s': Cluster)
    requires s.Sound() && Possible(s, e) && Step(s, e) == Some(s')
    requires Invariant(h, s)
    ensures CommitsOnward(s, s')
  {
    InvariantLaws(h, s);
    hide Invariant, React, Reboot, Enabled, Step, Lawful, Consistent, CommitsOnward, LeadersSafe, CommitsBacked;
    hide AcksKept;
    match e
    case Complete(a) => CompleteCommits(h, s, a, s');
    case CrashDuring(a, j) => CrashCommits(h, s, a, j, s');
    case Restart(id) => RestartCommits(h, s, id, s');
  }

  // No node's commit index ever goes back, through repairs, snapshots and crashes; nor is it
  // ever past the node's last index, or short of what is applied.
  lemma {:induction false} CommitNeverRetreats(members: set<NodeId>, states: seq<Cluster>, events: seq<Event>,
                                               i: nat, j: nat, n: NodeId)
    requires RunFromStart(members, states, events) && i <= j < |states| && n in states[i].members
    ensures n in states[j].members
    ensures states[i].nodes[n].state.commitIndex <= states[j].nodes[n].state.commitIndex
    ensures states[j].nodes[n].state.lastApplied == states[j].nodes[n].state.commitIndex
    ensures states[j].nodes[n].log.baseIndex <= states[j].nodes[n].state.commitIndex
      <= states[j].nodes[n].log.LastIndex()
    decreases j
  {
    hide Step, Possible, Invariant, Grows, CommittedFrom;
    var hs := RunHasChronicle(members, states, events);
    if i < j {
      CommitNeverRetreats(members, states, events, i, j - 1, n);
      assert Leads(states, events, j - 1);
      StepCommits(hs[j - 1], states[j - 1], events[j - 1], states[j]);
    }
    var g := OneCommittedLog(members, states, events);
    CommittedBounds(states[j].nodes[n], g);
  }

  lemma CommittedBounds(n: NodeView, g: seq<LogEntry>)
    requires CommittedFrom(n, g)
    ensures n.state.lastApplied == n.state.commitIndex && n.log.baseIndex <= n.state.commitIndex <= n.log.LastIndex()
  {
  }

  // A node's term never goes back and a vote is never taken back or given twice in one term
  // (section 5.2), through later terms, step-downs and crashes in the middle of any region.
  lemma VotesLast(members: set<NodeId>, states: seq<Cluster>, events: seq<Event>, i: nat, j: nat, n: NodeId)
    requires RunFromStart(members, states, events) && i <= j < |states|
    requires n in states[i].members && n in states[j].members
    ensures var a, b := states[i].nodes[n].state, states[j].nodes[n].state;
      && a.currentTerm <= b.currentTerm
      && (a.currentTerm == b.currentTerm && a.votedFor.Some? ==> b.votedFor == a.votedFor)
  {
    hide Step, Possible, Invariant, Grows;
    var hs := RunHasChronicle(members, states, events);
    VoteStays(hs[i], states[i], hs[j], states[j], n);
  }

  lemma VoteStays(h: History, s: Cluster, k: History, s': Cluster, n: NodeId)
    requires Invariant(h, s) && Invariant(k, s') && Grows(h, k) && n in s.members && n in s'.members
    ensures n in s.nodes && n in s'.nodes
    ensures var a, b := s.nodes[n].state, s'.nodes[n].state;
      && a.currentTerm <= b.currentTerm
      && (a.currentTerm == b.currentTerm && a.votedFor.Some? ==> b.votedFor == a.votedFor)
  {
    hide Lawful, Truthful, CandidateFaithful, LeaderFaithful, ReplicationFaithful, DataFaithful, Certified, LeaderKnown;
    assert Faithful(h, s.nodes[n], s.disks[n], n) && Faithful(k, s'.nodes[n], s'.disks[n], n);
  }

  // Between any two events every disk tells exactly what its node knows: replaying the journal
  // yields the log in memory, boundary and entries, and the state and snapshot files the rest.
  lemma DisksFollow(members: set<NodeId>, states: seq<Cluster>, events: seq<Event>, i: nat, id: NodeId)
    requires RunFromStart(members, states, events) && i < |states| && id in states[i].members
    ensures id in states[i].nodes && id in states[i].disks && DiskMatches(states[i].nodes[id], states[i].disks[id])
  {
    hide Step, Possible, Invariant, Grows, DiskMatches;
    var hs := RunHasChronicle(members, states, events);
    InvariantLaws(hs[i], states[i]);
    RecoveredMatches(hs[i], states[i], id);
  }

  // ---- Crash recovery ----

  // What a node restarted from a disk is.
  ghost predicate RecoveredFrom(m: NodeView, d: Disk, after: Disk, full: seq<LogEntry>) {
    && m.state.role == Follower && m.state.leaderId == None && m.replication == None
    && m.state.currentTerm == d.term && m.state.votedFor == d.votedFor
    && d.commitIndex <= m.state.commitIndex && m.snapshot == d.snapshot
    && Images(m, full) && DiskMatches(m, after)
  }

  // A crash after any prefix of the durable writes of any action of a reachable node: the
  // constructor does not raise, recovers at least the durable commit index, and rebuilds log
  // and store as images of one full log; the crash also takes nothing back that was committed.
  lemma CrashRecovery(members: set<NodeId>, states: seq<Cluster>, events: seq<Event>, a: Action, j: nat)
    returns (s': Cluster, full: seq<LogEntry>)
    requires RunFromStart(members, states, events) && Possible(states[|events|], CrashDuring(a, j))
    ensures var s := states[|events|];
      var d := PerformAll(s.disks[a.node], React(s, a).value.writes[..j]);
      && Step(s, CrashDuring(a, j)) == Some(s') && a.node in s'.nodes && a.node in s'.disks
      && RecoveredFrom(s'.nodes[a.node], d, s'.disks[a.node], full)
      && s.nodes[a.node].state.commitIndex <= s'.nodes[a.node].state.commitIndex
      && CommittedFrom(s.nodes[a.node], full)
  {
    hide Invariant, Acting, React, Enabled, Reboot, Continues, DiskFaithful, PerformAll, Grows, RecoveredFrom;
    hide CommittedFrom;
    var s := states[|events|];
    var hs := RunHasChronicle(members, states, events);
    var h := hs[|events|];
    var k;
    InvariantLaws(h, s);
    InvariantActs(h, s, a);
    EnabledNode(s, a);
    k := Crashes(h, s, a, j);
    var d := PerformAll(s.disks[a.node], React(s, a).value.writes[..j]);
    s' := RebootKeeps(h, k, s, a.node, d);
    full := k.Log(a.node);
    CrashCommits(h, s, a, j, s');
    assert a.node in s'.members;
    SameMembers(h, k, a.node);
    RebootRecovers(k, s, a.node, d, s');
    OldCommitsKept(h, k, s, s', a.node);
  }

  lemma RebootRecovers(k: History, s: Cluster, id: NodeId, d: Disk, s': Cluster)
    requires s.Sound() && id in s.members && Reboot(s, id, d) == Some(s') && DiskFaithful(k, d, id) && Invariant(k, s')
    ensures id in s'.nodes && id in s'.disks && RecoveredFrom(s'.nodes[id], d, s'.disks[id], k.Log(id))
  {
    RebootMembers(s, id, d, s');
    InvariantLaws(k, s');
    hide Invariant, Recover, Consistent, DiskFaithful, Images, Lawful, PerformAll, LeadersSafe, CommitsBacked, AcksKept;
    NodeImages(k, s', id);
    var m, ws := Recovers(k, d, id);
    RecoveredState(id, s.members, d);
    RecoveredMatches(k, s', id);
  }

  lemma RecoveredState(id: NodeId, members: set<NodeId>, d: Disk)
    requires id in members && Recover(id, members, d).Some?
    ensures var m := Recover(id, members, d).value.node;
      && m.state.role == Follower && m.state.leaderId == None && m.replication == None
      && m.state.currentTerm == d.term && m.state.votedFor == d.votedFor && m.snapshot == d.snapshot
      && d.commitIndex <= m.state.commitIndex
  {
  }

  lemma RecoveredMatches(h: History, s: Cluster, id: NodeId)
    requires Invariant(h, s) && id in s.members
    ensures DiskMatches(s.nodes[id], s.disks[id])
  {
    hide NodeFaithful, Truthful, Lawful;
    assert Faithful(h, s.nodes[id], s.disks[id], id);
  }

  lemma OldCommitsKept(h: History, k: History, s: Cluster, s': Cluster, id: NodeId)
    requires Invariant(h, s) && Invariant(k, s') && Grows(h, k) && id in s.members && id in s'.members
    requires s.nodes[id].state.commitIndex <= s'.nodes[id].state.commitIndex
    ensures CommittedFrom(s.nodes[id], k.Log(id))
  {
    hide Invariant, Images, CommittedFrom, Grows, Lawful, Consistent, LeadersSafe, CommitsBacked, AcksKept;
    InvariantLaws(k, s');
    InvariantLaws(h, s);
    var p := CommittedPrefix(h, s, id);
    var q := CommittedPrefix(k, s', id);
    var t :| h.CommittedIn(p, t);
    var u :| k.CommittedIn(q, u);
    CommittedStays(h, k, p, t);
    CommittedAgree(k, p, t, q, u);
    ImagesCommitted(s.nodes[id], h.Log(id), k.Log(id));
  }

  lemma CommittedPrefix(h: History, s: Cluster, id: NodeId) returns (p: seq<LogEntry>)
    requires Invariant(h, s) && id in s.members
    ensures id in s.nodes && Images(s.nodes[id], h.Log(id))
    ensures 0 <= s.nodes[id].state.commitIndex <= |h.Log(id)|
    ensures p == h.Log(id)[..s.nodes[id].state.commitIndex] && exists t :: h.CommittedIn(p, t)
  {
    InvariantLaws(h, s);
    NodeImages(h, s, id);
    p := h.Log(id)[..s.nodes[id].state.commitIndex];
  }

  // Recovery may itself be cut short by a crash: from any disk it can recover, after any of
  // its own writes, recovering again gives the same node and the same disk.
  lemma RecoveryResumes(id: NodeId, members: set<NodeId>, d: Disk, j: nat)
    requires id in members && Recover(id, members, d).Some? && j <= |Recover(id, members, d).value.writes|
    ensures var e := Recover(id, members, d).value;
      var half := PerformAll(d, e.writes[..j]);
      && Recover(id, members, half).Some?
      && Recover(id, members, half).value.node == e.node
      && PerformAll(half, Recover(id, members, half).value.writes) == PerformAll(d, e.writes)
  {
    hide Recover, PerformAll, Replay, RecoveredLog, RecoveryWrites;
    var e := Recover(id, members, d).value;
    var half := PerformAll(d, e.writes[..j]);
    if j == 0 {
      assert e.writes[..j] == [];
      NothingWritten(d);
    } else {
      var log := RecoveryShape(id, members, d);
      RecoversValid(id, members, d, log);
      RewriteReplays(log);
      HalfWritten(d, e.writes, j, log, Max(d.commitIndex, d.snapshot.index));
      HalfRecovered(id, members, d, half, log);
      HalfFinished(d, e.writes, j, log, Max(d.commitIndex, d.snapshot.index), Recover(id, members, half).value.writes);
    }
  }

  lemma RecoveryShape(id: NodeId, members: set<NodeId>, d: Disk) returns (log: LogView)
    requires id in members && Recover(id, members, d).Some?
    ensures Replay(d.journal).Some? && RecoveredLog(Replay(d.journal).value, d.snapshot) == Some(log)
    ensures Recover(id, members, d).value.writes
         == RecoveryWrites(d, Replay(d.journal).value, log, Max(d.commitIndex, d.snapshot.index))
    ensures |Recover(id, members, d).value.writes| <= 2
  {
    log := RecoveredLog(Replay(d.journal).value, d.snapshot).value;
  }

  // The disk after the first of recovery's writes, or both.
  lemma HalfWritten(d: Disk, ws: seq<Write>, j: nat, log: LogView, commit: int)
    requires Replay(d.journal).Some? && commit == Max(d.commitIndex, d.snapshot.index)
    requires RecoveredLog(Replay(d.journal).value, d.snapshot) == Some(log) && Replay([Rewrite(log)]) == Some(log)
    requires ws == RecoveryWrites(d, Replay(d.journal).value, log, commit) && 0 < j <= |ws|
    ensures var half := PerformAll(d, ws[..j]);
      && half.term == d.term && half.votedFor == d.votedFor && half.snapshot == d.snapshot
      && (half.commitIndex == d.commitIndex || half.commitIndex == commit) && Replay(half.journal) == Some(log)
  {
    hide PerformAll, Replay;
    FirstWrites(d, ws, j);
  }

  lemma FirstWrites(d: Disk, ws: seq<Write>, j: nat)
    requires 0 < j <= |ws| <= 2
    ensures PerformAll(d, ws[..j]) == if j == 1 then Perform(d, ws[0]) else Perform(Perform(d, ws[0]), ws[1])
    ensures PerformAll(d, ws) == if |ws| == 1 then Perform(d, ws[0]) else Perform(Perform(d, ws[0]), ws[1])
  {
    PerformsOne(d, ws[0]);
    assert ws[..1] == [ws[0]];
    if |ws| == 2 {
      assert ws[..2] == ws && ws[..2 - 1] == [ws[0]];
    }
    if j == |ws| {
      assert ws[..j] == ws;
    }
    assert |ws| == 1 ==> ws == [ws[0]];
  }

  lemma RecoversValid(id: NodeId, members: set<NodeId>, d: Disk, log: LogView)
    requires id in members && Recover(id, members, d).Some?
    requires RecoveredLog(Replay(d.journal).value, d.snapshot) == Some(log)
    ensures log.WellFormed() && 0 <= log.baseTerm && log.baseIndex == d.snapshot.index
    ensures log.baseTerm == d.snapshot.term
  {
  }

  // The half-recovered disk: same state and snapshot, the log rewritten if it was to be, the
  // commit index raised if that was reached.
  lemma HalfRecovered(id: NodeId, members: set<NodeId>, d: Disk, half: Disk, log: LogView)
    requires id in members && Recover(id, members, d).Some?
    requires RecoveredLog(Replay(d.journal).value, d.snapshot) == Some(log)
    requires half.term == d.term && half.votedFor == d.votedFor && half.snapshot == d.snapshot
    requires half.commitIndex == d.commitIndex || half.commitIndex == Max(d.commitIndex, d.snapshot.index)
    requires Replay(half.journal) == Some(log)
    ensures Recover(id, members, half).Some?
    ensures Recover(id, members, half).value.node == Recover(id, members, d).value.node
    ensures Recover(id, members, half).value.writes
         == if half.commitIndex < d.snapshot.index then [SaveState(d.term, d.votedFor, d.snapshot.index)] else []
  {
    RecoversValid(id, members, d, log);
  }

  lemma HalfFinished(d: Disk, ws: seq<Write>, j: nat, log: LogView, commit: int, rest: seq<Write>)
    requires Replay(d.journal).Some? && commit == Max(d.commitIndex, d.snapshot.index)
    requires ws == RecoveryWrites(d, Replay(d.journal).value, log, commit) && 0 < j <= |ws|
    requires rest == if PerformAll(d, ws[..j]).commitIndex < d.snapshot.index
                     then [SaveState(d.term, d.votedFor, d.snapshot.index)] else []
    ensures PerformAll(PerformAll(d, ws[..j]), rest) == PerformAll(d, ws)
  {
    FirstWrites(d, ws, j);
    var half := PerformAll(d, ws[..j]);
    PerformsOne(half, SaveState(d.term, d.votedFor, d.snapshot.index));
    NothingWritten(half);
  }
}

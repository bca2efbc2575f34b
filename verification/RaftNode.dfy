// node.py: the node as the program keeps it, an object whose parts share state. Each method is
// one region the program runs under the Raft lock, in place, and does to the node and to its
// files exactly what the function of node values says.

module RaftNodes {
  import opened Prelude
  import opened Types
  import opened RaftLogs
  import opened RaftStates
  import opened Stores
  import opened StateMachines
  import opened Elections
  import opened Leaders
  import opened Replications
  import opened Journals
  import opened Nodes

  class RaftNode {
    const nodeId: NodeId
    const members: set<NodeId>
    const state: RaftState
    var log: RaftLog
    var snapshot: Snapshot
    const store: KVStore
    const election: ElectionTracker
    var replication: LeaderReplication?
    const persistence: RaftPersistence

    function Parts(): (parts: set<object>)
      reads this
      ensures this in parts
    {
      var own: set<object> := {this, state, log, store, election, persistence};
      if replication == null then own else own + {replication}
    }

    // The tracker and the replication object work on the node's own state and log.
    predicate Valid()
      reads this, Parts()
      ensures Valid() ==> View().Sound()
    {
      && state.nodeId == nodeId && election.state == state && election.members == members
      && (replication != null ==>
            replication.Valid() && replication.state == state && replication.log == log
            && replication.members == members)
      && View().Sound()
    }

    function View(): NodeView
      reads this, Parts()
    {
      NodeView(members, state.View(), log.View(), snapshot, store.data, election.View(),
        if replication == null then None else Some(replication.View()))
    }

    // The node and its files after a region that took them to e from here.
    ghost predicate Did<R(!new)>(files: Disk, e: Effect<R>, reply: R)
      reads this, Parts()
    {
      View() == e.node && persistence.View() == PerformAll(files, e.writes) && reply == e.reply
    }

    constructor (nodeId: NodeId, members: set<NodeId>, state: RaftState, log: RaftLog, snapshot: Snapshot,
                 store: KVStore, persistence: RaftPersistence)
      requires state.nodeId == nodeId && nodeId in members && log.View().WellFormed() && 0 <= log.baseTerm
      requires snapshot.index == log.baseIndex && snapshot.term == log.baseTerm
      ensures Valid() && this.persistence == persistence && fresh(Parts() - {state, log, store, persistence})
      ensures View() == NodeView(members, state.View(), log.View(), snapshot, store.data, ElectionView({}, false), None)
    {
      this.nodeId, this.members, this.state, this.log := nodeId, members, state, log;
      this.snapshot, this.store, this.persistence := snapshot, store, persistence;
      election := new ElectionTracker(state, members);
      replication := null;
    }

    // ---- Elections ----

    method InitializeLeaderReplication()
      requires Valid()
      modifies this`replication
      ensures Valid() && View() == InitReplication(old(View())) && fresh(Parts() - old(Parts()))
    {
      if state.role != Leader {
        replication := null;
        return;
      }
      if replication == null {
        replication := new LeaderReplication(state, log, members);
      }
    }

    method HandleRequestVote(req: VoteRequest) returns (reply: VoteReply)
      requires Valid()
      modifies Parts()
      ensures Valid() && fresh(Parts() - old(Parts()))
      ensures Did(old(persistence.View()), ReceiveVoteRequest(old(View()), req), reply)
    {
      reply := Votes.HandleRequestVote(state, req, log.View().LastIndex(), log.View().LastTerm());
      persistence.SaveState(state);
      if state.role != Leader {
        replication := null;
      }
      PerformsOne(old(persistence.View()), SaveStateOf(state.View()));
    }

    // tick, first region. Whether the timer has expired is a parameter.
    method Tick(expired: bool) returns (requests: map<NodeId, VoteRequest>)
      requires Valid()
      modifies Parts()
      ensures Valid() && fresh(Parts() - old(Parts()))
      ensures expired ==>
        var e := BeginElection(old(View()));
        && View() == e.node && persistence.View() == PerformAll(old(persistence.View()), e.writes)
        && requests == if e.reply then map p | p in e.node.Followers() :: VoteRequestOf(e.node) else map[]
      ensures !expired ==>
        && View() == (if old(state.role) == Leader then InitReplication(old(View())) else old(View()))
        && persistence.View() == old(persistence.View()) && requests == map[]
    {
      hide InitReplication, PerformAll, StartElection;
      requests := map[];
      var previousTerm, previousVote := state.currentTerm, state.votedFor;
      if expired {
        election.Start();
        if state.role != Leader {
          var request := VoteRequest(state.currentTerm, state.nodeId, log.View().LastIndex(), log.View().LastTerm());
          requests := map p | p in members - {state.nodeId} :: request;
        }
        PerformsOne(persistence.View(), SaveStateOf(state.View()));
      }
      PersistIfMoved(previousTerm, previousVote);
      if state.role == Leader {
        InitializeLeaderReplication();
      }
    }

    // tick, the region that counts one response. The result says whether the election is over.
    method CountBallot(peer: NodeId, req: VoteRequest, ballot: VoteReply) returns (over: bool)
      requires Valid()
      modifies Parts()
      ensures Valid() && fresh(Parts() - old(Parts()))
      ensures View() == ReceiveVoteReply(old(View()), peer, req, ballot).node
      ensures persistence.View() == PerformAll(old(persistence.View()),
                                               ReceiveVoteReply(old(View()), peer, req, ballot).writes)
      ensures over <==> old(state.role != Candidate || state.currentTerm != req.term) || state.role != Candidate
    {
      hide VoteRecorded, InitReplication, PerformAll;
      NothingWritten(persistence.View());
      if state.role != Candidate || state.currentTerm != req.term {
        return true;
      }
      var beforeTerm, beforeVote := state.currentTerm, state.votedFor;
      var _ := election.RecordVote(peer, ballot);
      PerformsOne(persistence.View(), SaveStateOf(state.View()));
      PersistIfMoved(beforeTerm, beforeVote);
      over := SettleElection();
    }

    // After a vote was counted: a leader gets its replication object, a follower loses it.
    method SettleElection() returns (over: bool)
      requires Valid()
      modifies this`replication
      ensures Valid() && fresh(Parts() - old(Parts())) && (over <==> state.role != Candidate)
      ensures View() == if state.role == Leader then InitReplication(old(View()))
                        else if state.role == Follower then old(View()).(replication := None) else old(View())
    {
      if state.role == Leader {
        InitializeLeaderReplication();
        return true;
      }
      if state.role == Follower {
        replication := null;
        return true;
      }
      return false;
    }

    method PersistIfMoved(term: int, vote: Option<NodeId>)
      modifies persistence`term, persistence`votedFor, persistence`commitIndex
      ensures persistence.View()
           == if state.currentTerm != term || state.votedFor != vote
              then Perform(old(persistence.View()), SaveStateOf(state.View())) else old(persistence.View())
    {
      if state.currentTerm != term || state.votedFor != vote {
        persistence.SaveState(state);
      }
    }

    // ---- Replication, follower side ----

    // The length of the shared prefix is found by walking it; then only the rest is written.
    method PersistLogChange(before: seq<LogEntry>, after: seq<LogEntry>)
      requires forall k :: 0 <= k < |before| ==> 0 < before[k].index
      modifies persistence`journal
      ensures persistence.View() == PerformAll(old(persistence.View()), WriteRecords(Changes(before, after)))
    {
      if before == after {
        NothingChanged(before, after);
        assert WriteRecords([]) == [];
        return;
      }
      var n := 0;
      while n < |before| && n < |after| && before[n] == after[n]
        invariant 0 <= n <= |before| && n <= |after|
        invariant before[..n] == after[..n]
      {
        assert before[..n + 1] == before[..n] + [before[n]] && after[..n + 1] == after[..n] + [after[n]];
        n := n + 1;
      }
      CommonPrefixIs(before, after, n);
      var suffix := after[n..];
      if n == |before| {
        persistence.AppendLogEntries(suffix);
        return;
      }
      var _ := persistence.ReplaceLogSuffix(before[n].index, suffix);
    }

    // None where the handler raises; the parts may then be half changed.
    method HandleAppendEntries(req: AppendRequest) returns (reply: Option<ReplicationReply>)
      requires Valid()
      modifies Parts()
      ensures reply.Some? <==> ReceiveAppend(old(View()), req).Some?
      ensures reply.Some? ==> Valid() && Parts() <= old(Parts())
      ensures reply.Some? ==> Did(old(persistence.View()), ReceiveAppend(old(View()), req).value, reply.value)
    {
      hide HandleAppend, Changes, WriteRecords, PerformAll;
      var before := log.entries;
      var term, vote, commit := state.currentTerm, state.votedFor, state.commitIndex;
      ghost var n := View();
      ghost var files := persistence.View();
      reply := Replications.HandleAppendEntries(state, log, store, req);
      if reply == None {
        return None;
      }
      PersistLogChange(before, log.entries);
      ghost var written := persistence.View();
      var changed := state.currentTerm != term || state.votedFor != vote || state.commitIndex != commit;
      if changed {
        persistence.SaveState(state);
      }
      if state.role != Leader {
        replication := null;
      }
      NothingWritten(written);
      PerformSplits(files, WriteRecords(Changes(before, log.entries)),
                    if changed then [SaveStateOf(state.View())] else []);
      PerformsOne(written, SaveStateOf(state.View()));
    }

    method HandleInstallSnapshot(req: SnapshotRequest) returns (reply: Option<ReplicationReply>)
      requires Valid()
      modifies Parts()
      ensures reply.Some? <==> ReceiveSnapshot(old(View()), req).Some?
      ensures reply.Some? ==> Valid() && fresh(Parts() - old(Parts()))
      ensures reply.Some? ==> Did(old(persistence.View()), ReceiveSnapshot(old(View()), req).value, reply.value)
    {
      hide InstallSnapshot, PerformAll;
      ghost var files := persistence.View();
      NothingWritten(files);
      if req.term < state.currentTerm {
        return Some(ReplicationReply(state.currentTerm, false));
      }
      var previousTerm := state.currentTerm;
      var _ := state.BecomeFollower(req.term, Some(req.leader));
      replication := null;
      PerformsOne(files, SaveStateOf(state.View()));
      if req.lastIncludedIndex < 0 || req.lastIncludedTerm < 0 {
        PersistIfLater(previousTerm);
        return Some(ReplicationReply(state.currentTerm, false));
      }
      if req.lastIncludedIndex < snapshot.index {
        PersistIfLater(previousTerm);
        return Some(ReplicationReply(state.currentTerm, true));
      }
      reply := InstallOrRefuse(req, previousTerm);
    }

    method InstallOrRefuse(req: SnapshotRequest, previousTerm: int) returns (reply: Option<ReplicationReply>)
      requires Valid() && replication == null && 0 <= req.lastIncludedIndex && 0 <= req.lastIncludedTerm
      modifies Parts()
      ensures var r := InstallSnapshot(old(View()), req,
                if old(state.currentTerm) != previousTerm then [SaveStateOf(old(state.View()))] else []);
        && (reply.Some? <==> r.Some?)
        && (reply.Some? ==> Did(old(persistence.View()), r.value, reply.value))
      ensures reply.Some? ==> Valid() && fresh(Parts() - old(Parts()))
    {
      hide ApplyCommitted, PerformAll;
      ghost var files := persistence.View();
      NothingWritten(files);
      PerformsOne(files, SaveStateOf(state.View()));
      var refusal := Some(ReplicationReply(state.currentTerm, false));
      var localTerm := log.View().TermAt(req.lastIncludedIndex);
      if state.commitIndex > req.lastIncludedIndex && localTerm != Some(req.lastIncludedTerm) {
        PersistIfLater(previousTerm);
        return refusal;
      }
      if req.lastIncludedIndex == 0 && req.lastIncludedTerm != 0 {
        return None;
      }
      var newLog := log.Copy();
      var installed := newLog.InstallSnapshotBoundary(req.lastIncludedIndex, req.lastIncludedTerm);
      var commit := Max(state.commitIndex, req.lastIncludedIndex);
      if !installed || commit > newLog.View().LastIndex() {
        PersistIfLater(previousTerm);
        return refusal;
      }
      var applied := Install(req, newLog, commit);
      if !applied {
        return None;
      }
      return Some(ReplicationReply(state.currentTerm, true));
    }

    // Snapshot first, then the compacted journal, then commit metadata.
    method Install(req: SnapshotRequest, newLog: RaftLog, commit: int) returns (ok: bool)
      requires replication == null && newLog.View().WellFormed() && newLog !in Parts()
      modifies this`log, this`snapshot, state`commitIndex, state`lastApplied, store, persistence
      ensures var r := ApplyCommitted(old(state.View()).(commitIndex := commit, lastApplied := req.lastIncludedIndex),
                                      newLog.View(), req.state);
        && (ok <==> r.Some?)
        && (ok ==> state.View() == r.value.state && store.data == r.value.store)
      ensures log == newLog && snapshot == Snapshot(req.lastIncludedIndex, req.lastIncludedTerm, req.state)
      ensures ok ==> persistence.View() == PerformAll(old(persistence.View()),
                       [SaveSnapshot(snapshot), SaveLog(log.View()), SaveStateOf(state.View())])
    {
      ghost var files := persistence.View();
      var newSnapshot := Snapshot(req.lastIncludedIndex, req.lastIncludedTerm, req.state);
      persistence.SaveSnapshot(newSnapshot);
      persistence.SaveLog(newLog);
      snapshot := newSnapshot;
      log := newLog;
      store.Restore(newSnapshot.state);
      state.commitIndex := commit;
      state.lastApplied := req.lastIncludedIndex;
      ok := ApplyCommittedEntries(state, log, store);
      PerformsThree(files, SaveSnapshot(newSnapshot), SaveLog(log.View()), SaveStateOf(state.View()));
      if ok {
        persistence.SaveState(state);
      }
    }

    method PersistIfLater(previousTerm: int)
      modifies persistence`term, persistence`votedFor, persistence`commitIndex
      ensures persistence.View()
           == if state.currentTerm != previousTerm then Perform(old(persistence.View()), SaveStateOf(state.View()))
              else old(persistence.View())
    {
      if state.currentTerm != previousTerm {
        persistence.SaveState(state);
      }
    }

    // ---- Replication, leader side ----

    // None where the region raises.
    method NextRequestTo(f: NodeId) returns (out: Option<Outgoing>)
      requires Valid() && f in View().Followers()
      ensures out == NextRequest(View(), f)
    {
      if state.role != Leader || replication == null {
        return Some(Idle);
      }
      var next := replication.nextIndex[f];
      if next <= log.baseIndex {
        if snapshot.index != log.baseIndex || snapshot.term != log.baseTerm {
          return None;
        }
        return Some(SendSnapshot(SnapshotRequest(state.currentTerm, nodeId, snapshot.index, snapshot.term,
                                                 snapshot.state)));
      }
      var req := replication.BuildRequest(f);
      return if req == None then None else Some(SendAppend(req.value));
    }

    method StepDownTo(term: int)
      requires Valid() && state.currentTerm < term
      modifies Parts()
      ensures Valid() && fresh(Parts() - old(Parts()))
      ensures View() == StepDown(old(View()), term).node
      ensures persistence.View() == PerformAll(old(persistence.View()), StepDown(old(View()), term).writes)
    {
      var _ := state.BecomeFollower(term, None);
      PerformsOne(persistence.View(), SaveStateOf(state.View()));
      persistence.SaveState(state);
      replication := null;
    }

    method TakeAppendReply(f: NodeId, req: AppendRequest, reply: ReplicationReply) returns (progress: Progress)
      requires Valid() && f in View().Followers()
      modifies Parts()
      ensures Valid() && fresh(Parts() - old(Parts()))
      ensures Did(old(persistence.View()), ReceiveAppendReply(old(View()), f, req, reply), progress)
    {
      hide PerformAll;
      NothingWritten(persistence.View());
      if state.role != Leader || state.currentTerm != req.term || replication == null {
        return Return(false);
      }
      if reply.term > state.currentTerm {
        StepDownTo(reply.term);
        return Return(false);
      }
      if reply.success {
        var _ := replication.RecordSuccess(f, req);
        if replication.nextIndex[f] <= log.View().LastIndex() || req.leaderCommit < state.commitIndex {
          return Retry;
        }
        return Return(true);
      }
      var _ := replication.RecordFailure(f);
      return Retry;
    }

    method TakeSnapshotReply(f: NodeId, req: SnapshotRequest, reply: ReplicationReply) returns (progress: Progress)
      requires Valid() && f in View().Followers()
      modifies Parts()
      ensures Valid() && fresh(Parts() - old(Parts()))
      ensures Did(old(persistence.View()), ReceiveSnapshotReply(old(View()), f, req, reply), progress)
    {
      hide PerformAll;
      NothingWritten(persistence.View());
      if state.role != Leader || state.currentTerm != req.term || replication == null {
        return Return(false);
      }
      if reply.term > state.currentTerm {
        StepDownTo(reply.term);
        return Return(false);
      }
      if !reply.success {
        return Return(false);
      }
      var _ := replication.RecordSnapshotSuccess(f, req.lastIncludedIndex);
      return if replication.nextIndex[f] <= log.View().LastIndex() then Retry else Return(true);
    }

    // replicate_log, last region: to the quorum index of the moment. None where applying raises.
    method AdvanceAndApplyEntries() returns (led: Option<bool>, ghost quorumIndex: int)
      requires Valid()
      modifies Parts()
      ensures old(state.role) == Leader && old(replication) != null ==>
        IsQuorumIndex(nodeId, log.View().LastIndex(), old(replication.matchIndex), |members|, quorumIndex)
      ensures led.Some? <==> AdvanceAndApply(old(View()), quorumIndex).Some?
      ensures led.Some? ==> Valid() && Parts() <= old(Parts())
      ensures led.Some? ==> Did(old(persistence.View()), AdvanceAndApply(old(View()), quorumIndex).value, led.value)
    {
      hide ApplyCommitted, PerformAll, IsQuorumIndex;
      NothingWritten(persistence.View());
      if state.role != Leader || replication == null {
        return Some(false), 0;
      }
      var previous := state.commitIndex;
      var commit;
      commit, quorumIndex := replication.AdvanceCommitIndex();
      if state.commitIndex != previous {
        PerformsOne(persistence.View(), SaveStateOf(state.View()));
        persistence.SaveState(state);
        var applied := ApplyCommittedEntries(state, log, store);
        if !applied {
          return None, quorumIndex;
        }
      }
      return Some(true), quorumIndex;
    }

    // The last region of a read: whatever is committed is applied before the store is read.
    method ApplyAndRead(key: string) returns (ok: bool, value: Option<string>)
      requires Valid()
      modifies state`lastApplied, store
      ensures ok <==> ApplyForRead(old(View())).Some?
      ensures ok ==> Valid() && View() == ApplyForRead(old(View())).value.node
      ensures ok ==> value == if key in store.data then Some(store.data[key]) else None
    {
      value := None;
      ok := ApplyCommittedEntries(state, log, store);
      if ok {
        value := store.Get(key);
      }
    }

    // ---- Clients, compaction, transfer ----

    method AppendCommands(commands: seq<Command>) returns (added: seq<LogEntry>)
      requires Valid() && 0 <= state.currentTerm
      modifies log
      ensures log.View() == AppendAll(old(log.View()), state.currentTerm, commands)
      ensures log.entries == old(log.entries) + added
    {
      added := [];
      var i := 0;
      while i < |commands|
        invariant 0 <= i <= |commands| && log.View().WellFormed()
        invariant log.View() == AppendAll(old(log.View()), state.currentTerm, commands[..i])
        invariant log.entries == old(log.entries) + added
      {
        hide LogView.WellFormed, LogView.LastIndex;
        var e := log.Append(state.currentTerm, commands[i]);
        added := added + [e.value];
        assert commands[..i + 1][..i] == commands[..i];
        i := i + 1;
      }
      assert commands[..i] == commands;
    }

    method CheckCommands(commands: seq<Command>) returns (ok: bool)
      ensures ok <==> !exists c :: c in commands && !Applicable(c)
    {
      var i := 0;
      while i < |commands|
        invariant 0 <= i <= |commands|
        invariant forall c :: c in commands[..i] ==> Applicable(c)
      {
        if commands[i].operation != "PUT" && commands[i].operation != "DELETE" {
          assert !Applicable(commands[i]);
          return false;
        }
        if commands[i].operation == "PUT" && commands[i].value == None {
          assert !Applicable(commands[i]);
          return false;
        }
        assert commands[..i + 1] == commands[..i] + [commands[i]];
        i := i + 1;
      }
      assert commands[..i] == commands;
      return true;
    }

    // submit_commands, first region
    method SubmitCommands(commands: seq<Command>) returns (r: Submission)
      requires Valid()
      modifies Parts()
      ensures Valid() && fresh(Parts() - old(Parts()))
      ensures r == Submit(old(View()), commands)
      ensures View() == if r.Accepted? then r.effect.node else old(View())
      ensures persistence.View()
           == if r.Accepted? then PerformAll(old(persistence.View()), r.effect.writes) else old(persistence.View())
    {
      hide PerformAll, InitReplication, AppendAll;
      NothingWritten(persistence.View());
      if commands == [] {
        return Accepted(Effect(View(), [], []));
      }
      if state.role != Leader {
        return NotLeader;
      }
      var supported := CheckCommands(commands);
      if state.currentTerm < 0 || !supported {
        return Unsupported;
      }
      var added := AppendCommands(commands);
      persistence.AppendLogEntries(added);
      InitializeLeaderReplication();
      return Accepted(Effect(View(), WriteRecords(Appends(added)), added));
    }

    // The result reported for each entry of a batch: only the role is checked again, not the term.
    method ReportSubmission(added: seq<LogEntry>) returns (results: seq<bool>)
      requires Valid()
      ensures |results| == |added|
      ensures forall k :: 0 <= k < |added| ==>
        (results[k] <==> state.role == Leader && replication != null && state.commitIndex >= added[k].index)
    {
      if state.role != Leader || replication == null {
        return seq(|added|, _ => false);
      }
      return seq(|added|, k requires 0 <= k < |added| reads state => state.commitIndex >= added[k].index);
    }

    // create_snapshot: the compacted log is a new object, which the replication object is given too.
    method CompactLog() returns (done: Option<bool>)
      requires Valid()
      modifies Parts()
      ensures done.Some? <==> CreateSnapshot(old(View())).Some?
      ensures Valid() && fresh(Parts() - old(Parts()))
      ensures done.Some? ==> Did(old(persistence.View()), CreateSnapshot(old(View())).value, done.value)
      ensures done == None ==> View() == old(View())
    {
      hide PerformAll, LogView.CompactThrough, LogView.TermAt, SavesOnly, Keeps;
      NothingWritten(persistence.View());
      var index := if state.commitIndex <= state.lastApplied then state.commitIndex else state.lastApplied;
      if index <= log.baseIndex {
        return Some(false);
      }
      var term := log.View().TermAt(index);
      if term == None || term.value < 0 {
        return None;
      }
      CompactTo(index, term.value);
      return Some(true);
    }

    method CompactTo(index: int, term: int)
      requires Valid() && log.baseIndex < index && log.View().TermAt(index) == Some(term) && 0 <= term
      modifies this`log, this`snapshot, replication, persistence
      ensures Valid() && fresh(Parts() - old(Parts())) && old(log.View()).CompactThrough(index).Some?
      ensures View() == old(View()).(log := old(log.View()).CompactThrough(index).value,
                                     snapshot := Snapshot(index, term, store.data))
      ensures persistence.View() == PerformAll(old(persistence.View()),
                [SaveSnapshot(snapshot), SaveLog(log.View()), SaveStateOf(state.View())])
    {
      hide PerformAll, LogView.CompactThrough, LogView.TermAt;
      var copy := store.Snapshot();
      var taken := Snapshot(index, term, copy);
      var compacted := log.Copy();
      CompactionFits(log.View(), index);
      CompactedBoundary(log.View(), index);
      var ok := compacted.CompactThrough(index);
      SwapLog(taken, compacted);
    }

    // The durable snapshot first, then the shorter log, then the objects in memory.
    method SwapLog(taken: Snapshot, compacted: RaftLog)
      requires Valid() && compacted.View().WellFormed() && 0 <= compacted.baseTerm
      requires taken.index == compacted.baseIndex && taken.term == compacted.baseTerm
      modifies this`log, this`snapshot, replication, persistence
      ensures Valid() && Parts() == old(Parts()) - {old(log)} + {compacted}
      ensures View() == old(View()).(log := compacted.View(), snapshot := taken)
      ensures persistence.View() == PerformAll(old(persistence.View()),
                [SaveSnapshot(taken), SaveLog(compacted.View()), SaveStateOf(state.View())])
    {
      PerformsThree(persistence.View(), SaveSnapshot(taken), SaveLog(compacted.View()), SaveStateOf(state.View()));
      persistence.SaveSnapshot(taken);
      persistence.SaveLog(compacted);
      persistence.SaveState(state);
      snapshot := taken;
      log := compacted;
      if replication != null {
        replication.log := log;
      }
    }

    method HandleTimeoutNow(req: TimeoutNowRequest) returns (reply: TimeoutNowReply)
      requires Valid()
      modifies Parts()
      ensures Valid() && Parts() == old(Parts())
      ensures Did(old(persistence.View()), ReceiveTimeoutNow(old(View()), req), reply)
    {
      NothingWritten(persistence.View());
      if req.term < state.currentTerm {
        return TimeoutNowReply(state.currentTerm, false);
      }
      var previousTerm := state.currentTerm;
      if req.term > state.currentTerm {
        var _ := state.BecomeFollower(req.term, Some(req.leader));
      }
      var accepted := state.role == Follower && state.leaderId == Some(req.leader);
      PerformsOne(persistence.View(), SaveStateOf(state.View()));
      PersistIfLater(previousTerm);
      return TimeoutNowReply(state.currentTerm, accepted);
    }

    // transfer_leadership, last region
    method FinishTransfer(transferTerm: int, reply: TimeoutNowReply) returns (transferred: bool)
      requires Valid()
      modifies Parts()
      ensures Valid() && fresh(Parts() - old(Parts()))
      ensures Did(old(persistence.View()), ReceiveTimeoutReply(old(View()), transferTerm, reply), transferred)
    {
      NothingWritten(persistence.View());
      if state.role != Leader || state.currentTerm != transferTerm {
        return false;
      }
      if reply.term > state.currentTerm {
        StepDownTo(reply.term);
        return false;
      }
      if !reply.accepted {
        return false;
      }
      var _ := state.BecomeFollower(transferTerm, None);
      replication := null;
      return true;
    }

    // ---- Recovery ----

    // load_log and the checks against the snapshot; null where they raise.
    static method OpenLog(files: RaftPersistence) returns (log: RaftLog?)
      modifies files`journal
      ensures log != null <==>
        && Replay(old(files.journal)).Some? && ValidSnapshot(files.snapshot)
        && var l := Replay(old(files.journal)).value;
           && l.baseIndex <= files.snapshot.index
           && (files.snapshot.index == l.baseIndex ==> files.snapshot.term == l.baseTerm)
           && RecoveredLog(l, files.snapshot).Some?
      ensures log != null ==>
        log.View().WellFormed() && 0 <= log.baseTerm && log.baseIndex == files.snapshot.index
            && log.baseTerm == files.snapshot.term
      ensures log != null ==>
        var l := Replay(old(files.journal)).value;
        && fresh(log) && RecoveredLog(l, files.snapshot) == Some(log.View())
        && files.View() == PerformAll(old(files.View()),
             if files.snapshot.index > l.baseIndex then [SaveLog(log.View())] else [])
    {
      hide Replay, PerformAll;
      var snapshot := files.snapshot;
      NothingWritten(files.View());
      log := files.LoadLog();
      if log == null || !ValidSnapshot(snapshot) || snapshot.index < log.baseIndex
         || (snapshot.index == log.baseIndex && snapshot.term != log.baseTerm) {
        return null;
      }
      if snapshot.index > log.baseIndex {
        var ok := log.InstallSnapshotBoundary(snapshot.index, snapshot.term);
        PerformsOne(files.View(), SaveLog(log.View()));
        files.SaveLog(log);
      }
    }

    // The snapshot may be ahead of the durable commit index.
    static method RaiseCommit(files: RaftPersistence, state: RaftState)
      requires state.commitIndex == files.commitIndex && state.currentTerm == files.term
      requires state.votedFor == files.votedFor
      modifies files`term, files`votedFor, files`commitIndex, state`commitIndex
      ensures state.View() == old(state.View()).(commitIndex := Max(old(files.commitIndex), files.snapshot.index))
      ensures files.View() == PerformAll(old(files.View()),
                if old(files.commitIndex) < files.snapshot.index
                then [SaveState(state.currentTerm, state.votedFor, state.commitIndex)] else [])
    {
      NothingWritten(files.View());
      if state.commitIndex < files.snapshot.index {
        state.commitIndex := files.snapshot.index;
        PerformsOne(files.View(), SaveState(state.currentTerm, state.votedFor, state.commitIndex));
        files.SaveState(state);
      }
    }

    // The constructor on existing files; null where it raises.
    static method Open(nodeId: NodeId, members: set<NodeId>, files: RaftPersistence) returns (node: RaftNode?)
      requires nodeId in members
      modifies files
      ensures node != null <==> Recover(nodeId, members, old(files.View())).Some?
      ensures node != null ==>
        var e := Recover(nodeId, members, old(files.View())).value;
        && fresh(node) && node.persistence == files && fresh(node.Parts() - {files}) && node.Valid()
        && node.View() == e.node && files.View() == PerformAll(old(files.View()), e.writes)
    {
      hide ApplyCommitted, PerformAll, Replay, RecoveredLog;
      ghost var before := files.View();
      var state := files.LoadState(nodeId);
      var log := OpenLog(files);
      if log == null {
        return null;
      }
      RaiseCommit(files, state);
      ghost var l := Replay(before.journal).value;
      PerformSplits(before, if before.snapshot.index > l.baseIndex then [SaveLog(log.View())] else [],
        if before.commitIndex < before.snapshot.index then
          [SaveState(before.term, before.votedFor, state.commitIndex)] else []);
      if state.commitIndex > log.View().LastIndex() {
        return null;
      }
      node := Rebuild(nodeId, members, files, state, log);
    }

    // The store is rebuilt from the snapshot and the committed suffix, and the node starts as a follower.
    static method Rebuild(nodeId: NodeId, members: set<NodeId>, files: RaftPersistence, state: RaftState, log: RaftLog)
      returns (node: RaftNode?)
      requires nodeId in members && state.nodeId == nodeId && log.View().WellFormed() && 0 <= log.baseTerm
      requires files.snapshot.index == log.baseIndex && files.snapshot.term == log.baseTerm
      requires state.role == Follower && state.leaderId == None
      modifies state
      ensures var r := ApplyCommitted(old(state.View()).(lastApplied := files.snapshot.index), log.View(),
                                      files.snapshot.state);
        && (node != null <==> r.Some?)
        && (node != null ==>
              && fresh(node) && node.persistence == files && fresh(node.Parts() - {files, state, log}) && node.Valid()
              && node.View() == NodeView(members, r.value.state, log.View(), files.snapshot, r.value.store,
                                         ElectionView({}, false), None))
    {
      hide ApplyCommitted;
      var store := new KVStore();
      store.Restore(files.snapshot.state);
      state.lastApplied := files.snapshot.index;
      var applied := ApplyCommittedEntries(state, log, store);
      if !applied {
        return null;
      }
      state.role := Follower;
      state.leaderId := None;
      node := new RaftNode(nodeId, members, state, log, files.snapshot, store, files);
    }
  }
  // A node none of whose parts was touched is as it was.
  twostate lemma Untouched(node: RaftNode)
    requires unchanged(old(node.Parts()))
    ensures node.Parts() == old(node.Parts()) && node.View() == old(node.View()) && node.Valid() == old(node.Valid())
  {
  }
}

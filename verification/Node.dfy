// node.py: one node as a value, and each region the program runs under its Raft lock as a
// function from the node to its new value, the durable writes in order, and the reply.
// None stands for an exception. The class RaftNode carries these regions out in place.

module Nodes {
  import opened Prelude
  import opened Types
  import opened RaftLogs
  import opened RaftStates
  import opened StateMachines
  import opened Votes
  import opened Elections
  import opened Leaders
  import opened Replications
  import opened Journals

  datatype NodeView = NodeView(
    members: set<NodeId>, state: StateView, log: LogView, snapshot: Snapshot, store: Store,
    election: ElectionView, replication: Option<ReplicationView>)
  {
    function Followers(): set<NodeId> { members - {state.nodeId} }

    // What the object keeps of itself, whatever it is sent.
    predicate Sound() {
      && log.WellFormed() && 0 <= log.baseTerm
      && snapshot.index == log.baseIndex && snapshot.term == log.baseTerm
      && state.nodeId in members
      && (replication.Some? ==> replication.value.Covers(Followers()))
    }
  }

  // The node is still sound, and still itself.
  predicate Keeps(n: NodeView, m: NodeView) {
    m.Sound() && m.members == n.members && m.state.nodeId == n.state.nodeId
  }

  datatype Effect<R> = Effect(node: NodeView, writes: seq<Write>, reply: R)

  function SaveStateOf(s: StateView): Write { SaveState(s.currentTerm, s.votedFor, s.commitIndex) }

  // Whatever state a region saves is the state it ends with.
  predicate SavesOnly(ws: seq<Write>, s: StateView) {
    forall i :: 0 <= i < |ws| && ws[i].SaveState? ==> ws[i] == SaveStateOf(s)
  }

  // _initialize_leader_replication: an existing object is kept.
  function InitReplication(n: NodeView): (r: NodeView)
    ensures n.Sound() ==> Keeps(n, r)
    ensures r.state == n.state && r.log == n.log
  {
    if n.state.role != Leader then n.(replication := None)
    else if n.replication == None then
      n.(replication := Some(NewReplication(n.log.LastIndex(), n.Followers())))
    else n
  }

  function UnlessLeader(s: StateView, r: Option<ReplicationView>): Option<ReplicationView> {
    if s.role != Leader then None else r
  }

  // ---- Elections ----

  // handle_request_vote
  function ReceiveVoteRequest(n: NodeView, req: VoteRequest): (r: Effect<VoteReply>)
    ensures n.Sound() ==> Keeps(n, r.node)
    ensures |r.writes| <= 1
    ensures SavesOnly(r.writes, r.node.state) && r.node.state.commitIndex == n.state.commitIndex
  {
    var o := HandleVote(n.state, req, n.log.LastIndex(), n.log.LastTerm());
    Effect(n.(state := o.state, replication := UnlessLeader(o.state, n.replication)), [SaveStateOf(o.state)], o.reply)
  }

  // tick, first region, once the timer has expired
  function BeginElection(n: NodeView): (r: Effect<bool>)
    ensures n.Sound() ==> Keeps(n, r.node)
    ensures |r.writes| <= 1
    ensures SavesOnly(r.writes, r.node.state) && r.node.state.commitIndex == n.state.commitIndex
  {
    var t := StartElection(n.state, n.members);
    var m := n.(state := t.state, election := t.election);
    Effect(if t.state.role == Leader then InitReplication(m) else m, [SaveStateOf(t.state)], t.state.role != Leader)
  }

  // The request every peer is sent when BeginElection leaves the node a candidate.
  function VoteRequestOf(n: NodeView): VoteRequest {
    VoteRequest(n.state.currentTerm, n.state.nodeId, n.log.LastIndex(), n.log.LastTerm())
  }

  // tick, the region that handles one response
  function ReceiveVoteReply(n: NodeView, peer: NodeId, req: VoteRequest, reply: VoteReply): (r: Effect<bool>)
    ensures n.Sound() ==> Keeps(n, r.node)
    ensures |r.writes| <= 1
    ensures SavesOnly(r.writes, r.node.state) && r.node.state.commitIndex == n.state.commitIndex
  {
    if n.state.role != Candidate || n.state.currentTerm != req.term then Effect(n, [], false)
    else
      var t := VoteRecorded(n.state, n.election, n.members, peer, reply);
      var m := n.(state := t.state, election := t.election);
      Effect(if t.state.role == Leader then InitReplication(m)
             else if t.state.role == Follower then m.(replication := None) else m,
             if t.state.currentTerm != n.state.currentTerm || t.state.votedFor != n.state.votedFor
             then [SaveStateOf(t.state)] else [],
             t.state.role == Leader)
  }

  // ---- Replication, follower side ----

  predicate DurableStateChanged(a: StateView, b: StateView) {
    a.currentTerm != b.currentTerm || a.votedFor != b.votedFor || a.commitIndex != b.commitIndex
  }

  // handle_append_entries
  function ReceiveAppend(n: NodeView, req: AppendRequest): (r: Option<Effect<ReplicationReply>>)
    requires n.Sound()
    ensures r.Some? ==> Keeps(n, r.value.node)
    ensures r.Some? ==> SavesOnly(r.value.writes, r.value.node.state)
  {
    match HandleAppend(n.state, n.log, n.store, req)
    case None => None
    case Some(o) =>
      Some(Effect(
        n.(state := o.state, log := o.log, store := o.store, replication := UnlessLeader(o.state, n.replication)),
        WriteRecords(Changes(n.log.entries, o.log.entries))
        + if DurableStateChanged(n.state, o.state) then [SaveStateOf(o.state)] else [],
        o.reply))
  }

  function Max(a: int, b: int): int { if a >= b then a else b }

  // The second half of handle_install_snapshot, at a node that already follows the leader and
  // would save its new term with these writes.
  function InstallSnapshot(m: NodeView, req: SnapshotRequest, save: seq<Write>): (r: Option<Effect<ReplicationReply>>)
    requires m.Sound() && 0 <= req.lastIncludedIndex && 0 <= req.lastIncludedTerm
    ensures r.Some? ==> Keeps(m, r.value.node)
    ensures r.Some? && SavesOnly(save, m.state) ==> SavesOnly(r.value.writes, r.value.node.state)
  {
    var index, term := req.lastIncludedIndex, req.lastIncludedTerm;
    var refused := Effect(m, save, ReplicationReply(m.state.currentTerm, false));
    if m.state.commitIndex > index && m.log.TermAt(index) != Some(term) then Some(refused)
    else if index == 0 && term != 0 then None
    else
      match m.log.InstallBoundary(index, term)
      case None => Some(refused)
      case Some(l) =>
        var commit := Max(m.state.commitIndex, index);
        if commit > l.LastIndex() then Some(refused)
        else
          match ApplyCommitted(m.state.(commitIndex := commit, lastApplied := index), l, req.state)
          case None => None
          case Some(a) =>
            var snapshot := Snapshot(index, term, req.state);
            Some(Effect(m.(state := a.state, log := l, snapshot := snapshot, store := a.store),
              [SaveSnapshot(snapshot), SaveLog(l), SaveStateOf(a.state)],
              ReplicationReply(m.state.currentTerm, true)))
  }

  // handle_install_snapshot
  function ReceiveSnapshot(n: NodeView, req: SnapshotRequest): (r: Option<Effect<ReplicationReply>>)
    requires n.Sound()
    ensures r.Some? ==> Keeps(n, r.value.node)
    ensures r.Some? ==> SavesOnly(r.value.writes, r.value.node.state)
  {
    if req.term < n.state.currentTerm then
      Some(Effect(n, [], ReplicationReply(n.state.currentTerm, false)))
    else
      var s := n.state.BecomeFollower(req.term, Some(req.leader));
      var m := n.(state := s, replication := None);
      var save := if s.currentTerm != n.state.currentTerm then [SaveStateOf(s)] else [];
      if req.lastIncludedIndex < 0 || req.lastIncludedTerm < 0 then
        Some(Effect(m, save, ReplicationReply(s.currentTerm, false)))
      else if req.lastIncludedIndex < n.snapshot.index then
        Some(Effect(m, save, ReplicationReply(s.currentTerm, true)))
      else InstallSnapshot(m, req, save)
  }

  // ---- Replication, leader side ----

  datatype Outgoing = Idle | SendAppend(append: AppendRequest) | SendSnapshot(install: SnapshotRequest)

  // _replicate_to_follower, the region that builds a request
  function NextRequest(n: NodeView, f: NodeId): Option<Outgoing>
    requires n.Sound() && f in n.Followers()
  {
    if n.state.role != Leader || n.replication == None then Some(Idle)
    else if n.replication.value.nextIndex[f] <= n.log.baseIndex then
      if n.snapshot.index != n.log.baseIndex || n.snapshot.term != n.log.baseTerm then None
      else Some(SendSnapshot(SnapshotRequest(
        n.state.currentTerm, n.state.nodeId, n.snapshot.index, n.snapshot.term, n.snapshot.state)))
    else
      match RequestFor(n.replication.value, f, n.state, n.log)
      case None => None
      case Some(req) => Some(SendAppend(req))
  }

  // Whether the retry loop goes on, or returns a result.
  datatype Progress = Retry | Return(result: bool)

  predicate StillLeading(n: NodeView, term: int) {
    n.state.role == Leader && n.state.currentTerm == term && n.replication.Some?
  }

  function StepDown(n: NodeView, term: int): (r: Effect<Progress>)
    ensures n.Sound() ==> Keeps(n, r.node)
    ensures |r.writes| <= 1
    ensures SavesOnly(r.writes, r.node.state) && r.node.state.commitIndex == n.state.commitIndex
  {
    var s := n.state.BecomeFollower(term, None);
    Effect(n.(state := s, replication := None), [SaveStateOf(s)], Return(false))
  }

  // _replicate_to_follower, the region that handles an AppendEntries response
  function ReceiveAppendReply(n: NodeView, f: NodeId, req: AppendRequest,
                              reply: ReplicationReply): (r: Effect<Progress>)
    requires n.Sound() && f in n.Followers()
    ensures Keeps(n, r.node)
    ensures |r.writes| <= 1
    ensures SavesOnly(r.writes, r.node.state) && r.node.state.commitIndex == n.state.commitIndex
  {
    if !StillLeading(n, req.term) then Effect(n, [], Return(false))
    else if reply.term > n.state.currentTerm then StepDown(n, reply.term)
    else if reply.success then
      var r := n.replication.value.RecordSuccess(f, req);
      Effect(n.(replication := Some(r)), [],
        if r.nextIndex[f] <= n.log.LastIndex() || req.leaderCommit < n.state.commitIndex then Retry else Return(true))
    else
      Effect(n.(replication := Some(n.replication.value.RecordFailure(f))), [], Retry)
  }

  // the same for an InstallSnapshot response
  function ReceiveSnapshotReply(n: NodeView, f: NodeId, req: SnapshotRequest,
                                reply: ReplicationReply): (r: Effect<Progress>)
    requires n.Sound() && f in n.Followers()
    ensures Keeps(n, r.node)
    ensures |r.writes| <= 1
    ensures SavesOnly(r.writes, r.node.state) && r.node.state.commitIndex == n.state.commitIndex
  {
    if !StillLeading(n, req.term) then Effect(n, [], Return(false))
    else if reply.term > n.state.currentTerm then StepDown(n, reply.term)
    else if !reply.success then Effect(n, [], Return(false))
    else
      var r := n.replication.value.RecordMatch(f, req.lastIncludedIndex);
      Effect(n.(replication := Some(r)), [], if r.nextIndex[f] <= n.log.LastIndex() then Retry else Return(true))
  }

  // replicate_log, last region, with the quorum index of the moment
  function AdvanceAndApply(n: NodeView, quorumIndex: int): (r: Option<Effect<bool>>)
    requires n.Sound()
    ensures r.Some? ==> Keeps(n, r.value.node)
    ensures r.Some? ==> |r.value.writes| <= 1
    ensures r.Some? ==>
      SavesOnly(r.value.writes, r.value.node.state) && n.state.commitIndex <= r.value.node.state.commitIndex
  {
    if n.state.role != Leader || n.replication == None then Some(Effect(n, [], false))
    else
      var s := AdvanceCommit(n.state, n.log, quorumIndex);
      if s.commitIndex == n.state.commitIndex then Some(Effect(n, [], true))
      else
        match ApplyCommitted(s, n.log, n.store)
        case None => None
        case Some(a) => Some(Effect(n.(state := a.state, store := a.store), [SaveStateOf(s)], true))
  }

  // _confirm_read_quorum, last region, and linearizable_get: apply what is committed, then read
  function ApplyForRead(n: NodeView): (r: Option<Effect<bool>>)
    requires n.Sound()
    ensures r.Some? ==> Keeps(n, r.value.node)
    ensures r.Some? ==> |r.value.writes| <= 1
    ensures r.Some? ==>
      SavesOnly(r.value.writes, r.value.node.state) && r.value.node.state.commitIndex == n.state.commitIndex
  {
    match ApplyCommitted(n.state, n.log, n.store)
    case None => None
    case Some(a) => Some(Effect(n.(state := a.state, store := a.store), [], true))
  }

  // ---- Clients, compaction, transfer ----

  function AppendAll(log: LogView, term: int, commands: seq<Command>): (l: LogView)
    requires log.WellFormed()
    ensures l.WellFormed() && l.baseIndex == log.baseIndex && l.baseTerm == log.baseTerm
    ensures |l.entries| == |log.entries| + |commands| && log.entries <= l.entries
  {
    if commands == [] then log
    else AppendAll(log, term, commands[..|commands| - 1]).Append(term, commands[|commands| - 1])
  }

  datatype Submission = NotLeader | Unsupported | Accepted(effect: Effect<seq<LogEntry>>)

  // submit_commands, first region
  function Submit(n: NodeView, commands: seq<Command>): (r: Submission)
    requires n.Sound()
    ensures r.Accepted? ==> Keeps(n, r.effect.node)
    ensures r.Accepted? ==>
      SavesOnly(r.effect.writes, r.effect.node.state) && r.effect.node.state == n.state
      && |r.effect.reply| == |commands|
  {
    if commands == [] then Accepted(Effect(n, [], []))
    else if n.state.role != Leader then NotLeader
    else if n.state.currentTerm < 0 || exists c :: c in commands && !Applicable(c) then Unsupported
    else
      var l := AppendAll(n.log, n.state.currentTerm, commands);
      var added := l.entries[|n.log.entries|..];
      Accepted(Effect(InitReplication(n.(log := l)), WriteRecords(Appends(added)), added))
  }

  // create_snapshot
  function CreateSnapshot(n: NodeView): (r: Option<Effect<bool>>)
    requires n.Sound()
    ensures r.Some? ==> Keeps(n, r.value.node)
    ensures r.Some? ==> SavesOnly(r.value.writes, r.value.node.state) && r.value.node.state == n.state
  {
    var index := if n.state.commitIndex <= n.state.lastApplied then n.state.commitIndex else n.state.lastApplied;
    if index <= n.log.baseIndex then Some(Effect(n, [], false))
    else
      match n.log.TermAt(index)
      case None => None
      case Some(term) =>
        if term < 0 then None
        else
          var snapshot := Snapshot(index, term, n.store);
          match n.log.CompactThrough(index)
          case None => None
          case Some(l) =>
            Some(Effect(n.(log := l, snapshot := snapshot),
                        [SaveSnapshot(snapshot), SaveLog(l), SaveStateOf(n.state)], true))
  }

  // handle_timeout_now. The replication object is not cleared here.
  function ReceiveTimeoutNow(n: NodeView, req: TimeoutNowRequest): (r: Effect<TimeoutNowReply>)
    ensures n.Sound() ==> Keeps(n, r.node)
    ensures |r.writes| <= 1
    ensures SavesOnly(r.writes, r.node.state) && r.node.state.commitIndex == n.state.commitIndex
  {
    if req.term < n.state.currentTerm then Effect(n, [], TimeoutNowReply(n.state.currentTerm, false))
    else
      var s := if req.term > n.state.currentTerm then n.state.BecomeFollower(req.term, Some(req.leader)) else n.state;
      Effect(n.(state := s), if s.currentTerm != n.state.currentTerm then [SaveStateOf(s)] else [],
        TimeoutNowReply(s.currentTerm, s.role == Follower && s.leaderId == Some(req.leader)))
  }

  // transfer_leadership, last region
  function ReceiveTimeoutReply(n: NodeView, transferTerm: int, reply: TimeoutNowReply): (r: Effect<bool>)
    ensures n.Sound() ==> Keeps(n, r.node)
    ensures |r.writes| <= 1
    ensures SavesOnly(r.writes, r.node.state) && r.node.state.commitIndex == n.state.commitIndex
  {
    if n.state.role != Leader || n.state.currentTerm != transferTerm then Effect(n, [], false)
    else if reply.term > n.state.currentTerm then
      var s := n.state.BecomeFollower(reply.term, None);
      Effect(n.(state := s, replication := None), [SaveStateOf(s)], false)
    else if !reply.accepted then Effect(n, [], false)
    else Effect(n.(state := n.state.BecomeFollower(transferTerm, None), replication := None), [], true)
  }

  // ---- Recovery ----

  predicate ValidSnapshot(s: Snapshot) {
    0 <= s.index && 0 <= s.term && (s.index == 0 ==> s.term == 0)
  }

  // The boundary is repaired where the snapshot was written and the compacted log was not.
  function RecoveredLog(l: LogView, s: Snapshot): Option<LogView>
    requires l.WellFormed()
  {
    if s.index > l.baseIndex then l.InstallBoundary(s.index, s.term) else Some(l)
  }

  // RaftNode.__init__ on existing files
  function Recover(id: NodeId, members: set<NodeId>, d: Disk): (r: Option<Effect<bool>>)
    requires id in members
    ensures r.Some? ==> r.value.node.Sound() && r.value.node.state.nodeId == id && r.value.node.members == members
  {
    match Replay(d.journal)
    case None => None
    case Some(l) =>
      var snap := d.snapshot;
      if !ValidSnapshot(snap) || snap.index < l.baseIndex
         || (snap.index == l.baseIndex && snap.term != l.baseTerm) then None
      else
        match RecoveredLog(l, snap)
        case None => None
        case Some(log) =>
          var commit := Max(d.commitIndex, snap.index);
          if commit > log.LastIndex() then None
          else
            match ApplyCommitted(StateView(id, commit, d.term, d.votedFor, None, Follower, snap.index), log, snap.state)
            case None => None
            case Some(a) =>
              Some(Effect(
                NodeView(members, a.state, log, snap, a.store, ElectionView({}, false), None),
                (if snap.index > l.baseIndex then [SaveLog(log)] else [])
                + (if d.commitIndex < snap.index then [SaveState(d.term, d.votedFor, commit)] else []),
                true))
  }

  // ---- Overtaken leaders and candidates ----

  // From n the node has become m, a follower of the later term without a vote in it, keeping
  // its log, store and commit index, and has written that down.
  predicate Deposed(n: NodeView, m: NodeView, writes: seq<Write>, term: int) {
    && m.state.currentTerm == term && m.state.role == Follower && m.state.votedFor == None && m.state.leaderId == None
    && m.log == n.log && m.snapshot == n.snapshot && m.store == n.store && m.replication == None
    && m.state.commitIndex == n.state.commitIndex && m.state.lastApplied == n.state.lastApplied
    && writes == [SaveState(term, None, n.state.commitIndex)]
  }

  // A leader overtaken by a later term is deposed by any peer it still reaches, by whichever
  // message: the peer turns it away and changes nothing, and the reply tells the leader.
  lemma StaleLeaderStepsDown(leader: NodeView, n: NodeView, append: AppendRequest, install: SnapshotRequest,
                             timeout: TimeoutNowRequest)
    requires leader.Sound() && n.Sound() && n.state.nodeId in leader.Followers() && StillLeading(leader, append.term)
    requires append.term == install.term == timeout.term < n.state.currentTerm
    ensures var r := ReceiveAppend(n, append);
      r.Some? && r.value.node == n.(replication := UnlessLeader(n.state, n.replication))
      && r.value.writes == [] && !r.value.reply.success
      && var e := ReceiveAppendReply(leader, n.state.nodeId, append, r.value.reply);
         Deposed(leader, e.node, e.writes, n.state.currentTerm) && e.reply == Return(false)
    ensures var r := ReceiveSnapshot(n, install);
      r.Some? && r.value.node == n && r.value.writes == [] && !r.value.reply.success
      && var e := ReceiveSnapshotReply(leader, n.state.nodeId, install, r.value.reply);
         Deposed(leader, e.node, e.writes, n.state.currentTerm) && e.reply == Return(false)
    ensures var r := ReceiveTimeoutNow(n, timeout);
      r.node == n && r.writes == [] && !r.reply.accepted
      && var e := ReceiveTimeoutReply(leader, timeout.term, r.reply);
         Deposed(leader, e.node, e.writes, n.state.currentTerm) && !e.reply
  {
  }

  // So is a candidate by any voter.
  lemma StaleCandidateStepsDown(candidate: NodeView, n: NodeView)
    requires candidate.state.role == Candidate && candidate.election.active
    requires candidate.state.currentTerm < n.state.currentTerm
    ensures var req := VoteRequestOf(candidate);
      var r := ReceiveVoteRequest(n, req);
      && !r.reply.granted && r.node.state == n.state && r.node.log == n.log
      && var e := ReceiveVoteReply(candidate, n.state.nodeId, req, r.reply);
         Deposed(candidate, e.node, e.writes, n.state.currentTerm) && !e.reply
  {
  }
}

// A fixed group of nodes, their disks, and a network that never forgets a message: what was
// sent may be delivered late, twice, in any order or never. One event is one region the
// program runs under a node's lock, or a crash after any number of that region's durable
// writes, followed by recovery.

module Clusters {
  import opened Prelude
  import opened Types
  import opened RaftLogs
  import opened RaftStates
  import opened Elections
  import opened Leaders
  import opened Journals
  import opened Nodes

  // A response travels with the request it answers, as in the transport. Replication RPCs
  // are numbered: two heartbeats with equal contents are still two RPCs.
  datatype Message =
    | VoteMsg(to: NodeId, vote: VoteRequest)
    | VoteReplyMsg(from: NodeId, vote: VoteRequest, ballot: VoteReply)
    | AppendMsg(rpc: nat, to: NodeId, append: AppendRequest)
    | AppendReplyMsg(rpc: nat, from: NodeId, append: AppendRequest, reply: ReplicationReply)
    | SnapshotMsg(rpc: nat, to: NodeId, install: SnapshotRequest)
    | SnapshotReplyMsg(rpc: nat, from: NodeId, install: SnapshotRequest, reply: ReplicationReply)
    | TimeoutNowMsg(to: NodeId, timeout: TimeoutNowRequest)
    | TimeoutReplyMsg(from: NodeId, timeout: TimeoutNowRequest, answer: TimeoutNowReply)

  datatype Cluster = Cluster(
    members: set<NodeId>, nodes: map<NodeId, NodeView>, disks: map<NodeId, Disk>,
    network: set<Message>, nextRpc: nat)
  {
    predicate Sound() {
      && nodes.Keys == members && disks.Keys == members
      && (forall n :: n in members ==>
            nodes[n].Sound() && nodes[n].state.nodeId == n && nodes[n].members == members)
    }
  }

  // What a node does. Timers and clients act whenever they like.
  datatype Action =
    | ElectionTimeout(node: NodeId)
    | TakeVoteRequest(node: NodeId, vote: VoteRequest)
    | TakeVoteReply(node: NodeId, from: NodeId, vote: VoteRequest, ballot: VoteReply)
    | OpenRound(node: NodeId)
    | SendTo(node: NodeId, follower: NodeId)
    | TakeAppend(node: NodeId, rpc: nat, append: AppendRequest)
    | TakeAppendReply(node: NodeId, rpc: nat, from: NodeId, append: AppendRequest, reply: ReplicationReply)
    | TakeSnapshot(node: NodeId, rpc: nat, install: SnapshotRequest)
    | TakeSnapshotReply(node: NodeId, rpc: nat, from: NodeId, install: SnapshotRequest, reply: ReplicationReply)
    | CloseRound(node: NodeId, quorumIndex: int)
    | SubmitBatch(node: NodeId, commands: seq<Command>)
    | FinishRead(node: NodeId)
    | Compact(node: NodeId)
    | SendTimeoutNow(node: NodeId, follower: NodeId)
    | TakeTimeoutNow(node: NodeId, timeout: TimeoutNowRequest)
    | TakeTimeoutReply(node: NodeId, from: NodeId, timeout: TimeoutNowRequest, answer: TimeoutNowReply)

  predicate Enabled(s: Cluster, a: Action)
    requires s.Sound()
  {
    && a.node in s.members
    && var n := s.nodes[a.node];
       match a
       case TakeVoteRequest(_, vote) => VoteMsg(a.node, vote) in s.network
       case TakeVoteReply(_, from, vote, ballot) =>
         VoteReplyMsg(from, vote, ballot) in s.network && vote.candidate == a.node
       case SendTo(_, f) => f in n.Followers()
       case TakeAppend(_, rpc, append) => AppendMsg(rpc, a.node, append) in s.network
       case TakeAppendReply(_, rpc, from, append, reply) =>
         AppendReplyMsg(rpc, from, append, reply) in s.network && append.leader == a.node && from in n.Followers()
       case TakeSnapshot(_, rpc, install) => SnapshotMsg(rpc, a.node, install) in s.network
       case TakeSnapshotReply(_, rpc, from, install, reply) =>
         SnapshotReplyMsg(rpc, from, install, reply) in s.network && install.leader == a.node && from in n.Followers()
       case CloseRound(_, q) =>
         n.replication.Some? ==>
           IsQuorumIndex(a.node, n.log.LastIndex(), n.replication.value.matchIndex, |s.members|, q)
       case SendTimeoutNow(_, f) =>
         n.state.role == Leader && n.replication.Some? && f in n.Followers()
         && n.replication.value.matchIndex[f] >= n.log.LastIndex()
       case TakeTimeoutNow(_, timeout) => TimeoutNowMsg(a.node, timeout) in s.network
       case TakeTimeoutReply(_, from, timeout, answer) =>
         TimeoutReplyMsg(from, timeout, answer) in s.network && timeout.leader == a.node
       case _ => true
  }

  // The node after the action, the durable writes on the way, and the messages sent at the end.
  datatype Reaction = Reaction(node: NodeView, writes: seq<Write>, sent: set<Message>)

  function Quietly<R>(e: Effect<R>): Reaction { Reaction(e.node, e.writes, {}) }

  // None where the program raises an exception.
  function React(s: Cluster, a: Action): (r: Option<Reaction>)
    requires s.Sound() && Enabled(s, a)
    ensures r.Some? ==> Keeps(s.nodes[a.node], r.value.node)
  {
    var n := s.nodes[a.node];
    match a
    case ElectionTimeout(_) =>
      var e := BeginElection(n);
      Some(Reaction(e.node, e.writes,
        if e.reply then set p | p in n.Followers() :: VoteMsg(p, VoteRequestOf(e.node)) else {}))
    case TakeVoteRequest(_, vote) =>
      var e := ReceiveVoteRequest(n, vote);
      Some(Reaction(e.node, e.writes, {VoteReplyMsg(a.node, vote, e.reply)}))
    case TakeVoteReply(_, from, vote, ballot) => Some(Quietly(ReceiveVoteReply(n, from, vote, ballot)))
    case OpenRound(_) => Some(Reaction(if n.state.role == Leader then InitReplication(n) else n, [], {}))
    case SendTo(_, f) =>
      (match NextRequest(n, f)
       case None => None
       case Some(Idle) => Some(Reaction(n, [], {}))
       case Some(SendAppend(req)) => Some(Reaction(n, [], {AppendMsg(s.nextRpc, f, req)}))
       case Some(SendSnapshot(req)) => Some(Reaction(n, [], {SnapshotMsg(s.nextRpc, f, req)})))
    case TakeAppend(_, rpc, append) =>
      (match ReceiveAppend(n, append)
       case None => None
       case Some(e) => Some(Reaction(e.node, e.writes, {AppendReplyMsg(rpc, a.node, append, e.reply)})))
    case TakeAppendReply(_, _, from, append, reply) => Some(Quietly(ReceiveAppendReply(n, from, append, reply)))
    case TakeSnapshot(_, rpc, install) =>
      (match ReceiveSnapshot(n, install)
       case None => None
       case Some(e) => Some(Reaction(e.node, e.writes, {SnapshotReplyMsg(rpc, a.node, install, e.reply)})))
    case TakeSnapshotReply(_, _, from, install, reply) => Some(Quietly(ReceiveSnapshotReply(n, from, install, reply)))
    case CloseRound(_, q) =>
      (match AdvanceAndApply(n, q) case None => None case Some(e) => Some(Quietly(e)))
    case SubmitBatch(_, commands) =>
      var r := Submit(n, commands);
      Some(if r.Accepted? then Quietly(r.effect) else Reaction(n, [], {}))
    case FinishRead(_) =>
      (match ApplyForRead(n) case None => None case Some(e) => Some(Quietly(e)))
    case Compact(_) =>
      (match CreateSnapshot(n) case None => None case Some(e) => Some(Quietly(e)))
    case SendTimeoutNow(_, f) =>
      Some(Reaction(n, [], {TimeoutNowMsg(f, TimeoutNowRequest(n.state.currentTerm, a.node))}))
    case TakeTimeoutNow(_, timeout) =>
      var e := ReceiveTimeoutNow(n, timeout);
      Some(Reaction(e.node, e.writes, {TimeoutReplyMsg(a.node, timeout, e.reply)}))
    case TakeTimeoutReply(_, _, timeout, answer) => Some(Quietly(ReceiveTimeoutReply(n, timeout.term, answer)))
  }

  datatype Event =
    | Complete(action: Action)
    // The node performs the first `writes` durable writes of the action, crashes, and restarts.
    | CrashDuring(action: Action, writes: nat)
    | Restart(node: NodeId)

  // The node comes back from a disk.
  function Reboot(s: Cluster, n: NodeId, d: Disk): (r: Option<Cluster>)
    requires s.Sound() && n in s.members
    ensures r.Some? ==> r.value.Sound()
  {
    match Recover(n, s.members, d)
    case None => None
    case Some(e) => Some(s.(nodes := s.nodes[n := e.node], disks := s.disks[n := PerformAll(d, e.writes)]))
  }

  predicate Possible(s: Cluster, e: Event)
    requires s.Sound()
  {
    match e
    case Complete(a) => Enabled(s, a)
    case CrashDuring(a, k) => Enabled(s, a) && React(s, a).Some? && k <= |React(s, a).value.writes|
    case Restart(n) => n in s.members
  }

  // The cluster once a node has acted.
  function Acted(s: Cluster, id: NodeId, r: Reaction): (s': Cluster)
    requires s.Sound() && id in s.members && Keeps(s.nodes[id], r.node)
    ensures s'.Sound()
  {
    s.(nodes := s.nodes[id := r.node], disks := s.disks[id := PerformAll(s.disks[id], r.writes)],
       network := s.network + r.sent, nextRpc := s.nextRpc + 1)
  }

  function Step(s: Cluster, e: Event): (r: Option<Cluster>)
    requires s.Sound() && Possible(s, e)
    ensures r.Some? ==> r.value.Sound()
  {
    match e
    case Complete(a) =>
      (match React(s, a)
       case None => None
       case Some(r) => Some(Acted(s, a.node, r)))
    case CrashDuring(a, k) =>
      Reboot(s, a.node, PerformAll(s.disks[a.node], React(s, a).value.writes[..k]))
    case Restart(n) => Reboot(s, n, s.disks[n])
  }

  function FreshNode(n: NodeId, members: set<NodeId>): NodeView {
    NodeView(members, StateView(n, 0, 0, None, None, Follower, 0), EMPTY_LOG, Snapshot(0, 0, map[]), map[],
      ElectionView({}, false), None)
  }

  function Initial(members: set<NodeId>): (s: Cluster)
    ensures s.Sound()
  {
    Cluster(members, map n | n in members :: FreshNode(n, members), map n | n in members :: BLANK_DISK, {}, 0)
  }

  // Event i is possible in state i and leads to state i + 1.
  predicate Leads(states: seq<Cluster>, events: seq<Event>, i: int) {
    && 0 <= i < |events| && i + 1 < |states| && states[i].Sound()
    && Possible(states[i], events[i]) && Step(states[i], events[i]) == Some(states[i + 1])
  }

  // A run: every state follows from the one before by a possible event.
  ghost predicate Run(states: seq<Cluster>, events: seq<Event>) {
    && |states| == |events| + 1
    && (forall i :: 0 <= i < |states| ==> states[i].Sound())
    && (forall i :: 0 <= i < |events| ==> Leads(states, events, i))
  }

  ghost predicate RunFromStart(members: set<NodeId>, states: seq<Cluster>, events: seq<Event>) {
    Run(states, events) && states[0] == Initial(members)
  }

  lemma RunPrefix(members: set<NodeId>, states: seq<Cluster>, events: seq<Event>, n: nat)
    requires RunFromStart(members, states, events) && n <= |events|
    ensures RunFromStart(members, states[..n + 1], events[..n])
  {
    hide Possible, Step;
    var ss, es := states[..n + 1], events[..n];
    forall i | 0 <= i < n ensures Leads(ss, es, i) {
      assert Leads(states, events, i);
    }
  }
}

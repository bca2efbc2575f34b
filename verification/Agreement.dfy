// What ties a cluster to its history: what each node, each disk and each message says is
// true of the history, and stays true when somebody else moves.

module Agreement {
  import opened Prelude
  import opened Types
  import opened History
  import opened HistorySteps
  import opened RaftLogs
  import opened StateMachines
  import opened Journals
  import opened Nodes
  import opened Clusters

  predicate VoteKnown(h: History, id: NodeId, vote: Option<NodeId>) {
    var s := Slot(id, h.Term(id));
    match vote
    case None => s !in h.votes
    case Some(c) => s in h.votes && h.votes[s] == c
  }

  // Whoever the node takes for the leader of its term was elected in it.
  predicate LeaderKnown(h: History, t: int, leader: Option<NodeId>) {
    leader.Some? ==> t in h.reigns && h.reigns[t].leader == leader.value
  }

  // The committed prefix was committed by the leader of term t, and t is a term this node has
  // reached, unless a crash in the middle of installing a snapshot put the boundary there.
  predicate CertifiedBy(h: History, id: NodeId, commit: int, base: int, role: Role, t: int) {
    var slot := Slot(id, h.Term(id));
    && 0 <= base <= commit <= |h.Log(id)|
    && h.CommittedIn(h.Log(id)[..commit], t)
    && (t <= h.Term(id) || commit == base)
    && (role == Leader ==> t <= h.Term(id))
    && (role == Candidate ==> commit == 0 || (slot in h.candidacies && t in h.candidacies[slot].seen))
  }

  ghost predicate Certified(h: History, id: NodeId, commit: int, base: int, role: Role) {
    exists t :: CertifiedBy(h, id, commit, base, role, t)
  }

  // A snapshot holds the fold of the full log up to its boundary.
  predicate SnapshotOf(s: Snapshot, full: seq<LogEntry>) {
    0 <= s.index <= |full| && s.term == TermOf(full, s.index) && s.state == Fold(map[], full[..s.index])
  }

  // Log, snapshot and store are all images of one full log.
  predicate DataFaithful(full: seq<LogEntry>, log: LogView, snapshot: Snapshot, store: Store, commit: int) {
    && Represents(log, full)
    && SnapshotOf(snapshot, full) && snapshot.index == log.baseIndex
    && 0 <= commit <= |full| && store == Fold(map[], full[..commit])
  }

  ghost predicate CandidateFaithful(h: History, n: NodeView, id: NodeId) {
    var t := n.state.currentTerm;
    n.state.role == Candidate ==>
      && 0 < t
      && Slot(id, t) in h.candidacies && h.candidacies[Slot(id, t)].log == h.Log(id)
      && n.election.votes <= h.members
      && (forall v :: v in n.election.votes ==> Voted(h.votes, v, t, id))
      && !(t in h.reigns && h.reigns[t].leader == id)
  }

  ghost predicate LeaderFaithful(h: History, n: NodeView, id: NodeId) {
    var t := n.state.currentTerm;
    n.state.role == Leader ==>
      && t in h.reigns && h.reigns[t].leader == id && h.LeaderLog(t) == h.Log(id)
      && h.Acked(id, t, |h.Log(id)|)
      && (t in h.commits ==> h.commits[t] <= n.state.commitIndex)
  }

  // match_index is truthful about entries of the leader's own term, whichever term it was
  // recorded in (section 5.3).
  predicate MatchFaithful(h: History, n: NodeView, f: NodeId)
    requires n.replication.Some? && f in n.replication.value.matchIndex && f in n.replication.value.nextIndex
  {
    var m := n.replication.value.matchIndex[f];
    && 0 <= m <= |h.Log(n.state.nodeId)|
    && 1 <= n.replication.value.nextIndex[f] <= |h.Log(n.state.nodeId)| + 1
    && (n.state.role == Leader && TermOf(h.Log(n.state.nodeId), m) == n.state.currentTerm && m > 0 ==>
          h.Acked(f, n.state.currentTerm, m))
  }

  ghost predicate ReplicationFaithful(h: History, n: NodeView) {
    n.replication.Some? ==>
      && n.replication.value.Covers(n.Followers())
      && (forall f :: f in n.Followers() ==> MatchFaithful(h, n, f))
  }

  ghost predicate ImageFaithful(h: History, n: NodeView, id: NodeId) {
    && id in h.members && n.state.nodeId == id && n.members == h.members
    && n.state.currentTerm == h.Term(id)
    && VoteKnown(h, id, n.state.votedFor) && LeaderKnown(h, n.state.currentTerm, n.state.leaderId)
    && DataFaithful(h.Log(id), n.log, n.snapshot, n.store, n.state.commitIndex)
    && n.state.lastApplied == n.state.commitIndex
    && Certified(h, id, n.state.commitIndex, n.log.baseIndex, n.state.role)
  }

  predicate DiskMatches(n: NodeView, d: Disk) {
    && d.term == n.state.currentTerm && d.votedFor == n.state.votedFor && d.commitIndex == n.state.commitIndex
    && d.snapshot == n.snapshot && Replay(d.journal) == Some(n.log)
  }

  // Everything about a node except its disk.
  ghost predicate NodeFaithful(h: History, n: NodeView, id: NodeId) {
    ImageFaithful(h, n, id) && CandidateFaithful(h, n, id) && LeaderFaithful(h, n, id) && ReplicationFaithful(h, n)
  }

  ghost predicate Faithful(h: History, n: NodeView, d: Disk, id: NodeId) {
    NodeFaithful(h, n, id) && DiskMatches(n, d)
  }

  // A disk as a crash may leave it: the snapshot may be ahead of the journal's boundary and of
  // the commit index.
  ghost predicate DiskFaithful(h: History, d: Disk, id: NodeId) {
    && id in h.members && d.term == h.Term(id) && VoteKnown(h, id, d.votedFor)
    && SnapshotOf(d.snapshot, h.Log(id))
    && Replay(d.journal).Some?
    && JournalFaithful(Replay(d.journal).value, d.snapshot, h.Log(id))
    && Certified(h, id, Max(d.commitIndex, d.snapshot.index), d.snapshot.index, Follower)
  }

  predicate JournalFaithful(l: LogView, s: Snapshot, full: seq<LogEntry>) {
    && l.WellFormed() && l.baseIndex <= s.index
    && (l.baseIndex == s.index ==> l.baseTerm == s.term)
    && l.InstallBoundary(s.index, s.term).Some?
    && Represents(l.InstallBoundary(s.index, s.term).value, full)
  }

  // ---- Messages ----

  predicate AppendTruthful(h: History, r: AppendRequest) {
    var l := h.LeaderLog(r.term);
    && r.term in h.reigns && r.leader == h.reigns[r.term].leader
    && 0 <= r.prevLogIndex && r.prevLogIndex + |r.entries| <= |l|
    && r.prevLogTerm == TermOf(l, r.prevLogIndex)
    && r.entries == l[r.prevLogIndex..r.prevLogIndex + |r.entries|]
    // Every request carries the leader's whole suffix, so its commit index lies inside.
    && 0 <= r.leaderCommit <= r.prevLogIndex + |r.entries|
  }

  ghost predicate CommittedBy(h: History, t: int, i: int) {
    0 <= i <= |h.LeaderLog(t)| && exists u :: u <= t && h.CommittedIn(h.LeaderLog(t)[..i], u)
  }

  predicate SnapshotTruthful(h: History, r: SnapshotRequest) {
    var l := h.LeaderLog(r.term);
    && r.term in h.reigns && r.leader == h.reigns[r.term].leader
    && 0 < r.lastIncludedIndex <= |l|
    && r.lastIncludedTerm == TermOf(l, r.lastIncludedIndex)
    && r.state == Fold(map[], l[..r.lastIncludedIndex])
  }

  predicate VoteTruthful(h: History, r: VoteRequest) {
    var s := Slot(r.candidate, r.term);
    s in h.candidacies && r.lastLogIndex == |h.CandidateLog(s)| && r.lastLogTerm == LastTerm(h.CandidateLog(s))
  }

  ghost predicate Truthful(h: History, m: Message) {
    match m
    case VoteMsg(_, vote) => VoteTruthful(h, vote)
    case VoteReplyMsg(from, vote, ballot) =>
      from in h.members
        && (ballot.granted ==> ballot.term == vote.term && Voted(h.votes, from, vote.term, vote.candidate))
    case AppendMsg(_, _, append) => AppendTruthful(h, append) && CommittedBy(h, append.term, append.leaderCommit)
    case AppendReplyMsg(_, from, append, reply) =>
      AppendTruthful(h, append)
      && (reply.success ==> h.Acked(from, append.term, append.prevLogIndex + |append.entries|))
    case SnapshotMsg(_, _, install) =>
      SnapshotTruthful(h, install) && CommittedBy(h, install.term, install.lastIncludedIndex)
    case SnapshotReplyMsg(_, from, install, reply) =>
      SnapshotTruthful(h, install)
      && (reply.success ==> h.Acked(from, install.term, install.lastIncludedIndex))
    case TimeoutNowMsg(_, timeout) => LeaderKnown(h, timeout.term, Some(timeout.leader))
    case TimeoutReplyMsg(_, _, _) => true
  }

  // ---- The invariant ----

  ghost predicate Invariant(h: History, s: Cluster) {
    && Lawful(h) && s.Sound() && h.members == s.members
    && (forall n :: n in s.members ==> Faithful(h, s.nodes[n], s.disks[n], n))
    && (forall m :: m in s.network ==> Truthful(h, m))
  }

  // ---- Facts that survive other nodes' steps ----

  lemma CertifiedStays(h: History, k: History, id: NodeId, commit: int, base: int, role: Role)
    requires Grows(h, k) && k.Log(id) == h.Log(id) && k.Term(id) == h.Term(id)
    requires Certified(h, id, commit, base, role)
    ensures Certified(k, id, commit, base, role)
  {
    var t :| CertifiedBy(h, id, commit, base, role, t);
    assert CertifiedBy(k, id, commit, base, role, t);
  }

  lemma ImageStays(h: History, k: History, actor: NodeId, n: NodeView, id: NodeId)
    requires Grows(h, k) && Local(h, k, actor) && id != actor && ImageFaithful(h, n, id)
    ensures ImageFaithful(k, n, id)
  {
    CertifiedStays(h, k, id, n.state.commitIndex, n.log.baseIndex, n.state.role);
  }

  lemma CandidateStays(h: History, k: History, actor: NodeId, n: NodeView, id: NodeId)
    requires Grows(h, k) && Local(h, k, actor) && id != actor && id in h.members && CandidateFaithful(h, n, id)
    ensures CandidateFaithful(k, n, id)
  {
    if n.state.role == Candidate {
      forall v | v in n.election.votes ensures Voted(k.votes, v, n.state.currentTerm, id) {
        assert Voted(h.votes, v, n.state.currentTerm, id);
      }
    }
  }

  lemma LeaderStays(h: History, k: History, actor: NodeId, n: NodeView, id: NodeId)
    requires Grows(h, k) && Local(h, k, actor) && id != actor && id in h.members && LeaderFaithful(h, n, id)
    ensures LeaderFaithful(k, n, id)
  {
  }

  lemma ReplicationStays(h: History, k: History, n: NodeView)
    requires Grows(h, k) && k.Log(n.state.nodeId) == h.Log(n.state.nodeId) && ReplicationFaithful(h, n)
    ensures ReplicationFaithful(k, n)
  {
    if n.replication.Some? {
      forall f | f in n.Followers() ensures MatchFaithful(k, n, f) {
        assert MatchFaithful(h, n, f);
      }
    }
  }

  lemma FaithfulStays(h: History, k: History, actor: NodeId, n: NodeView, d: Disk, id: NodeId)
    requires Grows(h, k) && Local(h, k, actor) && id != actor && Faithful(h, n, d, id)
    ensures Faithful(k, n, d, id)
  {
    NodeStays(h, k, actor, n, id);
  }

  lemma NodeStays(h: History, k: History, actor: NodeId, n: NodeView, id: NodeId)
    requires Grows(h, k) && Local(h, k, actor) && id != actor && NodeFaithful(h, n, id)
    ensures NodeFaithful(k, n, id)
  {
    ImageStays(h, k, actor, n, id);
    CandidateStays(h, k, actor, n, id);
    LeaderStays(h, k, actor, n, id);
    ReplicationStays(h, k, n);
  }

  lemma CommittedByStays(h: History, k: History, t: int, i: int)
    requires Grows(h, k) && t in h.reigns && CommittedBy(h, t, i)
    ensures CommittedBy(k, t, i)
  {
    var u :| u <= t && h.CommittedIn(h.LeaderLog(t)[..i], u);
    assert k.LeaderLog(t)[..i] == h.LeaderLog(t)[..i];
    CommittedStays(h, k, h.LeaderLog(t)[..i], u);
  }

  lemma AppendStays(h: History, k: History, r: AppendRequest)
    requires Grows(h, k) && AppendTruthful(h, r)
    ensures AppendTruthful(k, r)
  {
    var e := r.prevLogIndex + |r.entries|;
    assert k.LeaderLog(r.term)[..e] == h.LeaderLog(r.term)[..e];
    assert k.LeaderLog(r.term)[r.prevLogIndex..e] == k.LeaderLog(r.term)[..e][r.prevLogIndex..];
    assert h.LeaderLog(r.term)[r.prevLogIndex..e] == h.LeaderLog(r.term)[..e][r.prevLogIndex..];
    if r.prevLogIndex > 0 {
      assert k.LeaderLog(r.term)[r.prevLogIndex - 1] == h.LeaderLog(r.term)[r.prevLogIndex - 1];
    }
  }

  lemma SnapshotStays(h: History, k: History, r: SnapshotRequest)
    requires Grows(h, k) && SnapshotTruthful(h, r)
    ensures SnapshotTruthful(k, r)
  {
    var i := r.lastIncludedIndex;
    assert k.LeaderLog(r.term)[..i] == h.LeaderLog(r.term)[..i];
    assert k.LeaderLog(r.term)[i - 1] == h.LeaderLog(r.term)[i - 1];
  }

  lemma TruthStays(h: History, k: History, m: Message)
    requires Grows(h, k) && Truthful(h, m)
    ensures Truthful(k, m)
  {
    match m
    case VoteMsg(_, vote) =>
    case VoteReplyMsg(_, _, _) =>
    case AppendMsg(_, _, append) =>
      AppendStays(h, k, append);
      CommittedByStays(h, k, append.term, append.leaderCommit);
    case AppendReplyMsg(_, _, append, _) => AppendStays(h, k, append);
    case SnapshotMsg(_, _, install) =>
      SnapshotStays(h, k, install);
      CommittedByStays(h, k, install.term, install.lastIncludedIndex);
    case SnapshotReplyMsg(_, _, install, _) => SnapshotStays(h, k, install);
    case TimeoutNowMsg(_, _) =>
    case TimeoutReplyMsg(_, _, _) =>
  }
}

// What each region of a node answers, and exactly when: votes, replication, client batches,
// compaction and leadership transfer. Said of a node in a lawful history, and so of the
// uncompacted logs, not of indexes into what is retained.

module Answers {
  import opened Prelude
  import opened Types
  import opened History
  import opened HistorySteps
  import opened RaftLogs
  import opened RaftStates
  import opened StateMachines
  import opened Votes
  import opened Elections
  import opened Replications
  import opened Journals
  import opened Nodes
  import opened Agreement
  import opened ElectionProof
  import opened AppendProof
  import opened SnapshotProof
  import opened LeaderProof
  import opened ClientProof

  // Between n and m only the state, the election and the replication object may differ.
  predicate SameData(n: NodeView, m: NodeView) {
    && m.members == n.members && m.state.nodeId == n.state.nodeId
    && m.log == n.log && m.snapshot == n.snapshot && m.store == n.store
    && m.state.commitIndex == n.state.commitIndex && m.state.lastApplied == n.state.lastApplied
  }

  // Whoever hears of term t: a later one makes it a follower without a vote or a leader.
  predicate Hears(n: NodeView, m: NodeView, t: int) {
    && m.state.currentTerm == Max(n.state.currentTerm, t)
    && m.state.role == (if t > n.state.currentTerm then Follower else n.state.role)
    && m.state.leaderId == (if t > n.state.currentTerm then None else n.state.leaderId)
  }

  // From n, m has come to follow the leader of term t, and keeps its vote in its own term only.
  predicate FollowsIn(n: NodeView, m: NodeView, t: int, leader: NodeId) {
    && m.state.currentTerm == t && m.state.role == Follower && m.state.leaderId == Some(leader)
    && m.state.votedFor == (if t > n.state.currentTerm then None else n.state.votedFor)
  }

  // ---- Reading and leading ----

  // Before a read everything committed is applied, however far the node had got.
  lemma ReadAnswered(n: NodeView, full: seq<LogEntry>)
    requires n.Sound() && WellNumbered(full) && Represents(n.log, full)
    requires n.log.baseIndex <= n.state.lastApplied <= n.state.commitIndex <= |full|
    requires n.store == Fold(map[], full[..n.state.lastApplied])
    ensures ApplyForRead(n)
         == Some(Effect(n.(state := n.state.(lastApplied := n.state.commitIndex),
                           store := Fold(map[], full[..n.state.commitIndex])), [], true))
  {
    AppliesFold(n.state, n.log, n.store, full);
  }

  // Only a leader keeps track of its followers; it keeps what it has, and otherwise takes each to
  // lack nothing and to have confirmed nothing.
  lemma ReplicationStarted(n: NodeView)
    ensures var m := InitReplication(n);
      && m == n.(replication := m.replication)
      && (m.replication == None <==> n.state.role != Leader)
      && (n.state.role == Leader && n.replication.Some? ==> m.replication == n.replication)
      && (n.state.role == Leader && n.replication == None ==>
            && m.replication.value.Covers(n.Followers())
            && (forall f :: f in n.Followers() ==>
                  && m.replication.value.nextIndex[f] == n.log.LastIndex() + 1
                  && m.replication.value.matchIndex[f] == 0))
  {
  }

  // ---- Votes (section 5.2 and 5.4.1) ----

  // v has given its vote in term t to nobody but c.
  predicate FreeFor(h: History, v: NodeId, t: int, c: NodeId) {
    Slot(v, t) in h.votes ==> h.votes[Slot(v, t)] == c
  }

  lemma FreeForIs(h: History, n: NodeView, id: NodeId, req: VoteRequest)
    requires VotesCast(h.terms, h.votes) && ImageFaithful(h, n, id) && n.state.currentTerm <= req.term
    ensures FreeFor(h, id, req.term, req.candidate)
      <==> req.term > n.state.currentTerm || n.state.votedFor == None || n.state.votedFor == Some(req.candidate)
  {
  }

  lemma UpToDateIs(h: History, n: NodeView, id: NodeId, req: VoteRequest)
    requires Consistent(h) && ImageFaithful(h, n, id) && VoteTruthful(h, req)
    ensures IsCandidateLogUpToDate(req.lastLogIndex, req.lastLogTerm, n.log.LastIndex(), n.log.LastTerm())
       <==> UpToDate(h.CandidateLog(Slot(req.candidate, req.term)), h.Log(id))
  {
    NodeReads(h, n, id);
  }

  // A vote is granted exactly to a candidate of no earlier term, by a node that has given nobody
  // else its vote in that term, and whose whole log the candidate's is at least as up to date as.
  lemma VoteAnswered(h: History, n: NodeView, id: NodeId, req: VoteRequest)
    requires Lawful(h) && n.Sound() && NodeFaithful(h, n, id) && VoteTruthful(h, req)
    ensures ReceiveVoteRequest(n, req).reply.granted <==>
      && n.state.currentTerm <= req.term
      && FreeFor(h, id, req.term, req.candidate)
      && UpToDate(h.CandidateLog(Slot(req.candidate, req.term)), h.Log(id))
  {
    hide VotesSafe, LeadersSafe, AcksKept, CommitsBacked, UpToDate, IsCandidateLogUpToDate, VoteTruthful;
    UpToDateIs(h, n, id, req);
    if n.state.currentTerm <= req.term {
      FreeForIs(h, n, id, req);
    }
    hide Consistent, NodeFaithful, FreeFor;
  }

  // What else it does: it hears of the term, notes a vote it grants, and writes all that down.
  lemma VoteNoted(n: NodeView, req: VoteRequest)
    ensures var e := ReceiveVoteRequest(n, req);
      && SameData(n, e.node) && e.node.election == n.election && Hears(n, e.node, req.term)
      && e.reply.term == e.node.state.currentTerm
      && e.node.state.votedFor == (if e.reply.granted then Some(req.candidate)
                                   else if req.term > n.state.currentTerm then None else n.state.votedFor)
      && e.node.replication == (if e.node.state.role == Leader then n.replication else None)
      && e.writes == [SaveState(e.node.state.currentTerm, e.node.state.votedFor, n.state.commitIndex)]
  {
  }

  // The same request again gets the same answer, and changes nothing more.
  lemma VoteRepeated(n: NodeView, req: VoteRequest)
    ensures var e := ReceiveVoteRequest(n, req);
      ReceiveVoteRequest(e.node, req).node == e.node && ReceiveVoteRequest(e.node, req).reply == e.reply
  {
  }

  // ---- Standing for election ----

  // An expired timer, whatever the role: the next term, with a vote for itself. It leads at once
  // exactly where one vote is a majority, and otherwise asks for votes.
  lemma TimeoutNoted(n: NodeView)
    requires n.Sound()
    ensures var e, id := BeginElection(n), n.state.nodeId;
      && SameData(n, e.node) && e.node.election.votes == {id}
      && e.node.state.currentTerm == n.state.currentTerm + 1 && e.node.state.votedFor == Some(id)
      && e.writes == [SaveState(n.state.currentTerm + 1, Some(id), n.state.commitIndex)]
      && (if Majority({id}, n.members) then
            e.node.state.role == Leader && e.node.state.leaderId == Some(id) && e.node.replication.Some? && !e.reply
          else
            && e.node.state.role == Candidate && e.node.state.leaderId == None && e.node.election.active
            && e.node.replication == n.replication && e.reply)
  {
    BeginElectionIs(n);
    assert |{n.state.nodeId}| == 1;
  }

  // The request carries the new term and where the node's whole log ends.
  lemma TimeoutAnswered(h: History, n: NodeView, id: NodeId)
    requires Lawful(h) && n.Sound() && NodeFaithful(h, n, id)
    ensures BeginElection(n).reply <==> !Majority({id}, n.members)
    ensures VoteRequestOf(BeginElection(n).node)
         == VoteRequest(n.state.currentTerm + 1, id, |h.Log(id)|, LastTerm(h.Log(id)))
  {
    hide VotesSafe, LeadersSafe, AcksKept, CommitsBacked;
    hide CandidateFaithful, LeaderFaithful, ReplicationFaithful;
    NodeReads(h, n, id);
    hide Consistent, BeginElection;
    TimeoutNoted(n);
  }

  // A member's ballot of its own term counts for a candidate still standing: it leads exactly
  // when those who have granted it their vote are a majority. A stranger's counts for nothing.
  lemma BallotAnswered(n: NodeView, from: NodeId, req: VoteRequest, ballot: VoteReply)
    requires n.Sound() && n.election.votes <= n.members
    ensures var e := ReceiveVoteReply(n, from, req, ballot);
      var votes := n.election.votes + if ballot.granted then {from} else {};
      var counts := n.state.role == Candidate && n.state.currentTerm == req.term && n.election.active;
      && SameData(n, e.node)
      && (e.reply <==> n.state.role == Candidate && e.node.state.role == Leader)
      && (!counts || ballot.term < n.state.currentTerm ==> e.node == n && e.writes == [])
      && (counts && ballot.term == n.state.currentTerm && from !in n.members ==> e.node == n && e.writes == [])
      && (counts && ballot.term > n.state.currentTerm ==> Deposed(n, e.node, e.writes, ballot.term))
      && (counts && ballot.term == n.state.currentTerm && from in n.members ==>
            && e.writes == [] && e.node.election.votes == votes && e.node.state.currentTerm == n.state.currentTerm
            && e.node.state.votedFor == n.state.votedFor
            && (e.node.state.role == Leader <==> Majority(votes, n.members))
            && (if Majority(votes, n.members)
                then e.node.state.leaderId == Some(n.state.nodeId)
                     && e.node.replication.Some? && !e.node.election.active
                else e.node == n.(election := ElectionView(votes, true))))
  {
  }

  // ---- AppendEntries (section 5.3) ----

  lemma PrevHeldIs(h: History, n: NodeView, id: NodeId, req: AppendRequest)
    requires Consistent(h) && n.Sound() && ImageFaithful(h, n, id) && AppendTruthful(h, req)
    ensures PrevHeld(n, req) <==>
      && n.log.baseIndex <= req.prevLogIndex <= |h.Log(id)|
      && h.Log(id)[..req.prevLogIndex] == h.LeaderLog(req.term)[..req.prevLogIndex]
  {
    NodeReads(h, n, id);
    ConsistentRooted(h);
    PrevHeldAt(n, h.Log(id), req);
    hide Consistent, WellNumbered, Sourced, Rooted, PrevHeld, ImageFaithful, Represents, NodeView.Sound;
    if n.log.baseIndex <= req.prevLogIndex <= |h.Log(id)| {
      SamePrefix(h, h.Log(id), req.term, req.prevLogIndex);
    }
  }

  lemma PrevHeldAt(n: NodeView, full: seq<LogEntry>, req: AppendRequest)
    requires n.log.WellFormed() && WellNumbered(full) && Represents(n.log, full) && 0 <= req.prevLogIndex
    ensures PrevHeld(n, req)
       <==> n.log.baseIndex <= req.prevLogIndex <= |full| && TermOf(full, req.prevLogIndex) == req.prevLogTerm
  {
    RepresentedReads(n.log, full);
    RepresentedAt(n.log, full, req.prevLogIndex);
  }

  // The same term at an index is the same log up to it, and the other way round.
  lemma SamePrefix(h: History, full: seq<LogEntry>, t: int, prev: int)
    requires Rooted(h.reigns) && Sourced(h.reigns, full) && t in h.reigns
    requires 0 <= prev <= |full| && prev <= |h.LeaderLog(t)|
    ensures TermOf(full, prev) == TermOf(h.LeaderLog(t), prev) <==> full[..prev] == h.LeaderLog(t)[..prev]
  {
    if TermOf(full, prev) == TermOf(h.LeaderLog(t), prev) {
      PrevMatches(h, full, t, prev);
    } else {
      assert full[..prev][prev - 1] != h.LeaderLog(t)[..prev][prev - 1];
    }
  }

  lemma ConsistentRooted(h: History)
    requires Consistent(h)
    ensures Rooted(h.reigns)
  {
  }

  // A request is accepted exactly when it is of no earlier term and the node's whole log is the
  // leader's up to where the request begins, without anything there being compacted away.
  lemma AppendAnswered(h: History, n: NodeView, id: NodeId, req: AppendRequest)
    requires Lawful(h) && n.Sound() && NodeFaithful(h, n, id)
    requires AppendTruthful(h, req) && CommittedBy(h, req.term, req.leaderCommit)
    ensures ReceiveAppend(n, req).Some?
    ensures ReceiveAppend(n, req).value.reply.term == Max(n.state.currentTerm, req.term)
    ensures ReceiveAppend(n, req).value.reply.success <==>
      && n.state.currentTerm <= req.term
      && n.log.baseIndex <= req.prevLogIndex <= |h.Log(id)|
      && h.Log(id)[..req.prevLogIndex] == h.LeaderLog(req.term)[..req.prevLogIndex]
  {
    hide VotesSafe, LeadersSafe, AcksKept, CommitsBacked, ReceiveAppend, AppendTruthful, CommittedBy, PrevHeld;
    hide CandidateFaithful, LeaderFaithful, ReplicationFaithful, ImageFaithful;
    PrevHeldIs(h, n, id, req);
    hide Consistent;
    FollowerRule(h, n, id, req);
    if req.term < n.state.currentTerm || !PrevHeld(n, req) {
      AppendRefused(n, req);
    } else {
      AppendSuccess(n, req);
    }
  }

  lemma AppendSuccess(n: NodeView, req: AppendRequest)
    requires n.Sound() && n.state.currentTerm <= req.term && PrevHeld(n, req) && ReceiveAppend(n, req).Some?
    ensures ReceiveAppend(n, req).value.reply == ReplicationReply(req.term, true)
  {
    hide FollowerCommit, MergeEntries;
  }

  // What else it does. A stale request changes nothing but a follower's leftover replication
  // object; any other makes the node follow its leader, also where the request is refused.
  lemma AppendNoted(n: NodeView, req: AppendRequest)
    requires n.Sound() && ReceiveAppend(n, req).Some?
    ensures var e := ReceiveAppend(n, req).value;
      && e.node.election == n.election && e.node.snapshot == n.snapshot && e.node.log.baseIndex == n.log.baseIndex
      && (if req.term < n.state.currentTerm
          then e.node == n.(replication := if n.state.role == Leader then n.replication else None)
          else FollowsIn(n, e.node, req.term, req.leader) && e.node.replication == None)
      && (!e.reply.success ==> SameData(n, e.node))
  {
    hide FollowerCommit;
    if req.term < n.state.currentTerm || !PrevHeld(n, req) {
      AppendRefused(n, req);
    } else {
      AppendFollows(n, req);
    }
  }

  lemma AppendFollows(n: NodeView, req: AppendRequest)
    requires n.Sound() && n.state.currentTerm <= req.term && PrevHeld(n, req) && ReceiveAppend(n, req).Some?
    ensures var e := ReceiveAppend(n, req).value;
      && e.reply.success && e.node.election == n.election && e.node.snapshot == n.snapshot
      && e.node.log.baseIndex == n.log.baseIndex
      && FollowsIn(n, e.node, req.term, req.leader) && e.node.replication == None
  {
    var f := n.state.BecomeFollower(req.term, Some(req.leader));
    var l := MergeEntries(n.log, req.entries).value;
    hide MergeEntries;
    CommitSteps(f, l, n.store, req.leaderCommit);
  }

  // Committing and applying touch nothing else of the state.
  lemma CommitSteps(s: StateView, log: LogView, store: Store, leaderCommit: int)
    requires log.WellFormed() && FollowerCommit(s, log, store, leaderCommit).Some?
    ensures var a := FollowerCommit(s, log, store, leaderCommit).value.state;
      a == s.(commitIndex := a.commitIndex, lastApplied := a.lastApplied)
  {
    if leaderCommit > s.commitIndex {
      var commit := if leaderCommit <= log.LastIndex() then leaderCommit else log.LastIndex();
      AppliedToCommit(s.(commitIndex := commit), log, store);
    }
  }

  // ---- What a leader makes of replies ----

  // What a request covers, and how far f will be known to match once it has succeeded.
  function End(req: AppendRequest): int { req.prevLogIndex + |req.entries| }

  // True means that nothing is left to send: f has matched the whole log, and was told the
  // commit index of the moment. A reply that comes too late, or from a later term, is False.
  lemma AppendReplyAnswered(h: History, n: NodeView, f: NodeId, req: AppendRequest, reply: ReplicationReply)
    requires Numbered(h.reigns) && n.Sound() && f in n.Followers() && AppendTruthful(h, req)
    ensures var e := ReceiveAppendReply(n, f, req, reply);
      if !StillLeading(n, req.term) then e.node == n && e.writes == [] && e.reply == Return(false)
      else if reply.term > n.state.currentTerm then
        Deposed(n, e.node, e.writes, reply.term) && e.reply == Return(false)
      else
        && SameData(n, e.node) && e.node.state == n.state && e.writes == [] && e.reply != Return(false)
        && (e.reply == Return(true) <==>
              && reply.success && req.leaderCommit >= n.state.commitIndex
              && Max(n.replication.value.matchIndex[f], End(req)) >= n.log.LastIndex())
        && KnowsOf(n, e.node, f,
             if reply.success then Max(n.replication.value.matchIndex[f], End(req))
             else n.replication.value.matchIndex[f],
             if reply.success then Max(n.replication.value.matchIndex[f], End(req)) + 1
             else Max(n.replication.value.nextIndex[f] - 1, 1))
  {
    SuccessIndex(h, req);
  }

  // Of f the leader m knows these two indexes, of everybody else what n knew.
  predicate KnowsOf(n: NodeView, m: NodeView, f: NodeId, matched: int, next: int)
    requires n.replication.Some?
  {
    && m.replication.Some?
    && m.replication.value.matchIndex == n.replication.value.matchIndex[f := matched]
    && m.replication.value.nextIndex == n.replication.value.nextIndex[f := next]
  }

  lemma SnapshotReplyAnswered(n: NodeView, f: NodeId, req: SnapshotRequest, reply: ReplicationReply)
    requires n.Sound() && f in n.Followers()
    ensures var e := ReceiveSnapshotReply(n, f, req, reply);
      if !StillLeading(n, req.term) then e.node == n && e.writes == [] && e.reply == Return(false)
      else if reply.term > n.state.currentTerm then
        Deposed(n, e.node, e.writes, reply.term) && e.reply == Return(false)
      else if !reply.success then e.node == n && e.writes == [] && e.reply == Return(false)
      else
        var matched := Max(n.replication.value.matchIndex[f], req.lastIncludedIndex);
        && SameData(n, e.node) && e.node.state == n.state && e.writes == [] && e.reply != Return(false)
        && (e.reply == Return(true) <==> matched >= n.log.LastIndex())
        && KnowsOf(n, e.node, f, matched, matched + 1)
  {
  }

  // ---- InstallSnapshot (section 7) ----

  // A snapshot is accepted exactly when it is of no earlier term. The node then follows its
  // leader, and its boundary and commit index are the greater of its own and the snapshot's.
  lemma InstallAnswered(h: History, n: NodeView, id: NodeId, req: SnapshotRequest)
    requires Lawful(h) && n.Sound() && NodeFaithful(h, n, id)
    requires SnapshotTruthful(h, req) && CommittedBy(h, req.term, req.lastIncludedIndex)
    ensures ReceiveSnapshot(n, req).Some?
    ensures var e := ReceiveSnapshot(n, req).value;
      && (e.reply.success <==> n.state.currentTerm <= req.term)
      && e.reply.term == Max(n.state.currentTerm, req.term)
      && (if req.term < n.state.currentTerm then e.node == n && e.writes == []
          else
            && FollowsIn(n, e.node, req.term, req.leader) && e.node.replication == None && e.node.election == n.election
            && e.node.log.baseIndex == Max(n.log.baseIndex, req.lastIncludedIndex)
            && e.node.state.commitIndex == Max(n.state.commitIndex, req.lastIncludedIndex)
            && (req.lastIncludedIndex < n.log.baseIndex ==> SameData(n, e.node))
            && (n.log.baseIndex <= req.lastIncludedIndex ==>
                  e.node.snapshot == Snapshot(req.lastIncludedIndex, req.lastIncludedTerm, req.state)))
  {
    hide Consistent, VotesSafe, LeadersSafe, AcksKept, CommitsBacked, NodeFaithful, ReceiveSnapshot, CommittedBy;
    var k, m := SnapshotKeeps(h, n, id, req);
    BoundaryCommitted(h, n, id);
    SnapshotBounds(h, req);
    InstallNoted(n, req);
  }

  // A malformed snapshot of no earlier term is refused, though its sender is followed; one that
  // says another term than the node has committed at its index is refused too.
  lemma InstallRefused(n: NodeView, req: SnapshotRequest)
    requires n.Sound() && n.state.currentTerm <= req.term
    requires || req.lastIncludedIndex < 0 || req.lastIncludedTerm < 0
             || (n.log.baseIndex <= req.lastIncludedIndex < n.state.commitIndex
                 && n.log.TermAt(req.lastIncludedIndex) != Some(req.lastIncludedTerm))
    ensures ReceiveSnapshot(n, req).Some?
    ensures var e := ReceiveSnapshot(n, req).value;
      && e.reply == ReplicationReply(req.term, false) && SameData(n, e.node) && e.node.election == n.election
      && FollowsIn(n, e.node, req.term, req.leader) && e.node.replication == None
      && e.writes == if req.term > n.state.currentTerm then [SaveState(req.term, None, n.state.commitIndex)] else []
  {
  }

  // Files a node refuses to start from: a snapshot that is malformed, behind the log's boundary or
  // at odds with it, or a log that ends before what is committed.
  lemma RecoveryRefused(id: NodeId, members: set<NodeId>, d: Disk)
    requires id in members
    requires || Replay(d.journal) == None
             || d.snapshot.index < 0 || d.snapshot.term < 0 || (d.snapshot.index == 0 && d.snapshot.term != 0)
             || d.snapshot.index < Replay(d.journal).value.baseIndex
             || (d.snapshot.index == Replay(d.journal).value.baseIndex
                 && d.snapshot.term != Replay(d.journal).value.baseTerm)
             || (d.snapshot.index <= Replay(d.journal).value.LastIndex() < d.commitIndex)
    ensures Recover(id, members, d) == None
  {
    hide Replay;
    if Replay(d.journal).Some? && RecoveredLog(Replay(d.journal).value, d.snapshot).Some?
       && 0 <= d.snapshot.index <= Replay(d.journal).value.LastIndex() {
      RecoveredEnd(Replay(d.journal).value, d.snapshot);
    }
  }

  // Repairing the boundary adds nothing after the log's end.
  lemma RecoveredEnd(l: LogView, s: Snapshot)
    requires l.WellFormed() && 0 <= s.index && RecoveredLog(l, s).Some? && s.index <= l.LastIndex()
    ensures RecoveredLog(l, s).value.LastIndex() <= l.LastIndex()
  {
  }

  lemma SnapshotBounds(h: History, req: SnapshotRequest)
    requires Consistent(h) && SnapshotTruthful(h, req)
    ensures 0 < req.lastIncludedIndex && 0 <= req.lastIncludedTerm
  {
    assert WellNumbered(h.LeaderLog(req.term));
  }

  lemma BoundaryCommitted(h: History, n: NodeView, id: NodeId)
    requires NodeFaithful(h, n, id)
    ensures n.log.baseIndex <= n.state.commitIndex && n.state.lastApplied == n.state.commitIndex
  {
    hide CandidateFaithful, LeaderFaithful, ReplicationFaithful, DataFaithful;
    var t :| CertifiedBy(h, id, n.state.commitIndex, n.log.baseIndex, n.state.role, t);
  }

  lemma InstallNoted(n: NodeView, req: SnapshotRequest)
    requires n.Sound() && 0 < req.lastIncludedIndex && 0 <= req.lastIncludedTerm
    requires n.log.baseIndex <= n.state.commitIndex == n.state.lastApplied
    requires ReceiveSnapshot(n, req).Some?
    requires (ReceiveSnapshot(n, req).value.reply.success <==> n.state.currentTerm <= req.term)
    ensures var e := ReceiveSnapshot(n, req).value;
      && e.reply.term == Max(n.state.currentTerm, req.term)
      && (if req.term < n.state.currentTerm then e.node == n && e.writes == []
          else
            && FollowsIn(n, e.node, req.term, req.leader) && e.node.replication == None && e.node.election == n.election
            && e.node.log.baseIndex == Max(n.log.baseIndex, req.lastIncludedIndex)
            && e.node.state.commitIndex == Max(n.state.commitIndex, req.lastIncludedIndex)
            && (req.lastIncludedIndex < n.log.baseIndex ==> SameData(n, e.node))
            && (n.log.baseIndex <= req.lastIncludedIndex ==>
                  e.node.snapshot == Snapshot(req.lastIncludedIndex, req.lastIncludedTerm, req.state)))
  {
    if n.state.currentTerm <= req.term && n.log.baseIndex <= req.lastIncludedIndex {
      var s := n.state.BecomeFollower(req.term, Some(req.leader));
      var l := n.log.InstallBoundary(req.lastIncludedIndex, req.lastIncludedTerm).value;
      var commit := Max(s.commitIndex, req.lastIncludedIndex);
      AppliedToCommit(s.(commitIndex := commit, lastApplied := req.lastIncludedIndex), l, req.state);
    }
  }

  // ---- Clients ----

  // A command the group can apply: DELETE, or PUT with a value.
  predicate Supported(c: Command) { c.operation == "DELETE" || (c.operation == "PUT" && c.value.Some?) }

  // A leader accepts a batch exactly when every command is a DELETE or a PUT with a value.
  lemma SubmitAnswered(h: History, n: NodeView, id: NodeId, commands: seq<Command>)
    requires Lawful(h) && n.Sound() && NodeFaithful(h, n, id) && commands != []
    ensures Submit(n, commands) == NotLeader <==> n.state.role != Leader
    ensures Submit(n, commands) == Unsupported <==>
      n.state.role == Leader && exists c :: c in commands && !Supported(c)
    ensures Submit(n, commands).Accepted? ==>
      && Submit(n, commands).effect.node.state == n.state && SameCommitted(n, Submit(n, commands).effect.node)
      && Submit(n, commands).effect.node.replication.Some?
      && (n.replication.Some? ==> Submit(n, commands).effect.node.replication == n.replication)
  {
    hide VotesSafe, LeadersSafe, AcksKept, CommitsBacked, AppendAll;
    TermNotNegative(h, id);
    hide Consistent;
  }

  predicate SameCommitted(n: NodeView, m: NodeView) {
    && m.snapshot == n.snapshot && m.store == n.store && m.election == n.election && m.members == n.members
    && m.log.baseIndex == n.log.baseIndex && n.log.entries <= m.log.entries
  }

  // An empty batch is accepted anywhere, and is nothing.
  lemma NothingSubmitted(n: NodeView)
    requires n.Sound()
    ensures Submit(n, []) == Accepted(Effect(n, [], []))
  {
  }

  // ---- Compaction ----

  // Nothing that is not both committed and applied is compacted away.
  lemma CompactNoted(n: NodeView)
    requires n.Sound() && CreateSnapshot(n).Some?
    ensures var e := CreateSnapshot(n).value;
      var index := if n.state.commitIndex <= n.state.lastApplied then n.state.commitIndex else n.state.lastApplied;
      && (e.reply <==> n.log.baseIndex < index)
      && (e.reply ==> e.node.log.baseIndex == e.node.snapshot.index == index && e.node.snapshot.state == n.store)
  {
  }

  // A node compacts exactly when it has committed past its boundary, and then up to its commit
  // index: the snapshot is its store, and what follows is retained.
  lemma CompactAnswered(h: History, n: NodeView, id: NodeId)
    requires Lawful(h) && n.Sound() && NodeFaithful(h, n, id)
    ensures CreateSnapshot(n).Some?
    ensures var e := CreateSnapshot(n).value;
      && (e.reply <==> n.log.baseIndex < n.state.commitIndex)
      && e.node == n.(log := e.node.log, snapshot := e.node.snapshot)
      && (!e.reply ==> e.node == n && e.writes == [])
      && (e.reply ==>
            && e.node.snapshot == Snapshot(n.state.commitIndex, TermOf(h.Log(id), n.state.commitIndex), n.store)
            && e.node.log.baseIndex == n.state.commitIndex <= |h.Log(id)|
            && e.node.log.entries == h.Log(id)[n.state.commitIndex..])
  {
    hide VotesSafe, LeadersSafe, AcksKept, CommitsBacked, CandidateFaithful, LeaderFaithful, ReplicationFaithful;
    LeaderReads(h, n, id);
    if n.log.baseIndex < n.state.commitIndex {
      var log := CompactIs(n, h.Log(id));
      hide CreateSnapshot, Consistent;
      assert Represents(log, h.Log(id));
    }
  }

  // ---- Leadership transfer ----

  // TimeoutNow is accepted exactly from a later term, or from the leader a follower names.
  lemma TimeoutNowAnswered(n: NodeView, req: TimeoutNowRequest)
    ensures var e := ReceiveTimeoutNow(n, req);
      && (e.reply.accepted <==>
            || req.term > n.state.currentTerm
            || (req.term == n.state.currentTerm && n.state.role == Follower && n.state.leaderId == Some(req.leader)))
      && e.reply.term == Max(n.state.currentTerm, req.term)
      && SameData(n, e.node) && e.node.election == n.election && e.node.replication == n.replication
      && (if req.term > n.state.currentTerm
          then FollowsIn(n, e.node, req.term, req.leader)
               && e.writes == [SaveState(req.term, None, n.state.commitIndex)]
          else e.node == n && e.writes == [])
  {
  }

  // The transfer is reported exactly where the reply accepts it and no later term is heard of, by
  // a leader still in the transfer's term; it then follows nobody in that term, and keeps its vote.
  lemma TimeoutReplyAnswered(n: NodeView, term: int, reply: TimeoutNowReply)
    ensures var e := ReceiveTimeoutReply(n, term, reply);
      var leads := n.state.role == Leader && n.state.currentTerm == term;
      && (e.reply <==> leads && reply.term <= term && reply.accepted)
      && (e.reply ==>
            && SameData(n, e.node) && e.writes == [] && e.node.replication == None && e.node.election == n.election
            && e.node.state.role == Follower && e.node.state.leaderId == None
            && e.node.state.currentTerm == term && e.node.state.votedFor == n.state.votedFor)
      && (leads && reply.term > term ==> Deposed(n, e.node, e.writes, reply.term))
      && (!e.reply && !(leads && reply.term > term) ==> e.node == n && e.writes == [])
  {
  }
}

// _replicate_to_follower: the loop that walks next_index back until the follower's log fits,
// or sends a snapshot. Against a follower that answers at once, when it ends and what it leaves.

module Backtracking {
  import opened Prelude
  import opened Types
  import opened History
  import opened HistorySteps
  import opened RaftLogs
  import opened StateMachines
  import opened Journals
  import opened Nodes
  import opened Agreement
  import opened ElectionProof
  import opened AppendProof
  import opened SnapshotProof
  import opened LeaderProof
  import opened Clusters
  import opened Safety
  import opened Reads
  import opened Submissions
  import opened RaftNodes

  datatype Round = Round(leader: NodeView, follower: NodeView, progress: Progress)

  // One turn of the loop; None where something raises.
  function RetryRound(n: NodeView, m: NodeView, f: NodeId): (r: Option<Round>)
    requires n.Sound() && m.Sound() && f in n.Followers()
    ensures r.Some? ==> Keeps(n, r.value.leader) && Keeps(m, r.value.follower)
  {
    match NextRequest(n, f)
    case None => None
    case Some(Idle) => Some(Round(n, m, Return(false)))
    case Some(SendAppend(req)) =>
      (match ReceiveAppend(m, req)
       case None => None
       case Some(e) =>
         var a := ReceiveAppendReply(n, f, req, e.reply);
         Some(Round(a.node, e.node, a.reply)))
    case Some(SendSnapshot(req)) =>
      (match ReceiveSnapshot(m, req)
       case None => None
       case Some(e) =>
         var a := ReceiveSnapshotReply(n, f, req, e.reply);
         Some(Round(a.node, e.node, a.reply)))
  }

  // At most k turns.
  function Rounds(n: NodeView, m: NodeView, f: NodeId, k: nat): Option<Round>
    requires n.Sound() && m.Sound() && f in n.Followers()
    decreases k
  {
    if k == 0 then Some(Round(n, m, Retry))
    else
      match RetryRound(n, m, f)
      case None => None
      case Some(r) => if r.progress.Return? then Some(r) else Rounds(r.leader, r.follower, f, k - 1)
  }

  lemma NoTurns(n: NodeView, m: NodeView, f: NodeId)
    requires n.Sound() && m.Sound() && f in n.Followers()
    ensures Rounds(n, m, f, 0) == Some(Round(n, m, Retry))
  {
  }

  lemma TurnFirst(n: NodeView, m: NodeView, f: NodeId, turns: nat, r: Round)
    requires n.Sound() && m.Sound() && f in n.Followers() && RetryRound(n, m, f) == Some(r)
    ensures Rounds(n, m, f, turns + 1) == if r.progress.Return? then Some(r) else Rounds(r.leader, r.follower, f, turns)
  {
    hide RetryRound;
  }

  ghost predicate Ends(n: NodeView, m: NodeView, f: NodeId)
    requires n.Sound() && m.Sound() && f in n.Followers()
  {
    exists k: nat :: Rounds(n, m, f, k).Some? && Rounds(n, m, f, k).value.progress.Return?
  }

  // Two nodes of one lawful history.
  ghost predicate Known(h: History, n: NodeView, l: NodeId, m: NodeView, f: NodeId) {
    && Lawful(h) && n.Sound() && m.Sound() && NodeFaithful(h, n, l) && NodeFaithful(h, m, f)
    && f in n.Followers() && l != f
  }

  // The one leads, and the other's term is no later.
  predicate Ahead(n: NodeView, m: NodeView) {
    n.state.role == Leader && n.replication.Some? && m.state.currentTerm <= n.state.currentTerm
  }

  ghost predicate Paired(h: History, n: NodeView, l: NodeId, m: NodeView, f: NodeId) {
    Known(h, n, l, m, f) && Ahead(n, m)
  }

  // From the later of the two boundaries to the leader's last index the logs are the same.
  predicate InStep(n: NodeView, m: NodeView) {
    && n.log.WellFormed() && m.log.WellFormed() && n.log.LastIndex() <= m.log.LastIndex()
    && (forall i :: n.log.baseIndex <= i <= n.log.LastIndex() && m.log.baseIndex <= i ==>
          m.log.TermAt(i) == n.log.TermAt(i))
    && (forall i :: n.log.baseIndex < i <= n.log.LastIndex() && m.log.baseIndex < i ==> m.log.Get(i) == n.log.Get(i))
  }

  lemma SharedInStep(n: NodeView, fn: seq<LogEntry>, m: NodeView, fm: seq<LogEntry>)
    requires WellNumbered(fn) && Represents(n.log, fn) && WellNumbered(fm) && Represents(m.log, fm)
    requires |fn| <= |fm| && fm[..|fn|] == fn
    ensures InStep(n, m)
  {
    RepresentedReads(n.log, fn);
    RepresentedReads(m.log, fm);
    hide WellNumbered, Represents;
    forall i | 0 <= i < |fn| ensures fn[i] == fm[i] {
      assert fm[i] == fm[..|fn|][i];
    }
  }

  // ---- A turn with an AppendEntries request ----

  function Prev(n: NodeView, f: NodeId): int
    requires n.replication.Some? && f in n.replication.value.nextIndex
  {
    n.replication.value.nextIndex[f] - 1
  }

  lemma AppendSucceeds(m: NodeView, req: AppendRequest)
    requires m.Sound() && ReceiveAppend(m, req).Some? && m.state.currentTerm <= req.term
    ensures var e := ReceiveAppend(m, req).value;
      && (e.reply.success <==> PrevHeld(m, req)) && e.reply.term == req.term && e.node.state.currentTerm == req.term
      && (!e.reply.success || req.entries == [] ==> e.node.log == m.log)
  {
    hide FollowerCommit;
    if !PrevHeld(m, req) {
      AppendRefused(m, req);
    }
  }

  // What the leader makes of the answer.
  lemma AppendAnswered(n: NodeView, f: NodeId, req: AppendRequest, success: bool)
    requires n.Sound() && StillLeading(n, req.term) && f in n.Followers() && req.leaderCommit == n.state.commitIndex
    requires (if req.entries != [] then req.entries[|req.entries| - 1].index else req.prevLogIndex) == n.log.LastIndex()
    ensures var a := ReceiveAppendReply(n, f, req, ReplicationReply(req.term, success));
      && a.reply == (if success then Return(true) else Retry)
      && (success ==> a.node.log == n.log && a.node.state == n.state)
      && (!success ==> a.node == n.(replication := Some(n.replication.value.RecordFailure(f))))
  {
  }

  // The same history holds the leader still while the follower moves.
  lemma LeaderWaits(h: History, k: History, n: NodeView, l: NodeId, f: NodeId)
    requires Continues(h, k, f) && NodeFaithful(h, n, l) && l != f
    ensures NodeFaithful(k, n, l) && k.Log(l) == h.Log(l) && Lawful(k) && Grows(h, k)
  {
    NodeStays(h, k, f, n, l);
  }

  // The request a leader sends for position prev, and where its entries end.
  lemma AppendSentIs(h: History, n: NodeView, l: NodeId, f: NodeId) returns (req: AppendRequest)
    requires Consistent(h) && n.Sound() && NodeFaithful(h, n, l) && f in n.Followers()
    requires n.state.role == Leader && n.replication.Some? && n.log.baseIndex <= Prev(n, f)
    ensures NextRequest(n, f) == Some(SendAppend(req)) && AppendTruthful(h, req)
        && CommittedBy(h, req.term, req.leaderCommit)
    ensures req.term == n.state.currentTerm && req.leaderCommit == n.state.commitIndex && req.prevLogIndex == Prev(n, f)
    ensures n.log.TermAt(Prev(n, f)) == Some(req.prevLogTerm) && Prev(n, f) <= n.log.LastIndex()
    ensures req.prevLogIndex + |req.entries| == n.log.LastIndex()
    ensures (if req.entries != [] then req.entries[|req.entries| - 1].index else req.prevLogIndex) == n.log.LastIndex()
  {
    hide Consistent, WellNumbered, Sourced, Represents, CommittedBy, NextRequest, AppendTruthful, NodeFaithful,
          Rooted, Numbered;
    var full := h.Log(l);
    NextIndexBounds(h, n, l, f);
    NodeReads(h, n, l);
    NextRequestTruthful(h, n, l, f);
    RequestIs(n, full, f);
    req := AppendRequest(n.state.currentTerm, n.state.nodeId, Prev(n, f), TermOf(full, Prev(n, f)),
                         full[Prev(n, f)..], n.state.commitIndex);
    assert NextRequest(n, f) == Some(SendAppend(req));
    RepresentedAt(n.log, full, Prev(n, f));
    ConsistentNumbered(h);
    SuccessIndex(h, req);
  }

  lemma NextIndexBounds(h: History, n: NodeView, l: NodeId, f: NodeId)
    requires n.Sound() && NodeFaithful(h, n, l) && n.replication.Some? && f in n.Followers()
    ensures 0 <= Prev(n, f) <= |h.Log(l)| && Represents(n.log, h.Log(l)) && l in h.members
  {
    assert MatchFaithful(h, n, f);
  }

  lemma ConsistentNumbered(h: History)
    requires Consistent(h)
    ensures Numbered(h.reigns) && Rooted(h.reigns)
  {
  }

  // Both logs hold the leader's last entry: then they are in step.
  lemma EndsInStep(h: History, n: NodeView, l: NodeId, m: NodeView, f: NodeId)
    requires Consistent(h) && NodeFaithful(h, n, l) && NodeFaithful(h, m, f) && l in h.members && f in h.members
    requires |h.Log(l)| <= |h.Log(f)| && h.Log(f)[..|h.Log(l)|] == h.Log(l)
    ensures InStep(n, m)
  {
    NodeReads(h, n, l);
    NodeReads(h, m, f);
    hide Consistent, WellNumbered, Sourced, InStep;
    SharedInStep(n, h.Log(l), m, h.Log(f));
  }

  // After success the follower's log has the request's last term at its last index.
  lemma HeldAtEnd(m: NodeView, req: AppendRequest, m': NodeView, leader: seq<LogEntry>)
    requires m.Sound() && PrevHeld(m, req) && RuleKept(m, req, m', true) && m'.log.baseIndex == m.log.baseIndex
    requires req.entries == [] ==> m'.log == m.log
    requires 0 <= req.prevLogIndex && |leader| == req.prevLogIndex + |req.entries| && 0 < |leader|
    requires req.prevLogTerm == TermOf(leader, req.prevLogIndex) && req.entries == leader[req.prevLogIndex..]
    ensures m'.log.WellFormed() && m'.log.TermAt(|leader|) == Some(TermOf(leader, |leader|))
  {
    if req.entries != [] {
      var i := |req.entries| - 1;
      assert m'.log.Get(req.prevLogIndex + 1 + i) == Some(req.entries[i]);
    }
  }

  // Both logs have the same term at the leader's last index: then they are in step.
  lemma EndsMeet(h: History, n: NodeView, l: NodeId, m: NodeView, f: NodeId)
    requires Consistent(h) && n.Sound() && m.Sound() && NodeFaithful(h, n, l) && NodeFaithful(h, m, f)
    requires |h.Log(l)| > 0 ==> m.log.TermAt(|h.Log(l)|) == Some(TermOf(h.Log(l), |h.Log(l)|))
    ensures InStep(n, m)
  {
    NodeReads(h, n, l);
    NodeReads(h, m, f);
    ConsistentNumbered(h);
    RepresentedAt(m.log, h.Log(f), |h.Log(l)|);
    hide Consistent, WellNumbered, Sourced, InStep, Rooted, Numbered;
    if |h.Log(l)| > 0 {
      LogMatching(h, h.Log(l), h.Log(f), |h.Log(l)|);
    }
    assert h.Log(f)[..|h.Log(l)|] == h.Log(l);
    EndsInStep(h, n, l, m, f);
  }

  lemma KeptBase(m: NodeView, req: AppendRequest)
    requires m.Sound() && ReceiveAppend(m, req).Some?
    ensures ReceiveAppend(m, req).value.node.log.baseIndex == m.log.baseIndex
  {
    hide FollowerCommit;
  }

  // The follower took the leader's whole suffix, so it holds the leader's whole log.
  lemma AcceptedInStep(h: History, k: History, n: NodeView, l: NodeId, m: NodeView, f: NodeId, req: AppendRequest)
    requires Lawful(h) && n.Sound() && m.Sound() && NodeFaithful(h, n, l) && NodeFaithful(h, m, f)
    requires AppendTruthful(h, req) && req.prevLogIndex + |req.entries| == |h.Log(l)|
    requires h.LeaderLog(req.term) == h.Log(l)
    requires m.state.currentTerm <= req.term && PrevHeld(m, req)
    requires ReceiveAppend(m, req).Some? && Continues(h, k, f) && l != f
    requires NodeFaithful(k, ReceiveAppend(m, req).value.node, f)
    ensures InStep(n, ReceiveAppend(m, req).value.node)
  {
    hide Consistent, VotesSafe, LeadersSafe, AcksKept, CommitsBacked, RuleKept, InStep, ReceiveAppend, NodeFaithful,
          PrevHeld;
    FollowerRule(h, m, f, req);
    AppendSucceeds(m, req);
    KeptBase(m, req);
    LeaderWaits(h, k, n, l, f);
    hide Continues, Grows;
    var m' := ReceiveAppend(m, req).value.node;
    if |h.Log(l)| > 0 {
      HeldAtEnd(m, req, m', h.Log(l));
    }
    EndsMeet(k, n, l, m', f);
  }

  // ---- One turn ----

  // The follower holds the leader's entry before next_index.
  predicate HoldsPrev(n: NodeView, m: NodeView, f: NodeId)
    requires n.Sound() && m.Sound() && n.replication.Some? && f in n.Followers()
  {
    m.log.TermAt(Prev(n, f)).Some? && m.log.TermAt(Prev(n, f)) == n.log.TermAt(Prev(n, f))
  }

  lemma PrevHeldIs(n: NodeView, m: NodeView, f: NodeId, req: AppendRequest)
    requires n.Sound() && m.Sound() && n.replication.Some? && f in n.Followers()
    requires n.log.TermAt(Prev(n, f)) == Some(req.prevLogTerm) && req.prevLogIndex == Prev(n, f)
    ensures PrevHeld(m, req) <==> HoldsPrev(n, m, f)
  {
  }

  // A turn with entries: it ends the loop with the logs in step, or takes next_index back one.
  lemma AppendTurn(h: History, n: NodeView, l: NodeId, m: NodeView, f: NodeId) returns (k: History, r: Round)
    requires Paired(h, n, l, m, f) && n.log.baseIndex <= Prev(n, f)
    ensures RetryRound(n, m, f) == Some(r) && Lawful(k)
    ensures HoldsPrev(n, m, f) ==> r.progress == Return(true) && InStep(r.leader, r.follower)
    ensures !HoldsPrev(n, m, f) ==>
      && r.progress == Retry && r.leader == n.(replication := Some(n.replication.value.RecordFailure(f)))
      && r.follower.log == m.log && Paired(k, r.leader, l, r.follower, f)
  {
    hide Consistent, VotesSafe, LeadersSafe, AcksKept, CommitsBacked, InStep, ReceiveAppend, NodeFaithful, PrevHeld,
          HoldsPrev;
    hide NextRequest, ReceiveAppendReply, AppendTruthful, CommittedBy, Continues, Grows;
    var req := AppendSentIs(h, n, l, f);
    PrevHeldIs(n, m, f, req);
    k := AppendKeeps(h, m, f, req);
    AppendSucceeds(m, req);
    var e := ReceiveAppend(m, req).value;
    AppendAnswered(n, f, req, e.reply.success);
    LeaderWaits(h, k, n, l, f);
    var a := ReceiveAppendReply(n, f, req, e.reply);
    r := Round(a.node, e.node, a.reply);
    assert e.reply == ReplicationReply(req.term, e.reply.success);
    if e.reply.success {
      LeaderOwnLog(h, n, l);
      AcceptedInStep(h, k, n, l, m, f, req);
      SameLogInStep(n, a.node, e.node);
    } else {
      FailureRecorded(k, n, l, f);
    }
  }

  lemma LeaderOwnLog(h: History, n: NodeView, l: NodeId)
    requires Consistent(h) && n.Sound() && NodeFaithful(h, n, l) && n.state.role == Leader
    ensures h.LeaderLog(n.state.currentTerm) == h.Log(l) && n.log.LastIndex() == |h.Log(l)|
  {
    NodeReads(h, n, l);
  }

  lemma SameLogInStep(n: NodeView, a: NodeView, m: NodeView)
    requires InStep(n, m) && a.log == n.log
    ensures InStep(a, m)
  {
  }

  lemma SnapshotSentIs(h: History, n: NodeView, l: NodeId, f: NodeId) returns (req: SnapshotRequest)
    requires Consistent(h) && n.Sound() && NodeFaithful(h, n, l) && f in n.Followers()
    requires n.state.role == Leader && n.replication.Some? && Prev(n, f) < n.log.baseIndex
    ensures NextRequest(n, f) == Some(SendSnapshot(req)) && SnapshotTruthful(h, req)
        && CommittedBy(h, req.term, req.lastIncludedIndex)
    ensures req.term == n.state.currentTerm
    ensures req.lastIncludedIndex == n.log.baseIndex && req.lastIncludedTerm == n.log.baseTerm
  {
    hide Consistent, CommittedBy, SnapshotTruthful, NodeFaithful;
    NextRequestTruthful(h, n, l, f);
    req := NextRequest(n, f).value.install;
  }

  lemma SnapshotAnswered(n: NodeView, f: NodeId, req: SnapshotRequest)
    requires n.Sound() && StillLeading(n, req.term) && f in n.Followers()
    ensures var a := ReceiveSnapshotReply(n, f, req, ReplicationReply(req.term, true));
      && a.node == n.(replication := Some(n.replication.value.RecordMatch(f, req.lastIncludedIndex)))
      && a.reply == if a.node.replication.value.nextIndex[f] <= n.log.LastIndex() then Retry else Return(true)
  {
  }

  // What the follower answers a truthful snapshot of its leader with.
  lemma SnapshotTaken(h: History, m: NodeView, f: NodeId, req: SnapshotRequest) returns (k: History, m': NodeView)
    requires Lawful(h) && m.Sound() && NodeFaithful(h, m, f) && m.state.currentTerm <= req.term
    requires SnapshotTruthful(h, req) && CommittedBy(h, req.term, req.lastIncludedIndex)
    ensures Continues(h, k, f) && NodeFaithful(k, m', f) && k.Acked(f, req.term, req.lastIncludedIndex)
    ensures ReceiveSnapshot(m, req).Some? && m' == ReceiveSnapshot(m, req).value.node
    ensures ReceiveSnapshot(m, req).value.reply == ReplicationReply(req.term, true)
    ensures m'.log.baseIndex == Max(m.log.baseIndex, req.lastIncludedIndex) && m'.state.currentTerm == req.term
    ensures m.log.WellFormed() && SnapshotInstalled(m.log, req.lastIncludedIndex, req.lastIncludedTerm, m'.log)
  {
    hide Consistent, VotesSafe, LeadersSafe, AcksKept, CommitsBacked, SnapshotTruthful, CommittedBy, Continues,
         ReceiveSnapshot, SnapshotInstalled;
    k, m' := SnapshotKeeps(h, m, f, req);
    var w, ws := SnapshotEnds(h, m, f, req);
    SnapshotReplyTerm(m, req);
    SnapshotLog(m, req);
  }

  // What accepting a snapshot makes of a log: nothing where it is compacted further already.
  predicate SnapshotInstalled(l: LogView, index: int, term: int, l': LogView)
    requires l.WellFormed()
  {
    if index < l.baseIndex then l' == l else l.InstallBoundary(index, term) == Some(l')
  }

  lemma SnapshotLog(m: NodeView, req: SnapshotRequest)
    requires m.Sound() && ReceiveSnapshot(m, req).Some? && ReceiveSnapshot(m, req).value.reply.success
    ensures SnapshotInstalled(m.log, req.lastIncludedIndex, req.lastIncludedTerm,
                              ReceiveSnapshot(m, req).value.node.log)
  {
    hide ApplyCommitted;
  }

  lemma SnapshotReplyTerm(m: NodeView, req: SnapshotRequest)
    requires m.Sound() && ReceiveSnapshot(m, req).Some? && m.state.currentTerm <= req.term
    ensures ReceiveSnapshot(m, req).value.reply.term == req.term
  {
    hide ApplyCommitted;
  }

  // A turn with a snapshot: the follower's boundary reaches the leader's.
  lemma SnapshotTurn(h: History, n: NodeView, l: NodeId, m: NodeView, f: NodeId) returns (k: History, r: Round)
    requires Paired(h, n, l, m, f) && Prev(n, f) < n.log.baseIndex
    ensures RetryRound(n, m, f) == Some(r) && Paired(k, r.leader, l, r.follower, f)
    ensures r.leader == n.(replication := Some(n.replication.value.RecordMatch(f, n.log.baseIndex)))
    ensures r.follower.log.baseIndex == Max(m.log.baseIndex, n.log.baseIndex)
    ensures SnapshotInstalled(m.log, n.log.baseIndex, n.log.baseTerm, r.follower.log)
    ensures r.progress == if r.leader.replication.value.nextIndex[f] <= n.log.LastIndex() then Retry else Return(true)
  {
    hide Consistent, VotesSafe, LeadersSafe, AcksKept, CommitsBacked, ReceiveSnapshot, NodeFaithful;
    hide NextRequest, ReceiveSnapshotReply, SnapshotTruthful, CommittedBy, Continues, Grows, SnapshotInstalled;
    var req := SnapshotSentIs(h, n, l, f);
    var m';
    k, m' := SnapshotTaken(h, m, f, req);
    SnapshotAnswered(n, f, req);
    LeaderWaits(h, k, n, l, f);
    var a := ReceiveSnapshotReply(n, f, req, ReplicationReply(req.term, true));
    r := Round(a.node, m', a.reply);
    LawfulConsistent(k);
    LeaderOwnLog(k, n, l);
    LeaderReadsBase(k, n, l);
    MatchRecorded(k, n, l, f, n.log.baseIndex);
  }

  lemma LawfulConsistent(h: History)
    requires Lawful(h)
    ensures Consistent(h) && LeadersSafe(h) && CommitsBacked(h)
  {
  }

  lemma LeaderReadsBase(h: History, n: NodeView, l: NodeId)
    requires NodeFaithful(h, n, l)
    ensures 0 <= n.log.baseIndex <= |h.Log(l)|
  {
  }

  // Two nodes compacted to the same index agree there, whenever that was committed.
  lemma SameBaseAgrees(h: History, n: NodeView, l: NodeId, m: NodeView, f: NodeId)
    requires Lawful(h) && NodeFaithful(h, n, l) && NodeFaithful(h, m, f) && n.log.baseIndex == m.log.baseIndex
    ensures n.log.baseTerm == m.log.baseTerm
  {
    hide Consistent, VotesSafe, LeadersSafe, AcksKept, CommitsBacked;
    var t :| CertifiedBy(h, l, n.state.commitIndex, n.log.baseIndex, n.state.role, t);
    var u :| CertifiedBy(h, f, m.state.commitIndex, m.log.baseIndex, m.state.role, u);
    var p, q := h.Log(l)[..n.state.commitIndex], h.Log(f)[..m.state.commitIndex];
    CommittedAgree(h, p, t, q, u);
    var b := n.log.baseIndex;
    assert b > 0 ==> p[b - 1] == q[b - 1];
  }

  // ---- When the loop ends ----

  // The leader's log has the follower's boundary entry, or has been compacted past it.
  predicate AgreeAtBase(n: NodeView, m: NodeView)
    requires n.Sound() && m.Sound()
  {
    n.log.baseIndex <= m.log.baseIndex ==> n.log.TermAt(m.log.baseIndex) == Some(m.log.baseTerm)
  }

  // What a caller can check before the loop. Where the logs agree at the follower's boundary: it
  // is compacted no further than the leader, or not as far as next_index, or no further than a
  // snapshot would bring next_index back to. Elsewhere: a snapshot goes out, and completes the log.
  predicate WillEnd(n: NodeView, m: NodeView, f: NodeId)
    requires n.Sound() && m.Sound() && n.replication.Some? && f in n.Followers()
  {
    var r := n.replication.value;
    if AgreeAtBase(n, m) then
      || m.log.baseIndex <= n.log.baseIndex
      || m.log.baseIndex < r.nextIndex[f]
      || (0 < n.log.baseIndex && m.log.baseIndex <= r.matchIndex[f])
    else 0 < n.log.baseIndex && n.log.LastIndex() <= Max(n.log.baseIndex, r.matchIndex[f])
  }

  // The same for any two nodes: the loop also ends when there is no leader to go on with it.
  predicate Returns(n: NodeView, m: NodeView, f: NodeId)
    requires n.Sound() && m.Sound() && f in n.Followers()
  {
    !Ahead(n, m) || WillEnd(n, m, f)
  }

  // Both hold the same entry at x.
  predicate HeldAt(n: NodeView, m: NodeView, x: int)
    requires n.Sound() && m.Sound()
  {
    m.log.TermAt(x).Some? && m.log.TermAt(x) == n.log.TermAt(x)
  }

  // When True means that the logs are in step, also to be checked before the loop: always when
  // the leader had not matched its whole log. Otherwise when next_index lies behind an entry
  // both hold, or a snapshot covers the leader's log, or the follower held its last entry.
  predicate LeavesInStep(n: NodeView, m: NodeView, f: NodeId)
    requires n.Sound() && m.Sound() && n.replication.Some? && f in n.Followers()
  {
    var r, last, both := n.replication.value, n.log.LastIndex(), Max(n.log.baseIndex, m.log.baseIndex);
    || r.matchIndex[f] < last
    || (both < r.nextIndex[f] && HeldAt(n, m, both))
    || last == n.log.baseIndex || last < m.log.baseIndex
    || HeldAt(n, m, last)
  }

  predicate Ready(n: NodeView, m: NodeView, f: NodeId)
    requires n.Sound() && m.Sound() && n.replication.Some? && f in n.Followers()
  {
    AgreeAtBase(n, m) && n.log.baseIndex <= m.log.baseIndex < n.replication.value.nextIndex[f]
  }

  // What ends the loop still holds, as does what it will leave, and next_index came closer.
  predicate Closer(n: NodeView, m: NodeView, n': NodeView, m': NodeView, f: NodeId)
    requires n.Sound() && m.Sound() && n'.Sound() && m'.Sound()
    requires n.replication.Some? && n'.replication.Some? && f in n.Followers() && f in n'.Followers()
  {
    && WillEnd(n', m', f) && (LeavesInStep(n', m', f) <==> LeavesInStep(n, m, f))
    && (Ready(n, m, f) ==> Ready(n', m', f))
    && (Ready(n', m', f) == Ready(n, m, f) ==>
          0 <= n'.replication.value.nextIndex[f] < n.replication.value.nextIndex[f])
  }

  lemma FailureCloser(n: NodeView, m: NodeView, n': NodeView, m': NodeView, f: NodeId)
    requires n.Sound() && m.Sound() && n'.Sound() && m'.Sound() && n.replication.Some? && f in n.Followers()
    requires !HoldsPrev(n, m, f) && n.log.baseIndex <= Prev(n, f) && WillEnd(n, m, f)
    requires n' == n.(replication := Some(n.replication.value.RecordFailure(f))) && m'.log == m.log
    ensures Closer(n, m, n', m', f)
  {
    assert Prev(n, f) == m.log.baseIndex ==> m.log.TermAt(m.log.baseIndex) == Some(m.log.baseTerm);
    FailureLeaves(n, m, n', m', f);
    hide LeavesInStep;
  }

  // next_index passes no entry both hold.
  lemma FailureLeaves(n: NodeView, m: NodeView, n': NodeView, m': NodeView, f: NodeId)
    requires n.Sound() && m.Sound() && n'.Sound() && m'.Sound() && n.replication.Some? && f in n.Followers()
    requires !HoldsPrev(n, m, f) && n.log.baseIndex <= Prev(n, f)
    requires n' == n.(replication := Some(n.replication.value.RecordFailure(f))) && m'.log == m.log
    ensures LeavesInStep(n', m', f) <==> LeavesInStep(n, m, f)
  {
    assert HeldAt(n, m, Prev(n, f)) <==> HoldsPrev(n, m, f);
  }

  lemma SnapshotCloser(n: NodeView, m: NodeView, n': NodeView, m': NodeView, f: NodeId)
    requires n.Sound() && m.Sound() && n'.Sound() && m'.Sound() && n.replication.Some? && f in n.Followers()
    requires Prev(n, f) < n.log.baseIndex && WillEnd(n, m, f)
    requires n.log.baseIndex == m.log.baseIndex ==> AgreeAtBase(n, m)
    requires n' == n.(replication := Some(n.replication.value.RecordMatch(f, n.log.baseIndex)))
    requires n'.replication.value.nextIndex[f] <= n.log.LastIndex()
    requires m'.log.baseIndex == Max(m.log.baseIndex, n.log.baseIndex)
    requires n.log.baseIndex < m.log.baseIndex ==> m'.log == m.log
    requires m'.log.baseIndex == n.log.baseIndex ==> m'.log.baseTerm == n.log.baseTerm
    ensures Closer(n, m, n', m', f)
  {
  }

  lemma KnownReads(h: History, n: NodeView, id: NodeId)
    requires Lawful(h) && NodeFaithful(h, n, id)
    ensures Represents(n.log, h.Log(id)) && WellNumbered(h.Log(id)) && Sourced(h.reigns, h.Log(id))
    ensures Rooted(h.reigns)
  {
    hide VotesSafe, LeadersSafe, AcksKept, CommitsBacked;
    NodeReads(h, n, id);
  }

  // A common entry at or after the follower's boundary means the logs agree at both boundaries.
  lemma HeldAgrees(h: History, n: NodeView, l: NodeId, m: NodeView, f: NodeId, x: int)
    requires Known(h, n, l, m, f) && HeldAt(n, m, x) && n.log.baseIndex <= x
    ensures m.log.baseIndex <= x && AgreeAtBase(n, m) && HeldAt(n, m, Max(n.log.baseIndex, m.log.baseIndex))
    ensures m.log.baseIndex <= n.log.baseIndex ==> m.log.TermAt(n.log.baseIndex) == Some(n.log.baseTerm)
  {
    hide Lawful, NodeFaithful, Sourced, Rooted, Numbered, WellNumbered;
    KnownReads(h, n, l);
    KnownReads(h, m, f);
    var fn, fm, b := h.Log(l), h.Log(f), Max(n.log.baseIndex, m.log.baseIndex);
    RepresentedAt(n.log, fn, x);
    RepresentedAt(m.log, fm, x);
    RepresentedAt(n.log, fn, b);
    RepresentedAt(m.log, fm, b);
    if x > 0 {
      LogMatching(h, fn, fm, x);
      if b > 0 {
        assert fn[b - 1] == fn[..x][b - 1] == fm[..x][b - 1] == fm[b - 1];
      }
    }
  }

  // ---- What a snapshot that ends the loop leaves ----

  lemma InstalledReads(l: LogView, b: int, t: int, l': LogView, x: int)
    requires l.WellFormed() && l'.WellFormed() && SnapshotInstalled(l, b, t, l') && b < x
    ensures l'.TermAt(x).Some? ==> l.TermAt(x) == l'.TermAt(x)
    ensures l.baseIndex <= b && l.TermAt(b) == Some(t) ==> l'.TermAt(x) == l.TermAt(x)
  {
  }

  // The leader's log ends before the follower's boundary: nothing to compare.
  lemma ShorterInStep(n: NodeView, m: NodeView)
    requires n.Sound() && m.Sound() && n.log.LastIndex() < m.log.baseIndex
    ensures InStep(n, m)
  {
  }

  // m has become m' by the leader's snapshot, which leaves the leader nothing to send.
  lemma SnapshotEndsLoop(h: History, n: NodeView, l: NodeId, m: NodeView, f: NodeId, k: History, n': NodeView,
                         m': NodeView)
    requires Paired(h, n, l, m, f) && Paired(k, n', l, m', f) && n'.log == n.log
    requires Prev(n, f) < n.log.baseIndex && m'.log.baseIndex == Max(m.log.baseIndex, n.log.baseIndex)
    requires SnapshotInstalled(m.log, n.log.baseIndex, n.log.baseTerm, m'.log)
    requires n.log.LastIndex() <= Max(n.log.baseIndex, n.replication.value.matchIndex[f])
    ensures InStep(n', m') <==> LeavesInStep(n, m, f)
  {
    hide NodeFaithful, Lawful, InStep, SnapshotInstalled;
    var last, base := n.log.LastIndex(), n.log.baseIndex;
    if last < m.log.baseIndex {
      assert m'.log == m.log by {
        InstalledBeyond(m.log, base, n.log.baseTerm, m'.log);
      }
      ShorterInStep(n', m');
    } else if last == base {
      CompactedInStep(k, n', l, m', f);
    } else {
      InstalledReads(m.log, base, n.log.baseTerm, m'.log, last);
      if HeldAt(n, m, last) {
        HeldAgrees(h, n, l, m, f, last);
        InstalledBeyond(m.log, base, n.log.baseTerm, m'.log);
        LastHeldInStep(k, n', l, m', f);
      } else if InStep(n', m') {
        InStepAtLast(n', m');
      }
    }
  }

  lemma InstalledBeyond(l: LogView, b: int, t: int, l': LogView)
    requires l.WellFormed() && SnapshotInstalled(l, b, t, l')
    ensures b < l.baseIndex ==> l' == l
  {
  }

  lemma InStepAtLast(n: NodeView, m: NodeView)
    requires n.Sound() && m.Sound() && InStep(n, m) && m.log.baseIndex <= n.log.LastIndex()
    ensures HeldAt(n, m, n.log.LastIndex())
  {
  }

  lemma LastHeldInStep(h: History, n: NodeView, l: NodeId, m: NodeView, f: NodeId)
    requires Paired(h, n, l, m, f) && HeldAt(n, m, n.log.LastIndex())
    ensures InStep(n, m)
  {
    hide VotesSafe, AcksKept, LeadersSafe, CommitsBacked, InStep, NodeFaithful;
    LeaderOwnLog(h, n, l);
    KnownReads(h, n, l);
    RepresentedAt(n.log, h.Log(l), |h.Log(l)|);
    EndsMeet(h, n, l, m, f);
  }

  // The leader's log ends at its boundary, where the follower now agrees.
  lemma CompactedInStep(h: History, n: NodeView, l: NodeId, m: NodeView, f: NodeId)
    requires Paired(h, n, l, m, f) && n.log.LastIndex() == n.log.baseIndex == m.log.baseIndex
    ensures InStep(n, m)
  {
    hide VotesSafe, AcksKept, LeadersSafe, CommitsBacked, InStep, NodeFaithful;
    SameBaseAgrees(h, n, l, m, f);
    LeaderOwnLog(h, n, l);
    LeaderLast(h, n, l);
    EndsMeet(h, n, l, m, f);
  }

  lemma LeaderLast(h: History, n: NodeView, l: NodeId)
    requires NodeFaithful(h, n, l) && n.log.baseIndex == |h.Log(l)|
    ensures n.log.baseTerm == TermOf(h.Log(l), |h.Log(l)|)
  {
  }

  // ---- The loop ends ----

  // One turn: the loop returns True, with the logs in step exactly as foretold, or goes on,
  // closer to its end.
  lemma Turn(h: History, n: NodeView, l: NodeId, m: NodeView, f: NodeId) returns (k: History, r: Round)
    requires Paired(h, n, l, m, f) && WillEnd(n, m, f)
    ensures RetryRound(n, m, f) == Some(r)
    ensures r.progress.Return? ==> r.progress.result && (InStep(r.leader, r.follower) <==> LeavesInStep(n, m, f))
    ensures r.progress == Retry ==> Paired(k, r.leader, l, r.follower, f) && Closer(n, m, r.leader, r.follower, f)
  {
    hide NodeFaithful, Lawful, RetryRound, InStep, Closer, HoldsPrev, AgreeAtBase, WillEnd, LeavesInStep;
    hide SnapshotInstalled;
    if n.log.baseIndex <= Prev(n, f) {
      k, r := AppendTurn(h, n, l, m, f);
      if r.progress == Retry {
        FailureCloser(n, m, r.leader, r.follower, f);
      } else {
        PrevLeaves(h, n, l, m, f);
      }
    } else {
      k, r := SnapshotTurn(h, n, l, m, f);
      SameBases(h, n, l, m, f);
      SameBases(k, r.leader, l, r.follower, f);
      if r.progress == Retry {
        InstalledBeyond(m.log, n.log.baseIndex, n.log.baseTerm, r.follower.log);
        SnapshotCloser(n, m, r.leader, r.follower, f);
      } else {
        SnapshotEndsLoop(h, n, l, m, f, k, r.leader, r.follower);
      }
    }
  }

  lemma SameBases(h: History, n: NodeView, l: NodeId, m: NodeView, f: NodeId)
    requires Known(h, n, l, m, f)
    ensures n.log.baseIndex == m.log.baseIndex ==> AgreeAtBase(n, m) && m.log.baseTerm == n.log.baseTerm
  {
    if n.log.baseIndex == m.log.baseIndex {
      hide NodeFaithful, Lawful;
      SameBaseAgrees(h, n, l, m, f);
    }
  }

  lemma PrevLeaves(h: History, n: NodeView, l: NodeId, m: NodeView, f: NodeId)
    requires Paired(h, n, l, m, f) && n.log.baseIndex <= Prev(n, f) && HoldsPrev(n, m, f)
    ensures LeavesInStep(n, m, f)
  {
    assert HeldAt(n, m, Prev(n, f));
    hide NodeFaithful, Lawful;
    HeldAgrees(h, n, l, m, f, Prev(n, f));
  }

  lemma {:induction false} TurnsEnd(h: History, n: NodeView, l: NodeId, m: NodeView, f: NodeId)
    returns (turns: nat, r: Round)
    requires Paired(h, n, l, m, f) && WillEnd(n, m, f)
    ensures Rounds(n, m, f, turns) == Some(r) && r.progress == Return(true)
    ensures InStep(r.leader, r.follower) <==> LeavesInStep(n, m, f)
    decreases if Ready(n, m, f) then 0 else 1, n.replication.value.nextIndex[f]
  {
    hide NodeFaithful, Lawful, RetryRound, InStep, AgreeAtBase, WillEnd, LeavesInStep, Ready, Rounds;
    var k;
    k, r := Turn(h, n, l, m, f);
    turns := 0;
    var first := r;
    if r.progress == Retry {
      turns, r := TurnsEnd(k, first.leader, l, first.follower, f);
    }
    TurnFirst(n, m, f, turns, first);
    turns := turns + 1;
  }

  // Nobody to lead, or a later term to learn of: the first turn returns False.
  lemma FalseAtOnce(h: History, n: NodeView, l: NodeId, m: NodeView, f: NodeId) returns (r: Round)
    requires Known(h, n, l, m, f) && !Ahead(n, m)
    ensures RetryRound(n, m, f) == Some(r) && r.progress == Return(false)
  {
    hide Lawful, NodeFaithful, ReceiveAppend, ReceiveSnapshot, ReceiveAppendReply, ReceiveSnapshotReply, Deposed;
    if n.state.role != Leader || n.replication == None {
      r := Round(n, m, Return(false));
    } else {
      LawfulConsistent(h);
      hide NextRequest, AppendTruthful, SnapshotTruthful, CommittedBy, Consistent, LeadersSafe, CommitsBacked;
      if n.log.baseIndex <= Prev(n, f) {
        var req := AppendSentIs(h, n, l, f);
        r := AppendDeposes(n, m, f, req);
      } else {
        var req := SnapshotSentIs(h, n, l, f);
        r := SnapshotDeposes(n, m, f, req);
      }
    }
  }

  lemma AppendDeposes(n: NodeView, m: NodeView, f: NodeId, req: AppendRequest) returns (r: Round)
    requires n.Sound() && m.Sound() && f in n.Followers() && NextRequest(n, f) == Some(SendAppend(req))
    requires StillLeading(n, req.term) && req.term < m.state.currentTerm
    ensures RetryRound(n, m, f) == Some(r) && r.progress == Return(false)
  {
    hide NextRequest;
    r := RetryRound(n, m, f).value;
  }

  lemma SnapshotDeposes(n: NodeView, m: NodeView, f: NodeId, req: SnapshotRequest) returns (r: Round)
    requires n.Sound() && m.Sound() && f in n.Followers() && NextRequest(n, f) == Some(SendSnapshot(req))
    requires StillLeading(n, req.term) && req.term < m.state.currentTerm
    ensures RetryRound(n, m, f) == Some(r) && r.progress == Return(false)
  {
    hide NextRequest;
    r := RetryRound(n, m, f).value;
  }

  // What the loop returns, once it does.
  lemma WhatItReturns(h: History, n: NodeView, l: NodeId, m: NodeView, f: NodeId) returns (turns: nat, r: Round)
    requires Known(h, n, l, m, f) && Returns(n, m, f)
    ensures Rounds(n, m, f, turns) == Some(r) && r.progress == Return(Ahead(n, m))
    ensures Ahead(n, m) ==> (InStep(r.leader, r.follower) <==> LeavesInStep(n, m, f))
  {
    hide NodeFaithful, Lawful, RetryRound, InStep, WillEnd, LeavesInStep, Rounds;
    if Ahead(n, m) {
      turns, r := TurnsEnd(h, n, l, m, f);
    } else {
      r := FalseAtOnce(h, n, l, m, f);
      turns := 1;
      TurnFirst(n, m, f, 0, r);
    }
  }

  // ---- When it does not ----

  lemma FailureSticks(n: NodeView, m: NodeView, n': NodeView, m': NodeView, f: NodeId)
    requires n.Sound() && m.Sound() && n'.Sound() && m'.Sound() && n.replication.Some? && f in n.Followers()
    requires !WillEnd(n, m, f) && n.log.baseIndex <= Prev(n, f)
    requires n' == n.(replication := Some(n.replication.value.RecordFailure(f))) && m'.log == m.log
    ensures !WillEnd(n', m', f)
  {
  }

  lemma SnapshotSticks(n: NodeView, m: NodeView, n': NodeView, m': NodeView, f: NodeId)
    requires n.Sound() && m.Sound() && n'.Sound() && m'.Sound() && n.replication.Some? && f in n.Followers()
    requires !WillEnd(n, m, f) && 0 <= Prev(n, f) < n.log.baseIndex < m.log.baseIndex
    requires n' == n.(replication := Some(n.replication.value.RecordMatch(f, n.log.baseIndex))) && m'.log == m.log
    ensures !WillEnd(n', m', f) && n'.replication.value.nextIndex[f] <= n.log.LastIndex()
  {
  }

  // The follower no longer has anything before its boundary to compare, or compares in vain.
  lemma StuckRefuses(h: History, n: NodeView, l: NodeId, m: NodeView, f: NodeId)
    requires Paired(h, n, l, m, f) && !WillEnd(n, m, f)
    ensures n.log.baseIndex < m.log.baseIndex
    ensures n.log.baseIndex <= Prev(n, f) ==> !HoldsPrev(n, m, f)
  {
    hide NodeFaithful, Lawful;
    SameBases(h, n, l, m, f);
    if n.log.baseIndex <= Prev(n, f) && HoldsPrev(n, m, f) {
      assert HeldAt(n, m, Prev(n, f));
      HeldAgrees(h, n, l, m, f, Prev(n, f));
    }
  }

  lemma StuckTurn(h: History, n: NodeView, l: NodeId, m: NodeView, f: NodeId) returns (k: History, r: Round)
    requires Paired(h, n, l, m, f) && !WillEnd(n, m, f)
    ensures RetryRound(n, m, f) == Some(r) && r.progress == Retry
    ensures Paired(k, r.leader, l, r.follower, f) && !WillEnd(r.leader, r.follower, f)
  {
    hide NodeFaithful, Lawful, RetryRound, InStep, HoldsPrev, WillEnd, SnapshotInstalled;
    NextIndexBounds(h, n, l, f);
    StuckRefuses(h, n, l, m, f);
    if n.log.baseIndex <= Prev(n, f) {
      k, r := AppendTurn(h, n, l, m, f);
      FailureSticks(n, m, r.leader, r.follower, f);
    } else {
      k, r := SnapshotTurn(h, n, l, m, f);
      InstalledBeyond(m.log, n.log.baseIndex, n.log.baseTerm, r.follower.log);
      SnapshotSticks(n, m, r.leader, r.follower, f);
    }
  }

  lemma {:induction false} StaysStuck(h: History, n: NodeView, l: NodeId, m: NodeView, f: NodeId, turns: nat)
    requires Paired(h, n, l, m, f) && !WillEnd(n, m, f)
    ensures Rounds(n, m, f, turns).Some? && Rounds(n, m, f, turns).value.progress == Retry
    decreases turns
  {
    hide NodeFaithful, Lawful, RetryRound, InStep, WillEnd, Rounds;
    NoTurns(n, m, f);
    if turns > 0 {
      var k, r := StuckTurn(h, n, l, m, f);
      StaysStuck(k, r.leader, l, r.follower, f, turns - 1);
      TurnFirst(n, m, f, turns - 1, r);
    }
  }

  // After any number of turns neither side has failed and the loop asks for another.
  ghost predicate GoesOn(n: NodeView, m: NodeView, f: NodeId)
    requires n.Sound() && m.Sound() && f in n.Followers()
  {
    forall turns: nat :: Rounds(n, m, f, turns).Some? && Rounds(n, m, f, turns).value.progress == Retry
  }

  // Exactly when the loop ends. It can go on for ever: leader and follower keep answering, and
  // nothing moves.
  lemma LoopEndsExactly(h: History, n: NodeView, l: NodeId, m: NodeView, f: NodeId)
    requires Known(h, n, l, m, f)
    ensures Ends(n, m, f) <==> Returns(n, m, f)
    ensures !Returns(n, m, f) ==> GoesOn(n, m, f)
  {
    hide NodeFaithful, Lawful, Rounds, WillEnd, LeavesInStep, InStep;
    if Returns(n, m, f) {
      var turns, r := WhatItReturns(h, n, l, m, f);
    } else {
      forall turns: nat ensures Rounds(n, m, f, turns).Some? && Rounds(n, m, f, turns).value.progress == Retry {
        StaysStuck(h, n, l, m, f, turns);
      }
    }
  }

  // True exactly where the node leads and the other is in no later term; and then in step, or not.
  ghost predicate EndsAs(n: NodeView, m: NodeView, f: NodeId)
    requires n.Sound() && m.Sound() && f in n.Followers()
  {
    exists turns: nat, r: Round :: Rounds(n, m, f, turns) == Some(r) && r.progress == Return(Ahead(n, m))
      && (Ahead(n, m) ==> (InStep(r.leader, r.follower) <==> LeavesInStep(n, m, f)))
  }

  // A leader that has committed its whole log, up to an entry of its own term, is never told True
  // by the loop while the follower lacks any of it.
  lemma CommittedLeavesInStep(h: History, n: NodeView, l: NodeId, m: NodeView, f: NodeId)
    requires Paired(h, n, l, m, f) && CommittedOwnTerm(n) && n.state.commitIndex == n.log.LastIndex()
    requires 0 < n.state.currentTerm
    ensures LeavesInStep(n, m, f)
  {
    var last := n.log.LastIndex();
    if n.replication.value.matchIndex[f] >= last {
      WholeLogHeld(h, n, l, m, f);
      hide NodeFaithful, Lawful, Represents, WellNumbered, Sourced, Rooted;
      KnownReads(h, n, l);
      KnownReads(h, m, f);
      if m.log.baseIndex <= last {
        RepresentedAt(n.log, h.Log(l), last);
        RepresentedAt(m.log, h.Log(f), last);
        assert h.Log(l)[last - 1] == h.Log(f)[last - 1];
      }
    }
  }

  lemma WholeLogHeld(h: History, n: NodeView, l: NodeId, m: NodeView, f: NodeId)
    requires Paired(h, n, l, m, f) && CommittedOwnTerm(n) && n.state.commitIndex == n.log.LastIndex()
    requires 0 < n.state.currentTerm && n.replication.value.matchIndex[f] >= n.log.LastIndex()
    ensures 0 < n.log.LastIndex() == |h.Log(l)| && h.Log(l) <= h.Log(f)
  {
    hide Lawful, NodeFaithful, ImageFaithful, LeaderFaithful, Rooted, CommitsBacked, AcksKept, Consistent, LeadersSafe;
    hide CommittedOwnTerm, Represents, WellNumbered, Sourced, NodeView.Sound;
    var t, last := n.state.currentTerm, |h.Log(l)|;
    WholeLogRead(h, n, l);
    WholeLogMatched(h, n, l, f);
    KnownReads(h, n, l);
    LawfulConsistent(h);
    var c := OwnEntryChosen(h, n, l, last);
    AckedChosenHeld(h, f, t, last);
    assert h.LeaderLog(t)[..last] == h.Log(l);
  }

  lemma WholeLogMatched(h: History, n: NodeView, l: NodeId, f: NodeId)
    requires NodeFaithful(h, n, l) && n.Sound() && n.state.role == Leader && n.replication.Some? && f in n.Followers()
    requires n.replication.value.matchIndex[f] >= |h.Log(l)| > 0 && TermOf(h.Log(l), |h.Log(l)|) == n.state.currentTerm
    ensures h.Acked(f, n.state.currentTerm, |h.Log(l)|) && h.LeaderLog(n.state.currentTerm) == h.Log(l)
    ensures ImageFaithful(h, n, l) && LeaderFaithful(h, n, l)
  {
    hide ImageFaithful;
    assert MatchFaithful(h, n, f) && n.state.nodeId == l by {
      assert ImageFaithful(h, n, l);
      ImageIsOwn(h, n, l);
    }
  }

  lemma ImageIsOwn(h: History, n: NodeView, l: NodeId)
    requires ImageFaithful(h, n, l)
    ensures n.state.nodeId == l
  {
  }

  lemma AckedChosenHeld(h: History, f: NodeId, t: int, i: int)
    requires Lawful(h) && h.Acked(f, t, i) && h.Fresh(t, i) && h.Chosen(t, i)
    ensures h.LeaderLog(t)[..i] <= h.Log(f)
  {
    hide Consistent, VotesSafe, LeadersSafe, CommitsBacked;
    ChosenIsChoosable(h, t, i);
    assert h.Safe(t, i, h.Log(f));
  }

  lemma WholeLogRead(h: History, n: NodeView, l: NodeId)
    requires Lawful(h) && NodeFaithful(h, n, l) && n.Sound() && CommittedOwnTerm(n)
    requires 0 < n.state.currentTerm && n.state.commitIndex == n.log.LastIndex()
    ensures 0 < n.log.LastIndex() == |h.Log(l)| && TermOf(h.Log(l), |h.Log(l)|) == n.state.currentTerm
  {
    hide VotesSafe, LeadersSafe, AcksKept, CommitsBacked, CandidateFaithful, LeaderFaithful, ReplicationFaithful;
    NodeReads(h, n, l);
    hide Consistent, Sourced;
    RepresentedAt(n.log, h.Log(l), n.log.LastIndex());
  }

  // The boundaries can only disagree at a node that has committed nothing past its boundary, as
  // one that stopped in the middle of installing a later leader's snapshot.
  lemma BoundariesAgree(h: History, n: NodeView, l: NodeId, m: NodeView, f: NodeId)
    requires Paired(h, n, l, m, f) && m.log.baseIndex < m.state.commitIndex
    ensures AgreeAtBase(n, m)
  {
    hide VotesSafe, AcksKept, Consistent, ReplicationFaithful, CandidateFaithful;
    var b := m.log.baseIndex;
    var t :| CertifiedBy(h, f, m.state.commitIndex, b, m.state.role, t);
    var p := h.Log(f)[..m.state.commitIndex];
    LeaderCompleteness(h, p, t, n.state.currentTerm);
    hide LeadersSafe, CommitsBacked;
    if n.log.baseIndex <= b {
      BoundaryEntry(h, n, l, m, f, p);
    }
  }

  lemma BoundaryEntry(h: History, n: NodeView, l: NodeId, m: NodeView, f: NodeId, p: seq<LogEntry>)
    requires Known(h, n, l, m, f) && n.log.baseIndex <= m.log.baseIndex <= |p| && p <= h.Log(f) && p <= h.Log(l)
    ensures AgreeAtBase(n, m)
  {
    hide Lawful, NodeFaithful, Sourced, Rooted, Numbered, WellNumbered;
    KnownReads(h, n, l);
    KnownReads(h, m, f);
    var b := m.log.baseIndex;
    RepresentedAt(n.log, h.Log(l), b);
    RepresentedAt(m.log, h.Log(f), b);
    assert b > 0 ==> h.Log(l)[b - 1] == p[b - 1] == h.Log(f)[b - 1];
  }

  // The same for any two nodes of a reachable cluster, with what the loop returns and leaves.
  // And the cases where two reachable nodes are as they should be: the boundaries agree once the
  // follower has committed anything past its own, and True always means in step to a leader that
  // has committed its whole log, up to an entry of its own term.
  lemma RetryLoopEnds(members: set<NodeId>, states: seq<Cluster>, events: seq<Event>, i: nat, l: NodeId, f: NodeId)
    requires RunFromStart(members, states, events) && i < |states|
    requires l in states[i].members && f in states[i].members && l != f
    ensures f in states[i].nodes[l].Followers()
    ensures var n, m := states[i].nodes[l], states[i].nodes[f];
      && (Ends(n, m, f) <==> Returns(n, m, f))
      && (if Ends(n, m, f) then EndsAs(n, m, f) else GoesOn(n, m, f))
      && (Ahead(n, m) && m.log.baseIndex < m.state.commitIndex ==> AgreeAtBase(n, m))
      && (Ahead(n, m) && CommittedOwnTerm(n) && n.state.commitIndex == n.log.LastIndex() ==> LeavesInStep(n, m, f))
  {
    hide GoesOn, AgreeAtBase, Step, Possible, Invariant, Grows, WillEnd, LeavesInStep, InStep, Ends, Rounds;
    hide NodeFaithful;
    hide CommittedOwnTerm;
    var hs := RunHasChronicle(members, states, events);
    var h, n, m := hs[i], states[i].nodes[l], states[i].nodes[f];
    FaithfulNode(h, states[i], l);
    FaithfulNode(h, states[i], f);
    InvariantLaws(h, states[i]);
    LoopEndsExactly(h, n, l, m, f);
    if Returns(n, m, f) {
      var turns, r := WhatItReturns(h, n, l, m, f);
    }
    if Ahead(n, m) && m.log.baseIndex < m.state.commitIndex {
      BoundariesAgree(h, n, l, m, f);
    }
    if Ahead(n, m) && CommittedOwnTerm(n) && n.state.commitIndex == n.log.LastIndex() {
      LeaderPositive(h, n, l);
      CommittedLeavesInStep(h, n, l, m, f);
    }
  }

  lemma LeaderPositive(h: History, n: NodeView, l: NodeId)
    requires Lawful(h) && NodeFaithful(h, n, l) && n.state.role == Leader
    ensures 0 < n.state.currentTerm
  {
    ReignPositive(h, n.state.currentTerm);
  }

  // ---- The loop itself ----

  // The two kinds of turn in place: the follower answers, the leader takes the answer.
  method AppendInPlace(leader: RaftNode, f: NodeId, follower: RaftNode, req: AppendRequest) returns (progress: Progress)
    requires leader.Valid() && follower.Valid() && leader.Parts() !! follower.Parts() && f in leader.View().Followers()
    requires ReceiveAppend(follower.View(), req).Some?
    modifies leader.Parts(), follower.Parts()
    ensures leader.Valid() && follower.Valid() && leader.Parts() !! follower.Parts()
    ensures fresh(leader.Parts() - old(leader.Parts())) && fresh(follower.Parts() - old(follower.Parts()))
    ensures var e := ReceiveAppend(old(follower.View()), req).value;
      var a := ReceiveAppendReply(old(leader.View()), f, req, e.reply);
      follower.View() == e.node && leader.View() == a.node && progress == a.reply
  {
    hide ReceiveAppend, ReceiveAppendReply, PerformAll, NodeView.Sound;
    hide RaftNode.Valid, RaftNode.View;
    var reply := follower.HandleAppendEntries(req);
    Untouched(leader);
    ghost var theirs := follower.Parts();
    label answered:
    progress := leader.TakeAppendReply(f, req, reply.value);
    Untouched@answered(follower);
  }

  method SnapshotInPlace(leader: RaftNode, f: NodeId, follower: RaftNode, req: SnapshotRequest)
    returns (progress: Progress)
    requires leader.Valid() && follower.Valid() && leader.Parts() !! follower.Parts() && f in leader.View().Followers()
    requires ReceiveSnapshot(follower.View(), req).Some?
    modifies leader.Parts(), follower.Parts()
    ensures leader.Valid() && follower.Valid() && leader.Parts() !! follower.Parts()
    ensures fresh(leader.Parts() - old(leader.Parts())) && fresh(follower.Parts() - old(follower.Parts()))
    ensures var e := ReceiveSnapshot(old(follower.View()), req).value;
      var a := ReceiveSnapshotReply(old(leader.View()), f, req, e.reply);
      follower.View() == e.node && leader.View() == a.node && progress == a.reply
  {
    hide ReceiveSnapshot, ReceiveSnapshotReply, PerformAll, NodeView.Sound;
    hide RaftNode.Valid, RaftNode.View;
    var reply := follower.HandleInstallSnapshot(req);
    Untouched(leader);
    ghost var theirs := follower.Parts();
    label answered:
    progress := leader.TakeSnapshotReply(f, req, reply.value);
    Untouched@answered(follower);
  }

  lemma AppendRound(n: NodeView, m: NodeView, f: NodeId, req: AppendRequest)
    requires n.Sound() && m.Sound() && f in n.Followers() && RetryRound(n, m, f).Some?
    requires NextRequest(n, f) == Some(SendAppend(req))
    ensures ReceiveAppend(m, req).Some?
    ensures var e := ReceiveAppend(m, req).value;
      var a := ReceiveAppendReply(n, f, req, e.reply);
      RetryRound(n, m, f) == Some(Round(a.node, e.node, a.reply))
  {
  }

  lemma SnapshotRound(n: NodeView, m: NodeView, f: NodeId, req: SnapshotRequest)
    requires n.Sound() && m.Sound() && f in n.Followers() && RetryRound(n, m, f).Some?
    requires NextRequest(n, f) == Some(SendSnapshot(req))
    ensures ReceiveSnapshot(m, req).Some?
    ensures var e := ReceiveSnapshot(m, req).value;
      var a := ReceiveSnapshotReply(n, f, req, e.reply);
      RetryRound(n, m, f) == Some(Round(a.node, e.node, a.reply))
  {
  }

  lemma IdleRound(n: NodeView, m: NodeView, f: NodeId)
    requires n.Sound() && m.Sound() && f in n.Followers() && RetryRound(n, m, f).Some?
    ensures NextRequest(n, f).Some?
    ensures NextRequest(n, f) == Some(Idle) ==> RetryRound(n, m, f) == Some(Round(n, m, Return(false)))
  {
  }

  // One turn in place: build a request, and let the follower answer it.
  method OneTurn(leader: RaftNode, f: NodeId, follower: RaftNode) returns (progress: Progress)
    requires leader.Valid() && follower.Valid() && leader.Parts() !! follower.Parts() && f in leader.View().Followers()
    requires RetryRound(leader.View(), follower.View(), f).Some?
    modifies leader.Parts(), follower.Parts()
    ensures leader.Valid() && follower.Valid() && leader.Parts() !! follower.Parts()
    ensures fresh(leader.Parts() - old(leader.Parts())) && fresh(follower.Parts() - old(follower.Parts()))
    ensures RetryRound(old(leader.View()), old(follower.View()), f)
         == Some(Round(leader.View(), follower.View(), progress))
  {
    hide NextRequest, ReceiveAppend, ReceiveAppendReply, ReceiveSnapshot, ReceiveSnapshotReply, NodeView.Sound;
    hide RetryRound;
    hide RaftNode.Valid, RaftNode.View;
    ghost var n, m := leader.View(), follower.View();
    IdleRound(n, m, f);
    var out := leader.NextRequestTo(f);
    Untouched(leader);
    Untouched(follower);
    match out.value {
      case Idle => progress := Return(false);
      case SendAppend(req) =>
        AppendRound(n, m, f, req);
        progress := AppendInPlace(leader, f, follower, req);
      case SendSnapshot(req) =>
        SnapshotRound(n, m, f, req);
        progress := SnapshotInPlace(leader, f, follower, req);
    }
  }

  // _replicate_to_follower over a transport that reaches the follower at once. Wherever it ends
  // at all it returns True exactly for a leader of no earlier term, and leaves the logs in step
  // exactly as foretold.
  method ReplicateToFollower(leader: RaftNode, f: NodeId, follower: RaftNode, ghost h: History, ghost l: NodeId)
    returns (result: bool)
    requires leader.Valid() && follower.Valid() && leader.Parts() !! follower.Parts()
    requires Known(h, leader.View(), l, follower.View(), f) && Returns(leader.View(), follower.View(), f)
    modifies leader.Parts(), follower.Parts()
    ensures leader.Valid() && follower.Valid()
    ensures result <==> old(Ahead(leader.View(), follower.View()))
    ensures result ==>
              (InStep(leader.View(), follower.View()) <==> old(LeavesInStep(leader.View(), follower.View(), f)))
  {
    hide NodeFaithful, Lawful, RetryRound, InStep, WillEnd, LeavesInStep, Ready, Closer, RaftNode.Valid, RaftNode.View;
    hide NodeView.Sound;
    ghost var k, n, m := h, leader.View(), follower.View();
    ghost var ours, theirs := leader.Parts(), follower.Parts();
    ghost var ahead := Ahead(n, m);
    ghost var inStep := ahead && LeavesInStep(n, m, f);
    while true
      invariant leader.Valid() && follower.Valid()
      invariant ours == leader.Parts() && theirs == follower.Parts() && ours !! theirs
      invariant fresh(ours - old(leader.Parts())) && fresh(theirs - old(follower.Parts()))
      invariant n == leader.View() && m == follower.View() && Known(k, n, l, m, f) && Returns(n, m, f)
      invariant Ahead(n, m) == ahead && (ahead ==> inStep == LeavesInStep(n, m, f))
      decreases Left(n, m, f).0, Left(n, m, f).1
    {
      ghost var next, r;
      if ahead {
        next, r := Turn(k, n, l, m, f);
      } else {
        r := FalseAtOnce(k, n, l, m, f);
      }
      var progress := OneTurn(leader, f, follower);
      if progress.Return? {
        return progress.result;
      }
      CloserEnds(n, m, r.leader, r.follower, f);
      k, n, m := next, r.leader, r.follower;
      ours, theirs := leader.Parts(), follower.Parts();
    }
  }

  // How far the loop has to go.
  function Left(n: NodeView, m: NodeView, f: NodeId): (int, int)
    requires n.Sound() && m.Sound() && f in n.Followers()
  {
    if n.replication == None then (0, 0)
    else (if Ready(n, m, f) then 0 else 1, n.replication.value.nextIndex[f])
  }

  lemma CloserEnds(n: NodeView, m: NodeView, n': NodeView, m': NodeView, f: NodeId)
    requires n.Sound() && m.Sound() && n'.Sound() && m'.Sound()
    requires n.replication.Some? && n'.replication.Some? && f in n.Followers() && f in n'.Followers()
    requires Closer(n, m, n', m', f)
    ensures WillEnd(n', m', f) && (LeavesInStep(n', m', f) <==> LeavesInStep(n, m, f))
    ensures Left(n', m', f).0 < Left(n, m, f).0
         || (Left(n', m', f).0 == Left(n, m, f).0 && 0 <= Left(n', m', f).1 < Left(n, m, f).1)
  {
  }
}

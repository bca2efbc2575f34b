// What a leader does keeps the invariant: its requests are truthful, its match indexes stay
// truthful, it commits only what a majority acknowledged in its own term, and what it
// appends extends the log of its term.

module LeaderProof {
  import opened Prelude
  import opened Types
  import opened History
  import opened HistorySteps
  import opened RaftLogs
  import opened RaftStates
  import opened StateMachines
  import opened Leaders
  import opened Journals
  import opened Nodes
  import opened Agreement
  import opened ElectionProof

  // ---- _replicate_to_follower: building a request ----

  lemma LeaderCommittedBy(h: History, n: NodeView, id: NodeId, i: int)
    requires Certified(h, id, n.state.commitIndex, n.log.baseIndex, Leader)
    requires h.LeaderLog(h.Term(id)) == h.Log(id) && 0 <= i <= n.state.commitIndex
    ensures CommittedBy(h, h.Term(id), i)
  {
    var u :| CertifiedBy(h, id, n.state.commitIndex, n.log.baseIndex, Leader, u);
    assert h.Log(id)[..n.state.commitIndex][..i] == h.Log(id)[..i];
    assert h.CommittedIn(h.LeaderLog(h.Term(id))[..i], u);
  }

  ghost predicate OutgoingTruthful(h: History, o: Outgoing) {
    match o
    case Idle => true
    case SendAppend(req) => AppendTruthful(h, req) && CommittedBy(h, req.term, req.leaderCommit)
    case SendSnapshot(req) => SnapshotTruthful(h, req) && CommittedBy(h, req.term, req.lastIncludedIndex)
  }

  lemma SnapshotSent(h: History, n: NodeView, id: NodeId, f: NodeId)
    requires n.Sound() && NodeFaithful(h, n, id) && f in n.Followers()
    requires n.state.role == Leader && n.replication.Some? && n.replication.value.nextIndex[f] <= n.log.baseIndex
    ensures NextRequest(n, f).Some? && OutgoingTruthful(h, NextRequest(n, f).value)
  {
    assert MatchFaithful(h, n, f);
    var u :| CertifiedBy(h, id, n.state.commitIndex, n.log.baseIndex, Leader, u);
    LeaderCommittedBy(h, n, id, n.log.baseIndex);
  }

  lemma RequestIs(n: NodeView, full: seq<LogEntry>, f: NodeId)
    requires n.Sound() && WellNumbered(full) && Represents(n.log, full) && f in n.Followers()
    requires n.state.role == Leader && n.replication.Some?
    requires n.log.baseIndex < n.replication.value.nextIndex[f] <= |full| + 1
    ensures var prev := n.replication.value.nextIndex[f] - 1;
      NextRequest(n, f) == Some(SendAppend(AppendRequest(
        n.state.currentTerm, n.state.nodeId, prev, TermOf(full, prev), full[prev..], n.state.commitIndex)))
  {
    var next := n.replication.value.nextIndex[f];
    RepresentedAt(n.log, full, next - 1);
    RepresentedFrom(n.log, full, next);
    hide WellNumbered, Represents, LogView.TermAt, LogView.EntriesFrom, LogView.Get;
  }

  lemma AppendSent(h: History, n: NodeView, id: NodeId, f: NodeId)
    requires Consistent(h) && n.Sound() && NodeFaithful(h, n, id) && f in n.Followers()
    requires n.state.role == Leader && n.replication.Some? && n.replication.value.nextIndex[f] > n.log.baseIndex
    ensures NextRequest(n, f).Some? && OutgoingTruthful(h, NextRequest(n, f).value)
  {
    hide Consistent, WellNumbered, Sourced, Represents, SnapshotOf, CommittedBy, NextRequest;
    var full := h.Log(id);
    NodeReads(h, n, id);
    assert MatchFaithful(h, n, f);
    LeaderCommittedBy(h, n, id, n.state.commitIndex);
    RequestIs(n, full, f);
  }

  // Building a request never raises, and what is sent is true.
  lemma NextRequestTruthful(h: History, n: NodeView, id: NodeId, f: NodeId)
    requires Consistent(h) && n.Sound() && NodeFaithful(h, n, id) && f in n.Followers()
    ensures NextRequest(n, f).Some? && OutgoingTruthful(h, NextRequest(n, f).value)
  {
    hide Consistent, NodeFaithful, OutgoingTruthful;
    if n.state.role == Leader && n.replication.Some? {
      if n.replication.value.nextIndex[f] <= n.log.baseIndex {
        SnapshotSent(h, n, id, f);
      } else {
        AppendSent(h, n, id, f);
      }
    } else {
      IdleTruthful(h);
    }
  }

  lemma IdleTruthful(h: History)
    ensures OutgoingTruthful(h, Idle)
  {
  }

  // ---- _replicate_to_follower: a response comes back ----

  lemma StepsDown(h: History, n: NodeView, id: NodeId, term: int) returns (k: History)
    requires Lawful(h) && NodeFaithful(h, n, id) && n.state.currentTerm <= term
    ensures Continues(h, k, id)
    ensures NodeFaithful(k, n.(state := n.state.BecomeFollower(term, None), replication := None), id)
  {
    hide Lawful, Continues, ImageFaithful;
    k := FollowsLater(h, n, id, term, None);
    Unreplicated(k, n.(state := n.state.BecomeFollower(term, None)), id);
  }

  lemma Unreplicated(h: History, n: NodeView, id: NodeId)
    requires ImageFaithful(h, n, id) && n.state.role == Follower
    ensures NodeFaithful(h, n.(replication := None), id)
  {
  }

  // An acknowledged index is recorded truthfully.
  lemma MatchRecorded(h: History, n: NodeView, id: NodeId, f: NodeId, e: int)
    requires NodeFaithful(h, n, id) && n.Sound() && n.replication.Some? && f in n.Followers()
    requires n.state.role == Leader && 0 <= e <= |h.LeaderLog(n.state.currentTerm)|
    requires h.Acked(f, n.state.currentTerm, e)
    ensures NodeFaithful(h, n.(replication := Some(n.replication.value.RecordMatch(f, e))), id)
  {
    var m := n.(replication := Some(n.replication.value.RecordMatch(f, e)));
    assert ReplicationFaithful(h, m) by {
      forall g | g in m.Followers() ensures MatchFaithful(h, m, g) {
        assert MatchFaithful(h, n, g);
      }
    }
  }

  lemma FailureRecorded(h: History, n: NodeView, id: NodeId, f: NodeId)
    requires NodeFaithful(h, n, id) && n.Sound() && n.replication.Some? && f in n.Followers()
    ensures NodeFaithful(h, n.(replication := Some(n.replication.value.RecordFailure(f))), id)
  {
    var m := n.(replication := Some(n.replication.value.RecordFailure(f)));
    assert ReplicationFaithful(h, m) by {
      forall g | g in m.Followers() ensures MatchFaithful(h, m, g) {
        assert MatchFaithful(h, n, g);
      }
    }
  }

  // What a successful request matched is where its entries end.
  lemma SuccessIndex(h: History, req: AppendRequest)
    requires Numbered(h.reigns) && AppendTruthful(h, req)
    ensures (if req.entries != [] then req.entries[|req.entries| - 1].index else req.prevLogIndex)
         == req.prevLogIndex + |req.entries|
  {
    var l := h.LeaderLog(req.term);
    assert WellNumbered(l);
    if req.entries != [] {
      assert req.entries[|req.entries| - 1] == l[req.prevLogIndex + |req.entries| - 1];
    }
  }

  function SteppedDown(n: NodeView, term: int): NodeView {
    n.(state := n.state.BecomeFollower(term, None), replication := None)
  }

  lemma AppendReplyIs(n: NodeView, f: NodeId, req: AppendRequest, reply: ReplicationReply)
    requires n.Sound() && f in n.Followers() && StillLeading(n, req.term)
    requires (if req.entries != [] then req.entries[|req.entries| - 1].index else req.prevLogIndex)
          == req.prevLogIndex + |req.entries|
    ensures var r := n.replication.value;
      ReceiveAppendReply(n, f, req, reply).node
      == if reply.term > n.state.currentTerm then SteppedDown(n, reply.term)
         else n.(replication := Some(
           if reply.success then r.RecordMatch(f, req.prevLogIndex + |req.entries|) else r.RecordFailure(f)))
  {
  }

  lemma AppendReplyKeeps(h: History, n: NodeView, id: NodeId, f: NodeId, req: AppendRequest, reply: ReplicationReply)
    returns (k: History)
    requires Lawful(h) && n.Sound() && NodeFaithful(h, n, id) && f in n.Followers() && AppendTruthful(h, req)
    requires reply.success ==> h.Acked(f, req.term, req.prevLogIndex + |req.entries|)
    ensures Continues(h, k, id) && NodeFaithful(k, ReceiveAppendReply(n, f, req, reply).node, id)
  {
    hide Rooted, NodeFaithful, Elected, LateCandidatesFail, VotesSafe, AcksKept, LeadersSafe, CommitsBacked, Grows;
    hide Local;
    hide Numbered;
    k := h;
    ContinuesItself(h, id);
    if StillLeading(n, req.term) {
      SuccessIndex(h, req);
      AppendReplyIs(n, f, req, reply);
      hide ReceiveAppendReply;
      if reply.term > n.state.currentTerm {
        k := StepsDown(h, n, id, reply.term);
      } else if reply.success {
        MatchRecorded(h, n, id, f, req.prevLogIndex + |req.entries|);
      } else {
        FailureRecorded(h, n, id, f);
      }
    }
  }

  lemma SnapshotReplyKeeps(h: History, n: NodeView, id: NodeId, f: NodeId, req: SnapshotRequest,
                           reply: ReplicationReply)
    returns (k: History)
    requires Lawful(h) && n.Sound() && NodeFaithful(h, n, id) && f in n.Followers() && SnapshotTruthful(h, req)
    requires reply.success ==> h.Acked(f, req.term, req.lastIncludedIndex)
    ensures Continues(h, k, id) && NodeFaithful(k, ReceiveSnapshotReply(n, f, req, reply).node, id)
  {
    hide Consistent, NodeFaithful, VotesSafe, AcksKept, LeadersSafe, CommitsBacked, Grows, Local;
    if StillLeading(n, req.term) && reply.term > n.state.currentTerm {
      k := StepsDown(h, n, id, reply.term);
    } else {
      k := h;
      ContinuesItself(h, id);
      if StillLeading(n, req.term) && reply.success {
        MatchRecorded(h, n, id, f, req.lastIncludedIndex);
      }
    }
  }

  lemma AppendReplySaved(n: NodeView, d: Disk, f: NodeId, req: AppendRequest, reply: ReplicationReply)
    requires n.Sound() && DiskMatches(n, d) && f in n.Followers()
    ensures DiskMatches(ReceiveAppendReply(n, f, req, reply).node,
                        PerformAll(d, ReceiveAppendReply(n, f, req, reply).writes))
  {
    var e := ReceiveAppendReply(n, f, req, reply);
    if e.writes != [] {
      StateSaved(n, d, e.node);
    }
  }

  lemma SnapshotReplySaved(n: NodeView, d: Disk, f: NodeId, req: SnapshotRequest, reply: ReplicationReply)
    requires n.Sound() && DiskMatches(n, d) && f in n.Followers()
    ensures DiskMatches(ReceiveSnapshotReply(n, f, req, reply).node,
                        PerformAll(d, ReceiveSnapshotReply(n, f, req, reply).writes))
  {
    var e := ReceiveSnapshotReply(n, f, req, reply);
    if e.writes != [] {
      StateSaved(n, d, e.node);
    }
  }

  // ---- replicate_log: committing ----

  // From an entry of its own term on, everything in a leader's log is of its own term.
  lemma OwnTermOnwards(h: History, t: int, q: int, m: int)
    requires Rooted(h.reigns) && t in h.reigns && 0 < q <= m <= |h.LeaderLog(t)| && h.LeaderLog(t)[q - 1].term == t
    ensures h.LeaderLog(t)[m - 1].term == t
  {
    var l := h.LeaderLog(t);
    assert RootedAt(h.reigns, t, m - 1);
    LeaderLogSourced(h, t);
    PrefixSourced(h, l, m);
    TermsBounded(h, l[..m], q - 1);
  }

  // Section 5.4.2: an entry of the leader's own term, matched by a majority, is chosen.
  lemma QuorumChooses(h: History, n: NodeView, id: NodeId, q: int)
    requires Rooted(h.reigns) && n.Sound() && NodeFaithful(h, n, id) && n.state.role == Leader && n.replication.Some?
    requires 0 < q <= |h.Log(id)| && h.Log(id)[q - 1].term == n.state.currentTerm
    requires |Holders(id, |h.Log(id)|, n.replication.value.matchIndex, q)| >= |h.members| / 2 + 1
    ensures h.Fresh(n.state.currentTerm, q) && h.Chosen(n.state.currentTerm, q)
  {
    var t := n.state.currentTerm;
    var holders := Holders(id, |h.Log(id)|, n.replication.value.matchIndex, q);
    forall v | v in holders ensures v in h.Supporters(t, q) {
      if v != id {
        assert MatchFaithful(h, n, v);
        OwnTermOnwards(h, t, q, n.replication.value.matchIndex[v]);
      }
    }
    MajorityGrows(holders, h.Supporters(t, q), h.members);
  }

  function Committed(n: NodeView, q: int, store: Store): NodeView {
    n.(state := n.state.(commitIndex := q, lastApplied := q), store := store)
  }

  lemma LeaderCommits(h: History, n: NodeView, id: NodeId, q: int) returns (k: History)
    requires Lawful(h) && n.Sound() && NodeFaithful(h, n, id) && n.state.role == Leader && n.replication.Some?
    requires n.state.commitIndex < q <= |h.Log(id)| && h.Log(id)[q - 1].term == n.state.currentTerm
    requires |Holders(id, |h.Log(id)|, n.replication.value.matchIndex, q)| >= |h.members| / 2 + 1
    ensures Continues(h, k, id) && NodeFaithful(k, Committed(n, q, Fold(map[], h.Log(id)[..q])), id)
    ensures k.Chosen(n.state.currentTerm, q)
  {
    hide VotesSafe, AcksKept, LeadersSafe, CommitsBacked, Elected, LateCandidatesFail;
    QuorumChooses(h, n, id, q);
    k := Commit(h, n.state.currentTerm, q);
    CommitLawful(h, n.state.currentTerm, q);
    ChosenStays(h, k, n.state.currentTerm, q);
    hide Consistent;
    CommittedFaithful(h, k, n, id, q);
  }

  lemma CommittedFaithful(h: History, k: History, n: NodeView, id: NodeId, q: int)
    requires n.Sound() && NodeFaithful(h, n, id) && n.state.role == Leader && Grows(h, k)
    requires n.state.commitIndex < q <= |h.Log(id)| && k == Commit(h, n.state.currentTerm, q)
    ensures NodeFaithful(k, Committed(n, q, Fold(map[], h.Log(id)[..q])), id)
  {
    var m := Committed(n, q, Fold(map[], h.Log(id)[..q]));
    assert Certified(k, id, q, n.log.baseIndex, Leader) by {
      var u :| CertifiedBy(h, id, n.state.commitIndex, n.log.baseIndex, Leader, u);
      assert CertifiedBy(k, id, q, n.log.baseIndex, Leader, n.state.currentTerm);
    }
    MatchesKept(h, k, n, m);
  }

  predicate OwnEntry(full: seq<LogEntry>, term: int, commit: int, q: int) {
    commit < q <= |full| && (q > 0 ==> full[q - 1].term == term)
  }

  lemma AdvanceCommitIs(state: StateView, log: LogView, full: seq<LogEntry>, q: int)
    requires WellNumbered(full) && Represents(log, full) && log.WellFormed() && log.baseIndex <= state.commitIndex
    ensures AdvanceCommit(state, log, q)
         == if OwnEntry(full, state.currentTerm, state.commitIndex, q) then state.(commitIndex := q) else state
  {
    RepresentedAt(log, full, q);
  }

  // The last region of replicate_log: nothing to commit, or commit and apply up to q.
  lemma AdvanceIs(n: NodeView, full: seq<LogEntry>, q: int)
    requires n.Sound() && WellNumbered(full) && DataFaithful(full, n.log, n.snapshot, n.store, n.state.commitIndex)
    requires n.log.baseIndex <= n.state.commitIndex && n.state.lastApplied == n.state.commitIndex
    requires n.state.role == Leader && n.replication.Some?
    ensures AdvanceAndApply(n, q)
      == if OwnEntry(full, n.state.currentTerm, n.state.commitIndex, q) then
           Some(Effect(Committed(n, q, Fold(map[], full[..q])), [SaveStateOf(n.state.(commitIndex := q))], true))
         else Some(Effect(n, [], true))
  {
    hide AdvanceCommit, WellNumbered, Fold;
    AdvanceCommitIs(n.state, n.log, full, q);
    if OwnEntry(full, n.state.currentTerm, n.state.commitIndex, q) {
      AppliesFold(n.state.(commitIndex := q), n.log, n.store, full);
    }
  }

  lemma LeaderReads(h: History, n: NodeView, id: NodeId)
    requires Consistent(h) && n.Sound() && ImageFaithful(h, n, id)
    ensures WellNumbered(h.Log(id)) && n.log.baseIndex <= n.state.commitIndex && n.log.LastIndex() == |h.Log(id)|
  {
    NodeReads(h, n, id);
    var u :| CertifiedBy(h, id, n.state.commitIndex, n.log.baseIndex, n.state.role, u);
  }

  lemma AdvanceKeeps(h: History, n: NodeView, id: NodeId, q: int) returns (k: History)
    requires Lawful(h) && n.Sound() && NodeFaithful(h, n, id)
    requires n.replication.Some? ==>
      IsQuorumIndex(id, n.log.LastIndex(), n.replication.value.matchIndex, |h.members|, q)
    ensures Continues(h, k, id) && AdvanceAndApply(n, q).Some? && NodeFaithful(k, AdvanceAndApply(n, q).value.node, id)
  {
    hide Consistent, VotesSafe, AcksKept, LeadersSafe, CommitsBacked, Grows, Local, AdvanceAndApply, Fold;
    if n.state.role == Leader && n.replication.Some? {
      LeaderReads(h, n, id);
      AdvanceIs(n, h.Log(id), q);
      if OwnEntry(h.Log(id), n.state.currentTerm, n.state.commitIndex, q) {
        k := LeaderCommits(h, n, id, q);
      } else {
        k := h;
        ContinuesItself(h, id);
      }
    } else {
      AdvanceIdle(n, q);
      k := h;
      ContinuesItself(h, id);
    }
  }

  lemma AdvanceIdle(n: NodeView, q: int)
    requires n.Sound() && (n.state.role != Leader || n.replication == None)
    ensures AdvanceAndApply(n, q) == Some(Effect(n, [], false))
  {
  }

  lemma AdvanceSaved(n: NodeView, d: Disk, q: int)
    requires n.Sound() && DiskMatches(n, d) && AdvanceAndApply(n, q).Some?
    ensures DiskMatches(AdvanceAndApply(n, q).value.node, PerformAll(d, AdvanceAndApply(n, q).value.writes))
    ensures |AdvanceAndApply(n, q).value.writes| <= 1
  {
    var e := AdvanceAndApply(n, q).value;
    if e.writes != [] {
      StateSaved(n, d, e.node);
    }
  }

  // Reading applies nothing that is not applied already.
  lemma ReadIs(h: History, n: NodeView, id: NodeId)
    requires n.Sound() && ImageFaithful(h, n, id)
    ensures ApplyForRead(n) == Some(Effect(n, [], true))
  {
  }

  // ---- submit_commands ----

  lemma {:induction false} AppendAllIs(log: LogView, full: seq<LogEntry>, term: int, commands: seq<Command>)
    returns (es: seq<LogEntry>)
    requires WellNumbered(full) && Represents(log, full) && log.WellFormed() && 0 <= term
    requires forall c :: c in commands ==> Applicable(c)
    ensures |es| == |commands| && WellNumbered(full + es) && Represents(AppendAll(log, term, commands), full + es)
    ensures forall j :: 0 <= j < |es| ==> es[j] == LogEntry(|full| + 1 + j, term, commands[j])
    ensures AppendAll(log, term, commands) == log.(entries := log.entries + es)
    decreases |commands|
  {
    if commands == [] {
      es := [];
      assert full + es == full && log.entries + es == log.entries;
    } else {
      var c := commands[|commands| - 1];
      assert Applicable(c);
      var init := AppendAllIs(log, full, term, commands[..|commands| - 1]);
      var e := LogEntry(|full| + |init| + 1, term, c);
      es := init + [e];
      AppendsOne(AppendAll(log, term, commands[..|commands| - 1]), full + init, term, c);
      assert full + es == full + init + [e];
      assert log.entries + es == log.entries + init + [e];
    }
  }

  lemma AppendsOne(log: LogView, full: seq<LogEntry>, term: int, c: Command)
    requires WellNumbered(full) && Represents(log, full) && 0 <= term && Applicable(c)
    ensures var e := LogEntry(|full| + 1, term, c);
      WellNumbered(full + [e]) && Represents(log.Append(term, c), full + [e])
      && log.Append(term, c) == log.(entries := log.entries + [e])
  {
    RepresentedReads(log, full);
    RepresentedAppend(log, full, term, c);
  }

  function Appending(h: History, id: NodeId, es: seq<LogEntry>): History
    requires h.Term(id) in h.reigns
  {
    Adopt(Extend(h, h.Term(id), es), id, h.Log(id) + es)
  }

  ghost predicate MayAppend(h: History, id: NodeId, es: seq<LogEntry>) {
    var t := h.Term(id);
    id in h.members && t in h.reigns && h.reigns[t].leader == id && h.LeaderLog(t) == h.Log(id) && MayExtend(h, t, es)
  }

  lemma AppendingContinues(h: History, id: NodeId, es: seq<LogEntry>)
    requires Lawful(h) && MayAppend(h, id, es)
    ensures Continues(h, Appending(h, id, es), id)
    ensures Appending(h, id, es).LeaderLog(h.Term(id)) == h.Log(id) + es
  {
    hide Consistent, VotesSafe, AcksKept, LeadersSafe, CommitsBacked, WellNumbered;
    var t := h.Term(id);
    var k := Extend(h, t, es);
    ExtendGrows(h, t, es);
    ExtendLawful(h, t, es);
    assert MayAdopt(k, id, t, h.Log(id) + es);
    AdoptGrows(k, id, h.Log(id) + es);
    AdoptLawful(k, id, t, h.Log(id) + es);
    hide Grows, Local;
    ContinuesTransitively(h, k, Appending(h, id, es), id);
  }

  // The leader's own records count as acknowledged once they are all written.
  lemma AppendedContinues(h: History, id: NodeId, es: seq<LogEntry>) returns (k: History)
    requires Lawful(h) && MayAppend(h, id, es)
    ensures k == Acknowledge(Appending(h, id, es), id, |h.Log(id) + es|)
    ensures Continues(h, k, id) && k.Acked(id, h.Term(id), |h.Log(id) + es|)
  {
    hide Consistent, VotesSafe, AcksKept, LeadersSafe, CommitsBacked, WellNumbered, Grows, Local, MayExtend;
    var k0 := Appending(h, id, es);
    AppendingContinues(h, id, es);
    var all := |h.Log(id) + es|;
    assert k0.LeaderLog(h.Term(id))[..all] == k0.Log(id);
    k := Acknowledge(k0, id, all);
    AcknowledgeGrows(k0, id, all);
    AcknowledgeLawful(k0, id, all);
    ContinuesTransitively(h, k0, k, id);
  }

  lemma AppendedFaithful(h: History, k: History, n: NodeView, id: NodeId, es: seq<LogEntry>, log: LogView)
    requires NodeFaithful(h, n, id) && n.state.role == Leader && n.log.WellFormed() && Grows(h, k)
    requires h.Term(id) in h.reigns && k == Acknowledge(Appending(h, id, es), id, |h.Log(id) + es|)
    requires k.LeaderLog(h.Term(id)) == h.Log(id) + es && k.Acked(id, h.Term(id), |h.Log(id) + es|)
    requires Represents(log, h.Log(id) + es) && log.baseIndex == n.log.baseIndex
    ensures NodeFaithful(k, n.(log := log), id)
  {
    var m := n.(log := log);
    AppendedImage(h, k, n, id, es, log);
    AppendedMatches(h, k, n, id, es, log);
  }

  lemma AppendedMatches(h: History, k: History, n: NodeView, id: NodeId, es: seq<LogEntry>, log: LogView)
    requires ReplicationFaithful(h, n) && n.state.nodeId == id && Grows(h, k) && k.Log(id) == h.Log(id) + es
    ensures ReplicationFaithful(k, n.(log := log))
  {
    if n.replication.Some? {
      forall f | f in n.Followers() ensures MatchFaithful(k, n.(log := log), f) {
        assert MatchFaithful(h, n, f);
        var m := n.replication.value.matchIndex[f];
        assert TermOf(k.Log(id), m) == TermOf(h.Log(id), m);
      }
    }
  }

  lemma AppendedImage(h: History, k: History, n: NodeView, id: NodeId, es: seq<LogEntry>, log: LogView)
    requires ImageFaithful(h, n, id) && Grows(h, k) && k.terms == h.terms && k.votes == h.votes
    requires k.Log(id) == h.Log(id) + es && k.candidacies == h.candidacies
    requires Represents(log, h.Log(id) + es) && log.baseIndex == n.log.baseIndex
    ensures ImageFaithful(k, n.(log := log), id)
  {
    var commit := n.state.commitIndex;
    assert k.Log(id)[..commit] == h.Log(id)[..commit];
    assert SnapshotOf(n.snapshot, k.Log(id)) by {
      assert k.Log(id)[..n.snapshot.index] == h.Log(id)[..n.snapshot.index];
      if n.snapshot.index > 0 {
        assert k.Log(id)[n.snapshot.index - 1] == h.Log(id)[n.snapshot.index - 1];
      }
    }
    var u :| CertifiedBy(h, id, commit, n.log.baseIndex, n.state.role, u);
    CommittedStays(h, k, h.Log(id)[..commit], u);
    assert CertifiedBy(k, id, commit, n.log.baseIndex, n.state.role, u);
  }
}

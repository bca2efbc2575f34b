// handle_install_snapshot keeps the invariant: a truthful snapshot is never refused by a
// node of its term or an earlier one, and installing it never loses a committed entry.

module SnapshotProof {
  import opened Prelude
  import opened Types
  import opened History
  import opened HistorySteps
  import opened RaftLogs
  import opened StateMachines
  import opened Replications
  import opened Journals
  import opened Nodes
  import opened Agreement
  import opened ElectionProof
  import opened RecoveryProof
  import opened AppendProof

  // The prefix of the leader's log a snapshot stands for.
  function Covered(h: History, req: SnapshotRequest): seq<LogEntry>
    requires SnapshotTruthful(h, req)
  {
    h.LeaderLog(req.term)[..req.lastIncludedIndex]
  }

  lemma CoveredReads(h: History, id: NodeId, req: SnapshotRequest)
    requires Consistent(h) && id in h.members && SnapshotTruthful(h, req)
    ensures var p := Covered(h, req);
      WellNumbered(p) && WellNumbered(h.Log(id)) && Matching(h.Log(id), p)
      && LastTerm(p) == req.lastIncludedTerm && 0 <= req.lastIncludedTerm
  {
    LeaderPrefixReads(h, req.term, req.lastIncludedIndex);
    NodeLogReads(h, id);
    SourcedMatching(h, h.Log(id), Covered(h, req));
  }

  // Two committed prefixes: the shorter begins the longer.
  lemma CoveredAgrees(h: History, id: NodeId, commit: int, base: int, role: Role, req: SnapshotRequest)
    requires LeadersSafe(h) && CommitsBacked(h) && SnapshotTruthful(h, req)
    requires Certified(h, id, commit, base, role) && CommittedBy(h, req.term, req.lastIncludedIndex)
    ensures 0 <= base <= commit <= |h.Log(id)|
    ensures req.lastIncludedIndex <= commit ==> Covered(h, req) <= h.Log(id)
    ensures commit <= req.lastIncludedIndex ==> h.Log(id)[..commit] <= Covered(h, req)
  {
    var t :| CertifiedBy(h, id, commit, base, role, t);
    var u :| u <= req.term && h.CommittedIn(Covered(h, req), u);
    CommittedAgree(h, h.Log(id)[..commit], t, Covered(h, req), u);
  }

  lemma RestoredIsMerge(full: seq<LogEntry>, p: seq<LogEntry>)
    requires p != [] && Matching(full, p)
    ensures Restored(full, p) == Merge(full, p)
  {
    if TermOf(full, |p|) == LastTerm(p) && |p| <= |full| {
      MatchingAt(full, p, |p| - 1);
    }
  }

  // What a snapshot of p leaves of a log whose committed part agrees with p.
  lemma SnapshotFits(full: seq<LogEntry>, log: LogView, p: seq<LogEntry>, commit: int) returns (l: LogView)
    requires Represents(log, full) && WellNumbered(full) && WellNumbered(p) && Matching(full, p) && p != []
    requires log.baseIndex <= |p| && log.baseIndex <= commit <= |full|
    requires |p| <= commit ==> p <= full
    requires commit <= |p| ==> full[..commit] <= p
    ensures log.WellFormed() && log.InstallBoundary(|p|, LastTerm(p)) == Some(l)
    ensures Represents(l, Merge(full, p)) && l.baseIndex == |p| && l.WellFormed()
    ensures log.baseIndex == |p| ==> log.baseTerm == LastTerm(p)
    ensures p <= Merge(full, p) && WellNumbered(Merge(full, p))
    ensures Max(commit, |p|) <= |Merge(full, p)| && Merge(full, p)[..commit] == full[..commit]
    ensures commit > |p| ==> log.TermAt(|p|) == Some(LastTerm(p))
  {
    RestoredIsMerge(full, p);
    RepresentedAt(log, full, |p|);
    if |p| <= commit {
      assert full[|p| - 1] == p[|p| - 1];
    }
    RepresentedBoundary(log, full, p);
    l := log.InstallBoundary(|p|, LastTerm(p)).value;
    RepresentedReads(l, Merge(full, p));
  }

  function SnapshotFrom(req: SnapshotRequest): Snapshot {
    Snapshot(req.lastIncludedIndex, req.lastIncludedTerm, req.state)
  }

  lemma SnapshotHolds(p: seq<LogEntry>, next: seq<LogEntry>, req: SnapshotRequest)
    requires p <= next && p != [] && req.lastIncludedIndex == |p| && req.lastIncludedTerm == LastTerm(p)
    requires req.state == Fold(map[], p)
    ensures SnapshotOf(SnapshotFrom(req), next)
  {
    assert next[..|p|] == p && next[|p| - 1] == p[|p| - 1];
  }

  // A follower at the request's term, or about to be one, whose boundary is not past the snapshot's.
  ghost predicate MayInstall(h: History, n: NodeView, id: NodeId, req: SnapshotRequest) {
    && ImageFaithful(h, n, id) && SnapshotTruthful(h, req) && CommittedBy(h, req.term, req.lastIncludedIndex)
    && n.state.currentTerm <= req.term && n.log.baseIndex <= req.lastIncludedIndex
  }

  // l is the log of n after the installation, next its full log.
  ghost predicate Installed(h: History, n: NodeView, id: NodeId, req: SnapshotRequest, l: LogView, next: seq<LogEntry>)
    requires n.log.WellFormed()
  {
    && n.log.InstallBoundary(req.lastIncludedIndex, req.lastIncludedTerm) == Some(l)
    && Represents(l, next) && l.baseIndex == req.lastIncludedIndex && l.WellFormed() && 0 <= l.baseTerm
    && (n.log.baseIndex == req.lastIncludedIndex ==> n.log.baseTerm == req.lastIncludedTerm)
    && SnapshotOf(SnapshotFrom(req), next) && WellNumbered(next)
    && n.log.baseIndex <= n.state.commitIndex <= |h.Log(id)|
    && Max(n.state.commitIndex, req.lastIncludedIndex) <= |next|
    && next[..n.state.commitIndex] == h.Log(id)[..n.state.commitIndex]
    && (n.state.commitIndex > req.lastIncludedIndex ==>
          n.log.TermAt(req.lastIncludedIndex) == Some(req.lastIncludedTerm))
  }

  lemma Installs(h: History, n: NodeView, id: NodeId, req: SnapshotRequest) returns (l: LogView, next: seq<LogEntry>)
    requires Consistent(h) && LeadersSafe(h) && CommitsBacked(h) && MayInstall(h, n, id, req)
    ensures next == Merge(h.Log(id), Covered(h, req))
    ensures n.log.WellFormed() && Installed(h, n, id, req, l, next)
    ensures Covered(h, req) <= next && Repairs(h.Log(id), h.LeaderLog(req.term), next)
  {
    hide Consistent, LeadersSafe, CommitsBacked, Merge, Matching, Certified, WellNumbered, Repairs, CommittedBy;
    hide Represents;
    hide SnapshotOf, VoteKnown;
    var p := Covered(h, req);
    next := Merge(h.Log(id), p);
    CoveredReads(h, id, req);
    CoveredAgrees(h, id, n.state.commitIndex, n.log.baseIndex, n.state.role, req);
    l := SnapshotFits(h.Log(id), n.log, p, n.state.commitIndex);
    SnapshotHolds(p, next, req);
    MergeRepairs(h.Log(id), h.LeaderLog(req.term), req.lastIncludedIndex);
  }

  // ---- handle_install_snapshot ----

  function Obeying(n: NodeView, req: SnapshotRequest): NodeView {
    Following(n, req.term, req.leader).(replication := None)
  }

  function AfterInstall(n: NodeView, req: SnapshotRequest, l: LogView, next: seq<LogEntry>): NodeView {
    var commit := Max(n.state.commitIndex, req.lastIncludedIndex);
    var m := Obeying(n, req);
    m.(state := m.state.(commitIndex := commit, lastApplied := commit), log := l, snapshot := SnapshotFrom(req),
       store := Fold(map[], if 0 <= commit <= |next| then next[..commit] else next))
  }

  lemma SnapshotStale(n: NodeView, req: SnapshotRequest)
    requires n.Sound() && req.term < n.state.currentTerm
    ensures ReceiveSnapshot(n, req) == Some(Effect(n, [], ReplicationReply(n.state.currentTerm, false)))
  {
  }

  function SaveIfLater(n: NodeView, req: SnapshotRequest): seq<Write> {
    if req.term != n.state.currentTerm then [SaveStateOf(Obeying(n, req).state)] else []
  }

  lemma SnapshotCovered(n: NodeView, req: SnapshotRequest)
    requires n.Sound() && n.state.currentTerm <= req.term
    requires 0 <= req.lastIncludedIndex < n.snapshot.index && 0 <= req.lastIncludedTerm
    ensures ReceiveSnapshot(n, req)
         == Some(Effect(Obeying(n, req), SaveIfLater(n, req), ReplicationReply(req.term, true)))
  {
  }

  function InstallWrites(req: SnapshotRequest, l: LogView, m: NodeView): seq<Write> {
    [SaveSnapshot(SnapshotFrom(req)), SaveLog(l), SaveStateOf(m.state)]
  }

  lemma SnapshotInstalled(h: History, n: NodeView, id: NodeId, req: SnapshotRequest, l: LogView, next: seq<LogEntry>)
    requires n.Sound() && n.state.currentTerm <= req.term && Installed(h, n, id, req, l, next)
    requires 0 < req.lastIncludedIndex && 0 <= req.lastIncludedTerm
    ensures var m := AfterInstall(n, req, l, next);
      ReceiveSnapshot(n, req) == Some(Effect(m, InstallWrites(req, l, m), ReplicationReply(req.term, true)))
  {
    hide WellNumbered, Fold;
    var commit := Max(n.state.commitIndex, req.lastIncludedIndex);
    var s := Obeying(n, req).state;
    RepresentedReads(l, next);
    AppliesFold(s.(commitIndex := commit, lastApplied := req.lastIncludedIndex), l, req.state, next);
  }

  // ---- The history of an installation ----

  lemma InstallCertified(h: History, k: History, n: NodeView, id: NodeId, req: SnapshotRequest, l: LogView,
                         next: seq<LogEntry>)
    requires ImageFaithful(h, n, id) && SnapshotTruthful(h, req) && CommittedBy(h, req.term, req.lastIncludedIndex)
    requires Grows(h, k) && h.Term(id) <= k.Term(id) && k.reigns == h.reigns && k.Log(id) == next
    requires n.log.WellFormed() && Installed(h, n, id, req, l, next) && Covered(h, req) <= next
    requires n.log.baseIndex <= req.lastIncludedIndex
    ensures Certified(k, id, Max(n.state.commitIndex, req.lastIncludedIndex), req.lastIncludedIndex, Follower)
  {
    var commit, index := n.state.commitIndex, req.lastIncludedIndex;
    if commit > index {
      var t :| CertifiedBy(h, id, commit, n.log.baseIndex, n.state.role, t);
      CommittedStays(h, k, h.Log(id)[..commit], t);
      assert CertifiedBy(k, id, commit, index, Follower, t);
    } else {
      var u :| u <= req.term && h.CommittedIn(Covered(h, req), u);
      CommittedStays(h, k, Covered(h, req), u);
      assert next[..index] == Covered(h, req);
      assert CertifiedBy(k, id, index, index, Follower, u);
    }
  }

  lemma InstallFaithful(h: History, k: History, n: NodeView, id: NodeId, req: SnapshotRequest, l: LogView,
                        next: seq<LogEntry>)
    requires ImageFaithful(h, n, id) && SnapshotTruthful(h, req) && CommittedBy(h, req.term, req.lastIncludedIndex)
    requires Grows(h, k) && n.state.currentTerm == req.term && k.terms == h.terms && k.votes == h.votes
    requires k.reigns == h.reigns && k.Log(id) == next && n.log.baseIndex <= req.lastIncludedIndex
    requires n.log.WellFormed() && Installed(h, n, id, req, l, next) && Covered(h, req) <= next
    ensures NodeFaithful(k, AfterInstall(n, req, l, next), id)
  {
    InstallCertified(h, k, n, id, req, l, next);
  }

  // The whole installation at a follower of the request's term.
  lemma InstallKeeps(h: History, n: NodeView, id: NodeId, req: SnapshotRequest) returns (k: History)
    requires Lawful(h) && n.Sound() && MayInstall(h, n, id, req) && n.state.currentTerm == req.term
    ensures Continues(h, k, id) && k.Acked(id, req.term, req.lastIncludedIndex)
    ensures ReceiveSnapshot(n, req).Some? && ReceiveSnapshot(n, req).value.reply == ReplicationReply(req.term, true)
    ensures NodeFaithful(k, ReceiveSnapshot(n, req).value.node, id)
  {
    hide Consistent, VotesSafe, LeadersSafe, AcksKept, CommitsBacked, Repairs, WellNumbered, Represents, DataFaithful;
    hide Merge, Certified, Grows, Local, Installed, CommittedBy, ReceiveSnapshot, NodeFaithful, VoteKnown;
    var l, next := Installs(h, n, id, req);
    k := AcceptedHistory(h, id, req.lastIncludedIndex, next);
    AcceptedContinues(h, id, req.lastIncludedIndex, next);
    CoveredReads(h, id, req);
    SnapshotInstalled(h, n, id, req, l, next);
    InstallFaithful(h, k, n, id, req, l, next);
  }

  // A snapshot of a prefix already compacted away: committed, so already held.
  lemma CoveredAcknowledged(h: History, n: NodeView, id: NodeId, req: SnapshotRequest) returns (k: History)
    requires Lawful(h) && ImageFaithful(h, n, id) && n.state.role == Follower && n.state.currentTerm == req.term
    requires SnapshotTruthful(h, req) && CommittedBy(h, req.term, req.lastIncludedIndex)
    requires req.lastIncludedIndex < n.log.baseIndex
    ensures Continues(h, k, id) && k.Acked(id, req.term, req.lastIncludedIndex)
    ensures NodeFaithful(k, n.(replication := None), id)
  {
    hide Consistent, VotesSafe, LeadersSafe, AcksKept, CommitsBacked, Local;
    var e := req.lastIncludedIndex;
    CoveredAgrees(h, id, n.state.commitIndex, n.log.baseIndex, n.state.role, req);
    k := Acknowledge(h, id, e);
    AcknowledgeGrows(h, id, e);
    AcknowledgeLawful(h, id, e);
    CertifiedStays(h, k, id, n.state.commitIndex, n.log.baseIndex, n.state.role);
  }

  lemma SnapshotKeeps(h: History, n: NodeView, id: NodeId, req: SnapshotRequest) returns (k: History, m: NodeView)
    requires Lawful(h) && n.Sound() && NodeFaithful(h, n, id)
    requires SnapshotTruthful(h, req) && CommittedBy(h, req.term, req.lastIncludedIndex)
    ensures Continues(h, k, id) && ReceiveSnapshot(n, req).Some? && m == ReceiveSnapshot(n, req).value.node
    ensures NodeFaithful(k, m, id)
    ensures ReceiveSnapshot(n, req).value.reply.success <==> n.state.currentTerm <= req.term
    ensures ReceiveSnapshot(n, req).value.reply.success ==> k.Acked(id, req.term, req.lastIncludedIndex)
  {
    if req.term < n.state.currentTerm {
      SnapshotStale(n, req);
      k, m := h, n;
      ContinuesItself(h, id);
    } else {
      k := Follows(h, n, id, req.term, req.leader);
      SnapshotStays(h, k, req);
      CommittedByStays(h, k, req.term, req.lastIncludedIndex);
      CoveredReads(k, id, req);
      var l;
      l, m := SnapshotObeyed(k, n, Following(n, req.term, req.leader), id, req);
      ContinuesTransitively(h, k, l, id);
      k := l;
    }
  }

  // Following the leader first and then taking the snapshot is what the handler does.
  lemma SnapshotObeyed(h: History, n: NodeView, f: NodeView, id: NodeId, req: SnapshotRequest)
    returns (k: History, m: NodeView)
    requires Lawful(h) && n.Sound() && f == Following(n, req.term, req.leader) && ImageFaithful(h, f, id)
    requires n.state.currentTerm <= req.term && 0 <= req.lastIncludedTerm
    requires SnapshotTruthful(h, req) && CommittedBy(h, req.term, req.lastIncludedIndex)
    ensures Continues(h, k, id) && ReceiveSnapshot(n, req).Some? && m == ReceiveSnapshot(n, req).value.node
    ensures NodeFaithful(k, m, id) && k.Acked(id, req.term, req.lastIncludedIndex)
    ensures ReceiveSnapshot(n, req).value.reply == ReplicationReply(req.term, true)
  {
    hide Lawful, ImageFaithful, NodeFaithful, Continues, CommittedBy;
    if req.lastIncludedIndex < n.log.baseIndex {
      SnapshotCovered(n, req);
      k := CoveredAcknowledged(h, f, id, req);
    } else {
      FollowingFirst(n, req);
      k := InstallKeeps(h, f, id, req);
    }
    m := ReceiveSnapshot(n, req).value.node;
  }

  lemma FollowingFirst(n: NodeView, req: SnapshotRequest)
    requires n.Sound() && n.state.currentTerm <= req.term && n.snapshot.index <= req.lastIncludedIndex
    ensures var f := Following(n, req.term, req.leader);
      f.Sound() && (ReceiveSnapshot(f, req).Some? <==> ReceiveSnapshot(n, req).Some?)
      && (ReceiveSnapshot(f, req).Some? ==>
            ReceiveSnapshot(f, req).value.node == ReceiveSnapshot(n, req).value.node
            && ReceiveSnapshot(f, req).value.reply == ReceiveSnapshot(n, req).value.reply)
  {
  }

  // ---- The disk ----

  // A snapshot, the log compacted to it, then the state.
  lemma ImageSaved(d: Disk, m: NodeView)
    requires m.log.WellFormed() && 0 <= m.log.baseTerm
    ensures DiskMatches(m, PerformAll(d, [SaveSnapshot(m.snapshot), SaveLog(m.log), SaveStateOf(m.state)]))
  {
    PerformsThree(d, SaveSnapshot(m.snapshot), SaveLog(m.log), SaveStateOf(m.state));
    RewriteReplays(m.log);
  }

  // The three ways handle_install_snapshot ends.
  lemma SnapshotEnds(h: History, n: NodeView, id: NodeId, req: SnapshotRequest) returns (m: NodeView, ws: seq<Write>)
    requires Consistent(h) && LeadersSafe(h) && CommitsBacked(h) && n.Sound() && ImageFaithful(h, n, id)
    requires SnapshotTruthful(h, req) && CommittedBy(h, req.term, req.lastIncludedIndex)
    ensures ReceiveSnapshot(n, req).Some? && ReceiveSnapshot(n, req).value.node == m
        && ReceiveSnapshot(n, req).value.writes == ws
    ensures n.state.commitIndex <= m.state.commitIndex
    ensures n.state.currentTerm <= req.term ==>
      m.log.baseIndex == Max(n.log.baseIndex, req.lastIncludedIndex) && m.state.currentTerm == req.term
      && (req.lastIncludedIndex < n.log.baseIndex ==> m.log == n.log)
    ensures || (ws == [] && m.snapshot == n.snapshot && m.log == n.log && SaveStateOf(m.state) == SaveStateOf(n.state))
            || (ws == [SaveStateOf(m.state)] && m.log == n.log && m.snapshot == n.snapshot)
            || (ws == [SaveSnapshot(m.snapshot), SaveLog(m.log), SaveStateOf(m.state)] && 0 <= m.log.baseTerm
                && n.state.currentTerm <= req.term && n.log.baseIndex <= req.lastIncludedIndex
                && m.snapshot == SnapshotFrom(req)
                && n.log.InstallBoundary(req.lastIncludedIndex, req.lastIncludedTerm) == Some(m.log))
  {
    hide Consistent, LeadersSafe, CommitsBacked, Certified, VoteKnown, DataFaithful, CommittedBy, Represents,
          ReceiveSnapshot, Fold;
    if req.term < n.state.currentTerm {
      SnapshotStale(n, req);
    } else {
      CoveredReads(h, id, req);
      if req.lastIncludedIndex < n.log.baseIndex {
        SnapshotCovered(n, req);
      } else {
        var l, next := Installs(h, n, id, req);
        SnapshotInstalled(h, n, id, req, l, next);
      }
    }
    m, ws := ReceiveSnapshot(n, req).value.node, ReceiveSnapshot(n, req).value.writes;
  }

  lemma SnapshotSaved(h: History, n: NodeView, d: Disk, id: NodeId, req: SnapshotRequest)
    requires Consistent(h) && LeadersSafe(h) && CommitsBacked(h) && n.Sound() && Faithful(h, n, d, id)
    requires SnapshotTruthful(h, req) && CommittedBy(h, req.term, req.lastIncludedIndex)
    ensures ReceiveSnapshot(n, req).Some?
    ensures DiskMatches(ReceiveSnapshot(n, req).value.node, PerformAll(d, ReceiveSnapshot(n, req).value.writes))
  {
    hide Consistent, LeadersSafe, CommitsBacked, ImageFaithful, CandidateFaithful, LeaderFaithful, ReplicationFaithful;
    hide SnapshotTruthful, CommittedBy, ReceiveSnapshot;
    var m, ws := SnapshotEnds(h, n, id, req) by {
      assert NodeFaithful(h, n, id);
    }
    if ws == [SaveStateOf(m.state)] {
      StateSaved(n, d, m);
    } else if ws != [] {
      ImageSaved(d, m);
    }
  }

  // ---- A crash between the snapshot, the log and the state ----

  lemma InstallCrash(h: History, k: History, n: NodeView, d: Disk, id: NodeId, req: SnapshotRequest, l: LogView,
                     next: seq<LogEntry>, journal: seq<Record>)
    requires ImageFaithful(h, n, id) && DiskMatches(n, d) && SnapshotTruthful(h, req)
    requires CommittedBy(h, req.term, req.lastIncludedIndex)
    requires Grows(h, k) && k.terms == h.terms && k.votes == h.votes && k.reigns == h.reigns && k.Log(id) == next
    requires n.log.WellFormed() && Installed(h, n, id, req, l, next) && Covered(h, req) <= next
    requires n.log.baseIndex <= req.lastIncludedIndex
    requires journal == d.journal || journal == [Rewrite(l)]
    ensures DiskFaithful(k, d.(snapshot := SnapshotFrom(req), journal := journal), id)
  {
    InstallCertified(h, k, n, id, req, l, next);
    RewriteReplays(l);
    assert l.InstallBoundary(req.lastIncludedIndex, req.lastIncludedTerm) == Some(l);
  }

  lemma SnapshotCrash(h: History, n: NodeView, d: Disk, id: NodeId, req: SnapshotRequest, j: nat) returns (k: History)
    requires Lawful(h) && n.Sound() && Faithful(h, n, d, id)
    requires SnapshotTruthful(h, req) && CommittedBy(h, req.term, req.lastIncludedIndex)
    requires ReceiveSnapshot(n, req).Some? && 0 < j < |ReceiveSnapshot(n, req).value.writes|
    ensures Continues(h, k, id) && DiskFaithful(k, PerformAll(d, ReceiveSnapshot(n, req).value.writes[..j]), id)
  {
    hide Consistent, VotesSafe, AcksKept, LeadersSafe, CommitsBacked, CandidateFaithful, LeaderFaithful;
    hide ReplicationFaithful;
    hide ReceiveSnapshot, Installed, DiskFaithful, Merge, Repairs, Certified, DataFaithful, CommittedBy, Grows, Local;
    hide PerformAll, Represents, SnapshotOf, VoteKnown, WellNumbered, Replay;
    var m, ws := SnapshotEnds(h, n, id, req);
    var l, next := Installs(h, n, id, req);
    assert l == m.log by {
      InstalledLog(h, n, id, req, l, next);
    }
    k := Adopt(h, id, next);
    AdoptGrows(h, id, next);
    AdoptLawful(h, id, req.term, next);
    PerformsThree(d, SaveSnapshot(m.snapshot), SaveLog(m.log), SaveStateOf(m.state));
    InstallCrash(h, k, n, d, id, req, l, next, d.journal);
    InstallCrash(h, k, n, d, id, req, l, next, [Rewrite(l)]);
  }

  lemma InstalledLog(h: History, n: NodeView, id: NodeId, req: SnapshotRequest, l: LogView, next: seq<LogEntry>)
    requires n.log.WellFormed() && Installed(h, n, id, req, l, next)
    ensures n.log.InstallBoundary(req.lastIncludedIndex, req.lastIncludedTerm) == Some(l)
  {
  }
}

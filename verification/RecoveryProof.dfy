// A disk as a crash may leave it holds everything a node promised, and a node restarts
// from it: the constructor does not raise, and rebuilds log, snapshot and store.

module RecoveryProof {
  import opened Prelude
  import opened Types
  import opened History
  import opened HistorySteps
  import opened RaftLogs
  import opened RaftStates
  import opened StateMachines
  import opened Elections
  import opened Journals
  import opened Nodes
  import opened Agreement
  import opened ElectionProof

  // ---- What is on disk ----

  lemma Recertified(h: History, k: History, id: NodeId, commit: int, base: int, role: Role)
    requires Certified(h, id, commit, base, role) && Grows(h, k) && k.Term(id) == h.Term(id)
    requires commit <= |k.Log(id)| && (0 <= commit <= |h.Log(id)| ==> k.Log(id)[..commit] == h.Log(id)[..commit])
    ensures Certified(k, id, commit, base, Follower)
  {
    var u :| CertifiedBy(h, id, commit, base, role, u);
    CommittedStays(h, k, h.Log(id)[..commit], u);
    assert CertifiedBy(k, id, commit, base, Follower, u);
  }

  // Between two handlers, and before the first write of one.
  lemma FaithfulDisk(h: History, n: NodeView, d: Disk, id: NodeId)
    requires Faithful(h, n, d, id) && n.log.WellFormed()
    ensures DiskFaithful(h, d, id)
  {
    var t :| CertifiedBy(h, id, n.state.commitIndex, n.log.baseIndex, n.state.role, t);
    assert CertifiedBy(h, id, n.state.commitIndex, n.log.baseIndex, Follower, t);
  }

  // Some records of a change of log were written, and nothing else.
  lemma JournalCut(h: History, k: History, n: NodeView, d: Disk, id: NodeId, l: LogView, journal: seq<Record>)
    requires ImageFaithful(h, n, id) && DiskMatches(n, d) && Grows(h, k)
    requires k.Term(id) == h.Term(id) && k.votes == h.votes
    requires Replay(journal) == Some(l) && l.baseIndex == n.log.baseIndex && l.baseTerm == n.log.baseTerm
    requires l.WellFormed() && Represents(l, k.Log(id))
    requires n.state.commitIndex <= |k.Log(id)|
    requires k.Log(id)[..n.state.commitIndex] == h.Log(id)[..n.state.commitIndex]
    ensures DiskFaithful(k, d.(journal := journal), id)
  {
    assert n.log.baseTerm == n.snapshot.term;
    hide Certified, Fold, Represents, Replay;
    var commit, base := n.state.commitIndex, n.log.baseIndex;
    Recertified(h, k, id, commit, base, n.state.role);
    CertifiedBounds(h, id, commit, base, n.state.role);
    BoundaryUnmoved(n.snapshot, h.Log(id), k.Log(id), commit);
    assert l.InstallBoundary(base, n.log.baseTerm) == Some(l);
  }

  lemma CertifiedBounds(h: History, id: NodeId, commit: int, base: int, role: Role)
    requires Certified(h, id, commit, base, role)
    ensures 0 <= base <= commit <= |h.Log(id)|
  {
    var u :| CertifiedBy(h, id, commit, base, role, u);
  }

  lemma BoundaryUnmoved(s: Snapshot, full: seq<LogEntry>, next: seq<LogEntry>, commit: int)
    requires SnapshotOf(s, full) && s.index <= commit <= |full| && commit <= |next| && next[..commit] == full[..commit]
    ensures SnapshotOf(s, next)
  {
    assert next[..s.index] == next[..commit][..s.index] == full[..s.index];
    if s.index > 0 {
      assert next[s.index - 1] == next[..commit][s.index - 1] == full[s.index - 1];
    }
  }

  // ---- Restarting ----

  lemma BoundaryRestored(h: History, d: Disk, id: NodeId) returns (log: LogView)
    requires DiskFaithful(h, d, id)
    ensures RecoveredLog(Replay(d.journal).value, d.snapshot) == Some(log)
    ensures Represents(log, h.Log(id)) && log.baseIndex == d.snapshot.index
  {
    var l := Replay(d.journal).value;
    log := l.InstallBoundary(d.snapshot.index, d.snapshot.term).value;
  }

  function RecoveryWrites(d: Disk, l: LogView, log: LogView, commit: int): seq<Write> {
    (if d.snapshot.index > l.baseIndex then [SaveLog(log)] else [])
    + (if d.commitIndex < d.snapshot.index then [SaveState(d.term, d.votedFor, commit)] else [])
  }

  function Rebuilt(id: NodeId, members: set<NodeId>, d: Disk, log: LogView, commit: int, store: Store): NodeView {
    NodeView(members, StateView(id, commit, d.term, d.votedFor, None, Follower, commit), log, d.snapshot, store,
      ElectionView({}, false), None)
  }

  lemma RecoverIs(id: NodeId, members: set<NodeId>, d: Disk, log: LogView, full: seq<LogEntry>)
    requires id in members && Replay(d.journal).Some? && WellNumbered(full)
    requires SnapshotOf(d.snapshot, full) && ValidSnapshot(d.snapshot)
    requires var l := Replay(d.journal).value;
      l.baseIndex <= d.snapshot.index && (l.baseIndex == d.snapshot.index ==> l.baseTerm == d.snapshot.term)
    requires RecoveredLog(Replay(d.journal).value, d.snapshot) == Some(log)
    requires Represents(log, full) && log.baseIndex == d.snapshot.index
    requires Max(d.commitIndex, d.snapshot.index) <= |full|
    ensures var commit := Max(d.commitIndex, d.snapshot.index);
      var store := Fold(map[], full[..commit]);
      Recover(id, members, d) == Some(Effect(Rebuilt(id, members, d, log, commit, store),
        RecoveryWrites(d, Replay(d.journal).value, log, commit), true))
  {
    RepresentedReads(log, full);
    var commit := Max(d.commitIndex, d.snapshot.index);
    AppliesFold(StateView(id, commit, d.term, d.votedFor, None, Follower, d.snapshot.index), log,
                d.snapshot.state, full);
  }

  lemma SnapshotValid(s: Snapshot, full: seq<LogEntry>)
    requires SnapshotOf(s, full) && WellNumbered(full)
    ensures ValidSnapshot(s)
  {
    if s.index > 0 {
      assert full[s.index - 1].term == s.term;
    }
  }

  lemma DiskReads(h: History, d: Disk, id: NodeId)
    requires Consistent(h) && DiskFaithful(h, d, id)
    ensures WellNumbered(h.Log(id)) && ValidSnapshot(d.snapshot)
    ensures Max(d.commitIndex, d.snapshot.index) <= |h.Log(id)|
  {
    assert Sourced(h.reigns, h.logs[id]);
    LogsNumbered(h, h.Log(id));
    SnapshotValid(d.snapshot, h.Log(id));
    var base := d.snapshot.index;
    var u :| CertifiedBy(h, id, Max(d.commitIndex, base), base, Follower, u);
  }

  lemma RecoverySaved(id: NodeId, members: set<NodeId>, d: Disk, log: LogView, commit: int, store: Store)
    requires Replay(d.journal).Some? && RecoveredLog(Replay(d.journal).value, d.snapshot) == Some(log)
    requires log.WellFormed() && 0 <= log.baseTerm && commit == Max(d.commitIndex, d.snapshot.index)
    ensures DiskMatches(Rebuilt(id, members, d, log, commit, store),
                        PerformAll(d, RecoveryWrites(d, Replay(d.journal).value, log, commit)))
  {
    var l := Replay(d.journal).value;
    var a := if d.snapshot.index > l.baseIndex then [SaveLog(log)] else [];
    var b := if d.commitIndex < d.snapshot.index then [SaveState(d.term, d.votedFor, commit)] else [];
    PerformSplits(d, a, b);
    PerformsOne(d, SaveLog(log));
    PerformsOne(PerformAll(d, a), SaveState(d.term, d.votedFor, commit));
    RewriteReplays(log);
  }

  lemma RewriteReplays(l: LogView)
    requires l.WellFormed() && 0 <= l.baseTerm
    ensures Replay([Rewrite(l)]) == Some(l)
  {
    assert [Rewrite(l)][..0] == [];
    assert Replay([Rewrite(l)][..0]) == Some(EMPTY_LOG);
  }

  lemma RebuiltFaithful(h: History, d: Disk, id: NodeId, log: LogView)
    requires DiskFaithful(h, d, id) && Represents(log, h.Log(id)) && log.baseIndex == d.snapshot.index
    requires Max(d.commitIndex, d.snapshot.index) <= |h.Log(id)|
    ensures var commit := Max(d.commitIndex, d.snapshot.index);
      NodeFaithful(h, Rebuilt(id, h.members, d, log, commit, Fold(map[], h.Log(id)[..commit])), id)
  {
    hide Certified, Fold, Replay, JournalFaithful, Represents;
  }

  // The recovered commit index is at least the durable one, and the store is the fold of the
  // full log up to it.
  lemma Recovers(h: History, d: Disk, id: NodeId) returns (m: NodeView, ws: seq<Write>)
    requires Consistent(h) && DiskFaithful(h, d, id)
    ensures Recover(id, h.members, d) == Some(Effect(m, ws, true)) && m.Sound()
    ensures m.state.commitIndex == Max(d.commitIndex, d.snapshot.index)
    ensures m.store == Fold(map[], h.Log(id)[..Max(d.commitIndex, d.snapshot.index)])
    ensures Faithful(h, m, PerformAll(d, ws), id)
  {
    DiskReads(h, d, id);
    var full := h.Log(id);
    var log := BoundaryRestored(h, d, id);
    var commit := Max(d.commitIndex, d.snapshot.index);
    RepresentedReads(log, full);
    hide Consistent, Recover, WellNumbered, Fold, Certified, PerformAll, RecoveryWrites;
    RecoverIs(id, h.members, d, log, full);
    m := Rebuilt(id, h.members, d, log, commit, Fold(map[], full[..commit]));
    ws := RecoveryWrites(d, Replay(d.journal).value, log, commit);
    RebuiltFaithful(h, d, id, log);
    RecoverySaved(id, h.members, d, log, commit, m.store);
  }
}

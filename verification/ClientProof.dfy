// Client submissions, compaction and leadership transfer keep the invariant, with a crash
// allowed after any of their durable writes.

module ClientProof {
  import opened Prelude
  import opened Types
  import opened History
  import opened HistorySteps
  import opened RaftLogs
  import opened Journals
  import opened Nodes
  import opened Agreement
  import opened ElectionProof
  import opened RecoveryProof
  import opened AppendProof
  import opened SnapshotProof
  import opened LeaderProof

  // ---- submit_commands ----

  // es is what the leader appends for these commands: contiguous, in order, of its own term.
  predicate Batch(full: seq<LogEntry>, term: int, commands: seq<Command>, es: seq<LogEntry>) {
    |es| == |commands| && forall j :: 0 <= j < |es| ==> es[j] == LogEntry(|full| + 1 + j, term, commands[j])
  }

  lemma SubmitIs(n: NodeView, full: seq<LogEntry>, commands: seq<Command>) returns (es: seq<LogEntry>, log: LogView)
    requires n.Sound() && WellNumbered(full) && Represents(n.log, full) && 0 <= n.state.currentTerm
    requires Submit(n, commands).Accepted? && commands != []
    ensures n.state.role == Leader && Batch(full, n.state.currentTerm, commands, es) && WellNumbered(full + es)
    ensures Represents(log, full + es) && log == n.log.(entries := n.log.entries + es)
    ensures Submit(n, commands) == Accepted(Effect(InitReplication(n.(log := log)), WriteRecords(Appends(es)), es))
  {
    es := AppendAllIs(n.log, full, n.state.currentTerm, commands);
    log := AppendAll(n.log, n.state.currentTerm, commands);
    assert log.entries[|n.log.entries|..] == es;
  }

  lemma LeaderMayAppend(h: History, n: NodeView, id: NodeId, es: seq<LogEntry>)
    requires Consistent(h) && NodeFaithful(h, n, id) && n.state.role == Leader && WellNumbered(h.Log(id) + es)
    requires forall j :: 0 <= j < |es| ==> es[j].term == n.state.currentTerm
    ensures MayAppend(h, id, es) && 0 < n.state.currentTerm
  {
  }

  lemma SubmitKeeps(h: History, n: NodeView, id: NodeId, commands: seq<Command>) returns (k: History)
    requires Lawful(h) && n.Sound() && NodeFaithful(h, n, id) && Submit(n, commands).Accepted? && commands != []
    ensures Continues(h, k, id) && NodeFaithful(k, Submit(n, commands).effect.node, id)
    ensures Batch(h.Log(id), n.state.currentTerm, commands, Submit(n, commands).effect.reply)
    ensures k.Log(id) == h.Log(id) + Submit(n, commands).effect.reply
  {
    hide VotesSafe, AcksKept, LeadersSafe, CommitsBacked, Grows, Local, Submit, InitReplication;
    hide Rooted, Elected, LateCandidatesFail, CandidaciesSourced, WellNumbered, Represents, Batch;
    TermNotNegative(h, id);
    LeaderReads(h, n, id);
    var es, log := SubmitIs(n, h.Log(id), commands);
    BatchTerms(h.Log(id), n.state.currentTerm, commands, es);
    LeaderMayAppend(h, n, id, es);
    k := AppendedContinues(h, id, es);
    hide Consistent, NodeFaithful;
    AppendedFaithful(h, k, n, id, es, log);
    SubmittedSound(n, log, h.Log(id) + es);
    InitFaithful(k, n.(log := log), id);
  }

  lemma TermNotNegative(h: History, id: NodeId)
    requires TermsKnown(h.members, h.terms) && id in h.members
    ensures 0 <= h.Term(id)
  {
  }

  lemma BatchTerms(full: seq<LogEntry>, term: int, commands: seq<Command>, es: seq<LogEntry>)
    requires Batch(full, term, commands, es)
    ensures forall j :: 0 <= j < |es| ==> es[j].term == term
  {
  }

  lemma SubmittedSound(n: NodeView, log: LogView, full: seq<LogEntry>)
    requires n.Sound() && WellNumbered(full) && Represents(log, full)
    requires log.baseIndex == n.log.baseIndex && log.baseTerm == n.log.baseTerm
    ensures n.(log := log).Sound() && n.(log := log).log.LastIndex() == |full|
  {
    RepresentedReads(log, full);
  }

  lemma RecordsSaved(n: NodeView, d: Disk, log: LogView, es: seq<LogEntry>)
    requires DiskMatches(n, d) && log == n.log.(entries := n.log.entries + es) && log.WellFormed()
    ensures DiskMatches(n.(log := log), PerformAll(d, WriteRecords(Appends(es))))
  {
    AppendsReplay(d.journal, n.log, es);
    PerformRecords(d, Appends(es));
  }

  lemma SubmitSaved(h: History, n: NodeView, d: Disk, id: NodeId, commands: seq<Command>)
    requires Consistent(h) && n.Sound() && Faithful(h, n, d, id) && Submit(n, commands).Accepted? && commands != []
    ensures DiskMatches(Submit(n, commands).effect.node, PerformAll(d, Submit(n, commands).effect.writes))
  {
    hide Submit, Rooted, Elected, LateCandidatesFail, Represents, WellNumbered, PerformAll, Replay;
    TermNotNegative(h, id);
    LeaderReads(h, n, id);
    var es, log := SubmitIs(n, h.Log(id), commands);
    SubmittedSound(n, log, h.Log(id) + es);
    RecordsSaved(n, d, log, es);
  }

  // A crash after j of the records: the leader's log is extended by j entries only.
  lemma SubmitCrash(h: History, n: NodeView, d: Disk, id: NodeId, commands: seq<Command>, j: nat) returns (k: History)
    requires Lawful(h) && n.Sound() && Faithful(h, n, d, id) && Submit(n, commands).Accepted? && commands != []
    requires j < |Submit(n, commands).effect.writes|
    ensures Continues(h, k, id) && DiskFaithful(k, PerformAll(d, Submit(n, commands).effect.writes[..j]), id)
  {
    hide VotesSafe, AcksKept, LeadersSafe, CommitsBacked, Grows, Local, Submit;
    hide Rooted, Elected, LateCandidatesFail, CandidaciesSourced, WellNumbered, Represents, Batch, PerformAll;
    hide DiskFaithful;
    TermNotNegative(h, id);
    LeaderReads(h, n, id);
    var es, log := SubmitIs(n, h.Log(id), commands);
    assert WriteRecords(Appends(es))[..j] == WriteRecords(Appends(es[..j]));
    BatchTerms(h.Log(id), n.state.currentTerm, commands, es);
    NumberedPrefix(h.Log(id), es, j);
    LeaderMayAppend(h, n, id, es[..j]);
    k := AppendCut(h, n, d, id, es[..j]);
    PerformRecords(d, Appends(es[..j]));
  }

  lemma NumberedPrefix(full: seq<LogEntry>, es: seq<LogEntry>, j: nat)
    requires WellNumbered(full + es) && j <= |es|
    ensures WellNumbered(full + es[..j])
  {
    forall i | 0 <= i < |full + es[..j]|
      ensures (full + es[..j])[i].index == i + 1 && 0 <= (full + es[..j])[i].term
      ensures Applicable((full + es[..j])[i].command)
    {
      assert (full + es[..j])[i] == (full + es)[i];
    }
  }

  lemma AppendCut(h: History, n: NodeView, d: Disk, id: NodeId, es: seq<LogEntry>) returns (k: History)
    requires Lawful(h) && n.Sound() && Faithful(h, n, d, id) && MayAppend(h, id, es) && WellNumbered(h.Log(id) + es)
    ensures Continues(h, k, id) && DiskFaithful(k, d.(journal := d.journal + Appends(es)), id)
  {
    hide Consistent, VotesSafe, AcksKept, LeadersSafe, CommitsBacked, Grows, Local, WellNumbered, Represents, Certified;
    hide DiskFaithful, MayExtend, Replay;
    k := Appending(h, id, es);
    AppendingContinues(h, id, es);
    var log := n.log.(entries := n.log.entries + es);
    ExtendedLog(n.log, h.Log(id), es);
    AppendsReplay(d.journal, n.log, es);
    CommitBounded(h, n, id);
    JournalCut(h, k, n, d, id, log, d.journal + Appends(es));
  }

  lemma ExtendedLog(l: LogView, full: seq<LogEntry>, es: seq<LogEntry>)
    requires Represents(l, full) && WellNumbered(full + es)
    ensures Represents(l.(entries := l.entries + es), full + es) && l.(entries := l.entries + es).WellFormed()
  {
    RepresentedReads(l.(entries := l.entries + es), full + es);
  }

  lemma CommitBounded(h: History, n: NodeView, id: NodeId)
    requires ImageFaithful(h, n, id)
    ensures n.log.baseIndex <= n.state.commitIndex <= |h.Log(id)|
  {
    var u :| CertifiedBy(h, id, n.state.commitIndex, n.log.baseIndex, n.state.role, u);
  }

  // ---- create_snapshot ----

  lemma RestoredSame(full: seq<LogEntry>, i: int)
    requires 0 <= i <= |full|
    ensures LastTerm(full[..i]) == TermOf(full, i) && Restored(full, full[..i]) == full
  {
  }

  // Compacting to the commit index, as create_snapshot does with everything applied.
  lemma CompactIs(n: NodeView, full: seq<LogEntry>) returns (log: LogView)
    requires n.Sound() && WellNumbered(full) && DataFaithful(full, n.log, n.snapshot, n.store, n.state.commitIndex)
    requires n.state.lastApplied == n.state.commitIndex && n.log.baseIndex < n.state.commitIndex
    ensures var m := n.(log := log,
                        snapshot := Snapshot(n.state.commitIndex, TermOf(full, n.state.commitIndex), n.store));
      && CreateSnapshot(n) == Some(Effect(m, [SaveSnapshot(m.snapshot), SaveLog(m.log), SaveStateOf(m.state)], true))
      && DataFaithful(full, m.log, m.snapshot, m.store, m.state.commitIndex)
      && m.Sound()
    ensures JournalFaithful(n.log, Snapshot(n.state.commitIndex, TermOf(full, n.state.commitIndex), n.store), full)
    ensures log.baseIndex == n.state.commitIndex
    ensures JournalFaithful(log, Snapshot(n.state.commitIndex, TermOf(full, n.state.commitIndex), n.store), full)
  {
    var i := n.state.commitIndex;
    RepresentedAt(n.log, full, i);
    RepresentedCompact(n.log, full, i);
    log := n.log.CompactThrough(i).value;
    RestoredSame(full, i);
    RepresentedBoundary(n.log, full, full[..i]);
    RepresentedReads(log, full);
  }

  lemma Recertifies(h: History, id: NodeId, commit: int, base: int, role: Role)
    requires Certified(h, id, commit, base, role)
    ensures Certified(h, id, commit, commit, role)
  {
    var u :| CertifiedBy(h, id, commit, base, role, u);
    assert CertifiedBy(h, id, commit, commit, role, u);
  }

  lemma CompactKeeps(h: History, n: NodeView, id: NodeId)
    requires Consistent(h) && n.Sound() && NodeFaithful(h, n, id)
    ensures CreateSnapshot(n).Some? && NodeFaithful(h, CreateSnapshot(n).value.node, id)
  {
    LeaderReads(h, n, id);
    if n.log.baseIndex < n.state.commitIndex {
      var log := CompactIs(n, h.Log(id));
      hide Consistent, CreateSnapshot, WellNumbered, NodeFaithful, DataFaithful;
      CompactedFaithful(h, n, id, CreateSnapshot(n).value.node);
    } else {
      hide Consistent, NodeFaithful;
    }
  }

  // Compaction changes the image of a full log, not the log.
  lemma CompactedFaithful(h: History, n: NodeView, id: NodeId, m: NodeView)
    requires NodeFaithful(h, n, id)
    requires m == n.(log := m.log, snapshot := m.snapshot) && m.log.baseIndex == n.state.commitIndex
    requires DataFaithful(h.Log(id), m.log, m.snapshot, m.store, m.state.commitIndex)
    ensures NodeFaithful(h, m, id)
  {
    hide DataFaithful;
    Recertifies(h, id, n.state.commitIndex, n.log.baseIndex, n.state.role);
    SameReplication(h, n, m);
  }

  lemma SameReplication(h: History, n: NodeView, m: NodeView)
    requires ReplicationFaithful(h, n) && m.state == n.state && m.members == n.members && m.replication == n.replication
    ensures ReplicationFaithful(h, m)
  {
    MatchesKept(h, h, n, m);
  }

  lemma CompactSaved(h: History, n: NodeView, d: Disk, id: NodeId)
    requires Consistent(h) && n.Sound() && Faithful(h, n, d, id)
    ensures CreateSnapshot(n).Some?
    ensures DiskMatches(CreateSnapshot(n).value.node, PerformAll(d, CreateSnapshot(n).value.writes))
  {
    LeaderReads(h, n, id);
    if n.log.baseIndex < n.state.commitIndex {
      hide Consistent, CreateSnapshot, WellNumbered, PerformAll;
      var log := CompactIs(n, h.Log(id));
      ImageSaved(d, CreateSnapshot(n).value.node);
    }
  }

  // After the snapshot is written, or the snapshot and the log: the boundary is repaired on restart.
  lemma CompactCrash(h: History, n: NodeView, d: Disk, id: NodeId, j: nat)
    requires Consistent(h) && n.Sound() && Faithful(h, n, d, id)
    requires CreateSnapshot(n).Some? && 0 < j < |CreateSnapshot(n).value.writes|
    ensures DiskFaithful(h, PerformAll(d, CreateSnapshot(n).value.writes[..j]), id)
  {
    hide Rooted, Elected, LateCandidatesFail, WellNumbered, PerformAll, Replay, JournalFaithful, SnapshotOf, Certified;
    hide Represents, DiskFaithful, CandidateFaithful, LeaderFaithful, ReplicationFaithful, VoteKnown;
    LeaderReads(h, n, id);
    assert n.log.baseIndex < n.state.commitIndex;
    hide Consistent, CreateSnapshot;
    var log := CompactIs(n, h.Log(id));
    var m := CreateSnapshot(n).value.node;
    PerformsThree(d, SaveSnapshot(m.snapshot), SaveLog(m.log), SaveStateOf(m.state));
    CompactDisk(h, n, d, id, m, d.journal, n.log);
    RewriteReplays(log);
    CompactDisk(h, n, d, id, m, [Rewrite(log)], log);
  }

  lemma CompactDisk(h: History, n: NodeView, d: Disk, id: NodeId, m: NodeView, journal: seq<Record>, l: LogView)
    requires ImageFaithful(h, n, id) && DiskMatches(n, d)
    requires SnapshotOf(m.snapshot, h.Log(id)) && m.snapshot.index == n.state.commitIndex
    requires Replay(journal) == Some(l) && JournalFaithful(l, m.snapshot, h.Log(id))
    ensures DiskFaithful(h, d.(snapshot := m.snapshot, journal := journal), id)
  {
    var u :| CertifiedBy(h, id, n.state.commitIndex, n.log.baseIndex, n.state.role, u);
    assert CertifiedBy(h, id, n.state.commitIndex, n.state.commitIndex, Follower, u);
  }

  // ---- Leadership transfer ----

  lemma TimeoutNowKeeps(h: History, n: NodeView, id: NodeId, req: TimeoutNowRequest) returns (k: History)
    requires Lawful(h) && NodeFaithful(h, n, id) && LeaderKnown(h, req.term, Some(req.leader))
    ensures Continues(h, k, id) && NodeFaithful(k, ReceiveTimeoutNow(n, req).node, id)
  {
    hide Lawful, Continues, ImageFaithful, ReplicationFaithful;
    if req.term > n.state.currentTerm {
      k := FollowsLater(h, n, id, req.term, Some(req.leader));
      FollowerFaithful(k, Following(n, req.term, req.leader), id);
    } else {
      k := h;
      ContinuesItself(h, id);
    }
  }

  lemma TimeoutNowSaved(n: NodeView, d: Disk, req: TimeoutNowRequest)
    requires DiskMatches(n, d)
    ensures DiskMatches(ReceiveTimeoutNow(n, req).node, PerformAll(d, ReceiveTimeoutNow(n, req).writes))
  {
    var e := ReceiveTimeoutNow(n, req);
    if e.writes != [] {
      StateSaved(n, d, e.node);
    }
  }

  lemma TimeoutReplyKeeps(h: History, n: NodeView, id: NodeId, term: int, reply: TimeoutNowReply) returns (k: History)
    requires Lawful(h) && NodeFaithful(h, n, id)
    ensures Continues(h, k, id) && NodeFaithful(k, ReceiveTimeoutReply(n, term, reply).node, id)
  {
    hide Lawful, Continues, NodeFaithful;
    if n.state.role == Leader && n.state.currentTerm == term && reply.term > n.state.currentTerm {
      k := StepsDown(h, n, id, reply.term);
    } else if n.state.role == Leader && n.state.currentTerm == term && reply.accepted {
      k := StepsDown(h, n, id, term);
    } else {
      k := h;
      ContinuesItself(h, id);
    }
  }

  lemma TimeoutReplySaved(n: NodeView, d: Disk, term: int, reply: TimeoutNowReply)
    requires DiskMatches(n, d)
    ensures DiskMatches(ReceiveTimeoutReply(n, term, reply).node,
                        PerformAll(d, ReceiveTimeoutReply(n, term, reply).writes))
  {
    var e := ReceiveTimeoutReply(n, term, reply);
    if e.writes != [] {
      StateSaved(n, d, e.node);
    }
  }
}

// replication.py: the follower's side of AppendEntries.

module Replications {
  import opened Prelude
  import opened Types
  import opened History
  import opened RaftLogs
  import opened RaftStates
  import opened StateMachines
  import opened Stores

  // One turn of the merge loop; None where append_entry raises.
  function MergeEntry(log: LogView, e: LogEntry): (l: Option<LogView>)
    requires log.WellFormed()
    ensures l.Some? ==> l.value.WellFormed() && l.value.baseIndex == log.baseIndex && l.value.baseTerm == log.baseTerm
  {
    match log.Get(e.index)
    case Some(x) =>
      if x.term == e.term then Some(log)
      else
        (match log.TruncateFrom(e.index)
         case None => None
         case Some(cut) => cut.AppendEntry(e))
    case None => log.AppendEntry(e)
  }

  function MergeEntries(log: LogView, es: seq<LogEntry>): (l: Option<LogView>)
    requires log.WellFormed()
    ensures l.Some? ==> l.value.WellFormed() && l.value.baseIndex == log.baseIndex && l.value.baseTerm == log.baseTerm
    decreases |es|
  {
    if es == [] then Some(log)
    else
      match MergeEntry(log, es[0])
      case None => None
      case Some(l) => MergeEntries(l, es[1..])
  }

  datatype AppendOutcome = AppendOutcome(state: StateView, log: LogView, store: Store, reply: ReplicationReply)

  // handle_append_entries with a store; None where it raises.
  function HandleAppend(state: StateView, log: LogView, store: Store, req: AppendRequest): Option<AppendOutcome>
    requires log.WellFormed()
  {
    if req.term < state.currentTerm then
      Some(AppendOutcome(state, log, store, ReplicationReply(state.currentTerm, false)))
    else
      var s := state.BecomeFollower(req.term, Some(req.leader));
      if req.prevLogIndex > log.LastIndex() || log.TermAt(req.prevLogIndex) != Some(req.prevLogTerm) then
        Some(AppendOutcome(s, log, store, ReplicationReply(s.currentTerm, false)))
      else
        match MergeEntries(log, req.entries)
        case None => None
        case Some(l) =>
          match FollowerCommit(s, l, store, req.leaderCommit)
          case None => None
          case Some(a) => Some(AppendOutcome(a.state, l, a.store, ReplicationReply(s.currentTerm, true)))
  }

  // What the merge loop makes of a full log and the leader's prefix p: a log that already
  // begins with p stays, any other becomes p.
  function Merge(full: seq<LogEntry>, p: seq<LogEntry>): seq<LogEntry> {
    if p <= full then full else p
  }

  // Same term at the same position means same log up to there.
  ghost predicate Matching(a: seq<LogEntry>, b: seq<LogEntry>) {
    forall i :: 0 <= i < |a| && i < |b| && a[i].term == b[i].term ==> a[..i + 1] == b[..i + 1]
  }

  // At the first difference the outcome is decided: the leader's prefix.
  lemma MergeDecided(full: seq<LogEntry>, p: seq<LogEntry>, k: int)
    requires 0 <= k <= |full| && k < |p| && full[..k] == p[..k]
    requires k < |full| ==> full[k].term != p[k].term
    requires WellNumbered(p)
    ensures WellNumbered(p[..k + 1]) && p[..k + 1][..k + 1] == p[..k + 1]
    ensures Merge(full, p) == p && Merge(p[..k + 1], p) == p && Matching(p[..k + 1], p)
  {
    forall i | 0 <= i < |p[..k + 1]| && i < |p| && p[..k + 1][i].term == p[i].term
      ensures p[..k + 1][..i + 1] == p[..i + 1]
    {
    }
    if p <= p[..k + 1] {
      assert p == p[..k + 1];
    }
  }

  // The loop of handle_append_entries, entry by entry, computes Merge and never raises.
  lemma {:induction false} MergesRepresented(log: LogView, full: seq<LogEntry>, p: seq<LogEntry>, k: int)
    requires WellNumbered(full) && WellNumbered(p) && Represents(log, full) && log.WellFormed()
    requires Matching(full, p)
    requires log.baseIndex <= k <= |full| && k <= |p| && full[..k] == p[..k]
    ensures MergeEntries(log, p[k..]).Some?
    ensures Represents(MergeEntries(log, p[k..]).value, Merge(full, p))
    decreases |p| - k
  {
    hide Matching, Represents, MergeEntry;
    if k == |p| {
      assert p[k..] == [];
      assert p == full[..k];
    } else {
      assert p[k..][0] == p[k] && p[k..][1..] == p[k + 1..];
      if k < |full| && full[k].term == p[k].term {
        MatchingAt(full, p, k);
        MergeKeeps(log, full, p[k]);
        MergesRepresented(log, full, p, k + 1);
      } else {
        MergesOne(log, full, p, k);
        MergeDecided(full, p, k);
        MergesRepresented(MergeEntry(log, p[k]).value, p[..k + 1], p, k + 1);
      }
    }
  }

  lemma MatchingAt(a: seq<LogEntry>, b: seq<LogEntry>, i: int)
    requires Matching(a, b) && 0 <= i < |a| && i < |b| && a[i].term == b[i].term
    ensures a[..i + 1] == b[..i + 1] && a[i] == b[i]
  {
    assert a[i] == a[..i + 1][i] == b[i];
  }

  lemma MergeKeeps(log: LogView, full: seq<LogEntry>, e: LogEntry)
    requires WellNumbered(full) && Represents(log, full) && log.WellFormed()
    requires log.baseIndex < e.index <= |full| && full[e.index - 1].term == e.term
    ensures MergeEntry(log, e) == Some(log)
  {
    RepresentedAt(log, full, e.index);
  }

  // A missing or conflicting entry: the log is cut there and the leader's entry put in.
  lemma MergesOne(log: LogView, full: seq<LogEntry>, p: seq<LogEntry>, k: int)
    requires WellNumbered(full) && WellNumbered(p) && Represents(log, full) && log.WellFormed()
    requires log.baseIndex <= k <= |full| && k < |p| && full[..k] == p[..k]
    requires k < |full| ==> full[k].term != p[k].term
    ensures MergeEntry(log, p[k]).Some? && Represents(MergeEntry(log, p[k]).value, p[..k + 1])
  {
    var e := p[k];
    assert e.index == k + 1;
    assert p[..k + 1] == full[..k] + [e];
    RepresentedAt(log, full, k + 1);
    if k < |full| {
      RepresentedTruncate(log, full, k + 1);
      AppendsNext(log.TruncateFrom(k + 1).value, full[..k], e);
    } else {
      assert full == full[..k];
      AppendsNext(log, full, e);
    }
  }

  lemma AppendsNext(log: LogView, full: seq<LogEntry>, e: LogEntry)
    requires WellNumbered(full) && Represents(log, full) && e.index == |full| + 1
    ensures log.AppendEntry(e).Some? && Represents(log.AppendEntry(e).value, full + [e])
  {
    RepresentedAppend(log, full, e.term, e.command);
    assert e == LogEntry(|full| + 1, e.term, e.command);
  }

  // ---- Redelivery and reordering ----

  // Entries the log already holds change nothing.
  lemma {:induction false} HeldChangesNothing(log: LogView, full: seq<LogEntry>, q: seq<LogEntry>, k: int)
    requires WellNumbered(full) && Represents(log, full) && log.WellFormed()
    requires q <= full && log.baseIndex <= k <= |q|
    ensures MergeEntries(log, q[k..]) == Some(log)
    decreases |q| - k
  {
    if k < |q| {
      assert q[k..][0] == q[k] == full[k] && q[k..][1..] == q[k + 1..];
      MergeKeeps(log, full, q[k]);
      HeldChangesNothing(log, full, q, k + 1);
    } else {
      assert q[k..] == [];
    }
  }

  // A request delivered again, or an older and shorter one of the same leader delivered after
  // it, leaves the log exactly as it is.
  lemma MergeIdempotent(log: LogView, full: seq<LogEntry>, p: seq<LogEntry>, k: int, q: seq<LogEntry>, j: int)
    requires WellNumbered(full) && WellNumbered(p) && Represents(log, full) && log.WellFormed() && Matching(full, p)
    requires log.baseIndex <= k <= |full| && k <= |p| && full[..k] == p[..k]
    requires q <= p && log.baseIndex <= j <= |q|
    ensures MergeEntries(log, p[k..]).Some?
    ensures MergeEntries(MergeEntries(log, p[k..]).value, q[j..]) == Some(MergeEntries(log, p[k..]).value)
  {
    MergesRepresented(log, full, p, k);
    var merged := MergeEntries(log, p[k..]).value;
    assert q <= Merge(full, p) by {
      assert q == p[..|q|];
    }
    HeldChangesNothing(merged, Merge(full, p), q, j);
  }

  // At the first conflict the whole suffix from there, and nothing before it, is replaced.
  lemma ConflictReplacesSuffix(log: LogView, full: seq<LogEntry>, p: seq<LogEntry>, k: int, c: int)
    requires WellNumbered(full) && WellNumbered(p) && Represents(log, full) && log.WellFormed() && Matching(full, p)
    requires log.baseIndex <= k <= c < |full| && c < |p| && full[..c] == p[..c] && full[c].term != p[c].term
    ensures MergeEntries(log, p[k..]).Some?
    ensures Represents(MergeEntries(log, p[k..]).value, full[..c] + p[c..])
  {
    assert full[..k] == full[..c][..k] == p[..k];
    MergesRepresented(log, full, p, k);
    assert Merge(full, p) == p == full[..c] + p[c..];
  }

  // The whole handler: handling the same request twice is handling it once.
  lemma RedeliveredRequest(state: StateView, log: LogView, store: Store, req: AppendRequest,
                           full: seq<LogEntry>, p: seq<LogEntry>, o: AppendOutcome)
    requires WellNumbered(full) && WellNumbered(p) && Represents(log, full) && log.WellFormed() && Matching(full, p)
    requires 0 <= req.prevLogIndex && |p| == req.prevLogIndex + |req.entries| && req.entries == p[req.prevLogIndex..]
    requires log.TermAt(req.prevLogIndex) == Some(req.prevLogTerm) && req.prevLogTerm == TermOf(p, req.prevLogIndex)
    requires HandleAppend(state, log, store, req) == Some(o) && state.lastApplied <= state.commitIndex
    ensures o.log.WellFormed() && HandleAppend(o.state, o.log, o.store, req) == Some(o)
  {
    if state.currentTerm <= req.term {
      RedeliveredMerge(log, req, full, p);
      hide MergeEntries, Matching, WellNumbered, Represents, FollowerCommit;
      CommitSettles(state.BecomeFollower(req.term, Some(req.leader)), o.log, store, req.leaderCommit);
    }
  }

  // The second time the previous entry is there and the entries change nothing.
  lemma RedeliveredMerge(log: LogView, req: AppendRequest, full: seq<LogEntry>, p: seq<LogEntry>)
    requires WellNumbered(full) && WellNumbered(p) && Represents(log, full) && log.WellFormed() && Matching(full, p)
    requires 0 <= req.prevLogIndex && |p| == req.prevLogIndex + |req.entries| && req.entries == p[req.prevLogIndex..]
    requires log.TermAt(req.prevLogIndex) == Some(req.prevLogTerm) && req.prevLogTerm == TermOf(p, req.prevLogIndex)
    ensures MergeEntries(log, req.entries).Some?
    ensures var l := MergeEntries(log, req.entries).value;
      MergeEntries(l, req.entries) == Some(l) && req.prevLogIndex <= l.LastIndex()
          && l.TermAt(req.prevLogIndex) == Some(req.prevLogTerm)
  {
    hide MergeEntries;
    var prev := req.prevLogIndex;
    RepresentedAt(log, full, prev);
    if prev > 0 {
      MatchingAt(full, p, prev - 1);
    }
    MergeIdempotent(log, full, p, prev, p, prev);
    MergedPrev(log, full, p, prev);
  }

  lemma MergedPrev(log: LogView, full: seq<LogEntry>, p: seq<LogEntry>, prev: int)
    requires WellNumbered(full) && WellNumbered(p) && Represents(log, full) && log.WellFormed() && Matching(full, p)
    requires log.baseIndex <= prev <= |full| && prev <= |p| && full[..prev] == p[..prev]
    ensures MergeEntries(log, p[prev..]).Some?
    ensures prev <= MergeEntries(log, p[prev..]).value.LastIndex()
    ensures MergeEntries(log, p[prev..]).value.TermAt(prev) == Some(TermOf(p, prev))
  {
    MergesRepresented(log, full, p, prev);
    var next := Merge(full, p);
    RepresentedAt(MergeEntries(log, p[prev..]).value, next, prev);
    assert prev > 0 ==> next[prev - 1] == p[prev - 1];
  }

  // Once the commit index has been updated and applied, updating it again does nothing.
  lemma CommitSettles(state: StateView, log: LogView, store: Store, leaderCommit: int)
    requires log.WellFormed() && FollowerCommit(state, log, store, leaderCommit).Some?
    requires state.lastApplied <= state.commitIndex
    ensures var a := FollowerCommit(state, log, store, leaderCommit).value;
      FollowerCommit(a.state, log, a.store, leaderCommit) == Some(a)
  {
    if leaderCommit > state.commitIndex {
      var commit := if leaderCommit <= log.LastIndex() then leaderCommit else log.LastIndex();
      AppliedToCommit(state.(commitIndex := commit), log, store);
    }
  }

  lemma {:induction false} AppliedToCommit(state: StateView, log: LogView, store: Store)
    requires log.WellFormed() && ApplyCommitted(state, log, store).Some?
    ensures ApplyCommitted(state, log, store).value.state.lastApplied >= state.commitIndex
    decreases state.commitIndex - state.lastApplied
  {
    if state.lastApplied < state.commitIndex {
      var e := log.Get(state.lastApplied + 1).value;
      AppliedToCommit(state.(lastApplied := state.lastApplied + 1), log, Apply(store, e.command));
    }
  }

  // ---- The handler in place ----

  // One entry: kept where the terms agree, put in the place of a conflicting suffix otherwise.
  method MergeOne(log: RaftLog, entry: LogEntry) returns (ok: bool)
    requires log.View().WellFormed()
    modifies log
    ensures ok <==> MergeEntry(old(log.View()), entry).Some?
    ensures ok ==> MergeEntry(old(log.View()), entry) == Some(log.View())
  {
    var existing := log.View().Get(entry.index);
    if existing != None {
      if existing.value.term == entry.term {
        return true;
      }
      var cut := log.TruncateFrom(entry.index);
      if !cut {
        return false;
      }
    }
    ok := log.AppendEntry(entry);
  }

  // The loop over a request's entries.
  method MergeLog(log: RaftLog, entries: seq<LogEntry>) returns (ok: bool)
    requires log.View().WellFormed()
    modifies log
    ensures ok <==> MergeEntries(old(log.View()), entries).Some?
    ensures ok ==> MergeEntries(old(log.View()), entries) == Some(log.View()) && log.View().WellFormed()
  {
    hide MergeEntry;
    var i := 0;
    while i < |entries|
      invariant 0 <= i <= |entries| && log.View().WellFormed()
      invariant MergeEntries(log.View(), entries[i..]) == MergeEntries(old(log.View()), entries)
    {
      assert entries[i..][0] == entries[i] && entries[i..][1..] == entries[i + 1..];
      var merged := MergeOne(log, entries[i]);
      if !merged {
        return false;
      }
      i := i + 1;
    }
    assert entries[i..] == [];
    return true;
  }

  // None where it raises; the log and the store may then be half changed.
  method HandleAppendEntries(state: RaftState, log: RaftLog, store: KVStore, req: AppendRequest)
    returns (reply: Option<ReplicationReply>)
    requires log.View().WellFormed()
    modifies state, log, store
    ensures reply.Some? <==> HandleAppend(old(state.View()), old(log.View()), old(store.data), req).Some?
    ensures reply.Some? ==> HandleAppend(old(state.View()), old(log.View()), old(store.data), req)
                            == Some(AppendOutcome(state.View(), log.View(), store.data, reply.value))
  {
    hide MergeEntries, FollowerCommit;
    if req.term < state.currentTerm {
      return Some(ReplicationReply(state.currentTerm, false));
    }
    var _ := state.BecomeFollower(req.term, Some(req.leader));
    if req.prevLogIndex > log.View().LastIndex() {
      return Some(ReplicationReply(state.currentTerm, false));
    }
    if log.View().TermAt(req.prevLogIndex) != Some(req.prevLogTerm) {
      return Some(ReplicationReply(state.currentTerm, false));
    }
    var merged := MergeLog(log, req.entries);
    if !merged {
      return None;
    }
    var committed := UpdateFollowerCommit(state, log, store, req.leaderCommit);
    if !committed {
      return None;
    }
    return Some(ReplicationReply(state.currentTerm, true));
  }
}

// persistence.py, at record level: the journal of the log, and the three durable files.

module Journals {
  import opened Prelude
  import opened Types
  import opened RaftLogs
  import opened RaftStates

  datatype Record =
    | Rewritten(baseIndex: int, baseTerm: int, entries: seq<LogEntry>)
    | Appended(entry: LogEntry)
    | Truncated(fromIndex: int)

  // load_log: the log the records describe; None where loading raises.
  function Replay(journal: seq<Record>): (r: Option<LogView>)
    ensures r.Some? ==> r.value.WellFormed()
  {
    if journal == [] then Some(EMPTY_LOG)
    else
      match Replay(journal[..|journal| - 1])
      case None => None
      case Some(l) => ReplayRecord(l, journal[|journal| - 1])
  }

  function ReplayRecord(l: LogView, r: Record): (l': Option<LogView>)
    requires l.WellFormed()
    ensures l'.Some? ==> l'.value.WellFormed()
  {
    match r
    case Rewritten(base, term, entries) =>
      if 0 <= term && LogView(base, term, entries).WellFormed() then Some(LogView(base, term, entries)) else None
    case Appended(e) => l.AppendEntry(e)
    case Truncated(i) => l.TruncateFrom(i)
  }

  lemma {:induction false} ReplaySplits(a: seq<Record>, r: Record)
    requires Replay(a).Some?
    ensures Replay(a + [r]) == ReplayRecord(Replay(a).value, r)
  {
    assert (a + [r])[..|a + [r]| - 1] == a;
  }

  function Appends(entries: seq<LogEntry>): seq<Record> {
    seq(|entries|, k requires 0 <= k < |entries| => Appended(entries[k]))
  }

  // _persist_log_change: how many entries the two logs share from the start.
  function CommonPrefix(a: seq<LogEntry>, b: seq<LogEntry>): (n: nat)
    ensures n <= |a| && n <= |b| && a[..n] == b[..n]
    ensures n < |a| && n < |b| ==> a[n] != b[n]
  {
    if a == [] || b == [] || a[0] != b[0] then 0
    else
      var n := CommonPrefix(a[1..], b[1..]);
      assert a[..n + 1] == [a[0]] + a[1..][..n];
      assert b[..n + 1] == [b[0]] + b[1..][..n];
      n + 1
  }

  // The records written when the entries change from one list to another.
  function Changes(before: seq<LogEntry>, after: seq<LogEntry>): seq<Record> {
    var n := CommonPrefix(before, after);
    if before == after then []
    else if n == |before| then Appends(after[n..])
    else [Truncated(before[n].index)] + Appends(after[n..])
  }

  function Rewrite(l: LogView): Record { Rewritten(l.baseIndex, l.baseTerm, l.entries) }

  // raft-state.json, raft-snapshot.json and raft-log.json. A missing file reads as its initial value.
  datatype Disk = Disk(term: int, votedFor: Option<NodeId>, commitIndex: int, snapshot: Snapshot, journal: seq<Record>)

  const BLANK_DISK := Disk(0, None, 0, Snapshot(0, 0, map[]), [])

  datatype Write =
    | SaveState(term: int, votedFor: Option<NodeId>, commitIndex: int)
    | SaveSnapshot(snapshot: Snapshot)
    | SaveLog(log: LogView)
    | WriteRecord(record: Record)

  function Perform(d: Disk, w: Write): Disk {
    match w
    case SaveState(t, v, c) => d.(term := t, votedFor := v, commitIndex := c)
    case SaveSnapshot(s) => d.(snapshot := s)
    case SaveLog(l) => d.(journal := [Rewrite(l)])
    case WriteRecord(r) => d.(journal := d.journal + [r])
  }

  function PerformAll(d: Disk, ws: seq<Write>): Disk {
    if ws == [] then d else Perform(PerformAll(d, ws[..|ws| - 1]), ws[|ws| - 1])
  }

  function WriteRecords(rs: seq<Record>): seq<Write> {
    seq(|rs|, k requires 0 <= k < |rs| => WriteRecord(rs[k]))
  }

  // ---- Journal fidelity ----

  lemma {:induction false} AppendsReplay(journal: seq<Record>, l: LogView, es: seq<LogEntry>)
    requires Replay(journal) == Some(l)
    requires l.(entries := l.entries + es).WellFormed()
    ensures Replay(journal + Appends(es)) == Some(l.(entries := l.entries + es))
    decreases |es|
  {
    if es == [] {
      assert journal + Appends(es) == journal;
      assert l.entries + es == l.entries;
    } else {
      var init := es[..|es| - 1];
      var e := es[|es| - 1];
      var before := l.(entries := l.entries + init);
      forall k | 0 <= k < |before.entries| ensures before.entries[k].index == before.baseIndex + 1 + k {
        assert before.entries[k] == (l.entries + es)[k];
      }
      AppendsReplay(journal, l, init);
      assert (l.entries + es)[|l.entries| + |es| - 1] == e;
      assert journal + Appends(es) == (journal + Appends(init)) + [Appended(e)];
      ReplaySplits(journal + Appends(init), Appended(e));
      assert before.entries + [e] == l.entries + es;
      assert before.LastIndex() + 1 == e.index;
    }
  }

  // After any first j records of a change, the journal describes the new entries up to some m
  // that keeps all the old and new entries had in common; after all of them, the new log.
  lemma ChangesReplay(journal: seq<Record>, l: LogView, after: seq<LogEntry>, j: nat) returns (m: nat)
    requires Replay(journal) == Some(l) && l.(entries := after).WellFormed()
    requires 0 < j <= |Changes(l.entries, after)|
    ensures CommonPrefix(l.entries, after) <= m <= |after|
    ensures Replay(journal + Changes(l.entries, after)[..j]) == Some(l.(entries := after[..m]))
    ensures j == |Changes(l.entries, after)| ==> m == |after|
  {
    hide Replay, LogView.WellFormed, Changes, CommonPrefix;
    var n := ChangesShape(l.entries, after);
    if n == |l.entries| {
      m := n + j;
      AppendsCut(after, n, j);
      ExtensionReplays(journal, l, after, n, m);
    } else {
      m := n + j - 1;
      RepairCut(after, n, l.entries[n].index, j);
      RepairReplays(journal, l, after, n, m);
    }
  }

  lemma ChangesShape(before: seq<LogEntry>, after: seq<LogEntry>) returns (n: nat)
    requires Changes(before, after) != []
    ensures n == CommonPrefix(before, after) && n <= |before| && n <= |after| && before[..n] == after[..n]
    ensures Changes(before, after)
         == if n == |before| then Appends(after[n..]) else [Truncated(before[n].index)] + Appends(after[n..])
  {
    n := CommonPrefix(before, after);
  }

  lemma RepairCut(after: seq<LogEntry>, n: nat, index: int, j: nat)
    requires 0 < j && n + j - 1 <= |after|
    ensures ([Truncated(index)] + Appends(after[n..]))[..j] == [Truncated(index)] + Appends(after[n..n + j - 1])
  {
    AppendsCut(after, n, j - 1);
    var tail := Appends(after[n..]);
    assert ([Truncated(index)] + tail)[..j] == [Truncated(index)] + tail[..j - 1];
  }

  lemma AppendsCut(after: seq<LogEntry>, n: nat, j: nat)
    requires n + j <= |after|
    ensures Appends(after[n..])[..j] == Appends(after[n..n + j])
  {
  }

  lemma ExtensionReplays(journal: seq<Record>, l: LogView, after: seq<LogEntry>, n: nat, m: nat)
    requires Replay(journal) == Some(l) && l.(entries := after).WellFormed()
    requires n <= m <= |after| && l.entries == after[..n]
    ensures Replay(journal + Appends(after[n..m])) == Some(l.(entries := after[..m]))
  {
    assert l.entries + after[n..m] == after[..m];
    assert l.(entries := after[..m]).WellFormed();
    AppendsReplay(journal, l, after[n..m]);
  }

  lemma RepairReplays(journal: seq<Record>, l: LogView, after: seq<LogEntry>, n: nat, m: nat)
    requires Replay(journal) == Some(l) && l.(entries := after).WellFormed()
    requires n <= m <= |after| && n < |l.entries| && l.entries[..n] == after[..n]
    ensures Replay(journal + ([Truncated(l.entries[n].index)] + Appends(after[n..m])))
         == Some(l.(entries := after[..m]))
  {
    var r := Truncated(l.entries[n].index);
    var cut := l.(entries := after[..n]);
    assert l.TruncateFrom(l.entries[n].index) == Some(cut);
    ReplaySplits(journal, r);
    ExtensionReplays(journal + [r], cut, after, n, m);
    assert journal + [r] + Appends(after[n..m]) == journal + ([r] + Appends(after[n..m]));
  }

  // The records of a change turn the journal of one log into the journal of the next.
  lemma ChangesFaithful(journal: seq<Record>, l: LogView, after: seq<LogEntry>)
    requires Replay(journal) == Some(l) && l.(entries := after).WellFormed()
    ensures Replay(journal + Changes(l.entries, after)) == Some(l.(entries := after))
  {
    var rs := Changes(l.entries, after);
    NothingChanged(l.entries, after);
    hide Changes, Replay;
    if rs == [] {
      assert journal + rs == journal;
    } else {
      var m := ChangesReplay(journal, l, after, |rs|);
      assert rs[..|rs|] == rs && after[..m] == after;
    }
  }

  // No records are written exactly when nothing changed.
  lemma NothingChanged(before: seq<LogEntry>, after: seq<LogEntry>)
    ensures Changes(before, after) == [] <==> before == after
  {
    var n := CommonPrefix(before, after);
    if n == |before| && n == |after| {
      assert before == before[..n] && after == after[..n];
    }
  }

  lemma {:induction false} PerformRecords(d: Disk, rs: seq<Record>)
    ensures PerformAll(d, WriteRecords(rs)) == d.(journal := d.journal + rs)
    decreases |rs|
  {
    if rs == [] {
      assert d.journal + rs == d.journal;
    } else {
      var init := rs[..|rs| - 1];
      assert WriteRecords(rs)[..|rs| - 1] == WriteRecords(init);
      PerformRecords(d, init);
      assert d.journal + rs == d.journal + init + [rs[|rs| - 1]];
    }
  }

  lemma {:induction false} PerformSplits(d: Disk, a: seq<Write>, b: seq<Write>)
    ensures PerformAll(d, a + b) == PerformAll(PerformAll(d, a), b)
    decreases |b|
  {
    if b == [] {
      assert a + b == a;
    } else {
      assert (a + b)[..|a + b| - 1] == a + b[..|b| - 1];
      PerformSplits(d, a, b[..|b| - 1]);
    }
  }

  lemma NothingWritten(d: Disk)
    ensures PerformAll(d, []) == d
  {
  }

  lemma PerformsOne(d: Disk, w: Write)
    ensures PerformAll(d, [w]) == Perform(d, w)
  {
    assert [w][..0] == [];
    assert PerformAll(d, [w][..0]) == d;
  }

  lemma PerformsThree(d: Disk, a: Write, b: Write, c: Write)
    ensures PerformAll(d, [a, b, c][..1]) == Perform(d, a)
    ensures PerformAll(d, [a, b, c][..2]) == Perform(Perform(d, a), b)
    ensures PerformAll(d, [a, b, c]) == Perform(Perform(Perform(d, a), b), c)
  {
    var ws := [a, b, c];
    PerformsOne(d, a);
    assert ws[..1] == [a] && ws[..2][..1] == [a] && ws[..2] == ws[..3 - 1] && ws == ws[..3];
  }

  lemma AllInCommon(a: seq<LogEntry>, b: seq<LogEntry>, c: int)
    requires 0 <= c <= |a| && c <= |b| && a[..c] == b[..c]
    ensures c <= CommonPrefix(a, b)
  {
    forall i | 0 <= i < c ensures a[i] == b[i] {
      assert a[i] == a[..c][i] == b[..c][i];
    }
  }

  // The common prefix is determined: no other length fits.
  lemma CommonPrefixIs(a: seq<LogEntry>, b: seq<LogEntry>, n: nat)
    requires n <= |a| && n <= |b| && a[..n] == b[..n]
    requires n < |a| && n < |b| ==> a[n] != b[n]
    ensures CommonPrefix(a, b) == n
  {
    AllInCommon(a, b, n);
    var c := CommonPrefix(a, b);
    forall i | 0 <= i < c ensures a[i] == b[i] {
      assert a[i] == a[..c][i] == b[..c][i];
    }
  }

  // The three files.
  class RaftPersistence {
    var term: int
    var votedFor: Option<NodeId>
    var commitIndex: int
    var snapshot: Snapshot
    var journal: seq<Record>

    function View(): Disk
      reads this
    {
      Disk(term, votedFor, commitIndex, snapshot, journal)
    }

    // A directory as it was found.
    constructor (disk: Disk)
      ensures View() == disk
    {
      term, votedFor, commitIndex := disk.term, disk.votedFor, disk.commitIndex;
      snapshot, journal := disk.snapshot, disk.journal;
    }

    method SaveState(state: RaftState)
      modifies this`term, this`votedFor, this`commitIndex
      ensures View() == Perform(old(View()), Write.SaveState(state.currentTerm, state.votedFor, state.commitIndex))
    {
      term, votedFor, commitIndex := state.currentTerm, state.votedFor, state.commitIndex;
    }

    method LoadState(nodeId: NodeId) returns (state: RaftState)
      ensures fresh(state) && state.View() == StateView(nodeId, commitIndex, term, votedFor, None, Follower, 0)
    {
      state := new RaftState.FromDisk(nodeId, term, votedFor, commitIndex);
    }

    method SaveSnapshot(s: Snapshot)
      modifies this`snapshot
      ensures View() == Perform(old(View()), Write.SaveSnapshot(s))
    {
      snapshot := s;
    }

    method SaveLog(log: RaftLog)
      modifies this`journal
      ensures View() == Perform(old(View()), Write.SaveLog(log.View()))
    {
      journal := [Rewritten(log.baseIndex, log.baseTerm, log.entries)];
    }

    method AppendLogEntries(entries: seq<LogEntry>)
      modifies this`journal
      ensures View() == PerformAll(old(View()), WriteRecords(Appends(entries)))
    {
      PerformRecords(View(), Appends(entries));
      journal := journal + Appends(entries);
    }

    // ValueError for an index that is not positive.
    method ReplaceLogSuffix(fromIndex: int, entries: seq<LogEntry>) returns (ok: bool)
      modifies this`journal
      ensures ok <==> 0 < fromIndex
      ensures View() == if ok then PerformAll(old(View()), WriteRecords([Truncated(fromIndex)] + Appends(entries)))
          else old(View())
    {
      if fromIndex <= 0 {
        return false;
      }
      PerformRecords(View(), [Truncated(fromIndex)] + Appends(entries));
      journal := journal + ([Truncated(fromIndex)] + Appends(entries));
      return true;
    }

    // Replays the journal record by record; None where a record does not fit.
    method LoadLog() returns (log: RaftLog?)
      ensures log != null <==> Replay(journal).Some?
      ensures log != null ==> fresh(log) && Replay(journal) == Some(log.View())
    {
      var loaded := new RaftLog(EMPTY_LOG);
      var i := 0;
      while i < |journal|
        invariant 0 <= i <= |journal| && fresh(loaded)
        invariant Replay(journal[..i]) == Some(loaded.View())
      {
        assert journal[..i + 1][..i] == journal[..i];
        ghost var before := loaded.View();
        match journal[i] {
          case Rewritten(base, term, entries) =>
            var fresh' := LoadRewritten(base, term, entries);
            if fresh' == null {
              ReplayBreaks(journal, i);
              return null;
            }
            loaded := fresh';
          case Appended(e) =>
            var ok := loaded.AppendEntry(e);
            if !ok {
              ReplayBreaks(journal, i);
              return null;
            }
          case Truncated(index) =>
            var ok := loaded.TruncateFrom(index);
            if !ok {
              ReplayBreaks(journal, i);
              return null;
            }
        }
        assert ReplayRecord(before, journal[i]) == Some(loaded.View());
        i := i + 1;
      }
      assert journal[..i] == journal;
      return loaded;
    }

    // A snapshot record: a new log at its boundary, its entries appended one by one.
    static method LoadRewritten(base: int, term: int, entries: seq<LogEntry>) returns (log: RaftLog?)
      ensures log != null <==> ReplayRecord(EMPTY_LOG, Rewritten(base, term, entries)).Some?
      ensures log != null ==> fresh(log) && log.View() == LogView(base, term, entries)
    {
      if base < 0 || term < 0 || (base == 0 && term != 0) {
        return null;
      }
      var built := new RaftLog(LogView(base, term, []));
      var i := 0;
      while i < |entries|
        invariant 0 <= i <= |entries| && fresh(built)
        invariant built.View() == LogView(base, term, entries[..i]) && built.View().WellFormed()
      {
        var ok := built.AppendEntry(entries[i]);
        if !ok {
          return null;
        }
        assert entries[..i + 1] == entries[..i] + [entries[i]];
        i := i + 1;
      }
      assert entries[..i] == entries;
      return built;
    }
  }

  // Once a prefix of the journal cannot be replayed, neither can the journal.
  lemma {:induction false} ReplayBreaks(journal: seq<Record>, i: nat)
    requires i < |journal| && Replay(journal[..i]).Some?
    requires ReplayRecord(Replay(journal[..i]).value, journal[i]) == None
    ensures Replay(journal) == None
    decreases |journal|
  {
    assert journal[..i + 1][..i] == journal[..i];
    if i + 1 < |journal| {
      assert journal[..|journal| - 1][..i] == journal[..i];
      ReplayBreaks(journal[..|journal| - 1], i);
    } else {
      assert journal[..i + 1] == journal;
    }
  }
}

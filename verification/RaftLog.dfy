// log.py: the log of one node. Compaction removes a prefix and leaves a boundary, the
// index and term of the last removed entry, so a logical index sits at position
// index - baseIndex - 1. LogView is its value; Represents ties it to the log that
// was never compacted.

module RaftLogs {
  import opened Prelude
  import opened Types
  import opened History

  datatype LogView = LogView(baseIndex: int, baseTerm: int, entries: seq<LogEntry>) {

    // Indexes continue from the boundary without a gap.
    predicate WellFormed() {
      && 0 <= baseIndex
      && (baseIndex == 0 ==> baseTerm == 0)
      && (forall k :: 0 <= k < |entries| ==> entries[k].index == baseIndex + 1 + k)
    }

    function FirstIndex(): int { baseIndex + 1 }

    function LastIndex(): int { if entries == [] then baseIndex else entries[|entries| - 1].index }

    function LastTerm(): int { if entries == [] then baseTerm else entries[|entries| - 1].term }

    function Get(index: int): Option<LogEntry>
      requires WellFormed()
    {
      if index <= baseIndex || index > LastIndex() then None else Some(entries[index - baseIndex - 1])
    }

    function TermAt(index: int): Option<int>
      requires WellFormed()
    {
      if index == baseIndex then Some(baseTerm)
      else match Get(index) case None => None case Some(e) => Some(e.term)
    }

    // The entries at and after an index; indexes up to the boundary mean all that is retained.
    function EntriesFrom(index: int): seq<LogEntry> {
      var position := (if index <= FirstIndex() then FirstIndex() else index) - baseIndex - 1;
      if position <= |entries| then entries[position..] else []
    }

    function Append(term: int, command: Command): LogView {
      this.(entries := entries + [LogEntry(LastIndex() + 1, term, command)])
    }

    // None where the program raises ValueError, here and below.
    function AppendEntry(e: LogEntry): Option<LogView> {
      if e.index != LastIndex() + 1 then None else Some(this.(entries := entries + [e]))
    }

    function TruncateFrom(index: int): Option<LogView> {
      if index <= baseIndex then None
      else
        var position := index - baseIndex - 1;
        Some(if position < |entries| then this.(entries := entries[..position]) else this)
    }

    function CompactThrough(index: int): Option<LogView>
      requires WellFormed()
    {
      if index < baseIndex then None
      else if index == baseIndex then Some(this)
      else
        match TermAt(index)
        case None => None
        case Some(t) => Some(LogView(index, t, EntriesFrom(index + 1)))
    }

    function InstallBoundary(index: int, term: int): Option<LogView>
      requires WellFormed()
    {
      if index < baseIndex then None
      else if index == baseIndex then (if term != baseTerm then None else Some(this))
      else Some(LogView(index, term, if TermAt(index) == Some(term) then EntriesFrom(index + 1) else []))
    }
  }

  lemma CompactionFits(l: LogView, index: int)
    requires l.WellFormed() && l.baseIndex < index && l.TermAt(index).Some?
    ensures l.CompactThrough(index).Some?
  {
  }

  lemma CompactedBoundary(l: LogView, index: int)
    requires l.WellFormed() && l.CompactThrough(index).Some?
    ensures var c := l.CompactThrough(index).value;
      c.WellFormed() && c.baseIndex == index && l.TermAt(index) == Some(c.baseTerm)
  {
  }

  const EMPTY_LOG := LogView(0, 0, [])

  function TermOf(full: seq<LogEntry>, i: int): int {
    if 0 < i <= |full| then full[i - 1].term else 0
  }

  // l is full with everything up to its boundary removed.
  predicate Represents(l: LogView, full: seq<LogEntry>) {
    0 <= l.baseIndex <= |full| && l.baseTerm == TermOf(full, l.baseIndex) && l.entries == full[l.baseIndex..]
  }

  lemma RepresentedForm(l: LogView, full: seq<LogEntry>)
    requires WellNumbered(full) && Represents(l, full)
    ensures l.WellFormed() && l.LastIndex() == |full| && l.LastTerm() == LastTerm(full)
  {
    forall k | 0 <= k < |l.entries| ensures l.entries[k].index == l.baseIndex + 1 + k {
      assert l.entries[k] == full[l.baseIndex + k];
    }
    if l.entries != [] {
      assert l.entries[|l.entries| - 1] == full[|full| - 1];
    }
  }

  // A lookup at a single index.
  lemma RepresentedAt(l: LogView, full: seq<LogEntry>, i: int)
    requires WellNumbered(full) && Represents(l, full)
    ensures l.WellFormed() && l.LastIndex() == |full|
    ensures l.Get(i) == if l.baseIndex < i <= |full| then Some(full[i - 1]) else None
    ensures l.TermAt(i) == if l.baseIndex <= i <= |full| then Some(TermOf(full, i)) else None
  {
    RepresentedForm(l, full);
    if l.baseIndex < i <= |full| {
      assert l.entries[i - l.baseIndex - 1] == full[i - 1];
    }
  }

  lemma RepresentedFrom(l: LogView, full: seq<LogEntry>, i: int)
    requires WellNumbered(full) && Represents(l, full) && l.baseIndex < i <= |full| + 1
    ensures l.EntriesFrom(i) == full[i - 1..]
  {
    assert full[l.baseIndex..][i - 1 - l.baseIndex..] == full[i - 1..];
  }

  // Every lookup at or after the boundary reads the full log.
  lemma RepresentedReads(l: LogView, full: seq<LogEntry>)
    requires WellNumbered(full) && Represents(l, full)
    ensures l.WellFormed() && l.LastIndex() == |full| && l.LastTerm() == LastTerm(full)
    ensures forall i :: l.Get(i) == if l.baseIndex < i <= |full| then Some(full[i - 1]) else None
    ensures forall i :: l.TermAt(i) == if l.baseIndex <= i <= |full| then Some(TermOf(full, i)) else None
    ensures forall i :: l.baseIndex < i <= |full| + 1 ==> l.EntriesFrom(i) == full[i - 1..]
  {
    hide Represents, WellNumbered, TermOf;
    RepresentedForm(l, full);
    forall i ensures l.Get(i) == if l.baseIndex < i <= |full| then Some(full[i - 1]) else None {
      RepresentedAt(l, full, i);
    }
    forall i ensures l.TermAt(i) == if l.baseIndex <= i <= |full| then Some(TermOf(full, i)) else None {
      RepresentedAt(l, full, i);
    }
    forall i | l.baseIndex < i <= |full| + 1 ensures l.EntriesFrom(i) == full[i - 1..] {
      RepresentedFrom(l, full, i);
    }
  }

  lemma RepresentedAppend(l: LogView, full: seq<LogEntry>, term: int, command: Command)
    requires WellNumbered(full) && Represents(l, full)
    ensures Represents(l.Append(term, command), full + [LogEntry(|full| + 1, term, command)])
    ensures l.AppendEntry(LogEntry(|full| + 1, term, command)) == Some(l.Append(term, command))
  {
    RepresentedReads(l, full);
  }

  lemma RepresentedTruncate(l: LogView, full: seq<LogEntry>, index: int)
    requires WellNumbered(full) && Represents(l, full) && l.baseIndex < index <= |full|
    ensures l.TruncateFrom(index).Some? && Represents(l.TruncateFrom(index).value, full[..index - 1])
  {
    assert full[l.baseIndex..][..index - l.baseIndex - 1] == full[..index - 1][l.baseIndex..];
  }

  // Compaction removes entries and forgets nothing that is read later.
  lemma RepresentedCompact(l: LogView, full: seq<LogEntry>, index: int)
    requires WellNumbered(full) && Represents(l, full) && l.baseIndex <= index <= |full|
    ensures l.CompactThrough(index).Some? && Represents(l.CompactThrough(index).value, full)
    ensures l.CompactThrough(index).value.baseIndex == index
  {
    RepresentedReads(l, full);
  }

  // Below the boundary there is nothing to read but all that is retained, and truncating past
  // the end removes nothing.
  lemma RepresentedOutside(l: LogView, full: seq<LogEntry>, i: int)
    requires WellNumbered(full) && Represents(l, full)
    ensures i <= l.baseIndex ==> l.EntriesFrom(i) == full[l.baseIndex..]
    ensures |full| + 1 < i ==> l.EntriesFrom(i) == []
    ensures l.baseIndex < i && |full| < i ==> l.TruncateFrom(i) == Some(l)
  {
    assert l.entries[0..] == l.entries;
  }

  // Exactly when each change is refused.
  lemma RefusedExactly(l: LogView, full: seq<LogEntry>, e: LogEntry, index: int, term: int)
    requires WellNumbered(full) && Represents(l, full)
    ensures l.AppendEntry(e).Some? <==> e.index == |full| + 1
    ensures l.TruncateFrom(index).Some? <==> l.baseIndex < index
    ensures l.WellFormed()
    ensures l.CompactThrough(index).Some? <==> l.baseIndex <= index <= |full|
    ensures l.InstallBoundary(index, term).Some?
       <==> l.baseIndex < index || (l.baseIndex == index && term == l.baseTerm)
  {
    RepresentedAt(l, full, index);
  }

  // A snapshot of p replaces what the node held, unless the node already agrees with p there.
  function Restored(full: seq<LogEntry>, p: seq<LogEntry>): seq<LogEntry> {
    if TermOf(full, |p|) == LastTerm(p) && |p| <= |full| then full else p
  }

  lemma RepresentedBoundary(l: LogView, full: seq<LogEntry>, p: seq<LogEntry>)
    requires WellNumbered(full) && Represents(l, full) && l.baseIndex <= |p|
    requires l.baseIndex == |p| ==> LastTerm(p) == l.baseTerm
    ensures l.InstallBoundary(|p|, LastTerm(p)).Some?
    ensures l.InstallBoundary(|p|, LastTerm(p)).value.baseIndex == |p|
    ensures Represents(l.InstallBoundary(|p|, LastTerm(p)).value, Restored(full, p))
  {
    RepresentedReads(l, full);
  }

  // The log as the program keeps it. Each method is the operation of the same name on
  // LogView; where that is None the program raises ValueError and leaves the log as it was.
  class RaftLog {
    var baseIndex: int
    var baseTerm: int
    var entries: seq<LogEntry>

    function View(): LogView
      reads this
    {
      LogView(baseIndex, baseTerm, entries)
    }

    constructor (view: LogView)
      ensures View() == view
    {
      baseIndex, baseTerm, entries := view.baseIndex, view.baseTerm, view.entries;
    }

    // A negative term is refused.
    method Append(term: int, command: Command) returns (entry: Option<LogEntry>)
      modifies this
      ensures entry.Some? <==> 0 <= term
      ensures entry.Some? ==> entry == Some(LogEntry(old(View()).LastIndex() + 1, term, command))
      ensures View() == if 0 <= term then old(View()).Append(term, command) else old(View())
    {
      if term < 0 {
        return None;
      }
      var e := LogEntry(View().LastIndex() + 1, term, command);
      entries := entries + [e];
      return Some(e);
    }

    method AppendEntry(e: LogEntry) returns (ok: bool)
      modifies this
      ensures ok <==> old(View()).AppendEntry(e).Some?
      ensures View() == if ok then old(View()).AppendEntry(e).value else old(View())
    {
      var expected := View().LastIndex() + 1;
      if e.index != expected {
        return false;
      }
      entries := entries + [e];
      return true;
    }

    method TruncateFrom(index: int) returns (ok: bool)
      modifies this
      ensures ok <==> old(View()).TruncateFrom(index).Some?
      ensures View() == if ok then old(View()).TruncateFrom(index).value else old(View())
    {
      if index <= baseIndex {
        return false;
      }
      var position := index - baseIndex - 1;
      if position < |entries| {
        entries := entries[..position];
      }
      return true;
    }

    method CompactThrough(index: int) returns (ok: bool)
      requires View().WellFormed()
      modifies this
      ensures ok <==> old(View()).CompactThrough(index).Some?
      ensures View() == if ok then old(View()).CompactThrough(index).value else old(View())
    {
      if index < baseIndex {
        return false;
      }
      if index == baseIndex {
        return true;
      }
      var term := View().TermAt(index);
      if term == None {
        return false;
      }
      var retained := View().EntriesFrom(index + 1);
      baseIndex := index;
      baseTerm := term.value;
      entries := retained;
      return true;
    }

    method InstallSnapshotBoundary(index: int, term: int) returns (ok: bool)
      requires View().WellFormed()
      modifies this
      ensures ok <==> old(View()).InstallBoundary(index, term).Some?
      ensures View() == if ok then old(View()).InstallBoundary(index, term).value else old(View())
    {
      if index < baseIndex {
        return false;
      }
      if index == baseIndex {
        return term == baseTerm;
      }
      var retained: seq<LogEntry> := [];
      if View().TermAt(index) == Some(term) {
        retained := View().EntriesFrom(index + 1);
      }
      baseIndex := index;
      baseTerm := term;
      entries := retained;
      return true;
    }

    method Copy() returns (log: RaftLog)
      ensures fresh(log) && log.View() == View()
    {
      log := new RaftLog(View());
    }
  }
}

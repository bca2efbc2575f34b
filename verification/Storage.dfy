// storage/wal.py, storage/snapshot.py and storage/engine.py: the standalone engine, a store
// with a write-ahead log and a snapshot, recovered by replaying the one onto the other.

module Storage {
  import opened Prelude
  import opened Types
  import opened Stores
  import opened StateMachines

  // A line of the log file. Only the last one may lack its newline: a crash in the middle of an
  // append leaves a garbled line, or a whole record, without one, and whatever is written next
  // ends up on that line.
  datatype Line = Blank(terminated: bool) | Record(entry: Command, terminated: bool) | Garbled(terminated: bool)

  datatype Files = Files(snapshot: Store, wal: seq<Line>)

  const NO_FILES := Files(map[], [])

  // WAL.replay: a garbled last line is ignored, any other is WALCorruptionError, here None.
  function ReplayLines(lines: seq<Line>): Option<seq<Command>> {
    if lines == [] then Some([])
    else
      match lines[0]
      case Blank(_) => ReplayLines(lines[1..])
      case Garbled(_) => if |lines| == 1 then Some([]) else None
      case Record(e, _) =>
        match ReplayLines(lines[1..])
        case None => None
        case Some(rest) => Some([e] + rest)
  }

  function Shorn(lines: seq<Line>): seq<Line>
    requires lines != []
  {
    lines[..|lines| - 1]
  }

  // The file ends in the middle of a line with something on it.
  predicate Open(lines: seq<Line>) {
    lines != [] && !lines[|lines| - 1].terminated && !lines[|lines| - 1].Blank?
  }

  // The file is empty, or ends after a whole record and its newline, or in white space.
  predicate Sealed(lines: seq<Line>) {
    lines == [] || match lines[|lines| - 1] case Blank(_) => true case Record(_, t) => t case Garbled(_) => false
  }

  // The text of a line, written at the end of the file. JSON after JSON, or after a part of it,
  // is no JSON.
  function Joined(lines: seq<Line>, l: Line): seq<Line> {
    if Open(lines) then Shorn(lines) + [Garbled(l.terminated)]
    else if lines != [] && !lines[|lines| - 1].terminated then Shorn(lines) + [l]
    else lines + [l]
  }

  // WAL._append
  function AppendLine(lines: seq<Line>, e: Command): seq<Line> { Joined(lines, Record(e, true)) }

  // The same, cut short by a crash: in the middle of the record, or before its newline.
  function TornLine(lines: seq<Line>, e: Command, whole: bool): seq<Line> {
    Joined(lines, if whole then Record(e, false) else Garbled(false))
  }

  function ApplyAll(store: Store, es: seq<Command>): Store
    decreases |es|
  {
    if es == [] then store else ApplyAll(Apply(store, es[0]), es[1..])
  }

  predicate AllApplicable(es: seq<Command>) {
    forall i :: 0 <= i < |es| ==> Applicable(es[i])
  }

  // StorageEngine._recover: None where it raises.
  function Recovered(f: Files): Option<Store> {
    match ReplayLines(f.wal)
    case None => None
    case Some(es) => if AllApplicable(es) then Some(ApplyAll(f.snapshot, es)) else None
  }

  // ---- Replay is idempotent ----

  predicate Touches(es: seq<Command>, key: string) {
    exists i :: 0 <= i < |es| && es[i].key == key
  }

  predicate SameAt(a: Store, b: Store, key: string) {
    (key in a <==> key in b) && (key in a ==> a[key] == b[key])
  }

  // A replayed key ends up the same wherever the replay starts from; the others are untouched.
  lemma {:induction false} ReplayDecides(a: Store, b: Store, es: seq<Command>, key: string)
    requires AllApplicable(es) && (Touches(es, key) || SameAt(a, b, key))
    ensures SameAt(ApplyAll(a, es), ApplyAll(b, es), key)
    ensures !Touches(es, key) ==> SameAt(ApplyAll(a, es), a, key)
    decreases |es|
  {
    if es != [] {
      var a', b' := Apply(a, es[0]), Apply(b, es[0]);
      assert Applicable(es[0]);
      assert AllApplicable(es[1..]);
      if es[0].key == key {
        assert SameAt(a', b', key);
        assert Touches(es, key);
      } else {
        assert SameAt(a', a, key) && SameAt(b', b, key);
        if Touches(es, key) {
          var i :| 0 <= i < |es| && es[i].key == key;
          assert es[1..][i - 1].key == key;
        }
      }
      if !Touches(es, key) {
        assert !Touches(es[1..], key);
      }
      ReplayDecides(a', b', es[1..], key);
    }
  }

  lemma SameEverywhere(a: Store, b: Store)
    requires forall key :: SameAt(a, b, key)
    ensures a == b
  {
    forall key ensures key in a <==> key in b {
      assert SameAt(a, b, key);
    }
    forall key | key in a ensures a[key] == b[key] {
      assert SameAt(a, b, key);
    }
  }

  // Replaying a log onto its own result changes nothing.
  lemma ReplayIdempotent(store: Store, es: seq<Command>)
    requires AllApplicable(es)
    ensures ApplyAll(ApplyAll(store, es), es) == ApplyAll(store, es)
  {
    var once := ApplyAll(store, es);
    forall key ensures SameAt(ApplyAll(once, es), once, key) {
      if Touches(es, key) {
        ReplayDecides(once, store, es, key);
      } else {
        ReplayDecides(once, once, es, key);
      }
    }
    SameEverywhere(ApplyAll(once, es), once);
  }

  // ---- The log file ----

  predicate Whole(lines: seq<Line>) {
    forall i :: 0 <= i < |lines| ==> !lines[i].Garbled?
  }

  function EntryOf(l: Line): seq<Command> { if l.Record? then [l.entry] else [] }

  function Entries(lines: seq<Line>): seq<Command> {
    if lines == [] then [] else Entries(Shorn(lines)) + EntryOf(lines[|lines| - 1])
  }

  lemma {:induction false} ReplayWhole(lines: seq<Line>, last: seq<Line>)
    requires Whole(lines) && |last| <= 1
    ensures ReplayLines(lines + last) == Some(Entries(lines) + if last == [] then [] else EntryOf(last[0]))
    decreases |lines|
  {
    if lines == [] {
      assert lines + last == last;
      if last != [] {
        OneLine(last[0]);
        assert last == [last[0]] && [] + EntryOf(last[0]) == EntryOf(last[0]);
      }
    } else {
      ReplayFirst(lines[0], lines[1..] + last);
      assert [lines[0]] + (lines[1..] + last) == lines + last;
      ReplayWhole(lines[1..], last);
      EntriesFirst(lines);
      assert lines[0].Record? ==>
          EntryOf(lines[0]) + (Entries(lines[1..]) + if last == [] then [] else EntryOf(last[0]))
          == Entries(lines) + if last == [] then [] else EntryOf(last[0]);
      assert !lines[0].Record? ==> Entries(lines) == Entries(lines[1..]);
    }
  }

  lemma OneLine(l: Line)
    ensures ReplayLines([l]) == Some(EntryOf(l))
  {
    assert [l][1..] == [];
    assert l.Record? ==> [l.entry] + [] == [l.entry];
  }

  lemma ReplayFirst(l: Line, rest: seq<Line>)
    requires !l.Garbled?
    ensures ReplayLines([l] + rest)
         == match ReplayLines(rest) case None => None case Some(es) => Some(EntryOf(l) + es)
  {
    assert ([l] + rest)[1..] == rest;
    if ReplayLines(rest).Some? {
      assert [] + ReplayLines(rest).value == ReplayLines(rest).value;
    }
  }

  lemma {:induction false} EntriesFirst(lines: seq<Line>)
    requires lines != []
    ensures Entries(lines) == EntryOf(lines[0]) + Entries(lines[1..])
    decreases |lines|
  {
    if |lines| == 1 {
      assert Shorn(lines) == [] && lines[1..] == [];
      assert Entries(lines) == [] + EntryOf(lines[0]);
    } else {
      EntriesFirst(Shorn(lines));
      assert Shorn(lines)[1..] == Shorn(lines[1..]);
      assert Entries(lines[1..]) == Entries(Shorn(lines[1..])) + EntryOf(lines[|lines| - 1]);
    }
  }

  lemma {:induction false} GarbledInside(lines: seq<Line>, last: Line)
    requires !Whole(lines)
    ensures ReplayLines(lines + [last]) == None
    decreases |lines|
  {
    assert (lines + [last])[0] == lines[0];
    if !lines[0].Garbled? {
      assert !Whole(lines[1..]) by {
        var i :| 0 <= i < |lines| && lines[i].Garbled?;
        assert lines[1..][i - 1].Garbled?;
      }
      GarbledInside(lines[1..], last);
      assert (lines + [last])[1..] == lines[1..] + [last];
    }
  }

  // A log can be read exactly when no line but the last is garbled, and gives all its records.
  lemma ReplayIs(lines: seq<Line>)
    ensures ReplayLines(lines) == if lines == [] || Whole(Shorn(lines)) then Some(Entries(lines)) else None
  {
    if lines != [] {
      assert lines == Shorn(lines) + [lines[|lines| - 1]];
      if Whole(Shorn(lines)) {
        ReplayWhole(Shorn(lines), [lines[|lines| - 1]]);
      } else {
        GarbledInside(Shorn(lines), lines[|lines| - 1]);
      }
    }
  }

  lemma {:induction false} ApplyAllAppended(store: Store, es: seq<Command>, e: Command)
    ensures ApplyAll(store, es + [e]) == Apply(ApplyAll(store, es), e)
    decreases |es|
  {
    if es == [] {
      assert [e][1..] == [];
    } else {
      assert (es + [e])[1..] == es[1..] + [e];
      ApplyAllAppended(Apply(store, es[0]), es[1..], e);
    }
  }

  function WithoutLast(f: Files): Files
    requires f.wal != []
  {
    f.(wal := Shorn(f.wal))
  }

  // What a line written at the end of a readable log comes to.
  lemma LineWritten(f: Files, data: Store, l: Line)
    requires Recovered(f) == Some(data) && !l.Blank? && (l.Record? ==> Applicable(l.entry))
    ensures Sealed(f.wal) ==>
              Recovered(f.(wal := Joined(f.wal, l))) == Some(if l.Record? then Apply(data, l.entry) else data)
    ensures Open(f.wal) ==>
              Recovered(f.(wal := Joined(f.wal, l))) == Recovered(WithoutLast(f)) && Recovered(WithoutLast(f)).Some?
    ensures !Sealed(f.wal) && !Open(f.wal) ==> Recovered(f.(wal := Joined(f.wal, l))) == None
  {
    var wal := f.wal;
    ReplayIs(wal);
    if wal == [] {
      ReplayIs([l]);
      assert Shorn([l]) == [] && [] + [l] == [l];
      LineApplied(f.snapshot, [], l);
    } else if Open(wal) {
      BrokenLine(f, l);
    } else if !wal[|wal| - 1].terminated {
      LineAfter(f, data, Shorn(wal), l);
    } else if Sealed(wal) {
      LineAfter(f, data, wal, l);
    } else {
      GarbledInside(wal, l);
    }
  }

  lemma LineApplied(store: Store, es: seq<Command>, l: Line)
    requires AllApplicable(es) && (l.Record? ==> Applicable(l.entry))
    ensures AllApplicable(es + EntryOf(l))
    ensures ApplyAll(store, es + EntryOf(l))
         == if l.Record? then Apply(ApplyAll(store, es), l.entry) else ApplyAll(store, es)
  {
    if l.Record? {
      ApplyAllAppended(store, es, l.entry);
    } else {
      assert es + [] == es;
    }
  }

  lemma LineAfter(f: Files, data: Store, lines: seq<Line>, l: Line)
    requires Recovered(f) == Some(data) && Whole(lines) && ReplayLines(f.wal) == Some(Entries(f.wal))
    requires lines == f.wal || (f.wal != [] && lines == Shorn(f.wal) && f.wal[|f.wal| - 1].Blank?)
    requires l.Record? ==> Applicable(l.entry)
    ensures Recovered(f.(wal := lines + [l])) == Some(if l.Record? then Apply(data, l.entry) else data)
  {
    ReplayWhole(lines, [l]);
    assert Entries(lines) == Entries(f.wal) by {
      assert Entries(lines) + [] == Entries(lines);
    }
    LineApplied(f.snapshot, Entries(lines), l);
  }

  lemma BrokenLine(f: Files, l: Line)
    requires Recovered(f).Some? && Open(f.wal)
    ensures Recovered(f.(wal := Joined(f.wal, l))) == Recovered(WithoutLast(f)) && Recovered(WithoutLast(f)).Some?
  {
    var x := Shorn(f.wal);
    ReplayIs(f.wal);
    ReplayWhole(x, [Garbled(l.terminated)]);
    ReplayWhole(x, []);
    assert x + [] == x && Entries(x) + [] == Entries(x);
    assert forall i :: 0 <= i < |Entries(x)| ==> Entries(x)[i] == Entries(f.wal)[i];
  }

  // ---- Operations, write by write ----

  datatype Operation = Put(key: string, value: string) | Delete(key: string) | TakeSnapshot

  datatype FileWrite = WriteLine(entry: Command) | SaveData(data: Store) | ClearLog

  function PutEntry(key: string, value: string): Command { Command("PUT", key, Some(value)) }

  function DeleteEntry(key: string): Command { Command("DELETE", key, None) }

  function WritesOf(data: Store, op: Operation): seq<FileWrite> {
    match op
    case Put(k, v) => [WriteLine(PutEntry(k, v))]
    case Delete(k) => if k in data then [WriteLine(DeleteEntry(k))] else []
    case TakeSnapshot => [SaveData(data), ClearLog]
  }

  function ResultOf(data: Store, op: Operation): Store {
    match op
    case Put(k, v) => data[k := v]
    case Delete(k) => data - {k}
    case TakeSnapshot => data
  }

  function PerformWrite(f: Files, w: FileWrite): Files {
    match w
    case WriteLine(e) => f.(wal := AppendLine(f.wal, e))
    case SaveData(d) => f.(snapshot := d)
    case ClearLog => f.(wal := [])
  }

  function PerformWrites(f: Files, ws: seq<FileWrite>): Files
    decreases |ws|
  {
    if ws == [] then f else PerformWrites(PerformWrite(f, ws[0]), ws[1..])
  }

  lemma PerformsTwo(f: Files, a: FileWrite, b: FileWrite)
    ensures PerformWrites(f, [a, b]) == PerformWrite(PerformWrite(f, a), b)
  {
    assert [a, b][1..] == [b] && [b][1..] == [];
    assert PerformWrites(PerformWrite(f, a), [b]) == PerformWrites(PerformWrite(PerformWrite(f, a), b), []);
  }

  // Files that recover to this data, and to which a line can be added.
  predicate Hold(f: Files, data: Store) { Sealed(f.wal) && Recovered(f) == Some(data) }

  // Exactly when a completed write is there after a restart, to be checked before it. A file
  // that ends in the middle of a line must, without that line, hold the result already.
  predicate Lands(f: Files, result: Store) {
    Sealed(f.wal) || (Open(f.wal) && Recovered(WithoutLast(f)) == Some(result))
  }

  lemma WriteLands(f: Files, data: Store, e: Command)
    requires Recovered(f) == Some(data) && Applicable(e)
    ensures Recovered(PerformWrite(f, WriteLine(e))) == Some(Apply(data, e)) <==> Lands(f, Apply(data, e))
    ensures Hold(PerformWrite(f, WriteLine(e)), Apply(data, e)) <==> Sealed(f.wal)
  {
    LineWritten(f, data, Record(e, true));
  }

  // A crash in the middle of a write: what is recovered must be the data before it or after it.
  lemma TornLands(f: Files, data: Store, e: Command, whole: bool)
    requires Recovered(f) == Some(data) && Applicable(e)
    ensures var r := Recovered(f.(wal := TornLine(f.wal, e, whole)));
      r == Some(data) || r == Some(Apply(data, e)) <==> Lands(f, data) || Lands(f, Apply(data, e))
  {
    LineWritten(f, data, if whole then Record(e, false) else Garbled(false));
  }

  // The snapshot holds the log's own result: replaying the log onto it changes nothing, however
  // the log ends.
  lemma SnapshotHolds(f: Files, data: Store)
    requires Recovered(f) == Some(data)
    ensures Recovered(PerformWrite(f, SaveData(data))) == Some(data)
  {
    ReplayIdempotent(f.snapshot, ReplayLines(f.wal).value);
  }

  lemma ClearedHolds(f: Files, data: Store)
    requires f.snapshot == data
    ensures Hold(PerformWrite(f, ClearLog), data)
  {
  }

  // A completed snapshot leaves a log that can be added to, whatever was there before.
  lemma SnapshotSeals(f: Files, data: Store)
    ensures Hold(PerformWrites(f, WritesOf(data, TakeSnapshot)), data)
  {
    PerformsTwo(f, SaveData(data), ClearLog);
  }

  // A crash after any number of an operation's writes: what is recovered is the data before
  // the operation, or after it once all its writes are done, and nothing else.
  lemma CrashRecovers(f: Files, data: Store, op: Operation, j: nat)
    requires Hold(f, data) && j <= |WritesOf(data, op)|
    ensures Hold(PerformWrites(f, WritesOf(data, op)[..j]),
                 if j < |WritesOf(data, op)| then data else ResultOf(data, op))
  {
    var ws := WritesOf(data, op)[..j];
    if j == 1 {
      assert PerformWrites(f, ws) == PerformWrite(f, ws[0]);
    }
    match op
    case Put(k, v) => WriteLands(f, data, PutEntry(k, v));
    case Delete(k) =>
      WriteLands(f, data, DeleteEntry(k));
      assert k !in data ==> data - {k} == data;
    case TakeSnapshot =>
      SnapshotHolds(f, data);
      if j == 2 {
        SnapshotSeals(f, data);
        assert ws == WritesOf(data, TakeSnapshot);
      }
  }

  // ---- Runs ----

  // An operation is completed, or cut short by a crash after some of its writes, or in the
  // middle of writing its line; after a crash the engine is opened again.
  datatype Ending = Completed | Stopped(writes: nat) | Torn(whole: bool)

  datatype Step = Step(op: Operation, ending: Ending)

  function LineOf(data: Store, op: Operation): Option<Command> {
    var ws := WritesOf(data, op);
    if ws != [] && ws[0].WriteLine? then Some(ws[0].entry) else None
  }

  function StepFiles(f: Files, data: Store, s: Step): Files {
    var ws := WritesOf(data, s.op);
    match s.ending
    case Completed => PerformWrites(f, ws)
    case Stopped(j) => PerformWrites(f, if j < |ws| then ws[..j] else ws)
    case Torn(whole) =>
      match LineOf(data, s.op) case None => f case Some(e) => f.(wal := TornLine(f.wal, e, whole))
  }

  // A completed operation is there after a restart; one cut short is there or not.
  predicate Right(f: Files, data: Store, s: Step) {
    || Recovered(f) == Some(ResultOf(data, s.op))
    || (s.ending != Completed && Recovered(f) == Some(data))
  }

  // At every point of the run a restart would bring back what it should.
  predicate NothingLost(f: Files, data: Store, steps: seq<Step>)
    decreases |steps|
  {
    steps == [] ||
    var g := StepFiles(f, data, steps[0]);
    Right(g, data, steps[0]) && NothingLost(g, Recovered(g).value, steps[1..])
  }

  // To be checked before a step: a line is added only where it lands.
  predicate Guard(f: Files, data: Store, s: Step) {
    LineOf(data, s.op).Some? && s.ending != Stopped(0) ==>
      || Lands(f, ResultOf(data, s.op))
      || (s.ending != Completed && Lands(f, data))
  }

  predicate Guarded(f: Files, data: Store, steps: seq<Step>)
    decreases |steps|
  {
    steps == [] ||
    var g := StepFiles(f, data, steps[0]);
    Guard(f, data, steps[0]) && (Recovered(g).Some? ==> Guarded(g, Recovered(g).value, steps[1..]))
  }

  lemma LineResult(data: Store, op: Operation)
    ensures var l := LineOf(data, op);
      if l.Some? then
        WritesOf(data, op) == [WriteLine(l.value)] && Applicable(l.value) && ResultOf(data, op) == Apply(data, l.value)
      else ResultOf(data, op) == data
  {
    assert op.Delete? && op.key !in data ==> data - {op.key} == data;
  }

  // A delete adds a line exactly when it changes the data; a put always does, a snapshot never.
  lemma LineAdded(data: Store, op: Operation)
    ensures LineOf(data, op).Some? <==> op.Put? || (op.Delete? && ResultOf(data, op) != data)
    ensures op.TakeSnapshot? <==> |WritesOf(data, op)| == 2
  {
    if op.Delete? && op.key !in data {
      assert data - {op.key} == data;
    }
  }

  lemma LineStep(f: Files, data: Store, s: Step)
    requires Recovered(f) == Some(data) && LineOf(data, s.op).Some?
    ensures Right(StepFiles(f, data, s), data, s) <==> Guard(f, data, s)
  {
    LineResult(data, s.op);
    var e := LineOf(data, s.op).value;
    var ws := WritesOf(data, s.op);
    assert PerformWrites(f, [WriteLine(e)]) == PerformWrite(f, WriteLine(e));
    assert ws[..0] == [];
    match s.ending
    case Completed => WriteLands(f, data, e);
    case Stopped(j) => LineWritten(f, data, Record(e, true));
    case Torn(whole) => TornLands(f, data, e, whole);
  }

  lemma OtherStep(f: Files, data: Store, s: Step)
    requires Recovered(f) == Some(data) && LineOf(data, s.op) == None
    ensures Right(StepFiles(f, data, s), data, s)
  {
    LineResult(data, s.op);
    var ws := WritesOf(data, s.op);
    if s.op == TakeSnapshot {
      SnapshotHolds(f, data);
      SnapshotSeals(f, data);
      assert ws[..0] == [] && ws[..1] == [SaveData(data)];
      assert PerformWrites(f, [SaveData(data)]) == PerformWrite(f, SaveData(data));
    }
  }

  lemma {:induction false} GuardedExactly(f: Files, data: Store, steps: seq<Step>)
    requires Recovered(f) == Some(data)
    ensures NothingLost(f, data, steps) <==> Guarded(f, data, steps)
    decreases |steps|
  {
    hide Guard, StepFiles;
    if steps != [] {
      if LineOf(data, steps[0].op).Some? {
        LineStep(f, data, steps[0]);
      } else {
        OtherStep(f, data, steps[0]);
        NoLineGuarded(f, data, steps[0]);
      }
      var g := StepFiles(f, data, steps[0]);
      if Recovered(g).Some? {
        GuardedExactly(g, Recovered(g).value, steps[1..]);
      }
    }
  }

  lemma NoLineGuarded(f: Files, data: Store, s: Step)
    requires LineOf(data, s.op) == None
    ensures Guard(f, data, s)
  {
  }

  // A run of the engine loses nothing, at any point, if and only if it adds lines only where
  // they land.
  lemma NothingLostExactly(steps: seq<Step>)
    ensures NothingLost(NO_FILES, map[], steps) <==> Guarded(NO_FILES, map[], steps)
  {
    GuardedExactly(NO_FILES, map[], steps);
  }

  // ---- Runs whose crashes fall between writes, or are followed by a snapshot ----

  // What such a run comes to: an operation counts exactly when all its writes were done.
  function StepResult(data: Store, s: Step): Store {
    match s.ending
    case Completed => ResultOf(data, s.op)
    case Stopped(j) => if j < |WritesOf(data, s.op)| then data else ResultOf(data, s.op)
    case Torn(whole) => if whole then ResultOf(data, s.op) else data
  }

  function RunFiles(f: Files, data: Store, steps: seq<Step>): Files
    decreases |steps|
  {
    if steps == [] then f else RunFiles(StepFiles(f, data, steps[0]), StepResult(data, steps[0]), steps[1..])
  }

  function RunResult(data: Store, steps: seq<Step>): Store
    decreases |steps|
  {
    if steps == [] then data else RunResult(StepResult(data, steps[0]), steps[1..])
  }

  // The next thing after a torn line is a completed snapshot.
  predicate Careful(steps: seq<Step>)
    decreases |steps|
  {
    steps == [] ||
    if steps[0].ending.Torn? then
      |steps| == 1 || (steps[1] == Step(TakeSnapshot, Completed) && Careful(steps[2..]))
    else Careful(steps[1..])
  }

  lemma StepHolds(f: Files, data: Store, s: Step)
    requires Hold(f, data)
    ensures Recovered(StepFiles(f, data, s)) == Some(StepResult(data, s))
    ensures !s.ending.Torn? ==> Hold(StepFiles(f, data, s), StepResult(data, s))
  {
    var ws := WritesOf(data, s.op);
    LineResult(data, s.op);
    match s.ending
    case Completed =>
      assert ws[..|ws|] == ws;
      CrashRecovers(f, data, s.op, |ws|);
    case Stopped(j) =>
      assert ws[..|ws|] == ws;
      CrashRecovers(f, data, s.op, if j < |ws| then j else |ws|);
    case Torn(whole) =>
      if LineOf(data, s.op).Some? {
        LineWritten(f, data, if whole then Record(LineOf(data, s.op).value, false) else Garbled(false));
      }
  }

  lemma {:induction false} RunRecovers(f: Files, data: Store, steps: seq<Step>)
    requires Hold(f, data) && Careful(steps)
    ensures Recovered(RunFiles(f, data, steps)) == Some(RunResult(data, steps))
    decreases |steps|
  {
    hide StepFiles, StepResult, Hold, Recovered;
    HoldRecovers(f, data);
    if steps != [] {
      StepHolds(f, data, steps[0]);
      var g, d := StepFiles(f, data, steps[0]), StepResult(data, steps[0]);
      if !steps[0].ending.Torn? {
        RunRecovers(g, d, steps[1..]);
      } else if |steps| > 1 {
        SnapshotStep(g, d, steps[1]);
        assert steps[1..][0] == steps[1] && steps[1..][1..] == steps[2..];
        RunRecovers(StepFiles(g, d, steps[1]), d, steps[2..]);
      }
    }
  }

  lemma HoldRecovers(f: Files, data: Store)
    requires Hold(f, data)
    ensures Recovered(f) == Some(data)
  {
  }

  lemma SnapshotStep(f: Files, data: Store, s: Step)
    requires s == Step(TakeSnapshot, Completed)
    ensures Hold(StepFiles(f, data, s), data) && StepResult(data, s) == data
  {
    SnapshotSeals(f, data);
  }

  // Over any run whose crashes fall between writes, or in the middle of one with a snapshot
  // taken next, recovery gives exactly the data of the operations that were written.
  lemma EngineRecovers(steps: seq<Step>)
    requires Careful(steps)
    ensures Recovered(RunFiles(NO_FILES, map[], steps)) == Some(RunResult(map[], steps))
  {
    RunRecovers(NO_FILES, map[], steps);
  }

  // Recovery leaves a torn last line where it is, and also a whole record without its newline,
  // which it takes. The next completed put goes onto that line and both are lost; the one after
  // makes the log unreadable.
  lemma TornLineLosesPuts(f: Files, data: Store, d: Command, whole: bool, a: Command, b: Command)
    requires Hold(f, data) && Applicable(d) && Applicable(a) && Applicable(b)
    ensures var torn := f.(wal := TornLine(f.wal, d, whole));
      var once := PerformWrite(torn, WriteLine(a));
      && Recovered(torn) == Some(if whole then Apply(data, d) else data)
      && Recovered(once) == Some(data)
      && Recovered(PerformWrite(once, WriteLine(b))) == None
  {
    var torn := f.(wal := TornLine(f.wal, d, whole));
    LineWritten(f, data, if whole then Record(d, false) else Garbled(false));
    var found := if whole then Apply(data, d) else data;
    LineWritten(torn, found, Record(a, true));
    BeforeTorn(f, data, d, whole);
    var once := PerformWrite(torn, WriteLine(a));
    LineWritten(once, data, Record(b, true));
  }

  lemma BeforeTorn(f: Files, data: Store, d: Command, whole: bool)
    requires Hold(f, data)
    ensures var torn := f.(wal := TornLine(f.wal, d, whole));
      Open(torn.wal) && Recovered(WithoutLast(torn)) == Some(data)
  {
    var torn := f.(wal := TornLine(f.wal, d, whole));
    ReplayIs(f.wal);
    if f.wal != [] && !f.wal[|f.wal| - 1].terminated {
      assert Shorn(torn.wal) == Shorn(f.wal);
      ReplayWhole(Shorn(f.wal), []);
      assert Shorn(f.wal) + [] == Shorn(f.wal);
      assert Entries(Shorn(f.wal)) + [] == Entries(Shorn(f.wal));
    } else {
      assert Shorn(torn.wal) == f.wal;
    }
  }

  // ---- The objects ----

  // What a replay comes to, once these entries were read.
  function After(found: seq<Command>, rest: Option<seq<Command>>): Option<seq<Command>> {
    if rest == None then None else Some(found + rest.value)
  }

  lemma AfterNone(rest: Option<seq<Command>>)
    ensures After([], rest) == rest
  {
    if rest != None {
      assert [] + rest.value == rest.value;
    }
  }

  lemma AfterOne(found: seq<Command>, e: Command, rest: Option<seq<Command>>)
    ensures After(found, After([e], rest)) == After(found + [e], rest)
  {
    if rest != None {
      assert found + ([e] + rest.value) == (found + [e]) + rest.value;
    }
  }

  class WAL {
    var lines: seq<Line>

    constructor (lines: seq<Line>)
      ensures this.lines == lines
    {
      this.lines := lines;
    }

    method Append(e: Command)
      modifies this
      ensures lines == AppendLine(old(lines), e)
    {
      lines := AppendLine(lines, e);
    }

    method Replay() returns (entries: Option<seq<Command>>)
      ensures entries == ReplayLines(lines)
    {
      var found: seq<Command> := [];
      var i := 0;
      assert lines[i..] == lines;
      AfterNone(ReplayLines(lines));
      while i < |lines|
        invariant 0 <= i <= |lines|
        invariant ReplayLines(lines) == After(found, ReplayLines(lines[i..]))
      {
        assert lines[i..][0] == lines[i] && lines[i..][1..] == lines[i + 1..];
        match lines[i] {
          case Blank(_) =>
          case Garbled(_) =>
            if i == |lines| - 1 {
              assert found + [] == found;
              return Some(found);
            }
            return None;
          case Record(e, _) =>
            AfterOne(found, e, ReplayLines(lines[i + 1..]));
            found := found + [e];
        }
        i := i + 1;
      }
      assert lines[i..] == [] && found + [] == found;
      return Some(found);
    }

    method Truncate()
      modifies this
      ensures lines == []
    {
      lines := [];
    }
  }

  class SnapshotStore {
    var saved: Option<Store>

    constructor (saved: Option<Store>)
      ensures this.saved == saved
    {
      this.saved := saved;
    }

    function Data(): Store
      reads this
    {
      if saved == None then map[] else saved.value
    }

    method Save(data: Store)
      modifies this
      ensures saved == Some(data)
    {
      saved := Some(data);
    }
  }

  class StorageEngine {
    const store: KVStore
    const wal: WAL
    const snapshots: SnapshotStore

    function View(): Files
      reads wal, snapshots
    {
      Files(snapshots.Data(), wal.lines)
    }

    // Were the engine to stop here, recovery would bring back its store.
    predicate Durable()
      reads wal, snapshots, store
    {
      Hold(View(), store.data)
    }

    constructor (store: KVStore, wal: WAL, snapshots: SnapshotStore)
      ensures this.store == store && this.wal == wal && this.snapshots == snapshots
    {
      this.store, this.wal, this.snapshots := store, wal, snapshots;
    }

    // The constructor on existing files; null where recovery raises.
    static method Open(wal: WAL, snapshots: SnapshotStore) returns (engine: StorageEngine?)
      ensures engine != null <==> Recovered(Files(snapshots.Data(), wal.lines)).Some?
      ensures engine != null ==>
        fresh(engine) && fresh(engine.store) && engine.wal == wal && engine.snapshots == snapshots
        && Recovered(engine.View()) == Some(engine.store.data)
    {
      var store := new KVStore();
      var snapshot := snapshots.Data();
      if snapshot != map[] {
        store.Restore(snapshot);
      }
      var entries := wal.Replay();
      if entries == None {
        return null;
      }
      var es := entries.value;
      var i := 0;
      while i < |es|
        invariant 0 <= i <= |es| && AllApplicable(es[..i])
        invariant ApplyAll(store.data, es[i..]) == ApplyAll(snapshot, es)
      {
        assert es[i..][0] == es[i] && es[i..][1..] == es[i + 1..];
        var ok := ApplyCommand(store, es[i]);
        if !ok {
          return null;
        }
        i := i + 1;
      }
      assert es[..i] == es && es[i..] == [];
      engine := new StorageEngine(store, wal, snapshots);
    }

    // Whatever is on disk, the store and the files change as they should; and where a restart
    // would have brought the store back, it still would exactly when the line lands.
    method Put(key: string, value: string)
      modifies wal, store
      ensures store.data == ResultOf(old(store.data), Operation.Put(key, value))
      ensures View() == PerformWrites(old(View()), WritesOf(old(store.data), Operation.Put(key, value)))
      ensures old(Recovered(View()) == Some(store.data)) ==>
                (Recovered(View()) == Some(store.data) <==> Lands(old(View()), store.data))
      ensures old(Durable()) ==> Durable()
    {
      if Recovered(View()) == Some(store.data) {
        WriteLands(View(), store.data, PutEntry(key, value));
      }
      wal.Append(PutEntry(key, value));
      store.Put(key, value);
    }

    method Delete(key: string) returns (found: bool)
      modifies wal, store
      ensures store.data == ResultOf(old(store.data), Operation.Delete(key)) && (found <==> key in old(store.data))
      ensures View() == PerformWrites(old(View()), WritesOf(old(store.data), Operation.Delete(key)))
      ensures old(Recovered(View()) == Some(store.data)) ==>
                (Recovered(View()) == Some(store.data) <==> !found || Lands(old(View()), store.data))
      ensures old(Durable()) ==> Durable()
    {
      if key !in store.data {
        assert store.data - {key} == store.data;
        return false;
      }
      if Recovered(View()) == Some(store.data) {
        WriteLands(View(), store.data, DeleteEntry(key));
      }
      wal.Append(DeleteEntry(key));
      found := store.Delete(key);
    }

    // Also where the log had a torn line, a completed snapshot leaves everything durable.
    method CreateSnapshot()
      modifies wal, snapshots
      ensures Durable() && store.data == ResultOf(old(store.data), TakeSnapshot)
      ensures View() == PerformWrites(old(View()), WritesOf(old(store.data), TakeSnapshot))
    {
      ghost var before := View();
      var data := store.Snapshot();
      snapshots.Save(data);
      wal.Truncate();
      PerformsTwo(before, SaveData(data), ClearLog);
      ClearedHolds(PerformWrite(before, SaveData(data)), data);
    }
  }
}

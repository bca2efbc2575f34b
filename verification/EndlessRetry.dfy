// Why the retry loop of a leader need not end: a follower may compact what it was sent before its
// reply arrives, and a leader without a snapshot has nothing else to offer it. One run, event by
// event.

module EndlessRetry {
  import opened Prelude
  import opened Types
  import opened RaftLogs
  import opened RaftStates
  import opened StateMachines
  import opened Leaders
  import opened Replications
  import opened Nodes
  import opened Clusters
  import opened LeaderProof
  import opened Backtracking
  import opened Traces

  const LOG := LogView(0, 0, [ENTRY])
  const DATA: Store := map["k" := "v"]

  // C takes the entry, and A commits it.
  const C1 := C0.(state := StateView(C, 0, 1, None, Some(A), Follower, 0), log := LOG)
  const A4 := A3.(replication := Some(NewReplication(0, {B, C}).RecordMatch(C, 1)))
  const A5 := A4.(state := StateView(A, 1, 1, Some(A), Some(A), Leader, 1), store := DATA)

  // B takes and commits it too, and compacts it.
  const B2 := B1.(state := StateView(B, 1, 1, Some(A), Some(A), Follower, 1), log := LOG, store := DATA)
  const B3 := B2.(log := LogView(1, 1, []), snapshot := Snapshot(1, 1, DATA))

  const TO_C := AppendRequest(1, A, 0, 0, [ENTRY], 0)
  const TO_B := AppendRequest(1, A, 0, 0, [ENTRY], 1)

  lemma ASends()
    ensures A3.Sound() && C in A3.Followers() && NextRequest(A3, C) == Some(SendAppend(TO_C))
  {
    hide NextRequest;
    GroupSize();
    EntrySent(A3, C);
  }

  // All there is to send to someone who has nothing.
  lemma EntrySent(n: NodeView, f: NodeId)
    requires n.Sound() && n.log == LOG && n.state.role == Leader && n.replication.Some? && f in n.Followers()
    requires n.replication.value.nextIndex[f] == 1
    ensures NextRequest(n, f)
         == Some(SendAppend(AppendRequest(n.state.currentTerm, n.state.nodeId, 0, 0, [ENTRY], n.state.commitIndex)))
  {
    var full := [ENTRY];
    assert full[0..] == full;
    hide NextRequest, NodeView.Sound;
    RequestIs(n, full, f);
  }

  lemma EntryMerges()
    ensures MergeEntries(LogView(0, 0, []), [ENTRY]) == Some(LOG)
  {
    assert [ENTRY][1..] == [] && [] + [ENTRY] == [ENTRY];
    assert MergeEntry(LogView(0, 0, []), ENTRY) == Some(LOG);
  }

  lemma CTakes()
    ensures C0.Sound() && ReceiveAppend(C0, TO_C).Some?
    ensures ReceiveAppend(C0, TO_C).value.node == C1 && ReceiveAppend(C0, TO_C).value.reply == ReplicationReply(1, true)
  {
    EntryMerges();
  }

  lemma AMatches()
    ensures A3.Sound() && C in A3.Followers()
    ensures ReceiveAppendReply(A3, C, TO_C, ReplicationReply(1, true)).node == A4
  {
    GroupSize();
  }

  lemma EntryApplies(n: NodeView)
    requires n.log == LOG && n.state.lastApplied == 0
    ensures n.log.WellFormed()
    ensures ApplyCommitted(n.state.(commitIndex := 1), n.log, map[])
         == Some(Applied(n.state.(commitIndex := 1, lastApplied := 1), DATA))
  {
    assert DATA == Apply(map[], SET);
    assert n.log.Get(1) == Some(ENTRY);
    var done := n.state.(commitIndex := 1, lastApplied := 1);
    assert ApplyCommitted(done, n.log, DATA) == Some(Applied(done, DATA));
  }

  lemma ACommits()
    ensures A4.Sound() && AdvanceAndApply(A4, 1).Some? && AdvanceAndApply(A4, 1).value.node == A5
  {
    assert A4.log.Get(1) == Some(ENTRY);
    EntryApplies(A4);
  }

  lemma AQuorum()
    ensures IsQuorumIndex(A, A4.log.LastIndex(), A4.replication.value.matchIndex, |GROUP|, 1)
  {
    GroupSize();
    var matchIndex := A4.replication.value.matchIndex;
    assert C in matchIndex && matchIndex[C] == 1 && B in matchIndex && matchIndex[B] == 0 && matchIndex.Keys == {B, C};
    assert A4.log.LastIndex() == 1;
    QuorumOfTwo(A, C, B, matchIndex);
  }

  lemma ASendsOn()
    ensures A5.Sound() && B in A5.Followers() && NextRequest(A5, B) == Some(SendAppend(TO_B))
  {
    GroupSize();
    hide NextRequest;
    EntrySent(A5, B);
  }

  lemma BTakes()
    ensures B1.Sound() && ReceiveAppend(B1, TO_B).Some?
    ensures ReceiveAppend(B1, TO_B).value.node == B2
  {
    EntryMerges();
    var f := B1.(state := B1.state.BecomeFollower(1, Some(A)), log := LOG);
    EntryApplies(f);
    assert FollowerCommit(f.state, LOG, map[], 1) == Some(Applied(B2.state, DATA));
  }

  lemma BCompacts()
    ensures B2.Sound() && CreateSnapshot(B2).Some? && CreateSnapshot(B2).value.node == B3
  {
    GroupSize();
    assert B2.log.Get(1) == Some(ENTRY) && B2.log.TermAt(1) == Some(1);
    assert [ENTRY][1..] == [];
    assert B2.log.EntriesFrom(2) == [];
  }

  // ---- The run ----

  lemma Committed() returns (t: Trace)
    ensures Now(t, Three(A5, B1, C1))
  {
    hide Trace.Valid, NextRequest, ReceiveAppend, ReceiveAppendReply, AdvanceAndApply, IsQuorumIndex, NodeView.Sound;
    hide Cluster.Sound, Three, Now;
    GroupSize();
    var t4 := Opening();
    ASends();
    var t5, rpc := SendsTo(t4, Three(A3, B1, C0), A, C, TO_C);
    CTakes();
    ThreeUpdated(A3, B1, C0, C1);
    var t6 := Takes(t5, Three(A3, B1, C0), C, rpc, TO_C, C1, ReplicationReply(1, true));
    AMatches();
    ThreeUpdated(A3, B1, C1, A4);
    var t7 := Matches(t6, Three(A3, B1, C1), A, rpc, C, TO_C, ReplicationReply(1, true), A4);
    ACommits();
    AQuorum();
    ThreeUpdated(A4, B1, C1, A5);
    t := Closes(t7, Three(A4, B1, C1), A, 1, A5);
  }

  lemma Compacted() returns (t: Trace)
    ensures Now(t, Three(A5, B3, C1))
  {
    hide Trace.Valid, NextRequest, ReceiveAppend, CreateSnapshot, NodeView.Sound, Cluster.Sound, Three, Now;
    GroupSize();
    var t8 := Committed();
    ASendsOn();
    var t9, rpc := SendsTo(t8, Three(A5, B1, C1), A, B, TO_B);
    BTakes();
    ThreeUpdated(A5, B1, C1, B2);
    var t10 := Takes(t9, Three(A5, B1, C1), B, rpc, TO_B, B2, ReceiveAppend(B1, TO_B).value.reply);
    BCompacts();
    ThreeUpdated(A5, B2, C1, B3);
    t := Compacts(t10, Three(A5, B2, C1), B, B3);
  }

  lemma BoundaryMissed()
    ensures A5.Sound() && B3.Sound() && B in A5.Followers()
    ensures Ahead(A5, B3) && AgreeAtBase(A5, B3) && !WillEnd(A5, B3, B)
  {
    GroupSize();
    assert A5.log.Get(1) == Some(ENTRY) && A5.log.TermAt(1) == Some(1);
    assert A5.replication.value.nextIndex[B] == 1 && A5.replication.value.matchIndex[B] == 0;
  }

  // B holds all A has, but its reply was lost, and it has compacted the entry. Both are up, every
  // request is answered, nobody leaves the term, and the loop at A never returns: next_index
  // stays at 1, B has nothing before its boundary to compare, and A has no snapshot to send.
  lemma RetriesForEver() returns (states: seq<Cluster>, events: seq<Event>, i: nat)
    ensures RunFromStart(GROUP, states, events) && i < |states| && states[i].nodes == Three(A5, B3, C1)
    ensures A5.Sound() && B3.Sound() && B in A5.Followers() && Ahead(A5, B3) && AgreeAtBase(A5, B3)
    ensures GoesOn(A5, B3, B)
  {
    hide RunFromStart, NodeView.Sound, Cluster.Sound, Three, WillEnd, Ends, GoesOn, AgreeAtBase;
    GroupSize();
    var t := Compacted();
    states, events, i := t.states, t.events, |t.states| - 1;
    BoundaryMissed();
    RetryLoopEnds(GROUP, states, events, i, A, B);
  }
}

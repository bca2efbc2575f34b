// Why a client's True needs the term checked again: a leader that lost its entry and came back
// in a later term reports success for it. One run, event by event.

module FalseSuccess {
  import opened Prelude
  import opened Types
  import opened RaftLogs
  import opened RaftStates
  import opened StateMachines
  import opened Elections
  import opened Leaders
  import opened Replications
  import opened Nodes
  import opened Clusters
  import opened Submissions
  import opened Traces

  const OTHER := Command("PUT", "k", Some("w"))
  const TAKEN := LogEntry(1, 2, OTHER)
  const LOG := LogView(0, 0, [TAKEN])
  const DATA: Store := map["k" := "w"]

  // B is elected to term 2 without A's entry and commits its own at the same index.
  const B2 := B1.(state := StateView(B, 0, 2, Some(B), None, Candidate, 0), election := ElectionView({B}, true))
  const C1 := C0.(state := StateView(C, 0, 2, Some(B), None, Follower, 0))
  const B3 := B2.(state := StateView(B, 0, 2, Some(B), Some(B), Leader, 0), election := ElectionView({B, C}, false),
                  replication := Some(NewReplication(0, {A, C})))
  const B4 := B3.(log := LOG)
  const C2 := C1.(state := StateView(C, 0, 2, Some(B), Some(B), Follower, 0), log := LOG)
  const B5 := B4.(replication := Some(NewReplication(0, {A, C}).RecordMatch(C, 1)))
  const B6 := B5.(state := StateView(B, 1, 2, Some(B), Some(B), Leader, 1), store := DATA)

  // A takes it over, and is elected to term 3.
  const A4 := A3.(state := StateView(A, 1, 2, None, Some(B), Follower, 1), log := LOG,
                  store := DATA, replication := None)
  const A5 := A4.(state := StateView(A, 1, 3, Some(A), None, Candidate, 1), election := ElectionView({A}, true))
  const C3 := C2.(state := StateView(C, 0, 3, Some(A), None, Follower, 0))
  const A6 := A5.(state := StateView(A, 1, 3, Some(A), Some(A), Leader, 1), election := ElectionView({A, C}, false),
                  replication := Some(NewReplication(1, {B, C})))

  const VOTE2 := VoteRequest(2, B, 0, 0)
  const VOTE3 := VoteRequest(3, A, 1, 2)
  const TO_C := AppendRequest(2, B, 0, 0, [TAKEN], 0)
  const TO_A := AppendRequest(2, B, 0, 0, [TAKEN], 1)

  lemma BStands()
    ensures BeginElection(B1).node == B2 && BeginElection(B1).reply && VoteRequestOf(B2) == VOTE2
  {
    GroupSize();
  }

  lemma CVotes()
    ensures ReceiveVoteRequest(C0, VOTE2).node == C1 && ReceiveVoteRequest(C0, VOTE2).reply == VoteReply(2, true)
  {
  }

  lemma BWins()
    ensures ReceiveVoteReply(B2, C, VOTE2, VoteReply(2, true)).node == B3
  {
    GroupSize();
    assert |{B} + {C}| == 2 && {B} + {C} == {B, C};
  }

  lemma BSubmits()
    ensures B3.Sound() && Submit(B3, [OTHER]).Accepted? && Submit(B3, [OTHER]).effect.node == B4
  {
    GroupSize();
    assert [OTHER][..0] == [];
    assert AppendAll(LogView(0, 0, []), 2, [OTHER]) == LOG;
  }

  lemma BSends()
    ensures B4.Sound() && C in B4.Followers() && NextRequest(B4, C) == Some(SendAppend(TO_C))
  {
    GroupSize();
    assert [TAKEN][0..] == [TAKEN];
    assert B4.log.EntriesFrom(1) == [TAKEN];
  }

  lemma CTakes()
    ensures C1.Sound() && ReceiveAppend(C1, TO_C).Some?
    ensures ReceiveAppend(C1, TO_C).value.node == C2 && ReceiveAppend(C1, TO_C).value.reply == ReplicationReply(2, true)
  {
    assert [TAKEN][1..] == [] && [] + [TAKEN] == [TAKEN];
    assert MergeEntry(C1.log, TAKEN) == Some(LOG);
    assert MergeEntries(C1.log, [TAKEN]) == Some(LOG);
  }

  lemma BMatches()
    ensures B4.Sound() && C in B4.Followers()
    ensures ReceiveAppendReply(B4, C, TO_C, ReplicationReply(2, true)).node == B5
  {
    GroupSize();
  }

  lemma EntryApplies(n: NodeView)
    requires n.log == LOG && n.state.lastApplied == 0
    ensures n.log.WellFormed()
    ensures ApplyCommitted(n.state.(commitIndex := 1), n.log, map[])
         == Some(Applied(n.state.(commitIndex := 1, lastApplied := 1), DATA))
  {
    assert DATA == Apply(map[], OTHER);
    assert n.log.Get(1) == Some(TAKEN);
    var done := n.state.(commitIndex := 1, lastApplied := 1);
    assert ApplyCommitted(done, n.log, DATA) == Some(Applied(done, DATA));
  }

  lemma BCommits()
    ensures B5.Sound() && AdvanceAndApply(B5, 1).Some? && AdvanceAndApply(B5, 1).value.node == B6
  {
    assert B5.log.Get(1) == Some(TAKEN);
    EntryApplies(B5);
  }

  lemma BQuorum()
    ensures IsQuorumIndex(B, B5.log.LastIndex(), B5.replication.value.matchIndex, |GROUP|, 1)
  {
    GroupSize();
    var matchIndex := B5.replication.value.matchIndex;
    assert C in matchIndex && matchIndex[C] == 1 && A in matchIndex && matchIndex[A] == 0 && matchIndex.Keys == {A, C};
    assert B5.log.LastIndex() == 1;
    QuorumOfTwo(B, C, A, matchIndex);
  }

  lemma BSendsAgain()
    ensures B6.Sound() && A in B6.Followers() && NextRequest(B6, A) == Some(SendAppend(TO_A))
  {
    GroupSize();
    assert [TAKEN][0..] == [TAKEN];
    assert B6.log.EntriesFrom(1) == [TAKEN];
  }

  // The conflict at index 1 is repaired, and the request's commit index taken over.
  lemma ATakes()
    ensures A3.Sound() && ReceiveAppend(A3, TO_A).Some?
    ensures ReceiveAppend(A3, TO_A).value.node == A4 && ReceiveAppend(A3, TO_A).value.reply == ReplicationReply(2, true)
  {
    AMerges();
    var f := A3.(state := A3.state.BecomeFollower(2, Some(B)), log := LOG);
    EntryApplies(f);
    assert FollowerCommit(f.state, LOG, map[], 1) == Some(Applied(A4.state, DATA));
  }

  lemma AMerges()
    ensures A3.log.WellFormed() && MergeEntries(A3.log, [TAKEN]) == Some(LOG)
  {
    assert A3.log.Get(1) == Some(ENTRY);
    assert [ENTRY][..0] == [] && [] + [TAKEN] == [TAKEN] && [TAKEN][1..] == [];
    assert MergeEntry(A3.log, TAKEN) == Some(LOG);
  }

  lemma AStandsAgain()
    ensures BeginElection(A4).node == A5 && BeginElection(A4).reply && VoteRequestOf(A5) == VOTE3
  {
    GroupSize();
  }

  lemma CVotesAgain()
    ensures ReceiveVoteRequest(C2, VOTE3).node == C3 && ReceiveVoteRequest(C2, VOTE3).reply == VoteReply(3, true)
  {
  }

  lemma AWinsAgain()
    ensures ReceiveVoteReply(A5, C, VOTE3, VoteReply(3, true)).node == A6
  {
    GroupSize();
    assert |{A} + {C}| == 2 && {A} + {C} == {A, C};
  }

  // ---- The run ----

  lemma SecondTerm(t4: Trace) returns (t: Trace)
    requires Now(t4, Three(A3, B1, C0))
    ensures Now(t, Three(A3, B4, C1)) && Extends(t4, t) && |t.states| > |t4.states|
  {
    hide Trace.Valid, BeginElection, VoteRequestOf, ReceiveVoteRequest, ReceiveVoteReply, Submit, NodeView.Sound;
    hide Cluster.Sound, Three, Now, Extends;
    GroupSize();
    BStands();
    ThreeUpdated(A3, B1, C0, B2);
    var t5 := TimesOut(t4, Three(A3, B1, C0), B, B2, VOTE2, C);
    CVotes();
    ThreeUpdated(A3, B2, C0, C1);
    var t6 := Ballots(t5, Three(A3, B2, C0), C, VOTE2, C1, VoteReply(2, true));
    BWins();
    ThreeUpdated(A3, B2, C1, B3);
    var t7 := Counts(t6, Three(A3, B2, C1), B, C, VOTE2, VoteReply(2, true), B3);
    BSubmits();
    ThreeUpdated(A3, B3, C1, B4);
    t := Submits(t7, Three(A3, B3, C1), B, [OTHER], B4);
    ExtendsOn(t4, t5, t6);
    ExtendsOn(t4, t6, t7);
    ExtendsOn(t4, t7, t);
  }

  lemma OtherCommitted(t8: Trace) returns (t: Trace)
    requires Now(t8, Three(A3, B4, C1))
    ensures Now(t, Three(A3, B6, C2)) && Extends(t8, t) && |t.states| > |t8.states|
  {
    hide Trace.Valid, NextRequest, ReceiveAppend, ReceiveAppendReply, AdvanceAndApply, IsQuorumIndex, NodeView.Sound;
    hide Cluster.Sound, Three, Now, Extends;
    GroupSize();
    BSends();
    var t9, rpc := SendsTo(t8, Three(A3, B4, C1), B, C, TO_C);
    CTakes();
    ThreeUpdated(A3, B4, C1, C2);
    var t10 := Takes(t9, Three(A3, B4, C1), C, rpc, TO_C, C2, ReplicationReply(2, true));
    BMatches();
    ThreeUpdated(A3, B4, C2, B5);
    var t11 := Matches(t10, Three(A3, B4, C2), B, rpc, C, TO_C, ReplicationReply(2, true), B5);
    BCommits();
    BQuorum();
    ThreeUpdated(A3, B5, C2, B6);
    t := Closes(t11, Three(A3, B5, C2), B, 1, B6);
    ExtendsOn(t8, t9, t10);
    ExtendsOn(t8, t10, t11);
    ExtendsOn(t8, t11, t);
  }

  lemma ThirdTerm(t12: Trace) returns (t: Trace)
    requires Now(t12, Three(A3, B6, C2))
    ensures Now(t, Three(A6, B6, C3)) && Extends(t12, t) && |t.states| > |t12.states|
  {
    hide Trace.Valid, BeginElection, VoteRequestOf, ReceiveVoteRequest, ReceiveVoteReply, NextRequest, ReceiveAppend;
    hide NodeView.Sound, Cluster.Sound, Three, Now, Extends;
    GroupSize();
    BSendsAgain();
    var t13, rpc := SendsTo(t12, Three(A3, B6, C2), B, A, TO_A);
    ATakes();
    ThreeUpdated(A3, B6, C2, A4);
    var t14 := Takes(t13, Three(A3, B6, C2), A, rpc, TO_A, A4, ReplicationReply(2, true));
    AStandsAgain();
    ThreeUpdated(A4, B6, C2, A5);
    var t15 := TimesOut(t14, Three(A4, B6, C2), A, A5, VOTE3, C);
    CVotesAgain();
    ThreeUpdated(A5, B6, C2, C3);
    var t16 := Ballots(t15, Three(A5, B6, C2), C, VOTE3, C3, VoteReply(3, true));
    AWinsAgain();
    ThreeUpdated(A5, B6, C3, A6);
    t := Counts(t16, Three(A5, B6, C3), A, C, VOTE3, VoteReply(3, true), A6);
    ExtendsOn(t12, t13, t14);
    ExtendsOn(t12, t14, t15);
    ExtendsOn(t12, t15, t16);
    ExtendsOn(t12, t16, t);
  }

  // A submitted the entry, leads again, and its commit index has reached the entry's index: the
  // program reports True. But another entry was committed there, and A itself holds it.
  lemma SuccessForLostEntry() returns (states: seq<Cluster>, events: seq<Event>, i: nat, j: nat)
    ensures RunFromStart(GROUP, states, events) && Submitted(states, events, i, A, [SET], ENTRY, 0) && i < j < |states|
    ensures A in states[j].nodes && Reported(states[j].nodes[A], ENTRY) && states[j].nodes[A].replication.Some?
    ensures states[j].nodes[A].log.WellFormed() && states[j].nodes[A].log.Get(ENTRY.index) == Some(TAKEN)
    ensures TAKEN != ENTRY
    ensures states[j].nodes[A].store == map["k" := "w"]
  {
    hide RunFromStart, Cluster.Sound, NodeView.Sound, Three, Submit, Reported, Now;
    var t4, t17 := WholeRun();
    states, events := t17.states, t17.events;
    i, j := 3, |t17.states| - 1;
    assert states[3] == t4.states[3] && events[3] == t4.events[3];
    AReplies();
    Outcome(t17);
  }

  lemma WholeRun() returns (t4: Trace, t: Trace)
    ensures Now(t, Three(A6, B6, C3)) && Extends(t4, t) && |t.states| > |t4.states| == 5 && |t4.events| == 4
    ensures t4.events[3] == Complete(SubmitBatch(A, [SET])) && t4.states[3].Sound()
    ensures A in t4.states[3].nodes && t4.states[3].nodes[A] == A2 && t4.states[3].members == GROUP
  {
    hide RunFromStart, Cluster.Sound, NodeView.Sound, Three, Now, Extends;
    t4 := Opening();
    var t8 := SecondTerm(t4);
    var t12 := OtherCommitted(t8);
    t := ThirdTerm(t12);
    ExtendsOn(t4, t8, t12);
    ExtendsOn(t4, t12, t);
  }

  lemma Outcome(t: Trace)
    requires Now(t, Three(A6, B6, C3))
    ensures RunFromStart(GROUP, t.states, t.events) && t.states != []
    ensures A in t.Last().nodes && t.Last().nodes[A] == A6
    ensures Reported(A6, ENTRY) && A6.replication.Some? && A6.log.WellFormed() && A6.log.Get(1) == Some(TAKEN)
  {
    hide RunFromStart, Cluster.Sound, Three;
  }

  lemma AReplies()
    ensures A2.Sound() && Submit(A2, [SET]).Accepted? && Submit(A2, [SET]).effect.reply == [ENTRY]
  {
    ASubmits();
    assert [SET][..0] == [];
    assert AppendAll(LogView(0, 0, []), 1, [SET]).entries == [ENTRY];
  }
}

// Why a read needs more than the quorum barrier: a new leader appends no entry of its own, so
// its commit index may lag behind what its predecessor committed. One run, event by event.

module StaleRead {
  import opened Prelude
  import opened Types
  import opened RaftLogs
  import opened RaftStates
  import opened StateMachines
  import opened Elections
  import opened Leaders
  import opened Replications
  import opened Nodes
  import opened Clusters
  import opened Reads
  import opened Traces

  const B2 := B1.(state := StateView(B, 0, 1, Some(A), Some(A), Follower, 0), log := LogView(0, 0, [ENTRY]))
  const A4 := A3.(replication := Some(NewReplication(0, {B, C}).RecordMatch(B, 1)))
  const A5 := A4.(state := StateView(A, 1, 1, Some(A), Some(A), Leader, 1), store := map["k" := "v"])
  const B3 := B2.(state := StateView(B, 0, 2, Some(B), None, Candidate, 0), election := ElectionView({B}, true))
  const C1 := C0.(state := StateView(C, 0, 2, Some(B), None, Follower, 0))
  const B4 := B3.(state := StateView(B, 0, 2, Some(B), Some(B), Leader, 0), election := ElectionView({B, C}, false),
                  replication := Some(NewReplication(1, {A, C})))
  const A6 := A5.(state := StateView(A, 1, 2, None, Some(B), Follower, 1), replication := None)

  const A7 := A3.(state := StateView(A, 0, 2, None, Some(B), Follower, 0), replication := None)

  const VOTE2 := VoteRequest(2, B, 1, 1)
  const APPEND := AppendRequest(1, A, 0, 0, [ENTRY], 0)
  const BEAT := AppendRequest(2, B, 1, 1, [], 0)

  lemma ASends()
    ensures A3.Sound() && B in A3.Followers() && NextRequest(A3, B) == Some(SendAppend(APPEND))
  {
    GroupSize();
    assert [ENTRY][0..] == [ENTRY];
    assert A3.log.EntriesFrom(1) == [ENTRY];
  }

  lemma BTakes()
    ensures B1.Sound() && ReceiveAppend(B1, APPEND).Some?
    ensures ReceiveAppend(B1, APPEND).value.node == B2
    ensures ReceiveAppend(B1, APPEND).value.reply == ReplicationReply(1, true)
  {
    assert [ENTRY][1..] == [] && [] + [ENTRY] == [ENTRY];
    assert MergeEntry(B1.log, ENTRY) == Some(LogView(0, 0, [ENTRY]));
    assert MergeEntries(B1.log, [ENTRY]) == Some(LogView(0, 0, [ENTRY]));
  }

  lemma AMatches()
    ensures A3.Sound() && B in A3.Followers()
    ensures ReceiveAppendReply(A3, B, APPEND, ReplicationReply(1, true)).node == A4
  {
    GroupSize();
  }

  lemma ACommits()
    ensures A4.Sound() && AdvanceAndApply(A4, 1).Some? && AdvanceAndApply(A4, 1).value.node == A5
  {
    assert map["k" := "v"] == Apply(map[], SET);
    assert A4.log.Get(1) == Some(ENTRY);
    AApplies();
  }

  lemma AApplies()
    ensures A4.log.WellFormed()
    ensures ApplyCommitted(A4.state.(commitIndex := 1), A4.log, map[])
         == Some(Applied(A4.state.(commitIndex := 1, lastApplied := 1), Apply(map[], SET)))
  {
    assert A4.log.Get(1) == Some(ENTRY);
    var done := A4.state.(commitIndex := 1, lastApplied := 1);
    assert ApplyCommitted(done, A4.log, Apply(map[], SET)) == Some(Applied(done, Apply(map[], SET)));
  }

  lemma AQuorum()
    ensures IsQuorumIndex(A, A4.log.LastIndex(), A4.replication.value.matchIndex, |GROUP|, 1)
  {
    GroupSize();
    var matchIndex := A4.replication.value.matchIndex;
    assert B in matchIndex && matchIndex[B] == 1 && C in matchIndex && matchIndex[C] == 0 && matchIndex.Keys == {B, C};
    assert A4.log.LastIndex() == 1;
    QuorumOfTwo(A, B, C, matchIndex);
  }

  lemma BStands()
    ensures BeginElection(B2).node == B3 && BeginElection(B2).reply && VoteRequestOf(B3) == VOTE2
  {
    GroupSize();
  }

  lemma CVotes()
    ensures ReceiveVoteRequest(C0, VOTE2).node == C1 && ReceiveVoteRequest(C0, VOTE2).reply == VoteReply(2, true)
  {
  }

  lemma BWins()
    ensures ReceiveVoteReply(B3, C, VOTE2, VoteReply(2, true)).node == B4
  {
    GroupSize();
    assert |{B} + {C}| == 2 && {B} + {C} == {B, C};
  }

  lemma BBeats()
    ensures B4.Sound() && A in B4.Followers() && NextRequest(B4, A) == Some(SendAppend(BEAT))
  {
    GroupSize();
    assert [ENTRY][1..] == [];
  }

  lemma AAnswers()
    ensures A5.Sound() && ReceiveAppend(A5, BEAT).Some?
    ensures ReceiveAppend(A5, BEAT).value.node == A6 && ReceiveAppend(A5, BEAT).value.reply == ReplicationReply(2, true)
  {
    assert MergeEntries(A5.log, []) == Some(A5.log);
  }

  lemma AYields()
    ensures A3.Sound() && ReceiveAppend(A3, BEAT).Some?
    ensures ReceiveAppend(A3, BEAT).value.node == A7 && ReceiveAppend(A3, BEAT).value.reply == ReplicationReply(2, true)
  {
    GroupSize();
    assert A3.log.Get(1) == Some(ENTRY);
    assert MergeEntries(A3.log, []) == Some(A3.log);
  }

  // B takes the entry; A has not heard of it yet.
  lemma EntryTaken() returns (t: Trace, rpc: nat)
    ensures Now(t, Three(A3, B2, C0)) && AppendReplyMsg(rpc, B, APPEND, ReplicationReply(1, true)) in t.Last().network
  {
    hide Trace.Valid, NextRequest, ReceiveAppend, NodeView.Sound, Cluster.Sound, Three, Now;
    GroupSize();
    var t4 := Opening();
    ASends();
    var t5;
    t5, rpc := SendsTo(t4, Three(A3, B1, C0), A, B, APPEND);
    BTakes();
    ThreeUpdated(A3, B1, C0, B2);
    t := Takes(t5, Three(A3, B1, C0), B, rpc, APPEND, B2, ReplicationReply(1, true));
  }

  // A commits the entry with B's help.
  lemma FirstTerm() returns (t: Trace)
    ensures Now(t, Three(A5, B2, C0))
  {
    hide Trace.Valid, ReceiveAppendReply, AdvanceAndApply, IsQuorumIndex, NodeView.Sound, Cluster.Sound, Three, Now;
    GroupSize();
    var t6, rpc := EntryTaken();
    AMatches();
    ThreeUpdated(A3, B2, C0, A4);
    var t7 := Matches(t6, Three(A3, B2, C0), A, rpc, B, APPEND, ReplicationReply(1, true), A4);
    ACommits();
    AQuorum();
    ThreeUpdated(A4, B2, C0, A5);
    t := Closes(t7, Three(A4, B2, C0), A, 1, A5);
  }

  // B, which holds the entry, is elected to term 2, whatever A has made of its reply.
  lemma SecondTerm(t8: Trace, a: NodeView) returns (t: Trace)
    requires Now(t8, Three(a, B2, C0))
    ensures Now(t, Three(a, B4, C1))
  {
    hide Trace.Valid, BeginElection, VoteRequestOf, ReceiveVoteRequest, ReceiveVoteReply, NodeView.Sound,
          Cluster.Sound, Three, Now;
    GroupSize();
    BStands();
    ThreeUpdated(a, B2, C0, B3);
    var t9 := TimesOut(t8, Three(a, B2, C0), B, B3, VOTE2, C);
    CVotes();
    ThreeUpdated(a, B3, C0, C1);
    var t10 := Ballots(t9, Three(a, B3, C0), C, VOTE2, C1, VoteReply(2, true));
    BWins();
    ThreeUpdated(a, B3, C1, B4);
    t := Counts(t10, Three(a, B3, C1), B, C, VOTE2, VoteReply(2, true), B4);
  }

  // All a read barrier asks for: from time i to time j the node n at B leads term 2, and A, with
  // B a majority, answers a request B sends in between.
  ghost predicate BarrierRun(states: seq<Cluster>, events: seq<Event>, i: nat, j: nat, n: NodeView) {
    && RunFromStart(GROUP, states, events) && i <= j < |states|
    && states[i].nodes.Keys == states[j].nodes.Keys == GROUP
    && states[i].nodes[B] == n == states[j].nodes[B] && n.state.role == Leader && n.state.currentTerm == 2
    && Confirmed(states[i], states[j], B, {A, B}, 2)
  }

  lemma Barrier(t11: Trace, a: NodeView, a': NodeView)
    returns (states: seq<Cluster>, events: seq<Event>, i: nat, j: nat)
    requires Now(t11, Three(a, B4, C1)) && a.Sound()
    requires ReceiveAppend(a, BEAT).Some?
    requires ReceiveAppend(a, BEAT).value.node == a' && ReceiveAppend(a, BEAT).value.reply == ReplicationReply(2, true)
    ensures BarrierRun(states, events, i, j, B4) && states[i].nodes == Three(a, B4, C1)
  {
    hide RunFromStart, Cluster.Sound, NodeView.Sound, NextRequest, ReceiveAppend, Three;
    GroupSize();
    BBeats();
    var t12, rpc := SendsTo(t11, Three(a, B4, C1), B, A, BEAT);
    ThreeUpdated(a, B4, C1, a');
    var t13 := Takes(t12, Three(a, B4, C1), A, rpc, BEAT, a', ReplicationReply(2, true));
    states, events := t13.states, t13.events;
    i, j := |t11.states| - 1, |t13.states| - 1;
    Earlier(t11, t12, t13);
    BarrierPassed(t11.Last(), t13.Last(), rpc);
  }

  // The barrier is passed, yet B's store is empty, while A had committed and applied the entry
  // before the barrier began: at B that entry, of an earlier term, is still pending.
  lemma BarrierAloneReadsStale() returns (states: seq<Cluster>, events: seq<Event>, i: nat, j: nat)
    ensures BarrierRun(states, events, i, j, B4)
    ensures states[i].nodes[A].state.commitIndex == 1 && states[i].nodes[A].store == map["k" := "v"]
    ensures B4.state.commitIndex == 0 && B4.store == map[] && !NothingPending(B4)
  {
    hide NodeView.Sound, ReceiveAppend, Three, Now, BarrierRun;
    GroupSize();
    var t8 := FirstTerm();
    var t11 := SecondTerm(t8, A5);
    AAnswers();
    states, events, i, j := Barrier(t11, A5, A6);
    assert B4.log.TermAt(1) == Some(1);
  }

  // No condition on the leader decides it: here the very same B passes the very same barrier,
  // and nobody had committed anything it misses.
  lemma SameLeaderReadsAll() returns (states: seq<Cluster>, events: seq<Event>, i: nat, j: nat)
    ensures BarrierRun(states, events, i, j, B4)
    ensures forall x :: x in GROUP ==> states[i].nodes[x].state.commitIndex <= B4.state.commitIndex
  {
    hide NodeView.Sound, ReceiveAppend, Now, BarrierRun;
    GroupSize();
    var t6, _ := EntryTaken();
    var t11 := SecondTerm(t6, A3);
    AYields();
    states, events, i, j := Barrier(t11, A3, A7);
  }

  lemma Earlier(t: Trace, u: Trace, v: Trace)
    requires t.states != [] && |u.states| == |t.states| + 1 && t.states == u.states[..|t.states|]
    requires |v.states| == |u.states| + 1 && u.states == v.states[..|u.states|]
    ensures v.states[|t.states| - 1] == t.Last()
  {
    assert v.states[|t.states| - 1] == u.states[|t.states| - 1];
    assert u.states[|t.states| - 1] == t.states[|t.states| - 1];
  }

  lemma BarrierPassed(s: Cluster, s': Cluster, rpc: nat)
    requires s'.members == GROUP && s.nextRpc == rpc
    requires AppendReplyMsg(rpc, A, BEAT, ReplicationReply(2, true)) in s'.network
    ensures Confirmed(s, s', B, {A, B}, 2)
  {
    GroupSize();
    assert Answers(AppendReplyMsg(rpc, A, BEAT, ReplicationReply(2, true)), A, 2, rpc);
    assert |{A, B}| == 2;
  }
}

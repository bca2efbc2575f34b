// Why True from the retry loop need not mean that the follower holds the leader's log: a follower
// that stopped in the middle of installing a later leader's snapshot comes back in its old term,
// and an old leader still counts what it acknowledged before. One run of a group of five.

module TrueApart {
  import opened Prelude
  import opened Types
  import opened RaftLogs
  import opened RaftStates
  import opened StateMachines
  import opened Elections
  import opened Leaders
  import opened Replications
  import opened Journals
  import opened Nodes
  import opened Clusters
  import opened Agreement
  import opened LeaderProof
  import opened Durability
  import opened Backtracking
  import opened Traces

  const D := NodeId("d")
  const E := NodeId("e")
  const FIVE := {A, B, C, D, E}

  lemma FiveDiffer()
    ensures A != B && A != C && A != D && A != E && B != C && B != D && B != E && C != D && C != E && D != E
  {
    assert A.name == "a" && B.name == "b" && C.name == "c" && D.name == "d" && E.name == "e";
  }

  lemma FiveSize()
    ensures |FIVE| == 5 && FIVE - {A} == {B, C, D, E} && FIVE - {B} == {A, C, D, E}
    ensures A != B && A != C && A != D && A != E && B != C && B != D && B != E && C != D && C != E && D != E
  {
    FiveDiffer();
    assert |{A, B, C}| == 3;
    assert FIVE == {A, B, C} + {D, E} && |{D, E}| == 2 && {A, B, C} !! {D, E};
  }

  function Five(a: NodeView, b: NodeView, c: NodeView, d: NodeView, e: NodeView): (g: Group)
    ensures g.Keys == FIVE && g[A] == a && g[B] == b && g[C] == c && g[D] == d && g[E] == e
  {
    FiveDiffer();
    map[A := a, B := b, C := c, D := d, E := e]
  }

  lemma FiveUpdated(a: NodeView, b: NodeView, c: NodeView, d: NodeView, e: NodeView, x: NodeView)
    ensures Five(a, b, c, d, e)[A := x] == Five(x, b, c, d, e)
    ensures Five(a, b, c, d, e)[B := x] == Five(a, x, c, d, e)
    ensures Five(a, b, c, d, e)[C := x] == Five(a, b, x, d, e)
    ensures Five(a, b, c, d, e)[D := x] == Five(a, b, c, x, e)
    ensures Five(a, b, c, d, e)[E := x] == Five(a, b, c, d, x)
  {
    FiveDiffer();
  }

  const AGAIN := Command("PUT", "k", Some("w"))
  const OTHER := Command("PUT", "k", Some("x"))
  const SECOND := LogEntry(2, 1, AGAIN)
  const RIVAL := LogEntry(2, 2, OTHER)
  const OLD: Store := map["k" := "v"]
  const NEW: Store := map["k" := "x"]
  const LOG1 := LogView(0, 0, [ENTRY])
  const LOG2 := LogView(0, 0, [ENTRY, RIVAL])

  // A leads term 1, commits its first entry with B and C and compacts it, and has its second
  // acknowledged by C alone.
  const A0 := FreshNode(A, FIVE)
  const A1 := A0.(state := StateView(A, 0, 1, Some(A), None, Candidate, 0), election := ElectionView({A}, true))
  const A2 := A1.(election := ElectionView({A, B}, true))
  const R0 := NewReplication(0, {B, C, D, E})
  const A3 := A2.(state := StateView(A, 0, 1, Some(A), Some(A), Leader, 0), election := ElectionView({A, B, C}, false),
                  replication := Some(R0))
  const A4 := A3.(log := LOG1)
  const A5 := A4.(replication := Some(R0.RecordMatch(B, 1)))
  const A6 := A4.(replication := Some(R0.RecordMatch(B, 1).RecordMatch(C, 1)))
  const A7 := A6.(state := StateView(A, 1, 1, Some(A), Some(A), Leader, 1), store := OLD)
  const A8 := A7.(log := LogView(1, 1, []), snapshot := Snapshot(1, 1, OLD))
  const A9 := A8.(log := LogView(1, 1, [SECOND]))
  const A10 := A9.(replication := Some(R0.RecordMatch(B, 1).RecordMatch(C, 1).RecordMatch(C, 2)))

  // B is elected to term 2 by D and E, and commits and compacts another second entry with them.
  const B0 := FreshNode(B, FIVE)
  const B1 := B0.(state := StateView(B, 0, 1, Some(A), None, Follower, 0))
  const B2 := B1.(state := StateView(B, 0, 1, Some(A), Some(A), Follower, 0), log := LOG1)
  const B3 := B2.(state := StateView(B, 0, 2, Some(B), None, Candidate, 0), election := ElectionView({B}, true))
  const B4 := B3.(election := ElectionView({B, D}, true))
  const S0 := NewReplication(1, {A, C, D, E})
  const B5 := B4.(state := StateView(B, 0, 2, Some(B), Some(B), Leader, 0), election := ElectionView({B, D, E}, false),
                  replication := Some(S0))
  const B6 := B5.(log := LOG2)
  const B7 := B6.(replication := Some(S0.RecordMatch(D, 2)))
  const B8 := B6.(replication := Some(S0.RecordMatch(D, 2).RecordMatch(E, 2)))
  const B9 := B8.(state := StateView(B, 2, 2, Some(B), Some(B), Leader, 2), store := NEW)
  const B10 := B9.(log := LogView(2, 2, []), snapshot := Snapshot(2, 2, NEW))

  // C follows A, and then stops once it has written down B's snapshot, and nothing else.
  const C0 := FreshNode(C, FIVE)
  const C1 := C0.(state := StateView(C, 0, 1, Some(A), None, Follower, 0))
  const C2 := C1.(state := StateView(C, 0, 1, Some(A), Some(A), Follower, 0), log := LOG1)
  const C3 := C2.(state := StateView(C, 1, 1, Some(A), Some(A), Follower, 1), log := LogView(0, 0, [ENTRY, SECOND]),
                  store := OLD)
  const C4 := C0.(state := StateView(C, 2, 1, Some(A), None, Follower, 2), log := LogView(2, 2, []),
                  snapshot := Snapshot(2, 2, NEW), store := NEW)

  // D and E take A's first entry, vote for B and take its second.
  function Took(x: NodeId): NodeView {
    FreshNode(x, FIVE).(state := StateView(x, 0, 1, None, Some(A), Follower, 0), log := LOG1)
  }

  function Chose(x: NodeId): NodeView { Took(x).(state := StateView(x, 0, 2, Some(B), None, Follower, 0)) }

  function Joined(x: NodeId): NodeView {
    Took(x).(state := StateView(x, 0, 2, Some(B), Some(B), Follower, 0), log := LOG2)
  }

  const VOTE2 := VoteRequest(2, B, 1, 1)
  const FIRST := AppendRequest(1, A, 0, 0, [ENTRY], 0)
  const NEXT := AppendRequest(1, A, 1, 1, [SECOND], 1)
  const RIVALS := AppendRequest(2, B, 1, 1, [RIVAL], 0)
  const SNAP := SnapshotRequest(2, B, 2, 2, NEW)

  // ---- Term 1 ----

  lemma AStands()
    ensures BeginElection(A0).node == A1 && BeginElection(A0).reply && VoteRequestOf(A1) == VOTE1
  {
    FiveSize();
  }

  lemma BVotes()
    ensures ReceiveVoteRequest(B0, VOTE1).node == B1 && ReceiveVoteRequest(B0, VOTE1).reply == VoteReply(1, true)
    ensures ReceiveVoteRequest(C0, VOTE1).node == C1 && ReceiveVoteRequest(C0, VOTE1).reply == VoteReply(1, true)
  {
  }

  lemma AWins()
    ensures ReceiveVoteReply(A1, B, VOTE1, VoteReply(1, true)).node == A2
    ensures ReceiveVoteReply(A2, C, VOTE1, VoteReply(1, true)).node == A3
  {
    FiveSize();
    assert |{A, B}| == 2 && {A} + {B} == {A, B};
    assert |{A, B, C}| == 3 && {A, B} + {C} == {A, B, C};
  }

  lemma ASubmits()
    ensures A3.Sound() && Submit(A3, [SET]).Accepted? && Submit(A3, [SET]).effect.node == A4
  {
    FiveSize();
    assert [SET][..0] == [];
    assert AppendAll(LogView(0, 0, []), 1, [SET]) == LOG1;
  }

  lemma ASends(n: NodeView, f: NodeId)
    requires n.Sound() && n.state == A4.state && n.log == LOG1 && n.replication.Some? && f in n.Followers()
    requires n.replication.value.nextIndex[f] == 1
    ensures NextRequest(n, f) == Some(SendAppend(FIRST))
  {
    var full := [ENTRY];
    assert full[0..] == full;
    hide NextRequest, NodeView.Sound;
    RequestIs(n, full, f);
  }

  lemma ATracks()
    ensures A4.Sound() && B in A4.Followers() && A4.replication.value.nextIndex[B] == 1
    ensures A5.Sound() && C in A5.Followers() && A5.replication.value.nextIndex[C] == 1
    ensures A6.Sound() && D in A6.Followers() && E in A6.Followers()
    ensures A6.replication.value.nextIndex[D] == 1 == A6.replication.value.nextIndex[E]
  {
    FiveSize();
  }

  lemma FirstTaken(n: NodeView, after: NodeView)
    requires n.Sound() && n.log == EMPTY_LOG && n.state.currentTerm <= 1 && n.replication == None
    requires n.state.commitIndex == 0 == n.state.lastApplied
    requires after == n.(state := n.state.BecomeFollower(1, Some(A)), log := LOG1)
    ensures ReceiveAppend(n, FIRST).Some?
    ensures ReceiveAppend(n, FIRST).value.node == after
    ensures ReceiveAppend(n, FIRST).value.reply == ReplicationReply(1, true)
  {
    assert [ENTRY][1..] == [] && [] + [ENTRY] == [ENTRY];
    assert MergeEntry(n.log, ENTRY) == Some(LOG1);
    assert MergeEntries(n.log, [ENTRY]) == Some(LOG1);
  }

  lemma AMatches()
    ensures A4.Sound() && A5.Sound() && B in A4.Followers() && C in A5.Followers()
    ensures ReceiveAppendReply(A4, B, FIRST, ReplicationReply(1, true)).node == A5
    ensures ReceiveAppendReply(A5, C, FIRST, ReplicationReply(1, true)).node == A6
  {
    FiveSize();
  }

  lemma QuorumOfThree(x: NodeId, f: NodeId, g: NodeId, matchIndex: map<NodeId, int>, i: int)
    requires x != f && f != g && x != g && x !in matchIndex && f in matchIndex && g in matchIndex
    requires forall p :: p in matchIndex ==> matchIndex[p] == if p == f || p == g then i else 0
    requires 0 < i
    ensures IsQuorumIndex(x, i, matchIndex, 5, i)
  {
    assert Holders(x, i, matchIndex, i) == {x, f, g};
    assert |{x, f, g}| == 3;
    assert Holders(x, i, matchIndex, i + 1) == {};
  }

  lemma ACommits()
    ensures A6.Sound() && AdvanceAndApply(A6, 1).Some? && AdvanceAndApply(A6, 1).value.node == A7
  {
    FiveSize();
    assert A6.log.LastIndex() == 1 && A6.log.Get(1) == Some(ENTRY) && OLD == Apply(map[], SET);
    var done := A7.state;
    assert ApplyCommitted(done, A6.log, OLD) == Some(Applied(done, OLD));
    assert ApplyCommitted(done.(lastApplied := 0), A6.log, map[]) == Some(Applied(done, OLD));
  }

  lemma Quorums()
    ensures IsQuorumIndex(A, A6.log.LastIndex(), A6.replication.value.matchIndex, 5, 1)
    ensures IsQuorumIndex(B, B8.log.LastIndex(), B8.replication.value.matchIndex, 5, 2)
  {
    FiveSize();
    QuorumOfThree(A, B, C, A6.replication.value.matchIndex, 1);
    QuorumOfThree(B, D, E, B8.replication.value.matchIndex, 2);
  }

  lemma ACompacts()
    ensures A7.Sound() && CreateSnapshot(A7).Some? && CreateSnapshot(A7).value.node == A8
  {
    FiveSize();
    assert A7.log.Get(1) == Some(ENTRY) && A7.log.TermAt(1) == Some(1);
    assert [ENTRY][1..] == [] && A7.log.EntriesFrom(2) == [];
  }

  lemma ASubmitsAgain()
    ensures A8.Sound() && Submit(A8, [AGAIN]).Accepted? && Submit(A8, [AGAIN]).effect.node == A9
  {
    FiveSize();
    assert [AGAIN][..0] == [];
    assert AppendAll(LogView(1, 1, []), 1, [AGAIN]) == LogView(1, 1, [SECOND]);
  }

  lemma ASendsNext()
    ensures A9.Sound() && C in A9.Followers() && NextRequest(A9, C) == Some(SendAppend(NEXT))
  {
    FiveSize();
    var full := [ENTRY, SECOND];
    assert full[1..] == [SECOND];
    assert A9.replication.value.nextIndex[C] == 2;
    hide NextRequest;
    RequestIs(A9, full, C);
  }

  lemma AMatchesNext()
    ensures A9.Sound() && C in A9.Followers()
    ensures ReceiveAppendReply(A9, C, NEXT, ReplicationReply(1, true)).node == A10
  {
    FiveSize();
  }

  lemma CTakesNext()
    ensures C2.Sound() && ReceiveAppend(C2, NEXT).Some?
    ensures ReceiveAppend(C2, NEXT).value.node == C3 && ReceiveAppend(C2, NEXT).value.reply == ReplicationReply(1, true)
  {
    FiveSize();
    var l := C3.log;
    assert [SECOND][1..] == [] && [ENTRY] + [SECOND] == [ENTRY, SECOND];
    assert C2.log.Get(2) == None && MergeEntry(C2.log, SECOND) == Some(l);
    assert MergeEntries(l, []) == Some(l) && MergeEntries(C2.log, [SECOND]) == Some(l);
    assert l.Get(1) == Some(ENTRY) && OLD == Apply(map[], SET);
    assert ApplyCommitted(C3.state, l, OLD) == Some(Applied(C3.state, OLD));
    assert ApplyCommitted(C3.state.(lastApplied := 0), l, map[]) == Some(Applied(C3.state, OLD));
    assert C2.log.TermAt(1) == Some(1);
  }

  // ---- Term 2 ----

  lemma BStands()
    ensures BeginElection(B2).node == B3 && BeginElection(B2).reply && VoteRequestOf(B3) == VOTE2
  {
    FiveSize();
  }

  lemma TheyVote(x: NodeId)
    ensures ReceiveVoteRequest(Took(x), VOTE2).node == Chose(x)
    ensures ReceiveVoteRequest(Took(x), VOTE2).reply == VoteReply(2, true)
  {
  }

  lemma BWins()
    ensures ReceiveVoteReply(B3, D, VOTE2, VoteReply(2, true)).node == B4
    ensures ReceiveVoteReply(B4, E, VOTE2, VoteReply(2, true)).node == B5
  {
    FiveSize();
    assert |{B, D}| == 2 && {B} + {D} == {B, D};
    assert |{B, D, E}| == 3 && {B, D} + {E} == {B, D, E};
  }

  lemma BSubmits()
    ensures B5.Sound() && Submit(B5, [OTHER]).Accepted? && Submit(B5, [OTHER]).effect.node == B6
  {
    FiveSize();
    assert [OTHER][..0] == [] && [ENTRY] + [RIVAL] == [ENTRY, RIVAL];
    assert AppendAll(LOG1, 2, []) == LOG1;
    assert AppendAll(LOG1, 2, [OTHER]) == LOG2;
  }

  lemma BSends(n: NodeView, f: NodeId)
    requires (n == B6 && f == D) || (n == B7 && f == E)
    ensures n.Sound() && f in n.Followers() && NextRequest(n, f) == Some(SendAppend(RIVALS))
  {
    FiveSize();
    var full := [ENTRY, RIVAL];
    assert full[1..] == [RIVAL] && full[0..] == full;
    assert n.replication.value.nextIndex[f] == 2;
    hide NextRequest;
    RequestIs(n, full, f);
  }

  lemma TheyJoin(x: NodeId)
    requires x in FIVE
    ensures Chose(x).Sound() && ReceiveAppend(Chose(x), RIVALS).Some?
    ensures ReceiveAppend(Chose(x), RIVALS).value.node == Joined(x)
    ensures ReceiveAppend(Chose(x), RIVALS).value.reply == ReplicationReply(2, true)
  {
    assert [RIVAL][1..] == [] && [ENTRY] + [RIVAL] == [ENTRY, RIVAL];
    assert LOG1.TermAt(1) == Some(1) && LOG1.Get(2) == None && MergeEntry(LOG1, RIVAL) == Some(LOG2);
    assert MergeEntries(LOG2, []) == Some(LOG2) && MergeEntries(LOG1, [RIVAL]) == Some(LOG2);
  }

  lemma BMatches()
    ensures B6.Sound() && B7.Sound() && D in B6.Followers() && E in B7.Followers()
    ensures ReceiveAppendReply(B6, D, RIVALS, ReplicationReply(2, true)).node == B7
    ensures ReceiveAppendReply(B7, E, RIVALS, ReplicationReply(2, true)).node == B8
  {
    FiveSize();
  }

  lemma BCommits()
    ensures B8.Sound() && AdvanceAndApply(B8, 2).Some? && AdvanceAndApply(B8, 2).value.node == B9
  {
    hide ApplyCommitted;
    FiveSize();
    assert LOG2.LastIndex() == 2 && LOG2.Get(2) == Some(RIVAL);
    BothApply();
  }

  lemma BothApply()
    ensures LOG2.WellFormed()
    ensures ApplyCommitted(B9.state.(lastApplied := 0), LOG2, map[]) == Some(Applied(B9.state, NEW))
  {
    assert LOG2.LastIndex() == 2 && LOG2.Get(1) == Some(ENTRY) && LOG2.Get(2) == Some(RIVAL);
    assert OLD == Apply(map[], SET) && NEW == Apply(OLD, OTHER);
    var done := B9.state;
    assert ApplyCommitted(done, LOG2, NEW) == Some(Applied(done, NEW));
    assert ApplyCommitted(done.(lastApplied := 1), LOG2, OLD) == Some(Applied(done, NEW));
  }

  lemma BCompacts()
    ensures B9.Sound() && CreateSnapshot(B9).Some? && CreateSnapshot(B9).value.node == B10
  {
    FiveSize();
    assert LOG2.Get(2) == Some(RIVAL) && LOG2.TermAt(2) == Some(2);
    assert [ENTRY, RIVAL][2..] == [] && LOG2.EntriesFrom(3) == [];
  }

  lemma BSendsSnapshot()
    ensures B10.Sound() && C in B10.Followers() && NextRequest(B10, C) == Some(SendSnapshot(SNAP))
  {
    FiveSize();
  }

  // C has written down the snapshot and nothing else: it comes back in term 1, without A's
  // second entry.
  lemma CStops(d: Disk)
    requires DiskMatches(C3, d)
    ensures C3.Sound() && ReceiveSnapshot(C3, SNAP).Some? && |ReceiveSnapshot(C3, SNAP).value.writes| == 3
    ensures var r := Recover(C, FIVE, PerformAll(d, ReceiveSnapshot(C3, SNAP).value.writes[..1]));
      r.Some? && r.value.node == C4
  {
    FiveSize();
    var l := C3.log;
    assert l.Get(2) == Some(SECOND) && l.TermAt(2) == Some(1);
    assert l.InstallBoundary(2, 2) == Some(LogView(2, 2, []));
    SnapshotWritten();
    var w := SaveSnapshot(Snapshot(2, 2, NEW));
    assert ReceiveSnapshot(C3, SNAP).value.writes[..1] == [w];
    hide ReceiveSnapshot, Replay;
    assert PerformAll(d, [w]) == Perform(d, w) by {
      assert [w][..0] == [];
    }
    var s := C4.state;
    assert ApplyCommitted(s, LogView(2, 2, []), NEW) == Some(Applied(s, NEW));
  }

  lemma SnapshotWritten()
    ensures C3.Sound() && ReceiveSnapshot(C3, SNAP).Some? && |ReceiveSnapshot(C3, SNAP).value.writes| == 3
    ensures ReceiveSnapshot(C3, SNAP).value.writes[0] == SaveSnapshot(Snapshot(2, 2, NEW))
  {
    FiveSize();
    var l, s := C3.log, StateView(C, 2, 2, None, Some(B), Follower, 2);
    assert l.Get(2) == Some(SECOND) && l.TermAt(2) == Some(1);
    assert l.InstallBoundary(2, 2) == Some(LogView(2, 2, []));
    assert ApplyCommitted(s, LogView(2, 2, []), NEW) == Some(Applied(s, NEW));
  }

  // ---- The run ----

  lemma Starts5() returns (t: Trace)
    ensures Now(t, Five(A0, B0, C0, FreshNode(D, FIVE), FreshNode(E, FIVE)))
  {
    FiveSize();
    t := Trace(FIVE, [Initial(FIVE)], []);
    InitialNodes5();
    hide Initial, Cluster.Sound, Five;
  }

  lemma InitialNodes5()
    ensures Initial(FIVE).nodes == Five(A0, B0, C0, FreshNode(D, FIVE), FreshNode(E, FIVE))
    ensures Initial(FIVE).members == FIVE && Initial(FIVE).Sound()
  {
    FiveSize();
  }

  lemma FirstElected() returns (t: Trace)
    ensures Now(t, Five(A3, B1, C1, FreshNode(D, FIVE), FreshNode(E, FIVE)))
  {
    hide Trace.Valid, BeginElection, VoteRequestOf, ReceiveVoteRequest, ReceiveVoteReply, NodeView.Sound,
         Cluster.Sound, Five, Now;
    FiveSize();
    var d, e := FreshNode(D, FIVE), FreshNode(E, FIVE);
    var t0 := Starts5();
    AStands();
    FiveUpdated(A0, B0, C0, d, e, A1);
    var t1 := TimesOut(t0, Five(A0, B0, C0, d, e), A, A1, VOTE1, B);
    BVotes();
    AWins();
    FiveUpdated(A1, B0, C0, d, e, B1);
    FiveUpdated(A1, B1, C0, d, e, A2);
    var t2 := VotesFor(t1, Five(A1, B0, C0, d, e), A, B, VOTE1, B1, A2);
    FiveUpdated(A2, B1, C0, d, e, C1);
    FiveUpdated(A2, B1, C1, d, e, A3);
    t := VotesFor(t2, Five(A2, B1, C0, d, e), A, C, VOTE1, C1, A3);
  }

  lemma FirstMatched() returns (t: Trace)
    ensures Now(t, Five(A6, B2, C2, FreshNode(D, FIVE), FreshNode(E, FIVE)))
  {
    hide Trace.Valid, Submit, NextRequest, ReceiveAppend, ReceiveAppendReply, NodeView.Sound, Cluster.Sound, Five, Now;
    FiveSize();
    var d, e := FreshNode(D, FIVE), FreshNode(E, FIVE);
    var t3 := FirstElected();
    ASubmits();
    FiveUpdated(A3, B1, C1, d, e, A4);
    var t4 := Submits(t3, Five(A3, B1, C1, d, e), A, [SET], A4);
    FreshSound();
    AMatches();
    ATracks();
    ASends(A4, B);
    FirstTaken(B1, B2);
    FiveUpdated(A4, B1, C1, d, e, B2);
    FiveUpdated(A4, B2, C1, d, e, A5);
    var t5 := Replicates(t4, Five(A4, B1, C1, d, e), A, B, FIRST, B2, A5);
    ASends(A5, C);
    FirstTaken(C1, C2);
    FiveUpdated(A5, B2, C1, d, e, C2);
    FiveUpdated(A5, B2, C2, d, e, A6);
    t := Replicates(t5, Five(A5, B2, C1, d, e), A, C, FIRST, C2, A6);
  }

  lemma FirstReplicated() returns (t: Trace)
    ensures Now(t, Five(A6, B2, C2, Took(D), Took(E)))
  {
    hide Trace.Valid, NextRequest, ReceiveAppend, NodeView.Sound, Cluster.Sound, Five, Now;
    FiveSize();
    var d, e := FreshNode(D, FIVE), FreshNode(E, FIVE);
    FreshSound();
    ATracks();
    var t6 := FirstMatched();
    ASends(A6, D);
    FirstTaken(d, Took(D));
    FiveUpdated(A6, B2, C2, d, e, Took(D));
    var t7, _ := Delivers(t6, Five(A6, B2, C2, d, e), A, D, FIRST, Took(D), ReplicationReply(1, true));
    ASends(A6, E);
    FirstTaken(e, Took(E));
    FiveUpdated(A6, B2, C2, Took(D), e, Took(E));
    var rpc;
    t, rpc := Delivers(t7, Five(A6, B2, C2, Took(D), e), A, E, FIRST, Took(E), ReplicationReply(1, true));
  }

  lemma FreshSound()
    ensures B1.Sound() && C1.Sound() && FreshNode(D, FIVE).Sound() && FreshNode(E, FIVE).Sound()
  {
  }

  lemma SecondReplicated() returns (t: Trace)
    ensures Now(t, Five(A10, B2, C3, Took(D), Took(E)))
  {
    hide Trace.Valid, Submit, NextRequest, ReceiveAppend, ReceiveAppendReply, AdvanceAndApply, CreateSnapshot,
         IsQuorumIndex, NodeView.Sound, Cluster.Sound, Five, Now;
    FiveSize();
    var d, e := Took(D), Took(E);
    var t8 := FirstReplicated();
    ACommits();
    Quorums();
    FiveUpdated(A6, B2, C2, d, e, A7);
    var t9 := Closes(t8, Five(A6, B2, C2, d, e), A, 1, A7);
    ACompacts();
    FiveUpdated(A7, B2, C2, d, e, A8);
    var t10 := Compacts(t9, Five(A7, B2, C2, d, e), A, A8);
    ASubmitsAgain();
    FiveUpdated(A8, B2, C2, d, e, A9);
    var t11 := Submits(t10, Five(A8, B2, C2, d, e), A, [AGAIN], A9);
    ASendsNext();
    AMatchesNext();
    CTakesNext();
    FiveUpdated(A9, B2, C2, d, e, C3);
    FiveUpdated(A9, B2, C3, d, e, A10);
    t := Replicates(t11, Five(A9, B2, C2, d, e), A, C, NEXT, C3, A10);
  }

  lemma SecondElected() returns (t: Trace)
    ensures Now(t, Five(A10, B5, C3, Chose(D), Chose(E)))
  {
    hide Trace.Valid, BeginElection, VoteRequestOf, ReceiveVoteRequest, ReceiveVoteReply, NodeView.Sound,
         Cluster.Sound, Five, Now;
    FiveSize();
    var t12 := SecondReplicated();
    BStands();
    FiveUpdated(A10, B2, C3, Took(D), Took(E), B3);
    var t13 := TimesOut(t12, Five(A10, B2, C3, Took(D), Took(E)), B, B3, VOTE2, D);
    TheyVote(D);
    TheyVote(E);
    BWins();
    FiveUpdated(A10, B3, C3, Took(D), Took(E), Chose(D));
    FiveUpdated(A10, B3, C3, Chose(D), Took(E), B4);
    var t14 := VotesFor(t13, Five(A10, B3, C3, Took(D), Took(E)), B, D, VOTE2, Chose(D), B4);
    FiveUpdated(A10, B4, C3, Chose(D), Took(E), Chose(E));
    FiveUpdated(A10, B4, C3, Chose(D), Chose(E), B5);
    t := VotesFor(t14, Five(A10, B4, C3, Chose(D), Took(E)), B, E, VOTE2, Chose(E), B5);
  }

  lemma RivalMatched() returns (t: Trace)
    ensures Now(t, Five(A10, B8, C3, Joined(D), Joined(E)))
  {
    hide Trace.Valid, Submit, NextRequest, ReceiveAppend, ReceiveAppendReply, NodeView.Sound, Cluster.Sound, Five, Now;
    FiveSize();
    var t15 := SecondElected();
    BSubmits();
    FiveUpdated(A10, B5, C3, Chose(D), Chose(E), B6);
    var t16 := Submits(t15, Five(A10, B5, C3, Chose(D), Chose(E)), B, [OTHER], B6);
    BMatches();
    BSends(B6, D);
    TheyJoin(D);
    FiveUpdated(A10, B6, C3, Chose(D), Chose(E), Joined(D));
    FiveUpdated(A10, B6, C3, Joined(D), Chose(E), B7);
    var t17 := Replicates(t16, Five(A10, B6, C3, Chose(D), Chose(E)), B, D, RIVALS, Joined(D), B7);
    BSends(B7, E);
    TheyJoin(E);
    FiveUpdated(A10, B7, C3, Joined(D), Chose(E), Joined(E));
    FiveUpdated(A10, B7, C3, Joined(D), Joined(E), B8);
    t := Replicates(t17, Five(A10, B7, C3, Joined(D), Chose(E)), B, E, RIVALS, Joined(E), B8);
  }

  lemma RivalCommitted() returns (t: Trace)
    ensures Now(t, Five(A10, B10, C3, Joined(D), Joined(E)))
  {
    hide Trace.Valid, AdvanceAndApply, CreateSnapshot, IsQuorumIndex, NodeView.Sound, Cluster.Sound, Five, Now;
    FiveSize();
    var t18 := RivalMatched();
    BCommits();
    Quorums();
    FiveUpdated(A10, B8, C3, Joined(D), Joined(E), B9);
    var t19 := Closes(t18, Five(A10, B8, C3, Joined(D), Joined(E)), B, 2, B9);
    BCompacts();
    FiveUpdated(A10, B9, C3, Joined(D), Joined(E), B10);
    t := Compacts(t19, Five(A10, B9, C3, Joined(D), Joined(E)), B, B10);
  }

  lemma Stopped() returns (t: Trace)
    ensures Now(t, Five(A10, B10, C4, Joined(D), Joined(E)))
  {
    hide Trace.Valid, NextRequest, ReceiveSnapshot, Recover, PerformAll, NodeView.Sound, Cluster.Sound, Five;
    hide DiskMatches;
    FiveSize();
    var t20 := RivalCommitted();
    BSendsSnapshot();
    var nodes := Five(A10, B10, C3, Joined(D), Joined(E));
    var t21, rpc := SendsSnapshot(t20, nodes, B, C, SNAP);
    DiskOf(t21, C, C3);
    CStops(t21.Last().disks[C]);
    FiveUpdated(A10, B10, C3, Joined(D), Joined(E), C4);
    t := StopsInstalling(t21, nodes, C, rpc, SNAP, 1, C4);
  }

  lemma DiskOf(t: Trace, x: NodeId, n: NodeView)
    requires t.Valid() && t.states != [] && t.Last().Sound() && x in t.Last().members && t.Last().nodes[x] == n
    ensures x in t.Last().disks && DiskMatches(n, t.Last().disks[x])
  {
    hide DiskMatches, Cluster.Sound;
    DisksFollow(t.group, t.states, t.events, |t.states| - 1, x);
  }

  lemma ApartBefore()
    ensures A10.Sound() && C4.Sound() && C in A10.Followers() && Ahead(A10, C4)
    ensures !AgreeAtBase(A10, C4) && WillEnd(A10, C4, C) && !LeavesInStep(A10, C4, C)
  {
    FiveSize();
    assert A10.log.Get(2) == Some(SECOND) && A10.log.TermAt(2) == Some(1) && A10.log.LastIndex() == 2;
    assert A10.replication.value.matchIndex[C] == 2 && A10.replication.value.nextIndex[C] == 3;
  }

  // A leads term 1 still, and C has forgotten that there is a later term. The loop at A walks back
  // to its boundary, sends its snapshot, which C does not need, and returns True: at index 2,
  // which A takes to be matched, C has the entry that was committed and A another.
  lemma TrueOutOfStep() returns (states: seq<Cluster>, events: seq<Event>, i: nat, turns: nat, r: Round)
    ensures RunFromStart(FIVE, states, events) && i < |states|
    ensures states[i].nodes == Five(A10, B10, C4, Joined(D), Joined(E))
    ensures A10.Sound() && C4.Sound() && C in A10.Followers() && !AgreeAtBase(A10, C4)
    ensures Rounds(A10, C4, C, turns) == Some(r) && r.progress == Return(true) && !InStep(r.leader, r.follower)
  {
    hide RunFromStart, NodeView.Sound, Cluster.Sound, Five, WillEnd, LeavesInStep, Ends, GoesOn, AgreeAtBase, InStep;
    hide Rounds;
    FiveSize();
    var t := Stopped();
    states, events, i := t.states, t.events, |t.states| - 1;
    ApartBefore();
    RetryLoopEnds(FIVE, states, events, i, A, C);
    assert EndsAs(A10, C4, C);
    turns, r :| Rounds(A10, C4, C, turns) == Some(r) && r.progress == Return(Ahead(A10, C4))
      && (Ahead(A10, C4) ==> (InStep(r.leader, r.follower) <==> LeavesInStep(A10, C4, C)));
  }
}

// Concrete runs, built event by event, for showing that something can really happen, and how
// those of a group of three begin.

module Traces {
  import opened Prelude
  import opened Types
  import opened RaftLogs
  import opened RaftStates
  import opened Elections
  import opened Leaders
  import opened Journals
  import opened Nodes
  import opened Clusters

  const A := NodeId("a")
  const B := NodeId("b")
  const C := NodeId("c")
  const GROUP := {A, B, C}

  lemma GroupSize()
    ensures |GROUP| == 3 && A != B && B != C && A != C
    ensures GROUP - {A} == {B, C} && GROUP - {B} == {A, C} && |{A, B}| == 2 && |{B, C}| == 2 && |{A, C}| == 2
  {
    assert A.name == "a" && B.name == "b" && C.name == "c";
    assert |{A, B}| == 2;
    assert GROUP == {A, B} + {C};
  }

  type Group = map<NodeId, NodeView>

  function Three(a: NodeView, b: NodeView, c: NodeView): (g: Group)
    ensures g.Keys == GROUP && g[A] == a && g[B] == b && g[C] == c
  {
    GroupSize();
    map[A := a, B := b, C := c]
  }

  lemma ThreeUpdated(a: NodeView, b: NodeView, c: NodeView, x: NodeView)
    ensures Three(a, b, c)[A := x] == Three(x, b, c)
    ensures Three(a, b, c)[B := x] == Three(a, x, c)
    ensures Three(a, b, c)[C := x] == Three(a, b, x)
  {
    GroupSize();
  }

  datatype Trace = Trace(group: set<NodeId>, states: seq<Cluster>, events: seq<Event>) {
    ghost predicate Valid() { RunFromStart(group, states, events) }

    function Last(): Cluster
      requires states != []
    {
      states[|states| - 1]
    }
  }

  // The run so far, and what its nodes are now.
  ghost predicate Now(t: Trace, nodes: Group) {
    && t.Valid() && t.states != [] && t.Last().Sound() && t.Last().members == t.group
    && t.Last().nodes == nodes && nodes.Keys == t.group
  }

  predicate Extends(t: Trace, t': Trace) {
    |t.states| <= |t'.states| && t.states == t'.states[..|t.states|] && |t.events| <= |t'.events|
        && t.events == t'.events[..|t.events|]
  }

  lemma ExtendsOn(t: Trace, u: Trace, v: Trace)
    requires Extends(t, u) && Extends(u, v)
    ensures Extends(t, v)
  {
    assert v.states[..|t.states|] == u.states[..|t.states|];
    assert v.events[..|t.events|] == u.events[..|t.events|];
  }

  // t' is t and one more event, after which the nodes are these and the messages sent are out.
  ghost predicate Comes(t: Trace, t': Trace, nodes: Group, sent: set<Message>) {
    && Now(t', nodes) && t.states != [] && t'.group == t.group && Extends(t, t')
    && |t'.states| == |t.states| + 1 && |t'.events| == |t.events| + 1
    && t.Last().network + sent <= t'.Last().network && t'.Last().nextRpc == t.Last().nextRpc + 1
  }

  lemma Starts() returns (t: Trace)
    ensures Now(t, Three(A0, B0, C0))
    ensures |t.states| == 1 && t.events == []
  {
    GroupSize();
    t := Trace(GROUP, [Initial(GROUP)], []);
    InitialNodes();
    hide Initial, Cluster.Sound, Three;
  }

  lemma InitialNodes()
    ensures Initial(GROUP).nodes == Three(A0, B0, C0) && Initial(GROUP).members == GROUP && Initial(GROUP).Sound()
  {
    GroupSize();
  }

  lemma Act(t: Trace, nodes: Group, a: Action) returns (t': Trace)
    requires Now(t, nodes) && Enabled(t.Last(), a) && React(t.Last(), a).Some? && a.node in t.group
    ensures Comes(t, t', nodes[a.node := React(t.Last(), a).value.node], React(t.Last(), a).value.sent)
    ensures t'.events == t.events + [Complete(a)]
  {
    hide Enabled, React, Trace.Valid, Cluster.Sound, Step;
    var s' := StepOf(t.Last(), a);
    t' := Trace(t.group, t.states + [s'], t.events + [Complete(a)]);
    TraceExtends(t, Complete(a), s');
    assert t'.states[..|t.states|] == t.states && t'.Last() == s' && t'.events[..|t.events|] == t.events;
  }

  lemma StepOf(s: Cluster, a: Action) returns (s': Cluster)
    requires s.Sound() && Enabled(s, a) && React(s, a).Some?
    ensures Possible(s, Complete(a)) && Step(s, Complete(a)) == Some(s') && s'.Sound() && s'.members == s.members
    ensures s'.nodes == s.nodes[a.node := React(s, a).value.node]
    ensures s'.network == s.network + React(s, a).value.sent && s'.nextRpc == s.nextRpc + 1
  {
    hide Enabled, React, PerformAll;
    s' := Step(s, Complete(a)).value;
  }

  lemma TraceExtends(t: Trace, e: Event, s': Cluster)
    requires t.Valid() && t.states != [] && t.Last().Sound() && s'.Sound()
    requires Possible(t.Last(), e) && Step(t.Last(), e) == Some(s')
    ensures Trace(t.group, t.states + [s'], t.events + [e]).Valid()
  {
    hide Possible, Step, Cluster.Sound, Initial;
    var states, events := t.states + [s'], t.events + [e];
    forall i | 0 <= i < |states| ensures states[i].Sound() {
      if i < |t.states| {
        assert states[i] == t.states[i];
      }
    }
    forall i | 0 <= i < |events| ensures Leads(states, events, i) {
      if i < |t.events| {
        assert Leads(t.states, t.events, i);
        assert states[i] == t.states[i] && states[i + 1] == t.states[i + 1] && events[i] == t.events[i];
      }
    }
    assert states[0] == t.states[0];
  }

  // ---- The kinds of event ----

  lemma TimesOut(t: Trace, nodes: Group, x: NodeId, after: NodeView, req: VoteRequest, peer: NodeId) returns (t': Trace)
    requires Now(t, nodes) && x in nodes && peer in nodes[x].Followers()
    requires BeginElection(nodes[x]).node == after && BeginElection(nodes[x]).reply && VoteRequestOf(after) == req
    ensures Comes(t, t', nodes[x := after], {VoteMsg(peer, req)}) && Now(t', nodes[x := after])
    ensures forall p :: p in nodes[x].Followers() ==> VoteMsg(p, req) in t'.Last().network
  {
    hide BeginElection, VoteRequestOf, Trace.Valid;
    t' := Act(t, nodes, ElectionTimeout(x));
  }

  lemma Ballots(t: Trace, nodes: Group, x: NodeId, req: VoteRequest, after: NodeView, reply: VoteReply)
    returns (t': Trace)
    requires Now(t, nodes) && x in nodes && VoteMsg(x, req) in t.Last().network
    requires ReceiveVoteRequest(nodes[x], req).node == after && ReceiveVoteRequest(nodes[x], req).reply == reply
    ensures Comes(t, t', nodes[x := after], {VoteReplyMsg(x, req, reply)}) && Now(t', nodes[x := after])
    ensures VoteReplyMsg(x, req, reply) in t'.Last().network
  {
    hide ReceiveVoteRequest, Trace.Valid;
    t' := Act(t, nodes, TakeVoteRequest(x, req));
  }

  lemma Counts(t: Trace, nodes: Group, x: NodeId, from: NodeId, req: VoteRequest, reply: VoteReply,
               after: NodeView) returns (t': Trace)
    requires Now(t, nodes) && x in nodes && VoteReplyMsg(from, req, reply) in t.Last().network && req.candidate == x
    requires ReceiveVoteReply(nodes[x], from, req, reply).node == after
    ensures Comes(t, t', nodes[x := after], {}) && Now(t', nodes[x := after])
  {
    hide ReceiveVoteReply, Trace.Valid;
    t' := Act(t, nodes, TakeVoteReply(x, from, req, reply));
  }

  lemma Submits(t: Trace, nodes: Group, x: NodeId, commands: seq<Command>, after: NodeView) returns (t': Trace)
    requires Now(t, nodes) && x in nodes && nodes[x].Sound() && Submit(nodes[x], commands).Accepted?
    requires Submit(nodes[x], commands).effect.node == after
    ensures Comes(t, t', nodes[x := after], {}) && Now(t', nodes[x := after])
        && t'.events == t.events + [Complete(SubmitBatch(x, commands))]
  {
    hide Submit, Trace.Valid;
    t' := Act(t, nodes, SubmitBatch(x, commands));
  }

  lemma SendsTo(t: Trace, nodes: Group, x: NodeId, f: NodeId, req: AppendRequest) returns (t': Trace, rpc: nat)
    requires Now(t, nodes) && x in nodes && nodes[x].Sound() && f in nodes[x].Followers()
    requires NextRequest(nodes[x], f) == Some(SendAppend(req))
    ensures rpc == t.Last().nextRpc && Comes(t, t', nodes, {AppendMsg(rpc, f, req)}) && Now(t', nodes)
    ensures AppendMsg(rpc, f, req) in t'.Last().network
  {
    hide NextRequest, Trace.Valid;
    rpc := t.Last().nextRpc;
    SameUpdate(nodes, x);
    t' := Act(t, nodes, SendTo(x, f));
  }

  lemma SameUpdate(nodes: Group, x: NodeId)
    requires x in nodes
    ensures nodes[x := nodes[x]] == nodes
  {
  }

  lemma Takes(t: Trace, nodes: Group, x: NodeId, rpc: nat, req: AppendRequest, after: NodeView,
              reply: ReplicationReply) returns (t': Trace)
    requires Now(t, nodes) && x in nodes && nodes[x].Sound() && AppendMsg(rpc, x, req) in t.Last().network
    requires ReceiveAppend(nodes[x], req).Some? && ReceiveAppend(nodes[x], req).value.node == after
    requires ReceiveAppend(nodes[x], req).value.reply == reply
    ensures Comes(t, t', nodes[x := after], {AppendReplyMsg(rpc, x, req, reply)}) && Now(t', nodes[x := after])
    ensures AppendReplyMsg(rpc, x, req, reply) in t'.Last().network
  {
    hide ReceiveAppend, Trace.Valid;
    t' := Act(t, nodes, TakeAppend(x, rpc, req));
  }

  lemma Matches(t: Trace, nodes: Group, x: NodeId, rpc: nat, f: NodeId, req: AppendRequest, reply: ReplicationReply,
                after: NodeView)
    returns (t': Trace)
    requires Now(t, nodes) && x in nodes && nodes[x].Sound() && f in nodes[x].Followers() && req.leader == x
    requires AppendReplyMsg(rpc, f, req, reply) in t.Last().network
    requires ReceiveAppendReply(nodes[x], f, req, reply).node == after
    ensures Comes(t, t', nodes[x := after], {}) && Now(t', nodes[x := after])
  {
    hide ReceiveAppendReply, Trace.Valid;
    t' := Act(t, nodes, TakeAppendReply(x, rpc, f, req, reply));
  }

  lemma Closes(t: Trace, nodes: Group, x: NodeId, q: int, after: NodeView) returns (t': Trace)
    requires Now(t, nodes) && x in nodes && nodes[x].Sound() && nodes[x].replication.Some?
    requires IsQuorumIndex(x, nodes[x].log.LastIndex(), nodes[x].replication.value.matchIndex, |nodes.Keys|, q)
    requires AdvanceAndApply(nodes[x], q).Some? && AdvanceAndApply(nodes[x], q).value.node == after
    ensures Comes(t, t', nodes[x := after], {}) && Now(t', nodes[x := after])
  {
    hide AdvanceAndApply, IsQuorumIndex, Trace.Valid;
    t' := Act(t, nodes, CloseRound(x, q));
  }

  // A request is sent and taken.
  lemma Delivers(t: Trace, nodes: Group, x: NodeId, f: NodeId, req: AppendRequest, after: NodeView,
                 reply: ReplicationReply) returns (t': Trace, rpc: nat)
    requires Now(t, nodes) && x in nodes && f in nodes && nodes[x].Sound() && nodes[f].Sound()
    requires f in nodes[x].Followers()
    requires NextRequest(nodes[x], f) == Some(SendAppend(req))
    requires ReceiveAppend(nodes[f], req).Some? && ReceiveAppend(nodes[f], req).value.node == after
    requires ReceiveAppend(nodes[f], req).value.reply == reply
    ensures Now(t', nodes[f := after]) && AppendReplyMsg(rpc, f, req, reply) in t'.Last().network
  {
    hide NextRequest, ReceiveAppend, Trace.Valid, NodeView.Sound, Cluster.Sound, Now;
    var u;
    u, rpc := SendsTo(t, nodes, x, f, req);
    t' := Takes(u, nodes, f, rpc, req, after, reply);
  }

  // And answered, with success.
  lemma Replicates(t: Trace, nodes: Group, x: NodeId, f: NodeId, req: AppendRequest, taken: NodeView, after: NodeView)
    returns (t': Trace)
    requires Now(t, nodes) && x in nodes && f in nodes && nodes[x].Sound() && nodes[f].Sound()
    requires f in nodes[x].Followers()
    requires x != f && req.leader == x && NextRequest(nodes[x], f) == Some(SendAppend(req))
    requires ReceiveAppend(nodes[f], req).Some? && ReceiveAppend(nodes[f], req).value.node == taken
    requires ReceiveAppend(nodes[f], req).value.reply == ReplicationReply(req.term, true)
    requires ReceiveAppendReply(nodes[x], f, req, ReplicationReply(req.term, true)).node == after
    ensures Now(t', nodes[f := taken][x := after])
  {
    hide NextRequest, ReceiveAppend, ReceiveAppendReply, Trace.Valid, NodeView.Sound, Cluster.Sound, Now;
    var u, rpc := Delivers(t, nodes, x, f, req, taken, ReplicationReply(req.term, true));
    t' := Matches(u, nodes[f := taken], x, rpc, f, req, ReplicationReply(req.term, true), after);
  }

  // A vote is given and counted.
  lemma VotesFor(t: Trace, nodes: Group, x: NodeId, v: NodeId, req: VoteRequest, voted: NodeView, after: NodeView)
    returns (t': Trace)
    requires Now(t, nodes) && x in nodes && v in nodes && x != v && req.candidate == x
    requires VoteMsg(v, req) in t.Last().network
    requires ReceiveVoteRequest(nodes[v], req).node == voted
    requires ReceiveVoteRequest(nodes[v], req).reply == VoteReply(req.term, true)
    requires ReceiveVoteReply(nodes[x], v, req, VoteReply(req.term, true)).node == after
    ensures Now(t', nodes[v := voted][x := after]) && t'.states != [] && t.Last().network <= t'.Last().network
  {
    hide ReceiveVoteRequest, ReceiveVoteReply, Trace.Valid, NodeView.Sound, Cluster.Sound, Now;
    var u := Ballots(t, nodes, v, req, voted, VoteReply(req.term, true));
    t' := Counts(u, nodes[v := voted], x, v, req, VoteReply(req.term, true), after);
  }

  lemma SendsSnapshot(t: Trace, nodes: Group, x: NodeId, f: NodeId, req: SnapshotRequest) returns (t': Trace, rpc: nat)
    requires Now(t, nodes) && x in nodes && nodes[x].Sound() && f in nodes[x].Followers()
    requires NextRequest(nodes[x], f) == Some(SendSnapshot(req))
    ensures rpc == t.Last().nextRpc && Comes(t, t', nodes, {SnapshotMsg(rpc, f, req)}) && Now(t', nodes)
    ensures SnapshotMsg(rpc, f, req) in t'.Last().network
  {
    hide NextRequest, Trace.Valid;
    rpc := t.Last().nextRpc;
    SameUpdate(nodes, x);
    t' := Act(t, nodes, SendTo(x, f));
  }

  // The node stops after some of the durable writes of an action and comes back.
  lemma Crashes(t: Trace, nodes: Group, a: Action, j: nat, after: NodeView) returns (t': Trace)
    requires Now(t, nodes) && a.node in nodes && Enabled(t.Last(), a) && React(t.Last(), a).Some?
    requires j <= |React(t.Last(), a).value.writes|
    requires var r := Recover(a.node, t.group,
                              PerformAll(t.Last().disks[a.node], React(t.Last(), a).value.writes[..j]));
      r.Some? && r.value.node == after
    ensures Now(t', nodes[a.node := after])
  {
    hide Enabled, React, Trace.Valid, Recover, PerformAll, Initial;
    var e := CrashDuring(a, j);
    assert Possible(t.Last(), e);
    var s' := Step(t.Last(), e).value;
    t' := Trace(t.group, t.states + [s'], t.events + [e]);
    hide Possible, Step;
    TraceExtends(t, e, s');
    assert t'.Last() == s';
  }

  lemma StopsInstalling(t: Trace, nodes: Group, x: NodeId, rpc: nat, req: SnapshotRequest, j: nat, after: NodeView)
    returns (t': Trace)
    requires Now(t, nodes) && x in nodes && nodes[x].Sound() && SnapshotMsg(rpc, x, req) in t.Last().network
    requires ReceiveSnapshot(nodes[x], req).Some? && j <= |ReceiveSnapshot(nodes[x], req).value.writes|
    requires var r := Recover(x, t.group,
                              PerformAll(t.Last().disks[x], ReceiveSnapshot(nodes[x], req).value.writes[..j]));
      r.Some? && r.value.node == after
    ensures Now(t', nodes[x := after])
  {
    hide ReceiveSnapshot, Recover, PerformAll, Trace.Valid, Initial;
    var a := Action.TakeSnapshot(x, rpc, req);
    assert React(t.Last(), a).value.writes == ReceiveSnapshot(nodes[x], req).value.writes;
    hide Enabled, React;
    t' := Crashes(t, nodes, a, j, after);
  }

  lemma Compacts(t: Trace, nodes: Group, x: NodeId, after: NodeView) returns (t': Trace)
    requires Now(t, nodes) && x in nodes && nodes[x].Sound()
    requires CreateSnapshot(nodes[x]).Some? && CreateSnapshot(nodes[x]).value.node == after
    ensures Comes(t, t', nodes[x := after], {}) && Now(t', nodes[x := after])
  {
    hide CreateSnapshot, Trace.Valid;
    t' := Act(t, nodes, Compact(x));
  }

  // One follower of two has matched the leader's only entry.
  lemma QuorumOfTwo(x: NodeId, f: NodeId, g: NodeId, matchIndex: map<NodeId, int>)
    requires GROUP == {x, f, g} && x != f && f != g && x != g
    requires matchIndex.Keys == {f, g} && matchIndex[f] == 1 && matchIndex[g] == 0
    ensures IsQuorumIndex(x, 1, matchIndex, |GROUP|, 1)
  {
    GroupSize();
    assert Holders(x, 1, matchIndex, 1) == {x, f};
    assert |{x, f}| == 2;
    assert Holders(x, 1, matchIndex, 2) == {};
  }

  // ---- A is elected to term 1 and appends an entry ----

  const SET := Command("PUT", "k", Some("v"))
  const ENTRY := LogEntry(1, 1, SET)

  const A0 := FreshNode(A, GROUP)
  const B0 := FreshNode(B, GROUP)
  const C0 := FreshNode(C, GROUP)
  const A1 := A0.(state := StateView(A, 0, 1, Some(A), None, Candidate, 0), election := ElectionView({A}, true))
  const B1 := B0.(state := StateView(B, 0, 1, Some(A), None, Follower, 0))
  const A2 := A1.(state := StateView(A, 0, 1, Some(A), Some(A), Leader, 0), election := ElectionView({A, B}, false),
                  replication := Some(NewReplication(0, {B, C})))
  const A3 := A2.(log := LogView(0, 0, [ENTRY]))

  const VOTE1 := VoteRequest(1, A, 0, 0)

  lemma AStands()
    ensures BeginElection(A0).node == A1 && BeginElection(A0).reply && VoteRequestOf(A1) == VOTE1
  {
    GroupSize();
  }

  lemma BVotes()
    ensures ReceiveVoteRequest(B0, VOTE1).node == B1 && ReceiveVoteRequest(B0, VOTE1).reply == VoteReply(1, true)
  {
  }

  lemma AWins()
    ensures ReceiveVoteReply(A1, B, VOTE1, VoteReply(1, true)).node == A2
  {
    GroupSize();
    assert |{A} + {B}| == 2 && {A} + {B} == {A, B};
  }

  lemma ASubmits()
    ensures A2.Sound() && Submit(A2, [SET]).Accepted? && Submit(A2, [SET]).effect.node == A3
  {
    GroupSize();
    assert [SET][..0] == [];
    assert AppendAll(LogView(0, 0, []), 1, [SET]) == LogView(0, 0, [ENTRY]);
  }

  lemma Elected() returns (t: Trace)
    ensures Now(t, Three(A2, B1, C0)) && |t.states| == 4 && |t.events| == 3
  {
    hide Trace.Valid, BeginElection, VoteRequestOf, ReceiveVoteRequest, ReceiveVoteReply, NodeView.Sound,
          Cluster.Sound, Three, Now;
    GroupSize();
    var t0 := Starts();
    AStands();
    ThreeUpdated(A0, B0, C0, A1);
    var t1 := TimesOut(t0, Three(A0, B0, C0), A, A1, VOTE1, B);
    BVotes();
    ThreeUpdated(A1, B0, C0, B1);
    var t2 := Ballots(t1, Three(A1, B0, C0), B, VOTE1, B1, VoteReply(1, true));
    AWins();
    ThreeUpdated(A1, B1, C0, A2);
    t := Counts(t2, Three(A1, B1, C0), A, B, VOTE1, VoteReply(1, true), A2);
  }

  // The run up to there; the last event is the submission.
  lemma Opening() returns (t: Trace)
    ensures Now(t, Three(A3, B1, C0)) && |t.states| == 5 && |t.events| == 4
    ensures t.events[3] == Complete(SubmitBatch(A, [SET])) && t.states[3].Sound()
    ensures A in t.states[3].nodes && t.states[3].nodes[A] == A2 && t.states[3].members == GROUP
  {
    hide Trace.Valid, Submit, NodeView.Sound, Cluster.Sound, Three;
    var t3 := Elected();
    ASubmits();
    ThreeUpdated(A2, B1, C0, A3);
    t := Submits(t3, Three(A2, B1, C0), A, [SET], A3);
    assert t.states[3] == t3.Last();
  }
}

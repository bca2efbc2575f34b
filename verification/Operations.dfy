// What the operations of a cluster answer, over whole runs: what is on the network after them, and
// what a True or an acceptance says of the nodes.

module Operations {
  import opened Prelude
  import opened Types
  import opened History
  import opened HistorySteps
  import opened RaftLogs
  import opened Leaders
  import opened Journals
  import opened Nodes
  import opened Clusters
  import opened Agreement
  import opened ClusterProof
  import opened Safety
  import opened Durability
  import opened Reads
  import opened Submissions
  import opened MatchIndexes
  import opened Answers

  // ---- One event of a run ----

  // The action took place in state i.
  ghost predicate Happens(states: seq<Cluster>, events: seq<Event>, i: nat, a: Action) {
    i < |events| && i + 1 < |states| && events[i] == Complete(a)
  }

  lemma Happened(members: set<NodeId>, states: seq<Cluster>, events: seq<Event>, i: nat, a: Action)
    requires RunFromStart(members, states, events) && Happens(states, events, i, a)
    ensures var s := states[i];
      && s.Sound() && Enabled(s, a) && React(s, a).Some? && a.node in s.members && a.node in s.nodes
      && states[i + 1] == Acted(s, a.node, React(s, a).value)
  {
    hide Enabled, React, Acted;
    assert Leads(states, events, i);
    EnabledNode(states[i], a);
  }

  lemma ActedIs(s: Cluster, id: NodeId, r: Reaction)
    requires s.Sound() && id in s.members && Keeps(s.nodes[id], r.node)
    ensures var s' := Acted(s, id, r);
      && s'.nodes == s.nodes[id := r.node] && s'.network == s.network + r.sent && s'.members == s.members
      && (r.writes == [] ==> s'.disks == s.disks)
  {
    hide NodeView.Sound;
  }

  // ---- Votes ----

  // Up to time i the node has not voted for anybody but c in term t.
  predicate VotedOnlyFor(states: seq<Cluster>, i: nat, id: NodeId, t: int, c: NodeId)
    requires i < |states|
  {
    forall j :: 0 <= j <= i && id in states[j].nodes && states[j].nodes[id].state.currentTerm == t ==>
      states[j].nodes[id].state.votedFor in {None, Some(c)}
  }

  // A vote is granted, also a second time, exactly to a candidate of no earlier term whose whole
  // log is up to date with the voter's, by a node that never voted for another in that term.
  lemma VoteTaken(members: set<NodeId>, states: seq<Cluster>, events: seq<Event>, i: nat, id: NodeId, req: VoteRequest)
    returns (reply: VoteReply, mine: seq<LogEntry>, theirs: seq<LogEntry>)
    requires RunFromStart(members, states, events) && Happens(states, events, i, TakeVoteRequest(id, req))
    ensures id in states[i].nodes && Images(states[i].nodes[id], mine)
    ensures |theirs| == req.lastLogIndex && LastTerm(theirs) == req.lastLogTerm
    ensures states[i + 1].network == states[i].network + {VoteReplyMsg(id, req, reply)}
    ensures reply.term == Max(states[i].nodes[id].state.currentTerm, req.term)
    ensures reply.granted <==>
      && states[i].nodes[id].state.currentTerm <= req.term
      && VotedOnlyFor(states, i, id, req.term, req.candidate)
      && UpToDate(theirs, mine)
  {
    hide Invariant, Grows, Images, UpToDate, VotedOnlyFor, ReceiveVoteRequest, Lawful, NodeFaithful, VoteTruthful;
    hide Hears;
    hide Possible, Step, Enabled, FreeFor, SameData, LastTerm;
    var s := states[i];
    VoteStep(members, states, events, i, id, req);
    reply := ReceiveVoteRequest(s.nodes[id], req).reply;
    VoteReplyTerm(s.nodes[id], req);
    var hs := RunHasChronicle(members, states, events);
    var h := hs[i];
    mine, theirs := h.Log(id), h.CandidateLog(Slot(req.candidate, req.term));
    NodeImages(h, s, id);
    VoteOnNetwork(h, s, id, req);
    FaithfulNode(h, s, id);
    InvariantLaws(h, s);
    hide Consistent, LeadersSafe, CommitsBacked, AcksKept;
    VoteAnswered(h, s.nodes[id], id, req);
    if s.nodes[id].state.currentTerm <= req.term {
      VoteFree(h, s, id, req);
      OnlyVote(members, states, events, i, id, req.term, req.candidate);
    }
  }

  lemma VoteStep(members: set<NodeId>, states: seq<Cluster>, events: seq<Event>, i: nat, id: NodeId, req: VoteRequest)
    requires RunFromStart(members, states, events) && Happens(states, events, i, TakeVoteRequest(id, req))
    ensures var s := states[i];
      && s.Sound() && Enabled(s, TakeVoteRequest(id, req)) && id in s.members && id in s.nodes && s.nodes[id].Sound()
      && states[i + 1].network == s.network + {VoteReplyMsg(id, req, ReceiveVoteRequest(s.nodes[id], req).reply)}
  {
    hide Acted, ReceiveVoteRequest, RunFromStart, Enabled, NodeView.Sound;
    var s, a := states[i], TakeVoteRequest(id, req);
    Happened(members, states, events, i, a);
    ActedIs(s, id, React(s, a).value);
    SoundNode(s, id);
  }

  lemma VoteReplyTerm(n: NodeView, req: VoteRequest)
    ensures ReceiveVoteRequest(n, req).reply.term == Max(n.state.currentTerm, req.term)
  {
    VoteNoted(n, req);
  }

  lemma VoteOnNetwork(h: History, s: Cluster, id: NodeId, req: VoteRequest)
    requires Invariant(h, s) && s.Sound() && Enabled(s, TakeVoteRequest(id, req))
    ensures VoteTruthful(h, req) && |h.CandidateLog(Slot(req.candidate, req.term))| == req.lastLogIndex
    ensures LastTerm(h.CandidateLog(Slot(req.candidate, req.term))) == req.lastLogTerm
  {
    hide Lawful, Faithful;
    assert Truthful(h, VoteMsg(id, req));
  }

  lemma VoteFree(h: History, s: Cluster, id: NodeId, req: VoteRequest)
    requires Invariant(h, s) && id in s.members && id in s.nodes && s.nodes[id].state.currentTerm <= req.term
    ensures FreeFor(h, id, req.term, req.candidate) <==>
      || req.term > s.nodes[id].state.currentTerm
      || s.nodes[id].state.votedFor == None || s.nodes[id].state.votedFor == Some(req.candidate)
  {
    hide Truthful, VotesSafe, LeadersSafe, AcksKept, CommitsBacked, CandidateFaithful, LeaderFaithful;
    hide ReplicationFaithful;
    hide FreeFor;
    assert Faithful(h, s.nodes[id], s.disks[id], id);
    FreeForIs(h, s.nodes[id], id, req);
  }

  // The vote a node has now is the only one it ever gave in this term.
  lemma OnlyVote(members: set<NodeId>, states: seq<Cluster>, events: seq<Event>, i: nat, id: NodeId, t: int, c: NodeId)
    requires RunFromStart(members, states, events) && i < |states| && id in states[i].members && id in states[i].nodes
    requires states[i].nodes[id].state.currentTerm <= t
    ensures VotedOnlyFor(states, i, id, t, c) <==>
      || t > states[i].nodes[id].state.currentTerm
      || states[i].nodes[id].state.votedFor == None || states[i].nodes[id].state.votedFor == Some(c)
  {
    hide Possible, Step;
    forall j | 0 <= j <= i && id in states[j].nodes
      ensures states[j].nodes[id].state.currentTerm <= states[i].nodes[id].state.currentTerm
      ensures states[j].nodes[id].state.currentTerm == states[i].nodes[id].state.currentTerm
              && states[j].nodes[id].state.votedFor.Some? ==>
                states[i].nodes[id].state.votedFor == states[j].nodes[id].state.votedFor
    {
      assert states[j].Sound();
      VotesLast(members, states, events, j, i, id);
    }
  }

  // ---- Election timeouts ----

  // An expired timer takes the node to the next term, whatever its role. Alone it leads at once;
  // otherwise every other member is sent a request with the end of the node's whole log.
  lemma TimerExpired(members: set<NodeId>, states: seq<Cluster>, events: seq<Event>, i: nat, id: NodeId)
    returns (full: seq<LogEntry>)
    requires RunFromStart(members, states, events) && Happens(states, events, i, ElectionTimeout(id))
    ensures id in states[i].nodes && id in states[i + 1].nodes && Images(states[i].nodes[id], full)
    ensures var n, m := states[i].nodes[id], states[i + 1].nodes[id];
      && m.state.currentTerm == n.state.currentTerm + 1 && m.state.votedFor == Some(id)
      && (if Majority({id}, states[i].members) then
            m.state.role == Leader && states[i + 1].network == states[i].network
          else
            && m.state.role == Candidate
            && states[i + 1].network == states[i].network
               + set p | p in states[i].members - {id} ::
                   VoteMsg(p, VoteRequest(n.state.currentTerm + 1, id, |full|, LastTerm(full))))
  {
    hide Invariant, Grows, Images, BeginElection, VoteRequestOf, NodeView.Sound, Majority, Possible, Step, LastTerm;
    TimeoutStep(members, states, events, i, id);
    var hs := RunHasChronicle(members, states, events);
    full := hs[i].Log(id);
    hide RunFromStart;
    TimeoutAt(hs[i], states[i], id);
  }

  lemma TimeoutAt(h: History, s: Cluster, id: NodeId)
    requires Invariant(h, s) && id in s.members && id in s.nodes && s.nodes[id].Sound()
    requires s.nodes[id].members == s.members && s.nodes[id].state.nodeId == id
    ensures Images(s.nodes[id], h.Log(id))
    ensures var e, t := BeginElection(s.nodes[id]), s.nodes[id].state.currentTerm + 1;
      && e.node.state.currentTerm == t && e.node.state.votedFor == Some(id)
      && e.node.state.role == (if Majority({id}, s.members) then Leader else Candidate)
      && (e.reply <==> !Majority({id}, s.members))
      && VoteRequestOf(e.node) == VoteRequest(t, id, |h.Log(id)|, LastTerm(h.Log(id)))
  {
    hide Invariant, Images, BeginElection, VoteRequestOf, NodeFaithful, NodeView.Sound, Majority, LastTerm, Lawful;
    NodeImages(h, s, id);
    FaithfulNode(h, s, id);
    InvariantLaws(h, s);
    TimeoutNoted(s.nodes[id]);
    TimeoutAnswered(h, s.nodes[id], id);
  }

  lemma TimeoutStep(members: set<NodeId>, states: seq<Cluster>, events: seq<Event>, i: nat, id: NodeId)
    requires RunFromStart(members, states, events) && Happens(states, events, i, ElectionTimeout(id))
    ensures var s, s' := states[i], states[i + 1];
      && s.Sound() && id in s.members && id in s.nodes && s.nodes[id].Sound() && id in s'.nodes
      && s.nodes[id].members == s.members && s.nodes[id].state.nodeId == id
      && var e := BeginElection(s.nodes[id]);
         && s'.nodes[id] == e.node
         && s'.network == s.network
                          + if e.reply then set p | p in s.members - {id} :: VoteMsg(p, VoteRequestOf(e.node)) else {}
  {
    hide Acted, BeginElection, VoteRequestOf, RunFromStart, Enabled, NodeView.Sound;
    var s, a := states[i], ElectionTimeout(id);
    Happened(members, states, events, i, a);
    ActedIs(s, id, React(s, a).value);
    SoundNode(s, id);
  }

  lemma SoundNode(s: Cluster, id: NodeId)
    requires s.Sound() && id in s.members
    ensures s.nodes[id].Sound() && s.nodes[id].members == s.members && s.nodes[id].state.nodeId == id
  {
  }

  // ---- Submissions ----

  // A batch is refused exactly by nodes that do not lead, or for a command nobody can apply, and
  // a refusal leaves every node, disk and message as it was.
  lemma BatchTaken(members: set<NodeId>, states: seq<Cluster>, events: seq<Event>, i: nat, id: NodeId,
                   commands: seq<Command>)
    requires RunFromStart(members, states, events) && Happens(states, events, i, SubmitBatch(id, commands))
    requires commands != []
    ensures id in states[i].nodes && id in states[i + 1].nodes && states[i].nodes[id].Sound()
    ensures var n, m := states[i].nodes[id], states[i + 1].nodes[id];
      && (Submit(n, commands) == NotLeader <==> n.state.role != Leader)
      && (Submit(n, commands) == Unsupported <==>
            n.state.role == Leader && exists c :: c in commands && !Supported(c))
      && (Submit(n, commands).Accepted? ==> |m.log.entries| == |n.log.entries| + |commands|)
      && (!Submit(n, commands).Accepted? ==>
            states[i + 1].nodes == states[i].nodes && states[i + 1].disks == states[i].disks)
      && states[i + 1].network == states[i].network
  {
    hide Invariant, Grows, Submit, Lawful, NodeFaithful, NodeView.Sound, Possible, Step;
    var s := states[i];
    BatchStep(members, states, events, i, id, commands);
    var hs := RunHasChronicle(members, states, events);
    FaithfulNode(hs[i], s, id);
    InvariantLaws(hs[i], s);
    hide Consistent, LeadersSafe, CommitsBacked, AcksKept;
    SubmitAnswered(hs[i], s.nodes[id], id, commands);
  }

  lemma BatchStep(members: set<NodeId>, states: seq<Cluster>, events: seq<Event>, i: nat, id: NodeId,
                  commands: seq<Command>)
    requires RunFromStart(members, states, events) && Happens(states, events, i, SubmitBatch(id, commands))
    ensures var s, s' := states[i], states[i + 1];
      && s.Sound() && id in s.members && id in s.nodes && s.nodes[id].Sound() && id in s'.nodes
      && s'.network == s.network
      && (if Submit(s.nodes[id], commands).Accepted?
          then |s'.nodes[id].log.entries| == |s.nodes[id].log.entries| + |commands|
          else s'.nodes == s.nodes && s'.disks == s.disks)
  {
    hide Acted, Submit, RunFromStart, Enabled, NodeView.Sound;
    var s, a := states[i], SubmitBatch(id, commands);
    Happened(members, states, events, i, a);
    ActedIs(s, id, React(s, a).value);
    SoundNode(s, id);
    if Submit(s.nodes[id], commands).Accepted? {
      SubmitGrows(s.nodes[id], commands);
    } else {
      assert s.nodes[id := s.nodes[id]] == s.nodes;
    }
  }

  lemma SubmitGrows(n: NodeView, commands: seq<Command>)
    requires n.Sound() && Submit(n, commands).Accepted?
    ensures |Submit(n, commands).effect.node.log.entries| == |n.log.entries| + |commands|
  {
  }

  // ---- Replication ----

  // Requests never name a later commit index than their sender has now, and every answer is to a
  // request that was sent.
  predicate Traced(s: Cluster, m: Message) {
    match m
    case AppendMsg(_, _, append) =>
      append.leader in s.nodes && append.leaderCommit <= s.nodes[append.leader].state.commitIndex
    case AppendReplyMsg(rpc, from, append, _) => AppendMsg(rpc, from, append) in s.network
    case _ => true
  }

  ghost predicate AllTraced(s: Cluster) { forall m :: m in s.network ==> Traced(s, m) }

  lemma SentTraced(s: Cluster, a: Action, m: Message)
    requires s.Sound() && Enabled(s, a) && React(s, a).Some? && m in React(s, a).value.sent
    ensures a.node in s.nodes
    ensures m.AppendMsg? ==> m.append.leader == a.node && m.append.leaderCommit == s.nodes[a.node].state.commitIndex
    ensures m.AppendReplyMsg? ==> AppendMsg(m.rpc, m.from, m.append) in s.network
  {
    hide BeginElection, ReceiveVoteRequest, ReceiveVoteReply, ReceiveAppendReply, ReceiveSnapshotReply, AdvanceAndApply;
    hide ReceiveTimeoutNow, ReceiveTimeoutReply, ApplyForRead, ReceiveAppend, ReceiveSnapshot, Submit, CreateSnapshot;
    hide InitReplication, VoteRequestOf, IsQuorumIndex, NextRequest;
    if a.SendTo? {
      OutgoingIs(s.nodes[a.node], a.follower);
    }
  }

  lemma OutgoingIs(n: NodeView, f: NodeId)
    requires n.Sound() && f in n.Followers() && NextRequest(n, f).Some?
    ensures var r := NextRequest(n, f).value;
      r.SendAppend? ==> r.append.leader == n.state.nodeId && r.append.leaderCommit == n.state.commitIndex
  {
  }

  lemma StepTraced(h: History, s: Cluster, e: Event, s': Cluster)
    requires s.Sound() && Possible(s, e) && Step(s, e) == Some(s') && Invariant(h, s) && AllTraced(s)
    ensures AllTraced(s')
  {
    hide Invariant, Possible, Step, Enabled, React;
    StepCommits(h, s, e, s');
    NodesKnown(h, s);
    NetworkGrows(s, e, s');
    forall m | m in s'.network ensures Traced(s', m) {
      if m in s.network {
        assert Traced(s, m);
      } else {
        SentTraced(s, e.action, m);
      }
    }
  }

  lemma InitialTraced(members: set<NodeId>)
    ensures AllTraced(Initial(members))
  {
  }

  lemma {:induction false} RunTraced(members: set<NodeId>, states: seq<Cluster>, events: seq<Event>, i: nat)
    requires RunFromStart(members, states, events) && i < |states|
    ensures AllTraced(states[i])
  {
    hide Possible, Step, Invariant, Grows, AllTraced, Initial;
    if i == 0 {
      InitialTraced(members);
    } else {
      RunTraced(members, states, events, i - 1);
      var hs := RunHasChronicle(members, states, events);
      assert Leads(states, events, i - 1);
      StepTraced(hs[i - 1], states[i - 1], events[i - 1], states[i]);
    }
  }

  lemma ReplyStep(members: set<NodeId>, states: seq<Cluster>, events: seq<Event>, i: nat, id: NodeId, rpc: nat,
                  f: NodeId, req: AppendRequest, reply: ReplicationReply)
    requires RunFromStart(members, states, events)
    requires Happens(states, events, i, TakeAppendReply(id, rpc, f, req, reply))
    ensures var s, s' := states[i], states[i + 1];
      && s.Sound() && id in s.members && id in s.nodes && s.nodes[id].Sound() && id in s'.nodes
      && f in s.nodes[id].Followers() && req.leader == id && AppendReplyMsg(rpc, f, req, reply) in s.network
      && s'.nodes[id] == ReceiveAppendReply(s.nodes[id], f, req, reply).node
  {
    hide Acted, ReceiveAppendReply, RunFromStart, NodeView.Sound;
    var s, a := states[i], TakeAppendReply(id, rpc, f, req, reply);
    Happened(members, states, events, i, a);
    ActedIs(s, id, React(s, a).value);
    SoundNode(s, id);
  }

  // The loop that replicates to f returns True on a reply exactly when nothing is left to send:
  // f has then matched the leader's whole log, was sent this very request, in this term, and it
  // named the leader's commit index of the moment. A reply too late, or of a later term, is False.
  lemma ReplyTaken(members: set<NodeId>, states: seq<Cluster>, events: seq<Event>, i: nat, id: NodeId, rpc: nat,
                   f: NodeId, req: AppendRequest, reply: ReplicationReply)
    requires RunFromStart(members, states, events)
    requires Happens(states, events, i, TakeAppendReply(id, rpc, f, req, reply))
    ensures id in states[i].nodes && states[i].nodes[id].Sound() && f in states[i].nodes[id].Followers()
    ensures id in states[i + 1].nodes && AppendMsg(rpc, f, req) in states[i].network
    ensures var n, m := states[i].nodes[id], states[i + 1].nodes[id];
      var e := ReceiveAppendReply(n, f, req, reply);
      && m == e.node
      && (e.reply == Return(false) <==> !StillLeading(n, req.term) || reply.term > n.state.currentTerm)
      && (e.reply == Return(true) <==>
            && StillLeading(n, req.term) && reply.term <= n.state.currentTerm && reply.success
            && req.leaderCommit == n.state.commitIndex
            && Max(n.replication.value.matchIndex[f], End(req)) == n.log.LastIndex())
      && (e.reply == Return(true) ==>
            && m.state == n.state && m.log == n.log && m.replication.Some? && f in m.replication.value.matchIndex
            && m.replication.value.matchIndex[f] == m.log.LastIndex())
  {
    hide Possible, Step, Invariant, Grows, ReceiveAppendReply, NodeView.Sound, StillLeading, KnowsOf, Deposed, SameData;
    ReplyStep(members, states, events, i, id, rpc, f, req, reply);
    RunTraced(members, states, events, i);
    var hs := RunHasChronicle(members, states, events);
    hide RunFromStart;
    ReplyAt(hs[i], states[i], id, rpc, f, req, reply);
  }

  lemma ReplyAt(h: History, s: Cluster, id: NodeId, rpc: nat, f: NodeId, req: AppendRequest, reply: ReplicationReply)
    requires Invariant(h, s) && AllTraced(s) && id in s.members && id in s.nodes && s.nodes[id].Sound()
    requires f in s.nodes[id].Followers() && req.leader == id && AppendReplyMsg(rpc, f, req, reply) in s.network
    ensures AppendMsg(rpc, f, req) in s.network
    ensures var n := s.nodes[id];
      var e := ReceiveAppendReply(n, f, req, reply);
      && (e.reply == Return(false) <==> !StillLeading(n, req.term) || reply.term > n.state.currentTerm)
      && (e.reply == Return(true) <==>
            && StillLeading(n, req.term) && reply.term <= n.state.currentTerm && reply.success
            && req.leaderCommit == n.state.commitIndex
            && Max(n.replication.value.matchIndex[f], End(req)) == n.log.LastIndex())
      && (e.reply == Return(true) ==>
            && e.node.state == n.state && e.node.log == n.log && e.node.replication.Some?
            && f in e.node.replication.value.matchIndex && e.node.replication.value.matchIndex[f] == n.log.LastIndex())
  {
    hide Invariant, ReceiveAppendReply, NodeView.Sound, Deposed, AppendTruthful, Numbered, Consistent, LeadersSafe;
    hide CommitsBacked, AcksKept, Lawful, StillLeading;
    assert Traced(s, AppendReplyMsg(rpc, f, req, reply)) && Traced(s, AppendMsg(rpc, f, req));
    hide AllTraced, Traced;
    InvariantLaws(h, s);
    LawfulNumbered(h);
    ReplyOnNetwork(h, s, id, rpc, f, req);
    AppendReplyAnswered(h, s.nodes[id], f, req, reply);
    if StillLeading(s.nodes[id], req.term) {
      LeadingIs(s.nodes[id], f, req.term);
      MatchedBounds(h, s, id, f, req);
    }
  }

  lemma ReplyOnNetwork(h: History, s: Cluster, id: NodeId, rpc: nat, f: NodeId, req: AppendRequest)
    requires Invariant(h, s) && AppendMsg(rpc, f, req) in s.network
    ensures AppendTruthful(h, req)
  {
    hide Lawful, Faithful;
    assert Truthful(h, AppendMsg(rpc, f, req));
  }

  lemma LeadingIs(n: NodeView, f: NodeId, t: int)
    requires n.Sound() && StillLeading(n, t) && f in n.Followers()
    ensures n.state.role == Leader && n.state.currentTerm == t && n.replication.Some?
    ensures f in n.replication.value.matchIndex && f in n.replication.value.nextIndex
  {
  }

  // Neither what is matched nor what a request covers lies past the leader's last index.
  lemma MatchedBounds(h: History, s: Cluster, id: NodeId, f: NodeId, req: AppendRequest)
    requires Invariant(h, s) && id in s.members && id in s.nodes && AppendTruthful(h, req)
    requires s.nodes[id].state.role == Leader && s.nodes[id].state.currentTerm == req.term
    requires s.nodes[id].replication.Some? && f in s.nodes[id].replication.value.matchIndex
    ensures s.nodes[id].replication.value.matchIndex[f] <= s.nodes[id].log.LastIndex()
    ensures End(req) <= s.nodes[id].log.LastIndex()
  {
    hide Invariant, Lawful, Consistent, LeadersSafe, CommitsBacked, AcksKept, Images, Sourced;
    InvariantLaws(h, s);
    MatchBounded(h, s, id, f);
    NodeImages(h, s, id);
    ImagesEnd(s.nodes[id], h.Log(id));
    GrowsItself(h);
    LeaderReigns(h, s, id, h);
  }

  lemma ImagesEnd(n: NodeView, full: seq<LogEntry>)
    requires Images(n, full)
    ensures n.log.WellFormed() && n.log.LastIndex() == |full|
  {
    RepresentedReads(n.log, full);
  }

  // ---- A term ends for good ----

  predicate LeadsTerm(s: Cluster, id: NodeId, t: int) {
    id in s.nodes && s.nodes[id].state.role == Leader && s.nodes[id].state.currentTerm == t
  }

  // A node that leads a term after an event led it before, or has just won it.
  lemma LeadsAfter(s: Cluster, e: Event, s': Cluster, id: NodeId, t: int)
    requires s.Sound() && Possible(s, e) && Step(s, e) == Some(s') && LeadsTerm(s', id, t)
    ensures id in s.members && id in s'.members
    ensures LeadsTerm(s, id, t) || JustWon(s.nodes[id], s'.nodes[id])
  {
    hide Enabled, React, Recover, PerformAll, JustWon, NodeView.Sound;
    match e
    case Complete(a) =>
      EnabledNode(s, a);
      if id == a.node {
        ActionLeads(s, a);
      }
    case CrashDuring(a, j) =>
      EnabledNode(s, a);
      var d := PerformAll(s.disks[a.node], React(s, a).value.writes[..j]);
      RecoversFollower(a.node, s.members, d);
    case Restart(x) => RecoversFollower(x, s.members, s.disks[x]);
  }

  lemma RecoversFollower(id: NodeId, members: set<NodeId>, d: Disk)
    requires id in members && Recover(id, members, d).Some?
    ensures Recover(id, members, d).value.node.state.role == Follower
  {
    RecoveredState(id, members, d);
  }

  lemma ActionLeads(s: Cluster, a: Action)
    requires s.Sound() && Enabled(s, a) && React(s, a).Some? && a.node in s.nodes
    ensures var n, m := s.nodes[a.node], React(s, a).value.node;
      m.state.role == Leader ==> LedBefore(n, m) || JustWon(n, m)
  {
    hide Enabled, React, MatchMoved;
    if a.ElectionTimeout? || a.TakeVoteReply? {
      ElectionWins(s, a);
    } else {
      ActionLedOn(s, a, a.node);
    }
  }

  // Once the node that led a term no longer does, nobody ever leads that term again.
  lemma {:induction false} TermEndsForGood(members: set<NodeId>, states: seq<Cluster>, events: seq<Event>,
                                           k: nat, i: nat, j: nat, id: NodeId, t: int, b: NodeId)
    requires RunFromStart(members, states, events) && k <= i <= j < |states|
    requires LeadsTerm(states[k], id, t) && !LeadsTerm(states[i], id, t)
    ensures !LeadsTerm(states[j], b, t)
    decreases j
  {
    hide Possible, Step, Invariant, Grows, JustWon;
    assert states[k].Sound() && states[j].Sound();
    if LeadsTerm(states[j], b, t) {
      ElectionSafety(members, states, events, k, id, j, b);
      if i < j {
        TermEndsForGood(members, states, events, k, i, j - 1, id, t, b);
        assert Leads(states, events, j - 1);
        LeadsAfter(states[j - 1], events[j - 1], states[j], id, t);
        var hs := RunHasChronicle(members, states, events);
        WonOnce(hs[k], states[k], hs[j - 1], states[j - 1], hs[j], states[j], id, t);
      }
    }
  }

  // Nobody wins a term that has had a leader.
  lemma WonOnce(h: History, s: Cluster, k: History, s1: Cluster, l: History, s2: Cluster, id: NodeId, t: int)
    requires Invariant(h, s) && Invariant(k, s1) && Invariant(l, s2) && Grows(h, k) && Grows(k, l)
    requires id in s.members && id in s1.members && id in s2.members && id in s1.nodes
    requires LeadsTerm(s, id, t) && LeadsTerm(s2, id, t)
    ensures !JustWon(s1.nodes[id], s2.nodes[id])
  {
    hide Invariant, Grows, Lawful, Consistent, LeadersSafe, CommitsBacked, AcksKept;
    InvariantLaws(k, s1);
    LeaderReigns(h, s, id, k);
    GrowsItself(l);
    LeaderReigns(l, s2, id, l);
    CandidateKnown(k, s1, id);
    TermKnown(k, s1, id);
    if JustWon(s1.nodes[id], s2.nodes[id]) {
      WonTermIsNew(k, l, s1.nodes[id], id, t);
    }
  }

  // ---- Leadership transfer ----

  // What a transfer in this term reports when this reply is taken.
  lemma TransferStep(members: set<NodeId>, states: seq<Cluster>, events: seq<Event>, i: nat, id: NodeId, from: NodeId,
                     req: TimeoutNowRequest, reply: TimeoutNowReply)
    requires RunFromStart(members, states, events) && Happens(states, events, i, TakeTimeoutReply(id, from, req, reply))
    ensures var s, s' := states[i], states[i + 1];
      && s.Sound() && id in s.members && id in s.nodes && id in s'.nodes
      && s'.nodes[id] == ReceiveTimeoutReply(s.nodes[id], req.term, reply).node
  {
    hide Acted, ReceiveTimeoutReply, RunFromStart, NodeView.Sound;
    var s, a := states[i], TakeTimeoutReply(id, from, req, reply);
    Happened(members, states, events, i, a);
    ActedIs(s, id, React(s, a).value);
  }

  // A transfer is reported exactly by a leader still in the transfer's term whose target accepts
  // and knows of no later term. It then follows nobody, with its vote, log, store and commit
  // index as they were; and nobody leads that term from then on.
  lemma TransferReported(members: set<NodeId>, states: seq<Cluster>, events: seq<Event>, i: nat, id: NodeId,
                         from: NodeId,
                         req: TimeoutNowRequest, reply: TimeoutNowReply, j: nat, b: NodeId)
    requires RunFromStart(members, states, events) && Happens(states, events, i, TakeTimeoutReply(id, from, req, reply))
    requires i < j < |states|
    ensures id in states[i].nodes && id in states[i + 1].nodes
    ensures var n, m := states[i].nodes[id], states[i + 1].nodes[id];
      var e := ReceiveTimeoutReply(n, req.term, reply);
      && (e.reply <==> LeadsTerm(states[i], id, req.term) && reply.term <= req.term && reply.accepted)
      && (e.reply ==>
            && SameData(n, m) && m.replication == None && m.state.role == Follower && m.state.leaderId == None
            && m.state.currentTerm == req.term && m.state.votedFor == n.state.votedFor
            && !LeadsTerm(states[j], b, req.term))
  {
    hide Possible, Step, ReceiveTimeoutReply, RunFromStart, SameData, Deposed;
    TransferStep(members, states, events, i, id, from, req, reply);
    TimeoutReplyAnswered(states[i].nodes[id], req.term, reply);
    if ReceiveTimeoutReply(states[i].nodes[id], req.term, reply).reply {
      TermEndsForGood(members, states, events, i, i + 1, j, id, req.term, b);
    }
  }

  // TimeoutNow is accepted exactly from a later term, or from the leader a follower names; an
  // accepting node then follows the sender, which its term elected.
  lemma TransferAccepted(members: set<NodeId>, states: seq<Cluster>, events: seq<Event>, i: nat, id: NodeId,
                         req: TimeoutNowRequest)
    returns (reply: TimeoutNowReply)
    requires RunFromStart(members, states, events) && Happens(states, events, i, TakeTimeoutNow(id, req))
    ensures id in states[i].nodes && id in states[i + 1].nodes
    ensures states[i + 1].network == states[i].network + {TimeoutReplyMsg(id, req, reply)}
    ensures var n, m := states[i].nodes[id].state, states[i + 1].nodes[id].state;
      && reply.term == Max(n.currentTerm, req.term)
      && (reply.accepted <==>
            || req.term > n.currentTerm
            || (req.term == n.currentTerm && n.role == Follower && n.leaderId == Some(req.leader)))
      && (reply.accepted ==> m.role == Follower && m.currentTerm == req.term && m.leaderId == Some(req.leader))
      && (!reply.accepted ==> m == n)
  {
    hide Possible, Step, ReceiveTimeoutNow, SameData;
    TransferTaken(members, states, events, i, id, req);
    reply := ReceiveTimeoutNow(states[i].nodes[id], req).reply;
    TimeoutNowAnswered(states[i].nodes[id], req);
  }

  lemma TransferTaken(members: set<NodeId>, states: seq<Cluster>, events: seq<Event>, i: nat, id: NodeId,
                      req: TimeoutNowRequest)
    requires RunFromStart(members, states, events) && Happens(states, events, i, TakeTimeoutNow(id, req))
    ensures var s, s' := states[i], states[i + 1];
      && id in s.nodes && id in s'.nodes
      && var e := ReceiveTimeoutNow(s.nodes[id], req);
         s'.nodes[id] == e.node && s'.network == s.network + {TimeoutReplyMsg(id, req, e.reply)}
  {
    hide Acted, ReceiveTimeoutNow, RunFromStart, NodeView.Sound;
    var s, a := states[i], TakeTimeoutNow(id, req);
    Happened(members, states, events, i, a);
    ActedIs(s, id, React(s, a).value);
  }
}

// Linearizable reads (section 8): a leader that a majority answered after the read began holds
// everything committed before the read, and serves it unless an entry of an earlier term is the
// next one it has to commit.

module Reads {
  import opened Prelude
  import opened Types
  import opened History
  import opened HistorySteps
  import opened RaftLogs
  import opened Leaders
  import opened Journals
  import opened Nodes
  import opened Clusters
  import opened Agreement
  import opened ClusterProof
  import opened Safety

  // ---- Replies tell the term of whoever sent them ----

  predicate Numbers(m: Message, r: nat) {
    match m
    case AppendMsg(rpc, _, _) => rpc < r
    case AppendReplyMsg(rpc, _, _, _) => rpc < r
    case SnapshotMsg(rpc, _, _) => rpc < r
    case SnapshotReplyMsg(rpc, _, _, _) => rpc < r
    case _ => true
  }

  ghost predicate RpcsNumbered(s: Cluster) { forall m :: m in s.network ==> Numbers(m, s.nextRpc) }

  // m is node f's successful answer to RPC number r0 or a later one, sent by a leader of this term.
  predicate Answers(m: Message, f: NodeId, term: int, r0: nat) {
    match m
    case AppendReplyMsg(rpc, from, append, reply) => from == f && append.term == term && rpc >= r0 && reply.success
    case SnapshotReplyMsg(rpc, from, install, reply) => from == f && install.term == term && rpc >= r0 && reply.success
    case _ => false
  }

  lemma AppendSucceedsInTerm(n: NodeView, req: AppendRequest)
    requires n.Sound() && ReceiveAppend(n, req).Some? && ReceiveAppend(n, req).value.reply.success
    ensures n.state.currentTerm <= req.term
  {
  }

  lemma SnapshotSucceedsInTerm(n: NodeView, req: SnapshotRequest)
    requires n.Sound() && ReceiveSnapshot(n, req).Some? && ReceiveSnapshot(n, req).value.reply.success
    ensures n.state.currentTerm <= req.term
  {
  }

  // What an action sends is numbered, and a success comes from a node no later than the request.
  lemma SentMessage(s: Cluster, a: Action, m: Message)
    requires s.Sound() && Enabled(s, a) && React(s, a).Some? && m in React(s, a).value.sent && RpcsNumbered(s)
    ensures Numbers(m, s.nextRpc + 1)
    ensures forall f, t, r0 :: Answers(m, f, t, r0) ==> f in s.nodes && s.nodes[f].state.currentTerm <= t
  {
    hide BeginElection, ReceiveVoteRequest, ReceiveVoteReply, ReceiveAppendReply, ReceiveSnapshotReply, AdvanceAndApply;
    hide ReceiveTimeoutNow, ReceiveTimeoutReply, ApplyForRead, NextRequest, ReceiveAppend, ReceiveSnapshot, Submit,
          CreateSnapshot;
    hide InitReplication, VoteRequestOf, IsQuorumIndex;
    if a.TakeAppend? {
      assert Numbers(AppendMsg(a.rpc, a.node, a.append), s.nextRpc);
      if ReceiveAppend(s.nodes[a.node], a.append).value.reply.success {
        AppendSucceedsInTerm(s.nodes[a.node], a.append);
      }
    } else if a.TakeSnapshot? {
      assert Numbers(SnapshotMsg(a.rpc, a.node, a.install), s.nextRpc);
      if ReceiveSnapshot(s.nodes[a.node], a.install).value.reply.success {
        SnapshotSucceedsInTerm(s.nodes[a.node], a.install);
      }
    }
  }

  // Only a completed action sends anything.
  lemma NetworkGrows(s: Cluster, e: Event, s': Cluster)
    requires s.Sound() && Possible(s, e) && Step(s, e) == Some(s')
    ensures s.nextRpc <= s'.nextRpc
    ensures forall m :: m in s'.network && m !in s.network ==>
              e.Complete? && Enabled(s, e.action) && React(s, e.action).Some? && m in React(s, e.action).value.sent
              && s'.nextRpc == s.nextRpc + 1
    ensures forall m :: m in s.network ==> m in s'.network
  {
    hide Enabled, React, Recover, PerformAll;
    if e.Complete? {
      EnabledNode(s, e.action);
    }
  }

  lemma NumberedStays(s: Cluster, e: Event, s': Cluster)
    requires s.Sound() && Possible(s, e) && Step(s, e) == Some(s') && RpcsNumbered(s)
    ensures RpcsNumbered(s')
  {
    hide Enabled, React, Possible, Step;
    NetworkGrows(s, e, s');
    forall m | m in s'.network ensures Numbers(m, s'.nextRpc) {
      if m in s.network {
        assert Numbers(m, s.nextRpc);
      } else {
        SentMessage(s, e.action, m);
      }
    }
  }

  lemma InitialNumbered(members: set<NodeId>)
    ensures RpcsNumbered(Initial(members))
  {
  }

  lemma {:induction false} AllNumbered(members: set<NodeId>, states: seq<Cluster>, events: seq<Event>, i: nat)
    requires RunFromStart(members, states, events) && i < |states|
    ensures RpcsNumbered(states[i])
  {
    hide Possible, Step, RpcsNumbered, Initial;
    if i == 0 {
      InitialNumbered(members);
    } else {
      AllNumbered(members, states, events, i - 1);
      assert Leads(states, events, i - 1);
      NumberedStays(states[i - 1], events[i - 1], states[i]);
    }
  }

  // Whoever answered an RPC sent after s0 was, at s0, in no later term than the RPC's.
  ghost predicate AnswersHonest(s0: Cluster, s: Cluster) {
    forall m, f, t :: m in s.network && Answers(m, f, t, s0.nextRpc) ==>
      f in s0.nodes && s0.nodes[f].state.currentTerm <= t
  }

  ghost predicate TermsOnward(s0: Cluster, s: Cluster) {
    && s.nodes.Keys == s0.nodes.Keys
    && forall n :: n in s0.nodes ==> s0.nodes[n].state.currentTerm <= s.nodes[n].state.currentTerm
  }

  lemma HonestStays(s0: Cluster, s: Cluster, e: Event, s': Cluster)
    requires s.Sound() && Possible(s, e) && Step(s, e) == Some(s') && RpcsNumbered(s)
    requires AnswersHonest(s0, s) && TermsOnward(s0, s)
    ensures AnswersHonest(s0, s')
  {
    hide Enabled, React, Possible, Step, RpcsNumbered;
    NetworkGrows(s, e, s');
    forall m, f, t | m in s'.network && Answers(m, f, t, s0.nextRpc)
      ensures f in s0.nodes && s0.nodes[f].state.currentTerm <= t
    {
      if m !in s.network {
        SentMessage(s, e.action, m);
      }
    }
  }

  lemma NoAnswersYet(s: Cluster)
    requires RpcsNumbered(s)
    ensures AnswersHonest(s, s)
  {
    forall m | m in s.network ensures forall f, t :: !Answers(m, f, t, s.nextRpc) {
      assert Numbers(m, s.nextRpc);
    }
  }

  lemma TermKnown(h: History, s: Cluster, id: NodeId)
    requires Invariant(h, s) && id in s.members
    ensures id in s.nodes && s.nodes[id].state.currentTerm == h.Term(id)
  {
    hide Truthful, Lawful, CandidateFaithful, LeaderFaithful, ReplicationFaithful, DiskMatches;
    assert Faithful(h, s.nodes[id], s.disks[id], id);
  }

  lemma TermsGoOn(h: History, s: Cluster, k: History, s': Cluster)
    requires Invariant(h, s) && Invariant(k, s') && Grows(h, k)
    ensures TermsOnward(s, s')
  {
    hide Invariant, Grows;
    NodesKnown(h, s);
    NodesKnown(k, s');
    GrowsBasics(h, k);
    forall n | n in s.nodes ensures n in s'.nodes && s.nodes[n].state.currentTerm <= s'.nodes[n].state.currentTerm {
      TermKnown(h, s, n);
      TermKnown(k, s', n);
      GrowsTerm(h, k, n);
    }
  }

  lemma NodesKnown(h: History, s: Cluster)
    requires Invariant(h, s)
    ensures s.nodes.Keys == s.members == h.members
  {
    hide Lawful, Faithful, Truthful;
  }

  lemma GrowsBasics(h: History, k: History)
    requires Grows(h, k)
    ensures h.members == k.members
  {
  }

  lemma GrowsTerm(h: History, k: History, n: NodeId)
    requires Grows(h, k)
    ensures h.Term(n) <= k.Term(n)
  {
  }

  lemma {:induction false} AnswersStayHonest(members: set<NodeId>, states: seq<Cluster>, events: seq<Event>, i: nat,
                                             j: nat)
    requires RunFromStart(members, states, events) && i <= j < |states|
    ensures AnswersHonest(states[i], states[j])
    decreases j
  {
    hide Possible, Step, RpcsNumbered, Invariant, Grows, AnswersHonest, TermsOnward;
    if i == j {
      AllNumbered(members, states, events, i);
      NoAnswersYet(states[i]);
    } else {
      AnswersStayHonest(members, states, events, i, j - 1);
      AllNumbered(members, states, events, j - 1);
      var hs := RunHasChronicle(members, states, events);
      TermsGoOn(hs[i], states[i], hs[j - 1], states[j - 1]);
      assert Leads(states, events, j - 1);
      HonestStays(states[i], states[j - 1], events[j - 1], states[j]);
    }
  }

  // ---- The read barrier ----

  // A majority, the leader among them or not, answered RPCs the leader of this term sent since.
  ghost predicate Confirmed(s0: Cluster, s: Cluster, leader: NodeId, q: set<NodeId>, term: int) {
    && Majority(q, s.members)
    && (forall f :: f in q && f != leader ==> exists m :: m in s.network && Answers(m, f, term, s0.nextRpc))
  }

  // No later term had a leader when the barrier began: its electorate would have been past this term.
  lemma NoLaterReign(h: History, s0: Cluster, s: Cluster, leader: NodeId, q: set<NodeId>, term: int, t: int)
    requires Invariant(h, s0) && AnswersHonest(s0, s) && s.members == s0.members && Confirmed(s0, s, leader, q, term)
    requires leader in s0.members && s0.nodes[leader].state.currentTerm <= term && t in h.reigns
    ensures t <= term
  {
    hide Invariant, AnswersHonest, Consistent, Lawful, LeadersSafe, CommitsBacked, AcksKept;
    InvariantLaws(h, s0);
    var v := MeetsElectorate(h, t, q);
    TermKnown(h, s0, v);
    if v != leader {
      var m :| m in s.network && Answers(m, v, term, s0.nextRpc);
      HonestAnswer(s0, s, m, v, term);
    }
  }

  lemma MeetsElectorate(h: History, t: int, q: set<NodeId>) returns (v: NodeId)
    requires Consistent(h) && t in h.reigns && Majority(q, h.members)
    ensures v in q && v in h.members && t <= h.Term(v)
  {
    hide Rooted, Numbered, LateCandidatesFail;
    v := MajoritiesMeet(h.reigns[t].voters, q, h.members);
    assert Voted(h.votes, v, t, h.reigns[t].leader);
  }

  lemma HonestAnswer(s0: Cluster, s: Cluster, m: Message, f: NodeId, t: int)
    requires AnswersHonest(s0, s) && m in s.network && Answers(m, f, t, s0.nextRpc)
    ensures f in s0.nodes && s0.nodes[f].state.currentTerm <= t
  {
  }

  // What was committed in term t or before ends where the entries of the leader's own term
  // begin, or lies within its commit index.
  lemma CommitCovers(h: History, p: seq<LogEntry>, t: int, term: int, commit: int)
    requires Rooted(h.reigns) && h.CommittedIn(p, t) && t <= term && p <= h.LeaderLog(term)
    requires 0 <= commit <= |h.LeaderLog(term)|
    requires commit == |h.LeaderLog(term)| || h.LeaderLog(term)[commit].term == term
    requires t == term ==> |p| <= commit
    ensures |p| <= commit
  {
    EarlyTerms(h, p, t);
    assert forall j :: 0 <= j < |p| ==> p[j] == h.LeaderLog(term)[j];
  }

  lemma EarlyTerms(h: History, p: seq<LogEntry>, t: int)
    requires Rooted(h.reigns) && h.CommittedIn(p, t)
    ensures forall j :: 0 <= j < |p| ==> p[j].term <= t
  {
    forall j | 0 <= j < |p| ensures p[j].term <= t {
      assert p[j] == h.LeaderLog(t)[j];
      assert RootedAt(h.reigns, t, j);
    }
  }

  // The leader has committed an entry of its own term: term_at(commit_index) is its term.
  predicate CommittedOwnTerm(n: NodeView) {
    n.log.WellFormed() && n.log.TermAt(n.state.commitIndex) == Some(n.state.currentTerm)
  }

  // No entry of an earlier term waits to be committed: the commit index is at the end of the
  // log, or at an entry of the leader's own term.
  predicate NothingPending(n: NodeView) {
    && n.log.WellFormed()
    && (n.state.commitIndex == n.log.LastIndex() || n.log.TermAt(n.state.commitIndex + 1) == Some(n.state.currentTerm))
  }

  // Terms never decrease along a leader's log: after its own entries come only its own.
  lemma OwnCommitSuffices(h: History, s: Cluster, id: NodeId)
    requires Invariant(h, s) && id in s.members && s.nodes[id].state.role == Leader && CommittedOwnTerm(s.nodes[id])
    ensures NothingPending(s.nodes[id])
  {
    hide Invariant, Lawful, Consistent, LeadersSafe, CommitsBacked, AcksKept, Images, Sourced, CommittedOwnTerm;
    hide NothingPending;
    InvariantLaws(h, s);
    NodeImages(h, s, id);
    OwnTermCommit(h, s, id);
    LawfulRooted(h);
    ImagesBound(s.nodes[id], h.Log(id));
    OwnEntriesLast(h, s.nodes[id], id);
  }

  lemma OwnEntriesLast(h: History, n: NodeView, id: NodeId)
    requires Rooted(h.reigns) && Images(n, h.Log(id)) && OwnCommit(h, n, id)
    ensures NothingPending(n)
  {
    var full, c := h.Log(id), n.state.commitIndex;
    RepresentedReads(n.log, full);
    if c < |full| {
      assert RootedAt(h.reigns, n.state.currentTerm, c);
      LeaderLogSourced(h, n.state.currentTerm);
      PrefixSourced(h, full, c + 1);
      TermsBounded(h, full[..c + 1], c - 1);
      assert full[..c + 1][c - 1] == full[c - 1] && full[..c + 1][c] == full[c];
    }
  }

  lemma OwnTermCommit(h: History, s: Cluster, id: NodeId)
    requires Invariant(h, s) && id in s.members && s.nodes[id].state.role == Leader && CommittedOwnTerm(s.nodes[id])
    ensures OwnCommit(h, s.nodes[id], id)
  {
    hide Invariant, Lawful, Consistent, LeadersSafe, CommitsBacked, AcksKept, Images, Sourced, CommittedOwnTerm;
    hide OwnCommit;
    InvariantLaws(h, s);
    NodeImages(h, s, id);
    GrowsItself(h);
    LeaderReigns(h, s, id, h);
    InvariantFaithfulNode(h, s, id);
    ReignPositive(h, s.nodes[id].state.currentTerm) by {
      LawfulNumbered(h);
    }
    OwnCommitReads(h, s.nodes[id], id);
  }

  predicate OwnCommit(h: History, n: NodeView, id: NodeId) {
    var t := n.state.currentTerm;
    && t in h.reigns && h.LeaderLog(t) == h.Log(id)
    && 0 < n.state.commitIndex <= |h.Log(id)| && h.Log(id)[n.state.commitIndex - 1].term == t
    && (t in h.commits ==> h.commits[t] <= n.state.commitIndex)
  }

  lemma OwnCommitReads(h: History, n: NodeView, id: NodeId)
    requires Images(n, h.Log(id)) && LeaderFaithful(h, n, id) && n.state.role == Leader && CommittedOwnTerm(n)
    requires 0 < n.state.currentTerm
    ensures OwnCommit(h, n, id)
  {
    RepresentedAt(n.log, h.Log(id), n.state.commitIndex);
  }

  lemma LawfulNumbered(h: History)
    requires Consistent(h)
    ensures Numbered(h.reigns)
  {
  }

  lemma InvariantFaithfulNode(h: History, s: Cluster, id: NodeId)
    requires Invariant(h, s) && id in s.members
    ensures id in s.nodes && LeaderFaithful(h, s.nodes[id], id)
  {
    hide Truthful, Lawful, ImageFaithful, CandidateFaithful, ReplicationFaithful, LeaderFaithful, DiskMatches;
    assert Faithful(h, s.nodes[id], s.disks[id], id);
  }

  lemma ReignPositive(h: History, t: int)
    requires Numbered(h.reigns) && t in h.reigns
    ensures 0 < t
  {
  }

  // What a leader knows when nothing of an earlier term is pending.
  predicate Settled(h: History, n: NodeView, id: NodeId) {
    var c, t := n.state.commitIndex, n.state.currentTerm;
    && 0 <= c <= |h.Log(id)| && h.LeaderLog(t) == h.Log(id)
    && (c == |h.Log(id)| || h.Log(id)[c].term == t)
    && (t in h.commits ==> h.commits[t] <= c)
  }

  lemma PendingReads(h: History, n: NodeView, id: NodeId)
    requires Images(n, h.Log(id)) && LeaderFaithful(h, n, id) && n.state.role == Leader && NothingPending(n)
    ensures Settled(h, n, id)
  {
    RepresentedReads(n.log, h.Log(id));
  }

  // A node x had committed p before the barrier: the leader's log begins with p, and p lies
  // inside what the leader has committed when nothing of an earlier term is pending there.
  lemma BarrierCovers(h: History, s0: Cluster, x: NodeId, k: History, s: Cluster, leader: NodeId, q: set<NodeId>)
    requires Invariant(h, s0) && Invariant(k, s) && Grows(h, k) && AnswersHonest(s0, s)
    requires x in s0.members && leader in s.members && leader in s0.members && s.members == s0.members
    requires s.nodes[leader].state.role == Leader
    requires s0.nodes[leader].state.currentTerm <= s.nodes[leader].state.currentTerm
    requires Confirmed(s0, s, leader, q, s.nodes[leader].state.currentTerm)
    ensures CommittedFrom(s0.nodes[x], k.Log(leader))
    ensures NothingPending(s.nodes[leader]) ==> s0.nodes[x].state.commitIndex <= s.nodes[leader].state.commitIndex
  {
    hide Invariant, Grows, AnswersHonest, Confirmed, Images, CommittedFrom, NothingPending, Settled, Sourced;
    hide Lawful, Consistent, LeadersSafe, CommitsBacked, AcksKept;
    InvariantLaws(h, s0);
    InvariantLaws(k, s);
    var term := s.nodes[leader].state.currentTerm;
    GrowsItself(k);
    LeaderReigns(k, s, leader, k);
    NodeImages(k, s, leader);
    ImagesBound(s.nodes[leader], k.Log(leader));
    NodeImages(h, s0, x);
    ImagesBound(s0.nodes[x], h.Log(x));
    var p := h.Log(x)[..s0.nodes[x].state.commitIndex];
    var t :| h.CommittedIn(p, t);
    CommittedStays(h, k, p, t);
    CommitHasReign(h, p, t);
    if p != [] {
      NoLaterReign(h, s0, s, leader, q, term, t);
      LeaderCompleteness(k, p, t, term);
      if NothingPending(s.nodes[leader]) {
        InvariantFaithfulNode(k, s, leader);
        PendingReads(k, s.nodes[leader], leader);
        LawfulRooted(k);
        SettledCovers(k, s.nodes[leader], leader, p, t);
      }
    }
    ImagesCommitted(s0.nodes[x], h.Log(x), k.Log(leader));
  }

  lemma SettledCovers(h: History, n: NodeView, id: NodeId, p: seq<LogEntry>, t: int)
    requires Rooted(h.reigns) && Settled(h, n, id) && h.CommittedIn(p, t) && t <= n.state.currentTerm && p <= h.Log(id)
    ensures |p| <= n.state.commitIndex
  {
    CommitCovers(h, p, t, n.state.currentTerm, n.state.commitIndex);
  }

  lemma LawfulRooted(h: History)
    requires Consistent(h)
    ensures Rooted(h.reigns)
  {
  }

  // The quorum barrier. Between s0, when the barrier began, and s, when the store is read, the
  // leader stayed in its term and a majority answered RPCs sent in between. Then the log whose
  // image it is begins with everything any node had committed at s0; and unless an entry of an
  // earlier term is still pending there, the store it reads, the fold of what it has committed
  // of that log, has all of it applied.
  lemma BarrierRead(members: set<NodeId>, states: seq<Cluster>, events: seq<Event>, i: nat, j: nat, leader: NodeId,
                    q: set<NodeId>)
    returns (full: seq<LogEntry>)
    requires RunFromStart(members, states, events) && i <= j < |states|
    requires leader in states[i].members && leader in states[j].members
    requires states[j].nodes[leader].state.role == Leader
    requires states[i].nodes[leader].state.currentTerm == states[j].nodes[leader].state.currentTerm
    requires Confirmed(states[i], states[j], leader, q, states[j].nodes[leader].state.currentTerm)
    ensures Images(states[j].nodes[leader], full)
    ensures forall x :: x in states[i].members ==> CommittedFrom(states[i].nodes[x], full)
    ensures NothingPending(states[j].nodes[leader]) ==>
              forall x :: x in states[i].members ==>
                states[i].nodes[x].state.commitIndex <= states[j].nodes[leader].state.commitIndex
    ensures CommittedOwnTerm(states[j].nodes[leader]) ==> NothingPending(states[j].nodes[leader])
  {
    hide Possible, Step, Invariant, Grows, AnswersHonest, Confirmed, Images, CommittedFrom, CommittedOwnTerm;
    hide NothingPending;
    var hs := RunHasChronicle(members, states, events);
    AnswersStayHonest(members, states, events, i, j);
    full := hs[j].Log(leader);
    NodeImages(hs[j], states[j], leader);
    NodesKnown(hs[i], states[i]);
    NodesKnown(hs[j], states[j]);
    GrowsBasics(hs[i], hs[j]);
    if CommittedOwnTerm(states[j].nodes[leader]) {
      OwnCommitSuffices(hs[j], states[j], leader);
    }
    forall x | x in states[i].members
      ensures CommittedFrom(states[i].nodes[x], full)
      ensures NothingPending(states[j].nodes[leader]) ==>
                states[i].nodes[x].state.commitIndex <= states[j].nodes[leader].state.commitIndex
    {
      BarrierCovers(hs[i], states[i], x, hs[j], states[j], leader, q);
    }
  }
}

// What a client of a leader, and a leader of its followers, may conclude: submitted batches,
// commit advances, match indexes, and the follower's commit rule, over whole runs.

module Submissions {
  import opened Prelude
  import opened Types
  import opened History
  import opened HistorySteps
  import opened RaftLogs
  import opened Leaders
  import opened Journals
  import opened Nodes
  import opened Clusters
  import opened Agreement
  import opened AppendProof
  import opened ClientProof
  import opened ClusterProof
  import opened Safety
  import opened Reads

  // The node's uncompacted log holds entry e.
  ghost predicate Holds(n: NodeView, e: LogEntry) {
    exists full :: Images(n, full) && 0 < e.index <= |full| && full[e.index - 1] == e
  }

  // ---- An own-term entry a leader has committed is on a majority ----

  lemma OwnEntryChosen(h: History, n: NodeView, id: NodeId, x: int) returns (c: int)
    requires Rooted(h.reigns) && CommitsBacked(h) && ImageFaithful(h, n, id) && LeaderFaithful(h, n, id)
        && n.state.role == Leader
    requires 0 < x <= n.state.commitIndex <= |h.Log(id)| && h.Log(id)[x - 1].term == n.state.currentTerm
    ensures x <= c <= |h.LeaderLog(n.state.currentTerm)|
    ensures h.Fresh(n.state.currentTerm, c) && h.Chosen(n.state.currentTerm, c)
  {
    var term, commit := n.state.currentTerm, n.state.commitIndex;
    var t :| CertifiedBy(h, id, commit, n.log.baseIndex, Leader, t);
    var p := h.Log(id)[..commit];
    assert p[x - 1] == h.LeaderLog(t)[x - 1];
    EarlyTerms(h, p, t);
    assert p[x - 1].term <= t;
    c := h.commits[term];
    assert t == term;
  }

  lemma SupporterHolds(h: History, v: NodeId, t: int, c: int, x: int)
    requires AcksKept(h) && h.Fresh(t, c) && h.Chosen(t, c) && v in h.Supporters(t, c) && 0 < x <= c <= |h.LeaderLog(t)|
    ensures x <= |h.Log(v)| && h.Log(v)[x - 1] == h.LeaderLog(t)[x - 1]
  {
    ChosenIsChoosable(h, t, c);
    assert h.Safe(t, c, h.Log(v));
    assert h.Log(v)[x - 1] == h.LeaderLog(t)[..c][x - 1];
  }

  lemma OwnEntryOnMajority(h: History, s: Cluster, id: NodeId, x: int) returns (q: set<NodeId>)
    requires Invariant(h, s) && id in s.members && s.nodes[id].state.role == Leader
    requires 0 < x <= s.nodes[id].state.commitIndex && x <= |h.Log(id)|
    requires h.Log(id)[x - 1].term == s.nodes[id].state.currentTerm
    ensures Majority(q, s.members)
    ensures forall v :: v in q ==> v in s.nodes && Holds(s.nodes[v], h.Log(id)[x - 1])
  {
    hide Invariant, Lawful, Consistent, LeadersSafe, CommitsBacked, AcksKept, Images, Sourced, Holds, ImageFaithful;
    InvariantLaws(h, s);
    LawfulRooted(h);
    NodeImages(h, s, id);
    ImagesBound(s.nodes[id], h.Log(id));
    GrowsItself(h);
    LeaderReigns(h, s, id, h);
    var n := s.nodes[id];
    var t := n.state.currentTerm;
    LeaderImage(h, s, id);
    var c := OwnEntryChosen(h, n, id, x);
    q := h.Supporters(t, c);
    forall v | v in q ensures v in s.nodes && Holds(s.nodes[v], h.Log(id)[x - 1]) {
      NodesKnown(h, s);
      NodeImages(h, s, v);
      SupporterHolds(h, v, t, c, x);
      ImagesIndex(n, h.Log(id), x);
      HoldsFrom(s.nodes[v], h.Log(v), h.Log(id)[x - 1]);
    }
  }

  lemma ImagesIndex(n: NodeView, full: seq<LogEntry>, x: int)
    requires Images(n, full) && 0 < x <= |full|
    ensures full[x - 1].index == x
  {
  }

  lemma HoldsFrom(n: NodeView, full: seq<LogEntry>, e: LogEntry)
    requires Images(n, full) && 0 < e.index <= |full| && full[e.index - 1] == e
    ensures Holds(n, e)
  {
  }

  lemma LeaderImage(h: History, s: Cluster, id: NodeId)
    requires Invariant(h, s) && id in s.members
    ensures id in s.nodes && ImageFaithful(h, s.nodes[id], id) && LeaderFaithful(h, s.nodes[id], id)
  {
    hide Truthful, Lawful, ImageFaithful, CandidateFaithful, ReplicationFaithful, LeaderFaithful, DiskMatches;
    assert Faithful(h, s.nodes[id], s.disks[id], id);
  }

  // ---- submit_commands ----

  // The client's result for an entry: the leader's commit index has reached it.
  predicate Reported(n: NodeView, e: LogEntry) { n.state.role == Leader && n.state.commitIndex >= e.index }

  lemma SubmittedEntry(h: History, k: History, s: Cluster, s': Cluster, id: NodeId, commands: seq<Command>, x: nat)
    requires Invariant(h, s) && Invariant(k, s') && id in s.members && id in s'.members
    requires Submit(s.nodes[id], commands).Accepted? && commands != [] && x < |commands|
    requires s'.nodes[id] == Submit(s.nodes[id], commands).effect.node
    ensures var es := Submit(s.nodes[id], commands).effect.reply;
      && Batch(h.Log(id), s.nodes[id].state.currentTerm, commands, es)
      && |h.Log(id)| == s.nodes[id].log.LastIndex()
      && 0 < es[x].index <= |k.Log(id)| && k.Log(id)[es[x].index - 1] == es[x]
      && s'.nodes[id].state == s.nodes[id].state && s.nodes[id].state.role == Leader
  {
    hide Invariant, Lawful, Consistent, LeadersSafe, CommitsBacked, AcksKept, Sourced, Submit, InitReplication;
    InvariantLaws(h, s);
    var n := s.nodes[id];
    NodeImages(h, s, id);
    NodeImages(k, s', id);
    TermKnown(h, s, id);
    TermNotNegative(h, id) by {
      LawfulTerms(h);
    }
    var es, log := SubmitIs(n, h.Log(id), commands);
    RepresentedReads(n.log, h.Log(id));
    ReadsAt(log, h.Log(id) + es, k.Log(id), es[x].index);
  }

  lemma LawfulTerms(h: History)
    requires Consistent(h)
    ensures TermsKnown(h.members, h.terms)
  {
  }

  lemma ReadsAt(l: LogView, a: seq<LogEntry>, b: seq<LogEntry>, x: int)
    requires Represents(l, a) && Represents(l, b) && l.baseIndex < x <= |a|
    ensures x <= |b| && a[x - 1] == b[x - 1]
  {
    assert a[l.baseIndex..][x - 1 - l.baseIndex] == a[x - 1];
    assert b[l.baseIndex..][x - 1 - l.baseIndex] == b[x - 1];
  }

  // The event was this leader's, accepted, and put entry x of the batch in its log.
  ghost predicate Submitted(states: seq<Cluster>, events: seq<Event>, i: nat, id: NodeId, commands: seq<Command>,
                            e: LogEntry, x: nat) {
    && i < |events| && i < |states| && events[i] == Complete(SubmitBatch(id, commands)) && commands != []
    && states[i].Sound() && id in states[i].members
    && Submit(states[i].nodes[id], commands).Accepted?
    && x < |Submit(states[i].nodes[id], commands).effect.reply|
    && e == Submit(states[i].nodes[id], commands).effect.reply[x]
  }

  // A batch is appended in order, at consecutive indexes right after the leader's last one.
  lemma BatchAppended(members: set<NodeId>, states: seq<Cluster>, events: seq<Event>, i: nat, id: NodeId,
                      commands: seq<Command>, e: LogEntry, x: nat)
    requires RunFromStart(members, states, events) && Submitted(states, events, i, id, commands, e, x)
    ensures x < |commands|
    ensures e == LogEntry(states[i].nodes[id].log.LastIndex() + 1 + x,
                          states[i].nodes[id].state.currentTerm, commands[x])
    ensures i + 1 < |states| && id in states[i + 1].nodes && Holds(states[i + 1].nodes[id], e)
    ensures states[i + 1].nodes[id].state == states[i].nodes[id].state
  {
    hide Possible, Invariant, Grows, Holds, Submit, Images, Sourced;
    var hs := RunHasChronicle(members, states, events);
    assert Leads(states, events, i);
    SubmitStep(states[i], id, commands, states[i + 1]);
    NodesKnown(hs[i + 1], states[i + 1]);
    SubmittedEntry(hs[i], hs[i + 1], states[i], states[i + 1], id, commands, x);
    NodeImages(hs[i + 1], states[i + 1], id);
    HoldsFrom(states[i + 1].nodes[id], hs[i + 1].Log(id), e);
  }

  lemma SubmitStep(s: Cluster, id: NodeId, commands: seq<Command>, s': Cluster)
    requires s.Sound() && id in s.members && Step(s, Complete(SubmitBatch(id, commands))) == Some(s')
    requires Submit(s.nodes[id], commands).Accepted?
    ensures id in s'.members && id in s'.nodes && s'.nodes[id] == Submit(s.nodes[id], commands).effect.node
  {
    hide Submit, PerformAll;
  }

  // The history in which the entry was created, and the leader's log of that term since.
  lemma SubmittedStays(h: History, k: History, s: Cluster, id: NodeId, e: LogEntry)
    requires Invariant(h, s) && Grows(h, k) && id in s.members && s.nodes[id].state.role == Leader
    requires 0 < e.index <= |h.Log(id)| && h.Log(id)[e.index - 1] == e
    ensures s.nodes[id].state.currentTerm in k.reigns
    ensures e.index <= |k.LeaderLog(s.nodes[id].state.currentTerm)|
    ensures k.LeaderLog(s.nodes[id].state.currentTerm)[e.index - 1] == e
  {
    hide Invariant, Grows;
    LeaderReigns(h, s, id, k);
  }

  // A True result, at a leader still in the term in which it appended, means that very entry
  // is committed and applied here and on a majority.
  lemma SubmissionCommitted(members: set<NodeId>, states: seq<Cluster>, events: seq<Event>, i: nat, id: NodeId,
                            commands: seq<Command>, e: LogEntry, x: nat, j: nat)
    returns (full: seq<LogEntry>, q: set<NodeId>)
    requires RunFromStart(members, states, events) && Submitted(states, events, i, id, commands, e, x)
    requires i < j < |states| && id in states[j].members && Reported(states[j].nodes[id], e)
    requires states[j].nodes[id].state.currentTerm == e.term
    ensures Images(states[j].nodes[id], full)
    ensures 0 < e.index <= |full| && full[e.index - 1] == e && e.index <= states[j].nodes[id].state.lastApplied
    ensures Majority(q, states[j].members)
    ensures forall v :: v in q ==> v in states[j].nodes && Holds(states[j].nodes[v], e)
  {
    hide Possible, Step, Invariant, Grows, Holds, Submit, Images, Sourced, Submitted;
    var hs := RunHasChronicle(members, states, events);
    var h := EntryCreated(members, states, events, hs, i, id, commands, e, x);
    full := hs[j].Log(id);
    SubmittedStays(hs[i + 1], hs[j], states[i + 1], id, e);
    GrowsItself(hs[j]);
    LeaderReigns(hs[j], states[j], id, hs[j]);
    NodeImages(hs[j], states[j], id);
    ImagesApplied(states[j].nodes[id], full);
    q := OwnEntryOnMajority(hs[j], states[j], id, e.index);
  }

  lemma ImagesApplied(n: NodeView, full: seq<LogEntry>)
    requires Images(n, full)
    ensures n.state.lastApplied == n.state.commitIndex <= |full|
  {
  }

  lemma EntryCreated(members: set<NodeId>, states: seq<Cluster>, events: seq<Event>, hs: seq<History>, i: nat,
                     id: NodeId,
                     commands: seq<Command>, e: LogEntry, x: nat) returns (h: History)
    requires RunFromStart(members, states, events) && Chronicle(hs, states)
        && Submitted(states, events, i, id, commands, e, x)
    ensures i + 1 < |states| && h == hs[i + 1] && id in states[i + 1].members
    ensures 0 < e.index <= |h.Log(id)| && h.Log(id)[e.index - 1] == e
    ensures states[i + 1].nodes[id].state.role == Leader && states[i + 1].nodes[id].state.currentTerm == e.term
  {
    hide Possible, Invariant, Grows, Submit;
    h := hs[i + 1];
    assert Leads(states, events, i);
    SubmitStep(states[i], id, commands, states[i + 1]);
    NodesKnown(h, states[i + 1]);
    SubmittedEntry(hs[i], h, states[i], states[i + 1], id, commands, x);
  }

  // The program rechecks its role but not its term before it reports. In a later term the
  // report is about that very entry, out of the one log g all nodes commit, exactly when the
  // entry's index still carries its term. Where the leader has compacted past the entry, its
  // boundary can still tell: the same term there means that entry, a smaller one another.
  lemma SubmissionRecheck(members: set<NodeId>, states: seq<Cluster>, events: seq<Event>, i: nat, id: NodeId,
                          commands: seq<Command>, e: LogEntry, x: nat, j: nat)
    returns (g: seq<LogEntry>)
    requires RunFromStart(members, states, events) && Submitted(states, events, i, id, commands, e, x)
    requires i < j < |states| && id in states[j].members && Reported(states[j].nodes[id], e)
    ensures forall k, n :: 0 <= k < |states| && n in states[k].members ==> CommittedFrom(states[k].nodes[n], g)
    ensures 0 < e.index <= states[j].nodes[id].state.commitIndex <= |g| && states[j].nodes[id].log.WellFormed()
    ensures var l := states[j].nodes[id].log;
      && (l.baseIndex <= e.index ==> (l.TermAt(e.index) == Some(e.term) <==> g[e.index - 1] == e))
      && (e.index < l.baseIndex && l.baseTerm == e.term ==> g[e.index - 1] == e)
      && (e.index < l.baseIndex && l.baseTerm < e.term ==> g[e.index - 1] != e)
  {
    hide Possible, Step, Invariant, Grows, Holds, Submit, Images, Sourced, Submitted, Lawful, Consistent,
         LeadersSafe, CommitsBacked, AcksKept, CommittedFrom, CoversCommits;
    var hs := RunHasChronicle(members, states, events);
    var h := EntryCreated(members, states, events, hs, i, id, commands, e, x);
    SubmittedStays(hs[i + 1], hs[j], states[i + 1], id, e);
    InvariantLaws(hs[|events|], states[|events|]);
    g := EverythingCommitted(hs[|events|]);
    forall k, n | 0 <= k < |states| && n in states[k].members ensures CommittedFrom(states[k].nodes[n], g) {
      NodeCommittedFrom(hs[k], hs[|events|], states[k], n, g);
    }
    RecheckAt(hs[j], states[j], hs[|events|], id, e, g);
  }

  lemma RecheckAt(h: History, s: Cluster, k: History, id: NodeId, e: LogEntry, g: seq<LogEntry>)
    requires Invariant(h, s) && Grows(h, k) && CoversCommits(k, g) && id in s.members
    requires 0 < e.index <= s.nodes[id].state.commitIndex && e.term in h.reigns
    requires e.index <= |h.LeaderLog(e.term)| && h.LeaderLog(e.term)[e.index - 1] == e
    ensures s.nodes[id].state.commitIndex <= |g| && s.nodes[id].log.WellFormed()
    ensures var l := s.nodes[id].log;
      && (l.baseIndex <= e.index ==> (l.TermAt(e.index) == Some(e.term) <==> g[e.index - 1] == e))
      && (e.index < l.baseIndex && l.baseTerm == e.term ==> g[e.index - 1] == e)
      && (e.index < l.baseIndex && l.baseTerm < e.term ==> g[e.index - 1] != e)
  {
    hide Invariant, Grows, Images, Sourced, Lawful, Consistent, LeadersSafe, CommitsBacked, AcksKept, CoversCommits;
    InvariantLaws(h, s);
    LawfulRooted(h);
    NodeImages(h, s, id);
    var n, full := s.nodes[id], h.Log(id);
    ImagesApplied(n, full);
    ImagesBase(n, full);
    var c := n.state.commitIndex;
    var t :| h.CommittedIn(full[..c], t);
    CommittedStays(h, k, full[..c], t);
    CoversOne(k, g, full[..c], t);
    assert g[e.index - 1] == full[..c][e.index - 1] == full[e.index - 1];
    if n.log.baseIndex <= e.index {
      SameTermSameEntry(h, full, e);
      ImagesTermAt(n, full, e.index);
    } else {
      BoundaryTells(h, full, n.log.baseIndex, e);
    }
  }

  lemma ImagesBase(n: NodeView, full: seq<LogEntry>)
    requires Images(n, full)
    ensures n.log.WellFormed() && n.log.baseIndex <= |full|
    ensures n.log.baseIndex > 0 ==> n.log.baseTerm == full[n.log.baseIndex - 1].term
  {
    RepresentedReads(n.log, full);
  }

  // The term at a later index of a log bounds the term at this one, and equal terms mean the
  // log is that term's leader's.
  lemma BoundaryTells(h: History, full: seq<LogEntry>, b: int, e: LogEntry)
    requires Rooted(h.reigns) && Sourced(h.reigns, full) && e.term in h.reigns
    requires 0 < e.index < b <= |full| && e.index <= |h.LeaderLog(e.term)| && h.LeaderLog(e.term)[e.index - 1] == e
    ensures full[b - 1].term == e.term ==> full[e.index - 1] == e
    ensures full[b - 1].term < e.term ==> full[e.index - 1] != e
  {
    PrefixSourced(h, full, b);
    TermsBounded(h, full[..b], e.index - 1);
    assert full[..b][e.index - 1] == full[e.index - 1] && full[..b][b - 1] == full[b - 1];
  }

  lemma ImagesTermAt(n: NodeView, full: seq<LogEntry>, x: int)
    requires Images(n, full) && n.log.WellFormed() && n.log.baseIndex <= x <= |full| && 0 < x
    ensures n.log.TermAt(x) == Some(full[x - 1].term)
  {
    RepresentedAt(n.log, full, x);
  }

  lemma SameTermSameEntry(h: History, full: seq<LogEntry>, e: LogEntry)
    requires Rooted(h.reigns) && Sourced(h.reigns, full) && e.term in h.reigns
    requires 0 < e.index <= |h.LeaderLog(e.term)| && h.LeaderLog(e.term)[e.index - 1] == e && e.index <= |full|
    ensures full[e.index - 1].term == e.term <==> full[e.index - 1] == e
  {
    if full[e.index - 1].term == e.term {
      LeaderLogSourced(h, e.term);
      LogMatching(h, full, h.LeaderLog(e.term), e.index);
      assert full[e.index - 1] == full[..e.index][e.index - 1] == h.LeaderLog(e.term)[..e.index][e.index - 1];
    }
  }

  // ---- advance_commit_index ----

  lemma AdvanceStep(s: Cluster, id: NodeId, x: int, s': Cluster)
    requires s.Sound() && Enabled(s, CloseRound(id, x)) && Step(s, Complete(CloseRound(id, x))) == Some(s')
    ensures id in s.nodes && id in s'.nodes && id in s'.members
    ensures AdvanceAndApply(s.nodes[id], x).Some? && s'.nodes[id] == AdvanceAndApply(s.nodes[id], x).value.node
  {
    hide AdvanceAndApply, PerformAll, IsQuorumIndex;
  }

  lemma AdvanceOwnTerm(n: NodeView, x: int)
    requires n.Sound() && AdvanceAndApply(n, x).Some?
    requires AdvanceAndApply(n, x).value.node.state.commitIndex != n.state.commitIndex
    ensures var m := AdvanceAndApply(n, x).value.node;
      n.state.commitIndex < x == m.state.commitIndex && m.state.role == Leader && CommittedOwnTerm(m)
  {
  }

  // Each advance is to the quorum index, onto an entry of the leader's own term, which a
  // majority holds (section 5.4.2).
  lemma AdvanceBacked(members: set<NodeId>, states: seq<Cluster>, events: seq<Event>, i: nat, id: NodeId, x: int)
    returns (e: LogEntry, q: set<NodeId>)
    requires RunFromStart(members, states, events) && i < |events| && events[i] == Complete(CloseRound(id, x))
    requires id in states[i].members && id in states[i + 1].members
    requires states[i + 1].nodes[id].state.commitIndex != states[i].nodes[id].state.commitIndex
    ensures states[i].nodes[id].state.commitIndex < x == states[i + 1].nodes[id].state.commitIndex
    ensures e.index == x && e.term == states[i + 1].nodes[id].state.currentTerm && Holds(states[i + 1].nodes[id], e)
    ensures Majority(q, states[i + 1].members)
    ensures forall v :: v in q ==> v in states[i + 1].nodes && Holds(states[i + 1].nodes[v], e)
  {
    hide Invariant, Grows, Holds, AdvanceAndApply, Images, Sourced, CommittedOwnTerm, Enabled, Step;
    var hs := RunHasChronicle(members, states, events);
    var s := states[i + 1];
    assert Leads(states, events, i);
    AdvanceStep(states[i], id, x, s);
    AdvanceOwnTerm(states[i].nodes[id], x);
    OwnTermCommit(hs[i + 1], s, id);
    NodeImages(hs[i + 1], s, id);
    e := hs[i + 1].Log(id)[x - 1];
    ImagesIndex(s.nodes[id], hs[i + 1].Log(id), x);
    HoldsFrom(s.nodes[id], hs[i + 1].Log(id), e);
    q := OwnEntryOnMajority(hs[i + 1], s, id, x);
  }

  // ---- The follower's commit rule ----

  // Every request on the network carries the leader's whole suffix: its commit index lies
  // inside what it verifies. And a follower that takes it keeps the rule.
  lemma FollowerCommitRule(members: set<NodeId>, states: seq<Cluster>, events: seq<Event>, i: nat, id: NodeId,
                           rpc: nat, req: AppendRequest)
    requires RunFromStart(members, states, events) && i < |states| && id in states[i].members
    requires AppendMsg(rpc, id, req) in states[i].network
    ensures 0 <= req.leaderCommit <= req.prevLogIndex + |req.entries|
    ensures id in states[i].nodes && states[i].nodes[id].Sound() && ReceiveAppend(states[i].nodes[id], req).Some?
    ensures var e := ReceiveAppend(states[i].nodes[id], req).value;
      RuleKept(states[i].nodes[id], req, e.node, e.reply.success)
  {
    hide Possible, Step, Grows, Invariant, RuleKept, ReceiveAppend;
    var hs := RunHasChronicle(members, states, events);
    RuleKeptAt(hs[i], states[i], id, rpc, req);
  }

  lemma RuleKeptAt(h: History, s: Cluster, id: NodeId, rpc: nat, req: AppendRequest)
    requires Invariant(h, s) && id in s.members && AppendMsg(rpc, id, req) in s.network
    ensures 0 <= req.leaderCommit <= req.prevLogIndex + |req.entries|
    ensures id in s.nodes && s.nodes[id].Sound() && ReceiveAppend(s.nodes[id], req).Some?
    ensures var e := ReceiveAppend(s.nodes[id], req).value;
      RuleKept(s.nodes[id], req, e.node, e.reply.success)
  {
    hide Invariant, Lawful, Consistent, LeadersSafe, CommitsBacked, AcksKept, RuleKept, ReceiveAppend;
    InvariantLaws(h, s);
    FaithfulNode(h, s, id);
    AppendOnNetwork(h, s, id, rpc, req);
    hide NodeFaithful;
    FollowerRule(h, s.nodes[id], id, req);
  }

  lemma AppendOnNetwork(h: History, s: Cluster, id: NodeId, rpc: nat, req: AppendRequest)
    requires Invariant(h, s) && AppendMsg(rpc, id, req) in s.network
    ensures AppendTruthful(h, req)
  {
    hide Lawful, Faithful;
    assert Truthful(h, AppendMsg(rpc, id, req));
  }

  lemma FaithfulNode(h: History, s: Cluster, id: NodeId)
    requires Invariant(h, s) && id in s.members
    ensures id in s.nodes && NodeFaithful(h, s.nodes[id], id)
  {
    hide Lawful, NodeFaithful, Truthful;
    assert Faithful(h, s.nodes[id], s.disks[id], id);
  }
}

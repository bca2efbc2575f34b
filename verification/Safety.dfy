// What holds of every run of the cluster, said of nodes, logs and stores alone.

module Safety {
  import opened Prelude
  import opened Types
  import opened History
  import opened HistorySteps
  import opened RaftLogs
  import opened StateMachines
  import opened Journals
  import opened Nodes
  import opened Clusters
  import opened Agreement
  import opened ElectionProof
  import opened ClusterProof

  // ---- Histories of runs ----

  function FirstHistory(members: set<NodeId>): History {
    History(members, map n | n in members :: 0, map n | n in members :: [], map[], map[], map[], map[], map[])
  }

  lemma FreshFaithful(members: set<NodeId>, n: NodeId)
    requires n in members
    ensures Faithful(FirstHistory(members), FreshNode(n, members), BLANK_DISK, n)
  {
    var h := FirstHistory(members);
    assert CertifiedBy(h, n, 0, 0, Follower, 0);
  }

  lemma FirstLawful(members: set<NodeId>)
    ensures Lawful(FirstHistory(members))
  {
    var h := FirstHistory(members);
    assert forall t :: h.LeaderLog(t) == [];
  }

  lemma InitialHolds(members: set<NodeId>)
    ensures Invariant(FirstHistory(members), Initial(members))
  {
    FirstLawful(members);
    forall n | n in members ensures Faithful(FirstHistory(members), FreshNode(n, members), BLANK_DISK, n) {
      FreshFaithful(members, n);
    }
  }

  // A history for every state of a run, each continuing the one before.
  ghost predicate Chronicle(hs: seq<History>, states: seq<Cluster>) {
    && |hs| == |states|
    && (forall i :: 0 <= i < |states| ==> Invariant(hs[i], states[i]))
    && (forall i, j :: 0 <= i <= j < |states| ==> Grows(hs[i], hs[j]))
  }

  lemma {:induction false} RunHasChronicle(members: set<NodeId>, states: seq<Cluster>, events: seq<Event>)
    returns (hs: seq<History>)
    requires RunFromStart(members, states, events)
    ensures Chronicle(hs, states)
    decreases |events|
  {
    hide Invariant, Grows, Step, Possible;
    if events == [] {
      InitialHolds(members);
      hs := [FirstHistory(members)];
      GrowsItself(hs[0]);
    } else {
      var last := |events| - 1;
      RunPrefix(members, states, events, last);
      assert Leads(states, events, last);
      var init := RunHasChronicle(members, states[..last + 1], events[..last]);
      assert states[..last + 1][last] == states[last];
      var k, s' := StepKeeps(init[last], states[last], events[last]);
      hs := init + [k];
      ChronicleGrows(init, k, states);
    }
  }

  lemma ChronicleGrows(init: seq<History>, k: History, states: seq<Cluster>)
    requires init != [] && |states| == |init| + 1 && Chronicle(init, states[..|init|])
    requires Grows(init[|init| - 1], k) && Invariant(k, states[|init|])
    ensures Chronicle(init + [k], states)
  {
    hide Invariant, Grows;
    var hs := init + [k];
    forall i | 0 <= i < |states| ensures Invariant(hs[i], states[i]) {
      if i < |init| {
        assert states[..|init|][i] == states[i];
      }
    }
    forall i, j | 0 <= i <= j < |states| ensures Grows(hs[i], hs[j]) {
      if j == |init| {
        if i == j {
          GrowsItself(k);
        } else {
          GrowsTransitively(init[i], init[|init| - 1], k);
        }
      }
    }
  }

  // Nothing a reachable cluster can do raises an exception.
  lemma NothingRaises(members: set<NodeId>, states: seq<Cluster>, events: seq<Event>, e: Event)
    requires RunFromStart(members, states, events) && Possible(states[|events|], e)
    ensures Step(states[|events|], e).Some?
  {
    hide Step, Possible, Invariant;
    var hs := RunHasChronicle(members, states, events);
    var k, s' := StepKeeps(hs[|events|], states[|events|], e);
  }

  // ---- One log ----

  // Everything node n shows is an image of a full log.
  ghost predicate Images(n: NodeView, full: seq<LogEntry>) {
    && WellNumbered(full) && DataFaithful(full, n.log, n.snapshot, n.store, n.state.commitIndex)
    && n.log.baseIndex <= n.state.commitIndex && n.state.lastApplied == n.state.commitIndex
  }

  lemma NodeImages(h: History, s: Cluster, id: NodeId)
    requires Invariant(h, s) && id in s.members
    ensures Images(s.nodes[id], h.Log(id)) && Sourced(h.reigns, h.Log(id))
    ensures exists t :: h.CommittedIn(h.Log(id)[..s.nodes[id].state.commitIndex], t)
  {
    hide Truthful, CandidateFaithful, LeaderFaithful, ReplicationFaithful, VotesSafe, LeadersSafe, AcksKept;
    hide CommitsBacked;
    assert Faithful(h, s.nodes[id], s.disks[id], id);
    var n := s.nodes[id];
    NodeReads(h, n, id);
    var t :| CertifiedBy(h, id, n.state.commitIndex, n.log.baseIndex, n.state.role, t);
    assert h.CommittedIn(h.Log(id)[..n.state.commitIndex], t);
  }

  // What node n has committed is a prefix of g: log, boundary, snapshot and store.
  predicate CommittedFrom(n: NodeView, g: seq<LogEntry>) {
    && n.log.WellFormed() && n.log.baseIndex <= n.state.commitIndex <= |g| && n.state.lastApplied == n.state.commitIndex
    && n.state.commitIndex <= n.log.LastIndex()
    && n.log.baseTerm == TermOf(g, n.log.baseIndex)
    && (forall i :: n.log.baseIndex < i <= n.state.commitIndex ==> n.log.Get(i) == Some(g[i - 1]))
    && n.snapshot.index == n.log.baseIndex && n.snapshot.term == n.log.baseTerm
    && n.snapshot.state == Fold(map[], g[..n.snapshot.index])
    && n.store == Fold(map[], g[..n.state.commitIndex])
  }

  lemma ImagesCommitted(n: NodeView, full: seq<LogEntry>, g: seq<LogEntry>)
    requires Images(n, full) && full[..n.state.commitIndex] <= g
    ensures CommittedFrom(n, g)
  {
    var c, b := n.state.commitIndex, n.log.baseIndex;
    RepresentedReads(n.log, full);
    assert g[..c] == full[..c];
    assert g[..b] == g[..c][..b] == full[..c][..b] == full[..b];
    assert b > 0 ==> g[b - 1] == g[..c][b - 1] == full[..c][b - 1] == full[b - 1];
    forall i | b < i <= c ensures n.log.Get(i) == Some(g[i - 1]) {
      assert g[i - 1] == g[..c][i - 1] == full[..c][i - 1] == full[i - 1];
    }
  }

  lemma GreatestTerm(ts: set<int>) returns (t: int)
    requires ts != {}
    ensures t in ts && forall u :: u in ts ==> u <= t
  {
    var x := Member(ts);
    t := x;
    if ts - {x} != {} {
      var u := GreatestTerm(ts - {x});
      t := if x <= u then u else x;
    }
    assert forall u :: u in ts ==> u == x || u in ts - {x};
  }

  // g begins with everything anybody has committed.
  ghost predicate CoversCommits(h: History, g: seq<LogEntry>) {
    forall p, t :: h.CommittedIn(p, t) ==> p <= g
  }

  lemma CoversOne(h: History, g: seq<LogEntry>, p: seq<LogEntry>, t: int)
    requires CoversCommits(h, g) && h.CommittedIn(p, t)
    ensures p <= g
  {
  }

  // The log of the last leader there was does.
  lemma EverythingCommitted(h: History) returns (g: seq<LogEntry>)
    requires LeadersSafe(h) && CommitsBacked(h)
    ensures CoversCommits(h, g)
  {
    hide LeadersSafe, CommitsBacked;
    if h.reigns == map[] {
      g := [];
      forall p, t | h.CommittedIn(p, t) ensures p <= g {
        CommitHasReign(h, p, t);
      }
    } else {
      assert h.reigns.Keys != {};
      var w := GreatestTerm(h.reigns.Keys);
      g := h.LeaderLog(w);
      forall p, t | h.CommittedIn(p, t) ensures p <= g {
        CommitHasReign(h, p, t);
        if p != [] {
          LeaderCompleteness(h, p, t, w);
        }
      }
    }
  }

  lemma CommitHasReign(h: History, p: seq<LogEntry>, t: int)
    requires CommitsBacked(h) && h.CommittedIn(p, t)
    ensures p != [] ==> t in h.reigns
  {
    if p != [] {
      assert h.Fresh(t, h.commits[t]);
    }
  }

  // State Machine Safety (section 5.4.3), over a whole run: there is one log g such that what
  // any node has committed, at any time, is a prefix of g.
  lemma OneCommittedLog(members: set<NodeId>, states: seq<Cluster>, events: seq<Event>) returns (g: seq<LogEntry>)
    requires RunFromStart(members, states, events)
    ensures forall i, n :: 0 <= i < |states| && n in states[i].members ==> CommittedFrom(states[i].nodes[n], g)
  {
    hide Step, Possible, Images, CommittedFrom, Grows, Invariant, CoversCommits;
    var hs := RunHasChronicle(members, states, events);
    var h := hs[|events|];
    InvariantLaws(h, states[|events|]);
    g := EverythingCommitted(h);
    forall i, n | 0 <= i < |states| && n in states[i].members ensures CommittedFrom(states[i].nodes[n], g) {
      NodeCommittedFrom(hs[i], h, states[i], n, g);
    }
  }

  lemma InvariantLaws(h: History, s: Cluster)
    requires Invariant(h, s)
    ensures Lawful(h) && Consistent(h) && LeadersSafe(h) && CommitsBacked(h) && AcksKept(h)
    ensures s.Sound() && h.members == s.members
  {
  }

  lemma NodeCommittedFrom(h: History, k: History, s: Cluster, n: NodeId, g: seq<LogEntry>)
    requires Invariant(h, s) && Grows(h, k) && n in s.members
    requires CoversCommits(k, g)
    ensures n in s.nodes && CommittedFrom(s.nodes[n], g)
  {
    hide Invariant, Images, CommittedFrom, Grows, CoversCommits, Lawful, Consistent, LeadersSafe, CommitsBacked;
    hide AcksKept;
    InvariantLaws(h, s);
    NodeImages(h, s, n);
    var full, c := h.Log(n), s.nodes[n].state.commitIndex;
    assert 0 <= c <= |full| by {
      ImagesBound(s.nodes[n], full);
    }
    var t :| h.CommittedIn(full[..c], t);
    CommittedStays(h, k, full[..c], t);
    CoversOne(k, g, full[..c], t);
    ImagesCommitted(s.nodes[n], full, g);
  }

  lemma ImagesBound(n: NodeView, full: seq<LogEntry>)
    requires Images(n, full)
    ensures 0 <= n.state.commitIndex <= |full|
  {
  }

  // The same, node against node: at any two times, two nodes that have committed index x hold
  // the same entry there, equal commit indexes mean equal stores, and equal snapshot indexes
  // equal snapshots.
  lemma StateMachineSafety(members: set<NodeId>, states: seq<Cluster>, events: seq<Event>,
                           i: nat, a: NodeId, j: nat, b: NodeId, x: int)
    requires RunFromStart(members, states, events) && i < |states| && j < |states|
    requires a in states[i].members && b in states[j].members
    ensures var n, m := states[i].nodes[a], states[j].nodes[b];
      && (n.log.baseIndex < x <= n.state.commitIndex && m.log.baseIndex < x <= m.state.commitIndex ==>
            n.log.Get(x).Some? && n.log.Get(x) == m.log.Get(x))
      && (n.state.commitIndex == m.state.commitIndex ==> n.store == m.store)
      && (n.snapshot.index == m.snapshot.index ==> n.snapshot == m.snapshot)
  {
    hide Step, Possible;
    var g := OneCommittedLog(members, states, events);
    assert CommittedFrom(states[i].nodes[a], g) && CommittedFrom(states[j].nodes[b], g);
  }

  // The store of any node at any time is its snapshot's state with the retained entries up to
  // last_applied applied in order.
  lemma StoreIsFold(members: set<NodeId>, states: seq<Cluster>, events: seq<Event>, i: nat, id: NodeId)
    requires RunFromStart(members, states, events) && i < |states| && id in states[i].members
    ensures var n := states[i].nodes[id];
      && 0 <= n.state.lastApplied - n.log.baseIndex <= |n.log.entries|
      && n.store == Fold(n.snapshot.state, n.log.entries[..n.state.lastApplied - n.log.baseIndex])
  {
    hide Step, Possible, Invariant, Grows, Images;
    var hs := RunHasChronicle(members, states, events);
    NodeImages(hs[i], states[i], id);
    ImagesFold(states[i].nodes[id], hs[i].Log(id));
  }

  lemma ImagesFold(n: NodeView, full: seq<LogEntry>)
    requires Images(n, full)
    ensures 0 <= n.state.lastApplied - n.log.baseIndex <= |n.log.entries|
    ensures n.store == Fold(n.snapshot.state, n.log.entries[..n.state.lastApplied - n.log.baseIndex])
  {
    var b, c := n.log.baseIndex, n.state.commitIndex;
    FoldSplits(map[], full[..b], full[b..c]);
    assert full[..b] + full[b..c] == full[..c];
    assert n.log.entries[..c - b] == full[b..c];
  }

  // ---- Election Safety (section 5.2) ----

  // At most one node leads a term, in a whole run: early or late, before or after crashes.
  lemma ElectionSafety(members: set<NodeId>, states: seq<Cluster>, events: seq<Event>, i: nat, a: NodeId, j: nat,
                       b: NodeId)
    requires RunFromStart(members, states, events) && i < |states| && j < |states|
    requires a in states[i].members && b in states[j].members
    requires states[i].nodes[a].state.role == Leader && states[j].nodes[b].state.role == Leader
    requires states[i].nodes[a].state.currentTerm == states[j].nodes[b].state.currentTerm
    ensures a == b
  {
    hide Step, Possible, Invariant, Grows;
    var hs := RunHasChronicle(members, states, events);
    var h := hs[|events|];
    LeaderReigns(hs[i], states[i], a, h);
    LeaderReigns(hs[j], states[j], b, h);
  }

  lemma LeaderReigns(h: History, s: Cluster, id: NodeId, k: History)
    requires Invariant(h, s) && Grows(h, k) && id in s.members && s.nodes[id].state.role == Leader
    ensures var t := s.nodes[id].state.currentTerm;
      && t in h.reigns && h.reigns[t].leader == id && h.LeaderLog(t) == h.Log(id) && h.Term(id) == t
      && t in k.reigns && k.reigns[t].leader == id && h.Log(id) <= k.LeaderLog(t)
  {
    hide Truthful, CandidateFaithful, DataFaithful, ReplicationFaithful, Lawful;
    assert Faithful(h, s.nodes[id], s.disks[id], id);
  }

  // The leader a node names, and sends clients to, is the one its term elected: at no time of
  // the run does any node of that term name another, and no other leads it.
  lemma LeaderIdNamesLeader(members: set<NodeId>, states: seq<Cluster>, events: seq<Event>,
                            i: nat, a: NodeId, j: nat, b: NodeId)
    requires RunFromStart(members, states, events) && i < |states| && j < |states|
    requires a in states[i].members && b in states[j].members
    requires states[i].nodes[a].state.currentTerm == states[j].nodes[b].state.currentTerm
    ensures var n, m := states[i].nodes[a].state, states[j].nodes[b].state;
      n.leaderId.Some? ==>
        && (m.role == Leader ==> n.leaderId == Some(b))
        && (m.leaderId.Some? ==> m.leaderId == n.leaderId)
  {
    hide Step, Possible, Invariant, Grows;
    var hs := RunHasChronicle(members, states, events);
    var h := hs[|events|];
    LeaderIdReigns(hs[i], states[i], a, h);
    LeaderIdReigns(hs[j], states[j], b, h);
    if states[j].nodes[b].state.role == Leader {
      LeaderReigns(hs[j], states[j], b, h);
    }
  }

  lemma LeaderIdReigns(h: History, s: Cluster, id: NodeId, k: History)
    requires Invariant(h, s) && Grows(h, k) && id in s.members
    ensures var n := s.nodes[id].state; LeaderKnown(k, n.currentTerm, n.leaderId)
  {
    hide Truthful, CandidateFaithful, LeaderFaithful, DataFaithful, ReplicationFaithful, Lawful;
    assert Faithful(h, s.nodes[id], s.disks[id], id);
  }

  // ---- Leader Append-Only (section 5.3) ----

  // As long as a node leads one term, from time i to time j, it overwrites and removes nothing:
  // what it still retains is where it was, and the uncompacted log has only grown at its end.
  lemma LeaderAppendOnly(members: set<NodeId>, states: seq<Cluster>, events: seq<Event>, i: nat, j: nat, id: NodeId)
    returns (before: seq<LogEntry>, after: seq<LogEntry>)
    requires RunFromStart(members, states, events) && i <= j < |states|
    requires id in states[i].members && id in states[j].members
    requires states[i].nodes[id].state.role == Leader && states[j].nodes[id].state.role == Leader
    requires states[i].nodes[id].state.currentTerm == states[j].nodes[id].state.currentTerm
    ensures Images(states[i].nodes[id], before) && Images(states[j].nodes[id], after) && before <= after
    ensures var n, m := states[i].nodes[id].log, states[j].nodes[id].log;
      && n.WellFormed() && m.WellFormed() && n.LastIndex() <= m.LastIndex()
      && (forall x :: m.baseIndex < x && n.Get(x).Some? ==> m.Get(x) == n.Get(x))
  {
    hide Step, Possible, Invariant, Grows, Images;
    var hs := RunHasChronicle(members, states, events);
    before, after := hs[i].Log(id), hs[j].Log(id);
    NodeImages(hs[i], states[i], id);
    NodeImages(hs[j], states[j], id);
    LeaderReigns(hs[i], states[i], id, hs[j]);
    GrowsItself(hs[j]);
    LeaderReigns(hs[j], states[j], id, hs[j]);
    GrownImages(states[i].nodes[id], before, states[j].nodes[id], after);
  }

  lemma GrownImages(n: NodeView, before: seq<LogEntry>, m: NodeView, after: seq<LogEntry>)
    requires Images(n, before) && Images(m, after) && before <= after
    ensures n.log.WellFormed() && m.log.WellFormed() && n.log.LastIndex() <= m.log.LastIndex()
    ensures forall x :: m.log.baseIndex < x && n.log.Get(x).Some? ==> m.log.Get(x) == n.log.Get(x)
  {
    RepresentedReads(n.log, before);
    RepresentedReads(m.log, after);
    forall x | m.log.baseIndex < x && n.log.Get(x).Some? ensures m.log.Get(x) == n.log.Get(x) {
      assert before[x - 1] == after[x - 1];
    }
  }

  // ---- Leader Completeness (section 5.4) ----

  // What a leader ever commits is in the uncompacted log of every leader of a later term at any
  // time of the run, also before the commit, and of its own term from then on: full is the log
  // the leader's retained entries, snapshot and store are images of.
  lemma LeaderHoldsCommitted(members: set<NodeId>, states: seq<Cluster>, events: seq<Event>,
                             i: nat, a: NodeId, j: nat, b: NodeId) returns (full: seq<LogEntry>)
    requires RunFromStart(members, states, events) && i < |states| && j < |states|
    requires a in states[i].members && b in states[j].members
    requires states[i].nodes[a].state.role == Leader && states[j].nodes[b].state.role == Leader
    requires states[i].nodes[a].state.currentTerm <= states[j].nodes[b].state.currentTerm
    requires states[i].nodes[a].state.currentTerm == states[j].nodes[b].state.currentTerm ==> i <= j
    ensures Images(states[j].nodes[b], full)
    ensures states[i].nodes[a].state.commitIndex <= |full|
    ensures CommittedFrom(states[i].nodes[a], full)
  {
    hide Step, Possible, Invariant, Grows, Images, CommittedFrom;
    var hs := RunHasChronicle(members, states, events);
    full := hs[j].Log(b);
    NodeImages(hs[i], states[i], a);
    NodeImages(hs[j], states[j], b);
    var p := LeaderCommittedPrefix(hs[i], states[i], a);
    LeaderReigns(hs[j], states[j], b, hs[j]);
    InvariantLaws(hs[j], states[j]);
    var t :| t <= states[i].nodes[a].state.currentTerm && hs[i].CommittedIn(p, t);
    InvariantLaws(hs[i], states[i]);
    if i <= j {
      CommittedStays(hs[i], hs[j], p, t);
      LeaderCompleteness(hs[j], p, t, states[j].nodes[b].state.currentTerm);
    } else {
      CompletenessBefore(hs[j], hs[i], p, t, states[j].nodes[b].state.currentTerm);
    }
    ImagesCommitted(states[i].nodes[a], hs[i].Log(a), full);
  }

  lemma LeaderCommittedPrefix(h: History, s: Cluster, id: NodeId) returns (p: seq<LogEntry>)
    requires Invariant(h, s) && id in s.members && s.nodes[id].state.role == Leader
    ensures 0 <= s.nodes[id].state.commitIndex <= |h.Log(id)| && p == h.Log(id)[..s.nodes[id].state.commitIndex]
    ensures exists t :: t <= s.nodes[id].state.currentTerm && h.CommittedIn(p, t)
  {
    hide Truthful, CandidateFaithful, DataFaithful, ReplicationFaithful, Lawful;
    var n := s.nodes[id];
    assert Faithful(h, n, s.disks[id], id);
    var t :| CertifiedBy(h, id, n.state.commitIndex, n.log.baseIndex, Leader, t);
    p := h.Log(id)[..n.state.commitIndex];
  }

  // ---- Log Matching (section 5.3) ----

  // Two nodes, at any two times, whose logs have the same term at an index have the same log
  // up to it: in the uncompacted logs fa and fb their boundaries and snapshots stand for.
  lemma LogsMatch(members: set<NodeId>, states: seq<Cluster>, events: seq<Event>,
                  i: nat, a: NodeId, j: nat, b: NodeId, x: int) returns (fa: seq<LogEntry>, fb: seq<LogEntry>)
    requires RunFromStart(members, states, events) && i < |states| && j < |states| && 0 < x
    requires a in states[i].members && b in states[j].members
    requires states[i].nodes[a].log.TermAt(x).Some?
    requires states[i].nodes[a].log.TermAt(x) == states[j].nodes[b].log.TermAt(x)
    ensures Images(states[i].nodes[a], fa) && Images(states[j].nodes[b], fb)
    ensures x <= |fa| && x <= |fb| && fa[..x] == fb[..x]
  {
    hide Step, Possible, Invariant, Grows, Images;
    var hs := RunHasChronicle(members, states, events);
    var h := hs[|events|];
    fa, fb := hs[i].Log(a), hs[j].Log(b);
    NodeImages(hs[i], states[i], a);
    NodeImages(hs[j], states[j], b);
    SourcedStays(hs[i], h, fa);
    SourcedStays(hs[j], h, fb);
    InvariantLaws(h, states[|events|]);
    hide Lawful, LeadersSafe, CommitsBacked, AcksKept, Sourced;
    ImagesTerm(states[i].nodes[a], fa, x);
    ImagesTerm(states[j].nodes[b], fb, x);
    LogMatching(h, fa, fb, x);
  }

  lemma ImagesTerm(n: NodeView, full: seq<LogEntry>, x: int)
    requires Images(n, full) && n.log.WellFormed() && n.log.TermAt(x).Some? && 0 < x
    ensures x <= |full| && n.log.TermAt(x) == Some(full[x - 1].term)
  {
    RepresentedAt(n.log, full, x);
  }
}

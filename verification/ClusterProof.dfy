// Every event keeps the invariant: any node, any action, any crash in the middle of one.

module ClusterProof {
  import opened Prelude
  import opened Types
  import opened History
  import opened HistorySteps
  import opened Leaders
  import opened Journals
  import opened Nodes
  import opened Clusters
  import opened Agreement
  import opened ElectionProof
  import opened RecoveryProof
  import opened AppendProof
  import opened SnapshotProof
  import opened LeaderProof
  import opened ClientProof

  ghost predicate AllTruthful(h: History, ms: set<Message>) {
    forall m :: m in ms ==> Truthful(h, m)
  }

  // The node, its disk and what it sent, after an action.
  ghost predicate Outcome(h: History, d: Disk, id: NodeId, k: History, r: Reaction) {
    Continues(h, k, id) && NodeFaithful(k, r.node, id) && DiskMatches(r.node, PerformAll(d, r.writes))
        && AllTruthful(k, r.sent)
  }

  // What an action may rely on.
  ghost predicate Acting(h: History, s: Cluster, a: Action) {
    && s.Sound() && Enabled(s, a) && Lawful(h) && h.members == s.members
    && NodeFaithful(h, s.nodes[a.node], a.node) && DiskMatches(s.nodes[a.node], s.disks[a.node])
    && (forall m :: m in s.network ==> Truthful(h, m))
  }

  lemma SameMembers(h: History, k: History, id: NodeId)
    requires Continues(h, k, id)
    ensures k.members == h.members && Grows(h, k)
  {
  }

  lemma ElectionTimeoutActs(h: History, s: Cluster, a: Action) returns (k: History, r: Reaction)
    requires Acting(h, s, a) && a.ElectionTimeout?
    ensures React(s, a) == Some(r) && Outcome(h, s.disks[a.node], a.node, k, r)
  {
    hide Lawful, NodeFaithful, DiskMatches, Continues, PerformAll, VoteTruthful, BeginElection;
    k := ElectionTimeoutKeeps(h, s.nodes[a.node], a.node);
    ElectionTimeoutSaved(s.nodes[a.node], s.disks[a.node]);
    r := React(s, a).value;
  }

  lemma TakeVoteRequestActs(h: History, s: Cluster, a: Action) returns (k: History, r: Reaction)
    requires Acting(h, s, a) && a.TakeVoteRequest?
    ensures React(s, a) == Some(r) && Outcome(h, s.disks[a.node], a.node, k, r)
  {
    hide Lawful, NodeFaithful, DiskMatches, Continues, PerformAll, VoteTruthful, ReceiveVoteRequest, Grows;
    assert Truthful(h, VoteMsg(a.node, a.vote));
    k := VoteRequestKeeps(h, s.nodes[a.node], a.node, a.vote);
    VoteRequestSaved(s.nodes[a.node], s.disks[a.node], a.vote);
    SameMembers(h, k, a.node);
    r := React(s, a).value;
  }

  lemma TakeVoteReplyActs(h: History, s: Cluster, a: Action) returns (k: History, r: Reaction)
    requires Acting(h, s, a) && a.TakeVoteReply?
    ensures React(s, a) == Some(r) && Outcome(h, s.disks[a.node], a.node, k, r)
  {
    hide Lawful, NodeFaithful, DiskMatches, Continues, PerformAll, ReceiveVoteReply;
    assert Truthful(h, VoteReplyMsg(a.from, a.vote, a.ballot));
    k := VoteReplyKeeps(h, s.nodes[a.node], a.node, a.from, a.vote, a.ballot);
    VoteReplySaved(s.nodes[a.node], s.disks[a.node], a.from, a.vote, a.ballot);
    r := React(s, a).value;
  }

  lemma OpenRoundActs(h: History, s: Cluster, a: Action) returns (k: History, r: Reaction)
    requires Acting(h, s, a) && a.OpenRound?
    ensures React(s, a) == Some(r) && Outcome(h, s.disks[a.node], a.node, k, r)
  {
    hide Consistent, VotesSafe, LeadersSafe, AcksKept, CommitsBacked, NodeFaithful, Continues, PerformAll;
    var n := s.nodes[a.node];
    FaithfulReads(h, n, a.node);
    InitFaithful(h, n, a.node);
    k := h;
    ContinuesItself(h, a.node);
    NothingWritten(s.disks[a.node]);
    r := React(s, a).value;
  }

  lemma FaithfulReads(h: History, n: NodeView, id: NodeId)
    requires Consistent(h) && NodeFaithful(h, n, id)
    ensures n.log.LastIndex() == |h.Log(id)|
  {
    NodeReads(h, n, id);
  }

  lemma SendToActs(h: History, s: Cluster, a: Action) returns (k: History, r: Reaction)
    requires Acting(h, s, a) && a.SendTo?
    ensures React(s, a) == Some(r) && Outcome(h, s.disks[a.node], a.node, k, r)
  {
    hide Consistent, NodeFaithful, DiskMatches, NextRequest, VotesSafe, LeadersSafe, AcksKept, CommitsBacked;
    hide AppendTruthful, SnapshotTruthful, CommittedBy, Continues, PerformAll;
    k := h;
    ContinuesItself(h, a.node);
    NextRequestTruthful(h, s.nodes[a.node], a.node, a.follower);
    NothingWritten(s.disks[a.node]);
    r := React(s, a).value;
  }

  lemma TakeAppendActs(h: History, s: Cluster, a: Action) returns (k: History, r: Reaction)
    requires Acting(h, s, a) && a.TakeAppend?
    ensures React(s, a) == Some(r) && Outcome(h, s.disks[a.node], a.node, k, r)
  {
    hide Lawful, NodeFaithful, DiskMatches, Continues, PerformAll, AppendTruthful, CommittedBy, ReceiveAppend, Grows;
    assert Truthful(h, AppendMsg(a.rpc, a.node, a.append));
    k := AppendKeeps(h, s.nodes[a.node], a.node, a.append);
    AppendSaved(s.nodes[a.node], s.disks[a.node], a.append);
    SameMembers(h, k, a.node);
    AppendStays(h, k, a.append);
    r := React(s, a).value;
  }

  lemma TakeAppendReplyActs(h: History, s: Cluster, a: Action) returns (k: History, r: Reaction)
    requires Acting(h, s, a) && a.TakeAppendReply?
    ensures React(s, a) == Some(r) && Outcome(h, s.disks[a.node], a.node, k, r)
  {
    hide Lawful, NodeFaithful, DiskMatches, Continues, PerformAll, AppendTruthful, ReceiveAppendReply;
    assert Truthful(h, AppendReplyMsg(a.rpc, a.from, a.append, a.reply));
    k := AppendReplyKeeps(h, s.nodes[a.node], a.node, a.from, a.append, a.reply);
    AppendReplySaved(s.nodes[a.node], s.disks[a.node], a.from, a.append, a.reply);
    r := React(s, a).value;
  }

  lemma TakeSnapshotActs(h: History, s: Cluster, a: Action) returns (k: History, r: Reaction)
    requires Acting(h, s, a) && a.TakeSnapshot?
    ensures React(s, a) == Some(r) && Outcome(h, s.disks[a.node], a.node, k, r)
  {
    hide Consistent, VotesSafe, LeadersSafe, AcksKept, CommitsBacked;
    hide NodeFaithful, DiskMatches, Continues, PerformAll, SnapshotTruthful, CommittedBy, ReceiveSnapshot, Grows;
    assert Truthful(h, SnapshotMsg(a.rpc, a.node, a.install));
    var m;
    k, m := SnapshotKeeps(h, s.nodes[a.node], a.node, a.install);
    SnapshotSaved(h, s.nodes[a.node], s.disks[a.node], a.node, a.install);
    SameMembers(h, k, a.node);
    SnapshotStays(h, k, a.install);
    r := React(s, a).value;
  }

  lemma TakeSnapshotReplyActs(h: History, s: Cluster, a: Action) returns (k: History, r: Reaction)
    requires Acting(h, s, a) && a.TakeSnapshotReply?
    ensures React(s, a) == Some(r) && Outcome(h, s.disks[a.node], a.node, k, r)
  {
    hide Lawful, NodeFaithful, DiskMatches, Continues, PerformAll, SnapshotTruthful, ReceiveSnapshotReply;
    assert Truthful(h, SnapshotReplyMsg(a.rpc, a.from, a.install, a.reply));
    k := SnapshotReplyKeeps(h, s.nodes[a.node], a.node, a.from, a.install, a.reply);
    SnapshotReplySaved(s.nodes[a.node], s.disks[a.node], a.from, a.install, a.reply);
    r := React(s, a).value;
  }

  lemma CloseRoundActs(h: History, s: Cluster, a: Action) returns (k: History, r: Reaction)
    requires Acting(h, s, a) && a.CloseRound?
    ensures React(s, a) == Some(r) && Outcome(h, s.disks[a.node], a.node, k, r)
  {
    hide Lawful, NodeFaithful, DiskMatches, Continues, PerformAll, AdvanceAndApply, IsQuorumIndex;
    k := AdvanceKeeps(h, s.nodes[a.node], a.node, a.quorumIndex);
    AdvanceSaved(s.nodes[a.node], s.disks[a.node], a.quorumIndex);
    r := React(s, a).value;
  }

  lemma SubmitBatchActs(h: History, s: Cluster, a: Action) returns (k: History, r: Reaction)
    requires Acting(h, s, a) && a.SubmitBatch?
    ensures React(s, a) == Some(r) && Outcome(h, s.disks[a.node], a.node, k, r)
  {
    hide Consistent, VotesSafe, LeadersSafe, AcksKept, CommitsBacked, Batch;
    hide NodeFaithful, DiskMatches, Continues, PerformAll;
    var n := s.nodes[a.node];
    NothingWritten(s.disks[a.node]);
    if Submit(n, a.commands).Accepted? && a.commands != [] {
      hide Submit;
      k := SubmitKeeps(h, n, a.node, a.commands);
      SubmitSaved(h, n, s.disks[a.node], a.node, a.commands);
    } else {
      k := h;
      ContinuesItself(h, a.node);
    }
    r := React(s, a).value;
  }

  lemma FinishReadActs(h: History, s: Cluster, a: Action) returns (k: History, r: Reaction)
    requires Acting(h, s, a) && a.FinishRead?
    ensures React(s, a) == Some(r) && Outcome(h, s.disks[a.node], a.node, k, r)
  {
    hide Lawful, ImageFaithful, DiskMatches, Continues, ApplyForRead;
    ReadIs(h, s.nodes[a.node], a.node);
    k := h;
    ContinuesItself(h, a.node);
    NothingWritten(s.disks[a.node]);
    r := React(s, a).value;
  }

  lemma CompactActs(h: History, s: Cluster, a: Action) returns (k: History, r: Reaction)
    requires Acting(h, s, a) && a.Compact?
    ensures React(s, a) == Some(r) && Outcome(h, s.disks[a.node], a.node, k, r)
  {
    hide Consistent, VotesSafe, LeadersSafe, AcksKept, CommitsBacked, NodeFaithful, DiskMatches, Continues,
          PerformAll, CreateSnapshot;
    CompactKeeps(h, s.nodes[a.node], a.node);
    CompactSaved(h, s.nodes[a.node], s.disks[a.node], a.node);
    k := h;
    ContinuesItself(h, a.node);
    r := React(s, a).value;
  }

  lemma SendTimeoutNowActs(h: History, s: Cluster, a: Action) returns (k: History, r: Reaction)
    requires Acting(h, s, a) && a.SendTimeoutNow?
    ensures React(s, a) == Some(r) && Outcome(h, s.disks[a.node], a.node, k, r)
  {
    hide Lawful, NodeFaithful, DiskMatches, Continues, PerformAll;
    k := h;
    LeaderNamesItself(h, s.nodes[a.node], a.node);
    ContinuesItself(h, a.node);
    NothingWritten(s.disks[a.node]);
    r := React(s, a).value;
  }

  lemma LeaderNamesItself(h: History, n: NodeView, id: NodeId)
    requires NodeFaithful(h, n, id) && n.state.role == Leader
    ensures n.state.nodeId == id && LeaderKnown(h, n.state.currentTerm, Some(id))
  {
  }

  lemma TakeTimeoutNowActs(h: History, s: Cluster, a: Action) returns (k: History, r: Reaction)
    requires Acting(h, s, a) && a.TakeTimeoutNow?
    ensures React(s, a) == Some(r) && Outcome(h, s.disks[a.node], a.node, k, r)
  {
    hide Lawful, NodeFaithful, DiskMatches, Continues, PerformAll, ReceiveTimeoutNow;
    assert Truthful(h, TimeoutNowMsg(a.node, a.timeout));
    k := TimeoutNowKeeps(h, s.nodes[a.node], a.node, a.timeout);
    TimeoutNowSaved(s.nodes[a.node], s.disks[a.node], a.timeout);
    r := React(s, a).value;
  }

  lemma TakeTimeoutReplyActs(h: History, s: Cluster, a: Action) returns (k: History, r: Reaction)
    requires Acting(h, s, a) && a.TakeTimeoutReply?
    ensures React(s, a) == Some(r) && Outcome(h, s.disks[a.node], a.node, k, r)
  {
    hide Lawful, NodeFaithful, DiskMatches, Continues, PerformAll, ReceiveTimeoutReply;
    k := TimeoutReplyKeeps(h, s.nodes[a.node], a.node, a.timeout.term, a.answer);
    TimeoutReplySaved(s.nodes[a.node], s.disks[a.node], a.timeout.term, a.answer);
    r := React(s, a).value;
  }

  // No action of a reachable node raises, and each keeps what it must.
  lemma Acts(h: History, s: Cluster, a: Action) returns (k: History, r: Reaction)
    requires Acting(h, s, a)
    ensures React(s, a) == Some(r) && Outcome(h, s.disks[a.node], a.node, k, r)
  {
    hide Acting, React, Outcome;
    match a
    case ElectionTimeout(_) => k, r := ElectionTimeoutActs(h, s, a);
    case TakeVoteRequest(_, _) => k, r := TakeVoteRequestActs(h, s, a);
    case TakeVoteReply(_, _, _, _) => k, r := TakeVoteReplyActs(h, s, a);
    case OpenRound(_) => k, r := OpenRoundActs(h, s, a);
    case SendTo(_, _) => k, r := SendToActs(h, s, a);
    case TakeAppend(_, _, _) => k, r := TakeAppendActs(h, s, a);
    case TakeAppendReply(_, _, _, _, _) => k, r := TakeAppendReplyActs(h, s, a);
    case TakeSnapshot(_, _, _) => k, r := TakeSnapshotActs(h, s, a);
    case TakeSnapshotReply(_, _, _, _, _) => k, r := TakeSnapshotReplyActs(h, s, a);
    case CloseRound(_, _) => k, r := CloseRoundActs(h, s, a);
    case SubmitBatch(_, _) => k, r := SubmitBatchActs(h, s, a);
    case FinishRead(_) => k, r := FinishReadActs(h, s, a);
    case Compact(_) => k, r := CompactActs(h, s, a);
    case SendTimeoutNow(_, _) => k, r := SendTimeoutNowActs(h, s, a);
    case TakeTimeoutNow(_, _) => k, r := TakeTimeoutNowActs(h, s, a);
    case TakeTimeoutReply(_, _, _, _) => k, r := TakeTimeoutReplyActs(h, s, a);
  }

  // ---- Crashes ----

  predicate ManyWrites(a: Action) { a.TakeAppend? || a.TakeSnapshot? || a.SubmitBatch? || a.Compact? }

  lemma FewWrites(s: Cluster, a: Action)
    requires s.Sound() && Enabled(s, a) && React(s, a).Some? && !ManyWrites(a)
    ensures |React(s, a).value.writes| <= 1
  {
    hide BeginElection, ReceiveVoteRequest, ReceiveVoteReply, ReceiveAppendReply, ReceiveSnapshotReply, AdvanceAndApply;
    hide ReceiveTimeoutNow, ReceiveTimeoutReply, ApplyForRead, NextRequest, ReceiveAppend, ReceiveSnapshot, Submit,
          CreateSnapshot;
    hide InitReplication, VoteRequestOf;
  }

  lemma EnabledNode(s: Cluster, a: Action)
    requires s.Sound() && Enabled(s, a)
    ensures a.node in s.members && a.node in s.nodes && a.node in s.disks
  {
  }

  lemma CrashBetween(h: History, s: Cluster, a: Action, j: nat) returns (k: History)
    requires Acting(h, s, a) && React(s, a).Some? && 0 < j < |React(s, a).value.writes|
    ensures Continues(h, k, a.node)
    ensures DiskFaithful(k, PerformAll(s.disks[a.node], React(s, a).value.writes[..j]), a.node)
  {
    hide Consistent, VotesSafe, LeadersSafe, AcksKept, CommitsBacked, NodeFaithful, DiskMatches, Continues,
          PerformAll, DiskFaithful;
    hide ReceiveAppend, ReceiveSnapshot, Submit, CreateSnapshot, AppendTruthful, SnapshotTruthful, CommittedBy;
    var n, d := s.nodes[a.node], s.disks[a.node];
    if a.TakeAppend? {
      assert Truthful(h, AppendMsg(a.rpc, a.node, a.append));
      k := AppendCrash(h, n, d, a.node, a.append, j);
    } else if a.TakeSnapshot? {
      assert Truthful(h, SnapshotMsg(a.rpc, a.node, a.install));
      k := SnapshotCrash(h, n, d, a.node, a.install, j);
    } else if a.SubmitBatch? {
      EmptyBatch(n, a.commands);
      k := SubmitCrash(h, n, d, a.node, a.commands, j);
    } else if a.Compact? {
      CompactCrash(h, n, d, a.node, j);
      k := h;
      ContinuesItself(h, a.node);
    } else {
      k := h;
      FewWrites(s, a);
    }
  }

  lemma EmptyBatch(n: NodeView, commands: seq<Command>)
    requires n.Sound()
    ensures commands == [] ==> Submit(n, commands) == Accepted(Effect(n, [], []))
  {
  }

  // After any number of an action's durable writes the disk is one a node can restart from.
  lemma Crashes(h: History, s: Cluster, a: Action, j: nat) returns (k: History)
    requires Acting(h, s, a) && React(s, a).Some? && j <= |React(s, a).value.writes|
    ensures Continues(h, k, a.node)
    ensures DiskFaithful(k, PerformAll(s.disks[a.node], React(s, a).value.writes[..j]), a.node)
  {
    hide Lawful, NodeFaithful, DiskMatches, Continues, DiskFaithful, React, Enabled;
    EnabledNode(s, a);
    var ws := React(s, a).value.writes;
    var n := s.nodes[a.node];
    if j == 0 {
      k := h;
      ContinuesItself(h, a.node);
      FaithfulDisk(h, n, s.disks[a.node], a.node);
      assert ws[..j] == [];
      NothingWritten(s.disks[a.node]);
    } else if j == |ws| {
      var r;
      k, r := Acts(h, s, a);
      assert ws[..j] == ws;
      FaithfulDisk(k, r.node, PerformAll(s.disks[a.node], ws), a.node);
    } else {
      k := CrashBetween(h, s, a, j);
    }
  }

  // ---- The invariant over steps and runs ----

  lemma InvariantActs(h: History, s: Cluster, a: Action)
    requires Invariant(h, s) && Enabled(s, a)
    ensures Acting(h, s, a)
  {
    hide Lawful, NodeFaithful, DiskMatches, Enabled, Truthful;
    EnabledNode(s, a);
    assert Faithful(h, s.nodes[a.node], s.disks[a.node], a.node);
  }

  // One node moved; the others' stories are still true.
  lemma OthersStay(h: History, k: History, s: Cluster, s': Cluster, id: NodeId, sent: set<Message>)
    requires Invariant(h, s) && Continues(h, k, id) && s'.Sound() && s'.members == s.members && id in s.members
    requires forall n :: n in s.members && n != id ==> s'.nodes[n] == s.nodes[n] && s'.disks[n] == s.disks[n]
    requires Faithful(k, s'.nodes[id], s'.disks[id], id)
    requires s'.network == s.network + sent && AllTruthful(k, sent)
    ensures Invariant(k, s')
  {
    hide Lawful, Faithful, Truthful, Grows, Local;
    forall n | n in s.members ensures Faithful(k, s'.nodes[n], s'.disks[n], n) {
      if n != id {
        FaithfulStays(h, k, id, s.nodes[n], s.disks[n], n);
      }
    }
    forall m | m in s'.network ensures Truthful(k, m) {
      if m in s.network {
        TruthStays(h, k, m);
      }
    }
    SameMembers(h, k, id);
  }

  lemma RebootKeeps(h: History, k: History, s: Cluster, id: NodeId, d: Disk) returns (s': Cluster)
    requires Invariant(h, s) && id in s.members && Continues(h, k, id) && DiskFaithful(k, d, id)
    ensures Reboot(s, id, d) == Some(s') && Invariant(k, s')
  {
    hide Lawful, DiskFaithful, Recover, Faithful, Truthful, Grows, Local, Continues, PerformAll, Consistent;
    SameMembers(h, k, id);
    ContinuesConsistent(h, k, id);
    var m, ws := Recovers(k, d, id);
    s' := Reboot(s, id, d).value;
    assert s'.network == s.network + {};
    OthersStay(h, k, s, s', id, {});
  }

  lemma ContinuesConsistent(h: History, k: History, id: NodeId)
    requires Continues(h, k, id)
    ensures Consistent(k)
  {
  }

  lemma CompleteKeeps(h: History, s: Cluster, a: Action) returns (k: History, s': Cluster)
    requires Invariant(h, s) && Enabled(s, a)
    ensures Step(s, Complete(a)) == Some(s') && Invariant(k, s') && Continues(h, k, a.node)
  {
    hide Lawful, NodeFaithful, DiskMatches, Continues, Enabled, React, Truthful;
    InvariantActs(h, s, a);
    var r;
    k, r := Acts(h, s, a);
    s' := Step(s, Complete(a)).value;
    OthersStay(h, k, s, s', a.node, r.sent);
  }

  lemma CrashKeeps(h: History, s: Cluster, a: Action, j: nat) returns (k: History, s': Cluster)
    requires Invariant(h, s) && Possible(s, CrashDuring(a, j))
    ensures Step(s, CrashDuring(a, j)) == Some(s') && Invariant(k, s') && Continues(h, k, a.node)
  {
    hide Lawful, NodeFaithful, DiskMatches, Continues, Enabled, React, Truthful, DiskFaithful, Reboot;
    InvariantActs(h, s, a);
    EnabledNode(s, a);
    k := Crashes(h, s, a, j);
    s' := RebootKeeps(h, k, s, a.node, PerformAll(s.disks[a.node], React(s, a).value.writes[..j]));
  }

  lemma RestartKeeps(h: History, s: Cluster, id: NodeId) returns (s': Cluster)
    requires Invariant(h, s) && id in s.members
    ensures Step(s, Restart(id)) == Some(s') && Invariant(h, s')
  {
    hide Lawful, NodeFaithful, DiskMatches, Continues, Truthful, DiskFaithful, Reboot;
    ContinuesItself(h, id);
    FaithfulDisk(h, s.nodes[id], s.disks[id], id) by {
      assert Faithful(h, s.nodes[id], s.disks[id], id);
    }
    s' := RebootKeeps(h, h, s, id, s.disks[id]);
  }

  // Every possible event succeeds and leads to a state that still has a lawful history.
  lemma StepKeeps(h: History, s: Cluster, e: Event) returns (k: History, s': Cluster)
    requires Invariant(h, s) && Possible(s, e)
    ensures Step(s, e) == Some(s') && Invariant(k, s') && Grows(h, k)
  {
    hide Invariant, Continues, Enabled, React, Reboot;
    match e
    case Complete(a) =>
      InvariantSound(h, s);
      k, s' := CompleteKeeps(h, s, a);
      SameMembers(h, k, a.node);
    case CrashDuring(a, j) =>
      InvariantSound(h, s);
      k, s' := CrashKeeps(h, s, a, j);
      SameMembers(h, k, a.node);
    case Restart(id) =>
      InvariantSound(h, s);
      s' := RestartKeeps(h, s, id);
      k := h;
      GrowsItself(h);
  }

  lemma InvariantSound(h: History, s: Cluster)
    requires Invariant(h, s)
    ensures s.Sound()
  {
  }

  lemma GrowsItself(h: History)
    ensures Grows(h, h)
  {
  }
}

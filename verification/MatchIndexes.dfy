// match_index is truthful over whole runs: whenever a leader has matched a follower up to an
// entry of its own term, that follower's successful answer, given in that term and covering
// that entry, is on the network, whatever else was in flight and whichever replication
// object the leader started from.

module MatchIndexes {
  import opened Prelude
  import opened Types
  import opened History
  import opened HistorySteps
  import opened RaftLogs
  import opened StateMachines
  import opened Leaders
  import opened Replications
  import opened Journals
  import opened Nodes
  import opened Clusters
  import opened Agreement
  import opened ElectionProof
  import opened LeaderProof
  import opened ClusterProof
  import opened Safety
  import opened Reads
  import opened Submissions

  // m tells that f, asked in this term, holds everything up to index x.
  predicate Vouches(m: Message, f: NodeId, term: int, x: int) {
    match m
    case AppendReplyMsg(_, from, append, reply) =>
      from == f && append.term == term && reply.success && x <= append.prevLogIndex + |append.entries|
    case SnapshotReplyMsg(_, from, install, reply) =>
      from == f && install.term == term && reply.success && x <= install.lastIncludedIndex
    case _ => false
  }

  ghost predicate Vouched(network: set<Message>, f: NodeId, term: int, x: int) {
    exists m :: m in network && Vouches(m, f, term, x)
  }

  // Leader n has matched f up to an entry of its own term.
  predicate OwnMatch(n: NodeView, f: NodeId) {
    && n.state.role == Leader && n.replication.Some? && f in n.replication.value.matchIndex && n.log.WellFormed()
    && 0 < n.replication.value.matchIndex[f]
    && n.log.TermAt(n.replication.value.matchIndex[f]) == Some(n.state.currentTerm)
  }

  ghost predicate MatchVouched(s: Cluster, id: NodeId, f: NodeId) {
    id in s.nodes && (OwnMatch(s.nodes[id], f) ==>
      Vouched(s.network, f, s.nodes[id].state.currentTerm, s.nodes[id].replication.value.matchIndex[f]))
  }

  ghost predicate AllVouched(s: Cluster) {
    forall id, f :: id in s.members ==> MatchVouched(s, id, f)
  }

  lemma VouchedStays(a: set<Message>, b: set<Message>, f: NodeId, term: int, x: int)
    requires a <= b && Vouched(a, f, term, x)
    ensures Vouched(b, f, term, x)
  {
    var m :| m in a && Vouches(m, f, term, x);
    assert m in b;
  }

  // ---- How match indexes move ----

  predicate LedBefore(n: NodeView, m: NodeView) {
    n.state.role == Leader && n.state.currentTerm == m.state.currentTerm
  }

  // A leader after the action that leads the same term as before either keeps f's match index,
  // starts it at zero, or recorded an answer of f.
  predicate MatchMoved(n: NodeView, m: NodeView, a: Action, f: NodeId) {
    m.replication.Some? && f in m.replication.value.matchIndex ==>
      var x := m.replication.value.matchIndex[f];
      || x == 0
      || (n.replication.Some? && f in n.replication.value.matchIndex && x == n.replication.value.matchIndex[f])
      || (a.TakeAppendReply? && a.from == f && a.append.term == m.state.currentTerm && a.reply.success
          && x == if a.append.entries != []
                 then a.append.entries[|a.append.entries| - 1].index else a.append.prevLogIndex)
      || (a.TakeSnapshotReply? && a.from == f && a.install.term == m.state.currentTerm && a.reply.success
          && x == a.install.lastIncludedIndex)
  }

  lemma Inits(n: NodeView, a: Action, f: NodeId)
    ensures MatchMoved(n, InitReplication(n), a, f)
  {
  }

  lemma ReplyMoves(s: Cluster, a: Action, f: NodeId)
    requires s.Sound() && Enabled(s, a) && React(s, a).Some? && (a.TakeAppendReply? || a.TakeSnapshotReply?)
    ensures var m := React(s, a).value.node;
      m.state.role == Leader ==>
        MatchMoved(s.nodes[a.node], m, a, f) && LedBefore(s.nodes[a.node], m) && m.log == s.nodes[a.node].log
  {
    hide BeginElection, ReceiveVoteRequest, ReceiveVoteReply, AdvanceAndApply, ReceiveTimeoutNow, ReceiveTimeoutReply;
    hide ApplyForRead, NextRequest, ReceiveAppend, ReceiveSnapshot, Submit, CreateSnapshot, InitReplication;
    hide VoteRequestOf;
    hide ReceiveAppendReply, ReceiveSnapshotReply, MatchMoved;
    var n := s.nodes[a.node];
    if a.TakeAppendReply? {
      AppendReplyMoves(n, a, f);
    } else {
      SnapshotReplyMoves(n, a, f);
    }
  }

  lemma AppendReplyMoves(n: NodeView, a: Action, f: NodeId)
    requires n.Sound() && a.TakeAppendReply? && a.from in n.Followers()
    ensures var m := ReceiveAppendReply(n, a.from, a.append, a.reply).node;
      m.state.role == Leader ==> MatchMoved(n, m, a, f) && LedBefore(n, m) && m.log == n.log
  {
  }

  lemma SnapshotReplyMoves(n: NodeView, a: Action, f: NodeId)
    requires n.Sound() && a.TakeSnapshotReply? && a.from in n.Followers()
    ensures var m := ReceiveSnapshotReply(n, a.from, a.install, a.reply).node;
      m.state.role == Leader ==> MatchMoved(n, m, a, f) && LedBefore(n, m) && m.log == n.log
  {
  }

  // The leader of a term after an action was its leader before, or had just won the term.
  predicate Stayed(n: NodeView, m: NodeView) {
    m.state.role == Leader ==> LedBefore(n, m) && m.replication == n.replication && m.log == n.log
  }

  lemma VotesStayed(n: NodeView, req: VoteRequest)
    ensures Stayed(n, ReceiveVoteRequest(n, req).node)
  {
  }

  lemma AppendStayed(n: NodeView, req: AppendRequest)
    requires n.Sound() && ReceiveAppend(n, req).Some?
    ensures Stayed(n, ReceiveAppend(n, req).value.node)
  {
    hide MergeEntries, FollowerCommit, Changes, WriteRecords;
  }

  lemma SnapshotStayed(n: NodeView, req: SnapshotRequest)
    requires n.Sound() && ReceiveSnapshot(n, req).Some?
    ensures Stayed(n, ReceiveSnapshot(n, req).value.node)
  {
  }

  lemma AdvanceStayed(n: NodeView, q: int)
    requires n.Sound() && AdvanceAndApply(n, q).Some?
    ensures Stayed(n, AdvanceAndApply(n, q).value.node)
  {
  }

  lemma TransferStayed(n: NodeView, req: TimeoutNowRequest, term: int, reply: TimeoutNowReply)
    ensures Stayed(n, ReceiveTimeoutNow(n, req).node) && Stayed(n, ReceiveTimeoutReply(n, term, reply).node)
  {
  }

  predicate Steady(a: Action) {
    a.TakeVoteRequest? || a.TakeAppend? || a.TakeSnapshot? || a.CloseRound? || a.FinishRead? || a.TakeTimeoutNow?
    || a.TakeTimeoutReply? || a.SendTo? || a.SendTimeoutNow?
  }

  lemma SteadyStayed(s: Cluster, a: Action)
    requires s.Sound() && Enabled(s, a) && React(s, a).Some? && Steady(a)
    ensures Stayed(s.nodes[a.node], React(s, a).value.node)
  {
    hide ReceiveVoteRequest, AdvanceAndApply, ReceiveTimeoutNow, ReceiveTimeoutReply, NextRequest, ReceiveAppend,
          ReceiveSnapshot;
    hide IsQuorumIndex, VoteRequestOf, Stayed, BeginElection, ReceiveVoteReply, ReceiveAppendReply;
    hide ReceiveSnapshotReply;
    hide ApplyForRead, Submit, CreateSnapshot, InitReplication;
    var n := s.nodes[a.node];
    ItselfStayed(n);
    match a
    case TakeVoteRequest(_, vote) => VotesStayed(n, vote);
    case TakeAppend(_, _, append) => AppendStayed(n, append);
    case TakeSnapshot(_, _, install) => SnapshotStayed(n, install);
    case CloseRound(_, q) => AdvanceStayed(n, q);
    case FinishRead(_) => ReadStayed(n);
    case TakeTimeoutNow(_, timeout) => TransferStayed(n, timeout, 0, TimeoutNowReply(0, false));
    case TakeTimeoutReply(_, _, timeout, answer) => TransferStayed(n, timeout, timeout.term, answer);
    case SendTo(_, _) =>
    case SendTimeoutNow(_, _) =>
  }

  lemma ItselfStayed(n: NodeView)
    ensures Stayed(n, n)
  {
  }

  lemma ReadStayed(n: NodeView)
    requires n.Sound() && ApplyForRead(n).Some?
    ensures Stayed(n, ApplyForRead(n).value.node)
  {
  }

  // ---- Winning a term ----

  predicate JustWon(n: NodeView, m: NodeView) {
    && m.log == n.log
    && ((n.state.role == Candidate && n.state.currentTerm == m.state.currentTerm)
        || n.state.currentTerm < m.state.currentTerm)
  }

  lemma TimeoutWins(n: NodeView)
    ensures JustWon(n, BeginElection(n).node)
  {
  }

  lemma BallotWins(n: NodeView, peer: NodeId, req: VoteRequest, reply: VoteReply)
    ensures var m := ReceiveVoteReply(n, peer, req, reply).node;
      JustWon(n, m) || m == n
  {
  }

  lemma ElectionWins(s: Cluster, a: Action)
    requires s.Sound() && Enabled(s, a) && React(s, a).Some? && (a.ElectionTimeout? || a.TakeVoteReply?)
    ensures JustWon(s.nodes[a.node], React(s, a).value.node) || React(s, a).value.node == s.nodes[a.node]
  {
    hide BeginElection, ReceiveVoteReply, VoteRequestOf, JustWon;
    TimeoutWins(s.nodes[a.node]);
    if a.TakeVoteReply? {
      BallotWins(s.nodes[a.node], a.from, a.vote, a.ballot);
    }
  }

  lemma EntryTermsReign(h: History, full: seq<LogEntry>, x: int)
    requires Rooted(h.reigns) && Sourced(h.reigns, full) && 0 < x <= |full|
    ensures full[x - 1].term in h.reigns
  {
    var t := full[|full| - 1].term;
    assert RootedAt(h.reigns, t, x - 1);
    assert full[x - 1] == h.LeaderLog(t)[x - 1];
  }

  // A term just won had no leader before.
  lemma WonTermIsNew(h: History, k: History, n: NodeView, id: NodeId, t: int)
    requires Consistent(h) && Grows(h, k) && CandidateFaithful(h, n, id) && n.state.currentTerm == h.Term(id)
    requires t in k.reigns && k.reigns[t].leader == id
    requires (n.state.role == Candidate && n.state.currentTerm == t) || n.state.currentTerm < t
    ensures t !in h.reigns
  {
    hide Rooted, Numbered, LateCandidatesFail, AcksBounded, CandidaciesSourced, LogsSourced;
    if t in h.reigns {
      LeaderStood(h, t);
    }
  }

  // So no entry of a new leader's log is of its own term, and nothing it ever matched counts.
  lemma WonVouched(h: History, k: History, s: Cluster, s': Cluster, id: NodeId, f: NodeId)
    requires Invariant(h, s) && Invariant(k, s') && Grows(h, k) && id in s.members && id in s'.members
    requires s'.nodes[id].state.role == Leader && JustWon(s.nodes[id], s'.nodes[id])
    ensures !OwnMatch(s'.nodes[id], f)
  {
    hide Invariant, Grows, Lawful, Consistent, LeadersSafe, CommitsBacked, AcksKept, Images, Sourced;
    InvariantLaws(h, s);
    NodesKnown(h, s);
    NodesKnown(k, s');
    var n, m := s.nodes[id], s'.nodes[id];
    var t := m.state.currentTerm;
    GrowsItself(k);
    LeaderReigns(k, s', id, k);
    CandidateKnown(h, s, id);
    TermKnown(h, s, id);
    WonTermIsNew(h, k, n, id, t);
    NodeImages(h, s, id);
    LawfulRooted(h);
    if OwnMatch(m, f) {
      var x := m.replication.value.matchIndex[f];
      ImagesTerm(n, h.Log(id), x);
      EntryTermsReign(h, h.Log(id), x);
    }
  }

  lemma CandidateKnown(h: History, s: Cluster, id: NodeId)
    requires Invariant(h, s) && id in s.members
    ensures id in s.nodes && CandidateFaithful(h, s.nodes[id], id)
  {
    hide Truthful, Lawful, ImageFaithful, CandidateFaithful, ReplicationFaithful, LeaderFaithful, DiskMatches;
    assert Faithful(h, s.nodes[id], s.disks[id], id);
  }

  // ---- Leading on ----

  // A leader that led before reads the same terms at what it had matched, or has compacted it.
  lemma OwnTermBefore(h: History, k: History, s: Cluster, s': Cluster, id: NodeId, x: int)
    requires Invariant(h, s) && Invariant(k, s') && Grows(h, k) && id in s.members && id in s'.members
    requires s'.nodes[id].state.role == Leader && LedBefore(s.nodes[id], s'.nodes[id])
    requires s.nodes[id].log.baseIndex <= s'.nodes[id].log.baseIndex && 0 < x <= |h.Log(id)|
    requires s'.nodes[id].log.WellFormed() && s'.nodes[id].log.TermAt(x) == Some(s'.nodes[id].state.currentTerm)
    ensures s.nodes[id].log.WellFormed() && s.nodes[id].log.TermAt(x) == Some(s.nodes[id].state.currentTerm)
  {
    hide Invariant, Grows, Images, Sourced;
    NodesKnown(h, s);
    NodesKnown(k, s');
    NodeImages(h, s, id);
    NodeImages(k, s', id);
    GrowsItself(k);
    LeaderReigns(h, s, id, k);
    LeaderReigns(k, s', id, k);
    ImagesTerm(s'.nodes[id], k.Log(id), x);
    BaseBelow(s'.nodes[id], x);
    ImagesWell(s.nodes[id], h.Log(id));
    ImagesTermAt(s.nodes[id], h.Log(id), x);
  }

  lemma BaseBelow(n: NodeView, x: int)
    requires n.log.WellFormed() && n.log.TermAt(x).Some?
    ensures n.log.baseIndex <= x
  {
  }

  lemma ImagesWell(n: NodeView, full: seq<LogEntry>)
    requires Images(n, full)
    ensures n.log.WellFormed()
  {
    RepresentedReads(n.log, full);
  }

  // Leading on: the same term, a log that only grew or was compacted, match indexes moved as above.
  predicate LedOn(n: NodeView, m: NodeView, a: Action, f: NodeId) {
    m.state.role == Leader ==> LedBefore(n, m) && MatchMoved(n, m, a, f) && n.log.baseIndex <= m.log.baseIndex
  }

  lemma StayedLedOn(n: NodeView, m: NodeView, a: Action, f: NodeId)
    requires Stayed(n, m)
    ensures LedOn(n, m, a, f)
  {
  }

  lemma InitLedOn(n: NodeView, a: Action, f: NodeId)
    ensures LedOn(n, InitReplication(n), a, f)
  {
    Inits(n, a, f);
  }

  lemma SubmitLedOn(n: NodeView, commands: seq<Command>, a: Action, f: NodeId)
    requires n.Sound() && Submit(n, commands).Accepted?
    ensures LedOn(n, Submit(n, commands).effect.node, a, f)
  {
    if commands != [] {
      InitLedOn(n.(log := AppendAll(n.log, n.state.currentTerm, commands)), a, f);
    }
  }

  lemma CompactLedOn(n: NodeView, a: Action, f: NodeId)
    requires n.Sound() && CreateSnapshot(n).Some?
    ensures LedOn(n, CreateSnapshot(n).value.node, a, f)
  {
  }

  lemma ActionLedOn(s: Cluster, a: Action, f: NodeId)
    requires s.Sound() && Enabled(s, a) && React(s, a).Some? && !a.ElectionTimeout? && !a.TakeVoteReply?
    ensures LedOn(s.nodes[a.node], React(s, a).value.node, a, f)
  {
    hide Submit, CreateSnapshot, InitReplication, ReceiveAppendReply, ReceiveSnapshotReply, Stayed, ReceiveAppend,
          ReceiveSnapshot;
    hide ReceiveVoteRequest, AdvanceAndApply, ReceiveTimeoutNow, ReceiveTimeoutReply, NextRequest, ApplyForRead;
    hide MatchMoved;
    hide IsQuorumIndex, BeginElection, ReceiveVoteReply, VoteRequestOf;
    var n := s.nodes[a.node];
    ItselfStayed(n);
    StayedLedOn(n, n, a, f);
    if Steady(a) {
      SteadyStayed(s, a);
      StayedLedOn(n, React(s, a).value.node, a, f);
    } else if a.TakeAppendReply? || a.TakeSnapshotReply? {
      ReplyMoves(s, a, f);
    } else if a.OpenRound? {
      InitLedOn(n, a, f);
    } else if a.SubmitBatch? {
      if Submit(n, a.commands).Accepted? {
        SubmitLedOn(n, a.commands, a, f);
      }
    } else {
      CompactLedOn(n, a, f);
    }
  }

  lemma MatchBounded(h: History, s: Cluster, id: NodeId, f: NodeId)
    requires Invariant(h, s) && id in s.members
    ensures id in s.nodes && (s.nodes[id].replication.Some? && f in s.nodes[id].replication.value.matchIndex ==>
      s.nodes[id].replication.value.matchIndex[f] <= |h.Log(id)|)
  {
    hide Truthful, Lawful, ImageFaithful, CandidateFaithful, LeaderFaithful, DiskMatches;
    assert Faithful(h, s.nodes[id], s.disks[id], id);
    var n := s.nodes[id];
    if n.replication.Some? && f in n.replication.value.matchIndex {
      assert s.nodes[id].Sound();
      assert MatchFaithful(h, n, f) by {
        hide MatchFaithful;
        NodeNamed(h, s, id);
      }
    }
  }

  lemma NodeNamed(h: History, s: Cluster, id: NodeId)
    requires Invariant(h, s) && id in s.members
    ensures id in s.nodes && s.nodes[id].state.nodeId == id
  {
  }

  // An answer recorded is an answer on the network.
  lemma AnswerVouches(h: History, s: Cluster, n: NodeView, m: NodeView, a: Action, f: NodeId)
    requires Invariant(h, s) && Enabled(s, a) && (a.TakeAppendReply? || a.TakeSnapshotReply?) && OwnMatch(m, f)
    requires MatchMoved(n, m, a, f)
    requires !(n.replication.Some? && f in n.replication.value.matchIndex
               && m.replication.value.matchIndex[f] == n.replication.value.matchIndex[f])
    ensures Vouched(s.network, f, m.state.currentTerm, m.replication.value.matchIndex[f])
  {
    hide Invariant, Enabled;
    InvariantLaws(h, s);
    if a.TakeAppendReply? {
      AppendAnswer(h, s, a);
      assert Vouches(AppendReplyMsg(a.rpc, a.from, a.append, a.reply), f, m.state.currentTerm,
                     m.replication.value.matchIndex[f]);
    } else {
      SnapshotAnswer(s, a);
      assert Vouches(SnapshotReplyMsg(a.rpc, a.from, a.install, a.reply), f, m.state.currentTerm,
                     m.replication.value.matchIndex[f]);
    }
  }

  lemma AppendAnswer(h: History, s: Cluster, a: Action)
    requires s.Sound() && Enabled(s, a) && a.TakeAppendReply? && Invariant(h, s)
    ensures AppendReplyMsg(a.rpc, a.from, a.append, a.reply) in s.network
    ensures (if a.append.entries != [] then a.append.entries[|a.append.entries| - 1].index else a.append.prevLogIndex)
         == a.append.prevLogIndex + |a.append.entries|
  {
    hide Faithful, Lawful, Consistent, LeadersSafe, CommitsBacked, AcksKept, AppendTruthful;
    assert Truthful(h, AppendReplyMsg(a.rpc, a.from, a.append, a.reply));
    InvariantLaws(h, s);
    LawfulNumbered(h);
    SuccessIndex(h, a.append);
  }

  lemma SnapshotAnswer(s: Cluster, a: Action)
    requires s.Sound() && Enabled(s, a) && a.TakeSnapshotReply?
    ensures SnapshotReplyMsg(a.rpc, a.from, a.install, a.reply) in s.network
  {
  }

  lemma LedVouched(h: History, k: History, s: Cluster, s': Cluster, a: Action, f: NodeId)
    requires Invariant(h, s) && Invariant(k, s') && Grows(h, k) && Enabled(s, a) && a.node in s'.members
    requires s.network <= s'.network && MatchVouched(s, a.node, f) && LedOn(s.nodes[a.node], s'.nodes[a.node], a, f)
    ensures MatchVouched(s', a.node, f)
  {
    hide Invariant, Enabled, Grows, MatchMoved, Vouched, OwnMatch, MatchVouched, LedBefore, Lawful, Consistent;
    hide LeadersSafe, CommitsBacked, AcksKept;
    NodesKnown(h, s);
    NodesKnown(k, s');
    InvariantLaws(h, s);
    EnabledNode(s, a);
    var n, m := s.nodes[a.node], s'.nodes[a.node];
    if OwnMatch(m, f) {
      OwnMatchIs(m, f);
      if n.replication.Some? && f in n.replication.value.matchIndex
          && m.replication.value.matchIndex[f] == n.replication.value.matchIndex[f] {
        KeptMatch(h, k, s, s', a.node, f);
      } else {
        AnswerRecorded(n, m, a, f);
        AnswerVouches(h, s, n, m, a, f);
      }
      NowVouched(s, s', a.node, f);
    } else {
      UnmatchedVouched(s', a.node, f);
    }
  }

  lemma NowVouched(s: Cluster, s': Cluster, id: NodeId, f: NodeId)
    requires id in s'.nodes && s.network <= s'.network && OwnMatch(s'.nodes[id], f)
    requires Vouched(s.network, f, s'.nodes[id].state.currentTerm, s'.nodes[id].replication.value.matchIndex[f])
    ensures MatchVouched(s', id, f)
  {
    VouchedStays(s.network, s'.network, f, s'.nodes[id].state.currentTerm,
                 s'.nodes[id].replication.value.matchIndex[f]);
  }

  lemma OwnMatchIs(m: NodeView, f: NodeId)
    requires OwnMatch(m, f)
    ensures m.state.role == Leader && m.replication.Some? && f in m.replication.value.matchIndex
  {
  }

  lemma KeptMatch(h: History, k: History, s: Cluster, s': Cluster, id: NodeId, f: NodeId)
    requires Invariant(h, s) && Invariant(k, s') && Grows(h, k) && id in s.nodes && id in s'.nodes
    requires id in s.members && id in s'.members && MatchVouched(s, id, f)
    requires OwnMatch(s'.nodes[id], f) && LedBefore(s.nodes[id], s'.nodes[id])
    requires s.nodes[id].log.baseIndex <= s'.nodes[id].log.baseIndex && s.nodes[id].replication.Some?
    requires f in s.nodes[id].replication.value.matchIndex
    requires s'.nodes[id].replication.value.matchIndex[f] == s.nodes[id].replication.value.matchIndex[f]
    ensures Vouched(s.network, f, s'.nodes[id].state.currentTerm, s'.nodes[id].replication.value.matchIndex[f])
  {
    hide Invariant, Grows, Vouched;
    MatchBounded(h, s, id, f);
    OwnTermBefore(h, k, s, s', id, s'.nodes[id].replication.value.matchIndex[f]);
  }

  lemma AnswerRecorded(n: NodeView, m: NodeView, a: Action, f: NodeId)
    requires MatchMoved(n, m, a, f) && OwnMatch(m, f)
    requires !(n.replication.Some? && f in n.replication.value.matchIndex
               && m.replication.value.matchIndex[f] == n.replication.value.matchIndex[f])
    ensures a.TakeAppendReply? || a.TakeSnapshotReply?
  {
  }

  // ---- Over steps and runs ----

  lemma ActorVouched(h: History, k: History, s: Cluster, s': Cluster, a: Action, f: NodeId)
    requires s.Sound() && Enabled(s, a) && React(s, a).Some?
    requires a.node in s.members && a.node in s'.members && a.node in s.nodes && a.node in s'.nodes
    requires s'.nodes[a.node] == React(s, a).value.node && s.network <= s'.network
    requires Invariant(h, s) && Invariant(k, s') && Grows(h, k) && MatchVouched(s, a.node, f)
    ensures MatchVouched(s', a.node, f)
  {
    hide Invariant, Enabled, Grows, React, MatchVouched, LedOn, OwnMatch, JustWon;
    if a.ElectionTimeout? || a.TakeVoteReply? {
      ElectionWins(s, a);
      ElectionVouched(h, k, s, s', a.node, f);
    } else {
      ActionLedOn(s, a, f);
      LedVouched(h, k, s, s', a, f);
    }
  }

  lemma ElectionVouched(h: History, k: History, s: Cluster, s': Cluster, id: NodeId, f: NodeId)
    requires Invariant(h, s) && Invariant(k, s') && Grows(h, k) && id in s.members && id in s'.members
    requires id in s.nodes && id in s'.nodes && s.network <= s'.network && MatchVouched(s, id, f)
    requires JustWon(s.nodes[id], s'.nodes[id]) || s'.nodes[id] == s.nodes[id]
    ensures MatchVouched(s', id, f)
  {
    hide Invariant, Grows, MatchVouched, OwnMatch, JustWon;
    if s'.nodes[id] == s.nodes[id] {
      SameVouched(s, s', id, f);
    } else if s'.nodes[id].state.role == Leader {
      WonVouched(h, k, s, s', id, f);
      UnmatchedVouched(s', id, f);
    } else {
      FollowerVouched(s', id, f);
    }
  }

  lemma CompleteNode(s: Cluster, a: Action, s': Cluster)
    requires s.Sound() && Enabled(s, a) && Step(s, Complete(a)) == Some(s')
    ensures a.node in s.nodes && a.node in s'.nodes && React(s, a).Some? && s'.nodes[a.node] == React(s, a).value.node
    ensures s.network <= s'.network
    ensures forall n :: n in s.nodes && n != a.node ==> n in s'.nodes && s'.nodes[n] == s.nodes[n]
    ensures s'.members == s.members
  {
    hide Enabled, React, PerformAll;
    EnabledNode(s, a);
  }

  lemma SameVouched(s: Cluster, s': Cluster, id: NodeId, f: NodeId)
    requires id in s.nodes && id in s'.nodes && s'.nodes[id] == s.nodes[id] && s.network <= s'.network
        && MatchVouched(s, id, f)
    ensures MatchVouched(s', id, f)
  {
    if OwnMatch(s.nodes[id], f) {
      VouchedStays(s.network, s'.network, f, s.nodes[id].state.currentTerm,
                   s.nodes[id].replication.value.matchIndex[f]);
    }
  }

  lemma UnmatchedVouched(s: Cluster, id: NodeId, f: NodeId)
    requires id in s.nodes && !OwnMatch(s.nodes[id], f)
    ensures MatchVouched(s, id, f)
  {
  }

  lemma FollowerVouched(s: Cluster, id: NodeId, f: NodeId)
    requires id in s.nodes && (s.nodes[id].state.role != Leader || s.nodes[id].replication == None)
    ensures MatchVouched(s, id, f)
  {
  }

  lemma CompleteVouched(h: History, k: History, s: Cluster, s': Cluster, a: Action)
    requires s.Sound() && Enabled(s, a) && Step(s, Complete(a)) == Some(s')
    requires Invariant(h, s) && Invariant(k, s') && Grows(h, k) && AllVouched(s)
    ensures AllVouched(s')
  {
    hide Invariant, Enabled, Grows, React, MatchVouched, Step;
    NodesKnown(h, s);
    NodesKnown(k, s');
    CompleteNode(s, a, s');
    forall id, f | id in s'.members ensures MatchVouched(s', id, f) {
      assert MatchVouched(s, id, f);
      if id == a.node {
        ActorVouched(h, k, s, s', a, f);
      } else {
        SameVouched(s, s', id, f);
      }
    }
  }

  lemma RebootVouched(h: History, s: Cluster, s': Cluster, id: NodeId, d: Disk)
    requires s.Sound() && id in s.members && Reboot(s, id, d) == Some(s') && Invariant(h, s) && AllVouched(s)
    ensures AllVouched(s')
  {
    hide Invariant, Recover, MatchVouched, PerformAll;
    NodesKnown(h, s);
    RecoverFollows(id, s.members, d);
    forall x, f | x in s'.members ensures MatchVouched(s', x, f) {
      assert MatchVouched(s, x, f);
      if x == id {
        FollowerVouched(s', x, f);
      } else {
        SameVouched(s, s', x, f);
      }
    }
  }

  lemma RecoverFollows(id: NodeId, members: set<NodeId>, d: Disk)
    requires id in members
    ensures Recover(id, members, d).Some? ==> Recover(id, members, d).value.node.replication == None
  {
  }

  lemma StepVouched(h: History, k: History, s: Cluster, s': Cluster, e: Event)
    requires s.Sound() && Possible(s, e) && Step(s, e) == Some(s')
    requires Invariant(h, s) && Invariant(k, s') && Grows(h, k) && AllVouched(s)
    ensures AllVouched(s')
  {
    hide Invariant, Enabled, Grows, React, Reboot, AllVouched;
    match e
    case Complete(a) => CompleteVouched(h, k, s, s', a);
    case CrashDuring(a, j) =>
      EnabledNode(s, a);
      RebootVouched(h, s, s', a.node, PerformAll(s.disks[a.node], React(s, a).value.writes[..j]));
    case Restart(id) => RebootVouched(h, s, s', id, s.disks[id]);
  }

  lemma InitialVouched(members: set<NodeId>)
    ensures AllVouched(Initial(members))
  {
  }

  lemma {:induction false} RunVouched(members: set<NodeId>, states: seq<Cluster>, events: seq<Event>, i: nat)
    requires RunFromStart(members, states, events) && i < |states|
    ensures AllVouched(states[i])
  {
    hide Possible, Step, Invariant, Grows, AllVouched, Initial;
    if i == 0 {
      InitialVouched(members);
    } else {
      RunVouched(members, states, events, i - 1);
      var hs := RunHasChronicle(members, states, events);
      assert Leads(states, events, i - 1);
      StepVouched(hs[i - 1], hs[i], states[i - 1], states[i], events[i - 1]);
    }
  }

  // The theorem: f's own answer, in this leader's term, covers what the leader has matched.
  lemma MatchIndexTruthful(members: set<NodeId>, states: seq<Cluster>, events: seq<Event>, i: nat, id: NodeId,
                           f: NodeId)
    returns (answer: Message)
    requires RunFromStart(members, states, events) && i < |states| && id in states[i].members
    requires OwnMatch(states[i].nodes[id], f)
    ensures answer in states[i].network
    ensures Vouches(answer, f, states[i].nodes[id].state.currentTerm,
                    states[i].nodes[id].replication.value.matchIndex[f])
  {
    hide Possible, Step, OwnMatch;
    RunVouched(members, states, events, i);
    assert MatchVouched(states[i], id, f);
    OwnMatchIs(states[i].nodes[id], f);
    answer :| answer in states[i].network
      && Vouches(answer, f, states[i].nodes[id].state.currentTerm, states[i].nodes[id].replication.value.matchIndex[f]);
  }
}

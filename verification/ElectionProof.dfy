// Elections keep the invariant: timing out, voting, counting votes, winning.

module ElectionProof {
  import opened Prelude
  import opened Types
  import opened History
  import opened HistorySteps
  import opened RaftLogs
  import opened Votes
  import opened Elections
  import opened Journals
  import opened Nodes
  import opened Clusters
  import opened Agreement

  // k is a lawful continuation of h in which only node id moved.
  ghost predicate Continues(h: History, k: History, id: NodeId) {
    Lawful(k) && Grows(h, k) && Local(h, k, id)
  }

  lemma ContinuesItself(h: History, id: NodeId)
    requires Lawful(h)
    ensures Continues(h, h, id)
  {
  }

  lemma ContinuesTransitively(h: History, k: History, l: History, id: NodeId)
    requires Continues(h, k, id) && Continues(k, l, id)
    ensures Continues(h, l, id)
  {
    GrowsTransitively(h, k, l);
    LocalTransitively(h, k, l, id);
  }

  lemma StateSaved(n: NodeView, d: Disk, m: NodeView)
    requires DiskMatches(n, d) && m.log == n.log && m.snapshot == n.snapshot
    ensures DiskMatches(m, PerformAll(d, [SaveStateOf(m.state)]))
  {
    var ws := [SaveStateOf(m.state)];
    assert ws[..0] == [];
    assert PerformAll(d, ws) == Perform(PerformAll(d, ws[..0]), ws[0]);
  }

  lemma LogsNumbered(h: History, log: seq<LogEntry>)
    requires Numbered(h.reigns) && Sourced(h.reigns, log)
    ensures WellNumbered(log)
  {
    if log != [] {
      var l := h.LeaderLog(LastTerm(log));
      assert WellNumbered(l);
      forall j | 0 <= j < |log| ensures log[j].index == j + 1 && 0 <= log[j].term && Applicable(log[j].command) {
        assert log[j] == l[j];
      }
    }
  }

  // What a node of a lawful history reads from its own log.
  lemma NodeReads(h: History, n: NodeView, id: NodeId)
    requires Consistent(h) && id in h.members && Represents(n.log, h.Log(id))
    ensures WellNumbered(h.Log(id)) && Sourced(h.reigns, h.Log(id))
    ensures n.log.WellFormed() && n.log.LastIndex() == |h.Log(id)| && n.log.LastTerm() == LastTerm(h.Log(id))
  {
    assert Sourced(h.reigns, h.logs[id]);
    LogsNumbered(h, h.Log(id));
    RepresentedReads(n.log, h.Log(id));
  }

  // Where nobody becomes leader, what was matched is as true as before.
  lemma MatchesKept(h: History, k: History, n: NodeView, m: NodeView)
    requires ReplicationFaithful(h, n) && Grows(h, k) && k.Log(n.state.nodeId) == h.Log(n.state.nodeId)
    requires m.replication == n.replication && m.members == n.members && m.state.nodeId == n.state.nodeId
    requires m.state.role == Leader ==> n.state.role == Leader && n.state.currentTerm == m.state.currentTerm
    ensures ReplicationFaithful(k, m)
  {
    if n.replication.Some? {
      forall f | f in m.Followers() ensures MatchFaithful(k, m, f) {
        assert MatchFaithful(h, n, f);
      }
    }
  }

  // ---- Moving to a later term as a follower ----

  lemma FollowerCertified(h: History, k: History, id: NodeId, commit: int, base: int, role: Role)
    requires Certified(h, id, commit, base, role)
    requires Grows(h, k) && k.Log(id) == h.Log(id)
    ensures Certified(k, id, commit, base, Follower)
  {
    var u :| CertifiedBy(h, id, commit, base, role, u);
    CommittedStays(h, k, h.Log(id)[..commit], u);
    assert CertifiedBy(k, id, commit, base, Follower, u);
  }

  lemma FollowsLater(h: History, n: NodeView, id: NodeId, t: int, leader: Option<NodeId>) returns (k: History)
    requires Lawful(h) && ImageFaithful(h, n, id) && ReplicationFaithful(h, n) && n.state.currentTerm <= t
    requires LeaderKnown(h, t, leader)
    ensures k == Advance(h, id, t) && Continues(h, k, id) && k.Term(id) == t
    ensures ImageFaithful(k, n.(state := n.state.BecomeFollower(t, leader)), id)
    ensures ReplicationFaithful(k, n.(state := n.state.BecomeFollower(t, leader)))
  {
    k := Advance(h, id, t);
    AdvanceGrows(h, id, t);
    AdvanceLawful(h, id, t);
    BecomesFollower(h, n, id, t, leader);
    MatchesKept(h, k, n, n.(state := n.state.BecomeFollower(t, leader)));
  }

  lemma BecomesFollower(h: History, n: NodeView, id: NodeId, t: int, leader: Option<NodeId>)
    requires VotesCast(h.terms, h.votes) && ImageFaithful(h, n, id) && n.state.currentTerm <= t
    requires LeaderKnown(h, t, leader)
    requires Grows(h, Advance(h, id, t))
    ensures ImageFaithful(Advance(h, id, t), n.(state := n.state.BecomeFollower(t, leader)), id)
  {
    var k := Advance(h, id, t);
    FollowerCertified(h, k, id, n.state.commitIndex, n.log.baseIndex, n.state.role);
    VoteClears(h, id, t, n.state.votedFor);
  }

  lemma VoteClears(h: History, id: NodeId, t: int, vote: Option<NodeId>)
    requires VotesCast(h.terms, h.votes) && VoteKnown(h, id, vote) && h.Term(id) <= t
    ensures VoteKnown(Advance(h, id, t), id, if t > h.Term(id) then None else vote)
  {
  }

  // ---- Winning ----

  lemma FreshReplication(h: History, n: NodeView)
    requires n.Sound() && n.log.LastIndex() == |h.Log(n.state.nodeId)| && ReplicationFaithful(h, n)
    ensures ReplicationFaithful(h, InitReplication(n))
  {
    var m := InitReplication(n);
    if n.state.role == Leader && n.replication == None {
      forall f | f in m.Followers() ensures MatchFaithful(h, m, f) {
      }
    }
  }

  lemma InitFaithful(h: History, n: NodeView, id: NodeId)
    requires n.Sound() && NodeFaithful(h, n, id) && n.log.LastIndex() == |h.Log(id)|
    ensures NodeFaithful(h, InitReplication(n), id)
  {
    FreshReplication(h, n);
  }

  function Won(n: NodeView): NodeView {
    n.(state := n.state.BecomeLeader(), election := n.election.(active := false))
  }

  function Winner(h: History, id: NodeId, q: set<NodeId>): History {
    Acknowledge(Elect(h, id, q), id, |h.Log(id)|)
  }

  // The history of a victory: the candidate's log becomes the log of its term's leader.
  lemma WinnerContinues(h: History, id: NodeId, q: set<NodeId>)
    requires Lawful(h) && MayLead(h, id, q) && h.CandidateLog(Slot(id, h.Term(id))) == h.Log(id)
    ensures Continues(h, Winner(h, id, q), id)
    ensures h.Term(id) !in h.reigns
    ensures forall u :: u in h.candidacies[Slot(id, h.Term(id))].seen ==> u < h.Term(id)
    ensures forall j :: 0 <= j < |h.Log(id)| ==> h.Log(id)[j].term < h.Term(id)
  {
    ElectIsNew(h, id, q);
    ElectLawful(h, id, q);
    ElectRooted(h, id, q);
    var e := Elect(h, id, q);
    var all := |h.Log(id)|;
    assert e.LeaderLog(h.Term(id))[..all] == e.Log(id);
    AcknowledgeGrows(e, id, all);
    AcknowledgeLawful(e, id, all);
    ContinuesTransitively(h, e, Winner(h, id, q), id);
  }

  lemma WinsElection(h: History, n: NodeView, id: NodeId) returns (k: History)
    requires Lawful(h) && n.Sound() && NodeFaithful(h, n, id) && n.state.role == Candidate
    requires Majority(n.election.votes, h.members)
    ensures Continues(h, k, id) && NodeFaithful(k, InitReplication(Won(n)), id)
  {
    var q := n.election.votes;
    k := Winner(h, id, q);
    assert MayLead(h, id, q);
    WinnerContinues(h, id, q);
    WinnerFaithful(h, n, id);
    NodeReads(h, n, id);
    InitFaithful(k, Won(n), id);
  }

  lemma WinnerFaithful(h: History, n: NodeView, id: NodeId)
    requires NodeFaithful(h, n, id) && n.state.role == Candidate && CommitsBacked(h)
    requires Grows(h, Winner(h, id, n.election.votes)) && h.Term(id) !in h.reigns
    requires forall u :: u in h.candidacies[Slot(id, h.Term(id))].seen ==> u < h.Term(id)
    requires forall j :: 0 <= j < |h.Log(id)| ==> h.Log(id)[j].term < h.Term(id)
    ensures NodeFaithful(Winner(h, id, n.election.votes), Won(n), id)
  {
    var k := Winner(h, id, n.election.votes);
    WinnerCertified(h, k, n, id);
    WinnerLeads(h, n, id);
    WinnerMatches(h, k, n, id);
  }

  lemma WinnerLeads(h: History, n: NodeView, id: NodeId)
    requires NodeFaithful(h, n, id) && n.state.role == Candidate && CommitsBacked(h)
    requires n.state.currentTerm !in h.reigns
    ensures LeaderFaithful(Acknowledge(Elect(h, id, n.election.votes), id, |h.Log(id)|), Won(n), id)
  {
    var t := n.state.currentTerm;
    assert h.LeaderLog(t) == [];
    assert t in h.commits ==> h.Fresh(t, h.commits[t]);
  }

  lemma WinnerCertified(h: History, k: History, n: NodeView, id: NodeId)
    requires ImageFaithful(h, n, id) && n.state.role == Candidate && Grows(h, k)
    requires k.Log(id) == h.Log(id) && k.Term(id) == h.Term(id) && k.votes == h.votes && k.members == h.members
    requires Slot(id, h.Term(id)) in h.candidacies
    requires forall u :: u in h.candidacies[Slot(id, h.Term(id))].seen ==> u < h.Term(id)
    requires 0 < h.Term(id) && LeaderKnown(k, h.Term(id), Some(id))
    ensures ImageFaithful(k, Won(n), id)
  {
    var commit, base := n.state.commitIndex, n.log.baseIndex;
    var u :| CertifiedBy(h, id, commit, base, Candidate, u);
    var w := if commit == 0 then h.Term(id) else u;
    assert CertifiedBy(k, id, commit, base, Leader, w);
  }

  // No entry of the new leader's log is of its own term yet, so nothing it ever matched counts.
  lemma WinnerMatches(h: History, k: History, n: NodeView, id: NodeId)
    requires n.state.nodeId == id && n.state.role == Candidate && ReplicationFaithful(h, n) && k.Log(id) == h.Log(id)
    requires forall j :: 0 <= j < |h.Log(id)| ==> h.Log(id)[j].term < n.state.currentTerm
    ensures ReplicationFaithful(k, Won(n))
  {
    if n.replication.Some? {
      forall f | f in n.Followers() ensures MatchFaithful(k, Won(n), f) {
        assert MatchFaithful(h, n, f);
      }
    }
  }

  // ---- tick: the election timeout ----

  function Standing(n: NodeView): NodeView {
    n.(state := n.state.BecomeCandidate(), election := ElectionView({n.state.nodeId}, true))
  }

  lemma StandCertified(h: History, id: NodeId, commit: int, base: int, role: Role)
    requires CommitsBacked(h) && Grows(h, Stand(h, id)) && Certified(h, id, commit, base, role)
    ensures Certified(Stand(h, id), id, commit, base, Candidate)
  {
    var k := Stand(h, id);
    var u :| CertifiedBy(h, id, commit, base, role, u);
    CommittedStays(h, k, h.Log(id)[..commit], u);
    if commit > 0 {
      assert h.Fresh(u, h.commits[u]);
    }
    assert CertifiedBy(k, id, commit, base, Candidate, u);
  }

  lemma StandsForElection(h: History, n: NodeView, id: NodeId)
    requires TermsKnown(h.members, h.terms) && CommitsBacked(h) && Elected(h.members, h.reigns, h.votes)
    requires VotesForCandidates(h.votes, h.candidacies) && CandidaciesDeclared(h.terms, h.candidacies)
    requires Grows(h, Stand(h, id)) && NodeFaithful(h, n, id)
    ensures NodeFaithful(Stand(h, id), Standing(n), id)
  {
    var k := Stand(h, id);
    StandCertified(h, id, n.state.commitIndex, n.log.baseIndex, n.state.role);
    MatchesKept(h, k, n, Standing(n));
    if h.Term(id) + 1 in h.reigns {
      LeaderStood(h, h.Term(id) + 1);
    }
  }

  lemma LeaderStood(h: History, t: int)
    requires Elected(h.members, h.reigns, h.votes) && VotesForCandidates(h.votes, h.candidacies) && t in h.reigns
    ensures Slot(h.reigns[t].leader, t) in h.candidacies
  {
    var v := MajoritiesMeet(h.reigns[t].voters, h.reigns[t].voters, h.members);
    assert Voted(h.votes, v, t, h.reigns[t].leader);
  }

  function StoodAlone(n: NodeView): NodeView {
    if |n.members| / 2 + 1 <= 1 then InitReplication(Won(Standing(n))) else Standing(n)
  }

  lemma BeginElectionIs(n: NodeView)
    requires n.Sound()
    ensures BeginElection(n).node == StoodAlone(n)
    ensures BeginElection(n).writes == [SaveStateOf(BeginElection(n).node.state)]
    ensures BeginElection(n).reply ==> BeginElection(n).node == Standing(n)
    ensures BeginElection(n).node.log == n.log && BeginElection(n).node.snapshot == n.snapshot
  {
    assert |Standing(n).election.votes| == 1;
  }

  lemma StandingTruthful(h: History, n: NodeView, id: NodeId)
    requires Consistent(h) && NodeFaithful(h, n, id) && n.state.role == Candidate
    ensures VoteTruthful(h, VoteRequestOf(n))
  {
    NodeReads(h, n, id);
  }

  lemma Stands(h: History, n: NodeView, id: NodeId) returns (k: History)
    requires Lawful(h) && NodeFaithful(h, n, id)
    ensures Continues(h, k, id) && NodeFaithful(k, Standing(n), id)
    ensures VoteTruthful(k, VoteRequestOf(Standing(n)))
  {
    k := Stand(h, id);
    StandLawful(h, id);
    StandGrows(h, id);
    StandsForElection(h, n, id);
    StandingTruthful(k, Standing(n), id);
  }

  lemma StandsAlone(h: History, n: NodeView, id: NodeId) returns (k: History)
    requires Lawful(h) && n.Sound() && NodeFaithful(h, n, id)
    ensures Continues(h, k, id) && NodeFaithful(k, StoodAlone(n), id)
    ensures StoodAlone(n) == Standing(n) ==> VoteTruthful(k, VoteRequestOf(StoodAlone(n)))
  {
    hide Lawful, Grows, Local;
    k := Stands(h, n, id);
    if |n.members| / 2 + 1 <= 1 {
      var l := WinsElection(k, Standing(n), id);
      ContinuesTransitively(h, k, l, id);
      k := l;
    }
  }

  lemma ElectionTimeoutKeeps(h: History, n: NodeView, id: NodeId) returns (k: History)
    requires Lawful(h) && n.Sound() && NodeFaithful(h, n, id)
    ensures Continues(h, k, id) && NodeFaithful(k, BeginElection(n).node, id)
    ensures BeginElection(n).reply ==> VoteTruthful(k, VoteRequestOf(BeginElection(n).node))
  {
    BeginElectionIs(n);
    k := StandsAlone(h, n, id);
  }

  // ---- handle_request_vote ----

  lemma DropsReplication(h: History, n: NodeView, id: NodeId)
    requires NodeFaithful(h, n, id)
    ensures NodeFaithful(h, n.(replication := UnlessLeader(n.state, n.replication)), id)
  {
  }

  lemma FollowerFaithful(h: History, n: NodeView, id: NodeId)
    requires ImageFaithful(h, n, id) && ReplicationFaithful(h, n) && n.state.role == Follower
    ensures NodeFaithful(h, n, id)
  {
  }

  lemma SameLogUpToDate(h: History, n: NodeView, id: NodeId, req: VoteRequest)
    requires Consistent(h) && ImageFaithful(h, n, id) && VoteTruthful(h, req)
    requires IsCandidateLogUpToDate(req.lastLogIndex, req.lastLogTerm, n.log.LastIndex(), n.log.LastTerm())
    ensures UpToDate(h.CandidateLog(Slot(req.candidate, req.term)), h.Log(id))
  {
    NodeReads(h, n, id);
  }

  // The node grants its vote: either it is free and casts it now, or it gave it to the same
  // candidate before.
  lemma Grants(h: History, n: NodeView, id: NodeId, req: VoteRequest) returns (k: History)
    requires Lawful(h) && NodeFaithful(h, n, id) && VoteTruthful(h, req) && req.term == n.state.currentTerm
    requires n.state.votedFor == None || n.state.votedFor == Some(req.candidate)
    requires IsCandidateLogUpToDate(req.lastLogIndex, req.lastLogTerm, n.log.LastIndex(), n.log.LastTerm())
    ensures Continues(h, k, id) && Voted(k.votes, id, req.term, req.candidate)
    ensures NodeFaithful(k, n.(state := n.state.(votedFor := Some(req.candidate))), id)
  {
    if n.state.votedFor == None {
      SameLogUpToDate(h, n, id, req);
      k := CastVote(h, id, req.candidate);
      CastVoteGrows(h, id, req.candidate);
      CastVoteLawful(h, id, req.candidate);
      VoteWritten(h, n, id, req.candidate);
    } else {
      k := h;
      ContinuesItself(h, id);
      assert n.state.(votedFor := Some(req.candidate)) == n.state;
    }
  }

  lemma VoteWritten(h: History, n: NodeView, id: NodeId, c: NodeId)
    requires NodeFaithful(h, n, id) && Grows(h, CastVote(h, id, c))
    ensures NodeFaithful(CastVote(h, id, c), n.(state := n.state.(votedFor := Some(c))), id)
  {
    var k := CastVote(h, id, c);
    var m := n.(state := n.state.(votedFor := Some(c)));
    CertifiedStays(h, k, id, n.state.commitIndex, n.log.baseIndex, n.state.role);
    MatchesKept(h, k, n, m);
    if n.state.role == Candidate {
      forall v | v in n.election.votes ensures Voted(k.votes, v, n.state.currentTerm, id) {
        assert Voted(h.votes, v, n.state.currentTerm, id);
      }
    }
  }

  function Heard(n: NodeView, term: int): NodeView {
    if term > n.state.currentTerm then n.(state := n.state.BecomeFollower(term, None)) else n
  }

  function Dropped(n: NodeView): NodeView { n.(replication := UnlessLeader(n.state, n.replication)) }

  // What handle_request_vote does, in steps the history can follow.
  lemma VoteRequestIs(n: NodeView, req: VoteRequest)
    requires n.Sound()
    ensures var e := ReceiveVoteRequest(n, req);
      var m := Heard(n, req.term);
      && e.writes == [SaveStateOf(e.node.state)]
      && e.node == Dropped(if e.reply.granted then m.(state := m.state.(votedFor := Some(req.candidate))) else m)
      && (e.reply.granted ==>
            e.reply.term == req.term == m.state.currentTerm
            && (m.state.votedFor == None || m.state.votedFor == Some(req.candidate))
            && IsCandidateLogUpToDate(req.lastLogIndex, req.lastLogTerm, m.log.LastIndex(), m.log.LastTerm()))
  {
  }

  lemma HearsTerm(h: History, n: NodeView, id: NodeId, term: int) returns (k: History)
    requires Lawful(h) && NodeFaithful(h, n, id)
    ensures Continues(h, k, id) && NodeFaithful(k, Heard(n, term), id)
  {
    if term > n.state.currentTerm {
      k := FollowsLater(h, n, id, term, None);
      FollowerFaithful(k, Heard(n, term), id);
    } else {
      k := h;
      ContinuesItself(h, id);
    }
  }

  lemma VoteRequestKeeps(h: History, n: NodeView, id: NodeId, req: VoteRequest) returns (k: History)
    requires Lawful(h) && n.Sound() && NodeFaithful(h, n, id) && VoteTruthful(h, req)
    ensures Continues(h, k, id) && NodeFaithful(k, ReceiveVoteRequest(n, req).node, id)
    ensures ReceiveVoteRequest(n, req).reply.granted ==>
              ReceiveVoteRequest(n, req).reply.term == req.term && Voted(k.votes, id, req.term, req.candidate)
  {
    VoteRequestIs(n, req);
    var m := Heard(n, req.term);
    k := HearsTerm(h, n, id, req.term);
    if ReceiveVoteRequest(n, req).reply.granted {
      var l := Grants(k, m, id, req);
      ContinuesTransitively(h, k, l, id);
      k, m := l, m.(state := m.state.(votedFor := Some(req.candidate)));
    }
    DropsReplication(k, m, id);
  }

  // ---- tick: a vote comes back ----

  function Counted(n: NodeView, from: NodeId): NodeView {
    n.(election := n.election.(votes := n.election.votes + {from}))
  }

  lemma Counts(h: History, n: NodeView, id: NodeId, from: NodeId)
    requires NodeFaithful(h, n, id) && n.state.role == Candidate && from in h.members
    requires Voted(h.votes, from, n.state.currentTerm, id)
    ensures NodeFaithful(h, Counted(n, from), id)
  {
  }

  lemma VoteReplyIs(n: NodeView, from: NodeId, req: VoteRequest, ballot: VoteReply)
    requires n.Sound() && from in n.members
    ensures var e := ReceiveVoteReply(n, from, req, ballot);
      if n.state.role != Candidate || n.state.currentTerm != req.term
         || !n.election.active || ballot.term < n.state.currentTerm
      then e.node == n && e.writes == []
      else if ballot.term > n.state.currentTerm
      then e.writes == [SaveStateOf(e.node.state)]
           && e.node == Heard(n, ballot.term).(replication := None, election := n.election.(active := false))
      else
        var m := if ballot.granted then Counted(n, from) else n;
        e.writes == [] && e.node == if |m.election.votes| >= |n.members| / 2 + 1 then InitReplication(Won(m)) else m
  {
  }

  lemma BallotCounts(h: History, n: NodeView, id: NodeId, from: NodeId, granted: bool) returns (k: History)
    requires Lawful(h) && n.Sound() && NodeFaithful(h, n, id) && n.state.role == Candidate && from in h.members
    requires granted ==> Voted(h.votes, from, n.state.currentTerm, id)
    ensures var m := if granted then Counted(n, from) else n;
      Continues(h, k, id)
      && NodeFaithful(k, if |m.election.votes| >= |n.members| / 2 + 1 then InitReplication(Won(m)) else m, id)
  {
    var m := if granted then Counted(n, from) else n;
    if granted {
      Counts(h, n, id, from);
    }
    if |m.election.votes| >= |n.members| / 2 + 1 {
      k := WinsElection(h, m, id);
    } else {
      k := h;
      ContinuesItself(h, id);
    }
  }

  lemma VoteReplyKeeps(h: History, n: NodeView, id: NodeId, from: NodeId, req: VoteRequest, ballot: VoteReply)
    returns (k: History)
    requires Lawful(h) && n.Sound() && NodeFaithful(h, n, id) && req.candidate == id
    requires Truthful(h, VoteReplyMsg(from, req, ballot))
    ensures Continues(h, k, id) && NodeFaithful(k, ReceiveVoteReply(n, from, req, ballot).node, id)
  {
    VoteReplyIs(n, from, req, ballot);
    if n.state.role != Candidate || n.state.currentTerm != req.term
       || !n.election.active || ballot.term < n.state.currentTerm {
      k := h;
      ContinuesItself(h, id);
    } else if ballot.term > n.state.currentTerm {
      k := HearsTerm(h, n, id, ballot.term);
      Deactivates(k, Heard(n, ballot.term), id);
    } else {
      k := BallotCounts(h, n, id, from, ballot.granted);
    }
  }

  lemma Deactivates(h: History, n: NodeView, id: NodeId)
    requires NodeFaithful(h, n, id) && n.state.role == Follower
    ensures NodeFaithful(h, n.(replication := None, election := n.election.(active := false)), id)
  {
  }

  // ---- The disk follows the node ----

  lemma VoteRequestSaved(n: NodeView, d: Disk, req: VoteRequest)
    requires n.Sound() && DiskMatches(n, d)
    ensures DiskMatches(ReceiveVoteRequest(n, req).node, PerformAll(d, ReceiveVoteRequest(n, req).writes))
  {
    VoteRequestIs(n, req);
    StateSaved(n, d, ReceiveVoteRequest(n, req).node);
  }

  lemma VoteReplySaved(n: NodeView, d: Disk, from: NodeId, req: VoteRequest, ballot: VoteReply)
    requires n.Sound() && DiskMatches(n, d) && from in n.members
    ensures DiskMatches(ReceiveVoteReply(n, from, req, ballot).node,
                        PerformAll(d, ReceiveVoteReply(n, from, req, ballot).writes))
  {
    VoteReplyIs(n, from, req, ballot);
    var e := ReceiveVoteReply(n, from, req, ballot);
    if e.writes == [] {
      NothingWritten(d);
    } else {
      StateSaved(n, d, e.node);
    }
  }

  lemma ElectionTimeoutSaved(n: NodeView, d: Disk)
    requires n.Sound() && DiskMatches(n, d)
    ensures DiskMatches(BeginElection(n).node, PerformAll(d, BeginElection(n).writes))
  {
    BeginElectionIs(n);
    StateSaved(n, d, BeginElection(n).node);
  }
}

// The eight ways a history grows, each shown to keep every law.

module HistorySteps {
  import opened Prelude
  import opened Types
  import opened History

  // k continues h: terms, votes, candidacies, reigns, acknowledgements and commits only accumulate,
  // and nobody acknowledges anything for a term it has already left.
  ghost predicate Grows(h: History, k: History) {
    && h.members == k.members
    && (forall n :: h.Term(n) <= k.Term(n))
    && (forall t :: t in h.reigns ==>
          t in k.reigns && k.reigns[t].leader == h.reigns[t].leader && k.reigns[t].voters == h.reigns[t].voters
          && h.LeaderLog(t) <= k.LeaderLog(t))
    && (forall s :: s in h.votes ==> s in k.votes && k.votes[s] == h.votes[s])
    && (forall s :: s in h.candidacies ==> s in k.candidacies && k.candidacies[s] == h.candidacies[s])
    && (forall s :: s in h.acks ==> s in k.acks && h.acks[s] <= k.acks[s])
    && (forall s :: s in k.acks ==> (s in h.acks && k.acks[s] == h.acks[s]) || h.Term(s.node) <= s.term)
    && (forall t :: t in h.commits ==> t in k.commits && h.commits[t] <= k.commits[t])
  }

  // Only what belongs to node n changed.
  ghost predicate Local(h: History, k: History, n: NodeId) {
    && (forall m :: m in h.members && m != n ==> k.Term(m) == h.Term(m) && k.Log(m) == h.Log(m))
    && (forall s :: s in k.votes && s.node != n ==> s in h.votes)
    && (forall s :: s in k.candidacies && s.node != n ==> s in h.candidacies)
    && (forall s :: s in k.acks && s.node != n ==> s in h.acks && k.acks[s] == h.acks[s])
    && (forall t :: t in k.reigns && k.reigns[t].leader != n ==> t in h.reigns && k.reigns[t] == h.reigns[t])
    && (forall t :: t in k.commits && !(t in h.commits && h.commits[t] == k.commits[t]) ==>
          t in k.reigns && k.reigns[t].leader == n)
  }

  lemma GrowsTransitively(h: History, k: History, l: History)
    requires Grows(h, k) && Grows(k, l)
    ensures Grows(h, l)
  {
  }

  lemma LocalTransitively(h: History, k: History, l: History, n: NodeId)
    requires Grows(h, k) && Grows(k, l) && Local(h, k, n) && Local(k, l, n)
    ensures Local(h, l, n)
  {
  }

  lemma ChoosableShrinks(h: History, k: History, t: int, i: int)
    requires Grows(h, k) && k.Choosable(t, i)
    ensures h.Choosable(t, i)
  {
    forall v | v in k.Potential(t, i) ensures v in h.Potential(t, i) {
      if k.Acked(v, t, i) && !h.Acked(v, t, i) {
        assert Slot(v, t) in k.acks;
      }
    }
    MajorityGrows(k.Potential(t, i), h.Potential(t, i), h.members);
  }

  lemma ChosenStays(h: History, k: History, t: int, i: int)
    requires Grows(h, k) && h.Chosen(t, i)
    ensures k.Chosen(t, i)
  {
    MajorityGrows(h.Supporters(t, i), k.Supporters(t, i), h.members);
  }

  lemma ChosenIsChoosable(h: History, t: int, i: int)
    requires h.Chosen(t, i)
    ensures h.Choosable(t, i)
  {
    MajorityGrows(h.Supporters(t, i), h.Potential(t, i), h.members);
  }

  // A safe log stays safe as long as the position existed before.
  lemma SafeStays(h: History, k: History, t: int, i: int, log: seq<LogEntry>)
    requires Grows(h, k) && i <= |h.LeaderLog(t)|
    requires h.Safe(t, i, log)
    ensures k.Safe(t, i, log)
  {
    if k.Fresh(t, i) && k.Choosable(t, i) {
      ChoosableShrinks(h, k, t, i);
      assert t in h.reigns;
      assert h.LeaderLog(t)[i - 1] == k.LeaderLog(t)[i - 1];
      assert h.LeaderLog(t)[..i] == k.LeaderLog(t)[..i];
    }
  }

  lemma SourcedStays(h: History, k: History, log: seq<LogEntry>)
    requires Grows(h, k) && Sourced(h.reigns, log)
    ensures Sourced(k.reigns, log)
  {
  }

  // Every prefix of a leader's log, and so of any sourced log, is sourced, and two sourced logs
  // with the same term at one position agree up to there (Log Matching, section 5.3).
  lemma PrefixSourced(h: History, log: seq<LogEntry>, i: int)
    requires Rooted(h.reigns) && Sourced(h.reigns, log) && 0 <= i <= |log|
    ensures Sourced(h.reigns, log[..i])
  {
    if i > 0 {
      var u := log[|log| - 1].term;
      assert log[i - 1] == h.LeaderLog(u)[i - 1];
      assert RootedAt(h.reigns, u, i - 1);
      assert log[..i] == h.LeaderLog(u)[..i];
    }
  }

  lemma LogMatching(h: History, a: seq<LogEntry>, b: seq<LogEntry>, i: int)
    requires Rooted(h.reigns) && Sourced(h.reigns, a) && Sourced(h.reigns, b)
    requires 0 < i <= |a| && i <= |b| && a[i - 1].term == b[i - 1].term
    ensures a[..i] == b[..i]
  {
    PrefixSourced(h, a, i);
    PrefixSourced(h, b, i);
    assert a[..i][i - 1] == a[i - 1] && b[..i][i - 1] == b[i - 1];
  }

  // Terms never decrease along a sourced log.
  lemma TermsBounded(h: History, log: seq<LogEntry>, j: int)
    requires Rooted(h.reigns) && Sourced(h.reigns, log) && 0 <= j < |log|
    ensures 0 < log[j].term <= log[|log| - 1].term
  {
    var u := log[|log| - 1].term;
    assert log[j] == h.LeaderLog(u)[j];
    assert RootedAt(h.reigns, u, j);
  }

  lemma LeaderLogSourced(h: History, t: int)
    requires Rooted(h.reigns) && t in h.reigns
    ensures Sourced(h.reigns, h.LeaderLog(t))
  {
    var l := h.LeaderLog(t);
    if l != [] {
      assert RootedAt(h.reigns, t, |l| - 1);
      assert l[..|l|] == l;
      assert l <= h.LeaderLog(l[|l| - 1].term);
    }
  }

  // ---- A node learns of a later term ----

  function Advance(h: History, n: NodeId, t: int): History {
    h.(terms := h.terms[n := t])
  }

  lemma AdvanceGrows(h: History, n: NodeId, t: int)
    requires h.Term(n) <= t
    ensures Grows(h, Advance(h, n, t)) && Local(h, Advance(h, n, t), n)
  {
  }

  lemma AdvanceConsistent(h: History, n: NodeId, t: int)
    requires Consistent(h) && n in h.members && h.Term(n) <= t
    ensures Consistent(Advance(h, n, t))
  {
    var k := Advance(h, n, t);
    TermsGrow(h, k, n);
  }

  lemma AdvanceLawful(h: History, n: NodeId, t: int)
    requires Lawful(h) && n in h.members && h.Term(n) <= t
    ensures Lawful(Advance(h, n, t))
  {
    var k := Advance(h, n, t);
    AdvanceGrows(h, n, t);
    AdvanceConsistent(h, n, t);
    LeadersAndAcksStay(h, k);
    VotesStay(h, k);
    CommitsStay(h, k);
  }

  // Where logs, reigns and acknowledgements are as they were, growth alone keeps the safety laws.
  lemma LeadersAndAcksStay(h: History, k: History)
    requires Lawful(h) && Grows(h, k)
    requires k.reigns == h.reigns && k.logs == h.logs && k.acks == h.acks
    ensures LeadersSafe(k) && AcksKept(k)
  {
    forall t, u, i | t in k.reigns && u < t ensures k.Safe(u, i, k.LeaderLog(t)) {
      if i <= |h.LeaderLog(u)| {
        SafeStays(h, k, u, i, h.LeaderLog(t));
      }
    }
    forall v, t, i | k.Acked(v, t, i) ensures k.Safe(t, i, k.Log(v)) {
      assert h.Acked(v, t, i);
      SafeStays(h, k, t, i, h.Log(v));
    }
  }

  lemma VotesStay(h: History, k: History)
    requires Lawful(h) && Grows(h, k)
    requires k.votes == h.votes && k.candidacies == h.candidacies && k.acks == h.acks
    ensures VotesSafe(k)
  {
    forall v, t, u, i | Slot(v, t) in k.votes && u < t && k.Acked(v, u, i)
      ensures k.Safe(u, i, k.CandidateLog(Slot(k.votes[Slot(v, t)], t)))
    {
      assert h.Acked(v, u, i);
      SafeStays(h, k, u, i, h.CandidateLog(Slot(h.votes[Slot(v, t)], t)));
    }
  }

  lemma CommitsStay(h: History, k: History)
    requires CommitsBacked(h) && Grows(h, k) && k.commits == h.commits
    ensures CommitsBacked(k)
  {
    forall t | t in k.commits ensures k.Fresh(t, k.commits[t]) && k.Chosen(t, k.commits[t]) {
      ChosenStays(h, k, t, h.commits[t]);
    }
  }

  // ---- A node stands for election in the next term and votes for itself ----

  function Stand(h: History, n: NodeId): History {
    var t := h.Term(n) + 1;
    h.(terms := h.terms[n := t],
       votes := h.votes[Slot(n, t) := n],
       candidacies := h.candidacies[Slot(n, t) := Candidacy(h.Log(n), h.reigns.Keys)])
  }

  lemma StandGrows(h: History, n: NodeId)
    requires VotesCast(h.terms, h.votes) && CandidaciesDeclared(h.terms, h.candidacies) && n in h.terms
    ensures Grows(h, Stand(h, n)) && Local(h, Stand(h, n), n)
    ensures Slot(n, h.Term(n) + 1) !in h.votes && Slot(n, h.Term(n) + 1) !in h.candidacies
  {
  }

  lemma StandLate(h: History, n: NodeId)
    requires VotesCast(h.terms, h.votes) && CandidaciesDeclared(h.terms, h.candidacies) && n in h.terms
    requires VotesForCandidates(h.votes, h.candidacies) && Elected(h.members, h.reigns, h.votes)
    requires LateCandidatesFail(h.reigns, h.votes, h.candidacies)
    ensures LateCandidatesFail(h.reigns, Stand(h, n).votes, Stand(h, n).candidacies)
  {
    var k := Stand(h, n);
    var mine := Slot(n, h.Term(n) + 1);
    forall s, u, v |
      s in k.candidacies && u in k.candidacies[s].seen && s.term <= u && u in h.reigns && v in h.reigns[u].voters
      ensures !Voted(k.votes, v, s.term, s.node)
    {
      assert Voted(h.votes, v, u, h.reigns[u].leader);
      if s == mine {
        assert v != n;
      } else {
        assert !Voted(h.votes, v, s.term, s.node);
      }
    }
  }

  lemma StandRecords(h: History, n: NodeId)
    requires n in h.terms && VotesCast(h.terms, h.votes) && VotesForCandidates(h.votes, h.candidacies)
    requires CandidaciesDeclared(h.terms, h.candidacies)
    ensures VotesCast(Stand(h, n).terms, Stand(h, n).votes)
    ensures VotesForCandidates(Stand(h, n).votes, Stand(h, n).candidacies)
    ensures CandidaciesDeclared(Stand(h, n).terms, Stand(h, n).candidacies)
  {
  }

  lemma StandCandidacy(h: History, n: NodeId)
    requires n in h.members && LogsSourced(h.members, h.logs, h.reigns)
    requires CandidaciesSourced(h.candidacies, h.reigns)
    ensures CandidaciesSourced(Stand(h, n).candidacies, Stand(h, n).reigns)
  {
    assert h.Log(n) == h.logs[n];
  }

  lemma StandConsistent(h: History, n: NodeId)
    requires Consistent(h) && n in h.members
    ensures Consistent(Stand(h, n))
  {
    var k := Stand(h, n);
    StandGrows(h, n);
    StandRecords(h, n);
    StandCandidacy(h, n);
    StandLate(h, n);
    TermsGrow(h, k, n);
    VotesGrow(h, k);
  }

  // One term going up leaves every record within the terms.
  lemma TermsGrow(h: History, k: History, n: NodeId)
    requires TermsKnown(h.members, h.terms) && n in h.members && h.Term(n) <= k.Term(n)
    requires k.terms == h.terms[n := k.Term(n)] && k.members == h.members
    requires VotesCast(h.terms, h.votes) && CandidaciesDeclared(h.terms, h.candidacies)
    requires AcksBounded(h.terms, h.reigns, h.acks)
    ensures TermsKnown(k.members, k.terms)
    ensures VotesCast(k.terms, h.votes) && CandidaciesDeclared(k.terms, h.candidacies)
    ensures AcksBounded(k.terms, h.reigns, h.acks)
  {
  }

  lemma VotesGrow(h: History, k: History)
    requires Grows(h, k) && k.reigns == h.reigns && Elected(h.members, h.reigns, h.votes)
    ensures Elected(k.members, k.reigns, k.votes)
  {
    forall t | t in k.reigns
      ensures forall v :: v in k.reigns[t].voters ==> Voted(k.votes, v, t, k.reigns[t].leader)
    {
      forall v | v in k.reigns[t].voters ensures Voted(k.votes, v, t, k.reigns[t].leader) {
        assert Voted(h.votes, v, t, h.reigns[t].leader);
      }
    }
  }

  lemma StandVotesSafe(h: History, n: NodeId)
    requires Lawful(h) && Grows(h, Stand(h, n))
    requires Slot(n, h.Term(n) + 1) !in h.votes
    ensures VotesSafe(Stand(h, n))
  {
    var k := Stand(h, n);
    forall v, t, u, i | Slot(v, t) in k.votes && u < t && k.Acked(v, u, i)
      ensures k.Safe(u, i, k.CandidateLog(Slot(k.votes[Slot(v, t)], t)))
    {
      assert h.Acked(v, u, i);
      if Slot(v, t) == Slot(n, h.Term(n) + 1) {
        SafeStays(h, k, u, i, h.Log(n));
      } else {
        SafeStays(h, k, u, i, h.CandidateLog(Slot(h.votes[Slot(v, t)], t)));
      }
    }
  }

  lemma StandLawful(h: History, n: NodeId)
    requires Lawful(h) && n in h.members
    ensures Lawful(Stand(h, n))
  {
    var k := Stand(h, n);
    StandGrows(h, n);
    StandConsistent(h, n);
    StandVotesSafe(h, n);
    LeadersAndAcksStay(h, k);
    CommitsStay(h, k);
  }

  // ---- A node votes for a candidate of its term whose log is at least as up to date ----

  function CastVote(h: History, v: NodeId, c: NodeId): History {
    h.(votes := h.votes[Slot(v, h.Term(v)) := c])
  }

  // vote.py: is_candidate_log_up_to_date, on full logs.
  predicate UpToDate(candidate: seq<LogEntry>, voter: seq<LogEntry>) {
    if LastTerm(candidate) != LastTerm(voter) then LastTerm(candidate) > LastTerm(voter)
    else |candidate| >= |voter|
  }

  ghost predicate MayVote(h: History, v: NodeId, c: NodeId) {
    var s := Slot(c, h.Term(v));
    v in h.members && Slot(v, h.Term(v)) !in h.votes && s in h.candidacies && UpToDate(h.CandidateLog(s), h.Log(v))
  }

  lemma CastVoteGrows(h: History, v: NodeId, c: NodeId)
    requires Slot(v, h.Term(v)) !in h.votes
    ensures Grows(h, CastVote(h, v, c)) && Local(h, CastVote(h, v, c), v)
  {
  }

  lemma CastVoteLate(h: History, v: NodeId, c: NodeId)
    requires MayVote(h, v, c) && VotesCast(h.terms, h.votes) && Elected(h.members, h.reigns, h.votes)
    requires LateCandidatesFail(h.reigns, h.votes, h.candidacies)
    ensures LateCandidatesFail(h.reigns, CastVote(h, v, c).votes, h.candidacies)
  {
    var k := CastVote(h, v, c);
    forall s, u, w |
      s in h.candidacies && u in h.candidacies[s].seen && s.term <= u && u in h.reigns && w in h.reigns[u].voters
      ensures !Voted(k.votes, w, s.term, s.node)
    {
      assert Voted(h.votes, w, u, h.reigns[u].leader);
      assert !Voted(h.votes, w, s.term, s.node);
    }
  }

  lemma CastVoteConsistent(h: History, v: NodeId, c: NodeId)
    requires Consistent(h) && MayVote(h, v, c)
    ensures Consistent(CastVote(h, v, c))
  {
    var k := CastVote(h, v, c);
    CastVoteGrows(h, v, c);
    CastVoteLate(h, v, c);
    CastVoteRecords(h, v, c);
    VotesGrow(h, k);
  }

  lemma CastVoteRecords(h: History, v: NodeId, c: NodeId)
    requires v in h.terms && Slot(c, h.Term(v)) in h.candidacies
    requires VotesCast(h.terms, h.votes) && VotesForCandidates(h.votes, h.candidacies)
    ensures VotesCast(h.terms, CastVote(h, v, c).votes)
    ensures VotesForCandidates(CastVote(h, v, c).votes, h.candidacies)
  {
  }

  // The heart of the election restriction (section 5.4.1): an up-to-date candidate holds
  // every still choosable prefix its voter holds.
  lemma UpToDateHolds(h: History, c: seq<LogEntry>, v: seq<LogEntry>, u: int, i: int)
    requires Rooted(h.reigns) && LeadersSafe(h) && Sourced(h.reigns, c) && Sourced(h.reigns, v)
    requires UpToDate(c, v) && h.Safe(u, i, v)
    ensures h.Safe(u, i, c)
  {
    if h.Fresh(u, i) && h.Choosable(u, i) {
      var p := h.LeaderLog(u)[..i];
      assert v[i - 1] == p[i - 1];
      TermsBounded(h, v, i - 1);
      var w := LastTerm(c);
      assert c != [];
      if w > u {
        var l := h.LeaderLog(w);
        assert h.Safe(u, i, l);
        forall j | 0 <= j < i ensures l[j].term <= u {
          assert l[j] == p[j] == h.LeaderLog(u)[j];
          assert RootedAt(h.reigns, u, j);
        }
        assert c[|c| - 1] == l[|c| - 1];
        assert c[..i] == h.LeaderLog(w)[..i] == p;
      } else {
        assert c[..i] == p;
      }
    }
  }

  lemma CastVoteSafe(h: History, v: NodeId, c: NodeId)
    requires Lawful(h) && MayVote(h, v, c)
    ensures VotesSafe(CastVote(h, v, c))
  {
    var k := CastVote(h, v, c);
    CastVoteGrows(h, v, c);
    var s := Slot(c, h.Term(v));
    assert Sourced(h.reigns, h.CandidateLog(s)) && Sourced(h.reigns, h.Log(v));
    forall w, t, u, i | Slot(w, t) in k.votes && u < t && k.Acked(w, u, i)
      ensures k.Safe(u, i, k.CandidateLog(Slot(k.votes[Slot(w, t)], t)))
    {
      assert h.Acked(w, u, i);
      if Slot(w, t) == Slot(v, h.Term(v)) {
        UpToDateHolds(h, h.CandidateLog(s), h.Log(v), u, i);
        SafeStays(h, k, u, i, h.CandidateLog(s));
      } else {
        SafeStays(h, k, u, i, h.CandidateLog(Slot(h.votes[Slot(w, t)], t)));
      }
    }
  }

  lemma CastVoteLawful(h: History, v: NodeId, c: NodeId)
    requires Lawful(h) && MayVote(h, v, c)
    ensures Lawful(CastVote(h, v, c))
  {
    var k := CastVote(h, v, c);
    CastVoteGrows(h, v, c);
    CastVoteConsistent(h, v, c);
    CastVoteSafe(h, v, c);
    LeadersAndAcksStay(h, k);
    CommitsStay(h, k);
  }

  // ---- A majority elects a candidate ----

  function Elect(h: History, c: NodeId, q: set<NodeId>): History {
    var t := h.Term(c);
    h.(reigns := h.reigns[t := Reign(c, q, h.CandidateLog(Slot(c, t)))])
  }

  ghost predicate MayLead(h: History, c: NodeId, q: set<NodeId>) {
    var t := h.Term(c);
    && c in h.members && 0 < t && Slot(c, t) in h.candidacies
    && Majority(q, h.members) && (forall v :: v in q ==> Voted(h.votes, v, t, c))
    && !(t in h.reigns && h.reigns[t].leader == c)
  }

  // Election Safety (section 5.2): two majorities of one term elect the same node.
  lemma LeaderUnique(h: History, c: NodeId, t: int, q: set<NodeId>)
    requires Elected(h.members, h.reigns, h.votes) && t in h.reigns
    requires Majority(q, h.members) && (forall v :: v in q ==> Voted(h.votes, v, t, c))
    ensures h.reigns[t].leader == c
  {
    var v := MajoritiesMeet(q, h.reigns[t].voters, h.members);
    assert Voted(h.votes, v, t, h.reigns[t].leader);
  }

  // A new leader's term has no other leader, and is later than every term it had seen a leader of.
  lemma ElectIsNew(h: History, c: NodeId, q: set<NodeId>)
    requires Consistent(h) && MayLead(h, c, q)
    ensures h.Term(c) !in h.reigns
    ensures forall u :: u in h.candidacies[Slot(c, h.Term(c))].seen ==> u < h.Term(c)
  {
    var t := h.Term(c);
    if t in h.reigns {
      LeaderUnique(h, c, t, q);
    }
    forall u | u in h.candidacies[Slot(c, t)].seen ensures u < t {
      if t <= u {
        var v := MajoritiesMeet(q, h.reigns[u].voters, h.members);
      }
    }
  }

  lemma ElectRooted(h: History, c: NodeId, q: set<NodeId>)
    requires Rooted(h.reigns) && Numbered(h.reigns) && CandidaciesSourced(h.candidacies, h.reigns)
    requires Slot(c, h.Term(c)) in h.candidacies && 0 < h.Term(c) && h.Term(c) !in h.reigns
    requires forall u :: u in h.candidacies[Slot(c, h.Term(c))].seen ==> u < h.Term(c)
    ensures Rooted(Elect(h, c, q).reigns) && Numbered(Elect(h, c, q).reigns)
    ensures forall j :: 0 <= j < |h.CandidateLog(Slot(c, h.Term(c)))| ==>
              h.CandidateLog(Slot(c, h.Term(c)))[j].term < h.Term(c)
  {
    var k := Elect(h, c, q);
    var t := h.Term(c);
    var l := h.CandidateLog(Slot(c, t));
    forall j | 0 <= j < |l| ensures l[j].term < t && RootedAt(k.reigns, t, j) {
      TermsBounded(h, l, j);
      PrefixSourced(h, l, j + 1);
    }
    forall u, j | u in k.reigns && 0 <= j < |ReignLog(k.reigns, u)| ensures RootedAt(k.reigns, u, j) {
      if u != t {
        assert RootedAt(h.reigns, u, j);
      }
    }
    if l != [] {
      assert WellNumbered(h.LeaderLog(LastTerm(l)));
      forall j | 0 <= j < |l| ensures l[j].index == j + 1 && 0 <= l[j].term && Applicable(l[j].command) {
        assert l[j] == h.LeaderLog(LastTerm(l))[j];
      }
    }
  }

  lemma ElectGrows(h: History, c: NodeId, q: set<NodeId>)
    requires h.Term(c) !in h.reigns
    ensures Grows(h, Elect(h, c, q)) && Local(h, Elect(h, c, q), c)
  {
  }

  // More reigns, and longer ones, leave every sourced log sourced.
  lemma SourcesGrow(h: History, k: History)
    requires Grows(h, k) && LogsSourced(h.members, h.logs, h.reigns) && CandidaciesSourced(h.candidacies, h.reigns)
    ensures LogsSourced(h.members, h.logs, k.reigns) && CandidaciesSourced(h.candidacies, k.reigns)
  {
    forall n | n in h.logs ensures Sourced(k.reigns, h.logs[n]) {
      SourcedStays(h, k, h.logs[n]);
    }
    forall s | s in h.candidacies ensures Sourced(k.reigns, h.candidacies[s].log) {
      SourcedStays(h, k, h.candidacies[s].log);
    }
    forall t | t in h.reigns.Keys ensures t in k.reigns.Keys {
    }
  }

  lemma ElectConsistent(h: History, c: NodeId, q: set<NodeId>)
    requires Consistent(h) && MayLead(h, c, q)
    ensures Consistent(Elect(h, c, q))
  {
    var k := Elect(h, c, q);
    ElectIsNew(h, c, q);
    ElectGrows(h, c, q);
    ElectRooted(h, c, q);
    SourcesGrow(h, k);
    ElectRecords(h, c, q);
  }

  lemma ElectRecords(h: History, c: NodeId, q: set<NodeId>)
    requires MayLead(h, c, q) && h.Term(c) !in h.reigns
    requires AcksBounded(h.terms, h.reigns, h.acks) && Elected(h.members, h.reigns, h.votes)
    requires CandidaciesSourced(h.candidacies, h.reigns)
    requires LateCandidatesFail(h.reigns, h.votes, h.candidacies)
    ensures AcksBounded(h.terms, Elect(h, c, q).reigns, h.acks)
    ensures Elected(h.members, Elect(h, c, q).reigns, h.votes)
    ensures LateCandidatesFail(Elect(h, c, q).reigns, h.votes, h.candidacies)
  {
  }

  // Leader Completeness at the moment of election (section 5.4.3): whatever is still choosable
  // in an earlier term was acknowledged by one of the voters, so the new leader holds it.
  lemma ElectLeadersSafe(h: History, c: NodeId, q: set<NodeId>)
    requires Lawful(h) && MayLead(h, c, q) && Grows(h, Elect(h, c, q)) && h.Term(c) !in h.reigns
    requires forall j :: 0 <= j < |h.CandidateLog(Slot(c, h.Term(c)))| ==>
               h.CandidateLog(Slot(c, h.Term(c)))[j].term < h.Term(c)
    ensures LeadersSafe(Elect(h, c, q))
  {
    var k := Elect(h, c, q);
    var t := h.Term(c);
    forall t', u, i | t' in k.reigns && u < t' ensures k.Safe(u, i, k.LeaderLog(t')) {
      if k.Fresh(u, i) && k.Choosable(u, i) {
        assert u != t;
        assert h.Fresh(u, i);
        ChoosableShrinks(h, k, u, i);
        if t' == t {
          var v := MajoritiesMeet(h.Potential(u, i), q, h.members);
          assert Voted(h.votes, v, t, c);
          assert h.Acked(v, u, i);
          assert h.Safe(u, i, h.CandidateLog(Slot(c, t)));
        } else {
          assert h.Safe(u, i, h.LeaderLog(t'));
        }
      }
    }
  }

  ghost predicate OnlyReigns(h: History, k: History) {
    && k.votes == h.votes && k.candidacies == h.candidacies
    && k.logs == h.logs && k.acks == h.acks && k.commits == h.commits
  }

  // Only reigns changed: what does not speak of leaders alone stays.
  lemma ReignsGrow(h: History, k: History)
    requires Lawful(h) && Grows(h, k) && OnlyReigns(h, k)
    ensures VotesSafe(k) && AcksKept(k) && CommitsBacked(k)
  {
    VotesStay(h, k);
    CommitsStay(h, k);
    forall v, t, i | k.Acked(v, t, i) ensures k.Safe(t, i, k.Log(v)) {
      assert h.Acked(v, t, i);
      SafeStays(h, k, t, i, h.Log(v));
    }
  }

  lemma ElectLawful(h: History, c: NodeId, q: set<NodeId>)
    requires Lawful(h) && MayLead(h, c, q)
    ensures Lawful(Elect(h, c, q)) && Grows(h, Elect(h, c, q)) && Local(h, Elect(h, c, q), c)
  {
    var k := Elect(h, c, q);
    ElectIsNew(h, c, q);
    ElectGrows(h, c, q);
    ElectRooted(h, c, q);
    ElectConsistent(h, c, q);
    ElectLeadersSafe(h, c, q);
    ReignsGrow(h, k);
  }

  // ---- A leader appends entries of its own term ----

  function Extend(h: History, t: int, es: seq<LogEntry>): History
    requires t in h.reigns
  {
    h.(reigns := h.reigns[t := Reign(h.reigns[t].leader, h.reigns[t].voters, h.reigns[t].log + es)])
  }

  ghost predicate MayExtend(h: History, t: int, es: seq<LogEntry>) {
    t in h.reigns && WellNumbered(h.LeaderLog(t) + es) && (forall j :: 0 <= j < |es| ==> es[j].term == t)
  }

  lemma ExtendGrows(h: History, t: int, es: seq<LogEntry>)
    requires MayExtend(h, t, es)
    ensures Grows(h, Extend(h, t, es)) && Local(h, Extend(h, t, es), h.reigns[t].leader)
    ensures OnlyReigns(h, Extend(h, t, es))
  {
  }

  lemma ExtendRooted(h: History, t: int, es: seq<LogEntry>)
    requires Rooted(h.reigns) && Numbered(h.reigns) && MayExtend(h, t, es)
    ensures Rooted(Extend(h, t, es).reigns) && Numbered(Extend(h, t, es).reigns)
  {
    var r := Extend(h, t, es).reigns;
    forall u, j | u in r && 0 <= j < |ReignLog(r, u)| ensures RootedAt(r, u, j) {
      if j < |h.LeaderLog(u)| {
        assert RootedAt(h.reigns, u, j);
        var w := h.LeaderLog(u)[j].term;
        assert ReignLog(r, u)[..j + 1] == h.LeaderLog(u)[..j + 1];
        assert ReignLog(r, w)[..j + 1] == h.LeaderLog(w)[..j + 1];
      }
    }
  }

  lemma ExtendConsistent(h: History, t: int, es: seq<LogEntry>)
    requires Consistent(h) && MayExtend(h, t, es)
    ensures Consistent(Extend(h, t, es))
  {
    var k := Extend(h, t, es);
    ExtendGrows(h, t, es);
    ExtendRooted(h, t, es);
    SourcesGrow(h, k);
    ExtendRecords(h, t, es);
  }

  lemma ExtendRecords(h: History, t: int, es: seq<LogEntry>)
    requires MayExtend(h, t, es)
    requires AcksBounded(h.terms, h.reigns, h.acks) && Elected(h.members, h.reigns, h.votes)
    requires LateCandidatesFail(h.reigns, h.votes, h.candidacies)
    ensures AcksBounded(h.terms, Extend(h, t, es).reigns, h.acks)
    ensures Elected(h.members, Extend(h, t, es).reigns, h.votes)
    ensures LateCandidatesFail(Extend(h, t, es).reigns, h.votes, h.candidacies)
  {
    var k := Extend(h, t, es);
    forall s, u, v |
      s in k.candidacies && u in k.candidacies[s].seen && s.term <= u && u in k.reigns && v in k.reigns[u].voters
      ensures !Voted(k.votes, v, s.term, s.node)
    {
      assert v in h.reigns[u].voters;
    }
  }

  // Once a later leader exists, nothing an older leader still appends can be chosen.
  lemma ExtendLeadersSafe(h: History, t: int, es: seq<LogEntry>)
    requires Lawful(h) && MayExtend(h, t, es) && Grows(h, Extend(h, t, es))
    ensures LeadersSafe(Extend(h, t, es))
  {
    var k := Extend(h, t, es);
    forall t', u, i | t' in k.reigns && u < t' ensures k.Safe(u, i, k.LeaderLog(t')) {
      if k.Fresh(u, i) && k.Choosable(u, i) {
        ChoosableShrinks(h, k, u, i);
        var v := MajoritiesMeet(h.Potential(u, i), h.reigns[t'].voters, h.members);
        assert Voted(h.votes, v, t', h.reigns[t'].leader);
        assert h.Acked(v, u, i);
        SafeStays(h, k, u, i, h.LeaderLog(t'));
      }
    }
  }

  lemma ExtendLawful(h: History, t: int, es: seq<LogEntry>)
    requires Lawful(h) && MayExtend(h, t, es)
    ensures Lawful(Extend(h, t, es))
  {
    var k := Extend(h, t, es);
    ExtendGrows(h, t, es);
    ExtendConsistent(h, t, es);
    ExtendLeadersSafe(h, t, es);
    ReignsGrow(h, k);
  }

  // ---- A node takes over entries from a leader ----

  function Adopt(h: History, v: NodeId, log: seq<LogEntry>): History {
    h.(logs := h.logs[v := log])
  }

  // The new log is the old one, or a prefix of the leader's that keeps all the two had in common.
  ghost predicate Repairs(old': seq<LogEntry>, leader: seq<LogEntry>, log: seq<LogEntry>) {
    || log == old'
    || (log <= leader
        && forall i :: 0 <= i <= |old'| && i <= |leader| && old'[..i] == leader[..i] ==> i <= |log|)
  }

  ghost predicate MayAdopt(h: History, v: NodeId, t: int, log: seq<LogEntry>) {
    v in h.members && t in h.reigns && h.Term(v) <= t && Repairs(h.Log(v), h.LeaderLog(t), log)
  }

  lemma AdoptGrows(h: History, v: NodeId, log: seq<LogEntry>)
    ensures Grows(h, Adopt(h, v, log)) && Local(h, Adopt(h, v, log), v)
  {
  }

  lemma RepairSourced(h: History, v: NodeId, t: int, log: seq<LogEntry>)
    requires Rooted(h.reigns) && MayAdopt(h, v, t, log) && Sourced(h.reigns, h.Log(v))
    ensures Sourced(h.reigns, log)
  {
    if log != h.Log(v) {
      LeaderLogSourced(h, t);
      PrefixSourced(h, h.LeaderLog(t), |log|);
      assert log == h.LeaderLog(t)[..|log|];
    }
  }

  // What v acknowledged and can still be chosen is common to its old log and the leader's.
  lemma RepairKeeps(h: History, v: NodeId, t: int, log: seq<LogEntry>, u: int, i: int)
    requires LeadersSafe(h) && MayAdopt(h, v, t, log) && u <= t && h.Safe(u, i, h.Log(v))
    ensures h.Safe(u, i, log)
  {
    if log != h.Log(v) && h.Fresh(u, i) && h.Choosable(u, i) {
      var p := h.LeaderLog(u)[..i];
      if u < t {
        assert h.Safe(u, i, h.LeaderLog(t));
      }
      assert h.Log(v)[..i] == p == h.LeaderLog(t)[..i];
      assert log[..i] == p;
    }
  }

  lemma AdoptKeepsAcks(h: History, v: NodeId, t: int, log: seq<LogEntry>)
    requires Lawful(h) && MayAdopt(h, v, t, log) && Grows(h, Adopt(h, v, log))
    ensures AcksKept(Adopt(h, v, log))
  {
    var k := Adopt(h, v, log);
    forall w, u, i | k.Acked(w, u, i) ensures k.Safe(u, i, k.Log(w)) {
      assert h.Acked(w, u, i);
      assert h.Safe(u, i, h.Log(w));
      if w == v {
        RepairKeeps(h, v, t, log, u, i);
      }
      SafeStays(h, k, u, i, k.Log(w));
    }
  }

  lemma AdoptLawful(h: History, v: NodeId, t: int, log: seq<LogEntry>)
    requires Lawful(h) && MayAdopt(h, v, t, log)
    ensures Lawful(Adopt(h, v, log))
  {
    var k := Adopt(h, v, log);
    AdoptGrows(h, v, log);
    assert Sourced(h.reigns, h.Log(v));
    RepairSourced(h, v, t, log);
    AdoptKeepsAcks(h, v, t, log);
    AdoptLogs(h, v, log);
    LeadersStay(h, k);
    VotesStay(h, k);
    CommitsStay(h, k);
  }

  lemma AdoptLogs(h: History, v: NodeId, log: seq<LogEntry>)
    requires v in h.members && LogsSourced(h.members, h.logs, h.reigns) && Sourced(h.reigns, log)
    ensures LogsSourced(h.members, Adopt(h, v, log).logs, h.reigns)
  {
  }

  lemma LeadersStay(h: History, k: History)
    requires LeadersSafe(h) && Grows(h, k) && k.reigns == h.reigns
    ensures LeadersSafe(k)
  {
    forall t, u, i | t in k.reigns && u < t ensures k.Safe(u, i, k.LeaderLog(t)) {
      if i <= |h.LeaderLog(u)| {
        SafeStays(h, k, u, i, h.LeaderLog(t));
      }
    }
  }

  // ---- A node acknowledges a prefix of its term's leader ----

  function Acknowledge(h: History, v: NodeId, e: int): History {
    var s := Slot(v, h.Term(v));
    h.(acks := h.acks[s := if s in h.acks && e <= h.acks[s] then h.acks[s] else e])
  }

  ghost predicate MayAcknowledge(h: History, v: NodeId, e: int) {
    var t := h.Term(v);
    v in h.members && t in h.reigns && 0 <= e <= |h.LeaderLog(t)| && h.LeaderLog(t)[..e] <= h.Log(v)
  }

  lemma AcknowledgeGrows(h: History, v: NodeId, e: int)
    ensures Grows(h, Acknowledge(h, v, e)) && Local(h, Acknowledge(h, v, e), v)
    ensures Acknowledge(h, v, e).Acked(v, h.Term(v), e)
  {
  }

  lemma AcknowledgeVotesSafe(h: History, v: NodeId, e: int)
    requires Lawful(h) && MayAcknowledge(h, v, e) && Grows(h, Acknowledge(h, v, e))
    ensures VotesSafe(Acknowledge(h, v, e))
  {
    var k := Acknowledge(h, v, e);
    forall w, t, u, i | Slot(w, t) in k.votes && u < t && k.Acked(w, u, i)
      ensures k.Safe(u, i, k.CandidateLog(Slot(k.votes[Slot(w, t)], t)))
    {
      assert h.Acked(w, u, i);
      SafeStays(h, k, u, i, h.CandidateLog(Slot(h.votes[Slot(w, t)], t)));
    }
  }

  lemma PrefixSafe(h: History, t: int, i: int, e: int, log: seq<LogEntry>)
    requires i <= e <= |h.LeaderLog(t)| && 0 <= e && h.LeaderLog(t)[..e] <= log
    ensures h.Safe(t, i, log)
  {
    if i > 0 {
      assert h.LeaderLog(t)[..i] == h.LeaderLog(t)[..e][..i] == log[..i];
    }
  }

  lemma AcknowledgeKept(h: History, v: NodeId, e: int)
    requires Lawful(h) && MayAcknowledge(h, v, e) && Grows(h, Acknowledge(h, v, e))
    ensures AcksKept(Acknowledge(h, v, e))
  {
    var k := Acknowledge(h, v, e);
    forall w, t, i | k.Acked(w, t, i) ensures k.Safe(t, i, k.Log(w)) {
      if h.Acked(w, t, i) {
        SafeStays(h, k, t, i, h.Log(w));
      } else {
        PrefixSafe(k, t, i, e, h.Log(w));
      }
    }
  }

  lemma AcknowledgeLawful(h: History, v: NodeId, e: int)
    requires Lawful(h) && MayAcknowledge(h, v, e)
    ensures Lawful(Acknowledge(h, v, e))
  {
    var k := Acknowledge(h, v, e);
    AcknowledgeGrows(h, v, e);
    AcknowledgeBounded(h, v, e);
    AcknowledgeVotesSafe(h, v, e);
    AcknowledgeKept(h, v, e);
    LeadersStay(h, k);
    CommitsStay(h, k);
  }

  lemma AcknowledgeBounded(h: History, v: NodeId, e: int)
    requires TermsKnown(h.members, h.terms) && AcksBounded(h.terms, h.reigns, h.acks) && MayAcknowledge(h, v, e)
    ensures AcksBounded(h.terms, h.reigns, Acknowledge(h, v, e).acks)
  {
  }

  // ---- A leader commits ----

  function Commit(h: History, t: int, i: int): History {
    h.(commits := h.commits[t := i])
  }

  lemma CommitLawful(h: History, t: int, i: int)
    requires Lawful(h) && h.Fresh(t, i) && h.Chosen(t, i) && (t in h.commits ==> h.commits[t] <= i)
    ensures Lawful(Commit(h, t, i)) && Grows(h, Commit(h, t, i)) && Local(h, Commit(h, t, i), h.reigns[t].leader)
  {
    var k := Commit(h, t, i);
    CommitGrows(h, t, i);
    CommitBacked(h, t, i);
    LeadersAndAcksStay(h, k);
    VotesStay(h, k);
  }

  lemma CommitGrows(h: History, t: int, i: int)
    requires t in h.reigns && (t in h.commits ==> h.commits[t] <= i)
    ensures Grows(h, Commit(h, t, i)) && Local(h, Commit(h, t, i), h.reigns[t].leader)
  {
  }

  lemma CommitBacked(h: History, t: int, i: int)
    requires CommitsBacked(h) && h.Fresh(t, i) && h.Chosen(t, i) && Grows(h, Commit(h, t, i))
    ensures CommitsBacked(Commit(h, t, i))
  {
    var k := Commit(h, t, i);
    forall u | u in k.commits ensures k.Fresh(u, k.commits[u]) && k.Chosen(u, k.commits[u]) {
      ChosenStays(h, k, u, k.commits[u]);
    }
  }

  // ---- What the laws give: committed prefixes never contradict each other ----

  // Leader Completeness (section 5.4): a later leader's log begins with all an earlier one committed.
  lemma LeaderCompleteness(h: History, p: seq<LogEntry>, t: int, u: int)
    requires LeadersSafe(h) && CommitsBacked(h) && h.CommittedIn(p, t) && u in h.reigns && t <= u
    ensures p <= h.LeaderLog(u)
  {
    if p != [] && t < u {
      var c := h.commits[t];
      ChosenIsChoosable(h, t, c);
      assert h.Safe(t, c, h.LeaderLog(u));
      PrefixOfPrefix(p, h.LeaderLog(t), h.LeaderLog(u), c);
    }
  }

  // A later leader's log has held all along what an earlier term commits, also where k, the
  // history of the commit, came after h: in h its electorate had left the earlier term, so the
  // acknowledgement of the voter who helped to commit was already there.
  lemma CompletenessBefore(h: History, k: History, p: seq<LogEntry>, t: int, u: int)
    requires Consistent(h) && LeadersSafe(h) && CommitsBacked(k) && Grows(h, k)
    requires k.CommittedIn(p, t) && u in h.reigns && t < u
    ensures p <= h.LeaderLog(u)
  {
    if p != [] {
      var c := k.commits[t];
      ChosenIsChoosable(k, t, c);
      ChoosableShrinks(h, k, t, c);
      var v := MajoritiesMeet(k.Supporters(t, c), h.reigns[u].voters, h.members);
      AckedBefore(h, k, v, t, c, u);
      assert h.Fresh(t, c) && h.Safe(t, c, h.LeaderLog(u));
      PrefixOfPrefix(p, h.LeaderLog(t), h.LeaderLog(u), c);
    }
  }

  // Who has voted in term u no longer acknowledges anything in an earlier one.
  lemma AckedBefore(h: History, k: History, v: NodeId, t: int, c: int, u: int)
    requires Consistent(h) && Grows(h, k) && k.Fresh(t, c) && k.Acked(v, t, c)
    requires u in h.reigns && v in h.reigns[u].voters && t < u
    ensures h.Acked(v, t, c) && h.LeaderLog(t) <= k.LeaderLog(t) && 0 < c <= |h.LeaderLog(t)|
  {
    hide Rooted, Numbered, LateCandidatesFail, LogsSourced, CandidaciesSourced;
    assert Voted(h.votes, v, u, h.reigns[u].leader);
    assert Slot(v, u) in h.votes && Slot(v, t) in k.acks;
  }

  lemma PrefixOfPrefix(p: seq<LogEntry>, a: seq<LogEntry>, b: seq<LogEntry>, c: int)
    requires p <= a && |p| <= c <= |a| && a[..c] <= b
    ensures p <= b
  {
    assert p == a[..c][..|p|] == b[..|p|];
  }

  lemma CommittedAgree(h: History, p: seq<LogEntry>, t: int, q: seq<LogEntry>, u: int)
    requires LeadersSafe(h) && CommitsBacked(h) && h.CommittedIn(p, t) && h.CommittedIn(q, u)
    ensures p <= q || q <= p
  {
    if p != [] && q != [] {
      var w := if t <= u then u else t;
      LeaderCompleteness(h, p, t, w);
      LeaderCompleteness(h, q, u, w);
      assert p == h.LeaderLog(w)[..|p|] && q == h.LeaderLog(w)[..|q|];
    }
  }

  // A committed prefix never lies shorter than an entry of a later term: terms tell the length.
  lemma CommittedStays(h: History, k: History, p: seq<LogEntry>, t: int)
    requires Grows(h, k) && h.CommittedIn(p, t)
    ensures k.CommittedIn(p, t)
  {
  }
}

// The history of a run: what every node's log would be had nothing ever been compacted,
// the log of each term's leader, the votes and candidacies, and what each node has
// acknowledged in each term. None of it exists in the program. The cluster proof builds
// it step by step; the laws in `Lawful` are the safety argument of Raft, section 5.4.3.

module History {
  import opened Prelude
  import opened Types

  // A node in a term.
  datatype Slot = Slot(node: NodeId, term: int)

  // The leader a term elected, the majority that elected it, and the leader's log so far.
  datatype Reign = Reign(leader: NodeId, voters: set<NodeId>, log: seq<LogEntry>)

  // The log a node stood for election with, and the terms that had a leader by then.
  datatype Candidacy = Candidacy(log: seq<LogEntry>, seen: set<int>)

  type Reigns = map<int, Reign>

  function ReignLog(r: Reigns, t: int): seq<LogEntry> { if t in r then r[t].log else [] }

  // The log is a prefix of the log of the leader that created its last entry.
  predicate Sourced(r: Reigns, log: seq<LogEntry>) {
    log == [] || (log[|log| - 1].term in r && log <= ReignLog(r, log[|log| - 1].term))
  }

  datatype History = History(
    members: set<NodeId>,
    terms: map<NodeId, int>,
    logs: map<NodeId, seq<LogEntry>>,
    reigns: Reigns,
    votes: map<Slot, NodeId>,
    candidacies: map<Slot, Candidacy>,
    acks: map<Slot, int>,
    commits: map<int, int>)
  {
    function Term(n: NodeId): int { if n in terms then terms[n] else 0 }

    function Log(n: NodeId): seq<LogEntry> { if n in logs then logs[n] else [] }

    function LeaderLog(t: int): seq<LogEntry> { ReignLog(reigns, t) }

    function CandidateLog(s: Slot): seq<LogEntry> {
      if s in candidacies then candidacies[s].log else []
    }

    // In term t, node v reported a log that begins with the first i entries of t's leader.
    predicate Acked(v: NodeId, t: int, i: int) {
      Slot(v, t) in acks && i <= acks[Slot(v, t)]
    }

    // Position i of term t's leader log holds an entry that leader itself created.
    predicate Fresh(t: int, i: int) {
      0 < i <= |LeaderLog(t)| && LeaderLog(t)[i - 1].term == t
    }

    function Supporters(t: int, i: int): set<NodeId> {
      set v | v in members && Acked(v, t, i)
    }

    // Those who acknowledged, and those who still might.
    function Potential(t: int, i: int): set<NodeId> {
      set v | v in members && (Acked(v, t, i) || Term(v) <= t)
    }

    predicate Chosen(t: int, i: int) { Majority(Supporters(t, i), members) }

    predicate Choosable(t: int, i: int) { Majority(Potential(t, i), members) }

    // If position i of term t can still be chosen, the log begins with that prefix.
    predicate Safe(t: int, i: int, log: seq<LogEntry>) {
      Fresh(t, i) && Choosable(t, i) ==> LeaderLog(t)[..i] <= log
    }

    // p is a prefix of what the leader of term t has committed.
    predicate CommittedIn(p: seq<LogEntry>, t: int) {
      p == [] || (t in commits && |p| <= commits[t] && p <= LeaderLog(t))
    }
  }

  // Index k of a full log sits at position k - 1, terms are not negative, every command can be applied.
  predicate WellNumbered(log: seq<LogEntry>) {
    forall k :: 0 <= k < |log| ==> log[k].index == k + 1 && 0 <= log[k].term && Applicable(log[k].command)
  }

  function LastTerm(log: seq<LogEntry>): int {
    if log == [] then 0 else log[|log| - 1].term
  }

  // ---- The laws. Each names only the parts of the history it depends on. ----

  ghost predicate TermsKnown(members: set<NodeId>, terms: map<NodeId, int>) {
    terms.Keys == members && (forall n :: n in members ==> 0 <= terms[n])
  }

  ghost predicate VotesCast(terms: map<NodeId, int>, votes: map<Slot, NodeId>) {
    forall s :: s in votes ==> s.node in terms && s.term <= terms[s.node]
  }

  ghost predicate CandidaciesDeclared(terms: map<NodeId, int>, candidacies: map<Slot, Candidacy>) {
    forall s :: s in candidacies ==> s.node in terms && s.term <= terms[s.node]
  }

  ghost predicate AcksBounded(terms: map<NodeId, int>, r: Reigns, acks: map<Slot, int>) {
    forall s :: s in acks ==>
      s.node in terms && s.term <= terms[s.node] && s.term in r && 0 <= acks[s] <= |ReignLog(r, s.term)|
  }

  // An entry of term u in any leader's log stands where u's own leader put it.
  ghost predicate Rooted(r: Reigns) {
    forall t, j :: t in r && 0 <= j < |ReignLog(r, t)| ==> RootedAt(r, t, j)
  }

  predicate RootedAt(r: Reigns, t: int, j: int)
    requires 0 <= j < |ReignLog(r, t)|
  {
    var u := ReignLog(r, t)[j].term;
    0 < u <= t && u in r && j < |ReignLog(r, u)| && ReignLog(r, t)[..j + 1] == ReignLog(r, u)[..j + 1]
  }

  ghost predicate Numbered(r: Reigns) {
    forall t :: t in r ==> 0 < t && WellNumbered(ReignLog(r, t))
  }

  ghost predicate LogsSourced(members: set<NodeId>, logs: map<NodeId, seq<LogEntry>>, r: Reigns) {
    logs.Keys == members && (forall n :: n in logs ==> Sourced(r, logs[n]))
  }

  ghost predicate CandidaciesSourced(candidacies: map<Slot, Candidacy>, r: Reigns) {
    forall s :: s in candidacies ==>
      && Sourced(r, candidacies[s].log)
      && candidacies[s].seen <= r.Keys
      && LastTerm(candidacies[s].log) in candidacies[s].seen + {0}
  }

  predicate Voted(votes: map<Slot, NodeId>, v: NodeId, t: int, c: NodeId) {
    Slot(v, t) in votes && votes[Slot(v, t)] == c
  }

  ghost predicate Elected(members: set<NodeId>, r: Reigns, votes: map<Slot, NodeId>) {
    forall t :: t in r ==>
      && Majority(r[t].voters, members)
      && (forall v :: v in r[t].voters ==> Voted(votes, v, t, r[t].leader))
  }

  ghost predicate VotesForCandidates(votes: map<Slot, NodeId>, candidacies: map<Slot, Candidacy>) {
    forall s :: s in votes ==> Slot(votes[s], s.term) in candidacies
  }

  // Nobody who elected the leader of a term u votes for a candidate that already knew of u
  // and still stands for a term no later than u.
  ghost predicate LateCandidatesFail(r: Reigns, votes: map<Slot, NodeId>, candidacies: map<Slot, Candidacy>) {
    forall s, u, v ::
      s in candidacies && u in candidacies[s].seen && s.term <= u && u in r && v in r[u].voters ==>
        !Voted(votes, v, s.term, s.node)
  }

  // The up-to-date check at work: a candidate holds what its voters acknowledged.
  ghost predicate VotesSafe(h: History) {
    forall v, t, u, i :: Slot(v, t) in h.votes && u < t && h.Acked(v, u, i) ==>
      h.Safe(u, i, h.CandidateLog(Slot(h.votes[Slot(v, t)], t)))
  }

  ghost predicate LeadersSafe(h: History) {
    forall t, u, i :: t in h.reigns && u < t ==> h.Safe(u, i, h.LeaderLog(t))
  }

  // A node keeps what it acknowledged for as long as it can matter.
  ghost predicate AcksKept(h: History) {
    forall v, t, i :: h.Acked(v, t, i) ==> h.Safe(t, i, h.Log(v))
  }

  ghost predicate CommitsBacked(h: History) {
    forall t :: t in h.commits ==> h.Fresh(t, h.commits[t]) && h.Chosen(t, h.commits[t])
  }

  // What holds of the records alone, whoever is right.
  ghost predicate Consistent(h: History) {
    && TermsKnown(h.members, h.terms)
    && VotesCast(h.terms, h.votes)
    && CandidaciesDeclared(h.terms, h.candidacies)
    && AcksBounded(h.terms, h.reigns, h.acks)
    && Rooted(h.reigns)
    && Numbered(h.reigns)
    && LogsSourced(h.members, h.logs, h.reigns)
    && CandidaciesSourced(h.candidacies, h.reigns)
    && Elected(h.members, h.reigns, h.votes)
    && VotesForCandidates(h.votes, h.candidacies)
    && LateCandidatesFail(h.reigns, h.votes, h.candidacies)
  }

  ghost predicate Lawful(h: History) {
    Consistent(h) && VotesSafe(h) && LeadersSafe(h) && AcksKept(h) && CommitsBacked(h)
  }
}

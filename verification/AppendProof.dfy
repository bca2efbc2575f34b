// handle_append_entries keeps the invariant, never raises on a truthful request, and
// never touches a committed entry.

module AppendProof {
  import opened Prelude
  import opened Types
  import opened History
  import opened HistorySteps
  import opened RaftLogs
  import opened RaftStates
  import opened StateMachines
  import opened Replications
  import opened Journals
  import opened Nodes
  import opened Agreement
  import opened ElectionProof
  import opened RecoveryProof

  // ---- Logs ----

  lemma SourcedMatching(h: History, a: seq<LogEntry>, b: seq<LogEntry>)
    requires Rooted(h.reigns) && Sourced(h.reigns, a) && Sourced(h.reigns, b)
    ensures Matching(a, b)
  {
    forall i | 0 <= i < |a| && i < |b| && a[i].term == b[i].term ensures a[..i + 1] == b[..i + 1] {
      LogMatching(h, a, b, i + 1);
    }
  }

  // The consistency check (section 5.3): same term at prev means same log up to prev.
  lemma PrevMatches(h: History, full: seq<LogEntry>, t: int, prev: int)
    requires Rooted(h.reigns) && Sourced(h.reigns, full) && t in h.reigns
    requires 0 <= prev <= |full| && prev <= |h.LeaderLog(t)| && TermOf(full, prev) == TermOf(h.LeaderLog(t), prev)
    ensures full[..prev] == h.LeaderLog(t)[..prev]
  {
    if prev > 0 {
      LeaderLogSourced(h, t);
      LogMatching(h, full, h.LeaderLog(t), prev);
    }
  }

  lemma SharedPrefix(a: seq<LogEntry>, b: seq<LogEntry>, i: int, e: int)
    requires 0 <= e <= i <= |a| && i <= |b| && a[..i] == b[..i]
    ensures b[..e] <= a
  {
    assert a[..e] == a[..i][..e] == b[..i][..e] == b[..e];
  }

  // What the merge makes of a log repairs it towards the leader's.
  lemma MergeRepairs(full: seq<LogEntry>, leader: seq<LogEntry>, e: int)
    requires 0 <= e <= |leader|
    ensures Repairs(full, leader, Merge(full, leader[..e]))
    ensures leader[..e] <= Merge(full, leader[..e])
  {
    var p := leader[..e];
    if !(p <= full) {
      forall i | 0 <= i <= |full| && i <= |leader| && full[..i] == leader[..i] ensures i <= e {
        if e < i {
          SharedPrefix(full, leader, i, e);
        }
      }
    }
  }

  // No truncation reaches the commit index (section 5.4.3).
  lemma CommittedKept(h: History, id: NodeId, commit: int, base: int, t: int, log: seq<LogEntry>)
    requires LeadersSafe(h) && CommitsBacked(h) && Certified(h, id, commit, base, Follower)
    requires t in h.reigns && h.Term(id) <= t && Repairs(h.Log(id), h.LeaderLog(t), log)
    requires commit == base ==> base <= |h.LeaderLog(t)| && h.Log(id)[..base] == h.LeaderLog(t)[..base]
    ensures commit <= |log| && log[..commit] == h.Log(id)[..commit]
  {
    var u :| CertifiedBy(h, id, commit, base, Follower, u);
    var p := h.Log(id)[..commit];
    if commit != base {
      LeaderCompleteness(h, p, u, t);
    }
    assert p == h.LeaderLog(t)[..commit];
    if log != h.Log(id) {
      assert log[..commit] == h.LeaderLog(t)[..commit];
    }
  }

  lemma LeaderPrefixReads(h: History, t: int, e: int)
    requires Rooted(h.reigns) && Numbered(h.reigns) && t in h.reigns && 0 <= e <= |h.LeaderLog(t)|
    ensures WellNumbered(h.LeaderLog(t)[..e]) && Sourced(h.reigns, h.LeaderLog(t)[..e])
  {
    LeaderLogSourced(h, t);
    PrefixSourced(h, h.LeaderLog(t), e);
    LogsNumbered(h, h.LeaderLog(t)[..e]);
  }

  lemma NodeLogReads(h: History, id: NodeId)
    requires LogsSourced(h.members, h.logs, h.reigns) && Numbered(h.reigns) && id in h.members
    ensures WellNumbered(h.Log(id)) && Sourced(h.reigns, h.Log(id))
  {
    assert Sourced(h.reigns, h.logs[id]);
    LogsNumbered(h, h.Log(id));
  }

  // The prefix a request speaks of, and the log it is merged into.
  lemma RequestReads(h: History, id: NodeId, req: AppendRequest)
    requires Rooted(h.reigns) && Numbered(h.reigns) && LogsSourced(h.members, h.logs, h.reigns)
    requires id in h.members && AppendTruthful(h, req)
    ensures var p := h.LeaderLog(req.term)[..req.prevLogIndex + |req.entries|];
      WellNumbered(h.Log(id)) && WellNumbered(p) && Sourced(h.reigns, h.Log(id)) && Matching(h.Log(id), p)
  {
    var e := req.prevLogIndex + |req.entries|;
    LeaderPrefixReads(h, req.term, e);
    NodeLogReads(h, id);
    hide Numbered, LogsSourced, WellNumbered, Matching;
    SourcedMatching(h, h.Log(id), h.LeaderLog(req.term)[..e]);
  }

  // The merge loop on a truthful request.
  lemma MergesTruthful(h: History, id: NodeId, log: LogView, req: AppendRequest)
    requires Consistent(h) && id in h.members && Represents(log, h.Log(id)) && log.WellFormed()
    requires AppendTruthful(h, req)
    requires req.prevLogIndex <= log.LastIndex() && log.TermAt(req.prevLogIndex) == Some(req.prevLogTerm)
    ensures var e := req.prevLogIndex + |req.entries|;
      && log.baseIndex <= req.prevLogIndex <= |h.Log(id)|
      && h.Log(id)[..req.prevLogIndex] == h.LeaderLog(req.term)[..req.prevLogIndex]
      && MergeEntries(log, req.entries).Some?
      && Represents(MergeEntries(log, req.entries).value, Merge(h.Log(id), h.LeaderLog(req.term)[..e]))
  {
    RequestReads(h, id, req);
    MergesMatched(h, h.Log(id), log, req);
  }

  lemma MergesMatched(h: History, full: seq<LogEntry>, log: LogView, req: AppendRequest)
    requires Rooted(h.reigns) && AppendTruthful(h, req) && Sourced(h.reigns, full)
    requires WellNumbered(full) && Represents(log, full) && log.WellFormed()
    requires var p := h.LeaderLog(req.term)[..req.prevLogIndex + |req.entries|];
      WellNumbered(p) && Matching(full, p)
    requires req.prevLogIndex <= log.LastIndex() && log.TermAt(req.prevLogIndex) == Some(req.prevLogTerm)
    ensures var e := req.prevLogIndex + |req.entries|;
      && log.baseIndex <= req.prevLogIndex <= |full|
      && full[..req.prevLogIndex] == h.LeaderLog(req.term)[..req.prevLogIndex]
      && MergeEntries(log, req.entries).Some?
      && Represents(MergeEntries(log, req.entries).value, Merge(full, h.LeaderLog(req.term)[..e]))
  {
    hide Rooted, Sourced, WellNumbered, Matching, Represents, Merge, MergeEntries;
    var p := h.LeaderLog(req.term)[..req.prevLogIndex + |req.entries|];
    PrevHeldMatches(h, full, log, req);
    MergesRepresented(log, full, p, req.prevLogIndex);
  }

  lemma PrevHeldMatches(h: History, full: seq<LogEntry>, log: LogView, req: AppendRequest)
    requires Rooted(h.reigns) && AppendTruthful(h, req) && Sourced(h.reigns, full)
    requires WellNumbered(full) && Represents(log, full) && log.WellFormed()
    requires req.prevLogIndex <= log.LastIndex() && log.TermAt(req.prevLogIndex) == Some(req.prevLogTerm)
    ensures log.baseIndex <= req.prevLogIndex <= |full|
    ensures full[..req.prevLogIndex] == h.LeaderLog(req.term)[..req.prevLogIndex]
    ensures var p := h.LeaderLog(req.term)[..req.prevLogIndex + |req.entries|];
      p[req.prevLogIndex..] == req.entries && full[..req.prevLogIndex] == p[..req.prevLogIndex]
  {
    hide Rooted, Sourced, WellNumbered;
    RepresentedAt(log, full, req.prevLogIndex);
    PrevMatches(h, full, req.term, req.prevLogIndex);
  }

  // ---- Data ----

  // The node's data after its log was repaired and its commit index moved on.
  lemma DataMovesOn(full: seq<LogEntry>, n: NodeView, log: LogView, next: seq<LogEntry>, commit: int)
    requires DataFaithful(full, n.log, n.snapshot, n.store, n.state.commitIndex)
    requires n.state.lastApplied == n.state.commitIndex && n.log.baseIndex <= n.state.commitIndex <= commit <= |next|
    requires WellNumbered(next) && Represents(log, next) && log.WellFormed()
    requires log.baseIndex == n.log.baseIndex
    requires next[..n.state.commitIndex] == full[..n.state.commitIndex]
    ensures ApplyCommitted(n.state.(commitIndex := commit), log, n.store)
         == Some(Applied(n.state.(commitIndex := commit, lastApplied := commit), Fold(map[], next[..commit])))
    ensures DataFaithful(next, log, n.snapshot, Fold(map[], next[..commit]), commit)
  {
    AppliesFold(n.state.(commitIndex := commit), log, n.store, next);
    BoundaryUnmoved(n.snapshot, full, next, n.state.commitIndex);
  }

  // ---- The follower ----

  // The simple commit rule: the request's commit index never exceeds what the request itself
  // verified, so the minimum with the last index is the commit index it names.
  function CommitAfter(n: NodeView, leaderCommit: int): int {
    if leaderCommit <= n.state.commitIndex then n.state.commitIndex else leaderCommit
  }

  lemma NewlyCertified(h: History, k: History, id: NodeId, n: NodeView, t: int, leaderCommit: int, e: int)
    requires Certified(h, id, n.state.commitIndex, n.log.baseIndex, Follower)
    requires Grows(h, k) && k.reigns == h.reigns && k.Term(id) == t == h.Term(id) && CommittedBy(h, t, leaderCommit)
    requires leaderCommit <= e <= |h.LeaderLog(t)| && h.LeaderLog(t)[..e] <= k.Log(id)
    requires n.state.commitIndex <= |k.Log(id)| && k.Log(id)[..n.state.commitIndex] == h.Log(id)[..n.state.commitIndex]
    ensures Certified(k, id, CommitAfter(n, leaderCommit), n.log.baseIndex, Follower)
  {
    var u :| CertifiedBy(h, id, n.state.commitIndex, n.log.baseIndex, Follower, u);
    if leaderCommit <= n.state.commitIndex {
      assert CertifiedBy(k, id, n.state.commitIndex, n.log.baseIndex, Follower, u);
    } else {
      var w :| w <= t && h.CommittedIn(h.LeaderLog(t)[..leaderCommit], w);
      assert k.Log(id)[..leaderCommit] == h.LeaderLog(t)[..e][..leaderCommit] == h.LeaderLog(t)[..leaderCommit];
      assert CertifiedBy(k, id, leaderCommit, n.log.baseIndex, Follower, w);
    }
  }

  // The history of an accepted request: the log is repaired, then acknowledged.
  function AcceptedHistory(h: History, id: NodeId, e: int, next: seq<LogEntry>): History {
    Acknowledge(Adopt(h, id, next), id, e)
  }

  lemma AcceptedContinues(h: History, id: NodeId, e: int, next: seq<LogEntry>)
    requires Lawful(h) && MayAdopt(h, id, h.Term(id), next)
    requires 0 <= e <= |h.LeaderLog(h.Term(id))| && h.LeaderLog(h.Term(id))[..e] <= next
    ensures Continues(h, AcceptedHistory(h, id, e, next), id)
    ensures AcceptedHistory(h, id, e, next).Acked(id, h.Term(id), e)
  {
    var k := Adopt(h, id, next);
    AdoptGrows(h, id, next);
    AdoptLawful(h, id, h.Term(id), next);
    AcknowledgeGrows(k, id, e);
    AcknowledgeLawful(k, id, e);
    hide Lawful, Grows, Local, Repairs;
    ContinuesTransitively(h, k, AcceptedHistory(h, id, e, next), id);
  }

  // What a follower that moved on looks like.
  function MovedOn(n: NodeView, log: LogView, commit: int, store: Store): NodeView {
    n.(log := log, store := store, state := n.state.(commitIndex := commit, lastApplied := commit))
  }

  lemma FollowerCommits(n: NodeView, log: LogView, full: seq<LogEntry>, next: seq<LogEntry>, leaderCommit: int)
    requires DataFaithful(full, n.log, n.snapshot, n.store, n.state.commitIndex)
    requires n.state.lastApplied == n.state.commitIndex && n.log.baseIndex <= n.state.commitIndex <= |next|
    requires leaderCommit <= |next|
    requires WellNumbered(next) && Represents(log, next) && log.WellFormed() && log.baseIndex == n.log.baseIndex
    requires next[..n.state.commitIndex] == full[..n.state.commitIndex]
    ensures var c := CommitAfter(n, leaderCommit);
      var m := MovedOn(n, log, c, Fold(map[], next[..c]));
      && FollowerCommit(n.state, log, n.store, leaderCommit) == Some(Applied(m.state, m.store))
      && DataFaithful(next, log, n.snapshot, m.store, c)
  {
    RepresentedReads(log, next);
    DataMovesOn(full, n, log, next, CommitAfter(n, leaderCommit));
  }

  // m is what accepting the request makes of n.
  predicate Accepting(n: NodeView, req: AppendRequest, m: NodeView)
    requires n.log.WellFormed()
  {
    match MergeEntries(n.log, req.entries)
    case None => false
    case Some(log) =>
      && m == MovedOn(n, log, CommitAfter(n, req.leaderCommit), m.store)
      && FollowerCommit(n.state, log, n.store, req.leaderCommit) == Some(Applied(m.state, m.store))
  }

  predicate PrevHeld(n: NodeView, req: AppendRequest)
    requires n.log.WellFormed()
  {
    req.prevLogIndex <= n.log.LastIndex() && n.log.TermAt(req.prevLogIndex) == Some(req.prevLogTerm)
  }

  // Following the request's leader, with the previous entry in place.
  ghost predicate MayAccept(h: History, n: NodeView, id: NodeId, req: AppendRequest) {
    && n.log.WellFormed() && ImageFaithful(h, n, id)
    && n.state.role == Follower && n.state.currentTerm == req.term
    && AppendTruthful(h, req) && PrevHeld(n, req)
  }

  lemma AcceptedKeepsCommits(h: History, n: NodeView, id: NodeId, req: AppendRequest, next: seq<LogEntry>)
    requires LeadersSafe(h) && CommitsBacked(h) && MayAccept(h, n, id, req)
    requires req.prevLogIndex <= |h.Log(id)| && n.log.baseIndex <= req.prevLogIndex
    requires h.Log(id)[..req.prevLogIndex] == h.LeaderLog(req.term)[..req.prevLogIndex]
    requires Repairs(h.Log(id), h.LeaderLog(req.term), next)
    ensures n.log.baseIndex <= n.state.commitIndex <= |next|
    ensures next[..n.state.commitIndex] == h.Log(id)[..n.state.commitIndex]
  {
    var base := n.log.baseIndex;
    var full, leader := h.Log(id), h.LeaderLog(req.term);
    assert full[..base] == full[..req.prevLogIndex][..base] == leader[..base];
    hide Repairs;
    CommittedKept(h, id, n.state.commitIndex, base, req.term, next);
  }

  lemma MergedNumbered(full: seq<LogEntry>, p: seq<LogEntry>)
    requires WellNumbered(full) && WellNumbered(p)
    ensures WellNumbered(Merge(full, p)) && |p| <= |Merge(full, p)|
  {
  }

  // The new log, and what the merge keeps of the old one.
  lemma MergedLog(h: History, n: NodeView, id: NodeId, req: AppendRequest, next: seq<LogEntry>) returns (log: LogView)
    requires Consistent(h) && LeadersSafe(h) && CommitsBacked(h) && MayAccept(h, n, id, req)
    requires next == Merge(h.Log(id), h.LeaderLog(req.term)[..req.prevLogIndex + |req.entries|])
    ensures MergeEntries(n.log, req.entries) == Some(log)
    ensures WellNumbered(next) && Represents(log, next) && log.WellFormed() && log.baseIndex == n.log.baseIndex
    ensures req.prevLogIndex + |req.entries| <= |next| && n.log.baseIndex <= n.state.commitIndex <= |next|
    ensures next[..n.state.commitIndex] == h.Log(id)[..n.state.commitIndex]
  {
    hide LeadersSafe, CommitsBacked, Rooted, Numbered, Sourced, Elected, LateCandidatesFail, Fold;
    var e := req.prevLogIndex + |req.entries|;
    MergesTruthful(h, id, n.log, req);
    log := MergeEntries(n.log, req.entries).value;
    MergeRepairs(h.Log(id), h.LeaderLog(req.term), e);
    AcceptedKeepsCommits(h, n, id, req, next);
    RequestReads(h, id, req);
    MergedNumbered(h.Log(id), h.LeaderLog(req.term)[..e]);
  }

  lemma AcceptedData(h: History, n: NodeView, id: NodeId, req: AppendRequest, next: seq<LogEntry>, log: LogView)
    returns (m: NodeView)
    requires MayAccept(h, n, id, req)
    requires MergeEntries(n.log, req.entries) == Some(log)
    requires WellNumbered(next) && Represents(log, next) && log.WellFormed() && log.baseIndex == n.log.baseIndex
    requires req.prevLogIndex + |req.entries| <= |next| && n.log.baseIndex <= n.state.commitIndex <= |next|
    requires next[..n.state.commitIndex] == h.Log(id)[..n.state.commitIndex]
    ensures m == MovedOn(n, log, CommitAfter(n, req.leaderCommit), m.store) && Accepting(n, req, m)
    ensures DataFaithful(next, m.log, m.snapshot, m.store, m.state.commitIndex)
  {
    hide WellNumbered, Represents, MergeEntries, FollowerCommit, DataFaithful, Fold;
    var c := CommitAfter(n, req.leaderCommit);
    FollowerCommits(n, log, h.Log(id), next, req.leaderCommit);
    m := MovedOn(n, log, c, Fold(map[], next[..c]));
  }

  // A follower of the request's term takes the request's entries and commit index over.
  lemma Accepts(h: History, n: NodeView, id: NodeId, req: AppendRequest) returns (k: History, m: NodeView)
    requires Lawful(h) && MayAccept(h, n, id, req) && CommittedBy(h, req.term, req.leaderCommit)
    ensures Continues(h, k, id) && k.Acked(id, req.term, req.prevLogIndex + |req.entries|)
    ensures Accepting(n, req, m) && ImageFaithful(k, m, id)
  {
    hide Consistent, VotesSafe, LeadersSafe, AcksKept, CommitsBacked, Repairs, WellNumbered, Represents, DataFaithful;
    hide MergeEntries, Merge, Certified, Grows, Local;
    var e := req.prevLogIndex + |req.entries|;
    var next := Merge(h.Log(id), h.LeaderLog(req.term)[..e]);
    k := AcceptedHistory(h, id, e, next);
    MergeRepairs(h.Log(id), h.LeaderLog(req.term), e);
    AcceptedContinues(h, id, e, next);
    var log := MergedLog(h, n, id, req, next);
    m := AcceptedData(h, n, id, req, next, log);
    AcceptedImage(h, k, n, id, req, m);
  }

  lemma AcceptedImage(h: History, k: History, n: NodeView, id: NodeId, req: AppendRequest, m: NodeView)
    requires MayAccept(h, n, id, req) && CommittedBy(h, req.term, req.leaderCommit) && Grows(h, k)
    requires k.reigns == h.reigns && k.terms == h.terms && k.votes == h.votes
    requires h.LeaderLog(req.term)[..req.prevLogIndex + |req.entries|] <= k.Log(id)
    requires n.state.commitIndex <= |k.Log(id)| && k.Log(id)[..n.state.commitIndex] == h.Log(id)[..n.state.commitIndex]
    requires m == MovedOn(n, m.log, CommitAfter(n, req.leaderCommit), m.store) && m.log.baseIndex == n.log.baseIndex
    requires DataFaithful(k.Log(id), m.log, m.snapshot, m.store, m.state.commitIndex)
    ensures ImageFaithful(k, m, id)
  {
    NewlyCertified(h, k, id, n, req.term, req.leaderCommit, req.prevLogIndex + |req.entries|);
  }

  // ---- handle_append_entries ----

  function Following(n: NodeView, term: int, leader: NodeId): NodeView {
    n.(state := n.state.BecomeFollower(term, Some(leader)))
  }

  function SaveIfChanged(a: StateView, b: StateView): seq<Write> {
    if DurableStateChanged(a, b) then [SaveStateOf(b)] else []
  }

  lemma NoChanges(entries: seq<LogEntry>)
    ensures WriteRecords(Changes(entries, entries)) == []
  {
  }

  // The three outcomes of handle_append_entries.
  lemma AppendRefused(n: NodeView, req: AppendRequest)
    requires n.Sound()
    requires req.term < n.state.currentTerm || !PrevHeld(n, req)
    ensures var m := if req.term < n.state.currentTerm then n else Following(n, req.term, req.leader);
      ReceiveAppend(n, req)
      == Some(Effect(Dropped(m), SaveIfChanged(n.state, m.state), ReplicationReply(m.state.currentTerm, false)))
  {
    NoChanges(n.log.entries);
    var m := if req.term < n.state.currentTerm then n else Following(n, req.term, req.leader);
    assert [] + SaveIfChanged(n.state, m.state) == SaveIfChanged(n.state, m.state);
  }

  lemma AppendAccepted(n: NodeView, req: AppendRequest, m: NodeView)
    requires n.Sound() && n.state.currentTerm <= req.term && PrevHeld(n, req)
    requires Accepting(Following(n, req.term, req.leader), req, m)
    ensures ReceiveAppend(n, req)
         == Some(Effect(m.(replication := None),
              WriteRecords(Changes(n.log.entries, m.log.entries)) + SaveIfChanged(n.state, m.state),
              ReplicationReply(req.term, true)))
  {
  }

  lemma AppendKeeps(h: History, n: NodeView, id: NodeId, req: AppendRequest) returns (k: History)
    requires Lawful(h) && n.Sound() && NodeFaithful(h, n, id)
    requires AppendTruthful(h, req) && CommittedBy(h, req.term, req.leaderCommit)
    ensures Continues(h, k, id) && ReceiveAppend(n, req).Some? && NodeFaithful(k, ReceiveAppend(n, req).value.node, id)
    ensures ReceiveAppend(n, req).value.reply.success ==> k.Acked(id, req.term, req.prevLogIndex + |req.entries|)
  {
    if req.term < n.state.currentTerm {
      AppendRefused(n, req);
      k := h;
      ContinuesItself(h, id);
      DropsReplication(h, n, id);
    } else {
      k := Follows(h, n, id, req.term, req.leader);
      var f := Following(n, req.term, req.leader);
      if !PrevHeld(n, req) {
        AppendRefused(n, req);
        LostReplication(k, f, id);
      } else {
        AppendStays(h, k, req);
        CommittedByStays(h, k, req.term, req.leaderCommit);
        var l, m := Accepts(k, f, id, req);
        AppendAccepted(n, req, m);
        ContinuesTransitively(h, k, l, id);
        LostReplication(l, m, id);
        k := l;
      }
    }
  }

  // The follower's simple commit rule is sound. On success the commit index is the greater of
  // its old value and the leader's, and so never past what this request verified unless it was
  // there before; the request's entries are in the log; and no truncation reached the old
  // commit index. A refusal leaves log and commit index alone.
  ghost predicate RuleKept(n: NodeView, req: AppendRequest, m: NodeView, success: bool) {
    && n.log.WellFormed() && m.log.WellFormed()
    && (!success ==> m.log == n.log && m.state.commitIndex == n.state.commitIndex)
    && (success ==>
          && m.state.commitIndex == Max(n.state.commitIndex, req.leaderCommit)
          && req.leaderCommit <= req.prevLogIndex + |req.entries| <= m.log.LastIndex()
          && (forall i :: 0 <= i < |req.entries| && m.log.baseIndex <= req.prevLogIndex + i ==>
                m.log.Get(req.prevLogIndex + 1 + i) == Some(req.entries[i])))
    && (forall i :: i <= n.state.commitIndex ==> m.log.Get(i) == n.log.Get(i))
  }

  lemma FollowerRule(h: History, n: NodeView, id: NodeId, req: AppendRequest)
    requires Lawful(h) && n.Sound() && NodeFaithful(h, n, id)
    requires AppendTruthful(h, req)
    ensures ReceiveAppend(n, req).Some?
    ensures RuleKept(n, req, ReceiveAppend(n, req).value.node, ReceiveAppend(n, req).value.reply.success)
  {
    hide Lawful, CommittedBy, AppendTruthful, ReceiveAppend, Merge, MergeEntries, RuleKept, ImageFaithful,
          DurableStateChanged;
    if req.term < n.state.currentTerm || !PrevHeld(n, req) {
      AppendRefused(n, req);
      RefusalKeeps(n, req, ReceiveAppend(n, req).value.node);
    } else {
      var f := Following(n, req.term, req.leader);
      AppendNamesLeader(h, req);
      var k := Follows(h, n, id, req.term, req.leader);
      AppendStays(h, k, req) by {
        assert Grows(h, k);
      }
      var m := FollowerRuleAt(k, f, id, req);
      AppendAccepted(n, req, m);
      RuleCarries(f, n, req, m);
    }
  }

  lemma AppendNamesLeader(h: History, req: AppendRequest)
    requires AppendTruthful(h, req)
    ensures LeaderKnown(h, req.term, Some(req.leader))
  {
  }

  lemma RefusalKeeps(n: NodeView, req: AppendRequest, m: NodeView)
    requires n.log.WellFormed() && m.log == n.log && m.state.commitIndex == n.state.commitIndex
    ensures RuleKept(n, req, m, false)
  {
  }

  lemma RuleCarries(f: NodeView, n: NodeView, req: AppendRequest, m: NodeView)
    requires RuleKept(f, req, m, true) && f.log == n.log && f.state.commitIndex == n.state.commitIndex
    ensures RuleKept(n, req, m.(replication := None), true)
  {
  }

  lemma FollowerRuleAt(h: History, n: NodeView, id: NodeId, req: AppendRequest) returns (m: NodeView)
    requires Lawful(h) && MayAccept(h, n, id, req)
    ensures Accepting(n, req, m) && RuleKept(n, req, m, true)
  {
    hide Consistent, VotesSafe, LeadersSafe, AcksKept, CommitsBacked, Repairs, WellNumbered, Represents, DataFaithful;
    hide MergeEntries, Certified, Grows, Local, Merge, RuleKept;
    var e := req.prevLogIndex + |req.entries|;
    var next := Merge(h.Log(id), h.LeaderLog(req.term)[..e]);
    MergeRepairs(h.Log(id), h.LeaderLog(req.term), e);
    var log := MergedLog(h, n, id, req, next);
    m := AcceptedData(h, n, id, req, next, log);
    RequestNumbered(h, id, req);
    RuleHolds(h, n, id, req, m, next);
  }

  lemma RequestNumbered(h: History, id: NodeId, req: AppendRequest)
    requires Consistent(h) && id in h.members
    ensures WellNumbered(h.Log(id))
  {
    NodeLogReads(h, id);
  }

  lemma RuleHolds(h: History, n: NodeView, id: NodeId, req: AppendRequest, m: NodeView, next: seq<LogEntry>)
    requires ImageFaithful(h, n, id) && AppendTruthful(h, req) && WellNumbered(h.Log(id)) && n.log.WellFormed()
    requires m == MovedOn(n, m.log, CommitAfter(n, req.leaderCommit), m.store)
    requires WellNumbered(next) && Represents(m.log, next) && m.log.WellFormed() && m.log.baseIndex == n.log.baseIndex
    requires h.LeaderLog(req.term)[..req.prevLogIndex + |req.entries|] <= next
    requires n.state.commitIndex <= |next| && next[..n.state.commitIndex] == h.Log(id)[..n.state.commitIndex]
    ensures RuleKept(n, req, m, true)
  {
    RepresentedReads(m.log, next);
    hide WellNumbered, Represents, Certified, Fold;
    OldReadsStay(n.log, h.Log(id), m.log, next, n.state.commitIndex);
    RequestReadBack(m.log, next, h.LeaderLog(req.term), req);
  }

  lemma OldReadsStay(l: LogView, full: seq<LogEntry>, l': LogView, next: seq<LogEntry>, c: int)
    requires WellNumbered(full) && Represents(l, full) && WellNumbered(next) && Represents(l', next)
    requires l'.baseIndex == l.baseIndex && 0 <= c <= |full| && c <= |next| && next[..c] == full[..c]
    ensures l.WellFormed() && l'.WellFormed() && forall i :: i <= c ==> l'.Get(i) == l.Get(i)
  {
    RepresentedReads(l, full);
    RepresentedReads(l', next);
    hide WellNumbered, Represents;
    forall i | i <= c ensures l'.Get(i) == l.Get(i) {
      assert 0 < i ==> next[i - 1] == next[..c][i - 1] == full[..c][i - 1] == full[i - 1];
    }
  }

  lemma RequestReadBack(l: LogView, next: seq<LogEntry>, leader: seq<LogEntry>, req: AppendRequest)
    requires WellNumbered(next) && Represents(l, next) && 0 <= req.prevLogIndex
    requires req.prevLogIndex + |req.entries| <= |leader| && leader[..req.prevLogIndex + |req.entries|] <= next
    requires req.entries == leader[req.prevLogIndex..req.prevLogIndex + |req.entries|]
    ensures l.WellFormed() && forall i :: 0 <= i < |req.entries| && l.baseIndex <= req.prevLogIndex + i ==>
              l.Get(req.prevLogIndex + 1 + i) == Some(req.entries[i])
  {
    RepresentedReads(l, next);
    hide WellNumbered, Represents;
    var prev := req.prevLogIndex;
    forall i | 0 <= i < |req.entries| && l.baseIndex <= prev + i ensures l.Get(prev + 1 + i) == Some(req.entries[i]) {
      assert next[prev + i] == leader[..prev + |req.entries|][prev + i] == leader[prev + i];
    }
  }

  lemma Follows(h: History, n: NodeView, id: NodeId, term: int, leader: NodeId) returns (k: History)
    requires Lawful(h) && NodeFaithful(h, n, id) && n.state.currentTerm <= term && LeaderKnown(h, term, Some(leader))
    ensures Continues(h, k, id) && ImageFaithful(k, Following(n, term, leader), id)
  {
    k := FollowsLater(h, n, id, term, Some(leader));
  }

  lemma LostReplication(h: History, n: NodeView, id: NodeId)
    requires ImageFaithful(h, n, id) && n.state.role == Follower
    ensures NodeFaithful(h, n.(replication := None), id)
  {
  }

  // ---- The disk follows, record by record ----

  lemma SavedOrSame(n: NodeView, d: Disk, m: NodeView)
    requires d.snapshot == m.snapshot && Replay(d.journal) == Some(m.log)
    requires d.term == n.state.currentTerm && d.votedFor == n.state.votedFor && d.commitIndex == n.state.commitIndex
    ensures DiskMatches(m, PerformAll(d, SaveIfChanged(n.state, m.state)))
  {
    if DurableStateChanged(n.state, m.state) {
      var ws := [SaveStateOf(m.state)];
      assert ws[..0] == [];
      assert PerformAll(d, ws) == Perform(PerformAll(d, ws[..0]), ws[0]);
    }
  }

  lemma LogChangeSaved(n: NodeView, d: Disk, m: NodeView)
    requires DiskMatches(n, d) && m.snapshot == n.snapshot && m.log.WellFormed()
    requires m.log == n.log.(entries := m.log.entries)
    ensures DiskMatches(m,
                        PerformAll(d, WriteRecords(Changes(n.log.entries, m.log.entries))
                            + SaveIfChanged(n.state, m.state)))
  {
    var rs := Changes(n.log.entries, m.log.entries);
    ChangesFaithful(d.journal, n.log, m.log.entries);
    PerformRecords(d, rs);
    PerformSplits(d, WriteRecords(rs), SaveIfChanged(n.state, m.state));
    hide Replay, Changes, WriteRecords, PerformAll;
    SavedOrSame(n, d.(journal := d.journal + rs), m);
  }

  lemma AppendSaved(n: NodeView, d: Disk, req: AppendRequest)
    requires n.Sound() && DiskMatches(n, d) && ReceiveAppend(n, req).Some?
    ensures DiskMatches(ReceiveAppend(n, req).value.node, PerformAll(d, ReceiveAppend(n, req).value.writes))
  {
    if req.term < n.state.currentTerm || !PrevHeld(n, req) {
      AppendRefused(n, req);
      SavedOrSame(n, d, ReceiveAppend(n, req).value.node);
    } else {
      LogChangeSaved(n, d, ReceiveAppend(n, req).value.node);
    }
  }

  // ---- A crash between two records ----

  // The first m entries of the repaired log still repair the old one.
  lemma CutRepairs(full: seq<LogEntry>, leader: seq<LogEntry>, base: int, e: int, m: int)
    requires 0 <= base <= e <= |leader| && base <= |full| && !(leader[..e] <= full)
    requires CommonPrefix(full[base..], leader[..e][base..]) <= m <= e - base
    ensures Repairs(full, leader, leader[..base + m])
  {
    MergeRepairs(full, leader, e);
    forall i | 0 <= i <= |full| && i <= |leader| && full[..i] == leader[..i] ensures i <= base + m {
      assert i <= e;
      if base < i {
        assert full[base..][..i - base] == full[..i][base..] == leader[..i][base..] == leader[..e][base..][..i - base];
        AllInCommon(full[base..], leader[..e][base..], i - base);
      }
    }
  }

  lemma AppendWrites(n: NodeView, req: AppendRequest)
    requires n.Sound() && ReceiveAppend(n, req).Some?
    ensures var ws := ReceiveAppend(n, req).value.writes;
      if req.term < n.state.currentTerm || !PrevHeld(n, req) then |ws| <= 1
      else
        MergeEntries(n.log, req.entries).Some?
        && var rs := Changes(n.log.entries, MergeEntries(n.log, req.entries).value.entries);
           |ws| <= |rs| + 1 && WriteRecords(rs) <= ws
  {
    if req.term < n.state.currentTerm || !PrevHeld(n, req) {
      AppendRefused(n, req);
    }
  }

  // Where records are written at all, the leader's prefix replaces the log.
  lemma ChangedLog(full: seq<LogEntry>, p: seq<LogEntry>, l: LogView, after: LogView)
    requires 0 <= l.baseIndex <= |p| && Represents(l, full) && full[..l.baseIndex] == p[..l.baseIndex]
    requires Represents(after, Merge(full, p)) && after.baseIndex == l.baseIndex && WellNumbered(p)
    requires Changes(l.entries, after.entries) != []
    ensures !(p <= full) && after.entries == p[l.baseIndex..]
    ensures l.(entries := after.entries) == after && after.WellFormed()
  {
    assert Changes(l.entries, l.entries) == [];
    RepresentedReads(after, p);
    if l.baseIndex > 0 {
      assert full[l.baseIndex - 1] == full[..l.baseIndex][l.baseIndex - 1] == p[l.baseIndex - 1];
    }
  }

  // What is left of the repaired log after j records.
  lemma CutLog(full: seq<LogEntry>, leader: seq<LogEntry>, e: int, l: LogView, after: LogView, journal: seq<Record>,
               j: nat)
    returns (cut: LogView, next: seq<LogEntry>)
    requires 0 <= l.baseIndex <= e <= |leader| && l.baseIndex <= |full| && !(leader[..e] <= full)
    requires l.entries == full[l.baseIndex..] && after.entries == leader[..e][l.baseIndex..]
    requires l.baseTerm == TermOf(leader, l.baseIndex) && WellNumbered(leader)
    requires l.(entries := after.entries).WellFormed()
    requires Replay(journal) == Some(l) && 0 < j <= |Changes(l.entries, after.entries)|
    ensures Replay(journal + Changes(l.entries, after.entries)[..j]) == Some(cut)
    ensures cut.WellFormed() && cut.baseIndex == l.baseIndex && cut.baseTerm == l.baseTerm && Represents(cut, next)
    ensures Repairs(full, leader, next)
  {
    hide Changes, CommonPrefix, Replay, WellNumbered, Repairs;
    var m := ChangesReplay(journal, l, after.entries, j);
    cut := l.(entries := after.entries[..m]);
    next := leader[..l.baseIndex + m];
    CutRepairs(full, leader, l.baseIndex, e, m);
    assert leader[..e][l.baseIndex..][..m] == next[l.baseIndex..];
  }

  lemma AppendCrash(h: History, n: NodeView, d: Disk, id: NodeId, req: AppendRequest, j: nat) returns (k: History)
    requires Lawful(h) && n.Sound() && Faithful(h, n, d, id) && AppendTruthful(h, req)
    requires ReceiveAppend(n, req).Some? && 0 < j < |ReceiveAppend(n, req).value.writes|
    ensures Continues(h, k, id) && DiskFaithful(k, PerformAll(d, ReceiveAppend(n, req).value.writes[..j]), id)
  {
    hide Lawful, Faithful, AppendTruthful, Changes, MergeEntries, Continues, DiskFaithful, ReceiveAppend;
    AppendWrites(n, req);
    var rs := Changes(n.log.entries, MergeEntries(n.log, req.entries).value.entries);
    assert ReceiveAppend(n, req).value.writes[..j] == WriteRecords(rs)[..j] == WriteRecords(rs[..j]);
    PerformRecords(d, rs[..j]);
    k := RecordsCrash(h, n, d, id, req, j);
  }

  lemma MergedCut(h: History, n: NodeView, id: NodeId, req: AppendRequest, after: LogView, journal: seq<Record>, j: nat)
    returns (cut: LogView, next: seq<LogEntry>)
    requires Consistent(h) && id in h.members && Represents(n.log, h.Log(id)) && n.log.WellFormed()
    requires AppendTruthful(h, req) && PrevHeld(n, req) && MergeEntries(n.log, req.entries) == Some(after)
    requires Replay(journal) == Some(n.log) && 0 < j <= |Changes(n.log.entries, after.entries)|
    ensures Replay(journal + Changes(n.log.entries, after.entries)[..j]) == Some(cut)
    ensures cut.WellFormed() && cut.baseIndex == n.log.baseIndex && cut.baseTerm == n.log.baseTerm
    ensures Represents(cut, next)
    ensures Repairs(h.Log(id), h.LeaderLog(req.term), next)
    ensures n.log.baseIndex <= |h.LeaderLog(req.term)|
    ensures h.Log(id)[..n.log.baseIndex] == h.LeaderLog(req.term)[..n.log.baseIndex]
  {
    hide LogsSourced, Rooted, Numbered, Elected, LateCandidatesFail, MergeEntries, Merge, Repairs, Changes, Replay;
    hide Represents, WellNumbered, Sourced, TermsKnown, AcksBounded, CandidaciesSourced, VotesForCandidates;
    var e := req.prevLogIndex + |req.entries|;
    MergesTruthful(h, id, n.log, req);
    LeaderPrefixReads(h, req.term, e);
    LeaderPrefixReads(h, req.term, |h.LeaderLog(req.term)|);
    assert h.LeaderLog(req.term)[..|h.LeaderLog(req.term)|] == h.LeaderLog(req.term);
    cut, next := MergedCutLog(h.Log(id), h.LeaderLog(req.term), req.prevLogIndex, e, n.log, after, journal, j);
  }

  lemma MergedCutLog(full: seq<LogEntry>, leader: seq<LogEntry>, prev: int, e: int, l: LogView, after: LogView,
                     journal: seq<Record>, j: nat)
    returns (cut: LogView, next: seq<LogEntry>)
    requires Represents(l, full) && WellNumbered(leader) && l.baseIndex <= prev <= e <= |leader| && prev <= |full|
    requires full[..prev] == leader[..prev] && WellNumbered(leader[..e])
    requires Represents(after, Merge(full, leader[..e])) && after.baseIndex == l.baseIndex
    requires Replay(journal) == Some(l) && 0 < j <= |Changes(l.entries, after.entries)|
    ensures Replay(journal + Changes(l.entries, after.entries)[..j]) == Some(cut)
    ensures cut.WellFormed() && cut.baseIndex == l.baseIndex && cut.baseTerm == l.baseTerm && Represents(cut, next)
    ensures Repairs(full, leader, next) && full[..l.baseIndex] == leader[..l.baseIndex]
  {
    hide Merge, Repairs, Changes, Replay, WellNumbered;
    var base := l.baseIndex;
    SharedPrefix(full, leader, prev, base);
    assert full[..base] == leader[..base] == leader[..e][..base];
    ChangedLog(full, leader[..e], l, after);
    if base > 0 {
      assert full[base - 1] == full[..base][base - 1] == leader[base - 1];
    }
    cut, next := CutLog(full, leader, e, l, after, journal, j);
  }

  lemma RecordsCrash(h: History, n: NodeView, d: Disk, id: NodeId, req: AppendRequest, j: nat) returns (k: History)
    requires Lawful(h) && n.Sound() && Faithful(h, n, d, id) && AppendTruthful(h, req)
    requires n.state.currentTerm <= req.term && PrevHeld(n, req) && MergeEntries(n.log, req.entries).Some?
    requires 0 < j <= |Changes(n.log.entries, MergeEntries(n.log, req.entries).value.entries)|
    ensures Continues(h, k, id)
    ensures DiskFaithful(k,
                         d.(journal := d.journal
                             + Changes(n.log.entries, MergeEntries(n.log, req.entries).value.entries)[..j]), id)
  {
    hide Consistent, VotesSafe, AcksKept, LeadersSafe, CommitsBacked, MergeEntries, Merge, Represents, Repairs, Grows;
    hide Local;
    hide Changes, Replay, Certified, DiskFaithful;
    var after := MergeEntries(n.log, req.entries).value;
    var cut, next := MergedCut(h, n, id, req, after, d.journal, j);
    k := Adopt(h, id, next);
    AdoptGrows(h, id, next);
    AdoptLawful(h, id, req.term, next);
    CertifiedAsFollower(h, id, n.state.commitIndex, n.log.baseIndex, n.state.role);
    CommittedKept(h, id, n.state.commitIndex, n.log.baseIndex, req.term, next);
    JournalCut(h, k, n, d, id, cut, d.journal + Changes(n.log.entries, after.entries)[..j]);
  }

  lemma CertifiedAsFollower(h: History, id: NodeId, commit: int, base: int, role: Role)
    requires Certified(h, id, commit, base, role)
    ensures Certified(h, id, commit, base, Follower)
  {
    var u :| CertifiedBy(h, id, commit, base, role, u);
    assert CertifiedBy(h, id, commit, base, Follower, u);
  }
}

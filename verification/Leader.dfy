// leader.py: what a leader knows of each follower, the requests it builds from that, and
// how far it may commit.

module Leaders {
  import opened Prelude
  import opened Types
  import opened History
  import opened RaftLogs
  import opened RaftStates

  datatype ReplicationView = ReplicationView(nextIndex: map<NodeId, int>, matchIndex: map<NodeId, int>) {

    predicate Covers(followers: set<NodeId>) {
      nextIndex.Keys == followers && matchIndex.Keys == followers
    }

    function RecordMatch(f: NodeId, index: int): ReplicationView
      requires f in matchIndex
    {
      var m := if matchIndex[f] >= index then matchIndex[f] else index;
      ReplicationView(nextIndex[f := m + 1], matchIndex[f := m])
    }

    function RecordSuccess(f: NodeId, req: AppendRequest): ReplicationView
      requires f in matchIndex
    {
      RecordMatch(f, if req.entries != [] then req.entries[|req.entries| - 1].index else req.prevLogIndex)
    }

    function RecordFailure(f: NodeId): ReplicationView
      requires f in nextIndex
    {
      this.(nextIndex := nextIndex[f := if nextIndex[f] - 1 >= 1 then nextIndex[f] - 1 else 1])
    }
  }

  function NewReplication(lastIndex: int, followers: set<NodeId>): ReplicationView {
    ReplicationView(map f | f in followers :: lastIndex + 1, map f | f in followers :: 0)
  }

  // build_request; None where it raises.
  function RequestFor(r: ReplicationView, f: NodeId, state: StateView, log: LogView): Option<AppendRequest>
    requires f in r.nextIndex && log.WellFormed()
  {
    var next := r.nextIndex[f];
    if next <= log.baseIndex then None
    else
      match log.TermAt(next - 1)
      case None => None
      case Some(t) =>
        Some(AppendRequest(state.currentTerm, state.nodeId, next - 1, t, log.EntriesFrom(next), state.commitIndex))
  }

  // A request can be built exactly where the entry before next_index is retained, or is the
  // boundary: not for one compacted away, and not for one beyond the log.
  lemma BuiltExactly(r: ReplicationView, f: NodeId, state: StateView, log: LogView, full: seq<LogEntry>)
    requires f in r.nextIndex && WellNumbered(full) && Represents(log, full)
    ensures log.WellFormed()
    ensures RequestFor(r, f, state, log).Some? <==> log.baseIndex < r.nextIndex[f] <= |full| + 1
  {
    RepresentedAt(log, full, r.nextIndex[f] - 1);
  }

  // Who is known to hold index i: the leader itself and the followers that matched it.
  function Holders(self: NodeId, lastIndex: int, matchIndex: map<NodeId, int>, i: int): set<NodeId> {
    (set f | f in matchIndex && matchIndex[f] >= i) + (if lastIndex >= i then {self} else {})
  }

  // The greatest index a majority of the group is known to hold.
  predicate IsQuorumIndex(self: NodeId, lastIndex: int, matchIndex: map<NodeId, int>, groupSize: nat, i: int) {
    && |Holders(self, lastIndex, matchIndex, i)| >= groupSize / 2 + 1
    && |Holders(self, lastIndex, matchIndex, i + 1)| < groupSize / 2 + 1
  }

  // advance_commit_index, once the quorum index is known.
  function AdvanceCommit(state: StateView, log: LogView, candidate: int): StateView
    requires log.WellFormed()
  {
    if candidate <= state.commitIndex then state
    else
      match log.Get(candidate)
      case None => state
      case Some(e) => if e.term != state.currentTerm then state else state.(commitIndex := candidate)
  }

  // ---- The quorum index ----

  lemma HoldersShrink(self: NodeId, lastIndex: int, matchIndex: map<NodeId, int>, i: int, j: int)
    requires i <= j
    ensures |Holders(self, lastIndex, matchIndex, j)| <= |Holders(self, lastIndex, matchIndex, i)|
  {
    SubsetCardinality(Holders(self, lastIndex, matchIndex, j), Holders(self, lastIndex, matchIndex, i));
  }

  // The quorum index is exactly the greatest index a strict majority is known to hold, so
  // there is at most one.
  lemma QuorumIndexIsGreatest(self: NodeId, lastIndex: int, matchIndex: map<NodeId, int>, groupSize: nat, i: int)
    ensures IsQuorumIndex(self, lastIndex, matchIndex, groupSize, i)
       <==> (forall x :: |Holders(self, lastIndex, matchIndex, x)| >= groupSize / 2 + 1 <==> x <= i)
  {
    forall x ensures x <= i ==> |Holders(self, lastIndex, matchIndex, x)| >= |Holders(self, lastIndex, matchIndex, i)|
             ensures i < x ==>
               |Holders(self, lastIndex, matchIndex, x)| <= |Holders(self, lastIndex, matchIndex, i + 1)|
    {
      if x <= i {
        HoldersShrink(self, lastIndex, matchIndex, x, i);
      } else {
        HoldersShrink(self, lastIndex, matchIndex, i + 1, x);
      }
    }
  }

  // Advancing never lowers the commit index, never passes the log, and moves only onto an
  // entry of the current term.
  lemma AdvanceCommitKeeps(state: StateView, log: LogView, candidate: int)
    requires log.WellFormed() && state.commitIndex <= log.LastIndex()
    ensures var s := AdvanceCommit(state, log, candidate);
      && state.commitIndex <= s.commitIndex <= log.LastIndex() && s == state.(commitIndex := s.commitIndex)
      && (s != state ==> s.commitIndex == candidate && log.TermAt(candidate) == Some(state.currentTerm))
  {
  }

  // How many of these indexes reach i.
  function Reaching(s: seq<int>, i: int): nat {
    if s == [] then 0 else Reaching(s[..|s| - 1], i) + if s[|s| - 1] >= i then 1 else 0
  }

  predicate Descending(s: seq<int>) {
    forall j, k :: 0 <= j < k < |s| ==> s[j] >= s[k]
  }

  function Insert(s: seq<int>, x: int): (r: seq<int>)
    requires Descending(s)
    ensures Descending(r) && |r| == |s| + 1
    ensures forall k :: 0 <= k < |r| ==> r[k] == x || r[k] in s
    ensures multiset(r) == multiset(s) + multiset{x}
  {
    if s == [] || s[|s| - 1] >= x then s + [x]
    else
      var init, last := s[..|s| - 1], s[|s| - 1];
      var r := Insert(init, x);
      assert s == init + [last];
      assert forall k :: 0 <= k < |r| ==> r[k] >= last;
      r + [last]
  }

  // list.sort(reverse=True)
  function SortDescending(s: seq<int>): (r: seq<int>)
    ensures Descending(r) && multiset(r) == multiset(s) && |r| == |s|
  {
    if s == [] then []
    else
      assert s == s[..|s| - 1] + [s[|s| - 1]];
      Insert(SortDescending(s[..|s| - 1]), s[|s| - 1])
  }

  lemma ReachingAppended(s: seq<int>, x: int, i: int)
    ensures Reaching(s + [x], i) == Reaching(s, i) + if x >= i then 1 else 0
  {
    assert (s + [x])[..|s|] == s;
  }

  lemma {:induction false} ReachingInserted(s: seq<int>, x: int, i: int)
    requires Descending(s)
    ensures Reaching(Insert(s, x), i) == Reaching(s, i) + if x >= i then 1 else 0
  {
    if s == [] || s[|s| - 1] >= x {
      assert Insert(s, x) == s + [x];
      ReachingAppended(s, x, i);
    } else {
      var init, last := s[..|s| - 1], s[|s| - 1];
      assert Insert(s, x) == Insert(init, x) + [last] && s == init + [last];
      hide Reaching, Insert, Descending;
      ReachingInserted(init, x, i);
      ReachingAppended(Insert(init, x), last, i);
      ReachingAppended(init, last, i);
    }
  }

  lemma {:induction false} ReachingSorted(s: seq<int>, i: int)
    ensures Reaching(SortDescending(s), i) == Reaching(s, i)
  {
    if s != [] {
      ReachingSorted(s[..|s| - 1], i);
      ReachingInserted(SortDescending(s[..|s| - 1]), s[|s| - 1], i);
    }
  }

  // At position p of a descending list stands the greatest index that more than p of them reach.
  lemma {:induction false} PositionReached(s: seq<int>, p: int)
    requires Descending(s) && 0 <= p < |s|
    ensures p < Reaching(s, s[p]) && Reaching(s, s[p] + 1) <= p
  {
    AllReach(s[..p + 1], s[p]);
    NoneReach(s, p, s[p] + 1);
    ReachingPrefix(s, p + 1, s[p]);
  }

  lemma {:induction false} AllReach(s: seq<int>, i: int)
    requires forall k :: 0 <= k < |s| ==> s[k] >= i
    ensures Reaching(s, i) == |s|
  {
    if s != [] {
      AllReach(s[..|s| - 1], i);
    }
  }

  lemma {:induction false} ReachingPrefix(s: seq<int>, n: nat, i: int)
    requires n <= |s|
    ensures Reaching(s[..n], i) <= Reaching(s, i)
  {
    if n == |s| {
      assert s[..n] == s;
    } else {
      assert s[..|s| - 1][..n] == s[..n];
      ReachingPrefix(s[..|s| - 1], n, i);
    }
  }

  lemma {:induction false} NoneReach(s: seq<int>, p: nat, i: int)
    requires p <= |s| && forall k :: p <= k < |s| ==> s[k] < i
    ensures Reaching(s, i) <= p
  {
    if p < |s| {
      NoneReach(s[..|s| - 1], p, i);
    } else {
      ReachingBounded(s, i);
    }
  }

  lemma {:induction false} ReachingBounded(s: seq<int>, i: int)
    ensures Reaching(s, i) <= |s|
  {
    if s != [] {
      ReachingBounded(s[..|s| - 1], i);
    }
  }

  // The list of the leader's last index and everyone's match index counts the holders.
  lemma HoldersCounted(self: NodeId, lastIndex: int, matchIndex: map<NodeId, int>, values: seq<int>, i: int)
    requires self !in matchIndex && Reaching(values, i) == |set f | f in matchIndex && matchIndex[f] >= i|
    ensures Reaching([lastIndex] + values, i) == |Holders(self, lastIndex, matchIndex, i)|
  {
    ReachingPrepended(lastIndex, values, i);
    var held := set f | f in matchIndex && matchIndex[f] >= i;
    if lastIndex >= i {
      UnionCardinality(held, {self});
    } else {
      assert held + {} == held;
    }
  }

  lemma {:induction false} ReachingPrepended(x: int, s: seq<int>, i: int)
    ensures Reaching([x] + s, i) == Reaching(s, i) + if x >= i then 1 else 0
  {
    if s == [] {
      assert [x] + s == [x] && [x][..0] == [];
      assert Reaching([], i) == 0;
    } else {
      assert ([x] + s)[..|[x] + s| - 1] == [x] + s[..|s| - 1];
      ReachingPrepended(x, s[..|s| - 1], i);
    }
  }

  class LeaderReplication {
    const state: RaftState
    var log: RaftLog
    const members: set<NodeId>
    const followers: set<NodeId>
    var nextIndex: map<NodeId, int>
    var matchIndex: map<NodeId, int>

    function View(): ReplicationView
      reads this
    {
      ReplicationView(nextIndex, matchIndex)
    }

    predicate Valid()
      reads this
    {
      followers == members - {state.nodeId} && state.nodeId in members && View().Covers(followers)
    }

    constructor (state: RaftState, log: RaftLog, members: set<NodeId>)
      requires state.role == Leader && state.nodeId in members
      ensures Valid() && this.state == state && this.log == log && this.members == members
      ensures View() == NewReplication(log.View().LastIndex(), members - {state.nodeId})
    {
      this.state, this.log, this.members := state, log, members;
      followers := members - {state.nodeId};
      nextIndex := map f | f in members - {state.nodeId} :: log.View().LastIndex() + 1;
      matchIndex := map f | f in members - {state.nodeId} :: 0;
    }

    // None for an unknown follower, and where RequestFor is None.
    method BuildRequest(f: NodeId) returns (req: Option<AppendRequest>)
      requires Valid() && log.View().WellFormed()
      ensures req == if f in followers then RequestFor(View(), f, state.View(), log.View()) else None
    {
      if f !in followers {
        return None;
      }
      var next := nextIndex[f];
      if next <= log.baseIndex {
        return None;
      }
      var prev := next - 1;
      var prevTerm := log.View().TermAt(prev);
      if prevTerm == None {
        return None;
      }
      return Some(AppendRequest(state.currentTerm, state.nodeId, prev, prevTerm.value, log.View().EntriesFrom(next),
                                state.commitIndex));
    }

    method RecordSuccess(f: NodeId, req: AppendRequest) returns (ok: bool)
      requires Valid()
      modifies this`nextIndex, this`matchIndex
      ensures Valid() && (ok <==> f in followers)
      ensures View() == if ok then old(View()).RecordSuccess(f, req) else old(View())
    {
      if f !in followers {
        return false;
      }
      var last := if req.entries != [] then req.entries[|req.entries| - 1].index else req.prevLogIndex;
      matchIndex := matchIndex[f := if matchIndex[f] >= last then matchIndex[f] else last];
      nextIndex := nextIndex[f := matchIndex[f] + 1];
      return true;
    }

    method RecordSnapshotSuccess(f: NodeId, lastIncludedIndex: int) returns (ok: bool)
      requires Valid()
      modifies this`nextIndex, this`matchIndex
      ensures Valid() && (ok <==> f in followers)
      ensures View() == if ok then old(View()).RecordMatch(f, lastIncludedIndex) else old(View())
    {
      if f !in followers {
        return false;
      }
      matchIndex := matchIndex[f := if matchIndex[f] >= lastIncludedIndex then matchIndex[f] else lastIncludedIndex];
      nextIndex := nextIndex[f := matchIndex[f] + 1];
      return true;
    }

    method RecordFailure(f: NodeId) returns (ok: bool)
      requires Valid()
      modifies this`nextIndex
      ensures Valid() && (ok <==> f in followers)
      ensures View() == if ok then old(View()).RecordFailure(f) else old(View())
    {
      if f !in followers {
        return false;
      }
      nextIndex := nextIndex[f := if nextIndex[f] - 1 >= 1 then nextIndex[f] - 1 else 1];
      return true;
    }

    // The values of a dictionary, in whatever order it yields them.
    method MatchValues() returns (values: seq<int>)
      ensures |values| == |matchIndex|
      ensures forall i :: Reaching(values, i) == |set f | f in matchIndex && matchIndex[f] >= i|
    {
      values := [];
      var rest := matchIndex.Keys;
      while rest != {}
        invariant rest <= matchIndex.Keys && |values| + |rest| == |matchIndex|
        invariant forall i :: Reaching(values, i) == |set f | f in matchIndex && f !in rest && matchIndex[f] >= i|
        decreases |rest|
      {
        var f :| f in rest;
        ghost var before := rest;
        rest := rest - {f};
        ghost var was := values;
        values := values + [matchIndex[f]];
        forall i ensures Reaching(values, i) == |set g | g in matchIndex && g !in rest && matchIndex[g] >= i| {
          assert values[..|values| - 1] == was;
          var held := set g | g in matchIndex && g !in before && matchIndex[g] >= i;
          assert (set g | g in matchIndex && g !in rest && matchIndex[g] >= i)
              == if matchIndex[f] >= i then held + {f} else held;
        }
      }
      forall i ensures Reaching(values, i) == |set f | f in matchIndex && matchIndex[f] >= i| {
        assert (set f | f in matchIndex && f !in rest && matchIndex[f] >= i)
            == (set f | f in matchIndex && matchIndex[f] >= i);
      }
    }

    // The element in the middle of the descending list is the quorum index.
    method AdvanceCommitIndex() returns (commit: int, ghost quorumIndex: int)
      requires Valid() && log.View().WellFormed()
      modifies state`commitIndex
      ensures IsQuorumIndex(state.nodeId, log.View().LastIndex(), matchIndex, |members|, quorumIndex)
      ensures state.View() == AdvanceCommit(old(state.View()), log.View(), quorumIndex)
      ensures commit == state.commitIndex
    {
      var values := MatchValues();
      var replicated := SortDescending([log.View().LastIndex()] + values);
      var position := |members| / 2;
      FollowersCounted();
      var candidate := replicated[position];
      quorumIndex := candidate;
      ghost var last := log.View().LastIndex();
      PositionReached(replicated, position);
      forall i | i == candidate || i == candidate + 1
        ensures Reaching(replicated, i) == |Holders(state.nodeId, last, matchIndex, i)|
      {
        ReachingSorted([last] + values, i);
        HoldersCounted(state.nodeId, last, matchIndex, values, i);
      }
      if candidate <= state.commitIndex {
        return state.commitIndex, quorumIndex;
      }
      var entry := log.View().Get(candidate);
      if entry == None {
        return state.commitIndex, quorumIndex;
      }
      if entry.value.term != state.currentTerm {
        return state.commitIndex, quorumIndex;
      }
      state.commitIndex := candidate;
      return state.commitIndex, quorumIndex;
    }

    lemma FollowersCounted()
      requires Valid()
      ensures |matchIndex| == |members| - 1
    {
      assert matchIndex.Keys == followers;
      UnionCardinality(followers, {state.nodeId});
      assert followers + {state.nodeId} == members;
    }
  }
}

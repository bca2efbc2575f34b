// election.py: collecting votes.

module Elections {
  import opened Prelude
  import opened Types
  import opened RaftStates

  datatype ElectionView = ElectionView(votes: set<NodeId>, active: bool)

  datatype Tally = Tally(state: StateView, election: ElectionView)

  function Promoted(state: StateView, election: ElectionView, members: set<NodeId>): Tally {
    if |election.votes| < |members| / 2 + 1 then Tally(state, election)
    else Tally(state.BecomeLeader(), election.(active := false))
  }

  function StartElection(state: StateView, members: set<NodeId>): (r: Tally)
    ensures r.state.currentTerm == state.currentTerm + 1 && r.state.nodeId == state.nodeId
  {
    Promoted(state.BecomeCandidate(), ElectionView({state.nodeId}, true), members)
  }

  function VoteRecorded(state: StateView, election: ElectionView, members: set<NodeId>, voter: NodeId,
                        reply: VoteReply): Tally {
    if !election.active then Tally(state, election)
    else if reply.term > state.currentTerm then
      Tally(state.BecomeFollower(reply.term, None), election.(active := false))
    else if reply.term < state.currentTerm then Tally(state, election)
    else if state.role != Candidate then Tally(state, election.(active := false))
    else if voter !in members then Tally(state, election)
    else
      Promoted(state,
        if reply.granted then election.(votes := election.votes + {voter}) else election, members)
  }

  // What a ballot does to the tracker, whoever sends it: a later term ends the election, a stale
  // one or a stranger's counts for nothing, one that finds the node no candidate ends it too, and
  // any other adds its voter, once, and decides by majority.
  lemma RecordedExactly(state: StateView, election: ElectionView, members: set<NodeId>, voter: NodeId, reply: VoteReply)
    requires election.votes <= members
    ensures var t := VoteRecorded(state, election, members, voter, reply);
      var votes := election.votes + if reply.granted then {voter} else {};
      if !election.active || reply.term < state.currentTerm then t == Tally(state, election)
      else if reply.term > state.currentTerm then
        && t.election == ElectionView(election.votes, false) && t.state.votedFor == None
        && t.state.currentTerm == reply.term && t.state.role == Follower && t.state.leaderId == None
      else if state.role != Candidate then t == Tally(state, ElectionView(election.votes, false))
      else if voter !in members then t == Tally(state, election)
      else
        && t.election.votes == votes && t.state.currentTerm == state.currentTerm && t.state.votedFor == state.votedFor
        && t.election.active == !Majority(votes, members)
        && (t.state.role == Leader <==> Majority(votes, members))
        && (t.state.role != Leader ==> t.state == state)
        && (t.state.role == Leader ==> t.state.leaderId == Some(state.nodeId))
  {
  }

  class ElectionTracker {
    const state: RaftState
    const members: set<NodeId>
    var votes: set<NodeId>
    var active: bool

    function View(): ElectionView
      reads this
    {
      ElectionView(votes, active)
    }

    constructor (state: RaftState, members: set<NodeId>)
      requires state.nodeId in members
      ensures this.state == state && this.members == members && View() == ElectionView({}, false)
    {
      this.state, this.members := state, members;
      votes, active := {}, false;
    }

    method Start()
      modifies this, state
      ensures Tally(state.View(), View()) == StartElection(old(state.View()), members)
    {
      state.BecomeCandidate();
      votes := {state.nodeId};
      active := true;
      var _ := PromoteIfQuorum();
    }

    // The result says whether this vote made the node a leader.
    method RecordVote(voter: NodeId, reply: VoteReply) returns (promoted: bool)
      modifies this, state
      ensures Tally(state.View(), View()) == VoteRecorded(old(state.View()), old(View()), members, voter, reply)
      ensures promoted ==> state.role == Leader
    {
      if !active {
        return false;
      }
      if reply.term > state.currentTerm {
        var _ := state.BecomeFollower(reply.term, None);
        active := false;
        return false;
      }
      if reply.term < state.currentTerm {
        return false;
      }
      if state.role != Candidate {
        active := false;
        return false;
      }
      if voter !in members {
        return false;
      }
      if reply.granted {
        votes := votes + {voter};
      }
      promoted := PromoteIfQuorum();
    }

    method PromoteIfQuorum() returns (promoted: bool)
      requires state.role == Candidate
      modifies this, state
      ensures Tally(state.View(), View()) == Promoted(old(state.View()), old(View()), members)
      ensures promoted ==> state.role == Leader
    {
      if |votes| < |members| / 2 + 1 {
        return false;
      }
      var _ := state.BecomeLeader();
      active := false;
      return true;
    }
  }
}

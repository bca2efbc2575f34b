// state.py: term, vote, role and the two indexes of one node.

module RaftStates {
  import opened Prelude
  import opened Types

  datatype StateView = StateView(
    nodeId: NodeId, commitIndex: int, currentTerm: int, votedFor: Option<NodeId>,
    leaderId: Option<NodeId>, role: Role, lastApplied: int)
  {
    // Used for terms no older than the current one; the program raises otherwise.
    function BecomeFollower(term: int, leader: Option<NodeId>): StateView {
      this.(votedFor := if term > currentTerm then None else votedFor,
            currentTerm := term, role := Follower, leaderId := leader)
    }

    function BecomeCandidate(): StateView {
      this.(currentTerm := currentTerm + 1, role := Candidate, votedFor := Some(nodeId), leaderId := None)
    }

    function BecomeLeader(): StateView {
      this.(role := Leader, leaderId := Some(nodeId))
    }
  }

  class RaftState {
    const nodeId: NodeId
    var commitIndex: int
    var currentTerm: int
    var votedFor: Option<NodeId>
    var leaderId: Option<NodeId>
    var role: Role
    var lastApplied: int

    function View(): StateView
      reads this
    {
      StateView(nodeId, commitIndex, currentTerm, votedFor, leaderId, role, lastApplied)
    }

    constructor (nodeId: NodeId)
      ensures View() == StateView(nodeId, 0, 0, None, None, Follower, 0)
    {
      this.nodeId := nodeId;
      commitIndex, currentTerm, lastApplied := 0, 0, 0;
      votedFor, leaderId, role := None, None, Follower;
    }

    // What load_state reads back: only term, vote and commit index are durable.
    constructor FromDisk(nodeId: NodeId, term: int, votedFor: Option<NodeId>, commitIndex: int)
      ensures View() == StateView(nodeId, commitIndex, term, votedFor, None, Follower, 0)
    {
      this.nodeId := nodeId;
      this.commitIndex, currentTerm, lastApplied := commitIndex, term, 0;
      this.votedFor, leaderId, role := votedFor, None, Follower;
    }

    // An older term is refused with ValueError, and nothing changes.
    method BecomeFollower(term: int, leader: Option<NodeId>) returns (ok: bool)
      modifies this
      ensures ok <==> old(currentTerm) <= term
      ensures View() == if ok then old(View()).BecomeFollower(term, leader) else old(View())
    {
      if term < currentTerm {
        return false;
      }
      if term > currentTerm {
        votedFor := None;
      }
      currentTerm := term;
      role := Follower;
      leaderId := leader;
      return true;
    }

    method BecomeCandidate()
      modifies this
      ensures View() == old(View()).BecomeCandidate()
    {
      currentTerm := currentTerm + 1;
      role := Candidate;
      votedFor := Some(nodeId);
      leaderId := None;
    }

    // Only a candidate may be promoted; RuntimeError otherwise.
    method BecomeLeader() returns (ok: bool)
      modifies this
      ensures ok <==> old(role) == Candidate
      ensures View() == if ok then old(View()).BecomeLeader() else old(View())
    {
      if role != Candidate {
        return false;
      }
      role := Leader;
      leaderId := Some(nodeId);
      return true;
    }
  }
}

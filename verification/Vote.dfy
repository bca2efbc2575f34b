// vote.py: granting votes.

module Votes {
  import opened Prelude
  import opened Types
  import opened RaftStates

  predicate IsCandidateLogUpToDate(candidateLastIndex: int, candidateLastTerm: int,
                                   localLastIndex: int, localLastTerm: int) {
    if candidateLastTerm != localLastTerm then candidateLastTerm > localLastTerm
    else candidateLastIndex >= localLastIndex
  }

  datatype VoteOutcome = VoteOutcome(state: StateView, reply: VoteReply)

  function HandleVote(state: StateView, req: VoteRequest, lastIndex: int, lastTerm: int): VoteOutcome {
    if req.term < state.currentTerm then VoteOutcome(state, VoteReply(state.currentTerm, false))
    else
      var s := if req.term > state.currentTerm then state.BecomeFollower(req.term, None) else state;
      var canVote := s.votedFor == None || s.votedFor == Some(req.candidate);
      var granted := canVote && IsCandidateLogUpToDate(req.lastLogIndex, req.lastLogTerm, lastIndex, lastTerm);
      VoteOutcome(if granted then s.(votedFor := Some(req.candidate)) else s, VoteReply(s.currentTerm, granted))
  }

  method HandleRequestVote(state: RaftState, req: VoteRequest, lastIndex: int, lastTerm: int) returns (reply: VoteReply)
    modifies state
    ensures VoteOutcome(state.View(), reply) == HandleVote(old(state.View()), req, lastIndex, lastTerm)
  {
    if req.term < state.currentTerm {
      return VoteReply(state.currentTerm, false);
    }
    if req.term > state.currentTerm {
      var _ := state.BecomeFollower(req.term, None);
    }
    var canVote := state.votedFor == None || state.votedFor == Some(req.candidate);
    var logIsCurrent := IsCandidateLogUpToDate(req.lastLogIndex, req.lastLogTerm, lastIndex, lastTerm);
    var granted := canVote && logIsCurrent;
    if granted {
      state.votedFor := Some(req.candidate);
    }
    return VoteReply(state.currentTerm, granted);
  }
}

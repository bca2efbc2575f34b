// The values that travel between the parts of a node and between nodes:
// commands, log entries, snapshots and RPC payloads.

module Types {
  import opened Prelude

  datatype NodeId = NodeId(name: string)

  // log.py: RaftCommand. The operation is free text; submission and application check it.
  datatype Command = Command(operation: string, key: string, value: Option<string>)

  // The commands apply_command accepts without raising.
  predicate Applicable(c: Command) {
    (c.operation == "PUT" && c.value.Some?) || c.operation == "DELETE"
  }

  datatype LogEntry = LogEntry(index: int, term: int, command: Command)

  datatype Role = Follower | Candidate | Leader

  type Store = map<string, string>

  datatype Snapshot = Snapshot(index: int, term: int, state: Store)

  datatype VoteRequest = VoteRequest(term: int, candidate: NodeId, lastLogIndex: int, lastLogTerm: int)
  datatype VoteReply = VoteReply(term: int, granted: bool)

  datatype AppendRequest = AppendRequest(
    term: int, leader: NodeId, prevLogIndex: int, prevLogTerm: int,
    entries: seq<LogEntry>, leaderCommit: int)

  datatype SnapshotRequest = SnapshotRequest(
    term: int, leader: NodeId, lastIncludedIndex: int, lastIncludedTerm: int, state: Store)

  // AppendEntriesResponse and InstallSnapshotResponse have the same two fields.
  datatype ReplicationReply = ReplicationReply(term: int, success: bool)

  datatype TimeoutNowRequest = TimeoutNowRequest(term: int, leader: NodeId)
  datatype TimeoutNowReply = TimeoutNowReply(term: int, accepted: bool)
}

/** The records of raft/types.go and the in-memory state of one Raft node (raft/raft.go). */
module RaftTypes {
  import opened Kv

  type Id = string

  /** The empty votedFor or leaderID. Real ids are non-empty. */
  const NOBODY: Id := ""

  datatype Role = Follower | Candidate | Leader

  datatype Entry = Entry(term: int, payload: Payload)

  /** The entry at index 0 of every log that has not been compacted. */
  const SENTINEL := Entry(0, Undecodable)

  datatype Snapshot = Snapshot(lastIndex: int, lastTerm: int, data: Image)

  const NO_SNAPSHOT := Snapshot(0, 0, map[])

  datatype RequestVoteArgs = RequestVoteArgs(term: int, candidateId: Id, lastLogIndex: int, lastLogTerm: int)
  datatype RequestVoteReply = RequestVoteReply(term: int, voteGranted: bool)

  datatype AppendEntriesArgs = AppendEntriesArgs(
    term: int, leaderId: Id, prevLogIndex: int, prevLogTerm: int, entries: seq<Entry>, leaderCommit: int)
  datatype AppendEntriesReply = AppendEntriesReply(term: int, success: bool, conflictIndex: int, conflictTerm: int)

  datatype InstallSnapshotArgs = InstallSnapshotArgs(
    term: int, leaderId: Id, lastIncludedIndex: int, lastIncludedTerm: int, data: Image)
  datatype InstallSnapshotReply = InstallSnapshotReply(term: int)

  datatype ApplyMsg = EntryMsg(index: int, payload: Payload) | SnapshotMsg(snapIndex: int, data: Image)

  /** What Save writes and Load returns. */
  datatype Durable = Durable(currentTerm: int, votedFor: Id, log: seq<Entry>, commitIndex: int, snapshot: Snapshot)

  /** The state a storage holds before anything was saved. */
  const FRESH_DISK := Durable(0, NOBODY, [SENTINEL], 0, NO_SNAPSHOT)

  /** A node's fields. `votes` and `awaiting` belong to the running election round: the votes counted so far and
      the peers whose reply has not been processed. */
  datatype Node = Node(
    id: Id,
    peers: set<Id>,
    role: Role,
    currentTerm: int,
    votedFor: Id,
    log: seq<Entry>,
    commitIndex: int,
    lastApplied: int,
    logOffset: int,
    snapshot: Snapshot,
    nextIndex: map<Id, int>,
    matchIndex: map<Id, int>,
    leaderId: Id,
    votes: int,
    awaiting: set<Id>)
}

/** What each critical section of a Raft node computes, as a function of the node's state (raft/raft.go).
    The class in RaftNode.dfy is proved to do exactly this; the cluster in Cluster.dfy is built from it. */
module Handlers {
  import opened Kv
  import opened RaftTypes

  // ---------- Index and term helpers ----------

  function Min(a: int, b: int): int { if a < b then a else b }
  function Max(a: int, b: int): int { if a > b then a else b }

  /** A Go map lookup: an absent key reads as zero. */
  function Lookup(m: map<Id, int>, k: Id): int { if k in m then m[k] else 0 }

  function QuorumSize(s: Node): int { (|s.peers| + 1) / 2 + 1 }

  function LastIndex(s: Node): int { s.logOffset + |s.log| - 1 }

  function LastTerm(s: Node): int { if |s.log| == 0 then 0 else s.log[|s.log| - 1].term }

  function TermAt(s: Node, index: int): int
  {
    if index < s.logOffset || index > LastIndex(s) then -1 else s.log[index - s.logOffset].term
  }

  /** Whether a candidate whose log ends in (lastIndex, lastTerm) may get this node's vote. */
  predicate IsUpToDate(s: Node, lastIndex: int, lastTerm: int)
  {
    if lastTerm != LastTerm(s) then lastTerm > LastTerm(s) else lastIndex >= LastIndex(s)
  }

  function Persisted(s: Node): Durable
  {
    Durable(s.currentTerm, s.votedFor, s.log, s.commitIndex, s.snapshot)
  }

  // ---------- Role changes ----------

  function BecomeFollower(s: Node, term: int): Node
  {
    if term > s.currentTerm then s.(role := Follower, currentTerm := term, votedFor := NOBODY)
    else s.(role := Follower)
  }

  function BecomeLeader(s: Node): Node
  {
    var last := LastIndex(s);
    s.(role := Leader,
       leaderId := s.id,
       nextIndex := map p | p in s.peers + {s.id} :: last + 1,
       matchIndex := map p | p in s.peers + {s.id} :: if p == s.id then last else 0)
  }

  /** A node that starts from what its storage holds. */
  function Boot(id: Id, peers: set<Id>, d: Durable): Node
  {
    var log := if |d.log| == 0 then [Entry(d.snapshot.lastTerm, Undecodable)] else d.log;
    var fixed := if d.snapshot.lastIndex > 0 then log[0 := log[0].(term := d.snapshot.lastTerm)] else log;
    var offset := d.snapshot.lastIndex;
    var commit := Min(Max(d.commitIndex, offset), offset + |fixed| - 1);
    Node(id, peers, Follower, d.currentTerm, d.votedFor, fixed, commit, Min(Max(0, offset), commit), offset,
         d.snapshot, map[], map[], NOBODY, 0, {})
  }

  // ---------- Elections ----------

  /** An election timeout: a node that is not leader votes for itself in the next term and asks every peer. */
  function StartElection(s: Node): Node
  {
    if s.role == Leader then s
    else s.(role := Candidate, currentTerm := s.currentTerm + 1, votedFor := s.id, votes := 1, awaiting := s.peers)
  }

  function VoteRequest(s: Node): RequestVoteArgs
  {
    RequestVoteArgs(s.currentTerm, s.id, LastIndex(s), LastTerm(s))
  }

  /** The second critical section of an election in a cluster of one. */
  function FinishLoneElection(s: Node, term: int): Node
  {
    if s.currentTerm == term then BecomeLeader(s) else s
  }

  function HandleRequestVote(s: Node, a: RequestVoteArgs): (Node, RequestVoteReply)
  {
    if a.term < s.currentTerm then (s, RequestVoteReply(s.currentTerm, false))
    else
      var s1 := if a.term > s.currentTerm then BecomeFollower(s, a.term) else s;
      if (s1.votedFor == NOBODY || s1.votedFor == a.candidateId) && IsUpToDate(s1, a.lastLogIndex, a.lastLogTerm)
      then (s1.(votedFor := a.candidateId), RequestVoteReply(s1.currentTerm, true))
      else (s1, RequestVoteReply(s1.currentTerm, false))
  }

  /** The reply of `peer` to the request this node sent it in the election of `term`. */
  function HandleVoteReply(s: Node, peer: Id, term: int, reply: RequestVoteReply): Node
  {
    if s.role != Candidate || s.currentTerm != term then s
    else if reply.term > s.currentTerm then BecomeFollower(s, reply.term)
    else if !reply.voteGranted then s.(awaiting := s.awaiting - {peer})
    else
      var s1 := s.(votes := s.votes + 1, awaiting := s.awaiting - {peer});
      if s1.votes >= QuorumSize(s1) then BecomeLeader(s1) else s1
  }

  // ---------- Replication: the follower ----------

  /** The first index of the run of equal terms that ends at `index`, looking no lower than the compaction point. */
  function FirstOfRun(s: Node, index: int): int
    requires s.logOffset <= index <= LastIndex(s)
    decreases index - s.logOffset
  {
    if index > s.logOffset && TermAt(s, index - 1) == TermAt(s, index) then FirstOfRun(s, index - 1) else index
  }

  /** The log after the entries from position i on are appended behind index `prev`, deleting conflicts. */
  function AppendFrom(log: seq<Entry>, offset: int, prev: int, entries: seq<Entry>, i: nat): seq<Entry>
    requires offset <= prev && i <= |entries|
    decreases |entries| - i
  {
    if i == |entries| then log
    else
      var slot := prev + 1 + i - offset;
      if slot >= |log| then log + entries[i..]
      else if log[slot].term != entries[i].term then log[..slot] + entries[i..]
      else AppendFrom(log, offset, prev, entries, i + 1)
  }

  function HeardFromLeader(s: Node, term: int, leader: Id): Node
  {
    (if term > s.currentTerm then BecomeFollower(s, term) else s.(role := Follower)).(leaderId := leader)
  }

  /** The node after an AppendEntries that fits its log: the entries appended, and the leader's commits within the log. */
  function Appended(s: Node, a: AppendEntriesArgs): Node
    requires s.logOffset <= a.prevLogIndex
  {
    var log := AppendFrom(s.log, s.logOffset, a.prevLogIndex, a.entries, 0);
    s.(log := log, commitIndex := if a.leaderCommit > s.commitIndex
                                  then Min(a.leaderCommit, s.logOffset + |log| - 1) else s.commitIndex)
  }

  function HandleAppendEntries(s: Node, a: AppendEntriesArgs): (Node, AppendEntriesReply)
  {
    if a.term < s.currentTerm then (s, AppendEntriesReply(s.currentTerm, false, 0, 0))
    else
      var s1 := HeardFromLeader(s, a.term, a.leaderId);
      if a.prevLogIndex > LastIndex(s1) then (s1, AppendEntriesReply(s.currentTerm, false, LastIndex(s1) + 1, 0))
      else if a.prevLogIndex < s1.logOffset then (s1, AppendEntriesReply(s.currentTerm, false, s1.logOffset + 1, 0))
      else if a.prevLogIndex >= 0 && TermAt(s1, a.prevLogIndex) != a.prevLogTerm then
        (s1, AppendEntriesReply(s.currentTerm, false, FirstOfRun(s1, a.prevLogIndex), TermAt(s1, a.prevLogIndex)))
      else (Appended(s1, a), AppendEntriesReply(s1.currentTerm, true, 0, 0))
  }

  /** Whether the node replaces its log by the snapshot. */
  predicate Installs(s: Node, a: InstallSnapshotArgs)
  {
    a.term >= s.currentTerm && a.lastIncludedIndex > s.snapshot.lastIndex
  }

  function HandleInstallSnapshot(s: Node, a: InstallSnapshotArgs): (Node, InstallSnapshotReply)
  {
    if a.term < s.currentTerm then (s, InstallSnapshotReply(s.currentTerm))
    else
      var s1 := HeardFromLeader(s, a.term, a.leaderId);
      if !Installs(s, a) then (s1, InstallSnapshotReply(s1.currentTerm))
      else
        (s1.(snapshot := Snapshot(a.lastIncludedIndex, a.lastIncludedTerm, a.data),
             logOffset := a.lastIncludedIndex,
             log := [Entry(a.lastIncludedTerm, Undecodable)],
             commitIndex := Max(s1.commitIndex, a.lastIncludedIndex),
             lastApplied := Max(s1.lastApplied, a.lastIncludedIndex)),
         InstallSnapshotReply(s1.currentTerm))
  }

  // ---------- Replication: the leader ----------

  function Start(s: Node, p: Payload): Node
  {
    if s.role != Leader then s
    else
      var s1 := s.(log := s.log + [Entry(s.currentTerm, p)]);
      s1.(matchIndex := s1.matchIndex[s.id := LastIndex(s1)], nextIndex := s1.nextIndex[s.id := LastIndex(s1) + 1])
  }

  /** What a leader's attempt to replicate to one peer comes to. `OutOfRange` is a slice index past the end of the
      log, at which the program panics. */
  datatype Outgoing = NotLeader | Behind | OutOfRange | Append(args: AppendEntriesArgs)

  /** The next index to send to a peer; an unknown peer is taken to be up to date. */
  function NextFor(s: Node, peer: Id): int
  {
    if Lookup(s.nextIndex, peer) == 0 then LastIndex(s) + 1 else Lookup(s.nextIndex, peer)
  }

  function PrepareAppend(s: Node, peer: Id): (Node, Outgoing)
  {
    if s.role != Leader then (s, NotLeader)
    else
      var next := NextFor(s, peer);
      var s1 := if Lookup(s.nextIndex, peer) == 0 then s.(nextIndex := s.nextIndex[peer := next]) else s;
      if next <= s.logOffset then (s1, Behind)
      else if next > LastIndex(s) + 1 then (s1, OutOfRange)
      else (s1, Append(AppendEntriesArgs(s.currentTerm, s.id, next - 1, TermAt(s, next - 1),
                                         s.log[next - s.logOffset..], s.commitIndex)))
  }

  function PrepareSnapshot(s: Node): InstallSnapshotArgs
  {
    InstallSnapshotArgs(s.currentTerm, s.id, s.snapshot.lastIndex, s.snapshot.lastTerm, s.snapshot.data)
  }

  /** The last index at or below `index` whose entry has the given term, or -1. */
  function LastIndexOfTerm(s: Node, term: int, index: int): int
    requires index <= LastIndex(s)
    decreases index - s.logOffset
  {
    if index < s.logOffset then -1
    else if TermAt(s, index) == term then index
    else LastIndexOfTerm(s, term, index - 1)
  }

  /** Where to retry after a rejection. */
  function NextAfterReject(s: Node, peer: Id, reply: AppendEntriesReply): int
  {
    if reply.conflictTerm != 0 then
      var last := LastIndexOfTerm(s, reply.conflictTerm, LastIndex(s));
      if last > 0 then last + 1 else reply.conflictIndex
    else if reply.conflictIndex > 0 then reply.conflictIndex
    else Max(1, Lookup(s.nextIndex, peer) - 1)
  }

  function HandleAppendReply(s: Node, peer: Id, a: AppendEntriesArgs, reply: AppendEntriesReply): Node
  {
    if s.role != Leader || a.term != s.currentTerm then s
    else if reply.term > s.currentTerm then BecomeFollower(s, reply.term)
    else if reply.success then
      var matched := a.prevLogIndex + |a.entries|;
      s.(matchIndex := s.matchIndex[peer := matched], nextIndex := s.nextIndex[peer := matched + 1])
    else s.(nextIndex := s.nextIndex[peer := NextAfterReject(s, peer, reply)])
  }

  function HandleSnapshotReply(s: Node, peer: Id, a: InstallSnapshotArgs, reply: InstallSnapshotReply): Node
  {
    if s.role != Leader || a.term != s.currentTerm then s
    else if reply.term > s.currentTerm then BecomeFollower(s, reply.term)
    else s.(matchIndex := s.matchIndex[peer := a.lastIncludedIndex],
            nextIndex := s.nextIndex[peer := a.lastIncludedIndex + 1])
  }

  // ---------- Commit and apply ----------

  /** The peers known to hold the log through `index`. */
  function Holders(s: Node, index: int): set<Id>
  {
    set p | p in s.peers && Lookup(s.matchIndex, p) >= index
  }

  /** Whether the leader may commit at `index`: an entry of its own term, held by a majority. */
  predicate Committable(s: Node, index: int)
  {
    TermAt(s, index) == s.currentTerm && 1 + |Holders(s, index)| >= QuorumSize(s)
  }

  /** The highest committable index in (commitIndex, hi], or commitIndex when there is none. */
  function CommitPoint(s: Node, hi: int): int
    decreases hi - s.commitIndex
  {
    if hi <= s.commitIndex then s.commitIndex
    else if Committable(s, hi) then hi
    else CommitPoint(s, hi - 1)
  }

  function AdvanceCommit(s: Node): Node
  {
    if s.role != Leader then s else s.(commitIndex := CommitPoint(s, LastIndex(s)))
  }

  /** One round of the apply loop. `Stuck` is a slice index outside the log, at which the program panics. */
  datatype Delivery = Idle | Stuck | Deliver(node: Node, msg: ApplyMsg)

  function ApplyNext(s: Node): Delivery
  {
    if s.lastApplied >= s.commitIndex then Idle
    else
      var slot := s.lastApplied + 1 - s.logOffset;
      if slot < 0 || slot >= |s.log| then Stuck
      else Deliver(s.(lastApplied := s.lastApplied + 1), EntryMsg(s.lastApplied + 1, s.log[slot].payload))
  }

  // ---------- Compaction ----------

  /** Whether Snapshot(index) reports ErrSnapshotNotCommitted. */
  predicate CompactFails(s: Node, index: int)
  {
    index > s.logOffset && (index > s.commitIndex || index > LastIndex(s) || TermAt(s, index) < 0)
  }

  function Compact(s: Node, index: int, data: Image): Node
  {
    if index <= s.logOffset || CompactFails(s, index) then s
    else
      var term := TermAt(s, index);
      s.(log := [Entry(term, Undecodable)] + s.log[index + 1 - s.logOffset..],
         logOffset := index,
         snapshot := Snapshot(index, term, data),
         commitIndex := Max(s.commitIndex, index),
         lastApplied := Max(s.lastApplied, index))
  }
}

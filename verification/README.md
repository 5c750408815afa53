# A verified model of the Breeoche Raft node

Breeoche is a replicated key/value store. Each server holds a complete Raft node (`raft/raft.go`), a storage for the
node's durable state (`raft/storage.go`), an in-memory store (`kv/store.go`) and an apply loop that feeds committed
commands to the store and compacts the log (`server/server.go`). The code follows "In Search of an Understandable Consensus
Algorithm (Extended Version)", here called the extended Raft paper. It differs from it in places that need their own
proofs: the commit bound is `min(LeaderCommit, lastLogIndex())`, every AppendEntries carries the whole log suffix,
`commitIndex` is persisted, the log is addressed through an offset with a sentinel in slot 0, and an installed snapshot
always discards the whole log.

This project proves the safety of that node, and of a cluster of such nodes, over every run.

## Layers

- **The node** (`Kv`, `RaftTypes`, `Handlers`, `RaftNode`, `Server`). `RaftNode.Raft`, `RaftNode.MemoryStorage`, `Kv.Store` and
  `Server.Server` are classes with the fields and loops of the source. Each method is one critical section under the
  node's mutex. Its contract says that the new state is the function of the same name in `Handlers` (or `Server.Serve`)
  applied to the old one, and that the storage then holds exactly the durable part of the node.
- **The cluster** (`Ledger`, `Commitment`, `Cluster`, `AllRuns`, `GuardedRuns`). A run is a sequence of events of the
  processes over a network that may lose, delay, repeat and reorder messages; the events are built from the same
  `Handlers` functions. A history rides along and is never consulted by the cluster: each node's full uncompacted log,
  the append-only log of each term's leader, the votes and the acknowledgements. `Ledger` and `Commitment` say what every
  step keeps of the history, `AllRuns` and `GuardedRuns` what every step keeps between the history and the cluster.
- **The laws** (`Elections`, `Exchanges`, `CommitRule`, `Compaction`, `Recovery`, `StateMachine`, `Kv`). What each handler
  does, stated from the outside, and what whole elections and exchanges of messages come to.
- **The theorems** (`AllRuns`, `Safety`, `Replication`, `Backtracking`, `Progress`, `StaleSnapshot`, `Repair`,
  `RepairedRuns`). Safety over every run, and what a majority can always bring about.

## The guard

`HandleInstallSnapshot` throws the whole log away but only ever raises `commitIndex` and `lastApplied`, where Figure 13 of the
extended Raft paper keeps the entries that follow one shared with the snapshot. A stale rejection can move `nextIndex`
back, so a snapshot can reach a follower that is already past it. The follower then drops entries it acknowledged, and
safety is lost. `StaleSnapshot.UnguardedRunBreaksSafety` gives such a run, for any three ids and any commands, in which
two leaders commit different entries at the same index. `StaleSnapshot.UnguardedRunBreaksTheNode` gives one in which a
follower is left with a commit index past the end of its log. In both runs every message that is sent is received at
most once, as the program's calls are.

`GuardedRuns.DropsSharedTail` is the case in question, a test on the follower and the message before the call: the snapshot would
be installed, it ends below the follower's last index, and the follower has an entry of the snapshot's term at its index.
A run is `Guarded` when no event of it meets the test.

- `Repair.CodeAgainstFigure13` compares the handler with the rules of Figure 13, written out on their own: it keeps the
  log they keep if and only if the test is false, and it resets the state machine when they do if and only if the
  follower does not have the snapshot's entry.
- `Repair.InstallLoss` gives the exact loss of an install: the follower keeps all that it shared with its leader if and only
  if it shared nothing after the snapshot's index. The test being false implies that; the other way round, a follower
  may meet the test with a tail that its leader does not have, and lose nothing, but cannot know.
- `RepairedRuns.RepairedSafety` proves the same theorems without any guard, for all runs of a handler repaired after Figure 13.

Election Safety, Log Matching and the growth of terms are proved for all runs of the code. Leader Completeness, State
Machine Safety, the node invariant, matchIndex soundness, index ranges and replay equivalence are proved for guarded runs
of the code and, but for matchIndex soundness, restated for all runs of repaired nodes.

## Standing assumptions

- All nodes share one non-empty set of members, an id is not empty, and a node is not among its own peers.
- `Save` succeeds: the code drops its error at raft/raft.go:192, 295 and 359. A crash falls between critical sections.
- Encoding and decoding are exact: an entry's bytes are the command they decode to, or do not decode, and a snapshot's
  bytes are the image of the store.
- Integers are unbounded.
- An election timeout, a heartbeat, a snapshot transfer by a leader and a compaction at the last applied index may happen at
  any time. This allows more than the timers, the `nextIndex` test before a transfer and the snapshot threshold do, so
  what is proved covers them. A vote reply is processed at most once per peer and election, as each election asks each
  peer in one call; `votes` and `awaiting` stand for the variables of that election.
- The messages of `applyCommitted` and of an installed snapshot reach the apply channel together with the critical section that
  produces them.

## Model

| member | source | states |
|---|---|---|
| `AllRuns.ElectionSafety` | raft/raft.go:280-415 | over any run with lost, repeated, reordered messages and restarts, no two nodes lead one term, at the same moment or at different moments |
| `Ledger.OneLeaderPerTerm` | raft/raft.go:403-409 | any majority that voted for a node in a term that has a leader voted for that leader |
| `Ledger.QuorumsMeet` | raft/raft.go:744-746 | two quorums of size len(members)/2+1 share a member |
| `AllRuns.ElectionRemembered` | raft/raft.go:293-296 | an election once won stays the election of its term through the rest of the run |
| `AllRuns.RequestVoteStep` | raft/raft.go:280-305 | answering a vote request keeps one durable vote per term, given only to a log at least as up to date, and the node invariant of all runs |
| `AllRuns.VoteReplyStep` | raft/raft.go:394-412 | counting one reply per peer makes a leader only when a majority of the members voted for it |
| `Elections.VoteLaw` | raft/raft.go:280-305 | every request leaves the higher term, told in the reply; the vote is granted if and only if the term is not older, no other has the vote in it, and the candidate's end of log is lexicographically at least as high |
| `Elections.StepDownLaw` | raft/raft.go:793-801 | stepping down leaves a follower in the higher term, with a vote only in its own |
| `Elections.RepliesDepose` | raft/raft.go:651-662 | a processed reply of a higher term, to a vote request, a message or a snapshot, leaves a follower of that term without a vote |
| `Elections.ReceiveTells` | raft/raft.go:280-291 | any received message leaves the node in the term it tells or its own, whichever is higher, and a follower if it was new |
| `Elections.ToldForGood` | raft/raft.go:658-662 | over every run: once a node was told a term it never again is in, or leads, a lower one |
| `Elections.VoteReplyLaw` | raft/raft.go:394-412 | a reply is counted once and makes a leader, with fresh indices for every peer, if and only if the votes are then more than half of the members; one of another election changes nothing |
| `Elections.ElectionDecided` | raft/raft.go:346-415 | after any replies, a candidate leads if and only if its own vote and those granted are more than half of the members, and until then it waits for all others |
| `Elections.ElectionPossible` | raft/raft.go:346-415 | in any state of any run, a node that more than half of the members may vote for can be elected to its next term |
| `AllRuns.LogMatching` | raft/raft.go:437-476 | in every reachable state, equal terms at an index mean equal full logs through it, and equal stored entries above both compaction points |
| `Ledger.SameTermSamePrefix` | raft/raft.go:448-458 | two logs found in the leaders' logs and equal in term at an index are equal through it |
| `Ledger.TermsSorted` | raft/raft.go:184-185 | terms never fall along a log, and term 0 is the sentinel's alone |
| `AllRuns.AppendIsMerge` | raft/raft.go:461-476 | the append loop on the compacted slice yields the slice of the full log that takes the leader's prefix only where the two disagree |
| `AllRuns.RunInv` | raft/raft.go:176-742 | every event keeps the invariant that ties every node and every message ever sent to the history, in all runs |
| `Commitment.LeaderHasChosen` | raft/raft.go:293-300 | an entry acknowledged by a majority in its own term is in the log of every later leader, by induction over terms from the vote check |
| `Commitment.LeaderCompleteness` | raft/raft.go:718-733 | every later leader's log agrees with the choosing leader's through the chosen index |
| `Commitment.CommittedAgree` | raft/raft.go:718-733 | two logs committed through an index agree through it, whatever terms committed them |
| `Safety.LeadersHaveCommitted` | raft/raft.go:708-742 | Leader Completeness over guarded runs: what a leader had committed at one moment is in the log of every leader of a later term at every moment it leads |
| `Safety.StateMachineSafety` | raft/raft.go:462-483 | State Machine Safety over guarded runs: at any two moments two nodes agree on every entry at or below both commit indices |
| `Safety.CommittedForGood` | raft/raft.go:462-483 | a node's commit index never falls, and no later step of any kind changes or cuts its log at or below it |
| `GuardedRuns.AcceptKeepsCommitted` | raft/raft.go:462-476 | no accepted AppendEntries cuts the log at or below the commit index, and the log then agrees with the leader's through the message's end |
| `GuardedRuns.InstallKeepsCommitted` | raft/raft.go:512-531 | a snapshot that drops nothing shared with the leader reaches at least to the commit index and contradicts nothing committed |
| `GuardedRuns.GuardIsLossless` | raft/raft.go:512-524 | the guard, which the follower can test, implies that nothing shared with the leader is dropped |
| `Commitment.LossExactly` | raft/raft.go:523-524 | putting the leader's log through an index in place of a log gives up no shared entry if and only if none is shared after the index |
| `Repair.InstallLoss` | raft/raft.go:512-531 | for an install in a state that keeps the invariant: the exact condition of losing nothing, the guard implies it, it keeps the invariant, and an acknowledgement past the snapshot breaks it |
| `Repair.CodeAgainstFigure13` | raft/raft.go:499-541 | the kept log is the one of Figure 13 if and only if the guard holds, the reset happens as in Figure 13 if and only if the snapshot's entry is missing, and the exact condition under which all is alike |
| `Repair.RuleSixAlone` | raft/raft.go:687-706 | rule 6 of Figure 13 taken alone makes this apply loop run off the log, or deliver the sentinel, when the deleted entries were not applied |
| `Repair.RepairAgainstFigure13` | raft/raft.go:512-541 | the repaired handler keeps the log of Figure 13 always, and the exact condition under which all is alike |
| `Repair.KeepsTail` | raft/raft.go:512-531 | keeping the tail keeps the whole invariant with no guard |
| `RepairedRuns.RepairedSafety` | raft/raft.go:512-541 | State Machine Safety, Leader Completeness and replay equivalence for all runs of nodes with the repaired handler |
| `RepairedRuns.RepairedNodes` | raft/raft.go:512-541 | the node invariant and the index ranges for all runs of nodes with the repaired handler |
| `GuardedRuns.CommittableChosen` | raft/raft.go:718-733 | an index that passes the commit test was acknowledged by a majority in the leader's own term |
| `GuardedRuns.GuardedSafe` | raft/raft.go:176-742 | every event of a guarded run keeps the invariant on acknowledgements, committed prefixes, peers' indices, messages under way and stores |
| `GuardedRuns.ReplicateSafe` | raft/raft.go:563-594 | a leader's message is always in range, ends at its last index, and carries a committed LeaderCommit at or below that end |
| `Safety.CommitBound` | raft/raft.go:479-480 | for a message that commits no further than its end, the min with lastLogIndex() is LeaderCommit itself, so no leftover entry is committed |
| `GuardedRuns.RejectionHint` | raft/raft.go:437-458 | the hint of every rejection, also from a follower compacted past the probe, lies within the leader's log and is at least 1 |
| `Safety.IndexingInRange` | raft/raft.go:563-594 | in every guarded run every leader's nextIndex is in 1..lastLogIndex+1 and neither replication nor the apply loop slices outside the log |
| `GuardedRuns.ApplySafe` | raft/raft.go:687-706 | the apply loop never runs off the log, and what it delivers continues the channel without gap or repetition |
| `Safety.NodeInvariant` | raft/raft.go:119-130 | logOffset = snapshot index <= lastApplied <= commitIndex <= lastLogIndex, the sentinel has the snapshot's term, terms are sorted and at most currentTerm |
| `Safety.TermsRise` | raft/raft.go:793-801 | currentTerm never falls, in any run, across restarts |
| `Safety.MatchIndexSound` | raft/raft.go:636-666 | when a leader of term T holds matchIndex[p] = m > 0, p was at some moment in T with a log agreeing with the leader's through m, and still agrees while in T |
| `Safety.AckOrigin` | raft/raft.go:485-486 | for every acknowledgement there is a moment at which it was true |
| `CommitRule.QuorumIsLeastMajority` | raft/raft.go:744-746 | the quorum is the least number that is more than half of the members |
| `CommitRule.CommittableIs` | raft/raft.go:718-733 | the commit test holds exactly for an entry of the leader's term that more than half of the members are known to hold |
| `CommitRule.AdvanceReachesEveryMajority` | raft/raft.go:708-742 | commitIndex reaches every such index, moves to nothing else, and is the only field touched |
| `Progress.CommitPossible` | raft/raft.go:708-742 | in any state of any run, a leader whose last entry is of its term, and whose next message fits enough logs for a majority, can commit its whole log |
| `CommitRule.AdvanceIsOrderStatistic` | raft/raft.go:708-742 | the loop moves commitIndex to the quorum-th largest of lastLogIndex and the peers' matchIndex if that is above it and of the current term, and otherwise nowhere |
| `CommitRule.QuorumthUnique` | raft/raft.go:723-731 | there is at most one quorum-th largest index |
| `CommitRule.QuorumthExists` | raft/raft.go:723-731 | every leader that meets the rule's conditions has one, within its log |
| `CommitRule.LeadersHaveShape` | raft/raft.go:716-720 | every leader of a guarded run meets the rule's conditions: sorted terms up to its own, no peer known to be ahead |
| `Exchanges.AppendLaw` | raft/raft.go:418-459 | an older message changes nothing; any other makes a follower of its sender, succeeds if and only if it fits the log, and else gives exactly the hint the log calls for |
| `Exchanges.AppendLoopLaw` | raft/raft.go:461-476 | the log is cut at the first index where it ends or has another term than the message, and is the message's from there on; else it is kept with its tail |
| `Exchanges.AcceptedLaw` | raft/raft.go:461-486 | after a success the log has the message's terms behind its old start, and the commit index is the leader's within the log, never lowered by an older one |
| `Exchanges.InstallLaw` | raft/raft.go:495-534 | a snapshot takes the log's place if and only if it reaches further; the reply tells the higher term |
| `Exchanges.StartLaw` | raft/raft.go:176-192 | a leader gains one entry of its term and knows it; any other node nothing |
| `Exchanges.MessageLaw` | raft/raft.go:563-594 | a message carries the leader's term, id and commit index, and its whole log behind the peer's next index; a snapshot is called for exactly when that was compacted away |
| `Exchanges.AppendReplyLaw` | raft/raft.go:651-685 | a success records the end of the message; a rejection moves the next index behind the last entry of the conflicting term, or to the hint, or back by one; nothing else changes |
| `Exchanges.SnapshotReplyLaw` | raft/raft.go:636-649 | a reply to a snapshot records its index, for that peer only |
| `Exchanges.AppendExchange` | raft/raft.go:599-603 | a peer that accepts holds the leader's log term for term, is known to, has its commit index, and accepts the next, empty message unchanged |
| `Exchanges.SnapshotExchange` | raft/raft.go:606-649 | after a snapshot is answered the leader knows the peer at its index, and its next message carries the whole log from there |
| `Exchanges.SnapshotThenAppend` | raft/raft.go:606-649 | a follower that installed the snapshot accepts that message and then has the leader's log |
| `Exchanges.SnapshotSkipped` | raft/raft.go:512-516 | a follower that skipped it accepts that message, or gives the hint that makes it accept the one after |
| `Exchanges.SnapshotsCatchUp` | raft/raft.go:512-516 | in every state of a guarded run a leader and a peer not ahead of it meet the conditions of these exchanges |
| `Progress.SnapshotRun` | raft/raft.go:606-634 | in any state of any run a leader can carry out that exchange with any peer |
| `Progress.AppendRun` | raft/raft.go:563-604 | in any state of any run a leader with a message for a peer can have it received and answered, touching no other node |
| `Backtracking.FindAgreement` | raft/raft.go:651-685 | from any next index, the probe loop with conflict hints stops where stepping back by one stops, after at most one rejection for a short log and one per distinct term behind the follower's sentinel |
| `Backtracking.ExchangeOutcome` | raft/raft.go:437-458 | a probe succeeds exactly where the terms agree, and a rejection leaves both logs and retries without passing an index where they agree |
| `Backtracking.RejectedProbe` | raft/raft.go:671-682 | a retry goes strictly back past no agreement, and for a term mismatch the follower's term at the probe strictly falls unless the logs agree there |
| `Backtracking.LastOfTermIsBelow` | raft/raft.go:833-840 | by Log Matching, the leader's last entry of the conflicting term lies below the rejected probe |
| `Backtracking.PairsInRuns` | raft/raft.go:437-458 | in every run, a leader and a node not ahead of it meet the loop's conditions as long as neither has compacted |
| `Replication.Delivered` | raft/raft.go:447-483 | a message cut from the leader's log behind an agreed point succeeds, merges the logs and raises commitIndex to LeaderCommit |
| `Replication.AppendIdempotent` | raft/raft.go:447-483 | delivering it again changes neither the node nor the reply |
| `Replication.AppendCommutes` | raft/raft.go:447-483 | two such messages of one leader leave the same node in either order |
| `Replication.OlderNeverShortens` | raft/raft.go:462-476 | a message that ends where the logs already agree leaves the log as it is |
| `Compaction.CompactLaw` | raft/raft.go:202-246 | for a node with its indices in order, Snapshot fails exactly above commitIndex, takes effect exactly between the old point and commitIndex, and then records the entry's term and the data |
| `Compaction.CompactKeepsTheLog` | raft/raft.go:202-235 | compaction leaves the end of the log, the vote check, every term from the index on and every entry above it unchanged |
| `Compaction.CompactThenVote` | raft/raft.go:280-305 | a vote request gets the same reply and leaves the same node before or after compaction |
| `Compaction.CompactThenAppend` | raft/raft.go:418-492 | so does an AppendEntries at or above the index, but for a rejection's hint, which becomes its maximum with the index |
| `Compaction.CompactThenStart` | raft/raft.go:176-192 | submitting an entry commutes with compaction |
| `Compaction.CompactThenReplicate` | raft/raft.go:563-594 | a peer whose next index is above the compaction point is sent the same message |
| `Compaction.CompactThenReply` | raft/raft.go:651-685 | a reply is processed alike, unless it names a conflict term whose last entry was compacted away |
| `Compaction.CompactThenAdvance` | raft/raft.go:708-735 | the commit index moves to the same place |
| `Compaction.CompactThenSnapshotReply` | raft/raft.go:636-649 | a reply to a snapshot is processed alike |
| `Compaction.CompactThenTimeout` | raft/raft.go:346-360 | an election starts alike, with the same request |
| `Compaction.CompactThenVoteReply` | raft/raft.go:394-412 | a vote is counted alike, and a win sets the same indices |
| `Compaction.CompactThenApply` | raft/raft.go:687-706 | a node that has applied through the index delivers the same entry next, or panics alike |
| `Compaction.CompactThenInstall` | raft/raft.go:512-531 | a snapshot that reaches further erases the earlier compaction without trace |
| `Recovery.BootKeepsDurable` | raft/raft.go:79-130 | a started node holds exactly the loaded state if and only if that state is well formed |
| `Recovery.BootLaw` | raft/raft.go:79-130 | whatever was loaded, the started node keeps term, vote, snapshot and entries, has its indices in order, and changes only what was out of order |
| `Recovery.RestartLosesOnlyVolatile` | raft/raft.go:58-133 | in every guarded run the saved state is well formed, and a restart resets role, leader hint, lastApplied, nextIndex, matchIndex and the election, nothing else |
| `Recovery.InstallKeepsCommitInLog` | raft/raft.go:523-530 | commitIndex stays within the log if and only if the snapshot is not installed below it |
| `Repair.Figure13IsMerge` | raft/raft.go:518-524 | an install by Figure 13 equals accepting the leader's log through the snapshot's index, in all cases, and the snapshot's entry is there exactly when the logs agree that far |
| `StaleSnapshot.UnguardedRunBreaksSafety` | raft/raft.go:523-530 | for any three ids and any commands there is a run, not guarded and without repeated messages, in which the leaders of terms 2 and 3 have committed different entries at index 2 |
| `StaleSnapshot.UnguardedRunBreaksTheNode` | raft/raft.go:523-530 | ... and one in which a follower's commit index is past its log, the apply loop panics, and its leader in the same term holds a matchIndex past its log |
| `Safety.StoresReplayTheLog` | server/server.go:364-412 | at every moment each store is the replay of commands 1 to its last applied index, all committed, and stores that applied equally far at any two moments are equal |
| `Safety.StoreContents` | server/server.go:364-398 | in every guarded run a store has key k with value v if and only if the last effective command on k, among those taken, is a set or insert of v |
| `Safety.DrainCatchesUp` | raft/raft.go:687-706 | from any state that meets the invariant, applying until nothing is left yields the replay of the whole committed log |
| `Safety.RestartReplaysEverything` | server/server.go:432-439 | after a restart, snapshot plus replay of the entries above it yields the replay of the whole committed log, as without the restart |
| `StateMachine.ReplayMeaning` | kv/store.go:46-69 | a replay holds k exactly when some set or insert of it is followed by no delete, with the value of the last effective command on it, read off the log alone |
| `StateMachine.ReplayAgrees` | kv/store.go:46-69 | logs that agree through an index have equal replays up to it |
| `StateMachine.QueueAgrees` | raft/raft.go:704 | what is under way on the apply channel stays right for every log that agrees through the last delivered index |
| `Server.ServeAllIsEvents` | server/server.go:364-430 | what the apply loop computes, with any threshold, is a sequence of the cluster's Consume and CompactLog events |
| `Server.ServeLaw` | server/server.go:396-430 | a round applies its command, and moves the compaction point to the entry's index, with the store's image, if and only if the threshold is reached |
| `Server.LoopCompacts` | server/server.go:414-430 | in every guarded run, a server that ends with an entry has compacted to within the threshold of it |
| `Server.LoopReplaysTheLog` | server/server.go:364-430 | at every moment of a guarded run, emptying the channel leaves the replay of every delivered command and a snapshot that is the replay through the compaction point |
| `Server.Server.ApplyLoop` | server/server.go:364-398 | the loop over a channel has the effect of its rounds in order on the store and the node, and keeps the storage current |
| `Server.Server.Take` | server/server.go:366-396 | one round leaves the store that the command, the undecodable entry or the snapshot calls for, the node as specified, and reports the command's error |
| `Server.Server.MaybeSnapshot` | server/server.go:414-430 | the log is compacted with the store's image exactly when the threshold is reached since the last snapshot |
| `Server.Server.constructor` | server/server.go:94-110 | the store starts from the node's snapshot, if there is one |
| `Server.Server.RestoreSnapshot` | server/server.go:432-439 | the store takes the snapshot's image if a snapshot exists and is unchanged otherwise |
| `Kv.ApplyCommandEffect` | kv/store.go:46-69 | a rejected command changes nothing, an accepted one changes its own key only and as its operation says, and each error has exactly its cause |
| `Kv.Store.Apply` | kv/store.go:46-69 | the contents and the error are those of the specified command |
| `Kv.Store.Get` | kv/store.go:38-43 | a key is found exactly when present, with its value |
| `Kv.Store.TakeSnapshot` | kv/store.go:72-76 | the image is the contents |
| `Kv.Store.RestoreSnapshot` | kv/store.go:79-92 | the contents become the image, so a snapshot taken and restored is the same store |
| `RaftNode.MemoryStorage.Save` | raft/storage.go:29-32 | what is saved is what the storage holds |
| `RaftNode.MemoryStorage.Load` | raft/storage.go:25-27 | what is loaded is what was last saved |
| `RaftNode.NewRaft` | raft/raft.go:58-133 | an empty id is refused, a missing storage is a fresh one in memory, and otherwise the node starts from its storage |
| `RaftNode.Raft.constructor` | raft/raft.go:79-132 | the node starts as specified from its storage, which it matches exactly if the saved state is well formed |
| `RaftNode.Raft.BecomeFollower` | raft/raft.go:793-801 | the node steps down as specified, clearing its vote only with a higher term, and is saved |
| `RaftNode.Raft.BecomeLeader` | raft/raft.go:778-791 | the node leads with fresh indices for itself and every peer, and its durable state is unchanged |
| `RaftNode.Raft.StartElection` | raft/raft.go:346-360 | the node is a saved candidate of the next term, and its request describes the end of its log |
| `RaftNode.Raft.FinishLoneElection` | raft/raft.go:362-370 | a lone node leads the term it started |
| `RaftNode.Raft.HandleRequestVote` | raft/raft.go:280-305 | state and reply are as specified, and a granted vote is saved before the reply |
| `RaftNode.Raft.HandleVoteReply` | raft/raft.go:394-412 | a reply of the running election is counted as specified |
| `RaftNode.Raft.HandleAppendEntries` | raft/raft.go:418-492 | state and reply are as specified, and everything durable is saved before the reply |
| `RaftNode.Raft.FindConflict` | raft/raft.go:449-453 | the walk ends at the first stored index of the run of the conflicting term |
| `RaftNode.Raft.AppendEntries` | raft/raft.go:462-476 | the loop leaves the specified log, and it is saved |
| `RaftNode.Raft.HandleInstallSnapshot` | raft/raft.go:495-543 | state and reply are as specified, and a snapshot is delivered exactly when installed |
| `RaftNode.Raft.Start` | raft/raft.go:176-194 | a leader appends and saves the entry and returns its index and term, any other node reports failure |
| `RaftNode.Raft.PrepareAppend` | raft/raft.go:563-594 | the message is the whole log behind the peer's next index, or the peer is reported to need a snapshot |
| `RaftNode.Raft.HandleAppendReply` | raft/raft.go:651-685 | the leader's indices for the peer are as specified for success and for each kind of hint |
| `RaftNode.Raft.HandleSnapshotReply` | raft/raft.go:636-649 | the leader's indices for the peer are those after the snapshot |
| `RaftNode.Raft.LastIndexOfTerm` | raft/raft.go:833-840 | the downward search finds the last stored index of the term, or -1 |
| `RaftNode.Raft.CountHolders` | raft/raft.go:723-728 | the inner loop counts this node and every peer whose matchIndex reaches the index |
| `RaftNode.Raft.AdvanceCommitIndex` | raft/raft.go:708-737 | the upward loop leaves the highest committable index, saved if it moved |
| `RaftNode.Raft.ApplyCommitted` | raft/raft.go:687-706 | every committed entry not delivered yet is delivered once, in index order, with its payload; it panics if and only if the log does not hold them all, after delivering those before |
| `RaftNode.Raft.Compact` | raft/raft.go:202-246 | the log is compacted and saved as specified, and an error is reported exactly for an index that is not committed |

## Left out

- Safety.LeadersHaveCommitted: for guarded runs; false of the code without the guard (`StaleSnapshot.UnguardedRunBreaksSafety`), true without it for the repaired handler (`RepairedRuns.RepairedSafety`).
- Safety.StateMachineSafety: for guarded runs; false of the code without the guard (`StaleSnapshot.UnguardedRunBreaksSafety`), true without it for the repaired handler (`RepairedRuns.RepairedSafety`).
- Safety.CommittedForGood: for guarded runs; false of the code without the guard (`StaleSnapshot.UnguardedRunBreaksTheNode`, at its last moment).
- Safety.NodeInvariant: for guarded runs; false of the code without the guard (`StaleSnapshot.UnguardedRunBreaksTheNode`), true without it for the repaired handler (`RepairedRuns.RepairedNodes`).
- Safety.MatchIndexSound: for guarded runs; false of the code without the guard (`StaleSnapshot.UnguardedRunBreaksTheNode`).
- Safety.IndexingInRange: for guarded runs; false of the code without the guard (`StaleSnapshot.UnguardedRunBreaksTheNode`), true without it for the repaired handler (`RepairedRuns.RepairedNodes`).
- Safety.StoresReplayTheLog: for guarded runs; false of the code without the guard (`StaleSnapshot.UnguardedRunBreaksTheNode`), true without it for the repaired handler (`RepairedRuns.RepairedSafety`).
- Safety.RestartReplaysEverything: for guarded runs; false of the code without the guard (`StaleSnapshot.UnguardedRunBreaksTheNode`).
- RaftNode.Raft.ApplyCommitted: covers calls that do not overlap. Overlapping calls read `lastApplied` after unlocking (raft/raft.go:704) and may deliver out of order.
- RaftNode.NewRaft: does not model the default clock and channel, or a storage whose `Load` fails; the one in memory never does.
- RaftNode.Raft.Start: covers the critical section that appends; the commit and broadcast that follow are the events Advance and Replicate.
- RaftNode.Raft.PrepareAppend: reports a slice index past the end of the log, where the program panics, as a result of its own.
- Backtracking.FindAgreement: for uncompacted logs and an exchange without other messages between; with compaction the probe loop ends in a snapshot.
- Compaction: no claim for the snapshot a leader sends, which is another one after a compaction, nor for an install at or below the index, which a compacted node skips.
- A crash inside a critical section, between a change in memory and its `Save`, and failing saves.
- HTTP and RPC transports, routing, redirects, clients, commands and configuration: plumbing around the handlers.
- JSON and file persistence, including byte strings that do not survive a JSON round trip.
- Timers, tickers, randomised timeouts, and that anything happens in time: `Elections.ElectionPossible` and `Progress.CommitPossible` say what can happen, not that it will.
- WaitForCommit, notifyCh, applyWaiters and applyResults: a wake-up does not check the term again (raft/raft.go:266-268), so it does not mean that the caller's entry was committed.
- Linearizable reads: a read checks local leadership only (server/server.go:293-304).
- Growth of matchIndex and nextIndex: reply handlers assign without a maximum, and both may fall.
- Aliasing of the log slice between the node and the memory storage, and of `state.Log` in NewRaft.
- Integer overflow, debug logging and status.

/** The Raft node and its storage as objects updated in place (raft/raft.go, raft/storage.go). Each method is one critical
    section under the node's mutex. Its contract is the function of the same name in Handlers, and that what the storage
    holds afterwards is exactly the durable part of the node. */
module RaftNode {
  import opened Kv
  import opened RaftTypes
  import H = Handlers

  class MemoryStorage {
    var state: Durable

    constructor ()
      ensures state == FRESH_DISK
    {
      state := FRESH_DISK;
    }

    method Load() returns (d: Durable)
      ensures d == state
    {
      d := state;
    }

    method Save(d: Durable)
      modifies this
      ensures state == d
    {
      state := d;
    }
  }

  /** What a loaded state must satisfy for the node that starts from it to hold it unchanged. */
  predicate WellFormed(d: Durable)
  {
    && |d.log| > 0
    && (d.snapshot.lastIndex > 0 ==> d.log[0].term == d.snapshot.lastTerm)
    && d.snapshot.lastIndex <= d.commitIndex <= d.snapshot.lastIndex + |d.log| - 1
  }

  lemma TakenOut(holders: set<Id>, todo: set<Id>, p: Id)
    requires p in todo
    ensures |holders - (todo - {p})| == |holders - todo| + (if p in holders then 1 else 0)
  {
    assert holders - (todo - {p}) == (holders - todo) + (if p in holders then {p} else {});
  }

  lemma LeaderIndices(peers: set<Id>, id: Id, last: int)
    ensures (map p | p in peers :: last + 1)[id := last + 1] == map p | p in peers + {id} :: last + 1
    ensures (map p | p in peers :: 0)[id := last] == map p | p in peers + {id} :: if p == id then last else 0
  {
  }

  class Raft {
    const id: Id
    const peers: set<Id>
    const storage: MemoryStorage

    var role: Role
    var currentTerm: int
    var votedFor: Id
    var log: seq<Entry>
    var commitIndex: int
    var lastApplied: int
    var logOffset: int
    var snapshot: Snapshot
    var nextIndex: map<Id, int>
    var matchIndex: map<Id, int>
    var leaderId: Id
    var votes: int
    var awaiting: set<Id>

    ghost function View(): Node
      reads this
    {
      Node(id, peers, role, currentTerm, votedFor, log, commitIndex, lastApplied, logOffset, snapshot,
           nextIndex, matchIndex, leaderId, votes, awaiting)
    }

    /** A crash now would lose nothing durable. */
    ghost predicate Saved()
      reads this, storage
    {
      storage.state == H.Persisted(View())
    }

    /** NewRaft: starts from what the storage holds, and holds it unchanged exactly when it is well formed. */
    constructor (id: Id, peers: set<Id>, storage: MemoryStorage)
      ensures this.id == id && this.peers == peers && this.storage == storage
      ensures View() == H.Boot(id, peers, storage.state)
      ensures Saved() <==> WellFormed(storage.state)
    {
      var state := storage.state;
      var log := state.log;
      if |log| == 0 {
        log := [Entry(state.snapshot.lastTerm, Undecodable)];
      }
      if state.snapshot.lastIndex > 0 && log[0].term != state.snapshot.lastTerm {
        log := log[0 := log[0].(term := state.snapshot.lastTerm)];
      }
      var commit := state.commitIndex;
      if commit < state.snapshot.lastIndex {
        commit := state.snapshot.lastIndex;
      }
      if commit > state.snapshot.lastIndex + |log| - 1 {
        commit := state.snapshot.lastIndex + |log| - 1;
      }
      var applied := 0;
      if applied < state.snapshot.lastIndex {
        applied := state.snapshot.lastIndex;
      }
      if applied > commit {
        applied := commit;
      }
      this.id, this.peers, this.storage := id, peers, storage;
      role, currentTerm, votedFor, this.log := Follower, state.currentTerm, state.votedFor, log;
      commitIndex, lastApplied, logOffset, snapshot := commit, applied, state.snapshot.lastIndex, state.snapshot;
      nextIndex, matchIndex, leaderId, votes, awaiting := map[], map[], NOBODY, 0, {};
      new;
      assert |state.log| > 0 && state.snapshot.lastIndex > 0 ==>
          state.log[0 := state.log[0].(term := state.snapshot.lastTerm)][0].term == state.snapshot.lastTerm;
    }

    // ---------- Helpers ----------

    function LastLogIndex(): int
      reads this
    {
      logOffset + |log| - 1
    }

    function TermAt(index: int): int
      reads this
    {
      if index < logOffset || index > LastLogIndex() then -1 else log[index - logOffset].term
    }

    function QuorumSize(): int
    {
      (|peers| + 1) / 2 + 1
    }

    predicate IsUpToDate(lastIndex: int, lastTerm: int)
      reads this
    {
      var myTerm := if |log| == 0 then 0 else log[|log| - 1].term;
      if lastTerm != myTerm then lastTerm > myTerm else lastIndex >= LastLogIndex()
    }

    method Persist()
      modifies storage
      ensures Saved()
    {
      storage.Save(Durable(currentTerm, votedFor, log, commitIndex, snapshot));
    }

    method BecomeFollower(term: int)
      modifies this, storage
      ensures View() == H.BecomeFollower(old(View()), term) && Saved()
    {
      role := Follower;
      if term > currentTerm {
        currentTerm := term;
        votedFor := NOBODY;
      }
      Persist();
    }

    method BecomeLeader()
      requires Saved()
      modifies this
      ensures View() == H.BecomeLeader(old(View())) && Saved()
    {
      var last := LastLogIndex();
      var next: map<Id, int> := map p | p in peers :: last + 1;
      var matched: map<Id, int> := map p | p in peers :: 0;
      LeaderIndices(peers, id, last);
      role := Leader;
      leaderId := id;
      nextIndex := next[id := last + 1];
      matchIndex := matched[id := last];
    }

    /** lastIndexOfTerm, searching down from the end of the log. */
    method LastIndexOfTerm(term: int) returns (i: int)
      ensures i == H.LastIndexOfTerm(View(), term, H.LastIndex(View()))
    {
      i := LastLogIndex();
      while i >= logOffset
        invariant i <= LastLogIndex()
        invariant H.LastIndexOfTerm(View(), term, H.LastIndex(View())) == H.LastIndexOfTerm(View(), term, i)
      {
        if TermAt(i) == term {
          return;
        }
        i := i - 1;
      }
      i := -1;
    }

    // ---------- Elections ----------

    method StartElection() returns (request: RequestVoteArgs)
      requires Saved()
      modifies this, storage
      ensures View() == H.StartElection(old(View())) && Saved()
      ensures request == H.VoteRequest(View())
    {
      if role == Leader {
        request := RequestVoteArgs(currentTerm, id, LastLogIndex(), if |log| == 0 then 0 else log[|log| - 1].term);
        return;
      }
      role := Candidate;
      currentTerm := currentTerm + 1;
      votedFor := id;
      votes := 1;
      awaiting := peers;
      request := RequestVoteArgs(currentTerm, id, LastLogIndex(), if |log| == 0 then 0 else log[|log| - 1].term);
      Persist();
    }

    method FinishLoneElection(term: int)
      requires Saved()
      modifies this
      ensures View() == H.FinishLoneElection(old(View()), term) && Saved()
    {
      if currentTerm == term {
        BecomeLeader();
      }
    }

    method HandleRequestVote(a: RequestVoteArgs) returns (reply: RequestVoteReply)
      requires Saved()
      modifies this, storage
      ensures (View(), reply) == H.HandleRequestVote(old(View()), a) && Saved()
    {
      reply := RequestVoteReply(currentTerm, false);
      if a.term < currentTerm {
        return;
      }
      if a.term > currentTerm {
        BecomeFollower(a.term);
      }
      if (votedFor == NOBODY || votedFor == a.candidateId) && IsUpToDate(a.lastLogIndex, a.lastLogTerm) {
        votedFor := a.candidateId;
        Persist();
        reply := RequestVoteReply(currentTerm, true);
        return;
      }
      reply := RequestVoteReply(currentTerm, reply.voteGranted);
    }

    method HandleVoteReply(peer: Id, term: int, reply: RequestVoteReply)
      requires Saved()
      modifies this, storage
      ensures View() == H.HandleVoteReply(old(View()), peer, term, reply) && Saved()
    {
      if role != Candidate || currentTerm != term {
        return;
      }
      if reply.term > currentTerm {
        BecomeFollower(reply.term);
        return;
      }
      awaiting := awaiting - {peer};
      if reply.voteGranted {
        votes := votes + 1;
        if votes >= QuorumSize() {
          BecomeLeader();
        }
      }
    }

    // ---------- The follower ----------

    method HeardFromLeader(term: int, leader: Id)
      requires Saved()
      modifies this, storage
      ensures View() == H.HeardFromLeader(old(View()), term, leader) && Saved()
    {
      if term > currentTerm {
        BecomeFollower(term);
      } else if role != Follower {
        role := Follower;
        Persist();
      }
      leaderId := leader;
    }

    /** The walk back to the first entry of a conflicting term. */
    method FindConflict(prev: int) returns (index: int)
      requires logOffset <= prev <= LastLogIndex()
      ensures index == H.FirstOfRun(View(), prev)
    {
      var conflictTerm := TermAt(prev);
      index := prev;
      while index > logOffset && TermAt(index - 1) == conflictTerm
        invariant logOffset <= index <= prev && TermAt(index) == conflictTerm
        invariant H.FirstOfRun(View(), prev) == H.FirstOfRun(View(), index)
      {
        index := index - 1;
      }
    }

    /** The loop that appends entries, deleting conflicts. */
    method AppendEntries(prev: int, entries: seq<Entry>)
      requires Saved() && logOffset <= prev <= LastLogIndex()
      modifies this`log, storage
      ensures log == H.AppendFrom(old(log), logOffset, prev, entries, 0) && Saved()
    {
      ghost var target := H.AppendFrom(log, logOffset, prev, entries, 0);
      var i := 0;
      while i < |entries|
        invariant 0 <= i <= |entries| && log == old(log) && Saved()
        invariant target == H.AppendFrom(log, logOffset, prev, entries, i)
      {
        var index := prev + 1 + i;
        if index <= LastLogIndex() {
          if TermAt(index) != entries[i].term {
            var cut := index - logOffset;
            log := log[..cut] + entries[i..];
            Persist();
            return;
          }
        } else {
          log := log + entries[i..];
          Persist();
          return;
        }
        i := i + 1;
      }
    }

    method HandleAppendEntries(a: AppendEntriesArgs) returns (reply: AppendEntriesReply)
      requires Saved()
      modifies this, storage
      ensures (View(), reply) == H.HandleAppendEntries(old(View()), a) && Saved()
    {
      reply := AppendEntriesReply(currentTerm, false, 0, 0);
      if a.term < currentTerm {
        return;
      }
      HeardFromLeader(a.term, a.leaderId);
      if a.prevLogIndex > LastLogIndex() {
        reply := reply.(conflictIndex := LastLogIndex() + 1);
        return;
      }
      if a.prevLogIndex < logOffset {
        reply := reply.(conflictIndex := logOffset + 1);
        return;
      }
      if a.prevLogIndex >= 0 && TermAt(a.prevLogIndex) != a.prevLogTerm {
        var index := FindConflict(a.prevLogIndex);
        reply := reply.(conflictTerm := TermAt(a.prevLogIndex), conflictIndex := index);
        return;
      }
      AppendEntries(a.prevLogIndex, a.entries);
      if a.leaderCommit > commitIndex {
        commitIndex := if a.leaderCommit < LastLogIndex() then a.leaderCommit else LastLogIndex();
        Persist();
      }
      reply := reply.(success := true, term := currentTerm);
    }

    /** Puts a snapshot in place of the log through its index: the end of both Snapshot and HandleInstallSnapshot. */
    method Rebase(snap: Snapshot, rest: seq<Entry>)
      modifies this, storage
      ensures View() == old(View()).(snapshot := snap, logOffset := snap.lastIndex, log := rest,
                                     commitIndex := H.Max(old(commitIndex), snap.lastIndex),
                                     lastApplied := H.Max(old(lastApplied), snap.lastIndex))
      ensures Saved()
    {
      snapshot := snap;
      logOffset := snap.lastIndex;
      log := rest;
      if commitIndex < snap.lastIndex {
        commitIndex := snap.lastIndex;
      }
      if lastApplied < snap.lastIndex {
        lastApplied := snap.lastIndex;
      }
      Persist();
    }

    method HandleInstallSnapshot(a: InstallSnapshotArgs) returns (reply: InstallSnapshotReply, delivered: bool)
      requires Saved()
      modifies this, storage
      ensures (View(), reply) == H.HandleInstallSnapshot(old(View()), a) && Saved()
      ensures delivered <==> H.Installs(old(View()), a)
    {
      reply, delivered := InstallSnapshotReply(currentTerm), false;
      if a.term < currentTerm {
        return;
      }
      HeardFromLeader(a.term, a.leaderId);
      reply := InstallSnapshotReply(currentTerm);
      if a.lastIncludedIndex <= snapshot.lastIndex {
        return;
      }
      Rebase(Snapshot(a.lastIncludedIndex, a.lastIncludedTerm, a.data), [Entry(a.lastIncludedTerm, Undecodable)]);
      delivered := true;
    }

    // ---------- The leader ----------

    method Start(p: Payload) returns (index: int, term: int, ok: bool)
      requires Saved()
      modifies this, storage
      ensures View() == H.Start(old(View()), p) && Saved()
      ensures ok <==> old(role) == Leader
      ensures term == currentTerm && index == if ok then H.LastIndex(View()) else -1
    {
      if role != Leader {
        return -1, currentTerm, false;
      }
      log := log + [Entry(currentTerm, p)];
      index, term, ok := LastLogIndex(), currentTerm, true;
      matchIndex := matchIndex[id := index];
      nextIndex := nextIndex[id := index + 1];
      Persist();
    }

    method PrepareAppend(peer: Id) returns (out: H.Outgoing)
      requires Saved()
      modifies this
      ensures (View(), out) == H.PrepareAppend(old(View()), peer) && Saved()
    {
      if role != Leader {
        return H.NotLeader;
      }
      var next := if peer in nextIndex then nextIndex[peer] else 0;
      if next == 0 {
        next := LastLogIndex() + 1;
        nextIndex := nextIndex[peer := next];
      }
      if next <= logOffset {
        return H.Behind;
      }
      if next > LastLogIndex() + 1 {
        return H.OutOfRange;
      }
      out := H.Append(AppendEntriesArgs(currentTerm, id, next - 1, TermAt(next - 1), log[next - logOffset..], commitIndex));
    }

    method HandleAppendReply(peer: Id, a: AppendEntriesArgs, reply: AppendEntriesReply)
      requires Saved()
      modifies this, storage
      ensures View() == H.HandleAppendReply(old(View()), peer, a, reply) && Saved()
    {
      if role != Leader || a.term != currentTerm {
        return;
      }
      if reply.term > currentTerm {
        BecomeFollower(reply.term);
        return;
      }
      if reply.success {
        var matched := a.prevLogIndex + |a.entries|;
        matchIndex := matchIndex[peer := matched];
        nextIndex := nextIndex[peer := matched + 1];
      } else if reply.conflictTerm != 0 {
        var last := LastIndexOfTerm(reply.conflictTerm);
        nextIndex := nextIndex[peer := if last > 0 then last + 1 else reply.conflictIndex];
      } else if reply.conflictIndex > 0 {
        nextIndex := nextIndex[peer := reply.conflictIndex];
      } else {
        var before := (if peer in nextIndex then nextIndex[peer] else 0) - 1;
        nextIndex := nextIndex[peer := if 1 > before then 1 else before];
      }
    }

    method HandleSnapshotReply(peer: Id, a: InstallSnapshotArgs, reply: InstallSnapshotReply)
      requires Saved()
      modifies this, storage
      ensures View() == H.HandleSnapshotReply(old(View()), peer, a, reply) && Saved()
    {
      if role != Leader || a.term != currentTerm {
        return;
      }
      if reply.term > currentTerm {
        BecomeFollower(reply.term);
        return;
      }
      matchIndex := matchIndex[peer := a.lastIncludedIndex];
      nextIndex := nextIndex[peer := a.lastIncludedIndex + 1];
    }

    // ---------- Commit and apply ----------

    /** The inner loop of advanceCommitIndex: this node and the peers known to hold the log through `index`. */
    method CountHolders(index: int) returns (count: int)
      ensures count == 1 + |H.Holders(View(), index)|
    {
      count := 1;
      var todo := peers;
      ghost var holders := H.Holders(View(), index);
      while todo != {}
        invariant todo <= peers && count == 1 + |holders - todo|
        decreases |todo|
      {
        var p :| p in todo;
        if (if p in matchIndex then matchIndex[p] else 0) >= index {
          count := count + 1;
        }
        TakenOut(holders, todo, p);
        todo := todo - {p};
      }
      assert holders - {} == holders;
    }

    method AdvanceCommitIndex()
      requires Saved()
      modifies this, storage
      ensures View() == H.AdvanceCommit(old(View())) && Saved()
    {
      if role != Leader {
        return;
      }
      ghost var s := View();
      var last := LastLogIndex();
      var advanced := false;
      var index := commitIndex + 1;
      while index <= last
        invariant View() == s.(commitIndex := H.CommitPoint(s, index - 1))
        invariant index >= s.commitIndex + 1 && (index <= last + 1 || index == s.commitIndex + 1)
        invariant storage.state == H.Persisted(s)
        invariant !advanced ==> commitIndex == s.commitIndex
      {
        if TermAt(index) == currentTerm {
          var count := CountHolders(index);
          assert H.Holders(View(), index) == H.Holders(s, index);
          if count >= QuorumSize() {
            commitIndex := index;
            advanced := true;
          }
        }
        index := index + 1;
      }
      if advanced {
        Persist();
      }
      assert commitIndex == H.CommitPoint(s, last);
    }

    /** applyCommitted: delivers every committed entry not delivered yet, in order. It panics, at the first index it does not
        hold, if and only if the log does not hold all of them. */
    method ApplyCommitted() returns (msgs: seq<ApplyMsg>, panics: bool)
      modifies this`lastApplied
      ensures |msgs| == lastApplied - old(lastApplied)
      ensures msgs != [] ==> logOffset <= old(lastApplied) + 1 && lastApplied < logOffset + |log|
      ensures forall k | 0 <= k < |msgs| ::
                msgs[k] == EntryMsg(old(lastApplied) + 1 + k, log[old(lastApplied) + 1 + k - logOffset].payload)
      ensures panics <==> old(lastApplied) < commitIndex &&
                          (old(lastApplied) + 1 < logOffset || commitIndex >= logOffset + |log|)
      ensures !panics ==> lastApplied == H.Max(old(lastApplied), commitIndex)
      ensures panics <==> H.ApplyNext(View()).Stuck?
    {
      msgs, panics := [], false;
      while lastApplied < commitIndex
        invariant lastApplied <= commitIndex || lastApplied == old(lastApplied)
        invariant |msgs| == lastApplied - old(lastApplied)
        invariant msgs != [] ==> logOffset <= old(lastApplied) + 1 && lastApplied < logOffset + |log|
        invariant forall k | 0 <= k < |msgs| ::
                    msgs[k] == EntryMsg(old(lastApplied) + 1 + k, log[old(lastApplied) + 1 + k - logOffset].payload)
      {
        var slot := lastApplied + 1 - logOffset;
        if slot < 0 || slot >= |log| {
          return msgs, true;
        }
        lastApplied := lastApplied + 1;
        msgs := msgs + [EntryMsg(lastApplied, log[slot].payload)];
      }
    }

    // ---------- Compaction ----------

    method Compact(index: int, data: Image) returns (ok: bool)
      requires Saved()
      modifies this, storage
      ensures View() == H.Compact(old(View()), index, data) && Saved()
      ensures !ok <==> H.CompactFails(old(View()), index)
    {
      if index <= logOffset {
        return true;
      }
      if index > commitIndex || index > LastLogIndex() {
        return false;
      }
      var term := TermAt(index);
      if term < 0 {
        return false;
      }
      var start := index + 1 - logOffset;
      var next := [Entry(term, Undecodable)];
      if start < |log| {
        next := next + log[start..];
      }
      Rebase(Snapshot(index, term, data), next);
      ok := true;
    }
  }

  /** NewRaft: an empty id is refused, and a missing storage is an empty one in memory. */
  method NewRaft(id: Id, peers: set<Id>, storage: MemoryStorage?) returns (r: Raft?)
    ensures r == null <==> id == NOBODY
    ensures r != null ==>
              && r.id == id && r.peers == peers && fresh(r)
              && (if storage == null then fresh(r.storage) else r.storage == storage)
              && r.View() == H.Boot(id, peers, if storage == null then FRESH_DISK else storage.state)
              && (r.Saved() <==> storage == null || WellFormed(storage.state))
  {
    if id == NOBODY {
      return null;
    }
    var disk: MemoryStorage;
    if storage == null {
      disk := new MemoryStorage();
    } else {
      disk := storage;
    }
    r := new Raft(id, peers, disk);
  }
}

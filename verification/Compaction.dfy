/** Compaction changes what is stored, not what it means: a later step that does not refer below the compaction point does
    the same whether the compaction came before it or comes after. */
module Compaction {
  import opened Kv
  import opened RaftTypes
  import opened Handlers

  /** Snapshot(index) takes effect. */
  predicate Compacts(s: Node, index: int)
  {
    && |s.log| > 0
    && s.logOffset < index <= s.commitIndex
    && s.logOffset <= s.lastApplied
    && index <= LastIndex(s)
    && TermAt(s, index) >= 0
  }

  /** An index that is compacted already, or not committed, changes nothing. Any other becomes the compaction point, with the
      term of its entry and the given data as the snapshot. */
  lemma CompactLaw(s: Node, index: int, data: Image)
    requires |s.log| > 0 && s.logOffset <= s.lastApplied <= s.commitIndex <= LastIndex(s)
    requires forall i | s.logOffset <= i <= LastIndex(s) :: TermAt(s, i) >= 0
    ensures var c := Compact(s, index, data);
            && (CompactFails(s, index) <==> index > s.commitIndex)
            && (Compacts(s, index) <==> s.logOffset < index <= s.commitIndex)
            && (!Compacts(s, index) ==> c == s)
            && (Compacts(s, index) ==>
                  && c.logOffset == index && c.snapshot == Snapshot(index, TermAt(s, index), data)
                  && c.commitIndex == s.commitIndex && c.lastApplied == Max(s.lastApplied, index))
  {
  }

  /** The end of the log, the vote check, every term from the index on and every entry above it are unchanged. */
  lemma CompactKeepsTheLog(s: Node, index: int, data: Image)
    requires Compacts(s, index)
    ensures var c := Compact(s, index, data);
            && LastIndex(c) == LastIndex(s) && LastTerm(c) == LastTerm(s)
            && c.commitIndex == s.commitIndex
            && (forall i, t :: IsUpToDate(c, i, t) <==> IsUpToDate(s, i, t))
            && (forall j | j >= index :: TermAt(c, j) == TermAt(s, j))
            && c.log[1..] == s.log[index + 1 - s.logOffset..]
            && TermAt(c, index - 1) == -1
  {
  }

  /** Compaction does not touch the role, the term, the vote or the leader hint. */
  lemma CompactRestyled(s: Node, r: Node, index: int, data: Image)
    requires r == s.(role := r.role, currentTerm := r.currentTerm, votedFor := r.votedFor, leaderId := r.leaderId)
    requires Compacts(s, index)
    ensures Compacts(r, index)
    ensures Compact(r, index, data) ==
            Compact(s, index, data).(role := r.role, currentTerm := r.currentTerm,
                                     votedFor := r.votedFor, leaderId := r.leaderId)
  {
  }

  /** Only the log, its offset, the snapshot and lastApplied differ. */
  lemma CompactTouches(s: Node, index: int, data: Image)
    requires Compacts(s, index)
    ensures var c := Compact(s, index, data);
            c == s.(log := c.log, logOffset := index, snapshot := c.snapshot, lastApplied := c.lastApplied)
  {
  }

  lemma SameVote(s: Node, c: Node, a: RequestVoteArgs)
    requires c == s.(log := c.log, logOffset := c.logOffset, snapshot := c.snapshot, lastApplied := c.lastApplied)
    requires LastIndex(c) == LastIndex(s) && LastTerm(c) == LastTerm(s)
    ensures var (r, reply) := HandleRequestVote(s, a);
            && HandleRequestVote(c, a) ==
               (c.(role := r.role, currentTerm := r.currentTerm, votedFor := r.votedFor, leaderId := r.leaderId), reply)
            && r == s.(role := r.role, currentTerm := r.currentTerm, votedFor := r.votedFor, leaderId := r.leaderId)
  {
  }

  /** A vote request gets the same reply, and leaves the same node, whether it comes before the compaction or after. */
  lemma CompactThenVote(s: Node, index: int, data: Image, a: RequestVoteArgs)
    requires Compacts(s, index)
    ensures HandleRequestVote(Compact(s, index, data), a) ==
            (Compact(HandleRequestVote(s, a).0, index, data), HandleRequestVote(s, a).1)
  {
    hide Compact;
    hide Compacts;
    hide HandleRequestVote;
    CompactTouches(s, index, data);
    CompactKeepsTheLog(s, index, data);
    SameVote(s, Compact(s, index, data), a);
    CompactRestyled(s, HandleRequestVote(s, a).0, index, data);
  }

  lemma {:induction false} CompactFirstOfRun(s: Node, index: int, data: Image, prev: int)
    requires Compacts(s, index) && index <= prev <= LastIndex(s)
    ensures var c := Compact(s, index, data);
            && LastIndex(c) == LastIndex(s) && c.logOffset == index
            && FirstOfRun(c, prev) == Max(FirstOfRun(s, prev), index)
    decreases prev - index
  {
    hide Compact;
    hide TermAt;
    CompactTouches(s, index, data);
    CompactKeepsTheLog(s, index, data);
    if prev == index {
      RunStartsBelow(s, prev);
    } else if TermAt(s, prev - 1) == TermAt(s, prev) {
      CompactFirstOfRun(s, index, data, prev - 1);
    }
  }

  lemma {:induction false} RunStartsBelow(s: Node, index: int)
    requires s.logOffset <= index <= LastIndex(s)
    ensures FirstOfRun(s, index) <= index
    decreases index - s.logOffset
  {
    if index > s.logOffset && TermAt(s, index - 1) == TermAt(s, index) {
      RunStartsBelow(s, index - 1);
    }
  }

  /** The entries appended behind a compacted log are those appended behind the whole one. */
  lemma {:induction false} CompactAppendFrom(log: seq<Entry>, offset: int, index: int, prev: int, entries: seq<Entry>, i: nat)
    requires offset < index <= prev && index - offset < |log| && prev - offset < |log| && i <= |entries|
    ensures var first := [Entry(log[index - offset].term, Undecodable)];
            var whole := AppendFrom(log, offset, prev, entries, i);
            && |whole| > prev - offset
            && whole[..index - offset + 1] == log[..index - offset + 1]
            && AppendFrom(first + log[index + 1 - offset..], index, prev, entries, i) == first + whole[index + 1 - offset..]
    decreases |entries| - i
  {
    var first := [Entry(log[index - offset].term, Undecodable)];
    var cut := first + log[index + 1 - offset..];
    if i < |entries| {
      var slot := prev + 1 + i - offset;
      if slot >= |log| {
        assert (log + entries[i..])[index + 1 - offset..] == log[index + 1 - offset..] + entries[i..];
      } else if log[slot].term != entries[i].term {
        var at := prev + 1 + i - index;
        assert cut[at] == log[slot];
        assert cut[..at] == first + log[index + 1 - offset..slot];
        assert (log[..slot] + entries[i..])[index + 1 - offset..] == log[index + 1 - offset..slot] + entries[i..];
      } else {
        assert cut[prev + 1 + i - index] == log[slot];
        CompactAppendFrom(log, offset, index, prev, entries, i + 1);
      }
    }
  }

  /** Compacting after the append gives the compacted log with the same entries appended. */
  lemma CompactAccepted(s: Node, index: int, data: Image, prev: int, entries: seq<Entry>, commit: int)
    requires Compacts(s, index) && index <= prev <= LastIndex(s) && commit >= index
    ensures var c := Compact(s, index, data);
            var x := s.(log := AppendFrom(s.log, s.logOffset, prev, entries, 0), commitIndex := commit);
            && LastIndex(c.(log := AppendFrom(c.log, c.logOffset, prev, entries, 0))) == LastIndex(x)
            && LastIndex(x) >= prev
            && Compact(x, index, data) ==
               c.(log := AppendFrom(c.log, c.logOffset, prev, entries, 0), commitIndex := commit)
  {
    CompactAppendFrom(s.log, s.logOffset, index, prev, entries, 0);
    hide AppendFrom;
    var whole := AppendFrom(s.log, s.logOffset, prev, entries, 0);
    assert whole[index - s.logOffset] == whole[..index - s.logOffset + 1][index - s.logOffset];
    assert s.log[index - s.logOffset] == s.log[..index - s.logOffset + 1][index - s.logOffset];
  }

  /** An AppendEntries that does not refer below the compaction point is accepted or rejected as before, and leaves the
      same node as if the compaction came after. A rejection differs in its hint only, which cannot point below the
      compaction point. */
  lemma CompactThenAppend(s: Node, index: int, data: Image, a: AppendEntriesArgs)
    requires Compacts(s, index) && a.prevLogIndex >= index >= 0
    ensures var (x, rx) := HandleAppendEntries(s, a);
            var (y, ry) := HandleAppendEntries(Compact(s, index, data), a);
            && y == Compact(x, index, data)
            && ry == if rx.success || a.term < s.currentTerm then rx
                     else rx.(conflictIndex := Max(rx.conflictIndex, index))
  {
    hide Compact;
    hide Compacts;
    hide HandleAppendEntries;
    CompactTouches(s, index, data);
    if a.term < s.currentTerm {
      StaleAppend(s, a);
      StaleAppend(Compact(s, index, data), a);
    } else {
      var s1 := HeardFromLeader(s, a.term, a.leaderId);
      CompactRestyled(s, s1, index, data);
      HeardFirst(s, a);
      HeardFirst(Compact(s, index, data), a);
      CompactThenHeard(s1, index, data, a, s.currentTerm);
    }
  }

  lemma StaleAppend(s: Node, a: AppendEntriesArgs)
    requires a.term < s.currentTerm
    ensures HandleAppendEntries(s, a) == (s, AppendEntriesReply(s.currentTerm, false, 0, 0))
  {
  }

  /** What the handler does once the node follows the sender. */
  function AfterHearing(s1: Node, a: AppendEntriesArgs, before: int): (Node, AppendEntriesReply)
  {
    if a.prevLogIndex > LastIndex(s1) then (s1, AppendEntriesReply(before, false, LastIndex(s1) + 1, 0))
    else if a.prevLogIndex < s1.logOffset then (s1, AppendEntriesReply(before, false, s1.logOffset + 1, 0))
    else if a.prevLogIndex >= 0 && TermAt(s1, a.prevLogIndex) != a.prevLogTerm then
      (s1, AppendEntriesReply(before, false, FirstOfRun(s1, a.prevLogIndex), TermAt(s1, a.prevLogIndex)))
    else (Appended(s1, a), AppendEntriesReply(s1.currentTerm, true, 0, 0))
  }

  lemma HeardFirst(s: Node, a: AppendEntriesArgs)
    requires a.term >= s.currentTerm
    ensures HandleAppendEntries(s, a) == AfterHearing(HeardFromLeader(s, a.term, a.leaderId), a, s.currentTerm)
  {
  }

  lemma CompactThenHeard(s: Node, index: int, data: Image, a: AppendEntriesArgs, before: int)
    requires Compacts(s, index) && a.prevLogIndex >= index >= 0
    ensures var (x, rx) := AfterHearing(s, a, before);
            var (y, ry) := AfterHearing(Compact(s, index, data), a, before);
            && y == Compact(x, index, data)
            && ry == if rx.success then rx else rx.(conflictIndex := Max(rx.conflictIndex, index))
  {
    hide Compact;
    hide AppendFrom;
    var c := Compact(s, index, data);
    CompactTouches(s, index, data);
    CompactKeepsTheLog(s, index, data);
    if a.prevLogIndex <= LastIndex(s) {
      if TermAt(s, a.prevLogIndex) != a.prevLogTerm {
        CompactFirstOfRun(s, index, data, a.prevLogIndex);
      } else {
        CompactAppended(s, index, data, a);
      }
    }
  }

  lemma CompactAppended(s: Node, index: int, data: Image, a: AppendEntriesArgs)
    requires Compacts(s, index) && index <= a.prevLogIndex <= LastIndex(s)
    ensures Compact(s, index, data).logOffset == index
    ensures Compact(Appended(s, a), index, data) == Appended(Compact(s, index, data), a)
  {
    hide Compact;
    CompactTouches(s, index, data);
    CompactAccepted(s, index, data, a.prevLogIndex, a.entries, s.commitIndex);
    hide AppendFrom;
    CompactAccepted(s, index, data, a.prevLogIndex, a.entries, Appended(s, a).commitIndex);
  }

  // ---------- The leader ----------

  /** An entry submitted after the compaction is the entry submitted before it. */
  lemma CompactThenStart(s: Node, index: int, data: Image, p: Payload)
    requires Compacts(s, index)
    ensures Start(Compact(s, index, data), p) == Compact(Start(s, p), index, data)
  {
    if s.role == Leader {
      var cut := index + 1 - s.logOffset;
      assert (s.log + [Entry(s.currentTerm, p)])[cut..] == s.log[cut..] + [Entry(s.currentTerm, p)];
      assert [Entry(TermAt(s, index), Undecodable)] + s.log[cut..] + [Entry(s.currentTerm, p)]
          == [Entry(TermAt(s, index), Undecodable)] + (s.log[cut..] + [Entry(s.currentTerm, p)]);
    }
  }

  /** A peer that needs nothing from below the compaction point is sent the same message. */
  lemma CompactThenReplicate(s: Node, index: int, data: Image, peer: Id)
    requires Compacts(s, index) && NextFor(s, peer) > index
    ensures PrepareAppend(Compact(s, index, data), peer) ==
            (Compact(PrepareAppend(s, peer).0, index, data), PrepareAppend(s, peer).1)
  {
    hide Compact;
    CompactKeepsTheLog(s, index, data);
    CompactTouches(s, index, data);
    CompactKeepsNext(s, index, data, PrepareAppend(s, peer).0.nextIndex, s.matchIndex);
    var c := Compact(s, index, data);
    var next := NextFor(s, peer);
    if s.role == Leader && next <= LastIndex(s) + 1 {
      assert c.log[next - index..] == c.log[1..][next - index - 1..];
      assert s.log[next - s.logOffset..] == s.log[index + 1 - s.logOffset..][next - index - 1..];
    }
  }

  /** Compaction does not touch what the leader knows of its peers. */
  lemma CompactKeepsNext(s: Node, index: int, data: Image, next: map<Id, int>, matched: map<Id, int>)
    requires Compacts(s, index)
    ensures Compact(s.(nextIndex := next, matchIndex := matched), index, data) ==
            Compact(s, index, data).(nextIndex := next, matchIndex := matched)
  {
  }

  lemma {:induction false} CompactLastOfTerm(s: Node, index: int, data: Image, term: int, from: int)
    requires Compacts(s, index) && 0 <= index <= from + 1 && from <= LastIndex(s)
    ensures var last := LastIndexOfTerm(s, term, from);
            && LastIndex(Compact(s, index, data)) == LastIndex(s)
            && LastIndexOfTerm(Compact(s, index, data), term, from) == if last >= index then last else -1
    decreases from + 1
  {
    hide Compact;
    CompactKeepsTheLog(s, index, data);
    CompactTouches(s, index, data);
    if from < index {
      LastOfTermBelow(s, term, from);
    } else if TermAt(s, from) != term {
      CompactLastOfTerm(s, index, data, term, from - 1);
    }
  }

  lemma {:induction false} LastOfTermBelow(s: Node, term: int, from: int)
    requires from <= LastIndex(s)
    ensures LastIndexOfTerm(s, term, from) <= Max(from, -1)
    decreases from - s.logOffset
  {
    if from >= s.logOffset && TermAt(s, from) != term {
      LastOfTermBelow(s, term, from - 1);
    }
  }

  /** A reply is processed alike, unless it is a rejection in a term whose last entry on this leader is below the
      compaction point. */
  lemma CompactThenReply(s: Node, index: int, data: Image, peer: Id, a: AppendEntriesArgs, reply: AppendEntriesReply)
    requires Compacts(s, index) && index >= 0
    requires !reply.success && reply.conflictTerm != 0 ==>
               !(0 < LastIndexOfTerm(s, reply.conflictTerm, LastIndex(s)) < index)
    ensures HandleAppendReply(Compact(s, index, data), peer, a, reply) ==
            Compact(HandleAppendReply(s, peer, a, reply), index, data)
  {
    hide Compact;
    CompactTouches(s, index, data);
    CompactLastOfTerm(s, index, data, reply.conflictTerm, LastIndex(s));
    CompactRestyled(s, BecomeFollower(s, reply.term), index, data);
    var r := HandleAppendReply(s, peer, a, reply);
    CompactKeepsNext(s, index, data, r.nextIndex, r.matchIndex);
  }

  lemma {:induction false} CompactCommitPoint(s: Node, index: int, data: Image, hi: int)
    requires Compacts(s, index)
    ensures CommitPoint(Compact(s, index, data), hi) == CommitPoint(s, hi) >= s.commitIndex
    decreases hi - s.commitIndex
  {
    hide Compact;
    CompactTouches(s, index, data);
    CompactKeepsTheLog(s, index, data);
    if hi > s.commitIndex {
      assert Holders(Compact(s, index, data), hi) == Holders(s, hi);
      CompactCommitPoint(s, index, data, hi - 1);
    }
  }

  /** The commit index moves to the same place. */
  lemma CompactThenAdvance(s: Node, index: int, data: Image)
    requires Compacts(s, index)
    ensures AdvanceCommit(Compact(s, index, data)) == Compact(AdvanceCommit(s), index, data)
  {
    hide CommitPoint;
    CompactCommitPoint(s, index, data, LastIndex(s));
    CompactKeepsTheLog(s, index, data);
  }

  /** So does a reply to a snapshot. */
  lemma CompactThenSnapshotReply(s: Node, index: int, data: Image, peer: Id, a: InstallSnapshotArgs,
                                 reply: InstallSnapshotReply)
    requires Compacts(s, index)
    ensures HandleSnapshotReply(Compact(s, index, data), peer, a, reply) ==
            Compact(HandleSnapshotReply(s, peer, a, reply), index, data)
  {
    hide Compact;
    CompactTouches(s, index, data);
    CompactRestyled(s, BecomeFollower(s, reply.term), index, data);
    var r := HandleSnapshotReply(s, peer, a, reply);
    CompactKeepsNext(s, index, data, r.nextIndex, r.matchIndex);
  }

  // ---------- Elections and the apply loop ----------

  /** The compaction does not touch the election, nor what the node knows of its peers. */
  lemma CompactElection(s: Node, r: Node, index: int, data: Image)
    requires Compacts(s, index)
    requires r == s.(role := r.role, currentTerm := r.currentTerm, votedFor := r.votedFor, leaderId := r.leaderId,
                     votes := r.votes, awaiting := r.awaiting, nextIndex := r.nextIndex, matchIndex := r.matchIndex)
    ensures Compact(r, index, data) ==
            Compact(s, index, data).(role := r.role, currentTerm := r.currentTerm, votedFor := r.votedFor,
                                     leaderId := r.leaderId, votes := r.votes, awaiting := r.awaiting,
                                     nextIndex := r.nextIndex, matchIndex := r.matchIndex)
  {
  }

  /** An election starts alike, with the same request to every peer. */
  lemma CompactThenTimeout(s: Node, index: int, data: Image)
    requires Compacts(s, index)
    ensures StartElection(Compact(s, index, data)) == Compact(StartElection(s), index, data)
    ensures VoteRequest(StartElection(Compact(s, index, data))) == VoteRequest(StartElection(s))
  {
    hide Compact;
    CompactTouches(s, index, data);
    CompactKeepsTheLog(s, index, data);
    CompactElection(s, StartElection(s), index, data);
  }

  /** ... and ends alike, with the same indices for every peer. */
  lemma CompactThenVoteReply(s: Node, index: int, data: Image, peer: Id, term: int, reply: RequestVoteReply)
    requires Compacts(s, index)
    ensures HandleVoteReply(Compact(s, index, data), peer, term, reply) ==
            Compact(HandleVoteReply(s, peer, term, reply), index, data)
  {
    hide Compact;
    CompactTouches(s, index, data);
    CompactKeepsTheLog(s, index, data);
    CompactElection(s, HandleVoteReply(s, peer, term, reply), index, data);
  }

  lemma CompactApplied(s: Node, index: int, data: Image, last: int)
    requires Compacts(s, index) && index <= s.lastApplied <= last
    ensures Compact(s, index, data).lastApplied == s.lastApplied
    ensures Compact(s.(lastApplied := last), index, data) == Compact(s, index, data).(lastApplied := last)
  {
  }

  /** A node that has applied through the index delivers the same entry next. */
  lemma CompactThenApply(s: Node, index: int, data: Image)
    requires Compacts(s, index) && index <= s.lastApplied
    ensures var d, e := ApplyNext(s), ApplyNext(Compact(s, index, data));
            && (d.Idle? <==> e.Idle?) && (d.Stuck? <==> e.Stuck?)
            && (d.Deliver? ==> e.msg == d.msg && e.node == Compact(d.node, index, data))
  {
    hide Compact;
    CompactKeepsTheLog(s, index, data);
    CompactTouches(s, index, data);
    CompactApplied(s, index, data, s.lastApplied + 1);
    hide Compacts;
    var c := Compact(s, index, data);
    var slot := s.lastApplied + 1 - index;
    if slot < |c.log| {
      assert c.log[slot] == c.log[1..][slot - 1] == s.log[index + 1 - s.logOffset..][slot - 1];
    }
  }

  // ---------- A snapshot from the leader ----------

  /** A snapshot that reaches further makes an earlier compaction as if it had never been. */
  lemma CompactThenInstall(s: Node, index: int, data: Image, a: InstallSnapshotArgs)
    requires Compacts(s, index) && s.snapshot.lastIndex == s.logOffset
    requires a.term >= s.currentTerm && a.lastIncludedIndex > index
    ensures HandleInstallSnapshot(Compact(s, index, data), a) == HandleInstallSnapshot(s, a)
  {
    CompactTouches(s, index, data);
  }
}

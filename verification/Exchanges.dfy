/** What each message between a leader and a follower does, to both, and what a whole exchange of them comes to. */
module Exchanges {
  import opened Kv
  import opened RaftTypes
  import opened Handlers
  import opened Ledger
  import opened Commitment
  import opened Cluster
  import opened AllRuns
  import opened GuardedRuns
  import opened Safety

  // ---------- The follower ----------

  /** r is s as a follower of `leader` in its term, with whatever log r has; a vote of an earlier term is gone. */
  predicate Follows(s: Node, r: Node, term: int, leader: Id)
  {
    r == s.(role := Follower, currentTerm := term, leaderId := leader,
            votedFor := if term > s.currentTerm then NOBODY else s.votedFor,
            log := r.log, logOffset := r.logOffset, snapshot := r.snapshot,
            commitIndex := r.commitIndex, lastApplied := r.lastApplied)
  }

  /** The hint of a rejection: just behind the end of a log that is too short, or behind the compaction point of one that
      starts later; otherwise the conflicting term, and where its run of entries starts in the log. */
  predicate Hint(s: Node, prev: int, reply: AppendEntriesReply)
  {
    if prev > LastIndex(s) then reply.conflictTerm == 0 && reply.conflictIndex == LastIndex(s) + 1
    else if prev < s.logOffset then reply.conflictTerm == 0 && reply.conflictIndex == s.logOffset + 1
    else
      && reply.conflictTerm == TermAt(s, prev)
      && s.logOffset <= reply.conflictIndex <= prev
      && (forall i | reply.conflictIndex <= i <= prev :: TermAt(s, i) == TermAt(s, prev))
      && (reply.conflictIndex > s.logOffset ==> TermAt(s, reply.conflictIndex - 1) != TermAt(s, prev))
  }

  lemma {:induction false} RunLaw(s: Node, prev: int)
    requires s.logOffset <= prev <= LastIndex(s)
    ensures var first := FirstOfRun(s, prev);
            && s.logOffset <= first <= prev
            && (forall i | first <= i <= prev :: TermAt(s, i) == TermAt(s, prev))
            && (first > s.logOffset ==> TermAt(s, first - 1) != TermAt(s, prev))
    decreases prev - s.logOffset
  {
    if prev > s.logOffset && TermAt(s, prev - 1) == TermAt(s, prev) {
      RunLaw(s, prev - 1);
    }
  }

  /** The message carries on from an entry of the log. */
  predicate Fits(s: Node, a: AppendEntriesArgs)
  {
    s.logOffset <= a.prevLogIndex <= LastIndex(s) && (a.prevLogIndex >= 0 ==> TermAt(s, a.prevLogIndex) == a.prevLogTerm)
  }

  /** An AppendEntries of an older term changes nothing and is told the newer one. Any other makes a follower of its sender;
      it succeeds if and only if it fits the log. A rejection leaves the log and the commit index, and still tells the
      term the node had before. A success tells the message's term. */
  lemma AppendLaw(s: Node, a: AppendEntriesArgs)
    ensures var (r, reply) := HandleAppendEntries(s, a);
            if a.term < s.currentTerm then r == s && reply == AppendEntriesReply(s.currentTerm, false, 0, 0)
            else
              && Follows(s, r, a.term, a.leaderId)
              && r.logOffset == s.logOffset && r.snapshot == s.snapshot && r.lastApplied == s.lastApplied
              && (reply.success <==> Fits(s, a))
              && (if reply.success then reply == AppendEntriesReply(a.term, true, 0, 0)
                  else
                    && r.log == s.log && r.commitIndex == s.commitIndex
                    && reply.term == s.currentTerm && Hint(s, a.prevLogIndex, reply))
  {
    var s1 := HeardFromLeader(s, a.term, a.leaderId);
    hide AppendFrom;
    if s.logOffset <= a.prevLogIndex <= LastIndex(s) {
      RunLaw(s1, a.prevLogIndex);
      assert forall i :: TermAt(s1, i) == TermAt(s, i);
    }
  }

  /** What a message that fits leaves: the first index behind it at which the log ends or has another term than the message
      is found, and from there on the log is the message's; a log that has it all is kept as it is, with all that
      follows. */
  lemma {:induction false} AppendLoopLaw(log: seq<Entry>, offset: int, prev: int, entries: seq<Entry>, i: nat) returns (c: nat)
    requires offset <= prev && i <= |entries| && prev + i - offset < |log|
    ensures i <= c <= |entries| && prev + c - offset < |log|
    ensures forall j | i <= j < c :: log[prev + 1 + j - offset].term == entries[j].term
    ensures c < |entries| && prev + 1 + c - offset < |log| ==> log[prev + 1 + c - offset].term != entries[c].term
    ensures AppendFrom(log, offset, prev, entries, i) ==
            if c == |entries| then log else log[..prev + 1 + c - offset] + entries[c..]
    decreases |entries| - i
  {
    if i < |entries| && prev + 1 + i - offset < |log| && log[prev + 1 + i - offset].term == entries[i].term {
      c := AppendLoopLaw(log, offset, prev, entries, i + 1);
    } else {
      c := i;
    }
  }

  /** After a success the log has the message's terms, behind what it had through the message's start, and is at least as
      long as the message; the commit index is never lowered by an older one, and else is the leader's within the log. */
  lemma AcceptedLaw(s: Node, a: AppendEntriesArgs)
    requires a.term >= s.currentTerm && Fits(s, a)
    ensures var r := HandleAppendEntries(s, a).0;
            var end := a.prevLogIndex + |a.entries|;
            && r.logOffset == s.logOffset && LastIndex(r) >= end && (LastIndex(r) > end ==> r.log == s.log)
            && (forall j | s.logOffset <= j <= a.prevLogIndex :: TermAt(r, j) == TermAt(s, j))
            && (forall j | a.prevLogIndex < j <= end :: TermAt(r, j) == a.entries[j - a.prevLogIndex - 1].term)
            && (a.leaderCommit <= s.commitIndex ==> r.commitIndex == s.commitIndex)
            && (a.leaderCommit > s.commitIndex ==>
                  r.commitIndex <= a.leaderCommit && r.commitIndex <= LastIndex(r) &&
                  (r.commitIndex == a.leaderCommit || r.commitIndex == LastIndex(r)))
  {
    AppendedTerms(s.log, s.logOffset, a.prevLogIndex, a.entries);
    hide AppendFrom;
  }

  lemma AppendedTerms(log: seq<Entry>, offset: int, prev: int, entries: seq<Entry>)
    requires offset <= prev < offset + |log|
    ensures var whole := AppendFrom(log, offset, prev, entries, 0);
            && |whole| > prev + |entries| - offset && (|whole| > prev + |entries| + 1 - offset ==> whole == log)
            && (forall j | 0 <= j <= prev - offset :: whole[j] == log[j])
            && (forall j | prev - offset < j <= prev + |entries| - offset ::
                  whole[j].term == entries[j + offset - prev - 1].term)
  {
    var c := AppendLoopLaw(log, offset, prev, entries, 0);
    hide AppendFrom;
    var whole := AppendFrom(log, offset, prev, entries, 0);
    forall j | prev - offset < j <= prev + |entries| - offset ensures whole[j].term == entries[j + offset - prev - 1].term {
      var i := j + offset - prev - 1;
      if i < c {
        assert log[prev + 1 + i - offset].term == entries[i].term;
      }
    }
  }

  /** An InstallSnapshot of an older term changes nothing. Any other makes a follower of its sender, which is told the
      message's term. The snapshot takes the place of the log if and only if it reaches further than the node's own. */
  lemma InstallLaw(s: Node, a: InstallSnapshotArgs)
    ensures var (r, reply) := HandleInstallSnapshot(s, a);
            && reply.term == r.currentTerm == Max(s.currentTerm, a.term)
            && (a.term < s.currentTerm ==> r == s)
            && (a.term >= s.currentTerm ==> Follows(s, r, a.term, a.leaderId))
            && (if a.term >= s.currentTerm && a.lastIncludedIndex > s.snapshot.lastIndex then
                  && r.snapshot == Snapshot(a.lastIncludedIndex, a.lastIncludedTerm, a.data)
                  && r.logOffset == a.lastIncludedIndex == LastIndex(r) && TermAt(r, LastIndex(r)) == a.lastIncludedTerm
                  && r.commitIndex == Max(s.commitIndex, a.lastIncludedIndex)
                  && r.lastApplied == Max(s.lastApplied, a.lastIncludedIndex)
                else
                  && r.log == s.log && r.logOffset == s.logOffset && r.snapshot == s.snapshot
                  && r.commitIndex == s.commitIndex && r.lastApplied == s.lastApplied)
  {
  }

  // ---------- The leader ----------

  /** r is s but for what it knows of one member. */
  ghost predicate OnlyPeer(s: Node, r: Node, peer: Id)
  {
    && r == s.(nextIndex := r.nextIndex, matchIndex := r.matchIndex)
    && (forall q | q != peer :: Lookup(r.nextIndex, q) == Lookup(s.nextIndex, q))
    && (forall q | q != peer :: Lookup(r.matchIndex, q) == Lookup(s.matchIndex, q))
  }

  /** A leader appends one entry of its term, and knows that it has it. Another node does nothing. */
  lemma StartLaw(s: Node, p: Payload)
    ensures var r := Start(s, p);
            && (s.role != Leader ==> r == s)
            && (s.role == Leader ==>
                  && LastIndex(r) == LastIndex(s) + 1 && r.log[..|s.log|] == s.log && r.log[|s.log|] == Entry(s.currentTerm, p)
                  && OnlyPeer(s.(log := r.log), r, s.id)
                  && Lookup(r.matchIndex, s.id) == LastIndex(r) && Lookup(r.nextIndex, s.id) == LastIndex(r) + 1)
  {
  }

  /** What a leader sends a peer: the whole log from the peer's next index on, behind the entry before it, with the leader's
      own term, id and commit index; a snapshot instead exactly when that index was compacted away. */
  lemma MessageLaw(s: Node, peer: Id)
    ensures var (r, out) := PrepareAppend(s, peer);
            var next := if Lookup(s.nextIndex, peer) == 0 then LastIndex(s) + 1 else Lookup(s.nextIndex, peer);
            && (out.NotLeader? <==> s.role != Leader)
            && (s.role != Leader ==> r == s)
            && (s.role == Leader ==>
                  && OnlyPeer(s, r, peer) && Lookup(r.nextIndex, peer) == next && r.matchIndex == s.matchIndex
                  && (out.Behind? <==> next <= s.logOffset)
                  && (out.OutOfRange? <==> next > s.logOffset && next > LastIndex(s) + 1))
            && (out.Append? ==>
                  && out.args.term == s.currentTerm && out.args.leaderId == s.id && out.args.leaderCommit == s.commitIndex
                  && out.args.prevLogIndex == next - 1 && out.args.prevLogTerm == TermAt(s, next - 1)
                  && s.logOffset < next <= LastIndex(s) + 1 && out.args.entries == s.log[next - s.logOffset..])
  {
  }

  /** A success moves what the leader knows of the peer to the end of the message it answers. A rejection moves the next index
      only: behind the leader's last entry of the conflicting term if it has one, else to the hint, else back by one.
      A reply to an older message, or to a node that no longer leads, changes nothing. */
  lemma AppendReplyLaw(s: Node, peer: Id, a: AppendEntriesArgs, reply: AppendEntriesReply)
    ensures var r := HandleAppendReply(s, peer, a, reply);
            && (s.role != Leader || a.term != s.currentTerm ==> r == s)
            && (s.role == Leader && a.term == s.currentTerm && reply.term <= s.currentTerm ==>
                  && OnlyPeer(s, r, peer)
                  && (reply.success ==>
                        Lookup(r.matchIndex, peer) == a.prevLogIndex + |a.entries| == Lookup(r.nextIndex, peer) - 1)
                  && (!reply.success ==> r.matchIndex == s.matchIndex && Retried(s, peer, reply, Lookup(r.nextIndex, peer))))
  {
    LastLaw(s, reply.conflictTerm, LastIndex(s));
  }

  ghost predicate Retried(s: Node, peer: Id, reply: AppendEntriesReply, next: int)
  {
    if reply.conflictTerm != 0 then
      if exists i :: i > 0 && HasTerm(s, i, reply.conflictTerm)
      then HasTerm(s, next - 1, reply.conflictTerm) && forall i | i >= next :: !HasTerm(s, i, reply.conflictTerm)
      else next == reply.conflictIndex
    else if reply.conflictIndex > 0 then next == reply.conflictIndex
    else next == Max(1, Lookup(s.nextIndex, peer) - 1)
  }

  /** The log holds an entry of the term at the index. */
  predicate HasTerm(s: Node, i: int, term: int)
  {
    s.logOffset <= i <= LastIndex(s) && TermAt(s, i) == term
  }

  lemma {:induction false} LastLaw(s: Node, term: int, index: int)
    requires index <= LastIndex(s)
    ensures var last := LastIndexOfTerm(s, term, index);
            && (last == -1 || (HasTerm(s, last, term) && last <= index))
            && (forall i | i <= index && HasTerm(s, i, term) :: i <= last || i < 0)
    decreases index - s.logOffset
  {
    if index >= s.logOffset && TermAt(s, index) != term {
      LastLaw(s, term, index - 1);
    }
  }

  /** A reply to a snapshot moves what the leader knows of the peer to the snapshot's index. */
  lemma SnapshotReplyLaw(s: Node, peer: Id, a: InstallSnapshotArgs, reply: InstallSnapshotReply)
    ensures var r := HandleSnapshotReply(s, peer, a, reply);
            && (s.role != Leader || a.term != s.currentTerm ==> r == s)
            && (s.role == Leader && a.term == s.currentTerm && reply.term <= s.currentTerm ==>
                  && OnlyPeer(s, r, peer)
                  && Lookup(r.matchIndex, peer) == a.lastIncludedIndex == Lookup(r.nextIndex, peer) - 1)
  {
  }

  // ---------- Exchanges ----------

  /** A peer that accepts a leader's message is known to hold the leader's whole log, term for term; nothing else is
      forgotten or invented; its commit index has caught up; and the leader's next message to it is empty, and accepted. */
  lemma AppendExchange(l: Node, f: Node, peer: Id)
    requires PrepareAppend(l, peer).1.Append? && f.currentTerm <= l.currentTerm && 0 <= l.logOffset && |l.log| > 0
    requires l.commitIndex <= LastIndex(l) && HandleAppendEntries(f, PrepareAppend(l, peer).1.args).1.success
    ensures var (l1, out) := PrepareAppend(l, peer);
            var (f1, reply) := HandleAppendEntries(f, out.args);
            var l2 := HandleAppendReply(l1, peer, out.args, reply);
            && OnlyPeer(l, l2, peer)
            && Lookup(l2.matchIndex, peer) == LastIndex(l) == Lookup(l2.nextIndex, peer) - 1
            && LastIndex(f1) >= LastIndex(l) && f1.commitIndex == Max(f.commitIndex, l.commitIndex)
            && (forall i | out.args.prevLogIndex <= i <= LastIndex(l) :: TermAt(f1, i) == TermAt(l, i))
            && var again := PrepareAppend(l2, peer).1;
               && again.Append? && again.args.entries == [] && again.args.prevLogIndex == LastIndex(l)
               && HandleAppendEntries(f1, again.args) == (f1, AppendEntriesReply(l.currentTerm, true, 0, 0))
  {
    hide PrepareAppend;
    hide HandleAppendEntries;
    hide HandleAppendReply;
    var (l1, out) := PrepareAppend(l, peer);
    var (f1, reply) := HandleAppendEntries(f, out.args);
    var l2 := HandleAppendReply(l1, peer, out.args, reply);
    MessageLaw(l, peer);
    AppendLaw(f, out.args);
    AcceptedLaw(f, out.args);
    CommitBound(f, out.args);
    AppendReplyLaw(l1, peer, out.args, reply);
    forall i | out.args.prevLogIndex <= i <= LastIndex(l) ensures TermAt(f1, i) == TermAt(l, i) {
      if i > out.args.prevLogIndex {
        assert out.args.entries[i - out.args.prevLogIndex - 1] == l.log[i - l.logOffset];
      }
    }
    MessageLaw(l2, peer);
    var again := PrepareAppend(l2, peer).1;
    Heartbeat(f1, again.args);
  }

  /** An empty message that fits and commits nothing new leaves a follower of its sender as it is. */
  lemma Heartbeat(s: Node, a: AppendEntriesArgs)
    requires Fits(s, a) && a.entries == [] && a.leaderCommit <= s.commitIndex
    requires s.role == Follower && s.currentTerm == a.term && s.leaderId == a.leaderId
    ensures HandleAppendEntries(s, a) == (s, AppendEntriesReply(a.term, true, 0, 0))
  {
  }

  /** What an exchange of a snapshot relies on: slot 0 of a log stands for the snapshot. */
  predicate FromSnapshot(s: Node)
  {
    |s.log| > 0 && s.snapshot.lastIndex == s.logOffset >= 0 && s.log[0].term == s.snapshot.lastTerm
  }

  /** A leader's snapshot, installed or skipped, and answered in the leader's term: what the leader knows of the peer is the
      snapshot's index, and of the others what it was. Its next message carries on from there with the whole log. */
  lemma SnapshotExchange(l: Node, f: Node, peer: Id)
    requires l.role == Leader && FromSnapshot(l) && f.currentTerm <= l.currentTerm
    ensures var a := PrepareSnapshot(l);
            var l1 := HandleSnapshotReply(l, peer, a, HandleInstallSnapshot(f, a).1);
            && OnlyPeer(l, l1, peer)
            && Lookup(l1.matchIndex, peer) == l.logOffset == Lookup(l1.nextIndex, peer) - 1
            && var (l2, next) := PrepareAppend(l1, peer);
               && l2 == l1 && next.Append?
               && next.args.prevLogIndex == l.logOffset && next.args.prevLogTerm == l.snapshot.lastTerm
               && next.args.entries == l.log[1..] && next.args.leaderCommit == l.commitIndex
               && next.args.term == l.currentTerm && next.args.leaderId == l.id
  {
    hide HandleInstallSnapshot;
    InstallLaw(f, PrepareSnapshot(l));
    SnapshotReplyLaw(l, peer, PrepareSnapshot(l), HandleInstallSnapshot(f, PrepareSnapshot(l)).1);
  }

  /** ... and a follower that installed the snapshot accepts that message, and then has the leader's log. */
  lemma SnapshotThenAppend(l: Node, f: Node, peer: Id)
    requires l.role == Leader && FromSnapshot(l) && f.currentTerm <= l.currentTerm && Installs(f, PrepareSnapshot(l))
    ensures var a := PrepareSnapshot(l);
            var (f1, reply) := HandleInstallSnapshot(f, a);
            var next := PrepareAppend(HandleSnapshotReply(l, peer, a, reply), peer).1;
            && next.Append?
            && var (f2, answer) := HandleAppendEntries(f1, next.args);
               answer.success && f2.logOffset == l.logOffset && f2.log[1..] == l.log[1..] && f2.snapshot == l.snapshot
  {
    hide PrepareAppend;
    hide HandleSnapshotReply;
    SnapshotExchange(l, f, peer);
    var a := PrepareSnapshot(l);
    var (f1, reply) := HandleInstallSnapshot(f, a);
    var next := PrepareAppend(HandleSnapshotReply(l, peer, a, reply), peer).1;
    hide HandleInstallSnapshot;
    InstallLaw(f, a);
    AppendLaw(f1, next.args);
    var c := AppendLoopLaw(f1.log, f1.logOffset, l.logOffset, next.args.entries, 0);
    hide AppendFrom;
    if |next.args.entries| > 0 {
      assert f1.log[..1] + next.args.entries[0..] == f1.log + l.log[1..];
    }
  }

  /** The leader holds the entry for which the follower's slot 0 stands. */
  predicate HoldsStart(l: Node, f: Node)
  {
    |f.log| > 0 && f.logOffset <= LastIndex(l) && (l.logOffset <= f.logOffset ==> TermAt(l, f.logOffset) == f.log[0].term)
  }

  /** A follower that has compacted as far as the snapshot reaches, or further, skips it. It accepts the leader's next message,
      or else rejects it, with the hint that makes it accept the one after. */
  lemma SnapshotSkipped(l: Node, f: Node, peer: Id)
    requires l.role == Leader && FromSnapshot(l) && f.currentTerm <= l.currentTerm && FromSnapshot(f) && HoldsStart(l, f)
    requires !Installs(f, PrepareSnapshot(l))
    ensures var a := PrepareSnapshot(l);
            var (f1, reply) := HandleInstallSnapshot(f, a);
            var l1 := HandleSnapshotReply(l, peer, a, reply);
            var next := PrepareAppend(l1, peer).1;
            && next.Append?
            && var (f2, answer) := HandleAppendEntries(f1, next.args);
               (answer.success <==> f.logOffset == l.logOffset) &&
               (!answer.success ==>
                  var more := PrepareAppend(HandleAppendReply(l1, peer, next.args, answer), peer).1;
                  more.Append? && HandleAppendEntries(f2, more.args).1.success)
  {
    hide PrepareAppend;
    hide HandleSnapshotReply;
    hide HandleInstallSnapshot;
    hide HandleAppendEntries;
    hide HandleAppendReply;
    SnapshotExchange(l, f, peer);
    var a := PrepareSnapshot(l);
    var (f1, reply) := HandleInstallSnapshot(f, a);
    var l1 := HandleSnapshotReply(l, peer, a, reply);
    var next := PrepareAppend(l1, peer).1;
    var (f2, answer) := HandleAppendEntries(f1, next.args);
    InstallLaw(f, a);
    AppendLaw(f1, next.args);
    if !answer.success {
      AppendReplyLaw(l1, peer, next.args, answer);
      var l2 := HandleAppendReply(l1, peer, next.args, answer);
      MessageLaw(l2, peer);
      AppendLaw(f2, PrepareAppend(l2, peer).1.args);
    }
  }

  /** In every state of a guarded run, a leader and a peer not ahead of it meet these conditions: after a snapshot the peer
      accepts the leader's next message, or the one after. */
  lemma SnapshotsCatchUp(sys: System, n: Id, peer: Id)
    requires SafeInv(sys) && n in sys.cluster.procs && peer in sys.cluster.procs
    requires sys.cluster.procs[n].raft.role == Leader
    requires sys.cluster.procs[peer].raft.currentTerm <= sys.cluster.procs[n].raft.currentTerm
    ensures var l, f := sys.cluster.procs[n].raft, sys.cluster.procs[peer].raft;
            FromSnapshot(l) && FromSnapshot(f) && HoldsStart(l, f)
  {
    hide BaseInv;
    hide AckInv;
    hide SafeInv;
    hide NodeInv;
    hide Committed;
    hide ServerOk;
    hide LeaderOk;
    Facts(sys, n);
    Facts(sys, peer);
    var h, l, f := sys.hist, sys.cluster.procs[n].raft, sys.cluster.procs[peer].raft;
    LeaderLog(h, l);
    NodeShape(h, f);
    NodeFacts(h, peer);
    CommittedInLead(h, h.full[peer], f.commitIndex, f.currentTerm, l.currentTerm);
    NodeStarts(h, l);
    NodeStarts(h, f);
    if l.logOffset <= f.logOffset {
      RepresentsTermAt(l, h.full[n], f.logOffset);
    }
  }

  lemma NodeStarts(h: History, s: Node)
    requires NodeInv(h, s)
    ensures FromSnapshot(s) && Represents(s, h.full[s.id]) && s.log[0].term == h.full[s.id][s.logOffset].term
  {
    hide CandidateOk;
  }
}

/** AppendEntries messages cut from one leader's append-only log can be repeated, and delivered in any order. */
module Replication {
  import opened RaftTypes
  import opened Handlers
  import opened Ledger
  import opened Commitment
  import opened AllRuns

  /** The message carries a piece of the leader's log behind a point the follower's log agrees on, and commits no further
      than its own end. */
  ghost predicate CutFrom(a: AppendEntriesArgs, leader: seq<Entry>, s: Node, full: seq<Entry>)
  {
    && 0 <= s.logOffset <= a.prevLogIndex && a.prevLogIndex + |a.entries| < |leader|
    && a.prevLogTerm == leader[a.prevLogIndex].term
    && a.entries == leader[a.prevLogIndex + 1..a.prevLogIndex + 1 + |a.entries|]
    && a.leaderCommit <= a.prevLogIndex + |a.entries|
    && Agree(full, leader, a.prevLogIndex)
  }

  ghost function End(a: AppendEntriesArgs): int { a.prevLogIndex + |a.entries| }

  /** A follower whose log is one in which a term shared with the leader at an index means a shared prefix. */
  ghost predicate Follows(s: Node, full: seq<Entry>, leader: seq<Entry>)
  {
    Represents(s, full) && Matching(full, leader)
  }

  /** What an accepted message does to a node. */
  lemma AcceptedOutcome(s: Node, a: AppendEntriesArgs)
    requires s.currentTerm <= a.term && 0 <= s.logOffset <= a.prevLogIndex <= LastIndex(s)
    requires TermAt(s, a.prevLogIndex) == a.prevLogTerm
    ensures var s1 := HeardFromLeader(s, a.term, a.leaderId);
            var log := AppendFrom(s.log, s.logOffset, a.prevLogIndex, a.entries, 0);
            HandleAppendEntries(s, a) ==
            (s1.(log := log, commitIndex := if a.leaderCommit > s.commitIndex
                                            then Min(a.leaderCommit, s.logOffset + |log| - 1) else s.commitIndex),
             AppendEntriesReply(a.term, true, 0, 0))
  {
  }

  /** What delivering such a message does: the log becomes the merge with the leader's, the commit index the larger. */
  lemma Delivered(s: Node, full: seq<Entry>, leader: seq<Entry>, a: AppendEntriesArgs)
    requires Follows(s, full, leader) && CutFrom(a, leader, s, full) && s.currentTerm <= a.term
    ensures var (s', reply) := HandleAppendEntries(s, a);
            && reply == AppendEntriesReply(a.term, true, 0, 0)
            && s' == HeardFromLeader(s, a.term, a.leaderId).(
                       log := s'.log, commitIndex := Max(s.commitIndex, a.leaderCommit))
            && |s.log| > 0 && |s'.log| > 0 && s'.log[0] == s.log[0]
            && Follows(s', Merge(full, leader, End(a)), leader)
  {
    hide Matching;
    hide Represents;
    hide AppendFrom;
    hide HandleAppendEntries;
    var next := Merge(full, leader, End(a));
    RepresentsShape(s, full, a.prevLogIndex);
    RepresentsTermAt(s, full, a.prevLogIndex);
    AppendIsMerge(s, full, leader, a.prevLogIndex, a.entries, 0);
    AppendKeepsSentinel(s.log, s.logOffset, a.prevLogIndex, a.entries, 0);
    MergeMatches(full, leader, End(a));
    AcceptedOutcome(s, a);
    var s' := HandleAppendEntries(s, a).0;
    RepresentsShape(s.(log := s'.log), next, 0);
    RestyledRepresents(s.(log := s'.log), s', next);
  }

  lemma {:induction false} AppendKeepsSentinel(log: seq<Entry>, offset: int, prev: int, entries: seq<Entry>, i: nat)
    requires offset <= prev && i <= |entries| && |log| > 0
    ensures |AppendFrom(log, offset, prev, entries, i)| > 0 && AppendFrom(log, offset, prev, entries, i)[0] == log[0]
    decreases |entries| - i
  {
    if i < |entries| {
      AppendKeepsSentinel(log, offset, prev, entries, i + 1);
    }
  }

  lemma MergeMatches(full: seq<Entry>, leader: seq<Entry>, end: int)
    requires Matching(full, leader) && 0 <= end < |leader|
    ensures Matching(Merge(full, leader, end), leader)
    ensures |Merge(full, leader, end)| > end
  {
  }

  /** Merging is insensitive to repetition and to order. */
  lemma MergeCommutes(full: seq<Entry>, leader: seq<Entry>, d: int, e: int)
    requires 0 <= d < |leader| && 0 <= e < |leader|
    ensures Merge(Merge(full, leader, d), leader, d) == Merge(full, leader, d)
    ensures Merge(Merge(full, leader, d), leader, e) == Merge(Merge(full, leader, e), leader, d)
  {
  }

  /** Two nodes that hold the same full log from the same point hold the same log. */
  lemma SameLog(s: Node, r: Node, full: seq<Entry>)
    requires Represents(s, full) && Represents(r, full) && s.logOffset == r.logOffset && s.log[0] == r.log[0]
    ensures s.log == r.log
  {
    assert |s.log| == |r.log|;
    forall j | 0 <= j < |s.log| ensures s.log[j] == r.log[j] {
      if j > 0 {
        RepresentsShape(s, full, s.logOffset + j);
        RepresentsShape(r, full, s.logOffset + j);
      }
    }
  }

  lemma StillCut(s: Node, full: seq<Entry>, leader: seq<Entry>, a: AppendEntriesArgs, b: AppendEntriesArgs)
    requires Follows(s, full, leader) && CutFrom(a, leader, s, full) && CutFrom(b, leader, s, full)
    requires s.currentTerm <= a.term
    ensures CutFrom(b, leader, HandleAppendEntries(s, a).0, Merge(full, leader, End(a)))
  {
    Delivered(s, full, leader, a);
    hide Follows;
    hide HandleAppendEntries;
    MergeKeepsAgreement(full, leader, End(a), b.prevLogIndex);
  }

  /** Delivering a message again changes nothing. */
  lemma AppendIdempotent(s: Node, full: seq<Entry>, leader: seq<Entry>, a: AppendEntriesArgs)
    requires Follows(s, full, leader) && CutFrom(a, leader, s, full)
    requires s.currentTerm <= a.term
    ensures HandleAppendEntries(HandleAppendEntries(s, a).0, a) == HandleAppendEntries(s, a)
  {
    hide HandleAppendEntries;
    hide CutFrom;
    var s1 := HandleAppendEntries(s, a).0;
    var next := Merge(full, leader, End(a));
    Delivered(s, full, leader, a);
    StillCut(s, full, leader, a, a);
    Delivered(s1, next, leader, a);
    CutRange(a, leader, s, full);
    MergeCommutes(full, leader, End(a), End(a));
    SameLog(s1, HandleAppendEntries(s1, a).0, next);
  }

  lemma CutRange(a: AppendEntriesArgs, leader: seq<Entry>, s: Node, full: seq<Entry>)
    requires CutFrom(a, leader, s, full)
    ensures 0 <= End(a) < |leader|
  {
  }

  /** Two messages may be delivered in either order. */
  lemma AppendCommutes(s: Node, full: seq<Entry>, leader: seq<Entry>, a: AppendEntriesArgs, b: AppendEntriesArgs)
    requires Follows(s, full, leader) && CutFrom(a, leader, s, full) && CutFrom(b, leader, s, full)
    requires s.currentTerm <= a.term == b.term && a.leaderId == b.leaderId
    ensures HandleAppendEntries(HandleAppendEntries(s, a).0, b).0 == HandleAppendEntries(HandleAppendEntries(s, b).0, a).0
  {
    hide HandleAppendEntries;
    hide CutFrom;
    var x, y := HandleAppendEntries(s, a).0, HandleAppendEntries(s, b).0;
    Delivered(s, full, leader, a);
    Delivered(s, full, leader, b);
    StillCut(s, full, leader, a, b);
    StillCut(s, full, leader, b, a);
    Delivered(x, Merge(full, leader, End(a)), leader, b);
    Delivered(y, Merge(full, leader, End(b)), leader, a);
    CutRange(a, leader, s, full);
    CutRange(b, leader, s, full);
    MergeCommutes(full, leader, End(a), End(b));
    SameLog(HandleAppendEntries(x, b).0, HandleAppendEntries(y, a).0,
            Merge(Merge(full, leader, End(a)), leader, End(b)));
  }

  /** A message that ends no later than the follower already agrees leaves the log as it is. */
  lemma OlderNeverShortens(s: Node, full: seq<Entry>, leader: seq<Entry>, a: AppendEntriesArgs)
    requires Follows(s, full, leader) && CutFrom(a, leader, s, full)
    requires s.currentTerm <= a.term
    requires Agree(full, leader, End(a))
    ensures HandleAppendEntries(s, a).0.log == s.log
  {
    hide HandleAppendEntries;
    Delivered(s, full, leader, a);
    SameLog(s, HandleAppendEntries(s, a).0, full);
  }
}

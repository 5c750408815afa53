/** What holds in every run, whatever the network and the crashes do: Election Safety and Log Matching. */
module AllRuns {
  import opened Kv
  import opened RaftTypes
  import opened Handlers
  import opened Ledger
  import opened Cluster

  // ---------- The node's log and its full log ----------

  /** The node holds the full log from its compaction point on, and the point's term in slot 0. */
  ghost predicate Represents(s: Node, full: seq<Entry>)
  {
    && |s.log| > 0 && s.logOffset >= 0
    && |full| == s.logOffset + |s.log|
    && s.snapshot.lastIndex == s.logOffset
    && s.snapshot.lastTerm == s.log[0].term
    && s.log[0].term == full[s.logOffset].term
    && forall k | s.logOffset < k < |full| :: s.log[k - s.logOffset] == full[k]
  }

  lemma RepresentsTermAt(s: Node, full: seq<Entry>, i: int)
    requires Represents(s, full) && s.logOffset <= i < |full|
    ensures TermAt(s, i) == full[i].term
  {
  }

  lemma RestyledRepresents(s: Node, r: Node, full: seq<Entry>)
    requires Represents(s, full) && r.log == s.log && r.logOffset == s.logOffset && r.snapshot == s.snapshot
    ensures Represents(r, full)
  {
  }

  /** Equal terms at an index mean equal logs through it. */
  ghost predicate Matching(a: seq<Entry>, b: seq<Entry>)
  {
    forall i | 0 <= i < |a| && i < |b| && a[i].term == b[i].term :: Agree(a, b, i)
  }

  lemma CoherentMatching(h: History, a: seq<Entry>, b: seq<Entry>)
    requires Coherent(a, h.lead) && Coherent(b, h.lead)
    ensures Matching(a, b)
  {
    forall i | 0 <= i < |a| && i < |b| && a[i].term == b[i].term ensures Agree(a, b, i) {
      SameTermSamePrefix(h, a, b, i);
    }
  }

  lemma SplicedAt(head: seq<Entry>, leader: seq<Entry>, cut: int, end: int, j: int)
    requires 0 <= cut <= end < |leader|
    ensures |head + leader[cut..end + 1]| == |head| + end + 1 - cut
    ensures 0 <= j < |head| ==> (head + leader[cut..end + 1])[j] == head[j]
    ensures |head| <= j < |head| + end + 1 - cut ==> (head + leader[cut..end + 1])[j] == leader[cut + j - |head|]
  {
  }

  /** The node's log, cut at a slot and continued by the leader's entries, represents the leader's log. */
  lemma SpliceRepresents(s: Node, full: seq<Entry>, leader: seq<Entry>, cut: int, end: int)
    requires Represents(s, full)
    requires s.logOffset < cut <= |full| && cut <= end < |leader| && Agree(full, leader, cut - 1)
    ensures Represents(s.(log := s.log[..cut - s.logOffset] + leader[cut..end + 1]), Through(leader, end))
  {
    var head := s.log[..cut - s.logOffset];
    var log := head + leader[cut..end + 1];
    var next := Through(leader, end);
    SplicedAt(head, leader, cut, end, 0);
    assert |next| == s.logOffset + |log|;
    assert log[0] == s.log[0] && next[s.logOffset] == full[s.logOffset];
    forall k | s.logOffset < k < |next| ensures log[k - s.logOffset] == next[k] {
      SplicedAt(head, leader, cut, end, k - s.logOffset);
      if k < cut {
        assert s.log[k - s.logOffset] == full[k] && full[k] == leader[k];
      }
    }
  }

  lemma RepresentsShape(s: Node, full: seq<Entry>, i: int)
    requires Represents(s, full)
    ensures s.logOffset >= 0 && |full| == s.logOffset + |s.log| && |s.log| > 0
    ensures s.logOffset < i < |full| ==> s.log[i - s.logOffset] == full[i]
  {
  }

  lemma PieceTail(leader: seq<Entry>, from: int, entries: seq<Entry>, i: nat)
    requires 0 <= from && from + |entries| <= |leader| && entries == leader[from..from + |entries|] && i < |entries|
    ensures entries[i] == leader[from + i] && entries[i..] == leader[from + i..from + |entries|]
  {
  }

  lemma MatchingAt(a: seq<Entry>, b: seq<Entry>, i: int)
    requires Matching(a, b) && 0 <= i < |a| && i < |b| && a[i].term == b[i].term
    ensures Agree(a, b, i)
  {
  }

  lemma DisagreeAt(a: seq<Entry>, b: seq<Entry>, i: int, k: int)
    requires 0 <= i <= k && (i < |a| && i < |b| ==> a[i] != b[i])
    ensures !Agree(a, b, k)
  {
  }

  lemma AgreeShape(a: seq<Entry>, b: seq<Entry>, k: int)
    requires Agree(a, b, k)
    ensures 0 <= k < |a| && k < |b|
  {
  }

  lemma AppendSkips(log: seq<Entry>, offset: int, prev: int, entries: seq<Entry>, i: nat)
    requires offset <= prev && i < |entries| && prev + 1 + i - offset < |log|
    requires log[prev + 1 + i - offset].term == entries[i].term
    ensures AppendFrom(log, offset, prev, entries, i) == AppendFrom(log, offset, prev, entries, i + 1)
  {
  }

  lemma AppendSplices(log: seq<Entry>, offset: int, prev: int, entries: seq<Entry>, i: nat)
    requires offset <= prev && i < |entries| && prev + 1 + i - offset <= |log|
    requires prev + 1 + i - offset < |log| ==> log[prev + 1 + i - offset].term != entries[i].term
    ensures AppendFrom(log, offset, prev, entries, i) == log[..prev + 1 + i - offset] + entries[i..]
  {
    var slot := prev + 1 + i - offset;
    assert slot == |log| ==> log[..slot] == log;
  }

  /** Appending a piece of a leader's log behind a point of agreement is taking over the leader's log through the
      piece's end: nothing that agrees is cut. */
  lemma {:induction false} AppendIsMerge(s: Node, full: seq<Entry>, leader: seq<Entry>, prev: int, entries: seq<Entry>, i: nat)
    requires Represents(s, full) && Matching(full, leader)
    requires 0 <= s.logOffset <= prev && i <= |entries|
    requires prev + |entries| < |leader| && entries == leader[prev + 1..prev + 1 + |entries|]
    requires Agree(full, leader, prev + i)
    ensures Represents(s.(log := AppendFrom(s.log, s.logOffset, prev, entries, i)),
                       Merge(full, leader, prev + |entries|))
    decreases |entries| - i
  {
    hide Represents;
    hide Agree;
    hide Matching;
    var end := prev + |entries|;
    AgreeShape(full, leader, prev + i);
    if i == |entries| {
      assert s.(log := s.log) == s;
    } else {
      var index := prev + 1 + i;
      var slot := index - s.logOffset;
      RepresentsShape(s, full, index);
      PieceTail(leader, prev + 1, entries, i);
      if slot < |s.log| && s.log[slot].term == entries[i].term {
        MatchingAt(full, leader, index);
        AppendIsMerge(s, full, leader, prev, entries, i + 1);
        AppendSkips(s.log, s.logOffset, prev, entries, i);
      } else {
        DisagreeAt(full, leader, index, end);
        SpliceRepresents(s, full, leader, index, end);
        AppendSplices(s.log, s.logOffset, prev, entries, i);
        assert Merge(full, leader, end) == Through(leader, end);
      }
    }
  }

  // ---------- The invariant ----------

  /** The peers whose granted vote the candidate may have counted. */
  ghost function Counted(h: History, s: Node): set<Id>
  {
    set q | q in s.peers && q !in s.awaiting && (q, s.currentTerm) in h.votes
            && h.votes[(q, s.currentTerm)].candidate == s.id
  }

  ghost predicate CandidateOk(h: History, s: Node, full: seq<Entry>)
  {
    var v := (s.id, s.currentTerm);
    && s.currentTerm > 0
    && v in h.votes && h.votes[v].candidate == s.id
    && |full| > 0 && h.votes[v].lastTerm == EndTerm(full) && h.votes[v].lastIndex == |full| - 1
    && (s.currentTerm in h.elect ==> h.elect[s.currentTerm].leader != s.id)
    && s.votes <= 1 + |Counted(h, s)|
  }

  ghost predicate NodeInv(h: History, s: Node)
  {
    && s.id in h.members && s.id in h.term && s.id in h.full
    && s.peers == h.members - {s.id}
    && s.currentTerm == h.term[s.id]
    && Represents(s, h.full[s.id])
    && (s.votedFor == NOBODY ==> (s.id, s.currentTerm) !in h.votes)
    && (s.votedFor != NOBODY ==>
          (s.id, s.currentTerm) in h.votes && h.votes[(s.id, s.currentTerm)].candidate == s.votedFor)
    && (s.role == Leader ==> s.currentTerm in h.elect && h.elect[s.currentTerm].leader == s.id)
    && (s.role == Candidate ==> CandidateOk(h, s, h.full[s.id]))
  }

  /** The piece of the leader's log that an AppendEntries message carries. */
  ghost predicate AppendOk(h: History, from: Id, a: AppendEntriesArgs)
  {
    && a.term in h.elect && a.term in h.lead && h.elect[a.term].leader == from
    && 0 <= a.prevLogIndex && a.prevLogIndex + |a.entries| < |h.lead[a.term]|
    && a.prevLogTerm == h.lead[a.term][a.prevLogIndex].term
    && a.entries == h.lead[a.term][a.prevLogIndex + 1..a.prevLogIndex + 1 + |a.entries|]
  }

  /** The point of the leader's log that an InstallSnapshot message stands for. */
  ghost predicate InstallOk(h: History, from: Id, a: InstallSnapshotArgs)
  {
    && a.term in h.elect && a.term in h.lead && h.elect[a.term].leader == from
    && 0 <= a.lastIncludedIndex < |h.lead[a.term]|
    && a.lastIncludedTerm == h.lead[a.term][a.lastIncludedIndex].term
  }

  ghost predicate RequestOk(h: History, from: Id, a: RequestVoteArgs)
  {
    && a.candidateId == from
    && (from, a.term) in h.votes
    && h.votes[(from, a.term)].candidate == from
    && h.votes[(from, a.term)].lastTerm == a.lastLogTerm
    && h.votes[(from, a.term)].lastIndex == a.lastLogIndex
  }

  ghost predicate MsgInv(h: History, m: Msg)
  {
    && m.from in h.members && m.to in h.members && m.from != m.to
    && match m
       case RequestVoteMsg(from, _, a) => RequestOk(h, from, a)
       case VoteReplyMsg(from, to, a, reply) =>
         reply.voteGranted ==> (from, a.term) in h.votes && h.votes[(from, a.term)].candidate == to
       case AppendMsg(from, _, a) => AppendOk(h, from, a)
       case AppendReplyMsg(_, to, a, _) => AppendOk(h, to, a)
       case InstallMsg(from, _, a) => InstallOk(h, from, a)
       case InstallReplyMsg(_, to, a, _) => InstallOk(h, to, a)
  }

  ghost predicate Inv(sys: System)
  {
    var c, h := sys.cluster, sys.hist;
    && Membership(h.members)
    && BaseInv(h)
    && c.procs.Keys == h.members
    && (forall n | n in c.procs :: c.procs[n].raft.id == n && NodeInv(h, c.procs[n].raft))
    && (forall m | m in c.msgs :: MsgInv(h, m))
  }

  // ---------- What the others see of a step ----------

  lemma BystanderKeeps(h: History, g: History, n: Id, s: Node)
    requires Extends(h, g, n) && NodeInv(h, s) && s.id != n
    ensures NodeInv(g, s)
  {
    if s.role == Candidate {
      SubsetSize(Counted(h, s), Counted(g, s));
    }
  }

  lemma MsgKeeps(h: History, g: History, n: Id, m: Msg)
    requires Extends(h, g, n) && MsgInv(h, m)
    ensures MsgInv(g, m)
  {
    match m {
      case AppendMsg(_, _, a) => AppendKeeps(h, g, n, m.from, a);
      case AppendReplyMsg(_, _, a, _) => AppendKeeps(h, g, n, m.to, a);
      case InstallMsg(_, _, a) => assert LogGrows(h.lead[a.term], g.lead[a.term], a.term);
      case InstallReplyMsg(_, _, a, _) => assert LogGrows(h.lead[a.term], g.lead[a.term], a.term);
      case _ =>
    }
  }

  lemma AppendKeeps(h: History, g: History, n: Id, from: Id, a: AppendEntriesArgs)
    requires Extends(h, g, n) && AppendOk(h, from, a)
    ensures AppendOk(g, from, a)
  {
    assert LogGrows(h.lead[a.term], g.lead[a.term], a.term);
  }

  /** What is left to show of a step: the history stays in order, the acting node stays in order, and what it sends is
      in order. */
  ghost predicate GoodStep(h: History, g: History, n: Id, p: Proc, sent: set<Msg>)
  {
    && Extends(h, g, n) && BaseInv(g)
    && p.raft.id == n && NodeInv(g, p.raft)
    && forall m | m in sent :: MsgInv(g, m)
  }

  lemma StepMembers(h: History, g: History, n: Id)
    requires Extends(h, g, n)
    ensures g.members == h.members
  {
  }

  lemma GoodStepKeeps(sys: System, g: History, n: Id, p: Proc, sent: set<Msg>)
    requires Inv(sys) && n in sys.cluster.procs && GoodStep(sys.hist, g, n, p, sent)
    ensures Inv(System(Cluster(sys.cluster.procs[n := p], sys.cluster.msgs + sent), g))
  {
    hide BaseInv;
    hide Extends;
    hide NodeInv;
    hide MsgInv;
    var c, h := sys.cluster, sys.hist;
    var procs := c.procs[n := p];
    StepMembers(h, g, n);
    forall q | q in procs ensures procs[q].raft.id == q && NodeInv(g, procs[q].raft) {
      if q != n {
        BystanderKeeps(h, g, n, c.procs[q].raft);
      }
    }
    forall m | m in c.msgs + sent ensures MsgInv(g, m) {
      if m in c.msgs {
        MsgKeeps(h, g, n, m);
      }
    }
  }

  // ---------- The acting node ----------

  lemma NodeFacts(h: History, n: Id)
    requires BaseInv(h) && n in h.members
    ensures n in h.term && n in h.full && h.term[n] >= 0 && Coherent(h.full[n], h.lead)
    ensures forall t | t > h.term[n] :: (n, t) !in h.votes
    ensures forall t | t in h.elect && t > h.term[n] :: h.elect[t].leader != n
  {
    forall t | t > h.term[n] ensures (n, t) !in h.votes {
      assert (n, t) in h.votes ==> VoteOk(h, n, t);
    }
    forall t | t in h.elect && t > h.term[n] ensures h.elect[t].leader != n {
      assert ElectionOk(h, t);
    }
  }

  lemma LeadFacts(h: History, t: int)
    requires BaseInv(h) && t in h.elect
    ensures t in h.lead && Coherent(h.lead[t], h.lead) && t > 0
    ensures h.elect[t].leader in h.members && h.elect[t].leader in h.term && h.elect[t].leader in h.full
    ensures h.term[h.elect[t].leader] == t ==> h.full[h.elect[t].leader] == h.lead[t]
  {
    assert ElectionOk(h, t);
  }

  /** Hearing of a later term: the node follows, and has not voted in it. */
  lemma FollowStep(h: History, s: Node, t: int)
    requires BaseInv(h) && NodeInv(h, s) && t >= s.currentTerm
    ensures var g := Bump(h, s.id, t); BaseInv(g) && Extends(h, g, s.id) && NodeInv(g, BecomeFollower(s, t))
  {
    hide BaseInv;
    hide Extends;
    BumpKeepsBase(h, s.id, t);
    NodeFacts(h, s.id);
  }

  lemma TimeoutStep(h: History, s: Node)
    requires Membership(h.members) && BaseInv(h) && NodeInv(h, s) && s.role != Leader
    ensures var g := CastVote(Bump(h, s.id, s.currentTerm + 1), s.id, s.id);
            && BaseInv(g) && Extends(h, g, s.id) && NodeInv(g, StartElection(s))
            && RequestOk(g, s.id, VoteRequest(StartElection(s)))
  {
    hide BaseInv;
    hide Extends;
    var t := s.currentTerm + 1;
    var h1 := Bump(h, s.id, t);
    NodeFacts(h, s.id);
    FollowStep(h, s, t);
    var g := CastVote(h1, s.id, s.id);
    VoteKeepsBase(h1, s.id, s.id);
    ExtendsTrans(h, h1, g, s.id);
  }

  /** Granting a vote: the first in the term is recorded, and a repeated one changes nothing. */
  lemma GrantStep(h: History, s: Node, from: Id, a: RequestVoteArgs)
    requires Membership(h.members) && BaseInv(h) && NodeInv(h, s)
    requires from in h.members && from != s.id && RequestOk(h, from, a) && a.term == s.currentTerm
    requires s.votedFor == NOBODY || s.votedFor == from
    requires IsUpToDate(s, a.lastLogIndex, a.lastLogTerm)
    ensures var g := CastVote(h, s.id, from);
            && BaseInv(g) && Extends(h, g, s.id) && NodeInv(g, s.(votedFor := from))
            && (s.id, a.term) in g.votes && g.votes[(s.id, a.term)].candidate == from
  {
    hide BaseInv;
    hide Extends;
    NodeFacts(h, s.id);
    if s.votedFor == NOBODY {
      VoteKeepsBase(h, s.id, from);
    } else {
      ExtendsRefl(h, s.id);
    }
  }

  lemma RequestVoteStep(h: History, s: Node, from: Id, a: RequestVoteArgs)
    requires Membership(h.members) && BaseInv(h) && NodeInv(h, s)
    requires from in h.members && from != s.id && RequestOk(h, from, a)
    ensures var (s', reply) := HandleRequestVote(s, a);
            var g1 := Bump(h, s.id, s'.currentTerm);
            var g := if reply.voteGranted then CastVote(g1, s.id, a.candidateId) else g1;
            && BaseInv(g) && Extends(h, g, s.id) && NodeInv(g, s') && s'.id == s.id
            && (reply.voteGranted ==> (s.id, a.term) in g.votes && g.votes[(s.id, a.term)].candidate == from)
  {
    hide BaseInv;
    hide Extends;
    hide NodeInv;
    BumpSame(h, s);
    if a.term >= s.currentTerm {
      var s1 := if a.term > s.currentTerm then BecomeFollower(s, a.term) else s;
      var g1 := Bump(h, s.id, a.term);
      if a.term > s.currentTerm {
        FollowStep(h, s, a.term);
      }
      if HandleRequestVote(s, a).1.voteGranted {
        GrantStep(g1, s1, from, a);
        ExtendsTrans(h, g1, CastVote(g1, s.id, from), s.id);
      }
    }
  }

  lemma BumpSame(h: History, s: Node)
    requires BaseInv(h) && NodeInv(h, s)
    ensures Bump(h, s.id, s.currentTerm) == h && Extends(h, h, s.id)
  {
    assert h.term[s.id := s.currentTerm] == h.term;
    ExtendsRefl(h, s.id);
  }

  /** Counting one more granted vote. */
  lemma CountOneMore(h: History, s: Node, from: Id)
    requires NodeInv(h, s) && s.role == Candidate && from in s.peers && from in s.awaiting
    requires (from, s.currentTerm) in h.votes && h.votes[(from, s.currentTerm)].candidate == s.id
    ensures var s1 := s.(votes := s.votes + 1, awaiting := s.awaiting - {from}); s1.votes <= 1 + |Counted(h, s1)|
  {
    var s1 := s.(votes := s.votes + 1, awaiting := s.awaiting - {from});
    SubsetSize(Counted(h, s) + {from}, Counted(h, s1));
  }

  /** A candidate with a majority of counted votes can be elected: no other node was, in its term. */
  lemma Wins(h: History, s: Node)
    requires BaseInv(h) && NodeInv(h, s) && s.role == Candidate
    requires s.votes >= QuorumSize(s) || QuorumSize(s) == 1
    ensures s.id in h.term && s.id in h.full && |h.full[s.id]| > 0 && Electable(h, s.id)
  {
    hide BaseInv;
    var n := s.id;
    var voters := Electorate(h, n);
    NodeFacts(h, n);
    SubsetSize(Counted(h, s) + {n}, voters);
    assert h.members == s.peers + {n};
    assert Quorum(voters, h.members);
    if s.currentTerm in h.elect {
      OneLeaderPerTerm(h, s.currentTerm, n, voters);
    }
  }

  lemma WinStep(h: History, s: Node)
    requires BaseInv(h) && NodeInv(h, s) && s.role == Candidate
    requires s.votes >= QuorumSize(s) || QuorumSize(s) == 1
    ensures var g := Crown(h, s.id); BaseInv(g) && Extends(h, g, s.id) && NodeInv(g, BecomeLeader(s))
  {
    hide BaseInv;
    hide Extends;
    Wins(h, s);
    CrownKeepsBase(h, s.id);
  }

  lemma VoteReplyStep(h: History, s: Node, from: Id, a: RequestVoteArgs, reply: RequestVoteReply)
    requires BaseInv(h) && NodeInv(h, s) && from in h.members && from != s.id
    requires reply.voteGranted ==> (from, a.term) in h.votes && h.votes[(from, a.term)].candidate == s.id
    requires s.role == Candidate && s.currentTerm == a.term ==> from in s.awaiting
    ensures var s' := HandleVoteReply(s, from, a.term, reply);
            var g1 := Bump(h, s.id, s'.currentTerm);
            var g := if s.role != Leader && s'.role == Leader then Crown(g1, s.id) else g1;
            BaseInv(g) && Extends(h, g, s.id) && NodeInv(g, s') && s'.id == s.id
  {
    hide BaseInv;
    hide Extends;
    BumpSame(h, s);
    if s.role == Candidate && s.currentTerm == a.term {
      if reply.term > s.currentTerm {
        FollowStep(h, s, reply.term);
      } else if reply.voteGranted {
        CountOneMore(h, s, from);
        var s1 := s.(votes := s.votes + 1, awaiting := s.awaiting - {from});
        if s1.votes >= QuorumSize(s1) {
          WinStep(h, s1);
        }
      } else {
        var s1 := s.(awaiting := s.awaiting - {from});
        SubsetSize(Counted(h, s), Counted(h, s1));
      }
    }
  }

  /** A node that heard from the leader of its term follows it. */
  lemma HeardStep(h: History, s: Node, t: int, leader: Id)
    requires BaseInv(h) && NodeInv(h, s) && t >= s.currentTerm
    ensures var g := Bump(h, s.id, t);
            BaseInv(g) && Extends(h, g, s.id) && NodeInv(g, HeardFromLeader(s, t, leader))
  {
    hide BaseInv;
    hide Extends;
    FollowStep(h, s, t);
  }

  lemma AppendStep(h: History, s: Node, from: Id, a: AppendEntriesArgs)
    requires BaseInv(h) && NodeInv(h, s) && AppendOk(h, from, a)
    ensures var (s', reply) := HandleAppendEntries(s, a);
            var g1 := Bump(h, s.id, s'.currentTerm);
            var g := if reply.success then Accept(g1, s.id, a.term, a.prevLogIndex + |a.entries|) else g1;
            BaseInv(g) && Extends(h, g, s.id) && NodeInv(g, s') && s'.id == s.id
  {
    hide BaseInv;
    hide Extends;
    hide NodeInv;
    BumpSame(h, s);
    var (s', reply) := HandleAppendEntries(s, a);
    if a.term >= s.currentTerm {
      var s1 := HeardFromLeader(s, a.term, a.leaderId);
      var g1 := Bump(h, s.id, a.term);
      HeardStep(h, s, a.term, a.leaderId);
      if reply.success {
        AcceptStep(g1, s1, from, a, s'.commitIndex);
        ExtendsTrans(h, g1, Accept(g1, s.id, a.term, a.prevLogIndex + |a.entries|), s.id);
      }
    }
  }

  /** The accepted entries leave the node with the merged log. */
  lemma AcceptStep(h: History, s: Node, from: Id, a: AppendEntriesArgs, commit: int)
    requires BaseInv(h) && NodeInv(h, s) && AppendOk(h, from, a) && a.term == s.currentTerm && s.role == Follower
    requires s.logOffset <= a.prevLogIndex <= LastIndex(s) && TermAt(s, a.prevLogIndex) == a.prevLogTerm
    ensures var g := Accept(h, s.id, a.term, a.prevLogIndex + |a.entries|);
            var log := AppendFrom(s.log, s.logOffset, a.prevLogIndex, a.entries, 0);
            && BaseInv(g) && Extends(h, g, s.id) && NodeInv(g, s.(log := log, commitIndex := commit))
  {
    hide BaseInv;
    hide Extends;
    hide AppendFrom;
    hide Merge;
    hide CandidateOk;
    var end := a.prevLogIndex + |a.entries|;
    AcceptKeepsBase(h, s.id, a.term, end);
    MergedLog(h, s, from, a);
  }

  lemma MergedLog(h: History, s: Node, from: Id, a: AppendEntriesArgs)
    requires BaseInv(h) && NodeInv(h, s) && AppendOk(h, from, a)
    requires s.logOffset <= a.prevLogIndex <= LastIndex(s) && TermAt(s, a.prevLogIndex) == a.prevLogTerm
    ensures Agree(h.full[s.id], h.lead[a.term], a.prevLogIndex)
    ensures Represents(s.(log := AppendFrom(s.log, s.logOffset, a.prevLogIndex, a.entries, 0)),
                       Merge(h.full[s.id], h.lead[a.term], a.prevLogIndex + |a.entries|))
  {
    hide BaseInv;
    hide Coherent;
    hide Represents;
    hide Matching;
    var full, leader := h.full[s.id], h.lead[a.term];
    NodeFacts(h, s.id);
    LeadFacts(h, a.term);
    CoherentMatching(h, full, leader);
    RepresentsShape(s, full, a.prevLogIndex);
    RepresentsTermAt(s, full, a.prevLogIndex);
    SameTermSamePrefix(h, full, leader, a.prevLogIndex);
    AppendIsMerge(s, full, leader, a.prevLogIndex, a.entries, 0);
  }

  lemma InstallStep(h: History, s: Node, from: Id, a: InstallSnapshotArgs)
    requires BaseInv(h) && NodeInv(h, s) && InstallOk(h, from, a) && from != s.id
    ensures var (s', reply) := HandleInstallSnapshot(s, a);
            var g1 := Bump(h, s.id, s'.currentTerm);
            var g := if Installs(s, a) then Install(g1, s.id, a.term, a.lastIncludedIndex)
                     else if a.term >= s.currentTerm then Acknowledge(g1, s.id, a.term, a.lastIncludedIndex)
                     else g1;
            BaseInv(g) && Extends(h, g, s.id) && NodeInv(g, s') && s'.id == s.id
  {
    hide BaseInv;
    hide Extends;
    BumpSame(h, s);
    if a.term >= s.currentTerm {
      var g1 := Bump(h, s.id, a.term);
      HeardStep(h, s, a.term, a.leaderId);
      var g := if Installs(s, a) then Install(g1, s.id, a.term, a.lastIncludedIndex)
               else Acknowledge(g1, s.id, a.term, a.lastIncludedIndex);
      if Installs(s, a) {
        InstallKeepsBase(g1, s.id, a.term, a.lastIncludedIndex);
      } else {
        AcknowledgeKeepsBase(g1, s.id, a.term, a.lastIncludedIndex);
      }
      ExtendsTrans(h, g1, g, s.id);
    }
  }

  lemma AppendReplyStep(h: History, s: Node, from: Id, a: AppendEntriesArgs, reply: AppendEntriesReply)
    requires BaseInv(h) && NodeInv(h, s)
    ensures var s' := HandleAppendReply(s, from, a, reply);
            var g := Bump(h, s.id, s'.currentTerm);
            BaseInv(g) && Extends(h, g, s.id) && NodeInv(g, s') && s'.id == s.id
  {
    hide BaseInv;
    hide Extends;
    BumpSame(h, s);
    if s.role == Leader && a.term == s.currentTerm && reply.term > s.currentTerm {
      FollowStep(h, s, reply.term);
    }
  }

  lemma InstallReplyStep(h: History, s: Node, from: Id, a: InstallSnapshotArgs, reply: InstallSnapshotReply)
    requires BaseInv(h) && NodeInv(h, s)
    ensures var s' := HandleSnapshotReply(s, from, a, reply);
            var g := Bump(h, s.id, s'.currentTerm);
            BaseInv(g) && Extends(h, g, s.id) && NodeInv(g, s') && s'.id == s.id
  {
    hide BaseInv;
    hide Extends;
    BumpSame(h, s);
    if s.role == Leader && a.term == s.currentTerm && reply.term > s.currentTerm {
      FollowStep(h, s, reply.term);
    }
  }

  lemma SubmitStep(h: History, s: Node, p: Payload)
    requires BaseInv(h) && NodeInv(h, s) && s.role == Leader
    ensures var g := LeaderAppend(h, s.id, p); BaseInv(g) && Extends(h, g, s.id) && NodeInv(g, Start(s, p))
  {
    hide BaseInv;
    hide Extends;
    NodeFacts(h, s.id);
    LeadFacts(h, s.currentTerm);
    LeaderAppendKeepsBase(h, s.id, p);
  }

  /** A message built by a leader carries a piece of its log. */
  lemma ReplicateStep(h: History, s: Node, peer: Id)
    requires BaseInv(h) && NodeInv(h, s)
    ensures var (s', out) := PrepareAppend(s, peer);
            NodeInv(h, s') && (out.Append? ==> AppendOk(h, s.id, out.args))
  {
    hide BaseInv;
    var (s', out) := PrepareAppend(s, peer);
    if out.Append? {
      LeadFacts(h, s.currentTerm);
      RepresentsTermAt(s, h.full[s.id], out.args.prevLogIndex);
    }
  }

  lemma SendSnapshotStep(h: History, s: Node)
    requires BaseInv(h) && NodeInv(h, s) && s.role == Leader
    ensures InstallOk(h, s.id, PrepareSnapshot(s))
  {
    LeadFacts(h, s.currentTerm);
    hide BaseInv;
  }

  lemma AdvanceStep(h: History, s: Node)
    requires BaseInv(h) && NodeInv(h, s)
    ensures var g := if s.role == Leader then Acknowledge(h, s.id, s.currentTerm, LastIndex(s)) else h;
            BaseInv(g) && Extends(h, g, s.id) && NodeInv(g, AdvanceCommit(s))
  {
    hide BaseInv;
    hide Extends;
    ExtendsRefl(h, s.id);
    AcknowledgeKeepsBase(h, s.id, s.currentTerm, LastIndex(s));
  }

  lemma ApplyStep(h: History, s: Node)
    requires NodeInv(h, s)
    ensures ApplyNext(s).Deliver? ==> NodeInv(h, ApplyNext(s).node) && ApplyNext(s).node.id == s.id
  {
  }

  lemma NodeShape(h: History, s: Node)
    requires NodeInv(h, s)
    ensures s.id in h.members && s.peers == h.members - {s.id} && s.currentTerm == h.term[s.id]
  {
  }

  lemma CompactStep(h: History, s: Node, index: int, data: Image)
    requires NodeInv(h, s)
    ensures NodeInv(h, Compact(s, index, data)) && Compact(s, index, data).id == s.id
  {
    if !(index <= s.logOffset || CompactFails(s, index)) {
      RepresentsTermAt(s, h.full[s.id], index);
    }
  }

  lemma RestartStep(h: History, s: Node)
    requires NodeInv(h, s)
    ensures NodeInv(h, Boot(s.id, s.peers, Persisted(s))) && Boot(s.id, s.peers, Persisted(s)).id == s.id
  {
    var s' := Boot(s.id, s.peers, Persisted(s));
    assert s'.log == s.log;
  }

  // ---------- Every event ----------

  lemma ReceiveStep(h: History, p: Proc, m: Msg)
    requires Membership(h.members) && BaseInv(h) && NodeInv(h, p.raft) && MsgInv(h, m) && p.raft.id == m.to
    requires m.VoteReplyMsg? && p.raft.role == Candidate && p.raft.currentTerm == m.vote.term ==>
               m.from in p.raft.awaiting
    ensures var (p', sent) := ReceiveMsg(p, m);
            GoodStep(h, RecordReceive(h, p.raft, m), m.to, p', sent)
  {
    hide BaseInv;
    hide Extends;
    hide NodeInv;
    hide HandleAppendEntries;
    hide HandleInstallSnapshot;
    hide HandleAppendReply;
    hide HandleSnapshotReply;
    hide HandleVoteReply;
    hide HandleRequestVote;
    hide Accept;
    var s := p.raft;
    var g := RecordReceive(h, s, m);
    match m {
      case RequestVoteMsg(from, to, a) =>
        RequestVoteStep(h, s, from, a);
        StepMembers(h, g, to);
      case VoteReplyMsg(from, to, a, reply) => VoteReplyStep(h, s, from, a, reply);
      case AppendMsg(from, to, a) =>
        AppendStep(h, s, from, a);
        MsgKeeps(h, g, to, m);
      case AppendReplyMsg(from, to, a, reply) => AppendReplyStep(h, s, from, a, reply);
      case InstallMsg(from, to, a) =>
        InstallStep(h, s, from, a);
        MsgKeeps(h, g, to, m);
      case InstallReplyMsg(from, to, a, reply) => InstallReplyStep(h, s, from, a, reply);
    }
  }

  /** The events other than receiving a message. */
  lemma LocalStep(h: History, p: Proc, ev: Event)
    requires Membership(h.members) && BaseInv(h) && NodeInv(h, p.raft) && p.raft.id == Actor(ev) && !ev.Receive?
    requires ev.LoneWin? ==> QuorumSize(p.raft) == 1 && p.raft.role == Candidate
    requires ev.Replicate? ==> ev.peer in p.raft.peers
    requires ev.SendSnapshot? ==> ev.peer in p.raft.peers && p.raft.role == Leader
    ensures var (p', sent) := Act(p, ev);
            GoodStep(h, Record(h, p.raft, ev), Actor(ev), p', sent)
  {
    hide BaseInv;
    hide Extends;
    hide NodeInv;
    hide Compact;
    hide Boot;
    hide ApplyNext;
    hide CommitPoint;
    hide AppendOk;
    hide InstallOk;
    hide RequestOk;
    hide CastVote;
    hide Crown;
    var n := Actor(ev);
    var s := p.raft;
    NodeShape(h, s);
    ExtendsRefl(h, n);
    match ev {
      case Timeout(_) =>
        if s.role != Leader {
          TimeoutStep(h, s);
          StepMembers(h, Record(h, s, ev), n);
        }
      case LoneWin(_) => WinStep(h, s);
      case Submit(_, payload) =>
        if s.role == Leader {
          SubmitStep(h, s, payload);
        }
      case Replicate(_, peer) => ReplicateStep(h, s, peer);
      case SendSnapshot(_, peer) => SendSnapshotStep(h, s);
      case Advance(_) => AdvanceStep(h, s);
      case ApplyOne(_) => ApplyStep(h, s);
      case Consume(_) =>
      case CompactLog(_) => CompactStep(h, s, p.applied, p.store);
      case Restart(_) => RestartStep(h, s);
    }
  }

  lemma EventStep(sys: System, ev: Event)
    requires Inv(sys) && Enabled(sys.cluster, ev)
    ensures var p := sys.cluster.procs[Actor(ev)];
            var (p', sent) := Act(p, ev);
            GoodStep(sys.hist, Record(sys.hist, p.raft, ev), Actor(ev), p', sent)
  {
    hide BaseInv;
    hide NodeInv;
    hide MsgInv;
    hide GoodStep;
    var p := sys.cluster.procs[Actor(ev)];
    if ev.Receive? {
      ReceiveStep(sys.hist, p, ev.msg);
    } else {
      LocalStep(sys.hist, p, ev);
    }
  }

  lemma StepKeepsInv(sys: System, ev: Event)
    requires Inv(sys)
    ensures Inv(Step(sys, ev))
    ensures Extends(sys.hist, Step(sys, ev).hist, Actor(ev))
  {
    hide BaseInv;
    hide NodeInv;
    hide MsgInv;
    hide Extends;
    hide Act;
    hide Record;
    if Enabled(sys.cluster, ev) {
      EventStep(sys, ev);
      var p := sys.cluster.procs[Actor(ev)];
      var (p', sent) := Act(p, ev);
      GoodStepKeeps(sys, Record(sys.hist, p.raft, ev), Actor(ev), p', sent);
    } else {
      ExtendsRefl(sys.hist, Actor(ev));
    }
  }

  lemma InitInv(members: set<Id>)
    requires Membership(members)
    ensures Inv(Init(members))
  {
    var sys := Init(members);
    assert Coherent([SENTINEL], sys.hist.lead);
    forall n | n in members ensures NodeInv(sys.hist, sys.cluster.procs[n].raft) {
      assert sys.cluster.procs[n].raft.log == [SENTINEL];
    }
  }

  lemma {:induction false} RunInv(members: set<Id>, evs: seq<Event>)
    requires Membership(members)
    ensures Inv(Run(members, evs)) && Run(members, evs).hist.members == members
    decreases |evs|
  {
    if evs == [] {
      InitInv(members);
    } else {
      RunInv(members, evs[..|evs| - 1]);
      StepKeepsInv(Run(members, evs[..|evs| - 1]), evs[|evs| - 1]);
    }
  }

  // ---------- Election Safety ----------

  ghost predicate LeadsIn(sys: System, n: Id, t: int)
  {
    n in sys.cluster.procs && sys.cluster.procs[n].raft.role == Leader && sys.cluster.procs[n].raft.currentTerm == t
  }

  /** An election, once won, is part of the history of every later state. */
  lemma {:induction false} ElectionRemembered(members: set<Id>, evs: seq<Event>, i: nat, t: int)
    requires Membership(members) && i <= |evs| && t in Run(members, evs[..i]).hist.elect
    ensures t in Run(members, evs).hist.elect
    ensures Run(members, evs).hist.elect[t] == Run(members, evs[..i]).hist.elect[t]
    decreases |evs|
  {
    if i == |evs| {
      assert evs[..i] == evs;
    } else {
      var pre := evs[..|evs| - 1];
      assert pre[..i] == evs[..i];
      ElectionRemembered(members, pre, i, t);
      RunInv(members, pre);
      StepKeepsInv(Run(members, pre), evs[|evs| - 1]);
    }
  }

  /** Election Safety: over a whole run, however messages are lost, repeated or reordered and whoever restarts, no two
      nodes ever lead the same term, at the same time or at different times. */
  lemma ElectionSafety(members: set<Id>, evs: seq<Event>, i: nat, j: nat, a: Id, b: Id, t: int)
    requires Membership(members) && i <= |evs| && j <= |evs|
    requires LeadsIn(Run(members, evs[..i]), a, t) && LeadsIn(Run(members, evs[..j]), b, t)
    ensures a == b
  {
    RunInv(members, evs[..i]);
    RunInv(members, evs[..j]);
    ElectionRemembered(members, evs, i, t);
    ElectionRemembered(members, evs, j, t);
  }

  // ---------- Log Matching ----------

  /** The entry a node still holds at an index above its compaction point. */
  function EntryAt(s: Node, i: int): Entry
    requires s.logOffset < i <= LastIndex(s)
  {
    s.log[i - s.logOffset]
  }

  /** Log Matching: in every reachable state, two nodes whose logs have the same term at an index have the same full log
      through that index, and so hold equal entries wherever neither has compacted them away. */
  lemma LogMatching(members: set<Id>, evs: seq<Event>, a: Id, b: Id, k: int)
    requires Membership(members) && a in members && b in members
    requires var c := Run(members, evs).cluster;
             a in c.procs && b in c.procs && TermAt(c.procs[a].raft, k) >= 0 &&
             TermAt(c.procs[a].raft, k) == TermAt(c.procs[b].raft, k)
    ensures var sys := Run(members, evs);
            var s, r := sys.cluster.procs[a].raft, sys.cluster.procs[b].raft;
            && a in sys.hist.full && b in sys.hist.full
            && Represents(s, sys.hist.full[a]) && Represents(r, sys.hist.full[b])
            && Agree(sys.hist.full[a], sys.hist.full[b], k)
            && forall i | Max(s.logOffset, r.logOffset) < i <= k :: EntryAt(s, i) == EntryAt(r, i)
  {
    hide BaseInv;
    hide CandidateOk;
    hide MsgInv;
    hide Coherent;
    RunInv(members, evs);
    var sys := Run(members, evs);
    var h := sys.hist;
    var s, r := sys.cluster.procs[a].raft, sys.cluster.procs[b].raft;
    assert NodeInv(h, s) && NodeInv(h, r);
    NodeFacts(h, a);
    NodeFacts(h, b);
    RepresentsTermAt(s, h.full[a], k);
    RepresentsTermAt(r, h.full[b], k);
    SameTermSamePrefix(h, h.full[a], h.full[b], k);
    forall i | Max(s.logOffset, r.logOffset) < i <= k ensures EntryAt(s, i) == EntryAt(r, i) {
      assert h.full[a][i] == h.full[b][i];
    }
  }
}

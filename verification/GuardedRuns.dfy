/** What holds in every run in which no snapshot is installed over entries the follower shares with it: every
    acknowledgement is kept, committed entries are never lost, and the stores replay the committed log. */
module GuardedRuns {
  import opened Kv
  import opened RaftTypes
  import opened Handlers
  import opened Ledger
  import opened Commitment
  import opened Cluster
  import opened AllRuns
  import opened StateMachine

  // ---------- The guard ----------

  /** Installing this snapshot would drop entries that follow one the node shares with the snapshot: the case in which
      rule 6 of Figure 13 of the extended Raft paper keeps them. */
  predicate DropsSharedTail(s: Node, a: InstallSnapshotArgs)
  {
    && Installs(s, a)
    && a.lastIncludedIndex < LastIndex(s)
    && TermAt(s, a.lastIncludedIndex) == a.lastIncludedTerm
  }

  ghost predicate Harmless(c: Cluster, ev: Event)
  {
    Enabled(c, ev) && ev.Receive? && ev.msg.InstallMsg? ==> !DropsSharedTail(c.procs[ev.msg.to].raft, ev.msg.install)
  }

  ghost predicate Guarded(members: set<Id>, evs: seq<Event>)
    decreases |evs|
  {
    evs == [] ||
    (Guarded(members, evs[..|evs| - 1]) && Harmless(Run(members, evs[..|evs| - 1]).cluster, evs[|evs| - 1]))
  }

  /** Installing this snapshot would drop nothing the node shares with its leader. The guard implies it, and unlike this the
      guard can be tested by the node. */
  ghost predicate Lossless(h: History, s: Node, a: InstallSnapshotArgs)
  {
    Installs(s, a) ==>
      s.id in h.full && a.term in h.lead && NothingToKeep(h.full[s.id], h.lead[a.term], a.lastIncludedIndex)
  }

  ghost predicate LosslessStep(sys: System, ev: Event)
  {
    Enabled(sys.cluster, ev) && ev.Receive? && ev.msg.InstallMsg? ==>
      Lossless(sys.hist, sys.cluster.procs[ev.msg.to].raft, ev.msg.install)
  }

  /** A snapshot that drops no shared tail drops nothing the node shares with its leader. */
  lemma GuardIsLossless(h: History, s: Node, from: Id, a: InstallSnapshotArgs)
    requires NodeInv(h, s) && InstallOk(h, from, a) && !DropsSharedTail(s, a)
    ensures Lossless(h, s, a)
  {
    hide CandidateOk;
    if Installs(s, a) && a.lastIncludedIndex < LastIndex(s) {
      RepresentsTermAt(s, h.full[s.id], a.lastIncludedIndex);
    }
  }

  lemma HarmlessIsLossless(sys: System, ev: Event)
    requires Inv(sys) && Harmless(sys.cluster, ev)
    ensures LosslessStep(sys, ev)
  {
    hide BaseInv;
    hide NodeInv;
    hide DropsSharedTail;
    hide Lossless;
    if Enabled(sys.cluster, ev) && ev.Receive? && ev.msg.InstallMsg? {
      assert MsgInv(sys.hist, ev.msg);
      GuardIsLossless(sys.hist, sys.cluster.procs[ev.msg.to].raft, ev.msg.from, ev.msg.install);
    }
  }

  // ---------- The invariant ----------

  /** What a leader knows of a peer. */
  ghost predicate PeerOk(h: History, s: Node, p: Id)
  {
    && p in s.nextIndex && p in s.matchIndex
    && 1 <= s.nextIndex[p] <= LastIndex(s) + 1
    && 0 <= s.matchIndex[p] <= LastIndex(s)
    && (s.matchIndex[p] == 0 || (p, s.currentTerm, s.matchIndex[p]) in h.acks)
  }

  ghost predicate LeaderOk(h: History, s: Node)
  {
    s.role == Leader ==> forall p | p in s.peers :: PeerOk(h, s, p)
  }

  ghost predicate CommitOk(h: History, s: Node)
  {
    && s.id in h.full && |h.full[s.id]| == LastIndex(s) + 1
    && 0 <= s.logOffset <= s.lastApplied <= s.commitIndex <= LastIndex(s)
    && Committed(h, h.full[s.id], s.commitIndex, s.currentTerm)
    && s.snapshot.data == Replay(h.full[s.id], s.logOffset)
  }

  ghost predicate ServerOk(full: seq<Entry>, p: Proc)
  {
    && 0 <= p.applied < |full|
    && p.store == Replay(full, p.applied)
    && QueueOk(full, p.applied, p.queue, p.raft.lastApplied)
  }

  ghost predicate ProcOk(h: History, p: Proc)
  {
    CommitOk(h, p.raft) && LeaderOk(h, p.raft) && ServerOk(h.full[p.raft.id], p)
  }

  ghost predicate AppendCommitOk(h: History, a: AppendEntriesArgs)
  {
    && a.term in h.lead
    && 0 <= a.leaderCommit <= a.prevLogIndex + |a.entries|
    && Committed(h, h.lead[a.term], a.leaderCommit, a.term)
  }

  ghost predicate AppendReplyOk(h: History, from: Id, a: AppendEntriesArgs, reply: AppendEntriesReply)
  {
    && a.term in h.lead
    && (reply.success ==> (from, a.term, a.prevLogIndex + |a.entries|) in h.acks)
    && (!reply.success && reply.term <= a.term ==> 1 <= reply.conflictIndex <= |h.lead[a.term]|)
  }

  ghost predicate InstallCommitOk(h: History, a: InstallSnapshotArgs)
  {
    && a.term in h.lead
    && Committed(h, h.lead[a.term], a.lastIncludedIndex, a.term)
    && a.data == Replay(h.lead[a.term], a.lastIncludedIndex)
  }

  ghost predicate SafeMsg(h: History, m: Msg)
  {
    match m
    case AppendMsg(_, _, a) => AppendCommitOk(h, a)
    case AppendReplyMsg(from, _, a, reply) => AppendReplyOk(h, from, a, reply)
    case InstallMsg(_, _, a) => InstallCommitOk(h, a)
    case InstallReplyMsg(from, _, a, reply) =>
      reply.term <= a.term ==> (from, a.term, a.lastIncludedIndex) in h.acks
    case _ => true
  }

  ghost predicate SafeInv(sys: System)
  {
    var c, h := sys.cluster, sys.hist;
    && Inv(sys)
    && AckInv(h)
    && (forall n | n in c.procs :: ProcOk(h, c.procs[n]))
    && (forall m | m in c.msgs :: SafeMsg(h, m))
  }

  // ---------- What the others see of a step ----------

  lemma CommittedGrows(h: History, g: History, n: Id, log: seq<Entry>, c: int, bound: int)
    requires Extends(h, g, n) && Committed(h, log, c, bound)
    ensures Committed(g, log, c, bound)
  {
    CommittedStays(h, g, n, log, log, c, bound, bound);
  }

  lemma CommittedLower(h: History, log: seq<Entry>, c: int, k: int, bound: int)
    requires Committed(h, log, c, bound) && 0 <= k <= c
    ensures Committed(h, log, k, bound)
  {
    if k > 0 {
      var t, i :| CommittedBy(h, log, c, bound, t, i);
      assert CommittedBy(h, log, k, bound, t, i);
    }
  }

  /** A node whose own log did not change. */
  lemma ProcKeeps(h: History, g: History, n: Id, p: Proc)
    requires Extends(h, g, n) && ProcOk(h, p)
    requires p.raft.id in g.full && g.full[p.raft.id] == h.full[p.raft.id]
    ensures ProcOk(g, p)
  {
    CommittedGrows(h, g, n, h.full[p.raft.id], p.raft.commitIndex, p.raft.currentTerm);
    hide Committed;
    forall q | p.raft.role == Leader && q in p.raft.peers ensures PeerOk(g, p.raft, q) {
      assert PeerOk(h, p.raft, q);
    }
  }

  lemma LeadCommittedGrows(h: History, g: History, n: Id, t: int, c: int)
    requires Extends(h, g, n) && t in h.lead && Committed(h, h.lead[t], c, t)
    ensures t in g.lead && Committed(g, g.lead[t], c, t) && Replay(g.lead[t], c) == Replay(h.lead[t], c)
  {
    assert LogGrows(h.lead[t], g.lead[t], t);
    assert Agree(h.lead[t], g.lead[t], c);
    CommittedStays(h, g, n, h.lead[t], g.lead[t], c, t, t);
    ReplayAgrees(h.lead[t], g.lead[t], c, c);
  }

  lemma SafeMsgKeeps(h: History, g: History, n: Id, m: Msg)
    requires Extends(h, g, n) && SafeMsg(h, m)
    ensures SafeMsg(g, m)
  {
    hide Committed;
    match m {
      case AppendMsg(_, _, a) => LeadCommittedGrows(h, g, n, a.term, a.leaderCommit);
      case AppendReplyMsg(_, _, a, _) => assert LogGrows(h.lead[a.term], g.lead[a.term], a.term);
      case InstallMsg(_, _, a) => LeadCommittedGrows(h, g, n, a.term, a.lastIncludedIndex);
      case _ =>
    }
  }

  /** What is left to show of a step. */
  ghost predicate SafeStep(g: History, p: Proc, sent: set<Msg>)
  {
    AckInv(g) && ProcOk(g, p) && forall m | m in sent :: SafeMsg(g, m)
  }

  lemma SafeStepKeeps(sys: System, g: History, n: Id, p: Proc, sent: set<Msg>)
    requires SafeInv(sys) && n in sys.cluster.procs
    requires GoodStep(sys.hist, g, n, p, sent) && SafeStep(g, p, sent)
    ensures SafeInv(System(Cluster(sys.cluster.procs[n := p], sys.cluster.msgs + sent), g))
  {
    hide AckInv;
    hide BaseInv;
    hide NodeInv;
    hide MsgInv;
    hide ProcOk;
    hide SafeMsg;
    var c, h := sys.cluster, sys.hist;
    GoodStepKeeps(sys, g, n, p, sent);
    hide GoodStep;
    var procs := c.procs[n := p];
    forall q | q in procs ensures ProcOk(g, procs[q]) {
      if q != n {
        OthersKeepTheirLog(h, g, n, c.procs[q].raft);
        ProcKeeps(h, g, n, c.procs[q]);
      }
    }
    forall m | m in c.msgs + sent ensures SafeMsg(g, m) {
      if m in c.msgs {
        SafeMsgKeeps(h, g, n, m);
      }
    }
  }

  lemma OthersKeepTheirLog(h: History, g: History, n: Id, s: Node)
    requires Extends(h, g, n) && NodeInv(h, s) && s.id != n
    ensures s.id in g.full && g.full[s.id] == h.full[s.id]
  {
  }

  // ---------- The acting node ----------

  /** A change of role, term, vote or leader hint, to a node that does not lead. */
  lemma Restyled(h: History, p: Proc, s: Node)
    requires ProcOk(h, p) && s.role != Leader && s.currentTerm >= p.raft.currentTerm
    requires s.id == p.raft.id && s.log == p.raft.log && s.logOffset == p.raft.logOffset
    requires s.snapshot == p.raft.snapshot && s.commitIndex == p.raft.commitIndex && s.lastApplied == p.raft.lastApplied
    ensures ProcOk(h, p.(raft := s))
  {
    ExtendsRefl(h, s.id);
    var full := h.full[s.id];
    CommittedStays(h, h, s.id, full, full, s.commitIndex, p.raft.currentTerm, s.currentTerm);
    hide Committed;
  }

  lemma BumpSafe(h: History, p: Proc, t: int, s: Node)
    requires BaseInv(h) && AckInv(h) && NodeInv(h, p.raft) && ProcOk(h, p) && t >= p.raft.currentTerm
    requires s.role != Leader && s.currentTerm == t
    requires s.id == p.raft.id && s.log == p.raft.log && s.logOffset == p.raft.logOffset
    requires s.snapshot == p.raft.snapshot && s.commitIndex == p.raft.commitIndex && s.lastApplied == p.raft.lastApplied
    ensures var g := Bump(h, s.id, t); AckInv(g) && ProcOk(g, p.(raft := s))
  {
    hide BaseInv;
    hide AckInv;
    hide Extends;
    hide ProcOk;
    NodeShape(h, p.raft);
    BumpKeepsBase(h, s.id, t);
    BumpKeepsAcks(h, s.id, t);
    var g := Bump(h, s.id, t);
    ProcKeeps(h, g, s.id, p);
    Restyled(g, p, s);
  }

  lemma VoteSafe(h: History, p: Proc, c: Id, s: Node)
    requires BaseInv(h) && AckInv(h) && NodeInv(h, p.raft) && ProcOk(h, p)
    requires s == p.raft.(role := s.role, votedFor := s.votedFor, votes := s.votes, awaiting := s.awaiting)
    requires s.role != Leader || p.raft.role == Leader
    requires Extends(h, CastVote(h, s.id, c), s.id)
    ensures var g := CastVote(h, s.id, c); AckInv(g) && ProcOk(g, p.(raft := s))
  {
    hide BaseInv;
    hide AckInv;
    hide Extends;
    hide Committed;
    NodeShape(h, p.raft);
    var g := CastVote(h, s.id, c);
    if g != h {
      VoteKeepsAcks(h, s.id, c);
    }
    ProcKeeps(h, g, s.id, p);
    forall q | s.role == Leader && q in s.peers ensures PeerOk(g, s, q) {
      assert PeerOk(g, p.raft, q);
    }
  }

  lemma TimeoutSafe(h: History, p: Proc)
    requires Membership(h.members) && BaseInv(h) && AckInv(h) && NodeInv(h, p.raft) && ProcOk(h, p)
    requires p.raft.role != Leader
    ensures var g := CastVote(Bump(h, p.raft.id, p.raft.currentTerm + 1), p.raft.id, p.raft.id);
            AckInv(g) && ProcOk(g, p.(raft := StartElection(p.raft)))
  {
    hide BaseInv;
    hide AckInv;
    hide Extends;
    hide ProcOk;
    hide NodeInv;
    var s := p.raft;
    NodeShape(h, s);
    NodeFacts(h, s.id);
    var s1 := BecomeFollower(s, s.currentTerm + 1);
    var g1 := Bump(h, s.id, s.currentTerm + 1);
    FollowStep(h, s, s.currentTerm + 1);
    BumpSafe(h, p, s.currentTerm + 1, s1);
    VoteKeepsBase(g1, s.id, s.id);
    VoteSafe(g1, p.(raft := s1), s.id, StartElection(s));
  }

  lemma RequestVoteSafe(h: History, p: Proc, from: Id, a: RequestVoteArgs)
    requires Membership(h.members) && BaseInv(h) && AckInv(h) && NodeInv(h, p.raft) && ProcOk(h, p)
    requires from in h.members && from != p.raft.id && RequestOk(h, from, a)
    ensures var (s', reply) := HandleRequestVote(p.raft, a);
            var g1 := Bump(h, p.raft.id, s'.currentTerm);
            var g := if reply.voteGranted then CastVote(g1, p.raft.id, a.candidateId) else g1;
            AckInv(g) && ProcOk(g, p.(raft := s'))
  {
    hide BaseInv;
    hide AckInv;
    hide Extends;
    hide ProcOk;
    hide NodeInv;
    var s := p.raft;
    BumpSame(h, s);
    if a.term >= s.currentTerm {
      var s1 := if a.term > s.currentTerm then BecomeFollower(s, a.term) else s;
      var g1 := Bump(h, s.id, a.term);
      if a.term > s.currentTerm {
        FollowStep(h, s, a.term);
        BumpSafe(h, p, a.term, s1);
      }
      var (s', reply) := HandleRequestVote(s, a);
      if reply.voteGranted {
        GrantStep(g1, s1, from, a);
        VoteSafe(g1, p.(raft := s1), from, s');
      }
    }
  }

  /** A new leader takes every peer to be up to date and knows nothing of what they hold. */
  lemma WinSafe(h: History, p: Proc)
    requires BaseInv(h) && AckInv(h) && NodeInv(h, p.raft) && ProcOk(h, p)
    requires p.raft.role == Candidate && (p.raft.votes >= QuorumSize(p.raft) || QuorumSize(p.raft) == 1)
    ensures var g := Crown(h, p.raft.id); AckInv(g) && ProcOk(g, p.(raft := BecomeLeader(p.raft)))
  {
    hide BaseInv;
    hide AckInv;
    hide Extends;
    hide Committed;
    var s := p.raft;
    var g := Crown(h, s.id);
    Wins(h, s);
    CrownKeepsBase(h, s.id);
    CrownKeepsAcks(h, s.id);
    ProcKeeps(h, g, s.id, p);
    var s' := BecomeLeader(s);
    forall q | q in s'.peers ensures PeerOk(g, s', q) {
    }
  }

  lemma VoteReplySafe(h: History, p: Proc, from: Id, a: RequestVoteArgs, reply: RequestVoteReply)
    requires BaseInv(h) && AckInv(h) && NodeInv(h, p.raft) && ProcOk(h, p) && from in h.members && from != p.raft.id
    requires reply.voteGranted ==> (from, a.term) in h.votes && h.votes[(from, a.term)].candidate == p.raft.id
    requires p.raft.role == Candidate && p.raft.currentTerm == a.term ==> from in p.raft.awaiting
    ensures var s' := HandleVoteReply(p.raft, from, a.term, reply);
            var g1 := Bump(h, p.raft.id, s'.currentTerm);
            var g := if p.raft.role != Leader && s'.role == Leader then Crown(g1, p.raft.id) else g1;
            AckInv(g) && ProcOk(g, p.(raft := s'))
  {
    hide BaseInv;
    hide AckInv;
    hide Extends;
    hide ProcOk;
    var s := p.raft;
    BumpSame(h, s);
    if s.role == Candidate && s.currentTerm == a.term {
      if reply.term > s.currentTerm {
        BumpSafe(h, p, reply.term, BecomeFollower(s, reply.term));
      } else if reply.voteGranted {
        CountOneMore(h, s, from);
        var s1 := s.(votes := s.votes + 1, awaiting := s.awaiting - {from});
        Restyled(h, p, s1);
        if s1.votes >= QuorumSize(s1) {
          WinSafe(h, p.(raft := s1));
        }
      } else {
        Restyled(h, p, s.(awaiting := s.awaiting - {from}));
      }
    }
  }

  lemma ServerKeeps(full: seq<Entry>, next: seq<Entry>, p: Proc, q: Proc, k: int)
    requires ServerOk(full, p) && Agree(full, next, k) && p.raft.lastApplied <= k
    requires q == p.(raft := q.raft) && q.raft.lastApplied == p.raft.lastApplied
    ensures ServerOk(next, q)
  {
    QueueRange(full, p.applied, p.queue, p.raft.lastApplied);
    QueueAgrees(full, next, p.applied, p.queue, p.raft.lastApplied);
    ReplayAgrees(full, next, k, p.applied);
  }

  /** No accepted AppendEntries cuts the log at or below the commit index, and the commit index it leads to is covered by
      what the leader matched. */
  lemma AcceptKeepsCommitted(h: History, s: Node, from: Id, a: AppendEntriesArgs)
    requires BaseInv(h) && AckInv(h) && NodeInv(h, s) && CommitOk(h, s)
    requires AppendOk(h, from, a) && AppendCommitOk(h, a) && a.term == s.currentTerm
    requires Agree(h.full[s.id], h.lead[a.term], a.prevLogIndex)
    ensures var end := a.prevLogIndex + |a.entries|;
            var full, leader := h.full[s.id], h.lead[a.term];
            var next := Merge(full, leader, end);
            && Agree(full, next, s.commitIndex)
            && Agree(next, leader, end)
            && |next| > end && |next| > s.commitIndex
  {
    hide BaseInv;
    hide AckInv;
    var end := a.prevLogIndex + |a.entries|;
    var full, leader := h.full[s.id], h.lead[a.term];
    NodeFacts(h, s.id);
    CommittedInLead(h, full, s.commitIndex, s.currentTerm, a.term);
    hide Committed;
    hide Coherent;
    MergeKeepsAgreement(full, leader, end, s.commitIndex);
  }

  lemma AcceptCommit(h: History, g: History, s: Node, a: AppendEntriesArgs, log: seq<Entry>, next: seq<Entry>)
    requires CommitOk(h, s) && AppendCommitOk(h, a) && a.term == s.currentTerm
    requires Extends(h, g, s.id) && s.id in g.full && g.full[s.id] == next
    requires s.logOffset + |log| == |next| > a.prevLogIndex + |a.entries|
    requires Agree(h.full[s.id], next, s.commitIndex) && Agree(next, h.lead[a.term], a.prevLogIndex + |a.entries|)
    ensures CommitOk(g, s.(log := log, commitIndex := if a.leaderCommit > s.commitIndex
                                                      then Min(a.leaderCommit, |next| - 1) else s.commitIndex))
  {
    hide Extends;
    if a.leaderCommit > s.commitIndex {
      CommittedStays(h, g, s.id, h.lead[a.term], next, a.leaderCommit, a.term, s.currentTerm);
    } else {
      CommittedStays(h, g, s.id, h.full[s.id], next, s.commitIndex, s.currentTerm, s.currentTerm);
    }
    hide Committed;
    ReplayAgrees(h.full[s.id], next, s.commitIndex, s.logOffset);
  }

  lemma AcceptSafe(h: History, p: Proc, from: Id, a: AppendEntriesArgs)
    requires BaseInv(h) && AckInv(h) && NodeInv(h, p.raft) && ProcOk(h, p)
    requires AppendOk(h, from, a) && AppendCommitOk(h, a) && a.term == p.raft.currentTerm
    requires p.raft.role == Follower
    requires p.raft.logOffset <= a.prevLogIndex <= LastIndex(p.raft)
    requires TermAt(p.raft, a.prevLogIndex) == a.prevLogTerm
    ensures var g := Accept(h, p.raft.id, a.term, a.prevLogIndex + |a.entries|);
            AckInv(g) && ProcOk(g, p.(raft := Appended(p.raft, a)))
  {
    hide BaseInv;
    hide AckInv;
    hide Extends;
    hide AppendFrom;
    hide Committed;
    hide Represents;
    var s := p.raft;
    var end := a.prevLogIndex + |a.entries|;
    var full, leader := h.full[s.id], h.lead[a.term];
    var g := Accept(h, s.id, a.term, end);
    var next := Merge(full, leader, end);
    var log := AppendFrom(s.log, s.logOffset, a.prevLogIndex, a.entries, 0);
    MergedLog(h, s, from, a);
    AcceptKeepsBase(h, s.id, a.term, end);
    AcceptKeepsAcks(h, s.id, a.term, end);
    AcceptKeepsCommitted(h, s, from, a);
    RepresentsShape(s.(log := log), next, 0);
    hide Merge;
    hide Agree;
    AcceptCommit(h, g, s, a, log, next);
    ServerKeeps(full, next, p, p.(raft := Appended(s, a)), s.commitIndex);
  }

  lemma {:induction false} FirstOfRunSpan(s: Node, index: int)
    requires s.logOffset <= index <= LastIndex(s)
    ensures s.logOffset <= FirstOfRun(s, index) <= index
    ensures TermAt(s, FirstOfRun(s, index)) == TermAt(s, index)
    decreases index - s.logOffset
  {
    if index > s.logOffset && TermAt(s, index - 1) == TermAt(s, index) {
      FirstOfRunSpan(s, index - 1);
    }
  }

  /** The hint of a rejection lies within the leader's log: also when the follower has compacted past the probe, since
      what it compacted is committed and so is in the leader's log. */
  lemma RejectionHint(h: History, s: Node, from: Id, a: AppendEntriesArgs)
    requires BaseInv(h) && AckInv(h) && NodeInv(h, s) && CommitOk(h, s) && AppendOk(h, from, a)
    requires a.term >= s.currentTerm
    ensures var (_, reply) := HandleAppendEntries(s, a);
            !reply.success ==> 1 <= reply.conflictIndex <= |h.lead[a.term]|
  {
    hide BaseInv;
    hide AckInv;
    hide Committed;
    hide Represents;
    hide Coherent;
    var full, leader := h.full[s.id], h.lead[a.term];
    NodeFacts(h, s.id);
    LeadFacts(h, a.term);
    CommittedInLead(h, full, s.commitIndex, s.currentTerm, a.term);
    SentinelFirst(h, full);
    SentinelFirst(h, leader);
    RepresentsShape(s, full, 0);
    var s1 := HeardFromLeader(s, a.term, a.leaderId);
    if s1.logOffset <= a.prevLogIndex <= LastIndex(s1) && TermAt(s1, a.prevLogIndex) != a.prevLogTerm {
      FirstOfRunSpan(s1, a.prevLogIndex);
      var first := FirstOfRun(s1, a.prevLogIndex);
      RestyledRepresents(s, s1, full);
      RepresentsTermAt(s1, full, first);
      RepresentsTermAt(s1, full, a.prevLogIndex);
      BaseLeaders(h);
      TermsSorted(h, full, a.prevLogIndex, a.prevLogIndex);
    }
  }

  lemma SentinelFirst(h: History, log: seq<Entry>)
    requires Coherent(log, h.lead)
    ensures |log| > 0 && log[0].term == 0
  {
  }

  lemma BaseLeaders(h: History)
    requires BaseInv(h)
    ensures LeadersOk(h)
  {
  }

  lemma AppendSafe(h: History, p: Proc, from: Id, a: AppendEntriesArgs)
    requires BaseInv(h) && AckInv(h) && NodeInv(h, p.raft) && ProcOk(h, p)
    requires AppendOk(h, from, a) && AppendCommitOk(h, a)
    ensures var (s', reply) := HandleAppendEntries(p.raft, a);
            var g1 := Bump(h, p.raft.id, s'.currentTerm);
            var g := if reply.success then Accept(g1, p.raft.id, a.term, a.prevLogIndex + |a.entries|) else g1;
            AckInv(g) && ProcOk(g, p.(raft := s')) && AppendReplyOk(g, p.raft.id, a, reply)
  {
    hide BaseInv;
    hide AckInv;
    hide Extends;
    hide NodeInv;
    hide ServerOk;
    hide Committed;
    hide LeaderOk;
    var s := p.raft;
    BumpSame(h, s);
    if a.term >= s.currentTerm {
      RejectionHint(h, s, from, a);
      var s1 := HeardFromLeader(s, a.term, a.leaderId);
      var g1 := Bump(h, s.id, a.term);
      HeardStep(h, s, a.term, a.leaderId);
      BumpSafe(h, p, a.term, s1);
      var (s', reply) := HandleAppendEntries(s, a);
      if reply.success {
        NodeShape(h, s);
        BumpCommitted(h, s.id, a);
        AcceptSafe(g1, p.(raft := s1), from, a);
        assert s' == Appended(s1, a);
      }
    }
  }

  lemma BumpCommitted(h: History, n: Id, a: AppendEntriesArgs)
    requires BaseInv(h) && AppendCommitOk(h, a) && n in h.members && a.term >= h.term[n]
    ensures AppendCommitOk(Bump(h, n, a.term), a)
  {
    BumpKeepsBase(h, n, a.term);
    LeadCommittedGrows(h, Bump(h, n, a.term), n, a.term, a.leaderCommit);
    hide Committed;
    hide BaseInv;
  }

  /** A snapshot that drops nothing shared reaches at least as far as the node has committed, so installing it only adds. */
  lemma InstallKeepsCommitted(h: History, s: Node, from: Id, a: InstallSnapshotArgs)
    requires BaseInv(h) && AckInv(h) && NodeInv(h, s) && CommitOk(h, s)
    requires InstallOk(h, from, a) && a.term == s.currentTerm
    requires Installs(s, a) && Lossless(h, s, a)
    ensures s.commitIndex <= a.lastIncludedIndex
    ensures Agree(h.full[s.id], Through(h.lead[a.term], a.lastIncludedIndex), s.commitIndex)
  {
    hide BaseInv;
    hide AckInv;
    hide Committed;
    hide Represents;
    var full, leader := h.full[s.id], h.lead[a.term];
    NodeFacts(h, s.id);
    CommittedInLead(h, full, s.commitIndex, s.currentTerm, a.term);
    hide Coherent;
    AgreementIsWithin(full, leader, a.lastIncludedIndex, s.commitIndex);
  }

  lemma SnapshotIsOffset(s: Node, full: seq<Entry>)
    requires Represents(s, full)
    ensures s.snapshot.lastIndex == s.logOffset && |full| == LastIndex(s) + 1
  {
  }

  /** A snapshot that the node already has covers nothing it has not. */
  lemma OldSnapshotAgrees(h: History, s: Node, from: Id, a: InstallSnapshotArgs)
    requires BaseInv(h) && AckInv(h) && NodeInv(h, s) && CommitOk(h, s)
    requires InstallOk(h, from, a) && a.term == s.currentTerm && !Installs(s, a)
    ensures Agree(h.full[s.id], h.lead[a.term], a.lastIncludedIndex)
  {
    hide BaseInv;
    hide AckInv;
    hide Committed;
    hide Represents;
    NodeFacts(h, s.id);
    CommittedInLead(h, h.full[s.id], s.commitIndex, s.currentTerm, a.term);
    SnapshotIsOffset(s, h.full[s.id]);
  }

  lemma InstallSafe(h: History, p: Proc, from: Id, a: InstallSnapshotArgs)
    requires BaseInv(h) && AckInv(h) && NodeInv(h, p.raft) && ProcOk(h, p)
    requires InstallOk(h, from, a) && InstallCommitOk(h, a) && a.term == p.raft.currentTerm && from != p.raft.id
    requires Installs(p.raft, a) && Lossless(h, p.raft, a) && p.raft.role == Follower
    ensures var g := Install(h, p.raft.id, a.term, a.lastIncludedIndex);
            var s := p.raft;
            var s' := s.(snapshot := Snapshot(a.lastIncludedIndex, a.lastIncludedTerm, a.data),
                         logOffset := a.lastIncludedIndex,
                         log := [Entry(a.lastIncludedTerm, Undecodable)],
                         commitIndex := Max(s.commitIndex, a.lastIncludedIndex),
                         lastApplied := Max(s.lastApplied, a.lastIncludedIndex));
            AckInv(g) &&
            ProcOk(g, p.(raft := s', queue := p.queue + [SnapshotMsg(a.lastIncludedIndex, a.data)]))
  {
    hide BaseInv;
    hide AckInv;
    hide Extends;
    hide Committed;
    hide Represents;
    var s := p.raft;
    var k := a.lastIncludedIndex;
    var full, leader := h.full[s.id], h.lead[a.term];
    var g := Install(h, s.id, a.term, k);
    var next := Through(leader, k);
    InstallKeepsCommitted(h, s, from, a);
    InstallKeepsBase(h, s.id, a.term, k);
    InstallKeepsAcks(h, s.id, a.term, k);
    assert g.full[s.id] == next && Agree(leader, next, k);
    CommittedStays(h, g, s.id, leader, next, k, a.term, s.currentTerm);
    ReplayAgrees(leader, next, k, k);
    QueueRange(full, p.applied, p.queue, s.lastApplied);
    ReplayAgrees(full, next, s.commitIndex, p.applied);
    QueueAgrees(full, next, p.applied, p.queue, s.lastApplied);
    assert QueueOk(next, s.lastApplied, [SnapshotMsg(k, a.data)], k) by {
      assert [SnapshotMsg(k, a.data)][1..] == [];
    }
    QueuePush(next, p.applied, p.queue, s.lastApplied, SnapshotMsg(k, a.data), k);
  }

  lemma BumpInstall(h: History, n: Id, a: InstallSnapshotArgs)
    requires BaseInv(h) && InstallCommitOk(h, a) && n in h.members && a.term >= h.term[n]
    ensures InstallCommitOk(Bump(h, n, a.term), a)
  {
    BumpKeepsBase(h, n, a.term);
    LeadCommittedGrows(h, Bump(h, n, a.term), n, a.term, a.lastIncludedIndex);
    hide Committed;
    hide BaseInv;
  }

  lemma ReceiveInstallSafe(h: History, p: Proc, from: Id, a: InstallSnapshotArgs)
    requires BaseInv(h) && AckInv(h) && NodeInv(h, p.raft) && ProcOk(h, p)
    requires InstallOk(h, from, a) && InstallCommitOk(h, a) && from != p.raft.id
    requires Lossless(h, p.raft, a)
    ensures var (s', reply) := HandleInstallSnapshot(p.raft, a);
            var g1 := Bump(h, p.raft.id, s'.currentTerm);
            var g := if Installs(p.raft, a) then Install(g1, p.raft.id, a.term, a.lastIncludedIndex)
                     else if a.term >= p.raft.currentTerm then Acknowledge(g1, p.raft.id, a.term, a.lastIncludedIndex)
                     else g1;
            var queue := if Installs(p.raft, a) then p.queue + [SnapshotMsg(a.lastIncludedIndex, a.data)] else p.queue;
            && AckInv(g) && ProcOk(g, p.(raft := s', queue := queue))
            && (reply.term <= a.term ==> (p.raft.id, a.term, a.lastIncludedIndex) in g.acks)
  {
    hide BaseInv;
    hide AckInv;
    hide Extends;
    hide NodeInv;
    hide ProcOk;
    var s := p.raft;
    BumpSame(h, s);
    if a.term >= s.currentTerm {
      var s1 := HeardFromLeader(s, a.term, a.leaderId);
      var g1 := Bump(h, s.id, a.term);
      NodeShape(h, s);
      HeardStep(h, s, a.term, a.leaderId);
      BumpSafe(h, p, a.term, s1);
      BumpInstall(h, s.id, a);
      if Installs(s, a) {
        InstallSafe(g1, p.(raft := s1), from, a);
      } else {
        NoInstallSafe(g1, p.(raft := s1), from, a);
        assert p.(raft := s1, queue := p.queue) == p.(raft := s1);
      }
    }
  }

  lemma NoInstallSafe(h: History, p: Proc, from: Id, a: InstallSnapshotArgs)
    requires BaseInv(h) && AckInv(h) && NodeInv(h, p.raft) && ProcOk(h, p)
    requires InstallOk(h, from, a) && a.term == p.raft.currentTerm && !Installs(p.raft, a)
    ensures var g := Acknowledge(h, p.raft.id, a.term, a.lastIncludedIndex); AckInv(g) && ProcOk(g, p)
  {
    hide BaseInv;
    hide AckInv;
    hide Extends;
    hide NodeInv;
    var n := p.raft.id;
    NodeShape(h, p.raft);
    OldSnapshotAgrees(h, p.raft, from, a);
    AcknowledgeKeepsBase(h, n, a.term, a.lastIncludedIndex);
    AcknowledgeKeepsAcks(h, n, a.term, a.lastIncludedIndex);
    hide ProcOk;
    ProcKeeps(h, Acknowledge(h, n, a.term, a.lastIncludedIndex), n, p);
  }

  // ---------- The leader ----------

  lemma {:induction false} LastIndexOfTermRange(s: Node, term: int, index: int)
    requires index <= LastIndex(s) && s.logOffset >= 0
    ensures LastIndexOfTerm(s, term, index) == -1 ||
            (s.logOffset <= LastIndexOfTerm(s, term, index) <= index && TermAt(s, LastIndexOfTerm(s, term, index)) == term)
    decreases index - s.logOffset
  {
    if s.logOffset <= index && TermAt(s, index) != term {
      LastIndexOfTermRange(s, term, index - 1);
    }
  }

  /** The leader's log is its term's log. */
  lemma LeaderLog(h: History, s: Node)
    requires BaseInv(h) && NodeInv(h, s) && s.role == Leader
    ensures s.currentTerm in h.lead && h.full[s.id] == h.lead[s.currentTerm] && |h.full[s.id]| == LastIndex(s) + 1
  {
    LeadFacts(h, s.currentTerm);
    hide BaseInv;
  }

  /** Recording a peer's new indices. */
  lemma PeerUpdate(h: History, p: Proc, from: Id, s: Node)
    requires ProcOk(h, p) && p.raft.role == Leader
    requires s == p.raft.(nextIndex := s.nextIndex, matchIndex := s.matchIndex)
    requires s.nextIndex.Keys >= p.raft.nextIndex.Keys && s.matchIndex.Keys >= p.raft.matchIndex.Keys
    requires forall q | q in p.raft.nextIndex && q != from :: s.nextIndex[q] == p.raft.nextIndex[q]
    requires forall q | q in p.raft.matchIndex && q != from :: s.matchIndex[q] == p.raft.matchIndex[q]
    requires from in s.peers ==> PeerOk(h, s, from)
    ensures ProcOk(h, p.(raft := s))
  {
    hide Committed;
    forall q | q in s.peers ensures PeerOk(h, s, q) {
      assert PeerOk(h, p.raft, q);
    }
  }

  lemma AppendReplySafe(h: History, p: Proc, from: Id, a: AppendEntriesArgs, reply: AppendEntriesReply)
    requires BaseInv(h) && AckInv(h) && NodeInv(h, p.raft) && ProcOk(h, p) && from in h.members && from != p.raft.id
    requires AppendOk(h, p.raft.id, a) && AppendReplyOk(h, from, a, reply)
    ensures var s' := HandleAppendReply(p.raft, from, a, reply);
            var g := Bump(h, p.raft.id, s'.currentTerm);
            AckInv(g) && ProcOk(g, p.(raft := s'))
  {
    hide BaseInv;
    hide AckInv;
    hide Committed;
    hide NodeInv;
    hide ServerOk;
    var s := p.raft;
    BumpSame(h, s);
    NodeShape(h, s);
    if s.role == Leader && a.term == s.currentTerm {
      if reply.term > s.currentTerm {
        BumpSafe(h, p, reply.term, BecomeFollower(s, reply.term));
      } else {
        LeaderLog(h, s);
        assert PeerOk(h, s, from);
        if reply.conflictTerm != 0 {
          LastIndexOfTermRange(s, reply.conflictTerm, LastIndex(s));
        }
        PeerUpdate(h, p, from, HandleAppendReply(s, from, a, reply));
      }
    }
  }

  lemma InstallReplySafe(h: History, p: Proc, from: Id, a: InstallSnapshotArgs, reply: InstallSnapshotReply)
    requires BaseInv(h) && AckInv(h) && NodeInv(h, p.raft) && ProcOk(h, p) && from in h.members && from != p.raft.id
    requires InstallOk(h, p.raft.id, a)
    requires reply.term <= a.term ==> (from, a.term, a.lastIncludedIndex) in h.acks
    ensures var s' := HandleSnapshotReply(p.raft, from, a, reply);
            var g := Bump(h, p.raft.id, s'.currentTerm);
            AckInv(g) && ProcOk(g, p.(raft := s'))
  {
    hide BaseInv;
    hide AckInv;
    hide Committed;
    hide NodeInv;
    hide ServerOk;
    var s := p.raft;
    BumpSame(h, s);
    NodeShape(h, s);
    if s.role == Leader && a.term == s.currentTerm {
      if reply.term > s.currentTerm {
        BumpSafe(h, p, reply.term, BecomeFollower(s, reply.term));
      } else {
        LeaderLog(h, s);
        assert PeerOk(h, s, from);
        PeerUpdate(h, p, from, HandleSnapshotReply(s, from, a, reply));
      }
    }
  }

  lemma SubmitSafe(h: History, p: Proc, payload: Payload)
    requires BaseInv(h) && AckInv(h) && NodeInv(h, p.raft) && ProcOk(h, p) && p.raft.role == Leader
    ensures var g := LeaderAppend(h, p.raft.id, payload); AckInv(g) && ProcOk(g, p.(raft := Start(p.raft, payload)))
  {
    hide BaseInv;
    hide AckInv;
    hide Extends;
    var s := p.raft;
    LeaderLog(h, s);
    LeaderAppendKeepsAcks(h, s.id, payload);
    LeaderAppendExtends(h, s.id, payload);
    hide NodeInv;
    var g := LeaderAppend(h, s.id, payload);
    var full, next := h.full[s.id], g.full[s.id];
    assert Agree(full, next, s.commitIndex);
    CommittedStays(h, g, s.id, full, next, s.commitIndex, s.currentTerm, s.currentTerm);
    hide Committed;
    ReplayAgrees(full, next, s.commitIndex, s.logOffset);
    var s' := Start(s, payload);
    ServerKeeps(full, next, p, p.(raft := s'), s.commitIndex);
    NodeShape(h, s);
    forall q | q in s'.peers ensures PeerOk(g, s', q) {
      assert PeerOk(h, s, q);
      AcksGrow(h, g, s.id);
    }
  }

  lemma AcksGrow(h: History, g: History, n: Id)
    requires Extends(h, g, n)
    ensures h.acks <= g.acks
  {
  }

  /** A leader's probe of a peer is always in range, and its message ends at the leader's last index, at or above the
      commit index it carries. */
  lemma ReplicateSafe(h: History, p: Proc, peer: Id)
    requires BaseInv(h) && NodeInv(h, p.raft) && ProcOk(h, p) && peer in p.raft.peers
    ensures var (s', out) := PrepareAppend(p.raft, peer);
            && s' == p.raft
            && !out.OutOfRange?
            && (out.Append? ==>
                  && AppendCommitOk(h, out.args)
                  && out.args.prevLogIndex + |out.args.entries| == LastIndex(p.raft))
  {
    hide BaseInv;
    hide Committed;
    hide NodeInv;
    hide ServerOk;
    var s := p.raft;
    if s.role == Leader {
      LeaderLog(h, s);
      assert PeerOk(h, s, peer);
    }
  }

  lemma SendSnapshotSafe(h: History, p: Proc)
    requires BaseInv(h) && NodeInv(h, p.raft) && ProcOk(h, p) && p.raft.role == Leader
    ensures InstallCommitOk(h, PrepareSnapshot(p.raft))
  {
    hide BaseInv;
    var s := p.raft;
    LeaderLog(h, s);
    CommittedLower(h, h.full[s.id], s.commitIndex, s.logOffset, s.currentTerm);
    hide Committed;
  }

  lemma {:induction false} CommitPointRange(s: Node, hi: int)
    ensures var c := CommitPoint(s, hi);
            s.commitIndex <= c && (c > s.commitIndex ==> c <= hi && Committable(s, c))
    decreases hi - s.commitIndex
  {
    if hi > s.commitIndex && !Committable(s, hi) {
      CommitPointRange(s, hi - 1);
    }
  }

  /** An index the leader may commit is chosen: it and the counted peers acknowledged it in its term. */
  lemma CommittableChosen(h: History, s: Node, c: int)
    requires NodeInv(h, s) && s.role == Leader && LeaderOk(h, s) && s.currentTerm in h.lead
    requires h.full[s.id] == h.lead[s.currentTerm] && |h.full[s.id]| == LastIndex(s) + 1
    requires (s.id, s.currentTerm, LastIndex(s)) in h.acks
    requires 0 < c <= LastIndex(s) && s.logOffset <= c && Committable(s, c)
    ensures Chosen(h, s.currentTerm, c)
  {
    var q := Holders(s, c) + {s.id};
    forall n | n in q ensures Acked(h, n, s.currentTerm, c) {
      if n != s.id {
        assert PeerOk(h, s, n);
        assert s.matchIndex[n] >= c && (n, s.currentTerm, s.matchIndex[n]) in h.acks;
      } else {
        assert LastIndex(s) >= c && (n, s.currentTerm, LastIndex(s)) in h.acks;
      }
    }
    assert |h.members| == |s.peers| + 1 by {
      assert h.members == s.peers + {s.id};
    }
    assert MajorityAcked(h, q, s.currentTerm, c);
    RepresentsTermAt(s, h.full[s.id], c);
  }

  lemma AdvanceSafe(h: History, p: Proc)
    requires BaseInv(h) && AckInv(h) && NodeInv(h, p.raft) && ProcOk(h, p)
    ensures var s := p.raft;
            var g := if s.role == Leader then Acknowledge(h, s.id, s.currentTerm, LastIndex(s)) else h;
            AckInv(g) && ProcOk(g, p.(raft := AdvanceCommit(s)))
  {
    hide BaseInv;
    hide AckInv;
    hide Extends;
    hide CommitPoint;
    hide Committable;
    hide CandidateOk;
    hide Represents;
    var s := p.raft;
    if s.role == Leader {
      var g := Acknowledge(h, s.id, s.currentTerm, LastIndex(s));
      NodeShape(h, s);
      LeaderLog(h, s);
      AcknowledgeKeepsBase(h, s.id, s.currentTerm, LastIndex(s));
      AcknowledgeKeepsAcks(h, s.id, s.currentTerm, LastIndex(s));
      ProcKeeps(h, g, s.id, p);
      CommitPointRange(s, LastIndex(s));
      assert NodeInv(g, s);
      var c := CommitPoint(s, LastIndex(s));
      var s' := AdvanceCommit(s);
      assert Committed(g, g.full[s.id], c, s.currentTerm) by {
        if c > s.commitIndex {
          CommittableChosen(g, s, c);
          assert CommittedBy(g, g.full[s.id], c, s.currentTerm, s.currentTerm, c);
        }
      }
      hide Committed;
      forall q | q in s'.peers ensures PeerOk(g, s', q) {
        assert PeerOk(g, s, q);
      }
    }
  }

  // ---------- Applying, compacting, restarting ----------

  /** The apply loop never runs off the log, and delivers the next committed entry. */
  lemma ApplySafe(h: History, p: Proc)
    requires NodeInv(h, p.raft) && ProcOk(h, p)
    ensures !ApplyNext(p.raft).Stuck?
    ensures ApplyNext(p.raft).Deliver? ==>
              ProcOk(h, p.(raft := ApplyNext(p.raft).node, queue := p.queue + [ApplyNext(p.raft).msg]))
  {
    hide Committed;
    var s := p.raft;
    var full := h.full[s.id];
    if ApplyNext(s).Deliver? {
      var s', m := ApplyNext(s).node, ApplyNext(s).msg;
      RepresentsShape(s, full, s.lastApplied + 1);
      assert QueueOk(full, s.lastApplied, [m], s'.lastApplied) by {
        assert [m][1..] == [];
      }
      QueuePush(full, p.applied, p.queue, s.lastApplied, m, s'.lastApplied);
      forall q | s'.role == Leader && q in s'.peers ensures PeerOk(h, s', q) {
        assert PeerOk(h, s, q);
      }
    }
  }

  lemma ConsumeSafe(h: History, p: Proc)
    requires ProcOk(h, p) && p.queue != []
    ensures ProcOk(h, ConsumeMsg(p.(queue := p.queue[1..]), p.queue[0]))
  {
    hide Committed;
  }

  lemma CompactSafe(h: History, p: Proc)
    requires NodeInv(h, p.raft) && ProcOk(h, p)
    ensures ProcOk(h, p.(raft := Compact(p.raft, p.applied, p.store)))
  {
    hide Committed;
    var s := p.raft;
    var s' := Compact(s, p.applied, p.store);
    QueueRange(h.full[s.id], p.applied, p.queue, s.lastApplied);
    CompactStep(h, s, p.applied, p.store);
    assert LastIndex(s') == LastIndex(s) && s'.lastApplied == s.lastApplied && s'.commitIndex == s.commitIndex;
    forall q | s'.role == Leader && q in s'.peers ensures PeerOk(h, s', q) {
      assert PeerOk(h, s, q);
    }
  }

  lemma RestartSafe(h: History, p: Proc)
    requires NodeInv(h, p.raft) && ProcOk(h, p)
    ensures ProcOk(h, Reboot(p.raft.id, p.raft.peers, Persisted(p.raft)))
  {
    hide Committed;
    var s := p.raft;
    var s' := Boot(s.id, s.peers, Persisted(s));
    assert s'.log == s.log;
    assert s'.commitIndex == s.commitIndex && s'.lastApplied == s.logOffset;
  }

  // ---------- Every event ----------

  lemma ReceiveSafe(h: History, p: Proc, m: Msg)
    requires Membership(h.members) && BaseInv(h) && AckInv(h) && NodeInv(h, p.raft) && ProcOk(h, p)
    requires MsgInv(h, m) && SafeMsg(h, m) && p.raft.id == m.to
    requires m.VoteReplyMsg? && p.raft.role == Candidate && p.raft.currentTerm == m.vote.term ==>
               m.from in p.raft.awaiting
    requires m.InstallMsg? ==> Lossless(h, p.raft, m.install)
    ensures var (p', sent) := ReceiveMsg(p, m); SafeStep(RecordReceive(h, p.raft, m), p', sent)
  {
    hide BaseInv;
    hide AckInv;
    hide NodeInv;
    hide ProcOk;
    hide HandleAppendEntries;
    hide HandleInstallSnapshot;
    hide HandleAppendReply;
    hide HandleSnapshotReply;
    hide HandleVoteReply;
    hide HandleRequestVote;
    hide Accept;
    match m {
      case RequestVoteMsg(from, to, a) => RequestVoteSafe(h, p, from, a);
      case VoteReplyMsg(from, to, a, reply) => VoteReplySafe(h, p, from, a, reply);
      case AppendMsg(from, to, a) => AppendSafe(h, p, from, a);
      case AppendReplyMsg(from, to, a, reply) => AppendReplySafe(h, p, from, a, reply);
      case InstallMsg(from, to, a) => ReceiveInstallSafe(h, p, from, a);
      case InstallReplyMsg(from, to, a, reply) => InstallReplySafe(h, p, from, a, reply);
    }
  }

  lemma LocalSafe(h: History, p: Proc, ev: Event)
    requires Membership(h.members) && BaseInv(h) && AckInv(h) && NodeInv(h, p.raft) && ProcOk(h, p)
    requires p.raft.id == Actor(ev) && !ev.Receive?
    requires ev.LoneWin? ==> QuorumSize(p.raft) == 1 && p.raft.role == Candidate
    requires ev.Replicate? ==> ev.peer in p.raft.peers
    requires ev.SendSnapshot? ==> ev.peer in p.raft.peers && p.raft.role == Leader
    ensures var (p', sent) := Act(p, ev); SafeStep(Record(h, p.raft, ev), p', sent)
  {
    hide BaseInv;
    hide AckInv;
    hide NodeInv;
    hide ProcOk;
    hide Compact;
    hide Boot;
    hide AppendCommitOk;
    hide InstallCommitOk;
    match ev {
      case Timeout(_) =>
        if p.raft.role != Leader {
          TimeoutSafe(h, p);
        }
      case LoneWin(_) => WinSafe(h, p);
      case Submit(_, payload) =>
        if p.raft.role == Leader {
          SubmitSafe(h, p, payload);
        }
      case Replicate(_, peer) => ReplicateSafe(h, p, peer);
      case SendSnapshot(_, peer) => SendSnapshotSafe(h, p);
      case Advance(_) => AdvanceSafe(h, p);
      case ApplyOne(_) => ApplySafe(h, p);
      case Consume(_) =>
        if p.queue != [] {
          ConsumeSafe(h, p);
        }
      case CompactLog(_) => CompactSafe(h, p);
      case Restart(_) => RestartSafe(h, p);
    }
  }

  lemma StepKeepsSafe(sys: System, ev: Event)
    requires SafeInv(sys) && LosslessStep(sys, ev)
    ensures SafeInv(Step(sys, ev))
  {
    hide BaseInv;
    hide AckInv;
    hide NodeInv;
    hide MsgInv;
    hide SafeMsg;
    hide ProcOk;
    hide GoodStep;
    hide SafeStep;
    hide Act;
    hide ReceiveMsg;
    hide Record;
    hide RecordReceive;
    if Enabled(sys.cluster, ev) {
      var h := sys.hist;
      var p := sys.cluster.procs[Actor(ev)];
      EventStep(sys, ev);
      if ev.Receive? {
        ReceiveSafe(h, p, ev.msg);
        ReceiveIs(h, p, ev.msg);
      } else {
        LocalSafe(h, p, ev);
      }
      var (p', sent) := Act(p, ev);
      SafeStepKeeps(sys, Record(h, p.raft, ev), Actor(ev), p', sent);
    }
  }

  lemma ReceiveIs(h: History, p: Proc, m: Msg)
    ensures Act(p, Receive(m)) == ReceiveMsg(p, m) && Record(h, p.raft, Receive(m)) == RecordReceive(h, p.raft, m)
  {
  }

  lemma InitSafe(members: set<Id>)
    requires Membership(members)
    ensures SafeInv(Init(members))
  {
    InitInv(members);
    hide Inv;
    var sys := Init(members);
    forall n | n in members ensures ProcOk(sys.hist, sys.cluster.procs[n]) {
      assert sys.cluster.procs[n].raft.log == [SENTINEL];
      assert Committed(sys.hist, [SENTINEL], 0, 0);
    }
  }

  lemma {:induction false} GuardedSafe(members: set<Id>, evs: seq<Event>)
    requires Membership(members) && Guarded(members, evs)
    ensures SafeInv(Run(members, evs))
    decreases |evs|
  {
    if evs == [] {
      InitSafe(members);
    } else {
      GuardedSafe(members, evs[..|evs| - 1]);
      HarmlessIsLossless(Run(members, evs[..|evs| - 1]), evs[|evs| - 1]);
      StepKeepsSafe(Run(members, evs[..|evs| - 1]), evs[|evs| - 1]);
    }
  }
}

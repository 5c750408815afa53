/** What the extended Raft paper asks of an installed snapshot, what the code loses by doing otherwise, and a repaired
    handler with which the safety theorems hold in every run, without a guard. */
module Repair {
  import opened Kv
  import opened RaftTypes
  import opened Handlers
  import opened Ledger
  import opened Commitment
  import opened Cluster
  import opened AllRuns
  import opened StateMachine
  import opened GuardedRuns
  import opened Safety

  // ---------- Figure 13 ----------

  /** The log has an entry with the index and the term of the snapshot's last included entry. */
  predicate HasEntry(s: Node, a: InstallSnapshotArgs)
  {
    s.logOffset <= a.lastIncludedIndex <= LastIndex(s) && TermAt(s, a.lastIncludedIndex) == a.lastIncludedTerm
  }

  /** The entry that stands for the snapshot, and the log from there on. */
  function KeptLog(s: Node, a: InstallSnapshotArgs): seq<Entry>
    requires HasEntry(s, a)
  {
    [Entry(a.lastIncludedTerm, Undecodable)] + s.log[a.lastIncludedIndex + 1 - s.logOffset..]
  }

  /** The receiver rules of Figure 13 of the extended Raft paper, for a snapshot that comes in one piece: refuse an old term
      (1); save the snapshot, unless one that reaches as far is there (2 to 5); with an entry that has the snapshot's
      index and term, keep what follows it and reply (6); otherwise discard the log (7) and reset the state machine (8). */
  function Figure13(p: Proc, a: InstallSnapshotArgs): Proc
  {
    var s := p.raft;
    var k := a.lastIncludedIndex;
    if a.term < s.currentTerm then p
    else
      var s1 := HeardFromLeader(s, a.term, a.leaderId);
      if k <= s.snapshot.lastIndex then p.(raft := s1)
      else
        var s2 := s1.(snapshot := Snapshot(k, a.lastIncludedTerm, a.data), logOffset := k);
        if HasEntry(s, a) then p.(raft := s2.(log := KeptLog(s, a)))
        else
          p.(raft := s2.(log := [Entry(a.lastIncludedTerm, Undecodable)],
                         lastApplied := k, commitIndex := Max(s.commitIndex, k)),
             queue := p.queue + [SnapshotMsg(k, a.data)])
  }

  /** The process after the code received the snapshot. */
  function Received(p: Proc, a: InstallSnapshotArgs): Proc
  {
    ReceiveMsg(p, InstallMsg(a.leaderId, p.raft.id, a)).0
  }

  /** Where the code departs from Figure 13. The log it keeps is the one the rules keep if and only if the guard holds; it
      resets the state machine when the rules do if and only if the node does not have the entry; and all it does is what
      the rules do if, moreover, the snapshot is not behind what was applied. */
  lemma CodeAgainstFigure13(p: Proc, a: InstallSnapshotArgs)
    requires p.raft.snapshot.lastIndex == p.raft.logOffset
    ensures var s, c, f := p.raft, Received(p, a), Figure13(p, a);
            && ((c.raft.log, c.raft.logOffset, c.raft.snapshot) == (f.raft.log, f.raft.logOffset, f.raft.snapshot)
                <==> !DropsSharedTail(s, a))
            && (c.queue == f.queue <==> !(Installs(s, a) && HasEntry(s, a)))
            && (c == f <==> !(Installs(s, a) && (HasEntry(s, a) || a.lastIncludedIndex < s.lastApplied)))
  {
    var s, c, f := p.raft, Received(p, a), Figure13(p, a);
    if Installs(s, a) {
      if HasEntry(s, a) {
        assert |c.queue| == |f.queue| + 1;
        assert |f.raft.log| == LastIndex(s) + 1 - a.lastIncludedIndex;
        assert |f.raft.log| == 1 ==> f.raft.log == c.raft.log;
      } else {
        assert c.raft == f.raft.(lastApplied := c.raft.lastApplied);
        assert f.raft.lastApplied == a.lastIncludedIndex;
      }
    } else {
      assert c == f;
    }
  }

  /** Rule 6 alone does not do for this node: when the entries it deletes were not all applied, the apply loop runs off the
      log or delivers the sentinel in place of an entry. */
  lemma RuleSixAlone(p: Proc, a: InstallSnapshotArgs)
    requires Installs(p.raft, a) && HasEntry(p.raft, a)
    requires p.raft.lastApplied < a.lastIncludedIndex && p.raft.lastApplied < p.raft.commitIndex
    ensures var d := ApplyNext(Figure13(p, a).raft);
            && (d.Stuck? <==> p.raft.lastApplied + 1 < a.lastIncludedIndex)
            && (d.Deliver? ==> d.msg == EntryMsg(a.lastIncludedIndex, Undecodable))
  {
  }

  // ---------- What the code loses ----------

  /** Installing a snapshot, in a state that keeps the invariant: the node ends with its leader's log through the snapshot's
      index. It keeps all that it shared with its leader if and only if it shared nothing after that index, and then
      the invariant is kept, too. The guard, which the node can test, implies it. If the node had acknowledged more, the
      invariant is lost. */
  lemma InstallLoss(sys: System, from: Id, n: Id, a: InstallSnapshotArgs)
    requires SafeInv(sys) && Enabled(sys.cluster, Receive(InstallMsg(from, n, a)))
    requires Installs(sys.cluster.procs[n].raft, a)
    ensures var sys' := Step(sys, Receive(InstallMsg(from, n, a)));
            && n in sys.hist.full && a.term in sys.hist.lead && n in sys'.hist.full
            && var full, leader, next := sys.hist.full[n], sys.hist.lead[a.term], sys'.hist.full[n];
               var k := a.lastIncludedIndex;
               && next == Through(leader, k)
               && ((forall i | Agree(full, leader, i) :: Agree(full, next, i)) <==> !Agree(full, leader, k + 1))
               && (!DropsSharedTail(sys.cluster.procs[n].raft, a) ==> !Agree(full, leader, k + 1))
               && (!Agree(full, leader, k + 1) ==> SafeInv(sys'))
               && ((exists m :: m > k && (n, a.term, m) in sys.hist.acks) ==> !SafeInv(sys'))
  {
    hide BaseInv;
    hide AckInv;
    hide NodeInv;
    hide ProcOk;
    hide DropsSharedTail;
    hide Act;
    var ev := Receive(InstallMsg(from, n, a));
    var sys' := Step(sys, ev);
    var s, k := sys.cluster.procs[n].raft, a.lastIncludedIndex;
    assert MsgInv(sys.hist, InstallMsg(from, n, a));
    Facts(sys, n);
    NodeShape(sys.hist, s);
    InstalledFull(sys.hist, s, from, n, a);
    var full, leader := sys.hist.full[n], sys.hist.lead[a.term];
    LossExactly(full, leader, k);
    if !DropsSharedTail(s, a) {
      GuardIsLossless(sys.hist, s, from, a);
    }
    hide SafeInv;
    if !Agree(full, leader, k + 1) {
      StepKeepsSafe(sys, ev);
    }
    if m :| m > k && (n, a.term, m) in sys.hist.acks {
      AckHolds(sys, n, a.term, m);
      if SafeInv(sys') {
        AckHolds(sys', n, a.term, m);
      }
    }
  }

  lemma InstalledFull(h: History, s: Node, from: Id, n: Id, a: InstallSnapshotArgs)
    requires InstallOk(h, from, a) && Installs(s, a)
    ensures var g := Record(h, s, Receive(InstallMsg(from, n, a)));
            && n in g.full && g.full[n] == Through(h.lead[a.term], a.lastIncludedIndex)
            && g.lead == h.lead && h.acks <= g.acks && g.term == h.term[n := a.term]
  {
  }

  // ---------- The repair ----------

  /** The repaired handler: with the snapshot's entry in its log a node keeps what follows it, and is reset by the snapshot
      only if it has not applied that far. In all other cases it does what the code does. */
  function Repaired(p: Proc, a: InstallSnapshotArgs): Proc
  {
    var s := p.raft;
    var k := a.lastIncludedIndex;
    if !Installs(s, a) || !HasEntry(s, a) then Received(p, a)
    else
      p.(raft := HeardFromLeader(s, a.term, a.leaderId).(
                   snapshot := Snapshot(k, a.lastIncludedTerm, a.data), logOffset := k, log := KeptLog(s, a),
                   commitIndex := Max(s.commitIndex, k), lastApplied := Max(s.lastApplied, k)),
         queue := if s.lastApplied < k then p.queue + [SnapshotMsg(k, a.data)] else p.queue)
  }

  /** The repair is Figure 13, but for a reset where rule 6 alone would leave entries unapplied, and none where rule 8 would
      take the state machine back. Its log is always the one of Figure 13. */
  lemma RepairAgainstFigure13(p: Proc, a: InstallSnapshotArgs)
    requires p.raft.snapshot.lastIndex == p.raft.logOffset && p.raft.lastApplied <= p.raft.commitIndex
    ensures var s, r, f := p.raft, Repaired(p, a), Figure13(p, a);
            && r.raft.log == f.raft.log && r.raft.logOffset == f.raft.logOffset && r.raft.snapshot == f.raft.snapshot
            && (r == f <==>
                !Installs(s, a)
                || (if HasEntry(s, a) then a.lastIncludedIndex <= s.lastApplied else s.lastApplied <= a.lastIncludedIndex))
  {
    var s, r, f := p.raft, Repaired(p, a), Figure13(p, a);
    if !Installs(s, a) {
      assert r == f;
    } else if HasEntry(s, a) {
      if s.lastApplied < a.lastIncludedIndex {
        assert |r.queue| == |f.queue| + 1;
      }
    } else {
      assert r.raft == f.raft.(lastApplied := r.raft.lastApplied);
      assert f.raft.lastApplied == a.lastIncludedIndex;
    }
  }

  /** Keeping the log behind a shared entry makes an install the same as accepting the leader's log through the snapshot's
      index: nothing shared with the leader is given up. */
  lemma Figure13IsMerge(p: Proc, full: seq<Entry>, leader: seq<Entry>, a: InstallSnapshotArgs)
    requires Represents(p.raft, full) && Matching(full, leader)
    requires 0 <= a.lastIncludedIndex < |leader| && a.lastIncludedTerm == leader[a.lastIncludedIndex].term
    requires Installs(p.raft, a)
    ensures Represents(Figure13(p, a).raft, Merge(full, leader, a.lastIncludedIndex))
    ensures HasEntry(p.raft, a) <==> Agree(full, leader, a.lastIncludedIndex)
  {
    var k := a.lastIncludedIndex;
    var s := p.raft;
    SnapshotIsOffset(s, full);
    if k < |full| {
      RepresentsTermAt(s, full, k);
      if full[k].term == leader[k].term {
        MatchingAt(full, leader, k);
        TailRepresents(s, full, Figure13(p, a).raft, k);
      } else {
        DisagreeAt(full, leader, k, k);
      }
    }
  }

  lemma TailRepresents(s: Node, full: seq<Entry>, r: Node, k: int)
    requires Represents(s, full) && s.logOffset < k < |full|
    requires r.logOffset == k && r.snapshot.lastIndex == k && r.snapshot.lastTerm == full[k].term
    requires r.log == [Entry(full[k].term, Undecodable)] + s.log[k + 1 - s.logOffset..]
    ensures Represents(r, full)
  {
    forall i | k < i < |full| ensures r.log[i - k] == full[i] {
      RepresentsShape(s, full, i);
    }
  }

  // ---------- Every step of a repaired cluster ----------

  /** The snapshot's entry is where the node's log and its leader's agree. */
  lemma SharedEntry(h: History, s: Node, from: Id, a: InstallSnapshotArgs)
    requires BaseInv(h) && NodeInv(h, s) && InstallOk(h, from, a) && Installs(s, a) && HasEntry(s, a)
    ensures Agree(h.full[s.id], h.lead[a.term], a.lastIncludedIndex)
    ensures Represents(Repaired(Proc(s, [], map[], 0), a).raft, h.full[s.id])
  {
    hide BaseInv;
    hide CandidateOk;
    hide Coherent;
    var full, leader, k := h.full[s.id], h.lead[a.term], a.lastIncludedIndex;
    NodeFacts(h, s.id);
    LeadFacts(h, a.term);
    SnapshotIsOffset(s, full);
    RepresentsTermAt(s, full, k);
    SameTermSamePrefix(h, full, leader, k);
    TailRepresents(s, full, Repaired(Proc(s, [], map[], 0), a).raft, k);
  }

  lemma RepairedServer(full: seq<Entry>, p: Proc, q: Proc, k: int, data: Image)
    requires ServerOk(full, p) && 0 <= k < |full| && data == Replay(full, k) && q.applied == p.applied && q.store == p.store
    requires q.raft.lastApplied == Max(p.raft.lastApplied, k)
    requires q.queue == if p.raft.lastApplied < k then p.queue + [SnapshotMsg(k, data)] else p.queue
    ensures ServerOk(full, q)
  {
    if p.raft.lastApplied < k {
      assert [SnapshotMsg(k, data)][1..] == [];
      assert QueueOk(full, p.raft.lastApplied, [SnapshotMsg(k, data)], k);
      QueuePush(full, p.applied, p.queue, p.raft.lastApplied, SnapshotMsg(k, data), k);
    }
  }

  lemma RepairedCommit(h: History, s: Node, r: Node, a: InstallSnapshotArgs)
    requires CommitOk(h, s) && InstallCommitOk(h, a) && a.term == s.currentTerm
    requires Agree(h.full[s.id], h.lead[a.term], a.lastIncludedIndex) && s.logOffset < a.lastIncludedIndex
    requires r.id == s.id && r.currentTerm == s.currentTerm && LastIndex(r) == LastIndex(s)
    requires r.logOffset == a.lastIncludedIndex && r.snapshot.data == a.data
    requires r.commitIndex == Max(s.commitIndex, a.lastIncludedIndex)
    requires r.lastApplied == Max(s.lastApplied, a.lastIncludedIndex)
    ensures CommitOk(h, r) && a.data == Replay(h.full[s.id], a.lastIncludedIndex)
  {
    hide Committed;
    var full, leader, k := h.full[s.id], h.lead[a.term], a.lastIncludedIndex;
    LaterRefl(h);
    CommittedLater(h, h, leader, full, k, a.term, s.currentTerm);
    ReplayAgrees(full, leader, k, k);
  }

  lemma LaterRefl(h: History)
    ensures Later(h, h)
  {
  }

  /** The step that makes the guard unnecessary: the node keeps its log, acknowledges the snapshot's index, and all that
      the invariant says is kept. */
  lemma KeepsTail(h: History, p: Proc, from: Id, a: InstallSnapshotArgs)
    requires BaseInv(h) && AckInv(h) && NodeInv(h, p.raft) && ProcOk(h, p)
    requires InstallOk(h, from, a) && InstallCommitOk(h, a) && a.term == p.raft.currentTerm
    requires Installs(p.raft, a) && HasEntry(p.raft, a) && p.raft.role == Follower && p.raft.leaderId == a.leaderId
    ensures var g := Acknowledge(h, p.raft.id, a.term, a.lastIncludedIndex);
            && BaseInv(g) && Extends(h, g, p.raft.id) && AckInv(g)
            && NodeInv(g, Repaired(p, a).raft) && ProcOk(g, Repaired(p, a))
  {
    hide BaseInv;
    hide AckInv;
    hide Extends;
    hide Committed;
    hide Represents;
    hide InstallCommitOk;
    hide CommitOk;
    hide ServerOk;
    hide QueueOk;
    hide Agree;
    var s, k := p.raft, a.lastIncludedIndex;
    var q := Repaired(p, a);
    SharedEntry(h, s, from, a);
    SnapshotIsOffset(s, h.full[s.id]);
    AcknowledgeKeepsBase(h, s.id, a.term, k);
    AcknowledgeKeepsAcks(h, s.id, a.term, k);
    RestyledRepresents(Repaired(Proc(s, [], map[], 0), a).raft, q.raft, h.full[s.id]);
    RepairedCommit(h, s, q.raft, a);
    AgreeShape(h.full[s.id], h.lead[a.term], k);
    RepairedServer(h.full[s.id], p, q, k, a.data);
    ProcKeeps(h, Acknowledge(h, s.id, a.term, k), s.id, q);
  }
}

/** The safety theorems for every run of a cluster whose nodes install snapshots with the repaired handler. */
module RepairedRuns {
  import opened RaftTypes
  import opened Handlers
  import opened Ledger
  import opened Commitment
  import opened Cluster
  import opened AllRuns
  import opened GuardedRuns
  import opened Safety
  import opened Repair

  // ---------- Runs ----------

  /** The event brings a snapshot that a repaired node installs behind an entry it has. */
  predicate KeepsLog(s: Node, ev: Event)
  {
    ev.Receive? && ev.msg.InstallMsg? && Installs(s, ev.msg.install) && HasEntry(s, ev.msg.install)
  }

  /** What a process does: the same as in Cluster, with the repaired handler. */
  function RepairedAct(p: Proc, ev: Event): (Proc, set<Msg>)
  {
    if ev.Receive? && ev.msg.InstallMsg? then (Repaired(p, ev.msg.install), Act(p, ev).1) else Act(p, ev)
  }

  ghost function RepairedRecord(h: History, s: Node, ev: Event): History
  {
    if KeepsLog(s, ev) then
      var a := ev.msg.install;
      Acknowledge(Bump(h, ev.msg.to, a.term), ev.msg.to, a.term, a.lastIncludedIndex)
    else Record(h, s, ev)
  }

  ghost function RepairedStep(sys: System, ev: Event): System
  {
    var c := sys.cluster;
    if !Enabled(c, ev) then sys
    else
      var n := Actor(ev);
      var (p, sent) := RepairedAct(c.procs[n], ev);
      System(Cluster(c.procs[n := p], c.msgs + sent), RepairedRecord(sys.hist, c.procs[n].raft, ev))
  }

  ghost function RepairedRun(members: set<Id>, evs: seq<Event>): System
    decreases |evs|
  {
    if evs == [] then Init(members)
    else RepairedStep(RepairedRun(members, evs[..|evs| - 1]), evs[|evs| - 1])
  }

  // ---------- Every step keeps the invariant ----------

  lemma HeardOnce(p: Proc, a: InstallSnapshotArgs)
    requires Installs(p.raft, a) && HasEntry(p.raft, a)
    ensures var q := p.(raft := HeardFromLeader(p.raft, a.term, a.leaderId));
            Installs(q.raft, a) && HasEntry(q.raft, a) && Repaired(q, a) == Repaired(p, a)
  {
  }

  lemma BumpInstallOk(h: History, n: Id, from: Id, a: InstallSnapshotArgs)
    requires InstallOk(h, from, a)
    ensures InstallOk(Bump(h, n, a.term), from, a)
  {
  }

  /** Receiving a snapshot behind an entry the node has. */
  lemma KeepsLogSafe(h: History, p: Proc, from: Id, a: InstallSnapshotArgs)
    requires BaseInv(h) && AckInv(h) && NodeInv(h, p.raft) && ProcOk(h, p)
    requires InstallOk(h, from, a) && InstallCommitOk(h, a) && Installs(p.raft, a) && HasEntry(p.raft, a)
    ensures var g := Acknowledge(Bump(h, p.raft.id, a.term), p.raft.id, a.term, a.lastIncludedIndex);
            && BaseInv(g) && Extends(h, g, p.raft.id) && AckInv(g)
            && NodeInv(g, Repaired(p, a).raft) && ProcOk(g, Repaired(p, a))
  {
    hide BaseInv;
    hide AckInv;
    hide Extends;
    hide NodeInv;
    hide ProcOk;
    hide InstallOk;
    hide InstallCommitOk;
    hide HasEntry;
    hide Repaired;
    hide Acknowledge;
    var n, g1 := p.raft.id, Bump(h, p.raft.id, a.term);
    var q := p.(raft := HeardFromLeader(p.raft, a.term, a.leaderId));
    NodeShape(h, p.raft);
    HeardStep(h, p.raft, a.term, a.leaderId);
    BumpSafe(h, p, a.term, q.raft);
    BumpInstall(h, n, a);
    BumpInstallOk(h, n, from, a);
    HeardOnce(p, a);
    KeepsTail(g1, q, from, a);
    ExtendsTrans(h, g1, Acknowledge(g1, n, a.term, a.lastIncludedIndex), n);
  }

  lemma ReplyIsSafe(h: History, g: History, from: Id, n: Id, a: InstallSnapshotArgs, reply: InstallSnapshotReply)
    requires MsgInv(h, InstallMsg(from, n, a)) && Extends(h, g, n) && (n, a.term, a.lastIncludedIndex) in g.acks
    ensures MsgInv(g, InstallReplyMsg(n, from, a, reply)) && SafeMsg(g, InstallReplyMsg(n, from, a, reply))
  {
    MsgKeeps(h, g, n, InstallMsg(from, n, a));
  }

  lemma KeepsLogStep(sys: System, ev: Event)
    requires SafeInv(sys) && Enabled(sys.cluster, ev) && KeepsLog(sys.cluster.procs[Actor(ev)].raft, ev)
    ensures SafeInv(RepairedStep(sys, ev)) && Extends(sys.hist, RepairedStep(sys, ev).hist, Actor(ev))
  {
    hide BaseInv;
    hide AckInv;
    hide NodeInv;
    hide ProcOk;
    hide Extends;
    hide HandleInstallSnapshot;
    hide Repaired;
    hide HasEntry;
    var n, from, a := ev.msg.to, ev.msg.from, ev.msg.install;
    var p := sys.cluster.procs[n];
    assert MsgInv(sys.hist, ev.msg) && SafeMsg(sys.hist, ev.msg);
    Facts(sys, n);
    hide SafeInv;
    KeepsLogSafe(sys.hist, p, from, a);
    var g := RepairedRecord(sys.hist, p.raft, ev);
    var reply := HandleInstallSnapshot(p.raft, a).1;
    ReplyIsSafe(sys.hist, g, from, n, a, reply);
    NodeShape(g, Repaired(p, a).raft);
    RepairedId(p, a);
    assert RepairedAct(p, ev) == (Repaired(p, a), {InstallReplyMsg(n, from, a, reply)});
    hide MsgInv;
    hide SafeMsg;
    SafeStepKeeps(sys, g, n, Repaired(p, a), {InstallReplyMsg(n, from, a, reply)});
  }

  lemma RepairedId(p: Proc, a: InstallSnapshotArgs)
    ensures Repaired(p, a).raft.id == p.raft.id
  {
  }

  /** In all other cases the step is the one of the code, and the guard holds. */
  lemma OtherStep(sys: System, ev: Event)
    requires SafeInv(sys) && (Enabled(sys.cluster, ev) ==> !KeepsLog(sys.cluster.procs[Actor(ev)].raft, ev))
    ensures RepairedStep(sys, ev) == Step(sys, ev) && Harmless(sys.cluster, ev)
  {
    hide BaseInv;
    hide AckInv;
    hide ProcOk;
    hide CandidateOk;
    hide Record;
    if Enabled(sys.cluster, ev) && ev.Receive? && ev.msg.InstallMsg? {
      var p, a := sys.cluster.procs[ev.msg.to], ev.msg.install;
      assert NodeInv(sys.hist, p.raft);
      hide SafeInv;
      SnapshotIsOffset(p.raft, sys.hist.full[p.raft.id]);
      assert Act(p, ev).0 == Received(p, a);
    }
  }

  lemma RepairedStepKeeps(sys: System, ev: Event)
    requires SafeInv(sys)
    ensures SafeInv(RepairedStep(sys, ev)) && Extends(sys.hist, RepairedStep(sys, ev).hist, Actor(ev))
  {
    hide SafeInv;
    hide Inv;
    hide Extends;
    hide RepairedStep;
    hide Step;
    hide KeepsLog;
    if Enabled(sys.cluster, ev) && KeepsLog(sys.cluster.procs[Actor(ev)].raft, ev) {
      KeepsLogStep(sys, ev);
    } else {
      OtherStep(sys, ev);
      SafeIsInv(sys);
      HarmlessIsLossless(sys, ev);
      StepKeepsSafe(sys, ev);
      StepKeepsInv(sys, ev);
    }
  }

  lemma SafeIsInv(sys: System)
    requires SafeInv(sys)
    ensures Inv(sys)
  {
  }

  lemma {:induction false} RepairedSafe(members: set<Id>, evs: seq<Event>)
    requires Membership(members)
    ensures SafeInv(RepairedRun(members, evs)) && RepairedRun(members, evs).cluster.procs.Keys == members
    decreases |evs|
  {
    hide SafeInv;
    hide RepairedAct;
    hide RepairedRecord;
    if evs == [] {
      InitSafe(members);
    } else {
      RepairedSafe(members, evs[..|evs| - 1]);
      RepairedStepKeeps(RepairedRun(members, evs[..|evs| - 1]), evs[|evs| - 1]);
    }
  }

  lemma {:induction false} RepairedLater(members: set<Id>, evs: seq<Event>, i: nat, j: nat)
    requires Membership(members) && i <= j <= |evs|
    ensures Later(RepairedRun(members, evs[..i]).hist, RepairedRun(members, evs[..j]).hist)
    decreases j
  {
    hide SafeInv;
    hide RepairedStep;
    if i == j {
      LaterRefl(RepairedRun(members, evs[..i]).hist);
    } else {
      hide Later;
      hide Extends;
      var pre, last := evs[..j - 1], evs[..j];
      assert last[..|last| - 1] == pre && last[|last| - 1] == evs[j - 1];
      RepairedLater(members, evs, i, j - 1);
      RepairedSafe(members, pre);
      RepairedStepKeeps(RepairedRun(members, pre), evs[j - 1]);
      ExtendsLater(RepairedRun(members, pre).hist, RepairedRun(members, last).hist, Actor(evs[j - 1]));
      LaterTrans(RepairedRun(members, evs[..i]).hist, RepairedRun(members, pre).hist, RepairedRun(members, last).hist);
    }
  }

  // ---------- The theorems ----------

  /** The theorems of Safety, without a guard: in every run of repaired nodes, whatever snapshots reach whom, any two nodes at
      any two moments agree on what both have committed, a leader has what the leaders of earlier terms committed, and
      the stores are replays of the committed log. */
  lemma RepairedSafety(members: set<Id>, evs: seq<Event>, i: nat, j: nat, a: Id, b: Id, k: int)
    requires Membership(members) && i <= |evs| && j <= |evs| && a in members && b in members
    ensures var x, y := RepairedRun(members, evs[..i]), RepairedRun(members, evs[..j]);
            && CommittedAlike(x, a, y, b, k)
            && StoredAlike(x, a, y, b)
            && var s, r := x.cluster.procs[a].raft, y.cluster.procs[b].raft;
               s.role == Leader && r.role == Leader && r.currentTerm > s.currentTerm ==>
                 b in y.hist.full && Agree(x.hist.full[a], y.hist.full[b], s.commitIndex)
  {
    hide SafeInv;
    hide Later;
    hide RepairedRun;
    var m := if i < j then j else i;
    var x, y, z := RepairedRun(members, evs[..i]), RepairedRun(members, evs[..j]), RepairedRun(members, evs[..m]);
    RepairedSafe(members, evs[..i]);
    RepairedSafe(members, evs[..j]);
    RepairedSafe(members, evs[..m]);
    RepairedLater(members, evs, i, m);
    RepairedLater(members, evs, j, m);
    AgreeOnCommitted(x, y, z, a, b, k);
    StoresAgree(x, y, z, a, b);
    LeadersAgree(x, y, z, a, b);
  }

  /** ... and every node's indices are in order, and no slice is ever out of range. */
  lemma RepairedNodes(members: set<Id>, evs: seq<Event>, n: Id)
    requires Membership(members) && n in members
    ensures n in RepairedRun(members, evs).cluster.procs
    ensures NodeOk(RepairedRun(members, evs).cluster.procs[n].raft)
    ensures InRange(RepairedRun(members, evs).cluster.procs[n].raft)
  {
    hide SafeInv;
    hide NodeOk;
    hide InRange;
    RepairedSafe(members, evs);
    NodesAreOk(RepairedRun(members, evs), n);
  }
}

/** The safety theorems about guarded runs: statements about every reachable state, and about any two moments of a run.
    Each follows from the invariant of the states involved, and from one history continuing the other. */
module Safety {
  import opened RaftTypes
  import opened Handlers
  import opened Ledger
  import opened Commitment
  import opened Cluster
  import opened AllRuns
  import opened StateMachine
  import opened GuardedRuns

  // ---------- States that keep the invariant ----------

  /** Everything known of a node. */
  lemma Facts(sys: System, n: Id)
    requires SafeInv(sys) && n in sys.cluster.procs
    ensures n in sys.hist.full && sys.cluster.procs[n].raft.id == n && sys.cluster.procs.Keys == sys.hist.members
    ensures BaseInv(sys.hist) && AckInv(sys.hist) && Membership(sys.hist.members)
    ensures NodeInv(sys.hist, sys.cluster.procs[n].raft) && ProcOk(sys.hist, sys.cluster.procs[n])
  {
    hide AckInv;
    hide BaseInv;
    hide ProcOk;
  }

  /** What was committed in one state is committed by the standards of any later one. */
  lemma CommittedLaterOn(x: System, z: System, n: Id)
    requires SafeInv(x) && Later(x.hist, z.hist) && n in x.cluster.procs
    ensures n in x.hist.full
    ensures var s := x.cluster.procs[n].raft;
            && Coherent(x.hist.full[n], z.hist.lead)
            && Committed(z.hist, x.hist.full[n], s.commitIndex, s.currentTerm)
  {
    hide AckInv;
    hide BaseInv;
    hide NodeInv;
    hide SafeInv;
    Facts(x, n);
    var full, s := x.hist.full[n], x.cluster.procs[n].raft;
    NodeShape(x.hist, s);
    NodeFacts(x.hist, n);
    CoherentGrows(full, x.hist.lead, z.hist.lead);
    CommittedLater(x.hist, z.hist, full, full, s.commitIndex, s.currentTerm, s.currentTerm);
  }

  /** Node a in state x and node b in state y agree on the entries through k if both have committed them. */
  ghost predicate CommittedAlike(x: System, a: Id, y: System, b: Id, k: int)
  {
    && a in x.cluster.procs && b in y.cluster.procs && a in x.hist.full && b in y.hist.full
    && var s, r := x.cluster.procs[a].raft, y.cluster.procs[b].raft;
       0 <= k <= s.commitIndex && k <= r.commitIndex ==>
         && Agree(x.hist.full[a], y.hist.full[b], k)
         && (s.logOffset < k && r.logOffset < k ==>
               k <= LastIndex(s) && k <= LastIndex(r) && EntryAt(s, k) == EntryAt(r, k))
  }

  /** The store of a in x is the replay of the commands it took, all committed, and equals that of b in y if b took as many. */
  ghost predicate StoredAlike(x: System, a: Id, y: System, b: Id)
  {
    && a in x.cluster.procs && b in y.cluster.procs && a in x.hist.full
    && var p, q := x.cluster.procs[a], y.cluster.procs[b];
       && 0 <= p.applied <= p.raft.lastApplied <= p.raft.commitIndex < |x.hist.full[a]|
       && p.store == Replay(x.hist.full[a], p.applied)
       && (p.applied == q.applied ==> p.store == q.store)
  }

  /** Two states with a common later one agree on what both have committed. */
  lemma AgreeOnCommitted(x: System, y: System, z: System, a: Id, b: Id, k: int)
    requires SafeInv(x) && SafeInv(y) && SafeInv(z) && Later(x.hist, z.hist) && Later(y.hist, z.hist)
    requires a in x.cluster.procs && b in y.cluster.procs && a in z.cluster.procs
    ensures CommittedAlike(x, a, y, b, k)
  {
    hide AckInv;
    hide BaseInv;
    hide SafeInv;
    hide Committed;
    hide Later;
    CommittedLaterOn(x, z, a);
    CommittedLaterOn(y, z, b);
    Facts(z, a);
    Facts(x, a);
    Facts(y, b);
    var s, r := x.cluster.procs[a].raft, y.cluster.procs[b].raft;
    if 0 <= k <= s.commitIndex && k <= r.commitIndex {
      CommittedAgree(z.hist, x.hist.full[a], s.commitIndex, s.currentTerm, y.hist.full[b], r.commitIndex, r.currentTerm, k);
      RepresentsShape(s, x.hist.full[a], k);
      RepresentsShape(r, y.hist.full[b], k);
    }
  }

  /** What a leader has committed is in the log of the leader of any later term, in any two states with a common later one. */
  lemma LeadersAgree(x: System, y: System, z: System, a: Id, b: Id)
    requires SafeInv(x) && SafeInv(y) && SafeInv(z) && Later(x.hist, z.hist) && Later(y.hist, z.hist)
    requires a in x.cluster.procs && b in y.cluster.procs && a in z.cluster.procs
    ensures a in x.hist.full && b in y.hist.full
    ensures var s, r := x.cluster.procs[a].raft, y.cluster.procs[b].raft;
            s.role == Leader && r.role == Leader && r.currentTerm > s.currentTerm ==>
              Agree(x.hist.full[a], y.hist.full[b], s.commitIndex)
  {
    hide AckInv;
    hide BaseInv;
    hide SafeInv;
    hide Later;
    hide NodeInv;
    hide ProcOk;
    CommittedLaterOn(x, z, a);
    Facts(z, a);
    Facts(y, b);
    var s, r := x.cluster.procs[a].raft, y.cluster.procs[b].raft;
    if s.role == Leader && r.role == Leader && r.currentTerm > s.currentTerm {
      LeaderLog(y.hist, r);
      LaterTermHasIt(y.hist, z.hist, x.hist.full[a], s.commitIndex, s.currentTerm, r.currentTerm);
    }
  }

  /** The store is the replay of the commands taken so far, and two stores that took equally many are equal. */
  lemma StoresAgree(x: System, y: System, z: System, a: Id, b: Id)
    requires SafeInv(x) && SafeInv(y) && SafeInv(z) && Later(x.hist, z.hist) && Later(y.hist, z.hist)
    requires a in x.cluster.procs && b in y.cluster.procs && a in z.cluster.procs
    ensures StoredAlike(x, a, y, b)
  {
    hide AckInv;
    hide BaseInv;
    hide SafeInv;
    hide NodeInv;
    hide Later;
    hide Committed;
    Facts(x, a);
    Facts(y, b);
    AgreeOnCommitted(x, y, z, a, b, x.cluster.procs[a].applied);
    var p, q := x.cluster.procs[a], y.cluster.procs[b];
    QueueRange(x.hist.full[a], p.applied, p.queue, p.raft.lastApplied);
    QueueRange(y.hist.full[b], q.applied, q.queue, q.raft.lastApplied);
    if p.applied == q.applied {
      ReplayAgrees(x.hist.full[a], y.hist.full[b], p.applied, p.applied);
    }
  }

  /** A node's indices are in order, its sentinel carries the snapshot's term, and the terms along its log never fall and
      never pass its own term. */
  ghost predicate NodeOk(s: Node)
  {
    && s.logOffset == s.snapshot.lastIndex
    && 0 <= s.logOffset <= s.lastApplied <= s.commitIndex <= LastIndex(s)
    && TermAt(s, s.logOffset) == s.snapshot.lastTerm
    && forall i, j | s.logOffset <= i <= j <= LastIndex(s) :: 0 <= TermAt(s, i) <= TermAt(s, j) <= s.currentTerm
  }

  /** The apply loop finds its next entry, and a leader's next index for every peer lies in its log or just behind it, so
      that replication finds its suffix. */
  ghost predicate InRange(s: Node)
  {
    && !ApplyNext(s).Stuck?
    && (s.role == Leader ==>
          forall p | p in s.peers :: 1 <= Lookup(s.nextIndex, p) <= LastIndex(s) + 1 && !PrepareAppend(s, p).1.OutOfRange?)
  }

  lemma NodesAreOk(sys: System, n: Id)
    requires SafeInv(sys) && n in sys.cluster.procs
    ensures NodeOk(sys.cluster.procs[n].raft) && InRange(sys.cluster.procs[n].raft)
  {
    hide AckInv;
    hide SafeInv;
    hide BaseInv;
    hide NodeInv;
    hide Committed;
    hide ServerOk;
    Facts(sys, n);
    var h, p := sys.hist, sys.cluster.procs[n];
    hide LeaderOk;
    NodeTerms(h, p.raft);
    ApplySafe(h, p);
    hide ApplyNext;
    forall q | p.raft.role == Leader && q in p.raft.peers
      ensures 1 <= Lookup(p.raft.nextIndex, q) <= LastIndex(p.raft) + 1 && !PrepareAppend(p.raft, q).1.OutOfRange?
    {
      ReplicateSafe(h, p, q);
      PeerInRange(h, p.raft, q);
    }
  }

  lemma PeerInRange(h: History, s: Node, p: Id)
    requires LeaderOk(h, s) && s.role == Leader && p in s.peers
    ensures 1 <= Lookup(s.nextIndex, p) <= LastIndex(s) + 1
  {
    assert PeerOk(h, s, p);
  }

  // ---------- Moments of a run ----------

  /** The state after the first i events. */
  ghost function At(members: set<Id>, evs: seq<Event>, i: nat): System
    requires i <= |evs|
  {
    Run(members, evs[..i])
  }

  ghost function NodeAt(members: set<Id>, evs: seq<Event>, i: nat, n: Id): Node
    requires i <= |evs| && n in At(members, evs, i).cluster.procs
  {
    At(members, evs, i).cluster.procs[n].raft
  }

  ghost function FullAt(members: set<Id>, evs: seq<Event>, i: nat, n: Id): seq<Entry>
    requires i <= |evs| && n in At(members, evs, i).hist.full
  {
    At(members, evs, i).hist.full[n]
  }

  lemma {:induction false} GuardedPrefix(members: set<Id>, evs: seq<Event>, i: nat)
    requires Guarded(members, evs) && i <= |evs|
    ensures Guarded(members, evs[..i])
    decreases |evs|
  {
    if i < |evs| {
      var pre := evs[..|evs| - 1];
      GuardedPrefix(members, pre, i);
      assert pre[..i] == evs[..i];
    } else {
      assert evs[..i] == evs;
    }
  }

  /** Everything known of a moment of a guarded run. */
  lemma Moment(members: set<Id>, evs: seq<Event>, i: nat, n: Id)
    requires Membership(members) && Guarded(members, evs) && i <= |evs| && n in members
    ensures SafeInv(At(members, evs, i))
    ensures n in At(members, evs, i).cluster.procs && n in At(members, evs, i).hist.full
    ensures At(members, evs, i).cluster.procs[n].raft.id == n
    ensures BaseInv(At(members, evs, i).hist) && AckInv(At(members, evs, i).hist)
    ensures NodeInv(At(members, evs, i).hist, At(members, evs, i).cluster.procs[n].raft)
    ensures ProcOk(At(members, evs, i).hist, At(members, evs, i).cluster.procs[n])
    ensures At(members, evs, i).hist.members == members
  {
    hide AckInv;
    hide ProcOk;
    GuardedPrefix(members, evs, i);
    GuardedSafe(members, evs[..i]);
    RunInv(members, evs[..i]);
    NodeShape(At(members, evs, i).hist, At(members, evs, i).cluster.procs[n].raft);
    hide BaseInv;
  }

  /** Consecutive moments are one step apart. */
  lemma NextMoment(members: set<Id>, evs: seq<Event>, j: nat)
    requires Membership(members) && j < |evs|
    ensures At(members, evs, j + 1) == Step(At(members, evs, j), evs[j])
    ensures Inv(At(members, evs, j)) && Inv(At(members, evs, j + 1))
    ensures Extends(At(members, evs, j).hist, At(members, evs, j + 1).hist, Actor(evs[j]))
  {
    hide Inv;
    hide Step;
    hide Extends;
    var pre := evs[..j + 1];
    assert pre[..|pre| - 1] == evs[..j] && pre[|pre| - 1] == evs[j];
    RunInv(members, evs[..j]);
    StepKeepsInv(At(members, evs, j), evs[j]);
  }

  lemma {:induction false} RunLater(members: set<Id>, evs: seq<Event>, i: nat, j: nat)
    requires Membership(members) && i <= j <= |evs|
    ensures Later(At(members, evs, i).hist, At(members, evs, j).hist)
    decreases j
  {
    if i < j {
      hide Later;
      hide Inv;
      hide Extends;
      hide At;
      RunLater(members, evs, i, j - 1);
      NextMoment(members, evs, j - 1);
      ExtendsLater(At(members, evs, j - 1).hist, At(members, evs, j).hist, Actor(evs[j - 1]));
      LaterTrans(At(members, evs, i).hist, At(members, evs, j - 1).hist, At(members, evs, j).hist);
    }
  }

  /** Two moments of a guarded run, and the later of them. */
  lemma TwoMoments(members: set<Id>, evs: seq<Event>, i: nat, j: nat, a: Id, b: Id) returns (m: nat)
    requires Membership(members) && Guarded(members, evs) && i <= |evs| && j <= |evs| && a in members && b in members
    ensures m <= |evs|
    ensures SafeInv(At(members, evs, i)) && SafeInv(At(members, evs, j)) && SafeInv(At(members, evs, m))
    ensures Later(At(members, evs, i).hist, At(members, evs, m).hist)
    ensures Later(At(members, evs, j).hist, At(members, evs, m).hist)
    ensures a in At(members, evs, i).cluster.procs && b in At(members, evs, j).cluster.procs
    ensures a in At(members, evs, m).cluster.procs
  {
    hide SafeInv;
    hide AckInv;
    hide BaseInv;
    hide NodeInv;
    hide ProcOk;
    hide Later;
    m := if i < j then j else i;
    Moment(members, evs, i, a);
    Moment(members, evs, j, b);
    Moment(members, evs, m, a);
    RunLater(members, evs, i, m);
    RunLater(members, evs, j, m);
  }

  // ---------- State Machine Safety ----------

  /** State Machine Safety: at any two moments of a run, any two nodes agree on every entry at or below both commit
      indices. */
  lemma StateMachineSafety(members: set<Id>, evs: seq<Event>, i: nat, j: nat, a: Id, b: Id, k: int)
    requires Membership(members) && Guarded(members, evs) && i <= |evs| && j <= |evs|
    requires a in members && b in members
    ensures a in At(members, evs, i).cluster.procs && b in At(members, evs, j).cluster.procs
    ensures a in At(members, evs, i).hist.full && b in At(members, evs, j).hist.full
    ensures var s, r := NodeAt(members, evs, i, a), NodeAt(members, evs, j, b);
            0 <= k <= s.commitIndex && k <= r.commitIndex ==>
              && Agree(FullAt(members, evs, i, a), FullAt(members, evs, j, b), k)
              && (s.logOffset < k && r.logOffset < k ==>
                    k <= LastIndex(s) && k <= LastIndex(r) && EntryAt(s, k) == EntryAt(r, k))
  {
    hide SafeInv;
    hide Later;
    var m := TwoMoments(members, evs, i, j, a, b);
    AgreeOnCommitted(At(members, evs, i), At(members, evs, j), At(members, evs, m), a, b, k);
  }

  // ---------- Leader Completeness ----------

  /** Leader Completeness: what the leader of a term had committed at any moment is in the log of the leader of any later
      term at every moment it leads, before that commit or after it. */
  lemma LeadersHaveCommitted(members: set<Id>, evs: seq<Event>, i: nat, j: nat, a: Id, b: Id)
    requires Membership(members) && Guarded(members, evs) && i <= |evs| && j <= |evs|
    requires a in members && b in members
    ensures a in At(members, evs, i).cluster.procs && b in At(members, evs, j).cluster.procs
    ensures a in At(members, evs, i).hist.full && b in At(members, evs, j).hist.full
    ensures var s, r := NodeAt(members, evs, i, a), NodeAt(members, evs, j, b);
            s.role == Leader && r.role == Leader && r.currentTerm > s.currentTerm ==>
              Agree(FullAt(members, evs, i, a), FullAt(members, evs, j, b), s.commitIndex)
  {
    hide SafeInv;
    hide Later;
    var m := TwoMoments(members, evs, i, j, a, b);
    LeadersAgree(At(members, evs, i), At(members, evs, j), At(members, evs, m), a, b);
  }

  /** A later leader already had a committed prefix when it was elected. */
  lemma LaterTermHasIt(h: History, g: History, log: seq<Entry>, c: int, bound: int, u: int)
    requires Later(h, g) && BaseInv(g) && AckInv(g) && BaseInv(h)
    requires Coherent(log, g.lead) && Committed(g, log, c, bound)
    requires u in h.lead && u > bound
    ensures Agree(log, h.lead[u], c)
  {
    hide BaseInv;
    hide AckInv;
    assert LogGrows(h.lead[u], g.lead[u], u);
    assert u in g.lead;
    CommittedInLead(g, log, c, bound, u);
    BaseLeaders(h);
    assert Coherent(h.lead[u], h.lead);
    if c > 0 {
      var t, k :| CommittedBy(g, log, c, bound, t, k);
      LeaderCompleteness(g, t, k, u);
      assert g.lead[u][k].term == t;
    }
  }

  // ---------- The node invariant ----------

  /** In every guarded run each node's indices are in order, its sentinel carries the snapshot's term, and the terms along
      its log never fall and never pass its own term. */
  lemma NodeInvariant(members: set<Id>, evs: seq<Event>, n: Id)
    requires Membership(members) && Guarded(members, evs) && n in members
    ensures n in Run(members, evs).cluster.procs
    ensures var s := Run(members, evs).cluster.procs[n].raft;
            && s.logOffset == s.snapshot.lastIndex
            && 0 <= s.logOffset <= s.lastApplied <= s.commitIndex <= LastIndex(s)
            && TermAt(s, s.logOffset) == s.snapshot.lastTerm
            && forall i, j | s.logOffset <= i <= j <= LastIndex(s) :: 0 <= TermAt(s, i) <= TermAt(s, j) <= s.currentTerm
  {
    hide SafeInv;
    hide InRange;
    GuardedSafe(members, evs);
    RunMembers(members, evs);
    NodesAreOk(Run(members, evs), n);
  }

  lemma RunMembers(members: set<Id>, evs: seq<Event>)
    requires Membership(members)
    ensures Run(members, evs).cluster.procs.Keys == members
  {
    RunInv(members, evs);
  }

  lemma NodeTerms(h: History, s: Node)
    requires BaseInv(h) && NodeInv(h, s)
    ensures s.logOffset == s.snapshot.lastIndex && TermAt(s, s.logOffset) == s.snapshot.lastTerm
    ensures forall i, j | s.logOffset <= i <= j <= LastIndex(s) :: 0 <= TermAt(s, i) <= TermAt(s, j) <= s.currentTerm
  {
    hide BaseInv;
    hide Coherent;
    hide CandidateOk;
    var full := h.full[s.id];
    NodeFacts(h, s.id);
    BaseLeaders(h);
    hide LeadersOk;
    FullTerms(h, s.id);
    SnapshotIsOffset(s, full);
    RepresentsTermAt(s, full, s.logOffset);
    forall i, j | s.logOffset <= i <= j <= LastIndex(s)
      ensures 0 <= TermAt(s, i) <= TermAt(s, j) <= s.currentTerm
    {
      RepresentsTermAt(s, full, i);
      RepresentsTermAt(s, full, j);
      TermsSorted(h, full, i, j);
    }
  }

  lemma FullTerms(h: History, n: Id)
    requires BaseInv(h) && n in h.members
    ensures TermsUpTo(h.full[n], h.term[n])
  {
  }

  /** A node's term never falls, in any run. */
  lemma {:induction false} TermsRise(members: set<Id>, evs: seq<Event>, i: nat, j: nat, n: Id)
    requires Membership(members) && i <= j <= |evs| && n in members
    ensures n in At(members, evs, i).cluster.procs && n in At(members, evs, j).cluster.procs
    ensures NodeAt(members, evs, i, n).currentTerm <= NodeAt(members, evs, j, n).currentTerm
    decreases j
  {
    hide Inv;
    hide At;
    TermRecorded(members, evs, i, n);
    TermRecorded(members, evs, j, n);
    if i < j {
      TermsRise(members, evs, i, j - 1, n);
      TermRecorded(members, evs, j - 1, n);
      NextMoment(members, evs, j - 1);
    }
  }

  lemma TermRecorded(members: set<Id>, evs: seq<Event>, i: nat, n: Id)
    requires Membership(members) && i <= |evs| && n in members
    ensures n in At(members, evs, i).cluster.procs && n in At(members, evs, i).hist.term
    ensures NodeAt(members, evs, i, n).currentTerm == At(members, evs, i).hist.term[n]
  {
    hide BaseInv;
    hide MsgInv;
    hide Represents;
    hide CandidateOk;
    RunInv(members, evs[..i]);
    NodeShape(At(members, evs, i).hist, At(members, evs, i).cluster.procs[n].raft);
  }

  // ---------- No index is ever out of range ----------

  /** A leader's nextIndex for every peer is between 1 and one past its log, whatever stale replies it processed, so that
      neither replication nor the apply loop ever slices outside the log. */
  lemma IndexingInRange(members: set<Id>, evs: seq<Event>, n: Id)
    requires Membership(members) && Guarded(members, evs) && n in members
    ensures n in Run(members, evs).cluster.procs
    ensures var s := Run(members, evs).cluster.procs[n].raft;
            && !ApplyNext(s).Stuck?
            && (s.role == Leader ==>
                  forall p | p in s.peers ::
                    && 1 <= Lookup(s.nextIndex, p) <= LastIndex(s) + 1
                    && !PrepareAppend(s, p).1.OutOfRange?)
  {
    hide SafeInv;
    hide NodeOk;
    GuardedSafe(members, evs);
    RunMembers(members, evs);
    NodesAreOk(Run(members, evs), n);
  }

  // ---------- matchIndex ----------

  lemma AcceptedInTerm(s: Node, a: AppendEntriesArgs)
    ensures HandleAppendEntries(s, a).1.success ==> HandleAppendEntries(s, a).0.currentTerm == a.term
  {
  }

  lemma InstalledInTerm(s: Node, a: InstallSnapshotArgs)
    ensures a.term >= s.currentTerm ==> HandleInstallSnapshot(s, a).0.currentTerm == a.term
  {
  }

  lemma OnlyTheseAcknowledge(h: History, s: Node, m: Msg)
    requires !m.AppendMsg? && !m.InstallMsg?
    ensures RecordReceive(h, s, m).acks == h.acks
  {
    hide HandleAppendReply;
    hide HandleSnapshotReply;
    hide HandleVoteReply;
    hide HandleRequestVote;
    hide Electorate;
  }

  lemma NewAppendAck(h: History, s: Node, m: Msg, ack: (Id, int, int))
    requires s.id == m.to && m.AppendMsg? && ack in RecordReceive(h, s, m).acks && ack !in h.acks
    ensures ack.0 in RecordReceive(h, s, m).term && RecordReceive(h, s, m).term[ack.0] == ack.1
  {
    hide HandleAppendEntries;
    hide Merge;
    AcceptedInTerm(s, m.append);
  }

  lemma NewInstallAck(h: History, s: Node, m: Msg, ack: (Id, int, int))
    requires s.id == m.to && m.InstallMsg? && ack in RecordReceive(h, s, m).acks && ack !in h.acks
    ensures ack.0 in RecordReceive(h, s, m).term && RecordReceive(h, s, m).term[ack.0] == ack.1
  {
    hide HandleInstallSnapshot;
    hide Through;
    InstalledInTerm(s, m.install);
  }

  /** An acknowledgement is given by a node that is then in the acknowledged term. */
  lemma NewAckIsCurrent(h: History, s: Node, ev: Event, q: Id, t: int, m: int)
    requires s.id == Actor(ev) && s.id in h.term && h.term[s.id] == s.currentTerm
    requires (q, t, m) in Record(h, s, ev).acks && (q, t, m) !in h.acks
    ensures q in Record(h, s, ev).term && Record(h, s, ev).term[q] == t
  {
    hide RecordReceive;
    hide Electorate;
    if ev.Receive? {
      if ev.msg.AppendMsg? {
        NewAppendAck(h, s, ev.msg, (q, t, m));
      } else if ev.msg.InstallMsg? {
        NewInstallAck(h, s, ev.msg, (q, t, m));
      } else {
        OnlyTheseAcknowledge(h, s, ev.msg);
      }
    } else {
      assert ev.Advance?;
    }
  }

  /** Every acknowledgement in the history was true when it was given. */
  lemma {:induction false} AckOrigin(members: set<Id>, evs: seq<Event>, q: Id, t: int, m: int) returns (i: nat)
    requires Membership(members) && Guarded(members, evs)
    requires (q, t, m) in Run(members, evs).hist.acks
    ensures i <= |evs|
    ensures var h := At(members, evs, i).hist;
            q in h.term && h.term[q] == t && q in h.full && t in h.lead && Agree(h.full[q], h.lead[t], m)
    decreases |evs|
  {
    hide Inv;
    hide Act;
    hide Record;
    var pre := evs[..|evs| - 1];
    if evs != [] && (q, t, m) in Run(members, pre).hist.acks {
      i := AckOrigin(members, pre, q, t, m);
      assert pre[..i] == evs[..i];
    } else {
      i := |evs|;
      assert evs[..i] == evs;
      GuardedSafe(members, evs);
      AckHolds(Run(members, evs), q, t, m);
      var sys, ev := Run(members, pre), evs[|evs| - 1];
      RunInv(members, pre);
      ActorShape(sys, ev);
      NewAckIsCurrent(sys.hist, sys.cluster.procs[Actor(ev)].raft, ev, q, t, m);
    }
  }

  lemma AckHolds(sys: System, q: Id, t: int, m: int)
    requires SafeInv(sys) && (q, t, m) in sys.hist.acks
    ensures AckOk(sys.hist, q, t, m)
  {
  }

  lemma ActorShape(sys: System, ev: Event)
    requires Inv(sys) && Enabled(sys.cluster, ev)
    ensures var s := sys.cluster.procs[Actor(ev)].raft;
            s.id == Actor(ev) && s.id in sys.hist.term && sys.hist.term[s.id] == s.currentTerm
  {
  }

  /** matchIndex soundness: when a leader of term T holds matchIndex[p] = m, p was at some moment in term T with a log
      that agrees with the leader's through m, and it still agrees that far while p stays in T. */
  lemma MatchIndexSound(members: set<Id>, evs: seq<Event>, n: Id, p: Id, t: int) returns (i: nat)
    requires Membership(members) && Guarded(members, evs) && n in members && p in members && p != n
    requires LeadsIn(Run(members, evs), n, t)
    requires Lookup(Run(members, evs).cluster.procs[n].raft.matchIndex, p) > 0
    ensures var sys := Run(members, evs);
            var m := Lookup(sys.cluster.procs[n].raft.matchIndex, p);
            && n in sys.hist.full && p in sys.hist.full && p in sys.cluster.procs
            && m <= LastIndex(sys.cluster.procs[n].raft)
            && (sys.cluster.procs[p].raft.currentTerm == t ==> Agree(sys.hist.full[p], sys.hist.full[n], m))
            && i <= |evs|
            && p in At(members, evs, i).cluster.procs && p in At(members, evs, i).hist.full
            && NodeAt(members, evs, i, p).currentTerm == t
            && Agree(FullAt(members, evs, i, p), sys.hist.full[n], m)
  {
    hide AckInv;
    hide BaseInv;
    hide SafeInv;
    hide NodeInv;
    hide ServerOk;
    hide CommitOk;
    assert evs[..|evs|] == evs;
    Moment(members, evs, |evs|, n);
    Moment(members, evs, |evs|, p);
    var sys := Run(members, evs);
    var h := sys.hist;
    var s := sys.cluster.procs[n].raft;
    var m := Lookup(s.matchIndex, p);
    NodeShape(h, s);
    assert PeerOk(h, s, p);
    AckHolds(sys, p, t, m);
    LeaderLog(h, s);
    NodeShape(h, sys.cluster.procs[p].raft);
    i := AckOrigin(members, evs, p, t, m);
    Moment(members, evs, i, p);
    NodeShape(At(members, evs, i).hist, NodeAt(members, evs, i, p));
    RunLater(members, evs, i, |evs|);
    assert LogGrows(At(members, evs, i).hist.lead[t], h.lead[t], t);
  }

  // ---------- The stores ----------

  /** Replay equivalence: in every guarded run, through compactions, installs and restarts, every store is the replay of
      the commands at indices 1 to the last one its apply loop took, all of them committed; and at any two moments two
      stores that took the same number of commands are equal. */
  lemma StoresReplayTheLog(members: set<Id>, evs: seq<Event>, i: nat, j: nat, a: Id, b: Id)
    requires Membership(members) && Guarded(members, evs) && i <= |evs| && j <= |evs|
    requires a in members && b in members
    ensures a in At(members, evs, i).cluster.procs && b in At(members, evs, j).cluster.procs
    ensures a in At(members, evs, i).hist.full
    ensures var p, q := At(members, evs, i).cluster.procs[a], At(members, evs, j).cluster.procs[b];
            && 0 <= p.applied <= p.raft.lastApplied <= p.raft.commitIndex < |FullAt(members, evs, i, a)|
            && p.store == Replay(FullAt(members, evs, i, a), p.applied)
            && (p.applied == q.applied ==> p.store == q.store)
  {
    hide SafeInv;
    hide Later;
    var m := TwoMoments(members, evs, i, j, a, b);
    StoresAgree(At(members, evs, i), At(members, evs, j), At(members, evs, m), a, b);
  }

  /** What every store of a guarded run contains, read off the log: a key is there with value v if and only if the last
      effective command on it, among those taken, is a set or an insert of v. */
  lemma StoreContents(members: set<Id>, evs: seq<Event>, n: Id, k: string, v: string)
    requires Membership(members) && Guarded(members, evs) && n in members
    ensures n in Run(members, evs).cluster.procs && n in Run(members, evs).hist.full
    ensures var p, full := Run(members, evs).cluster.procs[n], Run(members, evs).hist.full[n];
            && 0 <= p.applied < |full|
            && (k in p.store <==> Present(full, p.applied, k))
            && (k in p.store && p.store[k] == v <==> Stored(full, p.applied, k, v))
  {
    assert evs[..|evs|] == evs;
    StoresReplayTheLog(members, evs, |evs|, |evs|, n, n);
    hide Run;
    hide Guarded;
    ReplayMeaning(Run(members, evs).hist.full[n], Run(members, evs).cluster.procs[n].applied, k, v);
  }

  /** The apply loop run until nothing is left to take or to deliver. */
  function Drain(p: Proc): Proc
    decreases p.raft.commitIndex - p.raft.lastApplied, |p.queue|
  {
    if p.queue != [] then Drain(ConsumeMsg(p.(queue := p.queue[1..]), p.queue[0]))
    else
      var d := ApplyNext(p.raft);
      if d.Deliver? then Drain(p.(raft := d.node, queue := [d.msg])) else p
  }

  lemma {:induction false} DrainCatchesUp(h: History, p: Proc)
    requires NodeInv(h, p.raft) && ProcOk(h, p)
    ensures 0 <= p.raft.commitIndex < |h.full[p.raft.id]|
    ensures Drain(p).store == Replay(h.full[p.raft.id], p.raft.commitIndex)
    decreases p.raft.commitIndex - p.raft.lastApplied, |p.queue|
  {
    hide Committed;
    if p.queue != [] {
      ConsumeSafe(h, p);
      DrainCatchesUp(h, ConsumeMsg(p.(queue := p.queue[1..]), p.queue[0]));
    } else {
      ApplySafe(h, p);
      ApplyStep(h, p.raft);
      var d := ApplyNext(p.raft);
      if d.Deliver? {
        assert p.queue + [d.msg] == [d.msg];
        DrainCatchesUp(h, p.(raft := d.node, queue := [d.msg]));
      }
    }
  }

  lemma RestartCommit(h: History, p: Proc)
    requires NodeInv(h, p.raft) && ProcOk(h, p)
    ensures Boot(p.raft.id, p.raft.peers, Persisted(p.raft)).commitIndex == p.raft.commitIndex
  {
    hide Committed;
  }

  /** After a restart, the snapshot plus the replay of the entries above it gives the fold of the whole committed log. */
  lemma RestartReplaysEverything(members: set<Id>, evs: seq<Event>, n: Id)
    requires Membership(members) && Guarded(members, evs) && n in members
    ensures n in Run(members, evs).cluster.procs && n in Run(members, evs).hist.full
    ensures var p := Run(members, evs).cluster.procs[n];
            var full := Run(members, evs).hist.full[n];
            && 0 <= p.raft.commitIndex < |full|
            && Drain(Reboot(n, p.raft.peers, Persisted(p.raft))).store == Replay(full, p.raft.commitIndex)
            && Drain(p).store == Replay(full, p.raft.commitIndex)
  {
    assert evs[..|evs|] == evs;
    Moment(members, evs, |evs|, n);
    hide AckInv;
    hide BaseInv;
    hide SafeInv;
    hide NodeInv;
    hide ProcOk;
    hide Drain;
    var h := Run(members, evs).hist;
    var p := Run(members, evs).cluster.procs[n];
    RestartSafe(h, p);
    RestartStep(h, p.raft);
    RestartCommit(h, p);
    DrainCatchesUp(h, Reboot(n, p.raft.peers, Persisted(p.raft)));
    DrainCatchesUp(h, p);
  }

  // ---------- What is committed stays ----------

  lemma {:induction false} AppendReaches(log: seq<Entry>, offset: int, prev: int, entries: seq<Entry>, i: nat)
    requires offset <= prev && i <= |entries| && prev + i - offset < |log|
    ensures |AppendFrom(log, offset, prev, entries, i)| > prev + |entries| - offset
    decreases |entries| - i
  {
    if i < |entries| && prev + 1 + i - offset < |log| {
      AppendReaches(log, offset, prev, entries, i + 1);
    }
  }

  /** The commit bound: for a message that commits no further than its own end, min(LeaderCommit, lastLogIndex()) is
      LeaderCommit, so a follower never commits an entry that the message did not match. */
  lemma CommitBound(s: Node, a: AppendEntriesArgs)
    requires 0 <= a.prevLogIndex && a.leaderCommit <= a.prevLogIndex + |a.entries|
    ensures var (s', reply) := HandleAppendEntries(s, a);
            s'.commitIndex == if reply.success then Max(s.commitIndex, a.leaderCommit) else s.commitIndex
  {
    if a.term >= s.currentTerm && s.logOffset <= a.prevLogIndex <= LastIndex(s) {
      AppendReaches(s.log, s.logOffset, a.prevLogIndex, a.entries, 0);
    }
  }

  lemma {:induction false} CommitPointRises(s: Node, hi: int)
    ensures CommitPoint(s, hi) >= s.commitIndex
    decreases hi - s.commitIndex
  {
    if hi > s.commitIndex {
      CommitPointRises(s, hi - 1);
    }
  }

  lemma ReceiveRises(h: History, p: Proc, m: Msg)
    requires MsgInv(h, m) && SafeMsg(h, m)
    ensures ReceiveMsg(p, m).0.raft.commitIndex >= p.raft.commitIndex
  {
    hide HandleAppendEntries;
    hide NextAfterReject;
    if m.AppendMsg? {
      CommitBound(p.raft, m.append);
    }
  }

  lemma ActRises(h: History, p: Proc, ev: Event)
    requires NodeInv(h, p.raft) && ProcOk(h, p)
    requires ev.Receive? ==> MsgInv(h, ev.msg) && SafeMsg(h, ev.msg)
    ensures Act(p, ev).0.raft.commitIndex >= p.raft.commitIndex
  {
    hide NodeInv;
    hide ProcOk;
    hide MsgInv;
    hide SafeMsg;
    hide ReceiveMsg;
    hide CommitPoint;
    hide Boot;
    match ev {
      case Receive(m) => ReceiveRises(h, p, m);
      case Advance(_) => CommitPointRises(p.raft, LastIndex(p.raft));
      case Restart(_) => RestartCommit(h, p);
      case _ =>
    }
  }

  lemma StepRises(sys: System, ev: Event, n: Id)
    requires SafeInv(sys) && n in sys.cluster.procs
    ensures n in Step(sys, ev).cluster.procs
    ensures Step(sys, ev).cluster.procs[n].raft.commitIndex >= sys.cluster.procs[n].raft.commitIndex
  {
    hide Act;
    hide Record;
    hide BaseInv;
    hide AckInv;
    hide NodeInv;
    hide ProcOk;
    hide MsgInv;
    hide SafeMsg;
    if Enabled(sys.cluster, ev) {
      ActRises(sys.hist, sys.cluster.procs[Actor(ev)], ev);
    }
  }

  lemma {:induction false} CommitRises(members: set<Id>, evs: seq<Event>, i: nat, j: nat, n: Id)
    requires Membership(members) && Guarded(members, evs) && i <= j <= |evs| && n in members
    ensures n in At(members, evs, i).cluster.procs && n in At(members, evs, j).cluster.procs
    ensures NodeAt(members, evs, i, n).commitIndex <= NodeAt(members, evs, j, n).commitIndex
    decreases j
  {
    hide AckInv;
    hide BaseInv;
    hide SafeInv;
    hide NodeInv;
    hide ProcOk;
    hide Inv;
    hide Step;
    hide At;
    Moment(members, evs, i, n);
    if i < j {
      CommitRises(members, evs, i, j - 1, n);
      Moment(members, evs, j - 1, n);
      NextMoment(members, evs, j - 1);
      StepRises(At(members, evs, j - 1), evs[j - 1], n);
    }
  }

  /** What a node has committed, it has committed for good: its commit index never falls, through crashes and snapshots,
      and no later step, in particular no AppendEntries, changes or cuts its log at or below it. */
  lemma CommittedForGood(members: set<Id>, evs: seq<Event>, i: nat, j: nat, n: Id)
    requires Membership(members) && Guarded(members, evs) && i <= j <= |evs| && n in members
    ensures n in At(members, evs, i).cluster.procs && n in At(members, evs, j).cluster.procs
    ensures n in At(members, evs, i).hist.full && n in At(members, evs, j).hist.full
    ensures NodeAt(members, evs, i, n).commitIndex <= NodeAt(members, evs, j, n).commitIndex
    ensures Agree(FullAt(members, evs, i, n), FullAt(members, evs, j, n), NodeAt(members, evs, i, n).commitIndex)
  {
    hide AckInv;
    hide BaseInv;
    hide SafeInv;
    hide NodeInv;
    hide At;
    hide Agree;
    hide Committed;
    Moment(members, evs, i, n);
    CommitRises(members, evs, i, j, n);
    StateMachineSafety(members, evs, i, j, n, n, NodeAt(members, evs, i, n).commitIndex);
  }
}

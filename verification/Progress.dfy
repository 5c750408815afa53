/** What a leader can bring about, from any state of any run: the exchanges as events, and that a majority suffices to
    commit. */
module Progress {
  import opened RaftTypes
  import opened Handlers
  import opened Ledger
  import opened Cluster
  import opened AllRuns
  import opened CommitRule
  import opened Elections
  import opened Exchanges

  // ---------- Exchanges as events ----------

  lemma IdsAre(members: set<Id>, evs: seq<Event>, n: Id)
    requires Membership(members) && n in Run(members, evs).cluster.procs
    ensures var s := Run(members, evs).cluster.procs[n].raft; s.id == n && n !in s.peers && s.peers + {n} == members
  {
    hide BaseInv;
    hide MsgInv;
    hide CandidateOk;
    hide Represents;
    RunInv(members, evs);
  }

  /** A snapshot is sent, received and answered. */
  lemma SnapshotRun(members: set<Id>, evs: seq<Event>, n: Id, peer: Id) returns (evs': seq<Event>)
    requires Membership(members) && n in Run(members, evs).cluster.procs && peer in Run(members, evs).cluster.procs
    requires Run(members, evs).cluster.procs[n].raft.role == Leader && peer in Run(members, evs).cluster.procs[n].raft.peers
    ensures var c, c' := Run(members, evs).cluster, Run(members, evs').cluster;
            var p, f := c.procs[n], c.procs[peer].raft;
            var a := PrepareSnapshot(p.raft);
            && n in c'.procs && peer in c'.procs
            && c'.procs[peer].raft == HandleInstallSnapshot(f, a).0
            && c'.procs[n] == p.(raft := HandleSnapshotReply(p.raft, peer, a, HandleInstallSnapshot(f, a).1))
  {
    hide HandleInstallSnapshot;
    hide HandleSnapshotReply;
    hide Run;
    IdsAre(members, evs, n);
    var c := Run(members, evs).cluster;
    var p, f := c.procs[n], c.procs[peer].raft;
    var a := PrepareSnapshot(p.raft);
    var ask, answer := InstallMsg(n, peer, a), InstallReplyMsg(peer, n, a, HandleInstallSnapshot(f, a).1);
    hide PrepareSnapshot;
    RunMore(members, evs, SendSnapshot(n, peer));
    var e1 := evs + [SendSnapshot(n, peer)];
    assert Run(members, e1).cluster.procs == c.procs && ask in Run(members, e1).cluster.msgs;
    RunMore(members, e1, Receive(ask));
    var e2 := e1 + [Receive(ask)];
    assert answer in Run(members, e2).cluster.msgs && Run(members, e2).cluster.procs[n] == p;
    RunMore(members, e2, Receive(answer));
    evs' := e2 + [Receive(answer)];
  }

  /** A message is sent, received and answered; nobody else is touched. */
  lemma AppendRun(members: set<Id>, evs: seq<Event>, n: Id, peer: Id) returns (evs': seq<Event>)
    requires Membership(members) && n in Run(members, evs).cluster.procs && peer in Run(members, evs).cluster.procs
    requires peer in Run(members, evs).cluster.procs[n].raft.peers
    requires PrepareAppend(Run(members, evs).cluster.procs[n].raft, peer).1.Append?
    ensures var c, c' := Run(members, evs).cluster, Run(members, evs').cluster;
            var p, f := c.procs[n], c.procs[peer].raft;
            var (l, out) := PrepareAppend(p.raft, peer);
            var (f', reply) := HandleAppendEntries(f, out.args);
            c'.procs == c.procs[peer := c.procs[peer].(raft := f')]
                               [n := p.(raft := HandleAppendReply(l, peer, out.args, reply))]
  {
    hide PrepareAppend;
    hide HandleAppendEntries;
    hide HandleAppendReply;
    hide Run;
    IdsAre(members, evs, n);
    var c := Run(members, evs).cluster;
    var p, f := c.procs[n], c.procs[peer].raft;
    var (l, out) := PrepareAppend(p.raft, peer);
    var (f', reply) := HandleAppendEntries(f, out.args);
    var ask, answer := AppendMsg(n, peer, out.args), AppendReplyMsg(peer, n, out.args, reply);
    RunMore(members, evs, Replicate(n, peer));
    var e1 := evs + [Replicate(n, peer)];
    assert Run(members, e1).cluster.procs == c.procs[n := p.(raft := l)] && ask in Run(members, e1).cluster.msgs;
    RunMore(members, e1, Receive(ask));
    var e2 := e1 + [Receive(ask)];
    assert answer in Run(members, e2).cluster.msgs && Run(members, e2).cluster.procs[n] == p.(raft := l);
    RunMore(members, e2, Receive(answer));
    evs' := e2 + [Receive(answer)];
  }

  // ---------- A majority suffices ----------

  /** The peer is not ahead of leader l in term, and l's next message to it fits its log. */
  ghost predicate Ready(l: Node, f: Node, peer: Id)
  {
    && peer in l.peers && f.currentTerm <= l.currentTerm
    && PrepareAppend(l, peer).1.Append? && HandleAppendEntries(f, PrepareAppend(l, peer).1.args).1.success
  }

  ghost predicate AllReady(c: Cluster, l: Node, peers: seq<Id>)
  {
    && (forall i, j | 0 <= i < j < |peers| :: peers[i] != peers[j])
    && forall i | 0 <= i < |peers| :: peers[i] in c.procs && Ready(l, c.procs[peers[i]].raft, peers[i])
  }

  /** The leader has heard from the first k peers; the others, and what it knows of them, are as they were. */
  ghost predicate Heard(c: Cluster, from: Cluster, l: Node, peers: seq<Id>, k: nat)
    requires k <= |peers|
  {
    && l.id in c.procs
    && var r := c.procs[l.id].raft;
       && r == l.(nextIndex := r.nextIndex, matchIndex := r.matchIndex)
       && (forall i | 0 <= i < k :: Lookup(r.matchIndex, peers[i]) == LastIndex(l))
       && (forall i | k <= i < |peers| ::
             && peers[i] in c.procs && peers[i] in from.procs && c.procs[peers[i]] == from.procs[peers[i]]
             && Lookup(r.nextIndex, peers[i]) == Lookup(l.nextIndex, peers[i]))
  }

  /** What a leader sends a peer depends on its own log and on its next index for that peer. */
  lemma SameMessage(l: Node, r: Node, peer: Id)
    requires r == l.(nextIndex := r.nextIndex, matchIndex := r.matchIndex)
    requires Lookup(r.nextIndex, peer) == Lookup(l.nextIndex, peer)
    ensures PrepareAppend(r, peer).1 == PrepareAppend(l, peer).1
  {
  }

  /** A success, seen from the leader. */
  lemma Acknowledged(l: Node, f: Node, peer: Id)
    requires Ready(l, f, peer)
    ensures var (l1, out) := PrepareAppend(l, peer);
            var r := HandleAppendReply(l1, peer, out.args, HandleAppendEntries(f, out.args).1);
            OnlyPeer(l, r, peer) && Lookup(r.matchIndex, peer) == LastIndex(l)
  {
    hide PrepareAppend;
    hide HandleAppendEntries;
    hide HandleAppendReply;
    var (l1, out) := PrepareAppend(l, peer);
    MessageLaw(l, peer);
    AppendLaw(f, out.args);
    AppendReplyLaw(l1, peer, out.args, HandleAppendEntries(f, out.args).1);
  }

  lemma HearOne(members: set<Id>, evs: seq<Event>, from: Cluster, l: Node, peers: seq<Id>, k: nat) returns (evs': seq<Event>)
    requires Membership(members) && k < |peers| && AllReady(from, l, peers)
    requires Heard(Run(members, evs).cluster, from, l, peers, k)
    ensures Heard(Run(members, evs').cluster, from, l, peers, k + 1)
  {
    hide Run;
    hide PrepareAppend;
    hide HandleAppendEntries;
    hide HandleAppendReply;
    var c := Run(members, evs).cluster;
    var peer := peers[k];
    var r, f := c.procs[l.id].raft, c.procs[peer].raft;
    assert Ready(l, f, peer);
    SameMessage(l, r, peer);
    Acknowledged(r, f, peer);
    IdsAre(members, evs, l.id);
    evs' := AppendRun(members, evs, l.id, peer);
    forall i | k < i < |peers| ensures peers[i] != l.id {
      assert Ready(l, from.procs[peers[i]].raft, peers[i]);
    }
  }

  lemma {:induction false} HearAll(members: set<Id>, evs: seq<Event>, l: Node, peers: seq<Id>, k: nat) returns (evs': seq<Event>)
    requires Membership(members) && k <= |peers| && AllReady(Run(members, evs).cluster, l, peers)
    requires l.id in Run(members, evs).cluster.procs && Run(members, evs).cluster.procs[l.id].raft == l
    ensures Heard(Run(members, evs').cluster, Run(members, evs).cluster, l, peers, k)
  {
    hide Run;
    hide Ready;
    if k == 0 {
      evs' := evs;
    } else {
      var e := HearAll(members, evs, l, peers, k - 1);
      hide Heard;
      hide AllReady;
      evs' := HearOne(members, e, Run(members, evs).cluster, l, peers, k - 1);
    }
  }

  lemma {:induction false} SeqSet(peers: seq<Id>)
    requires forall i, j | 0 <= i < j < |peers| :: peers[i] != peers[j]
    ensures |set p | p in peers| == |peers|
  {
    if peers != [] {
      var rest, last := peers[..|peers| - 1], peers[|peers| - 1];
      SeqSet(rest);
      assert (set p | p in peers) == (set p | p in rest) + {last};
    }
  }

  lemma MajorityHeard(c: Cluster, from: Cluster, l: Node, peers: seq<Id>)
    requires AllReady(from, l, peers) && Heard(c, from, l, peers, |peers|) && l.id !in l.peers
    requires 2 * (1 + |peers|) > |l.peers + {l.id}|
    ensures Majority(c.procs[l.id].raft, Reaching(c.procs[l.id].raft, LastIndex(l)))
  {
    hide PrepareAppend;
    hide HandleAppendEntries;
    var r := c.procs[l.id].raft;
    var heard := set p | p in peers;
    SeqSet(peers);
    forall p | p in heard + {l.id} ensures p in Reaching(r, LastIndex(l)) {
      if p in heard {
        var i :| 0 <= i < |peers| && peers[i] == p;
        assert Ready(l, from.procs[peers[i]].raft, peers[i]);
      }
    }
    SubsetSize(heard + {l.id}, Reaching(r, LastIndex(l)));
  }

  /** A majority suffices: in any state of any run, a leader whose last entry is of its term, and whose next message fits the
      logs of enough peers to make more than half of the members with itself, can commit its whole log. */
  lemma CommitPossible(members: set<Id>, evs: seq<Event>, n: Id, peers: seq<Id>) returns (evs': seq<Event>)
    requires Membership(members) && n in Run(members, evs).cluster.procs
    requires var l := Run(members, evs).cluster.procs[n].raft;
             && l.role == Leader && TermAt(l, LastIndex(l)) == l.currentTerm && l.commitIndex <= LastIndex(l)
             && AllReady(Run(members, evs).cluster, l, peers)
    requires 2 * (1 + |peers|) > |members|
    ensures var l := Run(members, evs).cluster.procs[n].raft;
            && n in Run(members, evs').cluster.procs
            && var r := Run(members, evs').cluster.procs[n].raft;
               r.role == Leader && r.currentTerm == l.currentTerm && r.log == l.log && r.commitIndex == LastIndex(l)
  {
    hide Run;
    hide AllReady;
    hide Majority;
    hide CommitPoint;
    var l := Run(members, evs).cluster.procs[n].raft;
    IdsAre(members, evs, n);
    var e := HearAll(members, evs, l, peers, |peers|);
    var c := Run(members, e).cluster;
    MajorityHeard(c, Run(members, evs).cluster, l, peers);
    AdvanceReachesEveryMajority(c.procs[n].raft);
    RunMore(members, e, Advance(n));
    evs' := e + [Advance(n)];
  }
}

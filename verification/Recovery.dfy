/** What a restart loses, and when installing a snapshot loses nothing. */
module Recovery {
  import opened RaftTypes
  import opened Handlers
  import opened Ledger
  import opened Commitment
  import opened Cluster
  import opened AllRuns
  import opened GuardedRuns
  import opened Safety
  import RaftNode

  // ---------- Crash and restart ----------

  /** The node that starts from a saved state holds exactly that state if and only if it is well formed. */
  lemma BootKeepsDurable(id: Id, peers: set<Id>, d: Durable)
    ensures Persisted(Boot(id, peers, d)) == d <==> RaftNode.WellFormed(d)
  {
    if |d.log| > 0 && d.snapshot.lastIndex > 0 {
      var fixed := d.log[0 := d.log[0].(term := d.snapshot.lastTerm)];
      assert fixed[0].term == d.snapshot.lastTerm;
    }
  }

  /** Whatever was loaded, a started node is a follower that knows no leader, keeps the term, the vote, the snapshot and every
      entry behind slot 0, and has its indices in order; only what was out of order is changed. */
  lemma BootLaw(id: Id, peers: set<Id>, d: Durable)
    requires d.snapshot.lastIndex >= 0
    ensures var s := Boot(id, peers, d);
            && s.role == Follower && s.leaderId == NOBODY && s.nextIndex == map[] == s.matchIndex
            && s.id == id && s.peers == peers
            && s.currentTerm == d.currentTerm && s.votedFor == d.votedFor && s.snapshot == d.snapshot
            && s.logOffset == d.snapshot.lastIndex == s.lastApplied <= s.commitIndex <= LastIndex(s)
            && (s.logOffset <= d.commitIndex <= LastIndex(s) ==> s.commitIndex == d.commitIndex)
            && (d.commitIndex > LastIndex(s) ==> s.commitIndex == LastIndex(s))
            && (d.commitIndex < s.logOffset ==> s.commitIndex == s.logOffset)
            && |s.log| == (if |d.log| == 0 then 1 else |d.log|)
            && (forall i | 1 <= i < |s.log| :: s.log[i] == d.log[i])
            && s.log[0].term == (if |d.log| == 0 || d.snapshot.lastIndex > 0 then d.snapshot.lastTerm else d.log[0].term)
  {
  }

  /** What a restart resets. */
  function Volatile(s: Node): Node
  {
    s.(role := Follower, leaderId := NOBODY, lastApplied := s.logOffset, nextIndex := map[], matchIndex := map[],
       votes := 0, awaiting := {})
  }

  /** In every guarded run, at every moment, what the storage must hold is well formed, and a restart resets role, leader
      hint, lastApplied (to the compaction point), nextIndex, matchIndex and the election round, and nothing else. */
  lemma RestartLosesOnlyVolatile(members: set<Id>, evs: seq<Event>, n: Id)
    requires Membership(members) && Guarded(members, evs) && n in members
    ensures n in Run(members, evs).cluster.procs
    ensures var s := Run(members, evs).cluster.procs[n].raft;
            && RaftNode.WellFormed(Persisted(s))
            && Boot(s.id, s.peers, Persisted(s)) == Volatile(s)
  {
    hide AckInv;
    hide BaseInv;
    hide SafeInv;
    hide Committed;
    hide ServerOk;
    hide LeaderOk;
    hide CandidateOk;
    assert evs[..|evs|] == evs;
    Moment(members, evs, |evs|, n);
    hide Run;
    var s := Run(members, evs).cluster.procs[n].raft;
    assert s.log[0 := s.log[0]] == s.log;
  }

  // ---------- Installing a snapshot ----------

  /** The commit index stays within the log if and only if the snapshot reaches at least as far as the node committed. */
  lemma InstallKeepsCommitInLog(s: Node, a: InstallSnapshotArgs)
    requires s.snapshot.lastIndex == s.logOffset <= s.commitIndex <= LastIndex(s)
    ensures var s' := HandleInstallSnapshot(s, a).0;
            s'.commitIndex <= LastIndex(s') <==> !(Installs(s, a) && a.lastIncludedIndex < s.commitIndex)
  {
  }
}

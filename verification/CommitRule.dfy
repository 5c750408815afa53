/** What advanceCommitIndex computes: an order statistic of the indices known to be replicated. */
module CommitRule {
  import opened RaftTypes
  import opened Handlers
  import opened Ledger
  import opened Commitment
  import opened Cluster
  import opened AllRuns
  import opened GuardedRuns
  import opened Safety

  /** How far a member is known to hold the leader's log: the leader itself to its end. */
  function Reach(s: Node, p: Id): int { if p == s.id then LastIndex(s) else Lookup(s.matchIndex, p) }

  /** The members that hold the log through n. */
  function Reaching(s: Node, n: int): set<Id>
  {
    set p | p in s.peers + {s.id} && Reach(s, p) >= n
  }

  /** More than half of the members. */
  predicate Majority(s: Node, q: set<Id>) { 2 * |q| > |s.peers + {s.id}| }

  /** n is the largest index that more than half of the members hold. */
  predicate QuorumthLargest(s: Node, n: int)
  {
    Majority(s, Reaching(s, n)) && !Majority(s, Reaching(s, n + 1))
  }

  /** The quorum is the least majority of the members. */
  lemma QuorumIsLeastMajority(s: Node)
    requires s.id !in s.peers
    ensures 2 * QuorumSize(s) > |s.peers + {s.id}| >= 2 * (QuorumSize(s) - 1)
  {
  }

  /** The commit test, without its count: an entry of the leader's term that more than half of the members hold. */
  lemma CommittableIs(s: Node, c: int)
    requires s.id !in s.peers && c <= LastIndex(s)
    ensures Committable(s, c) <==> TermAt(s, c) == s.currentTerm && Majority(s, Reaching(s, c))
  {
    assert Reaching(s, c) == Holders(s, c) + {s.id};
    QuorumIsLeastMajority(s);
  }

  /** What the rule relies on: sorted terms up to the node's own, and no peer known to be ahead of the leader. */
  ghost predicate LeaderShape(s: Node)
  {
    && s.role == Leader && s.logOffset <= s.commitIndex && s.id !in s.peers
    && (forall i, j | s.logOffset <= i <= j <= LastIndex(s) :: TermAt(s, i) <= TermAt(s, j) <= s.currentTerm)
    && (forall p | p in s.peers :: 0 <= Lookup(s.matchIndex, p) <= LastIndex(s))
  }

  lemma FewerAbove(s: Node, m: int, n: int)
    requires m <= n && Majority(s, Reaching(s, n))
    ensures Majority(s, Reaching(s, m))
  {
    SubsetSize(Reaching(s, n), Reaching(s, m));
  }

  /** There is one largest such index. */
  lemma QuorumthUnique(s: Node, m: int, n: int)
    requires QuorumthLargest(s, m) && QuorumthLargest(s, n)
    ensures m == n
  {
    if m < n {
      FewerAbove(s, m + 1, n);
    } else if n < m {
      FewerAbove(s, n + 1, m);
    }
  }

  lemma AllAtLeastZero(s: Node)
    requires LeaderShape(s) && LastIndex(s) >= 0
    ensures Majority(s, Reaching(s, 0))
  {
    assert Reaching(s, 0) == s.peers + {s.id};
  }

  lemma NoneAboveEnd(s: Node, n: int)
    requires LeaderShape(s) && n > LastIndex(s)
    ensures !Majority(s, Reaching(s, n))
  {
    assert Reaching(s, n) == {};
  }

  /** ... and there is always one, among the indices of the log. */
  lemma QuorumthExists(s: Node) returns (n: int)
    requires LeaderShape(s) && LastIndex(s) >= 0
    ensures 0 <= n <= LastIndex(s) && QuorumthLargest(s, n)
  {
    NoneAboveEnd(s, LastIndex(s) + 1);
    n := QuorumthBelow(s, LastIndex(s));
  }

  lemma {:induction false} QuorumthBelow(s: Node, hi: int) returns (n: int)
    requires LeaderShape(s) && 0 <= hi <= LastIndex(s) && !Majority(s, Reaching(s, hi + 1))
    ensures 0 <= n <= LastIndex(s) && QuorumthLargest(s, n)
    decreases hi
  {
    if Majority(s, Reaching(s, hi)) {
      n := hi;
    } else {
      if hi == 0 {
        AllAtLeastZero(s);
        assert false;
      }
      n := QuorumthBelow(s, hi - 1);
    }
  }

  lemma {:induction false} CommitPointIs(s: Node, hi: int, n: int)
    requires s.commitIndex <= n && n <= Max(hi, s.commitIndex)
    requires n > s.commitIndex ==> Committable(s, n)
    requires forall c | n < c <= hi :: !Committable(s, c)
    ensures CommitPoint(s, hi) == n
    decreases hi - s.commitIndex
  {
    if hi > s.commitIndex && hi != n {
      CommitPointIs(s, hi - 1, n);
    }
  }

  lemma {:induction false} CommitPointHighest(s: Node, hi: int)
    ensures var n := CommitPoint(s, hi);
            && s.commitIndex <= n <= Max(hi, s.commitIndex) && (n > s.commitIndex ==> Committable(s, n))
            && forall c | n < c <= hi :: !Committable(s, c)
    decreases hi - s.commitIndex
  {
    if hi > s.commitIndex && !Committable(s, hi) {
      CommitPointHighest(s, hi - 1);
    }
  }

  /** advanceCommitIndex leaves exactly the highest index above the old commit index that has an entry of the leader's term
      and is held by more than half of the members: it reaches every such index, moves to nothing else, and touches
      nothing but the commit index. */
  lemma AdvanceReachesEveryMajority(s: Node)
    requires s.id !in s.peers
    ensures var r := AdvanceCommit(s);
            && r == s.(commitIndex := r.commitIndex) && r.commitIndex >= s.commitIndex
            && (r.commitIndex > s.commitIndex ==>
                  && s.role == Leader && r.commitIndex <= LastIndex(s)
                  && TermAt(s, r.commitIndex) == s.currentTerm && Majority(s, Reaching(s, r.commitIndex)))
            && (s.role == Leader ==>
                  forall c | s.commitIndex < c <= LastIndex(s) && TermAt(s, c) == s.currentTerm && Majority(s, Reaching(s, c)) ::
                    c <= r.commitIndex)
  {
    hide Majority;
    hide Committable;
    var r := AdvanceCommit(s);
    CommitPointHighest(s, LastIndex(s));
    if r.commitIndex > s.commitIndex {
      CommittableIs(s, r.commitIndex);
    }
    forall c | s.role == Leader && s.commitIndex < c <= LastIndex(s) && TermAt(s, c) == s.currentTerm
               && Majority(s, Reaching(s, c))
      ensures c <= r.commitIndex
    {
      CommittableIs(s, c);
    }
  }

  /** advanceCommitIndex moves the commit index to the quorum-th largest of the leader's last index and its peers'
      matchIndex when that is above the old commit index and is an entry of the current term, and nowhere else. */
  lemma AdvanceIsOrderStatistic(s: Node, n: int)
    requires LeaderShape(s) && QuorumthLargest(s, n)
    ensures AdvanceCommit(s) ==
            s.(commitIndex := if n > s.commitIndex && TermAt(s, n) == s.currentTerm then n else s.commitIndex)
  {
    hide Majority;
    var last := LastIndex(s);
    if n > last {
      NoneAboveEnd(s, n);
    }
    forall c | s.commitIndex < c <= last ensures Committable(s, c) <==> c <= n && TermAt(s, c) == s.currentTerm {
      CommittableIs(s, c);
      if c <= n {
        FewerAbove(s, c, n);
      } else if Majority(s, Reaching(s, c)) {
        FewerAbove(s, n + 1, c);
      }
    }
    hide Committable;
    if n > s.commitIndex && TermAt(s, n) == s.currentTerm {
      CommitPointIs(s, last, n);
    } else {
      forall c | s.commitIndex < c <= last ensures !Committable(s, c) {
        if c <= n {
          assert TermAt(s, c) <= TermAt(s, n) <= s.currentTerm;
        }
      }
      CommitPointIs(s, last, s.commitIndex);
    }
  }

  /** Every leader of a guarded run has the shape the rule relies on. */
  lemma LeadersHaveShape(members: set<Id>, evs: seq<Event>, n: Id)
    requires Membership(members) && Guarded(members, evs) && n in members
    ensures n in Run(members, evs).cluster.procs
    ensures var s := Run(members, evs).cluster.procs[n].raft;
            s.role == Leader ==> LeaderShape(s) && LastIndex(s) >= 0
  {
    hide BaseInv;
    hide AckInv;
    hide SafeInv;
    hide NodeInv;
    hide CommitOk;
    hide ServerOk;
    NodeInvariant(members, evs, n);
    assert evs[..|evs|] == evs;
    Moment(members, evs, |evs|, n);
    PeersInRange(Run(members, evs).hist, Run(members, evs).cluster.procs[n].raft);
    NodeShape(Run(members, evs).hist, Run(members, evs).cluster.procs[n].raft);
    hide LeaderOk;
    hide Run;
  }

  lemma PeersInRange(h: History, s: Node)
    requires LeaderOk(h, s)
    ensures forall p | s.role == Leader && p in s.peers :: 0 <= Lookup(s.matchIndex, p) <= LastIndex(s)
  {
    forall p | s.role == Leader && p in s.peers ensures 0 <= Lookup(s.matchIndex, p) <= LastIndex(s) {
      assert PeerOk(h, s, p);
    }
  }
}

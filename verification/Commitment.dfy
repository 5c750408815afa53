/** Why a committed entry is never lost: what an acknowledgement promises, what it means for an entry to be chosen,
    and the proof that every later leader has every chosen entry (sections 5.4.1 to 5.4.3 of the extended Raft paper). */
module Commitment {
  import opened Kv
  import opened RaftTypes
  import opened Ledger

  /** The log has an entry of term t at index i. */
  ghost predicate Has(log: seq<Entry>, t: int, i: int)
  {
    0 <= i < |log| && log[i].term == t
  }

  /** Some leader after t, in a term up to `bound`, does not have t's entry at i. */
  ghost predicate Overruled(lead: map<int, seq<Entry>>, t: int, i: int, bound: int)
  {
    exists u :: u in lead && t < u <= bound && !Has(lead[u], t, i)
  }

  /** The log is at least as up to date as one that ends in t's entry at i. */
  ghost predicate Covers(log: seq<Entry>, t: int, i: int)
  {
    |log| > 0 && AtLeast(EndTerm(log), |log| - 1, t, i)
  }

  /** What q's acknowledgement of term t through m promises: within the term q's log agrees with the leader's that far,
      and once q has moved on it still covers each of the term's entries unless a later leader dropped it. */
  ghost predicate AckOk(h: History, q: Id, t: int, m: int)
  {
    && q in h.members && q in h.term && q in h.full
    && t in h.elect && t in h.lead
    && 0 <= m < |h.lead[t]|
    && t <= h.term[q]
    && (t == h.term[q] ==> Agree(h.full[q], h.lead[t], m))
    && (t < h.term[q] ==> forall i | 0 <= i <= m && h.lead[t][i].term == t ::
          Covers(h.full[q], t, i) || Overruled(h.lead, t, i, h.term[q]))
  }

  /** The same promise at the moment q cast an early vote in a later term u. */
  ghost predicate VoteAfterAck(h: History, q: Id, t: int, m: int, u: int)
  {
    t in h.lead && m < |h.lead[t]| && (q, u) in h.votes && u > t && h.votes[(q, u)].early ==>
      forall i | 0 <= i <= m && h.lead[t][i].term == t ::
        AtLeast(h.votes[(q, u)].lastTerm, h.votes[(q, u)].lastIndex, t, i) || Overruled(h.lead, t, i, u - 1)
  }

  ghost predicate AckInv(h: History)
  {
    && (forall q, t, m | (q, t, m) in h.acks :: AckOk(h, q, t, m))
    && (forall q, t, m, u | (q, t, m) in h.acks && (q, u) in h.votes :: VoteAfterAck(h, q, t, m, u))
  }

  ghost predicate Acked(h: History, q: Id, t: int, i: int)
  {
    exists m :: m >= i && (q, t, m) in h.acks
  }

  ghost predicate MajorityAcked(h: History, q: set<Id>, t: int, i: int)
  {
    Quorum(q, h.members) && forall n | n in q :: Acked(h, n, t, i)
  }

  /** A majority acknowledged term t's own entry at i while in term t. */
  ghost predicate Chosen(h: History, t: int, i: int)
  {
    && t in h.elect && t in h.lead && Has(h.lead[t], t, i)
    && exists q :: MajorityAcked(h, q, t, i)
  }

  /** The log through c is what some chosen entry of a term up to `bound` fixed. Index 0 needs no witness. */
  ghost predicate Committed(h: History, log: seq<Entry>, c: int, bound: int)
  {
    0 <= c < |log| && (c == 0 || exists t, i :: CommittedBy(h, log, c, bound, t, i))
  }

  ghost predicate CommittedBy(h: History, log: seq<Entry>, c: int, bound: int, t: int, i: int)
  {
    Chosen(h, t, i) && t <= bound && c <= i && Agree(log, h.lead[t], c)
  }

  // ---------- Leader Completeness ----------

  /** A covering log has the entry, or the leader of its last term is one that dropped it. */
  lemma CoversHas(h: History, log: seq<Entry>, t: int, i: int)
    requires LeadersOk(h) && Coherent(log, h.lead)
    requires t in h.lead && Has(h.lead[t], t, i)
    requires Covers(log, t, i)
    ensures Has(log, t, i) || (EndTerm(log) in h.lead && EndTerm(log) > t && !Has(h.lead[EndTerm(log)], t, i))
  {
    var e := EndTerm(log);
    var last := |log| - 1;
    assert log[last].term in h.lead && Agree(log, h.lead[e], last);
    if e > t && Has(h.lead[e], t, i) && last < i {
      assert Coherent(h.lead[e], h.lead);
      TermsSorted(h, h.lead[e], last, i);
    }
  }

  lemma HasCovers(h: History, log: seq<Entry>, t: int, i: int)
    requires LeadersOk(h) && Coherent(log, h.lead) && Has(log, t, i)
    ensures Covers(log, t, i)
  {
    TermsSorted(h, log, i, |log| - 1);
  }

  /** Every leader after t has every chosen entry of t. Strong induction on the later term: a majority chose the entry
      and a majority elected the leader, so some node did both, the acknowledgement first. */
  lemma {:induction false} LeaderHasChosen(h: History, t: int, i: int, u: int)
    requires BaseInv(h) && AckInv(h) && Chosen(h, t, i)
    requires u in h.elect && u > t
    ensures u in h.lead && Has(h.lead[u], t, i)
    decreases u
  {
    assert ElectionOk(h, u);
    var leader := h.elect[u].leader;
    var c := h.votes[(leader, u)];
    var ackers :| MajorityAcked(h, ackers, t, i);
    var q := QuorumsMeet(ackers, h.elect[u].voters, h.members);
    assert Acked(h, q, t, i);
    var m :| m >= i && (q, t, m) in h.acks;
    assert AckOk(h, q, t, m) && VoteAfterAck(h, q, t, m, u);
    var v := h.votes[(q, u)];
    if Overruled(h.lead, t, i, u - 1) {
      var w :| w in h.lead && t < w <= u - 1 && !Has(h.lead[w], t, i);
      LeaderHasChosen(h, t, i, w);
      assert false;
    }
    assert AtLeast(v.lastTerm, v.lastIndex, t, i);
    assert VoteOk(h, q, u);
    assert AtLeast(c.lastTerm, c.lastIndex, t, i);
    var log := h.lead[u];
    var end := InitialEnd(h, u);
    var e := c.lastTerm;
    assert log[end].term == e && Agree(log, h.lead[e], end);
    assert Coherent(log, h.lead) && TermsUpTo(log, u);
    if e > t {
      LeaderHasChosen(h, t, i, e);
      assert Coherent(h.lead[e], h.lead);
      TermsSorted(h, h.lead[e], if end < i then end else i, if end < i then i else end);
    }
  }

  /** Leader Completeness: the later leader's log is the same as the choosing leader's through the chosen entry. */
  lemma LeaderCompleteness(h: History, t: int, i: int, u: int)
    requires BaseInv(h) && AckInv(h) && Chosen(h, t, i)
    requires u in h.lead && u >= t
    ensures Agree(h.lead[u], h.lead[t], i)
  {
    if u > t {
      LeaderHasChosen(h, t, i, u);
      assert Coherent(h.lead[u], h.lead) && Coherent(h.lead[t], h.lead);
      SameTermSamePrefix(h, h.lead[u], h.lead[t], i);
    }
  }

  /** Two logs agree as far as both are committed. */
  lemma CommittedAgree(h: History, a: seq<Entry>, ca: int, ba: int, b: seq<Entry>, cb: int, bb: int, k: int)
    requires BaseInv(h) && AckInv(h)
    requires Coherent(a, h.lead) && Coherent(b, h.lead)
    requires Committed(h, a, ca, ba) && Committed(h, b, cb, bb)
    requires 0 <= k <= ca && k <= cb
    ensures Agree(a, b, k)
  {
    if k > 0 {
      var t1, i1 :| CommittedBy(h, a, ca, ba, t1, i1);
      var t2, i2 :| CommittedBy(h, b, cb, bb, t2, i2);
      if t1 <= t2 {
        LeaderCompleteness(h, t1, i1, t2);
      } else {
        LeaderCompleteness(h, t2, i2, t1);
      }
    }
  }

  /** A leader from the bound on has everything committed. */
  lemma CommittedInLead(h: History, log: seq<Entry>, c: int, bound: int, u: int)
    requires BaseInv(h) && AckInv(h)
    requires Coherent(log, h.lead) && Committed(h, log, c, bound)
    requires u in h.lead && u >= bound
    ensures Agree(log, h.lead[u], c)
  {
    if c > 0 {
      var t, i :| CommittedBy(h, log, c, bound, t, i);
      LeaderCompleteness(h, t, i, u);
    } else {
      assert Coherent(h.lead[u], h.lead);
    }
  }

  // ---------- Nothing chosen is ever unchosen ----------

  lemma ChosenStays(h: History, g: History, t: int, i: int)
    requires Later(h, g) && Chosen(h, t, i)
    ensures Chosen(g, t, i)
  {
    assert LogGrows(h.lead[t], g.lead[t], t);
    var q :| MajorityAcked(h, q, t, i);
    forall m | m in q ensures Acked(g, m, t, i) {
      assert Acked(h, m, t, i);
      var k :| k >= i && (m, t, k) in h.acks;
      assert (m, t, k) in g.acks;
    }
    assert MajorityAcked(g, q, t, i);
  }

  /** A committed log stays committed as long as it still agrees through the commit point. */
  lemma CommittedLater(h: History, g: History, log: seq<Entry>, next: seq<Entry>, c: int, bound: int, later: int)
    requires Later(h, g) && Committed(h, log, c, bound) && bound <= later
    requires Agree(log, next, c)
    ensures Committed(g, next, c, later)
  {
    if c > 0 {
      var t, i :| CommittedBy(h, log, c, bound, t, i);
      ChosenStays(h, g, t, i);
      assert LogGrows(h.lead[t], g.lead[t], t);
      assert CommittedBy(g, next, c, later, t, i);
    }
  }

  lemma CommittedStays(h: History, g: History, n: Id, log: seq<Entry>, next: seq<Entry>, c: int, bound: int, later: int)
    requires Extends(h, g, n) && Committed(h, log, c, bound) && bound <= later
    requires Agree(log, next, c)
    ensures Committed(g, next, c, later)
  {
    ExtendsLater(h, g, n);
    hide Extends;
    hide Later;
    hide Committed;
    CommittedLater(h, g, log, next, c, bound, later);
  }

  // ---------- Every step keeps the promises ----------

  lemma OverruledStays(h: History, g: History, n: Id, t: int, i: int, b1: int, b2: int)
    requires Extends(h, g, n) && Overruled(h.lead, t, i, b1) && b1 <= b2
    ensures Overruled(g.lead, t, i, b2)
  {
    var u :| u in h.lead && t < u <= b1 && !Has(h.lead[u], t, i);
    assert LogGrows(h.lead[u], g.lead[u], u);
    assert u in g.lead && !Has(g.lead[u], t, i);
  }

  /** What node n's log and term become must still honour its acknowledgements. */
  ghost predicate Honours(h: History, g: History, n: Id, t: int, m: int)
  {
    && n in h.term && n in g.term && n in g.full && n in h.full && t in h.lead && t in g.lead && m < |h.lead[t]|
    && (t == g.term[n] ==> Agree(g.full[n], g.lead[t], m))
    && (t < g.term[n] ==> forall i | 0 <= i <= m && h.lead[t][i].term == t ::
          Covers(g.full[n], t, i) || Overruled(g.lead, t, i, g.term[n]))
  }

  /** A node that did not move keeps its promises. */
  lemma AckCarries(h: History, g: History, n: Id, q: Id, t: int, m: int)
    requires Extends(h, g, n) && AckOk(h, q, t, m)
    requires q == n ==> Honours(h, g, n, t, m)
    ensures AckOk(g, q, t, m)
  {
    assert LogGrows(h.lead[t], g.lead[t], t);
    if t == g.term[q] {
      assert t == h.term[q];
    } else if q != n {
      forall i | 0 <= i <= m && g.lead[t][i].term == t
        ensures Covers(g.full[q], t, i) || Overruled(g.lead, t, i, g.term[q])
      {
        if !Covers(h.full[q], t, i) {
          OverruledStays(h, g, n, t, i, h.term[q], g.term[q]);
        }
      }
    }
  }

  lemma VoteAfterAckCarries(h: History, g: History, n: Id, q: Id, t: int, m: int, u: int)
    requires Extends(h, g, n) && AckOk(h, q, t, m) && VoteAfterAck(h, q, t, m, u)
    requires (q, u) in h.votes
    ensures VoteAfterAck(g, q, t, m, u)
  {
    assert LogGrows(h.lead[t], g.lead[t], t);
    if u > t && g.votes[(q, u)].early {
      forall i | 0 <= i <= m && g.lead[t][i].term == t
        ensures AtLeast(g.votes[(q, u)].lastTerm, g.votes[(q, u)].lastIndex, t, i) || Overruled(g.lead, t, i, u - 1)
      {
        if !AtLeast(h.votes[(q, u)].lastTerm, h.votes[(q, u)].lastIndex, t, i) {
          OverruledStays(h, g, n, t, i, u - 1, u - 1);
        }
      }
    }
  }

  /** A step in which no vote is cast keeps all promises if node n honours its own and any new one holds. */
  lemma StepKeepsAcks(h: History, g: History, n: Id)
    requires BaseInv(h) && AckInv(h) && Extends(h, g, n) && g.votes == h.votes
    requires forall t, m | (n, t, m) in h.acks :: Honours(h, g, n, t, m)
    requires forall q, t, m | (q, t, m) in g.acks && (q, t, m) !in h.acks :: AckOk(g, q, t, m) && t == h.term[q]
    ensures AckInv(g)
  {
    forall q, t, m | (q, t, m) in g.acks ensures AckOk(g, q, t, m) {
      if (q, t, m) in h.acks {
        assert AckOk(h, q, t, m);
        AckCarries(h, g, n, q, t, m);
      }
    }
    forall q, t, m, u | (q, t, m) in g.acks && (q, u) in g.votes ensures VoteAfterAck(g, q, t, m, u) {
      if (q, t, m) in h.acks {
        assert AckOk(h, q, t, m) && VoteAfterAck(h, q, t, m, u);
        VoteAfterAckCarries(h, g, n, q, t, m, u);
      } else {
        assert VoteOk(h, q, u);
      }
    }
  }

  lemma BumpKeepsAcks(h: History, n: Id, t: int)
    requires BaseInv(h) && AckInv(h) && n in h.members && t >= h.term[n]
    ensures AckInv(Bump(h, n, t))
  {
    var g := Bump(h, n, t);
    BumpKeepsBase(h, n, t);
    forall u, m | (n, u, m) in h.acks ensures Honours(h, g, n, u, m) {
      assert AckOk(h, n, u, m);
      forall i | 0 <= i <= m && h.lead[u][i].term == u && u < g.term[n]
        ensures Covers(g.full[n], u, i) || Overruled(g.lead, u, i, g.term[n])
      {
        if u == h.term[n] {
          assert h.full[n][i] == h.lead[u][i];
          HasCovers(h, h.full[n], u, i);
        } else if !Covers(h.full[n], u, i) {
          OverruledStays(h, g, n, u, i, h.term[n], t);
        }
      }
    }
    StepKeepsAcks(h, g, n);
  }

  /** An early vote records a log that honours the voter's acknowledgements. */
  lemma NewVoteAfterAck(h: History, n: Id, c: Id, t: int, m: int)
    requires BaseInv(h) && n in h.members && (n, h.term[n]) !in h.votes
    requires AckOk(h, n, t, m)
    ensures VoteAfterAck(CastVote(h, n, c), n, t, m, h.term[n])
  {
    var w := h.term[n];
    if t < w && w !in h.lead {
      forall i | 0 <= i <= m && h.lead[t][i].term == t
        ensures Covers(h.full[n], t, i) || Overruled(h.lead, t, i, w - 1)
      {
        if Overruled(h.lead, t, i, w) {
          var x :| x in h.lead && t < x <= w && !Has(h.lead[x], t, i);
          assert x <= w - 1;
        }
      }
    }
  }

  lemma VoteKeepsAcks(h: History, n: Id, c: Id)
    requires BaseInv(h) && AckInv(h) && n in h.members
    requires (n, h.term[n]) !in h.votes
    ensures AckInv(CastVote(h, n, c))
  {
    var g := CastVote(h, n, c);
    forall q, t, m | (q, t, m) in g.acks ensures AckOk(g, q, t, m) {
      assert AckOk(h, q, t, m);
    }
    forall q, t, m, u | (q, t, m) in g.acks && (q, u) in g.votes ensures VoteAfterAck(g, q, t, m, u) {
      assert AckOk(h, q, t, m);
      if (q, u) in h.votes {
        assert VoteAfterAck(h, q, t, m, u);
      } else {
        NewVoteAfterAck(h, n, c, t, m);
      }
    }
  }

  lemma CrownKeepsAcks(h: History, n: Id)
    requires BaseInv(h) && AckInv(h) && n in h.members && Electable(h, n)
    ensures AckInv(Crown(h, n))
  {
    var g := Crown(h, n);
    CrownExtends(h, n);
    forall u, m | (n, u, m) in h.acks ensures Honours(h, g, n, u, m) {
      assert AckOk(h, n, u, m);
      forall i | 0 <= i <= m && h.lead[u][i].term == u && u < g.term[n]
        ensures Covers(g.full[n], u, i) || Overruled(g.lead, u, i, g.term[n])
      {
        if !Covers(h.full[n], u, i) {
          OverruledStays(h, g, n, u, i, h.term[n], h.term[n]);
        }
      }
    }
    StepKeepsAcks(h, g, n);
  }

  lemma LeaderAppendKeepsAcks(h: History, n: Id, p: Payload)
    requires BaseInv(h) && AckInv(h) && n in h.members && h.term[n] in h.elect && h.elect[h.term[n]].leader == n
    ensures AckInv(LeaderAppend(h, n, p))
  {
    var g := LeaderAppend(h, n, p);
    LeaderAppendExtends(h, n, p);
    assert ElectionOk(h, h.term[n]);
    forall u, m | (n, u, m) in h.acks ensures Honours(h, g, n, u, m) {
      assert AckOk(h, n, u, m);
      assert EndTerm(g.full[n]) == h.term[n];
    }
    StepKeepsAcks(h, g, n);
  }

  /** Taking over a leader's log through `end` never gives up agreement already reached. */
  lemma MergeKeepsAgreement(log: seq<Entry>, leader: seq<Entry>, end: int, m: int)
    requires 0 <= end < |leader| && Agree(log, leader, m)
    ensures Agree(Merge(log, leader, end), leader, m)
    ensures Agree(Merge(log, leader, end), log, m)
  {
    if !Agree(log, leader, end) {
      assert m < end;
    }
  }

  /** An acknowledged entry that no later leader dropped is in the log of node n and in the log of n's leader. */
  lemma StillThere(h: History, n: Id, u: int, m: int, i: int)
    requires BaseInv(h) && n in h.members && h.term[n] in h.elect
    requires AckOk(h, n, u, m) && 0 <= i <= m && h.lead[u][i].term == u && u < h.term[n]
    requires !Overruled(h.lead, u, i, h.term[n])
    ensures Has(h.full[n], u, i) && Has(h.lead[h.term[n]], u, i)
    ensures Agree(h.full[n], h.lead[h.term[n]], i)
  {
    var t := h.term[n];
    assert ElectionOk(h, t);
    CoversHas(h, h.full[n], u, i);
    assert TermsUpTo(h.full[n], t);
    assert Coherent(h.lead[t], h.lead);
    SameTermSamePrefix(h, h.full[n], h.lead[t], i);
  }

  /** A log that has everything it shared with its leader honours the acknowledgements of earlier terms. */
  lemma KeepsEarlier(h: History, g: History, n: Id, u: int, m: int)
    requires BaseInv(h) && n in h.members && h.term[n] in h.elect
    requires Extends(h, g, n) && BaseInv(g) && g.lead == h.lead && g.term == h.term
    requires AckOk(h, n, u, m) && u < h.term[n]
    requires forall i | 0 <= i && Agree(h.full[n], h.lead[h.term[n]], i) :: Agree(g.full[n], h.full[n], i)
    ensures Honours(h, g, n, u, m)
  {
    forall i | 0 <= i <= m && h.lead[u][i].term == u
      ensures Covers(g.full[n], u, i) || Overruled(g.lead, u, i, g.term[n])
    {
      if !Overruled(h.lead, u, i, h.term[n]) {
        StillThere(h, n, u, m, i);
        assert Agree(g.full[n], h.full[n], i);
        HasCovers(g, g.full[n], u, i);
      }
    }
  }

  /** A step that gives up none of node n's agreement with its leader, and adds one acknowledgement that holds. */
  lemma AgreementKeepsAcks(h: History, g: History, n: Id, k: int)
    requires BaseInv(h) && AckInv(h) && n in h.members && h.term[n] in h.elect
    requires Extends(h, g, n) && BaseInv(g)
    requires g == h.(full := g.full, acks := h.acks + {(n, h.term[n], k)})
    requires forall i | 0 <= i && Agree(h.full[n], h.lead[h.term[n]], i) ::
               Agree(g.full[n], h.full[n], i) && Agree(g.full[n], h.lead[h.term[n]], i)
    requires Agree(g.full[n], h.lead[h.term[n]], k)
    ensures AckInv(g)
  {
    assert ElectionOk(h, h.term[n]);
    forall u, m | (n, u, m) in h.acks ensures Honours(h, g, n, u, m) {
      assert AckOk(h, n, u, m);
      if u < h.term[n] {
        KeepsEarlier(h, g, n, u, m);
      }
    }
    StepKeepsAcks(h, g, n);
  }

  lemma AcceptKeepsAcks(h: History, n: Id, t: int, end: int)
    requires BaseInv(h) && AckInv(h) && n in h.members && t in h.elect && t == h.term[n]
    requires 0 <= end < |h.lead[t]|
    ensures AckInv(Accept(h, n, t, end))
  {
    var g := Accept(h, n, t, end);
    AcceptKeepsBase(h, n, t, end);
    var log, leader, next := h.full[n], h.lead[t], g.full[n];
    assert next == Merge(log, leader, end);
    forall i | 0 <= i && Agree(log, leader, i) ensures Agree(next, log, i) && Agree(next, leader, i) {
      MergeKeepsAgreement(log, leader, end, i);
    }
    AgreementKeepsAcks(h, g, n, end);
  }

  /** The node shares nothing with its leader after the snapshot's point. */
  ghost predicate NothingToKeep(log: seq<Entry>, leader: seq<Entry>, index: int)
  {
    0 <= index < |leader| && !Agree(log, leader, index + 1)
  }

  /** Putting the leader's log through `index` in place of a log gives up nothing the two shared if and only if there was
      nothing to keep. */
  lemma LossExactly(log: seq<Entry>, leader: seq<Entry>, index: int)
    requires 0 <= index < |leader|
    ensures (forall i | Agree(log, leader, i) :: Agree(log, Through(leader, index), i)) <==>
            NothingToKeep(log, leader, index)
  {
    if NothingToKeep(log, leader, index) {
      forall i | Agree(log, leader, i) ensures Agree(log, Through(leader, index), i) {
        AgreementIsWithin(log, leader, index, i);
      }
    } else {
      assert !Agree(log, Through(leader, index), index + 1);
    }
  }

  lemma AgreementIsWithin(log: seq<Entry>, leader: seq<Entry>, index: int, m: int)
    requires NothingToKeep(log, leader, index) && Agree(log, leader, m)
    ensures m <= index
  {
  }

  lemma ThroughKeepsAgreement(log: seq<Entry>, leader: seq<Entry>, index: int, m: int)
    requires NothingToKeep(log, leader, index) && Agree(log, leader, m)
    ensures Agree(Through(leader, index), log, m) && Agree(Through(leader, index), leader, m)
  {
    AgreementIsWithin(log, leader, index, m);
  }

  lemma InstallKeepsAcks(h: History, n: Id, t: int, index: int)
    requires BaseInv(h) && AckInv(h) && n in h.members && t in h.elect && t == h.term[n]
    requires h.elect[t].leader != n
    requires NothingToKeep(h.full[n], h.lead[t], index)
    ensures AckInv(Install(h, n, t, index))
  {
    var g := Install(h, n, t, index);
    InstallKeepsBase(h, n, t, index);
    assert ElectionOk(h, t);
    var log, leader, next := h.full[n], h.lead[t], g.full[n];
    assert next == Through(leader, index) && Agree(next, leader, index);
    hide Coherent;
    hide Agree;
    hide Extends;
    forall i | 0 <= i && Agree(log, leader, i) ensures Agree(next, log, i) && Agree(next, leader, i) {
      ThroughKeepsAgreement(log, leader, index, i);
    }
    AgreementKeepsAcks(h, g, n, index);
  }

  lemma AcknowledgeKeepsAcks(h: History, n: Id, t: int, index: int)
    requires BaseInv(h) && AckInv(h) && n in h.members && t in h.elect && t == h.term[n]
    requires Agree(h.full[n], h.lead[t], index)
    ensures AckInv(Acknowledge(h, n, t, index))
  {
    var g := Acknowledge(h, n, t, index);
    AcknowledgeKeepsBase(h, n, t, index);
    forall u, m | (n, u, m) in h.acks ensures Honours(h, g, n, u, m) {
      assert AckOk(h, n, u, m);
    }
    StepKeepsAcks(h, g, n);
  }
}

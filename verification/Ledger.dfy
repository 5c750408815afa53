/** What happened in a run, and what stays true of it whatever is lost, duplicated, reordered or restarted.

    A history is kept beside the running cluster and never influences it. It remembers, for every node, the whole log
    it holds (compacted prefix included), for every term with a leader, that leader's append-only log, who elected it,
    every vote cast, and every acknowledgement given. */
module Ledger {
  import opened Kv
  import opened RaftTypes

  /** A vote: for whom, where the voter's log ended, and whether the term still had no leader. */
  datatype Vote = Vote(candidate: Id, early: bool, lastTerm: int, lastIndex: int)

  datatype Election = Election(leader: Id, voters: set<Id>)

  datatype History = History(
    members: set<Id>,
    term: map<Id, int>,
    full: map<Id, seq<Entry>>,
    lead: map<int, seq<Entry>>,
    elect: map<int, Election>,
    votes: map<(Id, int), Vote>,
    acks: set<(Id, int, int)>)

  // ---------- Logs ----------

  /** Both logs reach index k and are equal through it. */
  ghost predicate Agree(a: seq<Entry>, b: seq<Entry>, k: int)
  {
    0 <= k < |a| && k < |b| && forall j | 0 <= j <= k :: a[j] == b[j]
  }

  /** Every entry, with everything before it, is found in the log of the leader of the entry's term. */
  ghost predicate Coherent(log: seq<Entry>, lead: map<int, seq<Entry>>)
  {
    && |log| > 0
    && log[0] == SENTINEL
    && forall k | 0 <= k < |log| :: log[k].term in lead && Agree(log, lead[log[k].term], k)
  }

  ghost predicate TermsUpTo(log: seq<Entry>, term: int)
  {
    forall k | 0 <= k < |log| :: log[k].term <= term
  }

  ghost function EndTerm(log: seq<Entry>): int
    requires |log| > 0
  {
    log[|log| - 1].term
  }

  /** (t1, i1) is at least as up to date as (t2, i2). */
  ghost predicate AtLeast(t1: int, i1: int, t2: int, i2: int)
  {
    t1 > t2 || (t1 == t2 && i1 >= i2)
  }

  // ---------- Quorums ----------

  ghost predicate Quorum(q: set<Id>, members: set<Id>)
  {
    q <= members && |q| >= |members| / 2 + 1
  }

  lemma SubsetSize<T>(a: set<T>, b: set<T>)
    requires a <= b
    ensures |a| <= |b|
  {
    assert b == a + (b - a);
  }

  lemma QuorumsMeet(q1: set<Id>, q2: set<Id>, members: set<Id>) returns (n: Id)
    requires Quorum(q1, members) && Quorum(q2, members)
    ensures n in q1 && n in q2
  {
    if q1 * q2 == {} {
      assert |q1 + q2| == |q1| + |q2|;
      SubsetSize(q1 + q2, members);
      assert false;
    }
    n :| n in q1 * q2;
  }

  // ---------- The invariant of every run ----------

  ghost predicate LeadersOk(h: History)
  {
    && 0 in h.lead && h.lead[0] == [SENTINEL]
    && h.elect.Keys == h.lead.Keys - {0}
    && forall t | t in h.lead :: t >= 0 && Coherent(h.lead[t], h.lead) && TermsUpTo(h.lead[t], t)
  }

  ghost predicate NodesOk(h: History)
  {
    && h.term.Keys == h.members && h.full.Keys == h.members
    && forall n | n in h.members :: h.term[n] >= 0 && Coherent(h.full[n], h.lead) && TermsUpTo(h.full[n], h.term[n])
  }

  /** Every vote goes to a candidate whose log was at least as up to date as the voter's. */
  ghost predicate VoteOk(h: History, q: Id, t: int)
    requires (q, t) in h.votes
  {
    var v := h.votes[(q, t)];
    && q in h.members && q in h.term && t <= h.term[q]
    && v.candidate in h.members
    && (v.candidate, t) in h.votes
    && var c := h.votes[(v.candidate, t)];
       && c.candidate == v.candidate
       && AtLeast(c.lastTerm, c.lastIndex, v.lastTerm, v.lastIndex)
       && (v.early || t in h.lead)
  }

  ghost predicate VotesOk(h: History)
  {
    forall q, t | (q, t) in h.votes :: VoteOk(h, q, t)
  }

  /** Where the log of term t's leader ended when it was elected. */
  ghost function InitialEnd(h: History, t: int): int
    requires t in h.elect && (h.elect[t].leader, t) in h.votes
  {
    h.votes[(h.elect[t].leader, t)].lastIndex
  }

  /** A leader was elected by a majority, each with its one vote of that term cast before there was a leader; its log
      is what it was then, followed by entries of its own term. */
  ghost predicate ElectionOk(h: History, t: int)
    requires t in h.elect
  {
    var n := h.elect[t].leader;
    && t in h.lead
    && n in h.members && n in h.term && n in h.full
    && h.term[n] >= t
    && (h.term[n] == t ==> h.full[n] == h.lead[t])
    && Quorum(h.elect[t].voters, h.members)
    && n in h.elect[t].voters
    && (forall q | q in h.elect[t].voters ::
          (q, t) in h.votes && h.votes[(q, t)].candidate == n && h.votes[(q, t)].early)
    && 0 <= InitialEnd(h, t) < |h.lead[t]|
    && h.lead[t][InitialEnd(h, t)].term == h.votes[(n, t)].lastTerm
    && forall k | 0 <= k < |h.lead[t]| :: h.lead[t][k].term == t <==> k > InitialEnd(h, t)
  }

  ghost predicate ElectionsOk(h: History)
  {
    forall t | t in h.elect :: ElectionOk(h, t)
  }

  ghost predicate BaseInv(h: History)
  {
    LeadersOk(h) && NodesOk(h) && VotesOk(h) && ElectionsOk(h)
  }

  // ---------- Consequences ----------

  /** Terms never fall along a log. */
  lemma TermsSorted(h: History, log: seq<Entry>, i: int, j: int)
    requires LeadersOk(h) && Coherent(log, h.lead)
    requires 0 <= i <= j < |log|
    ensures 0 <= log[i].term <= log[j].term
    ensures log[i].term == 0 ==> i == 0
  {
    var t := log[j].term;
    assert Agree(log, h.lead[t], j);
    assert log[i] == h.lead[t][i];
    assert TermsUpTo(h.lead[t], t);
    assert log[i].term in h.lead && Agree(log, h.lead[log[i].term], i);
  }

  /** Two logs with the same term at an index are equal through that index. */
  lemma SameTermSamePrefix(h: History, a: seq<Entry>, b: seq<Entry>, k: int)
    requires Coherent(a, h.lead) && Coherent(b, h.lead)
    requires 0 <= k < |a| && k < |b| && a[k].term == b[k].term
    ensures Agree(a, b, k)
  {
    var t := a[k].term;
    assert Agree(a, h.lead[t], k) && Agree(b, h.lead[t], k);
  }

  /** One vote per node and term, and any two majorities meet: a term has one leader. */
  lemma OneLeaderPerTerm(h: History, t: int, n: Id, voters: set<Id>)
    requires BaseInv(h) && t in h.elect
    requires Quorum(voters, h.members)
    requires forall q | q in voters :: (q, t) in h.votes && h.votes[(q, t)].candidate == n
    ensures h.elect[t].leader == n
  {
    assert ElectionOk(h, t);
    var q := QuorumsMeet(h.elect[t].voters, voters, h.members);
  }

  // ---------- What a step may change ----------

  /** Leaders' logs only grow, by entries of their own term; votes, elections and acknowledgements are never
      forgotten; terms never fall; and only node n's own log, term and votes change. */
  ghost predicate Extends(h: History, g: History, n: Id)
  {
    && g.members == h.members
    && h.lead.Keys <= g.lead.Keys
    && (forall t | t in h.lead :: LogGrows(h.lead[t], g.lead[t], t))
    && h.elect.Keys <= g.elect.Keys
    && (forall t | t in h.elect :: g.elect[t] == h.elect[t])
    && (forall t | t in g.elect && t !in h.elect :: g.elect[t].leader == n)
    && h.votes.Keys <= g.votes.Keys
    && (forall v | v in h.votes :: g.votes[v] == h.votes[v])
    && (forall v | v in g.votes && v !in h.votes :: v.0 == n)
    && h.acks <= g.acks
    && h.term.Keys == g.term.Keys && h.full.Keys == g.full.Keys
    && (forall m | m in h.term :: h.term[m] <= g.term[m])
    && (forall m | m in h.term && m != n :: h.term[m] == g.term[m])
    && (forall m | m in h.full && m != n :: h.full[m] == g.full[m])
  }

  ghost predicate LogGrows(a: seq<Entry>, b: seq<Entry>, t: int)
  {
    && |a| <= |b|
    && (forall k | 0 <= k < |a| :: b[k] == a[k])
    && (forall k | |a| <= k < |b| :: b[k].term == t)
  }

  /** What any number of steps of any nodes leaves in place. */
  ghost predicate Later(h: History, g: History)
  {
    && g.members == h.members
    && h.lead.Keys <= g.lead.Keys
    && (forall t | t in h.lead :: LogGrows(h.lead[t], g.lead[t], t))
    && h.elect.Keys <= g.elect.Keys
    && (forall t | t in h.elect :: g.elect[t] == h.elect[t])
    && h.acks <= g.acks
  }

  lemma ExtendsLater(h: History, g: History, n: Id)
    requires Extends(h, g, n)
    ensures Later(h, g)
  {
  }

  lemma LaterTrans(h: History, g: History, f: History)
    requires Later(h, g) && Later(g, f)
    ensures Later(h, f)
  {
    forall t | t in h.lead ensures LogGrows(h.lead[t], f.lead[t], t) {
      assert LogGrows(h.lead[t], g.lead[t], t) && LogGrows(g.lead[t], f.lead[t], t);
    }
  }

  lemma ExtendsRefl(h: History, n: Id)
    ensures Extends(h, h, n)
  {
  }

  lemma ExtendsTrans(h: History, g: History, f: History, n: Id)
    requires Extends(h, g, n) && Extends(g, f, n)
    ensures Extends(h, f, n)
  {
    forall t | t in h.lead ensures LogGrows(h.lead[t], f.lead[t], t) {
      assert LogGrows(h.lead[t], g.lead[t], t) && LogGrows(g.lead[t], f.lead[t], t);
    }
  }

  // ---------- The history's own steps ----------

  function FullLog(h: History, n: Id): seq<Entry> { if n in h.full then h.full[n] else [SENTINEL] }
  function LeadLog(h: History, t: int): seq<Entry> { if t in h.lead then h.lead[t] else [SENTINEL] }
  function TermOf(h: History, n: Id): int { if n in h.term then h.term[n] else 0 }
  function Through(log: seq<Entry>, k: int): seq<Entry> { if 0 <= k < |log| then log[..k + 1] else log }

  function Bump(h: History, n: Id, t: int): History
  {
    h.(term := h.term[n := t])
  }

  /** Node n votes for c in its current term, unless it already voted in it. */
  function CastVote(h: History, n: Id, c: Id): History
  {
    var t := TermOf(h, n);
    var log := FullLog(h, n);
    if (n, t) in h.votes || |log| == 0 then h
    else h.(votes := h.votes[(n, t) := Vote(c, t !in h.lead, log[|log| - 1].term, |log| - 1)])
  }

  function Electorate(h: History, n: Id): set<Id>
  {
    set q | q in h.members && (q, TermOf(h, n)) in h.votes && h.votes[(q, TermOf(h, n))].candidate == n
  }

  function Crown(h: History, n: Id): History
  {
    var t := TermOf(h, n);
    h.(lead := h.lead[t := FullLog(h, n)], elect := h.elect[t := Election(n, Electorate(h, n))])
  }

  function LeaderAppend(h: History, n: Id, p: Payload): History
  {
    var t := TermOf(h, n);
    var log := FullLog(h, n) + [Entry(t, p)];
    h.(full := h.full[n := log], lead := h.lead[t := log])
  }

  /** The log that results from taking over a leader's log through `end`: kept when it already agrees that far, and
      cut to the leader's otherwise. */
  ghost function Merge(log: seq<Entry>, leader: seq<Entry>, end: int): seq<Entry>
  {
    if Agree(log, leader, end) then log else Through(leader, end)
  }

  ghost function Accept(h: History, n: Id, t: int, end: int): History
  {
    h.(full := h.full[n := Merge(FullLog(h, n), LeadLog(h, t), end)], acks := h.acks + {(n, t, end)})
  }

  function Install(h: History, n: Id, t: int, index: int): History
  {
    h.(full := h.full[n := Through(LeadLog(h, t), index)], acks := h.acks + {(n, t, index)})
  }

  function Acknowledge(h: History, n: Id, t: int, index: int): History
  {
    h.(acks := h.acks + {(n, t, index)})
  }

  // ---------- Each of them keeps the invariant ----------

  lemma VotesCarry(h: History, g: History, n: Id)
    requires VotesOk(h) && Extends(h, g, n) && g.votes == h.votes
    ensures VotesOk(g)
  {
    forall q, u | (q, u) in g.votes ensures VoteOk(g, q, u) {
      assert VoteOk(h, q, u);
    }
  }

  lemma ElectionCarries(h: History, g: History, n: Id, t: int)
    requires t in h.elect && ElectionOk(h, t) && Extends(h, g, n)
    requires h.elect[t].leader == n && g.term[n] == t ==> g.full[n] == g.lead[t]
    requires h.elect[t].leader != n && h.term[h.elect[t].leader] == t ==> g.lead[t] == h.lead[t]
    ensures ElectionOk(g, t)
  {
    assert LogGrows(h.lead[t], g.lead[t], t);
    assert (h.elect[t].leader, t) in h.votes;
  }

  lemma CoherentGrows(log: seq<Entry>, lead: map<int, seq<Entry>>, next: map<int, seq<Entry>>)
    requires Coherent(log, lead)
    requires lead.Keys <= next.Keys
    requires forall t | t in lead :: LogGrows(lead[t], next[t], t)
    ensures Coherent(log, next)
  {
    forall k | 0 <= k < |log| ensures log[k].term in next && Agree(log, next[log[k].term], k) {
      assert Agree(log, lead[log[k].term], k) && LogGrows(lead[log[k].term], next[log[k].term], log[k].term);
    }
  }

  lemma BumpKeepsBase(h: History, n: Id, t: int)
    requires BaseInv(h) && n in h.members && t >= h.term[n]
    ensures BaseInv(Bump(h, n, t)) && Extends(h, Bump(h, n, t), n)
  {
    hide Coherent;
    var g := Bump(h, n, t);
    assert g.term.Keys == h.term.Keys;
    forall m | m in g.members ensures TermsUpTo(g.full[m], g.term[m]) && Coherent(g.full[m], g.lead) && g.term[m] >= 0 {
      assert TermsUpTo(h.full[m], h.term[m]);
    }
    assert Extends(h, g, n);
    VotesCarry(h, g, n);
    forall u | u in g.elect ensures ElectionOk(g, u) {
      assert ElectionOk(h, u);
      ElectionCarries(h, g, n, u);
    }
  }

  /** A vote for c, allowed by the up-to-date check against c's own vote. */
  ghost predicate MayVote(h: History, n: Id, c: Id)
    requires n in h.term && n in h.full && |h.full[n]| > 0
  {
    n != c ==>
      && (c, h.term[n]) in h.votes && h.votes[(c, h.term[n])].candidate == c
      && AtLeast(h.votes[(c, h.term[n])].lastTerm, h.votes[(c, h.term[n])].lastIndex,
                 EndTerm(h.full[n]), |h.full[n]| - 1)
  }

  lemma VoteExtends(h: History, n: Id, c: Id)
    requires n in h.term && n in h.full && (n, h.term[n]) !in h.votes
    ensures Extends(h, CastVote(h, n, c), n)
  {
  }

  lemma VoteKeepsVotes(h: History, n: Id, c: Id)
    requires VotesOk(h) && n in h.members && c in h.members && n in h.term && n in h.full && |h.full[n]| > 0
    requires (n, h.term[n]) !in h.votes && MayVote(h, n, c)
    ensures VotesOk(CastVote(h, n, c))
  {
    var g := CastVote(h, n, c);
    forall q, u | (q, u) in g.votes ensures VoteOk(g, q, u) {
      if (q, u) in h.votes {
        assert VoteOk(h, q, u);
      }
    }
  }

  lemma VoteKeepsBase(h: History, n: Id, c: Id)
    requires BaseInv(h) && n in h.members && c in h.members
    requires (n, h.term[n]) !in h.votes && MayVote(h, n, c)
    ensures BaseInv(CastVote(h, n, c)) && Extends(h, CastVote(h, n, c), n)
  {
    assert |h.full[n]| > 0;
    hide Coherent;
    hide TermsUpTo;
    hide VoteOk;
    var g := CastVote(h, n, c);
    VoteExtends(h, n, c);
    VoteKeepsVotes(h, n, c);
    forall u | u in g.elect ensures ElectionOk(g, u) {
      assert ElectionOk(h, u);
      ElectionCarries(h, g, n, u);
    }
  }

  /** A candidate with a majority becomes the leader of a term that had none. */
  lemma CrownKeepsBase(h: History, n: Id)
    requires BaseInv(h) && n in h.members
    requires Electable(h, n)
    ensures BaseInv(Crown(h, n)) && Extends(h, Crown(h, n), n)
  {
    var t := h.term[n];
    var g := Crown(h, n);
    CrownExtends(h, n);
    VotesCarry(h, g, n);
    assert LeadersOk(g) by {
      forall u | u in g.lead ensures u >= 0 && Coherent(g.lead[u], g.lead) && TermsUpTo(g.lead[u], u) {
        var log := if u == t then h.full[n] else h.lead[u];
        assert g.lead[u] == log && Coherent(log, h.lead);
        CoherentGrows(log, h.lead, g.lead);
      }
    }
    assert NodesOk(g) by {
      forall m | m in g.members ensures Coherent(g.full[m], g.lead) {
        CoherentGrows(h.full[m], h.lead, g.lead);
      }
    }
    assert ElectionsOk(g) by {
      forall u | u in g.elect ensures ElectionOk(g, u) {
        if u != t {
          assert ElectionOk(h, u);
          ElectionCarries(h, g, n, u);
        } else {
          CrownedOk(h, n);
        }
      }
    }
  }

  /** The node is a candidate in a term without a leader, with a majority of its votes. */
  ghost predicate Electable(h: History, n: Id)
    requires n in h.term && n in h.full && |h.full[n]| > 0
  {
    var t := h.term[n];
    && t > 0 && t !in h.elect
    && (n, t) in h.votes && h.votes[(n, t)].candidate == n
    && h.votes[(n, t)].lastTerm == EndTerm(h.full[n]) && h.votes[(n, t)].lastIndex == |h.full[n]| - 1
    && Quorum(Electorate(h, n), h.members)
  }

  lemma CrownExtends(h: History, n: Id)
    requires LeadersOk(h) && NodesOk(h) && n in h.members && Electable(h, n)
    ensures Extends(h, Crown(h, n), n)
    ensures Crown(h, n).elect.Keys == Crown(h, n).lead.Keys - {0}
  {
    var g := Crown(h, n);
    assert h.term[n] !in h.lead;
    assert g.elect.Keys == g.lead.Keys - {0};
    forall u | u in h.lead ensures LogGrows(h.lead[u], g.lead[u], u) {
    }
  }

  lemma CrownedOk(h: History, n: Id)
    requires BaseInv(h) && n in h.members && Electable(h, n)
    ensures ElectionOk(Crown(h, n), h.term[n])
  {
    var t := h.term[n];
    assert t !in h.lead;
    forall q | q in Electorate(h, n) ensures h.votes[(q, t)].early {
      assert VoteOk(h, q, t);
    }
    forall k | 0 <= k < |h.full[n]| ensures h.full[n][k].term != t {
      assert h.full[n][k].term in h.lead;
    }
  }

  lemma LeaderAppendExtends(h: History, n: Id, p: Payload)
    requires BaseInv(h) && n in h.members && h.term[n] in h.elect && h.elect[h.term[n]].leader == n
    ensures Extends(h, LeaderAppend(h, n, p), n)
    ensures LeaderAppend(h, n, p).lead.Keys == h.lead.Keys
  {
    var t := h.term[n];
    var g := LeaderAppend(h, n, p);
    assert ElectionOk(h, t);
    assert g.lead == h.lead[t := h.lead[t] + [Entry(t, p)]];
    forall u | u in h.lead ensures LogGrows(h.lead[u], g.lead[u], u) {
    }
  }

  lemma LeaderAppendCoherent(h: History, n: Id, p: Payload)
    requires BaseInv(h) && n in h.members && h.term[n] in h.elect && h.elect[h.term[n]].leader == n
    ensures var g := LeaderAppend(h, n, p); Coherent(g.lead[h.term[n]], g.lead) && TermsUpTo(g.lead[h.term[n]], h.term[n])
  {
    var t := h.term[n];
    var g := LeaderAppend(h, n, p);
    assert ElectionOk(h, t);
    LeaderAppendExtends(h, n, p);
    var before := h.lead[t];
    var log := g.lead[t];
    assert log == before + [Entry(t, p)];
    CoherentGrows(before, h.lead, g.lead);
    forall k | 0 <= k < |log| ensures log[k].term in g.lead && Agree(log, g.lead[log[k].term], k) {
      if k < |before| {
        assert log[k] == before[k];
        assert before[k].term in g.lead && Agree(before, g.lead[before[k].term], k);
      }
    }
  }

  lemma LeaderAppendKeepsBase(h: History, n: Id, p: Payload)
    requires BaseInv(h) && n in h.members && h.term[n] in h.elect && h.elect[h.term[n]].leader == n
    ensures BaseInv(LeaderAppend(h, n, p)) && Extends(h, LeaderAppend(h, n, p), n)
  {
    hide Coherent;
    hide TermsUpTo;
    var t := h.term[n];
    var g := LeaderAppend(h, n, p);
    assert ElectionOk(h, t);
    LeaderAppendExtends(h, n, p);
    LeaderAppendCoherent(h, n, p);
    VotesCarry(h, g, n);
    assert LeadersOk(g) by {
      forall u | u in g.lead ensures u >= 0 && Coherent(g.lead[u], g.lead) && TermsUpTo(g.lead[u], u) {
        if u != t {
          assert g.lead[u] == h.lead[u];
          CoherentGrows(h.lead[u], h.lead, g.lead);
        }
      }
    }
    assert NodesOk(g) by {
      forall m | m in g.members ensures Coherent(g.full[m], g.lead) && TermsUpTo(g.full[m], g.term[m]) {
        if m != n {
          CoherentGrows(h.full[m], h.lead, g.lead);
        }
      }
    }
    assert ElectionsOk(g) by {
      forall u | u in g.elect ensures ElectionOk(g, u) {
        assert ElectionOk(h, u);
        ElectionCarries(h, g, n, u);
      }
    }
  }

  lemma ThroughCoherent(h: History, t: int, k: int)
    requires LeadersOk(h) && t in h.lead && 0 <= k < |h.lead[t]|
    ensures Coherent(Through(h.lead[t], k), h.lead) && TermsUpTo(Through(h.lead[t], k), t)
  {
    var log := h.lead[t];
    var cut := Through(log, k);
    assert Coherent(log, h.lead) && TermsUpTo(log, t);
    forall i | 0 <= i < |cut| ensures cut[i].term in h.lead && Agree(cut, h.lead[cut[i].term], i) {
      assert cut[i] == log[i];
      assert Agree(log, h.lead[log[i].term], i);
    }
  }

  /** Node n takes over a log that is coherent and no newer than its term. */
  lemma ReplaceKeepsBase(h: History, g: History, n: Id, log: seq<Entry>)
    requires BaseInv(h) && n in h.members
    requires Coherent(log, h.lead) && TermsUpTo(log, h.term[n])
    requires h.term[n] in h.elect && h.elect[h.term[n]].leader == n ==> log == h.full[n]
    requires h.acks <= g.acks && g == h.(full := h.full[n := log], acks := g.acks)
    ensures BaseInv(g) && Extends(h, g, n)
  {
    hide Coherent;
    hide TermsUpTo;
    assert g.full.Keys == h.full.Keys;
    assert Extends(h, g, n);
    VotesCarry(h, g, n);
    forall u | u in g.elect ensures ElectionOk(g, u) {
      assert ElectionOk(h, u);
      ElectionCarries(h, g, n, u);
    }
  }

  lemma AcceptKeepsBase(h: History, n: Id, t: int, end: int)
    requires BaseInv(h) && n in h.members && t in h.elect && t == h.term[n] && 0 <= end < |h.lead[t]|
    ensures BaseInv(Accept(h, n, t, end)) && Extends(h, Accept(h, n, t, end), n)
  {
    ThroughCoherent(h, t, end);
    assert ElectionOk(h, t);
    ReplaceKeepsBase(h, Accept(h, n, t, end), n, Merge(h.full[n], h.lead[t], end));
  }

  lemma InstallKeepsBase(h: History, n: Id, t: int, index: int)
    requires BaseInv(h) && n in h.members && t in h.elect && t == h.term[n] && 0 <= index < |h.lead[t]|
    requires h.elect[t].leader != n
    ensures BaseInv(Install(h, n, t, index)) && Extends(h, Install(h, n, t, index), n)
  {
    ThroughCoherent(h, t, index);
    ReplaceKeepsBase(h, Install(h, n, t, index), n, Through(h.lead[t], index));
  }

  lemma AcknowledgeKeepsBase(h: History, n: Id, t: int, index: int)
    requires BaseInv(h) && n in h.members
    ensures BaseInv(Acknowledge(h, n, t, index)) && Extends(h, Acknowledge(h, n, t, index), n)
  {
    var g := Acknowledge(h, n, t, index);
    assert g.full == h.full[n := h.full[n]];
    ReplaceKeepsBase(h, g, n, h.full[n]);
  }
}

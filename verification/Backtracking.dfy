/** The conflict hints find the same point as stepping back one index at a time, in few probes. */
module Backtracking {
  import opened RaftTypes
  import opened Handlers
  import opened Ledger
  import opened Cluster
  import opened AllRuns
  import opened GuardedRuns
  import Replication

  /** The terms of two uncompacted logs agree at an index. */
  predicate MeetAt(leader: seq<Entry>, follower: seq<Entry>, i: int)
  {
    0 <= i < |leader| && i < |follower| && leader[i].term == follower[i].term
  }

  /** Stepping back one index at a time from `prev` until the terms agree; the sentinels always do. */
  function StepBack(leader: seq<Entry>, follower: seq<Entry>, prev: int): int
    decreases prev
  {
    if prev <= 0 || MeetAt(leader, follower, prev) then prev else StepBack(leader, follower, prev - 1)
  }

  lemma {:induction false} StepBackSkips(leader: seq<Entry>, follower: seq<Entry>, prev: int, to: int)
    requires 0 <= to <= prev && forall i | to < i <= prev :: !MeetAt(leader, follower, i)
    ensures StepBack(leader, follower, prev) == StepBack(leader, follower, to)
    decreases prev
  {
    if prev > to {
      StepBackSkips(leader, follower, prev - 1, to);
    }
  }

  lemma StepBackStops(leader: seq<Entry>, follower: seq<Entry>, prev: int)
    requires MeetAt(leader, follower, prev)
    ensures StepBack(leader, follower, prev) == prev
  {
  }

  /** A leader and a follower of its term or an earlier one, neither compacted, with coherent logs. */
  ghost predicate Pair(h: History, l: Node, f: Node)
  {
    && LeadersOk(h)
    && l.logOffset == 0 && f.logOffset == 0
    && Coherent(l.log, h.lead) && Coherent(f.log, h.lead)
    && l.role == Leader && f.currentTerm <= l.currentTerm
  }

  /** The distinct terms in a log behind its sentinel. */
  ghost function TermsOf(log: seq<Entry>): set<int>
  {
    set i | 1 <= i < |log| :: log[i].term
  }

  /** A rejection for a mismatching term points to where that term starts in the follower's log. */
  lemma {:induction false} RunStart(h: History, f: Node, prev: int)
    requires LeadersOk(h) && f.logOffset == 0 && Coherent(f.log, h.lead) && 0 <= prev < |f.log|
    ensures var first := FirstOfRun(f, prev);
            && 0 <= first <= prev
            && (forall i | first <= i <= prev :: f.log[i].term == f.log[prev].term)
            && (forall i | 0 <= i < first :: f.log[i].term < f.log[prev].term)
    decreases prev
  {
    if prev > 0 && f.log[prev - 1].term == f.log[prev].term {
      RunStart(h, f, prev - 1);
    } else {
      forall i | 0 <= i < prev ensures f.log[i].term < f.log[prev].term {
        TermsSorted(h, f.log, i, prev - 1);
        TermsSorted(h, f.log, prev - 1, prev);
      }
    }
  }

  lemma {:induction false} LastOfTerm(h: History, l: Node, term: int, index: int)
    requires LeadersOk(h) && l.logOffset == 0 && Coherent(l.log, h.lead) && index < |l.log|
    ensures var last := LastIndexOfTerm(l, term, index);
            && (last == -1 || (0 <= last <= index && l.log[last].term == term))
            && forall i | 0 <= i <= index && i > last :: l.log[i].term != term
    decreases index + 1
  {
    if index >= 0 && l.log[index].term != term {
      LastOfTerm(h, l, term, index - 1);
    }
  }

  /** The leader's last entry of the conflicting term lies below the probe: the two logs share the log of that term's
      leader, so if it lay above, the probed entries would be equal. */
  lemma LastOfTermIsBelow(h: History, l: Node, f: Node, prev: int, last: int)
    requires Pair(h, l, f) && 0 <= prev < |l.log| && prev < |f.log| && l.log[prev].term != f.log[prev].term
    requires 0 <= last < |l.log| && l.log[last].term == f.log[prev].term
    ensures last < prev
  {
    var t := f.log[prev].term;
    assert Agree(l.log, h.lead[t], last) && Agree(f.log, h.lead[t], prev);
  }

  /** Where a rejected probe at `prev` is retried. */
  ghost predicate Retry(l: Node, f: Node, prev: int, next: int)
  {
    && 1 <= next <= prev
    && StepBack(l.log, f.log, prev) == StepBack(l.log, f.log, next - 1)
    && (prev >= |f.log| ==> next == |f.log|)
    && (prev < |f.log| ==>
          next - 1 < |f.log| && (MeetAt(l.log, f.log, next - 1) || f.log[next - 1].term < f.log[prev].term))
  }

  /** The log is too short: the retry is at its end. */
  lemma TooShort(h: History, l: Node, f: Node, prev: int)
    requires Pair(h, l, f) && |f.log| <= prev < |l.log|
    ensures Retry(l, f, prev, |f.log|)
  {
    hide StepBack;
    SentinelsMeet(h, l, f);
    StepBackSkips(l.log, f.log, prev, |f.log| - 1);
  }

  /** The leader has the conflicting term, last at `last`: the retry is just behind it. */
  lemma SharedTerm(h: History, l: Node, f: Node, prev: int, last: int)
    requires Pair(h, l, f) && 0 < prev < |l.log| && prev < |f.log| && !MeetAt(l.log, f.log, prev)
    requires 0 < last < |l.log| && l.log[last].term == f.log[prev].term
    requires forall i | last < i < |l.log| :: l.log[i].term != f.log[prev].term
    ensures Retry(l, f, prev, last + 1)
  {
    hide StepBack;
    LastOfTermIsBelow(h, l, f, prev, last);
    hide Agree;
    forall i | last < i <= prev ensures !MeetAt(l.log, f.log, i) {
      TermsSorted(h, l.log, last, i);
      TermsSorted(h, f.log, i, prev);
    }
    StepBackSkips(l.log, f.log, prev, last);
    TermsSorted(h, f.log, last, prev);
  }

  /** The leader does not have the conflicting term: the retry is where the term starts in the follower's log. */
  lemma ForeignTerm(h: History, l: Node, f: Node, prev: int)
    requires Pair(h, l, f) && 0 < prev < |l.log| && prev < |f.log|
    requires forall i | 0 < i < |l.log| :: l.log[i].term != f.log[prev].term
    ensures Retry(l, f, prev, FirstOfRun(f, prev))
  {
    hide StepBack;
    RunStart(h, f, prev);
    var first := FirstOfRun(f, prev);
    TermsSorted(h, f.log, prev, prev);
    assert f.log[0] == SENTINEL;
    assert first > 0;
    StepBackSkips(l.log, f.log, prev, first - 1);
  }

  /** One rejected probe: it moves strictly back, past no index at which the terms agree; a log that is too short is
      found out at once, and otherwise the follower's term at the probe strictly falls. */
  lemma RejectedProbe(h: History, l: Node, f: Node, peer: Id, prev: int, reply: AppendEntriesReply)
    requires Pair(h, l, f) && 0 < prev < |l.log| && !MeetAt(l.log, f.log, prev)
    requires reply.conflictIndex == if prev >= |f.log| then |f.log| else FirstOfRun(f, prev)
    requires reply.conflictTerm == if prev >= |f.log| then 0 else f.log[prev].term
    ensures Retry(l, f, prev, NextAfterReject(l, peer, reply))
  {
    hide Retry;
    if prev >= |f.log| {
      TooShort(h, l, f, prev);
      SentinelsMeet(h, l, f);
    } else {
      var t := f.log[prev].term;
      TermsSorted(h, f.log, prev, prev);
      LastOfTerm(h, l, t, LastIndex(l));
      var last := LastIndexOfTerm(l, t, LastIndex(l));
      if last > 0 {
        SharedTerm(h, l, f, prev, last);
      } else {
        ForeignTerm(h, l, f, prev);
      }
    }
  }

  /** What the follower answers to the leader's probe. */
  lemma ProbeReply(h: History, l: Node, f: Node, peer: Id)
    requires Pair(h, l, f) && 1 <= Lookup(l.nextIndex, peer) <= |l.log|
    ensures var (l', out) := PrepareAppend(l, peer);
            var prev := Lookup(l.nextIndex, peer) - 1;
            && l' == l && out.Append? && out.args.prevLogIndex == prev && out.args.term == l.currentTerm
            && var (f', reply) := HandleAppendEntries(f, out.args);
               && (reply.success <==> MeetAt(l.log, f.log, prev))
               && (!reply.success ==>
                     && f'.log == f.log && f'.logOffset == 0 && f'.currentTerm == l.currentTerm
                     && reply.term <= l.currentTerm
                     && reply.conflictIndex == (if prev >= |f.log| then |f.log| else FirstOfRun(f, prev))
                     && reply.conflictTerm == (if prev >= |f.log| then 0 else f.log[prev].term))
  {
    var prev := Lookup(l.nextIndex, peer) - 1;
    var f1 := HeardFromLeader(f, l.currentTerm, l.id);
    if prev < |f.log| {
      SameRun(f, f1, prev);
    }
  }

  lemma {:induction false} SameRun(f: Node, g: Node, prev: int)
    requires f.log == g.log && f.logOffset == g.logOffset && f.logOffset <= prev <= LastIndex(f)
    ensures FirstOfRun(f, prev) == FirstOfRun(g, prev)
    decreases prev - f.logOffset
  {
    if prev > f.logOffset && TermAt(f, prev - 1) == TermAt(f, prev) {
      SameRun(f, g, prev - 1);
    }
  }

  /** One exchange: the leader's probe, the follower's answer, and what the leader makes of it. */
  function Exchange(l: Node, f: Node, peer: Id): (Node, Node, bool)
  {
    var (l', out) := PrepareAppend(l, peer);
    if !out.Append? then (l', f, false)
    else
      var (f', reply) := HandleAppendEntries(f, out.args);
      (HandleAppendReply(l', peer, out.args, reply), f', reply.success)
  }

  lemma ExchangeOutcome(h: History, l: Node, f: Node, peer: Id)
    requires Pair(h, l, f) && peer in l.nextIndex && 1 <= l.nextIndex[peer] <= |l.log|
    ensures var prev := l.nextIndex[peer] - 1;
            var (l', f', success) := Exchange(l, f, peer);
            && (success <==> MeetAt(l.log, f.log, prev))
            && (!success ==>
                  && Pair(h, l', f') && l'.log == l.log && f'.log == f.log
                  && peer in l'.nextIndex && Retry(l, f, prev, l'.nextIndex[peer]))
  {
    hide HandleAppendEntries;
    hide PrepareAppend;
    hide NextAfterReject;
    hide Retry;
    hide LeadersOk;
    ProbeReply(h, l, f, peer);
    SentinelsMeet(h, l, f);
    hide Coherent;
    var prev := l.nextIndex[peer] - 1;
    var (l', out) := PrepareAppend(l, peer);
    var (f', reply) := HandleAppendEntries(f, out.args);
    if !reply.success {
      RejectedProbe(h, l, f, peer, prev, reply);
    }
  }

  /** How far the search has come: nothing at which the logs agree was skipped, and each rejection is accounted for, by
      a log that was too short or by a term of the follower's log above all that are still to be probed. */
  ghost predicate Progress(leader: seq<Entry>, follower: seq<Entry>, from: int, at: int,
                           rejections: int, short: int, seen: set<int>)
  {
    && 0 <= at <= from < |leader|
    && StepBack(leader, follower, at) == StepBack(leader, follower, from)
    && rejections == short + |seen| && seen <= TermsOf(follower)
    && 0 <= short <= (if from >= |follower| then 1 else 0)
    && (at >= |follower| ==> seen == {} && short == 0)
    && (at < |follower| && !MeetAt(leader, follower, at) ==> forall t | t in seen :: t > follower[at].term)
  }

  lemma ProgressStart(h: History, l: Node, f: Node, from: int)
    requires Pair(h, l, f) && 0 <= from < |l.log|
    ensures Progress(l.log, f.log, from, from, 0, 0, {})
  {
    hide StepBack;
  }

  lemma ProgressStep(l: Node, f: Node, from: int, prev: int, next: int, rejections: int, short: int, seen: set<int>)
    returns (short': int, seen': set<int>)
    requires Progress(l.log, f.log, from, prev, rejections, short, seen)
    requires !MeetAt(l.log, f.log, prev) && Retry(l, f, prev, next)
    ensures Progress(l.log, f.log, from, next - 1, rejections + 1, short', seen')
  {
    hide StepBack;
    if prev >= |f.log| {
      short', seen' := 1, seen;
    } else {
      var t := f.log[prev].term;
      assert t in TermsOf(f.log);
      short', seen' := short, seen + {t};
    }
  }

  lemma RetryRange(l: Node, f: Node, prev: int, next: int)
    requires Retry(l, f, prev, next)
    ensures 1 <= next <= prev
  {
  }

  lemma ProgressDone(leader: seq<Entry>, follower: seq<Entry>, from: int, at: int,
                     rejections: int, short: int, seen: set<int>)
    requires Progress(leader, follower, from, at, rejections, short, seen) && MeetAt(leader, follower, at)
    ensures at == StepBack(leader, follower, from)
    ensures rejections <= (if from >= |follower| then 1 else 0) + |TermsOf(follower)|
  {
    StepBackStops(leader, follower, at);
    SubsetSize(seen, TermsOf(follower));
  }

  /** The exchange of probes and rejections from any next index to the first success, with the leader's and the follower's
      own handlers: it stops where stepping back one at a time stops, after at most one rejection for a log that is too
      short and one for each distinct term in the follower's log behind the sentinel. */
  method FindAgreement(ghost h: History, leader: Node, follower: Node, peer: Id) returns (agreed: int, rejections: nat)
    requires Pair(h, leader, follower)
    requires peer in leader.nextIndex && 1 <= leader.nextIndex[peer] <= |leader.log|
    ensures agreed == StepBack(leader.log, follower.log, leader.nextIndex[peer] - 1)
    ensures MeetAt(leader.log, follower.log, agreed)
    ensures rejections <= (if leader.nextIndex[peer] > |follower.log| then 1 else 0) + |TermsOf(follower.log)|
  {
    hide *;
    var l, f := leader, follower;
    rejections, agreed := 0, leader.nextIndex[peer] - 1;
    ghost var from, short, seen: set<int> := agreed, 0, {};
    ProgressStart(h, leader, follower, from);
    while true
      invariant Pair(h, l, f) && l.log == leader.log && f.log == follower.log
      invariant 0 <= agreed < |leader.log| && peer in l.nextIndex && l.nextIndex[peer] == agreed + 1
      invariant Progress(leader.log, follower.log, from, agreed, rejections, short, seen)
      decreases agreed
    {
      ExchangeOutcome(h, l, f, peer);
      var (l', f', success) := Exchange(l, f, peer);
      if success {
        ProgressDone(leader.log, follower.log, from, agreed, rejections, short, seen);
        return;
      }
      RetryRange(l, f, agreed, l'.nextIndex[peer]);
      short, seen := ProgressStep(l, f, from, agreed, l'.nextIndex[peer], rejections, short, seen);
      rejections, agreed, l, f := rejections + 1, l'.nextIndex[peer] - 1, l', f';
    }
  }

  lemma SentinelsMeet(h: History, l: Node, f: Node)
    requires Pair(h, l, f)
    ensures MeetAt(l.log, f.log, 0)
  {
  }

  // ---------- The pairs that occur ----------

  /** A log that was never compacted starts with the sentinel. */
  predicate FromSentinel(s: Node)
  {
    |s.log| > 0 && (s.logOffset == 0 ==> s.log[0] == SENTINEL)
  }

  lemma AppendFromSentinel(s: Node, a: AppendEntriesArgs)
    requires FromSentinel(s) && a.prevLogIndex >= 0
    ensures FromSentinel(HandleAppendEntries(s, a).0)
  {
    hide AppendFrom;
    hide FirstOfRun;
    if s.logOffset <= a.prevLogIndex {
      Replication.AppendKeepsSentinel(s.log, s.logOffset, a.prevLogIndex, a.entries, 0);
    }
  }

  lemma ReceiveFromSentinel(p: Proc, m: Msg)
    requires FromSentinel(p.raft) && p.raft.snapshot.lastIndex == p.raft.logOffset >= 0
    requires m.AppendMsg? ==> m.append.prevLogIndex >= 0
    ensures FromSentinel(ReceiveMsg(p, m).0.raft)
  {
    hide NextAfterReject;
    hide HandleAppendEntries;
    if m.AppendMsg? {
      AppendFromSentinel(p.raft, m.append);
    }
  }

  lemma ActFromSentinel(p: Proc, ev: Event)
    requires FromSentinel(p.raft) && p.raft.snapshot.lastIndex == p.raft.logOffset >= 0
    requires ev.Receive? && ev.msg.AppendMsg? ==> ev.msg.append.prevLogIndex >= 0
    ensures FromSentinel(Act(p, ev).0.raft)
  {
    hide ReceiveMsg;
    hide CommitPoint;
    if ev.Receive? {
      ReceiveFromSentinel(p, ev.msg);
    }
  }

  lemma {:induction false} RunFromSentinel(members: set<Id>, evs: seq<Event>, n: Id)
    requires Membership(members) && n in members
    ensures n in Run(members, evs).cluster.procs && FromSentinel(Run(members, evs).cluster.procs[n].raft)
    decreases |evs|
  {
    hide BaseInv;
    hide FromSentinel;
    hide Act;
    hide Record;
    hide CandidateOk;
    hide Represents;
    if evs == [] {
      assert FromSentinel(Boot(n, members - {n}, FRESH_DISK)) by { BootFromSentinel(n, members - {n}); }
    } else {
      var pre, ev := evs[..|evs| - 1], evs[|evs| - 1];
      RunFromSentinel(members, pre, n);
      RunInv(members, pre);
      var sys := Run(members, pre);
      if Enabled(sys.cluster, ev) && Actor(ev) == n {
        SnapshotIsOffset(sys.cluster.procs[n].raft, sys.hist.full[n]);
        RepresentsShape(sys.cluster.procs[n].raft, sys.hist.full[n], 0);
        ActFromSentinel(sys.cluster.procs[n], ev);
      }
    }
  }

  lemma BootFromSentinel(n: Id, peers: set<Id>)
    ensures FromSentinel(Boot(n, peers, FRESH_DISK))
  {
  }

  lemma WholeLog(s: Node, full: seq<Entry>)
    requires Represents(s, full) && FromSentinel(s) && s.logOffset == 0 && full[0] == SENTINEL
    ensures s.log == full
  {
  }

  /** In every run, a leader and any node that is not ahead of its term are such a pair, as long as neither has compacted. */
  lemma PairsInRuns(members: set<Id>, evs: seq<Event>, a: Id, b: Id)
    requires Membership(members) && a in members && b in members
    ensures var sys := Run(members, evs);
            && a in sys.cluster.procs && b in sys.cluster.procs
            && var s, r := sys.cluster.procs[a].raft, sys.cluster.procs[b].raft;
               s.role == Leader && r.currentTerm <= s.currentTerm && s.logOffset == 0 && r.logOffset == 0 ==>
                 Pair(sys.hist, s, r)
  {
    RunInv(members, evs);
    RunFromSentinel(members, evs, a);
    RunFromSentinel(members, evs, b);
    hide FromSentinel;
    hide Run;
    hide CandidateOk;
    hide MsgInv;
    var sys := Run(members, evs);
    var s, r := sys.cluster.procs[a].raft, sys.cluster.procs[b].raft;
    if s.logOffset == 0 && r.logOffset == 0 {
      WholeLog(s, sys.hist.full[a]);
      WholeLog(r, sys.hist.full[b]);
    }
  }
}

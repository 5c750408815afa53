/** Why the safety theorems carry a guard. A run of three nodes in which a stale rejection makes the leader send a snapshot
    to a follower that is already past it; the follower drops an entry it acknowledged, is elected without it, and two
    nodes commit different entries at the same index. And a run in which the follower had already committed the entry. */
module StaleSnapshot {
  import opened Kv
  import opened RaftTypes
  import opened Handlers
  import opened Ledger
  import opened Cluster
  import opened AllRuns
  import opened GuardedRuns
  import opened Safety

  // ---------- Building a run ----------

  /** What an event takes off the network. */
  function Taken(ev: Event): multiset<Msg> { if ev.Receive? then multiset{ev.msg} else multiset{} }

  /** The messages under way after a run, when a message that is received is gone from the network. */
  ghost function InFlight(m: set<Id>, evs: seq<Event>): multiset<Msg>
    decreases |evs|
  {
    if evs == [] then multiset{}
    else
      var pre, ev := evs[..|evs| - 1], evs[|evs| - 1];
      var c := Run(m, pre).cluster;
      if !Enabled(c, ev) then InFlight(m, pre)
      else InFlight(m, pre) - Taken(ev) + multiset(Act(c.procs[Actor(ev)], ev).1)
  }

  /** A run over a network that repeats nothing: every request and every reply that was sent is received at most once, as
      the calls of the program are. */
  ghost predicate OnceEach(m: set<Id>, evs: seq<Event>)
    decreases |evs|
  {
    evs == [] || (OnceEach(m, evs[..|evs| - 1]) && Taken(evs[|evs| - 1]) <= InFlight(m, evs[..|evs| - 1]))
  }

  /** A run without repeated messages that has led to these processes, with at least these messages under way. */
  ghost predicate Reached(m: set<Id>, evs: seq<Event>, procs: map<Id, Proc>, flight: multiset<Msg>)
  {
    && Run(m, evs).cluster.procs == procs
    && OnceEach(m, evs) && flight <= InFlight(m, evs)
    && forall x | x in flight :: x in Run(m, evs).cluster.msgs
  }

  lemma Fewer(m: set<Id>, evs: seq<Event>, procs: map<Id, Proc>, flight: multiset<Msg>, less: multiset<Msg>)
    requires Reached(m, evs, procs, flight) && less <= flight
    ensures Reached(m, evs, procs, less)
  {
  }

  ghost predicate Possible(p: Proc, ev: Event, flight: multiset<Msg>)
  {
    match ev
    case Receive(msg) =>
      msg in flight &&
      (msg.VoteReplyMsg? && p.raft.role == Candidate && p.raft.currentTerm == msg.vote.term ==>
         msg.from in p.raft.awaiting)
    case LoneWin(_) => false
    case Replicate(_, peer) => peer in p.raft.peers
    case SendSnapshot(_, peer) => peer in p.raft.peers && p.raft.role == Leader
    case Consume(_) => p.queue != []
    case _ => true
  }

  /** One more event. */
  lemma Go(m: set<Id>, evs: seq<Event>, procs: map<Id, Proc>, flight: multiset<Msg>, ev: Event)
    requires Reached(m, evs, procs, flight)
    requires Actor(ev) in procs && Possible(procs[Actor(ev)], ev, flight)
    ensures var (p, out) := Act(procs[Actor(ev)], ev);
            Reached(m, evs + [ev], procs[Actor(ev) := p], flight - Taken(ev) + multiset(out))
  {
    hide Act;
    hide Record;
    var next := evs + [ev];
    assert next[..|next| - 1] == evs && next[|next| - 1] == ev;
    assert Enabled(Run(m, evs).cluster, ev);
  }

  /** The messages of an election: the request to y, and y's granted vote. */
  function Ask(s: Node, y: Id): Msg { RequestVoteMsg(s.id, y, VoteRequest(StartElection(s))) }
  function Yes(s: Node, y: Id): Msg
  {
    VoteReplyMsg(y, s.id, VoteRequest(StartElection(s)), RequestVoteReply(s.currentTerm + 1, true))
  }

  /** The node just after it won the election of `term` with the vote of `voter`. */
  function Won(s: Node, term: int, voter: Id): Node
  {
    BecomeLeader(s.(role := Candidate, currentTerm := term, votedFor := s.id, votes := 2, awaiting := s.peers - {voter}))
  }

  lemma Asks(p: Proc, y: Id)
    requires p.raft.role == Follower && y in p.raft.peers
    ensures Act(p, Timeout(p.raft.id)).0 == p.(raft := StartElection(p.raft))
    ensures Ask(p.raft, y) in Act(p, Timeout(p.raft.id)).1
  {
  }

  lemma Grants(q: Proc, s: Node, y: Id)
    requires s.role == Follower && q.raft.role == Follower && q.raft.currentTerm <= s.currentTerm
    requires IsUpToDate(q.raft, LastIndex(s), LastTerm(s))
    ensures Act(q, Receive(Ask(s, y))) ==
            (q.(raft := q.raft.(currentTerm := s.currentTerm + 1, votedFor := s.id)), {Yes(s, y)})
  {
  }

  lemma Wins(p: Proc, s: Node, y: Id)
    requires s.role == Follower && |s.peers| == 2 && y in s.peers && p.raft == StartElection(s)
    ensures Act(p, Receive(Yes(s, y))) == (p.(raft := Won(s, s.currentTerm + 1, y)), {})
  {
    hide BecomeLeader;
  }

  /** An event that sends nothing. */
  lemma Quiet(m: set<Id>, evs: seq<Event>, procs: map<Id, Proc>, flight: multiset<Msg>, ev: Event, p: Proc)
    requires Reached(m, evs, procs, flight)
    requires Actor(ev) in procs && Possible(procs[Actor(ev)], ev, flight) && Act(procs[Actor(ev)], ev) == (p, {})
    ensures Reached(m, evs + [ev], procs[Actor(ev) := p], flight - Taken(ev))
    ensures !ev.Receive? ==> Reached(m, evs + [ev], procs[Actor(ev) := p], flight)
  {
    hide Act;
    hide Reached;
    Go(m, evs, procs, flight, ev);
    assert flight - Taken(ev) + multiset({}) == flight - Taken(ev);
    assert flight - multiset{} == flight;
  }

  /** An event that takes no message and sends one. */
  lemma Sends(m: set<Id>, evs: seq<Event>, procs: map<Id, Proc>, flight: multiset<Msg>, ev: Event, p: Proc, out: Msg)
    requires Reached(m, evs, procs, flight) && !ev.Receive?
    requires Actor(ev) in procs && Possible(procs[Actor(ev)], ev, flight) && Act(procs[Actor(ev)], ev).0 == p
    requires out in Act(procs[Actor(ev)], ev).1
    ensures Reached(m, evs + [ev], procs[Actor(ev) := p], flight + multiset{out})
  {
    hide Act;
    hide Reached;
    Go(m, evs, procs, flight, ev);
    Fewer(m, evs + [ev], procs[Actor(ev) := p], flight - Taken(ev) + multiset(Act(procs[Actor(ev)], ev).1),
          flight + multiset{out});
  }

  /** A message is taken and answered. */
  lemma Answers(m: set<Id>, evs: seq<Event>, procs: map<Id, Proc>, flight: multiset<Msg>, msg: Msg, p: Proc, out: Msg)
    requires Reached(m, evs, procs, flight + multiset{msg})
    requires msg.to in procs && !msg.VoteReplyMsg? && Act(procs[msg.to], Receive(msg)) == (p, {out})
    ensures Reached(m, evs + [Receive(msg)], procs[msg.to := p], flight + multiset{out})
  {
    hide Act;
    hide Reached;
    Go(m, evs, procs, flight + multiset{msg}, Receive(msg));
    assert flight + multiset{msg} - multiset{msg} + multiset({out}) == flight + multiset{out};
  }

  /** Node x, at a timeout, is elected in its next term with the vote of y. */
  lemma Elect(m: set<Id>, evs: seq<Event>, procs: map<Id, Proc>, flight: multiset<Msg>, x: Id, y: Id)
    returns (evs': seq<Event>, procs': map<Id, Proc>)
    requires Reached(m, evs, procs, flight) && x in procs && y in procs && x != y
    requires var s, v := procs[x].raft, procs[y].raft;
             && s.id == x && s.role == Follower && |s.peers| == 2 && y in s.peers
             && v.role == Follower && v.currentTerm <= s.currentTerm && IsUpToDate(v, LastIndex(s), LastTerm(s))
    ensures Reached(m, evs', procs', flight)
    ensures var s, v := procs[x].raft, procs[y].raft;
            var t := s.currentTerm + 1;
            procs' == procs[x := procs[x].(raft := Won(s, t, y))][y := procs[y].(raft := v.(currentTerm := t, votedFor := x))]
  {
    hide Act;
    hide Reached;
    hide Won;
    hide IsUpToDate;
    var s, v := procs[x].raft, procs[y].raft;
    var px := procs[x].(raft := StartElection(s));
    var qy := procs[y].(raft := v.(currentTerm := s.currentTerm + 1, votedFor := x));
    Asks(procs[x], y);
    Grants(procs[y], s, y);
    Wins(px, s, y);
    Sends(m, evs, procs, flight, Timeout(x), px, Ask(s, y));
    var e1, p1 := evs + [Timeout(x)], procs[x := px];
    Answers(m, e1, p1, flight, Ask(s, y), qy, Yes(s, y));
    var e2, p2 := e1 + [Receive(Ask(s, y))], p1[y := qy];
    Quiet(m, e2, p2, flight + multiset{Yes(s, y)}, Receive(Yes(s, y)), px.(raft := Won(s, s.currentTerm + 1, y)));
    assert flight + multiset{Yes(s, y)} - multiset{Yes(s, y)} == flight;
    evs', procs' := e2 + [Receive(Yes(s, y))], p2[x := px.(raft := Won(s, s.currentTerm + 1, y))];
  }

  /** Leader x sends to y what it has for it, and y answers. */
  lemma Ship(m: set<Id>, evs: seq<Event>, procs: map<Id, Proc>, flight: multiset<Msg>,
             x: Id, y: Id, args: AppendEntriesArgs)
    returns (evs': seq<Event>, procs': map<Id, Proc>)
    requires Reached(m, evs, procs, flight) && x in procs && y in procs && x != y
    requires procs[x].raft.id == x && y in procs[x].raft.peers
    requires PrepareAppend(procs[x].raft, y) == (procs[x].raft, Append(args))
    ensures procs' == procs[y := procs[y].(raft := HandleAppendEntries(procs[y].raft, args).0)]
    ensures Reached(m, evs', procs', flight + multiset{AppendReplyMsg(y, x, args, HandleAppendEntries(procs[y].raft, args).1)})
  {
    hide PrepareAppend;
    hide HandleAppendEntries;
    var msg := AppendMsg(x, y, args);
    hide Reached;
    var reply := AppendReplyMsg(y, x, args, HandleAppendEntries(procs[y].raft, args).1);
    var q := procs[y].(raft := HandleAppendEntries(procs[y].raft, args).0);
    assert Act(procs[x], Replicate(x, y)) == (procs[x], {msg}) && Act(procs[y], Receive(msg)) == (q, {reply});
    assert procs[x := procs[x]] == procs;
    hide Act;
    Sends(m, evs, procs, flight, Replicate(x, y), procs[x], msg);
    Answers(m, evs + [Replicate(x, y)], procs, flight, msg, q, reply);
    evs', procs' := evs + [Replicate(x, y)] + [Receive(msg)], procs[y := q];
  }

  lemma SubmitAt(m: set<Id>, evs: seq<Event>, procs: map<Id, Proc>, flight: multiset<Msg>, x: Id, payload: Payload)
    requires Reached(m, evs, procs, flight) && x in procs
    ensures Reached(m, evs + [Submit(x, payload)], procs[x := procs[x].(raft := Start(procs[x].raft, payload))], flight)
  {
    hide Reached;
    hide Start;
    Quiet(m, evs, procs, flight, Submit(x, payload), procs[x].(raft := Start(procs[x].raft, payload)));
  }

  lemma RestartAt(m: set<Id>, evs: seq<Event>, procs: map<Id, Proc>, flight: multiset<Msg>, x: Id)
    requires Reached(m, evs, procs, flight) && x in procs
    ensures var s := procs[x].raft;
            Reached(m, evs + [Restart(x)], procs[x := Reboot(s.id, s.peers, Persisted(s))], flight)
  {
    hide Reached;
    hide Reboot;
    var s := procs[x].raft;
    Quiet(m, evs, procs, flight, Restart(x), Reboot(s.id, s.peers, Persisted(s)));
  }

  lemma AdvanceAt(m: set<Id>, evs: seq<Event>, procs: map<Id, Proc>, flight: multiset<Msg>, x: Id)
    requires Reached(m, evs, procs, flight) && x in procs
    ensures Reached(m, evs + [Advance(x)], procs[x := procs[x].(raft := AdvanceCommit(procs[x].raft))], flight)
  {
    hide Reached;
    hide AdvanceCommit;
    Quiet(m, evs, procs, flight, Advance(x), procs[x].(raft := AdvanceCommit(procs[x].raft)));
  }

  /** The answer of y reaches leader x. */
  lemma AnswerAt(m: set<Id>, evs: seq<Event>, procs: map<Id, Proc>, flight: multiset<Msg>, x: Id, y: Id,
                 args: AppendEntriesArgs, reply: AppendEntriesReply)
    requires Reached(m, evs, procs, flight) && x in procs && AppendReplyMsg(y, x, args, reply) in flight
    ensures Reached(m, evs + [Receive(AppendReplyMsg(y, x, args, reply))],
                    procs[x := procs[x].(raft := HandleAppendReply(procs[x].raft, y, args, reply))],
                    flight - multiset{AppendReplyMsg(y, x, args, reply)})
  {
    hide Reached;
    hide HandleAppendReply;
    Quiet(m, evs, procs, flight, Receive(AppendReplyMsg(y, x, args, reply)),
          procs[x].(raft := HandleAppendReply(procs[x].raft, y, args, reply)));
  }

  // ---------- The run ----------

  ghost predicate Trio(a: Id, b: Id, c: Id)
  {
    a != b && b != c && a != c && NOBODY !in {a, b, c}
  }

  lemma TwoPeers(a: Id, b: Id, c: Id)
    requires Trio(a, b, c)
    ensures {a, b, c} - {a} == {b, c} && |{b, c}| == 2
    ensures {a, b, c} - {b} == {a, c} && |{a, c}| == 2
    ensures {a, b, c} - {c} == {a, b} && |{a, b}| == 2
  {
  }

  /** A node with nothing but a log, as it is after a start. */
  function Plain(id: Id, peers: set<Id>, term: int, vote: Id, log: seq<Entry>, leader: Id): Node
  {
    Node(id, peers, Follower, term, vote, log, 0, 0, 0, NO_SNAPSHOT, map[], map[], leader, 0, {})
  }

  function P(s: Node): Proc { Proc(s, [], map[], 0) }

  /** The three processes of the run. */
  function Three(a: Id, pa: Proc, b: Id, pb: Proc, c: Id, pc: Proc): map<Id, Proc>
  {
    map[a := pa, b := pb, c := pc]
  }

  lemma FreshStart(n: Id, peers: set<Id>)
    ensures Reboot(n, peers, FRESH_DISK) == P(Plain(n, peers, 0, NOBODY, [SENTINEL], NOBODY))
  {
  }

  lemma Beginning(a: Id, b: Id, c: Id)
    requires Trio(a, b, c)
    ensures Reached({a, b, c}, [],
              Three(a, P(Plain(a, {b, c}, 0, NOBODY, [SENTINEL], NOBODY)),
                    b, P(Plain(b, {a, c}, 0, NOBODY, [SENTINEL], NOBODY)),
                    c, P(Plain(c, {a, b}, 0, NOBODY, [SENTINEL], NOBODY))), multiset{})
  {
    hide Reboot;
    hide Plain;
    hide P;
    TwoPeers(a, b, c);
    FreshStart(a, {b, c});
    FreshStart(b, {a, c});
    FreshStart(c, {a, b});
    var m := {a, b, c};
    var procs := map n | n in m :: Reboot(n, m - {n}, FRESH_DISK);
    assert Run(m, []).cluster.procs == procs;
    assert procs[a] == Reboot(a, {b, c}, FRESH_DISK);
  }

  /** A leader with one more entry ships it to a node that has none. */
  lemma FirstEntry(a: Id, b: Id, c: Id, x1: Payload)
    requires Trio(a, b, c)
    ensures var s := Start(Won(Plain(a, {b, c}, 0, NOBODY, [SENTINEL], NOBODY), 1, b), x1);
            var args := AppendEntriesArgs(1, a, 0, 0, [Entry(1, x1)], 0);
            && PrepareAppend(s, c) == (s, Append(args))
            && Boot(a, {b, c}, Persisted(s)) == Plain(a, {b, c}, 1, a, [SENTINEL, Entry(1, x1)], NOBODY)
            && HandleAppendEntries(Plain(c, {a, b}, 0, NOBODY, [SENTINEL], NOBODY), args).0 ==
               Plain(c, {a, b}, 1, NOBODY, [SENTINEL, Entry(1, x1)], a)
  {
    var s := Start(Won(Plain(a, {b, c}, 0, NOBODY, [SENTINEL], NOBODY), 1, b), x1);
    assert s.log == [SENTINEL, Entry(1, x1)];
    assert s.log[1..] == [Entry(1, x1)];
    assert [SENTINEL] + [Entry(1, x1)][0..] == [SENTINEL, Entry(1, x1)];
  }

  lemma ThreeUpdates(a: Id, pa: Proc, b: Id, pb: Proc, c: Id, pc: Proc, p: Proc)
    requires Trio(a, b, c)
    ensures Three(a, pa, b, pb, c, pc)[a := p] == Three(a, p, b, pb, c, pc)
    ensures Three(a, pa, b, pb, c, pc)[b := p] == Three(a, pa, b, p, c, pc)
    ensures Three(a, pa, b, pb, c, pc)[c := p] == Three(a, pa, b, pb, c, p)
    ensures var t := Three(a, pa, b, pb, c, pc);
            a in t && b in t && c in t && t[a] == pa && t[b] == pb && t[c] == pc
  {
  }

  /** Term 1: a is elected, replicates its first entry to c only, and restarts. */
  lemma TermOne(a: Id, b: Id, c: Id, x1: Payload) returns (evs: seq<Event>)
    requires Trio(a, b, c)
    ensures Reached({a, b, c}, evs,
              Three(a, P(Plain(a, {b, c}, 1, a, [SENTINEL, Entry(1, x1)], NOBODY)),
                    b, P(Plain(b, {a, c}, 1, a, [SENTINEL], NOBODY)),
                    c, P(Plain(c, {a, b}, 1, NOBODY, [SENTINEL, Entry(1, x1)], a))), multiset{})
  {
    TwoPeers(a, b, c);
    Beginning(a, b, c);
    FirstEntry(a, b, c, x1);
    var m := {a, b, c};
    var s0 := Plain(a, {b, c}, 0, NOBODY, [SENTINEL], NOBODY);
    var s1 := Won(s0, 1, b);
    var s2 := Start(s1, x1);
    var b0, b1 := Plain(b, {a, c}, 0, NOBODY, [SENTINEL], NOBODY), Plain(b, {a, c}, 1, a, [SENTINEL], NOBODY);
    var c0 := Plain(c, {a, b}, 0, NOBODY, [SENTINEL], NOBODY);
    var c1 := Plain(c, {a, b}, 1, NOBODY, [SENTINEL, Entry(1, x1)], a);
    var s3 := Plain(a, {b, c}, 1, a, [SENTINEL, Entry(1, x1)], NOBODY);
    assert s2.id == a && s2.peers == {b, c} && s2.snapshot == NO_SNAPSHOT;
    hide Won;
    hide Three;
    hide Start;
    hide PrepareAppend;
    hide HandleAppendEntries;
    hide Boot;
    hide Reached;
    ThreeUpdates(a, P(s0), b, P(b0), c, P(c0), P(s1));
    ThreeUpdates(a, P(s1), b, P(b0), c, P(c0), P(b1));
    ThreeUpdates(a, P(s1), b, P(b1), c, P(c0), P(s2));
    ThreeUpdates(a, P(s2), b, P(b1), c, P(c0), P(c1));
    ThreeUpdates(a, P(s2), b, P(b1), c, P(c1), P(s3));
    hide Trio;
    var e1, p1 := ElectFirst(a, b, c);
    SubmitAt(m, e1, p1, multiset{}, a, x1);
    var args := AppendEntriesArgs(1, a, 0, 0, [Entry(1, x1)], 0);
    var e3, p3 := Ship(m, e1 + [Submit(a, x1)], Three(a, P(s2), b, P(b1), c, P(c0)), multiset{}, a, c, args);
    Fewer(m, e3, p3, multiset{} + multiset{AppendReplyMsg(c, a, args, HandleAppendEntries(c0, args).1)}, multiset{});
    RestartAt(m, e3, p3, multiset{}, a);
    evs := e3 + [Restart(a)];
  }

  lemma ElectFirst(a: Id, b: Id, c: Id) returns (evs: seq<Event>, procs: map<Id, Proc>)
    requires Trio(a, b, c)
    ensures Reached({a, b, c}, evs, procs, multiset{})
    ensures procs == Three(a, P(Won(Plain(a, {b, c}, 0, NOBODY, [SENTINEL], NOBODY), 1, b)),
                           b, P(Plain(b, {a, c}, 1, a, [SENTINEL], NOBODY)),
                           c, P(Plain(c, {a, b}, 0, NOBODY, [SENTINEL], NOBODY)))
  {
    TwoPeers(a, b, c);
    Beginning(a, b, c);
    var s, v := Plain(a, {b, c}, 0, NOBODY, [SENTINEL], NOBODY), Plain(b, {a, c}, 0, NOBODY, [SENTINEL], NOBODY);
    var pc := P(Plain(c, {a, b}, 0, NOBODY, [SENTINEL], NOBODY));
    var w := Plain(b, {a, c}, 1, a, [SENTINEL], NOBODY);
    assert IsUpToDate(v, LastIndex(s), LastTerm(s)) && w == v.(currentTerm := 1, votedFor := a);
    ThreeUpdates(a, P(s), b, P(v), c, pc, P(Won(s, 1, b)));
    ThreeUpdates(a, P(Won(s, 1, b)), b, P(v), c, pc, P(w));
    hide Reached;
    hide Won;
    hide Three;
    hide Trio;
    evs, procs := Elect({a, b, c}, [], Three(a, P(s), b, P(v), c, pc), multiset{}, a, b);
  }

  // ---------- Term 2 ----------

  const REJECTED := AppendEntriesReply(2, false, 1, 0)
  const ACCEPTED := AppendEntriesReply(2, true, 0, 0)

  /** The leader of term 2 as it is elected, after the rejection, with its second entry, and after the acceptance. */
  function Lead0(a: Id, b: Id, c: Id, x1: Payload): Node
  {
    Won(Plain(a, {b, c}, 1, a, [SENTINEL, Entry(1, x1)], NOBODY), 2, b)
  }
  function Lead1(a: Id, b: Id, c: Id, x1: Payload): Node
  {
    Lead0(a, b, c, x1).(nextIndex := Lead0(a, b, c, x1).nextIndex[b := 1])
  }
  function Lead2(a: Id, b: Id, c: Id, x1: Payload, x2: Payload): Node
  {
    var s := Lead1(a, b, c, x1);
    s.(log := [SENTINEL, Entry(1, x1), Entry(2, x2)], matchIndex := s.matchIndex[a := 2], nextIndex := s.nextIndex[a := 3])
  }
  function Lead3(a: Id, b: Id, c: Id, x1: Payload, x2: Payload): Node
  {
    var s := Lead2(a, b, c, x1, x2);
    s.(matchIndex := s.matchIndex[b := 2], nextIndex := s.nextIndex[b := 3], commitIndex := 2)
  }

  function Probe(a: Id): AppendEntriesArgs { AppendEntriesArgs(2, a, 1, 1, [], 0) }

  /** The answer to a probe. */
  function Refusal(a: Id, b: Id): Msg { AppendReplyMsg(b, a, Probe(a), REJECTED) }

  function Both(a: Id, x1: Payload, x2: Payload): AppendEntriesArgs
  {
    AppendEntriesArgs(2, a, 0, 0, [Entry(1, x1), Entry(2, x2)], 0)
  }

  lemma ProbeIsRejected(a: Id, b: Id, c: Id, x1: Payload)
    requires Trio(a, b, c)
    ensures var s := Lead0(a, b, c, x1);
            && PrepareAppend(s, b) == (s, Append(Probe(a)))
            && HandleAppendEntries(Plain(b, {a, c}, 2, a, [SENTINEL], NOBODY), Probe(a)) ==
               (Plain(b, {a, c}, 2, a, [SENTINEL], a), REJECTED)
            && HandleAppendEntries(Plain(b, {a, c}, 2, a, [SENTINEL], a), Probe(a)) ==
               (Plain(b, {a, c}, 2, a, [SENTINEL], a), REJECTED)
            && HandleAppendReply(s, b, Probe(a), REJECTED) == Lead1(a, b, c, x1)
  {
    var s := Lead0(a, b, c, x1);
    assert s.log[2..] == [];
  }

  lemma BothAreAccepted(a: Id, b: Id, c: Id, x1: Payload, x2: Payload)
    requires Trio(a, b, c)
    ensures var s := Lead2(a, b, c, x1, x2);
            && Start(Lead1(a, b, c, x1), x2) == s
            && PrepareAppend(s, b) == (s, Append(Both(a, x1, x2)))
            && HandleAppendEntries(Plain(b, {a, c}, 2, a, [SENTINEL], a), Both(a, x1, x2)) ==
               (Plain(b, {a, c}, 2, a, [SENTINEL, Entry(1, x1), Entry(2, x2)], a), ACCEPTED)
  {
    var s := Lead2(a, b, c, x1, x2);
    assert [SENTINEL, Entry(1, x1)] + [Entry(2, x2)] == s.log;
    assert s.log[1..] == [Entry(1, x1), Entry(2, x2)];
    assert [SENTINEL] + Both(a, x1, x2).entries[0..] == s.log;
  }

  lemma MajorityCommits(a: Id, b: Id, c: Id, x1: Payload, x2: Payload)
    requires Trio(a, b, c)
    ensures AdvanceCommit(HandleAppendReply(Lead2(a, b, c, x1, x2), b, Both(a, x1, x2), ACCEPTED)) == Lead3(a, b, c, x1, x2)
  {
    TwoPeers(a, b, c);
    var s := HandleAppendReply(Lead2(a, b, c, x1, x2), b, Both(a, x1, x2), ACCEPTED);
    assert b in Holders(s, 2);
    SubsetSize({b}, Holders(s, 2));
    assert Committable(s, 2);
    assert CommitPoint(s, 2) == 2;
  }

  /** Term 2: a is elected again, and two probes of b are rejected; after the first rejection b acknowledges both entries and
      they commit. The second rejection is still on its way. */
  lemma TermTwo(a: Id, b: Id, c: Id, x1: Payload, x2: Payload) returns (evs: seq<Event>)
    requires Trio(a, b, c)
    ensures Reached({a, b, c}, evs,
              Three(a, P(Lead3(a, b, c, x1, x2)),
                    b, P(Plain(b, {a, c}, 2, a, [SENTINEL, Entry(1, x1), Entry(2, x2)], a)),
                    c, P(Plain(c, {a, b}, 1, NOBODY, [SENTINEL, Entry(1, x1)], a))), multiset{Refusal(a, b)})
  {
    var m := {a, b, c};
    var b1 := Plain(b, {a, c}, 2, a, [SENTINEL], a);
    var b2 := Plain(b, {a, c}, 2, a, [SENTINEL, Entry(1, x1), Entry(2, x2)], a);
    var c1 := P(Plain(c, {a, b}, 1, NOBODY, [SENTINEL, Entry(1, x1)], a));
    var l1, l2 := Lead1(a, b, c, x1), Lead2(a, b, c, x1, x2);
    var l3 := HandleAppendReply(l2, b, Both(a, x1, x2), ACCEPTED);
    BothAreAccepted(a, b, c, x1, x2);
    MajorityCommits(a, b, c, x1, x2);
    ThreeUpdates(a, P(l1), b, P(b1), c, c1, P(l2));
    ThreeUpdates(a, P(l2), b, P(b1), c, c1, P(b2));
    ThreeUpdates(a, P(l2), b, P(b2), c, c1, P(l3));
    ThreeUpdates(a, P(l3), b, P(b2), c, c1, P(Lead3(a, b, c, x1, x2)));
    assert l2.id == a && l2.peers == {b, c};
    hide Lead1;
    hide Lead2;
    hide Lead3;
    hide Three;
    hide Start;
    hide PrepareAppend;
    hide HandleAppendEntries;
    hide HandleAppendReply;
    hide AdvanceCommit;
    hide Reached;
    var e1 := TermTwoProbe(a, b, c, x1);
    hide Trio;
    var flight, answer := multiset{Refusal(a, b)}, AppendReplyMsg(b, a, Both(a, x1, x2), ACCEPTED);
    SubmitAt(m, e1, Three(a, P(l1), b, P(b1), c, c1), flight, a, x2);
    var e2, p2 := Ship(m, e1 + [Submit(a, x2)], Three(a, P(l2), b, P(b1), c, c1), flight, a, b, Both(a, x1, x2));
    AnswerAt(m, e2, p2, flight + multiset{answer}, a, b, Both(a, x1, x2), ACCEPTED);
    assert flight + multiset{answer} - multiset{answer} == flight;
    var e3 := e2 + [Receive(answer)];
    AdvanceAt(m, e3, Three(a, P(l3), b, P(b2), c, c1), flight, a);
    evs := e3 + [Advance(a)];
  }

  lemma TermTwoProbe(a: Id, b: Id, c: Id, x1: Payload) returns (evs: seq<Event>)
    requires Trio(a, b, c)
    ensures Reached({a, b, c}, evs,
              Three(a, P(Lead1(a, b, c, x1)), b, P(Plain(b, {a, c}, 2, a, [SENTINEL], a)),
                    c, P(Plain(c, {a, b}, 1, NOBODY, [SENTINEL, Entry(1, x1)], a))), multiset{Refusal(a, b)})
  {
    var m := {a, b, c};
    var b1, b2 := Plain(b, {a, c}, 2, a, [SENTINEL], NOBODY), Plain(b, {a, c}, 2, a, [SENTINEL], a);
    var c1 := P(Plain(c, {a, b}, 1, NOBODY, [SENTINEL, Entry(1, x1)], a));
    var l0, l1 := Lead0(a, b, c, x1), Lead1(a, b, c, x1);
    ProbeIsRejected(a, b, c, x1);
    ThreeUpdates(a, P(l0), b, P(b1), c, c1, P(b2));
    ThreeUpdates(a, P(l0), b, P(b2), c, c1, P(b2));
    ThreeUpdates(a, P(l0), b, P(b2), c, c1, P(l1));
    assert l0.id == a && l0.peers == {b, c};
    hide Lead0;
    hide Lead1;
    hide Three;
    hide PrepareAppend;
    hide HandleAppendEntries;
    hide HandleAppendReply;
    hide Reached;
    var e1 := ElectSecond(a, b, c, x1);
    hide Trio;
    var flight := multiset{Refusal(a, b)};
    var e2, p2 := Ship(m, e1, Three(a, P(l0), b, P(b1), c, c1), multiset{}, a, b, Probe(a));
    assert multiset{} + flight == flight;
    var e3, p3 := Ship(m, e2, Three(a, P(l0), b, P(b2), c, c1), flight, a, b, Probe(a));
    AnswerAt(m, e3, Three(a, P(l0), b, P(b2), c, c1), flight + flight, a, b, Probe(a), REJECTED);
    assert flight + flight - flight == flight;
    evs := e3 + [Receive(Refusal(a, b))];
  }

  lemma ElectSecond(a: Id, b: Id, c: Id, x1: Payload) returns (evs: seq<Event>)
    requires Trio(a, b, c)
    ensures Reached({a, b, c}, evs,
              Three(a, P(Lead0(a, b, c, x1)), b, P(Plain(b, {a, c}, 2, a, [SENTINEL], NOBODY)),
                    c, P(Plain(c, {a, b}, 1, NOBODY, [SENTINEL, Entry(1, x1)], a))), multiset{})
  {
    TwoPeers(a, b, c);
    var pa := P(Plain(a, {b, c}, 1, a, [SENTINEL, Entry(1, x1)], NOBODY));
    var pb := P(Plain(b, {a, c}, 1, a, [SENTINEL], NOBODY));
    var pc := P(Plain(c, {a, b}, 1, NOBODY, [SENTINEL, Entry(1, x1)], a));
    ThreeUpdates(a, pa, b, pb, c, pc, P(Lead0(a, b, c, x1)));
    ThreeUpdates(a, P(Lead0(a, b, c, x1)), b, pb, c, pc, P(Plain(b, {a, c}, 2, a, [SENTINEL], NOBODY)));
    assert IsUpToDate(pb.raft, LastIndex(pa.raft), LastTerm(pa.raft));
    hide Reached;
    hide Won;
    hide Three;
    var e1 := TermOne(a, b, c, x1);
    var procs;
    evs, procs := Elect({a, b, c}, e1, Three(a, pa, b, pb, c, pc), multiset{}, a, b);
  }

  // ---------- The snapshot ----------

  /** The leader after it applied its first entry and compacted its log there, and after the second rejection came. */
  function Lead4(a: Id, b: Id, c: Id, x1: Payload, x2: Payload): Node
  {
    Lead3(a, b, c, x1, x2).(lastApplied := 1, logOffset := 1, log := [Entry(1, Undecodable), Entry(2, x2)],
                            snapshot := Snapshot(1, 1, ApplyPayload(map[], x1)))
  }
  function Lead5(a: Id, b: Id, c: Id, x1: Payload, x2: Payload): Node
  {
    Lead4(a, b, c, x1, x2).(nextIndex := Lead4(a, b, c, x1, x2).nextIndex[b := 1])
  }

  function Served(s: Node, x1: Payload): Proc { Proc(s, [], ApplyPayload(map[], x1), 1) }

  function Image1(a: Id, x1: Payload): InstallSnapshotArgs
  {
    InstallSnapshotArgs(2, a, 1, 1, ApplyPayload(map[], x1))
  }

  /** The follower after the install: its second entry is gone. */
  function Cut(b: Id, a: Id, c: Id, x1: Payload): Node
  {
    Plain(b, {a, c}, 2, a, [Entry(1, Undecodable)], a).(
      logOffset := 1, commitIndex := 1, lastApplied := 1, snapshot := Snapshot(1, 1, ApplyPayload(map[], x1)))
  }

  function CutProc(b: Id, a: Id, c: Id, x1: Payload): Proc
  {
    Proc(Cut(b, a, c, x1), [SnapshotMsg(1, ApplyPayload(map[], x1))], map[], 0)
  }

  lemma LeaderCompacts(a: Id, b: Id, c: Id, x1: Payload, x2: Payload)
    requires Trio(a, b, c)
    ensures var p := P(Lead3(a, b, c, x1, x2));
            var q := Proc(p.raft.(lastApplied := 1), [EntryMsg(1, x1)], map[], 0);
            && Act(p, ApplyOne(a)) == (q, {})
            && Act(q, Consume(a)) == (Served(q.raft, x1), {})
            && Act(Served(q.raft, x1), CompactLog(a)) == (Served(Lead4(a, b, c, x1, x2), x1), {})
  {
    var p := P(Lead3(a, b, c, x1, x2));
    assert [EntryMsg(1, x1)][1..] == [];
    assert p.queue + [EntryMsg(1, x1)] == [EntryMsg(1, x1)];
    assert p.raft.log[2..] == [Entry(2, x2)];
    assert [Entry(1, Undecodable)] + [Entry(2, x2)] == Lead4(a, b, c, x1, x2).log;
  }

  /** The stale rejection puts the peer behind the compaction point, so the leader's next attempt is a snapshot, and it is
      one that drops a shared tail. */
  lemma SnapshotIsStale(a: Id, b: Id, c: Id, x1: Payload, x2: Payload)
    requires Trio(a, b, c)
    ensures var s := Lead5(a, b, c, x1, x2);
            var f := Plain(b, {a, c}, 2, a, [SENTINEL, Entry(1, x1), Entry(2, x2)], a);
            && HandleAppendReply(Lead4(a, b, c, x1, x2), b, Probe(a), REJECTED) == s
            && PrepareAppend(s, b) == (s, Behind)
            && PrepareSnapshot(s) == Image1(a, x1)
            && DropsSharedTail(f, Image1(a, x1))
            && ReceiveMsg(P(f), InstallMsg(a, b, Image1(a, x1))).0 == CutProc(b, a, c, x1)
  {
  }

  /** What the leader of term 2 is left with, and what the leader of term 3 will have. */
  lemma LastShapes(a: Id, b: Id, c: Id, x1: Payload, x2: Payload, y2: Payload)
    ensures var s := Lead5(a, b, c, x1, x2);
            && s.id == a && s.peers == {b, c} && s.role == Leader && s.currentTerm == 2
            && s.commitIndex == 2 && s.logOffset == 1 && LastIndex(s) == 2 && EntryAt(s, 2) == Entry(2, x2)
    ensures var r := Next2(a, b, c, x1, y2);
            && r.role == Leader && r.currentTerm == 3
            && r.commitIndex == 2 && r.logOffset == 1 && LastIndex(r) == 2 && EntryAt(r, 2) == Entry(3, y2)
  {
  }

  /** The snapshot reaches follower b. */
  lemma StaleInstall(a: Id, b: Id, c: Id, x1: Payload, x2: Payload, e0: seq<Event>, pb: Proc, pc: Proc)
    returns (evs: seq<Event>)
    requires Trio(a, b, c)
    requires Reached({a, b, c}, e0, Three(a, P(Lead3(a, b, c, x1, x2)), b, pb, c, pc), multiset{Refusal(a, b)})
    ensures Reached({a, b, c}, evs,
              Three(a, Served(Lead5(a, b, c, x1, x2), x1), b, ReceiveMsg(pb, InstallMsg(a, b, Image1(a, x1))).0, c, pc),
              multiset{})
  {
    hide Lead3;
    hide Lead5;
    hide Three;
    hide PrepareAppend;
    hide PrepareSnapshot;
    hide ReceiveMsg;
    hide Reached;
    var m := {a, b, c};
    var p5 := Served(Lead5(a, b, c, x1, x2), x1);
    var msg := InstallMsg(a, b, Image1(a, x1));
    var (qb, out) := ReceiveMsg(pb, msg);
    var e1 := Behindhand(a, b, c, x1, x2, e0, pb, pc);
    SnapshotIsStale(a, b, c, x1, x2);
    LastShapes(a, b, c, x1, x2, x2);
    ThreeUpdates(a, p5, b, pb, c, pc, p5);
    ThreeUpdates(a, p5, b, pb, c, pc, qb);
    hide Trio;
    var procs := Three(a, p5, b, pb, c, pc);
    Quiet(m, e1, procs, multiset{}, Replicate(a, b), p5);
    var e2 := e1 + [Replicate(a, b)];
    Go(m, e2, procs, multiset{}, SendSnapshot(a, b));
    var e3 := e2 + [SendSnapshot(a, b)];
    assert multiset{} - multiset{} + multiset({msg}) == multiset{msg};
    Go(m, e3, procs, multiset{msg}, Receive(msg));
    evs := e3 + [Receive(msg)];
    Fewer(m, evs, Three(a, p5, b, qb, c, pc), multiset{msg} - multiset{msg} + multiset(out), multiset{});
  }

  /** a applies its first entry, compacts, and takes the second rejection. */
  lemma Behindhand(a: Id, b: Id, c: Id, x1: Payload, x2: Payload, e0: seq<Event>, pb: Proc, pc: Proc)
    returns (evs: seq<Event>)
    requires Trio(a, b, c)
    requires Reached({a, b, c}, e0, Three(a, P(Lead3(a, b, c, x1, x2)), b, pb, c, pc), multiset{Refusal(a, b)})
    ensures Reached({a, b, c}, evs, Three(a, Served(Lead5(a, b, c, x1, x2), x1), b, pb, c, pc), multiset{})
  {
    hide Lead3;
    hide Lead4;
    hide Lead5;
    hide Three;
    hide Act;
    hide HandleAppendReply;
    hide PrepareAppend;
    hide DropsSharedTail;
    hide Reached;
    var m := {a, b, c};
    var p0 := P(Lead3(a, b, c, x1, x2));
    var p1 := Proc(p0.raft.(lastApplied := 1), [EntryMsg(1, x1)], map[], 0);
    var p2 := Served(p1.raft, x1);
    var p3 := Served(Lead4(a, b, c, x1, x2), x1);
    var p4 := Served(Lead5(a, b, c, x1, x2), x1);
    LeaderCompacts(a, b, c, x1, x2);
    SnapshotIsStale(a, b, c, x1, x2);
    ThreeUpdates(a, p0, b, pb, c, pc, p1);
    ThreeUpdates(a, p1, b, pb, c, pc, p2);
    ThreeUpdates(a, p2, b, pb, c, pc, p3);
    ThreeUpdates(a, p3, b, pb, c, pc, p4);
    hide Trio;
    var flight := multiset{Refusal(a, b)};
    Quiet(m, e0, Three(a, p0, b, pb, c, pc), flight, ApplyOne(a), p1);
    var e1 := e0 + [ApplyOne(a)];
    Quiet(m, e1, Three(a, p1, b, pb, c, pc), flight, Consume(a), p2);
    var e2 := e1 + [Consume(a)];
    Quiet(m, e2, Three(a, p2, b, pb, c, pc), flight, CompactLog(a), p3);
    var e3 := e2 + [CompactLog(a)];
    AnswerAt(m, e3, Three(a, p3, b, pb, c, pc), flight, a, b, Probe(a), REJECTED);
    assert flight - flight == multiset{};
    evs := e3 + [Receive(Refusal(a, b))];
  }

  // ---------- Term 3 ----------

  const ACCEPTED3 := AppendEntriesReply(3, true, 0, 0)

  function Next0(a: Id, b: Id, c: Id, x1: Payload): Node { Won(Cut(b, a, c, x1), 3, c) }

  function Next1(a: Id, b: Id, c: Id, x1: Payload, y2: Payload): Node
  {
    var s := Next0(a, b, c, x1);
    s.(log := [Entry(1, Undecodable), Entry(3, y2)], matchIndex := s.matchIndex[b := 2], nextIndex := s.nextIndex[b := 3])
  }
  function Next2(a: Id, b: Id, c: Id, x1: Payload, y2: Payload): Node
  {
    var s := Next1(a, b, c, x1, y2);
    s.(matchIndex := s.matchIndex[c := 2], nextIndex := s.nextIndex[c := 3], commitIndex := 2)
  }

  function Other(b: Id, y2: Payload): AppendEntriesArgs { AppendEntriesArgs(3, b, 1, 1, [Entry(3, y2)], 1) }

  lemma OtherIsAccepted(a: Id, b: Id, c: Id, x1: Payload, y2: Payload)
    requires Trio(a, b, c)
    ensures var s := Next1(a, b, c, x1, y2);
            var f := Plain(c, {a, b}, 3, b, [SENTINEL, Entry(1, x1)], a);
            && Start(Next0(a, b, c, x1), y2) == s
            && PrepareAppend(s, c) == (s, Append(Other(b, y2)))
            && HandleAppendEntries(f, Other(b, y2)).1 == ACCEPTED3
  {
    var s := Next1(a, b, c, x1, y2);
    assert [Entry(1, Undecodable)] + [Entry(3, y2)] == s.log;
    assert s.log[1..] == [Entry(3, y2)];
  }

  lemma OtherCommits(a: Id, b: Id, c: Id, x1: Payload, y2: Payload)
    requires Trio(a, b, c)
    ensures AdvanceCommit(HandleAppendReply(Next1(a, b, c, x1, y2), c, Other(b, y2), ACCEPTED3)) == Next2(a, b, c, x1, y2)
  {
    TwoPeers(a, b, c);
    var s := HandleAppendReply(Next1(a, b, c, x1, y2), c, Other(b, y2), ACCEPTED3);
    assert c in Holders(s, 2);
    SubsetSize({c}, Holders(s, 2));
    assert Committable(s, 2);
    assert CommitPoint(s, 2) == 2;
  }

  lemma ElectThird(a: Id, b: Id, c: Id, x1: Payload, x2: Payload) returns (evs: seq<Event>)
    requires Trio(a, b, c)
    ensures Reached({a, b, c}, evs,
              Three(a, Served(Lead5(a, b, c, x1, x2), x1), b, CutProc(b, a, c, x1).(raft := Next0(a, b, c, x1)),
                    c, P(Plain(c, {a, b}, 3, b, [SENTINEL, Entry(1, x1)], a))), multiset{})
  {
    TwoPeers(a, b, c);
    var pa, pb := Served(Lead5(a, b, c, x1, x2), x1), CutProc(b, a, c, x1);
    var pc := P(Plain(c, {a, b}, 1, NOBODY, [SENTINEL, Entry(1, x1)], a));
    var qb := pb.(raft := Next0(a, b, c, x1));
    var qc := P(Plain(c, {a, b}, 3, b, [SENTINEL, Entry(1, x1)], a));
    ThreeUpdates(a, pa, b, pb, c, pc, qb);
    ThreeUpdates(a, pa, b, qb, c, pc, qc);
    assert IsUpToDate(pc.raft, LastIndex(pb.raft), LastTerm(pb.raft));
    hide Lead5;
    hide Reached;
    hide Won;
    hide Three;
    hide CutProc;
    var e0 := TermTwo(a, b, c, x1, x2);
    var f := P(Plain(b, {a, c}, 2, a, [SENTINEL, Entry(1, x1), Entry(2, x2)], a));
    SnapshotIsStale(a, b, c, x1, x2);
    var e1 := StaleInstall(a, b, c, x1, x2, e0, f, pc);
    var procs;
    evs, procs := Elect({a, b, c}, e1, Three(a, pa, b, pb, c, pc), multiset{}, b, c);
  }

  /** The whole run: afterwards both a and b have committed through index 2. */
  lemma TheRun(a: Id, b: Id, c: Id, x1: Payload, x2: Payload, y2: Payload)
    returns (evs: seq<Event>, pb: Proc, pc: Proc)
    requires Trio(a, b, c)
    ensures pb.raft == Next2(a, b, c, x1, y2)
    ensures Reached({a, b, c}, evs, Three(a, Served(Lead5(a, b, c, x1, x2), x1), b, pb, c, pc), multiset{})
  {
    var m := {a, b, c};
    var pa := Served(Lead5(a, b, c, x1, x2), x1);
    var b0 := CutProc(b, a, c, x1).(raft := Next0(a, b, c, x1));
    var b1 := b0.(raft := Next1(a, b, c, x1, y2));
    var b2 := b0.(raft := HandleAppendReply(b1.raft, c, Other(b, y2), ACCEPTED3));
    var c0 := P(Plain(c, {a, b}, 3, b, [SENTINEL, Entry(1, x1)], a));
    pb := b0.(raft := Next2(a, b, c, x1, y2));
    pc := P(HandleAppendEntries(c0.raft, Other(b, y2)).0);
    OtherIsAccepted(a, b, c, x1, y2);
    OtherCommits(a, b, c, x1, y2);
    ThreeUpdates(a, pa, b, b0, c, c0, b1);
    ThreeUpdates(a, pa, b, b1, c, c0, pc);
    ThreeUpdates(a, pa, b, b1, c, pc, b2);
    ThreeUpdates(a, pa, b, b2, c, pc, pb);
    assert b1.raft.id == b && b1.raft.peers == {a, c};
    hide Lead5;
    hide Cut;
    hide Three;
    hide Next0;
    hide Next1;
    hide Next2;
    hide Start;
    hide PrepareAppend;
    hide HandleAppendEntries;
    hide HandleAppendReply;
    hide AdvanceCommit;
    hide Reached;
    var e1 := ElectThird(a, b, c, x1, x2);
    hide Trio;
    var answer := AppendReplyMsg(c, b, Other(b, y2), ACCEPTED3);
    SubmitAt(m, e1, Three(a, pa, b, b0, c, c0), multiset{}, b, y2);
    var e2, p2 := Ship(m, e1 + [Submit(b, y2)], Three(a, pa, b, b1, c, c0), multiset{}, b, c, Other(b, y2));
    assert multiset{} + multiset{answer} == multiset{answer};
    AnswerAt(m, e2, p2, multiset{answer}, b, c, Other(b, y2), ACCEPTED3);
    assert multiset{answer} - multiset{answer} == multiset{};
    var e3 := e2 + [Receive(answer)];
    AdvanceAt(m, e3, Three(a, pa, b, b2, c, pc), multiset{}, b);
    evs := e3 + [Advance(b)];
  }

  /** State Machine Safety and Leader Completeness fail without the guard, in every cluster of three and for any commands:
      a committed x2 at index 2 as leader of term 2, b leads term 3 without it, and b has committed y2 at index 2. No
      message is received more often than it was sent. */
  lemma UnguardedRunBreaksSafety(a: Id, b: Id, c: Id, x1: Payload, x2: Payload, y2: Payload) returns (evs: seq<Event>)
    requires Trio(a, b, c)
    ensures Membership({a, b, c}) && !Guarded({a, b, c}, evs) && OnceEach({a, b, c}, evs)
    ensures var procs := Run({a, b, c}, evs).cluster.procs;
            && a in procs && b in procs
            && var s, r := procs[a].raft, procs[b].raft;
               && s.role == Leader && s.currentTerm == 2 && s.commitIndex == 2 && s.logOffset < 2 <= LastIndex(s)
               && EntryAt(s, 2) == Entry(2, x2)
               && r.role == Leader && r.currentTerm == 3 && r.commitIndex == 2 && r.logOffset < 2 <= LastIndex(r)
               && EntryAt(r, 2) == Entry(3, y2)
  {
    hide Lead5;
    hide Next2;
    hide Three;
    hide Run;
    hide Guarded;
    hide OnceEach;
    hide InFlight;
    var pb, pc;
    evs, pb, pc := TheRun(a, b, c, x1, x2, y2);
    LastShapes(a, b, c, x1, x2, y2);
    ThreeUpdates(a, Served(Lead5(a, b, c, x1, x2), x1), b, pb, c, pc, pc);
    if Guarded({a, b, c}, evs) {
      Disagreement({a, b, c}, evs, a, b);
    }
  }

  lemma Disagreement(m: set<Id>, evs: seq<Event>, a: Id, b: Id)
    requires Membership(m) && a in m && b in m && Guarded(m, evs)
    requires a in Run(m, evs).cluster.procs && b in Run(m, evs).cluster.procs
    ensures var s, r := Run(m, evs).cluster.procs[a].raft, Run(m, evs).cluster.procs[b].raft;
            s.commitIndex == 2 == r.commitIndex && s.logOffset < 2 <= LastIndex(s) && r.logOffset < 2 <= LastIndex(r) ==>
              EntryAt(s, 2) == EntryAt(r, 2)
  {
    assert evs[..|evs|] == evs;
    StateMachineSafety(m, evs, |evs|, |evs|, a, b, 2);
  }

  // ---------- A commit index past the log ----------

  /** What tells b that both entries are committed. */
  function Heartbeat(a: Id): AppendEntriesArgs { AppendEntriesArgs(2, a, 2, 2, [], 2) }

  /** b with both entries, before and after it knows them committed. */
  function Full(a: Id, b: Id, c: Id, x1: Payload, x2: Payload): Node
  {
    Plain(b, {a, c}, 2, a, [SENTINEL, Entry(1, x1), Entry(2, x2)], a)
  }
  function FullCommitted(a: Id, b: Id, c: Id, x1: Payload, x2: Payload): Node
  {
    Full(a, b, c, x1, x2).(commitIndex := 2)
  }

  lemma HeartbeatCommits(a: Id, b: Id, c: Id, x1: Payload, x2: Payload)
    requires Trio(a, b, c)
    ensures var s := Lead3(a, b, c, x1, x2);
            && s.id == a && s.peers == {b, c} && PrepareAppend(s, b) == (s, Append(Heartbeat(a)))
    ensures HandleAppendEntries(Full(a, b, c, x1, x2), Heartbeat(a)).0 == FullCommitted(a, b, c, x1, x2)
  {
    assert Lead3(a, b, c, x1, x2).log[3..] == [];
  }

  lemma InstallBelowCommit(a: Id, b: Id, c: Id, x1: Payload, x2: Payload)
    requires Trio(a, b, c)
    ensures var f := ReceiveMsg(P(FullCommitted(a, b, c, x1, x2)), InstallMsg(a, b, Image1(a, x1))).0.raft;
            && f.role == Follower && f.currentTerm == 2 && f.commitIndex == 2 && LastIndex(f) == 1 && ApplyNext(f).Stuck?
    ensures var s := Lead5(a, b, c, x1, x2); b in s.matchIndex && s.matchIndex[b] == 2
  {
  }

  lemma Committing(a: Id, b: Id, c: Id, x1: Payload, x2: Payload, pc: Proc, e0: seq<Event>) returns (evs: seq<Event>)
    requires Trio(a, b, c)
    requires Reached({a, b, c}, e0,
               Three(a, P(Lead3(a, b, c, x1, x2)), b, P(Full(a, b, c, x1, x2)), c, pc), multiset{Refusal(a, b)})
    ensures Reached({a, b, c}, evs,
              Three(a, P(Lead3(a, b, c, x1, x2)), b, P(FullCommitted(a, b, c, x1, x2)), c, pc), multiset{Refusal(a, b)})
  {
    hide Lead3;
    hide Full;
    hide FullCommitted;
    hide Three;
    hide PrepareAppend;
    hide HandleAppendEntries;
    hide Reached;
    var pa, f, g := P(Lead3(a, b, c, x1, x2)), Full(a, b, c, x1, x2), P(FullCommitted(a, b, c, x1, x2));
    HeartbeatCommits(a, b, c, x1, x2);
    ThreeUpdates(a, pa, b, P(f), c, pc, g);
    hide Trio;
    var procs;
    evs, procs := Ship({a, b, c}, e0, Three(a, pa, b, P(f), c, pc), multiset{Refusal(a, b)}, a, b, Heartbeat(a));
    Fewer({a, b, c}, evs, procs,
          multiset{Refusal(a, b)} + multiset{AppendReplyMsg(b, a, Heartbeat(a), HandleAppendEntries(f, Heartbeat(a)).1)},
          multiset{Refusal(a, b)});
  }

  /** The run that ends with the stale snapshot at a follower that has committed past it. */
  lemma CutRun(a: Id, b: Id, c: Id, x1: Payload, x2: Payload) returns (evs: seq<Event>, pc: Proc)
    requires Trio(a, b, c)
    ensures Reached({a, b, c}, evs,
              Three(a, Served(Lead5(a, b, c, x1, x2), x1),
                    b, ReceiveMsg(P(FullCommitted(a, b, c, x1, x2)), InstallMsg(a, b, Image1(a, x1))).0, c, pc), multiset{})
  {
    hide Lead3;
    hide Lead5;
    hide FullCommitted;
    hide Three;
    hide Reached;
    hide ReceiveMsg;
    hide Trio;
    pc := P(Plain(c, {a, b}, 1, NOBODY, [SENTINEL, Entry(1, x1)], a));
    var e0 := TermTwo(a, b, c, x1, x2);
    var e1 := Committing(a, b, c, x1, x2, pc, e0);
    evs := StaleInstall(a, b, c, x1, x2, e1, P(FullCommitted(a, b, c, x1, x2)), pc);
  }

  /** The other guarded properties fail without the guard, too: follower b is left with a commit index past the end of its
      log, where applying the next entry panics, in the term of leader a, which still holds matchIndex[b] == 2. */
  lemma UnguardedRunBreaksTheNode(a: Id, b: Id, c: Id, x1: Payload, x2: Payload) returns (evs: seq<Event>)
    requires Trio(a, b, c)
    ensures Membership({a, b, c}) && !Guarded({a, b, c}, evs) && OnceEach({a, b, c}, evs)
    ensures var sys := Run({a, b, c}, evs);
            && a in sys.cluster.procs && b in sys.cluster.procs && b in sys.hist.full
            && var s, r := sys.cluster.procs[a].raft, sys.cluster.procs[b].raft;
               && r.commitIndex == 2 > LastIndex(r) == 1 == |sys.hist.full[b]| - 1
               && ApplyNext(r).Stuck?
               && s.role == Leader && s.currentTerm == 2 == r.currentTerm && Lookup(s.matchIndex, b) == 2
  {
    hide Lead5;
    hide FullCommitted;
    hide Three;
    hide Run;
    hide Guarded;
    hide OnceEach;
    hide InFlight;
    hide Inv;
    hide ReceiveMsg;
    hide ApplyNext;
    var m := {a, b, c};
    var pc;
    evs, pc := CutRun(a, b, c, x1, x2);
    var pa := Served(Lead5(a, b, c, x1, x2), x1);
    var pb := ReceiveMsg(P(FullCommitted(a, b, c, x1, x2)), InstallMsg(a, b, Image1(a, x1))).0;
    LastShapes(a, b, c, x1, x2, x2);
    InstallBelowCommit(a, b, c, x1, x2);
    ThreeUpdates(a, pa, b, pb, c, pc, pc);
    RunInv(m, evs);
    FullLength(Run(m, evs), b);
    if Guarded(m, evs) {
      NodeInvariant(m, evs, b);
    }
  }

  lemma FullLength(sys: System, n: Id)
    requires Inv(sys) && n in sys.cluster.procs
    ensures n in sys.hist.full && |sys.hist.full[n]| == LastIndex(sys.cluster.procs[n].raft) + 1
  {
  }
}

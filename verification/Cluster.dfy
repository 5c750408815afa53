/** A cluster of nodes over a network that may lose, delay, duplicate and reorder messages, with crashes and restarts.

    One event is one critical section of one node, or one message taken by its apply loop. A message once sent can be
    received any number of times, in any order, or never. An election timeout may happen at any time. */
module Cluster {
  import opened Kv
  import opened RaftTypes
  import opened Handlers
  import opened Ledger

  /** A reply travels with the request it answers, as the remote procedure call does. */
  datatype Msg =
    | RequestVoteMsg(from: Id, to: Id, vote: RequestVoteArgs)
    | VoteReplyMsg(from: Id, to: Id, vote: RequestVoteArgs, voteReply: RequestVoteReply)
    | AppendMsg(from: Id, to: Id, append: AppendEntriesArgs)
    | AppendReplyMsg(from: Id, to: Id, append: AppendEntriesArgs, appendReply: AppendEntriesReply)
    | InstallMsg(from: Id, to: Id, install: InstallSnapshotArgs)
    | InstallReplyMsg(from: Id, to: Id, install: InstallSnapshotArgs, installReply: InstallSnapshotReply)

  /** A server process: its Raft node, the messages on its apply channel, its store, and the index of the last message
      its apply loop took. */
  datatype Proc = Proc(raft: Node, queue: seq<ApplyMsg>, store: Image, applied: int)

  datatype Cluster = Cluster(procs: map<Id, Proc>, msgs: set<Msg>)

  datatype Event =
    | Timeout(id: Id)
    | LoneWin(id: Id)
    | Receive(msg: Msg)
    | Submit(id: Id, payload: Payload)
    | Replicate(id: Id, peer: Id)
    | SendSnapshot(id: Id, peer: Id)
    | Advance(id: Id)
    | ApplyOne(id: Id)
    | Consume(id: Id)
    | CompactLog(id: Id)
    | Restart(id: Id)

  function Actor(ev: Event): Id
  {
    match ev
    case Receive(m) => m.to
    case _ => ev.id
  }

  /** A vote reply is waited for once per peer and election; a lone node finishes the election it started. */
  predicate Enabled(c: Cluster, ev: Event)
  {
    Actor(ev) in c.procs &&
    var s := c.procs[Actor(ev)].raft;
    match ev
    case LoneWin(_) => QuorumSize(s) == 1 && s.role == Candidate
    case Receive(m) =>
      && m in c.msgs
      && (m.VoteReplyMsg? && s.role == Candidate && s.currentTerm == m.vote.term ==> m.from in s.awaiting)
    case Replicate(_, peer) => peer in s.peers
    case SendSnapshot(_, peer) => peer in s.peers && s.role == Leader
    case Consume(id) => c.procs[id].queue != []
    case _ => true
  }

  // ---------- What the process does ----------

  function ReceiveMsg(p: Proc, m: Msg): (Proc, set<Msg>)
  {
    var s := p.raft;
    match m
    case RequestVoteMsg(from, to, a) =>
      var (s', reply) := HandleRequestVote(s, a);
      (p.(raft := s'), {VoteReplyMsg(to, from, a, reply)})
    case VoteReplyMsg(from, _, a, reply) => (p.(raft := HandleVoteReply(s, from, a.term, reply)), {})
    case AppendMsg(from, to, a) =>
      var (s', reply) := HandleAppendEntries(s, a);
      (p.(raft := s'), {AppendReplyMsg(to, from, a, reply)})
    case AppendReplyMsg(from, _, a, reply) => (p.(raft := HandleAppendReply(s, from, a, reply)), {})
    case InstallMsg(from, to, a) =>
      var (s', reply) := HandleInstallSnapshot(s, a);
      var queue := if Installs(s, a) then p.queue + [SnapshotMsg(a.lastIncludedIndex, a.data)] else p.queue;
      (p.(raft := s', queue := queue), {InstallReplyMsg(to, from, a, reply)})
    case InstallReplyMsg(from, _, a, reply) => (p.(raft := HandleSnapshotReply(s, from, a, reply)), {})
  }

  /** The apply loop takes one message from the channel. */
  function ConsumeMsg(p: Proc, m: ApplyMsg): Proc
  {
    match m
    case EntryMsg(index, payload) => p.(store := ApplyPayload(p.store, payload), applied := index)
    case SnapshotMsg(index, data) => p.(store := data, applied := index)
  }

  /** A process that starts again from its storage: the store comes back from the snapshot, if there is one. */
  function Reboot(id: Id, peers: set<Id>, d: Durable): Proc
  {
    var s := Boot(id, peers, d);
    Proc(s, [], if d.snapshot.lastIndex == 0 then map[] else d.snapshot.data, s.logOffset)
  }

  function Act(p: Proc, ev: Event): (Proc, set<Msg>)
  {
    var s := p.raft;
    match ev
    case Timeout(_) =>
      var s' := StartElection(s);
      (p.(raft := s'),
       if s.role == Leader then {} else set q | q in s.peers :: RequestVoteMsg(s.id, q, VoteRequest(s')))
    case LoneWin(_) => (p.(raft := FinishLoneElection(s, s.currentTerm)), {})
    case Receive(m) => ReceiveMsg(p, m)
    case Submit(_, payload) => (p.(raft := Start(s, payload)), {})
    case Replicate(_, peer) =>
      var (s', out) := PrepareAppend(s, peer);
      (p.(raft := s'), if out.Append? then {AppendMsg(s.id, peer, out.args)} else {})
    case SendSnapshot(_, peer) => (p, {InstallMsg(s.id, peer, PrepareSnapshot(s))})
    case Advance(_) => (p.(raft := AdvanceCommit(s)), {})
    case ApplyOne(_) =>
      var d := ApplyNext(s);
      (if d.Deliver? then p.(raft := d.node, queue := p.queue + [d.msg]) else p, {})
    case Consume(_) => (if p.queue == [] then p else ConsumeMsg(p.(queue := p.queue[1..]), p.queue[0]), {})
    case CompactLog(_) => (p.(raft := Compact(s, p.applied, p.store)), {})
    case Restart(_) => (Reboot(s.id, s.peers, Persisted(s)), {})
  }

  // ---------- What the history remembers of it ----------

  ghost function RecordReceive(h: History, s: Node, m: Msg): History
  {
    var n := m.to;
    match m
    case RequestVoteMsg(_, _, a) =>
      var (s', reply) := HandleRequestVote(s, a);
      var g := Bump(h, n, s'.currentTerm);
      if reply.voteGranted then CastVote(g, n, a.candidateId) else g
    case VoteReplyMsg(from, _, a, reply) =>
      var s' := HandleVoteReply(s, from, a.term, reply);
      var g := Bump(h, n, s'.currentTerm);
      if s.role != Leader && s'.role == Leader then Crown(g, n) else g
    case AppendMsg(_, _, a) =>
      var (s', reply) := HandleAppendEntries(s, a);
      var g := Bump(h, n, s'.currentTerm);
      if reply.success then Accept(g, n, a.term, a.prevLogIndex + |a.entries|) else g
    case AppendReplyMsg(from, _, a, reply) => Bump(h, n, HandleAppendReply(s, from, a, reply).currentTerm)
    case InstallMsg(_, _, a) =>
      var (s', _) := HandleInstallSnapshot(s, a);
      var g := Bump(h, n, s'.currentTerm);
      if Installs(s, a) then Install(g, n, a.term, a.lastIncludedIndex)
      else if a.term >= s.currentTerm then Acknowledge(g, n, a.term, a.lastIncludedIndex)
      else g
    case InstallReplyMsg(from, _, a, reply) => Bump(h, n, HandleSnapshotReply(s, from, a, reply).currentTerm)
  }

  ghost function Record(h: History, s: Node, ev: Event): History
  {
    match ev
    case Timeout(n) => if s.role == Leader then h else CastVote(Bump(h, n, s.currentTerm + 1), n, n)
    case LoneWin(n) => Crown(h, n)
    case Receive(m) => RecordReceive(h, s, m)
    case Submit(n, payload) => if s.role == Leader then LeaderAppend(h, n, payload) else h
    case Advance(n) => if s.role == Leader then Acknowledge(h, n, s.currentTerm, LastIndex(s)) else h
    case _ => h
  }

  // ---------- Runs ----------

  /** The running cluster, and its history, which it never consults. */
  datatype System = System(cluster: Cluster, hist: History)

  ghost function Step(sys: System, ev: Event): System
  {
    var c := sys.cluster;
    if !Enabled(c, ev) then sys
    else
      var n := Actor(ev);
      var (p, sent) := Act(c.procs[n], ev);
      System(Cluster(c.procs[n := p], c.msgs + sent), Record(sys.hist, c.procs[n].raft, ev))
  }

  /** Every member starts from an empty storage. */
  ghost function Init(members: set<Id>): System
  {
    System(
      Cluster(map n | n in members :: Reboot(n, members - {n}, FRESH_DISK), {}),
      History(members, map n | n in members :: 0, map n | n in members :: [SENTINEL],
              map[0 := [SENTINEL]], map[], map[], {}))
  }

  /** The state after a sequence of events; an event that is not enabled changes nothing. */
  ghost function Run(members: set<Id>, evs: seq<Event>): System
    decreases |evs|
  {
    if evs == [] then Init(members)
    else Step(Run(members, evs[..|evs| - 1]), evs[|evs| - 1])
  }

  /** What the code demands of its configuration: at least one member, and no empty id. */
  ghost predicate Membership(members: set<Id>)
  {
    members != {} && NOBODY !in members
  }
}

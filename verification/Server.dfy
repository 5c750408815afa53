/** The server's apply loop: it takes messages from the apply channel one by one, updates the store, and compacts the log
    when enough entries have been applied since the last snapshot (server/server.go). */
module Server {
  import opened Kv
  import opened RaftTypes
  import H = Handlers
  import opened RaftNode
  import C = Cluster
  import opened Ledger
  import opened Commitment
  import opened AllRuns
  import opened StateMachine
  import opened GuardedRuns
  import opened Safety

  /** What taking one message does to the store and to the Raft node. */
  function Serve(data: Image, s: Node, threshold: int, m: ApplyMsg): (Image, Node)
  {
    match m
    case SnapshotMsg(_, image) => (image, s)
    case EntryMsg(index, payload) =>
      var next := ApplyPayload(data, payload);
      (next, if threshold > 0 && index - s.logOffset >= threshold then H.Compact(s, index, next) else s)
  }

  function ServeAll(data: Image, s: Node, threshold: int, msgs: seq<ApplyMsg>): (Image, Node)
    decreases |msgs|
  {
    if msgs == [] then (data, s)
    else
      var (d, t) := ServeAll(data, s, threshold, msgs[..|msgs| - 1]);
      Serve(d, t, threshold, msgs[|msgs| - 1])
  }

  class Server {
    const raft: Raft
    const store: Store
    const snapshotThreshold: int

    /** A server over a node that has started: the store comes back from the node's snapshot, if it has one. */
    constructor (raft: Raft, threshold: int)
      ensures this.raft == raft && snapshotThreshold == threshold && fresh(store)
      ensures store.data == if raft.snapshot.lastIndex == 0 then map[] else raft.snapshot.data
    {
      this.raft := raft;
      this.store := new Store();
      snapshotThreshold := threshold;
      new;
      RestoreSnapshot();
    }

    method RestoreSnapshot()
      modifies store
      ensures store.data == if raft.snapshot.lastIndex == 0 then old(store.data) else raft.snapshot.data
    {
      if raft.snapshot.lastIndex == 0 {
        return;
      }
      store.RestoreSnapshot(raft.snapshot.data);
    }

    method MaybeSnapshot(index: int)
      requires raft.Saved()
      modifies raft, raft.storage
      ensures raft.Saved()
      ensures raft.View() ==
              if snapshotThreshold > 0 && index - old(raft.logOffset) >= snapshotThreshold
              then H.Compact(old(raft.View()), index, store.data) else old(raft.View())
    {
      if snapshotThreshold <= 0 {
        return;
      }
      if index - raft.logOffset < snapshotThreshold {
        return;
      }
      var image := store.TakeSnapshot();
      var _ := raft.Compact(index, image);
    }

    /** One round of the apply loop. */
    method Take(m: ApplyMsg) returns (err: ApplyError)
      requires raft.Saved()
      modifies store, raft, raft.storage
      ensures raft.Saved()
      ensures (store.data, raft.View()) == Serve(old(store.data), old(raft.View()), snapshotThreshold, m)
      ensures err == match m
                     case SnapshotMsg(_, _) => NoError
                     case EntryMsg(_, Undecodable) => DecodeError
                     case EntryMsg(_, Decodable(cmd)) => ApplyCommand(old(store.data), cmd).1
      ensures store.data == match m
                            case SnapshotMsg(_, image) => image
                            case EntryMsg(_, Undecodable) => old(store.data)
                            case EntryMsg(_, Decodable(cmd)) => ApplyCommand(old(store.data), cmd).0
    {
      match m {
        case SnapshotMsg(_, image) =>
          store.RestoreSnapshot(image);
          err := NoError;
        case EntryMsg(index, payload) =>
          match payload {
            case Undecodable => err := DecodeError;
            case Decodable(cmd) => err := store.Apply(cmd);
          }
          MaybeSnapshot(index);
      }
    }

    /** The apply loop over the messages of a channel. */
    method ApplyLoop(msgs: seq<ApplyMsg>)
      requires raft.Saved()
      modifies store, raft, raft.storage
      ensures raft.Saved()
      ensures (store.data, raft.View()) == ServeAll(old(store.data), old(raft.View()), snapshotThreshold, msgs)
    {
      var i := 0;
      while i < |msgs|
        invariant 0 <= i <= |msgs| && raft.Saved()
        invariant (store.data, raft.View()) == ServeAll(old(store.data), old(raft.View()), snapshotThreshold, msgs[..i])
      {
        var _ := Take(msgs[i]);
        assert msgs[..i + 1][..i] == msgs[..i];
        i := i + 1;
      }
      assert msgs[..|msgs|] == msgs;
    }
  }

  /** A round that takes an entry compacts the log at its index if and only if the threshold is reached; every other round
      leaves the node. The command takes effect, and the compacted node holds the store's image. */
  lemma ServeLaw(data: Image, s: Node, threshold: int, index: int, payload: Payload)
    requires |s.log| > 0 && s.logOffset <= s.lastApplied <= s.commitIndex <= H.LastIndex(s) && index <= s.commitIndex
    requires forall i | s.logOffset <= i <= H.LastIndex(s) :: H.TermAt(s, i) >= 0
    ensures var (d, r) := Serve(data, s, threshold, EntryMsg(index, payload));
            && d == (if payload.Decodable? then ApplyCommand(data, payload.command).0 else data)
            && (if threshold > 0 && index - s.logOffset >= threshold
                then r.logOffset == index == r.snapshot.lastIndex && r.snapshot.data == d
                else r == s)
            && (threshold > 0 ==> index - r.logOffset < threshold)
    ensures forall image, i :: Serve(data, s, threshold, SnapshotMsg(i, image)) == (image, s)
  {
  }

  // ---------- The loop, seen from the cluster ----------

  /** What a process is after some events of its own. */
  function ActAll(p: C.Proc, evs: seq<C.Event>): C.Proc
    decreases |evs|
  {
    if evs == [] then p else C.Act(ActAll(p, evs[..|evs| - 1]), evs[|evs| - 1]).0
  }

  /** Nothing but the process taking messages and compacting its log. */
  predicate Housekeeping(id: Id, evs: seq<C.Event>)
  {
    forall ev | ev in evs :: ev == C.Consume(id) || ev == C.CompactLog(id)
  }

  /** One round is a Consume event, followed by a CompactLog event when the threshold is reached. */
  lemma ServeIsEvents(p: C.Proc, threshold: int) returns (evs: seq<C.Event>)
    requires p.queue != []
    ensures Housekeeping(p.raft.id, evs)
    ensures ActAll(p, evs).queue == p.queue[1..] && ActAll(p, evs).raft.id == p.raft.id
    ensures (ActAll(p, evs).store, ActAll(p, evs).raft) == Serve(p.store, p.raft, threshold, p.queue[0])
  {
    hide H.Compact;
    var take, compact := C.Consume(p.raft.id), C.CompactLog(p.raft.id);
    var m := p.queue[0];
    var p1 := C.Act(p, take).0;
    assert ActAll(p, [take]) == p1;
    if m.EntryMsg? && threshold > 0 && m.index - p.raft.logOffset >= threshold {
      evs := [take, compact];
      assert evs[..1] == [take];
      SameId(p.raft, m.index, p1.store);
    } else {
      evs := [take];
    }
  }

  lemma SameId(s: Node, index: int, data: Image)
    ensures H.Compact(s, index, data).id == s.id
  {
  }

  lemma {:induction false} ActAllAppend(p: C.Proc, evs: seq<C.Event>, more: seq<C.Event>)
    ensures ActAll(p, evs + more) == ActAll(ActAll(p, evs), more)
    decreases |more|
  {
    if more == [] {
      assert evs + more == evs;
    } else {
      var rest := more[..|more| - 1];
      ActAllAppend(p, evs, rest);
      assert (evs + more)[..|evs + more| - 1] == evs + rest;
    }
  }

  /** What the loop computes over the first k messages of a channel is a run of Consume and CompactLog events: what is
      proved of every run holds for a cluster of these servers, with any threshold. */
  lemma {:induction false} ServeAllIsEvents(p: C.Proc, threshold: int, k: nat) returns (evs: seq<C.Event>)
    requires k <= |p.queue|
    ensures Housekeeping(p.raft.id, evs)
    ensures ActAll(p, evs).queue == p.queue[k..] && ActAll(p, evs).raft.id == p.raft.id
    ensures (ActAll(p, evs).store, ActAll(p, evs).raft) == ServeAll(p.store, p.raft, threshold, p.queue[..k])
    decreases k
  {
    hide Serve;
    if k == 0 {
      evs := [];
    } else {
      var before := ServeAllIsEvents(p, threshold, k - 1);
      var q := ActAll(p, before);
      var round := ServeIsEvents(q, threshold);
      evs := before + round;
      ActAllAppend(p, before, round);
      assert p.queue[..k][..k - 1] == p.queue[..k - 1];
    }
  }

  lemma {:induction false} HousekeepingSafe(h: History, p: C.Proc, evs: seq<C.Event>)
    requires NodeInv(h, p.raft) && ProcOk(h, p) && Housekeeping(p.raft.id, evs)
    ensures var q := ActAll(p, evs);
            NodeInv(h, q.raft) && ProcOk(h, q) && q.raft.id == p.raft.id && q.raft.lastApplied == p.raft.lastApplied
    decreases |evs|
  {
    hide NodeInv;
    hide ProcOk;
    hide H.Compact;
    if evs != [] {
      var pre, ev := evs[..|evs| - 1], evs[|evs| - 1];
      assert forall e | e in pre :: e in evs;
      HousekeepingSafe(h, p, pre);
      var q := ActAll(p, pre);
      assert ev in evs;
      if ev.Consume? {
        if q.queue != [] {
          ConsumeSafe(h, q);
        }
      } else {
        CompactStep(h, q.raft, q.applied, q.store);
        CompactSafe(h, q);
        CompactApplied(h, q);
      }
    }
  }

  lemma CompactApplied(h: History, p: C.Proc)
    requires ProcOk(h, p)
    ensures H.Compact(p.raft, p.applied, p.store).lastApplied == p.raft.lastApplied
  {
    hide LeaderOk;
    hide Committed;
    QueueRange(h.full[p.raft.id], p.applied, p.queue, p.raft.lastApplied);
  }

  /** ... and with a threshold, a server that ends with an entry has compacted its log to within the threshold of it. */
  lemma LoopCompacts(members: set<Id>, evs: seq<C.Event>, n: Id, threshold: int)
    requires C.Membership(members) && Guarded(members, evs) && n in members && threshold > 0
    ensures n in C.Run(members, evs).cluster.procs
    ensures var p := C.Run(members, evs).cluster.procs[n];
            p.queue != [] && p.queue[|p.queue| - 1].EntryMsg? ==>
              p.queue[|p.queue| - 1].index - ServeAll(p.store, p.raft, threshold, p.queue).1.logOffset < threshold
  {
    hide AckInv;
    hide BaseInv;
    hide SafeInv;
    hide NodeInv;
    hide ProcOk;
    hide Serve;
    assert evs[..|evs|] == evs;
    Moment(members, evs, |evs|, n);
    hide C.Run;
    var p := C.Run(members, evs).cluster.procs[n];
    var h := C.Run(members, evs).hist;
    if p.queue != [] && p.queue[|p.queue| - 1].EntryMsg? {
      var k := |p.queue| - 1;
      var rounds := ServeAllIsEvents(p, threshold, k);
      HousekeepingSafe(h, p, rounds);
      var q := ActAll(p, rounds);
      assert q.queue == [p.queue[k]];
      LastRound(h, q, threshold);
    }
  }

  lemma LastRound(h: History, q: C.Proc, threshold: int)
    requires BaseInv(h) && NodeInv(h, q.raft) && ProcOk(h, q) && |q.queue| == 1 && q.queue[0].EntryMsg? && threshold > 0
    ensures q.queue[0].index - Serve(q.store, q.raft, threshold, q.queue[0]).1.logOffset < threshold
  {
    hide BaseInv;
    hide NodeInv;
    hide LeaderOk;
    hide Committed;
    NodeTerms(h, q.raft);
    hide Serve;
    QueueRange(h.full[q.raft.id], q.queue[0].index, q.queue[1..], q.raft.lastApplied);
    ServeLaw(q.store, q.raft, threshold, q.queue[0].index, q.queue[0].payload);
  }

  /** At every moment of a guarded run, a server that empties its channel, compacting at whatever threshold, ends with the
      replay of every delivered command, and with a snapshot that is the replay through the point of compaction. */
  lemma LoopReplaysTheLog(members: set<Id>, evs: seq<C.Event>, n: Id, threshold: int)
    requires C.Membership(members) && Guarded(members, evs) && n in members
    ensures n in C.Run(members, evs).cluster.procs && n in C.Run(members, evs).hist.full
    ensures var p, full := C.Run(members, evs).cluster.procs[n], C.Run(members, evs).hist.full[n];
            var (data, s) := ServeAll(p.store, p.raft, threshold, p.queue);
            && p.raft.lastApplied < |full| && s.logOffset < |full|
            && data == Replay(full, p.raft.lastApplied)
            && s.snapshot.data == Replay(full, s.logOffset)
  {
    hide AckInv;
    hide BaseInv;
    hide SafeInv;
    hide NodeInv;
    hide LeaderOk;
    hide Committed;
    assert evs[..|evs|] == evs;
    Moment(members, evs, |evs|, n);
    hide C.Run;
    var p := C.Run(members, evs).cluster.procs[n];
    var h := C.Run(members, evs).hist;
    var rounds := ServeAllIsEvents(p, threshold, |p.queue|);
    assert p.queue[..|p.queue|] == p.queue;
    hide ServeAll;
    HousekeepingSafe(h, p, rounds);
  }
}

/** The store as a replay of the log, and what is under way on the apply channel. */
module StateMachine {
  import opened Kv
  import opened RaftTypes
  import opened Ledger

  /** The store after the commands at indices 1 to i. */
  function Replay(log: seq<Entry>, i: int): Image
    requires i < |log|
    decreases i
  {
    if i <= 0 then map[] else ApplyPayload(Replay(log, i - 1), log[i].payload)
  }

  lemma {:induction false} ReplayAgrees(a: seq<Entry>, b: seq<Entry>, k: int, i: int)
    requires Agree(a, b, k) && i <= k
    ensures Replay(a, i) == Replay(b, i)
    decreases i
  {
    if i > 0 {
      ReplayAgrees(a, b, k, i - 1);
    }
  }

  // ---------- What a replay contains ----------

  /** What an entry asks for key k, read off its payload. */
  predicate Sets(e: Entry, k: string) { e.payload.Decodable? && e.payload.command.op == "set" && e.payload.command.key == k }
  predicate Inserts(e: Entry, k: string) { e.payload.Decodable? && e.payload.command.op == "insert" && e.payload.command.key == k }
  predicate Deletes(e: Entry, k: string) { e.payload.Decodable? && e.payload.command.op == "delete" && e.payload.command.key == k }

  /** Entry j sets or inserts k, and no entry after it through i deletes k. */
  predicate Survives(log: seq<Entry>, i: int, k: string, j: int)
    requires i < |log|
  {
    1 <= j <= i && (Sets(log[j], k) || Inserts(log[j], k)) && forall m | j < m <= i :: !Deletes(log[m], k)
  }

  ghost predicate Present(log: seq<Entry>, i: int, k: string)
    requires i < |log|
  {
    exists j :: Survives(log, i, k, j)
  }

  /** Entry j changes what is stored for k: a set always does, an insert of a key that is absent, a delete of one that is
      present. */
  ghost predicate Effective(log: seq<Entry>, j: int, k: string)
    requires 1 <= j < |log|
  {
    || Sets(log[j], k)
    || (Inserts(log[j], k) && !Present(log, j - 1, k))
    || (Deletes(log[j], k) && Present(log, j - 1, k))
  }

  ghost predicate LastEffective(log: seq<Entry>, i: int, k: string, j: int)
    requires i < |log|
  {
    1 <= j <= i && Effective(log, j, k) && forall m | j < m <= i :: !Effective(log, m, k)
  }

  /** Entry j is the last effective one on k through i, and stored v. */
  ghost predicate StoredBy(log: seq<Entry>, i: int, k: string, v: string, j: int)
    requires i < |log|
  {
    LastEffective(log, i, k, j) && !Deletes(log[j], k) && log[j].payload.command.value == v
  }

  lemma PresentStep(log: seq<Entry>, i: int, k: string)
    requires 1 <= i < |log|
    ensures Present(log, i, k) <==>
            Sets(log[i], k) || Inserts(log[i], k) || (Present(log, i - 1, k) && !Deletes(log[i], k))
  {
    if Sets(log[i], k) || Inserts(log[i], k) {
      assert Survives(log, i, k, i);
    } else {
      if Present(log, i - 1, k) && !Deletes(log[i], k) {
        var j :| Survives(log, i - 1, k, j);
        assert Survives(log, i, k, j);
      }
      if Present(log, i, k) {
        var j :| Survives(log, i, k, j);
        assert Survives(log, i - 1, k, j);
      }
    }
  }

  ghost predicate Stored(log: seq<Entry>, i: int, k: string, v: string)
    requires i < |log|
  {
    exists j :: StoredBy(log, i, k, v, j)
  }

  lemma StoredStep(log: seq<Entry>, i: int, k: string, v: string)
    requires 1 <= i < |log|
    ensures Stored(log, i, k, v) <==>
            if Effective(log, i, k) then !Deletes(log[i], k) && log[i].payload.command.value == v
            else Stored(log, i - 1, k, v)
  {
    if Effective(log, i, k) {
      if !Deletes(log[i], k) && log[i].payload.command.value == v {
        assert StoredBy(log, i, k, v, i);
      }
    } else {
      if Stored(log, i - 1, k, v) {
        var j :| StoredBy(log, i - 1, k, v, j);
        assert StoredBy(log, i, k, v, j);
      }
      if Stored(log, i, k, v) {
        var j :| StoredBy(log, i, k, v, j);
        assert StoredBy(log, i - 1, k, v, j);
      }
    }
  }

  /** What one entry does to the value of k. */
  lemma EntryEffect(data: Image, e: Entry, k: string)
    ensures var next := ApplyPayload(data, e.payload);
            && (Sets(e, k) || (Inserts(e, k) && k !in data) ==> k in next && next[k] == e.payload.command.value)
            && (Deletes(e, k) ==> k !in next)
            && (!Sets(e, k) && !Deletes(e, k) && !(Inserts(e, k) && k !in data) ==>
                  (k in next <==> k in data) && (k in data ==> next[k] == data[k]))
  {
    if e.payload.Decodable? {
      ApplyCommandEffect(data, e.payload.command);
      assert "set"[0] != "insert"[0] && "set"[0] != "delete"[0] && "insert"[0] != "delete"[0];
    }
  }

  /** What a replay contains, read off the log alone: k is stored exactly when some entry stored it that no later one
      deleted, and its value is v exactly when the last effective command on k is a set or an insert of v. */
  lemma {:induction false} ReplayMeaning(log: seq<Entry>, i: int, k: string, v: string)
    requires 0 <= i < |log|
    ensures k in Replay(log, i) <==> Present(log, i, k)
    ensures k in Replay(log, i) && Replay(log, i)[k] == v <==> Stored(log, i, k, v)
    decreases i
  {
    if i > 0 {
      ReplayMeaning(log, i - 1, k, v);
      PresentStep(log, i, k);
      StoredStep(log, i, k, v);
      EntryEffect(Replay(log, i - 1), log[i], k);
      hide ApplyPayload;
    }
  }

  // ---------- The apply channel ----------

  /** The messages on the channel continue, in order and without gaps, from index `at` to index `last`: an entry message
      carries the next entry, and a snapshot message carries the replay through its index and may skip ahead to it. */
  ghost predicate QueueOk(full: seq<Entry>, at: int, queue: seq<ApplyMsg>, last: int)
    decreases |queue|
  {
    if queue == [] then at == last
    else
      match queue[0]
      case EntryMsg(i, payload) =>
        i == at + 1 && 0 < i < |full| && payload == full[i].payload && QueueOk(full, i, queue[1..], last)
      case SnapshotMsg(i, data) =>
        at <= i < |full| && data == Replay(full, i) && QueueOk(full, i, queue[1..], last)
  }

  lemma {:induction false} QueueRange(full: seq<Entry>, at: int, queue: seq<ApplyMsg>, last: int)
    requires QueueOk(full, at, queue, last)
    ensures at <= last
    decreases |queue|
  {
    if queue != [] {
      var m := queue[0];
      QueueRange(full, if m.EntryMsg? then m.index else m.snapIndex, queue[1..], last);
    }
  }

  lemma {:induction false} QueuePush(full: seq<Entry>, at: int, queue: seq<ApplyMsg>, last: int, m: ApplyMsg, next: int)
    requires QueueOk(full, at, queue, last) && QueueOk(full, last, [m], next)
    ensures QueueOk(full, at, queue + [m], next)
    decreases |queue|
  {
    if queue == [] {
      assert queue + [m] == [m];
    } else {
      var first := queue[0];
      QueuePush(full, if first.EntryMsg? then first.index else first.snapIndex, queue[1..], last, m, next);
      assert (queue + [m])[1..] == queue[1..] + [m];
    }
  }

  /** What is under way refers to nothing above `last`. */
  lemma {:induction false} QueueAgrees(a: seq<Entry>, b: seq<Entry>, at: int, queue: seq<ApplyMsg>, last: int)
    requires QueueOk(a, at, queue, last) && Agree(a, b, last)
    ensures QueueOk(b, at, queue, last)
    decreases |queue|
  {
    if queue != [] {
      var m := queue[0];
      var i := if m.EntryMsg? then m.index else m.snapIndex;
      QueueRange(a, i, queue[1..], last);
      QueueAgrees(a, b, i, queue[1..], last);
      ReplayAgrees(a, b, last, i);
    }
  }
}

/** The replicated state machine: an in-memory key/value store (kv/store.go). */
module Kv {

  /** The contents of the store, and of a snapshot of it. */
  type Image = map<string, string>

  datatype Command = Command(op: string, key: string, value: string)

  /** The bytes of a log entry, seen through DecodeCommand: they either decode to a command or they do not. */
  datatype Payload = Decodable(command: Command) | Undecodable

  datatype ApplyError = NoError | KeyNotFound | KeyExists | UnknownOp | DecodeError

  const OP_SET := "set"
  const OP_INSERT := "insert"
  const OP_DELETE := "delete"

  /** What a command does to the contents, and the error it reports. */
  function ApplyCommand(data: Image, cmd: Command): (Image, ApplyError)
  {
    if cmd.op == OP_SET then (data[cmd.key := cmd.value], NoError)
    else if cmd.op == OP_INSERT then
      if cmd.key in data then (data, KeyExists) else (data[cmd.key := cmd.value], NoError)
    else if cmd.op == OP_DELETE then
      if cmd.key in data then (data - {cmd.key}, NoError) else (data, KeyNotFound)
    else (data, UnknownOp)
  }

  /** What delivering an entry does to the contents: an entry that does not decode changes nothing. */
  function ApplyPayload(data: Image, p: Payload): Image
  {
    match p
    case Undecodable => data
    case Decodable(cmd) => ApplyCommand(data, cmd).0
  }

  /** A rejected command leaves the store as it was; an accepted one touches its own key only. */
  lemma ApplyCommandEffect(data: Image, cmd: Command)
    ensures var (next, err) := ApplyCommand(data, cmd);
            && (err != NoError ==> next == data)
            && (forall k :: k != cmd.key ==> (k in next <==> k in data) && (k in data ==> next[k] == data[k]))
            && (err == NoError ==> (cmd.key in next <==> cmd.op != OP_DELETE))
            && (err == NoError && cmd.key in next ==> next[cmd.key] == cmd.value)
            && (err == KeyExists <==> cmd.op == OP_INSERT && cmd.key in data)
            && (err == KeyNotFound <==> cmd.op == OP_DELETE && cmd.key !in data)
            && (err == UnknownOp <==> cmd.op !in {OP_SET, OP_INSERT, OP_DELETE})
            && err != DecodeError
  {
    assert OP_SET[0] != OP_INSERT[0] && OP_SET[0] != OP_DELETE[0] && OP_INSERT[0] != OP_DELETE[0];
  }

  /** The store object; a command or a snapshot replaces its contents in place. */
  class Store {
    var data: Image

    constructor ()
      ensures data == map[]
    {
      data := map[];
    }

    method Get(key: string) returns (value: string, ok: bool)
      ensures ok <==> key in data
      ensures ok ==> value == data[key]
    {
      ok := key in data;
      value := if ok then data[key] else "";
    }

    method Apply(cmd: Command) returns (err: ApplyError)
      modifies this
      ensures (data, err) == ApplyCommand(old(data), cmd)
    {
      if cmd.op == OP_SET {
        data := data[cmd.key := cmd.value];
        return NoError;
      } else if cmd.op == OP_INSERT {
        if cmd.key in data {
          return KeyExists;
        }
        data := data[cmd.key := cmd.value];
        return NoError;
      } else if cmd.op == OP_DELETE {
        if cmd.key !in data {
          return KeyNotFound;
        }
        data := data - {cmd.key};
        return NoError;
      }
      return UnknownOp;
    }

    method TakeSnapshot() returns (image: Image)
      ensures image == data
    {
      image := data;
    }

    method RestoreSnapshot(image: Image)
      modifies this
      ensures data == image
    {
      data := image;
    }
  }
}

/**
 * The commands a client sends (resp/Command.java): one variant per record,
 * each keeping the verb exactly as received in `commandType`, and
 * `elements()`, the strings a command is re-encoded from when it is
 * replicated.
 */
module Commands {
  import opened Optional
  import opened LinkedMap

  datatype Command =
    | Ping(commandType: string)
    | Echo(commandType: string, argument: string)
    | Set(commandType: string, key: string, value: string, expiryTime: Option<string>)
    | Get(commandType: string, value: string)
    | Info(commandType: string, section: string)
    | Replconf(commandType: string, key: string, value: string)
    | Psync(commandType: string, replicationId: string, offset: string)
    | Wait(commandType: string, numberOfReplica: string, timeout: string)
    | Config(commandType: string, key: string, value: string)
    | Type(commandType: string, key: string)
    | Xadd(commandType: string, streamKey: string, streamKeyValue: string, values: LinkedMap)
    | Xrange(commandType: string, streamKey: string, start: string, end: string)
    | Xread(commandType: string, blockTime: Option<string>, streamKeyWithId: LinkedMap)

  /**
   * `elements()`: the verb first, then the fields in declaration order.
   * SET drops the "PX" marker, INFO drops its section, and XADD and XREAD
   * lay their maps out as key, value, key, value, ...
   */
  function Elements(c: Command): (r: seq<string>)
    ensures |r| > 0 && r[0] == c.commandType
    ensures c.Ping? || c.Info? ==> |r| == 1
    ensures c.Echo? ==> r == [c.commandType, c.argument]
    ensures c.Get? ==> r == [c.commandType, c.value]
    ensures c.Type? ==> r == [c.commandType, c.key]
    ensures c.Replconf? || c.Config? ==> r == [c.commandType, c.key, c.value]
    ensures c.Psync? ==> r == [c.commandType, c.replicationId, c.offset]
    ensures c.Wait? ==> r == [c.commandType, c.numberOfReplica, c.timeout]
    ensures c.Set? ==> r[1..] == (if c.expiryTime.Some? then [c.key, c.value, c.expiryTime.value] else [c.key, c.value])
    ensures c.Xrange? ==> r == [c.commandType, c.streamKey, c.start, c.end]
    ensures c.Xadd? ==> |r| == 3 + 2 * |c.values| && r[1] == c.streamKey && r[2] == c.streamKeyValue
    ensures c.Xadd? ==> forall i :: 0 <= i < |c.values| ==> r[3 + 2 * i] == c.values[i].0 && r[4 + 2 * i] == c.values[i].1
    ensures c.Xread? ==> |r| == 1 + (if c.blockTime.Some? then 1 else 0) + 2 * |c.streamKeyWithId|
    ensures c.Xread? ==> var k := if c.blockTime.Some? then 2 else 1;
      r[..k] == [c.commandType] + (if c.blockTime.Some? then [c.blockTime.value] else [])
    ensures c.Xread? ==> var k := if c.blockTime.Some? then 2 else 1;
      forall i :: 0 <= i < |c.streamKeyWithId| ==>
        r[k + 2 * i] == c.streamKeyWithId[i].0 && r[k + 2 * i + 1] == c.streamKeyWithId[i].1
  {
    match c
    case Ping(cmd) => [cmd]
    case Echo(cmd, argument) => [cmd, argument]
    case Set(cmd, key, value, expiryTime) =>
      if expiryTime.Some? then [cmd, key, value, expiryTime.value] else [cmd, key, value]
    case Get(cmd, value) => [cmd, value]
    case Info(cmd, _) => [cmd]
    case Replconf(cmd, key, value) => [cmd, key, value]
    case Psync(cmd, replicationId, offset) => [cmd, replicationId, offset]
    case Wait(cmd, numberOfReplica, timeout) => [cmd, numberOfReplica, timeout]
    case Config(cmd, key, value) => [cmd, key, value]
    case Type(cmd, key) => [cmd, key]
    case Xadd(cmd, streamKey, streamKeyValue, values) =>
      FlattenAfter([cmd, streamKey, streamKeyValue], values);
      [cmd, streamKey, streamKeyValue] + Flatten(values)
    case Xrange(cmd, streamKey, start, end) => [cmd, streamKey, start, end]
    case Xread(cmd, blockTime, streamKeyWithId) =>
      var head := [cmd] + (if blockTime.Some? then [blockTime.value] else []);
      FlattenAfter(head, streamKeyWithId);
      head + Flatten(streamKeyWithId)
  }

  /** Where the pairs land once laid out after a head. */
  lemma FlattenAfter(head: seq<string>, m: seq<(string, string)>)
    ensures (head + Flatten(m))[..|head|] == head
    ensures forall i :: 0 <= i < |m| ==>
      (head + Flatten(m))[|head| + 2 * i] == m[i].0 && (head + Flatten(m))[|head| + 2 * i + 1] == m[i].1
  {
  }

  /** The lower-case verb the decoder dispatches on for each variant. */
  function VerbName(c: Command): string {
    match c
    case Ping(_) => "ping"
    case Echo(_, _) => "echo"
    case Set(_, _, _, _) => "set"
    case Get(_, _) => "get"
    case Info(_, _) => "info"
    case Replconf(_, _, _) => "replconf"
    case Psync(_, _, _) => "psync"
    case Wait(_, _, _) => "wait"
    case Config(_, _, _) => "config"
    case Type(_, _) => "type"
    case Xadd(_, _, _, _) => "xadd"
    case Xrange(_, _, _, _) => "xrange"
    case Xread(_, _, _) => "xread"
  }

  const Verbs: set<string> :=
    {"ping", "echo", "set", "get", "info", "replconf", "psync", "wait", "config", "type", "xadd", "xrange", "xread"}
}

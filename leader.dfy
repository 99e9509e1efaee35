/**
 * The leader's replication bookkeeping (Master.java), as a state machine
 * over abstract connection ids: the registry of replicas and the offset
 * each has acknowledged, the global replication offset, and the reply and
 * broadcasts of every command. Sockets are left out: a reply is what would
 * be written back to the connection, a broadcast what would be written to
 * every registered replica.
 */
module Leader {
  import opened Optional
  import opened Numerals
  import opened Text
  import opened Pairs
  import opened Entries
  import opened Encoder
  import opened Commands
  import KeyValue
  import StreamStore
  import StreamProperties
  import Decoder

  type ConnId = nat

  const ReplicationId := "8371b4fb1155b71f4a04d3e1bc3e18c4a990aeeb"

  /** The probe WAIT sends to every replica. */
  const GetAck := Replconf("REPLCONF", "GETACK", "*")

  // ----- byte accounting -----

  /** Per element: "$", the length's digits and CRLF, then the element and CRLF. */
  function ElementBytes(es: seq<string>): nat {
    if es == [] then 0 else 3 + |IntToString(|es[0]|)| + |es[0]| + 2 + ElementBytes(es[1..])
  }

  /** `updateReplicatedBytes`: "*", the count's digits and CRLF, then every element. */
  function ReplicatedBytes(c: Command): nat {
    3 + |IntToString(|Elements(c)|)| + ElementBytes(Elements(c))
  }

  lemma {:induction false} ElementBytesIsPayload(es: seq<string>)
    ensures ElementBytes(es) == Payload(es)
  {
    if es != [] {
      NatToStringValue(|es[0]|);
      ElementBytesIsPayload(es[1..]);
    }
  }

  /** The accounted size is exactly the size of the array the command is re-encoded as. */
  lemma ReplicatedBytesIsEncodedLength(c: Command)
    ensures ReplicatedBytes(c) == |ArrayOf(Elements(c))|
  {
    NatToStringValue(|Elements(c)|);
    ElementBytesIsPayload(Elements(c));
  }

  /** "*3\r\n$8\r\nREPLCONF\r\n$6\r\nGETACK\r\n$1\r\n*\r\n" is 37 bytes. */
  lemma GetAckBytes()
    ensures ReplicatedBytes(GetAck) == 37
  {
    var es := Elements(GetAck);
    assert es == ["REPLCONF", "GETACK", "*"];
    assert IntToString(3) == "3" && IntToString(8) == "8" && IntToString(6) == "6" && IntToString(1) == "1";
    assert ElementBytes(es[2..]) == 7;
    assert ElementBytes(es[1..]) == 12 + 7;
  }

  /** `replicasInSync`: how many replicas have acknowledged at least the given offset. */
  function ReplicasInSync(registry: map<ConnId, int>, atLeast: int): (n: nat)
    ensures n <= |registry|
  {
    SubsetCardinality(InSync(registry, atLeast), registry.Keys);
    |InSync(registry, atLeast)|
  }

  /** The replicas whose acknowledged offset is at least `atLeast`. */
  function InSync(registry: map<ConnId, int>, atLeast: int): (r: set<ConnId>)
    ensures r <= registry.Keys
    ensures forall c :: c in r <==> c in registry && registry[c] >= atLeast
  {
    set c | c in registry && registry[c] >= atLeast
  }

  lemma {:induction false} SubsetCardinality(a: set<ConnId>, b: set<ConnId>)
    requires a <= b
    ensures |a| <= |b|
    decreases |b|
  {
    if a != {} {
      var x :| x in a;
      SubsetCardinality(a - {x}, b - {x});
    }
  }

  // ----- states, replies, one command -----

  datatype MasterState = MasterState(
    values: map<string, string>,
    expiry: map<string, int>,
    streams: StreamStore.Streams,
    registry: map<ConnId, int>,
    offset: int)

  /**
   * What is written back. XADD errors and XRANGE/XREAD replies are written
   * with `encodeAsError` and `wrapContentAsArray`, which resp/Encoder.java
   * does not define, so those replies keep their content abstract.
   */
  datatype Reply =
    | Wire(bytes: string)
    | Snapshot
    | StreamError(error: Option<string>)
    | RangeReply(entries: seq<Entry>)
    | ReadReply(results: seq<(string, seq<Entry>)>)

  datatype Broadcast = Broadcast(recipients: set<ConnId>, bytes: string)

  /** `Closed`: the command threw, and `handle` closes the connection. */
  datatype Outcome = Answered(replies: seq<Reply>, broadcasts: seq<Broadcast>) | Closed

  datatype Step = Step(outcome: Outcome, next: MasterState)

  function InfoLines(offset: int): seq<string> {
    ["# Replication", "role:master", "master_replid:" + ReplicationId, "master_repl_offset:" + IntToString(offset)]
  }

  /** The PSYNC answer: a full resynchronisation from offset 0. */
  const FullResync := "FULLRESYNC " + ReplicationId + " 0"

  /** The eviction a `get` performs. */
  function Evict(s: MasterState, key: string, now: int): (r: MasterState)
    ensures r.registry == s.registry && r.offset == s.offset && r.streams == s.streams
  {
    if KeyValue.IsExpired(s.expiry, key, now) then s.(values := s.values - {key}, expiry := s.expiry - {key}) else s
  }

  /** The XADD reply: the id as a bulk string, or the error. */
  function XaddReply(p: Pair): Reply {
    if p.response.Some? then Wire(BulkString(p.response.value)) else StreamError(p.error)
  }

  /** CONFIG answers only "dir" and "dbfilename", checked on the record's `value`. */
  function ConfigReply(value: string, directory: string, dbFilename: string): seq<Reply> {
    if value == "dir" then [Wire(ArrayOf([value, directory]))]
    else if value == "dbfilename" then [Wire(ArrayOf([value, dbFilename]))]
    else []
  }

  /** `key.equalsIgnoreCase("ack")` from a registered replica; "ack" is already lower case. */
  predicate IsAck(s: MasterState, conn: ConnId, key: string) {
    ToLower(key) == "ack" && conn in s.registry
  }

  /** `equalsIgnoreCase` with "listening-port" or "capa", both already lower case. */
  predicate RepliesOk(key: string) {
    ToLower(key) == "listening-port" || ToLower(key) == "capa"
  }

  /** `IsAck` is the code's case-insensitive comparison with "ack". */
  lemma AckIgnoresCase(s: MasterState, conn: ConnId, key: string)
    ensures IsAck(s, conn, key) <==> EqualsIgnoreCase(key, "ack") && conn in s.registry
  {
    ToLowerOfLowerCase("ack");
  }

  /** `RepliesOk` is the code's case-insensitive comparison with "listening-port" or "capa". */
  lemma RepliesOkIgnoresCase(key: string)
    ensures RepliesOk(key) <==> EqualsIgnoreCase(key, "listening-port") || EqualsIgnoreCase(key, "capa")
  {
    ListeningPortIsLowerCase();
    CapaIsLowerCase();
  }

  lemma ListeningPortIsLowerCase()
    ensures ToLower("listening-port") == "listening-port"
  {
    ToLowerOfLowerCase("listening-port");
  }

  lemma CapaIsLowerCase()
    ensures ToLower("capa") == "capa"
  {
    ToLowerOfLowerCase("capa");
  }

  function Answer(s: MasterState, replies: seq<Reply>): Step {
    Step(Answered(replies, []), s)
  }

  /**
   * What every command keeps: the stacks stay non-empty, a command that
   * throws changes nothing, the registry gains at most `added`, and the
   * offset never decreases.
   */
  ghost predicate Keeps(s: MasterState, r: Step, added: set<ConnId>) {
    && StreamStore.NonEmptyStacks(r.next.streams)
    && (r.outcome.Closed? ==> r.next == s)
    && r.next.registry.Keys <= s.registry.Keys + added
    && r.next.offset >= s.offset
  }

  /** SET: store, reply "+OK", then `propagateCommand`; an expiry that is not an `int` throws first. */
  function SetStep(s: MasterState, c: Command, now: int): (r: Step)
    requires StreamStore.NonEmptyStacks(s.streams) && c.Set?
    ensures Keeps(s, r, {})
    ensures r.next.registry == s.registry
  {
    if c.expiryTime.Some? && ParseInt(c.expiryTime.value).None? then Step(Closed, s)
    else
      var expiry := if c.expiryTime.Some? then s.expiry[c.key := now + ParseInt(c.expiryTime.value).value] else s.expiry;
      Step(Answered([Wire(SimpleString("OK"))], [Broadcast(s.registry.Keys, ArrayOf(Elements(c)))]),
           s.(values := s.values[c.key := c.value], expiry := expiry, offset := s.offset + ReplicatedBytes(c)))
  }

  /** REPLCONF: an ACK from a registered replica adds to its offset; listening-port and capa get "+OK". */
  function ReplconfStep(s: MasterState, conn: ConnId, key: string, value: string): (r: Step)
    requires StreamStore.NonEmptyStacks(s.streams)
    ensures Keeps(s, r, {})
    ensures r.next.offset == s.offset
  {
    if IsAck(s, conn, key) && ParseLong(value).None? then Step(Closed, s)
    else
      var registry := if IsAck(s, conn, key) then s.registry[conn := WrapLong(s.registry[conn] + ParseLong(value).value)] else s.registry;
      Step(Answered(if RepliesOk(key) then [Wire(SimpleString("OK"))] else [], []), s.(registry := registry))
  }

  /** WAIT: the registry size while nothing was replicated, otherwise GETACK to all and the in-sync count. */
  function WaitStep(s: MasterState): (r: Step)
    requires StreamStore.NonEmptyStacks(s.streams)
    ensures Keeps(s, r, {})
    ensures r.next.registry == s.registry
  {
    if s.offset == 0 then Answer(s, [Wire(Integer(|s.registry|))])
    else
      Step(Answered([Wire(Integer(ReplicasInSync(s.registry, s.offset)))], [Broadcast(s.registry.Keys, ArrayOf(Elements(GetAck)))]),
           s.(offset := s.offset + ReplicatedBytes(GetAck)))
  }

  /** XADD: one `saveStream`; a throwing put closes the connection. */
  function XaddStep(s: MasterState, key: string, id: string, fields: LinkedMap.LinkedMap, now: int): (r: Step)
    requires StreamStore.NonEmptyStacks(s.streams)
    ensures Keeps(s, r, {})
    ensures r.next.registry == s.registry && r.next.offset == s.offset
  {
    var put := StreamStore.PutSpec(s.streams, key, id, fields, now);
    StreamProperties.PutOutcome(s.streams, key, id, fields, now);
    if put.reply.None? then Step(Closed, s)
    else Step(Answered([XaddReply(put.reply.value)], []), s.(streams := put.streams))
  }

  /** GET and TYPE: the reply, after the eviction `get` performs. */
  function LookupStep(s: MasterState, reply: string, key: string, now: int): (r: Step)
    requires StreamStore.NonEmptyStacks(s.streams)
    ensures Keeps(s, r, {})
    ensures r.next.registry == s.registry && r.next.offset == s.offset
  {
    Step(Answered([Wire(reply)], []), Evict(s, key, now))
  }

  /**
   * `respondToCommand` on connection `conn` at time `now`; `directory` and
   * `dbFilename` are what CONFIG reports. Only PSYNC registers a
   * connection, and only its own.
   */
  function Respond(s: MasterState, conn: ConnId, c: Command, now: int, directory: string, dbFilename: string): (r: Step)
    requires StreamStore.NonEmptyStacks(s.streams)
    ensures Keeps(s, r, if c.Psync? then {conn} else {})
  {
    match c
    case Ping(_) => Answer(s, [Wire(SimpleString("PONG"))])
    case Echo(_, argument) => Answer(s, [Wire(BulkString(argument))])
    case Set(_, _, _, _) => SetStep(s, c, now)
    case Get(_, key) => LookupStep(s, OptionalBulkString(KeyValue.Lookup(s.values, s.expiry, key, now)), key, now)
    case Info(_, _) => Answer(s, [Wire(BulkStringOfLines(InfoLines(s.offset)))])
    case Replconf(_, key, value) => ReplconfStep(s, conn, key, value)
    case Psync(_, _, _) =>
      Step(Answered([Wire(SimpleString(FullResync)), Snapshot], []), s.(registry := s.registry[conn := 0]))
    case Wait(_, _, _) => WaitStep(s)
    case Config(_, _, value) => Answer(s, ConfigReply(value, directory, dbFilename))
    case Type(_, key) =>
      LookupStep(s, SimpleString(KeyValue.TypeName(KeyValue.Lookup(s.values, s.expiry, key, now), key in s.streams)), key, now)
    case Xadd(_, key, id, fields) => XaddStep(s, key, id, fields, now)
    case Xrange(_, key, start, end) =>
      var entries := StreamStore.RangeSpec(s.streams, key, start, end);
      if entries.None? then Step(Closed, s) else Answer(s, [RangeReply(entries.value)])
    case Xread(_, _, requests) =>
      var results := StreamStore.XreadSpec(s.streams, requests);
      if results.None? then Step(Closed, s) else Answer(s, [ReadReply(results.value)])
  }

  /** The `finally` of `handle`: the connection leaves the registry and nothing else changes. */
  function Disconnected(s: MasterState, conn: ConnId): (r: MasterState)
    ensures conn !in r.registry
    ensures forall c :: c != conn ==> (c in r.registry <==> c in s.registry)
    ensures forall c :: c != conn && c in s.registry ==> r.registry[c] == s.registry[c]
    ensures r.values == s.values && r.expiry == s.expiry && r.streams == s.streams && r.offset == s.offset
  {
    s.(registry := s.registry - {conn})
  }

  // ----- one connection -----

  datatype SessionResult = SessionResult(log: seq<Outcome>, final: MasterState)

  /**
   * `handle`: decode and answer commands off the connection's lines until
   * a decode or a command throws, then drop the connection from the
   * registry. Command i is answered at `clock(i)`. At a clean end of the
   * lines the code busy-waits on `ready()` forever; the model ends the
   * session there and drops the connection as the `finally` block would.
   */
  function Session(s: MasterState, conn: ConnId, lines: seq<string>, clock: nat -> int, i: nat,
                   directory: string, dbFilename: string): (r: SessionResult)
    requires StreamStore.NonEmptyStacks(s.streams)
    decreases |lines|
  {
    if lines == [] then SessionResult([], Disconnected(s, conn))
    else match Decoder.Decode(lines)
      case Err(_) => SessionResult([Closed], Disconnected(s, conn))
      case Ok((c, rest)) =>
        var step := Respond(s, conn, c, clock(i), directory, dbFilename);
        if step.outcome.Closed? then SessionResult([Closed], Disconnected(step.next, conn))
        else
          var tail := Session(step.next, conn, rest, clock, i + 1, directory, dbFilename);
          SessionResult([step.outcome] + tail.log, tail.final)
  }

  // ----- what one command does -----

  /**
   * SET stores the value (with an expiry iff one is given), replies "+OK",
   * forwards the re-encoded command to every replica, and advances the
   * offset by exactly the forwarded bytes.
   */
  lemma SetStoresAndPropagates(s: MasterState, conn: ConnId, c: Command, now: int, directory: string, dbFilename: string)
    requires StreamStore.NonEmptyStacks(s.streams)
    requires c.Set? && (c.expiryTime.None? || ParseInt(c.expiryTime.value).Some?)
    ensures var r := Respond(s, conn, c, now, directory, dbFilename);
      && r.outcome == Answered([Wire("+OK\r\n")], [Broadcast(s.registry.Keys, ArrayOf(Elements(c)))])
      && r.next.values == s.values[c.key := c.value]
      && (c.expiryTime.None? ==> r.next.expiry == s.expiry)
      && (c.expiryTime.Some? ==> r.next.expiry == s.expiry[c.key := now + ParseInt(c.expiryTime.value).value])
      && r.next.offset == s.offset + |ArrayOf(Elements(c))|
      && r.next.registry == s.registry && r.next.streams == s.streams
  {
    ReplicatedBytesIsEncodedLength(c);
    assert SimpleString("OK") == "+OK\r\n";
  }

  /** A SET whose expiry is not an `int` throws before anything is stored or sent. */
  lemma SetWithMalformedExpiryCloses(s: MasterState, conn: ConnId, c: Command, now: int, directory: string, dbFilename: string)
    requires StreamStore.NonEmptyStacks(s.streams)
    requires c.Set? && c.expiryTime.Some? && ParseInt(c.expiryTime.value).None?
    ensures Respond(s, conn, c, now, directory, dbFilename) == Step(Closed, s)
  {
  }

  /** PSYNC answers "+FULLRESYNC <id> 0" and the snapshot, and (re)registers the connection at offset 0. */
  lemma PsyncRegisters(s: MasterState, conn: ConnId, c: Command, now: int, directory: string, dbFilename: string)
    requires StreamStore.NonEmptyStacks(s.streams) && c.Psync?
    ensures var r := Respond(s, conn, c, now, directory, dbFilename);
      && r.outcome == Answered([Wire(SimpleString(FullResync)), Snapshot], [])
      && r.next.registry == s.registry[conn := 0]
      && conn in r.next.registry && r.next.registry[conn] == 0
      && r.next == s.(registry := r.next.registry)
  {
  }

  /** REPLCONF ACK from a connection that never sent PSYNC changes nothing. */
  lemma AckFromUnregisteredIgnored(s: MasterState, conn: ConnId, c: Command, now: int, directory: string, dbFilename: string)
    requires StreamStore.NonEmptyStacks(s.streams) && c.Replconf? && conn !in s.registry
    ensures var r := Respond(s, conn, c, now, directory, dbFilename);
      r.outcome.Answered? && r.next == s && conn !in r.next.registry
  {
  }

  /** REPLCONF ACK n from a replica adds n, as a `long`, to its acknowledged offset; no other replica changes. */
  lemma AckAdds(s: MasterState, conn: ConnId, c: Command, n: int, now: int, directory: string, dbFilename: string)
    requires StreamStore.NonEmptyStacks(s.streams)
    requires c.Replconf? && ToLower(c.key) == "ack" && conn in s.registry && ParseLong(c.value) == Some(n)
    ensures var r := Respond(s, conn, c, now, directory, dbFilename);
      && r.outcome == Answered([], [])
      && r.next == s.(registry := s.registry[conn := WrapLong(s.registry[conn] + n)])
      && (LongMin <= s.registry[conn] + n <= LongMax ==> r.next.registry[conn] == s.registry[conn] + n)
  {
  }

  /** REPLCONF replies "+OK" exactly when its key is listening-port or capa, in any case, and nothing otherwise. */
  lemma ReplconfRepliesIff(s: MasterState, conn: ConnId, c: Command, now: int, directory: string, dbFilename: string)
    requires StreamStore.NonEmptyStacks(s.streams) && c.Replconf?
    ensures var r := Respond(s, conn, c, now, directory, dbFilename);
      r.outcome.Answered? ==>
        && (RepliesOk(c.key) <==> r.outcome.replies == [Wire("+OK\r\n")])
        && (!RepliesOk(c.key) <==> r.outcome.replies == [])
        && r.outcome.broadcasts == []
  {
    assert SimpleString("OK") == "+OK\r\n";
    assert Respond(s, conn, c, now, directory, dbFilename) == ReplconfStep(s, conn, c.key, c.value);
  }

  /** WAIT before anything was replicated answers the number of replicas and changes nothing. */
  lemma WaitBeforeReplication(s: MasterState, conn: ConnId, c: Command, now: int, directory: string, dbFilename: string)
    requires StreamStore.NonEmptyStacks(s.streams) && c.Wait? && s.offset == 0
    ensures Respond(s, conn, c, now, directory, dbFilename) == Step(Answered([Wire(Integer(|s.registry|))], []), s)
  {
  }

  /**
   * WAIT after replication captures the offset, sends GETACK to every
   * replica, adds its 37 bytes to the offset, and answers how many replicas
   * had acknowledged the captured offset: at most all of them.
   */
  lemma WaitProbesReplicas(s: MasterState, conn: ConnId, c: Command, now: int, directory: string, dbFilename: string)
    requires StreamStore.NonEmptyStacks(s.streams) && c.Wait? && s.offset != 0
    ensures var r := Respond(s, conn, c, now, directory, dbFilename);
      && r.next == s.(offset := s.offset + 37)
      && r.outcome.Answered? && r.outcome.broadcasts == [Broadcast(s.registry.Keys, ArrayOf(["REPLCONF", "GETACK", "*"]))]
      && r.outcome.replies == [Wire(":" + IntToString(|InSync(s.registry, s.offset)|) + "\r\n")]
      && |InSync(s.registry, s.offset)| <= |s.registry|
  {
    GetAckBytes();
    SubsetCardinality(InSync(s.registry, s.offset), s.registry.Keys);
  }

  /** Every replica counts once its acknowledged offset reaches the captured one. */
  lemma AllReplicasInSync(registry: map<ConnId, int>, atLeast: int)
    requires forall c :: c in registry ==> registry[c] >= atLeast
    ensures ReplicasInSync(registry, atLeast) == |registry|
  {
    assert InSync(registry, atLeast) == registry.Keys;
  }

  /** Only SET and WAIT move the offset; only REPLCONF and PSYNC touch the registry. */
  lemma WhatMovesTheBookkeeping(s: MasterState, conn: ConnId, c: Command, now: int, directory: string, dbFilename: string)
    requires StreamStore.NonEmptyStacks(s.streams)
    ensures var r := Respond(s, conn, c, now, directory, dbFilename);
      && (r.next.offset != s.offset ==> c.Set? || c.Wait?)
      && (r.next.registry != s.registry ==> c.Replconf? || c.Psync?)
  {
  }

  /** PING, ECHO, INFO, CONFIG, XRANGE and XREAD leave the state as it was. */
  lemma QueriesChangeNothing(s: MasterState, conn: ConnId, c: Command, now: int, directory: string, dbFilename: string)
    requires StreamStore.NonEmptyStacks(s.streams)
    requires c.Ping? || c.Echo? || c.Info? || c.Config? || c.Xrange? || c.Xread?
    ensures Respond(s, conn, c, now, directory, dbFilename).next == s
  {
  }

  // ----- what one connection does -----

  /**
   * Over a whole connection: the connection ends up unregistered, no other
   * connection is ever registered by it, the offset only grows, every stack
   * stays non-empty, and only the last command can close the connection.
   */
  lemma {:induction false} SessionInvariants(s: MasterState, conn: ConnId, lines: seq<string>, clock: nat -> int, i: nat,
                                          directory: string, dbFilename: string)
    requires StreamStore.NonEmptyStacks(s.streams)
    ensures var r := Session(s, conn, lines, clock, i, directory, dbFilename);
      && conn !in r.final.registry
      && r.final.registry.Keys <= s.registry.Keys - {conn}
      && r.final.offset >= s.offset
      && StreamStore.NonEmptyStacks(r.final.streams)
      && (forall j :: 0 <= j < |r.log| - 1 ==> r.log[j].Answered?)
    decreases |lines|
  {
    if lines != [] && Decoder.Decode(lines).Ok? {
      var (c, rest) := Decoder.Decode(lines).value;
      var step := Respond(s, conn, c, clock(i), directory, dbFilename);
      if step.outcome.Answered? {
        SessionInvariants(step.next, conn, rest, clock, i + 1, directory, dbFilename);
      }
    }
  }

  // ----- the server object -----

  class Master {
    const db: KeyValue.Database
    const directory: string
    const dbFilename: string
    var replicasWithOffset: map<ConnId, int>
    var offset: int

    ghost function State(): MasterState
      reads this, db, db.streamStore
    {
      MasterState(db.simpleKeyValue, db.expiryKey, db.streamStore.streams, replicasWithOffset, offset)
    }

    ghost predicate Valid()
      reads this, db, db.streamStore
    {
      db.Valid()
    }

    constructor (database: KeyValue.Database, directory: string, dbFilename: string)
      requires database.Valid()
      ensures Valid() && db == database && this.directory == directory && this.dbFilename == dbFilename
      ensures replicasWithOffset == map[] && offset == 0
    {
      db := database;
      this.directory := directory;
      this.dbFilename := dbFilename;
      replicasWithOffset := map[];
      offset := 0;
    }

    /** `updateOffset`: the offset grows by the command's replicated bytes. */
    method UpdateOffset(c: Command)
      modifies this
      ensures offset == old(offset) + ReplicatedBytes(c)
      ensures replicasWithOffset == old(replicasWithOffset)
    {
      offset := offset + ReplicatedBytes(c);
    }

    /** `propagateCommand`: account for the command, then send it to every replica. */
    method PropagateCommand(c: Command) returns (b: Broadcast)
      modifies this
      ensures offset == old(offset) + ReplicatedBytes(c)
      ensures replicasWithOffset == old(replicasWithOffset)
      ensures b == Broadcast(replicasWithOffset.Keys, ArrayOf(Elements(c)))
    {
      UpdateOffset(c);
      b := Broadcast(replicasWithOffset.Keys, ArrayOf(Elements(c)));
    }

    /** SET: store, reply, `propagateCommand`. */
    method SetCommand(c: Command, now: int) returns (outcome: Outcome)
      requires Valid() && c.Set?
      modifies this, db
      ensures Valid()
      ensures Step(outcome, State()) == SetStep(old(State()), c, now)
    {
      if c.expiryTime.Some? {
        var duration := ParseInt(c.expiryTime.value);
        if duration.None? {
          return Closed;
        }
        db.SetWithDuration(c.key, c.value, duration.value, now);
      } else {
        db.Set(c.key, c.value);
      }
      var forward := PropagateCommand(c);
      outcome := Answered([Wire(SimpleString("OK"))], [forward]);
    }

    /** REPLCONF: `computeIfPresent` on an ACK, "+OK" for listening-port and capa. */
    method ReplconfCommand(conn: ConnId, key: string, value: string) returns (outcome: Outcome)
      requires Valid()
      modifies this
      ensures Valid()
      ensures Step(outcome, State()) == ReplconfStep(old(State()), conn, key, value)
    {
      if ToLower(key) == "ack" && conn in replicasWithOffset {
        var n := ParseLong(value);
        if n.None? {
          return Closed;
        }
        replicasWithOffset := replicasWithOffset[conn := WrapLong(replicasWithOffset[conn] + n.value)];
      }
      outcome := Answered(if RepliesOk(key) then [Wire(SimpleString("OK"))] else [], []);
    }

    /** WAIT: capture the offset, probe every replica, count those in sync. */
    method WaitCommand() returns (outcome: Outcome)
      requires Valid()
      modifies this
      ensures Valid()
      ensures Step(outcome, State()) == WaitStep(old(State()))
    {
      var currentOffset := offset;
      if currentOffset == 0 {
        return Answered([Wire(Integer(|replicasWithOffset|))], []);
      }
      UpdateOffset(GetAck);
      var probes := Broadcast(replicasWithOffset.Keys, ArrayOf(Elements(GetAck)));
      var inSync := ReplicasInSync(replicasWithOffset, currentOffset);
      outcome := Answered([Wire(Integer(inSync))], [probes]);
    }

    /** XADD: `saveStream`, whose exceptions close the connection. */
    method XaddCommand(key: string, id: string, fields: LinkedMap.LinkedMap, now: int) returns (outcome: Outcome)
      requires Valid()
      modifies db.streamStore
      ensures Valid()
      ensures Step(outcome, State()) == XaddStep(old(State()), key, id, fields, now)
    {
      StreamProperties.PutOutcome(db.streamStore.streams, key, id, fields, now);
      var reply := db.SaveStream(key, id, fields, now);
      if reply.None? {
        return Closed;
      }
      outcome := Answered([XaddReply(reply.value)], []);
    }

    /** GET: the stored value, after a possible eviction. */
    method GetCommand(key: string, now: int) returns (outcome: Outcome)
      requires Valid()
      modifies db
      ensures Valid()
      ensures Step(outcome, State()) ==
        LookupStep(old(State()), OptionalBulkString(KeyValue.Lookup(old(db.simpleKeyValue), old(db.expiryKey), key, now)), key, now)
    {
      var stored := db.Get(key, now);
      outcome := Answered([Wire(OptionalBulkString(stored))], []);
    }

    /** TYPE: the type name, after a possible eviction. */
    method TypeCommand(key: string, now: int) returns (outcome: Outcome)
      requires Valid()
      modifies db
      ensures Valid()
      ensures Step(outcome, State()) ==
        LookupStep(old(State()), SimpleString(KeyValue.TypeName(KeyValue.Lookup(old(db.simpleKeyValue), old(db.expiryKey), key, now),
                                                                key in old(db.streamStore.streams))), key, now)
    {
      var t := db.Type(key, now);
      outcome := Answered([Wire(SimpleString(t))], []);
    }

    /** PSYNC: the full resynchronisation, and the connection joins the registry at offset 0. */
    method PsyncCommand(conn: ConnId) returns (outcome: Outcome)
      requires Valid()
      modifies this
      ensures Valid()
      ensures State() == old(State()).(registry := old(replicasWithOffset)[conn := 0])
      ensures outcome == Answered([Wire(SimpleString(FullResync)), Snapshot], [])
    {
      outcome := Answered([Wire(SimpleString(FullResync)), Snapshot], []);
      replicasWithOffset := replicasWithOffset[conn := 0];
    }

    /** XRANGE: the entries, or a closed connection when the range throws. */
    method XrangeCommand(key: string, start: string, end: string) returns (outcome: Outcome)
      ensures var entries := StreamStore.RangeSpec(db.streamStore.streams, key, start, end);
        outcome == if entries.None? then Closed else Answered([RangeReply(entries.value)], [])
    {
      var entries := db.Range(key, start, end);
      if entries.None? {
        return Closed;
      }
      outcome := Answered([RangeReply(entries.value)], []);
    }

    /** XREAD: the results, or a closed connection when the read throws. */
    method XreadCommand(requests: LinkedMap.LinkedMap) returns (outcome: Outcome)
      ensures var results := StreamStore.XreadSpec(db.streamStore.streams, requests);
        outcome == if results.None? then Closed else Answered([ReadReply(results.value)], [])
    {
      var results := db.Xread(requests);
      if results.None? {
        return Closed;
      }
      outcome := Answered([ReadReply(results.value)], []);
    }

    /** `respondToCommand`, with its effect on the store, the registry and the offset. */
    method RespondToCommand(conn: ConnId, c: Command, now: int) returns (outcome: Outcome)
      requires Valid()
      modifies this, db, db.streamStore
      ensures Valid()
      ensures Step(outcome, State()) == Respond(old(State()), conn, c, now, directory, dbFilename)
    {
      match c
      case Ping(_) =>
        outcome := Answered([Wire(SimpleString("PONG"))], []);
      case Echo(_, argument) =>
        outcome := Answered([Wire(BulkString(argument))], []);
      case Set(_, _, _, _) =>
        outcome := SetCommand(c, now);
      case Get(_, key) =>
        outcome := GetCommand(key, now);
      case Info(_, _) =>
        outcome := Answered([Wire(BulkStringOfLines(InfoLines(offset)))], []);
      case Replconf(_, key, value) =>
        outcome := ReplconfCommand(conn, key, value);
      case Psync(_, _, _) =>
        outcome := PsyncCommand(conn);
      case Wait(_, _, _) =>
        outcome := WaitCommand();
      case Config(_, _, value) =>
        outcome := Answered(ConfigReply(value, directory, dbFilename), []);
      case Type(_, key) =>
        outcome := TypeCommand(key, now);
      case Xadd(_, key, id, fields) =>
        outcome := XaddCommand(key, id, fields, now);
      case Xrange(_, key, start, end) =>
        outcome := XrangeCommand(key, start, end);
      case Xread(_, _, requests) =>
        outcome := XreadCommand(requests);
    }

    /** The `finally` of `handle`. */
    method Disconnect(conn: ConnId)
      modifies this
      ensures replicasWithOffset == old(replicasWithOffset) - {conn}
      ensures offset == old(offset)
    {
      replicasWithOffset := replicasWithOffset - {conn};
    }

    /** `handle`: one connection, from its first line to its removal from the registry. */
    method Handle(conn: ConnId, lines: seq<string>, clock: nat -> int) returns (log: seq<Outcome>)
      requires Valid()
      modifies this, db, db.streamStore
      ensures Valid()
      ensures SessionResult(log, State()) == Session(old(State()), conn, lines, clock, 0, directory, dbFilename)
    {
      ghost var whole := Session(State(), conn, lines, clock, 0, directory, dbFilename);
      log := [];
      var rest := lines;
      var i := 0;
      var closed := false;
      while rest != [] && !closed
        invariant Valid()
        invariant !closed ==> whole == Continue(log, Session(State(), conn, rest, clock, i, directory, dbFilename))
        invariant closed ==> whole == SessionResult(log, Disconnected(State(), conn))
        decreases |rest|, if closed then 0 else 1
      {
        ghost var before := State();
        var decoded := Decoder.DecodeAsArrayResp(rest);
        if decoded.Err? {
          log := log + [Closed];
          closed := true;
        } else {
          var (c, after) := decoded.value;
          var outcome := RespondToCommand(conn, c, clock(i));
          if outcome.Closed? {
            log := log + [Closed];
            closed := true;
          } else {
            SessionAnswered(before, conn, rest, clock, i, directory, dbFilename);
            ContinueAssoc(log, outcome, Session(State(), conn, after, clock, i + 1, directory, dbFilename));
            log := log + [outcome];
            rest := after;
            i := i + 1;
          }
        }
      }
      Disconnect(conn);
    }
  }

  /** The log so far followed by the rest of the session. */
  function Continue(log: seq<Outcome>, r: SessionResult): SessionResult {
    SessionResult(log + r.log, r.final)
  }

  lemma ContinueAssoc(log: seq<Outcome>, o: Outcome, r: SessionResult)
    ensures Continue(log, SessionResult([o] + r.log, r.final)) == Continue(log + [o], r)
  {
    assert log + ([o] + r.log) == (log + [o]) + r.log;
  }

  /** One answered command, then the rest of the session. */
  lemma SessionAnswered(s: MasterState, conn: ConnId, lines: seq<string>, clock: nat -> int, i: nat,
                        directory: string, dbFilename: string)
    requires StreamStore.NonEmptyStacks(s.streams) && lines != [] && Decoder.Decode(lines).Ok?
    requires Respond(s, conn, Decoder.Decode(lines).value.0, clock(i), directory, dbFilename).outcome.Answered?
    ensures var step := Respond(s, conn, Decoder.Decode(lines).value.0, clock(i), directory, dbFilename);
      var tail := Session(step.next, conn, Decoder.Decode(lines).value.1, clock, i + 1, directory, dbFilename);
      Session(s, conn, lines, clock, i, directory, dbFilename) == SessionResult([step.outcome] + tail.log, tail.final)
  {
  }

}

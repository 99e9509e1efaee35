/**
 * The follower's side of replication (Slave.java): the handshake with the
 * leader, the loop that applies the replicated stream to the local store
 * while counting the bytes it processed, and the two commands it answers to
 * its own clients. Sockets are left out: the leader's connection is the
 * sequence of lines it sends, and what the follower writes back is returned.
 */
module Follower {
  import opened Optional
  import opened Numerals
  import opened Text
  import opened Encoder
  import opened Commands
  import KeyValue
  import Decoder
  import CodecProperties
  import Leader

  // ----- the handshake -----

  /** What `connectToMaster` sends, in order: PING, the listening port, the capabilities, PSYNC. */
  function HandshakeMessages(port: int): (r: seq<string>)
    ensures |r| == 4
  {
    [ArrayOfOne("PING"),
     ArrayOf(["REPLCONF", "listening-port", IntToString(port)]),
     ArrayOf(["REPLCONF", "capa", "psync2"]),
     ArrayOf(["PSYNC", "?", "-1"])]
  }

  /** `command.split(" ")[0]`, which throws when the split is empty. */
  function FirstToken(line: string): Option<string> {
    var parts := Split(line, ' ');
    if parts == [] then None else Some(parts[0])
  }

  /** `receiveResponse`: a reply is accepted when its first token is "+PONG", "+OK" or "+FULLRESYNC". */
  predicate Accepted(line: string) {
    FirstToken(line).Some? && FirstToken(line).value in {"+PONG", "+OK", "+FULLRESYNC"}
  }

  /**
   * The handshake as a send, receive, send, ... exchange: every message waits
   * for one reply line, and the first rejected reply throws. The model also
   * stops at the end of the lines, where the code busy-waits on `ready()`. `sent` is what was written; `rest` what follows the
   * last reply when all four were accepted.
   */
  datatype HandshakeResult = HandshakeResult(sent: seq<string>, rest: Option<seq<string>>)

  function Exchange(messages: seq<string>, lines: seq<string>): (r: HandshakeResult)
    ensures |r.sent| <= |messages| && r.sent == messages[..|r.sent|]
    ensures r.rest.None? ==> |r.sent| > 0
    decreases |messages|
  {
    if messages == [] then HandshakeResult([], Some(lines))
    else if lines == [] || !Accepted(lines[0]) then HandshakeResult([messages[0]], None)
    else
      var tail := Exchange(messages[1..], lines[1..]);
      assert [messages[0]] + messages[1..][..|tail.sent|] == messages[..|tail.sent| + 1];
      HandshakeResult([messages[0]] + tail.sent, tail.rest)
  }

  /**
   * The exchange completes exactly when there is an accepted reply for every
   * message; then everything was sent and the lines after the replies are left.
   */
  lemma {:induction false} ExchangeCompletes(messages: seq<string>, lines: seq<string>)
    ensures var r := Exchange(messages, lines);
      r.rest.Some? <==> |lines| >= |messages| && forall i :: 0 <= i < |messages| ==> Accepted(lines[i])
    ensures var r := Exchange(messages, lines);
      r.rest.Some? ==> r.sent == messages && r.rest.value == lines[|messages|..]
    decreases |messages|
  {
    if messages != [] && lines != [] && Accepted(lines[0]) {
      var tail := Exchange(messages[1..], lines[1..]);
      ExchangeCompletes(messages[1..], lines[1..]);
      assert Exchange(messages, lines) == HandshakeResult([messages[0]] + tail.sent, tail.rest);
      assert [messages[0]] + messages[1..] == messages;
      if |lines| >= |messages| {
        assert lines[1..][|messages| - 1..] == lines[|messages|..];
        AcceptedShift(lines, |messages|);
      }
    }
  }

  lemma AcceptedShift(lines: seq<string>, n: nat)
    requires 0 < n <= |lines| && Accepted(lines[0])
    ensures (forall i :: 0 <= i < n ==> Accepted(lines[i])) <==> (forall i :: 0 <= i < n - 1 ==> Accepted(lines[1..][i]))
  {
    var tail := lines[1..];
    if forall j :: 0 <= j < n - 1 ==> Accepted(tail[j]) {
      forall i | 0 <= i < n
        ensures Accepted(lines[i])
      {
        if i > 0 {
          assert lines[i] == tail[i - 1];
        }
      }
    }
    if forall i :: 0 <= i < n ==> Accepted(lines[i]) {
      forall j | 0 <= j < n - 1
        ensures Accepted(tail[j])
      {
        assert tail[j] == lines[j + 1];
      }
    }
  }

  function Handshake(port: int, lines: seq<string>): HandshakeResult {
    Exchange(HandshakeMessages(port), lines)
  }

  /** A failed handshake stops right after the message whose reply was rejected. */
  lemma {:induction false} HandshakeStopsAtRejection(messages: seq<string>, lines: seq<string>, k: nat)
    requires k < |messages| && k < |lines| && !Accepted(lines[k])
    requires forall i :: 0 <= i < k ==> Accepted(lines[i])
    ensures Exchange(messages, lines) == HandshakeResult(messages[..k + 1], None)
    decreases k
  {
    if k > 0 {
      HandshakeStopsAtRejection(messages[1..], lines[1..], k - 1);
      assert [messages[0]] + messages[1..][..k] == messages[..k + 1];
    }
  }

  lemma {:induction false} FieldsLastNonEmpty(s: string, c: char)
    requires s != [] && s[|s| - 1] != c
    ensures var f := Fields(s, c); f[|f| - 1] != ""
    decreases |s|
  {
    var i := IndexOf(s, c);
    if i < |s| {
      FieldsLastNonEmpty(s[i + 1..], c);
    }
  }

  /** The first token of "a b": a, when a holds no space and b does not end in one. */
  lemma FirstTokenOf(a: string, b: string)
    requires ' ' !in a && b != [] && b[|b| - 1] != ' '
    ensures FirstToken(a + " " + b) == Some(a)
  {
    var s := a + " " + b;
    assert s[|a|] == ' ';
    assert forall j :: 0 <= j < |a| ==> s[j] == a[j];
    assert IndexOf(s, ' ') == |a|;
    assert s[..|a|] == a;
    FieldsLastNonEmpty(s, ' ');
  }

  /** A line without a space is its own first token. */
  lemma WholeLineToken(line: string)
    requires ' ' !in line
    ensures FirstToken(line) == Some(line)
  {
    assert IndexOf(line, ' ') == |line|;
  }

  /** The line a simple-string reply reads back as. */
  lemma SimpleStringLine(s: string)
    requires NoLineBreak(s)
    ensures ReadLines(SimpleString(s))[0] == "+" + s
  {
    SimpleStringLines(s, "");
    assert SimpleString(s) + "" == SimpleString(s);
  }

  /** The leader's answer to PING is accepted. */
  lemma PongAccepted()
    ensures ReadLines(SimpleString("PONG"))[0] == "+PONG" && Accepted("+PONG")
  {
    SimpleStringLine("PONG");
    assert "+" + "PONG" == "+PONG";
    WholeLineToken("+PONG");
  }

  /** The leader's answer to REPLCONF listening-port and capa is accepted. */
  lemma OkAccepted()
    ensures ReadLines(SimpleString("OK"))[0] == "+OK" && Accepted("+OK")
  {
    SimpleStringLine("OK");
    assert "+" + "OK" == "+OK";
    WholeLineToken("+OK");
  }

  /** The leader's answer to PSYNC, the line "+FULLRESYNC <id> 0" before its CRLF, is accepted. */
  lemma FullResyncAccepted()
    ensures SimpleString(Leader.FullResync) == "+" + Leader.FullResync + "\r\n"
    ensures Accepted("+" + Leader.FullResync)
  {
    var id := Leader.ReplicationId + " 0";
    MarkerHasNoSpace();
    FullResyncLine();
    assert id[|id| - 1] == '0';
    FirstTokenOf("+FULLRESYNC", id);
  }

  lemma MarkerHasNoSpace()
    ensures ' ' !in "+FULLRESYNC"
  {
  }

  lemma FullResyncLine()
    ensures "+" + Leader.FullResync == "+FULLRESYNC" + " " + (Leader.ReplicationId + " 0")
  {
    var id := Leader.ReplicationId;
    var head := "+FULLRESYNC" + " ";
    ConcatAssoc("+", "FULLRESYNC " + id, " 0");
    ConcatAssoc("+", "FULLRESYNC ", id);
    assert "+" + "FULLRESYNC " == head;
    ConcatAssoc(head, id, " 0");
  }

  /**
   * Against the leader's answers (PONG to PING, OK to both REPLCONFs and
   * FULLRESYNC to PSYNC) the handshake sends all four messages and goes on
   * with the lines after the fourth reply.
   */
  lemma LeaderRepliesCompleteHandshake(port: int, rest: seq<string>)
    ensures Handshake(port, ["+PONG", "+OK", "+OK", "+" + Leader.FullResync] + rest) ==
      HandshakeResult(HandshakeMessages(port), Some(rest))
  {
    PongAccepted();
    OkAccepted();
    FullResyncAccepted();
    var lines := ["+PONG", "+OK", "+OK", "+" + Leader.FullResync] + rest;
    var messages := HandshakeMessages(port);
    forall i | 0 <= i < |messages|
      ensures Accepted(lines[i])
    {
      assert i == 0 || i == 1 || i == 2 || i == 3;
    }
    assert lines[4..] == rest;
    AllAccepted(messages, lines);
  }

  /** Accepted replies to every message complete the exchange. */
  lemma AllAccepted(messages: seq<string>, lines: seq<string>)
    requires |lines| >= |messages| && forall i :: 0 <= i < |messages| ==> Accepted(lines[i])
    ensures Exchange(messages, lines) == HandshakeResult(messages, Some(lines[|messages|..]))
  {
    ExchangeCompletes(messages, lines);
  }

  /**
   * What the leader's decoder reads off each handshake message, in the order
   * they are sent: PING, REPLCONF listening-port <port>, REPLCONF capa psync2
   * and PSYNC ? -1, each consuming its whole encoding.
   */
  lemma HandshakeMessagesDecode(port: int)
    requires IntMin <= port <= IntMax
    ensures Decoder.Decode(ReadLines(HandshakeMessages(port)[0])) == Decoder.Ok((Ping("PING"), []))
    ensures Decoder.Decode(ReadLines(HandshakeMessages(port)[1])) ==
      Decoder.Ok((Replconf("REPLCONF", "listening-port", IntToString(port)), []))
    ensures Decoder.Decode(ReadLines(HandshakeMessages(port)[2])) ==
      Decoder.Ok((Replconf("REPLCONF", "capa", "psync2"), []))
    ensures Decoder.Decode(ReadLines(HandshakeMessages(port)[3])) == Decoder.Ok((Psync("PSYNC", "?", "-1"), []))
  {
    HandshakeMessagesAre(port);
    PingMessageDecodes();
    ListeningPortMessageDecodes(port);
    CapaMessageDecodes();
    PsyncMessageDecodes();
  }

  lemma HandshakeMessagesAre(port: int)
    ensures HandshakeMessages(port)[0] == ArrayOfOne("PING")
    ensures HandshakeMessages(port)[1] == ArrayOf(["REPLCONF", "listening-port", IntToString(port)])
    ensures HandshakeMessages(port)[2] == ArrayOf(["REPLCONF", "capa", "psync2"])
    ensures HandshakeMessages(port)[3] == ArrayOf(["PSYNC", "?", "-1"])
  {
  }

  lemma PingMessageDecodes()
    ensures Decoder.Decode(ReadLines(ArrayOfOne("PING"))) == Decoder.Ok((Ping("PING"), []))
  {
    var c := Ping("PING");
    assert Elements(c) == ["PING"];
    assert ToLower("PING") == "ping";
    assert NoLineBreaks(["PING"]) by { assert ["PING"][1..] == []; }
    assert CodecProperties.ShortElements(["PING"]) by { assert ["PING"][1..] == []; }
    CodecProperties.DecodeRoundTrip(c);
  }

  /** Three elements without line breaks, each short, meet the encoder's conditions together. */
  lemma CleanTriple(a: string, b: string, c: string)
    requires NoLineBreak(a) && NoLineBreak(b) && NoLineBreak(c)
    requires |a| <= IntMax && |b| <= IntMax && |c| <= IntMax
    ensures NoLineBreaks([a, b, c]) && CodecProperties.ShortElements([a, b, c])
  {
    assert [a, b, c][1..] == [b, c] && [b, c][1..] == [c] && [c][1..] == [];
    assert NoLineBreaks([c]) && CodecProperties.ShortElements([c]);
    assert NoLineBreaks([b, c]) && CodecProperties.ShortElements([b, c]);
  }

  /** The REPLCONF verb and its two fixed arguments: no line breaks, and the verb lower-cases to its name. */
  lemma ReplconfWords()
    ensures ToLower("REPLCONF") == "replconf"
    ensures NoLineBreak("REPLCONF") && NoLineBreak("listening-port") && NoLineBreak("capa") && NoLineBreak("psync2")
  {
    ReplconfArguments();
  }

  lemma ReplconfArguments()
    ensures NoLineBreak("REPLCONF") && NoLineBreak("listening-port") && NoLineBreak("capa") && NoLineBreak("psync2")
  {
  }

  lemma ListeningPortMessageDecodes(port: int)
    requires IntMin <= port <= IntMax
    ensures Decoder.Decode(ReadLines(ArrayOf(["REPLCONF", "listening-port", IntToString(port)]))) ==
      Decoder.Ok((Replconf("REPLCONF", "listening-port", IntToString(port)), []))
  {
    var p := IntToString(port);
    var c := Replconf("REPLCONF", "listening-port", p);
    assert Elements(c) == ["REPLCONF", "listening-port", p];
    ReplconfWords();
    NumeralHasNoLineBreak(port);
    IntToStringShort(port);
    CleanTriple("REPLCONF", "listening-port", p);
    CodecProperties.DecodeRoundTrip(c);
  }

  lemma CapaMessageDecodes()
    ensures Decoder.Decode(ReadLines(ArrayOf(["REPLCONF", "capa", "psync2"]))) ==
      Decoder.Ok((Replconf("REPLCONF", "capa", "psync2"), []))
  {
    var c := Replconf("REPLCONF", "capa", "psync2");
    assert Elements(c) == ["REPLCONF", "capa", "psync2"];
    ReplconfWords();
    CleanTriple("REPLCONF", "capa", "psync2");
    CodecProperties.DecodeRoundTrip(c);
  }

  lemma PsyncMessageDecodes()
    ensures Decoder.Decode(ReadLines(ArrayOf(["PSYNC", "?", "-1"]))) == Decoder.Ok((Psync("PSYNC", "?", "-1"), []))
  {
    var c := Psync("PSYNC", "?", "-1");
    assert Elements(c) == ["PSYNC", "?", "-1"];
    assert ToLower("PSYNC") == "psync";
    assert NoLineBreak("PSYNC");
    assert NoLineBreak("?");
    assert NoLineBreak("-1");
    CleanTriple("PSYNC", "?", "-1");
    CodecProperties.DecodeRoundTrip(c);
  }

  // ----- the replication stream -----

  datatype FollowerState = FollowerState(values: map<string, string>, expiry: map<string, int>, processed: int)

  /** What one replicated command does: an optional write back to the leader, or an exception. */
  datatype Applied = Applied(reply: Option<string>, next: FollowerState) | Stopped

  /** `updateReplicatedBytes`: the counter is a Java `int`, so the sum wraps at 32 bits. */
  function Count(s: FollowerState, c: Command): (r: FollowerState)
    ensures r.values == s.values && r.expiry == s.expiry
    ensures IntMin <= r.processed <= IntMax
    ensures IntMin <= s.processed + Leader.ReplicatedBytes(c) <= IntMax ==>
      r.processed == s.processed + |ArrayOf(Elements(c))|
  {
    Leader.ReplicatedBytesIsEncodedLength(c);
    s.(processed := WrapInt(s.processed + Leader.ReplicatedBytes(c)))
  }

  /** One step of the `connectToMaster` loop, at time `now`. */
  function ApplyOne(s: FollowerState, c: Command, now: int): Applied {
    match c
    case Set(_, key, value, expiryTime) =>
      if expiryTime.Some? && ParseInt(expiryTime.value).None? then Stopped
      else
        var expiry := if expiryTime.Some? then s.expiry[key := now + ParseInt(expiryTime.value).value] else s.expiry;
        Applied(None, Count(s.(values := s.values[key := value], expiry := expiry), c))
    case Replconf(_, key, _) =>
      if ToLower(key) == "getack" then
        Applied(Some(ArrayOf(["REPLCONF", "ACK", IntToString(s.processed)])), Count(s, c))
      else Applied(None, s)
    case Ping(_) => Applied(None, Count(s, c))
    case _ => Stopped
  }

  datatype ApplyResult = ApplyResult(acks: seq<string>, final: FollowerState)

  /**
   * The apply loop over the leader's lines after the snapshot: it runs until
   * a decode or a command throws. At a clean end of the lines the code
   * busy-waits on `ready()` forever; the model stops there. Command i is
   * applied at `clock(i)`.
   */
  function Apply(s: FollowerState, lines: seq<string>, clock: nat -> int, i: nat): ApplyResult
    decreases |lines|
  {
    match Decoder.Decode(lines)
    case Err(_) => ApplyResult([], s)
    case Ok((c, rest)) =>
      match ApplyOne(s, c, clock(i))
      case Stopped => ApplyResult([], s)
      case Applied(reply, next) =>
        var tail := Apply(next, rest, clock, i + 1);
        ApplyResult((if reply.Some? then [reply.value] else []) + tail.acks, tail.final)
  }

  /** A replicated SET stores the value, with an expiry iff one is given, and counts its encoded length. */
  lemma ReplicatedSet(s: FollowerState, c: Command, now: int)
    requires c.Set? && (c.expiryTime.None? || ParseInt(c.expiryTime.value).Some?)
    requires IntMin <= s.processed + Leader.ReplicatedBytes(c) <= IntMax
    ensures var r := ApplyOne(s, c, now);
      && r.Applied? && r.reply == None
      && r.next.values == s.values[c.key := c.value]
      && (c.expiryTime.None? ==> r.next.expiry == s.expiry)
      && (c.expiryTime.Some? ==> r.next.expiry == s.expiry[c.key := now + ParseInt(c.expiryTime.value).value])
      && r.next.processed == s.processed + |ArrayOf(Elements(c))|
  {
  }

  /** A SET with an expiry that is not an `int` throws, and ends the loop, before anything is stored. */
  lemma MalformedExpiryStops(s: FollowerState, c: Command, now: int)
    requires c.Set? && c.expiryTime.Some? && ParseInt(c.expiryTime.value).None?
    ensures ApplyOne(s, c, now) == Stopped
  {
  }

  /** A replicated PING only counts its bytes: 14, "*1\r\n$4\r\nPING\r\n", for the verb "PING". */
  lemma ReplicatedPing(s: FollowerState, c: Command, now: int)
    requires c.Ping?
    ensures ApplyOne(s, c, now) == Applied(None, s.(processed := WrapInt(s.processed + 9 + |IntToString(|c.commandType|)| + |c.commandType|)))
    ensures c.commandType == "PING" ==> ApplyOne(s, c, now) == Applied(None, s.(processed := WrapInt(s.processed + 14)))
  {
    var es := Elements(c);
    assert es == [c.commandType];
    assert IntToString(1) == "1";
    assert Leader.ElementBytes(es) == 3 + |IntToString(|c.commandType|)| + |c.commandType| + 2 + Leader.ElementBytes(es[1..]);
    assert Leader.ReplicatedBytes(c) == 9 + |IntToString(|c.commandType|)| + |c.commandType|;
    assert IntToString(4) == "4";
  }

  /**
   * REPLCONF GETACK answers "REPLCONF ACK <counter>" with the counter from
   * before the GETACK, and only then counts the GETACK itself.
   */
  lemma GetAckReportsPreviousCount(s: FollowerState, c: Command, now: int)
    requires c.Replconf? && EqualsIgnoreCase(c.key, "getack")
    ensures var r := ApplyOne(s, c, now);
      && r.Applied? && r.reply == Some(ArrayOf(["REPLCONF", "ACK", IntToString(s.processed)]))
      && r.next == s.(processed := WrapInt(s.processed + Leader.ReplicatedBytes(c)))
  {
    GetackIsLowerCase();
  }

  lemma GetackIsLowerCase()
    ensures ToLower("getack") == "getack"
  {
    ToLowerOfLowerCase("getack");
  }

  /** Any other REPLCONF neither replies nor counts. */
  lemma OtherReplconfIgnored(s: FollowerState, c: Command, now: int)
    requires c.Replconf? && !EqualsIgnoreCase(c.key, "getack")
    ensures ApplyOne(s, c, now) == Applied(None, s)
  {
    GetackIsLowerCase();
  }

  /** Every verb but SET, REPLCONF and PING throws on the replication connection. */
  lemma OtherVerbsStop(s: FollowerState, c: Command, now: int)
    requires !c.Set? && !c.Replconf? && !c.Ping?
    ensures ApplyOne(s, c, now) == Stopped
  {
  }

  /** A decode that throws ends the loop: nothing is applied and nothing is acknowledged. */
  lemma UndecodableStops(s: FollowerState, lines: seq<string>, clock: nat -> int, i: nat)
    requires Decoder.Decode(lines).Err?
    ensures Apply(s, lines, clock, i) == ApplyResult([], s)
  {
  }

  /**
   * The lines of one command the leader broadcast are applied as that
   * command, and the stream then ends: this ties the follower's loop to the
   * leader's encoding.
   */
  lemma AppliesWhatTheLeaderSent(s: FollowerState, c: Command, clock: nat -> int, i: nat)
    requires CodecProperties.RoundTripVariant(c) && ToLower(c.commandType) == VerbName(c)
    requires |Elements(c)| <= IntMax && NoLineBreaks(Elements(c)) && CodecProperties.ShortElements(Elements(c))
    ensures var r := Apply(s, ReadLines(ArrayOf(Elements(c))), clock, i);
      match ApplyOne(s, c, clock(i))
      case Stopped => r == ApplyResult([], s)
      case Applied(reply, next) => r == ApplyResult(if reply.Some? then [reply.value] else [], next)
  {
    CodecProperties.DecodeRoundTrip(c);
    assert Decoder.Decode([]).Err?;
  }

  /**
   * A SET with an expiry that the leader forwards has four elements without
   * the "PX" marker, which the decoder cannot read: the follower's loop ends
   * without storing anything.
   */
  lemma ForwardedExpiryStopsFollower(s: FollowerState, c: Command, clock: nat -> int, i: nat)
    requires c.Set? && c.expiryTime.Some? && ToLower(c.commandType) == "set"
    requires NoLineBreaks(Elements(c)) && CodecProperties.ShortElements(Elements(c))
    ensures Apply(s, ReadLines(ArrayOf(Elements(c))), clock, i) == ApplyResult([], s)
  {
    CodecProperties.ArrayRoundTrip(Elements(c));
    CodecProperties.SetWithExpiryDoesNotDecode(c);
  }

  // ----- downstream clients -----

  const InfoLines := ["# Replication", "role:slave", "master_repl_offset:0"]

  /** A client command on the follower: INFO and GET are answered, anything else throws. */
  datatype ClientStep = ClientStep(reply: string, next: FollowerState) | Unsupported

  function ClientReply(s: FollowerState, c: Command, now: int): (r: ClientStep)
    ensures r.ClientStep? <==> c.Info? || c.Get?
    ensures r.ClientStep? ==> r.next.processed == s.processed
    ensures c.Info? ==> r == ClientStep(BulkStringOfLines(InfoLines), s)
    ensures c.Get? ==> r.reply == OptionalBulkString(KeyValue.Lookup(s.values, s.expiry, c.value, now))
  {
    match c
    case Info(_, _) => ClientStep(BulkStringOfLines(InfoLines), s)
    case Get(_, key) =>
      var next := if KeyValue.IsExpired(s.expiry, key, now)
        then s.(values := s.values - {key}, expiry := s.expiry - {key}) else s;
      ClientStep(OptionalBulkString(KeyValue.Lookup(s.values, s.expiry, key, now)), next)
    case _ => Unsupported
  }

  /** A GET on the follower sees what the replicated SETs stored, and evicts only an expired key. */
  lemma ClientGetSeesLocalStore(s: FollowerState, c: Command, now: int)
    requires c.Get?
    ensures var r := ClientReply(s, c, now);
      && (KeyValue.IsExpired(s.expiry, c.value, now) ==> r.reply == "$-1\r\n" && c.value !in r.next.values)
      && (!KeyValue.IsExpired(s.expiry, c.value, now) ==> r.next == s)
      && (!KeyValue.IsExpired(s.expiry, c.value, now) && c.value in s.values ==> r.reply == BulkString(s.values[c.value]))
  {
  }

  // ----- the follower itself -----

  class Slave {
    const database: KeyValue.Database
    const port: int
    var numberOfProcessedBytes: int

    function State(): FollowerState
      reads this, database
    {
      FollowerState(database.simpleKeyValue, database.expiryKey, numberOfProcessedBytes)
    }

    /** Nothing has been processed before the handshake. */
    constructor (database: KeyValue.Database, port: int)
      ensures this.database == database && this.port == port
      ensures numberOfProcessedBytes == 0
    {
      this.database := database;
      this.port := port;
      numberOfProcessedBytes := 0;
    }

    /** `updateReplicatedBytes`. */
    method UpdateReplicatedBytes(c: Command)
      modifies this
      ensures State() == Count(old(State()), c)
    {
      numberOfProcessedBytes := WrapInt(numberOfProcessedBytes + Leader.ReplicatedBytes(c));
    }

    /** The body of the `connectToMaster` loop for one decoded command. */
    method ApplyCommand(c: Command, now: int) returns (applied: Applied)
      modifies this, database
      ensures applied.Applied? ==> applied.next == State()
      ensures applied.Stopped? ==> State() == old(State())
      ensures applied == ApplyOne(old(State()), c, now)
    {
      match c
      case Set(_, key, value, expiryTime) =>
        if expiryTime.Some? {
          var duration := ParseInt(expiryTime.value);
          if duration.None? {
            return Stopped;
          }
          database.SetWithDuration(key, value, duration.value, now);
        } else {
          database.Set(key, value);
        }
        UpdateReplicatedBytes(c);
        applied := Applied(None, State());
      case Replconf(_, key, _) =>
        if ToLower(key) == "getack" {
          var processedBytes := IntToString(numberOfProcessedBytes);
          UpdateReplicatedBytes(c);
          applied := Applied(Some(ArrayOf(["REPLCONF", "ACK", processedBytes])), State());
        } else {
          applied := Applied(None, State());
        }
      case Ping(_) =>
        UpdateReplicatedBytes(c);
        applied := Applied(None, State());
      case _ =>
        applied := Stopped;
    }

    /** The `connectToMaster` loop: apply the leader's stream until something throws. */
    method ApplyStream(lines: seq<string>, clock: nat -> int) returns (acks: seq<string>)
      modifies this, database
      ensures ApplyResult(acks, State()) == Apply(old(State()), lines, clock, 0)
    {
      ghost var whole := Apply(State(), lines, clock, 0);
      acks := [];
      var rest := lines;
      var i := 0;
      var stopped := false;
      while !stopped
        invariant !stopped ==> whole == Prefix(acks, Apply(State(), rest, clock, i))
        invariant stopped ==> whole == ApplyResult(acks, State())
        decreases |rest|, if stopped then 0 else 1
      {
        var decoded := Decoder.DecodeAsArrayResp(rest);
        if decoded.Err? {
          stopped := true;
        } else {
          var (c, after) := decoded.value;
          ghost var before := State();
          var applied := ApplyCommand(c, clock(i));
          if applied.Stopped? {
            stopped := true;
          } else {
            var written := if applied.reply.Some? then [applied.reply.value] else [];
            PrefixAssoc(acks, written, Apply(State(), after, clock, i + 1));
            acks := acks + written;
            rest := after;
            i := i + 1;
          }
        }
      }
    }

    /** The client `parseCommand` switch for one decoded command. */
    method RespondToClient(c: Command, now: int) returns (r: ClientStep)
      modifies database
      ensures r.ClientStep? ==> r.next == State()
      ensures r.Unsupported? ==> State() == old(State())
      ensures r == ClientReply(old(State()), c, now)
    {
      match c
      case Info(_, _) =>
        r := ClientStep(BulkStringOfLines(InfoLines), State());
      case Get(_, key) =>
        var storedValue := database.Get(key, now);
        r := ClientStep(OptionalBulkString(storedValue), State());
      case _ =>
        r := Unsupported;
    }
  }

  function Prefix(acks: seq<string>, r: ApplyResult): ApplyResult {
    ApplyResult(acks + r.acks, r.final)
  }

  lemma PrefixAssoc(acks: seq<string>, written: seq<string>, r: ApplyResult)
    ensures Prefix(acks, ApplyResult(written + r.acks, r.final)) == Prefix(acks + written, r)
  {
    assert acks + (written + r.acks) == (acks + written) + r.acks;
  }
}

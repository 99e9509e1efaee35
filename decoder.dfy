/**
 * The RESP2 request decoder (resp/Decoder.java): a client sends an array
 * of bulk strings ("sending commands to a Redis server" in the RESP
 * specification). The reader is the finite sequence of lines
 * `BufferedReader.readLine` would return; every decode returns the lines it
 * left unread. Every exception the code can throw on bad input is an
 * explicit `Err`.
 */
module Decoder {
  import opened Optional
  import opened Numerals
  import opened Text
  import opened LinkedMap
  import opened Commands

  datatype Failure =
    | EndOfStream          // `readLine()` returned null and the code dereferenced it
    | MalformedCount       // "*N" or "$N" without a parseable int after the marker
    | EmptyArray           // "*0"
    | MissingElement       // `elements.get(i)` or `keyValues.get(i)` past the end
    | UnknownVerb(verb: string)

  datatype Result<T> = Ok(value: T) | Err(failure: Failure)

  /** `parseInt(reader.readLine().substring(1))`: the count after the one-character marker, which is not checked. */
  function ReadCount(lines: seq<string>): (r: Result<int>)
    ensures r.Ok? ==> |lines| > 0 && |lines[0]| > 0 && ParseInt(lines[0][1..]) == Some(r.value)
    ensures r.Err? ==> r.failure == EndOfStream || r.failure == MalformedCount
  {
    if |lines| == 0 then Err(EndOfStream)
    else if |lines[0]| == 0 then Err(MalformedCount)
    else match ParseInt(lines[0][1..])
      case None => Err(MalformedCount)
      case Some(n) => Ok(n)
  }

  /** `decodeBulkString`: a "$len" line, whose len is parsed and then ignored, and the data line. */
  function ReadBulkString(lines: seq<string>): (r: Result<(string, seq<string>)>)
    ensures r.Ok? ==> |lines| >= 2 && r.value == (lines[1], lines[2..])
  {
    match ReadCount(lines)
    case Err(f) => Err(f)
    case Ok(_) => if |lines| < 2 then Err(EndOfStream) else Ok((lines[1], lines[2..]))
  }

  /** Prefixes acc to the elements of a successful read. */
  function PrependElements(acc: seq<string>, r: Result<(seq<string>, seq<string>)>): Result<(seq<string>, seq<string>)> {
    if r.Err? then r else Ok((acc + r.value.0, r.value.1))
  }

  /** N bulk strings in a row. */
  function ReadElements(lines: seq<string>, n: nat): (r: Result<(seq<string>, seq<string>)>)
    ensures r.Ok? ==> |r.value.0| == n && |r.value.1| <= |lines|
    decreases n
  {
    if n == 0 then Ok(([], lines))
    else match ReadBulkString(lines)
      case Err(f) => Err(f)
      case Ok((x, rest)) => PrependElements([x], ReadElements(rest, n - 1))
  }

  /** The array header and its elements; a negative count reads no element at all. */
  function ReadArray(lines: seq<string>): (r: Result<(seq<string>, seq<string>)>)
    ensures r.Ok? ==> |lines| > 0 && |lines[0]| > 0
    ensures r.Ok? && |r.value.0| > 0 ==> ParseInt(lines[0][1..]) == Some(|r.value.0|)
    ensures r.Ok? ==> |r.value.1| < |lines|
  {
    match ReadCount(lines)
    case Err(f) => Err(f)
    case Ok(n) =>
      if n == 0 then Err(EmptyArray)
      else if n < 0 then Ok(([], lines[1..]))
      else ReadElements(lines[1..], n)
  }

  // ----- the verb switch -----

  /** The XADD loop: pairs (0,1), (2,3), ... put into the map; an unpaired last field is past the end. */
  function FoldPairs(acc: LinkedMap, kv: seq<string>): (r: Result<LinkedMap>)
    ensures r.Err? <==> |kv| % 2 == 1
    ensures r.Err? ==> r.failure == MissingElement
    decreases |kv|
  {
    if |kv| == 0 then Ok(acc)
    else if |kv| == 1 then Err(MissingElement)
    else
      ParityStep(|kv|);
      FoldPairs(Put(acc, kv[0], kv[1]), kv[2..])
  }

  lemma ParityStep(n: nat)
    requires n >= 2
    ensures (n % 2 == 1) == ((n - 2) % 2 == 1)
  {
  }

  /** The XREAD loop: key i paired with id i + |keys|, later keys overwriting earlier ones. */
  function ZipPairs(acc: LinkedMap, keys: seq<string>, ids: seq<string>): (r: LinkedMap)
    requires |keys| <= |ids|
    ensures |r| <= |acc| + |keys|
    decreases |keys|
  {
    if keys == [] then acc else ZipPairs(Put(acc, keys[0], ids[0]), keys[1..], ids[1..])
  }

  /** The XREAD requests after the skipped prefix: the first half are keys, the second half their ids. */
  function XreadRequests(kv: seq<string>): (r: LinkedMap)
    ensures |r| <= |kv| / 2
  {
    var step := |kv| / 2;
    ZipPairs([], kv[..step], kv[step..])
  }

  /** `findBlock`: a block time iff element 1 is exactly "block". */
  function FindBlock(es: seq<string>): (r: Result<Option<string>>)
    ensures r.Ok? ==> |es| >= 2
    ensures r.Ok? && r.value.Some? <==> |es| >= 3 && es[1] == "block"
    ensures r.Ok? && r.value.Some? ==> r.value.value == es[2]
    ensures r.Err? <==> |es| < 2 || (|es| < 3 && es[1] == "block")
  {
    if |es| < 2 then Err(MissingElement)
    else if es[1] == "block" then (if |es| < 3 then Err(MissingElement) else Ok(Some(es[2])))
    else Ok(None)
  }

  /** The `switch` on the lower-cased verb; the verb itself is kept as received. */
  function CommandOf(es: seq<string>): (r: Result<Command>)
    ensures r.Ok? ==> |es| > 0 && r.value.commandType == es[0] && VerbName(r.value) == ToLower(es[0])
    ensures r.Err? ==> r.failure == MissingElement || r.failure.UnknownVerb?
    ensures r.Err? && r.failure.UnknownVerb? <==> |es| > 0 && ToLower(es[0]) !in Verbs
  {
    if |es| == 0 then Err(MissingElement)
    else
      var verb := ToLower(es[0]);
      if verb == "ping" then Ok(Ping(es[0]))
      else if verb == "echo" then (if |es| < 2 then Err(MissingElement) else Ok(Echo(es[0], es[1])))
      else if verb == "set" then
        if |es| == 3 then Ok(Set(es[0], es[1], es[2], None))
        else if |es| < 5 then Err(MissingElement)
        else Ok(Set(es[0], es[1], es[2], Some(es[4])))
      else if verb == "get" then (if |es| < 2 then Err(MissingElement) else Ok(Get(es[0], es[1])))
      else if verb == "info" then (if |es| < 2 then Err(MissingElement) else Ok(Info(es[0], es[1])))
      else if verb == "replconf" then (if |es| < 3 then Err(MissingElement) else Ok(Replconf(es[0], es[1], es[2])))
      else if verb == "psync" then (if |es| < 3 then Err(MissingElement) else Ok(Psync(es[0], es[1], es[2])))
      else if verb == "wait" then (if |es| < 3 then Err(MissingElement) else Ok(Wait(es[0], es[1], es[2])))
      else if verb == "config" then (if |es| < 3 then Err(MissingElement) else Ok(Config(es[0], es[1], es[2])))
      else if verb == "type" then (if |es| < 2 then Err(MissingElement) else Ok(Type(es[0], es[1])))
      else if verb == "xadd" then
        if |es| < 3 then Err(MissingElement)
        else match FoldPairs([], es[3..])
          case Err(f) => Err(f)
          case Ok(m) => Ok(Xadd(es[0], es[1], es[2], m))
      else if verb == "xrange" then
        (if |es| < 4 then Err(MissingElement) else Ok(Xrange(es[0], es[1], es[2], es[3])))
      else if verb == "xread" then
        match FindBlock(es)
        case Err(f) => Err(f)
        case Ok(block) =>
          var skip := if block.None? then 2 else 4;
          var kv := if |es| <= skip then [] else es[skip..];
          Ok(Xread(es[0], block, XreadRequests(kv)))
      else Err(UnknownVerb(es[0]))
  }

  /** `decodeAsArrayResp`: one command and the lines after it. */
  function Decode(lines: seq<string>): (r: Result<(Command, seq<string>)>)
    ensures r.Ok? ==> |r.value.1| < |lines|
  {
    match ReadArray(lines)
    case Err(f) => Err(f)
    case Ok((es, rest)) =>
      match CommandOf(es)
      case Err(f) => Err(f)
      case Ok(c) => Ok((c, rest))
  }

  /** `decodeSimpleString`: the next line; at end of stream `Optional.of(null)` throws. */
  function ReadSimpleString(lines: seq<string>): (r: Result<(string, seq<string>)>)
    ensures r.Ok? <==> |lines| > 0
    ensures r.Ok? ==> r.value == (lines[0], lines[1..])
  {
    if |lines| == 0 then Err(EndOfStream) else Ok((lines[0], lines[1..]))
  }

  // ----- the loops, as the code runs them -----

  /** The element loop of `decodeAsArrayResp`. */
  method ReadArrayLoop(lines: seq<string>) returns (r: Result<(seq<string>, seq<string>)>)
    ensures r == ReadArray(lines)
  {
    var count := ReadCount(lines);
    if count.Err? {
      return Err(count.failure);
    }
    var n := count.value;
    if n == 0 {
      return Err(EmptyArray);
    }
    var elements: seq<string> := [];
    var rest := lines[1..];
    var i := 0;
    if n > 0 {
      PrependNothing(ReadElements(rest, n));
    }
    while i < n
      invariant 0 <= i && (n > 0 ==> i <= n)
      invariant n < 0 ==> i == 0 && elements == [] && rest == lines[1..]
      invariant n > 0 ==> ReadElements(lines[1..], n) == PrependElements(elements, ReadElements(rest, n - i))
      decreases n - i
    {
      var bulk := ReadBulkString(rest);
      if bulk.Err? {
        return Err(bulk.failure);
      }
      var (x, after) := bulk.value;
      PrependAssoc(elements, [x], ReadElements(after, n - i - 1));
      elements := elements + [x];
      rest := after;
      i := i + 1;
    }
    if n > 0 {
      assert elements + [] == elements;
    }
    return Ok((elements, rest));
  }

  lemma PrependNothing(r: Result<(seq<string>, seq<string>)>)
    ensures PrependElements([], r) == r
  {
    if r.Ok? {
      assert [] + r.value.0 == r.value.0;
    }
  }

  lemma PrependAssoc(a: seq<string>, b: seq<string>, r: Result<(seq<string>, seq<string>)>)
    ensures PrependElements(a + b, r) == PrependElements(a, PrependElements(b, r))
  {
    if r.Ok? {
      assert a + b + r.value.0 == a + (b + r.value.0);
    }
  }

  /** The XADD field loop. */
  method XaddFields(kv: seq<string>) returns (r: Result<LinkedMap>)
    ensures r == FoldPairs([], kv)
  {
    var fields: LinkedMap := [];
    var i := 0;
    assert kv[i..] == kv;
    while i < |kv|
      invariant 0 <= i <= |kv| && i % 2 == 0
      invariant FoldPairs(fields, kv[i..]) == FoldPairs([], kv)
      decreases |kv| - i
    {
      if i + 1 >= |kv| {
        assert |kv[i..]| == 1;
        return Err(MissingElement);
      }
      assert kv[i..][2..] == kv[i + 2..];
      fields := Put(fields, kv[i], kv[i + 1]);
      i := i + 2;
    }
    assert kv[i..] == [];
    return Ok(fields);
  }

  /** The XREAD request loop. */
  method XreadPairs(kv: seq<string>) returns (m: LinkedMap)
    ensures m == XreadRequests(kv)
  {
    var step := |kv| / 2;
    var keys, ids := kv[..step], kv[step..];
    m := [];
    var i := 0;
    assert keys[i..] == keys && ids[i..] == ids;
    while i < step
      invariant 0 <= i <= step
      invariant ZipPairs(m, keys[i..], ids[i..]) == ZipPairs([], keys, ids)
      decreases step - i
    {
      ZipStep(m, keys, ids, i);
      m := Put(m, keys[i], ids[i]);
      i := i + 1;
    }
    assert keys[i..] == [];
  }

  /** One pass of the XREAD request loop. */
  lemma ZipStep(m: LinkedMap, keys: seq<string>, ids: seq<string>, i: nat)
    requires i < |keys| <= |ids|
    ensures ZipPairs(m, keys[i..], ids[i..]) == ZipPairs(Put(m, keys[i], ids[i]), keys[i + 1..], ids[i + 1..])
  {
    assert keys[i..][1..] == keys[i + 1..];
    assert ids[i..][1..] == ids[i + 1..];
  }

  /** The verb switch, running the two map-building loops. */
  method ParseVerb(es: seq<string>) returns (r: Result<Command>)
    ensures r == CommandOf(es)
  {
    if |es| == 0 {
      return Err(MissingElement);
    }
    var verb := ToLower(es[0]);
    if verb == "xadd" {
      var fields := XaddFields(if |es| < 3 then [] else es[3..]);
      if |es| < 3 {
        return Err(MissingElement);
      }
      r := if fields.Err? then Err(fields.failure) else Ok(Xadd(es[0], es[1], es[2], fields.value));
    } else if verb == "xread" {
      var block := FindBlock(es);
      if block.Err? {
        return Err(block.failure);
      }
      var skip := if block.value.None? then 2 else 4;
      var requests := XreadPairs(if |es| <= skip then [] else es[skip..]);
      r := Ok(Xread(es[0], block.value, requests));
    } else {
      r := CommandOf(es);
    }
  }

  /** `decodeAsArrayResp`. */
  method DecodeAsArrayResp(lines: seq<string>) returns (r: Result<(Command, seq<string>)>)
    ensures r == Decode(lines)
  {
    var read := ReadArrayLoop(lines);
    if read.Err? {
      return Err(read.failure);
    }
    var command := ParseVerb(read.value.0);
    if command.Err? {
      return Err(command.failure);
    }
    return Ok((command.value, read.value.1));
  }
}

/**
 * The stream store (db/StreamStore.java): a map from stream key to a stack
 * of entries, bottom first, top last. A Java exception (a failed parse, an
 * index out of bounds, the null dereference of a missing stack) is an
 * explicit `None` reply that leaves the store unchanged; the code throws
 * before it mutates anything.
 */
module StreamStore {
  import opened Optional
  import opened Numerals
  import opened Text
  import opened LinkedMap
  import opened Pairs
  import opened Entries

  const ZeroIdError := "ERR The ID specified in XADD must be greater than 0-0"
  const NotGreaterError := "ERR The ID specified in XADD is equal or smaller than the target stream top item"

  type Streams = map<string, seq<Entry>>

  /** Every stack is created with one entry pushed and never popped. */
  ghost predicate NonEmptyStacks(streams: Streams) {
    forall k :: k in streams ==> |streams[k]| > 0
  }

  function Top(stack: seq<Entry>): Entry
    requires |stack| > 0
  {
    stack[|stack| - 1]
  }

  /** Java `int` addition of one, wrapping at the top of the range. */
  function IntIncrement(i: int): int {
    if i == IntMax then IntMin else i + 1
  }

  /** What a bottom-up scan for the first entry with the given millis finds. */
  datatype Scan = Found(sequence: int) | NotFound | Thrown

  function ScanForMillis(entries: seq<Entry>, millis: int): Scan {
    if entries == [] then NotFound
    else match Millis(entries[0])
      case None => Thrown
      case Some(m) =>
        if m != millis then ScanForMillis(entries[1..], millis)
        else match SequenceNumber(entries[0])
          case None => Thrown
          case Some(s) => Found(s)
  }

  datatype PutResult = PutResult(reply: Option<Pair>, streams: Streams)

  /** `generateSequenceNumber`: the `<millis>-*` form of XADD. */
  function GenerateSpec(streams: Streams, key: string, fields: LinkedMap, millis: int): PutResult {
    if millis == 0 then
      PutResult(Some(Response("0-1")), streams[key := [Entry("0-1", fields)]])
    else if key !in streams then
      PutResult(None, streams)
    else match ScanForMillis(streams[key], millis)
      case Thrown => PutResult(None, streams)
      case Found(s) =>
        var id := MakeId(millis, IntIncrement(s));
        PutResult(Some(Response(id)), streams[key := streams[key] + [Entry(id, fields)]])
      case NotFound =>
        var id := MakeId(millis, 0);
        PutResult(Some(Response(id)), streams[key := [Entry(id, fields)]])
  }

  /** The acceptance test of an explicit id against the top item's (millis, sequence). */
  predicate ExceedsTop(millis: int, sequence: int, topMillis: int, topSequence: int) {
    if millis == topMillis then sequence > topSequence
    else if millis < topMillis then false
    else sequence > topSequence
  }

  /** `put(streamKey, value, map)`, i.e. one XADD, at wall-clock time `now`. */
  function PutSpec(streams: Streams, key: string, value: string, fields: LinkedMap, now: int): PutResult
    requires NonEmptyStacks(streams)
  {
    if value == "*" then
      var id := IntToString(now) + "-0";
      PutResult(Some(Response(id)), streams[key := [Entry(id, fields)]])
    else
      var parts := Split(value, '-');
      if |parts| < 2 || ParseLong(parts[0]).None? then PutResult(None, streams)
      else if parts[1] == "*" then GenerateSpec(streams, key, fields, ParseLong(parts[0]).value)
      else ExplicitSpec(streams, key, value, fields, ParseLong(parts[0]).value, parts[1])
  }

  /** The explicit `<millis>-<sequence>` form of XADD, validated against the top item. */
  function ExplicitSpec(streams: Streams, key: string, value: string, fields: LinkedMap,
                        millis: int, sequenceField: string): PutResult
    requires NonEmptyStacks(streams)
  {
    if key !in streams then
      PutResult(Some(Response(value)), streams[key := [Entry(value, fields)]])
    else match ParseLong(sequenceField)
      case None => PutResult(None, streams)
      case Some(sequence) =>
        if millis == 0 && sequence == 0 then PutResult(Some(Error(ZeroIdError)), streams)
        else
          var head := Top(streams[key]);
          match (Millis(head), SequenceNumber(head))
            case (Some(hm), Some(hs)) =>
              if ExceedsTop(millis, sequence, hm, hs) then
                PutResult(Some(Response(value)), streams[key := streams[key] + [Entry(value, fields)]])
              else PutResult(Some(Error(NotGreaterError)), streams)
            case _ => PutResult(None, streams)
  }

  // ----- XRANGE -----

  /** The inclusive window of one XRANGE: entries whose millis field equals `time`. */
  datatype Bounds = Bounds(time: string, low: int, high: int)

  /** `s.split("-")[0]`, None when the split is empty. */
  function FirstField(s: string): Option<string> {
    var parts := Split(s, '-');
    if |parts| == 0 then None else Some(parts[0])
  }

  /** `parseLong(s.split("-")[1])`. */
  function SecondFieldValue(s: string): Option<int> {
    var parts := Split(s, '-');
    if |parts| < 2 then None else ParseLong(parts[1])
  }

  /** `lowerBoundTime`: "-" takes the end's millis field. */
  function LowerBoundTime(start: string, end: string): Option<string> {
    if start == "-" then FirstField(end) else FirstField(start)
  }

  /** `lowerBoundSequenceNumber`: "-" is 0. */
  function LowerBoundSequenceNumber(start: string): Option<int> {
    if start == "-" then Some(0) else SecondFieldValue(start)
  }

  /** `upperBoundSequenceNumber`: "+" is Long.MAX_VALUE. */
  function UpperBoundSequenceNumber(end: string): Option<int> {
    if end == "+" then Some(LongMax) else SecondFieldValue(end)
  }

  /** The bounds `range` computes; the unused `endTime` split can still throw. */
  function RangeBounds(start: string, end: string): Option<Bounds> {
    match (LowerBoundTime(start, end), LowerBoundSequenceNumber(start), FirstField(end), UpperBoundSequenceNumber(end))
    case (Some(t), Some(lo), Some(_), Some(hi)) => Some(Bounds(t, lo, hi))
    case _ => None
  }

  /** An entry's millis field (as a string) and sequence (parsed as a long). */
  function EntryKey(e: Entry): Option<(string, int)> {
    var parts := Split(e.id, '-');
    if |parts| < 2 then None
    else match ParseLong(parts[1])
      case None => None
      case Some(s) => Some((parts[0], s))
  }

  predicate InRange(k: (string, int), b: Bounds) {
    b.time == k.0 && b.low <= k.1 <= b.high
  }

  /** Prefixes acc to a successful result. */
  function Prepend(acc: seq<Entry>, r: Option<seq<Entry>>): Option<seq<Entry>> {
    if r.None? then None else Some(acc + r.value)
  }

  lemma PrependNothing(r: Option<seq<Entry>>)
    ensures Prepend([], r) == r
  {
    if r.Some? {
      assert [] + r.value == r.value;
    }
  }

  lemma PrependReadsNothing(r: Option<seq<(string, seq<Entry>)>>)
    ensures PrependReads([], r) == r
  {
    if r.Some? {
      assert [] + r.value == r.value;
    }
  }

  lemma PrependAssoc(a: seq<Entry>, b: seq<Entry>, r: Option<seq<Entry>>)
    ensures Prepend(a + b, r) == Prepend(a, Prepend(b, r))
  {
    if r.Some? {
      assert a + b + r.value == a + (b + r.value);
    }
  }

  /** The loop of `range`: keep, in order, the entries inside the bounds. */
  function SelectRange(entries: seq<Entry>, b: Bounds): Option<seq<Entry>> {
    if entries == [] then Some([])
    else match EntryKey(entries[0])
      case None => None
      case Some(k) => Prepend(if InRange(k, b) then [entries[0]] else [], SelectRange(entries[1..], b))
  }

  function RangeSpec(streams: Streams, key: string, start: string, end: string): Option<seq<Entry>> {
    if key !in streams then Some([])
    else match RangeBounds(start, end)
      case None => None
      case Some(b) => SelectRange(streams[key], b)
  }

  // ----- XREAD -----

  /** The loop of `xread` for one key: entries whose sequence exceeds `base`, millis ignored. */
  function SelectAfter(entries: seq<Entry>, base: int): Option<seq<Entry>> {
    if entries == [] then Some([])
    else match EntryKey(entries[0])
      case None => None
      case Some(k) => Prepend(if k.1 > base then [entries[0]] else [], SelectAfter(entries[1..], base))
  }

  /** One key of an XREAD: an unknown key reads as empty without its id being parsed. */
  function ReadOne(streams: Streams, key: string, id: string): Option<seq<Entry>> {
    if key !in streams then Some([])
    else match SecondFieldValue(id)
      case None => None
      case Some(base) => SelectAfter(streams[key], base)
  }

  function XreadSpec(streams: Streams, requests: seq<(string, string)>): Option<seq<(string, seq<Entry>)>> {
    if requests == [] then Some([])
    else match ReadOne(streams, requests[0].0, requests[0].1)
      case None => None
      case Some(es) =>
        match XreadSpec(streams, requests[1..])
        case None => None
        case Some(rest) => Some([(requests[0].0, es)] + rest)
  }

  class Store {
    var streams: Streams

    ghost predicate Valid()
      reads this
    {
      NonEmptyStacks(streams)
    }

    constructor ()
      ensures Valid() && streams == map[]
    {
      streams := map[];
    }

    /** `put`: one XADD. */
    method Put(key: string, value: string, fields: LinkedMap, now: int) returns (r: Option<Pair>)
      requires Valid()
      modifies this
      ensures Valid()
      ensures PutResult(r, streams) == PutSpec(old(streams), key, value, fields, now)
    {
      if value == "*" {
        var id := IntToString(now) + "-0";
        streams := streams[key := [Entry(id, fields)]];
        return Some(Response(id));
      }
      var parts := Split(value, '-');
      if |parts| == 0 {
        return None;
      }
      var millis := ParseLong(parts[0]);
      if millis.None? || |parts| < 2 {
        return None;
      }
      if parts[1] == "*" {
        r := GenerateSequenceNumber(millis.value, key, fields);
      } else {
        r := PutExplicit(key, value, fields, millis.value, parts[1]);
      }
    }

    /** The rest of `put` once the id is known to be explicit. */
    method PutExplicit(key: string, value: string, fields: LinkedMap, millis: int, sequenceField: string)
      returns (r: Option<Pair>)
      requires Valid()
      modifies this
      ensures Valid()
      ensures PutResult(r, streams) == ExplicitSpec(old(streams), key, value, fields, millis, sequenceField)
    {
      if key !in streams {
        streams := streams[key := [Entry(value, fields)]];
        return Some(Response(value));
      }
      var sequence := ParseLong(sequenceField);
      if sequence.None? {
        return None;
      }
      if millis == 0 && sequence.value == 0 {
        return Some(Error(ZeroIdError));
      }
      var entries := streams[key];
      var head := entries[|entries| - 1];
      assert head == Top(old(streams)[key]);
      var headMillis := Millis(head);
      var headSequence := SequenceNumber(head);
      if headMillis.None? || headSequence.None? {
        return None;
      }
      ghost var accepted := ExceedsTop(millis, sequence.value, headMillis.value, headSequence.value);
      assert ExplicitSpec(old(streams), key, value, fields, millis, sequenceField) ==
        if accepted then PutResult(Some(Response(value)), streams[key := entries + [Entry(value, fields)]])
        else PutResult(Some(Error(NotGreaterError)), streams);
      if millis == headMillis.value {
        if sequence.value <= headSequence.value {
          return Some(Error(NotGreaterError));
        }
        streams := streams[key := entries + [Entry(value, fields)]];
        return Some(Response(value));
      }
      if millis < headMillis.value {
        return Some(Error(NotGreaterError));
      }
      if sequence.value <= headSequence.value {
        return Some(Error(NotGreaterError));
      }
      streams := streams[key := entries + [Entry(value, fields)]];
      return Some(Response(value));
    }

    /** `generateSequenceNumber`: scans the stack bottom-up for the first entry with these millis. */
    method GenerateSequenceNumber(millis: int, key: string, fields: LinkedMap) returns (r: Option<Pair>)
      requires Valid()
      modifies this
      ensures Valid()
      ensures PutResult(r, streams) == GenerateSpec(old(streams), key, fields, millis)
    {
      if millis == 0 {
        streams := streams[key := [Entry("0-1", fields)]];
        return Some(Response("0-1"));
      }
      if key !in streams {
        return None;
      }
      var entries := streams[key];
      var i := 0;
      while i < |entries|
        invariant 0 <= i <= |entries|
        invariant ScanForMillis(entries[i..], millis) == ScanForMillis(entries, millis)
        invariant streams == old(streams)
      {
        assert entries[i..][1..] == entries[i + 1..];
        var m := Millis(entries[i]);
        if m.None? {
          return None;
        }
        if m.value == millis {
          var s := SequenceNumber(entries[i]);
          if s.None? {
            return None;
          }
          var id := MakeId(millis, IntIncrement(s.value));
          streams := streams[key := entries + [Entry(id, fields)]];
          return Some(Response(id));
        }
        i := i + 1;
      }
      var id := MakeId(millis, 0);
      streams := streams[key := [Entry(id, fields)]];
      return Some(Response(id));
    }

    /** `range`: one XRANGE. */
    method Range(key: string, start: string, end: string) returns (r: Option<seq<Entry>>)
      ensures r == RangeSpec(streams, key, start, end)
    {
      if key !in streams {
        return Some([]);
      }
      var bounds := RangeBounds(start, end);
      if bounds.None? {
        return None;
      }
      var entries := streams[key];
      var b := bounds.value;
      var result: seq<Entry> := [];
      var i := 0;
      assert entries[i..] == entries;
      PrependNothing(SelectRange(entries, b));
      while i < |entries|
        invariant 0 <= i <= |entries|
        invariant Prepend(result, SelectRange(entries[i..], b)) == SelectRange(entries, b)
      {
        assert entries[i..][1..] == entries[i + 1..];
        var k := EntryKey(entries[i]);
        if k.None? {
          return None;
        }
        var kept := if InRange(k.value, b) then [entries[i]] else [];
        PrependAssoc(result, kept, SelectRange(entries[i + 1..], b));
        result := result + kept;
        i := i + 1;
      }
      assert entries[i..] == [];
      assert result + [] == result;
      return Some(result);
    }

    /** The per-key loop of `xread`. */
    method EntriesAfter(entries: seq<Entry>, base: int) returns (r: Option<seq<Entry>>)
      ensures r == SelectAfter(entries, base)
    {
      var result: seq<Entry> := [];
      var i := 0;
      assert entries[i..] == entries;
      PrependNothing(SelectAfter(entries, base));
      while i < |entries|
        invariant 0 <= i <= |entries|
        invariant Prepend(result, SelectAfter(entries[i..], base)) == SelectAfter(entries, base)
      {
        assert entries[i..][1..] == entries[i + 1..];
        var k := EntryKey(entries[i]);
        if k.None? {
          return None;
        }
        var kept := if k.value.1 > base then [entries[i]] else [];
        PrependAssoc(result, kept, SelectAfter(entries[i + 1..], base));
        result := result + kept;
        i := i + 1;
      }
      assert entries[i..] == [];
      assert result + [] == result;
      return Some(result);
    }

    /** `xread`: one XREAD over the requested keys, in request order. */
    method Xread(requests: LinkedMap) returns (r: Option<seq<(string, seq<Entry>)>>)
      ensures r == XreadSpec(streams, requests)
    {
      var result: seq<(string, seq<Entry>)> := [];
      var i := 0;
      assert requests[i..] == requests;
      PrependReadsNothing(XreadSpec(streams, requests));
      while i < |requests|
        invariant 0 <= i <= |requests|
        invariant XreadSpec(streams, requests) == PrependReads(result, XreadSpec(streams, requests[i..]))
      {
        var rest := requests[i..];
        assert rest[1..] == requests[i + 1..];
        var key := requests[i].0;
        var one: Option<seq<Entry>>;
        if key !in streams {
          one := Some([]);
        } else {
          var base := SecondFieldValue(requests[i].1);
          if base.None? {
            return None;
          }
          one := EntriesAfter(streams[key], base.value);
        }
        assert one == ReadOne(streams, rest[0].0, rest[0].1);
        if one.None? {
          return None;
        }
        var tail := XreadSpec(streams, requests[i + 1..]);
        if tail.Some? {
          assert result + [(key, one.value)] + tail.value == result + ([(key, one.value)] + tail.value);
        }
        result := result + [(key, one.value)];
        i := i + 1;
      }
      assert requests[i..] == [];
      assert result + [] == result;
      return Some(result);
    }

    /** `containsStream`. */
    predicate ContainsStream(key: string)
      reads this
    {
      key in streams
    }
  }

  function PrependReads(acc: seq<(string, seq<Entry>)>, r: Option<seq<(string, seq<Entry>)>>): Option<seq<(string, seq<Entry>)>> {
    if r.None? then None else Some(acc + r.value)
  }
}

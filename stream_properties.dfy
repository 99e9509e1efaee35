/**
 * What one XADD, XRANGE and XREAD on the stream store do, stated on the
 * specification functions that the `StreamStore.Store` methods are proved
 * equal to.
 */
module StreamProperties {
  import opened Optional
  import opened Numerals
  import opened Text
  import opened LinkedMap
  import opened Pairs
  import opened Entries
  import opened StreamStore

  // ----- ids -----

  /** An id built from two naturals splits back into its two numerals. */
  lemma SplitMadeId(millis: nat, sequence: nat)
    ensures Split(MakeId(millis, sequence), '-') == [NatToString(millis), NatToString(sequence)]
  {
    NatStringHasNoDash(millis);
    NatStringHasNoDash(sequence);
    SplitTwo(NatToString(millis), NatToString(sequence), '-');
    assert MakeId(millis, sequence) == NatToString(millis) + ['-'] + NatToString(sequence);
  }

  /** The `<millis>-*` form splits into the numeral and the star. */
  lemma SplitStarId(millis: nat)
    ensures Split(IntToString(millis) + "-*", '-') == [NatToString(millis), "*"]
  {
    NatStringHasNoDash(millis);
    SplitTwo(NatToString(millis), "*", '-');
    assert IntToString(millis) + "-*" == NatToString(millis) + ['-'] + "*";
  }

  /** A numeral is never the star. */
  lemma NumeralIsNotStar(n: nat)
    ensures NatToString(n) != "*" && IntToString(n) + "-*" != "*" && MakeId(n, 0) != "*"
  {
    var s := NatToString(n);
    assert IsDigit(s[0]);
    assert (IntToString(n) + "-*")[0] == s[0];
    assert MakeId(n, 0)[0] == s[0];
  }

  // ----- frame of one XADD -----

  /**
   * What every XADD outcome satisfies: only `key` is touched, every stack
   * stays non-empty, a failure or an error reply leaves the store as it was,
   * and a success leaves the returned id on top of the key's stack, which is
   * either the old stack with one more entry or a fresh one-entry stack.
   */
  ghost predicate WellFormedOutcome(streams: Streams, key: string, fields: LinkedMap, r: PutResult) {
    && NonEmptyStacks(r.streams)
    && (forall k :: k != key ==> (k in r.streams <==> k in streams))
    && (forall k :: k != key && k in streams ==> r.streams[k] == streams[k])
    && (r.reply.None? || r.reply.value.response.None? ==> r.streams == streams)
    && (r.reply.Some? ==> Valid(r.reply.value))
    && (r.reply.Some? && r.reply.value.response.Some? ==>
          var e := Entry(r.reply.value.response.value, fields);
          && key in r.streams
          && Top(r.streams[key]) == e
          && (r.streams[key] == [e] || (key in streams && r.streams[key] == streams[key] + [e])))
  }

  lemma GenerateOutcome(streams: Streams, key: string, fields: LinkedMap, millis: int)
    requires NonEmptyStacks(streams)
    ensures WellFormedOutcome(streams, key, fields, GenerateSpec(streams, key, fields, millis))
  {
    if millis == 0 {
      FreshOutcome(streams, key, Entry("0-1", fields));
    } else if key in streams {
      match ScanForMillis(streams[key], millis)
      case Found(s) => PushOutcome(streams, key, Entry(MakeId(millis, IntIncrement(s)), fields));
      case NotFound => FreshOutcome(streams, key, Entry(MakeId(millis, 0), fields));
      case Thrown =>
    }
  }

  /** Replacing a key's stack by a one-entry stack touches only that key and leaves `e` on top. */
  lemma FreshOutcome(streams: Streams, key: string, e: Entry)
    requires NonEmptyStacks(streams)
    ensures WellFormedOutcome(streams, key, e.pairs, PutResult(Some(Response(e.id)), streams[key := [e]]))
  {
  }

  lemma ExplicitOutcome(streams: Streams, key: string, value: string, fields: LinkedMap, millis: int, sequenceField: string)
    requires NonEmptyStacks(streams)
    ensures WellFormedOutcome(streams, key, fields, ExplicitSpec(streams, key, value, fields, millis, sequenceField))
  {
    var r := ExplicitSpec(streams, key, value, fields, millis, sequenceField);
    if key in streams && r.reply.Some? && r.reply.value.response.Some? {
      var e := Entry(value, fields);
      assert r.streams == streams[key := streams[key] + [e]];
      PushOutcome(streams, key, e);
    }
  }

  /** Pushing onto an existing stack touches only that stack and leaves `e` on top. */
  lemma PushOutcome(streams: Streams, key: string, e: Entry)
    requires NonEmptyStacks(streams) && key in streams
    ensures WellFormedOutcome(streams, key, e.pairs,
              PutResult(Some(Response(e.id)), streams[key := streams[key] + [e]]))
  {
  }

  /** Whatever the id, one XADD has a well-formed outcome. */
  lemma PutOutcome(streams: Streams, key: string, value: string, fields: LinkedMap, now: int)
    requires NonEmptyStacks(streams)
    ensures WellFormedOutcome(streams, key, fields, PutSpec(streams, key, value, fields, now))
  {
    if value != "*" {
      var parts := Split(value, '-');
      if |parts| >= 2 && ParseLong(parts[0]).Some? {
        if parts[1] == "*" {
          GenerateOutcome(streams, key, fields, ParseLong(parts[0]).value);
        } else {
          ExplicitOutcome(streams, key, value, fields, ParseLong(parts[0]).value, parts[1]);
        }
      }
    }
  }

  // ----- the "*" form -----

  /** `*` replaces the whole stream by one entry `<now>-0` and returns that id. */
  lemma StarReplacesStream(streams: Streams, key: string, fields: LinkedMap, now: int)
    requires NonEmptyStacks(streams)
    ensures var r := PutSpec(streams, key, "*", fields, now);
      && r.reply == Some(Response(IntToString(now) + "-0"))
      && r.streams == streams[key := [Entry(IntToString(now) + "-0", fields)]]
  {
  }

  // ----- the explicit form -----

  /** On an absent key an explicit id becomes the only entry, verbatim: even `0-0`. */
  lemma ExplicitOnNewKey(streams: Streams, key: string, millis: nat, sequence: nat, fields: LinkedMap, now: int)
    requires NonEmptyStacks(streams) && key !in streams
    requires millis <= LongMax
    ensures var id := MakeId(millis, sequence);
      PutSpec(streams, key, id, fields, now) == PutResult(Some(Response(id)), streams[key := [Entry(id, fields)]])
  {
    SplitMadeId(millis, sequence);
    NumeralIsNotStar(millis);
    NumeralIsNotStar(sequence);
    IntToStringParses(millis, LongMin, LongMax);
  }

  lemma ZeroIdAcceptedOnNewKey(streams: Streams, key: string, fields: LinkedMap, now: int)
    requires NonEmptyStacks(streams) && key !in streams
    ensures PutSpec(streams, key, "0-0", fields, now) == PutResult(Some(Response("0-0")), streams[key := [Entry("0-0", fields)]])
  {
    ExplicitOnNewKey(streams, key, 0, 0, fields, now);
    assert MakeId(0, 0) == "0-0";
  }

  /** On an existing stream `0-0` is refused and nothing changes. */
  lemma ZeroIdRejectedOnExistingKey(streams: Streams, key: string, fields: LinkedMap, now: int)
    requires NonEmptyStacks(streams) && key in streams
    ensures PutSpec(streams, key, "0-0", fields, now) == PutResult(Some(Error(ZeroIdError)), streams)
  {
    SplitMadeId(0, 0);
    assert MakeId(0, 0) == "0-0";
    NumeralIsNotStar(0);
    IntToStringParses(0, LongMin, LongMax);
  }

  /**
   * Against a well-formed top `hm-hs`, an explicit id `m-s` other than 0-0 is
   * pushed exactly when `m >= hm` and `s > hs`; otherwise the top-item error
   * comes back and nothing changes. This is not the order of real Redis ids:
   * a larger millis with a smaller sequence is refused.
   */
  lemma ExplicitOnExistingKey(streams: Streams, key: string, millis: nat, sequence: nat, fields: LinkedMap, now: int,
                              topMillis: int, topSequence: int)
    requires NonEmptyStacks(streams) && key in streams
    requires millis <= LongMax && sequence <= LongMax && (millis, sequence) != (0, 0)
    requires Millis(Top(streams[key])) == Some(topMillis) && SequenceNumber(Top(streams[key])) == Some(topSequence)
    ensures var id := MakeId(millis, sequence);
      PutSpec(streams, key, id, fields, now) ==
        if millis >= topMillis && sequence > topSequence then
          PutResult(Some(Response(id)), streams[key := streams[key] + [Entry(id, fields)]])
        else
          PutResult(Some(Error(NotGreaterError)), streams)
  {
    SplitMadeId(millis, sequence);
    NumeralIsNotStar(millis);
    NumeralIsNotStar(sequence);
    IntToStringParses(millis, LongMin, LongMax);
    IntToStringParses(sequence, LongMin, LongMax);
  }

  /** Top `1-5` refuses `2-3`, which real Redis would accept. */
  lemma LargerMillisSmallerSequenceRefused(streams: Streams, key: string, fields: LinkedMap, now: int)
    requires NonEmptyStacks(streams) && key in streams && Top(streams[key]).id == MakeId(1, 5)
    ensures PutSpec(streams, key, MakeId(2, 3), fields, now) == PutResult(Some(Error(NotGreaterError)), streams)
  {
    IdRoundTrip(1, 5, Top(streams[key]).pairs);
    ExplicitOnExistingKey(streams, key, 2, 3, fields, now, 1, 5);
  }

  /**
   * Adding an id is strict: once an id is on top (as every accepted XADD
   * leaves it, by `PutOutcome`), the same id is refused and the id with the
   * next sequence number is accepted.
   */
  lemma ExplicitPutIsStrict(streams: Streams, key: string, millis: nat, sequence: nat, fields: LinkedMap, now: int)
    requires NonEmptyStacks(streams) && key in streams
    requires millis <= LongMax && sequence < IntMax && (millis, sequence) != (0, 0)
    requires Top(streams[key]).id == MakeId(millis, sequence)
    ensures PutSpec(streams, key, MakeId(millis, sequence), fields, now) == PutResult(Some(Error(NotGreaterError)), streams)
    ensures PutSpec(streams, key, MakeId(millis, sequence + 1), fields, now).reply == Some(Response(MakeId(millis, sequence + 1)))
  {
    IdRoundTrip(millis, sequence, Top(streams[key]).pairs);
    ExplicitOnExistingKey(streams, key, millis, sequence, fields, now, millis, sequence);
    ExplicitOnExistingKey(streams, key, millis, sequence + 1, fields, now, millis, sequence);
  }

  // ----- the "<millis>-*" form -----

  /** `0-*` replaces the stream by the single entry `0-1`. */
  lemma GenerateZero(streams: Streams, key: string, fields: LinkedMap, now: int)
    requires NonEmptyStacks(streams)
    ensures PutSpec(streams, key, "0-*", fields, now) == PutResult(Some(Response("0-1")), streams[key := [Entry("0-1", fields)]])
  {
    SplitStarId(0);
    assert IntToString(0) + "-*" == "0-*";
    IntToStringParses(0, LongMin, LongMax);
  }

  /** `<millis>-*` on an absent key, millis not 0, dereferences the missing stack: it fails. */
  lemma GenerateOnAbsentKeyFails(streams: Streams, key: string, millis: nat, fields: LinkedMap, now: int)
    requires NonEmptyStacks(streams) && key !in streams
    requires 0 < millis <= LongMax
    ensures PutSpec(streams, key, IntToString(millis) + "-*", fields, now) == PutResult(None, streams)
  {
    SplitStarId(millis);
    NumeralIsNotStar(millis);
    IntToStringParses(millis, LongMin, LongMax);
  }

  /** No well-formed entry before it has these millis. */
  ghost predicate OtherMillis(entries: seq<Entry>, millis: int) {
    forall i :: 0 <= i < |entries| ==> Millis(entries[i]).Some? && Millis(entries[i]).value != millis
  }

  /** The bottom-up scan stops at the first entry carrying the millis. */
  lemma {:induction false} ScanFindsFirst(before: seq<Entry>, e: Entry, after: seq<Entry>, millis: int, sequence: int)
    requires OtherMillis(before, millis)
    requires Millis(e) == Some(millis) && SequenceNumber(e) == Some(sequence)
    ensures ScanForMillis(before + [e] + after, millis) == Found(sequence)
    decreases |before|
  {
    var all := before + [e] + after;
    if before == [] {
      assert all[0] == e;
    } else {
      assert all[0] == before[0];
      assert Millis(before[0]).Some? && Millis(before[0]).value != millis;
      assert all[1..] == before[1..] + [e] + after;
      assert OtherMillis(before[1..], millis) by {
        forall i | 0 <= i < |before| - 1
          ensures Millis(before[1..][i]).Some? && Millis(before[1..][i]).value != millis
        {
          assert before[1..][i] == before[i + 1];
        }
      }
      ScanFindsFirst(before[1..], e, after, millis, sequence);
    }
  }

  lemma {:induction false} ScanFindsNothing(entries: seq<Entry>, millis: int)
    requires OtherMillis(entries, millis)
    ensures ScanForMillis(entries, millis) == NotFound
    decreases |entries|
  {
    if entries != [] {
      ScanFindsNothing(entries[1..], millis);
    }
  }

  /**
   * `<millis>-*` takes the sequence of the FIRST entry from the bottom with
   * those millis, adds one and pushes that id on top: later entries with the
   * same millis are ignored, so the new id can repeat or undercut one below.
   */
  lemma GenerateAfterFirstMatch(streams: Streams, key: string, millis: nat, sequence: int, fields: LinkedMap, now: int,
                                before: seq<Entry>, e: Entry, after: seq<Entry>)
    requires NonEmptyStacks(streams) && key in streams
    requires 0 < millis <= LongMax
    requires streams[key] == before + [e] + after
    requires OtherMillis(before, millis)
    requires Millis(e) == Some(millis) && SequenceNumber(e) == Some(sequence)
    ensures var id := MakeId(millis, IntIncrement(sequence));
      PutSpec(streams, key, IntToString(millis) + "-*", fields, now) ==
        PutResult(Some(Response(id)), streams[key := streams[key] + [Entry(id, fields)]])
  {
    SplitStarId(millis);
    NumeralIsNotStar(millis);
    IntToStringParses(millis, LongMin, LongMax);
    ScanFindsFirst(before, e, after, millis, sequence);
  }

  /** With no entry carrying the millis, `<millis>-*` discards the stream for the single entry `<millis>-0`. */
  lemma GenerateWithoutMatch(streams: Streams, key: string, millis: nat, fields: LinkedMap, now: int)
    requires NonEmptyStacks(streams) && key in streams
    requires 0 < millis <= LongMax
    requires OtherMillis(streams[key], millis)
    ensures var id := MakeId(millis, 0);
      PutSpec(streams, key, IntToString(millis) + "-*", fields, now) ==
        PutResult(Some(Response(id)), streams[key := [Entry(id, fields)]])
  {
    SplitStarId(millis);
    NumeralIsNotStar(millis);
    IntToStringParses(millis, LongMin, LongMax);
    ScanFindsNothing(streams[key], millis);
  }

  /**
   * The generated sequence is Java `int` addition of one: two's-complement
   * wrap-around, so after Integer.MAX_VALUE comes Integer.MIN_VALUE.
   */
  lemma GeneratedSequenceWraps(sequence: int)
    requires IntMin <= sequence <= IntMax
    ensures IntIncrement(sequence) == WrapInt(sequence + 1)
    ensures sequence == IntMax ==> IntIncrement(sequence) == IntMin
  {
  }

  // ----- XRANGE and XREAD loops -----

  /** Both halves succeeded, concatenated. */
  function Concat(a: Option<seq<Entry>>, b: Option<seq<Entry>>): (r: Option<seq<Entry>>)
    ensures r.Some? <==> a.Some? && b.Some?
  {
    if a.Some? && b.Some? then Some(a.value + b.value) else None
  }

  lemma PrependConcat(kept: seq<Entry>, r: Option<seq<Entry>>, q: Option<seq<Entry>>)
    ensures Prepend(kept, Concat(r, q)) == Concat(Prepend(kept, r), q)
  {
    if r.Some? && q.Some? {
      assert kept + (r.value + q.value) == (kept + r.value) + q.value;
    }
  }

  /** The XRANGE selection distributes over concatenation, so it keeps the stack's order. */
  lemma {:induction false} SelectRangeAppend(a: seq<Entry>, b: seq<Entry>, bounds: Bounds)
    ensures SelectRange(a + b, bounds) == Concat(SelectRange(a, bounds), SelectRange(b, bounds))
    decreases |a|
  {
    if a == [] {
      assert a + b == b;
      PrependNothing(SelectRange(b, bounds));
    } else {
      assert (a + b)[0] == a[0];
      assert (a + b)[1..] == a[1..] + b;
      SelectRangeAppend(a[1..], b, bounds);
      var r := SelectRange(a[1..], bounds);
      var q := SelectRange(b, bounds);
      match EntryKey(a[0])
      case None =>
      case Some(k) =>
        var kept := if InRange(k, bounds) then [a[0]] else [];
        PrependConcat(kept, r, q);
    }
  }

  /** The XRANGE selection fails iff some entry's id does not split into millis and a long sequence. */
  lemma {:induction false} SelectRangeDefined(entries: seq<Entry>, bounds: Bounds)
    ensures SelectRange(entries, bounds).Some? <==> forall i :: 0 <= i < |entries| ==> EntryKey(entries[i]).Some?
    decreases |entries|
  {
    if entries != [] {
      SelectRangeDefined(entries[1..], bounds);
      assert forall i :: 1 <= i < |entries| ==> entries[i] == entries[1..][i - 1];
    }
  }

  /** An entry is selected by XRANGE exactly when it is stored and its key falls in the bounds. */
  lemma {:induction false} SelectRangeMembers(entries: seq<Entry>, bounds: Bounds, e: Entry)
    requires SelectRange(entries, bounds).Some?
    ensures e in SelectRange(entries, bounds).value <==>
      e in entries && EntryKey(e).Some? && InRange(EntryKey(e).value, bounds)
    decreases |entries|
  {
    if entries != [] {
      assert entries == [entries[0]] + entries[1..];
      SelectRangeMembers(entries[1..], bounds, e);
    }
  }

  /** The same two facts for the XREAD loop, which compares sequences only. */
  lemma {:induction false} SelectAfterAppend(a: seq<Entry>, b: seq<Entry>, base: int)
    ensures SelectAfter(a + b, base) == Concat(SelectAfter(a, base), SelectAfter(b, base))
    decreases |a|
  {
    if a == [] {
      assert a + b == b;
      PrependNothing(SelectAfter(b, base));
    } else {
      assert (a + b)[0] == a[0];
      assert (a + b)[1..] == a[1..] + b;
      SelectAfterAppend(a[1..], b, base);
      var r := SelectAfter(a[1..], base);
      var q := SelectAfter(b, base);
      match EntryKey(a[0])
      case None =>
      case Some(k) =>
        var kept := if k.1 > base then [a[0]] else [];
        PrependConcat(kept, r, q);
    }
  }

  lemma {:induction false} SelectAfterMembers(entries: seq<Entry>, base: int, e: Entry)
    requires SelectAfter(entries, base).Some?
    ensures e in SelectAfter(entries, base).value <==>
      e in entries && EntryKey(e).Some? && EntryKey(e).value.1 > base
    decreases |entries|
  {
    if entries != [] {
      var head := entries[0];
      var k := EntryKey(head).value;
      var kept := if k.1 > base then [head] else [];
      var tail := SelectAfter(entries[1..], base);
      assert SelectAfter(entries, base) == Prepend(kept, tail);
      assert SelectAfter(entries, base).value == kept + tail.value;
      SelectAfterMembers(entries[1..], base, e);
      assert e in entries <==> e == head || e in entries[1..] by {
        assert entries == [head] + entries[1..];
      }
    }
  }

  /** An unknown key reads as empty in XRANGE. */
  lemma RangeOfUnknownKey(streams: Streams, key: string, start: string, end: string)
    requires key !in streams
    ensures RangeSpec(streams, key, start, end) == Some([])
  {
  }

  /** The bounds of `- +`: the millis field is taken from "+", so only the sequence range is full. */
  lemma FullRangeBounds()
    ensures RangeBounds("-", "+") == Some(Bounds("+", 0, LongMax))
  {
    assert IndexOf("+", '-') == 1;
    assert Split("+", '-') == ["+"];
  }

  /** Hence `XRANGE key - +` selects no entry whose millis field is a numeral. */
  lemma FullRangeSelectsNoNumericId(streams: Streams, key: string, millis: nat, sequence: nat, pairs: LinkedMap)
    requires key in streams && RangeSpec(streams, key, "-", "+").Some?
    ensures Entry(MakeId(millis, sequence), pairs) !in RangeSpec(streams, key, "-", "+").value
  {
    FullRangeBounds();
    var e := Entry(MakeId(millis, sequence), pairs);
    SelectRangeMembers(streams[key], Bounds("+", 0, LongMax), e);
    SplitMadeId(millis, sequence);
    var s := NatToString(millis);
    assert IsDigit(s[0]);
  }

  /**
   * XREAD answers exactly the requested keys, in request order, each with the
   * stored entries whose sequence exceeds the requested one (an unknown key
   * with none); it fails iff one of the per-key reads does.
   */
  lemma {:induction false} XreadAnswersEachKey(streams: Streams, requests: seq<(string, string)>)
    ensures XreadSpec(streams, requests).Some? <==>
      forall i :: 0 <= i < |requests| ==> ReadOne(streams, requests[i].0, requests[i].1).Some?
    ensures XreadSpec(streams, requests).Some? ==>
      var r := XreadSpec(streams, requests).value;
      && |r| == |requests|
      && forall i :: 0 <= i < |r| ==> r[i] == (requests[i].0, ReadOne(streams, requests[i].0, requests[i].1).value)
    decreases |requests|
  {
    if requests != [] {
      XreadAnswersEachKey(streams, requests[1..]);
      assert forall i :: 1 <= i < |requests| ==> requests[i] == requests[1..][i - 1];
    }
  }
}

/**
 * The encoder, `elements()` and the decoder together: which commands come
 * back from the wire as they were sent, which do not, and the decoder's
 * leniencies.
 */
module CodecProperties {
  import opened Optional
  import opened Numerals
  import opened Text
  import opened LinkedMap
  import opened Encoder
  import opened Commands
  import opened Decoder

  /** Every element is short enough for its length to be an `int`. */
  predicate ShortElements(xs: seq<string>) {
    xs == [] || (|xs[0]| <= IntMax && ShortElements(xs[1..]))
  }

  /** A length header written by the encoder parses back to the length. */
  lemma HeaderParses(marker: char, n: nat)
    requires n <= IntMax
    ensures ReadCount([[marker] + IntToString(n)]) == Ok(n)
  {
    var line := [marker] + IntToString(n);
    assert line[1..] == IntToString(n);
    IntToStringParses(n, IntMin, IntMax);
  }

  lemma ReadCountOfFirst(lines: seq<string>, first: string, rest: seq<string>)
    requires lines == [first] + rest
    ensures ReadCount(lines) == ReadCount([first])
  {
  }

  /** Reading |xs| bulk strings off the encoder's lines gives xs back and leaves the rest. */
  lemma {:induction false} ReadBulkLines(xs: seq<string>, rest: seq<string>)
    requires ShortElements(xs)
    ensures ReadElements(BulkLines(xs) + rest, |xs|) == Ok((xs, rest))
    decreases |xs|
  {
    if xs == [] {
      assert BulkLines(xs) + rest == rest;
    } else {
      var after := BulkLines(xs[1..]) + rest;
      ReadFirstBulk(xs, rest);
      ReadBulkLines(xs[1..], rest);
      assert ReadElements(BulkLines(xs) + rest, |xs|) == PrependElements([xs[0]], ReadElements(after, |xs| - 1));
      assert [xs[0]] + xs[1..] == xs;
    }
  }

  /** The first bulk string of the encoder's lines reads back as the first element. */
  lemma ReadFirstBulk(xs: seq<string>, rest: seq<string>)
    requires xs != [] && |xs[0]| <= IntMax
    ensures ReadBulkString(BulkLines(xs) + rest) == Ok((xs[0], BulkLines(xs[1..]) + rest))
  {
    var head := ["$" + IntToString(|xs[0]|), xs[0]];
    assert BulkLines(xs) == head + BulkLines(xs[1..]);
    ConcatAssoc(head, BulkLines(xs[1..]), rest);
    BulkLengthNotChecked('$', |xs[0]|, xs[0], BulkLines(xs[1..]) + rest);
  }

  /**
   * The decoder reads back every array the encoder writes, provided no
   * element holds CR or LF (which would end a line early) and every count
   * fits an `int`.
   */
  lemma ArrayRoundTrip(xs: seq<string>)
    requires 0 < |xs| <= IntMax && NoLineBreaks(xs) && ShortElements(xs)
    ensures ReadArray(ReadLines(ArrayOf(xs))) == Ok((xs, []))
  {
    ArrayLines(xs);
    var header := "*" + IntToString(|xs|);
    var lines := ReadLines(ArrayOf(xs));
    assert lines == [header] + BulkLines(xs);
    ReadCountOfFirst(lines, header, BulkLines(xs));
    HeaderParses('*', |xs|);
    assert lines[1..] == BulkLines(xs) + [];
    ReadBulkLines(xs, []);
  }

  // ----- XADD fields -----

  /** In a map with distinct keys, the first key of the second part does not occur in the first. */
  lemma FirstKeyIsFresh(acc: seq<(string, string)>, m: seq<(string, string)>)
    requires m != [] && DistinctKeys(acc + m)
    ensures KeyIndex(acc, m[0].0) == |acc|
  {
    var s := acc + m;
    forall j | 0 <= j < |acc|
      ensures acc[j].0 != m[0].0
    {
      assert s[j] == acc[j] && s[|acc|] == m[0];
    }
  }

  /** Folding the flattened entries of a map with fresh keys appends that map. */
  lemma {:induction false} FoldFlatten(acc: LinkedMap, m: LinkedMap)
    requires DistinctKeys(acc + m)
    ensures FoldPairs(acc, Flatten(m)).Ok? && FoldPairs(acc, Flatten(m)).value == acc + m
    decreases |m|
  {
    if m == [] {
      assert acc + m == acc;
    } else {
      var k := m[0].0;
      var kv := Flatten(m);
      assert kv[0] == k && kv[1] == m[0].1 && kv[2..] == Flatten(m[1..]);
      FirstKeyIsFresh(acc, m);
      var next: LinkedMap := Put(acc, k, m[0].1);
      assert next == acc + [m[0]];
      ConcatAssoc(acc, [m[0]], m[1..]);
      assert [m[0]] + m[1..] == m;
      var rest: LinkedMap := m[1..];
      FoldFlatten(next, rest);
    }
  }

  /** A field repeated in one XADD keeps its first position and its last value. */
  lemma LaterFieldWins(f: string, v1: string, v2: string)
    ensures FoldPairs([], [f, v1, f, v2]).Ok? && FoldPairs([], [f, v1, f, v2]).value == [(f, v2)]
  {
    var kv := [f, v1, f, v2];
    var once: LinkedMap := Put([], f, v1);
    assert once == [(f, v1)];
    PutOverSingleton(f, v1, v2);
    assert kv[2..] == [f, v2] && kv[2..][2..] == [];
    assert FoldPairs([], kv) == FoldPairs(once, kv[2..]);
    assert FoldPairs(once, kv[2..]) == FoldPairs([(f, v2)], []);
  }

  /** Putting the only key again replaces its value in place. */
  lemma PutOverSingleton(f: string, v1: string, v2: string)
    ensures Put([(f, v1)], f, v2) == [(f, v2)]
  {
    var once: LinkedMap := [(f, v1)];
    var twice := Put(once, f, v2);
    assert HasKey(once, f);
    assert |twice| == 1 && Keys(twice)[0] == f;
    assert KeyIndex(twice, f) == 0;
  }

  // ----- XREAD requests -----

  function Zip(keys: seq<string>, ids: seq<string>): (r: seq<(string, string)>)
    requires |keys| == |ids|
    ensures |r| == |keys| && forall i :: 0 <= i < |r| ==> r[i] == (keys[i], ids[i])
  {
    if keys == [] then [] else [(keys[0], ids[0])] + Zip(keys[1..], ids[1..])
  }

  lemma {:induction false} ZipAppends(acc: LinkedMap, keys: seq<string>, ids: seq<string>)
    requires |keys| == |ids| && DistinctKeys(acc + Zip(keys, ids))
    ensures ZipPairs(acc, keys, ids) == acc + Zip(keys, ids)
    decreases |keys|
  {
    if keys == [] {
      assert acc + Zip(keys, ids) == acc;
    } else {
      var z := Zip(keys, ids);
      var k := keys[0];
      assert z[0] == (k, ids[0]) && z[1..] == Zip(keys[1..], ids[1..]);
      FirstKeyIsFresh(acc, z);
      var next: LinkedMap := Put(acc, k, ids[0]);
      assert next == acc + [z[0]];
      ConcatAssoc(acc, [z[0]], z[1..]);
      assert [z[0]] + z[1..] == z;
      ZipAppends(next, keys[1..], ids[1..]);
    }
  }

  /** With distinct keys, the second half of the request is taken as the ids of the first half, in order. */
  lemma XreadPairsHalves(keys: seq<string>, ids: seq<string>)
    requires |keys| == |ids| && DistinctKeys(Zip(keys, ids))
    ensures XreadRequests(keys + ids) == Zip(keys, ids)
  {
    var kv := keys + ids;
    assert |kv| / 2 == |keys|;
    assert kv[..|keys|] == keys && kv[|keys|..] == ids;
    assert [] + Zip(keys, ids) == Zip(keys, ids);
    ZipAppends([], keys, ids);
  }

  /** The XREAD arm of the verb switch. */
  lemma XreadCase(es: seq<string>)
    requires |es| > 0 && ToLower(es[0]) == "xread"
    ensures CommandOf(es) ==
      match FindBlock(es)
      case Err(f) => Err(f)
      case Ok(block) =>
        var skip := if block.None? then 2 else 4;
        Ok(Xread(es[0], block, XreadRequests(if |es| <= skip then [] else es[skip..])))
  {
  }

  /** `XREAD streams k1 .. kn id1 .. idn` decodes to the n requests, without a block time. */
  lemma XreadDecodes(cmd: string, marker: string, keys: seq<string>, ids: seq<string>)
    requires ToLower(cmd) == "xread" && marker != "block"
    requires |keys| == |ids| && DistinctKeys(Zip(keys, ids))
    ensures CommandOf([cmd, marker] + (keys + ids)) == Ok(Xread(cmd, None, Zip(keys, ids)))
  {
    var es := [cmd, marker] + (keys + ids);
    assert es[0] == cmd && es[1] == marker;
    assert FindBlock(es) == Ok(None);
    assert es[2..] == keys + ids;
    var kv := if |es| <= 2 then [] else es[2..];
    assert kv == keys + ids;
    XreadPairsHalves(keys, ids);
    XreadCase(es);
    assert CommandOf(es) == Ok(Xread(cmd, None, XreadRequests(kv)));
  }

  // ----- which commands come back -----

  /** The variants whose `elements()` the decoder maps back to the same command. */
  predicate RoundTripVariant(c: Command) {
    c.Ping? || c.Echo? || c.Get? || c.Replconf? || c.Psync? || c.Wait? || c.Config? || c.Type? ||
    c.Xrange? || c.Xadd? || (c.Set? && c.expiryTime.None?)
  }

  lemma CommandRoundTrip(c: Command)
    requires RoundTripVariant(c) && ToLower(c.commandType) == VerbName(c)
    ensures CommandOf(Elements(c)) == Ok(c)
  {
    if c.Xadd? {
      XaddRoundTrip(c);
    }
  }

  lemma XaddRoundTrip(c: Command)
    requires c.Xadd? && ToLower(c.commandType) == "xadd"
    ensures CommandOf(Elements(c)) == Ok(c)
  {
    var es := Elements(c);
    assert es == [c.commandType, c.streamKey, c.streamKeyValue] + Flatten(c.values);
    assert es[0] == c.commandType && es[1] == c.streamKey && es[2] == c.streamKeyValue;
    assert es[3..] == Flatten(c.values);
    assert [] + c.values == c.values;
    FoldFlatten([], c.values);
    XaddCase(es);
  }

  /** The SET arm of the verb switch: three elements carry no expiry, otherwise the expiry is element 4. */
  lemma SetCase(es: seq<string>)
    requires |es| > 0 && ToLower(es[0]) == "set"
    ensures CommandOf(es) ==
      if |es| == 3 then Ok(Set(es[0], es[1], es[2], None))
      else if |es| < 5 then Err(MissingElement)
      else Ok(Set(es[0], es[1], es[2], Some(es[4])))
  {
  }

  /** Element 3 of a SET, the "PX" marker, is never looked at. */
  lemma PxMarkerNotInspected(es: seq<string>, marker: string)
    requires |es| >= 5 && ToLower(es[0]) == "set"
    ensures CommandOf(es[3 := marker]) == CommandOf(es)
  {
    SetCase(es);
    SetCase(es[3 := marker]);
  }

  /** The XADD arm of the verb switch. */
  lemma XaddCase(es: seq<string>)
    requires |es| > 0 && ToLower(es[0]) == "xadd"
    ensures CommandOf(es) ==
      if |es| < 3 then Err(MissingElement)
      else match FoldPairs([], es[3..])
        case Err(f) => Err(f)
        case Ok(m) => Ok(Xadd(es[0], es[1], es[2], m))
  {
  }

  /**
   * Decoding the wire form of `elements()` gives the command back, for
   * PING, ECHO, GET, REPLCONF, PSYNC, WAIT, CONFIG, TYPE, XRANGE, XADD and
   * SET without an expiry, when the verb is spelt so that it lower-cases to
   * the variant's name.
   */
  lemma DecodeRoundTrip(c: Command)
    requires RoundTripVariant(c) && ToLower(c.commandType) == VerbName(c)
    requires |Elements(c)| <= IntMax && NoLineBreaks(Elements(c)) && ShortElements(Elements(c))
    ensures Decode(ReadLines(ArrayOf(Elements(c)))) == Ok((c, []))
  {
    ArrayRoundTrip(Elements(c));
    CommandRoundTrip(c);
  }

  /** SET with an expiry re-encodes without the "PX" marker: its four elements make the decoder read a fifth. */
  lemma SetWithExpiryDoesNotDecode(c: Command)
    requires c.Set? && c.expiryTime.Some? && ToLower(c.commandType) == "set"
    ensures CommandOf(Elements(c)) == Err(MissingElement)
  {
  }

  /** INFO re-encodes without its section, and the decoder requires one. */
  lemma InfoDoesNotDecode(c: Command)
    requires c.Info? && ToLower(c.commandType) == "info"
    ensures CommandOf(Elements(c)) == Err(MissingElement)
  {
  }

  /**
   * XREAD re-encodes its requests interleaved, key then id, while the
   * decoder expects all keys and then all ids after a "streams" marker: no
   * XREAD survives the trip, because the decoded request map is always
   * shorter or the block time differs.
   */
  lemma XreadDoesNotRoundTrip(c: Command)
    requires c.Xread? && ToLower(c.commandType) == "xread"
    ensures CommandOf(Elements(c)) != Ok(c)
  {
    var es := Elements(c);
    var n := |c.streamKeyWithId|;
    var block := FindBlock(es);
    if block.Ok? {
      var skip := if block.value.None? then 2 else 4;
      var kv := if |es| <= skip then [] else es[skip..];
      var decoded := XreadRequests(kv);
      if block.value == c.blockTime {
        if c.blockTime.None? {
          assert |es| == 1 + 2 * n;
          assert |kv| <= 2 * n - 1;
        } else {
          assert es[1] == c.blockTime.value;
          assert |es| == 2 + 2 * n;
          assert |kv| <= 2 * n - 2;
        }
        assert |decoded| < n;
      }
    }
  }

  // ----- leniencies -----

  /** "*0" is refused. */
  lemma EmptyArrayRefused(marker: char, rest: seq<string>)
    ensures Decode([[marker] + "0"] + rest) == Err(EmptyArray)
  {
    var lines := [[marker] + "0"] + rest;
    assert lines[0][1..] == "0";
    assert ParseInt("0") == Some(0) by {
      assert DigitsValue("0") == 0 by {
        assert "0"[..0] == "";
      }
    }
  }

  /** The declared length of a bulk string is parsed but not compared with the data line. */
  lemma BulkLengthNotChecked(marker: char, declared: nat, data: string, rest: seq<string>)
    requires declared <= IntMax
    ensures ReadBulkString([[marker] + IntToString(declared), data] + rest) == Ok((data, rest))
  {
    var lines := [[marker] + IntToString(declared), data] + rest;
    ReadCountOfFirst(lines, lines[0], [data] + rest);
    HeaderParses(marker, declared);
    assert lines[2..] == rest;
  }
}

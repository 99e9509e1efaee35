# A model of a small Redis clone's core, in Dafny

This project models the core of a Java Redis clone: a server that speaks RESP2 and runs as a leader ("master") or a follower ("slave") with replication. The model covers:

- **Key-value store** (`db/Database.java`, and the older `Database.java`). Values have lazy expiry: `get` evicts a key whose absolute expiry instant has passed. A key without an expiry is judged against "now plus two minutes". `type` names a key "string", "stream" or "none".
- **Stream store** (`db/StreamStore.java`, with `db/Entries.java` and `db/Pair.java`). It holds a map from stream key to a stack of entries. It serves XADD in its three id forms (`*`, `<millis>-*` and explicit `<millis>-<seq>`), XRANGE and XREAD.
- **RESP2 encoder** (`resp/Encoder.java` and the older `Encoder.java`). The model also covers the strings `BufferedReader.readLine` returns for what the encoder writes.
- **Commands** (`resp/Command.java`) and `elements()`, the strings a command is re-encoded from when it is replicated.
- **Request decoder** (`resp/Decoder.java`). It reads one array of bulk strings and dispatches on the lower-cased verb. Every exception it can throw on bad input is an explicit error.
- **Leader** (`Master.java`). It keeps a registry of replicas and the offset each has acknowledged, plus a global replication offset. It answers each command, forwards writes to every replica, and answers WAIT with the number of in-sync replicas.
- **Follower** (`Slave.java`). It runs the four-message handshake, then applies the replicated stream while counting the bytes it processed in a 32-bit counter. It answers REPLCONF GETACK, and answers INFO and GET for its own clients.
- **Startup arguments** (`Configuration.java`): port, role, the leader's host and the leader's port.

How the model is built:

- Java exceptions are explicit values:
  - `Option`'s `None`;
  - `Decoder.Result`'s `Err`;
  - `Leader.Outcome.Closed`, a connection that `handle` closes;
  - `Follower.Applied.Stopped`, an apply loop that dies.
- Stateful objects are classes whose methods are proved equal to specification functions: `StreamStore.Store`, `KeyValue.Database`, `LegacyKeyValue.Database`, `Leader.Master` and `Follower.Slave`. The lemmas state the properties about those functions.
- Java `int` and `long` arithmetic is written out in these places:
  - the XADD sequence increment (`StreamStore.IntIncrement`);
  - the follower's byte counter (`Numerals.WrapInt`);
  - the ACK sum (`Numerals.WrapLong`).
- Two counts on the leader are unbounded integers instead: the per-command byte count (`Leader.ReplicatedBytes`) and the global offset (`Leader.Master.UpdateOffset`). "## Left out" says what this changes.
- `Integer.parseInt` and `Long.parseLong` keep their sign and range rules.
- `String.split` drops trailing empty fields, as in Java.

## Model

| member | source | states |
|---|---|---|
| Pairs.MakePair | src/main/java/db/Pair.java:12-22 | fails exactly when both sides are missing; otherwise keeps both sides and satisfies the non-empty invariant |
| Pairs.Response | src/main/java/db/Pair.java:20-22 | a response-only pair is valid and its actual value is the response |
| Pairs.Error | src/main/java/db/Pair.java:20-22 | an error-only pair is valid, has no response, and its actual value is the error |
| Pairs.MapPair | src/main/java/db/Pair.java:24-26 | mapping keeps which sides are present (so it never throws) and applies each function to its own side |
| Pairs.ActualValue | src/main/java/db/Pair.java:28-30 | the response when there is one, otherwise the error |
| Pairs.ActualValueOfMap | src/main/java/db/Pair.java:24-30 | the written XADD reply is the mapped response, or else the mapped error |
| Entries.IdRoundTrip | src/main/java/db/Entries.java:15-21 | `millis()` and `sequenceNumber()` read back the two numbers an id "m-s" was built from, for m a long and s an int |
| Entries.Millis | src/main/java/db/Entries.java:15-17 | `millis()`: the first "-" field parsed as a long; None where `parseLong` or the split throws |
| Entries.SequenceNumber | src/main/java/db/Entries.java:19-21 | `sequenceNumber()`: the second "-" field parsed as an int; None where `parseInt` or the index throws |
| Entries.MakeId | src/main/java/db/StreamStore.java:98 | the id string `millis + "-" + sequence` |
| Entries.NegativeSequenceDoesNotParse | src/main/java/db/Entries.java:19-21 | an id built with a negative sequence ("m--s") has an empty second field, so `sequenceNumber()` throws |
| LinkedMap.KeyIndex | src/main/java/resp/Decoder.java:76-78 | the position of the first entry with the key, or the length when the key is absent |
| LinkedMap.Keys | src/main/java/resp/Decoder.java:90-93 | one key per entry, in entry order |
| LinkedMap.Put | src/main/java/resp/Decoder.java:78 | afterwards the key maps to the value and every other key is unchanged; an existing key keeps its position, a new one is appended |
| LinkedMap.Flatten | src/main/java/resp/Command.java:153-158 | the entries laid out as key, value, key, value, with entry i at positions 2i and 2i+1 |
| StreamStore.PutSpec | src/main/java/db/StreamStore.java:27-80 | `put`: "*" replaces the stream with one entry "now-0"; "m-*" goes to the generator; an explicit id on a new key starts the stream; otherwise the explicit checks (the properties are `StreamProperties.PutOutcome` and the lemmas after it) |
| StreamStore.ExplicitSpec | src/main/java/db/StreamStore.java:45-79 | the explicit-id branch: new key, then "0-0" refused, then the comparison with the top item |
| StreamStore.GenerateSpec | src/main/java/db/StreamStore.java:82-108 | `generateSequenceNumber`: millis 0 gives "0-1"; else the first entry with these millis from the bottom gives its sequence plus one; else a new stream "m-0" |
| StreamStore.ScanForMillis | src/main/java/db/StreamStore.java:95-102 | the bottom-up scan for the first entry whose millis equal the requested ones, stopping where an accessor throws |
| StreamStore.RangeBounds | src/main/java/db/StreamStore.java:115-118 | `lowerBoundTime`, `lowerBoundSequenceNumber` and `upperBoundSequenceNumber` of one XRANGE, None where a split or parse throws |
| StreamStore.SelectRange | src/main/java/db/StreamStore.java:120-129 | the XRANGE loop: entries with the bound's millis field and a sequence inside the bounds, in stack order |
| StreamStore.RangeSpec | src/main/java/db/StreamStore.java:110-131 | `range`: an unknown key gives the empty stack, otherwise the bounds and the selection |
| StreamStore.SelectAfter | src/main/java/db/StreamStore.java:163-170 | the XREAD loop for one key: entries whose sequence exceeds the base, in stack order |
| StreamStore.XreadSpec | src/main/java/db/StreamStore.java:154-175 | `xread`: one answer per requested key, in request order |
| StreamStore.Store.ContainsStream | src/main/java/db/StreamStore.java:177-179 | `containsStream`: the key has a stack |
| StreamStore.Store.constructor | src/main/java/db/StreamStore.java:27-80 | a new store has no streams |
| StreamStore.Store.Put | src/main/java/db/StreamStore.java:27-80 | one XADD is exactly `PutSpec` (reply and new streams), and every stack stays non-empty |
| StreamStore.Store.PutExplicit | src/main/java/db/StreamStore.java:58-79 | the explicit-id branch is exactly `ExplicitSpec` |
| StreamStore.Store.GenerateSequenceNumber | src/main/java/db/StreamStore.java:82-108 | the bottom-up scan with its early exit is exactly `GenerateSpec` |
| StreamStore.Store.Range | src/main/java/db/StreamStore.java:110-152 | the XRANGE loop returns exactly `RangeSpec` |
| StreamStore.Store.EntriesAfter | src/main/java/db/StreamStore.java:163-170 | the per-key XREAD loop returns exactly the entries `SelectAfter` keeps |
| StreamStore.Store.Xread | src/main/java/db/StreamStore.java:154-175 | the XREAD loop over request keys returns exactly `XreadSpec` |
| StreamProperties.PutOutcome | src/main/java/db/StreamStore.java:27-80 | every XADD touches only its key and keeps every stack non-empty; a failure or error reply changes nothing; a success leaves the returned id on top, after the old stack or alone |
| StreamProperties.GenerateOutcome | src/main/java/db/StreamStore.java:82-108 | the same frame for the `<millis>-*` form |
| StreamProperties.ExplicitOutcome | src/main/java/db/StreamStore.java:45-79 | the same frame for the explicit-id form |
| StreamProperties.FreshOutcome | src/main/java/db/StreamStore.java:30-50 | replacing a stack by one fresh entry is a well-formed outcome |
| StreamProperties.PushOutcome | src/main/java/db/StreamStore.java:72-75 | pushing onto an existing stack is a well-formed outcome |
| StreamProperties.StarReplacesStream | src/main/java/db/StreamStore.java:30-36 | `*` replaces the whole stream by the single entry "<now>-0" and replies with that id |
| StreamProperties.ExplicitOnNewKey | src/main/java/db/StreamStore.java:45-50 | on an absent key an explicit id is stored verbatim as the only entry |
| StreamProperties.ZeroIdAcceptedOnNewKey | src/main/java/db/StreamStore.java:45-50 | "0-0" is accepted on an absent key, because the new-key branch comes before the 0-0 check |
| StreamProperties.ZeroIdRejectedOnExistingKey | src/main/java/db/StreamStore.java:52-56 | on an existing stream "0-0" gets the "greater than 0-0" error and nothing changes |
| StreamProperties.ExplicitOnExistingKey | src/main/java/db/StreamStore.java:58-79 | against top "hm-hs", an id "m-s" is pushed iff m >= hm and s > hs; otherwise the top-item error comes back and nothing changes |
| StreamProperties.LargerMillisSmallerSequenceRefused | src/main/java/db/StreamStore.java:58-79 | top "1-5" refuses "2-3" |
| StreamProperties.ExplicitPutIsStrict | src/main/java/db/StreamStore.java:58-79 | the id already on top is refused, and the id with the next sequence is accepted |
| StreamProperties.GenerateZero | src/main/java/db/StreamStore.java:88-94 | "0-*" replaces the stream by the single entry "0-1" |
| StreamProperties.GenerateOnAbsentKeyFails | src/main/java/db/StreamStore.java:95-102 | "<m>-*" with m > 0 on an absent key dereferences the missing stack: it fails and nothing changes |
| StreamProperties.ScanFindsFirst | src/main/java/db/StreamStore.java:95-102 | the scan returns the sequence of the first entry from the bottom with the millis |
| StreamProperties.ScanFindsNothing | src/main/java/db/StreamStore.java:95-107 | with no entry carrying the millis, the scan finds nothing |
| StreamProperties.GenerateAfterFirstMatch | src/main/java/db/StreamStore.java:95-102 | "<m>-*" pushes "m-(s+1)" where s is the FIRST match's sequence, ignoring later entries with the same millis |
| StreamProperties.GenerateWithoutMatch | src/main/java/db/StreamStore.java:103-107 | with no match, "<m>-*" discards the stream for the single entry "m-0" |
| StreamProperties.GeneratedSequenceWraps | src/main/java/db/StreamStore.java:97 | the generated sequence is Java `int` addition of one, i.e. `WrapInt(sequence + 1)`, so Integer.MAX_VALUE is followed by Integer.MIN_VALUE |
| StreamProperties.SelectRangeAppend | src/main/java/db/StreamStore.java:120-129 | the XRANGE selection distributes over concatenation, so stack order is kept |
| StreamProperties.SelectRangeDefined | src/main/java/db/StreamStore.java:120-129 | XRANGE fails iff some stored id does not split into millis and a long sequence |
| StreamProperties.SelectRangeMembers | src/main/java/db/StreamStore.java:120-129 | an entry is returned iff it is stored and its millis field and sequence fall within the bounds |
| StreamProperties.SelectAfterAppend | src/main/java/db/StreamStore.java:163-170 | the XREAD selection distributes over concatenation |
| StreamProperties.SelectAfterMembers | src/main/java/db/StreamStore.java:163-170 | an entry is returned iff it is stored and its sequence exceeds the requested one, whatever its millis |
| StreamProperties.RangeOfUnknownKey | src/main/java/db/StreamStore.java:111-114 | an unknown key gives an empty XRANGE |
| StreamProperties.FullRangeBounds | src/main/java/db/StreamStore.java:133-152 | "- +" takes the millis field from "+", with sequence bounds 0 and Long.MAX_VALUE |
| StreamProperties.FullRangeSelectsNoNumericId | src/main/java/db/StreamStore.java:110-152 | so `XRANGE k - +` never returns an entry whose id starts with a numeral |
| StreamProperties.XreadAnswersEachKey | src/main/java/db/StreamStore.java:154-175 | XREAD answers exactly the requested keys in request order, each with its own selection; it fails iff one per-key read fails |
| StreamProperties.SplitStarId | src/main/java/db/StreamStore.java:82-87 | "<m>-*" splits into the numeral and the star |
| KeyValue.IsExpired | src/main/java/db/Database.java:44-45 | `now().isAfter(expiryTime)` for a key with a recorded expiry; a key without one never is |
| KeyValue.ExpiryOf | src/main/java/db/Database.java:42-51 | a key without a recorded expiry is judged against now plus two minutes |
| KeyValue.Lookup | src/main/java/db/Database.java:42-51 | a returned value is the stored one; without an expiry, the lookup is the plain map lookup |
| KeyValue.TypeName | src/main/java/db/Database.java:65-70 | "string" iff `get` found a value, "stream" iff not and the stream store has the key, otherwise "none" |
| KeyValue.NoExpiryNeverExpires | src/main/java/db/Database.java:42-51 | a key with no recorded expiry is never evicted |
| KeyValue.SetWithDurationThenLookup | src/main/java/db/Database.java:34-51 | after set(k, v, d) at t, get(k) at t' is v iff t' <= t + d, and absent after |
| KeyValue.PlainSetKeepsExpiry | src/main/java/db/Database.java:28-32 | a plain set keeps an older expiry, so an already expired key reads as absent right after being set |
| KeyValue.SetIsLocal | src/main/java/db/Database.java:28-32 | a set does not change the lookup of any other key |
| KeyValue.EvictionIsFinal | src/main/java/db/Database.java:45-49 | after eviction the key stays absent and later gets evict nothing more |
| KeyValue.Database.constructor | src/main/java/db/Database.java:22-26 | no values, no expiries, an empty stream store |
| KeyValue.Database.Set | src/main/java/db/Database.java:28-32 | the value is stored and the expiry map is untouched |
| KeyValue.Database.SetWithDuration | src/main/java/db/Database.java:34-40 | the value is stored with the absolute expiry now + d |
| KeyValue.Database.Get | src/main/java/db/Database.java:42-51 | returns `Lookup`; an expired key is removed from both maps, and otherwise nothing changes |
| KeyValue.Database.Type | src/main/java/db/Database.java:65-74 | returns `TypeName` of the lookup and stream membership, with the same eviction effect as `get` |
| KeyValue.Database.SaveStream | src/main/java/db/Database.java:53-55 | one XADD on the stream store as `PutSpec`; the key-value maps are untouched |
| KeyValue.Database.Range | src/main/java/db/Database.java:57-59 | delegates XRANGE to the stream store |
| KeyValue.Database.Xread | src/main/java/db/Database.java:61-63 | delegates XREAD to the stream store |
| LegacyKeyValue.Database.constructor | src/main/java/Database.java:17-20 | no values and no expiries |
| LegacyKeyValue.Database.Set | src/main/java/Database.java:22-26 | the value is stored and the expiry map is untouched |
| LegacyKeyValue.Database.SetWithDuration | src/main/java/Database.java:28-34 | the value is stored with the absolute expiry now + d |
| LegacyKeyValue.Database.Get | src/main/java/Database.java:36-45 | returns `Lookup`; an expired key is removed from both maps, and otherwise nothing changes |
| Encoder.SimpleString | src/main/java/resp/Encoder.java:10-12 | "+" and three bytes of framing around the text |
| Encoder.BulkString | src/main/java/resp/Encoder.java:14-17 | starts with "$" and is exactly the bulk size: header, data and two CRLFs |
| Encoder.OptionalBulkString | src/main/java/resp/Encoder.java:19-23 | the null bulk string "$-1\r\n" exactly when the value is absent |
| Encoder.ArrayOf | src/main/java/resp/Encoder.java:38-43 | the length is the header ("*", count digits, CRLF) plus the sum of the elements' bulk sizes |
| Encoder.ArrayOfOne | src/main/java/resp/Encoder.java:34-36 | a one-element array, of length 4 plus the element's bulk size |
| Encoder.Bulks | src/main/java/resp/Encoder.java:40-42 | the concatenated bulk strings are exactly the payload size long |
| Encoder.Integer | src/main/java/resp/Encoder.java:45-47 | starts with ":" |
| Encoder.BulkStringOfLines | src/main/java/resp/Encoder.java:25-32 | the INFO encoding: each line with CRLF, joined, as one bulk string |
| Encoder.SimpleStringLines | src/main/java/Encoder.java:6-8 | a simple string (the same in both encoders) reads back as the one line "+s", then whatever follows |
| Encoder.BulkStringLines | src/main/java/Encoder.java:10-13 | a bulk string (the same in both encoders) reads back as its length header line and then the data line |
| Encoder.BulksLines | src/main/java/resp/Encoder.java:40-42 | the bulk strings of CR/LF-free elements read back as header and element lines, in order |
| Encoder.ArrayLines | src/main/java/resp/Encoder.java:38-43 | an array reads back as its count line and then, per element, a length line and the element |
| Encoder.JoinLinesLines | src/main/java/resp/Encoder.java:25-32 | the CRLF-joined lines read back as those lines |
| Encoder.BulkStringOfLinesLines | src/main/java/Encoder.java:21-28 | the list form (the same in both encoders) reads back as the length header, each line, and a final empty line |
| Encoder.IntegerReadsBack | src/main/java/resp/Encoder.java:45-47 | an integer reply is one line whose tail parses back to the long |
| Commands.Elements | src/main/java/resp/Command.java:21-192 | the verb as received, then each record's fields in declaration order: ECHO, GET, TYPE, REPLCONF, CONFIG, PSYNC, WAIT and XRANGE give exactly [verb, fields...]; SET drops "PX" and keeps the expiry last when present; INFO drops its section; XADD puts key and id, then field i and value i at 3+2i and 4+2i; XREAD puts the block time (when present) after the verb, then key i and id i interleaved |
| Decoder.ReadCount | src/main/java/resp/Decoder.java:46 | a count is the int after the unchecked one-character marker; otherwise end of stream or a malformed count |
| Decoder.ReadBulkString | src/main/java/resp/Decoder.java:111-120 | success consumes exactly two lines and yields the second |
| Decoder.ReadElements | src/main/java/resp/Decoder.java:51-55 | n elements are read and only lines are consumed |
| Decoder.ReadArray | src/main/java/resp/Decoder.java:46-55 | a non-empty result has the declared count, and at least the header line is consumed |
| Decoder.FoldPairs | src/main/java/resp/Decoder.java:73-79 | the XADD field loop fails (index past the end) exactly when the field count is odd |
| Decoder.ZipPairs | src/main/java/resp/Decoder.java:89-93 | the XREAD loop adds at most one entry per key |
| Decoder.XreadRequests | src/main/java/resp/Decoder.java:86-93 | at most half as many requests as remaining elements |
| Decoder.FindBlock | src/main/java/resp/Decoder.java:103-109 | fails exactly when element 1 is missing, or it is "block" and element 2 is missing; a block time is found iff element 1 is exactly "block", and it is element 2 |
| Decoder.CommandOf | src/main/java/resp/Decoder.java:56-97 | a decoded command keeps the verb as received and its variant matches the lower-cased verb; an unknown verb is reported iff the lower-cased verb is none of the thirteen |
| Decoder.Decode | src/main/java/resp/Decoder.java:44-101 | a decode consumes at least one line |
| Decoder.ReadSimpleString | src/main/java/resp/Decoder.java:18-24 | the next line, failing exactly at end of stream |
| Decoder.ReadArrayLoop | src/main/java/resp/Decoder.java:46-55 | the element loop computes exactly `ReadArray` |
| Decoder.XaddFields | src/main/java/resp/Decoder.java:73-79 | the XADD put loop computes exactly `FoldPairs` |
| Decoder.XreadPairs | src/main/java/resp/Decoder.java:86-93 | the XREAD put loop computes exactly `XreadRequests` |
| Decoder.ParseVerb | src/main/java/resp/Decoder.java:56-97 | the switch, running both loops, computes exactly `CommandOf` |
| Decoder.DecodeAsArrayResp | src/main/java/resp/Decoder.java:44-101 | the whole method computes exactly `Decode` |
| CodecProperties.HeaderParses | src/main/java/resp/Decoder.java:46 | a header the encoder writes parses back to its count |
| CodecProperties.ReadBulkLines | src/main/java/resp/Decoder.java:51-55 | reading n bulk strings off the encoder's lines gives the n elements back and leaves the rest |
| CodecProperties.ArrayRoundTrip | src/main/java/resp/Decoder.java:44-55 | every array the encoder writes reads back as its elements when no element holds CR or LF and counts fit an int |
| CodecProperties.FoldFlatten | src/main/java/resp/Decoder.java:73-79 | folding a map's flattened entries onto fresh keys appends that map |
| CodecProperties.LaterFieldWins | src/main/java/resp/Decoder.java:77-78 | a field repeated in one XADD keeps its first position and its last value |
| CodecProperties.ZipAppends | src/main/java/resp/Decoder.java:91-93 | with distinct keys the XREAD loop appends the key/id pairs in order |
| CodecProperties.XreadPairsHalves | src/main/java/resp/Decoder.java:86-93 | the second half of the XREAD tail is taken as the ids of the first half |
| CodecProperties.XreadDecodes | src/main/java/resp/Decoder.java:83-95 | `XREAD streams k1..kn id1..idn` decodes to the n requests without a block time |
| CodecProperties.PxMarkerNotInspected | src/main/java/resp/Decoder.java:63 | element 3 of a SET ("PX") is never looked at |
| CodecProperties.CommandRoundTrip | src/main/java/resp/Command.java:21-172 | for PING, ECHO, GET, REPLCONF, PSYNC, WAIT, CONFIG, TYPE, XRANGE, XADD and SET without expiry, decoding `elements()` gives the command back |
| CodecProperties.XaddRoundTrip | src/main/java/resp/Command.java:153-158 | an XADD's elements decode back to the same XADD, map order included |
| CodecProperties.DecodeRoundTrip | src/main/java/resp/Decoder.java:44-101 | the full wire round trip: decoding the encoded `elements()` gives the command back and consumes everything |
| CodecProperties.SetWithExpiryDoesNotDecode | src/main/java/resp/Command.java:47-52 | a SET with expiry re-encodes as four elements without "PX", which the decoder refuses |
| CodecProperties.InfoDoesNotDecode | src/main/java/resp/Command.java:74-76 | INFO re-encodes without its section, which the decoder requires |
| CodecProperties.XreadDoesNotRoundTrip | src/main/java/resp/Command.java:184-192 | no XREAD decodes back from its interleaved `elements()` |
| CodecProperties.EmptyArrayRefused | src/main/java/resp/Decoder.java:47-49 | a zero count is refused as an empty array |
| CodecProperties.BulkLengthNotChecked | src/main/java/resp/Decoder.java:113-116 | a bulk string's declared length is parsed but never compared with the data line |
| Leader.ReplicatedBytes | src/main/java/Master.java:225-237 | the byte count of a command's forwarded form |
| Leader.ElementBytesIsPayload | src/main/java/Master.java:228-234 | the per-element sum is the payload of the bulk encodings |
| Leader.ReplicatedBytesIsEncodedLength | src/main/java/Master.java:225-242 | the accounted bytes equal the length of the array actually forwarded |
| Leader.GetAckBytes | src/main/java/Master.java:133 | the GETACK probe accounts for 37 bytes |
| Leader.ReplicasInSync | src/main/java/Master.java:218-223 | counts replicas, so never more than the registry |
| Leader.InSync | src/main/java/Master.java:218-223 | exactly the registered replicas whose acknowledged offset reaches the bound |
| Leader.AllReplicasInSync | src/main/java/Master.java:218-223 | when every replica reached the bound, all count |
| Leader.Evict | src/main/java/Master.java:109-112 | an eviction leaves registry, offset and streams alone |
| Leader.IsAck | src/main/java/Master.java:115-116 | REPLCONF ACK from a registered replica, the key compared case-insensitively |
| Leader.RepliesOk | src/main/java/Master.java:118-119 | REPLCONF listening-port or capa, compared case-insensitively |
| Leader.InfoLines | src/main/java/Master.java:260-267 | the four INFO lines, the last carrying the current offset |
| Leader.ConfigReply | src/main/java/Master.java:284-291 | "dir" and "dbfilename" answer [value, setting]; any other key answers nothing |
| Leader.XaddReply | src/main/java/Master.java:149-154 | the new id as a bulk string, or the error |
| Leader.AckIgnoresCase | src/main/java/Master.java:115-116 | an ACK is any casing of "ack" from a registered connection |
| Leader.RepliesOkIgnoresCase | src/main/java/Master.java:118-121 | "+OK" is sent for any casing of "listening-port" or "capa" |
| Leader.SetStep | src/main/java/Master.java:101-108 | SET keeps the invariants and never changes the registry |
| Leader.ReplconfStep | src/main/java/Master.java:114-122 | REPLCONF keeps the invariants and never moves the offset |
| Leader.WaitStep | src/main/java/Master.java:127-146 | WAIT keeps the invariants and never changes the registry |
| Leader.XaddStep | src/main/java/Master.java:149-154 | XADD keeps the invariants and changes neither registry nor offset |
| Leader.LookupStep | src/main/java/Master.java:109-112 | GET and TYPE keep the invariants and change neither registry nor offset |
| Leader.Respond | src/main/java/Master.java:96-198 | every command keeps stacks non-empty, leaves the state unchanged when it throws, never lowers the offset, and registers only its own connection, only for PSYNC |
| Leader.Disconnected | src/main/java/Master.java:91-93 | the connection leaves the registry; other replicas, the store and the offset are unchanged |
| Leader.SetStoresAndPropagates | src/main/java/Master.java:101-108 | SET stores (with expiry iff given), replies "+OK", forwards the encoded command to every replica, and advances the offset by exactly its length |
| Leader.SetWithMalformedExpiryCloses | src/main/java/Master.java:102-103 | an expiry that is not an int throws before anything is stored or sent |
| Leader.PsyncRegisters | src/main/java/Master.java:123-126 | PSYNC answers FULLRESYNC and the snapshot, and (re)registers the connection at offset 0, changing nothing else |
| Leader.AckFromUnregisteredIgnored | src/main/java/Master.java:115-117 | an ACK from a connection that never sent PSYNC changes nothing |
| Leader.AckAdds | src/main/java/Master.java:115-117 | an ACK adds its value, as a wrapping long, to that replica's offset only, with no reply |
| Leader.ReplconfRepliesIff | src/main/java/Master.java:114-122 | REPLCONF replies "+OK" iff the key is listening-port or capa in any case, otherwise nothing, and never broadcasts |
| Leader.WaitBeforeReplication | src/main/java/Master.java:128-132 | with offset 0, WAIT answers the registry size and changes nothing |
| Leader.WaitProbesReplicas | src/main/java/Master.java:127-146 | otherwise it sends GETACK to all, adds 37 to the offset, and answers the replicas in sync with the captured offset |
| Leader.WhatMovesTheBookkeeping | src/main/java/Master.java:96-198 | only SET and WAIT move the offset; only REPLCONF and PSYNC touch the registry |
| Leader.QueriesChangeNothing | src/main/java/Master.java:99-170 | PING, ECHO, INFO, CONFIG, XRANGE and XREAD leave the state as it was |
| Leader.Session | src/main/java/Master.java:75-94 | `handle`: commands answered in order until a decode or a command throws, then the connection is dropped from the registry |
| Leader.SessionInvariants | src/main/java/Master.java:75-94 | after a connection ends it is unregistered, no other connection was registered, the offset did not shrink, and only the last command closed it |
| Leader.SessionAnswered | src/main/java/Master.java:78-80 | an answered command is followed by the rest of the session |
| Leader.Master.constructor | src/main/java/Master.java:46-58 | an empty registry and offset 0 |
| Leader.Master.UpdateOffset | src/main/java/Master.java:204-207 | the offset grows by the command's replicated bytes |
| Leader.Master.PropagateCommand | src/main/java/Master.java:239-242 | accounts the bytes, then sends the encoded command to every registered replica |
| Leader.Master.SetCommand | src/main/java/Master.java:101-108 | computes exactly `SetStep` |
| Leader.Master.ReplconfCommand | src/main/java/Master.java:114-122 | computes exactly `ReplconfStep` |
| Leader.Master.WaitCommand | src/main/java/Master.java:127-146 | computes exactly `WaitStep` |
| Leader.Master.XaddCommand | src/main/java/Master.java:149-154 | computes exactly `XaddStep` |
| Leader.Master.GetCommand | src/main/java/Master.java:109-112 | replies with the optional bulk string of the lookup, after the eviction |
| Leader.Master.TypeCommand | src/main/java/Master.java:148 | replies with the type name as a simple string, after the eviction |
| Leader.Master.PsyncCommand | src/main/java/Master.java:123-126 | replies FULLRESYNC and the snapshot, and registers the connection at 0 |
| Leader.Master.XrangeCommand | src/main/java/Master.java:155-169 | the range reply, or a closed connection when the range throws |
| Leader.Master.XreadCommand | src/main/java/Master.java:170-196 | the read reply, or a closed connection when the read throws |
| Leader.Master.RespondToCommand | src/main/java/Master.java:96-198 | computes exactly `Respond` on the whole server state |
| Leader.Master.Disconnect | src/main/java/Master.java:91-93 | removes the connection from the registry |
| Leader.Master.Handle | src/main/java/Master.java:75-94 | the connection loop computes exactly `Session` |
| Follower.HandshakeMessages | src/main/java/Slave.java:51-65 | four messages (their content is stated by `Follower.HandshakeMessagesDecode`) |
| Follower.Exchange | src/main/java/Slave.java:51-65 | what was sent is a prefix of the messages, and a failed exchange sent at least one |
| Follower.ExchangeCompletes | src/main/java/Slave.java:51-65 | the handshake completes iff every message got an accepted reply; then all were sent and the lines after the replies remain |
| Follower.HandshakeStopsAtRejection | src/main/java/Slave.java:148-165 | a failed handshake stops right after the message whose reply was rejected |
| Follower.AllAccepted | src/main/java/Slave.java:51-65 | accepted replies to every message complete the exchange |
| Follower.LeaderRepliesCompleteHandshake | src/main/java/Slave.java:51-65 | the leader's replies (PONG, OK, OK, FULLRESYNC) complete the four-message handshake |
| Follower.HandshakeMessagesDecode | src/main/java/Slave.java:51-65 | the leader's decoder reads the four messages back, each in full, as PING, REPLCONF listening-port <port>, REPLCONF capa psync2 and PSYNC ? -1 |
| Follower.Handshake | src/main/java/Slave.java:51-65 | `connectToMaster` up to the snapshot: the four messages exchanged against the leader's reply lines |
| Follower.FirstToken | src/main/java/Slave.java:153 | `split(" ")[0]`, None where the split is empty |
| Follower.Accepted | src/main/java/Slave.java:153-160 | a reply whose first token is "+PONG", "+OK" or "+FULLRESYNC" |
| Follower.FirstTokenOf | src/main/java/Slave.java:153 | the first token of "a b" is a |
| Follower.WholeLineToken | src/main/java/Slave.java:153 | a line without a space is its own first token |
| Follower.PongAccepted | src/main/java/Slave.java:154 | the leader's PONG reads back as "+PONG", which is accepted |
| Follower.OkAccepted | src/main/java/Slave.java:155 | the leader's OK reads back as "+OK", which is accepted |
| Follower.FullResyncAccepted | src/main/java/Slave.java:156 | the leader's FULLRESYNC line is accepted |
| Follower.Count | src/main/java/Slave.java:173-185 | the counter stays a Java int, and equals the old count plus the encoded length when it does not overflow |
| Follower.ApplyOne | src/main/java/Slave.java:72-89 | one replicated command: SET stores (and counts), REPLCONF GETACK answers the count before counting itself, PING counts, anything else stops |
| Follower.Apply | src/main/java/Slave.java:69-91 | the apply loop: commands applied in order, ACKs collected, until a decode or a command throws |
| Follower.ReplicatedSet | src/main/java/Slave.java:73-79 | a replicated SET stores (with expiry iff given), replies nothing and counts its encoded length |
| Follower.MalformedExpiryStops | src/main/java/Slave.java:75 | an expiry that is not an int ends the loop before anything is stored |
| Follower.ReplicatedPing | src/main/java/Slave.java:87 | PING counts its bytes only, 14 for "PING" |
| Follower.GetAckReportsPreviousCount | src/main/java/Slave.java:80-86 | GETACK replies with the count from before it, then counts itself |
| Follower.OtherReplconfIgnored | src/main/java/Slave.java:80-86 | any other REPLCONF neither replies nor counts |
| Follower.OtherVerbsStop | src/main/java/Slave.java:88 | every verb but SET, REPLCONF and PING ends the loop |
| Follower.UndecodableStops | src/main/java/Slave.java:69-91 | a decode that throws ends the loop with nothing applied |
| Follower.AppliesWhatTheLeaderSent | src/main/java/Slave.java:69-91 | the lines of a command the leader forwarded are applied as that command |
| Follower.ForwardedExpiryStopsFollower | src/main/java/Slave.java:69-91 | a forwarded SET with expiry cannot be decoded, so the follower stores nothing and stops |
| Follower.ClientReply | src/main/java/Slave.java:133-146 | only INFO and GET are answered: INFO with the fixed replication lines, GET with the lookup; the counter is untouched |
| Follower.ClientGetSeesLocalStore | src/main/java/Slave.java:138-141 | a client GET sees the replicated store and evicts only an expired key |
| Follower.Slave.constructor | src/main/java/Slave.java:31-42 | nothing processed yet |
| Follower.Slave.UpdateReplicatedBytes | src/main/java/Slave.java:173-185 | the state becomes `Count` of the old state |
| Follower.Slave.ApplyCommand | src/main/java/Slave.java:72-89 | computes exactly `ApplyOne`, and a throw changes nothing |
| Follower.Slave.ApplyStream | src/main/java/Slave.java:69-91 | the loop computes exactly `Apply` |
| Follower.Slave.RespondToClient | src/main/java/Slave.java:133-146 | computes exactly `ClientReply`, and an unsupported command changes nothing |
| Configuration.PortToStartServer | src/main/java/Configuration.java:46-51 | 6379 without arguments, a throw with one, otherwise the int parse of the second |
| Configuration.RoleOfServer | src/main/java/Configuration.java:53-55 | "slave" iff "--replicaof" is among the arguments, else "master" |
| Configuration.MasterHost | src/main/java/Configuration.java:57-63 | the fourth argument iff there is one |
| Configuration.MasterPort | src/main/java/Configuration.java:65-71 | empty with fewer than five arguments, otherwise the fifth's int parse, which throws when it is not an int |
| Configuration.Parse | src/main/java/Configuration.java:22-44 | succeeds iff port and leader port parse, and then holds exactly the four values |
| Configuration.ParsesIff | src/main/java/Configuration.java:22-71 | the argument lists that parse: none, or at least two with an int second and, if present, an int fifth |
| Configuration.NoArguments | src/main/java/Configuration.java:46-55 | no arguments give a leader on 6379 |
| Configuration.LeaderArguments | src/main/java/Configuration.java:22-55 | "--port p" gives a leader on p |
| Configuration.FollowerArguments | src/main/java/Configuration.java:22-71 | "--port p --replicaof h q" gives a follower on p of h:q |
| Numerals.ParseInt | src/main/java/resp/Decoder.java:46 | `Integer.parseInt`: a parsed value lies in the int range |
| Numerals.ParseLong | src/main/java/db/StreamStore.java:39 | `Long.parseLong`: a parsed value lies in the long range |
| Numerals.IntToString | src/main/java/resp/Encoder.java:15 | non-empty; starts with "-" exactly for negatives, and the rest is all digits |
| Numerals.ParseSigned | src/main/java/Configuration.java:50 | a parse gives a value within the type's range from a string starting with a digit or sign |
| Numerals.IntToStringParses | src/main/java/db/Entries.java:15-21 | parsing inverts rendering for every value in range |
| Numerals.NatToStringValue | src/main/java/Master.java:226 | a natural's rendering has `DigitCount` digits and reads back as the number |
| Numerals.WrapInt | src/main/java/Slave.java:184 | int arithmetic: the result is an int, and equals the exact sum when that is in range |
| Numerals.WrapLong | src/main/java/Master.java:116 | long arithmetic: the result is a long, and equals the exact sum when that is in range |
| Text.ToLower | src/main/java/resp/Decoder.java:56 | same length, each character lower-cased |
| Text.Split | src/main/java/db/Entries.java:15-21 | `String.split` on one character, trailing empty fields dropped |
| Text.SplitTwo | src/main/java/db/Entries.java:15-21 | "a-b" splits into a and b |
| Text.SplitEmptyMiddle | src/main/java/db/Entries.java:19-21 | "a--b" splits with an empty middle field |
| Text.ReadLines | src/main/java/resp/Decoder.java:113-115 | the lines `readLine` returns, each ended by CR, LF or CRLF |
| Text.ReadLinesCons | src/main/java/resp/Decoder.java:113-115 | a CRLF-terminated line reads back as one line |

## Left out

- Sockets, the thread pool, `runServer` and `Main.java`. A connection is an abstract id; its input is the sequence of lines `readLine` would return; what is written is returned as replies and broadcasts.
- The `reader.ready()` busy-waits. At a clean end of the input, `parseCommand` (resp/Decoder.java:36-37) and `receiveResponse` (Slave.java:149-150) spin forever, so the leader's `handle` never reaches its `finally` (Master.java:92). The model ends there instead: `Leader.Session` ends the session and drops the connection from the registry, and `Follower.Apply` and `Follower.Handshake` stop. The "ends up unregistered" part of `Leader.SessionInvariants` rests on that choice.
- The IOException paths. `parseCommand` returning empty depends on I/O.
- Concurrency. `ConcurrentHashMap`, `AtomicLong` and the shared stores are treated as accessed one command at a time.
- Leader.WaitStep: the asynchronous wait for `numberOfReplica` replicas and the timeout are left out. The reply counts the replicas in sync in the registry as it is when the command runs, and WAIT's two arguments are never parsed.
- The clock. Time is a parameter `now`, read once per command; a session answers command i at `clock(i)`.
- CONFIG's directory and file name are inputs of `Leader.Master`.
- The PSYNC snapshot bytes and the follower's `receiveRdbFile` are abstract. The leader replies with `Snapshot`, and the follower's apply loop starts after it.
- `encodeAsError` and `wrapContentAsArray` are not part of this model: `resp/Encoder.java` does not define them. The XADD error reply and the XRANGE and XREAD replies keep their content abstract.
- `StreamKey.java` is not part of this model.
- Logging.
- Case folding covers ASCII letters only. Characters are single bytes.
- Leader.Master.UpdateOffset: the global offset is an unbounded integer; the 64-bit `AtomicLong` wrap is not modelled.
- Leader.ReplicatedBytes: the count is an unbounded integer. The code sums the element sizes as a 32-bit `int` (Master.java:228-234) before widening, so a command of 2^31 bytes or more would wrap and could lower the offset. The non-decreasing offset in `Leader.Keeps` and `Leader.SessionInvariants` rests on this.
- `HashMap` iteration order is unspecified in Java. The XADD field map uses insertion order.
- Follower.Handshake: the handshake is a function over the leader's reply lines. A socket that fails to open is not modelled.
- The follower's client `handle` loop. Only the per-command dispatch (`Follower.ClientReply`) is modelled.
- The null checks of the `Entries` record and the `Configuration` constructor. The model has no null values.
- Follower.HandshakeMessages: its own contract only fixes the count of four. What the messages are is stated by `Follower.HandshakeMessagesDecode`.
- A SET with an expiry that the leader forwards stops the follower (`Follower.ForwardedExpiryStopsFollower`). The model keeps this as the code has it.

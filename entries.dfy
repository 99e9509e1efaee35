/**
 * One stream entry (db/Entries.java): an id "millis-sequence" and its
 * field/value pairs, with the two accessors that re-parse the id.
 */
module Entries {
  import opened Optional
  import opened Numerals
  import opened Text
  import opened LinkedMap

  datatype Entry = Entry(id: string, pairs: LinkedMap)

  /** `millis()`: `parseLong(id.split("-")[0])`; None when that throws. */
  function Millis(e: Entry): Option<int> {
    var parts := Split(e.id, '-');
    if |parts| == 0 then None else ParseLong(parts[0])
  }

  /** `sequenceNumber()`: `parseInt(id.split("-")[1])`, a 32-bit int; None when that throws. */
  function SequenceNumber(e: Entry): Option<int> {
    var parts := Split(e.id, '-');
    if |parts| < 2 then None else ParseInt(parts[1])
  }

  /** The id Java builds as `millis + "-" + sequence`. */
  function MakeId(millis: int, sequence: int): string {
    IntToString(millis) + "-" + IntToString(sequence)
  }

  lemma NatStringHasNoDash(n: nat)
    ensures '-' !in NatToString(n)
  {
    var s := NatToString(n);
    forall i | 0 <= i < |s| ensures s[i] != '-' {
      assert IsDigit(s[i]);
    }
  }

  /** Both accessors read back the numbers an id was built from. */
  lemma IdRoundTrip(millis: int, sequence: int, pairs: LinkedMap)
    requires 0 <= millis <= LongMax && 0 <= sequence <= IntMax
    ensures Millis(Entry(MakeId(millis, sequence), pairs)) == Some(millis)
    ensures SequenceNumber(Entry(MakeId(millis, sequence), pairs)) == Some(sequence)
  {
    NatStringHasNoDash(millis);
    NatStringHasNoDash(sequence);
    SplitTwo(NatToString(millis), NatToString(sequence), '-');
    assert MakeId(millis, sequence) == NatToString(millis) + ['-'] + NatToString(sequence);
    IntToStringParses(millis, LongMin, LongMax);
    IntToStringParses(sequence, IntMin, IntMax);
  }

  /** A negative sequence leaves an empty second field, so `sequenceNumber()` throws. */
  lemma NegativeSequenceDoesNotParse(millis: nat, sequence: int, pairs: LinkedMap)
    requires sequence < 0
    ensures SequenceNumber(Entry(MakeId(millis, sequence), pairs)).None?
  {
    var m := NatToString(millis);
    var s := NatToString(-sequence);
    NatStringHasNoDash(millis);
    NatStringHasNoDash(-sequence);
    assert MakeId(millis, sequence) == m + ['-'] + ['-'] + s;
    SplitEmptyMiddle(m, s, '-');
  }
}

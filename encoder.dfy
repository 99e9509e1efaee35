/**
 * The RESP2 string encoders (resp/Encoder.java). Characters are single
 * bytes, so a string's length is its byte count. Each encoding is paired
 * with what `BufferedReader.readLine` gives back for it, which is what the
 * decoder consumes.
 */
module Encoder {
  import opened Optional
  import opened Numerals
  import opened Text

  const CRLF := "\r\n"

  /** `encodeAsSimpleString`. */
  function SimpleString(s: string): (r: string)
    ensures |r| == |s| + 3 && r[0] == '+'
  {
    "+" + s + CRLF
  }

  /** Bytes of the bulk encoding of x: "$", the length's digits and CRLF, then x and CRLF. */
  function BulkSize(x: string): nat {
    3 + DigitCount(|x|) + |x| + 2
  }

  /** `encodeAsBulkString(String)`. */
  function BulkString(s: string): (r: string)
    ensures |r| == BulkSize(s)
    ensures r[0] == '$'
  {
    NatToStringValue(|s|);
    "$" + IntToString(|s|) + CRLF + s + CRLF
  }

  /** `encodeAsBulkString(Optional<String>)`: the null bulk string when absent. */
  function OptionalBulkString(o: Option<string>): (r: string)
    ensures o.None? <==> r == "$-1\r\n"
  {
    if o.Some? then BulkString(o.value) else "$-1\r\n"
  }

  /** Each line followed by CRLF, concatenated. */
  function JoinLines(xs: seq<string>): (r: string)
    ensures |xs| == 0 ==> r == ""
  {
    if xs == [] then "" else xs[0] + CRLF + JoinLines(xs[1..])
  }

  /** `encodeAsBulkString(List<String>)`: one bulk string whose data is the lines joined by CRLF. */
  function BulkStringOfLines(xs: seq<string>): string {
    BulkString(JoinLines(xs))
  }

  /** The bulk encodings of xs, concatenated. */
  function Bulks(xs: seq<string>): (r: string)
    ensures |r| == Payload(xs)
  {
    if xs == [] then "" else BulkString(xs[0]) + Bulks(xs[1..])
  }

  /** Σ BulkSize(x) over xs. */
  function Payload(xs: seq<string>): nat {
    if xs == [] then 0 else BulkSize(xs[0]) + Payload(xs[1..])
  }

  /** `encodeAsArray(List<String>)`: "*", the count and CRLF, then each element as a bulk string. */
  function ArrayOf(xs: seq<string>): (r: string)
    ensures |r| == 3 + DigitCount(|xs|) + Payload(xs)
  {
    NatToStringValue(|xs|);
    "*" + IntToString(|xs|) + CRLF + Bulks(xs)
  }

  /** `encodeAsArray(String)`. */
  function ArrayOfOne(s: string): (r: string)
    ensures |r| == 3 + 1 + BulkSize(s)
  {
    ArrayOf([s])
  }

  /** `encodeAsInteger(long)`. */
  function Integer(n: int): (r: string)
    ensures |r| > 0 && r[0] == ':'
  {
    ":" + IntToString(n) + CRLF
  }

  // ----- what the reader gets back -----

  /** No element contains CR or LF. */
  predicate NoLineBreaks(xs: seq<string>) {
    xs == [] || (NoLineBreak(xs[0]) && NoLineBreaks(xs[1..]))
  }

  /** The lines of the bulk encodings of xs: each length header followed by the element. */
  function BulkLines(xs: seq<string>): (r: seq<string>)
    ensures |r| == 2 * |xs|
  {
    if xs == [] then [] else ["$" + IntToString(|xs[0]|), xs[0]] + BulkLines(xs[1..])
  }

  lemma NumeralHasNoLineBreak(n: int)
    ensures NoLineBreak(IntToString(n))
  {
    var m: nat := if n < 0 then -n else n;
    var digits := NatToString(m);
    assert forall i :: 0 <= i < |digits| ==> IsDigit(digits[i]);
    if n < 0 {
      assert IntToString(n) == "-" + digits;
    }
  }

  /** A simple string reads back as its one line. */
  lemma SimpleStringLines(s: string, rest: string)
    requires NoLineBreak(s)
    ensures ReadLines(SimpleString(s) + rest) == ["+" + s] + ReadLines(rest)
  {
    assert SimpleString(s) + rest == ("+" + s) + "\r\n" + rest;
    ReadLinesCons("+" + s, rest);
  }

  /** A bulk string reads back as its length header and its data. */
  lemma BulkStringLines(s: string, rest: string)
    requires NoLineBreak(s)
    ensures ReadLines(BulkString(s) + rest) == ["$" + IntToString(|s|), s] + ReadLines(rest)
  {
    var header := "$" + IntToString(|s|);
    NumeralHasNoLineBreak(|s|);
    assert BulkString(s) + rest == header + "\r\n" + (s + "\r\n" + rest);
    ReadLinesCons(header, s + "\r\n" + rest);
    ReadLinesCons(s, rest);
  }

  lemma {:induction false} BulksLines(xs: seq<string>, rest: string)
    requires NoLineBreaks(xs)
    ensures ReadLines(Bulks(xs) + rest) == BulkLines(xs) + ReadLines(rest)
    decreases |xs|
  {
    if xs == [] {
      assert Bulks(xs) + rest == rest;
    } else {
      BulksStep(xs, rest);
      BulksLines(xs[1..], rest);
      var head := ["$" + IntToString(|xs[0]|), xs[0]];
      assert BulkLines(xs) == head + BulkLines(xs[1..]);
      ConcatAssoc(head, BulkLines(xs[1..]), ReadLines(rest));
    }
  }

  lemma BulksStep(xs: seq<string>, rest: string)
    requires NoLineBreaks(xs) && xs != []
    ensures ReadLines(Bulks(xs) + rest) == ["$" + IntToString(|xs[0]|), xs[0]] + ReadLines(Bulks(xs[1..]) + rest)
  {
    var tail := Bulks(xs[1..]) + rest;
    assert Bulks(xs) == BulkString(xs[0]) + Bulks(xs[1..]);
    ConcatAssoc(BulkString(xs[0]), Bulks(xs[1..]), rest);
    BulkStringLines(xs[0], tail);
  }

  /** An array of CR/LF-free elements reads back as its header line and then, per element, a length line and the element. */
  lemma ArrayLines(xs: seq<string>)
    requires NoLineBreaks(xs)
    ensures ReadLines(ArrayOf(xs)) == ["*" + IntToString(|xs|)] + BulkLines(xs)
  {
    var header := "*" + IntToString(|xs|);
    var body := Bulks(xs);
    HeaderHasNoLineBreak('*', |xs|);
    assert ArrayOf(xs) == header + "\r\n" + body;
    ReadLinesCons(header, body);
    BulksLines(xs, "");
    assert body + "" == body;
    assert BulkLines(xs) + [] == BulkLines(xs);
  }

  lemma HeaderHasNoLineBreak(marker: char, n: int)
    requires marker != '\r' && marker != '\n'
    ensures NoLineBreak([marker] + IntToString(n))
  {
    NumeralHasNoLineBreak(n);
  }

  lemma {:induction false} JoinLinesLines(xs: seq<string>, rest: string)
    requires NoLineBreaks(xs)
    ensures ReadLines(JoinLines(xs) + rest) == xs + ReadLines(rest)
    decreases |xs|
  {
    if xs == [] {
      assert JoinLines(xs) + rest == rest;
    } else {
      JoinLinesStep(xs, rest);
      JoinLinesLines(xs[1..], rest);
      var head := [xs[0]];
      assert head + xs[1..] == xs;
      ConcatAssoc(head, xs[1..], ReadLines(rest));
    }
  }

  lemma JoinLinesStep(xs: seq<string>, rest: string)
    requires NoLineBreaks(xs) && xs != []
    ensures ReadLines(JoinLines(xs) + rest) == [xs[0]] + ReadLines(JoinLines(xs[1..]) + rest)
  {
    JoinLinesAppend(xs, rest);
    ReadLinesCons(xs[0], JoinLines(xs[1..]) + rest);
  }

  lemma JoinLinesAppend(xs: seq<string>, rest: string)
    requires xs != []
    ensures JoinLines(xs) + rest == xs[0] + "\r\n" + (JoinLines(xs[1..]) + rest)
  {
    var t := JoinLines(xs[1..]);
    var head := xs[0] + CRLF;
    assert JoinLines(xs) == head + t;
    ConcatAssoc(head, t, rest);
  }

  lemma ConcatAssoc<T>(a: seq<T>, b: seq<T>, c: seq<T>)
    ensures (a + b) + c == a + (b + c)
  {
  }

  /**
   * The list form is one bulk string: a reader sees the length header, each
   * line, and then an empty line from the closing CRLF.
   */
  lemma BulkStringOfLinesLines(xs: seq<string>)
    requires NoLineBreaks(xs)
    ensures ReadLines(BulkStringOfLines(xs)) == ["$" + IntToString(|JoinLines(xs)|)] + xs + [""]
  {
    var data := JoinLines(xs);
    var header := "$" + IntToString(|data|);
    NumeralHasNoLineBreak(|data|);
    assert BulkStringOfLines(xs) == header + "\r\n" + (data + "\r\n");
    ReadLinesCons(header, data + "\r\n");
    JoinLinesLines(xs, "\r\n");
    ReadLinesCons("", "");
    assert "" + "\r\n" + "" == "\r\n";
  }

  /** An integer reply reads back as one line whose tail parses back to the number. */
  lemma IntegerReadsBack(n: int)
    requires LongMin <= n <= LongMax
    ensures ReadLines(Integer(n)) == [":" + IntToString(n)]
    ensures ParseLong((":" + IntToString(n))[1..]) == Some(n)
  {
    NumeralHasNoLineBreak(n);
    assert Integer(n) == (":" + IntToString(n)) + "\r\n" + "";
    ReadLinesCons(":" + IntToString(n), "");
    assert (":" + IntToString(n))[1..] == IntToString(n);
    IntToStringParses(n, LongMin, LongMax);
  }
}

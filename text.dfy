/**
 * The few `java.lang.String` / `java.io.BufferedReader` behaviours the core
 * relies on, over strings of single-byte characters: ASCII case folding,
 * `split` on a one-character separator, and `readLine` line breaking.
 */
module Text {

  function ToLowerChar(c: char): char {
    if 'A' <= c <= 'Z' then ((c as int) + 32) as char else c
  }

  /** `toLowerCase()` restricted to ASCII letters. */
  function ToLower(s: string): (r: string)
    ensures |r| == |s|
    ensures forall i :: 0 <= i < |s| ==> r[i] == ToLowerChar(s[i])
  {
    if s == [] then [] else [ToLowerChar(s[0])] + ToLower(s[1..])
  }

  /** A string without upper-case ASCII letters is its own lower case. */
  lemma ToLowerOfLowerCase(s: string)
    requires forall i :: 0 <= i < |s| ==> !('A' <= s[i] <= 'Z')
    ensures ToLower(s) == s
  {
  }

  /** `equalsIgnoreCase` restricted to ASCII letters. */
  predicate EqualsIgnoreCase(a: string, b: string) {
    ToLower(a) == ToLower(b)
  }

  /** Index of the first occurrence of c in s, or |s| when there is none. */
  function IndexOf(s: string, c: char): (i: nat)
    ensures i <= |s|
    ensures i < |s| ==> s[i] == c
    ensures forall j :: 0 <= j < i ==> s[j] != c
  {
    if s == [] then 0 else if s[0] == c then 0 else 1 + IndexOf(s[1..], c)
  }

  /** The pieces of s between occurrences of c, empty pieces included. */
  function Fields(s: string, c: char): (r: seq<string>)
    ensures |r| > 0
    decreases |s|
  {
    var i := IndexOf(s, c);
    if i == |s| then [s] else [s[..i]] + Fields(s[i + 1..], c)
  }

  function DropTrailingEmpty(xs: seq<string>): (r: seq<string>)
    ensures |r| <= |xs| && r == xs[..|r|]
  {
    if xs != [] && xs[|xs| - 1] == "" then DropTrailingEmpty(xs[..|xs| - 1]) else xs
  }

  /**
   * `s.split(c)` for a separator that is not a regular-expression
   * metacharacter: the string itself when c does not occur in it, otherwise
   * the fields with trailing empty ones removed (so "-".split("-") is empty).
   */
  function Split(s: string, c: char): seq<string> {
    if IndexOf(s, c) == |s| then [s] else DropTrailingEmpty(Fields(s, c))
  }

  /** Splitting "a<c>b" with no c in either part and a non-empty b gives [a, b]. */
  lemma SplitTwo(a: string, b: string, c: char)
    requires c !in a && c !in b && b != ""
    ensures Split(a + [c] + b, c) == [a, b]
  {
    var s := a + [c] + b;
    assert s[|a|] == c;
    assert forall j :: 0 <= j < |a| ==> s[j] == a[j];
    assert IndexOf(s, c) == |a|;
    assert s[..|a|] == a && s[|a| + 1..] == b;
    assert Fields(b, c) == [b];
  }

  /** Splitting "a<c><c>b" the same way gives an empty middle field. */
  lemma SplitEmptyMiddle(a: string, b: string, c: char)
    requires c !in a && c !in b && b != ""
    ensures Split(a + [c] + [c] + b, c) == [a, "", b]
  {
    var s := a + [c] + [c] + b;
    assert s[|a|] == c;
    assert forall j :: 0 <= j < |a| ==> s[j] == a[j];
    assert IndexOf(s, c) == |a|;
    var rest := s[|a| + 1..];
    assert s[..|a|] == a && rest == [c] + b;
    assert IndexOf(rest, c) == 0;
    assert rest[..0] == "" && rest[1..] == b;
    assert Fields(b, c) == [b];
    assert Fields(rest, c) == [""] + [b];
    assert Fields(s, c) == [a] + Fields(rest, c);
  }

  /** Index of the first '\r' or '\n' in s, or |s| when there is none. */
  function LineBreakAt(s: string): (i: nat)
    ensures i <= |s|
    ensures i < |s| ==> s[i] == '\r' || s[i] == '\n'
    ensures forall j :: 0 <= j < i ==> s[j] != '\r' && s[j] != '\n'
  {
    if s == [] then 0 else if s[0] == '\r' || s[0] == '\n' then 0 else 1 + LineBreakAt(s[1..])
  }

  predicate NoLineBreak(s: string) {
    forall i :: 0 <= i < |s| ==> s[i] != '\r' && s[i] != '\n'
  }

  /**
   * The lines `BufferedReader.readLine` returns before end of stream: a line
   * ends at "\n", "\r" or "\r\n", and a last line without a terminator is
   * still returned.
   */
  function ReadLines(s: string): seq<string>
    decreases |s|
  {
    if s == [] then []
    else
      var i := LineBreakAt(s);
      if i == |s| then [s]
      else if s[i] == '\r' && i + 1 < |s| && s[i + 1] == '\n' then [s[..i]] + ReadLines(s[i + 2..])
      else [s[..i]] + ReadLines(s[i + 1..])
  }

  /** A CRLF-terminated line with no line break in it reads back as one line. */
  lemma ReadLinesCons(a: string, b: string)
    requires NoLineBreak(a)
    ensures ReadLines(a + "\r\n" + b) == [a] + ReadLines(b)
  {
    var s := a + "\r\n" + b;
    assert forall j :: 0 <= j < |a| ==> s[j] == a[j];
    assert s[|a|] == '\r' && s[|a| + 1] == '\n';
    assert LineBreakAt(s) == |a|;
    assert s[..|a|] == a && s[|a| + 2..] == b;
  }
}

/**
 * The reply of a stream append (db/Pair.java): an optional response and an
 * optional error, of which at least one is present.
 */
module Pairs {
  import opened Optional

  datatype Pair = Pair(response: Option<string>, error: Option<string>)

  /** The constructor's invariant: the two sides are never both missing. */
  predicate Valid(p: Pair) {
    p.response.Some? || p.error.Some?
  }

  /**
   * The checking factory `pair(response, error)`: None stands for the
   * IllegalStateException thrown when both sides are missing.
   */
  function MakePair(response: Option<string>, error: Option<string>): (r: Option<Pair>)
    ensures r.None? <==> response.None? && error.None?
    ensures r.Some? ==> Valid(r.value) && r.value.response == response && r.value.error == error
  {
    if response.None? && error.None? then None else Some(Pair(response, error))
  }

  /** `pair(of(v), empty())`. */
  function Response(v: string): (p: Pair)
    ensures Valid(p) && ActualValue(p) == v
  {
    Pair(Some(v), None)
  }

  /** `pair(empty(), of(e))`. */
  function Error(e: string): (p: Pair)
    ensures Valid(p) && p.response.None? && ActualValue(p) == e
  {
    Pair(None, Some(e))
  }

  function OptionMap(o: Option<string>, f: string -> string): Option<string> {
    if o.Some? then Some(f(o.value)) else None
  }

  /**
   * `map(mapValue, mapError)`: each side mapped independently; the result
   * passes the factory's check again because presence is preserved.
   */
  function MapPair(p: Pair, f: string -> string, g: string -> string): (r: Pair)
    requires Valid(p)
    ensures Valid(r)
    ensures r.response.Some? <==> p.response.Some?
    ensures r.error.Some? <==> p.error.Some?
    ensures r.response.Some? ==> r.response.value == f(p.response.value)
    ensures r.error.Some? ==> r.error.value == g(p.error.value)
  {
    MakePair(OptionMap(p.response, f), OptionMap(p.error, g)).value
  }

  /** `actualValue()`: the response when present, otherwise the error. */
  function ActualValue(p: Pair): (r: string)
    requires Valid(p)
    ensures p.response.Some? ==> r == p.response.value
    ensures p.response.None? ==> r == p.error.value
  {
    if p.response.Some? then p.response.value else p.error.value
  }

  /** What is written for an XADD: the mapped response, or else the mapped error. */
  lemma ActualValueOfMap(p: Pair, f: string -> string, g: string -> string)
    requires Valid(p)
    ensures ActualValue(MapPair(p, f, g)) ==
            if p.response.Some? then f(p.response.value) else g(p.error.value)
  {
  }
}

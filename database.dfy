/**
 * The key-value store with lazy expiry (db/Database.java): a map of values,
 * a map of absolute expiry instants in milliseconds, and the stream store.
 * The wall clock is the parameter `now`; `get` is the only place a key is
 * ever evicted.
 */
module KeyValue {
  import opened Optional
  import opened LinkedMap
  import opened Pairs
  import opened Entries
  import StreamStore

  /** `ofMinutes(2)`: the lifetime `get` gives a key without an expiry. */
  const DefaultLifetime := 120000

  /** The expiry instant `get` compares against. */
  function ExpiryOf(expiry: map<string, int>, key: string, now: int): (t: int)
    ensures key !in expiry ==> t == now + DefaultLifetime
  {
    if key in expiry then expiry[key] else now + DefaultLifetime
  }

  /** `now.isAfter(expiryTime)`: strictly after. */
  predicate IsExpired(expiry: map<string, int>, key: string, now: int) {
    now > ExpiryOf(expiry, key, now)
  }

  /** What `get` returns. */
  function Lookup(values: map<string, string>, expiry: map<string, int>, key: string, now: int): (r: Option<string>)
    ensures r.Some? ==> key in values && r.value == values[key]
    ensures key !in expiry ==> r == (if key in values then Some(values[key]) else None)
  {
    if IsExpired(expiry, key, now) then None
    else if key in values then Some(values[key])
    else None
  }

  /** What `type` answers, given what `get` returned and whether the stream store has the key. */
  function TypeName(lookup: Option<string>, isStream: bool): (t: string)
    ensures t in {"string", "stream", "none"}
    ensures t == "string" <==> lookup.Some?
    ensures t == "stream" <==> lookup.None? && isStream
  {
    if lookup.Some? then "string" else if isStream then "stream" else "none"
  }

  /** A key without a recorded expiry is never evicted, whatever the time. */
  lemma NoExpiryNeverExpires(expiry: map<string, int>, key: string, now: int)
    requires key !in expiry
    ensures !IsExpired(expiry, key, now)
  {
  }

  /** `set(k, v, d)` at `now`, then `get(k)` at `later`: the value until `now + d`, inclusive, then nothing. */
  lemma SetWithDurationThenLookup(values: map<string, string>, expiry: map<string, int>,
                                  key: string, value: string, duration: int, now: int, later: int)
    ensures Lookup(values[key := value], expiry[key := now + duration], key, later) ==
      if later > now + duration then None else Some(value)
  {
  }

  /** A plain `set` keeps an earlier expiry: a key already past it reads as absent right after being set. */
  lemma PlainSetKeepsExpiry(values: map<string, string>, expiry: map<string, int>,
                            key: string, value: string, now: int)
    ensures Lookup(values[key := value], expiry, key, now) ==
      if IsExpired(expiry, key, now) then None else Some(value)
  {
  }

  /** Lookups of other keys do not see a `set`. */
  lemma SetIsLocal(values: map<string, string>, expiry: map<string, int>,
                   key: string, value: string, other: string, now: int)
    requires other != key
    ensures Lookup(values[key := value], expiry, other, now) == Lookup(values, expiry, other, now)
  {
  }

  /** After an eviction the key stays absent, and a later `get` evicts nothing more. */
  lemma EvictionIsFinal(values: map<string, string>, expiry: map<string, int>, key: string, now: int, later: int)
    requires IsExpired(expiry, key, now)
    ensures Lookup(values - {key}, expiry - {key}, key, later) == None
    ensures !IsExpired(expiry - {key}, key, later)
  {
  }

  class Database {
    var simpleKeyValue: map<string, string>
    var expiryKey: map<string, int>
    const streamStore: StreamStore.Store

    ghost predicate Valid()
      reads this, streamStore
    {
      streamStore.Valid()
    }

    constructor ()
      ensures Valid() && fresh(streamStore)
      ensures simpleKeyValue == map[] && expiryKey == map[] && streamStore.streams == map[]
    {
      simpleKeyValue := map[];
      expiryKey := map[];
      streamStore := new StreamStore.Store();
    }

    /** `set(key, value)`: the value only; any recorded expiry stays. */
    method Set(key: string, value: string)
      modifies this
      ensures simpleKeyValue == old(simpleKeyValue)[key := value]
      ensures expiryKey == old(expiryKey)
    {
      simpleKeyValue := simpleKeyValue[key := value];
    }

    /** `set(key, value, duration)`: the value and the instant `now + duration`. */
    method SetWithDuration(key: string, value: string, duration: int, now: int)
      modifies this
      ensures simpleKeyValue == old(simpleKeyValue)[key := value]
      ensures expiryKey == old(expiryKey)[key := now + duration]
    {
      simpleKeyValue := simpleKeyValue[key := value];
      expiryKey := expiryKey[key := now + duration];
    }

    /** `get(key)`: an expired key is removed from both maps and reads as absent. */
    method Get(key: string, now: int) returns (r: Option<string>)
      modifies this
      ensures r == Lookup(old(simpleKeyValue), old(expiryKey), key, now)
      ensures IsExpired(old(expiryKey), key, now) ==>
        simpleKeyValue == old(simpleKeyValue) - {key} && expiryKey == old(expiryKey) - {key}
      ensures !IsExpired(old(expiryKey), key, now) ==>
        simpleKeyValue == old(simpleKeyValue) && expiryKey == old(expiryKey)
    {
      var expiryTime := if key in expiryKey then expiryKey[key] else now + DefaultLifetime;
      if now > expiryTime {
        simpleKeyValue := simpleKeyValue - {key};
        expiryKey := expiryKey - {key};
        return None;
      }
      r := if key in simpleKeyValue then Some(simpleKeyValue[key]) else None;
    }

    /** `type(key)`: "string", "stream" or "none"; the `get` inside may evict. */
    method Type(key: string, now: int) returns (t: string)
      modifies this
      ensures t == TypeName(Lookup(old(simpleKeyValue), old(expiryKey), key, now), streamStore.ContainsStream(key))
      ensures IsExpired(old(expiryKey), key, now) ==>
        simpleKeyValue == old(simpleKeyValue) - {key} && expiryKey == old(expiryKey) - {key}
      ensures !IsExpired(old(expiryKey), key, now) ==>
        simpleKeyValue == old(simpleKeyValue) && expiryKey == old(expiryKey)
    {
      var value := Get(key, now);
      if value.Some? {
        t := "string";
      } else if streamStore.ContainsStream(key) {
        t := "stream";
      } else {
        t := "none";
      }
    }

    /** `saveStream`: one XADD on the stream store; the key-value maps are untouched. */
    method SaveStream(key: string, value: string, fields: LinkedMap, now: int) returns (r: Option<Pair>)
      requires Valid()
      modifies streamStore
      ensures Valid()
      ensures StreamStore.PutResult(r, streamStore.streams) == StreamStore.PutSpec(old(streamStore.streams), key, value, fields, now)
      ensures simpleKeyValue == old(simpleKeyValue) && expiryKey == old(expiryKey)
    {
      r := streamStore.Put(key, value, fields, now);
    }

    /** `range`: one XRANGE. */
    method Range(key: string, start: string, end: string) returns (r: Option<seq<Entry>>)
      ensures r == StreamStore.RangeSpec(streamStore.streams, key, start, end)
    {
      r := streamStore.Range(key, start, end);
    }

    /** `xread`: one XREAD. */
    method Xread(requests: LinkedMap) returns (r: Option<seq<(string, seq<Entry>)>>)
      ensures r == StreamStore.XreadSpec(streamStore.streams, requests)
    {
      r := streamStore.Xread(requests);
    }
  }
}

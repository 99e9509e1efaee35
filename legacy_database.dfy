/**
 * The older key-value store (Database.java in the default package): the
 * same two maps and the same lazy expiry, without a stream store. Its
 * behaviour is specified by the same functions as the newer store.
 */
module LegacyKeyValue {
  import opened Optional
  import opened KeyValue

  class Database {
    var simpleKeyValue: map<string, string>
    var expiryKey: map<string, int>

    constructor ()
      ensures simpleKeyValue == map[] && expiryKey == map[]
    {
      simpleKeyValue := map[];
      expiryKey := map[];
    }

    /** `set(key, value)`: the value only; any recorded expiry stays. */
    method Set(key: string, value: string)
      modifies this
      ensures simpleKeyValue == old(simpleKeyValue)[key := value]
      ensures expiryKey == old(expiryKey)
    {
      simpleKeyValue := simpleKeyValue[key := value];
    }

    /** `set(key, value, duration)`: the value and the instant `now + duration`. */
    method SetWithDuration(key: string, value: string, duration: int, now: int)
      modifies this
      ensures simpleKeyValue == old(simpleKeyValue)[key := value]
      ensures expiryKey == old(expiryKey)[key := now + duration]
    {
      simpleKeyValue := simpleKeyValue[key := value];
      expiryKey := expiryKey[key := now + duration];
    }

    /** `get(key)`: an expired key is removed from both maps and reads as absent. */
    method Get(key: string, now: int) returns (r: Option<string>)
      modifies this
      ensures r == Lookup(old(simpleKeyValue), old(expiryKey), key, now)
      ensures IsExpired(old(expiryKey), key, now) ==>
        simpleKeyValue == old(simpleKeyValue) - {key} && expiryKey == old(expiryKey) - {key}
      ensures !IsExpired(old(expiryKey), key, now) ==>
        simpleKeyValue == old(simpleKeyValue) && expiryKey == old(expiryKey)
    {
      var expiryTime := if key in expiryKey then expiryKey[key] else now + DefaultLifetime;
      if now > expiryTime {
        simpleKeyValue := simpleKeyValue - {key};
        expiryKey := expiryKey - {key};
        return None;
      }
      r := if key in simpleKeyValue then Some(simpleKeyValue[key]) else None;
    }
  }
}

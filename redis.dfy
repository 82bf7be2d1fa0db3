/**
 * The key-value cache behind `redis` (an ioredis client): string keys, token
 * values, and a per-key expiry. Only the three commands the session protocol
 * issues are modelled: SET with EX, GET and DEL.
 */
module Redis {
  import opened Wrappers
  import opened Jwt

  /** A stored value with the instant, in milliseconds, at which it expires. */
  datatype Entry = Entry(value: Token, expiresAtMs: int)

  /** What GET returns: the value while its key has not expired, else nil. */
  function Lookup(entries: map<string, Entry>, key: string, nowMs: nat): (r: Option<Token>)
    ensures r.Some? <==> key in entries && nowMs <= entries[key].expiresAtMs
    ensures r.Some? ==> r.value == entries[key].value
  {
    if key in entries && nowMs <= entries[key].expiresAtMs then Some(entries[key].value) else None
  }

  class SessionCache {
    var entries: map<string, Entry>

    constructor ()
      ensures entries == map[]
    {
      entries := map[];
    }

    /** `SET key value EX seconds`: overwrites any previous value and expiry. */
    method SetEx(key: string, value: Token, seconds: nat, nowMs: nat)
      modifies this
      ensures entries == old(entries)[key := Entry(value, nowMs + seconds * 1000)]
    {
      entries := entries[key := Entry(value, nowMs + seconds * 1000)];
    }

    /** `GET key`. */
    method Get(key: string, nowMs: nat) returns (r: Option<Token>)
      ensures r == Lookup(entries, key, nowMs)
    {
      r := Lookup(entries, key, nowMs);
    }

    /** `DEL key`: removing an absent key is not an error. */
    method Del(key: string)
      modifies this
      ensures entries == old(entries) - {key}
    {
      entries := entries - {key};
    }
  }
}

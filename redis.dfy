/** The Redis instance shared by the data cache and the DocuSign token
    cache (a key-value map with `EX` expiry), and the client's reconnection
    back-off (backend/src/config/redis.ts). */
module Redis {
  import opened Wrappers
  import opened Values

  /** A cached value and the instant its `EX` time-to-live runs out.
      `JSON.stringify` / `JSON.parse` round-trips are the identity here. */
  datatype Entry = Entry(payload: Value, expiresAt: int)

  /** `GET key` at time `now`: a key whose time-to-live has run out is gone. */
  function Live(entries: map<string, Entry>, key: string, now: int): Option<Value>
  {
    if key in entries && now < entries[key].expiresAt then Some(entries[key].payload) else None
  }

  /** `SET key value EX ttl` at time `now`. */
  function Stored(entries: map<string, Entry>, key: string, v: Value, ttl: nat, now: int): map<string, Entry>
  {
    entries[key := Entry(v, now + ttl)]
  }

  /** A value set with a time-to-live is read back until the time-to-live
      has elapsed and not afterwards; other keys are not disturbed. */
  lemma SetThenGet(entries: map<string, Entry>, key: string, v: Value, ttl: nat, now: int, later: int, other: string)
    requires other != key
    ensures Live(Stored(entries, key, v, ttl, now), key, later) == if later < now + ttl then Some(v) else None
    ensures Live(Stored(entries, key, v, ttl, now), other, later) == Live(entries, other, later)
  {
  }

  class Cache {
    var entries: map<string, Entry>

    constructor ()
      ensures entries == map[]
    {
      entries := map[];
    }

    method Get(key: string, now: int) returns (r: Option<Value>)
      ensures r == Live(entries, key, now)
    {
      r := Live(entries, key, now);
    }

    method Set(key: string, v: Value, ttl: nat, now: int)
      modifies this
      ensures entries == Stored(old(entries), key, v, ttl, now)
    {
      entries := entries[key := Entry(v, now + ttl)];
    }

    /** A write issued by another client of the same Redis instance. */
    method Put(key: string, e: Entry)
      modifies this
      ensures entries == old(entries)[key := e]
    {
      entries := entries[key := e];
    }
  }

  /** `retryStrategy`: the delay in milliseconds before reconnection
      attempt `times`, `Math.min(times * 50, 2000)`. */
  function RetryDelay(times: nat): (d: nat)
    ensures d <= 2000
    ensures d <= times * 50
    ensures d == times * 50 <==> times <= 40
    ensures times > 40 ==> d == 2000
  {
    if times * 50 <= 2000 then times * 50 else 2000
  }

  /** Later attempts never wait less. */
  lemma RetryDelayMonotone(a: nat, b: nat)
    requires a <= b
    ensures RetryDelay(a) <= RetryDelay(b)
  {
  }
}

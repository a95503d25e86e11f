/** The two-tier cache (backend/storage/redis_cache.py). Every `Set` writes
    the payload twice: under the key with the caller's expiry and under
    "stale:" + key with a fixed one-day expiry, so a reader can fall back to the
    stale copy once the primary one has expired.

    The Redis server is a map from keys to entries. JSON encoding is the
    identity on payloads, and the passage of time is the explicit `Expire`
    step, which drops one key as its TTL running out would. */
module RedisCache {
  import opened Wrappers

  const StalePrefix := "stale:"
  /** Expiry of the stale copy, in seconds: 24 hours. */
  const StaleTtl := 86400
  /** Expiry of the primary copy when the caller gives none. */
  const DefaultTtl := 300

  datatype Entry<T> = Entry(payload: T, ttl: int)

  type Store<T> = map<string, Entry<T>>

  /** The key of the stale copy of `key`. */
  function StaleKey(key: string): (k: string)
    ensures |k| == |StalePrefix| + |key|
    ensures k[..|StalePrefix|] == StalePrefix && k[|StalePrefix|..] == key
  {
    StalePrefix + key
  }

  /** `get`: the payload under `key`, or nothing on a miss. */
  function Get<T>(store: Store<T>, key: string): (r: Option<T>)
    ensures r.None? <==> key !in store
    ensures r.Some? ==> r.value == store[key].payload
  {
    if key in store then Some(store[key].payload) else None
  }

  /** `set`: the primary copy with the caller's ttl, then the stale copy with `StaleTtl`. */
  function Set<T>(store: Store<T>, key: string, data: T, ttl: int := DefaultTtl): (r: Store<T>)
    ensures r.Keys == store.Keys + {key, StaleKey(key)}
    ensures r[key] == Entry(data, ttl)
    ensures r[StaleKey(key)] == Entry(data, StaleTtl)
    ensures forall k :: k in store && k != key && k != StaleKey(key) ==> r[k] == store[k]
  {
    StaleKeyIsNotKey(key);
    store[key := Entry(data, ttl)][StaleKey(key) := Entry(data, StaleTtl)]
  }

  /** What `get_with_stale` answers, with the keys it read, in order. */
  datatype StaleRead<T> = StaleRead(data: Option<T>, isStale: bool, probed: seq<string>)

  /** `get_with_stale`: the primary copy if present, else the stale copy, else nothing. */
  function GetWithStale<T>(store: Store<T>, key: string): (r: StaleRead<T>)
    ensures key in store ==> r == StaleRead(Some(store[key].payload), false, [key])
    ensures key !in store ==> r.probed == [key, StaleKey(key)]
    ensures key !in store && StaleKey(key) in store ==> r.data == Some(store[StaleKey(key)].payload) && r.isStale
    ensures key !in store && StaleKey(key) !in store ==> r.data == None && !r.isStale
  {
    match Get(store, key)
    case Some(d) => StaleRead(Some(d), false, [key])
    case None =>
      match Get(store, StaleKey(key))
      case Some(d) => StaleRead(Some(d), true, [key, StaleKey(key)])
      case None => StaleRead(None, false, [key, StaleKey(key)])
  }

  /** `delete`: removes both copies. */
  function Delete<T>(store: Store<T>, key: string): (r: Store<T>)
    ensures r.Keys == store.Keys - {key, StaleKey(key)}
    ensures forall k :: k in r ==> r[k] == store[k]
  {
    store - {key, StaleKey(key)}
  }

  /** The server dropping `key` because its ttl ran out. */
  function Expire<T>(store: Store<T>, key: string): (r: Store<T>)
    ensures r.Keys == store.Keys - {key}
    ensures forall k :: k in r ==> r[k] == store[k]
  {
    store - {key}
  }

  // ---------------------------------------------------------------------
  // Properties

  /** The stale copy never lands on the primary key. */
  lemma StaleKeyIsNotKey(key: string)
    ensures StaleKey(key) != key
  {
    assert |StaleKey(key)| == |key| + 6;
  }

  /** Different keys have different stale copies. */
  lemma StaleKeyInjective(a: string, b: string)
    requires StaleKey(a) == StaleKey(b)
    ensures a == b
  {
    assert a == StaleKey(a)[|StalePrefix|..];
  }

  /** `get` answers what `set` stored. */
  lemma SetThenGet<T>(store: Store<T>, key: string, data: T, ttl: int)
    ensures Get(Set(store, key, data, ttl), key) == Some(data)
    ensures Get(Set(store, key, data, ttl), StaleKey(key)) == Some(data)
  {
  }

  /** `get_with_stale` answers a key just set from the primary copy alone. */
  lemma SetThenGetWithStale<T>(store: Store<T>, key: string, data: T, ttl: int)
    ensures GetWithStale(Set(store, key, data, ttl), key) == StaleRead(Some(data), false, [key])
  {
  }

  /** Once the primary copy has expired, the stale copy still answers, flagged stale. */
  lemma ExpiredPrimaryServesStale<T>(store: Store<T>, key: string, data: T, ttl: int)
    ensures var s := Expire(Set(store, key, data, ttl), key);
      && Get(s, key) == None
      && GetWithStale(s, key) == StaleRead(Some(data), true, [key, StaleKey(key)])
  {
    StaleKeyIsNotKey(key);
  }

  /** After `delete` both reads miss. */
  lemma DeleteThenRead<T>(store: Store<T>, key: string)
    ensures Get(Delete(store, key), key) == None
    ensures GetWithStale(Delete(store, key), key) == StaleRead(None, false, [key, StaleKey(key)])
  {
  }

  /** `get_with_stale` is `get` on the key, falling back to `get` on its stale copy. */
  lemma GetWithStaleByGet<T>(store: Store<T>, key: string)
    ensures var r := GetWithStale(store, key);
      && r.data == (if Get(store, key).Some? then Get(store, key) else Get(store, StaleKey(key)))
      && (r.isStale <==> Get(store, key).None? && Get(store, StaleKey(key)).Some?)
  {
  }

  /** `set` and `delete` on one key leave the reads of every unrelated key as they were. */
  lemma OtherKeysUntouched<T>(store: Store<T>, key: string, other: string, data: T, ttl: int)
    requires other != key && other != StaleKey(key)
    ensures Get(Set(store, key, data, ttl), other) == Get(store, other)
    ensures Get(Delete(store, key), other) == Get(store, other)
  {
  }

  /** A later `set` on the same key replaces both copies of an earlier one. */
  lemma SetOverwrites<T>(store: Store<T>, key: string, d1: T, t1: int, d2: T, t2: int)
    ensures Set(Set(store, key, d1, t1), key, d2, t2) == Set(store, key, d2, t2)
  {
  }

  /** `delete` undoes a `set` of the same key. */
  lemma DeleteUndoesSet<T>(store: Store<T>, key: string, data: T, ttl: int)
    ensures Delete(Set(store, key, data, ttl), key) == Delete(store, key)
  {
  }

  /** The round-trip test: set with ttl 600 writes the primary copy with ttl 600
      and the stale copy with 86400, and a get returns the payload. */
  lemma RoundTripScenario<T>(store: Store<T>, data: T)
    ensures StaleKey("trade:1") == "stale:trade:1"
    ensures var s := Set(store, "trade:1", data, 600);
      && s["trade:1"] == Entry(data, 600)
      && s[StaleKey("trade:1")] == Entry(data, 86400)
      && Get(s, "trade:1") == Some(data)
  {
  }

  /** Without an explicit ttl the primary copy expires after 300 seconds. */
  lemma DefaultTtlScenario<T>(store: Store<T>, key: string, data: T)
    ensures Set(store, key, data)[key].ttl == 300
    ensures Set(store, key, data)[StaleKey(key)].ttl == 86400
  {
  }
}

/**
 * `SimpleCache` (backend/utils/cache.py): a dictionary from key to (value, timestamp)
 * whose entries expire `ttl` seconds after they were stored. Expired entries are
 * removed lazily, by the read that finds them. The clock is a parameter `now`
 * (seconds, as `time.time()` returns them).
 */
module Cache {
  import opened Wrappers

  /** The source's default and the backend's global instance: one hour. */
  const DEFAULT_TTL: int := 3600

  /** `(value, timestamp)`. */
  datatype Entry<V> = Entry(value: V, timestamp: real)

  /** `time.time() - timestamp < self.ttl`: younger than the time-to-live, strictly. */
  predicate Fresh<V>(e: Entry<V>, now: real, ttl: int)
  {
    now - e.timestamp < ttl as real
  }

  /** What `get(key)` returns from `store` at time `now`. */
  function Lookup<V>(store: map<string, Entry<V>>, key: string, now: real, ttl: int): Option<V>
  {
    if key in store && Fresh(store[key], now, ttl) then Some(store[key].value) else None
  }

  /** The store after `get(key)`: an expired entry for `key` is deleted, nothing else moves. */
  function AfterGet<V>(store: map<string, Entry<V>>, key: string, now: real, ttl: int): map<string, Entry<V>>
  {
    if key in store && !Fresh(store[key], now, ttl) then store - {key} else store
  }

  class SimpleCache<V> {
    const ttl: int
    var store: map<string, Entry<V>>

    /** `SimpleCache(ttl)`: an empty store. */
    constructor(ttl: int)
      ensures this.ttl == ttl && store == map[]
    {
      this.ttl := ttl;
      store := map[];
    }

    /** `get(key)`. */
    method Get(key: string, now: real) returns (r: Option<V>)
      modifies this
      ensures r == Lookup(old(store), key, now, ttl)
      ensures store == AfterGet(old(store), key, now, ttl)
    {
      if key in store {
        var e := store[key];
        if now - e.timestamp < ttl as real {
          return Some(e.value);
        } else {
          store := store - {key};
        }
      }
      return None;
    }

    /** `set(key, value)`: overwrite, stamped with the current time. */
    method Set(key: string, value: V, now: real)
      modifies this
      ensures store == old(store)[key := Entry(value, now)]
    {
      store := store[key := Entry(value, now)];
    }

    /** `clear()`. */
    method Clear()
      modifies this
      ensures store == map[]
    {
      store := map[];
    }

    /** `has(key)`: `get(key) is not None`, so it evicts an expired entry as `get` does. */
    method Has(key: string, now: real) returns (b: bool)
      modifies this
      ensures b == Lookup(old(store), key, now, ttl).Some?
      ensures store == AfterGet(old(store), key, now, ttl)
    {
      var r := Get(key, now);
      b := r.Some?;
    }
  }

  /** A value stored at `t` is read back at `t2` exactly while `t2 - t < ttl`, and such a
      read leaves the store as it is; at `t2 - t == ttl` it is already gone. */
  lemma SetThenGet<V>(store: map<string, Entry<V>>, key: string, v: V, t: real, t2: real, ttl: int)
    ensures var s := store[key := Entry(v, t)];
      && (t2 - t < ttl as real ==> Lookup(s, key, t2, ttl) == Some(v) && AfterGet(s, key, t2, ttl) == s)
      && (t2 - t >= ttl as real ==> Lookup(s, key, t2, ttl) == None && AfterGet(s, key, t2, ttl) == store - {key})
  {
    var s := store[key := Entry(v, t)];
    assert s - {key} == store - {key};
  }

  /** Reading an absent key yields nothing and changes nothing. */
  lemma GetAbsent<V>(store: map<string, Entry<V>>, key: string, now: real, ttl: int)
    requires key !in store
    ensures Lookup(store, key, now, ttl) == None && AfterGet(store, key, now, ttl) == store
  {
  }

  /** Reading an expired key yields nothing and removes exactly that key. */
  lemma GetExpired<V>(store: map<string, Entry<V>>, key: string, now: real, ttl: int)
    requires key in store && now - store[key].timestamp >= ttl as real
    ensures Lookup(store, key, now, ttl) == None
    ensures AfterGet(store, key, now, ttl).Keys == store.Keys - {key}
    ensures forall k :: k in store && k != key ==> AfterGet(store, key, now, ttl)[k] == store[k]
  {
  }

  /** A read never touches another key, and a write only its own. */
  lemma OtherKeysUntouched<V>(store: map<string, Entry<V>>, key: string, other: string, v: V, now: real, ttl: int)
    requires other != key
    ensures other in AfterGet(store, key, now, ttl) <==> other in store
    ensures other in store ==> AfterGet(store, key, now, ttl)[other] == store[other]
    ensures Lookup(AfterGet(store, key, now, ttl), other, now, ttl) == Lookup(store, other, now, ttl)
    ensures Lookup(store[key := Entry(v, now)], other, now, ttl) == Lookup(store, other, now, ttl)
  {
  }

  /** A second read at the same instant sees the same thing and changes nothing more. */
  lemma GetIdempotent<V>(store: map<string, Entry<V>>, key: string, now: real, ttl: int)
    ensures var s := AfterGet(store, key, now, ttl);
      Lookup(s, key, now, ttl) == Lookup(store, key, now, ttl) && AfterGet(s, key, now, ttl) == s
  {
  }

  /** A write right after a read makes the eviction the read did irrelevant. */
  lemma GetThenSet<V>(store: map<string, Entry<V>>, key: string, now: real, ttl: int, e: Entry<V>)
    ensures AfterGet(store, key, now, ttl)[key := e] == store[key := e]
  {
  }

  /** After `clear()` every read misses. */
  lemma ClearedMisses<V>(store: map<string, Entry<V>>, key: string, now: real, ttl: int)
    requires store == map[]
    ensures Lookup(store, key, now, ttl) == None && AfterGet(store, key, now, ttl) == store
  {
  }
}

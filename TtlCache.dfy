/**
 The in-memory cache of app.py: a map from key to (timestamp, value) with lazy
 expiry on read. The clock is an explicit `now` argument in whole seconds.
 */
module TtlCache {
  import opened Optional

  /** Maximum age of an entry before a read discards it: 15 minutes, in seconds. */
  const TTL: int := 15 * 60

  /** The `{"t": ..., "v": ...}` row stored per key. */
  datatype Entry<V> = Entry(storedAt: int, value: V)

  /** An entry is stale once its age is strictly greater than TTL. */
  predicate Expired<V>(e: Entry<V>, now: int) {
    now - e.storedAt > TTL
  }

  /** What a read returns, together with the cache it leaves behind. */
  datatype Read<V> = Read(value: Option<V>, entries: map<string, Entry<V>>)

  /** `_get_cached(key)` at time `now`. */
  function Lookup<V>(entries: map<string, Entry<V>>, key: string, now: int): (r: Read<V>)
    // a value comes back exactly when a fresh entry is stored, and it is that entry's value
    ensures r.value.Some? <==> key in entries && !Expired(entries[key], now)
    ensures r.value.Some? ==> r.value.value == entries[key].value
    // the read only ever deletes, and only the expired entry under `key`
    ensures r.entries.Keys == if key in entries && Expired(entries[key], now)
                              then entries.Keys - {key} else entries.Keys
    ensures forall k :: k in r.entries ==> r.entries[k] == entries[k]
    // afterwards no stale entry is left under `key`
    ensures key in r.entries ==> !Expired(r.entries[key], now)
  {
    if key !in entries then
      Read(None, entries)
    else if now - entries[key].storedAt > TTL then
      Read(None, entries - {key})
    else
      Read(Some(entries[key].value), entries)
  }

  /** `_set_cached(key, value)` at time `now`. */
  function Store<V>(entries: map<string, Entry<V>>, key: string, value: V, now: int): (r: map<string, Entry<V>>)
    ensures r.Keys == entries.Keys + {key}
    ensures r[key] == Entry(now, value)
    ensures forall k :: k in entries && k != key ==> r[k] == entries[k]
    // a read of `key` at any time up to TTL after the store returns the stored value
    ensures forall later :: later <= now + TTL ==> Lookup(r, key, later) == Read(Some(value), r)
  {
    entries[key := Entry(now, value)]
  }

  /** Once more than TTL has passed since a store, reading the key misses and drops it. */
  lemma StoreThenExpire<V>(entries: map<string, Entry<V>>, key: string, value: V, now: int, later: int)
    requires later > now + TTL
    ensures Lookup(Store(entries, key, value, now), key, later) == Read(None, entries - {key})
  {
  }

  /** The module-level `CACHE` dictionary. */
  class Cache<V> {
    var entries: map<string, Entry<V>>

    constructor ()
      ensures entries == map[]
    {
      entries := map[];
    }

    /** `_get_cached`: misses on an absent key, drops and misses on a stale one. */
    method Get(key: string, now: int) returns (v: Option<V>)
      modifies this
      ensures Read(v, entries) == Lookup(old(entries), key, now)
    {
      if key !in entries {
        return None;
      }
      var row := entries[key];
      if now - row.storedAt > TTL {
        entries := entries - {key};
        return None;
      }
      return Some(row.value);
    }

    /** `_set_cached`: overwrites unconditionally, stamping the entry with `now`. */
    method Set(key: string, value: V, now: int)
      modifies this
      ensures entries == Store(old(entries), key, value, now)
    {
      entries := entries[key := Entry(now, value)];
    }
  }
}

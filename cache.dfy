/**
 * The time-to-live cache of config.js (`Cache`): a key-value store kept in the
 * browser's durable storage, each key holding its data, the time it was stored
 * and its lifetime. Reads purge lazily: an entry older than its lifetime is
 * deleted on the read that finds it and reported as absent.
 *
 * The clock is a parameter `now` (milliseconds) of the operations that read it.
 */
module TtlCache {
  import opened Wrappers
  import Config

  /** A stored item: the cached data, the time it was stored and its lifetime, both in milliseconds. */
  datatype Entry<T> = Entry(data: T, timestamp: int, expiry: int)
  {
    /** Still served at time `now`: its age does not exceed its lifetime (an age equal to the lifetime is still live). */
    predicate LiveAt(now: int)
    {
      now - timestamp <= expiry
    }
  }

  type Store<T> = map<string, Entry<T>>

  /** What a read of `key` at time `now` returns. */
  function Lookup<T>(store: Store<T>, key: string, now: int): (r: Option<T>)
    ensures r.Some? <==> key in store && store[key].LiveAt(now)
    ensures r.Some? ==> r.value == store[key].data
  {
    if key !in store then None
    else if !store[key].LiveAt(now) then None
    else Some(store[key].data)
  }

  /** The store after a read of `key` at time `now`: an expired entry for `key` is gone, everything else is as it was. */
  function AfterLookup<T>(store: Store<T>, key: string, now: int): (r: Store<T>)
    ensures r.Keys <= store.Keys
    ensures key in r <==> key in store && store[key].LiveAt(now)
    ensures forall k :: k in r ==> r[k] == store[k]
    ensures forall k :: k in store && k != key ==> k in r
  {
    if key in store && !store[key].LiveAt(now) then store - {key} else store
  }

  /** The store after `set(key, data, expiry)` at time `now`. */
  function Put<T>(store: Store<T>, key: string, data: T, expiry: int, now: int): (r: Store<T>)
    ensures r.Keys == store.Keys + {key}
    ensures r[key] == Entry(data, now, expiry)
    ensures forall k :: k in store && k != key ==> r[k] == store[k]
  {
    store[key := Entry(data, now, expiry)]
  }

  /** The cache over the browser's storage, which `store` stands for. */
  class Cache<T> {
    var store: Store<T>

    /** A cache over storage that already holds `initial` (the storage outlives the page). */
    constructor (initial: Store<T>)
      ensures store == initial
    {
      store := initial;
    }

    /** `Cache.set`: store `data` under `key`, stamped with `now`, replacing any previous entry for `key` only. */
    method Set(key: string, data: T, now: int, expiry: int := Config.DefaultCacheExpiry)
      modifies this
      ensures store == Put(old(store), key, data, expiry, now)
    {
      store := store[key := Entry(data, now, expiry)];
    }

    /** `Cache.get`: the data under `key` if present and not expired at `now`; an expired entry is deleted. */
    method Get(key: string, now: int) returns (r: Option<T>)
      modifies this
      ensures r == Lookup(old(store), key, now)
      ensures store == AfterLookup(old(store), key, now)
    {
      if key !in store {
        return None;
      }
      var item := store[key];
      if now - item.timestamp > item.expiry {
        store := store - {key};
        return None;
      }
      return Some(item.data);
    }

    /** `Cache.remove`: delete the entry for `key` and nothing else. */
    method Remove(key: string)
      modifies this
      ensures store == old(store) - {key}
    {
      store := store - {key};
    }

    /** `Cache.clear`: empty the storage. */
    method Clear()
      modifies this
      ensures store == map[]
    {
      store := map[];
    }
  }

  /** Reading a key straight after storing it with a non-negative lifetime returns the stored data. */
  lemma SetThenGet<T>(store: Store<T>, key: string, data: T, expiry: int, now: int)
    requires expiry >= 0
    ensures Lookup(Put(store, key, data, expiry, now), key, now) == Some(data)
    ensures AfterLookup(Put(store, key, data, expiry, now), key, now) == Put(store, key, data, expiry, now)
  {
  }

  /**
   * A stored entry is served exactly while its age is at most its lifetime:
   * at age `expiry` it is still returned, one millisecond later it is not.
   */
  lemma ServedUntilExpiry<T>(store: Store<T>, key: string, data: T, expiry: int, stored: int, later: int)
    ensures Lookup(Put(store, key, data, expiry, stored), key, later) == Some(data) <==> later - stored <= expiry
  {
  }

  /** Once a read finds an entry expired, the entry is purged: every later read of the key returns nothing. */
  lemma ExpiredReadPurges<T>(store: Store<T>, key: string, now: int, later: int)
    requires key in store && !store[key].LiveAt(now)
    ensures Lookup(store, key, now) == None
    ensures key !in AfterLookup(store, key, now)
    ensures Lookup(AfterLookup(store, key, now), key, later) == None
  {
  }

  /** A read never changes what other keys return, at any time. */
  lemma LookupLeavesOthers<T>(store: Store<T>, key: string, other: string, now: int, later: int)
    requires other != key
    ensures Lookup(AfterLookup(store, key, now), other, later) == Lookup(store, other, later)
  {
  }

  /** Storing under one key does not change what other keys return. */
  lemma PutLeavesOthers<T>(store: Store<T>, key: string, other: string, data: T, expiry: int, now: int, later: int)
    requires other != key
    ensures Lookup(Put(store, key, data, expiry, now), other, later) == Lookup(store, other, later)
  {
  }

  /** Reading twice at the same time gives the same answer and leaves the store as the first read left it. */
  lemma LookupIdempotent<T>(store: Store<T>, key: string, now: int)
    ensures Lookup(AfterLookup(store, key, now), key, now) == Lookup(store, key, now)
    ensures AfterLookup(AfterLookup(store, key, now), key, now) == AfterLookup(store, key, now)
  {
  }

  /** A client's view: set, then get at the same time, on a live object. */
  method SetThenGetClient<T>(cache: Cache<T>, key: string, other: string, data: T, now: int)
    returns (got: Option<T>, untouched: Option<T>)
    requires other != key
    modifies cache
    ensures got == Some(data)
    ensures untouched == Lookup(old(cache.store), other, now)
    ensures key in cache.store && cache.store[key] == Entry(data, now, Config.DefaultCacheExpiry)
  {
    cache.Set(key, data, now);
    got := cache.Get(key, now);
    untouched := cache.Get(other, now);
  }
}

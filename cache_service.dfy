/** The process-wide key/value cache with lazy per-entry expiry
    (backend/api/services/cache_service.py). The clock is the explicit
    parameter `now`, in seconds. */
module CacheService {
  import opened Wrappers

  /** `SimpleCache()` is built with a one-hour default time-to-live. */
  const DefaultTtl: real := 3600.0

  datatype Entry<V> = Entry(value: V, expiry: real)

  /** What `get(key)` returns at time `now`: the stored value while the
      entry is live; the boundary `now == expiry` already counts as expired. */
  function Lookup<V>(data: map<string, Entry<V>>, key: string, now: real): (r: Option<V>)
    ensures r.Some? <==> key in data && now < data[key].expiry
    ensures r.Some? ==> r.value == data[key].value
  {
    if key in data && now < data[key].expiry then Some(data[key].value) else None
  }

  /** The store after `get(key)` at time `now`: an expired entry for `key`
      is deleted, every other entry is kept. */
  function AfterGet<V>(data: map<string, Entry<V>>, key: string, now: real): (d: map<string, Entry<V>>)
    ensures d.Keys == if key in data && data[key].expiry <= now then data.Keys - {key} else data.Keys
    ensures forall k :: k in d ==> d[k] == data[k]
  {
    if key in data && data[key].expiry <= now then data - {key} else data
  }

  /** `ttl or default_ttl`: a missing or zero time-to-live means the default. */
  function EffectiveTtl(ttl: Option<real>, defaultTtl: real): (t: real)
    ensures ttl.Some? && ttl.value != 0.0 ==> t == ttl.value
    ensures ttl.None? || ttl.value == 0.0 ==> t == defaultTtl
  {
    if ttl.None? || ttl.value == 0.0 then defaultTtl else ttl.value
  }

  class SimpleCache<V> {
    var data: map<string, Entry<V>>
    const defaultTtl: real

    constructor (defaultTtl: real)
      ensures data == map[] && this.defaultTtl == defaultTtl
    {
      data := map[];
      this.defaultTtl := defaultTtl;
    }

    method Get(key: string, now: real) returns (r: Option<V>)
      modifies this
      ensures r == Lookup(old(data), key, now)
      ensures data == AfterGet(old(data), key, now)
    {
      if key in data {
        var entry := data[key];
        if now < entry.expiry {
          return Some(entry.value);
        } else {
          data := data - {key};
        }
      }
      return None;
    }

    method Set(key: string, value: V, ttl: Option<real>, now: real)
      modifies this
      ensures data == old(data)[key := Entry(value, now + EffectiveTtl(ttl, defaultTtl))]
    {
      data := data[key := Entry(value, now + EffectiveTtl(ttl, defaultTtl))];
    }

    method Clear()
      modifies this
      ensures data == map[]
    {
      data := map[];
    }
  }

  /** A value stored with `set` is returned by `get` until its expiry and
      not afterwards. */
  lemma LookupAfterSet<V>(data: map<string, Entry<V>>, key: string, value: V, ttl: Option<real>,
                          defaultTtl: real, now: real, later: real)
    ensures var d := data[key := Entry(value, now + EffectiveTtl(ttl, defaultTtl))];
            Lookup(d, key, later) == if later < now + EffectiveTtl(ttl, defaultTtl) then Some(value) else None
  {
  }

  /** `set` on one key changes what `get` returns for no other key. */
  lemma LookupOtherAfterSet<V>(data: map<string, Entry<V>>, key: string, other: string, value: V,
                               expiry: real, later: real)
    requires other != key
    ensures Lookup(data[key := Entry(value, expiry)], other, later) == Lookup(data, other, later)
  {
  }

  /** Deleting an expired entry is unobservable: no `get` at the same or a
      later time answers differently. */
  lemma LazyExpiryUnobservable<V>(data: map<string, Entry<V>>, key: string, now: real, other: string, later: real)
    requires now <= later
    ensures Lookup(AfterGet(data, key, now), other, later) == Lookup(data, other, later)
  {
  }

  /** After `clear()`, `get` returns nothing for every key. */
  lemma LookupAfterClear<V>(key: string, now: real)
    ensures Lookup<V>(map[], key, now) == None
  {
  }
}

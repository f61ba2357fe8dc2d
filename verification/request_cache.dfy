/** The HTTP fallback's response cache: entries carry an absolute expiry
    time, a lookup after the expiry drops the entry, and a periodic cleanup
    drops every expired entry. The clock is a parameter `now` (ms). */
module RequestCache {
  import opened Wrappers

  const DefaultTimeout: int := 5000

  datatype Item<D> = Item(data: D, expiry: int)

  type Cache<D> = map<string, Item<D>>

  /** `timeout || defaultTimeout`: a missing or zero timeout means 5000 ms. */
  function EffectiveTimeout(timeout: Option<int>): (t: int)
    ensures timeout.Some? && timeout.value != 0 ==> t == timeout.value
    ensures timeout.None? || timeout.value == 0 ==> t == DefaultTimeout
  {
    match timeout
    case Some(v) => if v != 0 then v else DefaultTimeout
    case None => DefaultTimeout
  }

  /** `set(key, data, timeout)` at time `now`. */
  function Set<D>(c: Cache<D>, key: string, data: D, timeout: Option<int>, now: int): (r: Cache<D>)
    ensures key in r && r[key].data == data
    ensures r[key].expiry - now == EffectiveTimeout(timeout)
    ensures r.Keys == c.Keys + {key}
    ensures forall k | k in c && k != key :: r[k] == c[k]
  {
    c[key := Item(data, now + EffectiveTimeout(timeout))]
  }

  /** What `get` leaves behind and returns. */
  datatype Lookup<D> = Lookup(cache: Cache<D>, data: Option<D>)

  /** `get(key)` at time `now`: the stored data while `now` has not passed
      the expiry; afterwards nothing, and the entry is deleted. */
  function Get<D>(c: Cache<D>, key: string, now: int): (r: Lookup<D>)
    ensures r.data.Some? <==> key in c && now <= c[key].expiry
    ensures r.data.Some? ==> r.data.value == c[key].data && r.cache == c
    ensures r.data.None? ==> r.cache == c - {key}
  {
    if key !in c then Lookup(c, None)
    else if now > c[key].expiry then Lookup(c - {key}, None)
    else Lookup(c, Some(c[key].data))
  }

  /** `clear()`. */
  function Clear<D>(c: Cache<D>): (r: Cache<D>)
    ensures r.Keys == {}
  {
    map[]
  }

  /** `cleanup()` at time `now`: keeps exactly the entries that have not
      expired, unchanged. */
  function Cleanup<D>(c: Cache<D>, now: int): (r: Cache<D>)
    ensures forall k :: k in r <==> k in c && now <= c[k].expiry
    ensures forall k | k in r :: r[k] == c[k]
  {
    map k | k in c && now <= c[k].expiry :: c[k]
  }

  /** A stored value is returned until its expiry and not after. */
  lemma GetAfterSet<D>(c: Cache<D>, key: string, data: D, timeout: Option<int>, now: int, later: int)
    ensures Get(Set(c, key, data, timeout, now), key, later).data ==
            if later <= now + EffectiveTimeout(timeout) then Some(data) else None
  {
  }

  /** Storing under one key does not change what another key returns. */
  lemma SetLeavesOtherKeys<D>(c: Cache<D>, key: string, data: D, timeout: Option<int>, now: int, other: string, later: int)
    requires other != key
    ensures Get(Set(c, key, data, timeout, now), other, later).data == Get(c, other, later).data
  {
  }

  /** Cleaning up never changes what a later lookup returns: it removes only
      entries that every later lookup would treat as absent. */
  lemma CleanupIsUnobservable<D>(c: Cache<D>, now: int, key: string, later: int)
    requires now <= later
    ensures Get(Cleanup(c, now), key, later).data == Get(c, key, later).data
  {
  }

  /** A lookup that finds nothing has the same effect as a cleanup would
      have on that key. */
  lemma ExpiredLookupMatchesCleanup<D>(c: Cache<D>, key: string, now: int)
    requires Get(c, key, now).data.None?
    ensures key !in Get(c, key, now).cache && key !in Cleanup(c, now)
  {
  }
}

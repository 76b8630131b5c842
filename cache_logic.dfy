/**
  The decisions and transitions of the per-owner settings cache, stated on
  plain values: the backend's key/value store, the log of calls made to the
  backend and the instance's local invalidation time. The class that holds
  this state and is updated in place is Runtime.SettingsCache.
 */
module CacheLogic {
  import opened Values
  import Collection

  /** What the cache keeps under its two keys: the materialised collection
      (null when no collection was attached) and the time of the last write. */
  datatype CacheVal = Time(at: nat) | Data(snapshot: Option<Collection.Items>)

  /** A call made to the cache backend; the time-to-live is recorded, its
      expiry is not modelled. */
  datatype BackendCall = Forget(key: string) | SetMultiple(entries: map<string, CacheVal>, ttl: int)

  datatype CacheState = CacheState(
    store: map<string, CacheVal>,
    calls: seq<BackendCall>,
    invalidatedAt: Option<nat>)

  /** The freshness key derived from the data key. */
  function TimeKey(key: string): (tk: string)
    ensures tk != key && |tk| == |key| + 5
  {
    key + ":time"
  }

  /** Only the cache writes its two keys, so each holds its own kind of value. */
  predicate WellKept(store: map<string, CacheVal>, key: string) {
    && (key in store ==> store[key].Data?)
    && (TimeKey(key) in store ==> store[TimeKey(key)].Time?)
  }

  /** `shouldRegenerate()`: no stored freshness time, or a local invalidation
      strictly after it. */
  function ShouldRegenerate(s: CacheState, key: string): (stale: bool)
    requires WellKept(s.store, key)
  {
    if TimeKey(key) !in s.store then true
    else
      match s.invalidatedAt
      case None => false
      case Some(at) => at > s.store[TimeKey(key)].at
  }

  /** `retrieve()`: what is stored under the data key; a miss, or a stored
      null, is `None`. */
  function Retrieve(s: CacheState, key: string): (r: Option<Collection.Items>)
    requires WellKept(s.store, key)
  {
    if key in s.store then s.store[key].snapshot else None
  }

  /** The two entries one regeneration writes together. */
  function Written(key: string, snapshot: Option<Collection.Items>, now: nat): (w: map<string, CacheVal>) {
    map[key := Data(snapshot), TimeKey(key) := Time(now)]
  }

  /** `regenerate(force)`: one multi-set of data and time, or nothing. */
  function Regenerate(s: CacheState, key: string, ttl: int, snapshot: Option<Collection.Items>,
                      now: nat, force: bool): (r: CacheState)
    requires WellKept(s.store, key)
    ensures WellKept(r.store, key)
  {
    if force || ShouldRegenerate(s, key) then
      var w := Written(key, snapshot, now);
      s.(store := s.store + w, calls := s.calls + [SetMultiple(w, ttl)])
    else s
  }

  /** `invalidate()`: forget both keys and record the invalidation time. */
  function Invalidate(s: CacheState, key: string, now: nat): (r: CacheState)
    ensures WellKept(r.store, key)
  {
    CacheState(s.store - {key, TimeKey(key)},
               s.calls + [Forget(key), Forget(TimeKey(key))],
               Some(now))
  }

  /** `invalidateIfNotInvalidated()`: afterwards an invalidation is always
      recorded, and a time recorded before is never overwritten. */
  function InvalidateIfNotInvalidated(s: CacheState, key: string, now: nat): (r: CacheState)
    ensures r.invalidatedAt.Some?
    ensures s.invalidatedAt.Some? ==> r.invalidatedAt == s.invalidatedAt
  {
    if s.invalidatedAt.None? then Invalidate(s, key, now) else s
  }

  /** With no stored freshness time the cache is always stale; otherwise it
      is stale exactly when a local invalidation is strictly later. */
  lemma StalenessRule(s: CacheState, key: string)
    requires WellKept(s.store, key)
    ensures TimeKey(key) !in s.store ==> ShouldRegenerate(s, key)
    ensures TimeKey(key) in s.store ==>
      (ShouldRegenerate(s, key) <==>
         s.invalidatedAt.Some? && s.invalidatedAt.value > s.store[TimeKey(key)].at)
  {
  }

  /** A regeneration writes the data and the time together in one call and
      touches no other key, or (unforced and fresh) does nothing. */
  lemma RegenerateWritesBothOrNothing(s: CacheState, key: string, ttl: int,
                                      snapshot: Option<Collection.Items>, now: nat, force: bool)
    requires WellKept(s.store, key)
    ensures var r := Regenerate(s, key, ttl, snapshot, now, force);
      if force || ShouldRegenerate(s, key) then
        && Retrieve(r, key) == snapshot
        && r.store[TimeKey(key)] == Time(now)
        && r.calls == s.calls + [SetMultiple(Written(key, snapshot, now), ttl)]
        && r.invalidatedAt == s.invalidatedAt
        && (forall k :: k != key && k != TimeKey(key) ==>
              (k in r.store <==> k in s.store) && (k in s.store ==> r.store[k] == s.store[k]))
      else r == s
  {
  }

  /** An invalidation forgets exactly the two keys (whether or not they were
      stored), leaves the cache stale and records when it happened. */
  lemma InvalidateForgetsBoth(s: CacheState, key: string, now: nat)
    ensures var r := Invalidate(s, key, now);
      && r.store.Keys == s.store.Keys - {key, TimeKey(key)}
      && (forall k :: k in r.store ==> r.store[k] == s.store[k])
      && r.calls == s.calls + [Forget(key), Forget(TimeKey(key))]
      && r.invalidatedAt == Some(now)
      && Retrieve(r, key) == None
      && ShouldRegenerate(r, key)
    ensures Invalidate(Invalidate(s, key, now), key, now).store == Invalidate(s, key, now).store
  {
  }

  /** Two consecutive guarded invalidations cost one pair of forgets; once
      an invalidation is recorded the guard does nothing at all. */
  lemma InvalidateIfNotInvalidatedOnce(s: CacheState, key: string, t1: nat, t2: nat)
    ensures s.invalidatedAt.Some? ==> InvalidateIfNotInvalidated(s, key, t1) == s
    ensures s.invalidatedAt.None? ==>
      && InvalidateIfNotInvalidated(InvalidateIfNotInvalidated(s, key, t1), key, t2) == Invalidate(s, key, t1)
      && Invalidate(s, key, t1).calls == s.calls + [Forget(key), Forget(TimeKey(key))]
  {
  }

  /** Right after a write at time `now` the cache is stale exactly when the
      local invalidation is later than `now`. */
  lemma FreshAfterWrite(s: CacheState, key: string, ttl: int,
                        snapshot: Option<Collection.Items>, now: nat)
    requires WellKept(s.store, key)
    ensures var r := Regenerate(s, key, ttl, snapshot, now, true);
      ShouldRegenerate(r, key) <==> s.invalidatedAt.Some? && s.invalidatedAt.value > now
  {
  }

  /** After an invalidation an unforced regeneration always rewrites the
      data; if the clock has not gone backwards the cache is then fresh, and
      if it has, the cache stays stale. */
  lemma RegenerateAfterInvalidate(s: CacheState, key: string, ttl: int,
                                  snapshot: Option<Collection.Items>, t1: nat, t2: nat)
    ensures var i := Invalidate(s, key, t1);
      var r := Regenerate(i, key, ttl, snapshot, t2, false);
      && ShouldRegenerate(i, key)
      && r.calls == i.calls + [SetMultiple(Written(key, snapshot, t2), ttl)]
      && Retrieve(r, key) == snapshot
      && (ShouldRegenerate(r, key) <==> t1 > t2)
  {
    var i := Invalidate(s, key, t1);
    InvalidateForgetsBoth(s, key, t1);
    FreshAfterWrite(i, key, ttl, snapshot, t2);
  }
}

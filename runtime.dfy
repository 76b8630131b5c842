/**
  The two runtime objects of the settings engine: the per-owner settings
  collection, which forwards calls to its settings and to its linked cache,
  and the per-owner settings cache, which holds the backend state and the
  local invalidation time. Each refers to the other, so both live here.
  The clock `now()` is a parameter of every operation that reads it.
 */
module Runtime {
  import opened Values
  import opened Collection
  import CacheLogic

  /** What the cache writes for an attached collection (null when none). */
  function Snapshot(c: SettingsCollection?): Option<Items>
    reads c
  {
    if c == null then None else Some(c.items)
  }

  class SettingsCollection {
    var items: Items
    var cache: SettingsCache?
    var regeneratesOnExit: bool
    /** Every call forwarded to a setting of this collection, in order; a
        record for the contracts only. */
    ghost var received: seq<Call>

    ghost predicate Valid()
      reads this
    {
      items.Valid()
    }

    constructor (items: Items)
      requires items.Valid()
      ensures Valid()
      ensures this.items == items && cache == null && !regeneratesOnExit && received == []
    {
      this.items := items;
      cache := null;
      regeneratesOnExit := false;
      received := [];
    }

    /** `set(name, value, force)`: the entries are forwarded in order and the
        first absent name raises, leaving earlier assignments in place. */
    method Set(name: NameArg, value: Mixed := Null, force: bool := true) returns (r: Outcome)
      requires Valid()
      modifies this
      ensures Valid()
      ensures var run := BatchSet(old(items.byName), Entries(name, value), force);
        && items == Items(old(items.names), run.settings)
        && received == old(received) + run.calls
        && r == run.outcome
      ensures cache == old(cache) && regeneratesOnExit == old(regeneratesOnExit)
    {
      var es := Entries(name, value);
      ghost var start, done := items.byName, [];
      var i := 0;
      while i < |es|
        invariant 0 <= i <= |es|
        invariant items.names == old(items.names) && items.byName.Keys == start.Keys
        invariant cache == old(cache) && regeneratesOnExit == old(regeneratesOnExit)
        invariant received == old(received) + done
        invariant BatchSet(start, es, force) == Then(done, BatchSet(items.byName, es[i..], force))
      {
        var k, v := es[i].0, es[i].1;
        BatchSetStep(items.byName, es, i, force);
        if k !in items.byName {
          return Fail(UnknownSetting(k));
        }
        var op := SetValue(v, force);
        items := items.(byName := items.byName[k := Forward(items.byName[k], op)]);
        received := received + [Call(k, op)];
        done := done + [Call(k, op)];
        i := i + 1;
      }
      r := Pass;
    }

    /** `setIfEnabled(name, value)`: `set` without force. */
    method SetIfEnabled(name: NameArg, value: Mixed := Null) returns (r: Outcome)
      requires Valid()
      modifies this
      ensures Valid()
      ensures var run := BatchSet(old(items.byName), Entries(name, value), false);
        && items == Items(old(items.names), run.settings)
        && received == old(received) + run.calls
        && r == run.outcome
      ensures cache == old(cache) && regeneratesOnExit == old(regeneratesOnExit)
    {
      r := Set(name, value, false);
    }

    /** `__set(name, value)`: a forced single assignment. */
    method PropertySet(name: string, value: Mixed) returns (r: Outcome)
      requires Valid()
      modifies this
      ensures Valid()
      ensures var run := BatchSet(old(items.byName), [(name, value)], true);
        && items == Items(old(items.names), run.settings)
        && received == old(received) + run.calls
        && r == run.outcome
      ensures cache == old(cache) && regeneratesOnExit == old(regeneratesOnExit)
    {
      r := Set(Name(name), value);
    }

    /** The common body of the single-setting mutators. */
    method ForwardToOne(name: string, op: SettingOp, member: string) returns (r: Outcome)
      requires Valid()
      modifies this
      ensures Valid()
      ensures var run := ForwardTo(old(items.byName), name, op, member);
        && items == Items(old(items.names), run.settings)
        && received == old(received) + run.calls
        && r == run.outcome
      ensures cache == old(cache) && regeneratesOnExit == old(regeneratesOnExit)
    {
      if name in items.byName {
        items := items.(byName := items.byName[name := Forward(items.byName[name], op)]);
        received := received + [Call(name, op)];
        r := Pass;
      } else {
        r := Fail(NullReceiver(member));
      }
    }

    /** `setDefault(name)`. */
    method SetDefault(name: string) returns (r: Outcome)
      requires Valid()
      modifies this
      ensures Valid()
      ensures var run := ForwardTo(old(items.byName), name, SetToDefault, "setDefault()");
        && items == Items(old(items.names), run.settings)
        && received == old(received) + run.calls
        && r == run.outcome
      ensures cache == old(cache) && regeneratesOnExit == old(regeneratesOnExit)
    {
      r := ForwardToOne(name, SetToDefault, "setDefault()");
    }

    /** `enable(name)`. */
    method Enable(name: string) returns (r: Outcome)
      requires Valid()
      modifies this
      ensures Valid()
      ensures var run := ForwardTo(old(items.byName), name, SettingOp.Enable, "enable()");
        && items == Items(old(items.names), run.settings)
        && received == old(received) + run.calls
        && r == run.outcome
      ensures cache == old(cache) && regeneratesOnExit == old(regeneratesOnExit)
    {
      r := ForwardToOne(name, SettingOp.Enable, "enable()");
    }

    /** `disable(name)`. */
    method Disable(name: string) returns (r: Outcome)
      requires Valid()
      modifies this
      ensures Valid()
      ensures var run := ForwardTo(old(items.byName), name, SettingOp.Disable, "disable()");
        && items == Items(old(items.names), run.settings)
        && received == old(received) + run.calls
        && r == run.outcome
      ensures cache == old(cache) && regeneratesOnExit == old(regeneratesOnExit)
    {
      r := ForwardToOne(name, SettingOp.Disable, "disable()");
    }

    /** `invalidate()`: delegated to the linked cache, if any. */
    method Invalidate(now: nat)
      modifies cache
      ensures cache != null ==> cache.Valid() && cache.settings == old(cache.settings)
      ensures cache != null ==>
        cache.State() == CacheLogic.Invalidate(old(cache.State()), cache.key, now)
    {
      if cache != null {
        cache.Invalidate(now);
      }
    }

    /** `invalidateIfNotInvalidated()`: delegated to the linked cache, if any. */
    method InvalidateIfNotInvalidated(now: nat)
      requires cache != null ==> cache.Valid()
      modifies cache
      ensures cache != null ==> cache.Valid() && cache.settings == old(cache.settings)
      ensures cache != null ==>
        cache.State() == CacheLogic.InvalidateIfNotInvalidated(old(cache.State()), cache.key, now)
    {
      if cache != null {
        cache.InvalidateIfNotInvalidated(now);
      }
    }

    /** `regenerate(force)`: delegated to the linked cache, which writes the
        collection attached to it. */
    method Regenerate(now: nat, force: bool := false)
      requires cache != null ==> cache.Valid()
      modifies cache
      ensures cache != null ==> cache.Valid() && cache.settings == old(cache.settings)
      ensures cache != null ==>
        cache.State() == CacheLogic.Regenerate(old(cache.State()), cache.key, cache.ttl,
                                               Snapshot(cache.settings), now, force)
    {
      if cache != null {
        cache.Regenerate(now, force);
      }
    }

    /** The release of the collection (its destructor, made an explicit
        call): when marked, attach itself to the cache and regenerate. */
    method Close(now: nat)
      requires cache != null ==> cache.Valid()
      modifies cache
      ensures cache != null ==> cache.Valid()
      ensures cache != null && regeneratesOnExit ==>
        && cache.settings == this
        && cache.State() == CacheLogic.Regenerate(old(cache.State()), cache.key, cache.ttl,
                                                  Some(items), now, false)
      ensures cache != null && !regeneratesOnExit ==>
        cache.settings == old(cache.settings) && cache.State() == old(cache.State())
    {
      if regeneratesOnExit && cache != null {
        var c := cache.SetSettings(this);
        c.Regenerate(now);
      }
    }
  }

  class SettingsCache {
    /** The backend store and the log of calls made to it. */
    var store: map<string, CacheLogic.CacheVal>
    var calls: seq<CacheLogic.BackendCall>
    var invalidatedAt: Option<nat>
    var settings: SettingsCollection?
    const key: string
    const ttl: int
    const automaticRegeneration: bool

    function State(): CacheLogic.CacheState
      reads this
    {
      CacheLogic.CacheState(store, calls, invalidatedAt)
    }

    ghost predicate Valid()
      reads this
    {
      CacheLogic.WellKept(store, key)
    }

    constructor (backend: map<string, CacheLogic.CacheVal>, key: string, ttl: int,
                 automaticRegeneration: bool := false)
      requires CacheLogic.WellKept(backend, key)
      ensures Valid()
      ensures State() == CacheLogic.CacheState(backend, [], None) && settings == null
      ensures this.key == key && this.ttl == ttl && this.automaticRegeneration == automaticRegeneration
    {
      store := backend;
      calls := [];
      invalidatedAt := None;
      settings := null;
      this.key := key;
      this.ttl := ttl;
      this.automaticRegeneration := automaticRegeneration;
    }

    /** `setSettings(settings)`: attach the collection to persist. */
    method SetSettings(s: SettingsCollection) returns (self: SettingsCache)
      modifies this
      ensures self == this && settings == s && State() == old(State())
    {
      settings := s;
      self := this;
    }

    /** `retrieve()`: a miss is null; otherwise what the data key holds. */
    function Retrieve(): (r: Option<Items>)
      reads this
      requires Valid()
      ensures key !in store ==> r.None?
      ensures key in store ==> store[key] == CacheLogic.Data(r)
    {
      CacheLogic.Retrieve(State(), key)
    }

    /** `shouldRegenerate()`: stale without a stored stamp, or when the
        local invalidation is strictly later than it. */
    function ShouldRegenerate(): (stale: bool)
      reads this
      requires Valid()
      ensures CacheLogic.TimeKey(key) !in store ==> stale
      ensures CacheLogic.TimeKey(key) in store ==>
        (stale <==> invalidatedAt.Some? && invalidatedAt.value > store[CacheLogic.TimeKey(key)].at)
    {
      CacheLogic.ShouldRegenerate(State(), key)
    }

    /** The backend's `setMultiple(entries, ttl)`. */
    method BackendSetMultiple(entries: map<string, CacheLogic.CacheVal>, ttl: int)
      modifies this
      ensures store == old(store) + entries
      ensures calls == old(calls) + [CacheLogic.SetMultiple(entries, ttl)]
      ensures invalidatedAt == old(invalidatedAt) && settings == old(settings)
    {
      store := store + entries;
      calls := calls + [CacheLogic.SetMultiple(entries, ttl)];
    }

    /** The backend's `forget(key)`; forgetting an absent key is harmless. */
    method BackendForget(k: string)
      modifies this
      ensures store == old(store) - {k}
      ensures calls == old(calls) + [CacheLogic.Forget(k)]
      ensures invalidatedAt == old(invalidatedAt) && settings == old(settings)
    {
      store := store - {k};
      calls := calls + [CacheLogic.Forget(k)];
    }

    /** `regenerate(force)`. */
    method Regenerate(now: nat, force: bool := false)
      requires Valid()
      modifies this
      ensures Valid() && settings == old(settings)
      ensures State() == CacheLogic.Regenerate(old(State()), key, ttl, Snapshot(settings), now, force)
    {
      if force || ShouldRegenerate() {
        BackendSetMultiple(CacheLogic.Written(key, Snapshot(settings), now), ttl);
      }
    }

    /** `invalidate()`. */
    method Invalidate(now: nat)
      modifies this
      ensures Valid() && settings == old(settings)
      ensures State() == CacheLogic.Invalidate(old(State()), key, now)
    {
      BackendForget(key);
      BackendForget(CacheLogic.TimeKey(key));
      assert store == old(store) - {key, CacheLogic.TimeKey(key)};
      invalidatedAt := Some(now);
    }

    /** `invalidateIfNotInvalidated()`. */
    method InvalidateIfNotInvalidated(now: nat)
      requires Valid()
      modifies this
      ensures Valid() && settings == old(settings)
      ensures State() == CacheLogic.InvalidateIfNotInvalidated(old(State()), key, now)
    {
      if invalidatedAt.None? {
        Invalidate(now);
      }
    }

    /** `regenerateOnExit()`: copy the automatic-regeneration flag onto the
        attached collection; with none attached the write lands on null. */
    method RegenerateOnExit() returns (r: Outcome)
      modifies settings
      ensures settings == null ==> r == Fail(NullReceiver("regeneratesOnExit"))
      ensures settings != null ==>
        && r == Pass
        && settings.regeneratesOnExit == automaticRegeneration
        && settings.items == old(settings.items)
        && settings.cache == old(settings.cache)
        && settings.received == old(settings.received)
    {
      if settings == null {
        r := Fail(NullReceiver("regeneratesOnExit"));
      } else {
        settings.regeneratesOnExit := automaticRegeneration;
        r := Pass;
      }
    }

    /** `__serialize()`: no state is carried. */
    function SerializedData(): (r: map<string, Mixed>)
    {
      map[]
    }

    /** `serialize()`: no string form is produced. */
    function SerializedString(): (r: Option<string>)
    {
      None
    }

    /** `__unserialize(data)` and `unserialize(data)`: nothing is read. */
    method Unserialize(data: map<string, Mixed>)
      ensures State() == old(State()) && settings == old(settings)
    {
    }
  }

  /** Any two caches serialise to the same thing: the backend handle, key
      and invalidation time never leave the object. */
  lemma SerializationCarriesNoState(a: SettingsCache, b: SettingsCache)
    ensures a.SerializedData() == b.SerializedData()
    ensures a.SerializedString() == b.SerializedString()
  {
  }

  /** A batch naming "theme" and then the absent "notify": "theme" is
      assigned, then the batch raises for "notify". */
  method PartialBatchScenario() returns (r: Outcome, theme: Mixed, ghost calls: seq<Call>)
    ensures r == Fail(UnknownSetting("notify"))
    ensures theme == Str("dark")
    ensures calls == [Call("theme", SetValue(Str("dark"), true))]
  {
    var light := Setting(Str("light"), true, Str("light"), "default");
    var c := new SettingsCollection(Items(["theme"], map["theme" := light]));
    var batch := [("theme", Str("dark")), ("notify", Bool(true))];
    assert batch[1..] == [("notify", Bool(true))];
    r := c.Set(Batch(batch));
    theme := c.items.Value("theme");
    calls := c.received;
  }

  /** One owner's cache over its lifetime: written once, fresh; stale after
      an invalidation; written again when the marked collection is released,
      and fresh again. */
  method CacheLifecycleScenario() returns (upToDate: bool, stale: bool, upToDateAgain: bool, stored: Option<Items>)
    ensures upToDate && stale && upToDateAgain
    ensures stored.Some? && stored.value.Value("theme") == Str("dark")
  {
    var dark := Setting(Str("dark"), true, Str("light"), "default");
    var c := new SettingsCollection(Items(["theme"], map["theme" := dark]));
    var cache := new SettingsCache(map[], "laraconfig|user|1", 10800, true);
    var self := cache.SetSettings(c);
    c.cache := cache;
    c.Regenerate(1);
    upToDate := !cache.ShouldRegenerate();
    c.Invalidate(2);
    stale := cache.ShouldRegenerate();
    var marked := cache.RegenerateOnExit();
    c.Close(3);
    upToDateAgain := !cache.ShouldRegenerate();
    stored := cache.Retrieve();
  }
}

/**
  The pure part of a per-owner settings collection: the keyed container of
  settings and every read or projection over it, plus the specification of a
  batch assignment. The collection object that owns such a value and mutates
  it lives in module Runtime.
 */
module Collection {
  import opened Values

  predicate Distinct(xs: seq<string>) {
    forall i, j :: 0 <= i < j < |xs| ==> xs[i] != xs[j]
  }

  /** The elements of `xs` that satisfy `p`, in their original order. */
  function Filter(xs: seq<string>, p: string -> bool): (r: seq<string>)
    ensures forall x :: x in r <==> x in xs && p(x)
    ensures Distinct(xs) ==> Distinct(r)
  {
    if xs == [] then []
    else
      var rest := Filter(xs[1..], p);
      assert Distinct(xs) ==> Distinct(xs[1..]) && xs[0] !in xs[1..];
      if p(xs[0]) then [xs[0]] + rest else rest
  }

  /** What a setting does with a forwarded call (a minimal stand-in: an
      unforced assignment to a disabled setting is ignored). */
  function Forward(s: Setting, op: SettingOp): (t: Setting) {
    match op
    case SetValue(v, force) => if force || s.isEnabled then s.(value := v) else s
    case SetToDefault => s.(value := s.default)
    case Enable => s.(isEnabled := true)
    case Disable => s.(isEnabled := false)
  }

  /** The result of `get`: the matched setting, or the caller's fallback. */
  datatype Lookup = Found(setting: Setting) | Fallback(value: Mixed)

  /** The result of a dynamic property read: a setting's value, or the
      collection's higher-order proxy for that name. */
  datatype PropertyRead = SettingValue(value: Mixed) | DynamicProxy(key: string)

  /** The result of `only`/`except`: a new collection, or (when that would be
      empty) the inherited implementation called with the same keys. */
  datatype Projection = Projected(items: Items) | ParentFallback(keys: seq<string>)

  /** The settings of one owner, keyed by name, in collection order. */
  datatype Items = Items(names: seq<string>, byName: map<string, Setting>) {

    ghost predicate Valid() {
      Distinct(names) && forall n :: n in byName <==> n in names
    }

    /** The sub-collection of the settings whose names satisfy `p`. */
    function Restrict(p: string -> bool): (r: Items)
      requires Valid()
      ensures r.Valid()
      ensures forall n :: n in r.byName <==> n in byName && p(n)
      ensures forall n :: n in r.byName ==> r.byName[n] == byName[n]
    {
      Items(Filter(names, p), map n | n in byName && p(n) :: byName[n])
    }

    /** `get(key, default)`. */
    function Get(key: string, default: Mixed := Null): (r: Lookup)
      ensures r.Found? <==> key in byName
      ensures r.Found? ==> r.setting == byName[key]
      ensures r.Fallback? ==> r.value == default
    {
      if key in byName then Found(byName[key]) else Fallback(default)
    }

    /** `value(key, default)`: the matched setting's value, otherwise the
        fallback verbatim. */
    function Value(key: string, default: Mixed := Null): (r: Mixed)
      ensures key in byName ==> r == byName[key].value
      ensures key !in byName ==> r == default
    {
      match Get(key, default)
      case Found(s) => s.value
      case Fallback(d) => d
    }

    /** `is(name, value)`: strict equality of the setting's value with `value`. */
    function Is(key: string, value: Mixed): (r: bool)
      ensures key in byName ==> (r <==> byName[key].value == value)
      ensures key !in byName ==> (r <==> value == Null)
    {
      Value(key) == value
    }

    /** `isNull(name)`: an absent setting counts as null. */
    function IsNull(key: string): (r: bool)
      ensures r <==> key !in byName || byName[key].value == Null
    {
      Value(key) == Null
    }

    /** `isEnabled(name)`: the setting's flag is exactly `true`. Reading the
        flag of an absent setting yields null, which is not `true`. */
    function IsEnabled(key: string): (r: bool)
      ensures r <==> key in byName && byName[key].isEnabled
    {
      match Get(key)
      case Found(s) => s.isEnabled == true
      case Fallback(_) => false
    }

    /** `isDisabled(name)`: the negation of `isEnabled`. */
    function IsDisabled(key: string): (r: bool)
      ensures r <==> key !in byName || !byName[key].isEnabled
    {
      !IsEnabled(key)
    }

    /** `__isset(name)`: whether the collection has a setting of that name. */
    function Has(key: string): (r: bool)
      requires Valid()
      ensures r <==> key in names
    {
      key in byName
    }

    /** `__get(name)`: the setting's value, or the inherited proxy. */
    function PropertyGet(key: string): (r: PropertyRead)
      ensures key in byName ==> r == SettingValue(byName[key].value)
      ensures key !in byName ==> r == DynamicProxy(key)
    {
      match Get(key)
      case Found(s) => SettingValue(s.value)
      case Fallback(_) => DynamicProxy(key)
    }

    /** `only(keys)`: `None` stands for a null argument; a bare key or any
        iterable of keys is given as a list. */
    function Only(keys: Option<seq<string>>): (r: Projection)
      requires Valid()
      ensures keys.None? ==> r == Projected(this)
      ensures keys.Some? ==> (r.ParentFallback? <==> forall n :: n in names ==> n !in keys.value)
      ensures r.ParentFallback? ==> keys.Some? && r.keys == keys.value
      ensures r.Projected? ==> r.items.Valid()
      ensures r.Projected? ==>
        forall n :: n in r.items.byName <==> n in byName && (keys.None? || n in keys.value)
      ensures r.Projected? ==> forall n :: n in r.items.byName ==> r.items.byName[n] == byName[n]
    {
      match keys
      case None => Projected(this)
      case Some(ks) =>
        var kept := Restrict(n => n in ks);
        if kept.names != [] then
          assert kept.names[0] in kept.names;
          Projected(kept)
        else
          assert forall n :: n in names ==> n in byName;
          ParentFallback(ks)
    }

    /** `except(keys)`: a bare key or any iterable of keys is given as a list. */
    function Except(keys: seq<string>): (r: Projection)
      requires Valid()
      ensures r.ParentFallback? <==> forall n :: n in names ==> n in keys
      ensures r.ParentFallback? ==> r.keys == keys
      ensures r.Projected? ==> r.items.Valid()
      ensures r.Projected? ==> forall n :: n in r.items.byName <==> n in byName && n !in keys
      ensures r.Projected? ==> forall n :: n in r.items.byName ==> r.items.byName[n] == byName[n]
    {
      var kept := Restrict(n => n !in keys);
      if kept.names != [] then
        assert kept.names[0] in kept.names;
        Projected(kept)
      else
        assert forall n :: n in names ==> n in byName;
        ParentFallback(keys)
    }

    /** The distinct groups of the settings. */
    function GroupNames(): set<string> {
      set n | n in byName :: byName[n].group
    }

    /** `groups()`: the settings partitioned by group, each group listing its
        settings by name. */
    function Groups(): (r: map<string, seq<string>>)
      requires Valid()
      ensures forall g :: g in r <==> exists n :: n in byName && byName[n].group == g
      ensures forall g, n :: g in r ==> (n in r[g] <==> n in byName && byName[n].group == g)
      ensures forall g :: g in r ==> Distinct(r[g])
    {
      map g | g in GroupNames() :: Filter(names, n => n in byName && byName[n].group == g)
    }
  }

  /** When `only` and `except` with the same keys both yield a collection,
      the two are disjoint and together hold exactly the original settings. */
  lemma OnlyExceptPartition(c: Items, keys: seq<string>)
    requires c.Valid()
    requires c.Only(Some(keys)).Projected? && c.Except(keys).Projected?
    ensures c.Only(Some(keys)).items.byName.Keys !! c.Except(keys).items.byName.Keys
    ensures c.Only(Some(keys)).items.byName + c.Except(keys).items.byName == c.byName
  {
    var o, e := c.Only(Some(keys)).items.byName, c.Except(keys).items.byName;
    assert (o + e).Keys == c.byName.Keys;
  }

  /** When `only` has to fall back, none of the keys is present, so `except`
      of a non-empty collection keeps every setting. */
  lemma OnlyFallbackMeansExceptKeepsAll(c: Items, keys: seq<string>)
    requires c.Valid() && c.names != []
    requires c.Only(Some(keys)).ParentFallback?
    ensures c.Except(keys).Projected?
    ensures c.Except(keys).items.byName == c.byName
  {
    assert c.names[0] in c.names;
    var e := c.Except(keys);
    assert e.Projected?;
    assert e.items.byName.Keys == c.byName.Keys;
  }

  /** The mirror case: when `except` falls back on a non-empty collection,
      every setting is named, so `only` keeps them all. */
  lemma ExceptFallbackMeansOnlyKeepsAll(c: Items, keys: seq<string>)
    requires c.Valid() && c.names != [] && c.Except(keys).ParentFallback?
    ensures c.Only(Some(keys)).Projected?
    ensures c.Only(Some(keys)).items.byName == c.byName
  {
    assert c.names[0] in c.names;
    var o := c.Only(Some(keys));
    assert o.Projected?;
    assert o.items.byName.Keys == c.byName.Keys;
  }

  // ---- Single-setting mutators ----

  /** `setDefault`, `enable` and `disable`: forward `op` to the named
      setting; on an absent name the call lands on null and raises. */
  function ForwardTo(settings: map<string, Setting>, name: string, op: SettingOp, member: string): (run: SetRun)
    ensures run.settings.Keys == settings.Keys
    ensures run.outcome == Pass <==> name in settings
    ensures |run.calls| <= 1
  {
    if name in settings then SetRun(settings[name := Forward(settings[name], op)], [Call(name, op)], Pass)
    else SetRun(settings, [], Fail(NullReceiver(member)))
  }

  /** A single-setting mutator changes the named setting only, and raises
      without any change when the name is absent. */
  lemma ForwardToChangesOnlyNamed(settings: map<string, Setting>, name: string, op: SettingOp, member: string)
    ensures var run := ForwardTo(settings, name, op, member);
      && run.settings.Keys == settings.Keys
      && (forall n :: n in settings && n != name ==> run.settings[n] == settings[n])
      && (name in settings <==> run.outcome == Pass)
      && (name !in settings ==> run.settings == settings && run.calls == [])
      && (name in settings ==> run.calls == [Call(name, op)])
  {
  }

  /** After `enable` the setting is enabled, after `disable` it is disabled,
      after `setDefault` its value is its default; nothing else is observed
      to change. */
  lemma MutatorsAsObserved(c: Items, name: string)
    requires c.Valid() && name in c.byName
    ensures Items(c.names, ForwardTo(c.byName, name, Enable, "enable()").settings).IsEnabled(name)
    ensures Items(c.names, ForwardTo(c.byName, name, Disable, "disable()").settings).IsDisabled(name)
    ensures Items(c.names, ForwardTo(c.byName, name, SetToDefault, "setDefault()").settings).Value(name)
              == c.byName[name].default
    ensures Items(c.names, ForwardTo(c.byName, name, Enable, "enable()").settings).Value(name)
              == c.Value(name)
  {
  }

  // ---- Batch assignment ----

  /** The first argument of `set`: one name, or a mapping of names to values. */
  datatype NameArg = Name(key: string) | Batch(entries: seq<(string, Mixed)>)

  /** The entries a `set` call iterates over; a single name is turned into a
      one-entry mapping with the given value, and a mapping ignores it. */
  function Entries(name: NameArg, value: Mixed): (es: seq<(string, Mixed)>) {
    match name
    case Name(k) => [(k, value)]
    case Batch(es) => es
  }

  /** `set("k", v, force)` is `set(["k" => v], force)`. */
  lemma SingleNameIsOneEntryBatch(k: string, v: Mixed, ignored: Mixed)
    ensures Entries(Name(k), v) == Entries(Batch([(k, v)]), ignored)
  {
  }

  /** The settings after a batch, the calls forwarded to them, and whether
      the batch finished. */
  datatype SetRun = SetRun(settings: map<string, Setting>, calls: seq<Call>, outcome: Outcome)

  /** The batch loop of `set`: entries are handled in order, each one
      forwarded to its setting, and the first absent name raises. */
  function BatchSet(settings: map<string, Setting>, entries: seq<(string, Mixed)>, force: bool): (run: SetRun)
    decreases |entries|
  {
    if entries == [] then SetRun(settings, [], Pass)
    else
      var k := entries[0].0;
      var op := SetValue(entries[0].1, force);
      if k !in settings then SetRun(settings, [], Fail(UnknownSetting(k)))
      else
        var rest := BatchSet(settings[k := Forward(settings[k], op)], entries[1..], force);
        SetRun(rest.settings, [Call(k, op)] + rest.calls, rest.outcome)
  }

  /** A batch keeps the set of names, finishes exactly when every entry
      names a present setting, can only raise the unknown-setting error, and
      forwards at most one call per entry. */
  lemma {:induction false} BatchSetOutcome(settings: map<string, Setting>, entries: seq<(string, Mixed)>, force: bool)
    ensures var run := BatchSet(settings, entries, force);
      && run.settings.Keys == settings.Keys
      && (run.outcome == Pass <==> forall i :: 0 <= i < |entries| ==> entries[i].0 in settings)
      && (run.outcome.Fail? ==> run.outcome.failure.UnknownSetting?)
      && |run.calls| <= |entries|
    decreases |entries|
  {
    if entries != [] && entries[0].0 in settings {
      var k := entries[0].0;
      var next := settings[k := Forward(settings[k], SetValue(entries[0].1, force))];
      BatchSetOutcome(next, entries[1..], force);
      assert forall i :: 0 <= i < |entries| - 1 ==> entries[1..][i] == entries[i + 1];
    }
  }

  /** The calls `done` already forwarded, followed by the rest of a batch. */
  function Then(done: seq<Call>, rest: SetRun): (run: SetRun) {
    SetRun(rest.settings, done + rest.calls, rest.outcome)
  }

  /** One step of the batch loop, from entry `i` on. */
  lemma BatchSetStep(settings: map<string, Setting>, es: seq<(string, Mixed)>, i: nat, force: bool)
    requires i < |es|
    ensures var k, op := es[i].0, SetValue(es[i].1, force);
      BatchSet(settings, es[i..], force)
        == if k !in settings then SetRun(settings, [], Fail(UnknownSetting(k)))
           else Then([Call(k, op)], BatchSet(settings[k := Forward(settings[k], op)], es[i + 1..], force))
  {
    assert es[i..][0] == es[i] && es[i..][1..] == es[i + 1..];
  }

  /** The position of the first entry whose name is not in `keys`, or the
      number of entries when all are present. */
  function FirstMissing(keys: set<string>, entries: seq<(string, Mixed)>): (p: nat)
    ensures p <= |entries|
    ensures forall i :: 0 <= i < p ==> entries[i].0 in keys
    ensures p < |entries| ==> entries[p].0 !in keys
    decreases |entries|
  {
    if entries == [] || entries[0].0 !in keys then 0
    else 1 + FirstMissing(keys, entries[1..])
  }

  /** The calls `set(value, force)` that the entries forward, in order. */
  function SetCalls(entries: seq<(string, Mixed)>, force: bool): (r: seq<Call>) {
    seq(|entries|, i requires 0 <= i < |entries| => Call(entries[i].0, SetValue(entries[i].1, force)))
  }

  /** A batch is applied up to its first absent name: every entry before it
      has been forwarded `set(value, force)` in order, it raises for that
      name, no later entry is touched, and settings not named before it keep
      their state. */
  lemma {:induction false} BatchSetStopsAtFirstMissing(
    settings: map<string, Setting>, entries: seq<(string, Mixed)>, force: bool)
    ensures var p := FirstMissing(settings.Keys, entries);
            var run := BatchSet(settings, entries, force);
            && run.calls == SetCalls(entries[..p], force)
            && run.outcome == (if p < |entries| then Fail(UnknownSetting(entries[p].0)) else Pass)
            && run.settings.Keys == settings.Keys
            && forall n :: n in settings && (forall i :: 0 <= i < p ==> entries[i].0 != n) ==>
                 run.settings[n] == settings[n]
    decreases |entries|
  {
    if entries != [] && entries[0].0 in settings {
      var k := entries[0].0;
      var next := settings[k := Forward(settings[k], SetValue(entries[0].1, force))];
      assert next.Keys == settings.Keys;
      BatchSetStopsAtFirstMissing(next, entries[1..], force);
      var p := FirstMissing(settings.Keys, entries);
      var q := FirstMissing(next.Keys, entries[1..]);
      assert p == 1 + q;
      assert entries[..p] == [entries[0]] + entries[1..][..q];
      var run := BatchSet(settings, entries, force);
      forall n | n in settings && (forall i :: 0 <= i < p ==> entries[i].0 != n)
        ensures run.settings[n] == settings[n]
      {
        assert entries[0].0 != n;
        forall i | 0 <= i < q ensures entries[1..][i].0 != n {
          assert entries[1..][i] == entries[i + 1];
        }
      }
    }
  }

  /** The partner of `setIfEnabled`: an unforced assignment to a disabled
      setting leaves the settings as they were, a forced one assigns. */
  lemma SetIfEnabledSkipsDisabled(settings: map<string, Setting>, k: string, v: Mixed)
    requires k in settings && !settings[k].isEnabled
    ensures BatchSet(settings, [(k, v)], false).settings == settings
    ensures BatchSet(settings, [(k, v)], true).settings == settings[k := settings[k].(value := v)]
    ensures BatchSet(settings, [(k, v)], false).outcome == Pass
  {
    assert [(k, v)][1..] == [];
  }
}

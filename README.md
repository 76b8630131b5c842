# laraconfig runtime settings engine, in Dafny

This project models the runtime core of laraconfig, a per-owner settings store for Laravel, and proves properties of that model. It covers four pieces:

- **Settings collection.** A collection holds one owner's settings, keyed by name. It answers lookups that fall back to a default (`value`, `is`, `isNull`, `isEnabled`, `isDisabled`). It forwards assignments to its settings in order: `set` and `setIfEnabled` apply a batch up to the first unknown name, and that name raises. `setDefault`, `enable` and `disable` each change one setting. It builds projections (`only`, `except`, `groups`). It delegates invalidation and regeneration to its linked cache, and when it is released it regenerates that cache if it was marked to.
- **Settings cache.** The cache writes the collection together with a `key:time` freshness stamp in one multi-set. It forgets both keys on invalidation and keeps a local `invalidatedAt` time. It is stale when no stamp is stored, or when `invalidatedAt` is strictly later than the stamp.
- **Declaration builder.** A fluent builder whose setters change the object in place and return it. It compiles to a metadata record.
- **Two migration stages.** `LoadMetadata` keys the persisted metadata by name into the shared context. `ConfirmSettingsToDelete` counts persisted settings that are no longer declared. In production, without `--refresh` or `--force`, it asks the operator before continuing and aborts when the operator refuses.

Modules, one per file:

- `Values`: shared values. The PHP `mixed` value, the seven type tags, metadata, the per-setting record and the failure outcomes.
- `Collection`: the pure side of the settings collection. Lookups, projections, and the functions that specify batch and single-setting assignment.
- `CacheLogic`: the cache's decisions and transitions, stated on plain values.
- `Runtime`: the two objects updated in place. `SettingsCollection` and `SettingsCache` refer to each other, so they share a module.
- `Registrar`: the `Declaration` class.
- `Migration`: the shared context `Data` and the continuation `Next`.
- `LoadMetadata` and `ConfirmSettingsToDelete`: the two stages.

Every mutating method is specified against a function of the old state. For example, `SettingsCollection.Set` ends in `BatchSet(old settings, entries, force)`, and `SettingsCache.Invalidate` ends in `CacheLogic.Invalidate(old state, key, now)`. Lemmas about those functions then state the promised properties.

External inputs become parameters:

- the clock `now()` is a `now: nat` argument;
- the metadata store's "all records" is the `loaded` list;
- the operator's answer is a function `confirm: string -> bool`;
- the environment and console options are an `Environment` value;
- the rest of the pipeline is a `Next` object that records each context it receives.

Three behaviours of the code are easy to mistake:

- `setDefault`, `enable` and `disable` on an absent name do not raise the batch's `RuntimeException`. `get` returns null there, and the method call on null is a PHP `Error`, modelled as `Fail(NullReceiver(...))`. Only a batch `set` raises `UnknownSetting`.
- `invalidate()` overwrites `invalidatedAt` on every call; only `invalidateIfNotInvalidated()` checks it first.
- `isEnabled` on an absent name reads a property of null. PHP yields null for that (with a warning), and `null === true` is false, so the model answers false and `isDisabled` answers true.

## Model

| member | source | states |
|---|---|---|
| `Values.TypeNameInjective` | src/Eloquent/Metadata.php:27-39 | the seven type constants are seven distinct strings |
| `Values.UnknownSettingMessageNamesSetting` | src/SettingsCollection.php:88 | the message of a failed batch, "The setting [name] doesn't exist.", names the setting: different names give different messages |
| `Collection.Items.Get` | src/SettingsCollection.php:18 | `get(name, default)` finds the setting exactly when the name is present, otherwise returns the fallback |
| `Collection.Items.Value` | src/SettingsCollection.php:57-66 | the matched setting's value when present, the default verbatim when absent |
| `Collection.Items.Is` | src/SettingsCollection.php:71-74 | holds exactly when the present setting's value strictly equals `v`; for an absent name, exactly when `v` is null |
| `Collection.Items.IsNull` | src/SettingsCollection.php:106-109 | holds exactly when the name is absent or its value is null |
| `Collection.Items.IsEnabled` | src/SettingsCollection.php:114-117 | holds exactly when the setting is present and its flag is `true` |
| `Collection.Items.IsDisabled` | src/SettingsCollection.php:122-125 | holds exactly when the setting is absent or its flag is not `true` |
| `Collection.Items.Has` | src/SettingsCollection.php:246-249 | `__isset` holds exactly when the name is in the collection |
| `Collection.Items.PropertyGet` | src/SettingsCollection.php:258-265 | `__get` yields the setting's value when present, otherwise goes to the inherited proxy for that key |
| `Collection.Items.Only` | src/SettingsCollection.php:156-175 | null keys give every entry; otherwise the result holds exactly the present entries named in the keys, with their settings; when none is present it falls back to the parent with the same keys |
| `Collection.Items.Except` | src/SettingsCollection.php:182-197 | the result holds exactly the entries not named in the keys, with their settings; when every entry is named it falls back to the parent with the same keys |
| `Collection.Items.Groups` | src/SettingsCollection.php:45-48 | one group per distinct group name; each group lists exactly the settings of that group, without repeats |
| `Collection.OnlyExceptPartition` | src/SettingsCollection.php:156-197 | when both project, `only(keys)` and `except(keys)` are disjoint and together are the whole collection |
| `Collection.OnlyFallbackMeansExceptKeepsAll` | src/SettingsCollection.php:156-197 | when `only(keys)` falls back on a non-empty collection, `except(keys)` keeps every setting |
| `Collection.ExceptFallbackMeansOnlyKeepsAll` | src/SettingsCollection.php:156-197 | when `except(keys)` falls back on a non-empty collection, `only(keys)` keeps every setting |
| `Collection.SingleNameIsOneEntryBatch` | src/SettingsCollection.php:82-84 | `set("k", v)` iterates exactly the one-entry batch `["k" => v]` (`Collection.Entries`), so a single name and a one-entry mapping behave alike |
| `Collection.FirstMissing` | src/SettingsCollection.php:86-92 | the position of the first entry whose name is absent; every entry before it is present |
| `Collection.BatchSetStopsAtFirstMissing` | src/SettingsCollection.php:86-92 | a batch (`Collection.BatchSet`) forwards `set(value, force)` to exactly the entries before the first absent name, in order; it raises for that name; no later entry is touched; unnamed settings keep their state |
| `Collection.BatchSetOutcome` | src/SettingsCollection.php:86-92 | a batch (`Collection.BatchSet`) keeps the set of names, finishes exactly when every entry names a present setting, can only raise the unknown-setting error, and forwards at most one call per entry |
| `Collection.SetIfEnabledSkipsDisabled` | src/SettingsCollection.php:146-149 | on a disabled setting, an unforced assignment changes nothing and a forced one assigns |
| `Collection.ForwardTo` | src/SettingsCollection.php:98-141 | a single-setting mutator keeps the set of names, succeeds exactly when the name is present, and forwards at most one call |
| `Collection.ForwardToChangesOnlyNamed` | src/SettingsCollection.php:98-141 | a single-setting mutator changes only the named setting and records one call; an absent name raises and changes nothing |
| `Collection.MutatorsAsObserved` | src/SettingsCollection.php:98-141 | after `enable` the setting is enabled; after `disable`, disabled; after `setDefault`, its value is its default |
| `Runtime.SettingsCollection.constructor` | src/SettingsCollection.php:33-38 | a new collection has no cache and is not marked to regenerate on exit |
| `Runtime.SettingsCollection.Set` | src/SettingsCollection.php:79-93 | force defaults to true; the new settings, the forwarded calls and the outcome are those of `BatchSet` on the old settings |
| `Runtime.SettingsCollection.SetIfEnabled` | src/SettingsCollection.php:146-149 | exactly `set` with `force = false` |
| `Runtime.SettingsCollection.PropertySet` | src/SettingsCollection.php:238-241 | `__set(name, value)` is a forced single-name `set` |
| `Runtime.SettingsCollection.SetDefault` | src/SettingsCollection.php:98-101 | forwards `setDefault` to the named setting only; an absent name raises |
| `Runtime.SettingsCollection.Enable` | src/SettingsCollection.php:138-141 | forwards `enable` to the named setting only; an absent name raises |
| `Runtime.SettingsCollection.Disable` | src/SettingsCollection.php:130-133 | forwards `disable` to the named setting only; an absent name raises |
| `Runtime.SettingsCollection.Invalidate` | src/SettingsCollection.php:202-205 | with a linked cache, performs that cache's `invalidate`; with none, changes nothing |
| `Runtime.SettingsCollection.InvalidateIfNotInvalidated` | src/SettingsCollection.php:210-213 | with a linked cache, performs that cache's guarded invalidation; with none, changes nothing |
| `Runtime.SettingsCollection.Regenerate` | src/SettingsCollection.php:218-221 | with a linked cache, performs its `regenerate` with the same `force` (default false); with none, changes nothing |
| `Runtime.SettingsCollection.Close` | src/SettingsCollection.php:228-233 | when marked, attaches itself to the cache and runs one unforced regeneration that writes its own items; otherwise the cache is untouched |
| `Runtime.SettingsCache.constructor` | src/SettingsCache.php:19-34 | starts with no collection, no invalidation and no backend calls; automatic regeneration defaults to false |
| `Runtime.SettingsCache.SetSettings` | src/SettingsCache.php:42-47 | attaches the collection, changes nothing else and returns the same cache |
| `Runtime.SettingsCache.Retrieve` | src/SettingsCache.php:54-57 | a miss on the data key gives null; otherwise the result is exactly what the data key holds |
| `Runtime.SettingsCache.ShouldRegenerate` | src/SettingsCache.php:64-73 | stale without a stored stamp; with one, stale exactly when the local invalidation is strictly later |
| `Runtime.SettingsCache.BackendSetMultiple` | src/SettingsCache.php:84-87 | the backend stores all the entries in one call, recorded with its TTL |
| `Runtime.SettingsCache.BackendForget` | src/SettingsCache.php:96-97 | the backend drops the key, absent or not, and records the call |
| `Runtime.SettingsCache.Regenerate` | src/SettingsCache.php:81-89 | the new state is `CacheLogic.Regenerate` of the old one, on the attached collection |
| `Runtime.SettingsCache.Invalidate` | src/SettingsCache.php:94-101 | the new state is `CacheLogic.Invalidate` of the old one: two forgets, then `invalidatedAt := now` |
| `Runtime.SettingsCache.InvalidateIfNotInvalidated` | src/SettingsCache.php:106-111 | the new state is `CacheLogic.InvalidateIfNotInvalidated` of the old one |
| `Runtime.SettingsCache.RegenerateOnExit` | src/SettingsCache.php:116-120 | sets the attached collection's `regeneratesOnExit` to the automatic flag and nothing else; with none attached the write fails |
| `Runtime.SettingsCache.Unserialize` | src/SettingsCache.php:135-154 | deserialising changes neither the cache state nor the attached collection |
| `Runtime.SerializationCarriesNoState` | src/SettingsCache.php:125-154 | `__serialize` and `serialize` (`SettingsCache.SerializedData`, `SettingsCache.SerializedString`) give the same result for any two caches: no store, key or invalidation time leaves the object |
| `Runtime.PartialBatchScenario` | src/SettingsCollection.php:86-92 | `set(["theme" => "dark", "notify" => true])` with no "notify": "theme" becomes "dark", one call is forwarded, then the batch raises for "notify" |
| `Runtime.CacheLifecycleScenario` | src/SettingsCache.php:64-120 | written, the cache is fresh; invalidated, it is stale; released with automatic regeneration, it is written again and fresh, and the stored collection has the owner's value |
| `CacheLogic.TimeKey` | src/SettingsCache.php:67 | the freshness key `key:time` never equals the data key |
| `CacheLogic.Regenerate` | src/SettingsCache.php:81-89 | keeps each of the two keys holding its own kind of value |
| `CacheLogic.Invalidate` | src/SettingsCache.php:94-101 | keeps each of the two keys holding its own kind of value |
| `CacheLogic.InvalidateIfNotInvalidated` | src/SettingsCache.php:106-111 | afterwards an invalidation is always recorded, and an invalidation time recorded before is never overwritten |
| `CacheLogic.StalenessRule` | src/SettingsCache.php:64-73 | `CacheLogic.ShouldRegenerate` is stale whenever no stamp is stored; otherwise stale exactly when `invalidatedAt` is set and strictly later than the stamp |
| `CacheLogic.RegenerateWritesBothOrNothing` | src/SettingsCache.php:81-89 | when forced or stale, data and stamp are written in one multi-set, and afterwards `CacheLogic.Retrieve` gives the written collection; no other key changes; otherwise nothing changes |
| `CacheLogic.InvalidateForgetsBoth` | src/SettingsCache.php:94-101 | forgets exactly the two keys and no other; records `invalidatedAt = now`; afterwards `CacheLogic.Retrieve` misses and the cache is stale; a repeated forget changes nothing more |
| `CacheLogic.InvalidateIfNotInvalidatedOnce` | src/SettingsCache.php:106-111 | the guarded invalidation (`CacheLogic.InvalidateIfNotInvalidated`) does nothing once an invalidation is recorded; two calls in a row make exactly one pair of forgets |
| `CacheLogic.FreshAfterWrite` | src/SettingsCache.php:64-89 | right after a write at `now`, stale exactly when `invalidatedAt` is later than `now` |
| `CacheLogic.RegenerateAfterInvalidate` | src/SettingsCache.php:64-101 | after an invalidation, an unforced regeneration always writes; the result is fresh exactly when the clock did not go backwards |
| `Registrar.Declaration.constructor` | src/Registrar/Declaration.php:15-55 | name and bag from the arguments; type string, null default, enabled, group "default", no `from`, no `using` |
| `Registrar.Declaration.String` | src/Registrar/Declaration.php:62-67 | sets the type to string, changes nothing else, returns the same builder |
| `Registrar.Declaration.Boolean` | src/Registrar/Declaration.php:74-79 | sets the type to boolean, changes nothing else, returns the same builder |
| `Registrar.Declaration.Integer` | src/Registrar/Declaration.php:86-91 | sets the type to integer, changes nothing else, returns the same builder |
| `Registrar.Declaration.Float` | src/Registrar/Declaration.php:98-103 | sets the type to float, changes nothing else, returns the same builder |
| `Registrar.Declaration.Array` | src/Registrar/Declaration.php:110-115 | sets the type to array, changes nothing else, returns the same builder |
| `Registrar.Declaration.Datetime` | src/Registrar/Declaration.php:122-127 | sets the type to datetime, changes nothing else, returns the same builder |
| `Registrar.Declaration.Collection` | src/Registrar/Declaration.php:134-139 | sets the type to collection, changes nothing else, returns the same builder |
| `Registrar.Declaration.Default` | src/Registrar/Declaration.php:147-152 | changes only the default and returns the same builder |
| `Registrar.Declaration.Disabled` | src/Registrar/Declaration.php:159-164 | sets the enabled flag to its argument (default false) and changes nothing else |
| `Registrar.Declaration.Group` | src/Registrar/Declaration.php:172-177 | changes only the group and returns the same builder |
| `Registrar.Declaration.Bag` | src/Registrar/Declaration.php:185-190 | changes only the bag and returns the same builder |
| `Registrar.Declaration.From` | src/Registrar/Declaration.php:198-203 | changes only `from` and returns the same builder |
| `Registrar.Declaration.Using` | src/Registrar/Declaration.php:211-216 | changes only `using` and returns the same builder |
| `Registrar.Declaration.ToMetadata` | src/Registrar/Declaration.php:221-231 | copies name, type, default, bag and group, and `enabled` as `is_enabled`; reads the declaration without changing it |
| `Registrar.ToMetadataIgnoresMigration` | src/Registrar/Declaration.php:221-231 | declarations that differ only in `from`/`using` compile to the same record |
| `Registrar.DeclareTheme` | src/Registrar/Declaration.php:55-231 | declaring "theme" in bag "ui" with default "light" compiles to a string, enabled record in group "default" |
| `Registrar.LastTypeCallWins` | src/Registrar/Declaration.php:62-139 | after `integer()`, `collection()`, `boolean()` the record's type is boolean |
| `Registrar.DisabledAndMigration` | src/Registrar/Declaration.php:159-231 | `disabled()` disables; `disabled(true)` re-enables; `from`/`using` leave the record otherwise equal |
| `LoadMetadata.KeyByName` | src/Migrator/Pipes/LoadMetadata.php:19 | every loaded record's name is a key; each key maps to a loaded record with that name; a name's last record wins |
| `LoadMetadata.Handle` | src/Migrator/Pipes/LoadMetadata.php:17-22 | the context's metadata becomes the keyed list and its declarations are unchanged; the continuation runs once with the same context, and its result is returned |
| `ConfirmSettingsToDelete.DeletableMetadata` | src/Migrator/Pipes/ConfirmSettingsToDelete.php:56-61 | zero exactly when every persisted record's name is declared; never more than the number of records |
| `ConfirmSettingsToDelete.DeletableCountsUndeclaredNames` | src/Migrator/Pipes/ConfirmSettingsToDelete.php:56-61 | on metadata keyed by name, the count is the number of loaded names that are not declared |
| `ConfirmSettingsToDelete.Decimal` | src/Migrator/Pipes/ConfirmSettingsToDelete.php:46 | the count is written as a non-empty string of decimal digits with no leading zero, the canonical form string interpolation writes |
| `ConfirmSettingsToDelete.DecimalRoundTrip` | src/Migrator/Pipes/ConfirmSettingsToDelete.php:46 | reading the written digits back gives the count |
| `ConfirmSettingsToDelete.PromptMessageNamesCount` | src/Migrator/Pipes/ConfirmSettingsToDelete.php:45-47 | different counts give different questions |
| `ConfirmSettingsToDelete.PromptMessageCarriesCount` | src/Migrator/Pipes/ConfirmSettingsToDelete.php:45-47 | for every count, the question (`ConfirmSettingsToDelete.PromptMessage`) is the fixed prefix, then the count in canonical decimal, then the fixed suffix; the digits read back as the count |
| `ConfirmSettingsToDelete.PromptForThree` | src/Migrator/Pipes/ConfirmSettingsToDelete.php:45-47 | the question for three is "There are 3 old settings that will be deleted on sync. Proceed?" |
| `ConfirmSettingsToDelete.RejectedDeleteOnProduction` | src/Migrator/Pipes/ConfirmSettingsToDelete.php:42-51 | asks exactly when it should prompt and some record is undeclared; the question carries the count; rejects exactly when asked and refused |
| `ConfirmSettingsToDelete.OptionsDecideThePrompt` | src/Migrator/Pipes/ConfirmSettingsToDelete.php:42-71 | `shouldPrompt()` decides the stage: with `--refresh`, with `--force` or outside production nobody is asked and nothing is rejected; otherwise the question is asked whenever at least one persisted setting is undeclared |
| `ConfirmSettingsToDelete.ThreeOldSettingsRejected` | src/Migrator/Pipes/ConfirmSettingsToDelete.php:42-51 | in production with no options, three undeclared records and a refusal: asks about three, then rejects |
| `ConfirmSettingsToDelete.Handle` | src/Migrator/Pipes/ConfirmSettingsToDelete.php:30-37 | on a rejection, raises and never continues; otherwise continues exactly once with the same, unmodified context and returns its result |
| `Migration.Next.Invoke` | src/Migrator/Pipes/ConfirmSettingsToDelete.php:36 | the continuation records the context it received and returns its result |

## Left out

- Setting internals: the `Setting` class is not part of this model. `Collection.Forward` is a minimal stand-in: an unforced assignment to a disabled setting is ignored, `setDefault` restores the default, and `enable`/`disable` set the flag. The `received` log (a ghost record of which setting received which call) and the outcomes hold for any `Setting`. The new `items` in the contracts of `SettingsCollection.Set`, `SetIfEnabled`, `PropertySet`, `SetDefault`, `Enable` and `Disable`, and the lemmas `SetIfEnabledSkipsDisabled` and `MutatorsAsObserved`, hold for this stand-in only; a `Setting` that coerces or rejects a value would change the resulting `items`.
- Value coercion and typing (`DynamicCasting`, floats, dates, collections as values) are not modelled. `Null`, `Bool`, `Int` and `Str` values compare by value; every other value is an `Opaque` handle compared by identity. PHP's `===` compares arrays by their contents, so `is` on two equal arrays held under different handles is true in PHP and false in the model.
- Setting objects are held as values in the collection's map, so a setting object shared between two collections (aliasing) is not modelled.
- The inherited `parent::only` / `parent::except` results, used when the projection is empty, belong to the framework collection, which is not part of this model. They are returned as `ParentFallback(keys)`.
- The higher-order proxy behind `__get` (`__dynamicGet`) is returned as `DynamicProxy(key)`.
- Argument normalisation is done by the caller. A bare key, a variadic list or another iterable is passed as a list. A null argument to `except` acts as the key `""` and must be passed that way.
- `except` removes keys exactly. The framework's dot-notation removal inside nested values is not modelled.
- PHP's conversion of numeric string keys to integers is not modelled. Neither is a closure or a `Setting` passed as the default of `value`.
- Collection.Items.Only: states the membership and settings of the result, but not that its names keep the collection's order (the body's `Filter` does keep it).
- Collection.Items.Except: states the membership and settings of the result, but not that its names keep the collection's order.
- Collection.Items.Groups: lists each group's settings by name rather than as sub-collections of setting objects, and does not keep the order in which groups first appear.
- `SettingsCache::make`, with its config lookup, cache factory and owner key generation, is left out; the key and TTL are constructor arguments. The TTL is recorded on each multi-set, but expiry is not modelled.
- The backend is the cache's own `store` and `calls` fields. A backend shared by several caches is not modelled. The model assumes no one else writes the cache's two keys.
- Backend exceptions (`InvalidArgumentException`) and the PHP warning for reading a property of null are not modelled.
- The cache stores the collection's items (`Runtime.Snapshot`). PHP serialises the whole collection object, including its `regeneratesOnExit` flag and its emptied `cache` link; those two fields do not travel through the cache here.
- PHP runs `__unserialize` on a new instance that was built without its constructor, so its promoted properties stay uninitialised. `SettingsCache.Unserialize` is called on a live object instead, and keeps its state; the uninitialised instance is not modelled.
- Object destruction by the garbage collector becomes the explicit `SettingsCollection.Close`.
- The clock is a `now: nat` argument. That it never goes backwards is assumed only by the lemmas that say so.
- The migration context class `src/Migrator/Data.php` is not part of this model. `Migration.Data` has just the two fields the stages use.
- The continuation is an object that records its calls and does not change the context. What later stages do is not modelled.
- The metadata store (`Metadata::all()`), the console prompt and the environment/option queries are parameters. The query-builder scope in `src/Eloquent/Scopes/FilterBags.php` and the ORM model `src/Eloquent/Metadata.php` are out of scope, apart from its seven type constants.
- `Values.FailureMessage`: the texts of PHP's own errors (a call or property write on null) are paraphrased. Only the two messages the engine writes itself are given exactly.

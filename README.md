# Caffeine test-parameter binder (`CacheProvider`)

This project models the TestNG data provider `CacheProvider` from Caffeine's test suite.
For a test method annotated with `@CacheSpec`, the provider does three things:

- it asks the cache generator for scenarios, each a pair of a `CacheContext` and a `Cache<Integer, Integer>`;
- it asks for loading caches only when a parameter is declared as a `LoadingCache`;
- it turns each scenario into an `Object[]` argument vector for the method's declared parameters.

Each slot of the vector is resolved by the first match in a fixed chain:

1. the context;
2. the cache itself;
3. the cache's `asMap()` view;
4. the eviction view;
5. the access or write expiration view, chosen by the parameter's annotation;
6. the context's ticker.

A slot that matches none of these fails the whole vector.

Files:

- `wrappers.dfy` (module `Wrappers`): `Option` (for Java's `Optional`) and `Result` (for a call that may throw).
- `java_types.dfy` (module `JavaTypes`): the types the binder compares, as a closed `TypeToken` datatype.
  - `IsSubtype` is the reflexive-transitive subtype relation, with `Object` at the top.
  - `IsAssignableFrom(target, source)` is Java's `target.isAssignableFrom(source)`.
  - The relation is proved to be a partial order.
- `scenarios.dfy` (module `Scenarios`): the values the binder works on.
  - Contexts, caches and their optional views, scenarios and declared parameters.
  - Two booleans on each parameter record the `@ExpireAfterAccess` and `@ExpireAfterWrite` annotations.
  - Bound arguments, and the errors the provider raises.
  - Objects are opaque handles. Only which handle is selected matters.
- `cache_provider.dfy` (module `CacheProvider`): the provider itself and what is proved about it.
  - `Resolve` resolves one slot.
  - `BindArgs` is the pure specification of a whole vector. The first failing slot decides the error.
  - `Bind` is the binding lambda's loop. It fills an array and is proved equal to `BindArgs`.
  - `ScanForLoadingCache` is the `hasLoadingCache` loop with its early return. It is proved equal to an `exists` over the parameters.
  - `AsTestCases` and `ProvidesCaches` are the per-scenario map and the `@CacheSpec` check.

Two behaviours of the code that a reader may not expect:

- The loading-cache scan asks whether a declared type is a *subtype* of `LoadingCache`, that is `LoadingCache.class.isAssignableFrom(param)`. It does not ask whether the declared type accepts a loading cache. A `Cache` or `Object` parameter therefore does not restrict the generator (`HasLoadingCacheExactly`).
- The class comment at `CacheProvider.java:44-48` lists `ConcurrentMap` and `FakeTicker` among the injectable types. The checks, however, are `isAssignableFrom(Map.class)` and `isAssignableFrom(Ticker.class)`. A parameter declared as one of those narrower types therefore accepts no candidate and fails as an unknown type. The model keeps this behaviour as written (`NarrowerViewTypesUnresolvable`).

## Model

| member | source | states |
|---|---|---|
| `JavaTypes.SubtypeDepth` | src/test/java/com/github/benmanes/caffeine/cache/testing/CacheProvider.java:67-84 | a subtype lies at least as deep in the hierarchy as its supertype, and strictly deeper unless the two are the same type |
| `JavaTypes.SubtypeTransitive` | src/test/java/com/github/benmanes/caffeine/cache/testing/CacheProvider.java:67-84 | the relation behind `isAssignableFrom` is transitive |
| `JavaTypes.SubtypeAntisymmetric` | src/test/java/com/github/benmanes/caffeine/cache/testing/CacheProvider.java:67-84 | the relation is antisymmetric, so with reflexivity and transitivity it is a partial order |
| `JavaTypes.SubtypeReflexive` | src/test/java/com/github/benmanes/caffeine/cache/testing/CacheProvider.java:67-84 | every type accepts itself, and `Object` accepts every type |
| `JavaTypes.SubtypesOfLoadingCache` | src/test/java/com/github/benmanes/caffeine/cache/testing/CacheProvider.java:96 | the declared types that `LoadingCache.class.isAssignableFrom` admits are exactly `LoadingCache` and the loading cache's runtime class |
| `Scenarios.RuntimeClass` | src/test/java/com/github/benmanes/caffeine/cache/testing/CacheProvider.java:69 | the cache's `getClass()` is always a `Cache`, and it is a `LoadingCache` exactly when the scenario's cache loads |
| `CacheProvider.GetView` | src/test/java/com/github/benmanes/caffeine/cache/testing/CacheProvider.java:74-80 | `Optional.get()` gives the view exactly when it is present; otherwise it fails with `ViewAbsent` naming that view |
| `CacheProvider.Resolve` | src/test/java/com/github/benmanes/caffeine/cache/testing/CacheProvider.java:66-88 | a bound slot is the context, the cache, or a present view of this very scenario; a failure is never the missing-spec error |
| `CacheProvider.FirstAccepted` | src/test/java/com/github/benmanes/caffeine/cache/testing/CacheProvider.java:67-86 | the index of the first candidate class that the declared type accepts; every earlier candidate is rejected |
| `CacheProvider.ResolveFollowsPriority` | src/test/java/com/github/benmanes/caffeine/cache/testing/CacheProvider.java:67-88 | a bound argument comes from the first branch, in the order context, cache, Map, Eviction, Expiration, Ticker, whose class the declared type accepts; the type fails as unknown exactly when it accepts no candidate; the other failures occur only in the Eviction branch (view absent) and the Expiration branch |
| `CacheProvider.BindArgs` | src/test/java/com/github/benmanes/caffeine/cache/testing/CacheProvider.java:65-90 | a produced argument vector has exactly one slot per declared parameter |
| `CacheProvider.BoundSlotsResolve` | src/test/java/com/github/benmanes/caffeine/cache/testing/CacheProvider.java:66-85 | in a produced vector, slot `i` is the resolution of declared parameter `i` |
| `CacheProvider.AllSlotsResolveBinds` | src/test/java/com/github/benmanes/caffeine/cache/testing/CacheProvider.java:65-90 | when every slot resolves, a vector is produced |
| `CacheProvider.FailedBindNamesFirstFailure` | src/test/java/com/github/benmanes/caffeine/cache/testing/CacheProvider.java:81-88 | a failed vector carries the error of the first slot that cannot be bound, and every earlier slot binds |
| `CacheProvider.BindArgsSlots` | src/test/java/com/github/benmanes/caffeine/cache/testing/CacheProvider.java:63-90 | a vector is produced if and only if every slot resolves; slots hold the per-parameter resolutions; otherwise the first failing slot's error is raised |
| `CacheProvider.BindArgsPrefixFails` | src/test/java/com/github/benmanes/caffeine/cache/testing/CacheProvider.java:82-87 | once a prefix of the parameters fails, the whole binding fails with the same error, so the later slots cannot change the outcome |
| `CacheProvider.Bind` | src/test/java/com/github/benmanes/caffeine/cache/testing/CacheProvider.java:65-90 | allocating `params` and filling it slot by slot, throwing at the first unbindable slot, yields exactly `BindArgs` |
| `CacheProvider.BoundArgsDrawnFromScenario` | src/test/java/com/github/benmanes/caffeine/cache/testing/CacheProvider.java:66-85 | every slot of a produced vector is drawn from that vector's own scenario, and no slot holds an absent view |
| `CacheProvider.MapViewSharesCache` | src/test/java/com/github/benmanes/caffeine/cache/testing/CacheProvider.java:69-72 | an `asMap()` slot and a cache slot of the same vector are backed by the same cache instance, the scenario's |
| `CacheProvider.SlotDependsOnlyOnParam` | src/test/java/com/github/benmanes/caffeine/cache/testing/CacheProvider.java:66-67 | equal declared parameters bind equal arguments in the same scenario, whatever the other parameters of the two methods are |
| `CacheProvider.FirstFailureFailsVector` | src/test/java/com/github/benmanes/caffeine/cache/testing/CacheProvider.java:81-88 | if slot `k` fails and all earlier slots bind, the whole vector fails with slot `k`'s error, for example an unknown type naming itself; no partial vector is returned |
| `CacheProvider.ContextWinsOverCache` | src/test/java/com/github/benmanes/caffeine/cache/testing/CacheProvider.java:67-70 | a type that accepts `CacheContext` gets the context; for `Object`, this holds even though `Object` would also accept the cache |
| `CacheProvider.MapParamGetsMapView` | src/test/java/com/github/benmanes/caffeine/cache/testing/CacheProvider.java:71-72 | a `Map` parameter gets the `asMap()` view of the scenario's own cache |
| `CacheProvider.EvictionParamUnwraps` | src/test/java/com/github/benmanes/caffeine/cache/testing/CacheProvider.java:73-74 | an `Eviction` parameter gets the present eviction view; it fails with `ViewAbsent` when the cache has none |
| `CacheProvider.ExpirationParamQualifiers` | src/test/java/com/github/benmanes/caffeine/cache/testing/CacheProvider.java:75-83 | `@ExpireAfterAccess` is consulted first and wins over `@ExpireAfterWrite`; a selected view that is absent fails; without either annotation, binding fails with `MissingQualifier` whatever the cache supports |
| `CacheProvider.TickerParamGetsContextTicker` | src/test/java/com/github/benmanes/caffeine/cache/testing/CacheProvider.java:84-85 | a `Ticker` parameter gets the context's ticker |
| `CacheProvider.LoadingCacheParamNeedsLoadingCache` | src/test/java/com/github/benmanes/caffeine/cache/testing/CacheProvider.java:67-70 | a `LoadingCache` parameter binds the cache when the cache loads; otherwise no branch accepts it and it fails as an unknown type |
| `CacheProvider.NarrowerViewTypesUnresolvable` | src/test/java/com/github/benmanes/caffeine/cache/testing/CacheProvider.java:71-87 | `ConcurrentMap` and `FakeTicker` parameters accept no candidate class and fail as unknown types |
| `CacheProvider.UnrelatedParamUnresolvable` | src/test/java/com/github/benmanes/caffeine/cache/testing/CacheProvider.java:86-87 | a type unrelated to every candidate fails with an error naming that type |
| `CacheProvider.ContextAndMapExample` | src/test/java/com/github/benmanes/caffeine/cache/testing/CacheProvider.java:61-92 | parameters `(CacheContext, Map)` bind to `[context, cache.asMap()]` |
| `CacheProvider.ScanForLoadingCache` | src/test/java/com/github/benmanes/caffeine/cache/testing/CacheProvider.java:94-101 | the scan with early return answers exactly whether some declared parameter type is a subtype of `LoadingCache` |
| `CacheProvider.HasLoadingCacheExactly` | src/test/java/com/github/benmanes/caffeine/cache/testing/CacheProvider.java:94-101 | loading-only mode is requested exactly when some parameter is declared `LoadingCache` or the loading runtime class; `Cache` and `Object` parameters do not request it |
| `CacheProvider.LoadingOnlyScenariosBindLoadingCache` | src/test/java/com/github/benmanes/caffeine/cache/testing/CacheProvider.java:55-70 | a `LoadingCache` parameter turns loading-only mode on, and in a scenario with a loading cache it binds that cache |
| `CacheProvider.AsTestCases` | src/test/java/com/github/benmanes/caffeine/cache/testing/CacheProvider.java:61-64 | one test case per scenario: same length, same order, and test case `i` is the binding of scenario `i` |
| `CacheProvider.ProvidesCaches` | src/test/java/com/github/benmanes/caffeine/cache/testing/CacheProvider.java:51-58 | it fails with `MissingCacheSpec` exactly when `@CacheSpec` is missing, before any scenario is generated; otherwise the generator is called with the loading-only flag, and its scenarios are bound element by element, in order |
| `CacheProvider.ProvidedCasesWellShaped` | src/test/java/com/github/benmanes/caffeine/cache/testing/CacheProvider.java:51-66 | every produced test case has exactly as many arguments as the method declares parameters, each drawn from that test case's scenario |

## Left out

- Java reflection is not modelled. `Method`, `Parameter`, `getAnnotation` and `isAnnotationPresent` become fields of `TestMethod` and `Param`, and `isAssignableFrom` becomes `IsSubtype` over a closed set of types. Supertypes outside this set, such as `Serializable`, are collapsed into `Object`.
- The cache generator (`CacheGenerator` and how it builds scenarios from a `CacheSpec`) is not modelled. It is a parameter of `ProvidesCaches`: a function from the spec and the loading-only flag to a finite sequence of scenarios. Whether the generator honours the flag is not modelled.
- The concrete cache classes are not modelled. They appear only as two runtime-class tokens, one for caches with a loader and one for caches without.
- The laziness of `Iterators.transform` is not modelled, and neither is the `@DataProvider` wiring. The transform is a plain map over a finite sequence, and a scenario's error becomes that test case's value instead of being thrown while the test case is pulled.
- The caches, their `asMap()` and `advanced()` views and the ticker are opaque handles. Mutation through a view is not modelled.
- The exceptions (`NullPointerException` from `requireNonNull`, `NoSuchElementException` from `Optional.get()`, `AssertionError`) are not modelled as Java exceptions. Each becomes a `BindError` constructor, and the message text is not modelled.

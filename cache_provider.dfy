/**
  The test data provider: it checks the method's `@CacheSpec`, asks the generator for
  scenarios (loading caches only when a parameter needs one) and binds every scenario
  to an argument vector for the method's declared parameters.
 */
module CacheProvider {
  import opened Wrappers
  import opened JavaTypes
  import opened Scenarios

  // ---------------------------------------------------------------------------
  // Resolving one parameter slot
  // ---------------------------------------------------------------------------

  /** Unwraps an `Optional` view with `get()`, failing when the view is absent. */
  function GetView(o: Option<Handle>, view: View): (r: Result<Handle, BindError>)
    ensures r.Ok? <==> o.Some?
    ensures r.Ok? ==> o == Some(r.value)
    ensures r.Err? ==> r.error == ViewAbsent(view)
  {
    match o
    case Some(h) => Ok(h)
    case None => Err(ViewAbsent(view))
  }

  /** The argument for declared parameter `p` in scenario `s`: the first branch of the chain that accepts it. */
  function Resolve(p: Param, s: Scenario): (r: Result<Arg, BindError>)
    ensures r.Ok? ==> DrawnFrom(r.value, s)
    ensures r.Err? ==> r.error != MissingCacheSpec
  {
    if IsAssignableFrom(p.declared, CacheContextType) then
      Ok(ContextArg(s.context))
    else if IsAssignableFrom(p.declared, RuntimeClass(s.cache)) then
      Ok(CacheArg(s.cache))
    else if IsAssignableFrom(p.declared, MapType) then
      Ok(MapViewArg(s.cache))
    else if IsAssignableFrom(p.declared, EvictionType) then
      match GetView(s.cache.eviction, EvictionView)
      case Ok(h) => Ok(EvictionArg(h))
      case Err(e) => Err(e)
    else if IsAssignableFrom(p.declared, ExpirationType) then
      if p.expireAfterAccess then
        match GetView(s.cache.expireAfterAccess, ExpireAfterAccessView)
        case Ok(h) => Ok(AccessExpirationArg(h))
        case Err(e) => Err(e)
      else if p.expireAfterWrite then
        match GetView(s.cache.expireAfterWrite, ExpireAfterWriteView)
        case Ok(h) => Ok(WriteExpirationArg(h))
        case Err(e) => Err(e)
      else
        Err(MissingQualifier)
    else if IsAssignableFrom(p.declared, TickerType) then
      Ok(TickerArg(s.context.ticker))
    else
      Err(UnknownParameterType(p.declared))
  }

  // ---------------------------------------------------------------------------
  // The priority of the chain, stated independently of Resolve
  // ---------------------------------------------------------------------------

  /** The classes the chain tries, in order: context, cache, Map, Eviction, Expiration, Ticker. */
  function Candidates(s: Scenario): seq<TypeToken> {
    [CacheContextType, RuntimeClass(s.cache), MapType, EvictionType, ExpirationType, TickerType]
  }

  /** Index of the first class in `cs` that `declared` accepts, or `|cs|` when it accepts none. */
  function FirstAccepted(declared: TypeToken, cs: seq<TypeToken>): (k: nat)
    ensures k <= |cs|
    ensures k < |cs| ==> IsAssignableFrom(declared, cs[k])
    ensures forall j :: 0 <= j < k ==> !IsAssignableFrom(declared, cs[j])
  {
    if cs == [] then 0
    else if IsAssignableFrom(declared, cs[0]) then 0
    else 1 + FirstAccepted(declared, cs[1..])
  }

  /**
    Resolve takes the first branch whose class the declared type accepts: a bound argument
    comes from exactly that branch, a type accepting none fails naming itself, and the only
    other failures are the view and qualifier failures of the Eviction and Expiration branches.
   */
  lemma {:induction false} ResolveFollowsPriority(p: Param, s: Scenario)
    ensures var k := FirstAccepted(p.declared, Candidates(s));
      && (k == |Candidates(s)| <==> Resolve(p, s) == Err(UnknownParameterType(p.declared)))
      && (Resolve(p, s).Ok? ==> Rank(Resolve(p, s).value) == k)
      && (Resolve(p, s).Err? && k == 3 ==> Resolve(p, s).error == ViewAbsent(EvictionView))
      && (Resolve(p, s).Err? && k < |Candidates(s)| ==> k == 3 || k == 4)
  {
    var cs := Candidates(s);
    var k := FirstAccepted(p.declared, cs);
    var t := p.declared;
    if k == 0 {
      assert IsAssignableFrom(t, cs[0]);
    } else if k == 1 {
      assert !IsAssignableFrom(t, cs[0]) && IsAssignableFrom(t, cs[1]);
    } else if k == 2 {
      assert !IsAssignableFrom(t, cs[0]) && !IsAssignableFrom(t, cs[1]) && IsAssignableFrom(t, cs[2]);
    } else if k == 3 {
      assert !IsAssignableFrom(t, cs[0]) && !IsAssignableFrom(t, cs[1]) && !IsAssignableFrom(t, cs[2]);
      assert IsAssignableFrom(t, cs[3]);
    } else if k == 4 {
      assert !IsAssignableFrom(t, cs[0]) && !IsAssignableFrom(t, cs[1]) && !IsAssignableFrom(t, cs[2]);
      assert !IsAssignableFrom(t, cs[3]) && IsAssignableFrom(t, cs[4]);
    } else if k == 5 {
      assert !IsAssignableFrom(t, cs[0]) && !IsAssignableFrom(t, cs[1]) && !IsAssignableFrom(t, cs[2]);
      assert !IsAssignableFrom(t, cs[3]) && !IsAssignableFrom(t, cs[4]) && IsAssignableFrom(t, cs[5]);
    } else {
      assert !IsAssignableFrom(t, cs[0]) && !IsAssignableFrom(t, cs[1]) && !IsAssignableFrom(t, cs[2]);
      assert !IsAssignableFrom(t, cs[3]) && !IsAssignableFrom(t, cs[4]) && !IsAssignableFrom(t, cs[5]);
    }
  }

  // ---------------------------------------------------------------------------
  // Binding a whole argument vector
  // ---------------------------------------------------------------------------

  /**
    The argument vector for scenario `s`: slots are resolved left to right and the first
    failing slot's error is the result.
   */
  function BindArgs(ps: seq<Param>, s: Scenario): (r: Result<seq<Arg>, BindError>)
    ensures r.Ok? ==> |r.value| == |ps|
    decreases |ps|
  {
    if ps == [] then Ok([])
    else
      match BindArgs(ps[..|ps| - 1], s)
      case Err(e) => Err(e)
      case Ok(v) =>
        match Resolve(ps[|ps| - 1], s)
        case Err(e) => Err(e)
        case Ok(a) => Ok(v + [a])
  }

  /** A produced vector holds, in slot `i`, the resolution of parameter `i` alone. */
  lemma {:induction false} BoundSlotsResolve(ps: seq<Param>, s: Scenario)
    requires BindArgs(ps, s).Ok?
    ensures forall i :: 0 <= i < |ps| ==> Resolve(ps[i], s) == Ok(BindArgs(ps, s).value[i])
    decreases |ps|
  {
    if ps != [] {
      var n := |ps| - 1;
      var init := ps[..n];
      BoundSlotsResolve(init, s);
      var v := BindArgs(init, s).value;
      var a := Resolve(ps[n], s).value;
      assert BindArgs(ps, s).value == v + [a];
      forall i | 0 <= i < n
        ensures Resolve(ps[i], s) == Ok(BindArgs(ps, s).value[i])
      {
        assert init[i] == ps[i];
      }
    }
  }

  /** When every slot resolves, a vector is produced. */
  lemma {:induction false} AllSlotsResolveBinds(ps: seq<Param>, s: Scenario)
    requires forall i :: 0 <= i < |ps| ==> Resolve(ps[i], s).Ok?
    ensures BindArgs(ps, s).Ok?
    decreases |ps|
  {
    if ps != [] {
      var n := |ps| - 1;
      var init := ps[..n];
      assert forall i :: 0 <= i < n ==> init[i] == ps[i];
      AllSlotsResolveBinds(init, s);
    }
  }

  /** Slot `k` is the first slot of `ps` that cannot be bound in scenario `s`. */
  predicate FirstFailure(ps: seq<Param>, s: Scenario, k: nat) {
    k < |ps| && Resolve(ps[k], s).Err? && forall j :: 0 <= j < k ==> Resolve(ps[j], s).Ok?
  }

  /** A failed vector carries the error of its first failing slot. */
  lemma {:induction false} FailedBindNamesFirstFailure(ps: seq<Param>, s: Scenario)
    requires BindArgs(ps, s).Err?
    ensures exists k: nat :: FirstFailure(ps, s, k) && Resolve(ps[k], s) == Err(BindArgs(ps, s).error)
    decreases |ps|
  {
    var n := |ps| - 1;
    var init := ps[..n];
    var e := BindArgs(ps, s).error;
    if BindArgs(init, s).Err? {
      FailedBindNamesFirstFailure(init, s);
      var k: nat :| FirstFailure(init, s, k) && Resolve(init[k], s) == Err(e);
      assert init[k] == ps[k];
      assert forall j :: 0 <= j < k ==> init[j] == ps[j];
      assert FirstFailure(ps, s, k);
    } else {
      BoundSlotsResolve(init, s);
      assert forall j :: 0 <= j < n ==> init[j] == ps[j];
      assert Resolve(ps[n], s) == Err(e);
      assert FirstFailure(ps, s, n);
    }
  }

  /**
    A vector is produced exactly when every slot resolves, and then slot `i` is the resolution
    of parameter `i` alone; otherwise the error is that of the first slot that fails.
   */
  lemma BindArgsSlots(ps: seq<Param>, s: Scenario)
    ensures BindArgs(ps, s).Ok? <==> forall i :: 0 <= i < |ps| ==> Resolve(ps[i], s).Ok?
    ensures BindArgs(ps, s).Ok? ==>
      forall i :: 0 <= i < |ps| ==> BindArgs(ps, s).value[i] == Resolve(ps[i], s).value
    ensures BindArgs(ps, s).Err? ==>
      exists k: nat :: FirstFailure(ps, s, k) && Resolve(ps[k], s) == Err(BindArgs(ps, s).error)
  {
    if BindArgs(ps, s).Ok? {
      BoundSlotsResolve(ps, s);
    } else {
      FailedBindNamesFirstFailure(ps, s);
      if forall i :: 0 <= i < |ps| ==> Resolve(ps[i], s).Ok? {
        AllSlotsResolveBinds(ps, s);
      }
    }
  }

  /** When a prefix of the parameters already fails, the whole vector fails with the same error. */
  lemma {:induction false} BindArgsPrefixFails(ps: seq<Param>, k: nat, s: Scenario)
    requires k <= |ps|
    requires BindArgs(ps[..k], s).Err?
    ensures BindArgs(ps, s) == BindArgs(ps[..k], s)
    decreases |ps|
  {
    if k < |ps| {
      var n := |ps| - 1;
      assert ps[..n][..k] == ps[..k];
      BindArgsPrefixFails(ps[..n], k, s);
    } else {
      assert ps[..k] == ps;
    }
  }

  /**
    The binding lambda: allocates `params`, fills it slot by slot and throws at the first
    slot that cannot be bound.
   */
  method Bind(ps: seq<Param>, s: Scenario) returns (r: Result<seq<Arg>, BindError>)
    ensures r == BindArgs(ps, s)
  {
    var params := new Arg[|ps|];
    var i := 0;
    while i < params.Length
      invariant 0 <= i <= params.Length == |ps|
      invariant BindArgs(ps[..i], s) == Ok(params[..i])
    {
      var slot := Resolve(ps[i], s);
      if slot.Err? {
        assert ps[..i + 1][..i] == ps[..i];
        BindArgsPrefixFails(ps, i + 1, s);
        return Err(slot.error);
      }
      assert ps[..i + 1][..i] == ps[..i];
      params[i] := slot.value;
      assert params[..i + 1] == params[..i] + [slot.value];
      i := i + 1;
    }
    assert ps[..i] == ps && params[..i] == params[..];
    return Ok(params[..]);
  }

  // ---------------------------------------------------------------------------
  // Properties of the binder
  // ---------------------------------------------------------------------------

  /** Every bound slot holds the context, the cache or a present view of this very scenario. */
  lemma {:induction false} BoundArgsDrawnFromScenario(ps: seq<Param>, s: Scenario)
    requires BindArgs(ps, s).Ok?
    ensures forall i :: 0 <= i < |ps| ==> DrawnFrom(BindArgs(ps, s).value[i], s)
  {
    BindArgsSlots(ps, s);
  }

  /** The `asMap()` view and any cache slot of one vector are backed by the same cache instance. */
  lemma MapViewSharesCache(ps: seq<Param>, s: Scenario, i: nat, j: nat)
    requires BindArgs(ps, s).Ok?
    requires i < |ps| && j < |ps|
    requires BindArgs(ps, s).value[i].MapViewArg? && BindArgs(ps, s).value[j].CacheArg?
    ensures BindArgs(ps, s).value[i].owner == BindArgs(ps, s).value[j].cache == s.cache
  {
    BoundArgsDrawnFromScenario(ps, s);
  }

  /** Slot contents depend only on the declared parameter and the scenario, not on the other parameters. */
  lemma SlotDependsOnlyOnParam(ps: seq<Param>, qs: seq<Param>, s: Scenario, i: nat, j: nat)
    requires BindArgs(ps, s).Ok? && BindArgs(qs, s).Ok?
    requires i < |ps| && j < |qs| && ps[i] == qs[j]
    ensures BindArgs(ps, s).value[i] == BindArgs(qs, s).value[j]
  {
    BindArgsSlots(ps, s);
    BindArgsSlots(qs, s);
  }

  /**
    A failing slot fails the whole vector: no partial vector is returned, and the error is
    the first failing slot's. In particular a first failure on an unknown type names that type.
   */
  lemma FirstFailureFailsVector(ps: seq<Param>, s: Scenario, k: nat)
    requires k < |ps| && Resolve(ps[k], s).Err?
    requires forall j :: 0 <= j < k ==> Resolve(ps[j], s).Ok?
    ensures BindArgs(ps, s) == Err(Resolve(ps[k], s).error)
  {
    BindArgsSlots(ps, s);
    var e := BindArgs(ps, s).error;
    var k': nat :| FirstFailure(ps, s, k') && Resolve(ps[k'], s) == Err(e);
    assert !(k' < k) && !(k < k');
  }

  /** A type that accepts the context's class (such as `Object`) gets the context, though it would accept the cache too. */
  lemma ContextWinsOverCache(p: Param, s: Scenario)
    requires IsAssignableFrom(p.declared, CacheContextType)
    ensures p.declared == ObjectType ==> IsAssignableFrom(p.declared, RuntimeClass(s.cache))
    ensures Resolve(p, s) == Ok(ContextArg(s.context))
  {
  }

  /** A `Map` parameter gets the `asMap()` view of the scenario's own cache. */
  lemma MapParamGetsMapView(p: Param, s: Scenario)
    requires p.declared == MapType
    ensures Resolve(p, s) == Ok(MapViewArg(s.cache))
  {
  }

  /** An `Eviction` parameter gets the eviction view when present and fails rather than binding an empty one. */
  lemma EvictionParamUnwraps(p: Param, s: Scenario)
    requires p.declared == EvictionType
    ensures s.cache.eviction.Some? ==> Resolve(p, s) == Ok(EvictionArg(s.cache.eviction.value))
    ensures s.cache.eviction.None? ==> Resolve(p, s) == Err(ViewAbsent(EvictionView))
  {
  }

  /**
    An `Expiration` parameter is disambiguated by its annotations: `@ExpireAfterAccess` is
    consulted first and wins over `@ExpireAfterWrite`; without either, binding fails whatever
    the cache supports; a selected view that is absent fails rather than binding empty.
   */
  lemma ExpirationParamQualifiers(p: Param, s: Scenario)
    requires p.declared == ExpirationType
    ensures p.expireAfterAccess ==>
      Resolve(p, s) == (
        if s.cache.expireAfterAccess.Some? then Ok(AccessExpirationArg(s.cache.expireAfterAccess.value))
        else Err(ViewAbsent(ExpireAfterAccessView)))
    ensures !p.expireAfterAccess && p.expireAfterWrite ==>
      Resolve(p, s) == (
        if s.cache.expireAfterWrite.Some? then Ok(WriteExpirationArg(s.cache.expireAfterWrite.value))
        else Err(ViewAbsent(ExpireAfterWriteView)))
    ensures !p.expireAfterAccess && !p.expireAfterWrite ==> Resolve(p, s) == Err(MissingQualifier)
  {
  }

  /** A `Ticker` parameter gets the context's ticker. */
  lemma TickerParamGetsContextTicker(p: Param, s: Scenario)
    requires p.declared == TickerType
    ensures Resolve(p, s) == Ok(TickerArg(s.context.ticker))
  {
  }

  /** A `LoadingCache` parameter binds the cache only when the scenario's cache is a loading one; otherwise no branch accepts it. */
  lemma LoadingCacheParamNeedsLoadingCache(p: Param, s: Scenario)
    requires p.declared == LoadingCacheType
    ensures s.cache.loading ==> Resolve(p, s) == Ok(CacheArg(s.cache))
    ensures !s.cache.loading ==> Resolve(p, s) == Err(UnknownParameterType(LoadingCacheType))
  {
  }

  /**
    The checks compare against `Map.class` and `Ticker.class` themselves, so the narrower
    `ConcurrentMap` and `FakeTicker` declared types accept no candidate and fail as unknown.
   */
  lemma NarrowerViewTypesUnresolvable(p: Param, s: Scenario)
    requires p.declared == ConcurrentMapType || p.declared == FakeTickerType
    ensures Resolve(p, s) == Err(UnknownParameterType(p.declared))
  {
  }

  /** A type unrelated to every candidate fails, naming itself. */
  lemma UnrelatedParamUnresolvable(p: Param, s: Scenario)
    requires p.declared.Unrelated?
    ensures Resolve(p, s) == Err(UnknownParameterType(p.declared))
  {
  }

  /** Example: `(CacheContext, Map)` binds to the context and the cache's map view. */
  lemma ContextAndMapExample(s: Scenario)
    ensures BindArgs([Param(CacheContextType, false, false), Param(MapType, false, false)], s)
      == Ok([ContextArg(s.context), MapViewArg(s.cache)])
  {
    var ps := [Param(CacheContextType, false, false), Param(MapType, false, false)];
    var first := [ps[0]];
    assert ps[..1] == first && first[..0] == [];
    assert Resolve(ps[0], s) == Ok(ContextArg(s.context));
    assert [] + [ContextArg(s.context)] == [ContextArg(s.context)];
    assert BindArgs(first, s) == Ok([ContextArg(s.context)]);
    assert Resolve(ps[1], s) == Ok(MapViewArg(s.cache));
    assert [ContextArg(s.context)] + [MapViewArg(s.cache)] == [ContextArg(s.context), MapViewArg(s.cache)];
  }

  // ---------------------------------------------------------------------------
  // The loading-cache scan
  // ---------------------------------------------------------------------------

  /** Some declared parameter type is a `LoadingCache` (the check runs as `LoadingCache.class.isAssignableFrom(param)`). */
  predicate HasLoadingCache(ps: seq<Param>) {
    exists i :: 0 <= i < |ps| && IsAssignableFrom(LoadingCacheType, ps[i].declared)
  }

  /** `hasLoadingCache`: a scan over the declared types that returns at the first `LoadingCache` subtype. */
  method ScanForLoadingCache(ps: seq<Param>) returns (found: bool)
    ensures found == HasLoadingCache(ps)
  {
    for i := 0 to |ps|
      invariant forall j :: 0 <= j < i ==> !IsAssignableFrom(LoadingCacheType, ps[j].declared)
    {
      if IsAssignableFrom(LoadingCacheType, ps[i].declared) {
        return true;
      }
    }
    return false;
  }

  /**
    Only a parameter declared `LoadingCache` (or the loading runtime class) asks for loading
    caches: a `Cache` or `Object` parameter does not, although it accepts a loading cache.
   */
  lemma HasLoadingCacheExactly(ps: seq<Param>)
    ensures HasLoadingCache(ps) <==>
      exists i :: 0 <= i < |ps| && ps[i].declared in {LoadingCacheType, LoadingCacheClass}
  {
    forall i | 0 <= i < |ps| {
      SubtypesOfLoadingCache(ps[i].declared);
    }
  }

  /** When every scenario holds a loading cache, as the loading-only flag requests, `LoadingCache` slots bind. */
  lemma LoadingOnlyScenariosBindLoadingCache(ps: seq<Param>, s: Scenario, i: nat)
    requires i < |ps| && ps[i].declared == LoadingCacheType
    requires s.cache.loading
    ensures HasLoadingCache(ps)
    ensures Resolve(ps[i], s) == Ok(CacheArg(s.cache))
  {
    assert IsAssignableFrom(LoadingCacheType, ps[i].declared);
  }

  // ---------------------------------------------------------------------------
  // The data provider
  // ---------------------------------------------------------------------------

  /** `asTestCases`: the binder applied to each scenario in turn. */
  function AsTestCases(ps: seq<Param>, scenarios: seq<Scenario>): (cases: seq<Result<seq<Arg>, BindError>>)
    ensures |cases| == |scenarios|
    ensures forall i :: 0 <= i < |scenarios| ==> cases[i] == BindArgs(ps, scenarios[i])
  {
    if scenarios == [] then []
    else [BindArgs(ps, scenarios[0])] + AsTestCases(ps, scenarios[1..])
  }

  /**
    `providesCaches`: fails before generating anything when `@CacheSpec` is missing; otherwise
    the generator, told whether only loading caches are wanted, produces the scenarios and
    each becomes one test case, in order.
   */
  function ProvidesCaches(m: TestMethod, generate: (CacheSpec, bool) -> seq<Scenario>)
    : (r: Result<seq<Result<seq<Arg>, BindError>>, BindError>)
    ensures r.Err? <==> m.cacheSpec.None?
    ensures r.Err? ==> r.error == MissingCacheSpec
    ensures r.Ok? ==>
      var scenarios := generate(m.cacheSpec.value, HasLoadingCache(m.params));
      |r.value| == |scenarios| &&
      forall i :: 0 <= i < |scenarios| ==> r.value[i] == BindArgs(m.params, scenarios[i])
  {
    match m.cacheSpec
    case None => Err(MissingCacheSpec)
    case Some(spec) => Ok(AsTestCases(m.params, generate(spec, HasLoadingCache(m.params))))
  }

  /**
    Every test case produced for a method with a spec is a vector of exactly as many
    arguments as the method declares, each drawn from that test case's own scenario.
   */
  lemma ProvidedCasesWellShaped(m: TestMethod, generate: (CacheSpec, bool) -> seq<Scenario>, i: nat)
    requires ProvidesCaches(m, generate).Ok?
    requires i < |ProvidesCaches(m, generate).value|
    requires ProvidesCaches(m, generate).value[i].Ok?
    ensures var s := generate(m.cacheSpec.value, HasLoadingCache(m.params))[i];
      var v := ProvidesCaches(m, generate).value[i].value;
      |v| == |m.params| && forall j :: 0 <= j < |v| ==> DrawnFrom(v[j], s)
  {
    var s := generate(m.cacheSpec.value, HasLoadingCache(m.params))[i];
    BoundArgsDrawnFromScenario(m.params, s);
  }
}

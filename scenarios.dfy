/**
  The values the binder works on: a test method's declared parameters, one generated
  scenario (a `CacheContext` and a cache), the arguments it binds and the errors it raises.
  Objects are represented by opaque handles; only which handle is selected matters.
 */
module Scenarios {
  import opened Wrappers
  import opened JavaTypes

  /** Identity of a Java object. */
  type Handle = nat

  /** The scenario's context; `ticker` is the handle `ticker()` returns. */
  datatype CacheContext = CacheContext(id: Handle, ticker: Handle)

  /**
    A generated cache. `loading` selects its runtime class; the three options stand for
    `advanced().eviction()`, `advanced().expireAfterAccess()` and `advanced().expireAfterWrite()`.
   */
  datatype Cache = Cache(
    id: Handle,
    loading: bool,
    eviction: Option<Handle>,
    expireAfterAccess: Option<Handle>,
    expireAfterWrite: Option<Handle>)

  /** The runtime class of a generated cache, as `getClass()` reports it. */
  function RuntimeClass(c: Cache): (t: TypeToken)
    ensures IsSubtype(t, CacheType)
    ensures IsSubtype(t, LoadingCacheType) <==> c.loading
  {
    if c.loading then LoadingCacheClass else ManualCacheClass
  }

  /** One entry of the generator's output: the context and the cache built for it. */
  datatype Scenario = Scenario(context: CacheContext, cache: Cache)

  /** A declared test parameter: its type and whether it carries each expiration annotation. */
  datatype Param = Param(declared: TypeToken, expireAfterAccess: bool, expireAfterWrite: bool)

  /** The `@CacheSpec` annotation; its contents only matter to the generator. */
  datatype CacheSpec = CacheSpec(id: Handle)

  /** What reflection reveals about a test method. */
  datatype TestMethod = TestMethod(params: seq<Param>, cacheSpec: Option<CacheSpec>)

  /** The capability views that are unwrapped from an `Optional`. */
  datatype View = EvictionView | ExpireAfterAccessView | ExpireAfterWriteView

  /** One bound argument, labelled with the branch of the resolution chain that produced it. */
  datatype Arg =
    | ContextArg(context: CacheContext)
    | CacheArg(cache: Cache)
    | MapViewArg(owner: Cache)           // the `asMap()` view of `owner`
    | EvictionArg(eviction: Handle)
    | AccessExpirationArg(expiration: Handle)
    | WriteExpirationArg(expiration: Handle)
    | TickerArg(ticker: Handle)

  /** The failures of `providesCaches` and of the binding lambda. */
  datatype BindError =
    | MissingCacheSpec                       // requireNonNull on the @CacheSpec annotation
    | MissingQualifier                       // an Expiration parameter without a qualifier annotation
    | ViewAbsent(view: View)                 // Optional.get() on an empty view
    | UnknownParameterType(declared: TypeToken)

  /** `a` is the context, the cache, or a view of the cache or context of scenario `s`, never an empty one. */
  predicate DrawnFrom(a: Arg, s: Scenario) {
    match a
    case ContextArg(c) => c == s.context
    case CacheArg(c) => c == s.cache
    case MapViewArg(c) => c == s.cache
    case EvictionArg(h) => s.cache.eviction == Some(h)
    case AccessExpirationArg(h) => s.cache.expireAfterAccess == Some(h)
    case WriteExpirationArg(h) => s.cache.expireAfterWrite == Some(h)
    case TickerArg(h) => h == s.context.ticker
  }

  /** Position in the resolution chain of the branch that produced `a`. */
  function Rank(a: Arg): nat {
    match a
    case ContextArg(_) => 0
    case CacheArg(_) => 1
    case MapViewArg(_) => 2
    case EvictionArg(_) => 3
    case AccessExpirationArg(_) => 4
    case WriteExpirationArg(_) => 4
    case TickerArg(_) => 5
  }
}

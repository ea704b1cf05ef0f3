/**
  The closed set of Java types that the binder compares, and the subtype relation
  that `Class.isAssignableFrom` decides on them.
 */
module JavaTypes {
  import opened Wrappers

  datatype TypeToken =
    | ObjectType          // java.lang.Object
    | MapType             // java.util.Map
    | ConcurrentMapType   // java.util.concurrent.ConcurrentMap
    | CacheType           // Cache
    | LoadingCacheType    // LoadingCache
    | ManualCacheClass    // runtime class of a generated cache built without a loader
    | LoadingCacheClass   // runtime class of a generated loading cache
    | CacheContextType    // CacheContext (a final class)
    | EvictionType        // Advanced.Eviction
    | ExpirationType      // Advanced.Expiration
    | TickerType          // Ticker
    | FakeTickerType      // FakeTicker, the test ticker that implements Ticker
    | Unrelated(name: string)  // any other type a test may declare

  /** The nearest proper supertype of `t` other than `Object`, if any. */
  function Super(t: TypeToken): (p: Option<TypeToken>)
    ensures p.Some? ==> Depth(p.value) < Depth(t) && p.value != ObjectType
  {
    match t
    case ConcurrentMapType => Some(MapType)
    case LoadingCacheType => Some(CacheType)
    case ManualCacheClass => Some(CacheType)
    case LoadingCacheClass => Some(LoadingCacheType)
    case FakeTickerType => Some(TickerType)
    case _ => None
  }

  /** Distance from `Object` in the hierarchy; it makes `IsSubtype` well founded. */
  function Depth(t: TypeToken): nat {
    match t
    case ObjectType => 0
    case ConcurrentMapType => 2
    case LoadingCacheType => 2
    case ManualCacheClass => 2
    case LoadingCacheClass => 3
    case FakeTickerType => 2
    case _ => 1
  }

  /** `sub` is `sup`, or `sup` is `Object`, or `sub`'s supertype chain reaches `sup`. */
  predicate IsSubtype(sub: TypeToken, sup: TypeToken)
    decreases Depth(sub)
  {
    sub == sup || sup == ObjectType || (Super(sub).Some? && IsSubtype(Super(sub).value, sup))
  }

  /** Java's `target.isAssignableFrom(source)`: a value of class `source` fits a slot of type `target`. */
  predicate IsAssignableFrom(target: TypeToken, source: TypeToken) {
    IsSubtype(source, target)
  }

  /** Every type is a subtype of itself and of `Object`. */
  lemma SubtypeReflexive(t: TypeToken)
    ensures IsSubtype(t, t) && IsSubtype(t, ObjectType)
  {
  }

  /** A subtype sits at least as deep as its supertype, and strictly deeper unless they are the same type. */
  lemma {:induction false} SubtypeDepth(a: TypeToken, b: TypeToken)
    requires IsSubtype(a, b)
    ensures Depth(b) <= Depth(a)
    ensures Depth(b) == Depth(a) ==> a == b
    decreases Depth(a)
  {
    if a != b && b != ObjectType {
      SubtypeDepth(Super(a).value, b);
    }
  }

  /** The subtype relation is transitive. */
  lemma {:induction false} SubtypeTransitive(a: TypeToken, b: TypeToken, c: TypeToken)
    requires IsSubtype(a, b) && IsSubtype(b, c)
    ensures IsSubtype(a, c)
    decreases Depth(a)
  {
    if a != b && c != ObjectType {
      SubtypeTransitive(Super(a).value, b, c);
    }
  }

  /** The subtype relation is antisymmetric, so with the two lemmas above it is a partial order. */
  lemma SubtypeAntisymmetric(a: TypeToken, b: TypeToken)
    requires IsSubtype(a, b) && IsSubtype(b, a)
    ensures a == b
  {
    SubtypeDepth(a, b);
    SubtypeDepth(b, a);
  }

  /** The types a `LoadingCache` slot accepts are exactly `LoadingCache` and the loading cache's runtime class. */
  lemma SubtypesOfLoadingCache(t: TypeToken)
    ensures IsSubtype(t, LoadingCacheType) <==> t == LoadingCacheType || t == LoadingCacheClass
  {
  }
}

/** The `FetchPolicy` string enum and how `cache` reads the policy it is given. */
module FetchPolicy {
  import opened Wrappers

  datatype FetchPolicy = CacheAndNetwork | NetworkAndCache | NetworkOnly {
    /** The string each enum member stands for at run time. */
    function Wire(): (wire: string)
      ensures wire == "cache-and-network" <==> this == CacheAndNetwork
      ensures wire == "network-and-cache" <==> this == NetworkAndCache
      ensures wire == "network-only" <==> this == NetworkOnly
    {
      match this
      case CacheAndNetwork => "cache-and-network"
      case NetworkAndCache => "network-and-cache"
      case NetworkOnly => "network-only"
    }
  }

  /** The policy `cache` acts on. The caller may omit the option (None) or
      pass any string at all: a caller outside TypeScript's type checker is
      not held to the three enum values, and `cache` does not check. */
  function EffectivePolicy(fetchPolicy: Option<string>): (policy: string)
    ensures fetchPolicy.None? ==> policy == CacheAndNetwork.Wire()
    ensures fetchPolicy.Some? ==> policy == fetchPolicy.value
  {
    fetchPolicy.GetOr(CacheAndNetwork.Wire())
  }

  /** Whether `cache` looks the key up before calling the wrapped function. */
  predicate ConsultsStore(policy: string): (consults: bool)
    // the lookup happens for one string only, and that policy also writes
    ensures consults ==> policy == CacheAndNetwork.Wire() && PersistsResult(policy)
  {
    policy == CacheAndNetwork.Wire()
  }

  /** Whether `cache` writes the wrapped function's result to the store. */
  predicate PersistsResult(policy: string): (persists: bool)
    // every string but one writes, the enum's own strings included
    ensures !persists ==> policy == NetworkOnly.Wire()
    ensures CacheAndNetwork.Wire() != NetworkOnly.Wire() && NetworkAndCache.Wire() != NetworkOnly.Wire()
  {
    policy != NetworkOnly.Wire()
  }

  /** What each enum member asks for: only CacheAndNetwork reads first, and
      only NetworkOnly skips the write. */
  lemma PolicyTable(p: FetchPolicy)
    ensures ConsultsStore(p.Wire()) <==> p == CacheAndNetwork
    ensures PersistsResult(p.Wire()) <==> p != NetworkOnly
  {
  }

  /** A string that is none of the three members is not refused: it skips
      the lookup and persists, exactly as NetworkAndCache does. */
  lemma UnrecognisedPolicyActsAsNetworkAndCache(policy: string)
    requires forall p: FetchPolicy :: policy != p.Wire()
    ensures ConsultsStore(policy) == ConsultsStore(NetworkAndCache.Wire())
    ensures PersistsResult(policy) == PersistsResult(NetworkAndCache.Wire())
  {
    // the two tests compare with members the requires excludes
  }
}

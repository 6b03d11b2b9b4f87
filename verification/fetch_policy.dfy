/**
 * The `nextFetchPolicy` option of the client's `watchQuery` defaults in
 * src/index.jsx: after a query has run with a network-going policy, later
 * runs of that query read from the cache first.
 */
module FetchPolicy {

  /** The client's watch-query fetch policies. */
  datatype FetchPolicy = CacheFirst | NetworkOnly | CacheOnly | NoCache | Standby | CacheAndNetwork

  /** The string the client uses for each policy. */
  function Name(p: FetchPolicy): string
  {
    match p
    case CacheFirst => "cache-first"
    case NetworkOnly => "network-only"
    case CacheOnly => "cache-only"
    case NoCache => "no-cache"
    case Standby => "standby"
    case CacheAndNetwork => "cache-and-network"
  }

  /**
   * The policy for the next run, given the last one: "cache-and-network"
   * and "network-only" become "cache-first", every other policy is kept.
   * Policies are compared by name, as the source compares strings.
   */
  function NextFetchPolicy(last: FetchPolicy): (next: FetchPolicy)
    ensures next != CacheAndNetwork && next != NetworkOnly
    ensures next == last || next == CacheFirst
  {
    if Name(last) == "cache-and-network" || Name(last) == "network-only" then CacheFirst
    else last
  }

  /** The policy after `n` runs that started with policy `p`. */
  function PolicyAfter(p: FetchPolicy, n: nat): FetchPolicy
  {
    if n == 0 then p else NextFetchPolicy(PolicyAfter(p, n - 1))
  }

  /** Distinct policies have distinct names, so comparing names compares policies. */
  lemma NameInjective(p: FetchPolicy, q: FetchPolicy)
    ensures Name(p) == Name(q) <==> p == q
  {
    if p != q {
      assert |Name(p)| != |Name(q)|;
    }
  }

  /** Both network-going policies map to "cache-first". */
  lemma NetworkPoliciesBecomeCacheFirst()
    ensures NextFetchPolicy(CacheAndNetwork) == CacheFirst
    ensures NextFetchPolicy(NetworkOnly) == CacheFirst
  {
  }

  /** A policy is changed exactly when it is "cache-and-network" or "network-only"; all others pass through. */
  lemma NextFetchPolicyCases(last: FetchPolicy)
    ensures NextFetchPolicy(last) != last <==> last == CacheAndNetwork || last == NetworkOnly
    ensures last != CacheAndNetwork && last != NetworkOnly ==> NextFetchPolicy(last) == last
  {
    NameInjective(last, CacheAndNetwork);
    NameInjective(last, NetworkOnly);
  }

  /** Applying the mapping twice gives what applying it once gives. */
  lemma NextFetchPolicyIdempotent(p: FetchPolicy)
    ensures NextFetchPolicy(NextFetchPolicy(p)) == NextFetchPolicy(p)
  {
    NextFetchPolicyCases(NextFetchPolicy(p));
  }

  /** Applying the rule n >= 1 times in a row equals applying it once, from any starting policy. */
  lemma {:induction false} PolicySettlesAfterFirstRun(p: FetchPolicy, n: nat)
    requires n >= 1
    ensures PolicyAfter(p, n) == NextFetchPolicy(p)
  {
    if n > 1 {
      PolicySettlesAfterFirstRun(p, n - 1);
      NextFetchPolicyIdempotent(p);
    }
  }
}

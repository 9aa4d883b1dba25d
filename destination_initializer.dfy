/**
 * The per-request destination-selection step: filter the route's cluster's destinations
 * to the eligible ones and publish them, or answer 503 and publish nothing.
 */
module DestinationInitializer {
  import opened Wrappers
  import opened Clusters
  import opened RouteConfigs
  import opened ProxyFeatures

  const StatusOk := 200
  const StatusServiceUnavailable := 503

  /**
   * Whether a destination with this health may receive requests. With health checks
   * disabled every destination may; with them enabled a Healthy one may and an Unhealthy
   * one may not. Whether an Unknown one may under enabled checks is left open as
   * `unknownEligible`.
   */
  predicate IsEligible(healthCheckEnabled: bool, unknownEligible: bool, health: DestinationHealth)
    ensures !healthCheckEnabled && health == Healthy ==> IsEligible(healthCheckEnabled, unknownEligible, health)
    ensures healthCheckEnabled && health == Unhealthy ==> !IsEligible(healthCheckEnabled, unknownEligible, health)
  {
    match health
    case Healthy => true
    case Unhealthy => !healthCheckEnabled
    case Unknown => !healthCheckEnabled || unknownEligible
  }

  /** The eligible destinations of `dests`, in their enumeration order. */
  function Available(healthCheckEnabled: bool, unknownEligible: bool, dests: seq<Destination>): (r: seq<Destination>)
    reads dests
    ensures |r| <= |dests|
    ensures forall d :: d in r ==> d in dests && IsEligible(healthCheckEnabled, unknownEligible, d.dynamicState.health)
  {
    if dests == [] then
      []
    else
      var rest := Available(healthCheckEnabled, unknownEligible, dests[1..]);
      if IsEligible(healthCheckEnabled, unknownEligible, dests[0].dynamicState.health) then [dests[0]] + rest else rest
  }

  /** Filtering a concatenation filters each part and keeps their order. */
  lemma {:induction false} AvailableAppend(healthCheckEnabled: bool, unknownEligible: bool, a: seq<Destination>, b: seq<Destination>)
    ensures Available(healthCheckEnabled, unknownEligible, a + b) ==
            Available(healthCheckEnabled, unknownEligible, a) + Available(healthCheckEnabled, unknownEligible, b)
  {
    if a == [] {
      assert a + b == b;
    } else {
      assert (a + b)[1..] == a[1..] + b;
      AvailableAppend(healthCheckEnabled, unknownEligible, a[1..], b);
    }
  }

  /** Appending one destination appends it to the result exactly when it is eligible. */
  lemma AvailableSnoc(healthCheckEnabled: bool, unknownEligible: bool, dests: seq<Destination>, d: Destination)
    ensures Available(healthCheckEnabled, unknownEligible, dests + [d]) ==
            Available(healthCheckEnabled, unknownEligible, dests) +
            (if IsEligible(healthCheckEnabled, unknownEligible, d.dynamicState.health) then [d] else [])
  {
    AvailableAppend(healthCheckEnabled, unknownEligible, dests, [d]);
    AvailableSingleton(healthCheckEnabled, unknownEligible, d);
  }

  /** A single destination is available exactly when it is eligible. */
  lemma AvailableSingleton(healthCheckEnabled: bool, unknownEligible: bool, d: Destination)
    ensures Available(healthCheckEnabled, unknownEligible, [d]) ==
            (if IsEligible(healthCheckEnabled, unknownEligible, d.dynamicState.health) then [d] else [])
  {
    assert [d][1..] == [];
    assert Available(healthCheckEnabled, unknownEligible, []) == [];
  }

  /** Every eligible destination of `dests` is available: the filter drops only ineligible ones. */
  lemma {:induction false} AvailableComplete(healthCheckEnabled: bool, unknownEligible: bool, dests: seq<Destination>, d: Destination)
    requires d in dests && IsEligible(healthCheckEnabled, unknownEligible, d.dynamicState.health)
    ensures d in Available(healthCheckEnabled, unknownEligible, dests)
  {
    if d != dests[0] {
      AvailableComplete(healthCheckEnabled, unknownEligible, dests[1..], d);
    }
  }

  /** When every destination is eligible (in particular with health checks disabled) nothing is dropped. */
  lemma {:induction false} AvailableAllEligible(healthCheckEnabled: bool, unknownEligible: bool, dests: seq<Destination>)
    requires forall i :: 0 <= i < |dests| ==> IsEligible(healthCheckEnabled, unknownEligible, dests[i].dynamicState.health)
    ensures Available(healthCheckEnabled, unknownEligible, dests) == dests
  {
    if dests != [] {
      AvailableAllEligible(healthCheckEnabled, unknownEligible, dests[1..]);
    }
  }

  /** With health checks disabled the whole snapshot is available, whatever the reported health. */
  lemma {:induction false} AvailableWhenChecksDisabled(unknownEligible: bool, dests: seq<Destination>)
    ensures Available(false, unknownEligible, dests) == dests
  {
    AvailableAllEligible(false, unknownEligible, dests);
  }

  /** With health checks enabled, Healthy destinations are available and Unhealthy ones never are. */
  lemma {:induction false} AvailableWhenChecksEnabled(unknownEligible: bool, dests: seq<Destination>, d: Destination)
    requires d in dests
    ensures d.dynamicState.health == Healthy ==> d in Available(true, unknownEligible, dests)
    ensures d.dynamicState.health == Unhealthy ==> d !in Available(true, unknownEligible, dests)
  {
    if d.dynamicState.health == Healthy {
      AvailableComplete(true, unknownEligible, dests, d);
    }
  }

  /** Nothing is available exactly when no destination is eligible: the condition for a 503. */
  lemma {:induction false} AvailableEmptyIff(healthCheckEnabled: bool, unknownEligible: bool, dests: seq<Destination>)
    ensures Available(healthCheckEnabled, unknownEligible, dests) == [] <==>
            forall d :: d in dests ==> !IsEligible(healthCheckEnabled, unknownEligible, d.dynamicState.health)
  {
    if Available(healthCheckEnabled, unknownEligible, dests) == [] {
      forall d | d in dests
        ensures !IsEligible(healthCheckEnabled, unknownEligible, d.dynamicState.health)
      {
        if IsEligible(healthCheckEnabled, unknownEligible, d.dynamicState.health) {
          AvailableComplete(healthCheckEnabled, unknownEligible, dests, d);
        }
      }
    } else {
      var first := Available(healthCheckEnabled, unknownEligible, dests)[0];
      assert first in Available(healthCheckEnabled, unknownEligible, dests);
    }
  }

  /** The destinations of `cluster` that are eligible under its current configuration. */
  ghost function AvailableOf(cluster: ClusterInfo, unknownEligible: bool): seq<Destination>
    reads cluster, cluster.destinationManager, cluster.destinationManager.items
  {
    Available(cluster.config.healthCheckEnabled, unknownEligible, cluster.destinationManager.items)
  }

  /** Walks the cluster's current destination snapshot once, collecting the eligible ones in order. */
  method SelectAvailable(cluster: ClusterInfo, unknownEligible: bool) returns (available: seq<Destination>)
    ensures available == Available(cluster.config.healthCheckEnabled, unknownEligible, cluster.destinationManager.items)
  {
    var enabled := cluster.config.healthCheckEnabled;
    var items := cluster.destinationManager.items;
    available := [];
    var i := 0;
    while i < |items|
      invariant 0 <= i <= |items|
      invariant available == Available(enabled, unknownEligible, items[..i])
    {
      var d := items[i];
      assert items[..i + 1] == items[..i] + [d];
      AvailableSnoc(enabled, unknownEligible, items[..i], d);
      if IsEligible(enabled, unknownEligible, d.dynamicState.health) {
        available := available + [d];
      }
      i := i + 1;
    }
    assert items[..i] == items;
  }

  /** The request context: the features set on it and the response status. */
  class HttpContext {
    var proxyFeature: ReverseProxyFeature?
    var clusterFeature: ClusterInfo?
    var statusCode: int

    constructor ()
      ensures proxyFeature == null && clusterFeature == null && statusCode == StatusOk
    {
      proxyFeature := null;
      clusterFeature := null;
      statusCode := StatusOk;
    }

    /**
     * The selection step for a request matched to `route`. When an eligible destination
     * exists it publishes a new feature holding the route, the cluster's current config
     * object and exactly the eligible destinations (the same references, in order), sets
     * the cluster feature and leaves the status alone. Otherwise it sets the status to 503
     * and publishes nothing.
     */
    method Invoke(route: RouteConfig, unknownEligible: bool)
      requires route.cluster != null
      modifies this
      ensures AvailableOf(route.cluster, unknownEligible) == [] ==>
                statusCode == StatusServiceUnavailable &&
                proxyFeature == old(proxyFeature) && clusterFeature == old(clusterFeature)
      ensures AvailableOf(route.cluster, unknownEligible) != [] ==>
                statusCode == old(statusCode) && clusterFeature == route.cluster &&
                proxyFeature != null && fresh(proxyFeature) &&
                proxyFeature.routeConfig == Some(route) &&
                proxyFeature.clusterConfig == route.cluster.config &&
                proxyFeature.availableDestinations == Some(AvailableOf(route.cluster, unknownEligible))
    {
      var cluster := route.cluster;
      var available := SelectAvailable(cluster, unknownEligible);
      if available == [] {
        statusCode := StatusServiceUnavailable;
        return;
      }
      var feature := new ReverseProxyFeature();
      feature.SetRouteConfig(Some(route));
      feature.SetClusterConfig(cluster.config);
      feature.SetAvailableDestinations(Some(available));
      clusterFeature := cluster;
      proxyFeature := feature;
    }
  }
}

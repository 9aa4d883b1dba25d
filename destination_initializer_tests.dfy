/**
 * The two middleware test scenarios as client methods: each builds the cluster, destination
 * and route the test builds, runs the selection step and returns what the test asserts.
 * `unknownEligible` is left to the caller, so each holds however Unknown health is treated.
 */
module DestinationInitializerScenarios {
  import opened Wrappers
  import opened DestinationConfigs
  import opened Clusters
  import opened RouteConfigs
  import opened DestinationInitializer

  /**
   * Health checks at their default (disabled), one Healthy destination: a feature is
   * published with exactly that destination object and the cluster's config object, and
   * the status stays 200.
   */
  method InvokeSetsFeatures(unknownEligible: bool)
    returns (published: bool, count: nat, sameDestination: bool, sameClusterConfig: bool, statusCode: int)
    ensures published && count == 1 && sameDestination && sameClusterConfig && statusCode == 200
  {
    var manager := new DestinationManager();
    var clusterConfig := new ClusterConfig("cluster1", false);
    var cluster1 := new ClusterInfo("cluster1", manager, clusterConfig);
    var destinationConfig := DestinationConfigs.Create(Some("destination1"), Some("https://localhost:123/a/b/"));
    var destination1 := manager.GetOrCreateItem("destination1", destinationConfig.value, DestinationDynamicState(Healthy));
    var routeConfig := RouteConfigs.Create(Some("route1"), 0, None, cluster1, Some([]), None);
    var context := new HttpContext();

    assert [destination1][1..] == [];
    context.Invoke(routeConfig.value, unknownEligible);

    var feature := context.proxyFeature;
    published := feature != null && feature.availableDestinations.Some?;
    var available := feature.availableDestinations.value;
    count := |available|;
    sameDestination := available[0] == destination1;
    sameClusterConfig := feature.clusterConfig == cluster1.config;
    statusCode := context.statusCode;
  }

  /**
   * Health checks enabled, one Unhealthy destination: the status becomes 503 and neither
   * the proxy feature nor the cluster feature is published.
   */
  method InvokeNoHealthyEndpoints503(unknownEligible: bool)
    returns (noProxyFeature: bool, noClusterFeature: bool, statusCode: int)
    ensures noProxyFeature && noClusterFeature && statusCode == 503
  {
    var manager := new DestinationManager();
    var clusterConfig := new ClusterConfig("cluster1", true);
    var cluster1 := new ClusterInfo("cluster1", manager, clusterConfig);
    var destinationConfig := DestinationConfigs.Create(Some("destination1"), Some("https://localhost:123/a/b/"));
    var destination1 := manager.GetOrCreateItem("destination1", destinationConfig.value, DestinationDynamicState(Unhealthy));
    var routeConfig := RouteConfigs.Create(Some("route1"), 0, None, cluster1, Some([]), None);
    var context := new HttpContext();

    assert [destination1][1..] == [];
    context.Invoke(routeConfig.value, unknownEligible);

    noProxyFeature := context.proxyFeature == null;
    noClusterFeature := context.clusterFeature == null;
    statusCode := context.statusCode;
  }
}

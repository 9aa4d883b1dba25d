/** The request-scoped record the selection step publishes for the forwarding stage. */
module ProxyFeatures {
  import opened Wrappers
  import opened Clusters
  import opened RouteConfigs

  /**
   * Three independent settable properties, all null (`None` / `null`) on a fresh instance.
   * `clusterConfig` stands for the `Value` of the cluster-config view the source stores.
   * `availableDestinations` is replaced as a whole list by its setter.
   */
  class ReverseProxyFeature {
    var routeConfig: Option<RouteConfig>
    var clusterConfig: ClusterConfig?
    var availableDestinations: Option<seq<Destination>>

    constructor ()
      ensures routeConfig == None && clusterConfig == null && availableDestinations == None
    {
      routeConfig := None;
      clusterConfig := null;
      availableDestinations := None;
    }

    method SetRouteConfig(value: Option<RouteConfig>)
      modifies this
      ensures routeConfig == value
      ensures clusterConfig == old(clusterConfig) && availableDestinations == old(availableDestinations)
    {
      routeConfig := value;
    }

    method SetClusterConfig(value: ClusterConfig?)
      modifies this
      ensures clusterConfig == value
      ensures routeConfig == old(routeConfig) && availableDestinations == old(availableDestinations)
    {
      clusterConfig := value;
    }

    method SetAvailableDestinations(value: Option<seq<Destination>>)
      modifies this
      ensures availableDestinations == value
      ensures routeConfig == old(routeConfig) && clusterConfig == old(clusterConfig)
    {
      availableDestinations := value;
    }
  }
}

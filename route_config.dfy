/** The immutable runtime view of a route and its cheap change-detection rule. */
module RouteConfigs {
  import opened Wrappers
  import opened Errors
  import opened Clusters

  /** A framework endpoint; nothing about it is inspected here. */
  type Endpoint

  /** Request and response transforms; nothing about them is inspected here. */
  type Transforms

  /**
   * A route's configuration. `cluster` is a reference that may be null (the cluster
   * config may be missing); `priority` and `transforms` may be null too.
   * Being a value, no field can change: a changed route is a new instance.
   */
  datatype RouteConfig = RouteConfig(
    routeId: Option<string>,
    configHash: int,
    priority: Option<int>,
    cluster: ClusterInfo?,
    endpoints: seq<Endpoint>,
    transforms: Option<Transforms>)
  {
    /**
     * Whether a route rebuilt from a new definition with hash `newConfigHash`, bound to
     * `cluster`, would differ from this one: the cluster reference differs or the hash does.
     */
    predicate HasConfigChanged(newConfigHash: int, cluster: ClusterInfo?)
      ensures !HasConfigChanged(newConfigHash, cluster) <==>
              Create(routeId, newConfigHash, priority, cluster, Some(endpoints), transforms) == Success(this)
    {
      this.cluster != cluster || configHash != newConfigHash
    }
  }

  /**
   * The constructor: a null (`None`) endpoint list is refused with an
   * `ArgumentNullException` for `aspNetCoreEndpoints`; every other argument is stored
   * unchecked.
   */
  function Create(
    routeId: Option<string>,
    configHash: int,
    priority: Option<int>,
    cluster: ClusterInfo?,
    endpoints: Option<seq<Endpoint>>,
    transforms: Option<Transforms>): (r: Result<RouteConfig, ArgumentError>)
    ensures r.Success? <==> endpoints.Some?
    ensures r.Failure? ==> r.error == ArgumentNull("aspNetCoreEndpoints")
    ensures r.Success? ==>
              r.value.routeId == routeId && r.value.configHash == configHash &&
              r.value.priority == priority && r.value.cluster == cluster &&
              Some(r.value.endpoints) == endpoints && r.value.transforms == transforms
  {
    if endpoints.None? then
      Failure(ArgumentNull("aspNetCoreEndpoints"))
    else
      Success(RouteConfig(routeId, configHash, priority, cluster, endpoints.value, transforms))
  }

  /** A different cluster reference is a change, whatever the hash. */
  lemma ChangedWhenClusterDiffers(rc: RouteConfig, newConfigHash: int, cluster: ClusterInfo?)
    requires cluster != rc.cluster
    ensures rc.HasConfigChanged(newConfigHash, cluster)
  {
  }

  /** A different hash is a change, whatever the cluster. */
  lemma ChangedWhenHashDiffers(rc: RouteConfig, newConfigHash: int, cluster: ClusterInfo?)
    requires newConfigHash != rc.configHash
    ensures rc.HasConfigChanged(newConfigHash, cluster)
  {
  }

  /** No change exactly when the cluster reference and the hash are both the same; two null clusters are the same. */
  lemma UnchangedIff(rc: RouteConfig, newConfigHash: int, cluster: ClusterInfo?)
    ensures !rc.HasConfigChanged(newConfigHash, cluster) <==> cluster == rc.cluster && newConfigHash == rc.configHash
  {
  }

  /** A route built from a definition and a cluster reports no change against that same definition and cluster. */
  lemma RebuiltRouteUnchanged(
    routeId: Option<string>, configHash: int, priority: Option<int>, cluster: ClusterInfo?,
    endpoints: Option<seq<Endpoint>>, transforms: Option<Transforms>)
    requires endpoints.Some?
    ensures Create(routeId, configHash, priority, cluster, endpoints, transforms).Success?
    ensures !Create(routeId, configHash, priority, cluster, endpoints, transforms).value.HasConfigChanged(configHash, cluster)
  {
  }
}

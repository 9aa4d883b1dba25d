/**
 * The runtime entities the selection step reads: destinations with their health, the
 * per-cluster destination manager, the cluster's configuration and the cluster itself.
 * Their sources are not part of this model; each is reduced to what the middleware tests use.
 */
module Clusters {
  import opened DestinationConfigs

  /** A destination's health as reported by health checks; `Unknown` before any probe. */
  datatype DestinationHealth = Unknown | Healthy | Unhealthy

  /** The immutable snapshot held by a destination's dynamic-state signal. */
  datatype DestinationDynamicState = DestinationDynamicState(health: DestinationHealth)

  /**
   * A long-lived destination entity, addressed by reference. `config` and `dynamicState`
   * are the current values of its two signals.
   */
  class Destination {
    const destinationId: string
    var config: ValidDestinationConfig
    var dynamicState: DestinationDynamicState

    constructor (destinationId: string, config: ValidDestinationConfig, dynamicState: DestinationDynamicState)
      ensures this.destinationId == destinationId
      ensures this.config == config && this.dynamicState == dynamicState
    {
      this.destinationId := destinationId;
      this.config := config;
      this.dynamicState := dynamicState;
    }
  }

  /** The destinations of one cluster, in enumeration order, at most one per id. */
  class DestinationManager {
    var items: seq<Destination>

    ghost predicate Valid()
      reads this
    {
      forall i, j :: 0 <= i < j < |items| ==> items[i].destinationId != items[j].destinationId
    }

    /** True when a destination with this id is managed. */
    ghost predicate Contains(id: string)
      reads this
    {
      exists i :: 0 <= i < |items| && items[i].destinationId == id
    }

    constructor ()
      ensures Valid() && items == []
    {
      items := [];
    }

    /**
     * Returns the destination with id `id`, unchanged, when there is one. Otherwise creates
     * it, runs the initializer on it (modelled by the config and dynamic state the
     * initializer publishes), appends it and returns it.
     */
    method GetOrCreateItem(id: string, config: ValidDestinationConfig, dynamicState: DestinationDynamicState)
      returns (d: Destination)
      requires Valid()
      modifies this
      ensures Valid()
      ensures d.destinationId == id && d in items
      ensures old(Contains(id)) ==> items == old(items) && unchanged(d)
      ensures !old(Contains(id)) ==>
                fresh(d) && items == old(items) + [d] && d.config == config && d.dynamicState == dynamicState
    {
      var i := 0;
      while i < |items|
        invariant 0 <= i <= |items|
        invariant forall k :: 0 <= k < i ==> items[k].destinationId != id
      {
        if items[i].destinationId == id {
          return items[i];
        }
        i := i + 1;
      }
      d := new Destination(id, config, dynamicState);
      items := items + [d];
    }
  }

  /**
   * A cluster's configuration, reduced to whether active health checks are enabled.
   * It is immutable and shared by reference, so "the same object" is meaningful.
   */
  class ClusterConfig {
    const clusterId: string
    const healthCheckEnabled: bool

    constructor (clusterId: string, healthCheckEnabled: bool)
      ensures this.clusterId == clusterId && this.healthCheckEnabled == healthCheckEnabled
    {
      this.clusterId := clusterId;
      this.healthCheckEnabled := healthCheckEnabled;
    }
  }

  /** A cluster: its id, its destination manager and the current value of its config signal. */
  class ClusterInfo {
    const clusterId: string
    const destinationManager: DestinationManager
    var config: ClusterConfig

    constructor (clusterId: string, destinationManager: DestinationManager, config: ClusterConfig)
      ensures this.clusterId == clusterId && this.destinationManager == destinationManager
      ensures this.config == config
    {
      this.clusterId := clusterId;
      this.destinationManager := destinationManager;
      this.config := config;
    }
  }
}

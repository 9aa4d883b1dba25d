# Reverse proxy runtime model: destination selection

A Dafny model of the value layer and the per-request destination-selection step of a
reverse proxy's runtime model:

- `DestinationConfig` (module `DestinationConfigs`): an immutable destination value whose
  constructor refuses a null or empty address. Null references are `None`. The thrown
  `ArgumentNullException` is a `Failure(ArgumentNull(...))`.
- `RouteConfig` (module `RouteConfigs`): an immutable route value. Its constructor refuses a
  null endpoint list. It holds a possibly-null reference to its `ClusterInfo`.
  `HasConfigChanged` reports whether the cluster reference or the config hash differs.
- `ReverseProxyFeature` (module `ProxyFeatures`): the request-scoped record with three
  settable properties, all null when fresh.
- The selection step (module `DestinationInitializer`). `HttpContext.Invoke` filters the
  route's cluster's destinations to the eligible ones. If any are eligible, it publishes a
  new feature holding the route, the cluster's current config object and exactly those
  destinations, in enumeration order and by reference. Otherwise it sets status 503 and
  publishes nothing. `SelectAvailable` is the filtering loop, proved equal to the pure
  filter `Available`. The lemmas about `Available` state completeness, order and the
  503 condition.
- The collaborators the step reads (module `Clusters`): `Destination`, `DestinationManager`
  with `GetOrCreateItem`, `ClusterConfig` and `ClusterInfo`. They are classes, so
  "the same object" can be stated.
- The two middleware tests (module `DestinationInitializerScenarios`): each is a client
  method that builds the test's objects, runs `Invoke` and returns what the test asserts.

Eligibility rule (`DestinationInitializer.IsEligible`):
- With health checks disabled, every destination is eligible.
- With health checks enabled, a Healthy destination is eligible and an Unhealthy one is not.
- Whether an Unknown destination is eligible under enabled checks is the parameter
  `unknownEligible`. The tests do not decide it.
- The tests fix two cases: Healthy with checks off is eligible, Unhealthy with checks on is
  not. The other cases are the selection policy stated above.

The constructor does not check the destination id, so `DestinationConfigs.Create` stores
any id, null included. The model's `ValidDestinationConfig` type carries the non-empty-address
invariant, and destinations hold only values of that type.

Inputs the model takes as parameters:
- The new route definition's config hash is an opaque `int`.
- Endpoints and transforms are opaque types.
- The initializer passed to `GetOrCreateItem` is modelled as the configuration and dynamic
  state it publishes.

## Model

| member | source | states |
|---|---|---|
| `DestinationConfigs.Create` | src/ReverseProxy/Service/RuntimeModel/DestinationConfig.cs:21-30 | construction succeeds exactly when the address is present and non-empty; then the instance is of the valid type (non-empty address) and holds both arguments unchanged; otherwise it fails with an argument-null error for `address` |
| `DestinationConfigs.CreateRejectsNullAddress` | src/ReverseProxy/Service/RuntimeModel/DestinationConfig.cs:23-26 | a null address fails, for every id |
| `DestinationConfigs.CreateRejectsEmptyAddress` | src/ReverseProxy/Service/RuntimeModel/DestinationConfig.cs:23-26 | an empty address fails the same way as a null one |
| `DestinationConfigs.CreateRoundTrip` | src/ReverseProxy/Service/RuntimeModel/DestinationConfig.cs:28-35 | every valid configuration is rebuilt exactly from its own `DestinationId` and `Address` getters |
| `DestinationConfigs.CreateInjective` | src/ReverseProxy/Service/RuntimeModel/DestinationConfig.cs:15-35 | two successful constructions give the same instance exactly when their arguments are the same, so changing a value means building another instance |
| `RouteConfigs.Create` | src/ReverseProxy/Service/RuntimeModel/RouteConfig.cs:24-39 | construction succeeds exactly when the endpoint list is non-null; the other arguments (null priority, cluster and transforms included) are stored verbatim; otherwise it fails with an argument-null error for `aspNetCoreEndpoints` |
| `RouteConfigs.RouteConfig.HasConfigChanged` | src/ReverseProxy/Service/RuntimeModel/RouteConfig.cs:54-58 | no change is reported exactly when constructing a route from this route's other fields with the new hash and the given cluster gives back this very route |
| `RouteConfigs.ChangedWhenClusterDiffers` | src/ReverseProxy/Service/RuntimeModel/RouteConfig.cs:56 | a different cluster reference is a change, whatever the hash |
| `RouteConfigs.ChangedWhenHashDiffers` | src/ReverseProxy/Service/RuntimeModel/RouteConfig.cs:57 | a different config hash is a change, whatever the cluster |
| `RouteConfigs.UnchangedIff` | src/ReverseProxy/Service/RuntimeModel/RouteConfig.cs:54-58 | no change exactly when the cluster reference and the hash are both equal; two null clusters count as equal |
| `RouteConfigs.RebuiltRouteUnchanged` | src/ReverseProxy/Service/RuntimeModel/RouteConfig.cs:32-58 | a route built from a hash and a cluster reports no change when checked against that same hash and cluster |
| `ProxyFeatures.ReverseProxyFeature.constructor` | src/ReverseProxy/Middleware/ReverseProxyFeature.cs:11-24 | a fresh feature has all three properties null |
| `ProxyFeatures.ReverseProxyFeature.SetRouteConfig` | src/ReverseProxy/Middleware/ReverseProxyFeature.cs:13 | the route config reads back as the value set; the other two properties are unchanged |
| `ProxyFeatures.ReverseProxyFeature.SetClusterConfig` | src/ReverseProxy/Middleware/ReverseProxyFeature.cs:18 | the cluster config reads back as the value set; the other two properties are unchanged |
| `ProxyFeatures.ReverseProxyFeature.SetAvailableDestinations` | src/ReverseProxy/Middleware/ReverseProxyFeature.cs:23 | the destination list reads back as the whole list set; the other two properties are unchanged |
| `Clusters.Destination.constructor` | test/ReverseProxy.Tests/Middleware/DestinationInitializerMiddlewareTests.cs:43-46 | a new destination holds its id and the config and dynamic state its initializer publishes |
| `Clusters.DestinationManager.constructor` | test/ReverseProxy.Tests/Middleware/DestinationInitializerMiddlewareTests.cs:38 | a new manager is empty |
| `Clusters.DestinationManager.GetOrCreateItem` | test/ReverseProxy.Tests/Middleware/DestinationInitializerMiddlewareTests.cs:41-47 | returns the managed destination with that id, unchanged, when there is one; otherwise appends a fresh, initialized one and returns it; ids stay unique |
| `Clusters.ClusterConfig.constructor` | test/ReverseProxy.Tests/Middleware/DestinationInitializerMiddlewareTests.cs:84-88 | a cluster config holds its id and its health-check-enabled flag |
| `Clusters.ClusterInfo.constructor` | test/ReverseProxy.Tests/Middleware/DestinationInitializerMiddlewareTests.cs:36-40 | a cluster holds its id, its destination manager and its current config object |
| `DestinationInitializer.IsEligible` | test/ReverseProxy.Tests/Middleware/DestinationInitializerMiddlewareTests.cs:40-95 | the two cases the tests fix: a Healthy destination is eligible with health checks off (:40-47), an Unhealthy one is not with them on (:84-95); the remaining cases are the selection policy, with Unknown under enabled checks left open |
| `DestinationInitializer.Available` | test/ReverseProxy.Tests/Middleware/DestinationInitializerMiddlewareTests.cs:64-70 | the result is no longer than the snapshot, and every available destination is one of the snapshot's and is eligible |
| `DestinationInitializer.AvailableComplete` | test/ReverseProxy.Tests/Middleware/DestinationInitializerMiddlewareTests.cs:64-70 | every eligible destination of the snapshot is available |
| `DestinationInitializer.AvailableAppend` | test/ReverseProxy.Tests/Middleware/DestinationInitializerMiddlewareTests.cs:69-70 | filtering keeps enumeration order: the filter of a concatenation is the concatenation of the filters |
| `DestinationInitializer.AvailableSnoc` | test/ReverseProxy.Tests/Middleware/DestinationInitializerMiddlewareTests.cs:69-70 | appending one destination to the snapshot appends it to the result exactly when it is eligible |
| `DestinationInitializer.AvailableSingleton` | test/ReverseProxy.Tests/Middleware/DestinationInitializerMiddlewareTests.cs:69-70 | a one-destination snapshot yields that destination exactly when it is eligible |
| `DestinationInitializer.AvailableAllEligible` | test/ReverseProxy.Tests/Middleware/DestinationInitializerMiddlewareTests.cs:64-70 | when every destination is eligible, the result is the whole snapshot, same references, same order |
| `DestinationInitializer.AvailableWhenChecksDisabled` | test/ReverseProxy.Tests/Middleware/DestinationInitializerMiddlewareTests.cs:40-70 | with health checks disabled, the result is the whole snapshot whatever the reported health; beyond the Healthy case the test exercises, this rests on the selection policy that checks off make every destination eligible |
| `DestinationInitializer.AvailableWhenChecksEnabled` | test/ReverseProxy.Tests/Middleware/DestinationInitializerMiddlewareTests.cs:84-120 | with health checks enabled, a Healthy destination is available and an Unhealthy one never is |
| `DestinationInitializer.AvailableEmptyIff` | test/ReverseProxy.Tests/Middleware/DestinationInitializerMiddlewareTests.cs:112-120 | nothing is available exactly when no destination is eligible, which is the 503 condition |
| `DestinationInitializer.SelectAvailable` | test/ReverseProxy.Tests/Middleware/DestinationInitializerMiddlewareTests.cs:64-70 | the loop over the cluster's current snapshot returns exactly `Available` of it |
| `DestinationInitializer.HttpContext.constructor` | test/ReverseProxy.Tests/Middleware/DestinationInitializerMiddlewareTests.cs:59-60 | a new context has no features and status 200 |
| `DestinationInitializer.HttpContext.Invoke` | test/ReverseProxy.Tests/Middleware/DestinationInitializerMiddlewareTests.cs:62-120 | with no eligible destination: status 503 and both feature slots untouched; otherwise: a fresh feature with the route, the cluster's current config object and exactly the eligible destinations, the cluster feature set, and the status untouched |
| `DestinationInitializerScenarios.InvokeSetsFeatures` | test/ReverseProxy.Tests/Middleware/DestinationInitializerMiddlewareTests.cs:32-74 | default health checks and one Healthy destination: a feature is published with one entry, that entry is the created destination object, the config is the cluster's own object, and the status is 200 |
| `DestinationInitializerScenarios.InvokeNoHealthyEndpoints503` | test/ReverseProxy.Tests/Middleware/DestinationInitializerMiddlewareTests.cs:76-121 | enabled health checks and one Unhealthy destination: status 503, no proxy feature and no cluster feature |

## Left out

- `HttpContext.Invoke`: requires the route to have a cluster. What the middleware does for a route without a cluster is outside this model, so that path is not modelled.
- `DestinationInitializer.IsEligible`: whether an Unknown destination is eligible under enabled health checks is the open parameter `unknownEligible`, not a decided rule.
- `HttpContext.Invoke`: setting the cluster feature and the feature's route config on success is inferred. The tests assert only their absence on the 503 path.
- The middleware's own source, `ClusterInfo`, `DestinationManager`, `ClusterConfig`, `ConfigSignal` and `DestinationDynamicState` are not part of this model. They are reduced to what the tests use.
- A signal is modelled as a plain field holding its current value. A cluster's config is given to its constructor rather than published afterwards.
- `ClusterConfig` keeps only the health-check-enabled flag. Its timeouts, thresholds, policy, load-balancing options and session-affinity options do not affect the modelled behaviour.
- The cluster-config view the feature stores (an `IClusterConfig`) is reduced to its `Value`: the `ClusterConfig` object.
- The read-only interface view `IReverseProxyFeature`, where only `AvailableDestinations` is settable, is not modelled, because interfaces would need traits. The class has all three setters, as the source class does.
- `BeginProxyRequest`, `EndProxyRequest` and `PendingRequestCount` are interface declarations whose point is concurrent counting; they are not modelled.
- Concurrency, atomic publication and thread safety are not modelled. Immutability is captured by modelling the configurations as datatypes.
- `AffinityResult` is a two-field carrier with no logic; session affinity is not modelled.
- `ProxyRoute.GetConfigHash()` is external; the new hash is an `int` parameter.
- Endpoint metadata, routing and the request delegate are not modelled. The route is a direct input to `Invoke`. The test's endpoint list, which is filled after the route is built, is given as an empty list.
- `DestinationManager.GetOrCreateItem`: the at-most-one-initializer guarantee under concurrent callers is not modelled; the sequential method keeps ids unique.

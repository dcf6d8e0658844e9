# Nginx operator reconciler

A Dafny model of the converge step of a Kubernetes operator that runs nginx
for an `NginxOperator` custom resource. For each resource the reconciler
keeps two dependent objects in the resource's namespace: a Deployment and
a Service named `nginx-service`.

- **Reconcile** always writes the Deployment, stamped with the resource's
  replica count and namespace. It then reads `nginx-service`. It writes the
  Service only if the Service is missing or its first node port differs from
  the resource's port. The written Service is the template with its first
  owner reference naming the resource (name and uid) and its first port
  carrying the resource's node port. Reconcile returns "no update".
- **Cleanup** deletes every Deployment in the namespace, then `nginx-service`.

The cluster is a store of two maps keyed by (namespace, name), behind a fake
client (`ClusterState.Cluster`). That client also logs every write request,
so a skipped write can be told apart from a write that changed nothing. The
reconciler (`Operator.NginxOperatorReconciler`) is a class that holds the
client. Its `Reconcile` and `Cleanup` methods follow the source step by step:
they load a template, call setters, then call createOrReplace, get or delete.
Each method is proved equal to a pure pass in module `Converge`: `Plan` and
`Reconciled` for Reconcile, `CleanupRequests` and `Cleaned` for Cleanup. The
properties are lemmas about those passes in module `ReconcileProperties`.

The source calls `get(0)` on the existing Service's ports and then `.equals`
on that port's node port. When the existing Service has no ports, or its
first node port is null, the source throws after the Deployment has already
been written. The model keeps this error path. `Plan` ends such a pass with
`Threw(IndexOutOfBounds)` or `Threw(NullPointer)`, and its write list holds
only the Deployment write. `ReadableServicesNeverThrow` shows that a cluster
whose Services all have a readable first node port never reaches this path.
It also shows that both passes keep the cluster in that state.

Files: `objects.dfy` (the objects and the two templates), `cluster.dfy` (the
store, write requests, the client class), `converge.dfy` (the pure passes),
`properties.dfy` (the lemmas), `reconciler.dfy` (the reconciler class),
`scenarios.dfy` (concrete runs in namespace `ns1`).

Three behaviours of the code that are easy to misread:

- Cleanup deletes all Deployments in the namespace, not only the operator's
  own. The call at line 71 has no name, so it deletes namespace-wide.
  `TornDown` states this.
- Client errors are not turned into a retry result. The code does not catch
  them (see Left out).
- The Service's own namespace field is never set. The Service is written
  through `inNamespace(namespace)`, so the model stores it under the
  resource's namespace and leaves the field as the template has it.

## Model

| member | source | states |
|---|---|---|
| `ClusterState.Apply` | src/main/java/wilda/fr/NginxOperatorReconciler.java:50-73 | A createOrReplace stores the object under (request namespace, object name), keeps every other object of its kind, adds no other object and leaves the other kind untouched. Deleting the Deployments of a namespace leaves none there and keeps the Services. Deleting a Service leaves its key absent, keeps every other object and adds none. No write changes any other namespace. |
| `ClusterState.ApplyAllStaysInside` | src/main/java/wilda/fr/NginxOperatorReconciler.java:50-73 | A sequence of writes all sent through `inNamespace(ns)` leaves every other namespace exactly as it was. Proved by induction on the sequence. |
| `ClusterState.Cluster.GetService` | src/main/java/wilda/fr/NginxOperatorReconciler.java:54-55 | The lookup returns the stored Service when (namespace, name) is present, and null otherwise. |
| `ClusterState.Cluster.CreateOrReplaceDeployment` | src/main/java/wilda/fr/NginxOperatorReconciler.java:50 | The store becomes the old store with the Deployment put under its key, and the write is appended to the log. |
| `ClusterState.Cluster.CreateOrReplaceService` | src/main/java/wilda/fr/NginxOperatorReconciler.java:61 | The store becomes the old store with the Service put under its key, and the write is appended to the log. |
| `ClusterState.Cluster.DeleteAllDeployments` | src/main/java/wilda/fr/NginxOperatorReconciler.java:71 | Every Deployment of the namespace is removed, and the delete is appended to the log. |
| `ClusterState.Cluster.DeleteServiceNamed` | src/main/java/wilda/fr/NginxOperatorReconciler.java:72-73 | The named Service is removed, or nothing changes if it was absent. The delete is appended to the log. |
| `Converge.StampDeployment` | src/main/java/wilda/fr/NginxOperatorReconciler.java:44-47 | The Deployment has replicas = spec.replicaCount and namespace = the resource namespace. Every other field is the template's. |
| `Converge.StampService` | src/main/java/wilda/fr/NginxOperatorReconciler.java:53-60 | The first owner reference has the resource's name and uid, with its other fields kept. The first port's nodePort is spec.port. The lists keep the template's length and later entries, so nothing is appended. |
| `Converge.Plan` | src/main/java/wilda/fr/NginxOperatorReconciler.java:38-64 | Every pass sends the Deployment write first. At most one more write follows, the stamped Service, and only on a pass that returns. A pass never returns anything but NoUpdate. All writes stay in the resource's namespace. |
| `Converge.Reconciled` | src/main/java/wilda/fr/NginxOperatorReconciler.java:44-61 | After a pass, the resource's Deployment is the stamped template, whatever was there before, and every other Deployment is kept. The Services are unchanged when only the Deployment was written. Otherwise they are the old ones with nginx-service replaced by the stamped Service, and every other Service is kept. Other namespaces are unchanged. |
| `Converge.Cleaned` | src/main/java/wilda/fr/NginxOperatorReconciler.java:71-73 | After cleanup, the namespace has no Deployment at all: the Deployments are exactly the old ones outside the namespace. The Services are exactly the old ones minus nginx-service, so other Services of the namespace survive. Other namespaces are unchanged. |
| `ReconcileProperties.ServiceWrittenIff` | src/main/java/wilda/fr/NginxOperatorReconciler.java:54-62 | A Service write is sent if and only if nginx-service is missing or its first nodePort is set and differs from spec.port. The pass throws if and only if the existing Service has no first port or a null nodePort. |
| `ReconcileProperties.MatchingServiceKept` | src/main/java/wilda/fr/NginxOperatorReconciler.java:56-62 | When nginx-service already has nodePort = spec.port, only the Deployment write is sent. The Services are left exactly as they were, even if owned by another resource. |
| `ReconcileProperties.WrittenServiceOwned` | src/main/java/wilda/fr/NginxOperatorReconciler.java:58-61 | When the Service is written, the Services become the old ones with nginx-service replaced, and nothing else changes. The stored Service has owner name = resource name, owner uid = resource uid, nodePort = spec.port, and the template's owner-list length. |
| `ReconcileProperties.ReconcileConverges` | src/main/java/wilda/fr/NginxOperatorReconciler.java:44-62 | A pass that does not throw leaves the stamped Deployment and an nginx-service whose first nodePort is spec.port. |
| `ReconcileProperties.ConvergedIsFixpoint` | src/main/java/wilda/fr/NginxOperatorReconciler.java:44-62 | On a converged cluster, a pass sends only the identical Deployment write, returns NoUpdate and leaves the store unchanged. |
| `ReconcileProperties.ReconcileIdempotent` | src/main/java/wilda/fr/NginxOperatorReconciler.java:44-64 | Two passes give the same store as one. The second pass sends no Service write and ends the same way as the first. |
| `ReconcileProperties.ReconcileRepeated` | src/main/java/wilda/fr/NginxOperatorReconciler.java:38-65 | Any positive number of passes with the same resource gives the store that one pass gives. |
| `ReconcileProperties.ReadableServicesNeverThrow` | src/main/java/wilda/fr/NginxOperatorReconciler.java:56-61 | If every stored Service has a first port with a nodePort, the pass returns NoUpdate. Both Reconcile and Cleanup keep that shape. |
| `ReconcileProperties.TornDownIsFixpoint` | src/main/java/wilda/fr/NginxOperatorReconciler.java:71-73 | Cleanup of a namespace with no Deployment and no nginx-service changes nothing. Deleting absent objects is not an error. |
| `ReconcileProperties.CleanupIdempotent` | src/main/java/wilda/fr/NginxOperatorReconciler.java:71-73 | A second cleanup is a no-op. |
| `ReconcileProperties.CleanupRepeated` | src/main/java/wilda/fr/NginxOperatorReconciler.java:68-76 | Any positive number of cleanups gives the store that one cleanup gives. |
| `ReconcileProperties.CleanupErasesReconcile` | src/main/java/wilda/fr/NginxOperatorReconciler.java:44-73 | Cleanup after a reconcile gives the same store as cleanup alone. Cleanup does not depend on an earlier reconcile having run or finished. |
| `ReconcileProperties.SharedNamespaceRewrites` | src/main/java/wilda/fr/NginxOperatorReconciler.java:54-61 | Two resources in one namespace share nginx-service. When their ports differ, a pass of one after a pass of the other rewrites the Service. |
| `Operator.NginxOperatorReconciler.constructor` | src/main/java/wilda/fr/NginxOperatorReconciler.java:24-26 | The reconciler keeps the client it is given. |
| `Operator.NginxOperatorReconciler.Reconcile` | src/main/java/wilda/fr/NginxOperatorReconciler.java:38-65 | The new store is `Reconciled` of the old one. Exactly `Plan`'s writes are appended to the client log. The result is `Plan`'s outcome. |
| `Operator.NginxOperatorReconciler.Cleanup` | src/main/java/wilda/fr/NginxOperatorReconciler.java:68-76 | The new store is `Cleaned` of the old one. Exactly the two deletes are logged. The result is the default delete directive. |
| `Scenarios.FirstReconcileCreatesBoth` | src/main/java/wilda/fr/NginxOperatorReconciler.java:44-61 | On an empty cluster, the first pass for ns1/3 replicas/port 30080 creates a Deployment with 3 replicas and a Service on 30080 owned by the resource. |
| `Scenarios.SecondReconcileWritesNoService` | src/main/java/wilda/fr/NginxOperatorReconciler.java:54-62 | Reconciling the same resource again sends only the Deployment write and changes nothing. |
| `Scenarios.PortChangeRewritesService` | src/main/java/wilda/fr/NginxOperatorReconciler.java:54-61 | After the port changes to 30090, the next pass sends exactly one Service write, and the Service ends up on 30090. |
| `Scenarios.CleanupTwiceSucceeds` | src/main/java/wilda/fr/NginxOperatorReconciler.java:71-73 | Cleanup removes both objects from ns1. A second cleanup finds nothing to change. |

## Left out

- `prepareEventSources` (lines 29-35) is left out. It is the operator framework's event plumbing: a watch on labelled Services and an owner-reference mapper.
- `loadYaml` (lines 84-90) reads classpath files and parses YAML. The two templates are constants in `KubeObjects` instead. The YAML files are not part of this model, so every template value except the presence of one port and one owner reference is a placeholder. The code fixes only the literal `nginx-service` used for the lookup (line 55) and the delete (line 72); the model also gives the Service template that name, so `ConvergedIsFixpoint`, the no-second-Service-write clause of `ReconcileIdempotent`, and cleanup removing the written Service rely on the YAML naming its Service `nginx-service`. Because of this, the load failure (`IllegalStateException`, line 88) cannot happen in the model.
- The network behind the client is left out. Transient failures, conflicts and exceptions from `createOrReplace`, `get` and `delete` are not modelled. Each call always succeeds, as a map lookup, update or removal.
- The API server's own behaviour is left out: server-side defaulting, resource versions, owner-reference garbage collection, and the client's namespace-mismatch check.
- The console logging (lines 30, 39, 69) is left out.
- The framework's `Reconciler.super.cleanup` (line 75) is not part of this model. It is represented by the constant directive `DefaultDelete`, and finalizer handling is not modelled.
- Per-key serialization, retries and backoff are left out. They belong to the operator framework. Two resources in one namespace are modelled only through `SharedNamespaceRewrites`.
- Integer width is not modelled. `replicaCount`, `port` and `nodePort` are unbounded integers. The reconciler only copies and compares them, so 32-bit range plays no part. The boxed-Integer `.equals` is modelled as value equality with a possibly-null node port. This assumes `spec.port` is an integer, because `NginxOperatorSpec` is not part of this model.
- A null `spec`, null metadata fields, or a null ports list are not modelled. Only an empty ports list and a null node port are, because those are the shapes the drift rule's `get(0)` and `.equals` can meet on a Service stored in the cluster.

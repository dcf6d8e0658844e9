/**
 * The converge step of the Nginx operator as pure functions of the observed
 * store: which writes one reconcile pass sends and what it returns, which
 * writes a cleanup sends, and the store each of them leaves. The properties
 * of these passes are lemmas in module ReconcileProperties.
 */
module Converge {
  import opened KubeObjects
  import opened ClusterState

  /** The directive a reconcile returns to the operator framework. */
  datatype UpdateControl = NoUpdate | UpdateResource | UpdateStatus | RescheduleAfter(delayMillis: nat)

  /** The directive a cleanup returns to the operator framework. */
  datatype DeleteControl = DefaultDelete | NoFinalizerRemoval

  /** The runtime exceptions the reconciler can raise on a malformed Service. */
  datatype JavaException = IndexOutOfBounds | NullPointer

  /** How a reconcile call ends: it returns a directive, or it throws. */
  datatype Outcome = Returned(control: UpdateControl) | Threw(exception: JavaException)

  /** One reconcile pass: the writes it sends, in order, and how it ends. */
  datatype Pass = Pass(requests: seq<Request>, outcome: Outcome)

  /** Where the reconciler's Deployment lives in namespace `ns`. */
  function DeploymentKey(ns: string): Key
  {
    Key(ns, DeploymentTemplate.metadata.name)
  }

  /** Where the reconciler's Service lives in namespace `ns`. */
  function ServiceKey(ns: string): Key
  {
    Key(ns, ServiceName)
  }

  /**
   * The Deployment built from template `t` for resource `res`: the replica
   * count and the namespace come from the resource, everything else from `t`.
   */
  function StampDeployment(t: Deployment, res: NginxOperator): (d: Deployment)
    ensures d.spec.replicas == res.spec.replicaCount
    ensures d.metadata.namespace == Some(res.metadata.namespace)
    ensures d.spec.(replicas := t.spec.replicas) == t.spec
    ensures d.metadata.(namespace := t.metadata.namespace) == t.metadata
  {
    t.(spec := t.spec.(replicas := res.spec.replicaCount),
       metadata := t.metadata.(namespace := Some(res.metadata.namespace)))
  }

  /**
   * The Service built from template `t` for resource `res`: the template's
   * first owner reference now names the resource (name and uid), its first
   * port carries the resource's node port, and nothing is added or removed.
   */
  function StampService(t: Service, res: NginxOperator): (v: Service)
    requires |t.metadata.ownerReferences| > 0 && |t.spec.ports| > 0
    ensures |v.metadata.ownerReferences| == |t.metadata.ownerReferences|
    ensures v.metadata.ownerReferences[0].name == res.metadata.name
    ensures v.metadata.ownerReferences[0].uid == res.metadata.uid
    ensures v.metadata.ownerReferences[0].(name := t.metadata.ownerReferences[0].name,
                                           uid := t.metadata.ownerReferences[0].uid)
            == t.metadata.ownerReferences[0]
    ensures v.metadata.ownerReferences[1..] == t.metadata.ownerReferences[1..]
    ensures |v.spec.ports| == |t.spec.ports|
    ensures v.spec.ports[0].nodePort == Some(res.spec.port)
    ensures v.spec.ports[0].(nodePort := t.spec.ports[0].nodePort) == t.spec.ports[0]
    ensures v.spec.ports[1..] == t.spec.ports[1..]
    ensures v.metadata.(ownerReferences := t.metadata.ownerReferences) == t.metadata
    ensures v.spec.(ports := t.spec.ports) == t.spec
  {
    var owners := t.metadata.ownerReferences;
    var ports := t.spec.ports;
    t.(metadata := t.metadata.(ownerReferences := owners[0 := owners[0].(name := res.metadata.name, uid := res.metadata.uid)]),
       spec := t.spec.(ports := ports[0 := ports[0].(nodePort := Some(res.spec.port))]))
  }

  /** The Deployment write every reconcile of `res` sends. */
  function DeploymentWrite(res: NginxOperator): Request
  {
    ReplaceDeployment(res.metadata.namespace, StampDeployment(DeploymentTemplate, res))
  }

  /** The Service write a reconcile of `res` sends when the drift rule fires. */
  function ServiceWrite(res: NginxOperator): Request
  {
    ReplaceService(res.metadata.namespace, StampService(ServiceTemplate, res))
  }

  /**
   * One reconcile pass over store `s`: write the Deployment, then read
   * nginx-service in the resource's namespace and write the Service only when
   * it is absent or its first node port differs from the resource's port. An
   * existing Service without ports, or whose first node port is null, makes
   * the pass throw after the Deployment write.
   */
  function Plan(s: Store, res: NginxOperator): (p: Pass)
    ensures 1 <= |p.requests| <= 2
    ensures p.requests[0] == DeploymentWrite(res)
    ensures |p.requests| == 2 ==> p.requests[1] == ServiceWrite(res) && p.outcome == Returned(NoUpdate)
    ensures AllIn(p.requests, res.metadata.namespace)
    ensures p.outcome.Returned? ==> p.outcome.control == NoUpdate
  {
    var deploy := DeploymentWrite(res);
    var existing := LookupService(Apply(s, deploy), res.metadata.namespace, ServiceName);
    match existing
    case None => Pass([deploy, ServiceWrite(res)], Returned(NoUpdate))
    case Some(v) =>
      if |v.spec.ports| == 0 then Pass([deploy], Threw(IndexOutOfBounds))
      else match v.spec.ports[0].nodePort
        case None => Pass([deploy], Threw(NullPointer))
        case Some(nodePort) =>
          if nodePort != res.spec.port then Pass([deploy, ServiceWrite(res)], Returned(NoUpdate))
          else Pass([deploy], Returned(NoUpdate))
  }

  /**
   * The store after one reconcile pass of `res`: the resource's Deployment is
   * the stamped one, nginx-service is the stamped one exactly when the pass
   * wrote it, and every other object, in the namespace or outside it, is kept.
   */
  function Reconciled(s: Store, res: NginxOperator): (t: Store)
    // The first two clauses follow from the third; they are kept for callers.
    ensures DeploymentKey(res.metadata.namespace) in t.deployments
    ensures t.deployments[DeploymentKey(res.metadata.namespace)] == StampDeployment(DeploymentTemplate, res)
    ensures t.deployments == s.deployments[DeploymentKey(res.metadata.namespace) := StampDeployment(DeploymentTemplate, res)]
    ensures |Plan(s, res).requests| == 1 ==> t.services == s.services
    ensures |Plan(s, res).requests| == 2 ==>
      t.services == s.services[ServiceKey(res.metadata.namespace) := StampService(ServiceTemplate, res)]
    ensures AgreeOutside(s, t, res.metadata.namespace)
  {
    var p := Plan(s, res);
    var deploy := p.requests[0];
    ApplyAllOne(s, deploy);
    ApplyAllTwo(s, deploy, ServiceWrite(res));
    assert p.requests == [deploy] || p.requests == [deploy, ServiceWrite(res)];
    ApplyAllStaysInside(s, p.requests, res.metadata.namespace);
    ApplyAll(s, p.requests)
  }

  /** The writes cleanup sends for `res`: every Deployment of the namespace, then nginx-service. */
  function CleanupRequests(res: NginxOperator): seq<Request>
  {
    [DeleteDeployments(res.metadata.namespace), DeleteService(res.metadata.namespace, ServiceName)]
  }

  /** No Deployment at all and no nginx-service left in namespace `ns`. */
  predicate TornDown(s: Store, ns: string)
  {
    (forall k :: k in s.deployments ==> k.namespace != ns) && ServiceKey(ns) !in s.services
  }

  /**
   * The store after cleanup of `res`: every Deployment of the namespace is
   * gone, of the namespace's Services only nginx-service is gone, and other
   * namespaces are kept.
   */
  function Cleaned(s: Store, res: NginxOperator): (t: Store)
    ensures TornDown(t, res.metadata.namespace)
    ensures t.deployments == Outside(s.deployments, res.metadata.namespace)
    ensures t.services == s.services - {ServiceKey(res.metadata.namespace)}
    ensures AgreeOutside(s, t, res.metadata.namespace)
  {
    var qs := CleanupRequests(res);
    assert AllIn(qs, res.metadata.namespace);
    ApplyAllTwo(s, qs[0], qs[1]);
    ApplyAllStaysInside(s, qs, res.metadata.namespace);
    ApplyAll(s, qs)
  }
}

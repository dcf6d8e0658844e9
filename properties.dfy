/**
 * What one reconcile pass and one cleanup promise about the cluster: the
 * drift rule, ownership stamping, staying inside the resource's namespace,
 * convergence, idempotence of repeated passes, and complete teardown.
 */
module ReconcileProperties {
  import opened KubeObjects
  import opened ClusterState
  import opened Converge

  /** Some write of `qs` is a Service write. */
  predicate WritesService(qs: seq<Request>)
  {
    exists q :: q in qs && q.ReplaceService?
  }

  /** `v` has a first port whose node port is set: the shape the drift rule reads. */
  predicate PortReadable(v: Service)
  {
    |v.spec.ports| > 0 && v.spec.ports[0].nodePort.Some?
  }

  /** `v`'s first port carries node port `port`. */
  predicate HasNodePort(v: Service, port: int)
  {
    |v.spec.ports| > 0 && v.spec.ports[0].nodePort == Some(port)
  }

  /** Every stored Service has the shape the drift rule reads. */
  predicate ServicesReadable(s: Store)
  {
    forall k :: k in s.services ==> PortReadable(s.services[k])
  }

  /**
   * The state the drift rule aims at for `res`: its Deployment as stamped from
   * the template, and an nginx-service whose first node port is the resource's.
   */
  predicate Converged(s: Store, res: NginxOperator)
  {
    var ns := res.metadata.namespace;
    DeploymentKey(ns) in s.deployments &&
    s.deployments[DeploymentKey(ns)] == StampDeployment(DeploymentTemplate, res) &&
    ServiceKey(ns) in s.services &&
    HasNodePort(s.services[ServiceKey(ns)], res.spec.port)
  }

  /**
   * The drift rule: the Service is written exactly when nginx-service is
   * missing from the namespace or its first node port differs from the
   * resource's; the pass throws exactly when the existing one has no first
   * port or a null node port there.
   */
  lemma ServiceWrittenIff(s: Store, res: NginxOperator)
    ensures var k := ServiceKey(res.metadata.namespace);
      WritesService(Plan(s, res).requests) <==>
        k !in s.services || (PortReadable(s.services[k]) && !HasNodePort(s.services[k], res.spec.port))
    ensures var k := ServiceKey(res.metadata.namespace);
      Plan(s, res).outcome.Threw? <==> k in s.services && !PortReadable(s.services[k])
  {}

  /** When nginx-service already carries the resource's node port, no Service write is sent and the Services are left exactly as they were. */
  lemma MatchingServiceKept(s: Store, res: NginxOperator)
    requires ServiceKey(res.metadata.namespace) in s.services
    requires HasNodePort(s.services[ServiceKey(res.metadata.namespace)], res.spec.port)
    ensures Plan(s, res) == Pass([DeploymentWrite(res)], Returned(NoUpdate))
    ensures Reconciled(s, res).services == s.services
  {}

  /**
   * A Service write stores the template stamped for `res`: its first owner
   * reference names the resource, its first node port is the resource's, and
   * its owner-reference list keeps the template's length. Every other Service,
   * in the namespace or outside it, is kept.
   */
  lemma WrittenServiceOwned(s: Store, res: NginxOperator)
    requires WritesService(Plan(s, res).requests)
    ensures var t := Reconciled(s, res); var k := ServiceKey(res.metadata.namespace);
      t.services == s.services[k := StampService(ServiceTemplate, res)] &&
      k in t.services &&
      t.services[k] == StampService(ServiceTemplate, res) &&
      t.services[k].metadata.ownerReferences[0].name == res.metadata.name &&
      t.services[k].metadata.ownerReferences[0].uid == res.metadata.uid &&
      |t.services[k].metadata.ownerReferences| == |ServiceTemplate.metadata.ownerReferences| &&
      t.services[k].spec.ports[0].nodePort == Some(res.spec.port)
  {}

  /** A pass that does not throw leaves the cluster converged for `res`. */
  lemma ReconcileConverges(s: Store, res: NginxOperator)
    requires Plan(s, res).outcome.Returned?
    ensures Converged(Reconciled(s, res), res)
  {}

  /** On a converged cluster a pass writes only the identical Deployment and changes nothing. */
  lemma ConvergedIsFixpoint(s: Store, res: NginxOperator)
    requires Converged(s, res)
    ensures Plan(s, res) == Pass([DeploymentWrite(res)], Returned(NoUpdate))
    ensures Reconciled(s, res) == s
  {}

  /**
   * Reconciling twice with the same resource leaves the cluster as reconciling
   * once; the second pass sends no Service write and ends as the first did.
   */
  lemma ReconcileIdempotent(s: Store, res: NginxOperator)
    ensures Reconciled(Reconciled(s, res), res) == Reconciled(s, res)
    ensures !WritesService(Plan(Reconciled(s, res), res).requests)
    ensures Plan(Reconciled(s, res), res).outcome == Plan(s, res).outcome
  {}

  /** The store after `n` reconcile passes of `res` in a row. */
  function ReconcileTimes(s: Store, res: NginxOperator, n: nat): Store
    decreases n
  {
    if n == 0 then s else ReconcileTimes(Reconciled(s, res), res, n - 1)
  }

  /** Any positive number of passes gives the store one pass gives. */
  lemma {:induction false} ReconcileRepeated(s: Store, res: NginxOperator, n: nat)
    requires n >= 1
    decreases n
    ensures ReconcileTimes(s, res, n) == Reconciled(s, res)
  {
    if n > 1 {
      ReconcileRepeated(Reconciled(s, res), res, n - 1);
      ReconcileIdempotent(s, res);
    }
  }

  /** A cluster whose Services all have a readable first node port never makes a pass throw, and stays so. */
  lemma ReadableServicesNeverThrow(s: Store, res: NginxOperator)
    requires ServicesReadable(s)
    ensures Plan(s, res).outcome == Returned(NoUpdate)
    ensures ServicesReadable(Reconciled(s, res))
    ensures ServicesReadable(Cleaned(s, res))
  {}

  /** On a torn-down namespace cleanup changes nothing. */
  lemma TornDownIsFixpoint(s: Store, res: NginxOperator)
    requires TornDown(s, res.metadata.namespace)
    ensures Cleaned(s, res) == s
  {}

  /** A second cleanup is a no-op. */
  lemma CleanupIdempotent(s: Store, res: NginxOperator)
    ensures Cleaned(Cleaned(s, res), res) == Cleaned(s, res)
  {}

  /** The store after `n` cleanups of `res` in a row. */
  function CleanupTimes(s: Store, res: NginxOperator, n: nat): Store
    decreases n
  {
    if n == 0 then s else CleanupTimes(Cleaned(s, res), res, n - 1)
  }

  /** Any positive number of cleanups gives the store one cleanup gives. */
  lemma {:induction false} CleanupRepeated(s: Store, res: NginxOperator, n: nat)
    requires n >= 1
    decreases n
    ensures CleanupTimes(s, res, n) == Cleaned(s, res)
  {
    if n > 1 {
      CleanupRepeated(Cleaned(s, res), res, n - 1);
      CleanupIdempotent(s, res);
    }
  }

  /** A reconcile just before cleanup leaves no trace: cleanup does not depend on it having run or finished. */
  lemma CleanupErasesReconcile(s: Store, res: NginxOperator)
    ensures Cleaned(Reconciled(s, res), res) == Cleaned(s, res)
  {}

  /**
   * Two resources in one namespace share nginx-service: when their ports
   * differ, each pass of one after a pass of the other rewrites the Service.
   */
  lemma SharedNamespaceRewrites(s: Store, r1: NginxOperator, r2: NginxOperator)
    requires r1.metadata.namespace == r2.metadata.namespace
    requires r1.spec.port != r2.spec.port
    requires Plan(s, r1).outcome.Returned?
    ensures WritesService(Plan(Reconciled(s, r1), r2).requests)
  {}
}

/**
 * Concrete runs of the reconciler: a resource in namespace ns1 asking for
 * three replicas on node port 30080, reconciled on an empty cluster, again,
 * with a changed port, and then cleaned up twice.
 */
module Scenarios {
  import opened KubeObjects
  import opened ClusterState
  import opened Converge
  import opened ReconcileProperties

  const Empty: Store := Store(map[], map[])

  const Ns1Nginx: NginxOperator :=
    NginxOperator(ResourceMeta("ns1", "my-nginx", "6f1c0a52"), NginxOperatorSpec(3, 30080))

  /** The same resource after its port was edited to 30090. */
  const Ns1NginxMoved: NginxOperator := Ns1Nginx.(spec := Ns1Nginx.spec.(port := 30090))

  /** On an empty cluster the first pass creates the Deployment with 3 replicas and the Service on 30080 owned by the resource. */
  lemma FirstReconcileCreatesBoth()
    ensures var t := Reconciled(Empty, Ns1Nginx);
      Key("ns1", "nginx-deployment") in t.deployments &&
      t.deployments[Key("ns1", "nginx-deployment")].spec.replicas == 3 &&
      Key("ns1", "nginx-service") in t.services &&
      t.services[Key("ns1", "nginx-service")].spec.ports[0].nodePort == Some(30080) &&
      t.services[Key("ns1", "nginx-service")].metadata.ownerReferences[0].name == "my-nginx" &&
      t.services[Key("ns1", "nginx-service")].metadata.ownerReferences[0].uid == "6f1c0a52"
  {}

  /** Reconciling again with nothing changed sends only the Deployment write and changes nothing. */
  lemma SecondReconcileWritesNoService()
    ensures Plan(Reconciled(Empty, Ns1Nginx), Ns1Nginx).requests == [DeploymentWrite(Ns1Nginx)]
    ensures Reconciled(Reconciled(Empty, Ns1Nginx), Ns1Nginx) == Reconciled(Empty, Ns1Nginx)
  {}

  /** After the port changes to 30090, the next pass sends exactly one Service write and the Service ends on 30090. */
  lemma PortChangeRewritesService()
    ensures var t := Reconciled(Empty, Ns1Nginx);
      Plan(t, Ns1NginxMoved).requests == [DeploymentWrite(Ns1NginxMoved), ServiceWrite(Ns1NginxMoved)] &&
      Reconciled(t, Ns1NginxMoved).services[Key("ns1", "nginx-service")].spec.ports[0].nodePort == Some(30090)
  {}

  /** Cleanup removes both objects from ns1, and a second cleanup finds nothing to change. */
  lemma CleanupTwiceSucceeds()
    ensures var t := Cleaned(Reconciled(Empty, Ns1Nginx), Ns1Nginx);
      Key("ns1", "nginx-deployment") !in t.deployments &&
      Key("ns1", "nginx-service") !in t.services &&
      Cleaned(t, Ns1Nginx) == t
  {}
}

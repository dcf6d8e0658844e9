/**
 * The Nginx operator's reconciler: it holds the cluster client and, per
 * resource, either converges the Deployment and Service (Reconcile) or tears
 * them down (Cleanup). Each method does what the pure pass of the same name in
 * module Converge describes.
 */
module Operator {
  import opened KubeObjects
  import opened ClusterState
  import opened Converge

  class NginxOperatorReconciler {
    const client: Cluster

    constructor (client: Cluster)
      ensures this.client == client
    {
      this.client := client;
    }

    /**
     * Write the Deployment stamped with the resource's replica count and
     * namespace; then read nginx-service and, if it is missing or its first
     * node port differs from the resource's, write the Service template with
     * its first owner reference and first node port filled in.
     */
    method Reconcile(resource: NginxOperator) returns (outcome: Outcome)
      modifies client
      ensures client.State() == Reconciled(old(client.State()), resource)
      ensures client.writes == old(client.writes) + Plan(old(client.State()), resource).requests
      ensures outcome == Plan(old(client.State()), resource).outcome
    {
      ghost var before := client.State();
      var namespace := resource.metadata.namespace;

      var deployment := DeploymentTemplate;
      deployment := deployment.(spec := deployment.spec.(replicas := resource.spec.replicaCount));
      deployment := deployment.(metadata := deployment.metadata.(namespace := Some(namespace)));
      client.CreateOrReplaceDeployment(namespace, deployment);
      assert deployment == StampDeployment(DeploymentTemplate, resource);
      ApplyAllOne(before, DeploymentWrite(resource));
      ApplyAllTwo(before, DeploymentWrite(resource), ServiceWrite(resource));

      var service := ServiceTemplate;
      var existingService := client.GetService(namespace, ServiceName);
      var write := true;
      if existingService.Some? {
        var ports := existingService.value.spec.ports;
        if |ports| == 0 {
          assert Plan(before, resource).requests == [DeploymentWrite(resource)];
          return Threw(IndexOutOfBounds);
        }
        match ports[0].nodePort
        case None =>
          assert Plan(before, resource).requests == [DeploymentWrite(resource)];
          return Threw(NullPointer);
        case Some(nodePort) =>
          write := nodePort != resource.spec.port;
      }
      if write {
        var owners := service.metadata.ownerReferences;
        owners := owners[0 := owners[0].(name := resource.metadata.name)];
        owners := owners[0 := owners[0].(uid := resource.metadata.uid)];
        var ports := service.spec.ports;
        ports := ports[0 := ports[0].(nodePort := Some(resource.spec.port))];
        service := service.(metadata := service.metadata.(ownerReferences := owners),
                            spec := service.spec.(ports := ports));
        assert service == StampService(ServiceTemplate, resource);
        client.CreateOrReplaceService(namespace, service);
      }
      return Returned(NoUpdate);
    }

    /**
     * Delete every Deployment of the resource's namespace, then its
     * nginx-service; absent objects are not an error.
     */
    method Cleanup(resource: NginxOperator) returns (control: DeleteControl)
      modifies client
      ensures client.State() == Cleaned(old(client.State()), resource)
      ensures client.writes == old(client.writes) + CleanupRequests(resource)
      ensures control == DefaultDelete
    {
      ghost var before := client.State();
      client.DeleteAllDeployments(resource.metadata.namespace);
      client.DeleteServiceNamed(resource.metadata.namespace, ServiceName);
      ApplyAllTwo(before, CleanupRequests(resource)[0], CleanupRequests(resource)[1]);
      return DefaultDelete;
    }
  }
}

/**
 * The Kubernetes objects the Nginx operator reads and writes, reduced to the
 * fields its reconciler touches, the custom resource that drives it, and the
 * two templates it loads from its classpath.
 */
module KubeObjects {

  /** A Java reference that may be null. */
  datatype Option<+T> = None | Some(value: T)

  /** The (namespace, name) pair under which the API server keeps a namespaced object. */
  datatype Key = Key(namespace: string, name: string)

  /** A back-reference from a dependent object to the resource that owns it. */
  datatype OwnerReference = OwnerReference(apiVersion: string, kind: string, name: string, uid: string)

  datatype ObjectMeta = ObjectMeta(
    name: string,
    namespace: Option<string>,
    labels: map<string, string>,
    ownerReferences: seq<OwnerReference>)

  datatype DeploymentSpec = DeploymentSpec(replicas: int, image: string, containerPort: int)

  datatype Deployment = Deployment(metadata: ObjectMeta, spec: DeploymentSpec)

  /** One port of a Service; its node port is a boxed integer and may be null. */
  datatype ServicePort = ServicePort(port: int, targetPort: int, nodePort: Option<int>)

  datatype ServiceSpec = ServiceSpec(serviceType: string, selector: map<string, string>, ports: seq<ServicePort>)

  datatype Service = Service(metadata: ObjectMeta, spec: ServiceSpec)

  /** The identity of the NginxOperator custom resource. */
  datatype ResourceMeta = ResourceMeta(namespace: string, name: string, uid: string)

  /** The desired state the user declares: how many replicas, and which node port. */
  datatype NginxOperatorSpec = NginxOperatorSpec(replicaCount: int, port: int)

  /** The NginxOperator custom resource the reconciler is called with. */
  datatype NginxOperator = NginxOperator(metadata: ResourceMeta, spec: NginxOperatorSpec)

  /** The fixed name under which the reconciler looks up and writes its Service. */
  const ServiceName: string := "nginx-service"

  /** The label the Service watcher filters on. */
  const ManagedByLabel: string := "app.kubernetes.io/managed-by"
  const ManagedByValue: string := "nginx-operator"

  /**
   * The Deployment blueprint read from /k8s/nginx-deployment.yaml. That file is
   * not part of this model: the field values other than the ones the reconciler
   * overwrites are placeholders.
   */
  const DeploymentTemplate: Deployment :=
    Deployment(
      ObjectMeta("nginx-deployment", None, map["app" := "nginx"], []),
      DeploymentSpec(1, "nginx:latest", 80))

  /**
   * The Service blueprint read from /k8s/nginx-service.yaml. That file is not
   * part of this model: its name is the one the reconciler looks up, it carries
   * one port and one owner reference (the reconciler's get(0) calls need both),
   * and the other values are placeholders.
   */
  const ServiceTemplate: Service :=
    Service(
      ObjectMeta(
        ServiceName,
        None,
        map[ManagedByLabel := ManagedByValue],
        [OwnerReference("wilda.fr/v1", "NginxOperator", "nginx-operator", "")]),
      ServiceSpec("NodePort", map["app" := "nginx"], [ServicePort(80, 80, Some(30000))]))
}

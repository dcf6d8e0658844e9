/**
 * The cluster as the reconciler sees it through its client: the Deployments and
 * Services the API server stores, keyed by namespace and name, and the write
 * requests the client sends to it.
 */
module ClusterState {
  import opened KubeObjects

  /** What the API server stores for the two kinds the reconciler manages. */
  datatype Store = Store(deployments: map<Key, Deployment>, services: map<Key, Service>)

  /** A write the client sends; every kind of write is scoped to one namespace. */
  datatype Request =
    | ReplaceDeployment(namespace: string, deployment: Deployment)
    | ReplaceService(namespace: string, service: Service)
    | DeleteDeployments(namespace: string)
    | DeleteService(namespace: string, name: string)

  /** The entries of `m` whose key lies outside namespace `ns`. */
  function Outside<V>(m: map<Key, V>, ns: string): map<Key, V>
  {
    m - (set k | k in m && k.namespace == ns)
  }

  /** `s` and `t` hold the same objects in every namespace other than `ns`. */
  predicate AgreeOutside(s: Store, t: Store, ns: string)
  {
    Outside(s.deployments, ns) == Outside(t.deployments, ns) &&
    Outside(s.services, ns) == Outside(t.services, ns)
  }

  function LookupService(s: Store, ns: string, name: string): Option<Service>
  {
    if Key(ns, name) in s.services then Some(s.services[Key(ns, name)]) else None
  }

  /**
   * The effect of one write on the store: createOrReplace puts the object under
   * (request namespace, object name), replacing what was there; deleting the
   * Deployments of a namespace removes every one of them; deleting an absent
   * Service is not an error and changes nothing.
   */
  function Apply(s: Store, q: Request): (t: Store)
    ensures AgreeOutside(s, t, q.namespace)
    ensures q.ReplaceDeployment? ==>
      var kd := Key(q.namespace, q.deployment.metadata.name);
      kd in t.deployments && t.deployments[kd] == q.deployment && t.services == s.services &&
      forall k :: k in s.deployments && k != kd ==> k in t.deployments && t.deployments[k] == s.deployments[k]
    ensures q.ReplaceDeployment? ==>
      forall k :: k in t.deployments ==> k == Key(q.namespace, q.deployment.metadata.name) || k in s.deployments
    ensures q.ReplaceService? ==>
      var ks := Key(q.namespace, q.service.metadata.name);
      ks in t.services && t.services[ks] == q.service && t.deployments == s.deployments &&
      forall k :: k in s.services && k != ks ==> k in t.services && t.services[k] == s.services[k]
    ensures q.ReplaceService? ==>
      forall k :: k in t.services ==> k == Key(q.namespace, q.service.metadata.name) || k in s.services
    ensures q.DeleteDeployments? ==> forall k :: k in t.deployments ==> k.namespace != q.namespace
    ensures q.DeleteDeployments? ==> t.services == s.services
    ensures q.DeleteService? ==> Key(q.namespace, q.name) !in t.services
    ensures q.DeleteService? ==>
      t.deployments == s.deployments &&
      forall k :: k in s.services && k != Key(q.namespace, q.name) ==> k in t.services && t.services[k] == s.services[k]
    ensures q.DeleteService? ==> forall k :: k in t.services ==> k in s.services
  {
    match q
    case ReplaceDeployment(ns, d) =>
      var k := Key(ns, d.metadata.name);
      assert Outside(s.deployments[k := d], ns) == Outside(s.deployments, ns);
      s.(deployments := s.deployments[k := d])
    case ReplaceService(ns, v) =>
      var k := Key(ns, v.metadata.name);
      assert Outside(s.services[k := v], ns) == Outside(s.services, ns);
      s.(services := s.services[k := v])
    case DeleteDeployments(ns) =>
      assert Outside(Outside(s.deployments, ns), ns) == Outside(s.deployments, ns);
      s.(deployments := Outside(s.deployments, ns))
    case DeleteService(ns, name) =>
      assert Outside(s.services - {Key(ns, name)}, ns) == Outside(s.services, ns);
      s.(services := s.services - {Key(ns, name)})
  }

  /** Every write of `qs` is scoped to namespace `ns`. */
  predicate AllIn(qs: seq<Request>, ns: string)
  {
    forall q :: q in qs ==> q.namespace == ns
  }

  /** The effect of a sequence of writes, sent in order. */
  function ApplyAll(s: Store, qs: seq<Request>): Store
    decreases |qs|
  {
    if qs == [] then s else Apply(ApplyAll(s, qs[..|qs| - 1]), qs[|qs| - 1])
  }

  /** A sequence of writes scoped to namespace `ns` leaves every other namespace as it was. */
  lemma {:induction false} ApplyAllStaysInside(s: Store, qs: seq<Request>, ns: string)
    requires AllIn(qs, ns)
    ensures AgreeOutside(s, ApplyAll(s, qs), ns)
    decreases |qs|
  {
    if qs != [] {
      var prefix := qs[..|qs| - 1];
      assert forall q :: q in prefix ==> q in qs;
      assert qs[|qs| - 1] in qs;
      ApplyAllStaysInside(s, prefix, ns);
    }
  }

  /** Sending a single write is applying it. */
  lemma ApplyAllOne(s: Store, q: Request)
    ensures ApplyAll(s, [q]) == Apply(s, q)
  {}

  /** Sending two writes in turn is applying them one after the other. */
  lemma ApplyAllTwo(s: Store, q1: Request, q2: Request)
    ensures ApplyAll(s, [q1, q2]) == Apply(Apply(s, q1), q2)
  {
    assert [q1, q2][..1] == [q1];
    ApplyAllOne(s, q1);
  }

  /**
   * The API server behind the reconciler's client. `writes` records every
   * write request the client has sent, in order, so that a caller can tell a
   * skipped write from a write that left the store as it was.
   */
  class Cluster {
    var deployments: map<Key, Deployment>
    var services: map<Key, Service>
    var writes: seq<Request>

    function State(): Store
      reads this
    {
      Store(deployments, services)
    }

    constructor (initial: Store)
      ensures State() == initial && writes == []
    {
      deployments := initial.deployments;
      services := initial.services;
      writes := [];
    }

    /** services().inNamespace(namespace).withName(name).get(): null when absent. */
    method GetService(namespace: string, name: string) returns (s: Option<Service>)
      ensures s.Some? <==> Key(namespace, name) in services
      ensures s.Some? ==> s.value == services[Key(namespace, name)]
    {
      var k := Key(namespace, name);
      if k in services {
        s := Some(services[k]);
      } else {
        s := None;
      }
    }

    /** apps().deployments().inNamespace(namespace).createOrReplace(d). */
    method CreateOrReplaceDeployment(namespace: string, d: Deployment)
      modifies this
      ensures State() == Apply(old(State()), ReplaceDeployment(namespace, d))
      ensures writes == old(writes) + [ReplaceDeployment(namespace, d)]
    {
      deployments := deployments[Key(namespace, d.metadata.name) := d];
      writes := writes + [ReplaceDeployment(namespace, d)];
    }

    /** services().inNamespace(namespace).createOrReplace(v). */
    method CreateOrReplaceService(namespace: string, v: Service)
      modifies this
      ensures State() == Apply(old(State()), ReplaceService(namespace, v))
      ensures writes == old(writes) + [ReplaceService(namespace, v)]
    {
      services := services[Key(namespace, v.metadata.name) := v];
      writes := writes + [ReplaceService(namespace, v)];
    }

    /** apps().deployments().inNamespace(namespace).delete(): every Deployment of the namespace. */
    method DeleteAllDeployments(namespace: string)
      modifies this
      ensures State() == Apply(old(State()), DeleteDeployments(namespace))
      ensures writes == old(writes) + [DeleteDeployments(namespace)]
    {
      deployments := Outside(deployments, namespace);
      writes := writes + [DeleteDeployments(namespace)];
    }

    /** services().inNamespace(namespace).withName(name).delete(). */
    method DeleteServiceNamed(namespace: string, name: string)
      modifies this
      ensures State() == Apply(old(State()), DeleteService(namespace, name))
      ensures writes == old(writes) + [DeleteService(namespace, name)]
    {
      services := services - {Key(namespace, name)};
      writes := writes + [DeleteService(namespace, name)];
    }
  }
}

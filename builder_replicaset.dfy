/**
 * The estimator's ReplicaSet builder: replicas defaulting to 1, containers
 * from the pod template under the merged configuration, and the key.
 */
module ReplicaSetBuilder {
  import opened Wrappers
  import opened Config
  import opened Kube
  import opened Types

  /** A freshly built ReplicaSet has no HPA; only its template's regular containers are priced. */
  function BuildReplicaSetV1(obj: ReplicaSetV1, conf: CostimatorConfig): (w: HorizontalScalable)
    ensures w.ReplicaSet? && !w.HasHPA()
    ensures w.replicas == if obj.replicas.Some? then obj.replicas.value else 1
    ensures w.containers == EffectiveContainers(obj.template.containers, PopulateConfigNotProvided(conf))
    ensures w.apiVersionKindName
            == BuildAPIVersionKindName(obj.meta.apiVersion, obj.meta.kind, obj.meta.namespace, obj.meta.name)
  {
    var conf := PopulateConfigNotProvided(conf);
    var containers := EffectiveContainers(obj.template.containers, conf);
    var replicas := if obj.replicas.Some? then obj.replicas.value else 1;
    ReplicaSet(BuildAPIVersionKindName(obj.meta.apiVersion, obj.meta.kind, obj.meta.namespace, obj.meta.name),
      replicas, containers, NoHPA)
  }

  function BuildReplicaSet(obj: K8sObject, gvk: GroupVersionKind, conf: CostimatorConfig): (r: Result<HorizontalScalable, string>)
    ensures obj.ReplicaSetObject? ==> r == Success(BuildReplicaSetV1(obj.replicaSet, conf))
    ensures !obj.ReplicaSetObject? ==> r == Failure(NotImplemented(gvk))
  {
    match obj
    case ReplicaSetObject(o) => Success(BuildReplicaSetV1(o, conf))
    case _ => Failure(NotImplemented(gvk))
  }

  function DecodeReplicaSet(decoded: Decoded, conf: CostimatorConfig): (r: Result<HorizontalScalable, string>)
    ensures decoded.Failure? ==> r.Failure? && DecodeErrorHead <= r.error
    ensures decoded.Success? ==> r == BuildReplicaSet(decoded.value.0, decoded.value.1, conf)
  {
    match decoded
    case Failure(cause) => Failure(DecodeError(cause))
    case Success((obj, gvk)) => BuildReplicaSet(obj, gvk, conf)
  }
}

/**
 * The estimator's DaemonSet builder: one pod per node, the node count
 * taken from the merged configuration.
 */
module DaemonSetBuilder {
  import opened Wrappers
  import opened Config
  import opened Kube
  import opened Types

  function BuildDaemonSetV1(obj: DaemonSetV1, conf: CostimatorConfig): (d: DaemonSet)
    ensures d.nodesCount == PopulateConfigNotProvided(conf).clusterConf.nodesCount
    ensures d.nodesCount == if conf.clusterConf.nodesCount != 0 then conf.clusterConf.nodesCount else 3
    ensures d.containers == EffectiveContainers(obj.template.containers, PopulateConfigNotProvided(conf))
    ensures d.apiVersionKindName
            == BuildAPIVersionKindName(obj.meta.apiVersion, obj.meta.kind, obj.meta.namespace, obj.meta.name)
  {
    var conf := PopulateConfigNotProvided(conf);
    var containers := EffectiveContainers(obj.template.containers, conf);
    DaemonSet(BuildAPIVersionKindName(obj.meta.apiVersion, obj.meta.kind, obj.meta.namespace, obj.meta.name),
      conf.clusterConf.nodesCount, containers)
  }

  function BuildDaemonSet(obj: K8sObject, gvk: GroupVersionKind, conf: CostimatorConfig): (r: Result<DaemonSet, string>)
    ensures obj.DaemonSetObject? ==> r == Success(BuildDaemonSetV1(obj.daemonSet, conf))
    ensures !obj.DaemonSetObject? ==> r == Failure(NotImplemented(gvk))
  {
    match obj
    case DaemonSetObject(o) => Success(BuildDaemonSetV1(o, conf))
    case _ => Failure(NotImplemented(gvk))
  }

  function DecodeDaemonSet(decoded: Decoded, conf: CostimatorConfig): (r: Result<DaemonSet, string>)
    ensures decoded.Failure? ==> r.Failure? && DecodeErrorHead <= r.error
    ensures decoded.Success? ==> r == BuildDaemonSet(decoded.value.0, decoded.value.1, conf)
  {
    match decoded
    case Failure(cause) => Failure(DecodeError(cause))
    case Success((obj, gvk)) => BuildDaemonSet(obj, gvk, conf)
  }

  predicate DeclaresNoResources(c: ContainerSpec)
  {
    c.resources == ResourceRequirements(ResourceList(None, None, None), ResourceList(None, None, None))
  }

  /**
   * Built under the empty configuration, a DaemonSet whose containers
   * declare nothing runs on 3 nodes and each container requests 250
   * milli-cores and 64000000 bytes, limited at three times that.
   */
  lemma {:induction false} UndeclaredResourcesUseDefaults(obj: DaemonSetV1)
    requires forall i :: 0 <= i < |obj.template.containers| ==> DeclaresNoResources(obj.template.containers[i])
    ensures var d := BuildDaemonSetV1(obj, EmptyConfig);
      && d.nodesCount == 3
      && |d.containers| == |obj.template.containers|
      && forall i :: 0 <= i < |d.containers| ==>
           d.containers[i] == Container(Resource(250, 64000000, 0), Resource(750, 192000000, 0))
  {
    var conf := PopulateConfigNotProvided(EmptyConfig);
    PopulateEmptyIsDefaults();
    DefaultIncreaseTriples(250, conf);
    DefaultIncreaseTriples(64000000, conf);
  }
}

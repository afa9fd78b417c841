/**
 * The estimator's Deployment builder: replicas defaulting to 1, containers
 * from the pod template under the merged configuration, and the key.
 */
module DeploymentBuilder {
  import opened Wrappers
  import opened Config
  import opened Kube
  import opened Types

  /** A freshly built Deployment has no HPA; only its template's regular containers are priced. */
  function BuildDeploymentV1(obj: DeploymentV1, conf: CostimatorConfig): (w: HorizontalScalable)
    ensures w.Deployment? && !w.HasHPA()
    ensures w.replicas == if obj.replicas.Some? then obj.replicas.value else 1
    ensures w.containers == EffectiveContainers(obj.template.containers, PopulateConfigNotProvided(conf))
    ensures w.apiVersionKindName
            == BuildAPIVersionKindName(obj.meta.apiVersion, obj.meta.kind, obj.meta.namespace, obj.meta.name)
  {
    var conf := PopulateConfigNotProvided(conf);
    var containers := EffectiveContainers(obj.template.containers, conf);
    var replicas := if obj.replicas.Some? then obj.replicas.value else 1;
    Deployment(BuildAPIVersionKindName(obj.meta.apiVersion, obj.meta.kind, obj.meta.namespace, obj.meta.name),
      replicas, containers, NoHPA)
  }

  function BuildDeployment(obj: K8sObject, gvk: GroupVersionKind, conf: CostimatorConfig): (r: Result<HorizontalScalable, string>)
    ensures obj.DeploymentObject? ==> r == Success(BuildDeploymentV1(obj.deployment, conf))
    ensures !obj.DeploymentObject? ==> r == Failure(NotImplemented(gvk))
  {
    match obj
    case DeploymentObject(o) => Success(BuildDeploymentV1(o, conf))
    case _ => Failure(NotImplemented(gvk))
  }

  function DecodeDeployment(decoded: Decoded, conf: CostimatorConfig): (r: Result<HorizontalScalable, string>)
    ensures decoded.Failure? ==> r.Failure? && DecodeErrorHead <= r.error
    ensures decoded.Success? ==> r == BuildDeployment(decoded.value.0, decoded.value.1, conf)
  {
    match decoded
    case Failure(cause) => Failure(DecodeError(cause))
    case Success((obj, gvk)) => BuildDeployment(obj, gvk, conf)
  }
}

/**
 * The estimator's HPA builder: the three autoscaling API versions reduced
 * to one `HPA` record whose target key matches the workload keys.
 */
module HpaBuilder {
  import opened Wrappers
  import opened Kube
  import opened Types
  import opened HpaMetrics

  function MinReplicasOrOne(minReplicas: Option<int>): int
  {
    if minReplicas.Some? then minReplicas.value else 1
  }

  /** The HPA's own key and its target's key, formatted in place with the namespace defaulted. */
  function BuildHPAV2beta2(hpa: HorizontalPodAutoscalerV2beta2): (r: HPA)
    ensures r.targetCPUPercentage == CpuTargetV2beta2(hpa.spec.metrics)
    ensures r.minReplicas == MinReplicasOrOne(hpa.spec.minReplicas) && r.maxReplicas == hpa.spec.maxReplicas
    ensures r.apiVersionKindName == BuildAPIVersionKindName(hpa.meta.apiVersion, hpa.meta.kind, hpa.meta.namespace, hpa.meta.name)
    ensures var t := hpa.spec.scaleTargetRef;
      r.targetRef == BuildAPIVersionKindName(t.apiVersion, t.kind, hpa.meta.namespace, t.name)
  {
    var namespace := if hpa.meta.namespace != "" then hpa.meta.namespace else DefaultNamespace;
    var targetRef := hpa.spec.scaleTargetRef;
    HPA(hpa.meta.apiVersion + "|" + hpa.meta.kind + "|" + namespace + "|" + hpa.meta.name,
        targetRef.apiVersion + "|" + targetRef.kind + "|" + namespace + "|" + targetRef.name,
        MinReplicasOrOne(hpa.spec.minReplicas),
        hpa.spec.maxReplicas,
        CpuTargetV2beta2(hpa.spec.metrics))
  }

  function BuildHPAV2beta1(hpa: HorizontalPodAutoscalerV2beta1): (r: HPA)
    ensures r.targetCPUPercentage == CpuTargetV2beta1(hpa.spec.metrics)
    ensures r.minReplicas == MinReplicasOrOne(hpa.spec.minReplicas) && r.maxReplicas == hpa.spec.maxReplicas
    ensures r.apiVersionKindName == BuildAPIVersionKindName(hpa.meta.apiVersion, hpa.meta.kind, hpa.meta.namespace, hpa.meta.name)
    ensures var t := hpa.spec.scaleTargetRef;
      r.targetRef == BuildAPIVersionKindName(t.apiVersion, t.kind, hpa.meta.namespace, t.name)
  {
    var namespace := if hpa.meta.namespace != "" then hpa.meta.namespace else DefaultNamespace;
    var targetRef := hpa.spec.scaleTargetRef;
    HPA(hpa.meta.apiVersion + "|" + hpa.meta.kind + "|" + namespace + "|" + hpa.meta.name,
        targetRef.apiVersion + "|" + targetRef.kind + "|" + namespace + "|" + targetRef.name,
        MinReplicasOrOne(hpa.spec.minReplicas),
        hpa.spec.maxReplicas,
        CpuTargetV2beta1(hpa.spec.metrics))
  }

  /** The v1 HPA names its CPU target directly; absent, the target is 0. */
  function BuildHPAV1(hpa: HorizontalPodAutoscalerV1): (r: HPA)
    ensures r.targetCPUPercentage == (if hpa.spec.targetCPUUtilizationPercentage.Some?
                                     then hpa.spec.targetCPUUtilizationPercentage.value else 0)
    ensures r.minReplicas == MinReplicasOrOne(hpa.spec.minReplicas) && r.maxReplicas == hpa.spec.maxReplicas
    ensures r.apiVersionKindName == BuildAPIVersionKindName(hpa.meta.apiVersion, hpa.meta.kind, hpa.meta.namespace, hpa.meta.name)
    ensures var t := hpa.spec.scaleTargetRef;
      r.targetRef == BuildAPIVersionKindName(t.apiVersion, t.kind, hpa.meta.namespace, t.name)
  {
    var targetRef := hpa.spec.scaleTargetRef;
    HPA(BuildAPIVersionKindName(hpa.meta.apiVersion, hpa.meta.kind, hpa.meta.namespace, hpa.meta.name),
        BuildAPIVersionKindName(targetRef.apiVersion, targetRef.kind, hpa.meta.namespace, targetRef.name),
        MinReplicasOrOne(hpa.spec.minReplicas),
        hpa.spec.maxReplicas,
        if hpa.spec.targetCPUUtilizationPercentage.Some? then hpa.spec.targetCPUUtilizationPercentage.value else 0)
  }

  /** Dispatch on the decoded Go type; any type other than the three HPA versions is not implemented. */
  function BuildHPA(obj: K8sObject, gvk: GroupVersionKind): (r: Result<HPA, string>)
    ensures r.Success? <==> obj.HpaV2beta2Object? || obj.HpaV2beta1Object? || obj.HpaV1Object?
    ensures r.Failure? ==> r.error == NotImplemented(gvk)
    ensures obj.HpaV2beta2Object? ==> r == Success(BuildHPAV2beta2(obj.hpaV2beta2))
    ensures obj.HpaV2beta1Object? ==> r == Success(BuildHPAV2beta1(obj.hpaV2beta1))
    ensures obj.HpaV1Object? ==> r == Success(BuildHPAV1(obj.hpaV1))
    ensures r.Success? ==> KeySeparator in r.value.apiVersionKindName && KeySeparator in r.value.targetRef
  {
    match obj
    case HpaV2beta2Object(h) => Success(BuildHPAV2beta2(h))
    case HpaV2beta1Object(h) => Success(BuildHPAV2beta1(h))
    case HpaV1Object(h) => Success(BuildHPAV1(h))
    case _ => Failure(NotImplemented(gvk))
  }

  /** A decoder failure is wrapped; a decoded object goes to `BuildHPA`. */
  function DecodeHPA(decoded: Decoded): (r: Result<HPA, string>)
    ensures decoded.Failure? ==> r.Failure? && DecodeErrorHead <= r.error
    ensures decoded.Success? ==> r == BuildHPA(decoded.value.0, decoded.value.1)
  {
    match decoded
    case Failure(cause) => Failure(DecodeError(cause))
    case Success((obj, gvk)) => BuildHPA(obj, gvk)
  }

  /** A workload bound to a built HPA is estimated with it, since a built HPA's key is never empty. */
  lemma BuiltHpaIsRecognised(obj: K8sObject, gvk: GroupVersionKind, w: HorizontalScalable)
    requires BuildHPA(obj, gvk).Success?
    ensures w.(hpa := BuildHPA(obj, gvk).value).HasHPA()
  {
  }

  /** An HPA without a namespace targets the workload of the same name in namespace "default". */
  lemma TargetRefNamespaceDefaults(hpa: HorizontalPodAutoscalerV1)
    requires hpa.meta.namespace == ""
    ensures var t := hpa.spec.scaleTargetRef;
      BuildHPAV1(hpa).targetRef == t.apiVersion + "|" + t.kind + "|default|" + t.name
  {
  }
}

/**
 * The exporter's HPA builder: an `autoscaling/v1` HorizontalPodAutoscaler
 * list, or any single HPA of the three autoscaling versions, reduced to the
 * exporter's `HPA` record with the namespace and the minimum defaulted.
 */
module ExporterHpa {
  import opened Wrappers
  import opened Kube
  import opened HpaMetrics
  import opened ExporterTypes
  import Types
  import HpaBuilder

  /** The type reported for an item of an `autoscaling/v1` list. */
  const HpaV1Gvk := GroupVersionKind("autoscaling", "v1", "HorizontalPodAutoscaler")

  function BuildHPAV2beta2(hpa: HorizontalPodAutoscalerV2beta2): (r: HPA)
    ensures r.namespace == (if hpa.meta.namespace != "" then hpa.meta.namespace else "default")
    ensures r.name == hpa.meta.name
    ensures r.targetRef == TargetRef(hpa.spec.scaleTargetRef.apiVersion, hpa.spec.scaleTargetRef.kind, hpa.spec.scaleTargetRef.name)
    ensures r.targetCPUPercentage == CpuTargetV2beta2(hpa.spec.metrics)
    ensures r.minReplicas == (if hpa.spec.minReplicas.Some? then hpa.spec.minReplicas.value else 1)
    ensures r.maxReplicas == hpa.spec.maxReplicas
  {
    HPA(Types.NamespaceOrDefault(hpa.meta.namespace), hpa.meta.name, ToTargetRef(hpa.spec.scaleTargetRef),
        HpaBuilder.MinReplicasOrOne(hpa.spec.minReplicas), hpa.spec.maxReplicas,
        CpuTargetV2beta2(hpa.spec.metrics))
  }

  function BuildHPAV2beta1(hpa: HorizontalPodAutoscalerV2beta1): (r: HPA)
    ensures r.namespace == (if hpa.meta.namespace != "" then hpa.meta.namespace else "default")
    ensures r.name == hpa.meta.name
    ensures r.targetRef == TargetRef(hpa.spec.scaleTargetRef.apiVersion, hpa.spec.scaleTargetRef.kind, hpa.spec.scaleTargetRef.name)
    ensures r.targetCPUPercentage == CpuTargetV2beta1(hpa.spec.metrics)
    ensures r.minReplicas == (if hpa.spec.minReplicas.Some? then hpa.spec.minReplicas.value else 1)
    ensures r.maxReplicas == hpa.spec.maxReplicas
  {
    HPA(Types.NamespaceOrDefault(hpa.meta.namespace), hpa.meta.name, ToTargetRef(hpa.spec.scaleTargetRef),
        HpaBuilder.MinReplicasOrOne(hpa.spec.minReplicas), hpa.spec.maxReplicas,
        CpuTargetV2beta1(hpa.spec.metrics))
  }

  function BuildHPAV1(hpa: HorizontalPodAutoscalerV1): (r: HPA)
    ensures r.namespace == (if hpa.meta.namespace != "" then hpa.meta.namespace else "default")
    ensures r.name == hpa.meta.name
    ensures r.targetRef == TargetRef(hpa.spec.scaleTargetRef.apiVersion, hpa.spec.scaleTargetRef.kind, hpa.spec.scaleTargetRef.name)
    ensures r.targetCPUPercentage == (if hpa.spec.targetCPUUtilizationPercentage.Some?
                                     then hpa.spec.targetCPUUtilizationPercentage.value else 0)
    ensures r.minReplicas == (if hpa.spec.minReplicas.Some? then hpa.spec.minReplicas.value else 1)
    ensures r.maxReplicas == hpa.spec.maxReplicas
  {
    var target := hpa.spec.targetCPUUtilizationPercentage;
    HPA(Types.NamespaceOrDefault(hpa.meta.namespace), hpa.meta.name, ToTargetRef(hpa.spec.scaleTargetRef),
        HpaBuilder.MinReplicasOrOne(hpa.spec.minReplicas), hpa.spec.maxReplicas,
        if target.Some? then target.value else 0)
  }

  /** The type switch: the three HPA versions are built, anything else is refused. */
  function BuildHPA(obj: K8sObject, gvk: GroupVersionKind): (r: Result<HPA, string>)
    ensures r.Success? <==> obj.HpaV2beta2Object? || obj.HpaV2beta1Object? || obj.HpaV1Object?
    ensures r.Failure? ==> Types.NotImplementedPrefix <= r.error
    ensures obj.HpaV2beta2Object? ==> r == Success(BuildHPAV2beta2(obj.hpaV2beta2))
    ensures obj.HpaV2beta1Object? ==> r == Success(BuildHPAV2beta1(obj.hpaV2beta1))
    ensures obj.HpaV1Object? ==> r == Success(BuildHPAV1(obj.hpaV1))
  {
    match obj
    case HpaV2beta2Object(h) => Success(BuildHPAV2beta2(h))
    case HpaV2beta1Object(h) => Success(BuildHPAV2beta1(h))
    case HpaV1Object(h) => Success(BuildHPAV1(h))
    case _ => Failure(Types.NotImplemented(gvk))
  }

  /** The items of a list, one HPA per item, in order. */
  function HpaItems(items: seq<HorizontalPodAutoscalerV1>): (hpas: seq<HPA>)
    ensures |hpas| == |items|
    ensures forall i :: 0 <= i < |items| ==>
      hpas[i].name == items[i].meta.name && hpas[i].targetRef == ToTargetRef(items[i].spec.scaleTargetRef)
      && hpas[i].namespace == Types.NamespaceOrDefault(items[i].meta.namespace)
    ensures forall i :: 0 <= i < |items| ==> hpas[i] == BuildHPAV1(items[i])
  {
    seq(|items|, i requires 0 <= i < |items| => BuildHPAV1(items[i]))
  }

  /**
   * Builds every item of a list; an item that fails is logged and skipped,
   * which cannot happen since every item is an `autoscaling/v1` HPA.
   */
  method BuildHPAList(items: seq<HorizontalPodAutoscalerV1>) returns (list: seq<HPA>)
    ensures list == HpaItems(items)
    ensures |list| == |items|
  {
    list := [];
    for i := 0 to |items|
      invariant |list| == i
      invariant forall j :: 0 <= j < i ==> list[j] == BuildHPAV1(items[j])
    {
      var built := BuildHPA(HpaV1Object(items[i]), HpaV1Gvk);
      if built.Success? {
        list := list + [built.value];
      } else {
        assert false;
      }
    }
  }

  /** A decoded document read as an HPA list; a single HPA or any other type is refused. */
  function DecodeHPAList(decoded: Decoded): (r: Result<seq<HPA>, string>)
    ensures r.Success? <==> decoded.Success? && decoded.value.0.HpaListV1Object?
    ensures r.Success? ==> r.value == HpaItems(decoded.value.0.hpaItems)
    ensures decoded.Failure? ==> r.Failure? && ListDecodeErrorHead <= r.error
    ensures decoded.Success? && r.Failure? ==> NotSupportedPrefix <= r.error
  {
    if decoded.Failure? then Failure(ListDecodeError(decoded.error))
    else
      match decoded.value.0
      case HpaListV1Object(items) => Success(HpaItems(items))
      case _ => Failure(NotSupported(decoded.value.1))
  }

  /**
   * The exporter and the estimator read an HPA alike: the same CPU target
   * and replica bounds, and the estimator's target key is the exporter's
   * target in the exporter's (defaulted) namespace.
   */
  lemma AgreesWithEstimatorV2beta2(hpa: HorizontalPodAutoscalerV2beta2)
    ensures var e := BuildHPAV2beta2(hpa); var s := HpaBuilder.BuildHPAV2beta2(hpa);
      e.targetCPUPercentage == s.targetCPUPercentage
      && e.minReplicas == s.minReplicas && e.maxReplicas == s.maxReplicas
      && s.targetRef == Types.BuildAPIVersionKindName(e.targetRef.apiVersion, e.targetRef.kind, e.namespace, e.targetRef.name)
  {
  }

  lemma AgreesWithEstimatorV2beta1(hpa: HorizontalPodAutoscalerV2beta1)
    ensures var e := BuildHPAV2beta1(hpa); var s := HpaBuilder.BuildHPAV2beta1(hpa);
      e.targetCPUPercentage == s.targetCPUPercentage
      && e.minReplicas == s.minReplicas && e.maxReplicas == s.maxReplicas
      && s.targetRef == Types.BuildAPIVersionKindName(e.targetRef.apiVersion, e.targetRef.kind, e.namespace, e.targetRef.name)
  {
  }

  lemma AgreesWithEstimatorV1(hpa: HorizontalPodAutoscalerV1)
    ensures var e := BuildHPAV1(hpa); var s := HpaBuilder.BuildHPAV1(hpa);
      e.targetCPUPercentage == s.targetCPUPercentage
      && e.minReplicas == s.minReplicas && e.maxReplicas == s.maxReplicas
      && s.targetRef == Types.BuildAPIVersionKindName(e.targetRef.apiVersion, e.targetRef.kind, e.namespace, e.targetRef.name)
  {
  }
}

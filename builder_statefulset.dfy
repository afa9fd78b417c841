/**
 * The estimator's StatefulSet builder: like a Deployment, plus one volume
 * claim per volume-claim template, in template order.
 */
module StatefulSetBuilder {
  import opened Wrappers
  import opened Config
  import opened Kube
  import opened Types
  import opened VolumeClaimBuilder

  /** The type a template is built under: only its kind is set. */
  const TemplateGVK := GroupVersionKind("", "", VolumeClaimKind)

  /** The claims of the templates, one per template, in order. */
  function TemplateClaims(templates: seq<PersistentVolumeClaim>, conf: CostimatorConfig): seq<VolumeClaim>
  {
    seq(|templates|, i requires 0 <= i < |templates| => BuildVolumeClaimV1(templates[i], conf))
  }

  /**
   * A template is a PersistentVolumeClaim by its type, so the claim
   * builder's dispatch always succeeds on it and the loop's early error
   * return never fires.
   */
  lemma TemplateDispatchSucceeds(template: PersistentVolumeClaim, conf: CostimatorConfig)
    ensures BuildVolumeClaim(PvcObject(template), TemplateGVK, conf) == Success(BuildVolumeClaimV1(template, conf))
  {
  }

  /** The template loop, appending one claim per template. */
  method BuildVolumeClaims(templates: seq<PersistentVolumeClaim>, conf: CostimatorConfig) returns (volumeClaims: seq<VolumeClaim>)
    ensures |volumeClaims| == |templates|
    ensures forall i :: 0 <= i < |templates| ==> volumeClaims[i] == BuildVolumeClaimV1(templates[i], conf)
    ensures volumeClaims == TemplateClaims(templates, conf)
  {
    volumeClaims := [];
    for i := 0 to |templates|
      invariant |volumeClaims| == i
      invariant forall j :: 0 <= j < i ==> volumeClaims[j] == BuildVolumeClaimV1(templates[j], conf)
    {
      var pvc := BuildVolumeClaimV1(templates[i], conf);
      volumeClaims := volumeClaims + [pvc];
    }
  }

  function BuildStatefulSetV1(obj: StatefulSetV1, conf: CostimatorConfig): (w: HorizontalScalable)
    ensures w.StatefulSet? && !w.HasHPA()
    ensures w.replicas == if obj.replicas.Some? then obj.replicas.value else 1
    ensures w.containers == EffectiveContainers(obj.template.containers, PopulateConfigNotProvided(conf))
    ensures w.apiVersionKindName
            == BuildAPIVersionKindName(obj.meta.apiVersion, obj.meta.kind, obj.meta.namespace, obj.meta.name)
    ensures |w.volumeClaims| == |obj.volumeClaimTemplates|
    ensures forall i :: 0 <= i < |obj.volumeClaimTemplates| ==>
      w.volumeClaims[i] == BuildVolumeClaimV1(obj.volumeClaimTemplates[i], PopulateConfigNotProvided(conf))
  {
    var conf := PopulateConfigNotProvided(conf);
    var containers := EffectiveContainers(obj.template.containers, conf);
    var replicas := if obj.replicas.Some? then obj.replicas.value else 1;
    StatefulSet(BuildAPIVersionKindName(obj.meta.apiVersion, obj.meta.kind, obj.meta.namespace, obj.meta.name),
      replicas, containers, NoHPA, TemplateClaims(obj.volumeClaimTemplates, conf))
  }

  function BuildStatefulSet(obj: K8sObject, gvk: GroupVersionKind, conf: CostimatorConfig): (r: Result<HorizontalScalable, string>)
    ensures obj.StatefulSetObject? ==> r == Success(BuildStatefulSetV1(obj.statefulSet, conf))
    ensures !obj.StatefulSetObject? ==> r == Failure(NotImplemented(gvk))
  {
    match obj
    case StatefulSetObject(o) => Success(BuildStatefulSetV1(o, conf))
    case _ => Failure(NotImplemented(gvk))
  }

  function DecodeStatefulSet(decoded: Decoded, conf: CostimatorConfig): (r: Result<HorizontalScalable, string>)
    ensures decoded.Failure? ==> r.Failure? && DecodeErrorHead <= r.error
    ensures decoded.Success? ==> r == BuildStatefulSet(decoded.value.0, decoded.value.1, conf)
  {
    match decoded
    case Failure(cause) => Failure(DecodeError(cause))
    case Success((obj, gvk)) => BuildStatefulSet(obj, gvk, conf)
  }
}

/**
 * The estimator's PersistentVolumeClaim builder: storage class default,
 * request and limit falling back to each other, and the claim's key.
 */
module VolumeClaimBuilder {
  import opened Wrappers
  import opened Config
  import opened Kube
  import opened Types

  const StorageClassStandard := "standard"

  /**
   * Requests and limits hold storage only. A zero request takes the limit,
   * then a zero limit takes the (possibly updated) request; with neither
   * declared both stay 0. `conf` is merged with the defaults but no
   * configured value is used.
   */
  function BuildVolumeClaimV1(volume: PersistentVolumeClaim, conf: CostimatorConfig): (v: VolumeClaim)
    ensures var sc := volume.spec.storageClassName;
      v.storageClass == if sc.Some? && sc.value != "" then sc.value else StorageClassStandard
    ensures var rq := Quantity(volume.spec.resources.requests.storageBytes);
      var lm := Quantity(volume.spec.resources.limits.storageBytes);
      && v.requests.storage == (if rq != 0 then rq else lm)
      && v.limits.storage == (if lm != 0 then lm else v.requests.storage)
      && (rq == 0 || lm == 0 ==> v.requests.storage == v.limits.storage)
    ensures v.requests.cpu == v.requests.memory == v.limits.cpu == v.limits.memory == 0
    ensures v.apiVersionKindName
            == BuildAPIVersionKindName(volume.meta.apiVersion, VolumeClaimKind, volume.meta.namespace, volume.meta.name)
  {
    var conf := PopulateConfigNotProvided(conf);
    var storageClass :=
      if volume.spec.storageClassName.Some? && volume.spec.storageClassName.value != ""
      then volume.spec.storageClassName.value else StorageClassStandard;
    var requests := Quantity(volume.spec.resources.requests.storageBytes);
    var limits := Quantity(volume.spec.resources.limits.storageBytes);
    var requests := if requests == 0 then limits else requests;
    var limits := if limits == 0 then requests else limits;
    VolumeClaim(
      BuildAPIVersionKindName(volume.meta.apiVersion, VolumeClaimKind, volume.meta.namespace, volume.meta.name),
      storageClass, Resource(0, 0, requests), Resource(0, 0, limits))
  }

  function BuildVolumeClaim(obj: K8sObject, gvk: GroupVersionKind, conf: CostimatorConfig): (r: Result<VolumeClaim, string>)
    ensures obj.PvcObject? ==> r == Success(BuildVolumeClaimV1(obj.pvc, conf))
    ensures !obj.PvcObject? ==> r == Failure(NotImplemented(gvk))
  {
    match obj
    case PvcObject(pvc) => Success(BuildVolumeClaimV1(pvc, conf))
    case _ => Failure(NotImplemented(gvk))
  }

  function DecodeVolumeClaim(decoded: Decoded, conf: CostimatorConfig): (r: Result<VolumeClaim, string>)
    ensures decoded.Failure? ==> r.Failure? && DecodeErrorHead <= r.error
    ensures decoded.Success? ==> r == BuildVolumeClaim(decoded.value.0, decoded.value.1, conf)
  {
    match decoded
    case Failure(cause) => Failure(DecodeError(cause))
    case Success((obj, gvk)) => BuildVolumeClaim(obj, gvk, conf)
  }

  /** The price of a claim depends on its sizes only, so a claim without sizes costs nothing. */
  lemma UnsizedClaimCostsNothing(volume: PersistentVolumeClaim, conf: CostimatorConfig, pc: PriceCatalog)
    requires Quantity(volume.spec.resources.requests.storageBytes) == 0
    requires Quantity(volume.spec.resources.limits.storageBytes) == 0
    ensures BuildVolumeClaimV1(volume, conf).EstimateCost(pc) == Costs.Zero(VolumeClaimKind)
  {
  }
}

/**
 * Decoded Kubernetes objects, reduced to the fields the estimator and the
 * exporter read. A pointer field of the API types is an `Option`, except
 * where the code dereferences it unchecked (a metric's resource block, a
 * VPA's target reference), which are always present here; a
 * resource quantity is given already parsed (milli-cores for CPU, bytes for
 * memory and storage), `None` when the resource list has no entry for it.
 * The decoder itself is not modelled: its outcome is an input.
 */
module Kube {
  import opened Wrappers

  /** The type of a decoded object as the decoder reports it. */
  datatype GroupVersionKind = GroupVersionKind(group: string, version: string, kind: string)

  /** The `%+v` rendering of a GroupVersionKind. */
  function FormatGVK(gvk: GroupVersionKind): string
  {
    "{Group:" + gvk.group + " Version:" + gvk.version + " Kind:" + gvk.kind + "}"
  }

  /** Type and object metadata: `apiVersion`, `kind`, `metadata.namespace`, `metadata.name`. */
  datatype ObjectMeta = ObjectMeta(apiVersion: string, kind: string, namespace: string, name: string)

  /** A resource list with parsed quantities. */
  datatype ResourceList = ResourceList(cpuMillis: Option<int>, memoryBytes: Option<int>, storageBytes: Option<int>)

  /** The value a missing entry reads as: the zero quantity. */
  function Quantity(q: Option<int>): int
  {
    if q.Some? then q.value else 0
  }

  datatype ResourceRequirements = ResourceRequirements(requests: ResourceList, limits: ResourceList)

  datatype ContainerSpec = ContainerSpec(name: string, resources: ResourceRequirements)

  /** A pod template's spec: init containers and regular containers. */
  datatype PodSpec = PodSpec(initContainers: seq<ContainerSpec>, containers: seq<ContainerSpec>)

  // ----- core/v1 PersistentVolumeClaim -----

  datatype PersistentVolumeClaimSpec = PersistentVolumeClaimSpec(
    storageClassName: Option<string>, resources: ResourceRequirements)

  datatype PersistentVolumeClaim = PersistentVolumeClaim(meta: ObjectMeta, spec: PersistentVolumeClaimSpec)

  // ----- apps/v1 workloads -----

  datatype DeploymentV1 = DeploymentV1(meta: ObjectMeta, replicas: Option<int>, template: PodSpec)

  datatype ReplicaSetV1 = ReplicaSetV1(meta: ObjectMeta, replicas: Option<int>, template: PodSpec)

  datatype StatefulSetV1 = StatefulSetV1(
    meta: ObjectMeta, replicas: Option<int>, template: PodSpec,
    volumeClaimTemplates: seq<PersistentVolumeClaim>)

  datatype DaemonSetV1 = DaemonSetV1(meta: ObjectMeta, template: PodSpec)

  // ----- autoscaling HorizontalPodAutoscaler, three API versions -----

  datatype CrossVersionObjectReference = CrossVersionObjectReference(kind: string, name: string, apiVersion: string)

  /** The metric source type that names a resource metric. */
  const ResourceMetricSourceType := "Resource"

  /** autoscaling/v2beta2: the target is a struct whose utilization is optional. */
  datatype MetricTargetV2beta2 = MetricTargetV2beta2(averageUtilization: Option<int>)
  datatype ResourceMetricSourceV2beta2 = ResourceMetricSourceV2beta2(name: string, target: MetricTargetV2beta2)
  datatype MetricSpecV2beta2 = MetricSpecV2beta2(metricType: string, resource: ResourceMetricSourceV2beta2)

  /** autoscaling/v2beta1: the utilization sits on the resource source itself. */
  datatype ResourceMetricSourceV2beta1 = ResourceMetricSourceV2beta1(name: string, targetAverageUtilization: Option<int>)
  datatype MetricSpecV2beta1 = MetricSpecV2beta1(metricType: string, resource: ResourceMetricSourceV2beta1)

  datatype HpaSpecV2beta2 = HpaSpecV2beta2(
    scaleTargetRef: CrossVersionObjectReference, minReplicas: Option<int>, maxReplicas: int,
    metrics: seq<MetricSpecV2beta2>)

  datatype HpaSpecV2beta1 = HpaSpecV2beta1(
    scaleTargetRef: CrossVersionObjectReference, minReplicas: Option<int>, maxReplicas: int,
    metrics: seq<MetricSpecV2beta1>)

  datatype HpaSpecV1 = HpaSpecV1(
    scaleTargetRef: CrossVersionObjectReference, minReplicas: Option<int>, maxReplicas: int,
    targetCPUUtilizationPercentage: Option<int>)

  datatype HorizontalPodAutoscalerV2beta2 = HorizontalPodAutoscalerV2beta2(meta: ObjectMeta, spec: HpaSpecV2beta2)
  datatype HorizontalPodAutoscalerV2beta1 = HorizontalPodAutoscalerV2beta1(meta: ObjectMeta, spec: HpaSpecV2beta1)
  datatype HorizontalPodAutoscalerV1 = HorizontalPodAutoscalerV1(meta: ObjectMeta, spec: HpaSpecV1)

  // ----- autoscaling.k8s.io VerticalPodAutoscaler -----

  /** A recommended amount: CPU in milli-cores, memory in bytes. */
  datatype RecommendedResources = RecommendedResources(cpuMillis: Option<int>, memoryBytes: Option<int>)

  datatype ContainerRecommendation = ContainerRecommendation(
    containerName: string, target: RecommendedResources, upperBound: RecommendedResources)

  datatype PodUpdatePolicy = PodUpdatePolicy(updateMode: Option<string>)

  /** The update mode that only recommends. */
  const UpdateModeOff := "Off"

  datatype VpaSpec = VpaSpec(targetRef: CrossVersionObjectReference, updatePolicy: Option<PodUpdatePolicy>)

  /** `status.recommendation`, when present, holds the per-container recommendations. */
  datatype VpaStatus = VpaStatus(recommendation: Option<seq<ContainerRecommendation>>)

  /** A VPA together with the type its own `apiVersion`/`kind` fields declare. */
  datatype VerticalPodAutoscaler = VerticalPodAutoscaler(
    typeMeta: GroupVersionKind, meta: ObjectMeta, spec: VpaSpec, status: VpaStatus)

  /** The Go type of a decoded object, as the builders' type switches see it. */
  datatype K8sObject =
    | HpaV2beta2Object(hpaV2beta2: HorizontalPodAutoscalerV2beta2)
    | HpaV2beta1Object(hpaV2beta1: HorizontalPodAutoscalerV2beta1)
    | HpaV1Object(hpaV1: HorizontalPodAutoscalerV1)
    | HpaListV1Object(hpaItems: seq<HorizontalPodAutoscalerV1>)
    | DeploymentObject(deployment: DeploymentV1)
    | ReplicaSetObject(replicaSet: ReplicaSetV1)
    | StatefulSetObject(statefulSet: StatefulSetV1)
    | DaemonSetObject(daemonSet: DaemonSetV1)
    | PvcObject(pvc: PersistentVolumeClaim)
    | VpaObject(vpa: VerticalPodAutoscaler)
    | VpaListObject(vpaItems: seq<VerticalPodAutoscaler>)
    | OtherObject

  /** What the decoder returns for one document: the object and its type, or the decoder's error text. */
  type Decoded = Result<(K8sObject, GroupVersionKind), string>
}

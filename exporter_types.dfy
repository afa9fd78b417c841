/**
 * The metrics exporter's simplified autoscaler records: every autoscaling
 * API version of an HPA, and every supported VPA version, reduced to one
 * shape that the time-series builders read.
 */
module ExporterTypes {
  import opened Kube

  /** The object an autoscaler applies to. */
  datatype TargetRef = TargetRef(apiVersion: string, kind: string, name: string)

  /** A VPA recommended amount: CPU in cores, memory in bytes. */
  datatype Resource = Resource(cpu: real, memory: int)

  datatype VpaRecommendation = VpaRecommendation(containerName: string, target: Resource, upperBound: Resource)

  datatype VPA = VPA(
    namespace: string,
    name: string,
    targetRef: TargetRef,
    isInRecommendationMode: bool,
    recommendations: seq<VpaRecommendation>)

  datatype HPA = HPA(
    namespace: string,
    name: string,
    targetRef: TargetRef,
    minReplicas: int,
    maxReplicas: int,
    targetCPUPercentage: int)

  const ListDecodeErrorHead := "Error Decoding."
  const ListDecodeErrorPrefix :=
    ListDecodeErrorHead + " Check if your GroupVersionKind is defined in api/k8s/decoder.go. Root cause "
  const NotSupportedPrefix := "APIVersion and Kind not Supported: "

  function ToTargetRef(r: CrossVersionObjectReference): TargetRef
  {
    TargetRef(r.apiVersion, r.kind, r.name)
  }

  /** The error of a list document the decoder rejected, wrapping the decoder's own message. */
  function ListDecodeError(cause: string): (msg: string)
    ensures ListDecodeErrorHead <= msg
    ensures |msg| >= |cause| && msg[|msg| - |cause|..] == cause
  {
    var msg := ListDecodeErrorPrefix + cause;
    assert msg[..|ListDecodeErrorHead|] == ListDecodeErrorHead;
    assert msg[|ListDecodeErrorPrefix|..] == cause;
    msg
  }

  /** The error of a document of a type or version the exporter does not read. */
  function NotSupported(gvk: GroupVersionKind): (msg: string)
    ensures NotSupportedPrefix <= msg && msg[|NotSupportedPrefix|..] == FormatGVK(gvk)
  {
    var msg := NotSupportedPrefix + FormatGVK(gvk);
    assert msg[..|NotSupportedPrefix|] == NotSupportedPrefix;
    msg
  }
}

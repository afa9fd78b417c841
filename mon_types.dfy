/**
 * The Cloud Monitoring time series the exporter writes: one point per
 * series, with the monitored resource's labels identifying the cluster and
 * the workload, and the metric's labels identifying the autoscaler.
 */
module MonTypes {
  import Text
  import Types

  datatype TypedValue = Int64Value(int64Value: int) | DoubleValue(doubleValue: real)

  /** A time series holding one point whose interval ends at `endTime`. */
  datatype TimeSeries = TimeSeries(
    resourceType: string,
    resourceLabels: map<string, string>,
    metricType: string,
    metricLabels: map<string, string>,
    endTime: string,
    value: TypedValue,
    unit: string)

  /** The cluster's identity as the GCE metadata server reports it, already trimmed. */
  datatype ClusterEnv = ClusterEnv(projectId: string, location: string, clusterName: string)

  const CpuUnit := "{cpu}"

  // Metric label names; the first is spelled as the exporter writes it.
  const TargetApiVersionLabel := "targetef_apiversion"
  const TargetKindLabel := "targetref_kind"
  const TargetNameLabel := "targetref_name"
  const ObjectNameLabel := "object_name"

  // Resource label names.
  const NamespaceLabel := "namespace_name"
  const PodLabel := "pod_name"

  /** The labels every exported resource carries: the cluster, the namespace and the target as the pod name. */
  function WorkloadLabels(env: ClusterEnv, namespace: string, podName: string): (labels: map<string, string>)
    ensures labels.Keys == {"project_id", "location", "cluster_name", NamespaceLabel, PodLabel}
    ensures labels[NamespaceLabel] == namespace && labels[PodLabel] == podName
  {
    map["project_id" := env.projectId, "location" := env.location, "cluster_name" := env.clusterName,
        NamespaceLabel := namespace, PodLabel := podName]
  }

  /** The key that identifies an autoscaler's target: `kind|namespace|name`. */
  function TargetKey(kind: string, namespace: string, name: string): string
  {
    kind + "|" + namespace + "|" + name
  }

  /** Splitting a target key at '|' gives back its three parts. */
  lemma {:induction false} SplitTargetKey(kind: string, namespace: string, name: string)
    requires Types.NoSeparator(kind) && Types.NoSeparator(namespace) && Types.NoSeparator(name)
    ensures Text.Split(TargetKey(kind, namespace, name), '|') == [kind, namespace, name]
  {
    var tail := namespace + ['|'] + name;
    assert TargetKey(kind, namespace, name) == kind + ['|'] + tail;
    Text.SplitAfterPrefix(kind, '|', tail);
    Text.SplitAfterPrefix(namespace, '|', name);
    Text.SplitNone(name, '|');
  }

  /** Two targets whose parts hold no '|' share a key only when they are the same target. */
  lemma {:induction false} TargetKeyInjective(kind: string, namespace: string, name: string,
                                              kind': string, namespace': string, name': string)
    requires Types.NoSeparator(kind) && Types.NoSeparator(namespace) && Types.NoSeparator(name)
    requires Types.NoSeparator(kind') && Types.NoSeparator(namespace') && Types.NoSeparator(name')
    ensures TargetKey(kind, namespace, name) == TargetKey(kind', namespace', name') <==>
      kind == kind' && namespace == namespace' && name == name'
  {
    SplitTargetKey(kind, namespace, name);
    SplitTargetKey(kind', namespace', name');
  }
}

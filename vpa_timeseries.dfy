/**
 * The VPA recommendation time series: for the first VPA in recommendation
 * mode of each target, a CPU series and a memory series per container
 * recommendation, in the recommendations' order.
 */
module VpaTimeSeries {
  import opened ExporterTypes
  import opened MonTypes
  import opened Selection

  const VpaCpuMetricType := "custom.googleapis.com/podautoscaler/vpa/cpu/target_recommendation"
  const VpaMemoryMetricType := "custom.googleapis.com/podautoscaler/vpa/memory/target_recommendation"
  const ContainerResourceType := "k8s_container"
  const ContainerLabel := "container_name"
  const BytesUnit := "By"

  predicate InRecommendationMode(vpa: VPA)
  {
    vpa.isInRecommendationMode
  }

  function VpaTargetKey(vpa: VPA): string
  {
    TargetKey(vpa.targetRef.kind, vpa.namespace, vpa.targetRef.name)
  }

  /** The target's workload labels and the recommended container. */
  function ContainerLabels(vpa: VPA, containerName: string, env: ClusterEnv): (labels: map<string, string>)
    ensures labels.Keys == WorkloadLabels(env, vpa.namespace, vpa.targetRef.name).Keys + {ContainerLabel}
    ensures labels[ContainerLabel] == containerName
  {
    WorkloadLabels(env, vpa.namespace, vpa.targetRef.name)[ContainerLabel := containerName]
  }

  /** The VPA's target and its own name, as metric labels. */
  function VpaMetricLabels(vpa: VPA): (labels: map<string, string>)
    ensures labels.Keys == {TargetApiVersionLabel, TargetKindLabel, TargetNameLabel, ObjectNameLabel}
    ensures labels[TargetApiVersionLabel] == vpa.targetRef.apiVersion && labels[TargetKindLabel] == vpa.targetRef.kind
      && labels[TargetNameLabel] == vpa.targetRef.name && labels[ObjectNameLabel] == vpa.name
  {
    map[TargetApiVersionLabel := vpa.targetRef.apiVersion,
        TargetKindLabel := vpa.targetRef.kind,
        TargetNameLabel := vpa.targetRef.name,
        ObjectNameLabel := vpa.name]
  }

  function VpaCpuSeries(vpa: VPA, rec: VpaRecommendation, labels: map<string, string>, now: string): TimeSeries
  {
    TimeSeries(ContainerResourceType, labels, VpaCpuMetricType, VpaMetricLabels(vpa), now,
               DoubleValue(rec.target.cpu), CpuUnit)
  }

  function VpaMemorySeries(vpa: VPA, rec: VpaRecommendation, labels: map<string, string>, now: string): TimeSeries
  {
    TimeSeries(ContainerResourceType, labels, VpaMemoryMetricType, VpaMetricLabels(vpa), now,
               Int64Value(rec.target.memory), BytesUnit)
  }

  /** Series `2i` and `2i + 1` are the CPU and memory targets of recommendation `i`. */
  function RecommendationSeries(vpa: VPA, now: string, env: ClusterEnv): (ts: seq<TimeSeries>)
  {
    var recs := vpa.recommendations;
    seq(2 * |recs|, k requires 0 <= k < 2 * |recs| =>
      var rec := recs[k / 2];
      var labels := ContainerLabels(vpa, rec.containerName, env);
      if k % 2 == 0 then VpaCpuSeries(vpa, rec, labels, now) else VpaMemorySeries(vpa, rec, labels, now))
  }

  method BuildVPARecommendations(vpa: VPA, now: string, env: ClusterEnv) returns (tsList: seq<TimeSeries>)
    ensures tsList == RecommendationSeries(vpa, now, env)
  {
    var recs := vpa.recommendations;
    tsList := [];
    for i := 0 to |recs|
      invariant |tsList| == 2 * i
      invariant forall k :: 0 <= k < 2 * i ==> tsList[k] == RecommendationSeries(vpa, now, env)[k]
    {
      var labels := ContainerLabels(vpa, recs[i].containerName, env);
      var cpuTs := VpaCpuSeries(vpa, recs[i], labels, now);
      tsList := tsList + [cpuTs];
      var memoryTs := VpaMemorySeries(vpa, recs[i], labels, now);
      tsList := tsList + [memoryTs];
    }
  }

  /**
   * Each recommendation yields its CPU target in cores and its memory
   * target in bytes, both labelled with its container and the VPA's target.
   */
  lemma RecommendationSeriesContents(vpa: VPA, now: string, env: ClusterEnv, i: nat)
    requires i < |vpa.recommendations|
    ensures |RecommendationSeries(vpa, now, env)| == 2 * |vpa.recommendations|
    ensures RecommendationSeries(vpa, now, env)[2 * i].metricType == VpaCpuMetricType
    ensures RecommendationSeries(vpa, now, env)[2 * i].value == DoubleValue(vpa.recommendations[i].target.cpu)
    ensures RecommendationSeries(vpa, now, env)[2 * i + 1].metricType == VpaMemoryMetricType
    ensures RecommendationSeries(vpa, now, env)[2 * i + 1].value == Int64Value(vpa.recommendations[i].target.memory)
    ensures RecommendationSeries(vpa, now, env)[2 * i].resourceLabels[ContainerLabel] == vpa.recommendations[i].containerName
    ensures RecommendationSeries(vpa, now, env)[2 * i + 1].resourceLabels[ContainerLabel] == vpa.recommendations[i].containerName
    ensures RecommendationSeries(vpa, now, env)[2 * i].resourceLabels[PodLabel] == vpa.targetRef.name
    ensures RecommendationSeries(vpa, now, env)[2 * i].resourceLabels
      == ContainerLabels(vpa, vpa.recommendations[i].containerName, env)
    ensures RecommendationSeries(vpa, now, env)[2 * i + 1].resourceLabels
      == ContainerLabels(vpa, vpa.recommendations[i].containerName, env)
    ensures RecommendationSeries(vpa, now, env)[2 * i].metricLabels == VpaMetricLabels(vpa)
    ensures RecommendationSeries(vpa, now, env)[2 * i + 1].metricLabels == VpaMetricLabels(vpa)
    ensures RecommendationSeries(vpa, now, env)[2 * i].resourceType == ContainerResourceType
      && RecommendationSeries(vpa, now, env)[2 * i + 1].resourceType == ContainerResourceType
    ensures RecommendationSeries(vpa, now, env)[2 * i].unit == CpuUnit
      && RecommendationSeries(vpa, now, env)[2 * i + 1].unit == BytesUnit
    ensures RecommendationSeries(vpa, now, env)[2 * i].endTime == now
      && RecommendationSeries(vpa, now, env)[2 * i + 1].endTime == now
  {
    var rec := vpa.recommendations[i];
    assert PodLabel in WorkloadLabels(env, vpa.namespace, vpa.targetRef.name);
    assert (2 * i) / 2 == i && (2 * i) % 2 == 0;
    assert (2 * i + 1) / 2 == i && (2 * i + 1) % 2 == 1;
  }

  /** The series of the selected VPAs, one VPA after another. */
  function SeriesFor(selected: seq<VPA>, now: string, env: ClusterEnv): seq<TimeSeries>
  {
    if |selected| == 0 then []
    else SeriesFor(selected[..|selected| - 1], now, env) + RecommendationSeries(selected[|selected| - 1], now, env)
  }

  /** The VPAs the exporter writes: the first in recommendation mode for each target. */
  function SelectedVpas(vpas: seq<VPA>): seq<VPA>
  {
    FirstPerKey(vpas, InRecommendationMode, VpaTargetKey)
  }

  function VpaSeriesOf(vpas: seq<VPA>, now: string, env: ClusterEnv): seq<TimeSeries>
  {
    SeriesFor(SelectedVpas(vpas), now, env)
  }

  method BuildVPARecommendationTimeSeries(vpas: seq<VPA>, now: string, env: ClusterEnv)
    returns (tsList: seq<TimeSeries>)
    ensures tsList == VpaSeriesOf(vpas, now, env)
  {
    var seen: map<string, VPA> := map[];
    tsList := [];
    ghost var selected: seq<VPA> := [];
    for i := 0 to |vpas|
      invariant selected == SelectedVpas(vpas[..i])
      invariant seen.Keys == KeysOf(selected, VpaTargetKey)
      invariant tsList == SeriesFor(selected, now, env)
    {
      assert vpas[..i + 1][..i] == vpas[..i];
      var vpa := vpas[i];
      if vpa.isInRecommendationMode {
        var targetKey := TargetKey(vpa.targetRef.kind, vpa.namespace, vpa.targetRef.name);
        if targetKey !in seen {
          KeysOfAppend(selected, vpa, VpaTargetKey);
          seen := seen[targetKey := vpa];
          var recTs := BuildVPARecommendations(vpa, now, env);
          tsList := tsList + recTs;
          assert (selected + [vpa])[..|selected|] == selected;
          selected := selected + [vpa];
        }
      }
    }
    assert vpas[..|vpas|] == vpas;
  }

  /** The number of recommendations of the selected VPAs. */
  function RecommendationCount(selected: seq<VPA>): nat
  {
    if |selected| == 0 then 0
    else RecommendationCount(selected[..|selected| - 1]) + |selected[|selected| - 1].recommendations|
  }

  /** Two series, CPU and memory, per recommendation of every selected VPA. */
  lemma {:induction false} SeriesCount(selected: seq<VPA>, now: string, env: ClusterEnv)
    ensures |SeriesFor(selected, now, env)| == 2 * RecommendationCount(selected)
    decreases |selected|
  {
    if |selected| > 0 {
      SeriesCount(selected[..|selected| - 1], now, env);
    }
  }

  /** Only VPAs in recommendation mode are written, at most one per target. */
  lemma VpaSelectionOnePerTarget(vpas: seq<VPA>)
    ensures forall i :: 0 <= i < |SelectedVpas(vpas)| ==> SelectedVpas(vpas)[i].isInRecommendationMode
    ensures forall i, j :: 0 <= i < j < |SelectedVpas(vpas)| ==>
      VpaTargetKey(SelectedVpas(vpas)[i]) != VpaTargetKey(SelectedVpas(vpas)[j])
  {
    FirstPerKeyDistinct(vpas, InRecommendationMode, VpaTargetKey);
  }
}

/**
 * The HPA CPU-target time series: one series per HPA target that declares
 * a CPU utilization target, written from the first such HPA of that target.
 */
module HpaTimeSeries {
  import opened ExporterTypes
  import opened MonTypes
  import opened Selection
  import Text
  import Types

  const HpaCpuTargetUtilizationMetricType := "custom.googleapis.com/podautoscaler/hpa/cpu/target_utilization"
  const PodResourceType := "k8s_pod"
  const MinReplicasLabel := "minReplicas"
  const MaxReplicasLabel := "maxReplicas"

  predicate HasCpuTarget(hpa: HPA)
  {
    hpa.targetCPUPercentage > 0
  }

  function HpaTargetKey(hpa: HPA): string
  {
    TargetKey(hpa.targetRef.kind, hpa.namespace, hpa.targetRef.name)
  }

  /** The series of one HPA: its CPU target as an integer point on the target's pod. */
  function HpaCpuTargetSeries(hpa: HPA, now: string, env: ClusterEnv): (ts: TimeSeries)
    ensures ts.value == Int64Value(hpa.targetCPUPercentage) && ts.endTime == now
    ensures ts.resourceLabels == WorkloadLabels(env, hpa.namespace, hpa.targetRef.name)
    ensures ts.resourceType == PodResourceType && ts.metricType == HpaCpuTargetUtilizationMetricType
    ensures ts.unit == CpuUnit
    ensures ts.metricLabels.Keys ==
      {TargetApiVersionLabel, TargetKindLabel, TargetNameLabel, MinReplicasLabel, MaxReplicasLabel, ObjectNameLabel}
    ensures ts.metricLabels[TargetApiVersionLabel] == hpa.targetRef.apiVersion
      && ts.metricLabels[TargetKindLabel] == hpa.targetRef.kind
      && ts.metricLabels[TargetNameLabel] == hpa.targetRef.name
      && ts.metricLabels[ObjectNameLabel] == hpa.name
  {
    TimeSeries(
      PodResourceType,
      WorkloadLabels(env, hpa.namespace, hpa.targetRef.name),
      HpaCpuTargetUtilizationMetricType,
      map[TargetApiVersionLabel := hpa.targetRef.apiVersion,
          TargetKindLabel := hpa.targetRef.kind,
          TargetNameLabel := hpa.targetRef.name,
          MinReplicasLabel := Text.Itoa(hpa.minReplicas),
          MaxReplicasLabel := Text.Itoa(hpa.maxReplicas),
          ObjectNameLabel := hpa.name],
      now,
      Int64Value(hpa.targetCPUPercentage),
      CpuUnit)
  }

  /** The replica bounds written as labels read back as the HPA's own bounds. */
  lemma ReplicaLabelsRoundTrip(hpa: HPA, now: string, env: ClusterEnv)
    ensures Text.Atoi(HpaCpuTargetSeries(hpa, now, env).metricLabels[MinReplicasLabel]) == hpa.minReplicas
    ensures Text.Atoi(HpaCpuTargetSeries(hpa, now, env).metricLabels[MaxReplicasLabel]) == hpa.maxReplicas
  {
    Text.ItoaRoundTrip(hpa.minReplicas);
    Text.ItoaRoundTrip(hpa.maxReplicas);
  }

  function SeriesFor(selected: seq<HPA>, now: string, env: ClusterEnv): seq<TimeSeries>
  {
    seq(|selected|, i requires 0 <= i < |selected| => HpaCpuTargetSeries(selected[i], now, env))
  }

  lemma SeriesForAppend(selected: seq<HPA>, hpa: HPA, now: string, env: ClusterEnv)
    ensures SeriesFor(selected + [hpa], now, env) == SeriesFor(selected, now, env) + [HpaCpuTargetSeries(hpa, now, env)]
  {
  }

  /** The HPAs the exporter writes: the first with a CPU target for each target. */
  function SelectedHpas(hpas: seq<HPA>): seq<HPA>
  {
    FirstPerKey(hpas, HasCpuTarget, HpaTargetKey)
  }

  function HpaSeriesOf(hpas: seq<HPA>, now: string, env: ClusterEnv): seq<TimeSeries>
  {
    SeriesFor(SelectedHpas(hpas), now, env)
  }

  method BuildHPACPUTargetUtilizationTimeSeries(hpas: seq<HPA>, now: string, env: ClusterEnv)
    returns (tsList: seq<TimeSeries>)
    ensures tsList == HpaSeriesOf(hpas, now, env)
  {
    var seen: map<string, HPA> := map[];
    tsList := [];
    ghost var selected: seq<HPA> := [];
    for i := 0 to |hpas|
      invariant selected == SelectedHpas(hpas[..i])
      invariant seen.Keys == KeysOf(selected, HpaTargetKey)
      invariant tsList == SeriesFor(selected, now, env)
    {
      assert hpas[..i + 1][..i] == hpas[..i];
      var hpa := hpas[i];
      if hpa.targetCPUPercentage > 0 {
        var targetKey := TargetKey(hpa.targetRef.kind, hpa.namespace, hpa.targetRef.name);
        if targetKey !in seen {
          KeysOfAppend(selected, hpa, HpaTargetKey);
          SeriesForAppend(selected, hpa, now, env);
          seen := seen[targetKey := hpa];
          tsList := tsList + [HpaCpuTargetSeries(hpa, now, env)];
          selected := selected + [hpa];
        }
      }
    }
    assert hpas[..|hpas|] == hpas;
  }

  /** No two series share the target's kind, namespace and name. */
  predicate TargetsDistinct(ts: seq<TimeSeries>)
  {
    forall i, j :: 0 <= i < j < |ts| ==>
      TargetKindLabel in ts[i].metricLabels && TargetKindLabel in ts[j].metricLabels
      && TargetNameLabel in ts[i].metricLabels && TargetNameLabel in ts[j].metricLabels
      && NamespaceLabel in ts[i].resourceLabels && NamespaceLabel in ts[j].resourceLabels
      && (ts[i].metricLabels[TargetKindLabel] != ts[j].metricLabels[TargetKindLabel]
          || ts[i].resourceLabels[NamespaceLabel] != ts[j].resourceLabels[NamespaceLabel]
          || ts[i].metricLabels[TargetNameLabel] != ts[j].metricLabels[TargetNameLabel])
  }

  /** At most one series per target, each holding a positive CPU target. */
  lemma HpaSeriesOnePerTarget(hpas: seq<HPA>, now: string, env: ClusterEnv)
    ensures TargetsDistinct(HpaSeriesOf(hpas, now, env))
    ensures forall i :: 0 <= i < |HpaSeriesOf(hpas, now, env)| ==>
      HpaSeriesOf(hpas, now, env)[i].value.int64Value > 0
  {
    var sel := SelectedHpas(hpas);
    var ts := HpaSeriesOf(hpas, now, env);
    FirstPerKeyDistinct(hpas, HasCpuTarget, HpaTargetKey);
    forall i, j | 0 <= i < j < |ts|
      ensures ts[i].metricLabels[TargetKindLabel] != ts[j].metricLabels[TargetKindLabel]
          || ts[i].resourceLabels[NamespaceLabel] != ts[j].resourceLabels[NamespaceLabel]
          || ts[i].metricLabels[TargetNameLabel] != ts[j].metricLabels[TargetNameLabel]
    {
      assert HpaTargetKey(sel[i]) != HpaTargetKey(sel[j]);
      assert ts[i].metricLabels[TargetKindLabel] == sel[i].targetRef.kind;
      assert ts[j].metricLabels[TargetKindLabel] == sel[j].targetRef.kind;
      assert ts[i].metricLabels[TargetNameLabel] == sel[i].targetRef.name;
      assert ts[j].metricLabels[TargetNameLabel] == sel[j].targetRef.name;
    }
  }

  /** The HPA's target kind, namespace and name hold no '|', as Kubernetes names never do. */
  predicate WellFormedTarget(hpa: HPA)
  {
    Types.NoSeparator(hpa.targetRef.kind) && Types.NoSeparator(hpa.namespace) && Types.NoSeparator(hpa.targetRef.name)
  }

  /** The series labels name the HPA's target. */
  lemma SeriesNamesTarget(hpa: HPA, now: string, env: ClusterEnv)
    ensures HpaCpuTargetSeries(hpa, now, env).metricLabels[TargetKindLabel] == hpa.targetRef.kind
    ensures HpaCpuTargetSeries(hpa, now, env).resourceLabels[NamespaceLabel] == hpa.namespace
    ensures HpaCpuTargetSeries(hpa, now, env).metricLabels[TargetNameLabel] == hpa.targetRef.name
  {
  }

  /** An HPA with a CPU target has its key among the selected HPAs. */
  lemma SelectedWithKey(hpas: seq<HPA>, k: nat) returns (i: nat)
    requires k < |hpas| && HasCpuTarget(hpas[k])
    ensures i < |SelectedHpas(hpas)| && HpaTargetKey(SelectedHpas(hpas)[i]) == HpaTargetKey(hpas[k])
  {
    FirstPerKeyKeys(hpas, HasCpuTarget, HpaTargetKey);
    assert HpaTargetKey(hpas[k]) in EligibleKeys(hpas, HasCpuTarget, HpaTargetKey);
    i :| 0 <= i < |SelectedHpas(hpas)| && HpaTargetKey(SelectedHpas(hpas)[i]) == HpaTargetKey(hpas[k]);
  }

  /** Every target of an HPA with a CPU target gets a series. */
  lemma HpaSeriesCoversTargets(hpas: seq<HPA>, k: nat, now: string, env: ClusterEnv)
    requires forall j :: 0 <= j < |hpas| ==> WellFormedTarget(hpas[j])
    requires k < |hpas| && HasCpuTarget(hpas[k])
    ensures exists i :: 0 <= i < |HpaSeriesOf(hpas, now, env)| &&
              HpaSeriesOf(hpas, now, env)[i].metricLabels[TargetKindLabel] == hpas[k].targetRef.kind &&
              HpaSeriesOf(hpas, now, env)[i].resourceLabels[NamespaceLabel] == hpas[k].namespace &&
              HpaSeriesOf(hpas, now, env)[i].metricLabels[TargetNameLabel] == hpas[k].targetRef.name
  {
    var sel := SelectedHpas(hpas);
    var h := hpas[k];
    var i := SelectedWithKey(hpas, k);
    FirstPerKeyKeeps(hpas, HasCpuTarget, HpaTargetKey, WellFormedTarget);
    assert WellFormedTarget(sel[i]);
    TargetKeyInjective(sel[i].targetRef.kind, sel[i].namespace, sel[i].targetRef.name,
                       h.targetRef.kind, h.namespace, h.targetRef.name);
    SeriesNamesTarget(sel[i], now, env);
    assert HpaSeriesOf(hpas, now, env)[i] == HpaCpuTargetSeries(sel[i], now, env);
  }

  /** The series written for a target is the one of the first HPA with a CPU target for it. */
  lemma HpaFirstOfTargetWritten(hpas: seq<HPA>, k: nat, now: string, env: ClusterEnv)
    requires k < |hpas| && IsFirstOfKey(hpas, k, HasCpuTarget, HpaTargetKey)
    ensures HpaCpuTargetSeries(hpas[k], now, env) in HpaSeriesOf(hpas, now, env)
  {
    var sel := SelectedHpas(hpas);
    FirstPerKeyIsFirsts(hpas, HasCpuTarget, HpaTargetKey);
    FirstsContains(hpas, |hpas|, k);
    var m :| 0 <= m < |sel| && sel[m] == hpas[k];
    assert HpaSeriesOf(hpas, now, env)[m] == HpaCpuTargetSeries(hpas[k], now, env);
  }

  lemma {:induction false} FirstsContains(hpas: seq<HPA>, n: nat, k: nat)
    requires k < n <= |hpas|
    ensures IsFirstOfKey(hpas, k, HasCpuTarget, HpaTargetKey) ==> hpas[k] in Firsts(hpas, n, HasCpuTarget, HpaTargetKey)
    decreases n
  {
    if k < n - 1 {
      FirstsContains(hpas, n - 1, k);
    }
  }
}

/**
 * The CPU target of an autoscaling/v2beta2 or v2beta1 HPA: the loop over
 * its metrics keeps overwriting the target, so the last resource metric
 * named "cpu" that sets a utilization wins; without one the target is 0.
 */
module HpaMetrics {
  import opened Wrappers
  import opened Kube

  /** The position of the last element satisfying `p`, or -1. */
  function LastIndex<T>(xs: seq<T>, p: T -> bool): (k: int)
    ensures -1 <= k < |xs|
    ensures k >= 0 ==> p(xs[k]) && forall j :: k < j < |xs| ==> !p(xs[j])
    ensures k == -1 ==> forall j :: 0 <= j < |xs| ==> !p(xs[j])
  {
    if |xs| == 0 then -1
    else if p(xs[|xs| - 1]) then |xs| - 1
    else LastIndex(xs[..|xs| - 1], p)
  }

  predicate IsCpuTargetV2beta2(m: MetricSpecV2beta2)
  {
    m.metricType == ResourceMetricSourceType && m.resource.name == "cpu"
    && m.resource.target.averageUtilization.Some?
  }

  predicate IsCpuTargetV2beta1(m: MetricSpecV2beta1)
  {
    m.metricType == ResourceMetricSourceType && m.resource.name == "cpu"
    && m.resource.targetAverageUtilization.Some?
  }

  function CpuTargetV2beta2(metrics: seq<MetricSpecV2beta2>): int
  {
    var k := LastIndex(metrics, IsCpuTargetV2beta2);
    if k < 0 then 0 else metrics[k].resource.target.averageUtilization.value
  }

  function CpuTargetV2beta1(metrics: seq<MetricSpecV2beta1>): int
  {
    var k := LastIndex(metrics, IsCpuTargetV2beta1);
    if k < 0 then 0 else metrics[k].resource.targetAverageUtilization.value
  }

  /** The target is the utilization of some matching metric with no matching metric after it, or 0 when none matches. */
  lemma CpuTargetV2beta2IsLastMatch(metrics: seq<MetricSpecV2beta2>)
    ensures (forall j :: 0 <= j < |metrics| ==> !IsCpuTargetV2beta2(metrics[j])) ==> CpuTargetV2beta2(metrics) == 0
    ensures forall i :: (0 <= i < |metrics| && IsCpuTargetV2beta2(metrics[i])
                         && (forall j :: i < j < |metrics| ==> !IsCpuTargetV2beta2(metrics[j])))
                        ==> CpuTargetV2beta2(metrics) == metrics[i].resource.target.averageUtilization.value
  {
  }

  lemma CpuTargetV2beta1IsLastMatch(metrics: seq<MetricSpecV2beta1>)
    ensures (forall j :: 0 <= j < |metrics| ==> !IsCpuTargetV2beta1(metrics[j])) ==> CpuTargetV2beta1(metrics) == 0
    ensures forall i :: (0 <= i < |metrics| && IsCpuTargetV2beta1(metrics[i])
                         && (forall j :: i < j < |metrics| ==> !IsCpuTargetV2beta1(metrics[j])))
                        ==> CpuTargetV2beta1(metrics) == metrics[i].resource.targetAverageUtilization.value
  {
  }

  /** The scan over v2beta2 metrics, overwriting the target at every match. */
  method ScanCpuTargetV2beta2(metrics: seq<MetricSpecV2beta2>) returns (targetCPUPercentage: int)
    ensures targetCPUPercentage == CpuTargetV2beta2(metrics)
  {
    targetCPUPercentage := 0;
    for i := 0 to |metrics|
      invariant targetCPUPercentage == CpuTargetV2beta2(metrics[..i])
    {
      var metric := metrics[i];
      assert metrics[..i + 1][..i] == metrics[..i];
      if metric.metricType == ResourceMetricSourceType {
        var res := metric.resource;
        if res.name == "cpu" && res.target.averageUtilization.Some? {
          targetCPUPercentage := res.target.averageUtilization.value;
        }
      }
    }
    assert metrics[..|metrics|] == metrics;
  }

  /** The scan over v2beta1 metrics, overwriting the target at every match. */
  method ScanCpuTargetV2beta1(metrics: seq<MetricSpecV2beta1>) returns (targetCPUPercentage: int)
    ensures targetCPUPercentage == CpuTargetV2beta1(metrics)
  {
    targetCPUPercentage := 0;
    for i := 0 to |metrics|
      invariant targetCPUPercentage == CpuTargetV2beta1(metrics[..i])
    {
      var metric := metrics[i];
      assert metrics[..i + 1][..i] == metrics[..i];
      if metric.metricType == ResourceMetricSourceType {
        var res := metric.resource;
        if res.name == "cpu" && res.targetAverageUtilization.Some? {
          targetCPUPercentage := res.targetAverageUtilization.value;
        }
      }
    }
    assert metrics[..|metrics|] == metrics;
  }
}

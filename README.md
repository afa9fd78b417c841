# gke-shift-left-cost in Dafny

A model of the two programs of the GKE shift-left cost repository, with
proofs about them.

- **The cost estimator** (`gke-shift-left-cost/api`, `api`):
  - reads Kubernetes manifests: Deployments, ReplicaSets, StatefulSets,
    DaemonSets, PersistentVolumeClaims and HorizontalPodAutoscalers of
    `autoscaling/v1`, `v2beta1` and `v2beta2`;
  - turns each into a simplified workload record and binds each HPA to the
    workload it scales;
  - prices CPU, memory and standard persistent disk by the month into cost
    ranges (minimum and maximum requested, HPA buffer, minimum and maximum
    limited);
  - compares two estimates and summarises the change.
- **The metrics exporter** (`apis/k8s`, `apis/mon`):
  - reads HPA and VPA lists;
  - writes one CPU-target series per HPA target;
  - writes a CPU and a memory recommendation series per container for each
    VPA target in recommendation mode;
  - sends the series to Cloud Monitoring in chunks, retrying server errors.

Modules follow the source files:

- Support modules:
  - `Wrappers`: `Option` and `Result`.
  - `Text`: `strings.Join`, `strings.Index`, `strconv.Itoa`, and the splits
    and parses that undo them.
  - `Kube`: decoded Kubernetes objects.
- The estimator's records, one module per source file:
  - `Config`;
  - `Costs` (`cost.go`);
  - `Types` (`types.go`).
- The estimator's builders, one module per builder file:
  - `HpaMetrics`, `HpaBuilder`;
  - `VolumeClaimBuilder`, `DeploymentBuilder`, `ReplicaSetBuilder`,
    `StatefulSetBuilder`, `DaemonSetBuilder`.
- The estimator's object store, `Manifests` (`manifests.go`):
  - a `class Manifests` whose sequences and index maps the loading methods
    update in place;
  - every method is proved against a function over a value snapshot
    (`State`) of the class's fields.
- The exporter:
  - `ExporterTypes`, `ExporterHpa`, `ExporterVpa` (`apis/k8s`);
  - `MonTypes`, `Selection`, `HpaTimeSeries`, `VpaTimeSeries`,
    `CloudMonitoring` (`apis/mon`).

Modelling choices:

- **The decoder.** YAML decoding and Kubernetes quantity parsing are not
  modelled. What the decoder returns for a document is an input: the
  object with its type, or the decoder's error text. Quantities arrive
  already parsed, as milli-cores or bytes.
- **Numbers.** Money, cores and percentages are `real`. Replica counts and
  resource amounts are unbounded integers. Go's truncating integer
  division (Go `int64` `/`) is written out in `Types.Quot`.
- **The Manifests store.** The store's pointer maps (`key -> *Deployment`)
  are maps from keys to positions in the workload sequence. Binding an
  HPA writes that workload's slot in place.
- **The monitoring service and the cluster's metadata server** are
  parameters:
  - the service is the answer it gives to each trial of each chunk;
  - the metadata server is the project, location and cluster name it
    reports.

Where the code and its documentation disagree, the model follows the code:

- **Percentage change.** It is computed against the *current* cost. The
  change is divided by the new value, not by the previous one.
- **Unbounded limits.** A container without a limit gets its request raised
  by the configured percentage. The estimated limit is then clamped to the
  request only on the summed range (`postProcessCost`), not per container.
- **Claim sizes.** A persistent volume claim with neither a request nor a
  limit is sized 0. No default storage size applies.

## Model

| member | source | states |
|---|---|---|
| Text.IndexOf | gke-shift-left-cost/api/types.go:285-288 | the index is that of the first occurrence of the character, or -1 exactly when it does not occur |
| Text.Split | gke-shift-left-cost/api/types.go:277-283 | splitting always gives at least one part |
| Text.SplitJoin | gke-shift-left-cost/api/types.go:277-283 | splitting a join of parts free of the separator gives the parts back |
| Text.NatToDecimal | apis/mon/builder_hpa_timeseries.go:67-68 | a number is written as a non-empty string of decimal digits |
| Text.NatToDecimalValue | apis/mon/builder_hpa_timeseries.go:67-68 | the digits read back to the number |
| Text.ItoaRoundTrip | apis/mon/builder_hpa_timeseries.go:67-68 | parsing the decimal text of any integer gives the integer back |
| Config.ConfigDefaults | api/config.go:52-65 | the default configuration is complete and raises unbounded resources by 200% |
| Config.PopulateConfigNotProvided | api/config.go:67-89 | every empty or zero field takes its default, and every given field is kept; the result is complete |
| Config.PopulateEmptyIsDefaults | api/config.go:67-89 | populating the empty configuration gives the defaults |
| Config.PopulateCompleteIsIdentity | api/config.go:67-89 | a complete configuration is left unchanged |
| Config.PopulateIdempotent | api/config.go:67-89 | populating twice is populating once |
| Costs.CostRange.Subtract | gke-shift-left-cost/api/cost.go:156-179 | the difference added to the previous range gives the current one; the percentages are taken against the current range |
| Costs.PercentOf | gke-shift-left-cost/api/cost.go:166-171 | against a non-zero current value, the percentage times it is 100 times the difference; against a non-negative value, its sign is the difference's sign, with division by zero giving an infinity of that sign |
| Costs.CostRange.Max | gke-shift-left-cost/api/cost.go:181-196 | the result is one of the five amounts and at least each of them |
| Costs.IncreasedHeaders | gke-shift-left-cost/api/cost.go:288-338 | some column is named as increased exactly when some percentage is positive |
| Costs.DecreasedHeaders | gke-shift-left-cost/api/cost.go:288-338 | some column is named as decreased exactly when some percentage is negative |
| Costs.DiffCostRange.Status | gke-shift-left-cost/api/cost.go:288-338 | the flag is set exactly when some amount increased; the summary is "no change" exactly when nothing moved, and otherwise names the increases, the decreases or both, in that order |
| Costs.Cost.MonthlyTotal | gke-shift-left-cost/api/cost.go:74-80 | the loop's total is the sum of all monthly ranges |
| Costs.Cost.Subtract | gke-shift-left-cost/api/cost.go:83-94 | the difference is that of the two monthly totals, and its summary and flag are that difference's status |
| Costs.SumRanges | gke-shift-left-cost/api/cost.go:145-153 | the sum carries the requested kind |
| Costs.CostRange.Add | gke-shift-left-cost/api/cost.go:145-153 | the sum keeps the receiver's kind, and taking the other range's amount off each summed amount gives back the receiver's |
| Costs.AddAssociative | gke-shift-left-cost/api/cost.go:145-153 | adding ranges is associative |
| Costs.AddCommutesOnAmounts | gke-shift-left-cost/api/cost.go:145-153 | adding ranges commutes, up to the kind label |
| Costs.SumRangesConcat | gke-shift-left-cost/api/cost.go:74-80 | summing a concatenation adds the two sums |
| Costs.SumRangesPermutation | gke-shift-left-cost/api/cost.go:74-80 | the total does not depend on the order of the ranges |
| Costs.SumRangesKeepsLimitsAboveRequests | gke-shift-left-cost/api/cost.go:74-80 | if every range has limits at or above its requests, so does the total |
| Costs.SubtractSelfNoChange | gke-shift-left-cost/api/cost.go:288-338 | a range compared with itself has a zero difference and the "no change" status |
| Costs.StatusMatchesFieldChanges | gke-shift-left-cost/api/cost.go:288-338 | for a non-negative current range, the increase flag is set exactly when some amount grew, and a decrease is reported exactly when some amount shrank |
| Types.KindsDistinct | gke-shift-left-cost/api/types.go:27-39 | the six supported kind names are pairwise distinct |
| Types.IsKindSupported | gke-shift-left-cost/api/types.go:414-416 | a kind is supported exactly when it is one of the six kinds |
| Types.Quot | gke-shift-left-cost/api/types.go:290-326 | division truncates toward zero: the remainder has the dividend's sign and is smaller than the divisor |
| Types.DecodeError | gke-shift-left-cost/api/manifests.go:158-228 | the error text starts with the decoding-error header and ends with the decoder's own message |
| Types.NotImplemented | gke-shift-left-cost/api/builder_hpa.go:35-46 | the error text is the not-implemented prefix followed by the type |
| Types.VolumeClaim.EstimateCost | gke-shift-left-cost/api/types.go:207-223 | a claim's requested costs are its requested storage times the disk price; its limited costs are the limit's price, but never below the request's |
| Types.HorizontalScalable.EstimateCost | gke-shift-left-cost/api/types.go:290-326 | the cost carries the workload's kind, and each limited amount is at least the matching requested one |
| Types.ReplicasScaledCost | gke-shift-left-cost/api/types.go:316-323 | before post-processing, without an HPA every requested amount is the replicas times the per-replica requested cost and both limited amounts the replicas times the per-replica limited cost |
| Types.HpaScaledCost | gke-shift-left-cost/api/types.go:297-314 | before post-processing, with an HPA the minimum and maximum are priced at the HPA's minimum and maximum replicas and the buffer at the buffer replicas |
| Types.ScalableCostFields | gke-shift-left-cost/api/types.go:290-326 | without an HPA, every requested column is the replicas times the per-replica cost, and both limited columns the replicas times the per-replica limited cost, raised to the request |
| Types.HpaScalableCostFields | gke-shift-left-cost/api/types.go:290-326 | with an HPA, the columns are the HPA's minimum and maximum replicas, and the buffer replicas, times the per-replica cost, with limits raised to the requests |
| Types.DaemonSet.EstimateCost | gke-shift-left-cost/api/types.go:181-196 | a daemon set costs one pod per node, with limits never below requests |
| Types.Scaled | gke-shift-left-cost/api/types.go:290-326 | a scaled cost is the count times the per-replica price of the CPU and memory |
| Types.HpaBufferReplicas | gke-shift-left-cost/api/types.go:290-326 | with a CPU target t, the buffer is the minimum replicas times (200 - t)/100; without one, it is the minimum replicas |
| Types.PostProcessCost | gke-shift-left-cost/api/types.go:328-337 | the requests are kept, and each limit is raised to its request when lower and otherwise kept |
| Types.PostProcessCostIdempotent | gke-shift-left-cost/api/types.go:328-337 | post-processing twice is post-processing once |
| Types.EffectiveContainer | gke-shift-left-cost/api/types.go:339-388 | a missing request falls back to the limit, then to the configured default; a missing limit is the request raised by the configured percentage |
| Types.DefaultIncreaseTriples | gke-shift-left-cost/api/types.go:339-388 | with the default 200% increase, a missing limit is three times the request |
| Types.DeclaredLimitKept | gke-shift-left-cost/api/types.go:339-388 | declared CPU and memory limits are kept as they are |
| Types.BuildContainers | gke-shift-left-cost/api/types.go:339-388 | the loop gives one effective container per container spec, in order |
| Types.TotalContainers | gke-shift-left-cost/api/types.go:390-400 | the loop's four totals are the sums over the containers of requests and limits, all zero for no containers |
| Types.SumOfConcat | gke-shift-left-cost/api/types.go:390-400 | the total over a concatenation is the sum of the totals |
| Types.BuildAPIVersionKindName | gke-shift-left-cost/api/types.go:277-283 | a key always holds the separator |
| Types.KindNameIsKeySuffix | gke-shift-left-cost/api/types.go:285-288 | the kind-and-name part of a key is the key from its first separator on, and its prefix holds no separator |
| Types.BuildKindName | gke-shift-left-cost/api/types.go:285-288 | the kind-and-name part is a non-empty suffix of the key that starts at a separator |
| Types.KeyRoundTrip | gke-shift-left-cost/api/types.go:277-283 | splitting a key at the separator gives back apiVersion, kind, the defaulted namespace and name |
| Types.KindNameOfKey | gke-shift-left-cost/api/types.go:277-288 | the kind-and-name part of a built key is `\|kind\|namespace\|name`, whatever the apiVersion |
| Types.KeyIsApiVersionThenKindName | gke-shift-left-cost/api/types.go:277-288 | a key is its apiVersion followed by its kind-and-name part |
| Types.KindNameAfterPrefix | gke-shift-left-cost/api/types.go:285-288 | for a prefix free of the separator, the kind-and-name part of prefix plus rest is the rest |
| HpaMetrics.LastIndex | gke-shift-left-cost/api/builder_hpa.go:48-80 | the index found is the last one that matches, or -1 when none does |
| HpaMetrics.CpuTargetV2beta2IsLastMatch | gke-shift-left-cost/api/builder_hpa.go:48-80 | the CPU target is that of the last CPU resource metric with a utilization target, and 0 when there is none |
| HpaMetrics.CpuTargetV2beta1IsLastMatch | gke-shift-left-cost/api/builder_hpa.go:82-113 | the same, for `v2beta1` metrics |
| HpaMetrics.ScanCpuTargetV2beta2 | gke-shift-left-cost/api/builder_hpa.go:48-80 | the loop over the metrics computes that CPU target |
| HpaMetrics.ScanCpuTargetV2beta1 | gke-shift-left-cost/api/builder_hpa.go:82-113 | the loop over the metrics computes that CPU target |
| HpaBuilder.BuildHPAV2beta2 | gke-shift-left-cost/api/builder_hpa.go:48-80 | the HPA's key and its target's key share the defaulted namespace; the minimum defaults to 1; the CPU target is the last match |
| HpaBuilder.BuildHPAV2beta1 | gke-shift-left-cost/api/builder_hpa.go:82-113 | the same, for `v2beta1` |
| HpaBuilder.BuildHPAV1 | gke-shift-left-cost/api/builder_hpa.go:115-132 | the HPA's key is built from its own apiVersion, kind and name and its target's key from the target's, both in the HPA's defaulted namespace; the CPU target is the declared one or 0, and the minimum defaults to 1 |
| HpaBuilder.BuildHPA | gke-shift-left-cost/api/builder_hpa.go:35-46 | each of the three HPA versions is built by its own builder, any other type is refused with the not-implemented error, and every built HPA carries both keys |
| HpaBuilder.DecodeHPA | gke-shift-left-cost/api/builder_hpa.go:26-32 | a decoding failure is reported with the decoding-error header; otherwise the object is built |
| HpaBuilder.TargetRefNamespaceDefaults | gke-shift-left-cost/api/builder_hpa.go:115-132 | an HPA without a namespace targets its workload in "default" |
| HpaBuilder.BuiltHpaIsRecognised | gke-shift-left-cost/api/types.go:98-100 | a workload bound to any built HPA is recognised as having one, because a built HPA's key is never empty |
| VolumeClaimBuilder.BuildVolumeClaimV1 | gke-shift-left-cost/api/builder_volumeclaim.go:44-66 | the storage class defaults to "standard"; a missing request takes the limit and a missing limit takes the request |
| VolumeClaimBuilder.BuildVolumeClaim | gke-shift-left-cost/api/builder_volumeclaim.go:35-42 | only a claim is built; any other type is refused |
| VolumeClaimBuilder.DecodeVolumeClaim | gke-shift-left-cost/api/builder_volumeclaim.go:26-32 | a decoding failure is reported with the decoding-error header; otherwise the object is built |
| VolumeClaimBuilder.UnsizedClaimCostsNothing | gke-shift-left-cost/api/builder_volumeclaim.go:44-66 | a claim sized neither by request nor by limit costs nothing |
| DeploymentBuilder.BuildDeploymentV1 | api/builder_deployment.go:42-54 | replicas default to 1, no HPA is bound yet, and the containers are the effective containers under the populated configuration |
| DeploymentBuilder.BuildDeployment | api/builder_deployment.go:33-40 | only a Deployment is built; any other type is refused |
| DeploymentBuilder.DecodeDeployment | api/builder_deployment.go:24-30 | a decoding failure is reported with the decoding-error header; otherwise the object is built |
| ReplicaSetBuilder.BuildReplicaSetV1 | api/builder_replicaset.go:42-54 | replicas default to 1, no HPA is bound yet, and the containers are the effective containers under the populated configuration |
| ReplicaSetBuilder.BuildReplicaSet | api/builder_replicaset.go:33-40 | only a ReplicaSet is built; any other type is refused |
| ReplicaSetBuilder.DecodeReplicaSet | api/builder_replicaset.go:24-30 | a decoding failure is reported with the decoding-error header; otherwise the object is built |
| StatefulSetBuilder.TemplateDispatchSucceeds | api/builder_statefulset.go:42-66 | building a claim template through the type switch always succeeds |
| StatefulSetBuilder.BuildVolumeClaims | api/builder_statefulset.go:42-66 | the loop builds one claim per template, in order |
| StatefulSetBuilder.BuildStatefulSetV1 | api/builder_statefulset.go:42-66 | replicas default to 1, and each claim template becomes a claim, in order |
| StatefulSetBuilder.BuildStatefulSet | api/builder_statefulset.go:33-40 | only a StatefulSet is built; any other type is refused |
| StatefulSetBuilder.DecodeStatefulSet | api/builder_statefulset.go:24-30 | a decoding failure is reported with the decoding-error header; otherwise the object is built |
| DaemonSetBuilder.BuildDaemonSetV1 | gke-shift-left-cost/api/builder_daemonset.go:42-50 | a daemon set runs on the configured number of nodes, 3 when none is set |
| DaemonSetBuilder.BuildDaemonSet | gke-shift-left-cost/api/builder_daemonset.go:33-40 | only a DaemonSet is built; any other type is refused |
| DaemonSetBuilder.DecodeDaemonSet | gke-shift-left-cost/api/builder_daemonset.go:24-30 | a decoding failure is reported with the decoding-error header; otherwise the object is built |
| DaemonSetBuilder.UndeclaredResourcesUseDefaults | gke-shift-left-cost/api/builder_daemonset.go:42-50 | with the empty configuration, containers without resources request 250m CPU and 64 MB, limited to 750m and 192 MB, on 3 nodes |
| Manifests.IndexUnder | gke-shift-left-cost/api/manifests.go:158-228 | a workload is findable under its full key and under its kind-and-name part, and no other entry changes |
| Manifests.RegisterKeepsRefs | gke-shift-left-cost/api/manifests.go:158-228 | appending a workload and indexing it keeps every index pointing into the sequence |
| Manifests.LoadStepKeepsValid | gke-shift-left-cost/api/manifests.go:158-228 | loading one document keeps every index within its sequence |
| Manifests.LoadAllKeepsValid | gke-shift-left-cost/api/manifests.go:66-75 | loading any documents keeps every index within its sequence |
| Manifests.LoadStepErrorChangesNothing | gke-shift-left-cost/api/manifests.go:158-228 | a document that fails leaves the store unchanged |
| Manifests.LoadStepSkipsOrReports | gke-shift-left-cost/api/manifests.go:158-228 | an unsupported document is skipped silently, and a supported one that fails to decode is reported with the decoding-error header |
| Manifests.LoadedDeploymentIsFindable | gke-shift-left-cost/api/manifests.go:158-228 | a Deployment is appended and indexed under both of its keys |
| Manifests.LoadedReplicaSetIsFindable | gke-shift-left-cost/api/manifests.go:158-228 | a ReplicaSet is appended and indexed under both of its keys |
| Manifests.LoadedStatefulSetIsFindable | gke-shift-left-cost/api/manifests.go:158-228 | a StatefulSet is appended and indexed, and its claim templates join the claims |
| Manifests.LoadAllNext | gke-shift-left-cost/api/manifests.go:66-75 | after a prefix loaded without error, the next document is one more load step, and if it fails, the rest are not loaded |
| Manifests.LoadAllStopsAtFirstError | gke-shift-left-cost/api/manifests.go:66-75 | documents after the first failing one have no effect |
| Manifests.BindInPlace | gke-shift-left-cost/api/manifests.go:143-156 | binding replaces the HPA of the indexed workload only, or changes nothing when the target is unknown |
| Manifests.BindAllIsLastMatch | gke-shift-left-cost/api/manifests.go:143-156 | each workload ends up with the last HPA that targets it, or keeps its own |
| Manifests.BindAllLength | gke-shift-left-cost/api/manifests.go:143-156 | binding keeps every workload and its key |
| Manifests.UnmatchedHpasChangeNothing | gke-shift-left-cost/api/manifests.go:143-156 | HPAs whose targets are not loaded change nothing |
| Manifests.BindAllIdempotent | gke-shift-left-cost/api/manifests.go:143-156 | binding twice is binding once |
| Manifests.BindAllKeepsRefs | gke-shift-left-cost/api/manifests.go:143-156 | binding keeps every index within its sequence |
| Manifests.PreparedUpToStep | gke-shift-left-cost/api/manifests.go:143-156 | preparing one more HPA binds that HPA |
| Manifests.PreparedKeepsValid | gke-shift-left-cost/api/manifests.go:143-156 | preparation keeps the store valid |
| Manifests.PreparedIdempotent | gke-shift-left-cost/api/manifests.go:143-156 | preparing twice is preparing once |
| Manifests.HpaTargetsDeploymentKeys | gke-shift-left-cost/api/builder_hpa.go:115-132 | an HPA that names its Deployment's apiVersion targets the full key; one without an apiVersion targets the kind-and-name key |
| Manifests.KindRangesListNonEmptyKinds | gke-shift-left-cost/api/manifests.go:78-101 | the estimate lists one range per kind that has objects, in the order deployments, replica sets, stateful sets, daemon sets, claims |
| Manifests.KindRangeSum | gke-shift-left-cost/api/manifests.go:103-141 | a kind's range sums its workloads' costs |
| Manifests.MonthlyTotalIsSumOfWorkloads | gke-shift-left-cost/api/manifests.go:78-101 | the monthly total is the sum of every workload's cost |
| Manifests.FoldScalableCosts | gke-shift-left-cost/api/manifests.go:103-125 | the loop sums the cost of every scalable workload of a kind |
| Manifests.Manifests.constructor | gke-shift-left-cost/api/manifests.go:29-39 | a new store is empty |
| Manifests.Manifests.LoadObject | gke-shift-left-cost/api/manifests.go:158-228 | loading one document in place is the load step on the store's contents, and keeps the store valid |
| Manifests.Manifests.LoadHpaObject | gke-shift-left-cost/api/manifests.go:158-228 | an HPA is appended, or the builder's error is returned |
| Manifests.Manifests.LoadDeploymentObject | gke-shift-left-cost/api/manifests.go:158-228 | a Deployment is appended and indexed, or the builder's error is returned |
| Manifests.Manifests.LoadReplicaSetObject | gke-shift-left-cost/api/manifests.go:158-228 | a ReplicaSet is appended and indexed, or the builder's error is returned |
| Manifests.Manifests.LoadStatefulSetObject | gke-shift-left-cost/api/manifests.go:158-228 | a StatefulSet is appended and indexed with its claims, or the builder's error is returned |
| Manifests.Manifests.LoadDaemonSetObject | gke-shift-left-cost/api/manifests.go:158-228 | a DaemonSet is appended, or the builder's error is returned |
| Manifests.Manifests.LoadVolumeClaimObject | gke-shift-left-cost/api/manifests.go:158-228 | a claim is appended, or the builder's error is returned |
| Manifests.Manifests.LoadObjects | gke-shift-left-cost/api/manifests.go:66-75 | the loop loads the documents in order up to the first error |
| Manifests.Manifests.PrepareForCostEstimation | gke-shift-left-cost/api/manifests.go:143-156 | every HPA is bound in place to its workload, in order, keeping the store valid |
| Manifests.Manifests.BindHpa | gke-shift-left-cost/api/manifests.go:143-156 | one HPA is bound to the workload its target key indexes, in whichever of the three sequences holds it |
| Manifests.Manifests.EstimateDeploymentCost | gke-shift-left-cost/api/manifests.go:103-109 | the range sums the deployments' costs |
| Manifests.Manifests.EstimateReplicaSetCost | gke-shift-left-cost/api/manifests.go:111-117 | the range sums the replica sets' costs |
| Manifests.Manifests.EstimateStatefulSetCost | gke-shift-left-cost/api/manifests.go:119-125 | the range sums the stateful sets' costs |
| Manifests.Manifests.EstimateDaemonSetCost | gke-shift-left-cost/api/manifests.go:127-133 | the loop sums the daemon sets' costs |
| Manifests.Manifests.EstimateVolumeClaimCost | gke-shift-left-cost/api/manifests.go:135-141 | the loop sums the claims' costs |
| Manifests.Manifests.EstimateCost | gke-shift-left-cost/api/manifests.go:78-101 | the HPAs are bound first; then the cost holds one range per non-empty kind |
| Manifests.Manifests.MonthlyRanges | gke-shift-left-cost/api/manifests.go:78-101 | the ranges of the non-empty kinds, in the fixed kind order |
| Manifests.Manifests.DeploymentRange | gke-shift-left-cost/api/manifests.go:82-84 | the deployments contribute their summed range when there are any, and nothing otherwise |
| Manifests.Manifests.ReplicaSetRange | gke-shift-left-cost/api/manifests.go:85-87 | the replica sets contribute their summed range when there are any, and nothing otherwise |
| Manifests.Manifests.StatefulSetRange | gke-shift-left-cost/api/manifests.go:88-90 | the stateful sets contribute their summed range when there are any, and nothing otherwise |
| Manifests.Manifests.DaemonSetRange | gke-shift-left-cost/api/manifests.go:91-93 | the daemon sets contribute their summed range when there are any, and nothing otherwise |
| Manifests.Manifests.VolumeClaimRange | gke-shift-left-cost/api/manifests.go:94-96 | the claims contribute their summed range when there are any, and nothing otherwise |
| ExporterTypes.ListDecodeError | apis/k8s/builder_hpa.go:26-38 | the error text starts with the decoding-error header and ends with the decoder's message |
| ExporterTypes.NotSupported | apis/k8s/builder_vpa.go:64-73 | the error text is the not-supported prefix followed by the type |
| ExporterHpa.BuildHPAV2beta2 | apis/k8s/builder_hpa.go:79-112 | the namespace is the HPA's own or "default"; the name and the target are the HPA's; the minimum is the declared one or 1; the maximum is the declared one; the CPU target is the last matching metric's |
| ExporterHpa.BuildHPAV2beta1 | apis/k8s/builder_hpa.go:114-146 | the same, for `v2beta1` |
| ExporterHpa.BuildHPAV1 | apis/k8s/builder_hpa.go:148-173 | the namespace is the HPA's own or "default"; the name and the target are the HPA's; the minimum is the declared one or 1; the maximum is the declared one; the CPU target is the declared one or 0 |
| ExporterHpa.BuildHPA | apis/k8s/builder_hpa.go:66-77 | each of the three HPA versions is built by its own builder; any other type is refused as not implemented |
| ExporterHpa.HpaItems | apis/k8s/builder_hpa.go:40-53 | one HPA per list item, in order, each the item's full `v1` build: name, target, defaulted namespace, replica bounds and CPU target |
| ExporterHpa.BuildHPAList | apis/k8s/builder_hpa.go:40-53 | the loop gives one HPA per list item, in order; no item is dropped |
| ExporterHpa.DecodeHPAList | apis/k8s/builder_hpa.go:26-38 | only an HPA list succeeds, and then with the HPAs of its items in order; a decoding failure and any other type are reported with their own texts |
| ExporterHpa.AgreesWithEstimatorV2beta2 | apis/k8s/builder_hpa.go:79-112 | the exporter and the estimator read the same CPU target and replica bounds, and the estimator's target key is the exporter's target in the exporter's namespace |
| ExporterHpa.AgreesWithEstimatorV2beta1 | apis/k8s/builder_hpa.go:114-146 | the same, for `v2beta1` |
| ExporterHpa.AgreesWithEstimatorV1 | apis/k8s/builder_hpa.go:148-173 | the same, for `v1` |
| ExporterVpa.ToResource | apis/k8s/builder_vpa.go:80-90 | the CPU is the milli-core quantity divided by 1000; the memory is the byte quantity; each is 0 when absent |
| ExporterVpa.ToRecommendation | apis/k8s/builder_vpa.go:80-90 | the container name is kept, and the target and the upper bound are each converted: CPU in cores from milli-cores, memory in bytes |
| ExporterVpa.RecommendationsOf | apis/k8s/builder_vpa.go:76-93 | recommendation i is container recommendation i converted, target and upper bound alike, and there is none without a recommendation status |
| ExporterVpa.RecommendationModeAsWritten | apis/k8s/builder_vpa.go:95-98 | as written, the mode read panics exactly when an update policy has no update mode |
| ExporterVpa.IsInRecommendationMode | apis/k8s/builder_vpa.go:95-98 | a VPA is in recommendation mode exactly when its update policy names the mode "Off" |
| ExporterVpa.RecommendationModeAgrees | apis/k8s/builder_vpa.go:95-98 | wherever the written code does not panic, the corrected reading gives the same answer |
| ExporterVpa.VpaOf | apis/k8s/builder_vpa.go:75-112 | the namespace is the item's own or "default"; the name, target, mode and recommendations are those of the item, the mode read as corrected (see Findings) |
| ExporterVpa.BuildVPAV1 | apis/k8s/builder_vpa.go:75-112 | the loop builds that VPA |
| ExporterVpa.VpaResult | apis/k8s/builder_vpa.go:64-73 | an item succeeds exactly when its own version is `v1` or `v1beta2`; the others are refused as not supported |
| ExporterVpa.BuildVPA | apis/k8s/builder_vpa.go:64-73 | the version switch computes that result |
| ExporterVpa.VpaItems | apis/k8s/builder_vpa.go:38-51 | no more VPAs than items, and the last item, when its version is supported, gives the last VPA |
| ExporterVpa.BuildVPAList | apis/k8s/builder_vpa.go:38-51 | the loop keeps the items that build, in order |
| ExporterVpa.VpaItemsKeepsSupported | apis/k8s/builder_vpa.go:38-51 | every item of a supported version appears, and every element comes from such an item |
| ExporterVpa.VpaItemsSingle | apis/k8s/builder_vpa.go:38-51 | one item gives its VPA when its version is supported, and nothing otherwise |
| ExporterVpa.VpaItemsConcat | apis/k8s/builder_vpa.go:38-51 | the list of a concatenation is the concatenation of the lists, so dropped items neither reorder nor repeat the kept ones |
| ExporterVpa.AllSupportedKeepsAll | apis/k8s/builder_vpa.go:38-51 | when every item is supported, there is one VPA per item, in order |
| ExporterVpa.DecodeVPAList | apis/k8s/builder_vpa.go:24-36 | only a VPA list succeeds, and then with the VPAs of its supported items in order; a decoding failure and any other type are reported with their own texts |
| MonTypes.WorkloadLabels | apis/mon/builder_hpa_timeseries.go:84-97 | the resource labels are the project, location, cluster, namespace and target name |
| MonTypes.SplitTargetKey | apis/mon/builder_hpa_timeseries.go:38 | splitting a target key at '\|' gives back its kind, namespace and name |
| MonTypes.TargetKeyInjective | apis/mon/builder_hpa_timeseries.go:38 | two targets whose parts hold no '\|' share a key exactly when they are the same target |
| Selection.FirstPerKey | apis/mon/builder_hpa_timeseries.go:33-52 | the selection keeps no more elements than it is given |
| Selection.FirstPerKeyKeys | apis/mon/builder_hpa_timeseries.go:33-52 | the kept keys are exactly the keys of the eligible elements |
| Selection.FirstPerKeyIsFirsts | apis/mon/builder_hpa_timeseries.go:33-52 | the selection keeps exactly the first eligible element of each key, in input order |
| Selection.FirstPerKeyDistinct | apis/mon/builder_vpa_timeseries.go:34-53 | no two kept elements share a key, and every kept element is eligible |
| Selection.FirstPerKeyKeeps | apis/mon/builder_vpa_timeseries.go:34-53 | a property of every input element holds of every kept one |
| HpaTimeSeries.HpaCpuTargetSeries | apis/mon/builder_hpa_timeseries.go:54-82 | a `k8s_pod` point of the HPA CPU-target metric type, in CPU units, holding the CPU target as an integer at the given time, on the target's pod labels, with the six metric labels: the target's apiVersion, kind and name, the replica bounds and the HPA's name |
| HpaTimeSeries.ReplicaLabelsRoundTrip | apis/mon/builder_hpa_timeseries.go:67-68 | the replica-bound labels parse back to the HPA's bounds |
| HpaTimeSeries.BuildHPACPUTargetUtilizationTimeSeries | apis/mon/builder_hpa_timeseries.go:33-52 | the loop with its seen-key map writes the series of the first HPA with a CPU target for each target |
| HpaTimeSeries.HpaSeriesOnePerTarget | apis/mon/builder_hpa_timeseries.go:33-52 | no two series share a target, and every series holds a positive target |
| HpaTimeSeries.HpaSeriesCoversTargets | apis/mon/builder_hpa_timeseries.go:33-52 | every target of an HPA with a CPU target has a series |
| HpaTimeSeries.HpaFirstOfTargetWritten | apis/mon/builder_hpa_timeseries.go:33-52 | the series of the first HPA of a target is among those written |
| VpaTimeSeries.ContainerLabels | apis/mon/builder_vpa_timeseries.go:125-139 | the labels are the workload labels plus the container name |
| VpaTimeSeries.VpaMetricLabels | apis/mon/builder_vpa_timeseries.go:76-84 | the metric labels are the target's apiVersion, kind and name and the VPA's own name |
| VpaTimeSeries.BuildVPARecommendations | apis/mon/builder_vpa_timeseries.go:55-67 | the loop writes two series per recommendation, CPU then memory |
| VpaTimeSeries.RecommendationSeriesContents | apis/mon/builder_vpa_timeseries.go:55-123 | series 2i holds recommendation i's CPU target in cores and series 2i+1 its memory target in bytes, each of its own metric type and unit, both on the same `k8s_container` labels (the target's workload labels plus its container), at the given time, with the VPA's target and name as metric labels |
| VpaTimeSeries.BuildVPARecommendationTimeSeries | apis/mon/builder_vpa_timeseries.go:34-53 | the loop writes the series of the first VPA in recommendation mode for each target |
| VpaTimeSeries.SeriesCount | apis/mon/builder_vpa_timeseries.go:34-67 | the output has twice as many series as the selected VPAs have recommendations |
| VpaTimeSeries.VpaSelectionOnePerTarget | apis/mon/builder_vpa_timeseries.go:34-53 | only VPAs in recommendation mode are written, and at most one per target |
| CloudMonitoring.ExportChunk | apis/mon/cloud_monitoring.go:60-77 | the outcome is the answer to its last trial, made no earlier than the first and no later than the fourth |
| CloudMonitoring.ChunksAsWritten | apis/mon/cloud_monitoring.go:79-89 | as written, no series gives no chunk; every chunk but the last holds one series less than the chunk size, and the last holds 1 to chunk-size series |
| CloudMonitoring.ChunksAsWrittenCount | apis/mon/cloud_monitoring.go:79-89 | as written, there are as many chunks as chunk-size slices of the list, the last slice possibly partial |
| CloudMonitoring.ChunksAsWrittenSlices | apis/mon/cloud_monitoring.go:79-89 | as written, chunk i but the last is the slice from i·size up to, not including, that slice's last series |
| CloudMonitoring.ChunksAsWrittenLast | apis/mon/cloud_monitoring.go:79-89 | as written, the last chunk is the whole last slice of the list |
| CloudMonitoring.ChunksAsWrittenGap | apis/mon/cloud_monitoring.go:79-89 | as written, the series at i·size + size - 1 falls between chunk i and chunk i + 1 |
| CloudMonitoring.TimeSeriesToChunks | apis/mon/cloud_monitoring.go:79-89 | the loop, as written, computes the as-written chunks |
| CloudMonitoring.AsWrittenSkipsOneSeries | apis/mon/cloud_monitoring.go:79-89 | as written, 201 series make two chunks that leave out the 200th series |
| CloudMonitoring.AsWrittenLosesSeries | apis/mon/cloud_monitoring.go:79-89 | as written, one series per full chunk is lost whenever the list exceeds a chunk |
| CloudMonitoring.Chunks | apis/mon/cloud_monitoring.go:79-89 | corrected, no series gives no chunk, and the last chunk holds 1 to chunk-size series |
| CloudMonitoring.ChunksRoundTrip | apis/mon/cloud_monitoring.go:79-89 | the corrected chunks concatenate back to the series list |
| CloudMonitoring.ChunksBounded | apis/mon/cloud_monitoring.go:79-89 | no chunk is empty or larger than the chunk size, and all but the last are full |
| CloudMonitoring.TimeSeriesToChunksCorrected | apis/mon/cloud_monitoring.go:79-89 | the corrected loop computes the corrected chunks |
| CloudMonitoring.ExportChunkRetries | apis/mon/cloud_monitoring.go:60-77 | the outcome is the last trial's answer; every earlier trial failed with "Error 500"; at most four trials are made; a server error is given up only at the fourth; the back-off before trial t+1 is 350·t ms |
| CloudMonitoring.ExportChunkBackOffBound | apis/mon/cloud_monitoring.go:60-77 | a chunk makes at most four trials and sleeps at most 2100 ms |
| CloudMonitoring.ExportMetrics | apis/mon/cloud_monitoring.go:36-58 | a service error is returned with nothing sent; otherwise the chunks sent are the chunks of the list, in order, each with its retry outcome, and no error is returned whatever the chunks' outcomes |

## Left out

- YAML decoding, the multi-document split in `LoadObjectsFromPath`/`LoadObjects`, the scheme setup and Kubernetes quantity parsing: the decoder's outcome and the parsed quantities are inputs.
- The GCP price catalogue lookup (`resource_price.go`): prices are a `PriceCatalog` value.
- Markdown rendering (`ToMarkdown`, `currency`, `percDiff`, `bold`) and the `ToPrice*` views: presentation only.
- Floating point: Go's `float32`/`float64` rounding is not modelled; amounts are exact reals.
- Integer widths: the `int32` replica counts and targets and the `int64` quantities are unbounded integers, so overflow is not modelled.
- The GCE metadata server and `strings.TrimSpace`: the cluster's project, location and name are a `ClusterEnv` value.
- Logging, `time.Sleep` and the OAuth client: the back-off is reported as a number of milliseconds, not slept.
- `logTimeSeriesList`: only logs.
- The test-only `decodeHPA`/`decodeVPA` of the exporter: the list decoders are modelled.
- The exporter's `main.go` wiring: it only calls the modelled functions.
- CloudMonitoring.ExportMetrics: exports the chunks of `TimeSeriesToChunksCorrected`, not those of the as-written `TimeSeriesToChunks`, so it does not reproduce the series the source skips (see Findings).
- CloudMonitoring.TimeSeriesToChunksCorrected: is the corrected loop; the source has only the as-written one, which `TimeSeriesToChunks` models.
- ExporterVpa.VpaOf: reads an update policy without a mode as not in recommendation mode (the corrected reading, see Findings); the source panics on such a VPA, which `RecommendationModeAsWritten` alone represents.
- ExporterVpa.BuildVPAV1: computes the corrected mode like `VpaOf`, so the panic on an update policy without a mode is not modelled there.
- Kube.MetricSpecV2beta2, Kube.MetricSpecV2beta1: a metric of type `Resource` always carries its resource block; the source dereferences `metric.Resource` without a nil check (gke-shift-left-cost/api/builder_hpa.go:54-56 and 87-89, apis/k8s/builder_hpa.go:85-87 and 120-121), so a `Resource` metric without that block makes both programs panic, which the model does not represent.
- Kube.VpaSpec: the target reference is always present; the exporter reads `Spec.TargetRef`'s fields without a nil check (apis/k8s/builder_vpa.go:100 and 108), so a VPA without a target reference makes it panic, which the model does not represent.

## Findings

| source | as written | input that shows it | evidently intended | confidence | as-written member | corrected member |
|---|---|---|---|---|---|---|
| apis/mon/cloud_monitoring.go:81-83 | each full chunk is `tsList[:chunkSize-1]` while the list advances by `chunkSize`, so one series per full chunk is never exported (the loop `TimeSeriesToChunks`) | 201 series: the chunks are series 1-199 and series 201; series 200 is skipped | chunks of exactly `chunkSize` series that concatenate back to the list (the loop `TimeSeriesToChunksCorrected`) | high, not executed | CloudMonitoring.AsWrittenSkipsOneSeries | CloudMonitoring.ChunksRoundTrip |
| apis/k8s/builder_vpa.go:96-98 | `*vpa.Spec.UpdatePolicy.UpdateMode` is dereferenced whenever an update policy is present, even though the mode is optional | a VPA with `updatePolicy: {}` makes the exporter panic | a policy without a mode leaves the default mode, so the VPA is not in recommendation mode | medium, not executed | ExporterVpa.RecommendationModeAsWritten | ExporterVpa.IsInRecommendationMode |

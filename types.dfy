/**
 * The estimator's simplified workload records and the per-workload cost
 * estimation: effective container resources, their totals, the five-field
 * cost range of a workload, and the keys under which workloads are found.
 */
module Types {
  import opened Wrappers
  import opened Text
  import opened Config
  import opened Kube
  import opened Costs

  const HPAKind := "HorizontalPodAutoscaler"
  const DeploymentKind := "Deployment"
  const ReplicaSetKind := "ReplicaSet"
  const StatefulSetKind := "StatefulSet"
  const DaemonSetKind := "DaemonSet"
  const VolumeClaimKind := "PersistentVolumeClaim"

  /** The kinds the estimator loads; every other kind is skipped. */
  const SupportedKinds: seq<string> :=
    [HPAKind, DeploymentKind, ReplicaSetKind, StatefulSetKind, DaemonSetKind, VolumeClaimKind]

  /** The namespace of an object that declares none. */
  const DefaultNamespace := "default"

  /** The separator of the fields of an object key. */
  const KeySeparator := '|'

  /** The six kinds are pairwise different. */
  lemma KindsDistinct()
    ensures HPAKind != DeploymentKind && HPAKind != ReplicaSetKind && HPAKind != StatefulSetKind
    ensures HPAKind != DaemonSetKind && HPAKind != VolumeClaimKind
    ensures DeploymentKind != ReplicaSetKind && DeploymentKind != StatefulSetKind
    ensures DeploymentKind != DaemonSetKind && DeploymentKind != VolumeClaimKind
    ensures ReplicaSetKind != StatefulSetKind && ReplicaSetKind != DaemonSetKind && ReplicaSetKind != VolumeClaimKind
    ensures StatefulSetKind != DaemonSetKind && StatefulSetKind != VolumeClaimKind
    ensures DaemonSetKind != VolumeClaimKind
  {
    assert DeploymentKind[0] != ReplicaSetKind[0];
  }

  function IsKindSupported(kind: string): (b: bool)
    ensures b <==> kind == HPAKind || kind == DeploymentKind || kind == ReplicaSetKind
                   || kind == StatefulSetKind || kind == DaemonSetKind || kind == VolumeClaimKind
  {
    kind in SupportedKinds
  }

  /** Go's int64 division, which truncates toward zero. */
  function Quot(a: int, b: int): (q: int)
    requires b > 0
    ensures a >= 0 ==> 0 <= a - q * b < b
    ensures a < 0 ==> -b < a - q * b <= 0
  {
    if a >= 0 then a / b else -((-a) / b)
  }

  // ----- Build errors -----

  const DecodeErrorHead := "Error Decoding."
  const DecodeErrorPrefix :=
    DecodeErrorHead + " Check if your GroupVersionKind is defined in api/k8s_decoder.go. Root cause "
  const NotImplementedPrefix := "APIVersion and Kind not Implemented: "

  /** The error of a document the decoder rejected, wrapping the decoder's own message. */
  function DecodeError(cause: string): (msg: string)
    ensures DecodeErrorHead <= msg
    ensures |msg| >= |cause| && msg[|msg| - |cause|..] == cause
  {
    var msg := DecodeErrorPrefix + cause;
    assert msg[..|DecodeErrorHead|] == DecodeErrorHead;
    assert msg[|DecodeErrorPrefix|..] == cause;
    msg
  }

  /** The error of a decoded object whose Go type the builder does not handle. */
  function NotImplemented(gvk: GroupVersionKind): (msg: string)
    ensures NotImplementedPrefix <= msg && msg[|NotImplementedPrefix|..] == FormatGVK(gvk)
  {
    var msg := NotImplementedPrefix + FormatGVK(gvk);
    assert msg[..|NotImplementedPrefix|] == NotImplementedPrefix;
    msg
  }

  // ----- Records -----

  /** CPU in milli-cores, memory and storage in bytes. */
  datatype Resource = Resource(cpu: int, memory: int, storage: int)

  datatype Container = Container(requests: Resource, limits: Resource)

  datatype HPA = HPA(
    apiVersionKindName: string,
    targetRef: string,
    minReplicas: int,
    maxReplicas: int,
    targetCPUPercentage: int)

  /** The zero HPA a workload holds until one is bound to it. */
  const NoHPA := HPA("", "", 0, 0, 0)

  datatype VolumeClaim = VolumeClaim(
    apiVersionKindName: string,
    storageClass: string,
    requests: Resource,
    limits: Resource)
  {
    /**
     * Storage at the standard persistent-disk price, whatever the storage
     * class: requested storage gives the requested costs, limited storage
     * the limited ones.
     */
    function EstimateCost(pc: PriceCatalog): (c: CostRange)
      ensures c.kind == VolumeClaimKind
      ensures c.minRequested == c.maxRequested == c.hpaBuffer == requests.storage as real * pc.pdStandardPrice
      ensures c.minLimited == c.maxLimited == RealMax(limits.storage as real * pc.pdStandardPrice, c.minRequested)
    {
      var storagePrice := pc.pdStandardPrice;
      var cost := Zero(VolumeClaimKind);
      var cost := cost.(minRequested := requests.storage as real * storagePrice);
      var cost := cost.(maxRequested := cost.minRequested, hpaBuffer := cost.minRequested);
      var cost := cost.(minLimited := limits.storage as real * storagePrice);
      var cost := cost.(maxLimited := cost.minLimited);
      PostProcessCost(cost)
    }
  }

  /**
   * The three horizontally scalable workloads. They share their fields;
   * only a StatefulSet carries volume claims.
   */
  datatype HorizontalScalable =
    | Deployment(apiVersionKindName: string, replicas: int, containers: seq<Container>, hpa: HPA)
    | ReplicaSet(apiVersionKindName: string, replicas: int, containers: seq<Container>, hpa: HPA)
    | StatefulSet(apiVersionKindName: string, replicas: int, containers: seq<Container>, hpa: HPA,
                  volumeClaims: seq<VolumeClaim>)
  {
    function Kind(): string
    {
      match this
      case Deployment(_, _, _, _) => DeploymentKind
      case ReplicaSet(_, _, _, _) => ReplicaSetKind
      case StatefulSet(_, _, _, _, _) => StatefulSetKind
    }

    /** A bound HPA is recognised by its non-empty key. */
    predicate HasHPA()
    {
      hpa.apiVersionKindName != ""
    }

    function KindName(): string
      requires KeySeparator in apiVersionKindName
    {
      BuildKindName(apiVersionKindName)
    }

    /**
     * Without an HPA, every requested field is `replicas` copies of the
     * per-replica requested cost and both limited fields `replicas` copies
     * of the per-replica limited cost. With an HPA, the minimum uses
     * `minReplicas`, the maximum `maxReplicas`, and the buffer the replica
     * count of `HpaBufferReplicas`. The limited fields are then raised to
     * the requested ones.
     */
    function EstimateCost(pc: PriceCatalog): (c: CostRange)
      ensures c.kind == Kind()
      ensures c.minLimited >= c.minRequested && c.maxLimited >= c.maxRequested
    {
      var t := ContainerTotals(containers);
      var cost := if HasHPA() then HpaScaledCost(Kind(), hpa, t, pc) else ReplicasScaledCost(Kind(), replicas, t, pc);
      PostProcessCost(cost)
    }
  }

  /**
   * Without an HPA, every requested field is `replicas` copies of the
   * per-replica requested cost and both limited fields `replicas` copies
   * of the per-replica limited cost. With an HPA, the minimum uses
   * `minReplicas`, the maximum `maxReplicas`, and the buffer the replica
   * count of `HpaBufferReplicas`. The limited fields are then raised to
   * the requested ones. `ScalableCostFields` states the first case and
   * `HpaScalableCostFields` the second.
   */
  lemma ScalableCostFields(w: HorizontalScalable, pc: PriceCatalog)
    requires !w.HasHPA()
    ensures var c := w.EstimateCost(pc);
      var t := ContainerTotals(w.containers);
      && c.minRequested == c.maxRequested == c.hpaBuffer == w.replicas as real * PerReplicaCost(t.cpuReq, t.memReq, pc)
      && c.minLimited == c.maxLimited == RealMax(w.replicas as real * PerReplicaCost(t.cpuLim, t.memLim, pc), c.minRequested)
  {
    var c0 := ReplicasScaledCost(w.Kind(), w.replicas, ContainerTotals(w.containers), pc);
    assert w.EstimateCost(pc) == PostProcessCost(c0);
  }

  lemma HpaScalableCostFields(w: HorizontalScalable, pc: PriceCatalog)
    requires w.HasHPA()
    ensures var c := w.EstimateCost(pc);
      var t := ContainerTotals(w.containers);
      var req := PerReplicaCost(t.cpuReq, t.memReq, pc);
      && c.minRequested == w.hpa.minReplicas as real * req
      && c.maxRequested == w.hpa.maxReplicas as real * req
      && c.hpaBuffer == HpaBufferReplicas(w.hpa) * req
      && c.minLimited == RealMax(w.hpa.minReplicas as real * PerReplicaCost(t.cpuLim, t.memLim, pc), c.minRequested)
      && c.maxLimited == RealMax(w.hpa.maxReplicas as real * PerReplicaCost(t.cpuLim, t.memLim, pc), c.maxRequested)
  {
    var c0 := HpaScaledCost(w.Kind(), w.hpa, ContainerTotals(w.containers), pc);
    assert w.EstimateCost(pc) == PostProcessCost(c0);
  }

  /** A DaemonSet runs one pod on each of the cluster's nodes. */
  datatype DaemonSet = DaemonSet(apiVersionKindName: string, nodesCount: int, containers: seq<Container>)
  {
    function EstimateCost(pc: PriceCatalog): (c: CostRange)
      ensures c.kind == DaemonSetKind
      ensures var t := ContainerTotals(containers);
        && c.minRequested == c.maxRequested == c.hpaBuffer == nodesCount as real * PerReplicaCost(t.cpuReq, t.memReq, pc)
        && c.minLimited == c.maxLimited
        && c.minLimited == RealMax(nodesCount as real * PerReplicaCost(t.cpuLim, t.memLim, pc), c.minRequested)
    {
      var t := ContainerTotals(containers);
      var n := nodesCount as real;
      var requested := Scaled(n, t.cpuReq, t.memReq, pc);
      var limited := Scaled(n, t.cpuLim, t.memLim, pc);
      PostProcessCost(CostRange(DaemonSetKind, requested, requested, requested, limited, limited))
    }
  }

  /** Before post-processing: a fixed replica count prices every requested field and both limited fields alike. */
  function ReplicasScaledCost(kind: string, replicas: int, t: Totals, pc: PriceCatalog): (c: CostRange)
    ensures c.kind == kind
    ensures c.minRequested == c.maxRequested == c.hpaBuffer == replicas as real * PerReplicaCost(t.cpuReq, t.memReq, pc)
    ensures c.minLimited == c.maxLimited == replicas as real * PerReplicaCost(t.cpuLim, t.memLim, pc)
  {
    var n := replicas as real;
    var requested := Scaled(n, t.cpuReq, t.memReq, pc);
    var limited := Scaled(n, t.cpuLim, t.memLim, pc);
    CostRange(kind, requested, requested, requested, limited, limited)
  }

  /** Before post-processing: an HPA prices the minimum, the maximum and the buffer at their own replica counts. */
  function HpaScaledCost(kind: string, hpa: HPA, t: Totals, pc: PriceCatalog): (c: CostRange)
    ensures c.kind == kind
    ensures c.minRequested == hpa.minReplicas as real * PerReplicaCost(t.cpuReq, t.memReq, pc)
    ensures c.maxRequested == hpa.maxReplicas as real * PerReplicaCost(t.cpuReq, t.memReq, pc)
    ensures c.hpaBuffer == HpaBufferReplicas(hpa) * PerReplicaCost(t.cpuReq, t.memReq, pc)
    ensures c.minLimited == hpa.minReplicas as real * PerReplicaCost(t.cpuLim, t.memLim, pc)
    ensures c.maxLimited == hpa.maxReplicas as real * PerReplicaCost(t.cpuLim, t.memLim, pc)
  {
    var minReplicas := hpa.minReplicas as real;
    var maxReplicas := hpa.maxReplicas as real;
    CostRange(kind,
      Scaled(minReplicas, t.cpuReq, t.memReq, pc),
      Scaled(maxReplicas, t.cpuReq, t.memReq, pc),
      Scaled(HpaBufferReplicas(hpa), t.cpuReq, t.memReq, pc),
      Scaled(minReplicas, t.cpuLim, t.memLim, pc),
      Scaled(maxReplicas, t.cpuLim, t.memLim, pc))
  }

  /** Monthly prices: per core, per byte of memory, per byte of standard persistent disk. */
  datatype PriceCatalog = PriceCatalog(cpuPrice: real, memoryPrice: real, pdStandardPrice: real)

  // ----- Cost arithmetic -----

  function RealMax(a: real, b: real): real
  {
    if a < b then b else a
  }

  /** The monthly cost of one replica using `cpu` cores and `mem` bytes. */
  function PerReplicaCost(cpu: real, mem: real, pc: PriceCatalog): real
  {
    cpu * pc.cpuPrice + mem * pc.memoryPrice
  }

  /** `n` replicas' worth of CPU cost plus `n` replicas' worth of memory cost. */
  function Scaled(n: real, cpu: real, mem: real, pc: PriceCatalog): (r: real)
    ensures r == n * PerReplicaCost(cpu, mem, pc)
  {
    (n * cpu * pc.cpuPrice) + (n * mem * pc.memoryPrice)
  }

  /**
   * The replica count the HPA buffer is priced at: `minReplicas` grown by
   * the head-room the CPU target leaves, `(100 - target)` percent, when a
   * target is set; `minReplicas` otherwise.
   */
  function HpaBufferReplicas(hpa: HPA): (b: real)
    ensures hpa.targetCPUPercentage > 0 ==>
      b * 100.0 == hpa.minReplicas as real * (200 - hpa.targetCPUPercentage) as real
    ensures hpa.targetCPUPercentage <= 0 ==> b == hpa.minReplicas as real
  {
    var minReplicas := hpa.minReplicas as real;
    if hpa.targetCPUPercentage > 0 then
      var buff := (100 - hpa.targetCPUPercentage) as real / 100.0;
      minReplicas + (buff * minReplicas)
    else minReplicas
  }

  /**
   * Raises each limited cost to its requested cost when it is below it:
   * each limited field becomes the larger of itself and the requested one;
   * everything else is kept.
   */
  function PostProcessCost(c: CostRange): (r: CostRange)
    ensures r.kind == c.kind && r.minRequested == c.minRequested
    ensures r.maxRequested == c.maxRequested && r.hpaBuffer == c.hpaBuffer
    ensures r.minLimited >= r.minRequested && r.maxLimited >= r.maxRequested
    ensures r.minLimited >= c.minLimited && (r.minLimited == c.minLimited || r.minLimited == c.minRequested)
    ensures r.maxLimited >= c.maxLimited && (r.maxLimited == c.maxLimited || r.maxLimited == c.maxRequested)
    ensures r.minLimited == RealMax(c.minLimited, c.minRequested) && r.maxLimited == RealMax(c.maxLimited, c.maxRequested)
  {
    var cost := if c.minLimited < c.minRequested then c.(minLimited := c.minRequested) else c;
    if cost.maxLimited < cost.maxRequested then cost.(maxLimited := cost.maxRequested) else cost
  }

  lemma PostProcessCostIdempotent(c: CostRange)
    ensures PostProcessCost(PostProcessCost(c)) == PostProcessCost(c)
  {
  }

  // ----- Containers -----

  /**
   * The resources a container is priced at. For CPU and memory separately:
   * the request is the declared request if non-zero, else the declared
   * limit if non-zero, else the configured default; the limit is the
   * declared limit if non-zero, else the request increased by the
   * configured percentage, with integer division.
   */
  function EffectiveContainer(c: ContainerSpec, conf: CostimatorConfig): (r: Container)
    ensures var rc := Quantity(c.resources.requests.cpuMillis);
      var lc := Quantity(c.resources.limits.cpuMillis);
      && (rc != 0 ==> r.requests.cpu == rc)
      && (rc == 0 && lc != 0 ==> r.requests.cpu == lc)
      && (rc == 0 && lc == 0 ==> r.requests.cpu == conf.resourceConf.defaultCPUinMillis)
      && (lc != 0 ==> r.limits.cpu == lc)
      && (lc == 0 ==> r.limits.cpu == UnboundedLimit(r.requests.cpu, conf))
    ensures var rm := Quantity(c.resources.requests.memoryBytes);
      var lm := Quantity(c.resources.limits.memoryBytes);
      && (rm != 0 ==> r.requests.memory == rm)
      && (rm == 0 && lm != 0 ==> r.requests.memory == lm)
      && (rm == 0 && lm == 0 ==> r.requests.memory == conf.resourceConf.defaultMemoryinBytes)
      && (lm != 0 ==> r.limits.memory == lm)
      && (lm == 0 ==> r.limits.memory == UnboundedLimit(r.requests.memory, conf))
    ensures r.requests.storage == 0 && r.limits.storage == 0
  {
    var requestsCPU := Quantity(c.resources.requests.cpuMillis);
    var requestsMemory := Quantity(c.resources.requests.memoryBytes);
    var limitsCPU := Quantity(c.resources.limits.cpuMillis);
    var limitsMemory := Quantity(c.resources.limits.memoryBytes);
    var requestsCPU := if requestsCPU == 0 then limitsCPU else requestsCPU;
    var requestsMemory := if requestsMemory == 0 then limitsMemory else requestsMemory;
    var requestsCPU := if requestsCPU == 0 then conf.resourceConf.defaultCPUinMillis else requestsCPU;
    var requestsMemory := if requestsMemory == 0 then conf.resourceConf.defaultMemoryinBytes else requestsMemory;
    var limitsCPU := if limitsCPU == 0 then UnboundedLimit(requestsCPU, conf) else limitsCPU;
    var limitsMemory := if limitsMemory == 0 then UnboundedLimit(requestsMemory, conf) else limitsMemory;
    Container(Resource(requestsCPU, requestsMemory, 0), Resource(limitsCPU, limitsMemory, 0))
  }

  /** The limit given to a resource declared without one. */
  function UnboundedLimit(request: int, conf: CostimatorConfig): int
  {
    request + Quot(conf.resourceConf.percentageIncreaseForUnboundedResources * request, 100)
  }

  /** With the default 200% increase, an unbounded resource is limited at three times its request. */
  lemma {:induction false} DefaultIncreaseTriples(request: int, conf: CostimatorConfig)
    requires conf.resourceConf.percentageIncreaseForUnboundedResources == 200
    ensures UnboundedLimit(request, conf) == 3 * request
  {
    if request >= 0 {
      assert 200 * request == (2 * request) * 100;
    } else {
      assert -(200 * request) == (-2 * request) * 100;
    }
  }

  /** A declared limit is kept as declared, even below the effective request. */
  lemma DeclaredLimitKept(c: ContainerSpec, conf: CostimatorConfig)
    requires Quantity(c.resources.limits.cpuMillis) != 0 && Quantity(c.resources.limits.memoryBytes) != 0
    ensures EffectiveContainer(c, conf).limits.cpu == c.resources.limits.cpuMillis.value
    ensures EffectiveContainer(c, conf).limits.memory == c.resources.limits.memoryBytes.value
  {
  }

  /** `buildContainers` as a value: one effective container per declared container, in order. */
  function EffectiveContainers(cont: seq<ContainerSpec>, conf: CostimatorConfig): seq<Container>
  {
    seq(|cont|, i requires 0 <= i < |cont| => EffectiveContainer(cont[i], conf))
  }

  method BuildContainers(cont: seq<ContainerSpec>, conf: CostimatorConfig) returns (containers: seq<Container>)
    ensures |containers| == |cont|
    ensures forall i :: 0 <= i < |cont| ==> containers[i] == EffectiveContainer(cont[i], conf)
    ensures containers == EffectiveContainers(cont, conf)
  {
    containers := [];
    for i := 0 to |cont|
      invariant |containers| == i
      invariant forall j :: 0 <= j < i ==> containers[j] == EffectiveContainer(cont[j], conf)
    {
      containers := containers + [EffectiveContainer(cont[i], conf)];
    }
  }

  /** The sum of `f` over `cs`. */
  function SumOf(cs: seq<Container>, f: Container -> int): int
  {
    if |cs| == 0 then 0 else SumOf(cs[..|cs| - 1], f) + f(cs[|cs| - 1])
  }

  function CpuRequest(c: Container): int { c.requests.cpu }
  function CpuLimit(c: Container): int { c.limits.cpu }
  function MemoryRequest(c: Container): int { c.requests.memory }
  function MemoryLimit(c: Container): int { c.limits.memory }

  /** Cores (milli-cores summed, then divided by 1000) and bytes, requested and limited. */
  datatype Totals = Totals(cpuReq: real, cpuLim: real, memReq: real, memLim: real)

  function ContainerTotals(cs: seq<Container>): Totals
  {
    Totals(SumOf(cs, CpuRequest) as real / 1000.0, SumOf(cs, CpuLimit) as real / 1000.0,
           SumOf(cs, MemoryRequest) as real, SumOf(cs, MemoryLimit) as real)
  }

  method TotalContainers(containers: seq<Container>) returns (cpuReq: real, cpuLim: real, memReq: real, memLim: real)
    ensures Totals(cpuReq, cpuLim, memReq, memLim) == ContainerTotals(containers)
    ensures |containers| == 0 ==> cpuReq == cpuLim == memReq == memLim == 0.0
  {
    cpuReq, cpuLim, memReq, memLim := 0.0, 0.0, 0.0, 0.0;
    for i := 0 to |containers|
      invariant cpuReq == SumOf(containers[..i], CpuRequest) as real
      invariant cpuLim == SumOf(containers[..i], CpuLimit) as real
      invariant memReq == SumOf(containers[..i], MemoryRequest) as real
      invariant memLim == SumOf(containers[..i], MemoryLimit) as real
    {
      var c := containers[i];
      assert containers[..i + 1][..i] == containers[..i];
      cpuReq := cpuReq + c.requests.cpu as real;
      cpuLim := cpuLim + c.limits.cpu as real;
      memReq := memReq + c.requests.memory as real;
      memLim := memLim + c.limits.memory as real;
    }
    assert containers[..|containers|] == containers;
    cpuReq := cpuReq / 1000.0;
    cpuLim := cpuLim / 1000.0;
  }

  /** Totals add up over a concatenation of container lists. */
  lemma {:induction false} SumOfConcat(a: seq<Container>, b: seq<Container>, f: Container -> int)
    ensures SumOf(a + b, f) == SumOf(a, f) + SumOf(b, f)
    decreases |b|
  {
    if |b| == 0 {
      assert a + b == a;
    } else {
      assert (a + b)[..|a + b| - 1] == a + b[..|b| - 1];
      SumOfConcat(a, b[..|b| - 1], f);
    }
  }

  // ----- Keys -----

  function NamespaceOrDefault(ns: string): string
  {
    if ns != "" then ns else DefaultNamespace
  }

  /** `apiVersion|kind|namespace|name`, the namespace defaulting to "default". */
  function BuildAPIVersionKindName(apiVersion: string, kind: string, ns: string, name: string): (key: string)
    ensures KeySeparator in key
  {
    var key := apiVersion + "|" + kind + "|" + NamespaceOrDefault(ns) + "|" + name;
    assert key[|apiVersion|] == KeySeparator;
    key
  }

  /** The key from its first separator on: the full key without its apiVersion. */
  function BuildKindName(apiVersionKindName: string): (kindName: string)
    requires KeySeparator in apiVersionKindName
    ensures 0 < |kindName| <= |apiVersionKindName| && kindName[0] == KeySeparator
    ensures kindName == apiVersionKindName[|apiVersionKindName| - |kindName|..]
  {
    apiVersionKindName[IndexOf(apiVersionKindName, KeySeparator)..]
  }

  /**
   * The kind-name key is a non-empty suffix of the key that starts at a
   * separator, and what it drops holds no separator.
   */
  lemma KindNameIsKeySuffix(key: string)
    requires KeySeparator in key
    ensures var kindName := BuildKindName(key);
      && 0 < |kindName| <= |key| && kindName[0] == KeySeparator
      && key[..|key| - |kindName|] + kindName == key
      && KeySeparator !in key[..|key| - |kindName|]
  {
    var index := IndexOf(key, KeySeparator);
    assert key[..index] + key[index..] == key;
  }

  predicate NoSeparator(s: string)
  {
    KeySeparator !in s
  }

  /** A key splits back into its four fields when none of them holds a separator. */
  lemma {:induction false} KeyRoundTrip(apiVersion: string, kind: string, ns: string, name: string)
    requires NoSeparator(apiVersion) && NoSeparator(kind) && NoSeparator(ns) && NoSeparator(name)
    ensures Split(BuildAPIVersionKindName(apiVersion, kind, ns, name), KeySeparator)
            == [apiVersion, kind, NamespaceOrDefault(ns), name]
  {
    var n := NamespaceOrDefault(ns);
    var parts := [apiVersion, kind, n, name];
    assert Join(parts, "|") == BuildAPIVersionKindName(apiVersion, kind, ns, name) by {
      assert Join(parts[3..], "|") == name;
      assert Join(parts[2..], "|") == n + "|" + name;
      assert Join(parts[1..], "|") == kind + "|" + (n + "|" + name);
    }
    assert NoSeparator(n);
    SplitJoin(parts, KeySeparator);
  }

  /** A built key is its apiVersion followed by `|kind|namespace|name`. */
  lemma KeyIsApiVersionThenKindName(apiVersion: string, kind: string, ns: string, name: string)
    ensures BuildAPIVersionKindName(apiVersion, kind, ns, name)
            == apiVersion + ("|" + kind + "|" + NamespaceOrDefault(ns) + "|" + name)
  {
  }

  lemma {:induction false} KindNameAfterPrefix(a: string, kindName: string)
    requires KeySeparator !in a && |kindName| > 0 && kindName[0] == KeySeparator
    ensures KeySeparator in a + kindName && BuildKindName(a + kindName) == kindName
  {
    assert a + kindName == a + [KeySeparator] + kindName[1..];
    IndexOfAfterPrefix(a, KeySeparator, kindName[1..]);
    assert (a + kindName)[|a|..] == kindName;
  }

  /** The kind-name key of a built key is `|kind|namespace|name`, whatever the apiVersion. */
  lemma {:induction false} KindNameOfKey(apiVersion: string, kind: string, ns: string, name: string)
    requires NoSeparator(apiVersion)
    ensures BuildKindName(BuildAPIVersionKindName(apiVersion, kind, ns, name))
            == "|" + kind + "|" + NamespaceOrDefault(ns) + "|" + name
  {
    KeyIsApiVersionThenKindName(apiVersion, kind, ns, name);
    KindNameAfterPrefix(apiVersion, "|" + kind + "|" + NamespaceOrDefault(ns) + "|" + name);
  }
}

/**
 * The exporter's VPA builder: an `autoscaling.k8s.io` VerticalPodAutoscaler
 * list reduced to the exporter's `VPA` records, one per item whose own
 * version the exporter reads, with CPU recommendations converted from
 * milli-cores to cores.
 */
module ExporterVpa {
  import opened Wrappers
  import opened Kube
  import opened ExporterTypes
  import Types

  const VpaV1Version := "v1"
  const VpaV1beta2Version := "v1beta2"

  /** A recommended amount: the CPU quantity in cores, memory in bytes, zero when absent. */
  function ToResource(r: RecommendedResources): (res: Resource)
    ensures res.cpu * 1000.0 == Quantity(r.cpuMillis) as real
    ensures res.memory == Quantity(r.memoryBytes)
  {
    Resource(Quantity(r.cpuMillis) as real / 1000.0, Quantity(r.memoryBytes))
  }

  /** One container's recommendation: its name, with the target and the upper bound converted alike. */
  function ToRecommendation(r: ContainerRecommendation): (rec: VpaRecommendation)
    ensures rec.containerName == r.containerName
    ensures rec.target.cpu * 1000.0 == Quantity(r.target.cpuMillis) as real
      && rec.target.memory == Quantity(r.target.memoryBytes)
    ensures rec.upperBound.cpu * 1000.0 == Quantity(r.upperBound.cpuMillis) as real
      && rec.upperBound.memory == Quantity(r.upperBound.memoryBytes)
  {
    VpaRecommendation(r.containerName, ToResource(r.target), ToResource(r.upperBound))
  }

  /** One recommendation per container of `status.recommendation`, none when it is absent. */
  function RecommendationsOf(status: VpaStatus): (recs: seq<VpaRecommendation>)
    ensures status.recommendation.None? ==> recs == []
    ensures status.recommendation.Some? ==>
      |recs| == |status.recommendation.value|
      && forall i :: 0 <= i < |recs| ==> recs[i] == ToRecommendation(status.recommendation.value[i])
  {
    if status.recommendation.None? then []
    else
      var crs := status.recommendation.value;
      seq(|crs|, i requires 0 <= i < |crs| => ToRecommendation(crs[i]))
  }

  /**
   * The recommendation mode as the code reads it: no update policy means
   * the default mode, but an update policy without a mode is dereferenced
   * anyway, which `None` stands for (the exporter panics).
   */
  function RecommendationModeAsWritten(spec: VpaSpec): (r: Option<bool>)
    ensures r.None? <==> spec.updatePolicy == Some(PodUpdatePolicy(None))
  {
    if spec.updatePolicy.None? then Some(false)
    else if spec.updatePolicy.value.updateMode.None? then None
    else Some(spec.updatePolicy.value.updateMode.value == UpdateModeOff)
  }

  /** An update policy that does not name a mode leaves the default, which is not the recommendation mode. */
  function IsInRecommendationMode(spec: VpaSpec): (b: bool)
    ensures b <==> spec.updatePolicy == Some(PodUpdatePolicy(Some(UpdateModeOff)))
  {
    spec.updatePolicy.Some? && spec.updatePolicy.value.updateMode.Some?
    && spec.updatePolicy.value.updateMode.value == UpdateModeOff
  }

  /** Wherever the code as written does not panic, the corrected reading agrees with it. */
  lemma RecommendationModeAgrees(spec: VpaSpec)
    ensures RecommendationModeAsWritten(spec).Some? ==>
      RecommendationModeAsWritten(spec).value == IsInRecommendationMode(spec)
  {
  }

  /** The VPA built from one item, namespace defaulted. */
  function VpaOf(vpa: VerticalPodAutoscaler): (r: VPA)
    ensures r.namespace == (if vpa.meta.namespace != "" then vpa.meta.namespace else "default")
    ensures r.name == vpa.meta.name && r.targetRef == ToTargetRef(vpa.spec.targetRef)
    ensures r.isInRecommendationMode == IsInRecommendationMode(vpa.spec)
    ensures r.recommendations == RecommendationsOf(vpa.status)
  {
    VPA(Types.NamespaceOrDefault(vpa.meta.namespace), vpa.meta.name, ToTargetRef(vpa.spec.targetRef),
        IsInRecommendationMode(vpa.spec), RecommendationsOf(vpa.status))
  }

  method BuildVPAV1(vpa: VerticalPodAutoscaler) returns (r: VPA)
    ensures r == VpaOf(vpa)
  {
    var recommendations: seq<VpaRecommendation> := [];
    if vpa.status.recommendation.Some? {
      var crs := vpa.status.recommendation.value;
      for i := 0 to |crs|
        invariant |recommendations| == i
        invariant forall j :: 0 <= j < i ==> recommendations[j] == ToRecommendation(crs[j])
      {
        recommendations := recommendations + [ToRecommendation(crs[i])];
      }
    }
    var isInRecommendationMode := false;
    if vpa.spec.updatePolicy.Some? {
      var mode := vpa.spec.updatePolicy.value.updateMode;
      isInRecommendationMode := mode.Some? && mode.value == UpdateModeOff;
    }
    var ns := if vpa.meta.namespace != "" then vpa.meta.namespace else Types.DefaultNamespace;
    r := VPA(ns, vpa.meta.name, ToTargetRef(vpa.spec.targetRef), isInRecommendationMode, recommendations);
  }

  predicate IsSupportedVersion(gvk: GroupVersionKind)
  {
    gvk.version == VpaV1Version || gvk.version == VpaV1beta2Version
  }

  /** The switch on the item's own version: `v1` and `v1beta2` are read alike, the rest refused. */
  function VpaResult(vpa: VerticalPodAutoscaler): (r: Result<VPA, string>)
    ensures r.Success? <==> IsSupportedVersion(vpa.typeMeta)
    ensures r.Success? ==> r.value == VpaOf(vpa)
    ensures r.Failure? ==> NotSupportedPrefix <= r.error
  {
    if IsSupportedVersion(vpa.typeMeta) then Success(VpaOf(vpa)) else Failure(NotSupported(vpa.typeMeta))
  }

  method BuildVPA(vpa: VerticalPodAutoscaler) returns (r: Result<VPA, string>)
    ensures r == VpaResult(vpa)
  {
    if vpa.typeMeta.version == VpaV1Version {
      var v := BuildVPAV1(vpa);
      r := Success(v);
    } else if vpa.typeMeta.version == VpaV1beta2Version {
      var v := BuildVPAV1(vpa);
      r := Success(v);
    } else {
      r := Failure(NotSupported(vpa.typeMeta));
    }
  }

  /** The items that build, in order; the others are logged and dropped. */
  function VpaItems(items: seq<VerticalPodAutoscaler>): (vs: seq<VPA>)
    ensures |vs| <= |items|
    ensures |items| > 0 && IsSupportedVersion(items[|items| - 1].typeMeta) ==>
      |vs| > 0 && vs[|vs| - 1] == VpaOf(items[|items| - 1])
  {
    if |items| == 0 then []
    else
      var prev := VpaItems(items[..|items| - 1]);
      var built := VpaResult(items[|items| - 1]);
      if built.Success? then prev + [built.value] else prev
  }

  method BuildVPAList(items: seq<VerticalPodAutoscaler>) returns (list: seq<VPA>)
    ensures list == VpaItems(items)
  {
    list := [];
    for i := 0 to |items|
      invariant list == VpaItems(items[..i])
    {
      assert items[..i + 1][..i] == items[..i];
      var built := BuildVPA(items[i]);
      if built.Success? {
        list := list + [built.value];
      }
    }
    assert items[..|items|] == items;
  }

  /**
   * The list keeps exactly the items of a supported version: each of them
   * appears, every element comes from one of them, none is added.
   */
  lemma {:induction false} VpaItemsKeepsSupported(items: seq<VerticalPodAutoscaler>)
    ensures |VpaItems(items)| <= |items|
    ensures forall i :: 0 <= i < |items| && IsSupportedVersion(items[i].typeMeta) ==> VpaOf(items[i]) in VpaItems(items)
    ensures forall v :: v in VpaItems(items) ==>
      exists i :: 0 <= i < |items| && IsSupportedVersion(items[i].typeMeta) && v == VpaOf(items[i])
    decreases |items|
  {
    if |items| > 0 {
      var init := items[..|items| - 1];
      VpaItemsKeepsSupported(init);
      forall v | v in VpaItems(init)
        ensures exists i :: 0 <= i < |items| && IsSupportedVersion(items[i].typeMeta) && v == VpaOf(items[i])
      {
        var i :| 0 <= i < |init| && IsSupportedVersion(init[i].typeMeta) && v == VpaOf(init[i]);
        assert items[i] == init[i];
      }
      forall i | 0 <= i < |items| - 1 && IsSupportedVersion(items[i].typeMeta)
        ensures VpaOf(items[i]) in VpaItems(items)
      {
        assert items[i] == init[i];
      }
    }
  }

  /** One item gives its VPA when its version is supported, and nothing otherwise. */
  lemma VpaItemsSingle(x: VerticalPodAutoscaler)
    ensures VpaItems([x]) == if IsSupportedVersion(x.typeMeta) then [VpaOf(x)] else []
  {
    assert [x][..0] == [];
  }

  /**
   * The list of a concatenation is the concatenation of the lists: with
   * `VpaItemsSingle`, every item contributes its own VPA or nothing, in
   * the items' order, so a dropped item neither reorders nor repeats the others.
   */
  lemma {:induction false} VpaItemsConcat(a: seq<VerticalPodAutoscaler>, b: seq<VerticalPodAutoscaler>)
    ensures VpaItems(a + b) == VpaItems(a) + VpaItems(b)
    decreases |b|
  {
    if |b| > 0 {
      assert (a + b)[..|a + b| - 1] == a + b[..|b| - 1];
      VpaItemsConcat(a, b[..|b| - 1]);
    } else {
      assert a + b == a;
    }
  }

  /** When every item has a supported version, the list is one VPA per item, in order. */
  lemma {:induction false} AllSupportedKeepsAll(items: seq<VerticalPodAutoscaler>)
    requires forall i :: 0 <= i < |items| ==> IsSupportedVersion(items[i].typeMeta)
    ensures |VpaItems(items)| == |items|
    ensures forall i :: 0 <= i < |items| ==> VpaItems(items)[i] == VpaOf(items[i])
    decreases |items|
  {
    if |items| > 0 {
      var init := items[..|items| - 1];
      AllSupportedKeepsAll(init);
    }
  }

  /** A decoded document read as a VPA list; any other type is refused. */
  function DecodeVPAList(decoded: Decoded): (r: Result<seq<VPA>, string>)
    ensures r.Success? <==> decoded.Success? && decoded.value.0.VpaListObject?
    ensures r.Success? ==> r.value == VpaItems(decoded.value.0.vpaItems)
    ensures decoded.Failure? ==> r.Failure? && ListDecodeErrorHead <= r.error
    ensures decoded.Success? && r.Failure? ==> NotSupportedPrefix <= r.error
  {
    if decoded.Failure? then Failure(ListDecodeError(decoded.error))
    else
      match decoded.value.0
      case VpaListObject(items) =>
        VpaItemsKeepsSupported(items);
        Success(VpaItems(items))
      case _ => Failure(NotSupported(decoded.value.1))
  }
}

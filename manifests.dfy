/**
 * The set of loaded manifests: workloads by kind, the maps that find a
 * horizontally scalable workload by key, and the HPAs. Loading registers
 * each workload; estimation binds HPAs to workloads and folds the costs
 * of each kind into one range.
 *
 * A Go map from key to `*Deployment` is a map from key to the index of
 * the workload in its sequence: binding an HPA through the map updates
 * the element the index names.
 */
module Manifests {
  import opened Wrappers
  import opened Config
  import opened Kube
  import opened Costs
  import opened Types
  import opened HpaMetrics
  import opened HpaBuilder
  import opened VolumeClaimBuilder
  import opened DeploymentBuilder
  import opened ReplicaSetBuilder
  import opened StatefulSetBuilder
  import opened DaemonSetBuilder

  /**
   * One document to load: the kind the preliminary apiVersion/kind parse
   * read (`None` when that parse fails) and the decoder's outcome.
   */
  datatype Document = Document(peekedKind: Option<string>, decoded: Decoded)

  /** The value of a `Manifests` object. */
  datatype State = State(
    deployments: seq<HorizontalScalable>,
    deploymentsRef: map<string, nat>,
    replicaSets: seq<HorizontalScalable>,
    replicaSetsRef: map<string, nat>,
    statefulSets: seq<HorizontalScalable>,
    statefulsetsRef: map<string, nat>,
    daemonSets: seq<DaemonSet>,
    volumeClaims: seq<VolumeClaim>,
    hpas: seq<HPA>)

  const EmptyState := State([], map[], [], map[], [], map[], [], [], [])

  /** Every key of `ref` names a workload of `ws`, and every workload key holds a separator. */
  predicate RefsValid(ws: seq<HorizontalScalable>, ref: map<string, nat>)
  {
    && (forall k :: k in ref ==> ref[k] < |ws|)
    && (forall i :: 0 <= i < |ws| ==> KeySeparator in ws[i].apiVersionKindName)
  }

  predicate StateValid(s: State)
  {
    && RefsValid(s.deployments, s.deploymentsRef)
    && RefsValid(s.replicaSets, s.replicaSetsRef)
    && RefsValid(s.statefulSets, s.statefulsetsRef)
  }

  // ----- Loading -----

  /** `ref` with both keys of the workload at index `n`, its full key and its kind-name key, mapped to `n`. */
  function IndexUnder(ref: map<string, nat>, key: string, n: nat): (r: map<string, nat>)
    requires KeySeparator in key
    ensures forall k :: k in r <==> k in ref || k == key || k == BuildKindName(key)
    ensures r[key] == n && r[BuildKindName(key)] == n
    ensures forall k :: k in ref && k != key && k != BuildKindName(key) ==> r[k] == ref[k]
  {
    ref[key := n][BuildKindName(key) := n]
  }

  /** Appends `w` and registers it under its full key and under its kind-name key. */
  function Register(ws: seq<HorizontalScalable>, ref: map<string, nat>, w: HorizontalScalable)
    : (seq<HorizontalScalable>, map<string, nat>)
    requires KeySeparator in w.apiVersionKindName
  {
    (ws + [w], IndexUnder(ref, w.apiVersionKindName, |ws|))
  }

  predicate IsSupportedDocument(doc: Document)
  {
    doc.peekedKind.Some? && IsKindSupported(doc.peekedKind.value)
  }

  /** An HPA joins the HPAs. */
  function LoadHpa(s: State, obj: K8sObject, gvk: GroupVersionKind): (State, Option<string>)
  {
    match BuildHPA(obj, gvk)
    case Failure(e) => (s, Some(e))
    case Success(hpa) => (s.(hpas := s.hpas + [hpa]), None)
  }

  /** A Deployment joins the Deployments under both of its keys. */
  function LoadDeployment(s: State, obj: K8sObject, gvk: GroupVersionKind, conf: CostimatorConfig): (State, Option<string>)
  {
    match BuildDeployment(obj, gvk, conf)
    case Failure(e) => (s, Some(e))
    case Success(d) =>
      var (ws, ref) := Register(s.deployments, s.deploymentsRef, d);
      (s.(deployments := ws, deploymentsRef := ref), None)
  }

  /** A ReplicaSet joins the ReplicaSets under both of its keys. */
  function LoadReplicaSet(s: State, obj: K8sObject, gvk: GroupVersionKind, conf: CostimatorConfig): (State, Option<string>)
  {
    match BuildReplicaSet(obj, gvk, conf)
    case Failure(e) => (s, Some(e))
    case Success(r) =>
      var (ws, ref) := Register(s.replicaSets, s.replicaSetsRef, r);
      (s.(replicaSets := ws, replicaSetsRef := ref), None)
  }

  /** A StatefulSet joins the StatefulSets under both of its keys; its volume claims join the claims. */
  function LoadStatefulSet(s: State, obj: K8sObject, gvk: GroupVersionKind, conf: CostimatorConfig): (State, Option<string>)
  {
    match BuildStatefulSet(obj, gvk, conf)
    case Failure(e) => (s, Some(e))
    case Success(st) =>
      var (ws, ref) := Register(s.statefulSets, s.statefulsetsRef, st);
      (s.(statefulSets := ws, statefulsetsRef := ref, volumeClaims := s.volumeClaims + st.volumeClaims), None)
  }

  function LoadDaemonSet(s: State, obj: K8sObject, gvk: GroupVersionKind, conf: CostimatorConfig): (State, Option<string>)
  {
    match BuildDaemonSet(obj, gvk, conf)
    case Failure(e) => (s, Some(e))
    case Success(d) => (s.(daemonSets := s.daemonSets + [d]), None)
  }

  function LoadVolumeClaim(s: State, obj: K8sObject, gvk: GroupVersionKind, conf: CostimatorConfig): (State, Option<string>)
  {
    match BuildVolumeClaim(obj, gvk, conf)
    case Failure(e) => (s, Some(e))
    case Success(v) => (s.(volumeClaims := s.volumeClaims + [v]), None)
  }

  /** The switch on the decoded kind; a kind outside the six is ignored. */
  function LoadDecoded(s: State, obj: K8sObject, gvk: GroupVersionKind, conf: CostimatorConfig): (State, Option<string>)
  {
    if gvk.kind == HPAKind then LoadHpa(s, obj, gvk)
    else if gvk.kind == DeploymentKind then LoadDeployment(s, obj, gvk, conf)
    else if gvk.kind == ReplicaSetKind then LoadReplicaSet(s, obj, gvk, conf)
    else if gvk.kind == StatefulSetKind then LoadStatefulSet(s, obj, gvk, conf)
    else if gvk.kind == DaemonSetKind then LoadDaemonSet(s, obj, gvk, conf)
    else if gvk.kind == VolumeClaimKind then LoadVolumeClaim(s, obj, gvk, conf)
    else (s, None)
  }

  /**
   * Loading one document: a document of an unsupported kind is skipped; a
   * decoder failure and a builder failure are returned as errors and leave
   * the state as it was; a built object is appended to its kind's list,
   * and a horizontally scalable one registered under both of its keys.
   */
  function LoadStep(s: State, doc: Document, conf: CostimatorConfig): (State, Option<string>)
  {
    if !IsSupportedDocument(doc) then (s, None)
    else if doc.decoded.Failure? then (s, Some(DecodeError(doc.decoded.error)))
    else LoadDecoded(s, doc.decoded.value.0, doc.decoded.value.1, conf)
  }

  /** Loading documents in order, stopping at the first that fails. */
  function LoadAll(s: State, docs: seq<Document>, conf: CostimatorConfig): (State, Option<string>)
  {
    if |docs| == 0 then (s, None)
    else
      var (p, err) := LoadAll(s, docs[..|docs| - 1], conf);
      if err.Some? then (p, err) else LoadStep(p, docs[|docs| - 1], conf)
  }

  lemma AppendKeepsKeys(ws: seq<HorizontalScalable>, w: HorizontalScalable)
    requires forall i :: 0 <= i < |ws| ==> KeySeparator in ws[i].apiVersionKindName
    requires KeySeparator in w.apiVersionKindName
    ensures forall i :: 0 <= i < |ws + [w]| ==> KeySeparator in (ws + [w])[i].apiVersionKindName
  {
  }

  lemma IndexUnderInRange(ref: map<string, nat>, key: string, n: nat)
    requires forall k :: k in ref ==> ref[k] < n
    requires KeySeparator in key
    ensures forall k :: k in IndexUnder(ref, key, n) ==> IndexUnder(ref, key, n)[k] < n + 1
  {
  }

  lemma RegisterKeepsRefs(ws: seq<HorizontalScalable>, ref: map<string, nat>, w: HorizontalScalable)
    requires RefsValid(ws, ref) && KeySeparator in w.apiVersionKindName
    ensures RefsValid(Register(ws, ref, w).0, Register(ws, ref, w).1)
  {
    AppendKeepsKeys(ws, w);
    IndexUnderInRange(ref, w.apiVersionKindName, |ws|);
  }

  lemma LoadStepKeepsValid(s: State, doc: Document, conf: CostimatorConfig)
    requires StateValid(s)
    ensures StateValid(LoadStep(s, doc, conf).0)
  {
    if IsSupportedDocument(doc) && doc.decoded.Success? {
      var (obj, gvk) := doc.decoded.value;
      if gvk.kind == HPAKind {
        assert LoadStep(s, doc, conf) == LoadHpa(s, obj, gvk);
      } else if gvk.kind == DeploymentKind {
        assert LoadStep(s, doc, conf) == LoadDeployment(s, obj, gvk, conf);
        if obj.DeploymentObject? {
          RegisterKeepsRefs(s.deployments, s.deploymentsRef, BuildDeploymentV1(obj.deployment, conf));
        }
      } else if gvk.kind == ReplicaSetKind {
        assert LoadStep(s, doc, conf) == LoadReplicaSet(s, obj, gvk, conf);
        if obj.ReplicaSetObject? {
          RegisterKeepsRefs(s.replicaSets, s.replicaSetsRef, BuildReplicaSetV1(obj.replicaSet, conf));
        }
      } else if gvk.kind == StatefulSetKind {
        assert LoadStep(s, doc, conf) == LoadStatefulSet(s, obj, gvk, conf);
        if obj.StatefulSetObject? {
          RegisterKeepsRefs(s.statefulSets, s.statefulsetsRef, BuildStatefulSetV1(obj.statefulSet, conf));
        }
      } else if gvk.kind == DaemonSetKind {
        assert LoadStep(s, doc, conf) == LoadDaemonSet(s, obj, gvk, conf);
      } else if gvk.kind == VolumeClaimKind {
        assert LoadStep(s, doc, conf) == LoadVolumeClaim(s, obj, gvk, conf);
      }
    }
  }

  lemma {:induction false} LoadAllKeepsValid(s: State, docs: seq<Document>, conf: CostimatorConfig)
    requires StateValid(s)
    ensures StateValid(LoadAll(s, docs, conf).0)
  {
    if |docs| > 0 {
      LoadAllKeepsValid(s, docs[..|docs| - 1], conf);
      LoadStepKeepsValid(LoadAll(s, docs[..|docs| - 1], conf).0, docs[|docs| - 1], conf);
    }
  }

  /** A failed document leaves the state as it was. */
  lemma LoadStepErrorChangesNothing(s: State, doc: Document, conf: CostimatorConfig)
    ensures LoadStep(s, doc, conf).1.Some? ==> LoadStep(s, doc, conf).0 == s
  {
  }

  /** Documents of unsupported kinds are skipped without error; decoder failures are reported. */
  lemma LoadStepSkipsOrReports(s: State, doc: Document, conf: CostimatorConfig)
    ensures !IsSupportedDocument(doc) ==> LoadStep(s, doc, conf) == (s, None)
    ensures IsSupportedDocument(doc) && doc.decoded.Failure? ==>
      LoadStep(s, doc, conf).0 == s && LoadStep(s, doc, conf).1.Some?
      && DecodeErrorHead <= LoadStep(s, doc, conf).1.value
  {
  }

  /**
   * A loaded Deployment is appended to the Deployments and indexed under
   * its full key and its kind-name key (`IndexUnder`); nothing else changes.
   */
  lemma LoadedDeploymentIsFindable(s: State, doc: Document, conf: CostimatorConfig, d: DeploymentV1, gvk: GroupVersionKind)
    requires IsSupportedDocument(doc) && doc.decoded == Success((DeploymentObject(d), gvk)) && gvk.kind == DeploymentKind
    ensures var w := BuildDeploymentV1(d, conf);
      LoadStep(s, doc, conf)
      == (s.(deployments := s.deployments + [w],
             deploymentsRef := IndexUnder(s.deploymentsRef, w.apiVersionKindName, |s.deployments|)), None)
  {
    assert LoadStep(s, doc, conf) == LoadDecoded(s, DeploymentObject(d), gvk, conf);
    KindsDistinct();
    assert LoadDecoded(s, DeploymentObject(d), gvk, conf) == LoadDeployment(s, DeploymentObject(d), gvk, conf);
  }

  /** A loaded ReplicaSet is appended to the ReplicaSets and indexed under both of its keys; nothing else changes. */
  lemma LoadedReplicaSetIsFindable(s: State, doc: Document, conf: CostimatorConfig, r: ReplicaSetV1, gvk: GroupVersionKind)
    requires IsSupportedDocument(doc) && doc.decoded == Success((ReplicaSetObject(r), gvk)) && gvk.kind == ReplicaSetKind
    ensures var w := BuildReplicaSetV1(r, conf);
      LoadStep(s, doc, conf)
      == (s.(replicaSets := s.replicaSets + [w],
             replicaSetsRef := IndexUnder(s.replicaSetsRef, w.apiVersionKindName, |s.replicaSets|)), None)
  {
    assert LoadStep(s, doc, conf) == LoadDecoded(s, ReplicaSetObject(r), gvk, conf);
    KindsDistinct();
    assert LoadDecoded(s, ReplicaSetObject(r), gvk, conf) == LoadReplicaSet(s, ReplicaSetObject(r), gvk, conf);
  }

  /**
   * A loaded StatefulSet is appended to the StatefulSets and indexed under
   * both of its keys, and one volume claim per template joins the claims.
   */
  lemma LoadedStatefulSetIsFindable(s: State, doc: Document, conf: CostimatorConfig, st: StatefulSetV1, gvk: GroupVersionKind)
    requires IsSupportedDocument(doc) && doc.decoded == Success((StatefulSetObject(st), gvk)) && gvk.kind == StatefulSetKind
    ensures var w := BuildStatefulSetV1(st, conf);
      && |w.volumeClaims| == |st.volumeClaimTemplates|
      && LoadStep(s, doc, conf)
         == (s.(statefulSets := s.statefulSets + [w],
                statefulsetsRef := IndexUnder(s.statefulsetsRef, w.apiVersionKindName, |s.statefulSets|),
                volumeClaims := s.volumeClaims + w.volumeClaims), None)
  {
    assert LoadStep(s, doc, conf) == LoadDecoded(s, StatefulSetObject(st), gvk, conf);
    KindsDistinct();
    assert LoadDecoded(s, StatefulSetObject(st), gvk, conf) == LoadStatefulSet(s, StatefulSetObject(st), gvk, conf);
  }

  /** One more document, after a prefix that loaded without error, is one more load step. */
  lemma LoadAllNext(s: State, docs: seq<Document>, i: nat, conf: CostimatorConfig)
    requires i < |docs| && LoadAll(s, docs[..i], conf).1.None?
    ensures LoadAll(s, docs[..i + 1], conf) == LoadStep(LoadAll(s, docs[..i], conf).0, docs[i], conf)
    ensures LoadAll(s, docs[..i + 1], conf).1.Some? ==> LoadAll(s, docs, conf) == LoadAll(s, docs[..i + 1], conf)
  {
    assert docs[..i + 1][..i] == docs[..i];
    if LoadAll(s, docs[..i + 1], conf).1.Some? {
      LoadAllStopsAtFirstError(s, docs[..i + 1], docs[i + 1..], conf);
      assert docs[..i + 1] + docs[i + 1..] == docs;
    }
  }

  /** Once a document has failed, later documents are never loaded. */
  lemma {:induction false} LoadAllStopsAtFirstError(s: State, docs: seq<Document>, more: seq<Document>, conf: CostimatorConfig)
    requires LoadAll(s, docs, conf).1.Some?
    ensures LoadAll(s, docs + more, conf) == LoadAll(s, docs, conf)
    decreases |more|
  {
    if |more| > 0 {
      var all := docs + more;
      assert all[..|all| - 1] == docs + more[..|more| - 1];
      LoadAllStopsAtFirstError(s, docs, more[..|more| - 1], conf);
    } else {
      assert docs + more == docs;
    }
  }

  // ----- Binding HPAs -----

  /** Binds `hpa` to the workload its target key names, if any. */
  function Bind(ws: seq<HorizontalScalable>, ref: map<string, nat>, hpa: HPA): seq<HorizontalScalable>
  {
    if hpa.targetRef in ref && ref[hpa.targetRef] < |ws| then
      var i := ref[hpa.targetRef];
      ws[i := ws[i].(hpa := hpa)]
    else ws
  }

  /** With every index of `ref` in range, binding is the in-place update of the workload the target key finds. */
  lemma BindInPlace(ws: seq<HorizontalScalable>, ref: map<string, nat>, hpa: HPA)
    requires forall k :: k in ref ==> ref[k] < |ws|
    ensures hpa.targetRef in ref ==>
      ref[hpa.targetRef] < |ws|
      && Bind(ws, ref, hpa) == ws[ref[hpa.targetRef] := ws[ref[hpa.targetRef]].(hpa := hpa)]
    ensures hpa.targetRef !in ref ==> Bind(ws, ref, hpa) == ws
  {
  }

  /** Binds every HPA in list order: a later HPA for the same workload replaces an earlier one. */
  function BindAll(ws: seq<HorizontalScalable>, ref: map<string, nat>, hpas: seq<HPA>): seq<HorizontalScalable>
  {
    if |hpas| == 0 then ws else Bind(BindAll(ws, ref, hpas[..|hpas| - 1]), ref, hpas[|hpas| - 1])
  }

  lemma BindAllStep(ws: seq<HorizontalScalable>, ref: map<string, nat>, hpas: seq<HPA>, i: int)
    requires 0 <= i < |hpas|
    ensures BindAll(ws, ref, hpas[..i + 1]) == Bind(BindAll(ws, ref, hpas[..i]), ref, hpas[i])
    ensures |Bind(BindAll(ws, ref, hpas[..i]), ref, hpas[i])| == |BindAll(ws, ref, hpas[..i])|
  {
    assert hpas[..i + 1][..i] == hpas[..i];
  }

  /** `hpa` targets the workload at index `i`. */
  predicate Targets(ref: map<string, nat>, i: int, hpa: HPA)
  {
    hpa.targetRef in ref && ref[hpa.targetRef] == i
  }

  function TargetsOf(ref: map<string, nat>, i: int): HPA -> bool
  {
    hpa => Targets(ref, i, hpa)
  }

  /**
   * After binding, workload `i` holds the last HPA in list order whose
   * target key maps to it; a workload no HPA targets is unchanged. Only
   * the `hpa` field ever changes.
   */
  lemma {:induction false} BindAllIsLastMatch(ws: seq<HorizontalScalable>, ref: map<string, nat>, hpas: seq<HPA>, i: int)
    requires forall k :: k in ref ==> ref[k] < |ws|
    requires 0 <= i < |ws|
    ensures |BindAll(ws, ref, hpas)| == |ws|
    ensures var k := LastIndex(hpas, TargetsOf(ref, i));
      BindAll(ws, ref, hpas)[i] == if k >= 0 then ws[i].(hpa := hpas[k]) else ws[i]
  {
    if |hpas| > 0 {
      var front := hpas[..|hpas| - 1];
      BindAllIsLastMatch(ws, ref, front, i);
      BindAllLength(ws, ref, front);
    }
  }

  lemma {:induction false} BindAllLength(ws: seq<HorizontalScalable>, ref: map<string, nat>, hpas: seq<HPA>)
    ensures |BindAll(ws, ref, hpas)| == |ws|
    ensures forall j :: 0 <= j < |ws| ==> BindAll(ws, ref, hpas)[j].apiVersionKindName == ws[j].apiVersionKindName
  {
    if |hpas| > 0 {
      BindAllLength(ws, ref, hpas[..|hpas| - 1]);
    }
  }

  /** HPAs whose target key names no workload change nothing. */
  lemma {:induction false} UnmatchedHpasChangeNothing(ws: seq<HorizontalScalable>, ref: map<string, nat>, hpas: seq<HPA>)
    requires forall j :: 0 <= j < |hpas| ==> hpas[j].targetRef !in ref
    ensures BindAll(ws, ref, hpas) == ws
  {
    if |hpas| > 0 {
      UnmatchedHpasChangeNothing(ws, ref, hpas[..|hpas| - 1]);
    }
  }

  /** Binding twice binds the same HPAs as binding once. */
  lemma {:induction false} BindAllIdempotent(ws: seq<HorizontalScalable>, ref: map<string, nat>, hpas: seq<HPA>)
    requires forall k :: k in ref ==> ref[k] < |ws|
    ensures BindAll(BindAll(ws, ref, hpas), ref, hpas) == BindAll(ws, ref, hpas)
  {
    var once := BindAll(ws, ref, hpas);
    BindAllLength(ws, ref, hpas);
    BindAllLength(once, ref, hpas);
    forall i | 0 <= i < |ws|
      ensures BindAll(once, ref, hpas)[i] == once[i]
    {
      BindAllIsLastMatch(ws, ref, hpas, i);
      BindAllIsLastMatch(once, ref, hpas, i);
    }
  }

  /** The state once every HPA has been bound to the workloads of the three scalable kinds. */
  function Prepared(s: State): State
  {
    s.(deployments := BindAll(s.deployments, s.deploymentsRef, s.hpas),
       replicaSets := BindAll(s.replicaSets, s.replicaSetsRef, s.hpas),
       statefulSets := BindAll(s.statefulSets, s.statefulsetsRef, s.hpas))
  }

  lemma BindAllKeepsRefs(ws: seq<HorizontalScalable>, ref: map<string, nat>, hpas: seq<HPA>)
    requires RefsValid(ws, ref)
    ensures RefsValid(BindAll(ws, ref, hpas), ref)
  {
    BindAllLength(ws, ref, hpas);
  }

  /** The state once the first `i` HPAs have been bound. */
  function PreparedUpTo(s: State, i: int): State
    requires 0 <= i <= |s.hpas|
  {
    s.(deployments := BindAll(s.deployments, s.deploymentsRef, s.hpas[..i]),
       replicaSets := BindAll(s.replicaSets, s.replicaSetsRef, s.hpas[..i]),
       statefulSets := BindAll(s.statefulSets, s.statefulsetsRef, s.hpas[..i]))
  }

  /** Binds one HPA to the workloads of the three scalable kinds. */
  function BindOne(s: State, hpa: HPA): State
  {
    s.(deployments := Bind(s.deployments, s.deploymentsRef, hpa),
       replicaSets := Bind(s.replicaSets, s.replicaSetsRef, hpa),
       statefulSets := Bind(s.statefulSets, s.statefulsetsRef, hpa))
  }

  lemma PreparedUpToValid(s: State, i: int)
    requires StateValid(s) && 0 <= i <= |s.hpas|
    ensures StateValid(PreparedUpTo(s, i))
  {
    BindAllKeepsRefs(s.deployments, s.deploymentsRef, s.hpas[..i]);
    BindAllKeepsRefs(s.replicaSets, s.replicaSetsRef, s.hpas[..i]);
    BindAllKeepsRefs(s.statefulSets, s.statefulsetsRef, s.hpas[..i]);
  }

  lemma PreparedUpToStep(s: State, i: int)
    requires 0 <= i < |s.hpas|
    ensures PreparedUpTo(s, i + 1) == BindOne(PreparedUpTo(s, i), s.hpas[i])
  {
    BindAllStep(s.deployments, s.deploymentsRef, s.hpas, i);
    BindAllStep(s.replicaSets, s.replicaSetsRef, s.hpas, i);
    BindAllStep(s.statefulSets, s.statefulsetsRef, s.hpas, i);
  }

  lemma PreparedUpToAll(s: State)
    ensures PreparedUpTo(s, |s.hpas|) == Prepared(s)
  {
    assert s.hpas[..|s.hpas|] == s.hpas;
  }

  lemma PreparedKeepsValid(s: State)
    requires StateValid(s)
    ensures StateValid(Prepared(s))
  {
    PreparedUpToValid(s, |s.hpas|);
    PreparedUpToAll(s);
  }

  /** Preparing an already prepared state changes nothing. */
  lemma PreparedIdempotent(s: State)
    requires StateValid(s)
    ensures Prepared(Prepared(s)) == Prepared(s)
  {
    BindAllIdempotent(s.deployments, s.deploymentsRef, s.hpas);
    BindAllIdempotent(s.replicaSets, s.replicaSetsRef, s.hpas);
    BindAllIdempotent(s.statefulSets, s.statefulsetsRef, s.hpas);
  }

  /**
   * An HPA whose target names a Deployment's kind, name and apiVersion, in
   * the Deployment's namespace, is bound by the Deployment's full key; one
   * whose target omits the apiVersion is bound by its kind-name key.
   */
  lemma {:induction false} HpaTargetsDeploymentKeys(h: HorizontalPodAutoscalerV1, d: DeploymentV1, conf: CostimatorConfig)
    requires h.meta.namespace == d.meta.namespace && NoSeparator(d.meta.apiVersion)
    requires h.spec.scaleTargetRef.kind == d.meta.kind && h.spec.scaleTargetRef.name == d.meta.name
    ensures h.spec.scaleTargetRef.apiVersion == d.meta.apiVersion ==>
      BuildHPAV1(h).targetRef == BuildDeploymentV1(d, conf).apiVersionKindName
    ensures h.spec.scaleTargetRef.apiVersion == "" ==>
      BuildHPAV1(h).targetRef == BuildDeploymentV1(d, conf).KindName()
  {
    var t := h.spec.scaleTargetRef;
    var ns := d.meta.namespace;
    assert BuildHPAV1(h).targetRef == BuildAPIVersionKindName(t.apiVersion, t.kind, ns, t.name);
    assert BuildDeploymentV1(d, conf).apiVersionKindName
      == BuildAPIVersionKindName(d.meta.apiVersion, t.kind, ns, t.name);
    if t.apiVersion == "" {
      KindNameOfKey(d.meta.apiVersion, t.kind, ns, t.name);
      assert "" + "|" == "|";
    }
  }

  // ----- Cost -----

  function ScalableCosts(ws: seq<HorizontalScalable>, pc: PriceCatalog): seq<CostRange>
  {
    seq(|ws|, i requires 0 <= i < |ws| => ws[i].EstimateCost(pc))
  }

  function DaemonSetCosts(ds: seq<DaemonSet>, pc: PriceCatalog): seq<CostRange>
  {
    seq(|ds|, i requires 0 <= i < |ds| => ds[i].EstimateCost(pc))
  }

  function VolumeClaimCosts(vs: seq<VolumeClaim>, pc: PriceCatalog): seq<CostRange>
  {
    seq(|vs|, i requires 0 <= i < |vs| => vs[i].EstimateCost(pc))
  }

  /** One range for a non-empty kind, none for an empty one. */
  function KindRange(kind: string, costs: seq<CostRange>): seq<CostRange>
  {
    if |costs| > 0 then [SumRanges(kind, costs)] else []
  }

  /**
   * The monthly ranges of an estimate: one per non-empty kind, labelled
   * with the kind.
   */
  function KindRanges(s: State, pc: PriceCatalog): seq<CostRange>
  {
    KindRange(DeploymentKind, ScalableCosts(s.deployments, pc))
    + KindRange(ReplicaSetKind, ScalableCosts(s.replicaSets, pc))
    + KindRange(StatefulSetKind, ScalableCosts(s.statefulSets, pc))
    + KindRange(DaemonSetKind, DaemonSetCosts(s.daemonSets, pc))
    + KindRange(VolumeClaimKind, VolumeClaimCosts(s.volumeClaims, pc))
  }

  function KindsOf(rs: seq<CostRange>): seq<string>
  {
    seq(|rs|, i requires 0 <= i < |rs| => rs[i].kind)
  }

  function Present(kind: string, b: bool): seq<string>
  {
    if b then [kind] else []
  }

  lemma KindsOfConcat(a: seq<CostRange>, b: seq<CostRange>)
    ensures KindsOf(a + b) == KindsOf(a) + KindsOf(b)
  {
  }

  lemma KindsOfKindRange(kind: string, costs: seq<CostRange>)
    ensures KindsOf(KindRange(kind, costs)) == Present(kind, |costs| > 0)
  {
  }

  /**
   * The ranges of an estimate are labelled, in order, with exactly the
   * non-empty kinds among Deployment, ReplicaSet, StatefulSet, DaemonSet
   * and PersistentVolumeClaim.
   */
  lemma KindRangesListNonEmptyKinds(s: State, pc: PriceCatalog)
    ensures KindsOf(KindRanges(s, pc))
      == Present(DeploymentKind, |s.deployments| > 0) + Present(ReplicaSetKind, |s.replicaSets| > 0)
         + Present(StatefulSetKind, |s.statefulSets| > 0) + Present(DaemonSetKind, |s.daemonSets| > 0)
         + Present(VolumeClaimKind, |s.volumeClaims| > 0)
  {
    var a := KindRange(DeploymentKind, ScalableCosts(s.deployments, pc));
    var b := KindRange(ReplicaSetKind, ScalableCosts(s.replicaSets, pc));
    var c := KindRange(StatefulSetKind, ScalableCosts(s.statefulSets, pc));
    var d := KindRange(DaemonSetKind, DaemonSetCosts(s.daemonSets, pc));
    var e := KindRange(VolumeClaimKind, VolumeClaimCosts(s.volumeClaims, pc));
    KindsOfConcat(a + b + c + d, e);
    KindsOfConcat(a + b + c, d);
    KindsOfConcat(a + b, c);
    KindsOfConcat(a, b);
    KindsOfKindRange(DeploymentKind, ScalableCosts(s.deployments, pc));
    KindsOfKindRange(ReplicaSetKind, ScalableCosts(s.replicaSets, pc));
    KindsOfKindRange(StatefulSetKind, ScalableCosts(s.statefulSets, pc));
    KindsOfKindRange(DaemonSetKind, DaemonSetCosts(s.daemonSets, pc));
    KindsOfKindRange(VolumeClaimKind, VolumeClaimCosts(s.volumeClaims, pc));
  }

  /** Every workload's own cost, kind after kind. */
  function WorkloadCosts(s: State, pc: PriceCatalog): seq<CostRange>
  {
    ScalableCosts(s.deployments, pc) + ScalableCosts(s.replicaSets, pc) + ScalableCosts(s.statefulSets, pc)
    + DaemonSetCosts(s.daemonSets, pc) + VolumeClaimCosts(s.volumeClaims, pc)
  }

  lemma {:induction false} SumRangesRelabel(k1: string, k2: string, rs: seq<CostRange>)
    ensures SumRanges(k1, rs) == SumRanges(k2, rs).(kind := k1)
  {
    if |rs| > 0 {
      SumRangesRelabel(k1, k2, rs[..|rs| - 1]);
    }
  }

  lemma KindRangeSum(total: string, kind: string, costs: seq<CostRange>)
    ensures SumRanges(total, KindRange(kind, costs)) == SumRanges(total, costs)
  {
    if |costs| > 0 {
      var one := [SumRanges(kind, costs)];
      assert one[..0] == [];
      SumRangesRelabel(total, kind, costs);
    }
  }

  /** The monthly total of an estimate is the sum of every workload's own cost. */
  lemma MonthlyTotalIsSumOfWorkloads(s: State, pc: PriceCatalog)
    ensures SumRanges(MonthlyTotalKind, KindRanges(s, pc)) == SumRanges(MonthlyTotalKind, WorkloadCosts(s, pc))
  {
    var t := MonthlyTotalKind;
    var a, b, c := ScalableCosts(s.deployments, pc), ScalableCosts(s.replicaSets, pc), ScalableCosts(s.statefulSets, pc);
    var d, e := DaemonSetCosts(s.daemonSets, pc), VolumeClaimCosts(s.volumeClaims, pc);
    var ka, kb, kc := KindRange(DeploymentKind, a), KindRange(ReplicaSetKind, b), KindRange(StatefulSetKind, c);
    var kd, ke := KindRange(DaemonSetKind, d), KindRange(VolumeClaimKind, e);
    KindRangeSum(t, DeploymentKind, a);
    KindRangeSum(t, ReplicaSetKind, b);
    KindRangeSum(t, StatefulSetKind, c);
    KindRangeSum(t, DaemonSetKind, d);
    KindRangeSum(t, VolumeClaimKind, e);
    SumRangesConcat(t, ka + kb + kc + kd, ke);
    SumRangesConcat(t, ka + kb + kc, kd);
    SumRangesConcat(t, ka + kb, kc);
    SumRangesConcat(t, ka, kb);
    SumRangesConcat(t, a + b + c + d, e);
    SumRangesConcat(t, a + b + c, d);
    SumRangesConcat(t, a + b, c);
    SumRangesConcat(t, a, b);
  }

  /** The `Add`-fold of the costs of `ws`, labelled `kind`: one of the three scalable kinds' folds. */
  method FoldScalableCosts(kind: string, ws: seq<HorizontalScalable>, pc: PriceCatalog) returns (r: CostRange)
    ensures r == SumRanges(kind, ScalableCosts(ws, pc))
  {
    r := Zero(kind);
    for i := 0 to |ws|
      invariant r == SumRanges(kind, ScalableCosts(ws[..i], pc))
    {
      assert ScalableCosts(ws[..i + 1], pc)[..i] == ScalableCosts(ws[..i], pc);
      r := r.Add(ws[i].EstimateCost(pc));
    }
    assert ws[..|ws|] == ws;
  }

  class Manifests {
    var deployments: seq<HorizontalScalable>
    var deploymentsRef: map<string, nat>
    var replicaSets: seq<HorizontalScalable>
    var replicaSetsRef: map<string, nat>
    var statefulSets: seq<HorizontalScalable>
    var statefulsetsRef: map<string, nat>
    var daemonSets: seq<DaemonSet>
    var volumeClaims: seq<VolumeClaim>
    var hpas: seq<HPA>

    function Snapshot(): State
      reads this
    {
      State(deployments, deploymentsRef, replicaSets, replicaSetsRef, statefulSets, statefulsetsRef,
            daemonSets, volumeClaims, hpas)
    }

    predicate Valid()
      reads this
    {
      StateValid(Snapshot())
    }

    constructor ()
      ensures Snapshot() == EmptyState && Valid()
    {
      deployments, deploymentsRef := [], map[];
      replicaSets, replicaSetsRef := [], map[];
      statefulSets, statefulsetsRef := [], map[];
      daemonSets, volumeClaims, hpas := [], [], [];
    }

    /**
     * Loads one document: skips a document of an unsupported kind, reports
     * a decoder failure, and otherwise hands the object to its kind's case.
     */
    method LoadObject(doc: Document, conf: CostimatorConfig) returns (err: Option<string>)
      requires Valid()
      modifies this
      ensures Valid()
      ensures (Snapshot(), err) == LoadStep(old(Snapshot()), doc, conf)
    {
      LoadStepKeepsValid(Snapshot(), doc, conf);
      if !IsSupportedDocument(doc) {
        return None;
      }
      if doc.decoded.Failure? {
        return Some(DecodeError(doc.decoded.error));
      }
      var (obj, gvk) := doc.decoded.value;
      KindsDistinct();
      if gvk.kind == HPAKind {
        err := LoadHpaObject(obj, gvk);
      } else if gvk.kind == DeploymentKind {
        err := LoadDeploymentObject(obj, gvk, conf);
      } else if gvk.kind == ReplicaSetKind {
        err := LoadReplicaSetObject(obj, gvk, conf);
      } else if gvk.kind == StatefulSetKind {
        err := LoadStatefulSetObject(obj, gvk, conf);
      } else if gvk.kind == DaemonSetKind {
        err := LoadDaemonSetObject(obj, gvk, conf);
      } else if gvk.kind == VolumeClaimKind {
        err := LoadVolumeClaimObject(obj, gvk, conf);
      } else {
        err := None;
      }
    }

    method LoadHpaObject(obj: K8sObject, gvk: GroupVersionKind) returns (err: Option<string>)
      modifies this
      ensures (Snapshot(), err) == LoadHpa(old(Snapshot()), obj, gvk)
    {
      var hpa := BuildHPA(obj, gvk);
      if hpa.Failure? {
        return Some(hpa.error);
      }
      hpas := hpas + [hpa.value];
      return None;
    }

    method LoadDeploymentObject(obj: K8sObject, gvk: GroupVersionKind, conf: CostimatorConfig) returns (err: Option<string>)
      modifies this
      ensures (Snapshot(), err) == LoadDeployment(old(Snapshot()), obj, gvk, conf)
    {
      var deploy := BuildDeployment(obj, gvk, conf);
      if deploy.Failure? {
        return Some(deploy.error);
      }
      var index := |deployments|;
      var key := deploy.value.apiVersionKindName;
      deployments := deployments + [deploy.value];
      deploymentsRef := deploymentsRef[key := index];
      deploymentsRef := deploymentsRef[BuildKindName(key) := index];
      return None;
    }

    method LoadReplicaSetObject(obj: K8sObject, gvk: GroupVersionKind, conf: CostimatorConfig) returns (err: Option<string>)
      modifies this
      ensures (Snapshot(), err) == LoadReplicaSet(old(Snapshot()), obj, gvk, conf)
    {
      var replicaset := BuildReplicaSet(obj, gvk, conf);
      if replicaset.Failure? {
        return Some(replicaset.error);
      }
      var index := |replicaSets|;
      var key := replicaset.value.apiVersionKindName;
      replicaSets := replicaSets + [replicaset.value];
      replicaSetsRef := replicaSetsRef[key := index];
      replicaSetsRef := replicaSetsRef[BuildKindName(key) := index];
      return None;
    }

    method LoadStatefulSetObject(obj: K8sObject, gvk: GroupVersionKind, conf: CostimatorConfig) returns (err: Option<string>)
      modifies this
      ensures (Snapshot(), err) == LoadStatefulSet(old(Snapshot()), obj, gvk, conf)
    {
      var statefulset := BuildStatefulSet(obj, gvk, conf);
      if statefulset.Failure? {
        return Some(statefulset.error);
      }
      var index := |statefulSets|;
      var key := statefulset.value.apiVersionKindName;
      statefulSets := statefulSets + [statefulset.value];
      statefulsetsRef := statefulsetsRef[key := index];
      statefulsetsRef := statefulsetsRef[BuildKindName(key) := index];
      if |statefulset.value.volumeClaims| > 0 {
        volumeClaims := volumeClaims + statefulset.value.volumeClaims;
      } else {
        assert volumeClaims == volumeClaims + statefulset.value.volumeClaims;
      }
      return None;
    }

    method LoadDaemonSetObject(obj: K8sObject, gvk: GroupVersionKind, conf: CostimatorConfig) returns (err: Option<string>)
      modifies this
      ensures (Snapshot(), err) == LoadDaemonSet(old(Snapshot()), obj, gvk, conf)
    {
      var daemonset := BuildDaemonSet(obj, gvk, conf);
      if daemonset.Failure? {
        return Some(daemonset.error);
      }
      daemonSets := daemonSets + [daemonset.value];
      return None;
    }

    method LoadVolumeClaimObject(obj: K8sObject, gvk: GroupVersionKind, conf: CostimatorConfig) returns (err: Option<string>)
      modifies this
      ensures (Snapshot(), err) == LoadVolumeClaim(old(Snapshot()), obj, gvk, conf)
    {
      var volume := BuildVolumeClaim(obj, gvk, conf);
      if volume.Failure? {
        return Some(volume.error);
      }
      volumeClaims := volumeClaims + [volume.value];
      return None;
    }

    /** Loads the documents in order and returns the first error, leaving the documents after it unread. */
    method LoadObjects(docs: seq<Document>, conf: CostimatorConfig) returns (err: Option<string>)
      requires Valid()
      modifies this
      ensures Valid()
      ensures (Snapshot(), err) == LoadAll(old(Snapshot()), docs, conf)
    {
      for i := 0 to |docs|
        invariant Valid()
        invariant (Snapshot(), None) == LoadAll(old(Snapshot()), docs[..i], conf)
      {
        LoadAllNext(old(Snapshot()), docs, i, conf);
        err := LoadObject(docs[i], conf);
        if err.Some? {
          return;
        }
      }
      assert docs[..|docs|] == docs;
      err := None;
    }

    /** Binds every HPA, in list order, to the workloads its target key finds. */
    method PrepareForCostEstimation()
      requires Valid()
      modifies this
      ensures Valid()
      ensures Snapshot() == Prepared(old(Snapshot()))
    {
      ghost var s0 := Snapshot();
      assert s0.hpas[..0] == [];
      for i := 0 to |hpas|
        invariant Snapshot() == PreparedUpTo(s0, i)
      {
        PreparedUpToValid(s0, i);
        PreparedUpToStep(s0, i);
        BindHpa(hpas[i]);
      }
      PreparedUpToAll(s0);
      PreparedKeepsValid(s0);
    }

    /** Sets `hpa` on each workload, of each scalable kind, that its target key finds. */
    method BindHpa(hpa: HPA)
      requires Valid()
      modifies this
      ensures Snapshot() == BindOne(old(Snapshot()), hpa)
    {
      BindInPlace(deployments, deploymentsRef, hpa);
      BindInPlace(replicaSets, replicaSetsRef, hpa);
      BindInPlace(statefulSets, statefulsetsRef, hpa);
      var key := hpa.targetRef;
      if key in deploymentsRef {
        var index := deploymentsRef[key];
        deployments := deployments[index := deployments[index].(hpa := hpa)];
      }
      if key in replicaSetsRef {
        var index := replicaSetsRef[key];
        replicaSets := replicaSets[index := replicaSets[index].(hpa := hpa)];
      }
      if key in statefulsetsRef {
        var index := statefulsetsRef[key];
        statefulSets := statefulSets[index := statefulSets[index].(hpa := hpa)];
      }
    }

    method EstimateDeploymentCost(pc: PriceCatalog) returns (r: CostRange)
      ensures r == SumRanges(DeploymentKind, ScalableCosts(deployments, pc))
    {
      r := FoldScalableCosts(DeploymentKind, deployments, pc);
    }

    method EstimateReplicaSetCost(pc: PriceCatalog) returns (r: CostRange)
      ensures r == SumRanges(ReplicaSetKind, ScalableCosts(replicaSets, pc))
    {
      r := FoldScalableCosts(ReplicaSetKind, replicaSets, pc);
    }

    method EstimateStatefulSetCost(pc: PriceCatalog) returns (r: CostRange)
      ensures r == SumRanges(StatefulSetKind, ScalableCosts(statefulSets, pc))
    {
      r := FoldScalableCosts(StatefulSetKind, statefulSets, pc);
    }

    method EstimateDaemonSetCost(pc: PriceCatalog) returns (r: CostRange)
      ensures r == SumRanges(DaemonSetKind, DaemonSetCosts(daemonSets, pc))
    {
      r := Zero(DaemonSetKind);
      for i := 0 to |daemonSets|
        invariant r == SumRanges(DaemonSetKind, DaemonSetCosts(daemonSets[..i], pc))
      {
        assert DaemonSetCosts(daemonSets[..i + 1], pc)[..i] == DaemonSetCosts(daemonSets[..i], pc);
        r := r.Add(daemonSets[i].EstimateCost(pc));
      }
      assert daemonSets[..|daemonSets|] == daemonSets;
    }

    method EstimateVolumeClaimCost(pc: PriceCatalog) returns (r: CostRange)
      ensures r == SumRanges(VolumeClaimKind, VolumeClaimCosts(volumeClaims, pc))
    {
      r := Zero(VolumeClaimKind);
      for i := 0 to |volumeClaims|
        invariant r == SumRanges(VolumeClaimKind, VolumeClaimCosts(volumeClaims[..i], pc))
      {
        assert VolumeClaimCosts(volumeClaims[..i + 1], pc)[..i] == VolumeClaimCosts(volumeClaims[..i], pc);
        r := r.Add(volumeClaims[i].EstimateCost(pc));
      }
      assert volumeClaims[..|volumeClaims|] == volumeClaims;
    }

    /** Binds the HPAs, then lists one range per non-empty kind. */
    method EstimateCost(pc: PriceCatalog) returns (cost: Cost)
      requires Valid()
      modifies this
      ensures Valid()
      ensures Snapshot() == Prepared(old(Snapshot()))
      ensures cost == Cost(KindRanges(Snapshot(), pc))
    {
      PrepareForCostEstimation();
      var monthlyRanges := MonthlyRanges(pc);
      cost := Cost(monthlyRanges);
    }

    /** One range per kind that has objects, in the order deployments, replica sets, stateful sets, daemon sets, claims. */
    method MonthlyRanges(pc: PriceCatalog) returns (monthlyRanges: seq<CostRange>)
      ensures monthlyRanges == KindRanges(Snapshot(), pc)
    {
      var deploymentRange := DeploymentRange(pc);
      var replicaSetRange := ReplicaSetRange(pc);
      var statefulSetRange := StatefulSetRange(pc);
      var daemonSetRange := DaemonSetRange(pc);
      var volumeClaimRange := VolumeClaimRange(pc);
      monthlyRanges := deploymentRange + replicaSetRange + statefulSetRange + daemonSetRange + volumeClaimRange;
    }

    method DeploymentRange(pc: PriceCatalog) returns (rs: seq<CostRange>)
      ensures rs == KindRange(DeploymentKind, ScalableCosts(deployments, pc))
    {
      if |deployments| > 0 {
        var r := EstimateDeploymentCost(pc);
        rs := [r];
      } else {
        rs := [];
      }
    }

    method ReplicaSetRange(pc: PriceCatalog) returns (rs: seq<CostRange>)
      ensures rs == KindRange(ReplicaSetKind, ScalableCosts(replicaSets, pc))
    {
      if |replicaSets| > 0 {
        var r := EstimateReplicaSetCost(pc);
        rs := [r];
      } else {
        rs := [];
      }
    }

    method StatefulSetRange(pc: PriceCatalog) returns (rs: seq<CostRange>)
      ensures rs == KindRange(StatefulSetKind, ScalableCosts(statefulSets, pc))
    {
      if |statefulSets| > 0 {
        var r := EstimateStatefulSetCost(pc);
        rs := [r];
      } else {
        rs := [];
      }
    }

    method DaemonSetRange(pc: PriceCatalog) returns (rs: seq<CostRange>)
      ensures rs == KindRange(DaemonSetKind, DaemonSetCosts(daemonSets, pc))
    {
      if |daemonSets| > 0 {
        var r := EstimateDaemonSetCost(pc);
        rs := [r];
      } else {
        rs := [];
      }
    }

    method VolumeClaimRange(pc: PriceCatalog) returns (rs: seq<CostRange>)
      ensures rs == KindRange(VolumeClaimKind, VolumeClaimCosts(volumeClaims, pc))
    {
      if |volumeClaims| > 0 {
        var r := EstimateVolumeClaimCost(pc);
        rs := [r];
      } else {
        rs := [];
      }
    }
  }
}

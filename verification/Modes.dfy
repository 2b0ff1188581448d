/** What the discovery mode of a workload makes of its references, end to end. */
module Modes {
  import opened Basics
  import opened GraphTypes
  import opened Ids
  import opened Merge
  import opened Extractor

  // ----- What a specification and its annotations name, without regard to order -----

  ghost predicate Selects(selector: Option<Selector>, name: string) {
    selector.Some? && selector.value.name == name && name != ""
  }

  ghost predicate ContainersName(containers: seq<Container>, name: string) {
    exists c :: c in containers && ContainerNames(c, name)
  }

  ghost predicate ContainerNames(c: Container, name: string) {
    || (exists v :: v in c.env && Selects(v.secretKeyRef, name))
    || (exists f :: f in c.envFrom && Selects(f.secretRef, name))
  }

  ghost predicate VolumesName(volumes: seq<Volume>, name: string) {
    exists v :: v in volumes && VolumeNames(v, name)
  }

  ghost predicate VolumeNames(v: Volume, name: string) {
    Selects(v.secret, name) || (v.projected.Some? && exists s :: s in v.projected.value && Selects(s, name))
  }

  ghost predicate PullSecretsName(opts: Options, namespace: string, pod: PodSpec, name: string) {
    opts.includeImagePullSecrets &&
    if pod.imagePullSecrets != [] then name in pod.imagePullSecrets && name != ""
    else name in ServiceAccountPullSecrets(opts, namespace, ServiceAccountName(pod.serviceAccountName))
  }

  /** Somewhere that is looked at, the Pod spec names the Secret. */
  ghost predicate PodNames(opts: Options, namespace: string, pod: PodSpec, name: string) {
    || ContainersName(pod.containers, name)
    || (opts.includeInitContainers && ContainersName(pod.initContainers, name))
    || (opts.includeEphemeralContainers && ContainersName(pod.ephemeralContainers, name))
    || VolumesName(pod.volumes, name)
    || PullSecretsName(opts, namespace, pod, name)
  }

  ghost predicate SpecNames(opts: Options, namespace: string, spec: Spec, name: string) {
    match spec
    case OfPod(pod) => PodNames(opts, namespace, pod, name)
    case OfIngress(tls) => name in tls && name != ""
  }

  ghost predicate InferredNames(opts: Options, w: WorkloadRef, spec: Spec, s: SecretRef) {
    s.namespace == w.namespace && SpecNames(opts, w.namespace, spec, s.name)
  }

  function ExplicitRefs(cluster: string, namespace: string, annotations: Values, decode: Decoder): seq<SecretRef> {
    ListedRefs(cluster, namespace, annotations, WATCH_SECRETS) + DecodedRefs(cluster, namespace, annotations, decode)
  }

  /** Some annotation lists the Secret. */
  ghost predicate ExplicitNames(opts: Options, w: WorkloadRef, annotations: Values, decode: Decoder, s: SecretRef) {
    exists ref :: ref in ExplicitRefs(opts.cluster, w.namespace, annotations, decode) && SameSecret(ref, s)
  }

  // ----- The loops find exactly that -----

  /** An edge made from a reference in the given mode. */
  ghost predicate Made(cluster: string, w: WorkloadRef, mode: DiscoveryMode, e: DependencyEdge) {
    && e.workload == w && e.discoveryMode == mode && e.secret.cluster == cluster && e.secret.key == ""
    && e.id == EdgeID(w, e.secret) && e.ownerTeam == "" && e.criticality == "" && !e.resolved
    && |e.sources| == 1 && e.cluster == cluster && e.purpose == ""
  }

  ghost predicate AllMade(cluster: string, w: WorkloadRef, mode: DiscoveryMode, es: seq<DependencyEdge>) {
    forall i :: 0 <= i < |es| ==> Made(cluster, w, mode, es[i])
  }

  /** Inferred edges for Secrets of the workload's own namespace. */
  ghost predicate AllInferred(opts: Options, w: WorkloadRef, es: seq<DependencyEdge>) {
    AllMade(opts.cluster, w, INFER, es) && forall i :: 0 <= i < |es| ==> es[i].secret.namespace == w.namespace
  }

  ghost predicate HasName(es: seq<DependencyEdge>, name: string) {
    exists i :: 0 <= i < |es| && es[i].secret.name == name
  }

  lemma Appended(opts: Options, w: WorkloadRef, a: seq<DependencyEdge>, b: seq<DependencyEdge>, name: string)
    requires AllInferred(opts, w, a) && AllInferred(opts, w, b)
    ensures AllInferred(opts, w, a + b)
    ensures HasName(a + b, name) <==> HasName(a, name) || HasName(b, name)
  {
    hide Made;
    var c := a + b;
    assert forall i :: 0 <= i < |a| ==> c[i] == a[i];
    assert forall i :: 0 <= i < |b| ==> c[|a| + i] == b[i];
  }

  lemma SelectorNames(opts: Options, w: WorkloadRef, selector: Option<Selector>, source: DependencySource, name: string)
    ensures AllInferred(opts, w, SelectorEdges(opts, w, selector, source))
    ensures HasName(SelectorEdges(opts, w, selector, source), name) <==> Selects(selector, name)
  {
    hide EdgeID;
    var es := SelectorEdges(opts, w, selector, source);
    assert |es| == 1 ==> es[0].secret.name == selector.value.name;
  }

  lemma {:induction false} EnvNames(opts: Options, w: WorkloadRef, role: Role, container: string, env: seq<EnvVar>,
                                    name: string)
    ensures AllInferred(opts, w, EnvEdges(opts, w, role, container, env))
    ensures HasName(EnvEdges(opts, w, role, container, env), name) <==>
      exists v :: v in env && Selects(v.secretKeyRef, name)
  {
    hide SelectorEdges, AllInferred, HasName, Selects, ContainerSource;
    if env == [] {
      NoEdges(opts, w, name);
    } else {
      var init, item := env[..|env| - 1], env[|env| - 1];
      var source := ContainerSource("env.secretKeyRef", role, container, item.name);
      EnvNames(opts, w, role, container, init, name);
      SelectorNames(opts, w, item.secretKeyRef, source, name);
      Appended(opts, w, EnvEdges(opts, w, role, container, init),
        SelectorEdges(opts, w, item.secretKeyRef, source), name);
      assert env == init + [item];
      assert forall v :: v in env <==> v in init || v == item;
    }
  }

  lemma NoEdges(opts: Options, w: WorkloadRef, name: string)
    ensures AllInferred(opts, w, []) && !HasName([], name)
  {}

  lemma {:induction false} EnvFromNames(opts: Options, w: WorkloadRef, role: Role, container: string,
                                        envFrom: seq<EnvFrom>, name: string)
    ensures AllInferred(opts, w, EnvFromEdges(opts, w, role, container, envFrom))
    ensures HasName(EnvFromEdges(opts, w, role, container, envFrom), name) <==>
      exists f :: f in envFrom && Selects(f.secretRef, name)
  {
    hide SelectorEdges, AllInferred, HasName, Selects, ContainerSource;
    if envFrom == [] {
      NoEdges(opts, w, name);
    } else {
      var init, item := envFrom[..|envFrom| - 1], envFrom[|envFrom| - 1];
      var source := ContainerSource("envFrom.secretRef", role, container, "");
      EnvFromNames(opts, w, role, container, init, name);
      SelectorNames(opts, w, item.secretRef, source, name);
      Appended(opts, w, EnvFromEdges(opts, w, role, container, init),
        SelectorEdges(opts, w, item.secretRef, source), name);
      assert envFrom == init + [item];
      assert forall f :: f in envFrom <==> f in init || f == item;
    }
  }

  lemma {:induction false} ContainerEdgesName(opts: Options, w: WorkloadRef, role: Role, containers: seq<Container>,
                                              name: string)
    ensures AllInferred(opts, w, ContainerEdges(opts, w, role, containers))
    ensures HasName(ContainerEdges(opts, w, role, containers), name) <==> ContainersName(containers, name)
  {
    hide EnvEdges, EnvFromEdges, AllInferred, HasName, Selects;
    if containers == [] {
      NoEdges(opts, w, name);
    } else {
      var init, c := containers[..|containers| - 1], containers[|containers| - 1];
      var envs, froms := EnvEdges(opts, w, role, c.name, c.env), EnvFromEdges(opts, w, role, c.name, c.envFrom);
      ContainerEdgesName(opts, w, role, init, name);
      EnvNames(opts, w, role, c.name, c.env, name);
      EnvFromNames(opts, w, role, c.name, c.envFrom, name);
      Appended(opts, w, envs, froms, name);
      assert HasName(envs + froms, name) <==> ContainerNames(c, name);
      hide ContainerNames;
      Appended(opts, w, ContainerEdges(opts, w, role, init), envs + froms, name);
      assert containers == init + [c];
      assert forall d :: d in containers <==> d in init || d == c;
    }
  }

  lemma {:induction false} ProjectionNames(opts: Options, w: WorkloadRef, volume: string,
                                           sources: seq<Option<Selector>>, name: string)
    ensures AllInferred(opts, w, ProjectionEdges(opts, w, volume, sources))
    ensures HasName(ProjectionEdges(opts, w, volume, sources), name) <==> exists s :: s in sources && Selects(s, name)
  {
    hide SelectorEdges, AllInferred, HasName, Selects;
    if sources == [] {
      NoEdges(opts, w, name);
    } else {
      var init, item := sources[..|sources| - 1], sources[|sources| - 1];
      var source := Source("volumes.projected.sources.secret").(volume := volume);
      ProjectionNames(opts, w, volume, init, name);
      SelectorNames(opts, w, item, source, name);
      Appended(opts, w, ProjectionEdges(opts, w, volume, init), SelectorEdges(opts, w, item, source), name);
      assert sources == init + [item];
      assert forall s :: s in sources <==> s in init || s == item;
    }
  }

  /** Plain and projected volumes together. */
  lemma {:induction false} VolumeEdgesName(opts: Options, w: WorkloadRef, volumes: seq<Volume>, name: string)
    ensures AllInferred(opts, w, VolumeEdges(opts, w, volumes))
      && AllInferred(opts, w, ProjectedEdges(opts, w, volumes))
    ensures HasName(VolumeEdges(opts, w, volumes), name) || HasName(ProjectedEdges(opts, w, volumes), name) <==>
      VolumesName(volumes, name)
  {
    hide SelectorEdges, ProjectionEdges, AllInferred, HasName, Selects;
    if volumes == [] {
      NoEdges(opts, w, name);
    } else {
      var init, v := volumes[..|volumes| - 1], volumes[|volumes| - 1];
      var source := Source("volumes.secret").(volume := v.name);
      var projected := if v.projected.None? then [] else ProjectionEdges(opts, w, v.name, v.projected.value);
      VolumeEdgesName(opts, w, init, name);
      SelectorNames(opts, w, v.secret, source, name);
      NoEdges(opts, w, name);
      if v.projected.Some? {
        ProjectionNames(opts, w, v.name, v.projected.value, name);
      }
      assert VolumeNames(v, name) <==>
        HasName(SelectorEdges(opts, w, v.secret, source), name) || HasName(projected, name);
      hide VolumeNames;
      Appended(opts, w, VolumeEdges(opts, w, init), SelectorEdges(opts, w, v.secret, source), name);
      Appended(opts, w, ProjectedEdges(opts, w, init), projected, name);
      assert volumes == init + [v];
      assert forall u :: u in volumes <==> u in init || u == v;
    }
  }

  lemma {:induction false} PullSecretEdgesName(opts: Options, w: WorkloadRef, names: seq<string>, name: string)
    ensures AllInferred(opts, w, PullSecretEdges(opts, w, names))
    ensures HasName(PullSecretEdges(opts, w, names), name) <==> name in names && name != ""
  {
    hide SelectorEdges, AllInferred, HasName;
    if names == [] {
      NoEdges(opts, w, name);
    } else {
      var init, last := names[..|names| - 1], names[|names| - 1];
      PullSecretEdgesName(opts, w, init, name);
      SelectorNames(opts, w, Some(Selector(last, None)), Source("imagePullSecrets"), name);
      Appended(opts, w, PullSecretEdges(opts, w, init),
        SelectorEdges(opts, w, Some(Selector(last, None)), Source("imagePullSecrets")), name);
      assert names == init + [last];
    }
  }

  lemma AccountEdgesName(opts: Options, w: WorkloadRef, names: seq<string>, name: string)
    ensures AllInferred(opts, w, AccountEdges(opts, w, names))
    ensures HasName(AccountEdges(opts, w, names), name) <==> name in names
  {}

  lemma PullEdgesName(opts: Options, w: WorkloadRef, pod: PodSpec, name: string)
    ensures AllInferred(opts, w, PullEdges(opts, w, pod))
    ensures HasName(PullEdges(opts, w, pod), name) <==> PullSecretsName(opts, w.namespace, pod, name)
  {
    hide PullSecretEdges, AccountEdges, AllInferred, HasName, ServiceAccountPullSecrets, ServiceAccountName;
    var account := ServiceAccountPullSecrets(opts, w.namespace, ServiceAccountName(pod.serviceAccountName));
    NoEdges(opts, w, name);
    PullSecretEdgesName(opts, w, pod.imagePullSecrets, name);
    AccountEdgesName(opts, w, account, name);
  }

  lemma PodEdgesName(opts: Options, w: WorkloadRef, pod: PodSpec, name: string)
    ensures AllInferred(opts, w, PodEdges(opts, w, pod))
    ensures HasName(PodEdges(opts, w, pod), name) <==> PodNames(opts, w.namespace, pod, name)
  {
    hide ContainerEdges, VolumeEdges, ProjectedEdges, PullEdges, AllInferred, HasName, ContainersName, VolumesName,
         PullSecretsName;
    var main := ContainerEdges(opts, w, Main, pod.containers);
    var inits := if opts.includeInitContainers then ContainerEdges(opts, w, Init, pod.initContainers) else [];
    var ephemerals := if opts.includeEphemeralContainers
      then ContainerEdges(opts, w, Ephemeral, pod.ephemeralContainers) else [];
    var volumes, projected, pulls := VolumeEdges(opts, w, pod.volumes), ProjectedEdges(opts, w, pod.volumes),
      PullEdges(opts, w, pod);
    NoEdges(opts, w, name);
    ContainerEdgesName(opts, w, Main, pod.containers, name);
    ContainerEdgesName(opts, w, Init, pod.initContainers, name);
    ContainerEdgesName(opts, w, Ephemeral, pod.ephemeralContainers, name);
    VolumeEdgesName(opts, w, pod.volumes, name);
    PullEdgesName(opts, w, pod, name);
    Appended(opts, w, main, inits, name);
    Appended(opts, w, main + inits, ephemerals, name);
    Appended(opts, w, main + inits + ephemerals, volumes, name);
    Appended(opts, w, main + inits + ephemerals + volumes, projected, name);
    Appended(opts, w, main + inits + ephemerals + volumes + projected, pulls, name);
  }

  lemma {:induction false} TlsEdgesName(opts: Options, w: WorkloadRef, tls: seq<string>, name: string)
    ensures AllInferred(opts, w, TlsEdges(opts, w, tls))
    ensures HasName(TlsEdges(opts, w, tls), name) <==> name in tls && name != ""
  {
    hide SelectorEdges, AllInferred, HasName;
    if tls == [] {
      NoEdges(opts, w, name);
    } else {
      var init, last := tls[..|tls| - 1], tls[|tls| - 1];
      TlsEdgesName(opts, w, init, name);
      SelectorNames(opts, w, Some(Selector(last, None)), TLS_SOURCE, name);
      Appended(opts, w, TlsEdges(opts, w, init), SelectorEdges(opts, w, Some(Selector(last, None)), TLS_SOURCE), name);
      assert tls == init + [last];
    }
  }

  /** A Secret is inferred exactly when the specification names it. */
  lemma InferredIsNamed(opts: Options, w: WorkloadRef, spec: Spec, name: string)
    ensures AllInferred(opts, w, InferredEdges(opts, w, spec))
    ensures HasName(InferredEdges(opts, w, spec), name) <==> SpecNames(opts, w.namespace, spec, name)
  {
    hide PodEdges, TlsEdges, AllInferred, HasName, PodNames;
    match spec {
      case OfPod(pod) => PodEdgesName(opts, w, pod, name);
      case OfIngress(tls) => TlsEdgesName(opts, w, tls, name);
    }
  }

  ghost predicate HasSecret(es: seq<DependencyEdge>, s: SecretRef) {
    exists i :: 0 <= i < |es| && SameSecret(es[i].secret, s)
  }

  lemma InferredHasSecret(opts: Options, w: WorkloadRef, spec: Spec, s: SecretRef)
    ensures HasSecret(InferredEdges(opts, w, spec), s) <==> InferredNames(opts, w, spec, s)
  {
    hide InferredEdges, SpecNames;
    InferredIsNamed(opts, w, spec, s.name);
    var es := InferredEdges(opts, w, spec);
    assert HasSecret(es, s) <==> s.namespace == w.namespace && HasName(es, s.name);
  }

  lemma ExplicitHasSecret(opts: Options, w: WorkloadRef, annotations: Values, decode: Decoder, s: SecretRef)
    ensures AllMade(opts.cluster, w, EXPLICIT, ExplicitEdges(opts.cluster, w, annotations, decode))
    ensures HasSecret(ExplicitEdges(opts.cluster, w, annotations, decode), s) <==>
      ExplicitNames(opts, w, annotations, decode, s)
  {
    hide EdgeID, ListedRefs, DecodedRefs, AnnotationEdges;
    var listed, decoded := ListedRefs(opts.cluster, w.namespace, annotations, WATCH_SECRETS),
      DecodedRefs(opts.cluster, w.namespace, annotations, decode);
    var refs := listed + decoded;
    var es := ExplicitEdges(opts.cluster, w, annotations, decode);
    assert |es| == |refs|;
    forall i | 0 <= i < |es| ensures SameSecret(es[i].secret, refs[i]) && Made(opts.cluster, w, EXPLICIT, es[i]) {
      if i >= |listed| {
        assert refs[i] == decoded[i - |listed|];
      }
    }
    if ref :| ref in refs && SameSecret(ref, s) {
      var i :| 0 <= i < |refs| && refs[i] == ref;
      assert SameSecret(es[i].secret, s);
    }
    if i :| 0 <= i < |es| && SameSecret(es[i].secret, s) {
      assert refs[i] in refs && SameSecret(refs[i], s);
    }
  }

  // ----- Merged edges by mode -----

  /** A reference of a Secret that is not ignored and shares its edge key with s. */
  ghost predicate HasTail(es: seq<DependencyEdge>, ignore: set<string>, s: SecretRef) {
    exists i :: 0 <= i < |es| && SecretTail(es[i].secret) == SecretTail(s) && SecretID(es[i].secret) !in ignore
  }

  /** The specification names a Secret that is not ignored and shares its edge key with s. */
  ghost predicate InferredLike(opts: Options, w: WorkloadRef, spec: Spec, annotations: Values, s: SecretRef) {
    exists t :: InferredNames(opts, w, spec, t) && SecretTail(t) == SecretTail(s)
      && SecretID(t) !in Ignored(opts, w, annotations)
  }

  ghost predicate ExplicitLike(opts: Options, w: WorkloadRef, annotations: Values, decode: Decoder, s: SecretRef) {
    exists t :: ExplicitNames(opts, w, annotations, decode, t) && SecretTail(t) == SecretTail(s)
                && SecretID(t) !in Ignored(opts, w, annotations)
  }

  /** The namespaces that a workload's references can have. */
  ghost function NamespacesOf(opts: Options, w: WorkloadRef, annotations: Values, decode: Decoder): set<string> {
    {w.namespace} + (set ref | ref in ExplicitRefs(opts.cluster, w.namespace, annotations, decode) :: ref.namespace)
  }

  /** No reference can share a Secret's edge key without being of that Secret. */
  ghost predicate Clear(opts: Options, w: WorkloadRef, annotations: Values, decode: Decoder, s: SecretRef) {
    forall n :: n in NamespacesOf(opts, w, annotations, decode) ==> !Collide(n, s.namespace)
  }

  /** No two of the namespaces collide. */
  ghost predicate Apart(opts: Options, w: WorkloadRef, annotations: Values, decode: Decoder) {
    var all := NamespacesOf(opts, w, annotations, decode);
    forall m, n :: m in all && n in all ==> !Collide(m, n)
  }

  lemma GroupIsTail(w: WorkloadRef, es: seq<DependencyEdge>, ignore: set<string>, s: SecretRef)
    requires forall i :: 0 <= i < |es| ==> es[i].id == EdgeID(w, es[i].secret)
    ensures Group(NotIgnored(es, ignore), EdgeID(w, s)) != [] <==> HasTail(es, ignore, s)
  {
    hide EdgeID, SecretTail, SecretID, NotIgnored, Group;
    var kept := NotIgnored(es, ignore);
    forall i | 0 <= i < |es| ensures es[i].id == EdgeID(w, s) <==> SecretTail(es[i].secret) == SecretTail(s) {
      EdgeIDIsTail(w, es[i].secret, s);
    }
    if i :| 0 <= i < |kept| && kept[i].id == EdgeID(w, s) {
      assert kept[i] in kept;
      var j :| 0 <= j < |es| && es[j] == kept[i];
    }
    if i :| 0 <= i < |es| && SecretTail(es[i].secret) == SecretTail(s) && SecretID(es[i].secret) !in ignore {
      assert es[i] in kept;
      var j :| 0 <= j < |kept| && kept[j] == es[i];
    }
  }

  lemma SecretHasTail(es: seq<DependencyEdge>, ignore: set<string>, s: SecretRef, t: SecretRef)
    requires HasSecret(es, t) && SecretTail(t) == SecretTail(s) && SecretID(t) !in ignore
    ensures HasTail(es, ignore, s)
  {
    var i :| 0 <= i < |es| && SameSecret(es[i].secret, t);
    assert SecretTail(es[i].secret) == SecretTail(s) && SecretID(es[i].secret) == SecretID(t);
  }

  lemma InferredHasTail(opts: Options, w: WorkloadRef, spec: Spec, annotations: Values, s: SecretRef)
    ensures HasTail(InferredEdges(opts, w, spec), Ignored(opts, w, annotations), s) <==>
      InferredLike(opts, w, spec, annotations, s)
  {
    hide InferredEdges, InferredNames, Ignored, SecretTail, SecretID, HasSecret, HasTail;
    var es, ignore := InferredEdges(opts, w, spec), Ignored(opts, w, annotations);
    if HasTail(es, ignore, s) {
      var t := TailWitness(es, ignore, s);
      InferredHasSecret(opts, w, spec, t);
    }
    if t :| InferredNames(opts, w, spec, t) && SecretTail(t) == SecretTail(s) && SecretID(t) !in ignore {
      InferredHasSecret(opts, w, spec, t);
      SecretHasTail(es, ignore, s, t);
    }
  }

  lemma TailWitness(es: seq<DependencyEdge>, ignore: set<string>, s: SecretRef) returns (t: SecretRef)
    requires HasTail(es, ignore, s)
    ensures HasSecret(es, t) && SecretTail(t) == SecretTail(s) && SecretID(t) !in ignore
  {
    var i :| 0 <= i < |es| && SecretTail(es[i].secret) == SecretTail(s) && SecretID(es[i].secret) !in ignore;
    t := es[i].secret;
    assert SameSecret(es[i].secret, t);
  }

  lemma ExplicitHasTail(opts: Options, w: WorkloadRef, annotations: Values, decode: Decoder, s: SecretRef)
    ensures HasTail(ExplicitEdges(opts.cluster, w, annotations, decode), Ignored(opts, w, annotations), s)
       <==> ExplicitLike(opts, w, annotations, decode, s)
  {
    hide ExplicitEdges, ExplicitNames, Ignored, SecretTail, SecretID, HasSecret, HasTail, AllMade;
    var es, ignore := ExplicitEdges(opts.cluster, w, annotations, decode), Ignored(opts, w, annotations);
    if HasTail(es, ignore, s) {
      var t := TailWitness(es, ignore, s);
      ExplicitHasSecret(opts, w, annotations, decode, t);
    }
    if t :| ExplicitNames(opts, w, annotations, decode, t) && SecretTail(t) == SecretTail(s) && SecretID(t) !in ignore {
      ExplicitHasSecret(opts, w, annotations, decode, t);
      SecretHasTail(es, ignore, s, t);
    }
  }

  /** Where keys are clear, sharing a Secret's key is naming it. */
  lemma LikeIsNamed(opts: Options, w: WorkloadRef, spec: Spec, annotations: Values, decode: Decoder, s: SecretRef)
    requires Clear(opts, w, annotations, decode, s) && SecretID(s) !in Ignored(opts, w, annotations)
    ensures InferredLike(opts, w, spec, annotations, s) <==> InferredNames(opts, w, spec, s)
    ensures ExplicitLike(opts, w, annotations, decode, s) <==> ExplicitNames(opts, w, annotations, decode, s)
  {
    hide SpecNames, ExplicitRefs, Ignored, SecretTail, SecretID, Collide;
    if t :| InferredNames(opts, w, spec, t) && SecretTail(t) == SecretTail(s) {
      assert t.namespace in NamespacesOf(opts, w, annotations, decode);
      TailsMeet(t, s);
    }
    if t :| ExplicitNames(opts, w, annotations, decode, t) && SecretTail(t) == SecretTail(s) {
      ExplicitNamespace(opts, w, annotations, decode, t);
      TailsMeet(t, s);
    }
  }

  lemma ExplicitNamespace(opts: Options, w: WorkloadRef, annotations: Values, decode: Decoder, s: SecretRef)
    requires ExplicitNames(opts, w, annotations, decode, s)
    ensures s.namespace in NamespacesOf(opts, w, annotations, decode)
  {
    hide ExplicitRefs;
  }

  lemma GroupKeepsMode(es: seq<DependencyEdge>, id: string, mode: DiscoveryMode)
    requires forall i :: 0 <= i < |es| ==> es[i].discoveryMode == mode
    ensures forall i :: 0 <= i < |Group(es, id)| ==> Group(es, id)[i].discoveryMode == mode
  {}

  lemma {:induction false} NotIgnoredAppend(a: seq<DependencyEdge>, b: seq<DependencyEdge>, ignore: set<string>)
    ensures NotIgnored(a + b, ignore) == NotIgnored(a, ignore) + NotIgnored(b, ignore)
  {
    if b == [] {
      assert a + b == a;
    } else {
      assert (a + b)[..|a + b| - 1] == a + b[..|b| - 1];
      NotIgnoredAppend(a, b[..|b| - 1], ignore);
    }
  }

  lemma {:induction false} SourcesAppend(a: seq<DependencyEdge>, b: seq<DependencyEdge>)
    ensures AllSources(a + b) == AllSources(a) + AllSources(b)
  {
    if b == [] {
      assert a + b == a;
    } else {
      assert (a + b)[..|a + b| - 1] == a + b[..|b| - 1];
      SourcesAppend(a, b[..|b| - 1]);
    }
  }

  /** A key's references are the inferred ones and then the explicit ones. */
  lemma GroupBySide(inferred: seq<DependencyEdge>, explicit: seq<DependencyEdge>, ignore: set<string>, id: string)
    ensures
      var gi, ge := Group(NotIgnored(inferred, ignore), id), Group(NotIgnored(explicit, ignore), id);
      && Group(NotIgnored(inferred + explicit, ignore), id) == gi + ge
      && AllSources(gi + ge) == AllSources(gi) + AllSources(ge)
  {
    hide Group, NotIgnored, AllSources;
    NotIgnoredAppend(inferred, explicit, ignore);
    GroupOfAppend(NotIgnored(inferred, ignore), NotIgnored(explicit, ignore), id);
    SourcesAppend(Group(NotIgnored(inferred, ignore), id), Group(NotIgnored(explicit, ignore), id));
  }

  /** The mode of a merge of inferred and explicit references. */
  lemma ModeOfSides(m: DependencyEdge, gi: seq<DependencyEdge>, ge: seq<DependencyEdge>)
    requires gi + ge != [] && IsMergeOf(AtExtraction, m, gi + ge)
    requires forall i :: 0 <= i < |gi| ==> gi[i].discoveryMode == INFER
    requires forall i :: 0 <= i < |ge| ==> ge[i].discoveryMode == EXPLICIT
    ensures m.discoveryMode == if gi != [] && ge != [] then HYBRID else if gi != [] then INFER else EXPLICIT
  {}

  /** Where the sources of an edge come from: what the specification says before what annotations say. */
  ghost function SidedSources(opts: Options, w: WorkloadRef, spec: Spec, annotations: Values, decode: Decoder,
                              id: string): (seq<DependencySource>, seq<DependencySource>) {
    var ignore := Ignored(opts, w, annotations);
    (AllSources(Group(NotIgnored(InferredEdges(opts, w, spec), ignore), id)),
     AllSources(Group(NotIgnored(ExplicitEdges(opts.cluster, w, annotations, decode), ignore), id)))
  }

  /** One side of a key's references is there exactly when that side has one that is not ignored. */
  lemma SideHasTail(es: seq<DependencyEdge>, ignore: set<string>, cluster: string, w: WorkloadRef,
                    mode: DiscoveryMode, s: SecretRef)
    requires AllMade(cluster, w, mode, es)
    ensures
      var g := Group(NotIgnored(es, ignore), EdgeID(w, s));
      && (g != [] <==> HasTail(es, ignore, s))
      && (forall i :: 0 <= i < |g| ==> g[i].discoveryMode == mode)
  {
    hide NotIgnored, EdgeID, SecretID, Group, HasTail;
    GroupIsTail(w, es, ignore, s);
    var kept := NotIgnored(es, ignore);
    forall i | 0 <= i < |kept| ensures kept[i].discoveryMode == mode {
      assert kept[i] in kept;
    }
    GroupKeepsMode(kept, EdgeID(w, s), mode);
  }

  /**
   In hybrid mode an edge is hybrid exactly when both the specification and an annotation name a
   Secret with its key; its sources list the former first; and its Secret is not an ignored
   one. Where no namespaces collide, that is when both name its Secret.
   */
  lemma HybridIsBoth(opts: Options, w: WorkloadRef, spec: Spec, annotations: Values, decode: Decoder,
                     out: seq<DependencyEdge>, n: nat)
    requires DiscoveryModeFor(annotations, opts.defaultMode) == HYBRID
    requires Lists(out, MergeAll(AtExtraction, KeptReferences(opts, w, spec, annotations, decode)))
    requires n < |out|
    ensures
      var e := out[n];
      var inferred, explicit := InferredLike(opts, w, spec, annotations, e.secret),
        ExplicitLike(opts, w, annotations, decode, e.secret);
      && (inferred || explicit)
      && e.discoveryMode == (if inferred && explicit then HYBRID else if inferred then INFER else EXPLICIT)
      && e.sources == SidedSources(opts, w, spec, annotations, decode, e.id).0
           + SidedSources(opts, w, spec, annotations, decode, e.id).1
      && e.id == EdgeID(w, e.secret) && SecretID(e.secret) !in Ignored(opts, w, annotations)
    ensures Apart(opts, w, annotations, decode) ==>
      && (InferredLike(opts, w, spec, annotations, out[n].secret) <==> InferredNames(opts, w, spec, out[n].secret))
      && (ExplicitLike(opts, w, annotations, decode, out[n].secret) <==>
           ExplicitNames(opts, w, annotations, decode, out[n].secret))
  {
    hide InferredEdges, ExplicitEdges, NotIgnored, MergeAll, Group, AllSources, Ignored, EdgeID, SecretID,
         InferredNames, ExplicitNames, HasSecret, HasTail, InferredLike, ExplicitLike, Apart, Clear,
         AllMade, OneMode, DistinctIDs, HasID, DiscoveryModeFor;
    var e, ignore := out[n], Ignored(opts, w, annotations);
    var inferred, explicit := InferredEdges(opts, w, spec), ExplicitEdges(opts.cluster, w, annotations, decode);
    FilterAndMergeIsExact(inferred + explicit, ignore, out);
    GroupBySide(inferred, explicit, ignore, e.id);
    var gi, ge := Group(NotIgnored(inferred, ignore), e.id), Group(NotIgnored(explicit, ignore), e.id);
    InferredIsNamed(opts, w, spec, e.secret.name);
    ExplicitHasSecret(opts, w, annotations, decode, e.secret);
    MergedKeepsFirst(opts, w, inferred, explicit, ignore, e);
    SideHasTail(inferred, ignore, opts.cluster, w, INFER, e.secret);
    SideHasTail(explicit, ignore, opts.cluster, w, EXPLICIT, e.secret);
    InferredHasTail(opts, w, spec, annotations, e.secret);
    ExplicitHasTail(opts, w, annotations, decode, e.secret);
    ModeOfSides(e, gi, ge);
    if Apart(opts, w, annotations, decode) {
      ApartIsClear(opts, w, spec, annotations, decode, e.secret);
      LikeIsNamed(opts, w, spec, annotations, decode, e.secret);
    }
  }

  /** Where the specification names a Secret of the key, the merged edge is for such a Secret: it comes first. */
  lemma MergedIsInferred(opts: Options, w: WorkloadRef, spec: Spec, annotations: Values, decode: Decoder,
                         out: seq<DependencyEdge>, n: nat)
    requires DiscoveryModeFor(annotations, opts.defaultMode) == HYBRID
    requires Lists(out, MergeAll(AtExtraction, KeptReferences(opts, w, spec, annotations, decode)))
    requires n < |out| && InferredLike(opts, w, spec, annotations, out[n].secret)
    ensures InferredNames(opts, w, spec, out[n].secret)
  {
    hide InferredEdges, ExplicitEdges, NotIgnored, MergeAll, AllSources, Ignored, EdgeID, SecretID, Group,
         InferredNames, HasTail, InferredLike, AllMade, OneMode, DiscoveryModeFor;
    var e, ignore := out[n], Ignored(opts, w, annotations);
    var inferred, explicit := InferredEdges(opts, w, spec), ExplicitEdges(opts.cluster, w, annotations, decode);
    HybridIsBoth(opts, w, spec, annotations, decode, out, n);
    FilterAndMergeIsExact(inferred + explicit, ignore, out);
    GroupBySide(inferred, explicit, ignore, e.id);
    InferredIsNamed(opts, w, spec, e.secret.name);
    SideHasTail(inferred, ignore, opts.cluster, w, INFER, e.secret);
    InferredHasTail(opts, w, spec, annotations, e.secret);
    FirstIsInferred(inferred, explicit, ignore, e);
    InferredHasSecret(opts, w, spec, e.secret);
  }

  lemma FirstIsInferred(inferred: seq<DependencyEdge>, explicit: seq<DependencyEdge>, ignore: set<string>,
                        e: DependencyEdge)
    requires
      var gi, ge := Group(NotIgnored(inferred, ignore), e.id), Group(NotIgnored(explicit, ignore), e.id);
      gi != [] && IsMergeOf(AtExtraction, e, gi + ge)
    ensures HasSecret(inferred, e.secret)
  {
    hide NotIgnored, Group, OneMode, AllSources, SecretID;
    var gi, ge := Group(NotIgnored(inferred, ignore), e.id), Group(NotIgnored(explicit, ignore), e.id);
    assert (gi + ge)[0] == gi[0];
    assert gi[0] in NotIgnored(inferred, ignore);
    var i :| 0 <= i < |inferred| && inferred[i] == gi[0];
    assert SameSecret(inferred[i].secret, e.secret);
  }

  /** Each edge is hybrid exactly when the specification and an annotation both name its Secret. */
  ghost predicate HybridMeansBoth(opts: Options, w: WorkloadRef, spec: Spec, annotations: Values, decode: Decoder,
                                  out: seq<DependencyEdge>) {
    forall n :: 0 <= n < |out| ==>
      (out[n].discoveryMode == HYBRID <==>
       InferredNames(opts, w, spec, out[n].secret) && ExplicitNames(opts, w, annotations, decode, out[n].secret))
  }

  /**
   No annotation names another Secret under the key of one that the specification names,
   unless some annotation names that one too. Ignored Secrets do not matter.
   */
  ghost predicate SidesAgree(opts: Options, w: WorkloadRef, spec: Spec, annotations: Values, decode: Decoder) {
    forall s, t ::
      && InferredNames(opts, w, spec, s) && SecretID(s) !in Ignored(opts, w, annotations)
      && ExplicitNames(opts, w, annotations, decode, t) && SecretID(t) !in Ignored(opts, w, annotations)
      && SecretTail(s) == SecretTail(t)
      ==> ExplicitNames(opts, w, annotations, decode, s)
  }

  /** The classification by Secrets is right for every edge if and only if the two sides agree on shared keys. */
  lemma HybridExactly(opts: Options, w: WorkloadRef, spec: Spec, annotations: Values, decode: Decoder,
                      out: seq<DependencyEdge>)
    requires DiscoveryModeFor(annotations, opts.defaultMode) == HYBRID
    requires Lists(out, MergeAll(AtExtraction, KeptReferences(opts, w, spec, annotations, decode)))
    ensures HybridMeansBoth(opts, w, spec, annotations, decode, out) <==> SidesAgree(opts, w, spec, annotations, decode)
  {
    hide KeptReferences, MergeAll, Lists, Ignored, SecretID, SecretTail, SpecNames, ExplicitNames, EdgeID,
         DiscoveryModeFor;
    if HybridMeansBoth(opts, w, spec, annotations, decode, out) {
      forall s, t |
        && InferredNames(opts, w, spec, s) && SecretID(s) !in Ignored(opts, w, annotations)
        && ExplicitNames(opts, w, annotations, decode, t) && SecretID(t) !in Ignored(opts, w, annotations)
        && SecretTail(s) == SecretTail(t)
        ensures ExplicitNames(opts, w, annotations, decode, s)
      {
        HybridEdgeNames(opts, w, spec, annotations, decode, out, s, t);
      }
    }
    if SidesAgree(opts, w, spec, annotations, decode) {
      forall n | 0 <= n < |out|
        ensures out[n].discoveryMode == HYBRID <==>
          InferredNames(opts, w, spec, out[n].secret) && ExplicitNames(opts, w, annotations, decode, out[n].secret)
      {
        HybridIsBoth(opts, w, spec, annotations, decode, out, n);
        if InferredLike(opts, w, spec, annotations, out[n].secret) {
          MergedIsInferred(opts, w, spec, annotations, decode, out, n);
        }
      }
    }
  }

  /** Two namings of one key meet in a hybrid edge, and its Secret is the inferred one. */
  lemma HybridEdgeNames(opts: Options, w: WorkloadRef, spec: Spec, annotations: Values, decode: Decoder,
                        out: seq<DependencyEdge>, s: SecretRef, t: SecretRef)
    requires DiscoveryModeFor(annotations, opts.defaultMode) == HYBRID
    requires Lists(out, MergeAll(AtExtraction, KeptReferences(opts, w, spec, annotations, decode)))
    requires HybridMeansBoth(opts, w, spec, annotations, decode, out)
    requires InferredNames(opts, w, spec, s) && SecretID(s) !in Ignored(opts, w, annotations)
    requires ExplicitNames(opts, w, annotations, decode, t) && SecretID(t) !in Ignored(opts, w, annotations)
    requires SecretTail(s) == SecretTail(t)
    ensures ExplicitNames(opts, w, annotations, decode, s)
  {
    hide KeptReferences, MergeAll, Lists, Ignored, SecretID, SecretTail, SpecNames, EdgeID, DiscoveryModeFor,
         ExplicitRefs;
    HybridMissesNothing(opts, w, spec, annotations, decode, out, s);
    assert InferredLike(opts, w, spec, annotations, s);
    var n :| 0 <= n < |out| && out[n].id == EdgeID(w, s);
    var e := out[n].secret;
    HybridIsBoth(opts, w, spec, annotations, decode, out, n);
    EdgeIDIsTail(w, e, s);
    assert InferredLike(opts, w, spec, annotations, e) && ExplicitLike(opts, w, annotations, decode, e);
    assert InferredNames(opts, w, spec, e) && ExplicitNames(opts, w, annotations, decode, e);
    SameNamespaceSameSecret(e, s);
  }

  lemma SameNamespaceSameSecret(s: SecretRef, t: SecretRef)
    requires s.namespace == t.namespace && SecretTail(s) == SecretTail(t)
    ensures SameSecret(s, t)
  {
    TailsMeet(s, t);
  }

  lemma ApartIsClear(opts: Options, w: WorkloadRef, spec: Spec, annotations: Values, decode: Decoder, s: SecretRef)
    requires Apart(opts, w, annotations, decode)
    requires HasSecret(InferredEdges(opts, w, spec), s)
      || HasSecret(ExplicitEdges(opts.cluster, w, annotations, decode), s)
    ensures Clear(opts, w, annotations, decode, s)
  {
    hide InferredEdges, ExplicitEdges, SpecNames, ExplicitNames, Collide;
    InferredHasSecret(opts, w, spec, s);
    ExplicitHasSecret(opts, w, annotations, decode, s);
    if ExplicitNames(opts, w, annotations, decode, s) {
      ExplicitNamespace(opts, w, annotations, decode, s);
    }
  }

  /** A merged edge has the key and the Secret of its references, none of them ignored. */
  lemma MergedKeepsFirst(opts: Options, w: WorkloadRef, inferred: seq<DependencyEdge>,
                         explicit: seq<DependencyEdge>, ignore: set<string>, e: DependencyEdge)
    requires AllMade(opts.cluster, w, INFER, inferred) && AllMade(opts.cluster, w, EXPLICIT, explicit)
    requires
      var g := Group(NotIgnored(inferred + explicit, ignore), e.id);
      g != [] && IsMergeOf(AtExtraction, e, g)
    ensures e.id == EdgeID(w, e.secret) && SecretID(e.secret) !in ignore
    ensures HasSecret(inferred, e.secret) || HasSecret(explicit, e.secret)
  {
    hide EdgeID, SecretID;
    var g := Group(NotIgnored(inferred + explicit, ignore), e.id);
    assert g[0] in NotIgnored(inferred + explicit, ignore);
    assert g[0] in inferred + explicit;
    assert g[0] in inferred || g[0] in explicit;
    assert SameSecret(g[0].secret, e.secret);
  }

  /** In a single mode, edges have that mode and only that side's references count. */
  lemma SingleModeIsPure(opts: Options, w: WorkloadRef, spec: Spec, annotations: Values, decode: Decoder,
                         out: seq<DependencyEdge>, n: nat)
    requires Lists(out, MergeAll(AtExtraction, KeptReferences(opts, w, spec, annotations, decode)))
    requires n < |out|
    ensures DiscoveryModeFor(annotations, opts.defaultMode) == INFER ==> out[n].discoveryMode == INFER
    ensures DiscoveryModeFor(annotations, opts.defaultMode) == EXPLICIT ==> out[n].discoveryMode == EXPLICIT
  {
    hide InferredEdges, ExplicitEdges, NotIgnored, MergeAll, Ignored, DiscoveryModeFor, Lists;
    var mode, ignore := DiscoveryModeFor(annotations, opts.defaultMode), Ignored(opts, w, annotations);
    if mode == INFER {
      InferredIsNamed(opts, w, spec, "");
      assert References(opts, w, spec, annotations, decode) == InferredEdges(opts, w, spec);
      OneSideIsPure(opts.cluster, w, mode, InferredEdges(opts, w, spec), ignore, out, n);
    }
    if mode == EXPLICIT {
      ExplicitHasSecret(opts, w, annotations, decode, out[n].secret);
      assert References(opts, w, spec, annotations, decode) == ExplicitEdges(opts.cluster, w, annotations, decode);
      OneSideIsPure(opts.cluster, w, mode, ExplicitEdges(opts.cluster, w, annotations, decode), ignore, out, n);
    }
  }

  lemma OneSideIsPure(cluster: string, w: WorkloadRef, mode: DiscoveryMode, es: seq<DependencyEdge>,
                      ignore: set<string>, out: seq<DependencyEdge>, n: nat)
    requires AllMade(cluster, w, mode, es) && n < |out|
    requires Lists(out, MergeAll(AtExtraction, NotIgnored(es, ignore)))
    ensures out[n].discoveryMode == mode
  {
    hide NotIgnored, MergeAll, Lists, EdgeID;
    FilterAndMergeIsExact(es, ignore, out);
    var g := Group(NotIgnored(es, ignore), out[n].id);
    forall i | 0 <= i < |g| ensures g[i].discoveryMode == mode {
      assert g[i] in NotIgnored(es, ignore);
      assert g[i] in es;
    }
    assert OneMode(g);
  }

  lemma ListsNothing(out: seq<DependencyEdge>)
    requires Lists(out, map[])
    ensures out == []
  {
    hide Lists;
    NonEmptyHasMember(out);
    if e :| e in out {
      ListedInMap(out, map[], e);
    }
  }

  lemma NonEmptyHasMember(es: seq<DependencyEdge>)
    ensures es == [] || exists e :: e in es
  {
    if es != [] {
      assert es[0] in es;
    }
  }

  lemma ListedInMap(out: seq<DependencyEdge>, m: map<string, DependencyEdge>, e: DependencyEdge)
    requires Lists(out, m) && e in out
    ensures e.id in m
  {}

  /** Any other mode, whether disabled or unknown, yields no edges. */
  lemma OtherModesAreEmpty(opts: Options, w: WorkloadRef, spec: Spec, annotations: Values, decode: Decoder,
                           out: seq<DependencyEdge>)
    requires Lists(out, MergeAll(AtExtraction, KeptReferences(opts, w, spec, annotations, decode)))
    requires DiscoveryModeFor(annotations, opts.defaultMode) !in {INFER, EXPLICIT, HYBRID}
    ensures out == []
  {
    hide InferredEdges, ExplicitEdges, Ignored, DiscoveryModeFor;
    assert KeptReferences(opts, w, spec, annotations, decode) == [];
    ListsNothing(out);
  }

  /** Every Secret that counts in hybrid mode has an edge under its key, and no other key is there. */
  lemma HybridMissesNothing(opts: Options, w: WorkloadRef, spec: Spec, annotations: Values, decode: Decoder,
                            out: seq<DependencyEdge>, s: SecretRef)
    requires DiscoveryModeFor(annotations, opts.defaultMode) == HYBRID
    requires Lists(out, MergeAll(AtExtraction, KeptReferences(opts, w, spec, annotations, decode)))
    ensures HasID(out, EdgeID(w, s)) <==>
      InferredLike(opts, w, spec, annotations, s) || ExplicitLike(opts, w, annotations, decode, s)
    ensures Clear(opts, w, annotations, decode, s) && SecretID(s) !in Ignored(opts, w, annotations) ==>
      (HasID(out, EdgeID(w, s)) <==> InferredNames(opts, w, spec, s) || ExplicitNames(opts, w, annotations, decode, s))
  {
    hide InferredEdges, ExplicitEdges, NotIgnored, MergeAll, Group, AllSources, Ignored, EdgeID, SecretID,
         InferredNames, ExplicitNames, HasSecret, HasTail, InferredLike, ExplicitLike, Clear,
         AllMade, DistinctIDs, HasID, DiscoveryModeFor, IsMergeOf;
    var ignore := Ignored(opts, w, annotations);
    var inferred, explicit := InferredEdges(opts, w, spec), ExplicitEdges(opts.cluster, w, annotations, decode);
    FilterAndMergeIsExact(inferred + explicit, ignore, out);
    HasIDIsGroup(NotIgnored(inferred + explicit, ignore), EdgeID(w, s));
    GroupBySide(inferred, explicit, ignore, EdgeID(w, s));
    InferredIsNamed(opts, w, spec, s.name);
    ExplicitHasSecret(opts, w, annotations, decode, s);
    SideHasTail(inferred, ignore, opts.cluster, w, INFER, s);
    SideHasTail(explicit, ignore, opts.cluster, w, EXPLICIT, s);
    InferredHasTail(opts, w, spec, annotations, s);
    ExplicitHasTail(opts, w, annotations, decode, s);
    if Clear(opts, w, annotations, decode, s) && SecretID(s) !in ignore {
      LikeIsNamed(opts, w, spec, annotations, decode, s);
    }
  }

  lemma HasIDIsGroup(es: seq<DependencyEdge>, id: string)
    ensures HasID(es, id) <==> Group(es, id) != []
  {}
}

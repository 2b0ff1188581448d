/**
 Extracting a workload's edges: references found in the Pod spec, references written in
 annotations, and how the discovery mode combines them.
 */
module Extractor {
  import opened Basics
  import opened Text
  import opened GraphTypes
  import opened Ids
  import opened Merge
  import opened Annotations

  // ----- Pod specs, as far as they name Secrets -----

  datatype Selector = Selector(name: string, optional: Option<bool>)
  datatype EnvVar = EnvVar(name: string, secretKeyRef: Option<Selector>)
  datatype EnvFrom = EnvFrom(secretRef: Option<Selector>)
  datatype Container = Container(name: string, env: seq<EnvVar>, envFrom: seq<EnvFrom>)
  datatype Volume = Volume(name: string, secret: Option<Selector>, projected: Option<seq<Option<Selector>>>)

  datatype PodSpec = PodSpec(
    containers: seq<Container>,
    initContainers: seq<Container>,
    ephemeralContainers: seq<Container>,
    volumes: seq<Volume>,
    imagePullSecrets: seq<string>,
    serviceAccountName: string)

  /** What references are inferred from: a Pod spec, or the TLS Secret names of an Ingress. */
  datatype Spec = OfPod(pod: PodSpec) | OfIngress(tls: seq<string>)

  datatype LabelKeys = LabelKeys(ownerTeam: seq<string>, service: seq<string>, environment: seq<string>,
                                 criticality: seq<string>)

  datatype Options = Options(
    cluster: string,
    defaultMode: DiscoveryMode,
    includeImagePullSecrets: bool,
    serviceAccountImagePullSecrets: map<string, seq<string>>,
    includeInitContainers: bool,
    includeEphemeralContainers: bool,
    readPodTemplateAnnotations: bool,
    metadataLabelsEnabled: bool,
    metadataLabelKeys: LabelKeys)

  datatype Role = Main | Init | Ephemeral

  // ----- Edges for single references -----

  function NewEdge(cluster: string, workload: WorkloadRef, namespace: string, name: string, optional: bool,
                   mode: DiscoveryMode, source: DependencySource): DependencyEdge
  {
    var secret := SecretRef(cluster, namespace, name, "");
    DependencyEdge(EdgeID(workload, secret), cluster, workload, secret, mode, [source], optional, false,
                   "", "", "", 0, 0)
  }

  function IsOptional(s: Selector): bool {
    s.optional.Some? && s.optional.value
  }

  function Source(sourceType: string): DependencySource {
    DependencySource(sourceType, "", "", false, "", "", "", "")
  }

  function ContainerSource(sourceType: string, role: Role, container: string, envVar: string): DependencySource {
    Source(sourceType).(
      container := if role.Init? then "" else container,
      initContainer := if role.Init? then container else "",
      ephemeral := role.Ephemeral?,
      envVar := envVar)
  }

  /** An edge for a selector that is set; an empty name is no reference. */
  function SelectorEdges(opts: Options, w: WorkloadRef, selector: Option<Selector>,
      source: DependencySource): seq<DependencyEdge>
  {
    if selector.None? || selector.value.name == "" then []
    else [NewEdge(opts.cluster, w, w.namespace, selector.value.name, IsOptional(selector.value), INFER, source)]
  }

  // ----- The references of a Pod spec, in the order they are found -----

  function EnvEdges(opts: Options, w: WorkloadRef, role: Role, container: string, env: seq<EnvVar>): seq<DependencyEdge>
  {
    if env == [] then []
    else
      var item := env[|env| - 1];
      EnvEdges(opts, w, role, container, env[..|env| - 1])
      + SelectorEdges(opts, w, item.secretKeyRef, ContainerSource("env.secretKeyRef", role, container, item.name))
  }

  function EnvFromEdges(opts: Options, w: WorkloadRef, role: Role, container: string,
      envFrom: seq<EnvFrom>): seq<DependencyEdge>
  {
    if envFrom == [] then []
    else
      EnvFromEdges(opts, w, role, container, envFrom[..|envFrom| - 1])
      + SelectorEdges(opts, w, envFrom[|envFrom| - 1].secretRef,
        ContainerSource("envFrom.secretRef", role, container, ""))
  }

  function ContainerEdges(opts: Options, w: WorkloadRef, role: Role, containers: seq<Container>): seq<DependencyEdge> {
    if containers == [] then []
    else
      var c := containers[|containers| - 1];
      ContainerEdges(opts, w, role, containers[..|containers| - 1])
      + (EnvEdges(opts, w, role, c.name, c.env) + EnvFromEdges(opts, w, role, c.name, c.envFrom))
  }

  function VolumeEdges(opts: Options, w: WorkloadRef, volumes: seq<Volume>): seq<DependencyEdge> {
    if volumes == [] then []
    else
      var v := volumes[|volumes| - 1];
      VolumeEdges(opts, w, volumes[..|volumes| - 1])
      + SelectorEdges(opts, w, v.secret, Source("volumes.secret").(volume := v.name))
  }

  function ProjectionEdges(opts: Options, w: WorkloadRef, volume: string,
      sources: seq<Option<Selector>>): seq<DependencyEdge>
  {
    if sources == [] then []
    else
      ProjectionEdges(opts, w, volume, sources[..|sources| - 1])
      + SelectorEdges(opts, w, sources[|sources| - 1], Source("volumes.projected.sources.secret").(volume := volume))
  }

  function ProjectedEdges(opts: Options, w: WorkloadRef, volumes: seq<Volume>): seq<DependencyEdge> {
    if volumes == [] then []
    else
      var v := volumes[|volumes| - 1];
      ProjectedEdges(opts, w, volumes[..|volumes| - 1])
      + (if v.projected.None? then [] else ProjectionEdges(opts, w, v.name, v.projected.value))
  }

  function PullSecretEdges(opts: Options, w: WorkloadRef, names: seq<string>): seq<DependencyEdge> {
    if names == [] then []
    else
      PullSecretEdges(opts, w, names[..|names| - 1])
      + SelectorEdges(opts, w, Some(Selector(names[|names| - 1], None)), Source("imagePullSecrets"))
  }

  function ServiceAccountName(name: string): string {
    if TrimSpace(name) == "" then "default" else name
  }

  function ServiceAccountKey(namespace: string, name: string): string {
    namespace + "/" + ServiceAccountName(name)
  }

  function ServiceAccountPullSecrets(opts: Options, namespace: string, name: string): seq<string> {
    var key := ServiceAccountKey(namespace, name);
    if key in opts.serviceAccountImagePullSecrets then opts.serviceAccountImagePullSecrets[key] else []
  }

  const ACCOUNT_SOURCE := Source("serviceAccount.imagePullSecrets").(resourceField := "imagePullSecrets")

  /** The service account's pull Secrets: taken as they are. */
  function AccountEdges(opts: Options, w: WorkloadRef, names: seq<string>): (r: seq<DependencyEdge>)
    ensures |r| == |names|
    ensures forall i :: 0 <= i < |names| ==>
      r[i] == NewEdge(opts.cluster, w, w.namespace, names[i], false, INFER, ACCOUNT_SOURCE)
  {
    seq(|names|, i requires 0 <= i < |names| =>
      NewEdge(opts.cluster, w, w.namespace, names[i], false, INFER, ACCOUNT_SOURCE))
  }

  /** The pull Secrets of the Pod, or if it has none those of its service account. */
  function PullEdges(opts: Options, w: WorkloadRef, pod: PodSpec): seq<DependencyEdge> {
    if !opts.includeImagePullSecrets then []
    else if pod.imagePullSecrets != [] then PullSecretEdges(opts, w, pod.imagePullSecrets)
    else AccountEdges(opts, w, ServiceAccountPullSecrets(opts, w.namespace, ServiceAccountName(pod.serviceAccountName)))
  }

  function PodEdges(opts: Options, w: WorkloadRef, pod: PodSpec): seq<DependencyEdge> {
    ContainerEdges(opts, w, Main, pod.containers)
    + (if opts.includeInitContainers then ContainerEdges(opts, w, Init, pod.initContainers) else [])
    + (if opts.includeEphemeralContainers then ContainerEdges(opts, w, Ephemeral, pod.ephemeralContainers) else [])
    + VolumeEdges(opts, w, pod.volumes)
    + ProjectedEdges(opts, w, pod.volumes)
    + PullEdges(opts, w, pod)
  }

  /** The TLS Secrets of an Ingress. */
  function TlsEdges(opts: Options, w: WorkloadRef, tls: seq<string>): seq<DependencyEdge> {
    if tls == [] then []
    else
      TlsEdges(opts, w, tls[..|tls| - 1]) + SelectorEdges(opts, w, Some(Selector(tls[|tls| - 1], None)), TLS_SOURCE)
  }

  const TLS_SOURCE := Source("ingress.tls").(resourceField := "spec.tls.secretName")

  function InferredEdges(opts: Options, w: WorkloadRef, spec: Spec): seq<DependencyEdge> {
    match spec
    case OfPod(pod) => PodEdges(opts, w, pod)
    case OfIngress(tls) => TlsEdges(opts, w, tls)
  }

  // ----- The loops -----

  method AddSelector(edges: seq<DependencyEdge>, opts: Options, w: WorkloadRef, selector: Option<Selector>,
                     source: DependencySource)
    returns (r: seq<DependencyEdge>)
    ensures r == edges + SelectorEdges(opts, w, selector, source)
  {
    hide NewEdge;
    if selector.None? || selector.value.name == "" {
      return edges;
    }
    r := edges + [NewEdge(opts.cluster, w, w.namespace, selector.value.name, IsOptional(selector.value), INFER,
      source)];
  }

  method InferContainerEdges(opts: Options, w: WorkloadRef, role: Role, c: Container)
    returns (edges: seq<DependencyEdge>)
    ensures edges == EnvEdges(opts, w, role, c.name, c.env) + EnvFromEdges(opts, w, role, c.name, c.envFrom)
  {
    hide SelectorEdges, ContainerSource;
    edges := [];
    for n := 0 to |c.env|
      invariant edges == EnvEdges(opts, w, role, c.name, c.env[..n])
    {
      assert c.env[..n + 1][..n] == c.env[..n];
      edges := AddSelector(edges, opts, w, c.env[n].secretKeyRef,
        ContainerSource("env.secretKeyRef", role, c.name, c.env[n].name));
    }
    assert c.env[..|c.env|] == c.env;
    ghost var before := edges;
    assert edges == before + EnvFromEdges(opts, w, role, c.name, c.envFrom[..0]);
    for n := 0 to |c.envFrom|
      invariant edges == before + EnvFromEdges(opts, w, role, c.name, c.envFrom[..n])
    {
      assert c.envFrom[..n + 1][..n] == c.envFrom[..n];
      edges := AddSelector(edges, opts, w, c.envFrom[n].secretRef,
        ContainerSource("envFrom.secretRef", role, c.name, ""));
    }
    assert c.envFrom[..|c.envFrom|] == c.envFrom;
  }

  method AddContainers(edges: seq<DependencyEdge>, opts: Options, w: WorkloadRef, role: Role,
                       containers: seq<Container>)
    returns (r: seq<DependencyEdge>)
    ensures r == edges + ContainerEdges(opts, w, role, containers)
  {
    hide EnvEdges, EnvFromEdges;
    r := edges;
    for n := 0 to |containers|
      invariant r == edges + ContainerEdges(opts, w, role, containers[..n])
    {
      assert containers[..n + 1][..n] == containers[..n];
      var more := InferContainerEdges(opts, w, role, containers[n]);
      r := r + more;
    }
    assert containers[..|containers|] == containers;
  }

  method AddVolumes(edges: seq<DependencyEdge>, opts: Options, w: WorkloadRef, volumes: seq<Volume>)
    returns (r: seq<DependencyEdge>)
    ensures r == edges + VolumeEdges(opts, w, volumes) + ProjectedEdges(opts, w, volumes)
  {
    hide SelectorEdges, ProjectionEdges;
    r := edges;
    for n := 0 to |volumes|
      invariant r == edges + VolumeEdges(opts, w, volumes[..n])
    {
      assert volumes[..n + 1][..n] == volumes[..n];
      r := AddSelector(r, opts, w, volumes[n].secret, Source("volumes.secret").(volume := volumes[n].name));
    }
    assert volumes[..|volumes|] == volumes;
    ghost var before := r;
    for n := 0 to |volumes|
      invariant r == before + ProjectedEdges(opts, w, volumes[..n])
    {
      assert volumes[..n + 1][..n] == volumes[..n];
      if volumes[n].projected.None? {
        continue;
      }
      r := AddProjections(r, opts, w, volumes[n].name, volumes[n].projected.value);
    }
  }

  method AddProjections(edges: seq<DependencyEdge>, opts: Options, w: WorkloadRef, volume: string,
                        sources: seq<Option<Selector>>)
    returns (r: seq<DependencyEdge>)
    ensures r == edges + ProjectionEdges(opts, w, volume, sources)
  {
    hide SelectorEdges;
    r := edges;
    for n := 0 to |sources|
      invariant r == edges + ProjectionEdges(opts, w, volume, sources[..n])
    {
      assert sources[..n + 1][..n] == sources[..n];
      r := AddSelector(r, opts, w, sources[n], Source("volumes.projected.sources.secret").(volume := volume));
    }
    assert sources[..|sources|] == sources;
  }

  method AddPullSecrets(edges: seq<DependencyEdge>, opts: Options, w: WorkloadRef, pod: PodSpec)
    returns (r: seq<DependencyEdge>)
    ensures r == edges + PullEdges(opts, w, pod)
  {
    hide SelectorEdges, NewEdge, ServiceAccountPullSecrets, ServiceAccountName;
    r := edges;
    if !opts.includeImagePullSecrets {
      return;
    }
    var names := pod.imagePullSecrets;
    for n := 0 to |names|
      invariant r == edges + PullSecretEdges(opts, w, names[..n])
    {
      assert names[..n + 1][..n] == names[..n];
      r := AddSelector(r, opts, w, Some(Selector(names[n], None)), Source("imagePullSecrets"));
    }
    assert names[..|names|] == names;
    if |names| == 0 {
      var account := ServiceAccountPullSecrets(opts, w.namespace, ServiceAccountName(pod.serviceAccountName));
      for n := 0 to |account|
        invariant r == edges + AccountEdges(opts, w, account)[..n]
      {
        r := r + [NewEdge(opts.cluster, w, w.namespace, account[n], false, INFER,
          ACCOUNT_SOURCE)];
      }
    }
  }

  method InferPodSpecEdges(opts: Options, w: WorkloadRef, pod: PodSpec) returns (edges: seq<DependencyEdge>)
    ensures edges == PodEdges(opts, w, pod)
  {
    hide ContainerEdges, VolumeEdges, ProjectedEdges, PullEdges;
    edges := AddContainers([], opts, w, Main, pod.containers);
    if opts.includeInitContainers {
      edges := AddContainers(edges, opts, w, Init, pod.initContainers);
    }
    if opts.includeEphemeralContainers {
      edges := AddContainers(edges, opts, w, Ephemeral, pod.ephemeralContainers);
    }
    edges := AddVolumes(edges, opts, w, pod.volumes);
    edges := AddPullSecrets(edges, opts, w, pod);
  }

  method InferIngressEdges(opts: Options, w: WorkloadRef, tls: seq<string>) returns (edges: seq<DependencyEdge>)
    ensures edges == TlsEdges(opts, w, tls)
  {
    hide NewEdge, Source;
    edges := [];
    for n := 0 to |tls|
      invariant edges == TlsEdges(opts, w, tls[..n])
    {
      assert tls[..n + 1][..n] == tls[..n];
      if tls[n] == "" {
        continue;
      }
      edges := edges + [NewEdge(opts.cluster, w, w.namespace, tls[n], false, INFER, TLS_SOURCE)];
    }
    assert tls[..|tls|] == tls;
  }

  // ----- References written in annotations -----

  type Values = map<string, string>

  /** json.Unmarshal into a list of strings: None when it fails. */
  type Decoder = string -> Option<seq<string>>

  const WATCH_SECRETS := "kbeacon.io/watch-secrets"
  const WATCH_SECRETS_JSON := "kbeacon.io/watch-secrets-json"
  const IGNORE_SECRETS := "kbeacon.io/ignore-secrets"
  const ENABLED := "kbeacon.io/enabled"
  const DISCOVERY_MODE := "kbeacon.io/discovery-mode"

  function ValueOf(annotations: Values, key: string): string {
    if key in annotations then annotations[key] else ""
  }

  /** The references of the comma-separated list: none at all if one is bad. */
  function ListedRefs(cluster: string, namespace: string, annotations: Values, key: string): seq<SecretRef> {
    var value := TrimSpace(ValueOf(annotations, key));
    if value == "" then []
    else match WatchSecrets(cluster, namespace, value)
      case Ok(refs) => refs
      case Err => []
  }

  /** The good tokens of a list: here the bad ones are passed over. */
  function GoodRefs(cluster: string, namespace: string, tokens: seq<string>): seq<SecretRef> {
    if tokens == [] then []
    else
      GoodRefs(cluster, namespace, tokens[..|tokens| - 1])
      + (match TokenRef(cluster, namespace, tokens[|tokens| - 1]) case Ok(ref) => [ref] case Err => [])
  }

  function DecodedRefs(cluster: string, namespace: string, annotations: Values, decode: Decoder): seq<SecretRef> {
    var value := TrimSpace(ValueOf(annotations, WATCH_SECRETS_JSON));
    if value == "" then []
    else match decode(value)
      case Some(tokens) => GoodRefs(cluster, namespace, tokens)
      case None => []
  }

  function AnnotationEdges(cluster: string, w: WorkloadRef, refs: seq<SecretRef>,
      annotation: string): (r: seq<DependencyEdge>)
    ensures |r| == |refs|
    ensures forall i :: 0 <= i < |refs| ==>
      r[i] == NewEdge(cluster, w, refs[i].namespace, refs[i].name, false, EXPLICIT,
        Source("annotation").(annotation := annotation))
  {
    seq(|refs|, i requires 0 <= i < |refs| =>
      NewEdge(cluster, w, refs[i].namespace, refs[i].name, false, EXPLICIT,
        Source("annotation").(annotation := annotation)))
  }

  function ExplicitEdges(cluster: string, w: WorkloadRef, annotations: Values, decode: Decoder): seq<DependencyEdge> {
    AnnotationEdges(cluster, w, ListedRefs(cluster, w.namespace, annotations, WATCH_SECRETS), WATCH_SECRETS)
    + AnnotationEdges(cluster, w, DecodedRefs(cluster, w.namespace, annotations, decode), WATCH_SECRETS_JSON)
  }

  method ExplicitAnnotationEdges(cluster: string, w: WorkloadRef, annotations: Values, decode: Decoder)
    returns (edges: seq<DependencyEdge>)
    ensures edges == ExplicitEdges(cluster, w, annotations, decode)
  {
    hide NewEdge, WatchSecrets, TokenRef;
    edges := [];
    var value := TrimSpace(ValueOf(annotations, WATCH_SECRETS));
    if value != "" {
      var parsed := ParseWatchSecrets(cluster, w.namespace, value);
      if parsed.Ok? {
        edges := AddAnnotated([], cluster, w, parsed.value, WATCH_SECRETS);
      }
    }
    value := TrimSpace(ValueOf(annotations, WATCH_SECRETS_JSON));
    if value != "" {
      var tokens := decode(value);
      if tokens.Some? {
        var refs := ParseTokens(cluster, w.namespace, tokens.value);
        edges := AddAnnotated(edges, cluster, w, refs, WATCH_SECRETS_JSON);
      }
    }
  }

  method AddAnnotated(edges: seq<DependencyEdge>, cluster: string, w: WorkloadRef, refs: seq<SecretRef>,
                      annotation: string)
    returns (r: seq<DependencyEdge>)
    ensures r == edges + AnnotationEdges(cluster, w, refs, annotation)
  {
    hide NewEdge;
    r := edges;
    for n := 0 to |refs|
      invariant r == edges + AnnotationEdges(cluster, w, refs, annotation)[..n]
    {
      r := r + [NewEdge(cluster, w, refs[n].namespace, refs[n].name, false, EXPLICIT,
        Source("annotation").(annotation := annotation))];
    }
  }

  method ParseTokens(cluster: string, namespace: string, tokens: seq<string>) returns (refs: seq<SecretRef>)
    ensures refs == GoodRefs(cluster, namespace, tokens)
  {
    hide TokenRef;
    refs := [];
    for n := 0 to |tokens|
      invariant refs == GoodRefs(cluster, namespace, tokens[..n])
    {
      assert tokens[..n + 1][..n] == tokens[..n];
      var parsed := ParseSecretRef(cluster, namespace, tokens[n]);
      if parsed.Err? {
        continue;
      }
      refs := refs + [parsed.value];
    }
    assert tokens[..|tokens|] == tokens;
  }

  method IgnoredSecrets(cluster: string, namespace: string, annotations: Values) returns (ignore: set<string>)
    ensures ignore == set ref | ref in ListedRefs(cluster, namespace, annotations, IGNORE_SECRETS) :: SecretID(ref)
  {
    hide WatchSecrets, SecretID;
    ignore := {};
    var value := TrimSpace(ValueOf(annotations, IGNORE_SECRETS));
    if value == "" {
      return;
    }
    var parsed := ParseWatchSecrets(cluster, namespace, value);
    if parsed.Err? {
      return;
    }
    var refs := parsed.value;
    for n := 0 to |refs|
      invariant ignore == set ref | ref in refs[..n] :: SecretID(ref)
    {
      ignore := ignore + {SecretID(refs[n])};
      assert refs[..n + 1] == refs[..n] + [refs[n]];
      assert forall ref :: ref in refs[..n + 1] <==> ref in refs[..n] || ref == refs[n];
    }
    assert refs[..|refs|] == refs;
  }

  // ----- Discovery modes -----

  predicate IsFalse(value: string) {
    var v := ToLower(TrimSpace(value));
    v == "false" || v == "0" || v == "no" || v == "off" || v == "disabled"
  }

  function DiscoveryModeFor(annotations: Values, fallback: DiscoveryMode): DiscoveryMode {
    if ENABLED in annotations && IsFalse(annotations[ENABLED]) then DISABLED
    else
      var v := ToLower(TrimSpace(ValueOf(annotations, DISCOVERY_MODE)));
      if v == "infer" then INFER
      else if v == "explicit" then EXPLICIT
      else if v == "hybrid" then HYBRID
      else if v == "disabled" then DISABLED
      else if fallback == "" then HYBRID
      else fallback
  }

  // ----- A workload's edges -----

  function Inferring(mode: DiscoveryMode): bool {
    mode == INFER || mode == HYBRID
  }

  function Explicating(mode: DiscoveryMode): bool {
    mode == EXPLICIT || mode == HYBRID
  }

  function References(opts: Options, w: WorkloadRef, spec: Spec, annotations: Values,
      decode: Decoder): seq<DependencyEdge>
  {
    var mode := DiscoveryModeFor(annotations, opts.defaultMode);
    (if Inferring(mode) then InferredEdges(opts, w, spec) else [])
    + (if Explicating(mode) then ExplicitEdges(opts.cluster, w, annotations, decode) else [])
  }

  function Ignored(opts: Options, w: WorkloadRef, annotations: Values): set<string> {
    set ref | ref in ListedRefs(opts.cluster, w.namespace, annotations, IGNORE_SECRETS) :: SecretID(ref)
  }

  /** The references that count, before those of one Secret are merged. */
  function KeptReferences(opts: Options, w: WorkloadRef, spec: Spec, annotations: Values,
      decode: Decoder): seq<DependencyEdge>
  {
    if DiscoveryModeFor(annotations, opts.defaultMode) == DISABLED then []
    else NotIgnored(References(opts, w, spec, annotations, decode), Ignored(opts, w, annotations))
  }

  // ----- Metadata -----

  const OWNER_TEAM := "kbeacon.io/owner-team"
  const CRITICALITY := "kbeacon.io/criticality"
  const SERVICE := "kbeacon.io/service"
  const ENVIRONMENT := "kbeacon.io/environment"

  const DEFAULT_LABEL_KEYS := LabelKeys(
    ["app.kubernetes.io/team", "team", "owner-team", "ownerTeam", "technical-owner", "technicalOwner",
     "business-owner", "businessOwner"],
    ["app.kubernetes.io/name", "app", "service", "service-name", "serviceName"],
    ["app.kubernetes.io/environment", "environment", "env", "stage"],
    ["app.kubernetes.io/criticality", "criticality", "priority", "tier", "slo-tier"])

  function WithDefaults(keys: LabelKeys): LabelKeys {
    LabelKeys(
      if keys.ownerTeam == [] then DEFAULT_LABEL_KEYS.ownerTeam else keys.ownerTeam,
      if keys.service == [] then DEFAULT_LABEL_KEYS.service else keys.service,
      if keys.environment == [] then DEFAULT_LABEL_KEYS.environment else keys.environment,
      if keys.criticality == [] then DEFAULT_LABEL_KEYS.criticality else keys.criticality)
  }

  /** The trimmed value of the first key that has one, "" if none does. */
  function FirstLabel(labels: Values, keys: seq<string>): string {
    if keys == [] then ""
    else if TrimSpace(ValueOf(labels, keys[0])) != "" then TrimSpace(ValueOf(labels, keys[0]))
    else FirstLabel(labels, keys[1..])
  }

  method FirstLabelValue(labels: Values, keys: seq<string>) returns (value: string)
    ensures value == FirstLabel(labels, keys)
  {
    hide TrimSpace;
    for n := 0 to |keys|
      invariant FirstLabel(labels, keys) == FirstLabel(labels, keys[n..])
    {
      assert keys[n..][1..] == keys[n + 1..];
      value := TrimSpace(ValueOf(labels, keys[n]));
      if value != "" {
        return;
      }
    }
    value := "";
  }

  /** An annotation comes before any label. */
  function MetadataOf(annotation: string, labels: Values, keys: seq<string>, enabled: bool): string {
    if TrimSpace(annotation) != "" then TrimSpace(annotation)
    else if enabled then FirstLabel(labels, keys)
    else ""
  }

  /** Nothing is found exactly when every place looked at is blank; else the first that is not blank is taken. */
  lemma {:induction false} MetadataIsFirst(annotation: string, labels: Values, keys: seq<string>, enabled: bool)
    ensures var v := MetadataOf(annotation, labels, keys, enabled);
            && (TrimSpace(annotation) != "" ==> v == TrimSpace(annotation))
            && (TrimSpace(annotation) == "" && !enabled ==> v == "")
            && (TrimSpace(annotation) == "" && enabled ==> IsFirstLabel(labels, keys, v))
  {
    FirstLabelIsFirst(labels, keys);
  }

  ghost predicate IsFirstLabel(labels: Values, keys: seq<string>, v: string) {
    if v == "" then forall n :: 0 <= n < |keys| ==> TrimSpace(ValueOf(labels, keys[n])) == ""
    else exists n :: 0 <= n < |keys| && TrimSpace(ValueOf(labels, keys[n])) == v
           && forall m :: 0 <= m < n ==> TrimSpace(ValueOf(labels, keys[m])) == ""
  }

  lemma {:induction false} FirstLabelIsFirst(labels: Values, keys: seq<string>)
    ensures IsFirstLabel(labels, keys, FirstLabel(labels, keys))
  {
    hide TrimSpace, ValueOf;
    if keys != [] && TrimSpace(ValueOf(labels, keys[0])) == "" {
      FirstLabelIsFirst(labels, keys[1..]);
      var v := FirstLabel(labels, keys[1..]);
      if v != "" {
        var n :| 0 <= n < |keys[1..]| && TrimSpace(ValueOf(labels, keys[1..][n])) == v
          && forall m :: 0 <= m < n ==> TrimSpace(ValueOf(labels, keys[1..][m])) == "";
        assert TrimSpace(ValueOf(labels, keys[n + 1])) == v;
        assert forall m :: 1 <= m < n + 1 ==> keys[m] == keys[1..][m - 1];
      } else {
        assert forall m :: 1 <= m < |keys| ==> keys[m] == keys[1..][m - 1];
      }
    }
  }

  method MetadataValue(annotation: string, labels: Values, keys: seq<string>, enabled: bool) returns (value: string)
    ensures value == MetadataOf(annotation, labels, keys, enabled)
  {
    value := TrimSpace(annotation);
    if value != "" {
      return;
    }
    if !enabled {
      return "";
    }
    value := FirstLabelValue(labels, keys);
  }

  /** A workload's input without its edges. */
  function Described(opts: Options, w: WorkloadRef, annotations: Values, labels: Values): WorkloadInput {
    var keys, enabled := WithDefaults(opts.metadataLabelKeys), opts.metadataLabelsEnabled;
    WorkloadInput(
      w,
      MetadataOf(ValueOf(annotations, OWNER_TEAM), labels, keys.ownerTeam, enabled),
      MetadataOf(ValueOf(annotations, SERVICE), labels, keys.service, enabled),
      MetadataOf(ValueOf(annotations, ENVIRONMENT), labels, keys.environment, enabled),
      MetadataOf(ValueOf(annotations, CRITICALITY), labels, keys.criticality, enabled),
      DiscoveryModeFor(annotations, opts.defaultMode),
      [])
  }

  method Describe(opts: Options, w: WorkloadRef, annotations: Values, labels: Values) returns (input: WorkloadInput)
    ensures input == Described(opts, w, annotations, labels)
  {
    hide MetadataOf, DiscoveryModeFor, WithDefaults;
    var keys, enabled := WithDefaults(opts.metadataLabelKeys), opts.metadataLabelsEnabled;
    var ownerTeam := MetadataValue(ValueOf(annotations, OWNER_TEAM), labels, keys.ownerTeam, enabled);
    var service := MetadataValue(ValueOf(annotations, SERVICE), labels, keys.service, enabled);
    var environment := MetadataValue(ValueOf(annotations, ENVIRONMENT), labels, keys.environment, enabled);
    var criticality := MetadataValue(ValueOf(annotations, CRITICALITY), labels, keys.criticality, enabled);
    input := WorkloadInput(w, ownerTeam, service, environment, criticality,
                           DiscoveryModeFor(annotations, opts.defaultMode), []);
  }

  /** What an object's own values leave open comes from its Pod template, if that is read. */
  function Effective(object_: Values, template: Values, includeTemplate: bool): Values {
    (if includeTemplate then template else map[]) + object_
  }

  /** The input of a workload: described, with the merged references that count in any order. */
  ghost predicate IsInput(opts: Options, w: WorkloadRef, annotations: Values, labels: Values, spec: Spec,
      decode: Decoder,
                          input: WorkloadInput) {
    && input.(edges := []) == Described(opts, w, annotations, labels)
    && Lists(input.edges, MergeAll(AtExtraction, KeptReferences(opts, w, spec, annotations, decode)))
  }

  method WorkloadFromPodSpec(opts: Options, w: WorkloadRef, objectAnnotations: Values, objectLabels: Values,
                             templateAnnotations: Values, templateLabels: Values, pod: PodSpec, decode: Decoder)
    returns (input: WorkloadInput)
    ensures IsInput(opts, w, Effective(objectAnnotations, templateAnnotations, opts.readPodTemplateAnnotations),
                    Effective(objectLabels, templateLabels, opts.readPodTemplateAnnotations), OfPod(pod), decode, input)
  {
    hide PodEdges, ExplicitEdges, ListedRefs, NotIgnored, Lists, MetadataOf;
    var annotations := Effective(objectAnnotations, templateAnnotations, opts.readPodTemplateAnnotations);
    var labels := Effective(objectLabels, templateLabels, opts.readPodTemplateAnnotations);
    var mode := DiscoveryModeFor(annotations, opts.defaultMode);
    input := Describe(opts, w, annotations, labels);
    if mode == DISABLED {
      NothingListed();
      return;
    }
    var ignore := IgnoredSecrets(opts.cluster, w.namespace, annotations);
    var edges: seq<DependencyEdge> := [];
    if mode == INFER || mode == HYBRID {
      edges := InferPodSpecEdges(opts, w, pod);
    }
    if mode == EXPLICIT || mode == HYBRID {
      var explicit := ExplicitAnnotationEdges(opts.cluster, w, annotations, decode);
      edges := edges + explicit;
    }
    assert edges == References(opts, w, OfPod(pod), annotations, decode);
    assert ignore == Ignored(opts, w, annotations);
    var merged := FilterAndMergeEdges(edges, ignore);
    input := input.(edges := merged);
  }

  method WorkloadFromIngress(opts: Options, w: WorkloadRef, annotations: Values, labels: Values, tls: seq<string>,
                             decode: Decoder)
    returns (input: WorkloadInput)
    ensures IsInput(opts, w, annotations, labels, OfIngress(tls), decode, input)
  {
    hide TlsEdges, ExplicitEdges, ListedRefs, NotIgnored, Lists, MetadataOf;
    var mode := DiscoveryModeFor(annotations, opts.defaultMode);
    input := Describe(opts, w, annotations, labels);
    if mode == DISABLED {
      NothingListed();
      return;
    }
    var ignore := IgnoredSecrets(opts.cluster, w.namespace, annotations);
    var edges: seq<DependencyEdge> := [];
    if mode == INFER || mode == HYBRID {
      edges := InferIngressEdges(opts, w, tls);
    }
    if mode == EXPLICIT || mode == HYBRID {
      var explicit := ExplicitAnnotationEdges(opts.cluster, w, annotations, decode);
      edges := edges + explicit;
    }
    assert edges == References(opts, w, OfIngress(tls), annotations, decode);
    assert ignore == Ignored(opts, w, annotations);
    var merged := FilterAndMergeEdges(edges, ignore);
    input := input.(edges := merged);
  }

  lemma NothingListed()
    ensures Lists([], MergeAll(AtExtraction, []))
  {}
}

/** Where each inferred reference stands in a specification, and what its edge says of that place. */
module Places {
  import opened Basics
  import opened GraphTypes
  import opened Ids
  import opened Merge
  import opened Extractor
  import opened Modes

  /** A reference by name, with the place it stands in. A source's path text is not modelled. */
  datatype Reference = Reference(name: string, optional: bool, source: DependencySource)

  /** The selector names a Secret, as an optional one only if it says so. */
  ghost predicate Selected(selector: Option<Selector>, r: Reference) {
    && selector.Some? && selector.value.name == r.name && r.name != ""
    && (r.optional <==> selector.value.optional == Some(true))
  }

  /** The place is in a container of the role: an environment variable, or all of them at once. */
  ghost predicate InContainer(role: Role, c: Container, r: Reference) {
    var main := if role == Init then "" else c.name;
    var init := if role == Init then c.name else "";
    || (exists v :: v in c.env && Selected(v.secretKeyRef, r) && r.source ==
          DependencySource("env.secretKeyRef", main, init, role == Ephemeral, "", v.name, "", ""))
    || (exists f :: f in c.envFrom && Selected(f.secretRef, r) && r.source ==
          DependencySource("envFrom.secretRef", main, init, role == Ephemeral, "", "", "", ""))
  }

  ghost predicate InVolume(v: Volume, r: Reference) {
    || (Selected(v.secret, r) && r.source == DependencySource("volumes.secret", "", "", false, v.name, "", "", ""))
    || (v.projected.Some? && (exists s :: s in v.projected.value && Selected(s, r)) && r.source ==
          DependencySource("volumes.projected.sources.secret", "", "", false, v.name, "", "", ""))
  }

  /** Pull Secrets are required; those of the service account count only where the Pod has none of its own. */
  ghost predicate InPullSecrets(opts: Options, namespace: string, pod: PodSpec, r: Reference) {
    opts.includeImagePullSecrets && !r.optional &&
    if pod.imagePullSecrets != [] then
      && r.name in pod.imagePullSecrets && r.name != ""
      && r.source == DependencySource("imagePullSecrets", "", "", false, "", "", "", "")
    else
      && r.name in ServiceAccountPullSecrets(opts, namespace, ServiceAccountName(pod.serviceAccountName))
      && r.source == DependencySource("serviceAccount.imagePullSecrets", "", "", false, "", "", "", "imagePullSecrets")
  }

  ghost predicate InContainers(role: Role, containers: seq<Container>, r: Reference) {
    exists c :: c in containers && InContainer(role, c, r)
  }

  ghost predicate InVolumes(volumes: seq<Volume>, r: Reference) {
    exists v :: v in volumes && InVolume(v, r)
  }

  ghost predicate InPod(opts: Options, namespace: string, pod: PodSpec, r: Reference) {
    || InContainers(Main, pod.containers, r)
    || (opts.includeInitContainers && InContainers(Init, pod.initContainers, r))
    || (opts.includeEphemeralContainers && InContainers(Ephemeral, pod.ephemeralContainers, r))
    || InVolumes(pod.volumes, r)
    || InPullSecrets(opts, namespace, pod, r)
  }

  ghost predicate InSpec(opts: Options, namespace: string, spec: Spec, r: Reference) {
    match spec
    case OfPod(pod) => InPod(opts, namespace, pod, r)
    case OfIngress(tls) =>
      && r.name in tls && r.name != "" && !r.optional
      && r.source == DependencySource("ingress.tls", "", "", false, "", "", "", "spec.tls.secretName")
  }

  // ----- The edges stand for exactly these -----

  ghost predicate StandsFor(e: DependencyEdge, r: Reference) {
    e.secret.name == r.name && e.optional == r.optional && e.sources == [r.source]
  }

  ghost predicate Has(es: seq<DependencyEdge>, r: Reference) {
    exists i :: 0 <= i < |es| && StandsFor(es[i], r)
  }

  lemma HasEither(a: seq<DependencyEdge>, b: seq<DependencyEdge>, r: Reference)
    ensures Has(a + b, r) <==> Has(a, r) || Has(b, r)
  {
    hide StandsFor;
    var c := a + b;
    assert forall i :: 0 <= i < |a| ==> c[i] == a[i];
    assert forall i :: 0 <= i < |b| ==> c[|a| + i] == b[i];
  }

  lemma HasNone(r: Reference)
    ensures !Has([], r)
  {}

  lemma SelectorIsSelected(opts: Options, w: WorkloadRef, selector: Option<Selector>, source: DependencySource,
                           r: Reference)
    ensures Has(SelectorEdges(opts, w, selector, source), r) <==> Selected(selector, r) && r.source == source
  {
    hide EdgeID;
    var es := SelectorEdges(opts, w, selector, source);
    if Selected(selector, r) && r.source == source {
      assert StandsFor(es[0], r);
    }
  }

  lemma {:induction false} EnvPlaces(opts: Options, w: WorkloadRef, role: Role, container: string, env: seq<EnvVar>,
                                     r: Reference)
    ensures Has(EnvEdges(opts, w, role, container, env), r) <==>
      exists v :: v in env && Selected(v.secretKeyRef, r)
                  && r.source == ContainerSource("env.secretKeyRef", role, container, v.name)
  {
    hide SelectorEdges, Has, Selected, ContainerSource;
    if env == [] {
      HasNone(r);
    } else {
      var init, item := env[..|env| - 1], env[|env| - 1];
      var source := ContainerSource("env.secretKeyRef", role, container, item.name);
      EnvPlaces(opts, w, role, container, init, r);
      SelectorIsSelected(opts, w, item.secretKeyRef, source, r);
      HasEither(EnvEdges(opts, w, role, container, init), SelectorEdges(opts, w, item.secretKeyRef, source), r);
      assert env == init + [item];
    }
  }

  lemma {:induction false} EnvFromPlaces(opts: Options, w: WorkloadRef, role: Role, container: string,
                                         envFrom: seq<EnvFrom>, r: Reference)
    ensures Has(EnvFromEdges(opts, w, role, container, envFrom), r) <==>
      exists f :: f in envFrom && Selected(f.secretRef, r)
                  && r.source == ContainerSource("envFrom.secretRef", role, container, "")
  {
    hide SelectorEdges, Has, Selected, ContainerSource;
    if envFrom == [] {
      HasNone(r);
    } else {
      var init, item := envFrom[..|envFrom| - 1], envFrom[|envFrom| - 1];
      var source := ContainerSource("envFrom.secretRef", role, container, "");
      EnvFromPlaces(opts, w, role, container, init, r);
      SelectorIsSelected(opts, w, item.secretRef, source, r);
      HasEither(EnvFromEdges(opts, w, role, container, init), SelectorEdges(opts, w, item.secretRef, source), r);
      assert envFrom == init + [item];
    }
  }

  lemma ContainerPlaces(opts: Options, w: WorkloadRef, role: Role, c: Container, r: Reference)
    ensures Has(EnvEdges(opts, w, role, c.name, c.env) + EnvFromEdges(opts, w, role, c.name, c.envFrom), r) <==>
      InContainer(role, c, r)
  {
    hide EnvEdges, EnvFromEdges, Has, Selected;
    EnvPlaces(opts, w, role, c.name, c.env, r);
    EnvFromPlaces(opts, w, role, c.name, c.envFrom, r);
    HasEither(EnvEdges(opts, w, role, c.name, c.env), EnvFromEdges(opts, w, role, c.name, c.envFrom), r);
  }

  lemma {:induction false} ContainersPlaces(opts: Options, w: WorkloadRef, role: Role, containers: seq<Container>,
                                            r: Reference)
    ensures Has(ContainerEdges(opts, w, role, containers), r) <==> InContainers(role, containers, r)
  {
    hide EnvEdges, EnvFromEdges, Has, InContainer;
    if containers == [] {
      HasNone(r);
    } else {
      var init, c := containers[..|containers| - 1], containers[|containers| - 1];
      ContainersPlaces(opts, w, role, init, r);
      ContainerPlaces(opts, w, role, c, r);
      HasEither(ContainerEdges(opts, w, role, init),
                EnvEdges(opts, w, role, c.name, c.env) + EnvFromEdges(opts, w, role, c.name, c.envFrom), r);
      assert containers == init + [c];
    }
  }

  lemma {:induction false} ProjectionPlaces(opts: Options, w: WorkloadRef, volume: string,
                                            sources: seq<Option<Selector>>, r: Reference)
    ensures Has(ProjectionEdges(opts, w, volume, sources), r) <==>
      (exists s :: s in sources && Selected(s, r))
      && r.source == DependencySource("volumes.projected.sources.secret", "", "", false, volume, "", "", "")
  {
    hide SelectorEdges, Has, Selected;
    if sources == [] {
      HasNone(r);
    } else {
      var init, item := sources[..|sources| - 1], sources[|sources| - 1];
      var source := Source("volumes.projected.sources.secret").(volume := volume);
      ProjectionPlaces(opts, w, volume, init, r);
      SelectorIsSelected(opts, w, item, source, r);
      HasEither(ProjectionEdges(opts, w, volume, init), SelectorEdges(opts, w, item, source), r);
      assert sources == init + [item];
    }
  }

  lemma {:induction false} VolumesPlaces(opts: Options, w: WorkloadRef, volumes: seq<Volume>, r: Reference)
    ensures Has(VolumeEdges(opts, w, volumes), r) || Has(ProjectedEdges(opts, w, volumes), r) <==> InVolumes(volumes, r)
  {
    hide SelectorEdges, ProjectionEdges, Has, Selected;
    if volumes == [] {
      HasNone(r);
    } else {
      var init, v := volumes[..|volumes| - 1], volumes[|volumes| - 1];
      var source := Source("volumes.secret").(volume := v.name);
      var projected := if v.projected.None? then [] else ProjectionEdges(opts, w, v.name, v.projected.value);
      VolumesPlaces(opts, w, init, r);
      SelectorIsSelected(opts, w, v.secret, source, r);
      HasNone(r);
      if v.projected.Some? {
        ProjectionPlaces(opts, w, v.name, v.projected.value, r);
      }
      assert InVolume(v, r) <==> Has(SelectorEdges(opts, w, v.secret, source), r) || Has(projected, r);
      hide InVolume;
      HasEither(VolumeEdges(opts, w, init), SelectorEdges(opts, w, v.secret, source), r);
      HasEither(ProjectedEdges(opts, w, init), projected, r);
      assert volumes == init + [v];
    }
  }

  /** Names that are taken as required references. */
  lemma {:induction false} PullSecretPlaces(opts: Options, w: WorkloadRef, names: seq<string>, r: Reference)
    ensures Has(PullSecretEdges(opts, w, names), r) <==>
      r.name in names && r.name != "" && !r.optional && r.source == Source("imagePullSecrets")
  {
    hide SelectorEdges, Has, Source;
    if names == [] {
      HasNone(r);
    } else {
      var init, last := names[..|names| - 1], names[|names| - 1];
      var selector := Some(Selector(last, None));
      PullSecretPlaces(opts, w, init, r);
      SelectorIsSelected(opts, w, selector, Source("imagePullSecrets"), r);
      HasEither(PullSecretEdges(opts, w, init), SelectorEdges(opts, w, selector, Source("imagePullSecrets")), r);
      assert names == init + [last];
    }
  }

  lemma {:induction false} TlsPlaces(opts: Options, w: WorkloadRef, tls: seq<string>, r: Reference)
    ensures Has(TlsEdges(opts, w, tls), r) <==>
      r.name in tls && r.name != "" && !r.optional && r.source == TLS_SOURCE
  {
    hide SelectorEdges, Has, Source;
    if tls == [] {
      HasNone(r);
    } else {
      var init, last := tls[..|tls| - 1], tls[|tls| - 1];
      var selector := Some(Selector(last, None));
      TlsPlaces(opts, w, init, r);
      SelectorIsSelected(opts, w, selector, TLS_SOURCE, r);
      HasEither(TlsEdges(opts, w, init), SelectorEdges(opts, w, selector, TLS_SOURCE), r);
      assert tls == init + [last];
    }
  }

  lemma AccountPlaces(opts: Options, w: WorkloadRef, names: seq<string>, r: Reference)
    ensures Has(AccountEdges(opts, w, names), r) <==> r.name in names && !r.optional && r.source == ACCOUNT_SOURCE
  {
    hide EdgeID;
    var es := AccountEdges(opts, w, names);
    if r.name in names && !r.optional && r.source == ACCOUNT_SOURCE {
      var i :| 0 <= i < |names| && names[i] == r.name;
      assert StandsFor(es[i], r);
    }
  }

  lemma PullPlaces(opts: Options, w: WorkloadRef, pod: PodSpec, r: Reference)
    ensures Has(PullEdges(opts, w, pod), r) <==> InPullSecrets(opts, w.namespace, pod, r)
  {
    hide PullSecretEdges, AccountEdges, Has, ServiceAccountPullSecrets, ServiceAccountName;
    HasNone(r);
    PullSecretPlaces(opts, w, pod.imagePullSecrets, r);
    AccountPlaces(opts, w, ServiceAccountPullSecrets(opts, w.namespace, ServiceAccountName(pod.serviceAccountName)), r);
  }

  lemma PodPlaces(opts: Options, w: WorkloadRef, pod: PodSpec, r: Reference)
    ensures Has(PodEdges(opts, w, pod), r) <==> InPod(opts, w.namespace, pod, r)
  {
    hide ContainerEdges, VolumeEdges, ProjectedEdges, PullEdges, Has, InContainers, InVolumes, InPullSecrets;
    var main := ContainerEdges(opts, w, Main, pod.containers);
    var inits := if opts.includeInitContainers then ContainerEdges(opts, w, Init, pod.initContainers) else [];
    var ephemerals := if opts.includeEphemeralContainers
      then ContainerEdges(opts, w, Ephemeral, pod.ephemeralContainers) else [];
    var volumes, projected, pulls := VolumeEdges(opts, w, pod.volumes), ProjectedEdges(opts, w, pod.volumes),
      PullEdges(opts, w, pod);
    HasNone(r);
    ContainersPlaces(opts, w, Main, pod.containers, r);
    ContainersPlaces(opts, w, Init, pod.initContainers, r);
    ContainersPlaces(opts, w, Ephemeral, pod.ephemeralContainers, r);
    VolumesPlaces(opts, w, pod.volumes, r);
    PullPlaces(opts, w, pod, r);
    HasEither(main, inits, r);
    HasEither(main + inits, ephemerals, r);
    HasEither(main + inits + ephemerals, volumes, r);
    HasEither(main + inits + ephemerals + volumes, projected, r);
    HasEither(main + inits + ephemerals + volumes + projected, pulls, r);
  }

  /**
   A reference is inferred exactly from each place that is looked at and names a Secret; its
   edge says whether the place calls it optional, and which place it is.
   */
  lemma InferredStandsForPlace(opts: Options, w: WorkloadRef, spec: Spec, r: Reference)
    ensures Has(InferredEdges(opts, w, spec), r) <==> InSpec(opts, w.namespace, spec, r)
  {
    hide PodEdges, TlsEdges, Has, InPod;
    match spec {
      case OfPod(pod) => PodPlaces(opts, w, pod, r);
      case OfIngress(tls) => TlsPlaces(opts, w, tls, r);
    }
  }

  // ----- The order in which they are found -----

  /** Containers come before ephemeral ones, those before volumes, projections and pull Secrets. */
  function Rank(source: DependencySource): nat {
    if source.sourceType in {"env.secretKeyRef", "envFrom.secretRef"} then (if source.ephemeral then 1 else 0)
    else if source.sourceType == "volumes.secret" then 2
    else if source.sourceType == "volumes.projected.sources.secret" then 3
    else 4
  }

  ghost predicate Ranked(es: seq<DependencyEdge>, low: nat, high: nat) {
    && (forall i :: 0 <= i < |es| ==> |es[i].sources| == 1 && low <= Rank(es[i].sources[0]) <= high)
    && (forall i, j :: 0 <= i <= j < |es| ==> Rank(es[i].sources[0]) <= Rank(es[j].sources[0]))
  }

  lemma RankedAppend(a: seq<DependencyEdge>, b: seq<DependencyEdge>, low: nat, mid: nat, high: nat)
    requires low <= mid <= high && Ranked(a, low, mid) && Ranked(b, mid, high)
    ensures Ranked(a + b, low, high)
  {
    hide Rank;
  }

  lemma SelectorIsRanked(opts: Options, w: WorkloadRef, selector: Option<Selector>, source: DependencySource, rank: nat)
    requires Rank(source) == rank
    ensures Ranked(SelectorEdges(opts, w, selector, source), rank, rank)
  {
    hide EdgeID, Rank;
  }

  lemma NoneIsRanked(rank: nat)
    ensures Ranked([], rank, rank)
  {}

  function RoleRank(role: Role): nat {
    if role == Ephemeral then 1 else 0
  }

  lemma {:induction false} EnvIsRanked(opts: Options, w: WorkloadRef, role: Role, container: string, env: seq<EnvVar>)
    ensures Ranked(EnvEdges(opts, w, role, container, env), RoleRank(role), RoleRank(role))
  {
    hide Ranked, SelectorEdges;
    var rank := RoleRank(role);
    NoneIsRanked(rank);
    if env != [] {
      var init, item := env[..|env| - 1], env[|env| - 1];
      var source := ContainerSource("env.secretKeyRef", role, container, item.name);
      EnvIsRanked(opts, w, role, container, init);
      SelectorIsRanked(opts, w, item.secretKeyRef, source, rank);
      RankedAppend(EnvEdges(opts, w, role, container, init), SelectorEdges(opts, w, item.secretKeyRef, source), rank,
                   rank, rank);
    }
  }

  lemma {:induction false} EnvFromIsRanked(opts: Options, w: WorkloadRef, role: Role, container: string,
                                           envFrom: seq<EnvFrom>)
    ensures Ranked(EnvFromEdges(opts, w, role, container, envFrom), RoleRank(role), RoleRank(role))
  {
    hide Ranked, SelectorEdges;
    var rank := RoleRank(role);
    NoneIsRanked(rank);
    if envFrom != [] {
      var init, item := envFrom[..|envFrom| - 1], envFrom[|envFrom| - 1];
      var source := ContainerSource("envFrom.secretRef", role, container, "");
      EnvFromIsRanked(opts, w, role, container, init);
      SelectorIsRanked(opts, w, item.secretRef, source, rank);
      RankedAppend(EnvFromEdges(opts, w, role, container, init), SelectorEdges(opts, w, item.secretRef, source), rank,
                   rank, rank);
    }
  }

  lemma {:induction false} ContainersAreRanked(opts: Options, w: WorkloadRef, role: Role, containers: seq<Container>)
    ensures Ranked(ContainerEdges(opts, w, role, containers), RoleRank(role), RoleRank(role))
  {
    hide EnvEdges, EnvFromEdges, Ranked;
    var rank := RoleRank(role);
    NoneIsRanked(rank);
    if containers != [] {
      var init, c := containers[..|containers| - 1], containers[|containers| - 1];
      var envs, froms := EnvEdges(opts, w, role, c.name, c.env), EnvFromEdges(opts, w, role, c.name, c.envFrom);
      ContainersAreRanked(opts, w, role, init);
      EnvIsRanked(opts, w, role, c.name, c.env);
      EnvFromIsRanked(opts, w, role, c.name, c.envFrom);
      RankedAppend(envs, froms, rank, rank, rank);
      RankedAppend(ContainerEdges(opts, w, role, init), envs + froms, rank, rank, rank);
    }
  }

  lemma {:induction false} ProjectionsAreRanked(opts: Options, w: WorkloadRef, volume: string,
                                                sources: seq<Option<Selector>>)
    ensures Ranked(ProjectionEdges(opts, w, volume, sources), 3, 3)
  {
    hide Ranked, SelectorEdges;
    NoneIsRanked(3);
    if sources != [] {
      var init, item := sources[..|sources| - 1], sources[|sources| - 1];
      var source := Source("volumes.projected.sources.secret").(volume := volume);
      ProjectionsAreRanked(opts, w, volume, init);
      SelectorIsRanked(opts, w, item, source, 3);
      RankedAppend(ProjectionEdges(opts, w, volume, init), SelectorEdges(opts, w, item, source), 3, 3, 3);
    }
  }

  lemma {:induction false} VolumesAreRanked(opts: Options, w: WorkloadRef, volumes: seq<Volume>)
    ensures Ranked(VolumeEdges(opts, w, volumes), 2, 2) && Ranked(ProjectedEdges(opts, w, volumes), 3, 3)
  {
    hide Ranked, SelectorEdges, ProjectionEdges;
    NoneIsRanked(2);
    NoneIsRanked(3);
    if volumes != [] {
      var init, v := volumes[..|volumes| - 1], volumes[|volumes| - 1];
      var source := Source("volumes.secret").(volume := v.name);
      var projected := if v.projected.None? then [] else ProjectionEdges(opts, w, v.name, v.projected.value);
      VolumesAreRanked(opts, w, init);
      SelectorIsRanked(opts, w, v.secret, source, 2);
      RankedAppend(VolumeEdges(opts, w, init), SelectorEdges(opts, w, v.secret, source), 2, 2, 2);
      if v.projected.Some? {
        ProjectionsAreRanked(opts, w, v.name, v.projected.value);
      }
      RankedAppend(ProjectedEdges(opts, w, init), projected, 3, 3, 3);
    }
  }

  lemma {:induction false} PullSecretsAreRanked(opts: Options, w: WorkloadRef, names: seq<string>)
    ensures Ranked(PullSecretEdges(opts, w, names), 4, 4)
  {
    hide Ranked, SelectorEdges;
    NoneIsRanked(4);
    if names != [] {
      var init, selector := names[..|names| - 1], Some(Selector(names[|names| - 1], None));
      PullSecretsAreRanked(opts, w, init);
      SelectorIsRanked(opts, w, selector, Source("imagePullSecrets"), 4);
      RankedAppend(PullSecretEdges(opts, w, init), SelectorEdges(opts, w, selector, Source("imagePullSecrets")), 4, 4,
                   4);
    }
  }

  lemma AccountsAreRanked(opts: Options, w: WorkloadRef, names: seq<string>)
    ensures Ranked(AccountEdges(opts, w, names), 4, 4)
  {
    hide EdgeID, Rank;
    assert Rank(ACCOUNT_SOURCE) == 4 by { AccountRank(); }
  }

  lemma AccountRank()
    ensures Rank(ACCOUNT_SOURCE) == 4
  {}

  /** References of a Pod spec are found section by section. */
  lemma PodIsSearchedInOrder(opts: Options, w: WorkloadRef, pod: PodSpec)
    ensures Ranked(PodEdges(opts, w, pod), 0, 4)
  {
    hide ContainerEdges, VolumeEdges, ProjectedEdges, PullSecretEdges, AccountEdges, Ranked, ServiceAccountName,
         ServiceAccountPullSecrets;
    var main := ContainerEdges(opts, w, Main, pod.containers);
    var inits := if opts.includeInitContainers then ContainerEdges(opts, w, Init, pod.initContainers) else [];
    var ephemerals := if opts.includeEphemeralContainers
      then ContainerEdges(opts, w, Ephemeral, pod.ephemeralContainers) else [];
    var volumes, projected, pulls := VolumeEdges(opts, w, pod.volumes), ProjectedEdges(opts, w, pod.volumes),
      PullEdges(opts, w, pod);
    ContainersAreRanked(opts, w, Main, pod.containers);
    ContainersAreRanked(opts, w, Init, pod.initContainers);
    ContainersAreRanked(opts, w, Ephemeral, pod.ephemeralContainers);
    VolumesAreRanked(opts, w, pod.volumes);
    PullSecretsAreRanked(opts, w, pod.imagePullSecrets);
    AccountsAreRanked(opts, w,
      ServiceAccountPullSecrets(opts, w.namespace, ServiceAccountName(pod.serviceAccountName)));
    NoneIsRanked(0);
    NoneIsRanked(1);
    NoneIsRanked(4);
    RankedAppend(main, inits, 0, 0, 0);
    RankedAppend(main + inits, ephemerals, 0, 0, 1) by { Wider(ephemerals, 1, 1, 0, 1); }
    RankedAppend(main + inits + ephemerals, volumes, 0, 1, 2) by { Wider(volumes, 2, 2, 1, 2); }
    RankedAppend(main + inits + ephemerals + volumes, projected, 0, 2, 3) by { Wider(projected, 3, 3, 2, 3); }
    RankedAppend(main + inits + ephemerals + volumes + projected, pulls, 0, 3, 4) by { Wider(pulls, 4, 4, 3, 4); }
  }

  lemma Wider(es: seq<DependencyEdge>, low: nat, high: nat, lower: nat, higher: nat)
    requires Ranked(es, low, high) && lower <= low && high <= higher
    ensures Ranked(es, lower, higher)
  {}

  // ----- What a merged edge tells of all its places -----

  ghost predicate InAnnotation(refs: seq<SecretRef>, annotation: string, s: SecretRef, optional: bool,
                               source: DependencySource)
  {
    && !optional && source == DependencySource("annotation", "", "", false, "", "", annotation, "")
    && exists ref :: ref in refs && SameSecret(ref, s)
  }

  /** A place that counts in the mode names the Secret: one of the specification, or one of the two lists. */
  ghost predicate Counted(opts: Options, w: WorkloadRef, annotations: Values, spec: Spec, decode: Decoder,
                          mode: DiscoveryMode, s: SecretRef, optional: bool, source: DependencySource)
  {
    && SecretID(s) !in Ignored(opts, w, annotations)
    && (|| (mode in {"infer", "hybrid"} && s.namespace == w.namespace
            && InSpec(opts, w.namespace, spec, Reference(s.name, optional, source)))
        || (mode in {"explicit", "hybrid"} && (
              || InAnnotation(ListedRefs(opts.cluster, w.namespace, annotations, "kbeacon.io/watch-secrets"),
                              "kbeacon.io/watch-secrets", s, optional, source)
              || InAnnotation(DecodedRefs(opts.cluster, w.namespace, annotations, decode),
                              "kbeacon.io/watch-secrets-json", s, optional, source))))
  }

  ghost predicate IsFrom(e: DependencyEdge, s: SecretRef, optional: bool, source: DependencySource) {
    SameSecret(e.secret, s) && e.optional == optional && e.sources == [source]
  }

  ghost predicate HasFrom(es: seq<DependencyEdge>, s: SecretRef, optional: bool, source: DependencySource) {
    exists i :: 0 <= i < |es| && IsFrom(es[i], s, optional, source)
  }

  lemma HasFromEither(a: seq<DependencyEdge>, b: seq<DependencyEdge>, s: SecretRef, optional: bool,
                      source: DependencySource)
    ensures HasFrom(a + b, s, optional, source) <==> HasFrom(a, s, optional, source) || HasFrom(b, s, optional, source)
  {
    hide IsFrom;
    var c := a + b;
    assert forall i :: 0 <= i < |a| ==> c[i] == a[i];
    assert forall i :: 0 <= i < |b| ==> c[|a| + i] == b[i];
  }

  lemma InferredFrom(opts: Options, w: WorkloadRef, spec: Spec, s: SecretRef, optional: bool, source: DependencySource)
    ensures HasFrom(InferredEdges(opts, w, spec), s, optional, source) <==>
      s.namespace == w.namespace && InSpec(opts, w.namespace, spec, Reference(s.name, optional, source))
  {
    hide InferredEdges, InSpec, SpecNames, Made;
    var es, r := InferredEdges(opts, w, spec), Reference(s.name, optional, source);
    InferredStandsForPlace(opts, w, spec, r);
    InferredIsNamed(opts, w, spec, s.name);
    assert forall i :: 0 <= i < |es| ==>
      (IsFrom(es[i], s, optional, source) <==> s.namespace == w.namespace && StandsFor(es[i], r));
  }

  lemma AnnotatedFrom(cluster: string, w: WorkloadRef, refs: seq<SecretRef>, annotation: string, s: SecretRef,
                      optional: bool, source: DependencySource)
    ensures HasFrom(AnnotationEdges(cluster, w, refs, annotation), s, optional, source) <==>
      InAnnotation(refs, annotation, s, optional, source)
  {
    hide EdgeID;
    var es := AnnotationEdges(cluster, w, refs, annotation);
    if InAnnotation(refs, annotation, s, optional, source) {
      var ref :| ref in refs && SameSecret(ref, s);
      var i :| 0 <= i < |refs| && refs[i] == ref;
      assert IsFrom(es[i], s, optional, source);
    }
    if i :| 0 <= i < |es| && IsFrom(es[i], s, optional, source) {
      assert refs[i] in refs && SameSecret(refs[i], s);
    }
  }

  lemma KeptIsCounted(opts: Options, w: WorkloadRef, annotations: Values, spec: Spec, decode: Decoder, s: SecretRef,
                      optional: bool, source: DependencySource)
    ensures HasFrom(KeptReferences(opts, w, spec, annotations, decode), s, optional, source) <==>
      Counted(opts, w, annotations, spec, decode, DiscoveryModeFor(annotations, opts.defaultMode), s, optional, source)
  {
    hide InferredEdges, AnnotationEdges, InSpec, InAnnotation, DiscoveryModeFor, HasFrom, ListedRefs, DecodedRefs,
         SecretID, Ignored, NotIgnored;
    var mode, ignore := DiscoveryModeFor(annotations, opts.defaultMode), Ignored(opts, w, annotations);
    var inferred := InferredEdges(opts, w, spec);
    var listed := AnnotationEdges(opts.cluster, w,
      ListedRefs(opts.cluster, w.namespace, annotations, WATCH_SECRETS), WATCH_SECRETS);
    var decoded := AnnotationEdges(opts.cluster, w,
      DecodedRefs(opts.cluster, w.namespace, annotations, decode), WATCH_SECRETS_JSON);
    InferredFrom(opts, w, spec, s, optional, source);
    AnnotatedFrom(opts.cluster, w, ListedRefs(opts.cluster, w.namespace, annotations, WATCH_SECRETS), WATCH_SECRETS,
                  s, optional, source);
    AnnotatedFrom(opts.cluster, w, DecodedRefs(opts.cluster, w.namespace, annotations, decode), WATCH_SECRETS_JSON,
                  s, optional, source);
    HasFromEither(listed, decoded, s, optional, source);
    HasFromEither(inferred, listed + decoded, s, optional, source);
    NoneFrom(s, optional, source);
    var es := References(opts, w, spec, annotations, decode);
    assert inferred + [] == inferred && [] + (listed + decoded) == listed + decoded;
    assert mode == INFER ==> es == inferred;
    assert mode == EXPLICIT ==> es == listed + decoded;
    assert mode == HYBRID ==> es == inferred + (listed + decoded);
    assert mode !in {INFER, EXPLICIT, HYBRID} ==> es == [];
    KeptFrom(es, ignore, s, optional, source);
  }

  lemma NoneFrom(s: SecretRef, optional: bool, source: DependencySource)
    ensures !HasFrom([], s, optional, source)
  {}

  lemma KeptFrom(es: seq<DependencyEdge>, ignore: set<string>, s: SecretRef, optional: bool, source: DependencySource)
    ensures HasFrom(NotIgnored(es, ignore), s, optional, source) <==>
      HasFrom(es, s, optional, source) && SecretID(s) !in ignore
  {
    hide NotIgnored;
    var kept := NotIgnored(es, ignore);
    if i :| 0 <= i < |kept| && IsFrom(kept[i], s, optional, source) {
      assert kept[i] in kept;
      var j :| 0 <= j < |es| && es[j] == kept[i];
    }
    if i :| 0 <= i < |es| && IsFrom(es[i], s, optional, source) {
      assert es[i] in es;
      if SecretID(s) !in ignore {
        assert es[i] in kept;
        var j :| 0 <= j < |kept| && kept[j] == es[i];
      }
    }
  }

  lemma {:induction false} GroupMember(es: seq<DependencyEdge>, id: string, e: DependencyEdge)
    ensures e in Group(es, id) <==> e in es && e.id == id
  {
    if es != [] {
      GroupMember(es[..|es| - 1], id, e);
      assert es == es[..|es| - 1] + [es[|es| - 1]];
    }
  }

  lemma {:induction false} SourcesMember(g: seq<DependencyEdge>, source: DependencySource)
    ensures source in AllSources(g) <==> exists e :: e in g && source in e.sources
  {
    if g != [] {
      SourcesMember(g[..|g| - 1], source);
      assert g == g[..|g| - 1] + [g[|g| - 1]];
    }
  }

  /** Every reference is keyed by its own Secret and has one source. */
  lemma KeptAreSingle(opts: Options, w: WorkloadRef, annotations: Values, spec: Spec, decode: Decoder)
    ensures forall e :: e in KeptReferences(opts, w, spec, annotations, decode) ==>
      e.id == EdgeID(w, e.secret) && |e.sources| == 1
  {
    hide InferredEdges, ExplicitEdges, EdgeID, DiscoveryModeFor, ExplicitRefs, SpecNames, HasName, Ignored, NotIgnored;
    InferredIsNamed(opts, w, spec, "");
    ExplicitHasSecret(opts, w, annotations, decode, SecretRef("", "", "", ""));
  }

  /** Some Secret with the edge's key is named, in a way that counts, at the place. */
  ghost predicate CountedFor(opts: Options, w: WorkloadRef, annotations: Values, spec: Spec, decode: Decoder,
                             mode: DiscoveryMode, e: DependencyEdge, optional: bool, source: DependencySource)
  {
    exists s :: SecretTail(s) == SecretTail(e.secret)
                && Counted(opts, w, annotations, spec, decode, mode, s, optional, source)
  }

  /**
   In any mode, an extracted edge lists as its sources exactly the places that count and name
   a Secret of its key, and is optional exactly when each of them calls it so.
   */
  lemma EdgeTellsItsPlaces(opts: Options, w: WorkloadRef, annotations: Values, labels: Values, spec: Spec,
                           decode: Decoder, input: WorkloadInput, n: nat)
    requires IsInput(opts, w, annotations, labels, spec, decode, input) && n < |input.edges|
    ensures
      var e := input.edges[n];
      && (forall source :: source in e.sources <==> exists optional ::
            CountedFor(opts, w, annotations, spec, decode, input.discoveryMode, e, optional, source))
      && (e.optional <==> forall optional, source ::
            CountedFor(opts, w, annotations, spec, decode, input.discoveryMode, e, optional, source) ==> optional)
  {
    hide DiscoveryModeFor, MergeAll, Lists, KeptReferences, Counted, EdgeID, SecretTail, MetadataOf, WithDefaults,
         OneMode, AllSources, Group;
    var kept, e := KeptReferences(opts, w, spec, annotations, decode), input.edges[n];
    assert input.discoveryMode == input.(edges := []).discoveryMode;
    var g := KeptGroup(opts, w, annotations, spec, decode, input.edges, n);
    forall optional, source
      ensures CountedFor(opts, w, annotations, spec, decode, input.discoveryMode, e, optional, source) <==>
              exists x :: x in g && x.optional == optional && x.sources == [source]
    {
      GroupIsCounted(opts, w, annotations, spec, decode, g, e, optional, source);
    }
    forall source ensures source in e.sources <==> exists optional ::
      CountedFor(opts, w, annotations, spec, decode, input.discoveryMode, e, optional, source)
    {
      SourcesMember(g, source);
      if x :| x in g && source in x.sources {
        assert x.sources == [source];
        assert CountedFor(opts, w, annotations, spec, decode, input.discoveryMode, e, x.optional, source);
      }
    }
    forall x | x in g
      ensures CountedFor(opts, w, annotations, spec, decode, input.discoveryMode, e, x.optional, x.sources[0])
    {
      assert x.sources == [x.sources[0]];
    }
  }

  /** The references that were merged into the edge. */
  lemma KeptGroup(opts: Options, w: WorkloadRef, annotations: Values, spec: Spec, decode: Decoder,
                  out: seq<DependencyEdge>, n: nat) returns (g: seq<DependencyEdge>)
    requires n < |out| && Lists(out, MergeAll(AtExtraction, KeptReferences(opts, w, spec, annotations, decode)))
    ensures g == Group(KeptReferences(opts, w, spec, annotations, decode), EdgeID(w, out[n].secret))
    ensures forall x :: x in g ==> |x.sources| == 1
    ensures out[n].sources == AllSources(g) && (out[n].optional <==> forall x :: x in g ==> x.optional)
  {
    hide MergeAll, KeptReferences, EdgeID, OneMode, AllSources, Group;
    var kept := KeptReferences(opts, w, spec, annotations, decode);
    g := Group(kept, out[n].id);
    KeptAreSingle(opts, w, annotations, spec, decode);
    MergeAllFoldsGroups(AtExtraction, kept, out[n].id);
    FoldIsMerge(AtExtraction, g);
    forall x ensures x in g <==> x in kept && x.id == out[n].id { GroupMember(kept, out[n].id, x); }
    assert g[0] in g;
  }

  lemma GroupIsCounted(opts: Options, w: WorkloadRef, annotations: Values, spec: Spec, decode: Decoder,
                       g: seq<DependencyEdge>, e: DependencyEdge, optional: bool, source: DependencySource)
    requires g == Group(KeptReferences(opts, w, spec, annotations, decode), EdgeID(w, e.secret))
    ensures
      CountedFor(opts, w, annotations, spec, decode, DiscoveryModeFor(annotations, opts.defaultMode), e, optional,
                 source)
      <==> exists x :: x in g && x.optional == optional && x.sources == [source]
  {
    hide DiscoveryModeFor, KeptReferences, Counted, EdgeID, SecretTail, Group;
    var kept, mode := KeptReferences(opts, w, spec, annotations, decode),
      DiscoveryModeFor(annotations, opts.defaultMode);
    KeptAreSingle(opts, w, annotations, spec, decode);
    forall x ensures x in g <==> x in kept && x.id == EdgeID(w, e.secret) { GroupMember(kept, EdgeID(w, e.secret), x); }
    if x :| x in g && x.optional == optional && x.sources == [source] {
      EdgeIDIsTail(w, x.secret, e.secret);
      KeptIsCounted(opts, w, annotations, spec, decode, x.secret, optional, source);
      var i :| 0 <= i < |kept| && kept[i] == x;
      assert IsFrom(kept[i], x.secret, optional, source);
    }
    if CountedFor(opts, w, annotations, spec, decode, mode, e, optional, source) {
      var s :| SecretTail(s) == SecretTail(e.secret)
               && Counted(opts, w, annotations, spec, decode, mode, s, optional, source);
      KeptIsCounted(opts, w, annotations, spec, decode, s, optional, source);
      var i :| 0 <= i < |kept| && IsFrom(kept[i], s, optional, source);
      SameTail(kept[i].secret, s);
      EdgeIDIsTail(w, kept[i].secret, e.secret);
      assert kept[i] in kept && kept[i] in g;
    }
  }

  lemma SameTail(s: SecretRef, t: SecretRef)
    requires SameSecret(s, t)
    ensures SecretTail(s) == SecretTail(t)
  {}
}

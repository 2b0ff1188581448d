/**
 From specifications to the graph: what the extractors hand to the cache is what the cache
 asks for, and the graph then holds an edge exactly where a specification names a Secret.
 */
module Pipeline {
  import opened Text
  import opened GraphTypes
  import opened Ids
  import opened Merge
  import opened GraphSpec
  import opened Consistency
  import opened History
  import opened Laws
  import opened Premerge
  import opened Queries
  import opened Provenance
  import opened Annotations
  import opened Extractor
  import opened Modes

  /** What one workload's edges are extracted from. The annotations are the effective ones. */
  datatype Subject = Subject(w: WorkloadRef, annotations: Values, labels: Values, spec: Spec)

  function ReferencesOf(opts: Options, decode: Decoder, x: Subject): seq<DependencyEdge> {
    References(opts, x.w, x.spec, x.annotations, decode)
  }

  /** An input that extraction can make: its edges come in any order. */
  ghost predicate ExtractedFrom(opts: Options, decode: Decoder, x: Subject, input: WorkloadInput) {
    IsInput(opts, x.w, x.annotations, x.labels, x.spec, decode, input)
  }

  /** Extraction makes such an input of any subject. */
  method Extract(opts: Options, decode: Decoder, x: Subject) returns (input: WorkloadInput)
    ensures ExtractedFrom(opts, decode, x, input)
  {
    hide IsInput;
    match x.spec {
      case OfPod(pod) =>
        assert Effective(x.annotations, map[], opts.readPodTemplateAnnotations) == x.annotations;
        assert Effective(x.labels, map[], opts.readPodTemplateAnnotations) == x.labels;
        input := WorkloadFromPodSpec(opts, x.w, x.annotations, x.labels, map[], map[], pod, decode);
      case OfIngress(tls) =>
        input := WorkloadFromIngress(opts, x.w, x.annotations, x.labels, tls, decode);
    }
  }

  // ----- References written in annotations never have a '/' in their namespace -----

  lemma TokenHasNoSlash(cluster: string, namespace: string, token: string)
    requires '/' !in namespace
    ensures TokenRef(cluster, namespace, token).Ok? ==> '/' !in TokenRef(cluster, namespace, token).value.namespace
  {}

  lemma ListedHaveNoSlash(cluster: string, namespace: string, annotations: Values, key: string)
    requires '/' !in namespace
    ensures forall ref :: ref in ListedRefs(cluster, namespace, annotations, key) ==> '/' !in ref.namespace
  {
    hide TokenRef, TokenRefs, Split, TrimSpace;
    var value := TrimSpace(ValueOf(annotations, key));
    var refs := ListedRefs(cluster, namespace, annotations, key);
    if refs != [] {
      var parts := Split(value, ',');
      ListParsesByToken(cluster, namespace, parts, refs);
      forall i | 0 <= i < |refs| ensures '/' !in refs[i].namespace {
        TokenHasNoSlash(cluster, namespace, TrimSpace(parts[i]));
      }
    }
  }

  lemma {:induction false} GoodHaveNoSlash(cluster: string, namespace: string, tokens: seq<string>)
    requires '/' !in namespace
    ensures forall ref :: ref in GoodRefs(cluster, namespace, tokens) ==> '/' !in ref.namespace
  {
    hide TokenRef;
    if tokens != [] {
      GoodHaveNoSlash(cluster, namespace, tokens[..|tokens| - 1]);
      TokenHasNoSlash(cluster, namespace, tokens[|tokens| - 1]);
    }
  }

  lemma ExplicitHaveNoSlash(cluster: string, namespace: string, annotations: Values, decode: Decoder)
    requires '/' !in namespace
    ensures forall ref :: ref in ExplicitRefs(cluster, namespace, annotations, decode) ==> '/' !in ref.namespace
  {
    hide TokenRef, ListedRefs, GoodRefs, TrimSpace;
    ListedHaveNoSlash(cluster, namespace, annotations, WATCH_SECRETS);
    forall tokens ensures forall ref :: ref in GoodRefs(cluster, namespace, tokens) ==> '/' !in ref.namespace {
      GoodHaveNoSlash(cluster, namespace, tokens);
    }
  }

  // ----- What every extracted edge is like -----

  ghost predicate Fit(cluster: string, w: WorkloadRef, e: DependencyEdge) {
    && e.workload == w && e.id == EdgeID(w, e.secret)
    && e.secret.cluster == cluster && e.secret.key == "" && '/' !in e.secret.namespace
    && e.discoveryMode != "" && !e.resolved && e.ownerTeam == "" && e.criticality == ""
  }

  lemma ReferencesFit(opts: Options, decode: Decoder, x: Subject)
    requires '/' !in x.w.namespace
    ensures forall e :: e in ReferencesOf(opts, decode, x) ==> Fit(opts.cluster, x.w, e)
  {
    hide InferredEdges, ExplicitEdges, EdgeID, DiscoveryModeFor, ExplicitRefs, SpecNames, HasName;
    var inferred, explicit := InferredEdges(opts, x.w, x.spec), ExplicitEdges(opts.cluster, x.w, x.annotations, decode);
    InferredIsNamed(opts, x.w, x.spec, "");
    ExplicitHasSecret(opts, x.w, x.annotations, decode, SecretRef("", "", "", ""));
    ExplicitHaveNoSlash(opts.cluster, x.w.namespace, x.annotations, decode);
    forall e | e in explicit ensures '/' !in e.secret.namespace {
      ExplicitHasSecret(opts, x.w, x.annotations, decode, e.secret);
      var i :| 0 <= i < |explicit| && explicit[i] == e;
      assert SameSecret(explicit[i].secret, e.secret);
    }
  }

  /** The first reference of a merged edge: the edge takes all from it but what merging joins. */
  lemma MergedFrom(es: seq<DependencyEdge>, ignore: set<string>, out: seq<DependencyEdge>, n: nat)
    returns (r: DependencyEdge)
    requires Lists(out, MergeAll(AtExtraction, NotIgnored(es, ignore))) && n < |out|
    ensures r in es && SecretID(r.secret) !in ignore
    ensures out[n].discoveryMode == r.discoveryMode || out[n].discoveryMode == HYBRID
    ensures out[n] == r.(sources := out[n].sources, optional := out[n].optional, discoveryMode := out[n].discoveryMode)
  {
    hide NotIgnored, MergeAll, Lists, SecretID, OneMode, AllSources;
    FilterAndMergeIsExact(es, ignore, out);
    var g := Group(NotIgnored(es, ignore), out[n].id);
    r := g[0];
    assert r in NotIgnored(es, ignore);
  }

  lemma KeptAreNotIgnored(opts: Options, decode: Decoder, x: Subject)
    ensures KeptReferences(opts, x.w, x.spec, x.annotations, decode) ==
      NotIgnored(ReferencesOf(opts, decode, x), Ignored(opts, x.w, x.annotations))
  {}

  /** Whatever the specification and the annotations hold, an extracted edge is fit for the cache. */
  lemma ExtractedIsFit(opts: Options, decode: Decoder, x: Subject, input: WorkloadInput, n: nat)
    requires ExtractedFrom(opts, decode, x, input) && '/' !in x.w.namespace && n < |input.edges|
    ensures Fit(opts.cluster, x.w, input.edges[n])
  {
    hide ReferencesOf, NotIgnored, MergeAll, KeptReferences, Ignored, Lists, EdgeID, DiscoveryModeFor;
    KeptAreNotIgnored(opts, decode, x);
    ReferencesFit(opts, decode, x);
    var r := MergedFrom(ReferencesOf(opts, decode, x), Ignored(opts, x.w, x.annotations), input.edges, n);
  }

  /** No annotation text can make a missing Secret's record ambiguous. */
  lemma ExtractedIsUnambiguous(opts: Options, decode: Decoder, xs: seq<Subject>, inputs: seq<WorkloadInput>)
    requires |xs| == |inputs| && forall i :: 0 <= i < |xs| ==>
      ExtractedFrom(opts, decode, xs[i], inputs[i]) && '/' !in xs[i].w.namespace
    ensures UnambiguousSecrets(inputs)
  {
    hide ExtractedFrom;
    forall i, e | 0 <= i < |inputs| && e in inputs[i].edges ensures '/' !in e.secret.namespace {
      var n :| 0 <= n < |inputs[i].edges| && inputs[i].edges[n] == e;
      ExtractedIsFit(opts, decode, xs[i], inputs[i], n);
    }
  }

  /** A workload of the agent's cluster, named as Kubernetes names them. What it refers to may be anything. */
  predicate Clean(opts: Options, x: Subject) {
    WellNamedWorkload(x.w) && x.w.cluster == opts.cluster
  }

  lemma ExtractedMeetsDemands(opts: Options, decode: Decoder, x: Subject, input: WorkloadInput)
    requires Clean(opts, x) && ExtractedFrom(opts, decode, x, input)
    ensures WellFormedInput(input) && AllExtracted(opts.cluster, input.edges)
    ensures forall n :: 0 <= n < |input.edges| ==>
      input.edges[n].id == EdgeID(x.w, input.edges[n].secret) && input.edges[n].ownerTeam == ""
  {
    hide ExtractedFrom, EdgeID;
    assert input.ref == x.w by { RefIsKept(opts, decode, x, input); }
    forall n | 0 <= n < |input.edges| ensures Fit(opts.cluster, x.w, input.edges[n]) {
      ExtractedIsFit(opts, decode, x, input, n);
    }
    forall n | 0 <= n < |input.edges| ensures Extracted(opts.cluster, input.edges[n]) {
      var e := input.edges[n];
      assert Fit(opts.cluster, x.w, e);
      assert e.workload.(cluster := opts.cluster) == e.workload
        && e.secret.(cluster := opts.cluster, key := "") == e.secret;
    }
  }

  lemma RefIsKept(opts: Options, decode: Decoder, x: Subject, input: WorkloadInput)
    requires ExtractedFrom(opts, decode, x, input)
    ensures input.ref == x.w
  {
    hide Lists, MergeAll, KeptReferences, DiscoveryModeFor;
    assert input.ref == input.(edges := []).ref;
  }

  // ----- What the graph holds -----

  /** The workload's own mode lets a naming of the Secret count, and the Secret is not an ignored one. */
  ghost predicate Counts(opts: Options, decode: Decoder, x: Subject, s: SecretRef) {
    var mode := DiscoveryModeFor(x.annotations, opts.defaultMode);
    && SecretID(s) !in Ignored(opts, x.w, x.annotations)
    && (|| (Inferring(mode) && InferredNames(opts, x.w, x.spec, s))
        || (Explicating(mode) && ExplicitNames(opts, x.w, x.annotations, decode, s)))
  }

  lemma ReferencesHaveSecret(opts: Options, decode: Decoder, x: Subject, s: SecretRef)
    ensures
      var mode := DiscoveryModeFor(x.annotations, opts.defaultMode);
      HasSecret(ReferencesOf(opts, decode, x), s) <==>
        || (Inferring(mode) && InferredNames(opts, x.w, x.spec, s))
        || (Explicating(mode) && ExplicitNames(opts, x.w, x.annotations, decode, s))
  {
    hide InferredEdges, ExplicitEdges, DiscoveryModeFor, InferredNames, ExplicitNames, SameSecret;
    InferredHasSecret(opts, x.w, x.spec, s);
    ExplicitHasSecret(opts, x.w, x.annotations, decode, s);
    HasSecretOfAppend(InferredEdges(opts, x.w, x.spec), ExplicitEdges(opts.cluster, x.w, x.annotations, decode), s);
    assert InferredEdges(opts, x.w, x.spec) + [] == InferredEdges(opts, x.w, x.spec);
    assert [] + ExplicitEdges(opts.cluster, x.w, x.annotations, decode) ==
      ExplicitEdges(opts.cluster, x.w, x.annotations, decode);
  }

  lemma HasSecretOfAppend(a: seq<DependencyEdge>, b: seq<DependencyEdge>, s: SecretRef)
    ensures HasSecret(a + b, s) <==> HasSecret(a, s) || HasSecret(b, s)
  {
    var c := a + b;
    assert forall i :: 0 <= i < |a| ==> c[i] == a[i];
    assert forall i :: 0 <= i < |b| ==> c[|a| + i] == b[i];
  }

  /** A naming that counts of a Secret with the same edge key. */
  ghost predicate CountsLike(opts: Options, decode: Decoder, x: Subject, s: SecretRef) {
    exists t :: Counts(opts, decode, x, t) && SecretTail(t) == SecretTail(s)
  }

  lemma ReferencesHaveTail(opts: Options, decode: Decoder, x: Subject, s: SecretRef)
    ensures HasTail(ReferencesOf(opts, decode, x), Ignored(opts, x.w, x.annotations), s) <==>
      CountsLike(opts, decode, x, s)
  {
    hide ReferencesOf, Ignored, InferredNames, ExplicitNames, HasSecret, HasTail, SecretTail, SecretID,
         DiscoveryModeFor;
    var es, ignore := ReferencesOf(opts, decode, x), Ignored(opts, x.w, x.annotations);
    if HasTail(es, ignore, s) {
      var t := TailWitness(es, ignore, s);
      ReferencesHaveSecret(opts, decode, x, t);
      assert Counts(opts, decode, x, t);
    }
    if t :| Counts(opts, decode, x, t) && SecretTail(t) == SecretTail(s) {
      ReferencesHaveSecret(opts, decode, x, t);
      SecretHasTail(es, ignore, s, t);
    }
  }

  /** Where a Secret's key is clear, only its own namings count for it. */
  lemma CountsAlone(opts: Options, decode: Decoder, x: Subject, s: SecretRef)
    requires Clear(opts, x.w, x.annotations, decode, s)
    ensures CountsLike(opts, decode, x, s) <==> Counts(opts, decode, x, s)
  {
    hide Ignored, SecretTail, SecretID, DiscoveryModeFor, SpecNames, ExplicitRefs, Collide, ExplicitNames;
    if t :| Counts(opts, decode, x, t) && SecretTail(t) == SecretTail(s) {
      CountsInNamespace(opts, decode, x, t);
      TailsMeet(t, s);
      CountsOfSame(opts, decode, x, s, t);
    }
  }

  lemma CountsOfSame(opts: Options, decode: Decoder, x: Subject, s: SecretRef, t: SecretRef)
    requires Counts(opts, decode, x, t) && SameSecret(s, t)
    ensures Counts(opts, decode, x, s)
  {
    hide Ignored, DiscoveryModeFor, SpecNames, ExplicitRefs;
    assert SecretID(s) == SecretID(t);
    if ref :| ref in ExplicitRefs(opts.cluster, x.w.namespace, x.annotations, decode) && SameSecret(ref, t) {
      assert SameSecret(ref, s);
    }
  }

  /** In any mode, an input has an edge with a Secret's key exactly when a naming with that key counts. */
  lemma ExtractedHasSecret(opts: Options, decode: Decoder, x: Subject, input: WorkloadInput, s: SecretRef)
    requires ExtractedFrom(opts, decode, x, input) && '/' !in x.w.namespace
    ensures HasID(input.edges, EdgeID(x.w, s)) <==> CountsLike(opts, decode, x, s)
  {
    hide ReferencesOf, NotIgnored, MergeAll, KeptReferences, Ignored, Lists, EdgeID, SecretID, HasTail,
         DiscoveryModeFor,
         IsMergeOf, HasID, Group, DistinctIDs, CountsLike;
    var es, ignore := ReferencesOf(opts, decode, x), Ignored(opts, x.w, x.annotations);
    KeptAreNotIgnored(opts, decode, x);
    ReferencesFit(opts, decode, x);
    ReferencesHaveTail(opts, decode, x, s);
    FilterAndMergeIsExact(es, ignore, input.edges);
    HasIDIsGroup(NotIgnored(es, ignore), EdgeID(x.w, s));
    forall i | 0 <= i < |es| ensures es[i].id == EdgeID(x.w, es[i].secret) {
      assert es[i] in es;
    }
    GroupIsTail(x.w, es, ignore, s);
  }

  // ----- Exactly when every Secret keeps an edge of its own -----

  ghost predicate HasOwnEdge(es: seq<DependencyEdge>, s: SecretRef) {
    exists i :: 0 <= i < |es| && SameSecret(es[i].secret, s)
  }

  /** No two different Secrets are named, in ways that count, under one key. */
  ghost predicate KeysApart(opts: Options, decode: Decoder, x: Subject) {
    forall s, t :: Counts(opts, decode, x, s) && Counts(opts, decode, x, t) && SecretTail(s) == SecretTail(t) ==>
      SameSecret(s, t)
  }

  /** An edge's own Secret is one whose naming counts. */
  lemma EdgeSecretCounts(opts: Options, decode: Decoder, x: Subject, input: WorkloadInput, n: nat)
    requires ExtractedFrom(opts, decode, x, input) && n < |input.edges|
    ensures Counts(opts, decode, x, input.edges[n].secret)
  {
    hide ReferencesOf, NotIgnored, MergeAll, KeptReferences, Ignored, Lists, SecretID, DiscoveryModeFor,
         InferredNames, ExplicitNames;
    KeptAreNotIgnored(opts, decode, x);
    var es := ReferencesOf(opts, decode, x);
    var r := MergedFrom(es, Ignored(opts, x.w, x.annotations), input.edges, n);
    var i :| 0 <= i < |es| && es[i] == r;
    assert SameSecret(es[i].secret, input.edges[n].secret);
    ReferencesHaveSecret(opts, decode, x, input.edges[n].secret);
  }

  /** Every Secret that counts has an edge of its own if and only if no two that count share a key. */
  lemma OwnEdgesExactly(opts: Options, decode: Decoder, x: Subject, input: WorkloadInput)
    requires ExtractedFrom(opts, decode, x, input) && '/' !in x.w.namespace
    ensures (forall s :: Counts(opts, decode, x, s) ==> HasOwnEdge(input.edges, s)) <==> KeysApart(opts, decode, x)
  {
    hide ExtractedFrom, Counts, EdgeID, SecretTail, SameSecret;
    if forall s :: Counts(opts, decode, x, s) ==> HasOwnEdge(input.edges, s) {
      forall s, t | Counts(opts, decode, x, s) && Counts(opts, decode, x, t) && SecretTail(s) == SecretTail(t)
        ensures SameSecret(s, t)
      {
        OwnEdgesMeet(opts, decode, x, input, s, t);
      }
    }
    if KeysApart(opts, decode, x) {
      forall s | Counts(opts, decode, x, s) ensures HasOwnEdge(input.edges, s) {
        ExtractedHasSecret(opts, decode, x, input, s);
        assert CountsLike(opts, decode, x, s);
        var n :| 0 <= n < |input.edges| && input.edges[n].id == EdgeID(x.w, s);
        EdgeSecretCounts(opts, decode, x, input, n);
        ExtractedIsFit(opts, decode, x, input, n);
        EdgeIDIsTail(x.w, input.edges[n].secret, s);
        assert SameSecret(input.edges[n].secret, s);
      }
    }
  }

  lemma OwnEdgesMeet(opts: Options, decode: Decoder, x: Subject, input: WorkloadInput, s: SecretRef, t: SecretRef)
    requires ExtractedFrom(opts, decode, x, input) && '/' !in x.w.namespace && SecretTail(s) == SecretTail(t)
    requires HasOwnEdge(input.edges, s) && HasOwnEdge(input.edges, t)
    ensures SameSecret(s, t)
  {
    hide ExtractedFrom, EdgeID;
    var i :| 0 <= i < |input.edges| && SameSecret(input.edges[i].secret, s);
    var j :| 0 <= j < |input.edges| && SameSecret(input.edges[j].secret, t);
    ExtractedIsFit(opts, decode, x, input, i);
    ExtractedIsFit(opts, decode, x, input, j);
    EdgeIDIsTail(x.w, input.edges[i].secret, input.edges[j].secret);
    ExtractedIsDistinct(opts, decode, x, input);
  }

  lemma ExtractedIsDistinct(opts: Options, decode: Decoder, x: Subject, input: WorkloadInput)
    requires ExtractedFrom(opts, decode, x, input)
    ensures DistinctIDs(input.edges)
  {
    hide MergeAll, KeptReferences, DiscoveryModeFor;
  }

  /** It is enough that no two of the workload's namespaces collide. */
  lemma ApartIsEnough(opts: Options, decode: Decoder, x: Subject)
    requires Apart(opts, x.w, x.annotations, decode)
    ensures KeysApart(opts, decode, x)
  {
    hide Ignored, SecretTail, SecretID, DiscoveryModeFor, SpecNames, ExplicitRefs, Collide, ExplicitNames;
    forall s, t | Counts(opts, decode, x, s) && Counts(opts, decode, x, t) && SecretTail(s) == SecretTail(t)
      ensures SameSecret(s, t)
    {
      CountsInNamespace(opts, decode, x, s);
      CountsInNamespace(opts, decode, x, t);
      TailsMeet(s, t);
    }
  }

  lemma CountsInNamespace(opts: Options, decode: Decoder, x: Subject, s: SecretRef)
    requires Counts(opts, decode, x, s)
    ensures s.namespace in NamespacesOf(opts, x.w, x.annotations, decode)
  {
    hide Ignored, DiscoveryModeFor, SpecNames, ExplicitRefs, ExplicitNames;
    if ExplicitNames(opts, x.w, x.annotations, decode, s) {
      ExplicitNamespace(opts, x.w, x.annotations, decode, s);
    }
  }

  // ----- The graph after a rebuild -----

  ghost predicate AllExtractedFrom(opts: Options, decode: Decoder, xs: seq<Subject>, inputs: seq<WorkloadInput>) {
    |xs| == |inputs| && forall i :: 0 <= i < |xs| ==>
      Clean(opts, xs[i]) && ExtractedFrom(opts, decode, xs[i], inputs[i])
  }

  lemma AllMeetDemands(opts: Options, decode: Decoder, xs: seq<Subject>, inputs: seq<WorkloadInput>)
    requires AllExtractedFrom(opts, decode, xs, inputs)
    ensures WellFormed(inputs) && AllInputsExtracted(opts.cluster, inputs) && UnambiguousSecrets(inputs)
      && NoOwners(inputs)
  {
    hide Clean, ExtractedFrom, EdgeID, WellFormedInput, AllExtracted;
    forall i | 0 <= i < |inputs|
      ensures WellFormedInput(inputs[i]) && AllExtracted(opts.cluster, inputs[i].edges)
      ensures forall j :: 0 <= j < |inputs[i].edges| ==> inputs[i].edges[j].ownerTeam == ""
      ensures '/' !in xs[i].w.namespace
    {
      ExtractedMeetsDemands(opts, decode, xs[i], inputs[i]);
      CleanHasNoSlash(opts, xs[i]);
    }
    ExtractedIsUnambiguous(opts, decode, xs, inputs);
  }

  /** A rebuild leaves a consistent graph whose teams agree, whatever annotations say. */
  lemma RebuildIsConsistent(st: State, secrets: seq<SecretInput>, opts: Options, decode: Decoder, xs: seq<Subject>,
                            inputs: seq<WorkloadInput>, now: Time)
    requires AllExtractedFrom(opts, decode, xs, inputs) && DistinctWorkloads(inputs) && PlainSecrets(secrets)
    ensures Consistent(Apply(st, secrets, inputs, now)) && TeamsAgree(Apply(st, secrets, inputs, now))
  {
    hide AllExtractedFrom, Consistent, TeamsAgree, Apply, DistinctWorkloads, WellFormed, AllInputsExtracted,
         UnambiguousSecrets, NoOwners, PlainSecrets;
    AllMeetDemands(opts, decode, xs, inputs);
    ApplyIsConsistent(st, secrets, inputs, now);
    ApplyKeepsTeamsAgreed(st, secrets, inputs, now);
  }

  lemma CleanHasNoSlash(opts: Options, x: Subject)
    requires Clean(opts, x)
    ensures '/' !in x.w.namespace
  {}

  /** A key is in the graph exactly when some input edge has it. */
  lemma StoredKeyIsInput(st: State, known: set<string>, inputs: seq<WorkloadInput>, now: Time, id: string)
    requires AllInputsExtracted(st.cluster, inputs)
    ensures id in ObservedEdges(st, known, inputs, now) <==> exists i :: 0 <= i < |inputs| && HasID(inputs[i].edges, id)
  {
    hide MergeAll, Flatten, WellNamedSecret, IsMergeOf;
    var flat := Flatten(st, known, inputs, now);
    StoredEdgeIsMerge(st, known, inputs, now, id);
    if id in ObservedEdges(st, known, inputs, now) {
      var e := Group(flat, id)[0];
      assert e in flat;
      FlattenMember(st, known, inputs, now, e);
      var i, j :| ComesFrom(st, known, inputs, now, e, i, j);
      NormalizedKeepsKey(st, known, inputs, now, i, j);
      assert HasID(inputs[i].edges, id);
    }
    if i :| 0 <= i < |inputs| && HasID(inputs[i].edges, id) {
      var j :| 0 <= j < |inputs[i].edges| && inputs[i].edges[j].id == id;
      var e := Normalize(st, known, inputs[i], inputs[i].edges[j], now);
      assert ComesFrom(st, known, inputs, now, e, i, j);
      FlattenMember(st, known, inputs, now, e);
      NormalizedKeepsKey(st, known, inputs, now, i, j);
      var n :| 0 <= n < |flat| && flat[n] == e;
      assert flat[n].id == id;
    }
  }

  lemma NormalizedKeepsKey(st: State, known: set<string>, inputs: seq<WorkloadInput>, now: Time, i: nat, j: nat)
    requires AllInputsExtracted(st.cluster, inputs) && i < |inputs| && j < |inputs[i].edges|
    ensures Normalize(st, known, inputs[i], inputs[i].edges[j], now).id == inputs[i].edges[j].id
  {}

  /**
   End to end: after a rebuild the graph has an edge with a workload's key for a Secret
   exactly when the workload's specification or annotations name a Secret of that key in a
   way that counts; and where the Secret's key is clear, exactly when they so name it.
   */
  lemma GraphIsWhatIsNamed(st: State, secrets: seq<SecretInput>, opts: Options, decode: Decoder, xs: seq<Subject>,
                           inputs: seq<WorkloadInput>, now: Time, n: nat, s: SecretRef)
    requires st.cluster == opts.cluster && n < |xs|
    requires AllExtractedFrom(opts, decode, xs, inputs) && DistinctWorkloads(inputs)
    ensures EdgeID(xs[n].w, s) in Apply(st, secrets, inputs, now).edges <==> CountsLike(opts, decode, xs[n], s)
    ensures Clear(opts, xs[n].w, xs[n].annotations, decode, s) ==>
      (EdgeID(xs[n].w, s) in Apply(st, secrets, inputs, now).edges <==> Counts(opts, decode, xs[n], s))
  {
    hide ExtractedFrom, ObservedEdges, EdgeID, Counts, CountsLike, ObservedSecrets, FinishedSecrets, FinishedWorkloads,
         ObservedWorkloads, WorkloadID, WellFormed, AllInputsExtracted, HasID, Clear;
    var id := EdgeID(xs[n].w, s);
    AllMeetDemands(opts, decode, xs, inputs);
    StoredKeyIsInput(st, ObservedSecrets(st, secrets, now).Keys, inputs, now, id);
    CleanHasNoSlash(opts, xs[n]);
    ExtractedHasSecret(opts, decode, xs[n], inputs[n], s);
    forall i | 0 <= i < |inputs| && HasID(inputs[i].edges, id) ensures i == n {
      KeyIsOwn(opts, decode, xs, inputs, i, n, s);
    }
    if Clear(opts, xs[n].w, xs[n].annotations, decode, s) {
      CountsAlone(opts, decode, xs[n], s);
    }
  }

  /** No other workload has an edge with the key. */
  lemma KeyIsOwn(opts: Options, decode: Decoder, xs: seq<Subject>, inputs: seq<WorkloadInput>, i: nat, n: nat,
                 s: SecretRef)
    requires AllExtractedFrom(opts, decode, xs, inputs) && DistinctWorkloads(inputs)
    requires i < |inputs| && n < |inputs| && HasID(inputs[i].edges, EdgeID(xs[n].w, s))
    ensures i == n
  {
    hide ExtractedFrom, EdgeID, WorkloadID, AllExtracted, SecretID, SecretTail;
    var j :| 0 <= j < |inputs[i].edges| && inputs[i].edges[j].id == EdgeID(xs[n].w, s);
    var e := inputs[i].edges[j];
    assert Clean(opts, xs[i]) && Clean(opts, xs[n]);
    ExtractedMeetsDemands(opts, decode, xs[i], inputs[i]);
    EdgeIDIsPair(xs[i].w, e.secret, xs[n].w, s);
    RefIsKept(opts, decode, xs[i], inputs[i]);
    RefIsKept(opts, decode, xs[n], inputs[n]);
  }

  // ----- The order in which objects are listed does not matter -----

  lemma ExtractedAreDistinct(opts: Options, decode: Decoder, xs: seq<Subject>, u: Update)
    requires AllExtractedFrom(opts, decode, xs, u.workloads) && DistinctWorkloads(u.workloads)
    ensures DistinctEdges(opts.cluster, u)
  {
    hide DistinctWorkloads, EdgeID, StoredID, ExtractedFrom;
    AllMeetDemands(opts, decode, xs, u.workloads);
    forall id, i, j, k, m | EdgeAt(opts.cluster, u, id, i, j) && EdgeAt(opts.cluster, u, id, k, m)
      ensures i == k && j == m
    {
      KeyIsOnce(opts, decode, xs, u.workloads, i, j, k, m);
    }
  }

  /** An extracted snapshot is such that every record is what its inputs say. */
  lemma ExtractedIsPrepared(opts: Options, decode: Decoder, xs: seq<Subject>, u: Update)
    requires AllExtractedFrom(opts, decode, xs, u.workloads) && DistinctWorkloads(u.workloads)
    ensures Prepared(opts.cluster, u)
  {
    hide DistinctWorkloads, ExtractedFrom, WellFormed, DistinctEdges, Clean, Fit;
    AllMeetDemands(opts, decode, xs, u.workloads);
    ExtractedAreDistinct(opts, decode, xs, u);
    forall i, e | 0 <= i < |u.workloads| && e in u.workloads[i].edges ensures e.ownerTeam == "" && e.criticality == "" {
      var n :| 0 <= n < |u.workloads[i].edges| && u.workloads[i].edges[n] == e;
      CleanHasNoSlash(opts, xs[i]);
      ExtractedIsFit(opts, decode, xs[i], u.workloads[i], n);
      FitIsBare(opts.cluster, xs[i].w, e);
    }
  }

  lemma FitIsBare(cluster: string, w: WorkloadRef, e: DependencyEdge)
    requires Fit(cluster, w, e)
    ensures e.ownerTeam == "" && e.criticality == ""
  {}

  lemma KeyIsOnce(opts: Options, decode: Decoder, xs: seq<Subject>, inputs: seq<WorkloadInput>, i: nat, j: nat,
                  k: nat, m: nat)
    requires AllExtractedFrom(opts, decode, xs, inputs) && DistinctWorkloads(inputs)
    requires i < |inputs| && j < |inputs[i].edges| && k < |inputs| && m < |inputs[k].edges|
    requires StoredID(opts.cluster, inputs[i].edges[j]) == StoredID(opts.cluster, inputs[k].edges[m])
    ensures i == k && j == m
  {
    hide DistinctWorkloads, EdgeID, StoredID, ExtractedFrom, Clean;
    ExtractedMeetsDemands(opts, decode, xs[i], inputs[i]);
    ExtractedMeetsDemands(opts, decode, xs[k], inputs[k]);
    assert Extracted(opts.cluster, inputs[i].edges[j]) && Extracted(opts.cluster, inputs[k].edges[m]);
    assert inputs[i].edges[j].id == EdgeID(xs[k].w, inputs[k].edges[m].secret);
    KeyIsOwn(opts, decode, xs, inputs, i, k, inputs[k].edges[m].secret);
    ExtractedIsDistinct(opts, decode, xs[i], inputs[i]);
  }

  lemma ExtractedAlike(opts: Options, decode: Decoder, x: Subject, a: WorkloadInput, b: WorkloadInput)
    requires ExtractedFrom(opts, decode, x, a) && ExtractedFrom(opts, decode, x, b)
    ensures SameWorkloadInput(a, b)
  {
    hide MergeAll, KeptReferences, DiscoveryModeFor;
    var m := MergeAll(AtExtraction, KeptReferences(opts, x.w, x.spec, x.annotations, decode));
    ListedOnce(a.edges, b.edges, m);
    ListedOnce(b.edges, a.edges, m);
  }

  lemma ListedOnce(a: seq<DependencyEdge>, b: seq<DependencyEdge>, m: map<string, DependencyEdge>)
    requires Lists(a, m) && Lists(b, m)
    ensures forall e :: e in a ==> e in b
  {
    forall e | e in a ensures e in b {
      assert HasID(b, e.id);
      var i :| 0 <= i < |b| && b[i].id == e.id;
      assert b[i] == e;
    }
  }

  /**
   Whatever order the stores list their objects in, and Go its maps, a rebuild at a given
   time leaves the same graph.
   */
  lemma RebuildIgnoresListing(st: State, opts: Options, decode: Decoder, xs: seq<Subject>, ys: seq<Subject>,
                              a: Update, b: Update)
    requires st.cluster == opts.cluster && a.now == b.now
    requires AllExtractedFrom(opts, decode, xs, a.workloads) && DistinctWorkloads(a.workloads)
      && DistinctSecrets(a.secrets)
    requires AllExtractedFrom(opts, decode, ys, b.workloads) && DistinctWorkloads(b.workloads)
      && DistinctSecrets(b.secrets)
    requires (forall x :: x in xs <==> x in ys) && (forall s :: s in a.secrets <==> s in b.secrets)
    ensures Apply(st, a.secrets, a.workloads, a.now) == Apply(st, b.secrets, b.workloads, b.now)
  {
    hide Apply, DistinctWorkloads, DistinctSecrets, DistinctEdges, ExtractedFrom, SameWorkloadInput, Clean;
    ExtractedAreDistinct(opts, decode, xs, a);
    ExtractedAreDistinct(opts, decode, ys, b);
    ListingCovers(opts, decode, xs, ys, a.workloads, b.workloads);
    ListingCovers(opts, decode, ys, xs, b.workloads, a.workloads);
    ApplyInAnyOrder(st, a, b);
  }

  lemma ListingCovers(opts: Options, decode: Decoder, xs: seq<Subject>, ys: seq<Subject>, a: seq<WorkloadInput>,
                      b: seq<WorkloadInput>)
    requires AllExtractedFrom(opts, decode, xs, a) && AllExtractedFrom(opts, decode, ys, b)
    requires forall x :: x in xs ==> x in ys
    ensures Covers(a, b)
  {
    hide ExtractedFrom, SameWorkloadInput, Clean;
    forall i | 0 <= i < |a| ensures Covered(a[i], b) {
      assert xs[i] in ys;
      var j :| 0 <= j < |ys| && ys[j] == xs[i];
      ExtractedAlike(opts, decode, xs[i], a[i], b[j]);
    }
  }
}

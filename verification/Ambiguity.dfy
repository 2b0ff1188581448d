/**
 Where names blur: inputs on which two Secrets share a key.
 */
module Ambiguity {
  import opened Basics
  import opened Text
  import opened GraphTypes
  import opened Ids
  import opened Merge
  import opened GraphSpec
  import opened Consistency
  import opened GraphCache
  import opened Annotations
  import opened Extractor
  import opened Modes

  // ----- One Secret key, two references: which one a record gets depends on the order -----

  /** Any edge that names a missing Secret can be the one that gives it its reference. */
  lemma AnyEdgeCanName(st: State, secrets: seq<SecretInput>, inputs: seq<WorkloadInput>, now: Time, d: string,
                       k: string)
    returns (r: State)
    requires
      var base := ObservedSecrets(st, secrets, now);
      k !in base && Names(ObservedEdges(st, base.Keys, inputs, now), d, k)
    ensures Applied(st, secrets, inputs, now, r)
    ensures k in r.secrets && r.secrets[k].ref ==
      ObservedEdges(st, ObservedSecrets(st, secrets, now).Keys, inputs, now)[d].secret
  {
    hide ObservedSecrets, ObservedEdges, ObservedWorkloads, FinishSecret, FinishedWorkloads, SecretID;
    var base := ObservedSecrets(st, secrets, now);
    var edges := ObservedEdges(st, base.Keys, inputs, now);
    var named := NamedSecrets(edges, edges.Keys);
    var all := map c | c in base.Keys + named :: if c in base then base[c] else PhantomOf(edges, d, c);
    assert HasPhantoms(base, edges, edges.Keys, all);
    r := State(st.cluster, FinishedSecrets(all, edges), FinishedWorkloads(ObservedWorkloads(st.cluster, inputs), edges),
               edges, ObservedVersions(secrets));
    FinishKeepsRef(all[k], edges, k);
  }

  /** A record for the key made from the edge d if it can be, and else from some other. */
  ghost function PhantomOf(edges: map<string, DependencyEdge>, d: string, k: string): (s: SecretSummary)
    requires k in NamedSecrets(edges, edges.Keys)
    ensures IsPhantom(edges, k, s)
    ensures Names(edges, d, k) ==> s.ref == edges[d].secret
  {
    var id :| id in edges && SecretID(edges[id].secret) == k;
    assert Names(edges, id, k);
    ZERO_SECRET.(ref := edges[if Names(edges, d, k) then d else id].secret, criticality := "unknown")
  }

  /** Edges that name one missing Secret agree on its reference. */
  ghost predicate PhantomsAgree(base: map<string, SecretSummary>, edges: map<string, DependencyEdge>) {
    forall d, e, k :: k !in base && Names(edges, d, k) && Names(edges, e, k) ==> edges[d].secret == edges[e].secret
  }

  lemma PhantomIsOne(base: map<string, SecretSummary>, edges: map<string, DependencyEdge>, k: string, s: SecretSummary,
                     t: SecretSummary)
    requires PhantomsAgree(base, edges) && k !in base && IsPhantom(edges, k, s) && IsPhantom(edges, k, t)
    ensures s == t
  {
    hide SecretID;
    var d :| Names(edges, d, k) && s == ZERO_SECRET.(ref := edges[d].secret, criticality := "unknown");
    var e :| Names(edges, e, k) && t == ZERO_SECRET.(ref := edges[e].secret, criticality := "unknown");
  }

  lemma AppliedIsOne(st: State, secrets: seq<SecretInput>, inputs: seq<WorkloadInput>, now: Time, r: State, q: State)
    requires
      var base := ObservedSecrets(st, secrets, now);
      PhantomsAgree(base, ObservedEdges(st, base.Keys, inputs, now))
    requires Applied(st, secrets, inputs, now, r) && Applied(st, secrets, inputs, now, q)
    ensures r == q
  {
    hide ObservedEdges, ObservedSecrets, ObservedWorkloads, FinishedSecrets, FinishedWorkloads, PhantomsAgree,
         IsPhantom,
         NamedSecrets;
    var base := ObservedSecrets(st, secrets, now);
    var edges := ObservedEdges(st, base.Keys, inputs, now);
    var all :| HasPhantoms(base, edges, edges.Keys, all) && r.secrets == FinishedSecrets(all, edges);
    var also :| HasPhantoms(base, edges, edges.Keys, also) && q.secrets == FinishedSecrets(also, edges);
    forall k | k in all ensures all[k] == also[k] {
      if k !in base {
        PhantomIsOne(base, edges, k, all[k], also[k]);
      }
    }
    assert all == also;
  }

  /**
   A snapshot leaves one graph only, in whatever order its edges come, if and only if edges
   that name one missing Secret agree on its reference.
   */
  lemma SnapshotIsUniqueExactly(st: State, secrets: seq<SecretInput>, inputs: seq<WorkloadInput>, now: Time)
    ensures
      var base := ObservedSecrets(st, secrets, now);
      (forall r, q :: Applied(st, secrets, inputs, now, r) && Applied(st, secrets, inputs, now, q) ==> r == q) <==>
      PhantomsAgree(base, ObservedEdges(st, base.Keys, inputs, now))
  {
    hide ObservedEdges, ObservedSecrets, Applied, Names, PhantomsAgree;
    var base := ObservedSecrets(st, secrets, now);
    var edges := ObservedEdges(st, base.Keys, inputs, now);
    if PhantomsAgree(base, edges) {
      forall r, q | Applied(st, secrets, inputs, now, r) && Applied(st, secrets, inputs, now, q) ensures r == q {
        AppliedIsOne(st, secrets, inputs, now, r, q);
      }
    }
    if forall r, q :: Applied(st, secrets, inputs, now, r) && Applied(st, secrets, inputs, now, q) ==> r == q {
      forall d, e, k | k !in base && Names(edges, d, k) && Names(edges, e, k)
        ensures d in edges && e in edges && edges[d].secret == edges[e].secret
      {
        NamedIsStored(edges, d, k);
        NamedIsStored(edges, e, k);
        var r := AnyEdgeCanName(st, secrets, inputs, now, d, k);
        var q := AnyEdgeCanName(st, secrets, inputs, now, e, k);
      }
      AgreeByPairs(base, edges);
    }
  }

  lemma NamedIsStored(edges: map<string, DependencyEdge>, id: string, k: string)
    requires Names(edges, id, k)
    ensures id in edges
  {}

  lemma AgreeByPairs(base: map<string, SecretSummary>, edges: map<string, DependencyEdge>)
    requires forall d, e, k :: k !in base && Names(edges, d, k) && Names(edges, e, k) ==>
      d in edges && e in edges && edges[d].secret == edges[e].secret
    ensures PhantomsAgree(base, edges)
  {}

  /** An edge whose key no other edge of the one workload shares is stored with its own Secret. */
  lemma LoneEdgeIsStored(st: State, known: set<string>, input: WorkloadInput, now: Time, j: nat)
    requires j < |input.edges|
    requires forall i :: 0 <= i < |input.edges| && i != j ==>
      StoredID(st.cluster, input.edges[i]) != StoredID(st.cluster, input.edges[j])
    ensures
      var id, edges := StoredID(st.cluster, input.edges[j]), ObservedEdges(st, known, [input], now);
      id in edges && edges[id].secret == input.edges[j].secret.(cluster := st.cluster, key := "")
  {
    hide StoredID, MergeAll, SecretID, Flatten;
    var id, flat := StoredID(st.cluster, input.edges[j]), Flatten(st, known, [input], now);
    StoredEdgeIsMerge(st, known, [input], now, id);
    var e := Normalize(st, known, input, input.edges[j], now);
    assert ComesFrom(st, known, [input], now, e, 0, j);
    FlattenMember(st, known, [input], now, e);
    var n :| 0 <= n < |flat| && flat[n] == e;
    var first := Group(flat, id)[0];
    assert first in flat;
    FlattenMember(st, known, [input], now, first);
    var i, m :| ComesFrom(st, known, [input], now, first, i, m);
    assert i == 0 && m == j;
  }

  function EdgeTo(w: WorkloadRef, s: SecretRef): DependencyEdge {
    DependencyEdge(EdgeID(w, s), w.cluster, w, s, EXPLICIT, [], false, false, "", "", "", 0, 0)
  }

  /** The Secret `c` of `a/b` and the Secret `b/c` of `a`: one Secret key, two edge keys. */
  lemma MissingSecretDependsOnOrder(st: State, w: WorkloadRef, now: Time) returns (r: State, q: State)
    ensures
      var s, t := SecretRef("", "a/b", "c", ""), SecretRef("", "a", "b/c", "");
      var inputs := [WorkloadInput(w, "", "", "", "", EXPLICIT, [EdgeTo(w, s), EdgeTo(w, t)])];
      Applied(st, [], inputs, now, r) && Applied(st, [], inputs, now, q)
    ensures "a/b/c" in r.secrets && r.secrets["a/b/c"].ref == SecretRef(st.cluster, "a/b", "c", "")
    ensures "a/b/c" in q.secrets && q.secrets["a/b/c"].ref == SecretRef(st.cluster, "a", "b/c", "")
  {
    hide EdgeID, Applied, ObservedEdges;
    var s, t := SecretRef("", "a/b", "c", ""), SecretRef("", "a", "b/c", "");
    var input := WorkloadInput(w, "", "", "", "", EXPLICIT, [EdgeTo(w, s), EdgeTo(w, t)]);
    var v := w.(cluster := st.cluster);
    var s', t' := s.(cluster := st.cluster), t.(cluster := st.cluster);
    EdgeIDIsTail(v, s', t');
    assert SecretTail(s')[1] == '/' && SecretTail(t')[1] == '|';
    assert ObservedSecrets(st, [], now).Keys == {};
    assert StoredID(st.cluster, input.edges[0]) == EdgeID(v, s')
      && StoredID(st.cluster, input.edges[1]) == EdgeID(v, t');
    LoneEdgeIsStored(st, {}, input, now, 0);
    LoneEdgeIsStored(st, {}, input, now, 1);
    assert SecretID(s') == "a/b/c" && SecretID(t') == "a/b/c";
    var edges := ObservedEdges(st, {}, [input], now);
    assert Names(edges, EdgeID(v, s'), "a/b/c") && Names(edges, EdgeID(v, t'), "a/b/c");
    r := AnyEdgeCanName(st, [], [input], now, EdgeID(v, s'), "a/b/c");
    q := AnyEdgeCanName(st, [], [input], now, EdgeID(v, t'), "a/b/c");
  }

  // ----- One edge key, two Secrets -----

  function Plain(ref: SecretRef): Entry {
    Entry(Form(true, false), ref, "", "")
  }

  /** Each of the two can be written. */
  lemma CollidingRendered(cluster: string, namespace: string)
    ensures
      var s, t := SecretRef(cluster, "a|b", "c", ""), SecretRef(cluster, "a", "b|c", "");
      && Written(Plain(s)) == "a|b/c" && Survives(cluster, namespace, Plain(s))
      && Written(Plain(t)) == "a/b|c" && Survives(cluster, namespace, Plain(t))
  {
    hide IsSpace;
    var s, t := SecretRef(cluster, "a|b", "c", ""), SecretRef(cluster, "a", "b|c", "");
    assert Token(Plain(s)) == "a|b/c" && Token(Plain(t)) == "a/b|c";
    NoSpaces();
  }

  lemma NoSpaces()
    ensures !IsSpace('a') && !IsSpace('c')
  {}

  lemma CollidingKeys(w: WorkloadRef, cluster: string)
    ensures
      var s, t := SecretRef(cluster, "a|b", "c", ""), SecretRef(cluster, "a", "b|c", "");
      EdgeID(w, s) == EdgeID(w, t) && SecretID(s) != SecretID(t)
  {
    hide EdgeID;
    var s, t := SecretRef(cluster, "a|b", "c", ""), SecretRef(cluster, "a", "b|c", "");
    assert SecretTail(s) == "a|b|c" && SecretTail(t) == "a|b|c";
    EdgeIDIsTail(w, s, t);
    assert SecretID(s)[1] == '|' && SecretID(t)[1] == '/';
  }

  /** An annotation can list two Secrets that share an edge key under any workload. */
  lemma EdgeIDCollides(w: WorkloadRef, cluster: string, namespace: string)
    ensures
      var s, t := SecretRef(cluster, "a|b", "c", ""), SecretRef(cluster, "a", "b|c", "");
      && WatchSecrets(cluster, namespace, "a|b/c,a/b|c") == Ok([s, t])
      && EdgeID(w, s) == EdgeID(w, t) && SecretID(s) != SecretID(t)
  {
    hide EdgeID, SecretID, WatchSecrets, Written, Survives, Padded, Join;
    CollidingKeys(w, cluster);
    CollidingRendered(cluster, namespace);
    var s, t := SecretRef(cluster, "a|b", "c", ""), SecretRef(cluster, "a", "b|c", "");
    var entries := [Plain(s), Plain(t)];
    assert Padded(Plain(s)) && Padded(Plain(t)) by { PlainIsPadded(s); PlainIsPadded(t); }
    assert WrittenAll(entries) == ["a|b/c", "a/b|c"] && RefsOf(entries) == [s, t];
    JoinOfTwo("a|b/c", "a/b|c");
    assert "a|b/c" + "," + "a/b|c" == "a|b/c,a/b|c";
    WatchListRoundTrip(cluster, namespace, entries);
  }

  lemma PlainIsPadded(ref: SecretRef)
    ensures Padded(Plain(ref))
  {}

  lemma JoinOfTwo(a: string, b: string)
    ensures Join([a, b], ",") == a + "," + b
    ensures Join([a], ",") == a
  {
    assert [a, b][1..] == [b];
  }

  const COLLIDING_POD := OfPod(PodSpec([], [], [], [Volume("v", Some(Selector("b|c", None)), None)], [], ""))
  const COLLIDING_ANNOTATIONS: Values := map[WATCH_SECRETS := "a|b/c"]

  lemma CollidingReferences(cluster: string, decode: Decoder)
    ensures ExplicitRefs(cluster, "a", COLLIDING_ANNOTATIONS, decode) == [SecretRef(cluster, "a|b", "c", "")]
    ensures ListedRefs(cluster, "a", COLLIDING_ANNOTATIONS, IGNORE_SECRETS) == []
    ensures DiscoveryModeFor(COLLIDING_ANNOTATIONS, "") == HYBRID
  {
    hide WatchSecrets, TrimSpace, Written, Survives, Padded, Join, GoodRefs, ToLower;
    var s := SecretRef(cluster, "a|b", "c", "");
    CollidingRendered(cluster, "a");
    assert Padded(Plain(s)) by { PlainIsPadded(s); }
    assert WrittenAll([Plain(s)]) == ["a|b/c"] && RefsOf([Plain(s)]) == [s];
    JoinOfTwo("a|b/c", "");
    WatchListRoundTrip(cluster, "a", [Plain(s)]);
    TrimmedTexts();
    NothingElse();
  }

  lemma TrimmedTexts()
    ensures TrimSpace("a|b/c") == "a|b/c" && TrimSpace("") == "" && ToLower("") == ""
  {
    hide IsSpace;
    NoSpaces();
    TrimPadded("", "a|b/c", "");
    assert "" + "a|b/c" + "" == "a|b/c";
  }

  lemma NothingElse()
    ensures ValueOf(COLLIDING_ANNOTATIONS, WATCH_SECRETS) == "a|b/c"
    ensures ValueOf(COLLIDING_ANNOTATIONS, WATCH_SECRETS_JSON) == ValueOf(COLLIDING_ANNOTATIONS, IGNORE_SECRETS) == ""
    ensures ValueOf(COLLIDING_ANNOTATIONS, DISCOVERY_MODE) == "" && ENABLED !in COLLIDING_ANNOTATIONS
  {
    assert |WATCH_SECRETS| != |WATCH_SECRETS_JSON| && WATCH_SECRETS[11] != IGNORE_SECRETS[11];
    assert WATCH_SECRETS[11] != DISCOVERY_MODE[11] && WATCH_SECRETS[11] != ENABLED[11];
  }

  lemma CollidingTails(s: SecretRef, t: SecretRef)
    ensures SameSecret(s, SecretRef("", "a", "b|c", "")) ==> SecretTail(s) == "a|b|c"
    ensures SameSecret(t, SecretRef("", "a|b", "c", "")) ==> SecretTail(t) == "a|b|c"
  {}

  lemma CollidingPodNames(opts: Options, name: string)
    requires !opts.includeImagePullSecrets && !opts.includeInitContainers && !opts.includeEphemeralContainers
    ensures SpecNames(opts, "a", COLLIDING_POD, name) <==> name == "b|c"
  {
    var v := COLLIDING_POD.pod.volumes[0];
    assert v in COLLIDING_POD.pod.volumes && VolumeNames(v, "b|c");
  }

  /** Every reference there is shares the one key. */
  lemma CollidingIsShared(opts: Options, w: WorkloadRef, decode: Decoder, s: SecretRef)
    requires w.namespace == "a" && Ignored(opts, w, COLLIDING_ANNOTATIONS) == {}
    requires !opts.includeImagePullSecrets && !opts.includeInitContainers && !opts.includeEphemeralContainers
    ensures InferredLike(opts, w, COLLIDING_POD, COLLIDING_ANNOTATIONS, s) <==> SecretTail(s) == "a|b|c"
    ensures ExplicitLike(opts, w, COLLIDING_ANNOTATIONS, decode, s) <==> SecretTail(s) == "a|b|c"
  {
    hide SpecNames, ExplicitRefs, SecretTail, Ignored, SecretID;
    var m, n := SecretRef(opts.cluster, "a", "b|c", ""), SecretRef(opts.cluster, "a|b", "c", "");
    CollidingReferences(opts.cluster, decode);
    CollidingTails(m, n);
    CollidingPodNames(opts, "b|c");
    assert InferredNames(opts, w, COLLIDING_POD, m);
    assert n in ExplicitRefs(opts.cluster, w.namespace, COLLIDING_ANNOTATIONS, decode) && SameSecret(n, n);
    assert ExplicitNames(opts, w, COLLIDING_ANNOTATIONS, decode, n);
    if t :| InferredNames(opts, w, COLLIDING_POD, t) && SecretTail(t) == SecretTail(s) {
      CollidingPodNames(opts, t.name);
      CollidingTails(t, n);
    }
    if t :| ExplicitNames(opts, w, COLLIDING_ANNOTATIONS, decode, t) && SecretTail(t) == SecretTail(s) {
      CollidingTails(m, t);
    }
  }

  lemma OneKeyOneEdge(out: seq<DependencyEdge>, id: string)
    requires DistinctIDs(out) && HasID(out, id) && forall n :: 0 <= n < |out| ==> out[n].id == id
    ensures |out| == 1
  {
    var i :| 0 <= i < |out| && out[i].id == id;
    assert out[0].id == out[i].id && out[|out| - 1].id == out[i].id;
  }

  /**
   And then a hybrid edge need not stand for a Secret that is named both ways: a Pod in `a`
   names the Secret `b|c`, and an annotation the Secret `c` of `a|b`.
   */
  lemma HybridBlurs(w: WorkloadRef, cluster: string, decode: Decoder, out: seq<DependencyEdge>)
    requires w.namespace == "a"
    requires
      var opts := Options(cluster, "", false, map[], false, false, false, false, DEFAULT_LABEL_KEYS);
      Lists(out, MergeAll(AtExtraction, KeptReferences(opts, w, COLLIDING_POD, COLLIDING_ANNOTATIONS, decode)))
    ensures |out| == 1 && out[0].discoveryMode == HYBRID
    ensures
      var opts := Options(cluster, "", false, map[], false, false, false, false, DEFAULT_LABEL_KEYS);
      !exists s :: InferredNames(opts, w, COLLIDING_POD, s) && ExplicitNames(opts, w, COLLIDING_ANNOTATIONS, decode, s)
  {
    hide EdgeID, ExplicitRefs, ListedRefs, DiscoveryModeFor, MergeAll, KeptReferences, SecretTail, InferredLike,
         ExplicitLike, SpecNames;
    var opts := Options(cluster, "", false, map[], false, false, false, false, DEFAULT_LABEL_KEYS);
    var s, t := SecretRef(cluster, "a", "b|c", ""), SecretRef(cluster, "a|b", "c", "");
    CollidingReferences(cluster, decode);
    CollidingTails(s, t);
    assert Ignored(opts, w, COLLIDING_ANNOTATIONS) == {};
    CollidingIsShared(opts, w, decode, s);
    forall x | InferredNames(opts, w, COLLIDING_POD, x)
      ensures !ExplicitNames(opts, w, COLLIDING_ANNOTATIONS, decode, x)
    {
      CollidingPodNames(opts, x.name);
    }
    HybridMissesNothing(opts, w, COLLIDING_POD, COLLIDING_ANNOTATIONS, decode, out, s);
    forall n | 0 <= n < |out| ensures out[n].discoveryMode == HYBRID && out[n].id == EdgeID(w, s) {
      HybridIsBoth(opts, w, COLLIDING_POD, COLLIDING_ANNOTATIONS, decode, out, n);
      CollidingIsShared(opts, w, decode, out[n].secret);
      EdgeIDIsTail(w, out[n].secret, s);
    }
    assert HasID(out, EdgeID(w, s));
    OneKeyOneEdge(out, EdgeID(w, s));
  }
}

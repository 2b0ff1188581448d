/**
 Edges are merged per workload first and across workloads later. The graph is the same as
 if the references had all been merged at once.
 */
module Premerge {
  import opened GraphTypes
  import opened Ids
  import opened Criticality
  import opened Merge
  import opened GraphSpec
  import opened Consistency

  /** How newEdge makes an edge: keyed for its cluster, its mode set, nothing resolved yet. */
  ghost predicate Extracted(cluster: string, e: DependencyEdge) {
    e.id == StoredID(cluster, e) && e.discoveryMode != "" && !e.resolved
  }

  ghost predicate AllExtracted(cluster: string, es: seq<DependencyEdge>) {
    forall i :: 0 <= i < |es| ==> Extracted(cluster, es[i]) && WellNamedSecret(es[i].secret)
  }

  /** `merged` is `raw` with each workload's references merged, in any order. */
  ghost predicate MergedFirst(merged: WorkloadInput, raw: WorkloadInput) {
    && merged.(edges := []) == raw.(edges := [])
    && Lists(merged.edges, MergeAll(AtExtraction, raw.edges))
  }

  /** The two lists merge into the same edge, or both lack it. */
  ghost predicate SameFold(g: seq<DependencyEdge>, h: seq<DependencyEdge>) {
    (g == [] <==> h == []) && (g != [] ==> Fold(AtSnapshot, g) == Fold(AtSnapshot, h))
  }

  lemma SameFoldAppend(a: seq<DependencyEdge>, b: seq<DependencyEdge>, c: seq<DependencyEdge>, d: seq<DependencyEdge>)
    requires SameFold(a, b) && SameFold(c, d)
    ensures SameFold(a + c, b + d)
  {
    hide Fold;
    if a == [] {
      assert a + c == c && b + d == d;
    } else if c == [] {
      assert a + c == a && b + d == b;
    } else {
      FoldOfAppend(AtSnapshot, a, c);
      FoldOfAppend(AtSnapshot, b, d);
    }
  }

  /** The Secrets of the two edges are both known or both not. */
  ghost predicate KnownAlike(known: set<string>, a: DependencyEdge, b: DependencyEdge) {
    SecretID(a.secret) in known <==> SecretID(b.secret) in known
  }

  /** Settling the fields of every edge of a group settles those of their merge. */
  lemma {:induction false} FoldOfNormalized(st: State, known: set<string>, input: WorkloadInput,
                                            g: seq<DependencyEdge>, now: Time)
    requires g != [] && forall i :: 0 <= i < |g| ==> Extracted(st.cluster, g[i])
    requires forall i :: 0 <= i < |g| ==> g[i].id == g[0].id && KnownAlike(known, g[i], g[0])
    ensures Fold(AtSnapshot, NormalizeAll(st, known, input, g, now)) ==
      Normalize(st, known, input, Fold(AtExtraction, g), now)
  {
    hide StoredID, Normalize, KnownAlike, Extracted;
    if |g| == 1 {
      FoldOfLone(st, known, input, g[0], now);
      assert g == [g[0]];
    } else {
      var init, e := g[..|g| - 1], g[|g| - 1];
      FoldOfNormalized(st, known, input, init, now);
      NormalizedInit(st, known, input, g, now);
      FoldKeeps(st.cluster, known, init);
      ExtractedHasMode(st.cluster, e);
      KnownAlikeJoins(known, Fold(AtExtraction, init), e, g[0]);
      CombineOfNormalized(st, known, input, Fold(AtExtraction, init), e, now);
    }
  }

  lemma ExtractedHasMode(cluster: string, e: DependencyEdge)
    requires Extracted(cluster, e)
    ensures e.discoveryMode != ""
  {}

  lemma KnownAlikeJoins(known: set<string>, a: DependencyEdge, b: DependencyEdge, c: DependencyEdge)
    requires KnownAlike(known, a, c) && KnownAlike(known, b, c)
    ensures KnownAlike(known, a, b)
  {}

  lemma NormalizedInit(st: State, known: set<string>, input: WorkloadInput, g: seq<DependencyEdge>, now: Time)
    requires g != []
    ensures
      var n, ns := |g| - 1, NormalizeAll(st, known, input, g, now);
      ns[..n] == NormalizeAll(st, known, input, g[..n], now) && ns[n] == Normalize(st, known, input, g[n], now)
  {
    hide Normalize;
  }

  /** What a merge keeps of its first edge. */
  lemma FoldKeeps(cluster: string, known: set<string>, g: seq<DependencyEdge>)
    requires g != [] && forall i :: 0 <= i < |g| ==> Extracted(cluster, g[i])
    ensures Fold(AtExtraction, g).discoveryMode != "" && KnownAlike(known, Fold(AtExtraction, g), g[0])
  {
    hide AllSources, OneMode, StoredID;
    FoldIsMerge(AtExtraction, g);
  }

  lemma CombineOfNormalized(st: State, known: set<string>, input: WorkloadInput, a: DependencyEdge,
                            b: DependencyEdge, now: Time)
    requires a.discoveryMode != "" && b.discoveryMode != "" && KnownAlike(known, a, b)
    ensures Combine(AtSnapshot, Normalize(st, known, input, a, now), Normalize(st, known, input, b, now))
         == Normalize(st, known, input, Combine(AtExtraction, a, b), now)
  {}

  lemma {:induction false} GroupOfNormalized(st: State, known: set<string>, input: WorkloadInput,
                                             es: seq<DependencyEdge>, now: Time, id: string)
    requires forall i :: 0 <= i < |es| ==> es[i].id == StoredID(st.cluster, es[i])
    ensures Group(NormalizeAll(st, known, input, es, now), id) == NormalizeAll(st, known, input, Group(es, id), now)
  {
    hide StoredID, NormalizeCriticality, SecretID;
    if es != [] {
      var init := es[..|es| - 1];
      GroupOfNormalized(st, known, input, init, now, id);
      var ns := NormalizeAll(st, known, input, es, now);
      assert ns[..|es| - 1] == NormalizeAll(st, known, input, init, now);
      if es[|es| - 1].id == id {
        var g := Group(es, id);
        assert g[..|g| - 1] == Group(init, id);
      }
    }
  }

  /** What a merge of extracted edges keeps of them. */
  lemma MergedIsExtracted(cluster: string, raw: seq<DependencyEdge>, id: string)
    requires AllExtracted(cluster, raw) && Group(raw, id) != []
    ensures
      var m := Fold(AtExtraction, Group(raw, id));
      m.id == id == StoredID(cluster, m)
  {
    hide StoredID;
    var g := Group(raw, id);
    FoldIsMerge(AtExtraction, g);
    assert g[0] in raw;
    StoredIDIgnoresRest(cluster, g[0], Fold(AtExtraction, g));
  }

  lemma StoredIDIgnoresRest(cluster: string, a: DependencyEdge, b: DependencyEdge)
    requires a.workload == b.workload && a.secret == b.secret
    ensures StoredID(cluster, a) == StoredID(cluster, b)
  {}

  /** References of one workload that share a key name one Secret, or none of them one that is listed. */
  lemma GroupIsKnownAlike(cluster: string, known: set<string>, input: WorkloadInput, id: string)
    requires WellFormedInput(input) && AllExtracted(cluster, input.edges) && PlainKeys(known)
    ensures forall i :: 0 <= i < |Group(input.edges, id)| ==>
      KnownAlike(known, Group(input.edges, id)[i], Group(input.edges, id)[0])
  {
    hide SecretTail, SecretID, EdgeID;
    var g := Group(input.edges, id);
    forall i | 0 <= i < |g| ensures KnownAlike(known, g[i], g[0]) {
      assert g[i] in input.edges && g[0] in input.edges;
      var w, s, t := input.ref.(cluster := cluster), g[i].secret, g[0].secret;
      var s', t' := s.(cluster := cluster, key := ""), t.(cluster := cluster, key := "");
      EdgeIDIsTail(w, s', t');
      TailsMeet(s', t');
      SecretIDIgnoresRest(s, cluster);
      SecretIDIgnoresRest(t, cluster);
      SameKeys(w, w, s', t');
    }
  }

  lemma SecretIDIgnoresRest(s: SecretRef, cluster: string)
    ensures SecretID(s.(cluster := cluster, key := "")) == SecretID(s)
  {}

  lemma MergedAreKeyed(cluster: string, merged: WorkloadInput, raw: WorkloadInput)
    requires MergedFirst(merged, raw) && AllExtracted(cluster, raw.edges)
    ensures forall i :: 0 <= i < |merged.edges| ==> merged.edges[i].id == StoredID(cluster, merged.edges[i])
  {
    hide StoredID, Fold, MergeAll, AllExtracted;
    forall i | 0 <= i < |merged.edges| ensures merged.edges[i].id == StoredID(cluster, merged.edges[i]) {
      MergeAllFoldsGroups(AtExtraction, raw.edges, merged.edges[i].id);
      MergedIsExtracted(cluster, raw.edges, merged.edges[i].id);
    }
  }

  /** The one merged edge of a key. */
  lemma MergedGroup(merged: WorkloadInput, raw: WorkloadInput, id: string)
    requires MergedFirst(merged, raw)
    ensures
      var g := Group(raw.edges, id);
      Group(merged.edges, id) == if g == [] then [] else [Fold(AtExtraction, g)]
  {
    hide Fold, MergeAll;
    MergeAllFoldsGroups(AtExtraction, raw.edges, id);
    if id in MergeAll(AtExtraction, raw.edges) {
      assert HasID(merged.edges, id);
      var i :| 0 <= i < |merged.edges| && merged.edges[i].id == id;
      GroupOfDistinct(merged.edges, i);
    }
  }

  /** One workload: merging its references first gives the same edge for every key. */
  lemma OneWorkload(st: State, known: set<string>, merged: WorkloadInput, raw: WorkloadInput, now: Time, id: string)
    requires MergedFirst(merged, raw) && WellFormedInput(raw) && AllExtracted(st.cluster, raw.edges) && PlainKeys(known)
    ensures SameFold(Group(NormalizeAll(st, known, merged, merged.edges, now), id),
                     Group(NormalizeAll(st, known, raw, raw.edges, now), id))
  {
    hide StoredID, Normalize, NormalizeAll, WellFormedInput, Fold, MergeAll, KnownAlike, PlainKeys, Lists;
    NormalizeAllIgnoresEdges(st, known, merged, raw, merged.edges, now);
    MergedAreKeyed(st.cluster, merged, raw);
    GroupOfNormalized(st, known, raw, merged.edges, now, id);
    GroupOfNormalized(st, known, raw, raw.edges, now, id);
    MergedGroup(merged, raw, id);
    var g := Group(raw.edges, id);
    if g != [] {
      GroupIsKnownAlike(st.cluster, known, raw, id);
      assert forall n :: 0 <= n < |g| ==> g[n] in raw.edges;
      FoldOfNormalized(st, known, raw, g, now);
      FoldOfLone(st, known, raw, Fold(AtExtraction, g), now);
    } else {
      NormalizeNone(st, known, raw, now);
    }
  }

  lemma FoldOfLone(st: State, known: set<string>, input: WorkloadInput, e: DependencyEdge, now: Time)
    ensures NormalizeAll(st, known, input, [e], now) == [Normalize(st, known, input, e, now)]
    ensures Fold(AtSnapshot, NormalizeAll(st, known, input, [e], now)) == Normalize(st, known, input, e, now)
  {}

  lemma NormalizeNone(st: State, known: set<string>, input: WorkloadInput, now: Time)
    ensures NormalizeAll(st, known, input, [], now) == []
  {}

  lemma {:induction false} NormalizeAllIgnoresEdges(st: State, known: set<string>, a: WorkloadInput,
                                                    b: WorkloadInput, es: seq<DependencyEdge>, now: Time)
    requires a.(edges := []) == b.(edges := [])
    ensures NormalizeAll(st, known, a, es, now) == NormalizeAll(st, known, b, es, now)
  {}

  ghost predicate AllMergedFirst(merged: seq<WorkloadInput>, raw: seq<WorkloadInput>) {
    |merged| == |raw| && forall i :: 0 <= i < |raw| ==> MergedFirst(merged[i], raw[i])
  }

  ghost predicate AllInputsExtracted(cluster: string, raw: seq<WorkloadInput>) {
    forall i :: 0 <= i < |raw| ==> AllExtracted(cluster, raw[i].edges)
  }

  lemma SameLength(merged: seq<WorkloadInput>, raw: seq<WorkloadInput>)
    requires AllMergedFirst(merged, raw)
    ensures |merged| == |raw|
  {}

  lemma ShorterRun(cluster: string, merged: seq<WorkloadInput>, raw: seq<WorkloadInput>)
    requires raw != [] && AllMergedFirst(merged, raw) && WellFormed(raw) && AllInputsExtracted(cluster, raw)
    ensures
      var n := |raw| - 1;
      && AllMergedFirst(merged[..n], raw[..n]) && WellFormed(raw[..n]) && AllInputsExtracted(cluster, raw[..n])
      && MergedFirst(merged[n], raw[n]) && WellFormedInput(raw[n]) && AllExtracted(cluster, raw[n].edges)
  {}

  lemma {:induction false} AllWorkloads(st: State, known: set<string>, merged: seq<WorkloadInput>,
                                        raw: seq<WorkloadInput>, now: Time, id: string)
    requires AllMergedFirst(merged, raw) && WellFormed(raw) && AllInputsExtracted(st.cluster, raw) && PlainKeys(known)
    ensures SameFold(Group(Flatten(st, known, merged, now), id), Group(Flatten(st, known, raw, now), id))
  {
    hide NormalizeAll, MergedFirst, WellFormedInput, AllExtracted, SameFold, AllMergedFirst, WellFormed,
         AllInputsExtracted, PlainKeys;
    assert |merged| == |raw| by { SameLength(merged, raw); }
    if raw == [] {
      assert SameFold([], []) by { NothingIsSame(); }
    } else {
      var n := |raw| - 1;
      ShorterRun(st.cluster, merged, raw);
      AllWorkloads(st, known, merged[..n], raw[..n], now, id);
      OneWorkload(st, known, merged[n], raw[n], now, id);
      var am, ar := Flatten(st, known, merged[..n], now), Flatten(st, known, raw[..n], now);
      var bm, br := NormalizeAll(st, known, merged[n], merged[n].edges, now),
        NormalizeAll(st, known, raw[n], raw[n].edges, now);
      GroupOfAppend(am, bm, id);
      GroupOfAppend(ar, br, id);
      SameFoldAppend(Group(am, id), Group(ar, id), Group(bm, id), Group(br, id));
    }
  }

  lemma NothingIsSame()
    ensures SameFold([], [])
  {}

  lemma {:induction false} WorkloadsIgnoreEdges(cluster: string, a: seq<WorkloadInput>, b: seq<WorkloadInput>)
    requires |a| == |b| && forall i :: 0 <= i < |a| ==> a[i].(edges := []) == b[i].(edges := [])
    ensures ObservedWorkloads(cluster, a) == ObservedWorkloads(cluster, b)
  {
    hide NormalizeCriticality, WorkloadID;
    if a != [] {
      var n := |a| - 1;
      WorkloadsIgnoreEdges(cluster, a[..n], b[..n]);
      var x, y := a[n].(edges := []), b[n].(edges := []);
      assert x == y && ObserveWorkload(cluster, x) == ObserveWorkload(cluster, a[n])
        && ObserveWorkload(cluster, y) == ObserveWorkload(cluster, b[n]);
      assert x.ref == a[n].ref && y.ref == b[n].ref;
    }
  }

  /** Merging first is invisible in the graph. */
  lemma MergingFirstChangesNothing(st: State, secrets: seq<SecretInput>, merged: seq<WorkloadInput>,
                                   raw: seq<WorkloadInput>, now: Time)
    requires AllMergedFirst(merged, raw) && WellFormed(raw) && AllInputsExtracted(st.cluster, raw)
    requires PlainSecrets(secrets)
    ensures Apply(st, secrets, merged, now) == Apply(st, secrets, raw, now)
  {
    hide ObservedSecrets, ObservedWorkloads, ObservedVersions, FinishedSecrets, FinishedWorkloads, WithPhantoms,
         NamedSecrets, MergeAll, Flatten, WellFormed, AllInputsExtracted, Lists, PlainSecrets;
    var known := ObservedSecrets(st, secrets, now).Keys;
    ListedArePlain(st, secrets, now);
    var em, er := ObservedEdges(st, known, merged, now), ObservedEdges(st, known, raw, now);
    forall id ensures id in em <==> id in er
      ensures id in em ==> em[id] == er[id]
    {
      AllWorkloads(st, known, merged, raw, now, id);
      MergeAllFoldsGroups(AtSnapshot, Flatten(st, known, merged, now), id);
      MergeAllFoldsGroups(AtSnapshot, Flatten(st, known, raw, now), id);
    }
    assert em == er;
    WorkloadsIgnoreEdges(st.cluster, merged, raw);
  }
}

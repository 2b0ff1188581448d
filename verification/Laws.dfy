/** Laws relating two applications of a snapshot: order, repetition, growth and merging first. */
module Laws {
  import opened GraphTypes
  import opened Ids
  import opened Criticality
  import opened Merge
  import opened GraphSpec
  import opened Counting
  import opened Consistency
  import opened History

  // ----- Repetition -----

  lemma {:induction false} FlattenOfSame(st: State, st': State, known: set<string>, inputs: seq<WorkloadInput>,
                                         now: Time)
    requires forall i, j :: 0 <= i < |inputs| && 0 <= j < |inputs[i].edges| ==>
      Normalize(st, known, inputs[i], inputs[i].edges[j], now) ==
        Normalize(st', known, inputs[i], inputs[i].edges[j], now)
    ensures Flatten(st, known, inputs, now) == Flatten(st', known, inputs, now)
  {
    hide Normalize;
    if inputs != [] {
      var init, last := inputs[..|inputs| - 1], inputs[|inputs| - 1];
      assert forall i :: 0 <= i < |init| ==> init[i] == inputs[i];
      FlattenOfSame(st, st', known, init, now);
      assert NormalizeAll(st, known, last, last.edges, now) == NormalizeAll(st', known, last, last.edges, now);
    }
  }

  lemma EdgesAgain(st: State, u: Update)
    requires u.now != 0
    ensures
      var r := Apply(st, u.secrets, u.workloads, u.now);
      var known := ObservedSecrets(st, u.secrets, u.now).Keys;
      ObservedEdges(r, known, u.workloads, u.now) == ObservedEdges(st, known, u.workloads, u.now)
  {
    hide Apply, StoredID;
    var r := Apply(st, u.secrets, u.workloads, u.now);
    var known := ObservedSecrets(st, u.secrets, u.now).Keys;
    ApplyKeepsCluster(st, u);
    forall i, j | 0 <= i < |u.workloads| && 0 <= j < |u.workloads[i].edges|
      ensures Normalize(st, known, u.workloads[i], u.workloads[i].edges[j], u.now)
           == Normalize(r, known, u.workloads[i], u.workloads[i].edges[j], u.now)
    {
      var id := StoredID(st.cluster, u.workloads[i].edges[j]);
      assert EdgeAt(st.cluster, u, id, i, j);
      StoredEdgeTimes(st, u, id);
    }
    FlattenOfSame(st, r, known, u.workloads, u.now);
  }

  lemma ApplyKeepsCluster(st: State, u: Update)
    ensures Apply(st, u.secrets, u.workloads, u.now).cluster == st.cluster
  {}

  lemma SecretAgain(st: State, u: Update, key: string)
    requires u.now != 0 && Listed(u.secrets, key)
    ensures
      var r := Apply(st, u.secrets, u.workloads, u.now);
      ObserveSecret(r, LastListed(u.secrets, key), u.now) == ObserveSecret(st, LastListed(u.secrets, key), u.now)
  {
    hide Apply, Listed, LastListed, SecretID, NormalizeCriticality;
    SecretCarriedOver(st, u, key);
    LastListedHasKey(u.secrets, key);
    ApplyKeepsCluster(st, u);
  }

  lemma SecretsAgain(st: State, u: Update)
    requires u.now != 0
    ensures ObservedSecrets(Apply(st, u.secrets, u.workloads, u.now), u.secrets, u.now) ==
      ObservedSecrets(st, u.secrets, u.now)
  {
    hide Apply, Listed, LastListed, SecretID, ObserveSecret, ObservedSecrets;
    var r := Apply(st, u.secrets, u.workloads, u.now);
    var again, once := ObservedSecrets(r, u.secrets, u.now), ObservedSecrets(st, u.secrets, u.now);
    forall key ensures key in again <==> key in once
      ensures key in once ==> again[key] == once[key]
    {
      ObservedIsLastListed(r, u.secrets, u.now, key);
      ObservedIsLastListed(st, u.secrets, u.now, key);
      if Listed(u.secrets, key) { SecretAgain(st, u, key); }
    }
  }

  /** The same snapshot again at the same time changes nothing. */
  lemma ApplyIsIdempotent(st: State, u: Update)
    requires u.now != 0
    ensures
      var r := Apply(st, u.secrets, u.workloads, u.now);
      Apply(r, u.secrets, u.workloads, u.now) == r
  {
    hide ObservedSecrets, ObservedEdges, ObservedWorkloads, ObservedVersions, FinishedSecrets, FinishedWorkloads,
         WithPhantoms, NamedSecrets;
    SecretsAgain(st, u);
    EdgesAgain(st, u);
  }

  // ----- Order -----

  ghost predicate DistinctSecrets(inputs: seq<SecretInput>) {
    forall i, j :: 0 <= i < |inputs| && 0 <= j < |inputs| && SecretID(inputs[i].ref) == SecretID(inputs[j].ref) ==>
      i == j
  }

  ghost predicate DistinctWorkloads(inputs: seq<WorkloadInput>) {
    forall i, j :: 0 <= i < |inputs| && 0 <= j < |inputs| && WorkloadID(inputs[i].ref) == WorkloadID(inputs[j].ref) ==>
      i == j
  }

  ghost predicate DistinctEdges(cluster: string, u: Update) {
    forall id, i, j, i', j' :: EdgeAt(cluster, u, id, i, j) && EdgeAt(cluster, u, id, i', j') ==> i == i' && j == j'
  }

  ghost predicate Distinct(cluster: string, u: Update) {
    DistinctSecrets(u.secrets) && DistinctWorkloads(u.workloads) && DistinctEdges(cluster, u)
  }

  /** The same workload, its edges in any order. */
  ghost predicate SameWorkloadInput(a: WorkloadInput, b: WorkloadInput) {
    a.(edges := []) == b.(edges := []) && forall e :: e in a.edges <==> e in b.edges
  }

  ghost predicate Covered(w: WorkloadInput, b: seq<WorkloadInput>) {
    exists j :: 0 <= j < |b| && SameWorkloadInput(w, b[j])
  }

  ghost predicate Covers(a: seq<WorkloadInput>, b: seq<WorkloadInput>) {
    forall i :: 0 <= i < |a| ==> Covered(a[i], b)
  }

  /** Secrets, workloads and each workload's edges in another order. */
  ghost predicate Reordered(a: Update, b: Update) {
    && a.now == b.now
    && (forall s :: s in a.secrets <==> s in b.secrets)
    && Covers(a.workloads, b.workloads) && Covers(b.workloads, a.workloads)
  }

  lemma LastListedOfDistinct(a: seq<SecretInput>, b: seq<SecretInput>, key: string)
    requires DistinctSecrets(a) && DistinctSecrets(b) && forall s :: s in a <==> s in b
    ensures Listed(a, key) <==> Listed(b, key)
    ensures Listed(a, key) ==> LastListed(a, key) == LastListed(b, key)
  {
    hide SecretID;
    ListedIsMember(a, b, key);
    ListedIsMember(b, a, key);
    if Listed(a, key) {
      LastListedIsMember(a, key);
      LastListedIsMember(b, key);
      var i :| 0 <= i < |b| && b[i] == LastListed(a, key);
      var j :| 0 <= j < |b| && b[j] == LastListed(b, key);
    }
  }

  lemma ListedIsMember(a: seq<SecretInput>, b: seq<SecretInput>, key: string)
    requires forall s :: s in a ==> s in b
    ensures Listed(a, key) ==> Listed(b, key)
  {
    if i :| 0 <= i < |a| && SecretID(a[i].ref) == key {
      assert a[i] in b;
    }
  }

  lemma {:induction false} LastListedIsMember(inputs: seq<SecretInput>, key: string)
    requires Listed(inputs, key)
    ensures LastListed(inputs, key) in inputs
    ensures SecretID(LastListed(inputs, key).ref) == key
  {
    LastListedHasKey(inputs, key);
    if SecretID(inputs[|inputs| - 1].ref) != key {
      var init := inputs[..|inputs| - 1];
      var i :| 0 <= i < |inputs| && SecretID(inputs[i].ref) == key;
      assert init[i] == inputs[i];
      LastListedIsMember(init, key);
    }
  }

  lemma SecretsInAnyOrder(st: State, a: Update, b: Update)
    requires DistinctSecrets(a.secrets) && DistinctSecrets(b.secrets) && Reordered(a, b)
    ensures ObservedSecrets(st, a.secrets, a.now) == ObservedSecrets(st, b.secrets, b.now)
    ensures ObservedVersions(a.secrets) == ObservedVersions(b.secrets)
  {
    hide SecretID, Listed, LastListed, ObserveSecret, DistinctSecrets, ObservedSecrets, ObservedVersions;
    var sa, sb := ObservedSecrets(st, a.secrets, a.now), ObservedSecrets(st, b.secrets, b.now);
    var va, vb := ObservedVersions(a.secrets), ObservedVersions(b.secrets);
    forall key
      ensures key in sa <==> key in sb
      ensures key in va <==> key in vb
      ensures key in sa ==> sa[key] == sb[key]
      ensures key in va ==> va[key] == vb[key]
    {
      ObservedIsLastListed(st, a.secrets, a.now, key);
      ObservedIsLastListed(st, b.secrets, b.now, key);
      LastListedOfDistinct(a.secrets, b.secrets, key);
    }
    assert sa.Keys == sb.Keys && va.Keys == vb.Keys;
  }

  lemma WorkloadKeysCovered(cluster: string, a: seq<WorkloadInput>, b: seq<WorkloadInput>, k: string)
    requires DistinctWorkloads(b) && Covers(a, b)
    requires k in ObservedWorkloads(cluster, a)
    ensures k in ObservedWorkloads(cluster, b)
    ensures ObservedWorkloads(cluster, a)[k] == ObservedWorkloads(cluster, b)[k]
  {
    hide WorkloadID, NormalizeCriticality, ObservedWorkloads;
    ObservedWorkloadKeys(cluster, a, k);
    var i :| 0 <= i < |a| && WorkloadID(a[i].ref) == k
      && ObservedWorkloads(cluster, a)[k] == ObserveWorkload(cluster, a[i]);
    var j :| 0 <= j < |b| && SameWorkloadInput(a[i], b[j]);
    assert a[i].(edges := []).ref == b[j].(edges := []).ref;
    ObservedWorkloadKeys(cluster, b, k);
    var j' :| 0 <= j' < |b| && WorkloadID(b[j'].ref) == k
      && ObservedWorkloads(cluster, b)[k] == ObserveWorkload(cluster, b[j']);
    assert j == j';
    var x, y := a[i].(edges := []), b[j].(edges := []);
    assert x == y && ObserveWorkload(cluster, x) == ObserveWorkload(cluster, a[i])
      && ObserveWorkload(cluster, y) == ObserveWorkload(cluster, b[j]);
  }

  lemma WorkloadsInAnyOrder(cluster: string, a: Update, b: Update)
    requires DistinctWorkloads(a.workloads) && DistinctWorkloads(b.workloads) && Reordered(a, b)
    ensures ObservedWorkloads(cluster, a.workloads) == ObservedWorkloads(cluster, b.workloads)
  {
    hide DistinctWorkloads, Covers, ObservedWorkloads;
    var wa, wb := ObservedWorkloads(cluster, a.workloads), ObservedWorkloads(cluster, b.workloads);
    forall k ensures k in wa <==> k in wb
      ensures k in wa ==> wa[k] == wb[k]
    {
      if k in wa { WorkloadKeysCovered(cluster, a.workloads, b.workloads, k); }
      if k in wb { WorkloadKeysCovered(cluster, b.workloads, a.workloads, k); }
    }
  }

  lemma FlatMemberCovered(st: State, known: set<string>, a: seq<WorkloadInput>, b: seq<WorkloadInput>, now: Time,
                          e: DependencyEdge)
    requires Covers(a, b) && e in Flatten(st, known, a, now)
    ensures e in Flatten(st, known, b, now)
  {
    hide NormalizeCriticality, StoredID, SecretID, Flatten;
    FlattenMember(st, known, a, now, e);
    var i, j :| ComesFrom(st, known, a, now, e, i, j);
    var i' :| 0 <= i' < |b| && SameWorkloadInput(a[i], b[i']);
    assert a[i].edges[j] in b[i'].edges;
    var j' :| 0 <= j' < |b[i'].edges| && b[i'].edges[j'] == a[i].edges[j];
    NormalizeIgnoresEdges(st, known, a[i], b[i'], a[i].edges[j], now);
    assert ComesFrom(st, known, b, now, e, i', j');
    FlattenMember(st, known, b, now, e);
  }

  /** No two edges of the snapshot share a key, so none merge. */
  lemma {:induction false} FlatIsDistinct(st: State, known: set<string>, u: Update)
    requires DistinctEdges(st.cluster, u)
    ensures DistinctIDs(Flatten(st, known, u.workloads, u.now))
    decreases |u.workloads|
  {
    hide StoredID, Normalize, DistinctIDs;
    var inputs := u.workloads;
    if inputs != [] {
      var init, last := inputs[..|inputs| - 1], inputs[|inputs| - 1];
      var v := u.(workloads := init);
      assert forall id, i, j :: EdgeAt(st.cluster, v, id, i, j) ==> EdgeAt(st.cluster, u, id, i, j);
      FlatIsDistinct(st, known, v);
      var head, tail := Flatten(st, known, init, u.now), NormalizeAll(st, known, last, last.edges, u.now);
      forall x | 0 <= x < |tail| ensures EdgeAt(st.cluster, u, tail[x].id, |inputs| - 1, x) {
        NormalizedID(st, known, last, last.edges[x], u.now);
      }
      forall x, y | 0 <= x < |tail| && 0 <= y < |tail| && tail[x].id == tail[y].id ensures x == y {
        assert EdgeAt(st.cluster, u, tail[x].id, |inputs| - 1, x) && EdgeAt(st.cluster, u, tail[y].id, |inputs| - 1, y);
      }
      assert DistinctIDs(tail) by { DistinctByIndex(tail); }
      forall x, y | 0 <= x < |head| && 0 <= y < |tail| ensures head[x].id != tail[y].id {
        FlattenMember(st, known, init, u.now, head[x]);
        var i, j :| ComesFrom(st, known, init, u.now, head[x], i, j);
        NormalizedID(st, known, init[i], init[i].edges[j], u.now);
        assert EdgeAt(st.cluster, u, head[x].id, i, j) && EdgeAt(st.cluster, u, tail[y].id, |inputs| - 1, y);
      }
      DistinctAppend(head, tail);
    } else {
      DistinctByIndex([]);
    }
  }

  lemma NormalizedID(st: State, known: set<string>, input: WorkloadInput, e: DependencyEdge, now: Time)
    ensures Normalize(st, known, input, e, now).id == StoredID(st.cluster, e)
  {}

  lemma DistinctByIndex(es: seq<DependencyEdge>)
    requires forall x, y :: 0 <= x < |es| && 0 <= y < |es| && es[x].id == es[y].id ==> x == y
    ensures DistinctIDs(es)
  {}

  lemma DistinctAppend(a: seq<DependencyEdge>, b: seq<DependencyEdge>)
    requires DistinctIDs(a) && DistinctIDs(b)
    requires forall x, y :: 0 <= x < |a| && 0 <= y < |b| ==> a[x].id != b[y].id
    ensures DistinctIDs(a + b)
  {}

  lemma MergeOfDistinct(a: seq<DependencyEdge>, b: seq<DependencyEdge>)
    requires DistinctIDs(a) && DistinctIDs(b) && forall e :: e in a <==> e in b
    ensures MergeAll(AtSnapshot, a) == MergeAll(AtSnapshot, b)
  {
    hide MergeAll, DistinctIDs;
    var ma, mb := MergeAll(AtSnapshot, a), MergeAll(AtSnapshot, b);
    forall id ensures id in ma <==> id in mb
      ensures id in ma ==> ma[id] == mb[id]
    {
      MergeAllFoldsGroups(AtSnapshot, a, id);
      MergeAllFoldsGroups(AtSnapshot, b, id);
      GroupOfSameElements(a, b, id);
    }
  }

  lemma GroupOfSameElements(a: seq<DependencyEdge>, b: seq<DependencyEdge>, id: string)
    requires DistinctIDs(a) && DistinctIDs(b) && forall e :: e in a <==> e in b
    ensures Group(a, id) == Group(b, id)
  {
    hide Group;
    if i :| 0 <= i < |a| && a[i].id == id {
      assert a[i] in b;
      var j :| 0 <= j < |b| && b[j] == a[i];
      GroupOfDistinct(a, i);
      GroupOfDistinct(b, j);
    } else {
      assert forall j :: 0 <= j < |b| ==> b[j] in a && b[j].id != id;
    }
  }

  lemma EdgesInAnyOrder(st: State, known: set<string>, a: Update, b: Update)
    requires DistinctEdges(st.cluster, a) && DistinctEdges(st.cluster, b) && Reordered(a, b)
    ensures ObservedEdges(st, known, a.workloads, a.now) == ObservedEdges(st, known, b.workloads, b.now)
  {
    hide DistinctEdges, Covers, DistinctIDs, Flatten, MergeAll;
    FlatIsDistinct(st, known, a);
    FlatIsDistinct(st, known, b);
    var fa, fb := Flatten(st, known, a.workloads, a.now), Flatten(st, known, b.workloads, b.now);
    forall e ensures e in fa <==> e in fb {
      if e in fa { FlatMemberCovered(st, known, a.workloads, b.workloads, a.now, e); }
      if e in fb { FlatMemberCovered(st, known, b.workloads, a.workloads, a.now, e); }
    }
    MergeOfDistinct(fa, fb);
  }

  /** With distinct keys, the order of a snapshot's lists makes no difference to the graph. */
  lemma ApplyInAnyOrder(st: State, a: Update, b: Update)
    requires Distinct(st.cluster, a) && Distinct(st.cluster, b) && Reordered(a, b)
    ensures Apply(st, a.secrets, a.workloads, a.now) == Apply(st, b.secrets, b.workloads, b.now)
  {
    hide ObservedSecrets, ObservedEdges, ObservedWorkloads, ObservedVersions, FinishedSecrets, FinishedWorkloads,
         WithPhantoms, NamedSecrets,
         DistinctSecrets, DistinctWorkloads, DistinctEdges, Reordered;
    SecretsInAnyOrder(st, a, b);
    WorkloadsInAnyOrder(st.cluster, a, b);
    EdgesInAnyOrder(st, ObservedSecrets(st, a.secrets, a.now).Keys, a, b);
    assert a.now == b.now by { ReorderedKeepsTime(a, b); }
  }

  lemma ReorderedKeepsTime(a: Update, b: Update)
    requires Reordered(a, b)
    ensures a.now == b.now
  {}

  // ----- Growth -----

  /** An edge that stays when more is merged into the graph stays what it counts as. */
  ghost predicate Grows(earlier: map<string, DependencyEdge>, later: map<string, DependencyEdge>) {
    forall id :: id in earlier ==>
      && id in later
      && later[id].workload == earlier[id].workload && later[id].secret == earlier[id].secret
      && later[id].ownerTeam == earlier[id].ownerTeam && later[id].criticality == earlier[id].criticality
      && later[id].resolved == earlier[id].resolved
  }

  lemma EdgesGrow(st: State, known: set<string>, inputs: seq<WorkloadInput>, more: WorkloadInput, now: Time)
    requires WellFormed(inputs + [more]) && PlainKeys(known)
    ensures Grows(ObservedEdges(st, known, inputs, now), ObservedEdges(st, known, inputs + [more], now))
  {
    hide MergeAll, Flatten;
    var edges, edges' := ObservedEdges(st, known, inputs, now), ObservedEdges(st, known, inputs + [more], now);
    assert WellFormed(inputs) by {
      assert forall i :: 0 <= i < |inputs| ==> inputs[i] == (inputs + [more])[i];
    }
    forall id | id in edges
      ensures id in edges'
      ensures edges'[id].workload == edges[id].workload && edges'[id].secret == edges[id].secret
      ensures edges'[id].ownerTeam == edges[id].ownerTeam && edges'[id].criticality == edges[id].criticality
      ensures edges'[id].resolved == edges[id].resolved
    {
      hide SecretID, WellFormed, Normalize, NormalizeAll;
      StoredEdgeIsMerge(st, known, inputs, now, id);
      StoredEdgeIsMerge(st, known, inputs + [more], now, id);
      FlatGroupGrows(st, known, inputs, more, now, id);
      StoredEdgeIsResolved(st, known, inputs, now, id);
      StoredEdgeIsResolved(st, known, inputs + [more], now, id);
    }
  }

  lemma FlatGroupGrows(st: State, known: set<string>, inputs: seq<WorkloadInput>, more: WorkloadInput, now: Time,
                       id: string)
    ensures Group(Flatten(st, known, inputs + [more], now), id)
         == Group(Flatten(st, known, inputs, now), id) + Group(NormalizeAll(st, known, more, more.edges, now), id)
  {
    hide Group, NormalizeAll;
    assert (inputs + [more])[..|inputs|] == inputs;
    GroupOfAppend(Flatten(st, known, inputs, now), NormalizeAll(st, known, more, more.edges, now), id);
  }

  lemma SetsGrow(earlier: map<string, DependencyEdge>, later: map<string, DependencyEdge>, k: string)
    requires Grows(earlier, later)
    ensures AffectedWorkloads(earlier, earlier.Keys, k) <= AffectedWorkloads(later, later.Keys, k)
    ensures AffectedTeams(earlier, earlier.Keys, k) <= AffectedTeams(later, later.Keys, k)
    ensures AffectedNamespaces(earlier, earlier.Keys, k) <= AffectedNamespaces(later, later.Keys, k)
    ensures UnresolvedNaming(earlier, earlier.Keys, k) <= UnresolvedNaming(later, later.Keys, k)
    ensures NamedSecrets(earlier, earlier.Keys) <= NamedSecrets(later, later.Keys)
  {}

  lemma CriticalityGrows(earlier: map<string, DependencyEdge>, later: map<string, DependencyEdge>, k: string,
                         base: string)
    requires Grows(earlier, later)
    requires base == RankName(CriticalityRank(base))
    ensures
      var before, after := DerivedCriticality(earlier, earlier.Keys, k), DerivedCriticality(later, later.Keys, k);
      var c := if before == "" then base else MaxCriticality(base, before);
      var c' := if after == "" then base else MaxCriticality(base, after);
      && CriticalityRank(c') >= CriticalityRank(c)
      && c == RankName(CriticalityRank(c)) && c' == RankName(CriticalityRank(c'))
  {
    hide SecretID, NormalizeCriticality, CriticalityRank, MaxCriticality, RankReached;
    forall r: nat | RankReached(earlier, earlier.Keys, k, r) ensures RankReached(later, later.Keys, k, r) {
      RankGrows(earlier, later, k, r);
    }
    RankNameIsNormal(TopRank(earlier, earlier.Keys, k));
    RankNameIsNormal(TopRank(later, later.Keys, k));
    MaxCriticalityIsMaxRank(base, DerivedCriticality(earlier, earlier.Keys, k));
    MaxCriticalityIsMaxRank(base, DerivedCriticality(later, later.Keys, k));
    RankIsAtMostFour(base);
    RankNameIsNormal(CriticalityRank(base));
  }

  lemma RankIsAtMostFour(c: string)
    ensures CriticalityRank(c) <= 4
  {}

  lemma RankGrows(earlier: map<string, DependencyEdge>, later: map<string, DependencyEdge>, k: string, r: nat)
    requires Grows(earlier, later) && RankReached(earlier, earlier.Keys, k, r)
    ensures RankReached(later, later.Keys, k, r)
  {}

  lemma FinishedGrows(base: SecretSummary, earlier: map<string, DependencyEdge>, later: map<string, DependencyEdge>,
                      k: string)
    requires Grows(earlier, later)
    requires base.criticality == RankName(CriticalityRank(base.criticality))
    ensures NoLowerThan(FinishSecret(base, later, k), FinishSecret(base, earlier, k))
    ensures FinishSecret(base, later, k).impactScore >= FinishSecret(base, earlier, k).impactScore
  {
    hide Grows, CriticalityRank, DerivedCriticality, MaxCriticality, AffectedWorkloads, AffectedTeams,
         AffectedNamespaces, UnresolvedNaming, SoleTeam, RankName;
    SetsGrow(earlier, later, k);
    SubsetSize(AffectedWorkloads(earlier, earlier.Keys, k), AffectedWorkloads(later, later.Keys, k));
    SubsetSize(AffectedTeams(earlier, earlier.Keys, k), AffectedTeams(later, later.Keys, k));
    SubsetSize(AffectedNamespaces(earlier, earlier.Keys, k), AffectedNamespaces(later, later.Keys, k));
    SubsetSize(UnresolvedNaming(earlier, earlier.Keys, k), UnresolvedNaming(later, later.Keys, k));
    CriticalityGrows(earlier, later, k, base.criticality);
    var a, b := FinishSecret(base, later, k), FinishSecret(base, earlier, k);
    var a', b' := a.(impactScore := 0), b.(impactScore := 0);
    ScoreIsMonotone(a', b');
    ScoreIgnoresScore(a');
    ScoreIgnoresScore(b');
  }

  /**
   One more workload never lowers any Secret's counts, criticality or score, and takes no
   Secret out of the graph.
   */
  lemma MoreWorkloadsMoreImpact(st: State, secrets: seq<SecretInput>, inputs: seq<WorkloadInput>,
                                more: WorkloadInput, now: Time, k: string)
    requires WellFormed(inputs + [more]) && PlainSecrets(secrets)
    requires k in Apply(st, secrets, inputs, now).secrets
    ensures
      var before, after := Apply(st, secrets, inputs, now), Apply(st, secrets, inputs + [more], now);
      && k in after.secrets
      && NoLowerThan(after.secrets[k], before.secrets[k])
      && after.secrets[k].impactScore >= before.secrets[k].impactScore
  {
    hide ObservedSecrets, ObservedEdges, ObservedWorkloads, ObservedVersions, FinishSecret, NamedSecrets, Grows,
         RankName, CriticalityRank, NoLowerThan, SecretID, RefOf, WellFormed, PlainSecrets, PlainKeys;
    var base := ObservedSecrets(st, secrets, now);
    ListedArePlain(st, secrets, now);
    var edges, edges' := ObservedEdges(st, base.Keys, inputs, now), ObservedEdges(st, base.Keys, inputs + [more], now);
    EdgesGrow(st, base.Keys, inputs, more, now);
    SetsGrow(edges, edges', k);
    var found := WithPhantoms(st.cluster, base, NamedSecrets(edges, edges.Keys))[k];
    if k in base {
      ObservedCriticality(st, secrets, now, k);
    } else {
      UnknownIsNormal();
    }
    FinishedGrows(found, edges, edges', k);
  }

  lemma UnknownIsNormal()
    ensures "unknown" == RankName(CriticalityRank("unknown"))
  {}

  lemma ObservedCriticality(st: State, secrets: seq<SecretInput>, now: Time, k: string)
    requires k in ObservedSecrets(st, secrets, now)
    ensures
      var c := ObservedSecrets(st, secrets, now)[k].criticality;
      c == RankName(CriticalityRank(c))
  {
    hide SecretID;
    ObservedSecretKeys(st, secrets, now, k);
    var i :| 0 <= i < |secrets| && SecretID(secrets[i].ref) == k
      && ObservedSecrets(st, secrets, now)[k] == ObserveSecret(st, secrets[i], now);
    var c := secrets[i].criticality;
    NormalizeIsRankName(c);
    RankNameIsNormal(CriticalityRank(c));
  }
}

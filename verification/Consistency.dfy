/**
 What every reachable graph satisfies: keys name their records, edges have both ends, an
 edge is resolved exactly when its Secret exists, and the stored counts add up.
 */
module Consistency {
  import opened GraphTypes
  import opened Ids
  import opened Criticality
  import opened Merge
  import opened GraphSpec
  import opened Counting

  ghost predicate EdgeKeyed(cluster: string, id: string, e: DependencyEdge) {
    && e.id == id == EdgeID(e.workload, e.secret)
    && e.cluster == e.workload.cluster == e.secret.cluster == cluster
    && e.secret.key == ""
    && WellNamedWorkload(e.workload) && WellNamedSecret(e.secret)
  }

  ghost predicate EdgesKeyed(st: State) {
    forall id :: id in st.edges ==> EdgeKeyed(st.cluster, id, st.edges[id])
  }

  ghost predicate KeysFit(st: State) {
    && (forall k :: k in st.secrets ==> SecretID(st.secrets[k].ref) == k)
    && (forall k :: k in st.workloads ==> WorkloadID(st.workloads[k].ref) == k)
    && (forall k :: k in st.edges ==> st.edges[k].id == k)
  }

  ghost predicate NodesKeyed(st: State) {
    KeysFit(st) && forall k :: k in st.workloads ==> WellNamedWorkload(st.workloads[k].ref)
  }

  /** Referential integrity: no edge points at a missing node. */
  ghost predicate EndsExist(st: State) {
    forall id :: id in st.edges ==>
      SecretID(st.edges[id].secret) in st.secrets && WorkloadID(st.edges[id].workload) in st.workloads
  }

  ghost predicate ResolvedIffExists(st: State) {
    forall id :: id in st.edges && SecretID(st.edges[id].secret) in st.secrets ==>
      (st.edges[id].resolved <==> st.secrets[SecretID(st.edges[id].secret)].exists_)
  }

  /** A Secret that does not exist is in the graph only because an edge names it. */
  ghost predicate PhantomsNamed(st: State) {
    forall k :: k in st.secrets && !st.secrets[k].exists_ ==> k in NamedSecrets(st.edges, st.edges.Keys)
  }

  ghost predicate SecretCounted(s: SecretSummary, edges: map<string, DependencyEdge>, k: string) {
    && s.affectedWorkloadCount == |AffectedWorkloads(edges, edges.Keys, k)|
    && s.affectedTeamCount == |AffectedTeams(edges, edges.Keys, k)|
    && s.affectedNamespaceCount == |AffectedNamespaces(edges, edges.Keys, k)|
    && s.unresolvedReferenceCount == |UnresolvedNaming(edges, edges.Keys, k)|
    && s.impactScore == ImpactScore(s)
  }

  ghost predicate WorkloadCounted(w: WorkloadSummary, edges: map<string, DependencyEdge>, k: string) {
    && w.dependencyCount == |Dependencies(edges, edges.Keys, k)|
    && w.unresolvedCount == |UnresolvedUsed(edges, edges.Keys, k)|
  }

  ghost predicate Counted(st: State) {
    && (forall k :: k in st.secrets ==> SecretCounted(st.secrets[k], st.edges, k))
    && (forall k :: k in st.workloads ==> WorkloadCounted(st.workloads[k], st.edges, k))
  }

  ghost predicate Consistent(st: State) {
    EdgesKeyed(st) && NodesKeyed(st) && EndsExist(st) && ResolvedIffExists(st) && PhantomsNamed(st) && Counted(st)
  }

  // ----- Where the edges of a snapshot come from -----

  ghost predicate ComesFrom(st: State, known: set<string>, inputs: seq<WorkloadInput>, now: Time, e: DependencyEdge,
                            i: int, j: int) {
    && 0 <= i < |inputs| && 0 <= j < |inputs[i].edges|
    && e == Normalize(st, known, inputs[i], inputs[i].edges[j], now)
  }

  lemma {:induction false} FlattenMember(st: State, known: set<string>, inputs: seq<WorkloadInput>, now: Time,
                                         e: DependencyEdge)
    ensures e in Flatten(st, known, inputs, now) <==> exists i, j :: ComesFrom(st, known, inputs, now, e, i, j)
  {
    hide Normalize;
    if inputs != [] {
      var init, last := inputs[..|inputs| - 1], inputs[|inputs| - 1];
      FlattenMember(st, known, init, now, e);
      var tail := NormalizeAll(st, known, last, last.edges, now);
      if i, j :| ComesFrom(st, known, init, now, e, i, j) {
        assert ComesFrom(st, known, inputs, now, e, i, j);
      }
      if e in tail {
        var j :| 0 <= j < |tail| && tail[j] == e;
        assert ComesFrom(st, known, inputs, now, e, |inputs| - 1, j);
      }
      if i, j :| ComesFrom(st, known, inputs, now, e, i, j) {
        if i < |init| {
          assert ComesFrom(st, known, init, now, e, i, j);
        } else {
          assert e == tail[j];
        }
      }
    }
  }

  /** A stored edge is the merge of a group of normalised input edges that share its key. */
  lemma StoredEdgeIsMerge(st: State, known: set<string>, inputs: seq<WorkloadInput>, now: Time, id: string)
    ensures
      var flat := Flatten(st, known, inputs, now);
      var edges := ObservedEdges(st, known, inputs, now);
      && (id in edges <==> Group(flat, id) != [])
      && (id in edges ==> IsMergeOf(AtSnapshot, edges[id], Group(flat, id)))
  {
    hide IsMergeOf;
    var flat := Flatten(st, known, inputs, now);
    MergeAllFoldsGroups(AtSnapshot, flat, id);
    if Group(flat, id) != [] {
      FoldIsMerge(AtSnapshot, Group(flat, id));
    }
  }

  lemma {:induction false} ObservedWorkloadKeys(cluster: string, inputs: seq<WorkloadInput>, k: string)
    ensures k in ObservedWorkloads(cluster, inputs) <==> exists i :: 0 <= i < |inputs| && WorkloadID(inputs[i].ref) == k
    ensures k in ObservedWorkloads(cluster, inputs) ==>
      exists i :: 0 <= i < |inputs| && WorkloadID(inputs[i].ref) == k
                  && ObservedWorkloads(cluster, inputs)[k] == ObserveWorkload(cluster, inputs[i])
  {
    hide WorkloadID, ObserveWorkload;
    if inputs != [] {
      var init := inputs[..|inputs| - 1];
      ObservedWorkloadKeys(cluster, init, k);
      assert forall i :: 0 <= i < |inputs| ==>
        inputs[i] == inputs[|inputs| - 1] || (i < |init| && inputs[i] == init[i]);
      assert forall i :: 0 <= i < |init| ==> init[i] == inputs[i];
    }
  }

  lemma {:induction false} ObservedSecretKeys(st: State, inputs: seq<SecretInput>, now: Time, k: string)
    requires k in ObservedSecrets(st, inputs, now)
    ensures exists i :: 0 <= i < |inputs| && SecretID(inputs[i].ref) == k
                        && ObservedSecrets(st, inputs, now)[k] == ObserveSecret(st, inputs[i], now)
  {
    hide SecretID, ObserveSecret;
    var init := inputs[..|inputs| - 1];
    if SecretID(inputs[|inputs| - 1].ref) != k {
      ObservedSecretKeys(st, init, now, k);
      var i :| 0 <= i < |init| && SecretID(init[i].ref) == k
        && ObservedSecrets(st, init, now)[k] == ObserveSecret(st, init[i], now);
      assert inputs[i] == init[i];
    }
  }

  /** Settling an edge reads its workload's own fields only. */
  lemma NormalizeIgnoresEdges(st: State, known: set<string>, a: WorkloadInput, b: WorkloadInput, e: DependencyEdge,
                              now: Time)
    requires a.(edges := []) == b.(edges := [])
    ensures Normalize(st, known, a, e, now) == Normalize(st, known, b, e, now)
  {}

  // ----- Applying a snapshot establishes each part -----

  lemma StoredEdgeIsKeyed(st: State, known: set<string>, inputs: seq<WorkloadInput>, now: Time, id: string)
    requires WellFormed(inputs)
    requires id in ObservedEdges(st, known, inputs, now)
    ensures
      var e := ObservedEdges(st, known, inputs, now)[id];
      && EdgeKeyed(st.cluster, id, e)
      && WorkloadID(e.workload) in ObservedWorkloads(st.cluster, inputs)
  {
    hide EdgeID, WorkloadID, MergeAll, WellNamedWorkload, WellNamedSecret;
    var flat := Flatten(st, known, inputs, now);
    StoredEdgeIsMerge(st, known, inputs, now, id);
    var first := Group(flat, id)[0];
    assert first in flat;
    FlattenMember(st, known, inputs, now, first);
    var i, j :| ComesFrom(st, known, inputs, now, first, i, j);
    assert WellFormedInput(inputs[i]) && inputs[i].edges[j] in inputs[i].edges;
    WellNamedIgnoresCluster(inputs[i].ref, inputs[i].edges[j].secret, st.cluster);
    ObservedWorkloadKeys(st.cluster, inputs, WorkloadID(inputs[i].ref));
  }

  lemma WellNamedIgnoresCluster(w: WorkloadRef, s: SecretRef, cluster: string)
    ensures WellNamedWorkload(w.(cluster := cluster)) == WellNamedWorkload(w)
    ensures WellNamedSecret(s.(cluster := cluster, key := "")) == WellNamedSecret(s)
    ensures WorkloadID(w.(cluster := cluster)) == WorkloadID(w)
    ensures SecretID(s.(cluster := cluster, key := "")) == SecretID(s)
  {}

  lemma ListedArePlain(st: State, secrets: seq<SecretInput>, now: Time)
    requires PlainSecrets(secrets)
    ensures PlainKeys(ObservedSecrets(st, secrets, now).Keys)
  {
    hide SecretID, ObserveSecret, ObservedSecrets;
    forall k | k in ObservedSecrets(st, secrets, now) ensures '|' !in k {
      ObservedSecretKeys(st, secrets, now, k);
    }
  }

  /** Edges with one key are resolved alike: they name one Secret, or none of them one that is listed. */
  lemma StoredEdgeIsResolved(st: State, known: set<string>, inputs: seq<WorkloadInput>, now: Time, id: string)
    requires WellFormed(inputs) && PlainKeys(known)
    requires id in ObservedEdges(st, known, inputs, now)
    ensures
      var e := ObservedEdges(st, known, inputs, now)[id];
      e.resolved <==> SecretID(e.secret) in known
  {
    hide EdgeID, WorkloadID, SecretID, MergeAll, WellNamedWorkload, WellNamedSecret;
    var flat := Flatten(st, known, inputs, now);
    var e := ObservedEdges(st, known, inputs, now)[id];
    StoredEdgeIsMerge(st, known, inputs, now, id);
    StoredEdgeIsKeyed(st, known, inputs, now, id);
    var g := Group(flat, id);
    forall i | 0 <= i < |g| ensures g[i].resolved <==> SecretID(e.secret) in known {
      assert g[i] in flat;
      NormalizedEdge(st, known, inputs, now, g[i]);
      EdgeIDIsPair(g[i].workload, g[i].secret, e.workload, e.secret);
    }
  }

  lemma NormalizedEdge(st: State, known: set<string>, inputs: seq<WorkloadInput>, now: Time, e: DependencyEdge)
    requires WellFormed(inputs) && e in Flatten(st, known, inputs, now)
    ensures EdgeKeyed(st.cluster, e.id, e)
    ensures e.resolved <==> SecretID(e.secret) in known
  {
    hide EdgeID, WorkloadID, SecretID, WellNamedWorkload, WellNamedSecret, Flatten;
    FlattenMember(st, known, inputs, now, e);
    var i, j :| ComesFrom(st, known, inputs, now, e, i, j);
    assert WellFormedInput(inputs[i]) && inputs[i].edges[j] in inputs[i].edges;
    WellNamedIgnoresCluster(inputs[i].ref, inputs[i].edges[j].secret, st.cluster);
  }

  lemma ObservedSecretIsKeyed(st: State, inputs: seq<SecretInput>, now: Time, k: string)
    requires k in ObservedSecrets(st, inputs, now)
    ensures SecretID(ObservedSecrets(st, inputs, now)[k].ref) == k
    ensures ObservedSecrets(st, inputs, now)[k].exists_
  {}

  lemma ApplyEdges(st: State, secrets: seq<SecretInput>, inputs: seq<WorkloadInput>, now: Time)
    requires WellFormed(inputs) && PlainSecrets(secrets)
    ensures
      var r := Apply(st, secrets, inputs, now);
      EdgesKeyed(r) && EndsExist(r) && ResolvedIffExists(r)
  {
    hide EdgeKeyed, ObservedEdges, ObservedSecrets, ObservedWorkloads, SecretID, WorkloadID, FinishSecret,
         FinishWorkload, Phantom, WellFormed, PlainSecrets;
    var base := ObservedSecrets(st, secrets, now);
    ListedArePlain(st, secrets, now);
    var r := Apply(st, secrets, inputs, now);
    forall id | id in r.edges
      ensures EdgeKeyed(r.cluster, id, r.edges[id])
      ensures SecretID(r.edges[id].secret) in r.secrets && WorkloadID(r.edges[id].workload) in r.workloads
      ensures r.edges[id].resolved <==> r.secrets[SecretID(r.edges[id].secret)].exists_
    {
      var k := SecretID(r.edges[id].secret);
      StoredEdgeIsKeyed(st, base.Keys, inputs, now, id);
      StoredEdgeIsResolved(st, base.Keys, inputs, now, id);
      assert k in NamedSecrets(r.edges, r.edges.Keys);
      ApplySecret(st, secrets, inputs, now, k);
    }
  }

  /** A Secret record exists exactly when the snapshot lists the Secret. */
  lemma ApplySecret(st: State, secrets: seq<SecretInput>, inputs: seq<WorkloadInput>, now: Time, k: string)
    ensures
      var r, base := Apply(st, secrets, inputs, now), ObservedSecrets(st, secrets, now);
      && (k in r.secrets <==> k in base || k in NamedSecrets(r.edges, r.edges.Keys))
      && (k in r.secrets ==> (r.secrets[k].exists_ <==> k in base) && SecretCounted(r.secrets[k], r.edges, k))
  {
    hide ObservedEdges, ObservedSecrets, ObservedWorkloads, SecretID, AffectedWorkloads, AffectedTeams,
         AffectedNamespaces, UnresolvedNaming, DerivedCriticality, MaxCriticality, SoleTeam, NamedSecrets, RefOf;
    if k in ObservedSecrets(st, secrets, now) {
      ObservedSecretIsKeyed(st, secrets, now, k);
    }
    ScoreIgnoresScore(FinishBeforeScore(st, secrets, inputs, now, k));
  }

  /** The record just before its score is set. */
  ghost function FinishBeforeScore(st: State, secrets: seq<SecretInput>, inputs: seq<WorkloadInput>, now: Time,
                                   k: string): SecretSummary {
    var r := Apply(st, secrets, inputs, now);
    if k in r.secrets then r.secrets[k].(impactScore := 0) else ZERO_SECRET
  }

  lemma ScoreIgnoresScore(s: SecretSummary)
    ensures forall n: nat {:trigger s.(impactScore := n)} :: ImpactScore(s.(impactScore := n)) == ImpactScore(s)
  {}

  lemma ApplyNodes(st: State, secrets: seq<SecretInput>, inputs: seq<WorkloadInput>, now: Time)
    requires WellFormed(inputs)
    ensures NodesKeyed(Apply(st, secrets, inputs, now))
  {
    hide ObservedEdges, ObservedSecrets, ObservedWorkloads, SecretID, WorkloadID, WellNamedWorkload, NamedSecrets,
         RefOf;
    var r, base := Apply(st, secrets, inputs, now), ObservedSecrets(st, secrets, now);
    forall k | k in r.secrets ensures SecretID(r.secrets[k].ref) == k {
      if k in base {
        ObservedSecretIsKeyed(st, secrets, now, k);
      } else {
        PhantomIsKeyed(st, base.Keys, inputs, now, k);
      }
    }
    forall k | k in r.workloads ensures WorkloadID(r.workloads[k].ref) == k && WellNamedWorkload(r.workloads[k].ref) {
      ObservedWorkloadKeys(st.cluster, inputs, k);
      var i :| 0 <= i < |inputs| && WorkloadID(inputs[i].ref) == k
               && ObservedWorkloads(st.cluster, inputs)[k] == ObserveWorkload(st.cluster, inputs[i]);
      assert WellFormedInput(inputs[i]);
      WellNamedIgnoresCluster(inputs[i].ref, SecretRef("", "", "", ""), st.cluster);
    }
    StoredKeys(st, base.Keys, inputs, now);
  }

  /** Edges are stored under the keys they carry. */
  lemma StoredKeys(st: State, known: set<string>, inputs: seq<WorkloadInput>, now: Time)
    ensures
      var edges := ObservedEdges(st, known, inputs, now);
      forall k :: k in edges ==> edges[k].id == k
  {
    hide Flatten;
    MergeAllKeepsKeys(AtSnapshot, Flatten(st, known, inputs, now));
  }

  lemma PhantomIsKeyed(st: State, known: set<string>, inputs: seq<WorkloadInput>, now: Time, k: string)
    requires WellFormed(inputs)
    requires
      var edges := ObservedEdges(st, known, inputs, now);
      k in NamedSecrets(edges, edges.Keys)
    ensures SecretID(RefOf(st.cluster, k)) == k
  {}

  /** Whatever the graph was before, after a snapshot it is consistent. */
  lemma ApplyIsConsistent(st: State, secrets: seq<SecretInput>, inputs: seq<WorkloadInput>, now: Time)
    requires WellFormed(inputs) && PlainSecrets(secrets)
    ensures Consistent(Apply(st, secrets, inputs, now))
  {
    hide WellFormed, EdgesKeyed, EndsExist, ResolvedIffExists, NodesKeyed;
    ApplyEdges(st, secrets, inputs, now);
    ApplyNodes(st, secrets, inputs, now);
    var r := Apply(st, secrets, inputs, now);
    forall k | k in r.secrets
      ensures SecretCounted(r.secrets[k], r.edges, k)
      ensures !r.secrets[k].exists_ ==> k in NamedSecrets(r.edges, r.edges.Keys)
    {
      ApplySecret(st, secrets, inputs, now, k);
    }
  }

  lemma EmptyIsConsistent(cluster: string)
    ensures Consistent(EmptyState(cluster))
  {}

  // ----- Counting -----

  ghost function SecretKeyOf(edges: map<string, DependencyEdge>): map<string, string> {
    map id | id in edges :: SecretID(edges[id].secret)
  }

  ghost function WorkloadKeyOf(edges: map<string, DependencyEdge>): map<string, string> {
    map id | id in edges :: WorkloadID(edges[id].workload)
  }

  /** Two edges of a graph with the same ends are the same edge. */
  lemma EdgesAreTheirEnds(st: State, d: string, e: string)
    requires EdgesKeyed(st) && d in st.edges && e in st.edges
    requires SecretID(st.edges[d].secret) == SecretID(st.edges[e].secret)
    requires WorkloadID(st.edges[d].workload) == WorkloadID(st.edges[e].workload)
    ensures d == e
  {
    hide EdgeID, SecretID, WorkloadID, WellNamedSecret, WellNamedWorkload;
    assert EdgeKeyed(st.cluster, d, st.edges[d]) && EdgeKeyed(st.cluster, e, st.edges[e]);
    EdgeIDIsPair(st.edges[d].workload, st.edges[d].secret, st.edges[e].workload, st.edges[e].secret);
  }

  /** A Secret's affected workloads are as many as the edges that name it. */
  lemma AffectedIsEdges(st: State, k: string)
    requires EdgesKeyed(st)
    ensures |AffectedWorkloads(st.edges, st.edges.Keys, k)| == |Fiber(st.edges.Keys, SecretKeyOf(st.edges), k)|
  {
    hide EdgesKeyed, SecretID, WorkloadID;
    var own := Fiber(st.edges.Keys, SecretKeyOf(st.edges), k);
    forall d, e | d in own && e in own && WorkloadKeyOf(st.edges)[d] == WorkloadKeyOf(st.edges)[e] ensures d == e {
      EdgesAreTheirEnds(st, d, e);
    }
    InjectiveImage(own, WorkloadKeyOf(st.edges));
    assert forall id :: id in own <==> id in st.edges && Names(st.edges, id, k);
    assert AffectedWorkloads(st.edges, st.edges.Keys, k) == Image(own, WorkloadKeyOf(st.edges));
  }

  /** A workload's dependencies are as many as the edges it has. */
  lemma DependenciesAreEdges(st: State, k: string)
    requires EdgesKeyed(st)
    ensures |Dependencies(st.edges, st.edges.Keys, k)| == |Fiber(st.edges.Keys, WorkloadKeyOf(st.edges), k)|
  {
    hide EdgesKeyed, SecretID, WorkloadID;
    var own := Fiber(st.edges.Keys, WorkloadKeyOf(st.edges), k);
    forall d, e | d in own && e in own && SecretKeyOf(st.edges)[d] == SecretKeyOf(st.edges)[e] ensures d == e {
      EdgesAreTheirEnds(st, d, e);
    }
    InjectiveImage(own, SecretKeyOf(st.edges));
    assert forall id :: id in own <==> id in st.edges && Uses(st.edges, id, k);
    assert Dependencies(st.edges, st.edges.Keys, k) == Image(own, SecretKeyOf(st.edges));
  }

  ghost function Unresolved(edges: map<string, DependencyEdge>): set<string> {
    set id | id in edges && !edges[id].resolved
  }

  lemma SecretsCountEdges(st: State)
    requires Consistent(st)
    ensures Sum(map k | k in st.secrets :: st.secrets[k].affectedWorkloadCount) == |st.edges|
    ensures Sum(map k | k in st.secrets :: st.secrets[k].unresolvedReferenceCount) == |Unresolved(st.edges)|
  {
    hide EdgesKeyed, SecretID, WorkloadID, Fiber, ResolvedIffExists, NodesKeyed, PhantomsNamed, ImpactScore,
         AffectedWorkloads, AffectedTeams, AffectedNamespaces, UnresolvedNaming, Sum;
    var open, key := Unresolved(st.edges), SecretKeyOf(st.edges);
    forall k | k in st.secrets
      ensures st.secrets[k].affectedWorkloadCount == |Fiber(st.edges.Keys, key, k)|
      ensures st.secrets[k].unresolvedReferenceCount == |Fiber(open, key, k)|
    {
      assert SecretCounted(st.secrets[k], st.edges, k);
      AffectedIsEdges(st, k);
      UnresolvedIsEdges(st, k);
    }
    CountsAddUp(map k | k in st.secrets :: st.secrets[k].affectedWorkloadCount, st.edges.Keys, key);
    CountsAddUp(map k | k in st.secrets :: st.secrets[k].unresolvedReferenceCount, open, key);
  }

  lemma WorkloadsCountEdges(st: State)
    requires Consistent(st)
    ensures Sum(map k | k in st.workloads :: st.workloads[k].dependencyCount) == |st.edges|
    ensures Sum(map k | k in st.workloads :: st.workloads[k].unresolvedCount) == |Unresolved(st.edges)|
  {
    hide EdgesKeyed, SecretID, WorkloadID, Fiber, ResolvedIffExists, NodesKeyed, PhantomsNamed, ImpactScore,
         Dependencies, UnresolvedUsed, SecretCounted, Sum;
    var open, key := Unresolved(st.edges), WorkloadKeyOf(st.edges);
    forall k | k in st.workloads
      ensures st.workloads[k].dependencyCount == |Fiber(st.edges.Keys, key, k)|
      ensures st.workloads[k].unresolvedCount == |Fiber(open, key, k)|
    {
      assert WorkloadCounted(st.workloads[k], st.edges, k);
      DependenciesAreEdges(st, k);
      UnresolvedIsEdges(st, k);
    }
    CountsAddUp(map k | k in st.workloads :: st.workloads[k].dependencyCount, st.edges.Keys, key);
    CountsAddUp(map k | k in st.workloads :: st.workloads[k].unresolvedCount, open, key);
  }

  lemma UnresolvedIsEdges(st: State, k: string)
    ensures UnresolvedNaming(st.edges, st.edges.Keys, k) == Fiber(Unresolved(st.edges), SecretKeyOf(st.edges), k)
    ensures UnresolvedUsed(st.edges, st.edges.Keys, k) == Fiber(Unresolved(st.edges), WorkloadKeyOf(st.edges), k)
  {}

  /** Both sides of the graph count the same edges, and the same unresolved edges. */
  lemma DoubleCounting(st: State)
    requires Consistent(st)
    ensures Sum(map k | k in st.secrets :: st.secrets[k].affectedWorkloadCount)
         == Sum(map k | k in st.workloads :: st.workloads[k].dependencyCount)
         == |st.edges|
    ensures Sum(map k | k in st.secrets :: st.secrets[k].unresolvedReferenceCount)
         == Sum(map k | k in st.workloads :: st.workloads[k].unresolvedCount)
         == |Unresolved(st.edges)|
  {
    hide Consistent, Sum;
    SecretsCountEdges(st);
    WorkloadsCountEdges(st);
  }

  /**
   A Secret that exists has no unresolved references; one that does not has nothing else,
   and at least one. Teams and namespaces are never more than workloads.
   */
  lemma PhantomLaw(st: State, k: string)
    requires Consistent(st) && k in st.secrets
    ensures
      var s := st.secrets[k];
      && (s.exists_ ==> s.unresolvedReferenceCount == 0)
      && (!s.exists_ ==> s.unresolvedReferenceCount == s.affectedWorkloadCount > 0)
      && s.affectedTeamCount <= s.affectedWorkloadCount
      && s.affectedNamespaceCount <= s.affectedWorkloadCount
  {
    hide EdgesKeyed, SecretID, WorkloadID, NodesKeyed, ImpactScore, EndsExist;
    var s, all := st.secrets[k], st.edges.Keys;
    var own := Fiber(all, SecretKeyOf(st.edges), k);
    assert SecretCounted(s, st.edges, k);
    AffectedIsEdges(st, k);
    if s.exists_ {
      assert UnresolvedNaming(st.edges, all, k) == {};
    } else {
      assert UnresolvedNaming(st.edges, all, k) == own;
      assert k in NamedSecrets(st.edges, all);
      var id :| id in st.edges && SecretID(st.edges[id].secret) == k;
      assert id in own;
    }
    NoMoreThanEdges(st, k);
  }

  lemma NoMoreThanEdges(st: State, k: string)
    ensures
      var own := Fiber(st.edges.Keys, SecretKeyOf(st.edges), k);
      && |AffectedTeams(st.edges, st.edges.Keys, k)| <= |own|
      && |AffectedNamespaces(st.edges, st.edges.Keys, k)| <= |own|
  {
    hide SecretID;
    var own := Fiber(st.edges.Keys, SecretKeyOf(st.edges), k);
    var team := map id | id in st.edges :: st.edges[id].ownerTeam;
    var namespace := map id | id in st.edges :: st.edges[id].workload.namespace;
    assert forall id :: id in own <==> id in st.edges && Names(st.edges, id, k);
    ImageIsNoLarger(own, team);
    ImageIsNoLarger(own, namespace);
    assert AffectedTeams(st.edges, st.edges.Keys, k) <= Image(own, team);
    assert AffectedNamespaces(st.edges, st.edges.Keys, k) <= Image(own, namespace);
    SubsetSize(AffectedTeams(st.edges, st.edges.Keys, k), Image(own, team));
    SubsetSize(AffectedNamespaces(st.edges, st.edges.Keys, k), Image(own, namespace));
  }
}

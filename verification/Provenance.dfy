/** What every record of the graph takes from the snapshot's inputs. */
module Provenance {
  import opened Text
  import opened GraphTypes
  import opened Ids
  import opened Criticality
  import opened Merge
  import opened GraphSpec
  import opened Counting
  import opened Consistency
  import opened History
  import opened Laws
  import opened Derived

  // ----- Snapshots as extraction makes them -----

  /** Edges leave owner and criticality to their workload. */
  ghost predicate Bare(inputs: seq<WorkloadInput>) {
    forall i, e :: 0 <= i < |inputs| && e in inputs[i].edges ==> e.ownerTeam == "" && e.criticality == ""
  }

  /** Well named, no workload twice, and each workload's edges merged. */
  ghost predicate Prepared(cluster: string, u: Update) {
    WellFormed(u.workloads) && DistinctWorkloads(u.workloads) && DistinctEdges(cluster, u) && Bare(u.workloads)
  }

  ghost predicate Refers(input: WorkloadInput, k: string) {
    exists e :: e in input.edges && SecretID(e.secret) == k
  }

  /** The workloads, by position, with an edge that names the Secret. */
  ghost function Users(inputs: seq<WorkloadInput>, k: string): (r: set<nat>)
    ensures forall i :: i in r ==> i < |inputs|
  {
    set i: nat | i < |inputs| && Refers(inputs[i], k)
  }

  ghost function UserTeams(inputs: seq<WorkloadInput>, k: string): set<string> {
    set i | i in Users(inputs, k) && inputs[i].ownerTeam != "" :: inputs[i].ownerTeam
  }

  ghost function UserNamespaces(inputs: seq<WorkloadInput>, k: string): set<string> {
    set i | i in Users(inputs, k) :: inputs[i].ref.namespace
  }

  /** The edges, by position, to Secrets that the cluster does not list. */
  ghost function Dangling(secrets: seq<SecretInput>, input: WorkloadInput): set<nat> {
    set j: nat | j < |input.edges| && !Listed(secrets, SecretID(input.edges[j].secret))
  }

  // ----- Edges -----

  /** What the stored edge has from its input edge and what from its workload. */
  ghost predicate Carries(cluster: string, u: Update, e: DependencyEdge, input: WorkloadInput, from: DependencyEdge) {
    && e.cluster == cluster
    && e.workload == input.ref.(cluster := cluster)
    && e.secret == from.secret.(cluster := cluster, key := "")
    && e.discoveryMode == (if from.discoveryMode == "" then input.discoveryMode else from.discoveryMode)
    && e.sources == from.sources && e.optional == from.optional && e.purpose == from.purpose
    && (e.resolved <==> Listed(u.secrets, SecretID(from.secret)))
    && e.ownerTeam == input.ownerTeam
    && e.criticality == RankName(CriticalityRank(input.criticality))
    && e.lastObservedAt == u.now
  }

  ghost predicate FromInput(cluster: string, u: Update, edges: map<string, DependencyEdge>, id: string, i: int,
                            j: int)
  {
    && 0 <= i < |u.workloads| && 0 <= j < |u.workloads[i].edges| && id in edges
    && id == StoredID(cluster, u.workloads[i].edges[j])
    && Carries(cluster, u, edges[id], u.workloads[i], u.workloads[i].edges[j])
  }

  /** Every edge of the snapshot is stored, with its own and its workload's data. */
  lemma EdgeIsStored(st: State, u: Update, i: nat, j: nat)
    requires Prepared(st.cluster, u) && i < |u.workloads| && j < |u.workloads[i].edges|
    ensures
      var r := Apply(st, u.secrets, u.workloads, u.now);
      FromInput(st.cluster, u, r.edges, StoredID(st.cluster, u.workloads[i].edges[j]), i, j)
  {
    hide StoredID, Flatten, ObservedSecrets, MergeAll, DistinctIDs, Bare, WellFormed, DistinctWorkloads, DistinctEdges,
         CriticalityRank, NormalizeCriticality, RankName;
    var known := ObservedSecrets(st, u.secrets, u.now).Keys;
    var flat := Flatten(st, known, u.workloads, u.now);
    var input, from := u.workloads[i], u.workloads[i].edges[j];
    var e := Normalize(st, known, input, from, u.now);
    assert ComesFrom(st, known, u.workloads, u.now, e, i, j);
    FlattenMember(st, known, u.workloads, u.now, e);
    FlatIsDistinct(st, known, u);
    StoredAlone(flat, e);
    assert ObservedEdges(st, known, u.workloads, u.now)[e.id] == e;
    PreparedEdge(st.cluster, u, i, j);
    NormalizedCarries(st, u, input, from);
  }

  lemma PreparedEdge(cluster: string, u: Update, i: nat, j: nat)
    requires Prepared(cluster, u) && i < |u.workloads| && j < |u.workloads[i].edges|
    ensures
      var input, e := u.workloads[i], u.workloads[i].edges[j];
      && e.workload == input.ref && e.ownerTeam == "" && e.criticality == ""
      && WellNamedWorkload(input.ref) && WellNamedSecret(e.secret)
  {
    assert u.workloads[i].edges[j] in u.workloads[i].edges && WellFormedInput(u.workloads[i]);
  }

  lemma StoredAlone(flat: seq<DependencyEdge>, e: DependencyEdge)
    requires DistinctIDs(flat) && e in flat
    ensures e.id in MergeAll(AtSnapshot, flat) && MergeAll(AtSnapshot, flat)[e.id] == e
  {
    hide MergeAll, DistinctIDs;
    var n :| 0 <= n < |flat| && flat[n] == e;
    GroupOfDistinct(flat, n);
    MergeAllFoldsGroups(AtSnapshot, flat, e.id);
  }

  lemma NormalizedCarries(st: State, u: Update, input: WorkloadInput, from: DependencyEdge)
    requires from.workload == input.ref && from.ownerTeam == "" && from.criticality == ""
    ensures
      var known := ObservedSecrets(st, u.secrets, u.now).Keys;
      Carries(st.cluster, u, Normalize(st, known, input, from, u.now), input, from)
  {
    hide StoredID, ObservedSecrets, CriticalityRank, NormalizeCriticality, RankName, Listed;
    ObservedIsLastListed(st, u.secrets, u.now, SecretID(from.secret));
    NormalizeIsRankName(input.criticality);
  }

  /** And the graph has no other edges. */
  lemma EdgeHasInput(st: State, u: Update, id: string) returns (i: nat, j: nat)
    requires Prepared(st.cluster, u) && id in Apply(st, u.secrets, u.workloads, u.now).edges
    ensures FromInput(st.cluster, u, Apply(st, u.secrets, u.workloads, u.now).edges, id, i, j)
  {
    hide StoredID, Flatten, ObservedSecrets, MergeAll, Bare, WellFormed, DistinctWorkloads, DistinctEdges, Carries,
         FinishedSecrets, FinishedWorkloads, ObservedWorkloads, IsMergeOf, Normalize;
    var known := ObservedSecrets(st, u.secrets, u.now).Keys;
    var flat := Flatten(st, known, u.workloads, u.now);
    StoredEdgeIsMerge(st, known, u.workloads, u.now, id);
    var e := Group(flat, id)[0];
    assert e in flat;
    FlattenMember(st, known, u.workloads, u.now, e);
    var x, y :| ComesFrom(st, known, u.workloads, u.now, e, x, y);
    i, j := x, y;
    NormalizedID(st, known, u.workloads[i], u.workloads[i].edges[j], u.now);
    EdgeIsStored(st, u, i, j);
  }

  // ----- The sets that a Secret's record counts -----

  lemma KeyIgnoresCluster(s: SecretRef, cluster: string)
    ensures SecretID(s.(cluster := cluster, key := "")) == SecretID(s)
  {}

  lemma WorkloadKeyIgnoresCluster(w: WorkloadRef, cluster: string)
    ensures WorkloadID(w.(cluster := cluster)) == WorkloadID(w)
  {}

  ghost function UserKeys(inputs: seq<WorkloadInput>, k: string): set<string> {
    set i | i in Users(inputs, k) :: WorkloadID(inputs[i].ref)
  }

  /** An edge that names the Secret comes from a user of it. */
  lemma NamingEdgeHasUser(st: State, u: Update, k: string, id: string) returns (i: nat)
    requires Prepared(st.cluster, u) && Names(Apply(st, u.secrets, u.workloads, u.now).edges, id, k)
    ensures
      var e := Apply(st, u.secrets, u.workloads, u.now).edges[id];
      && i in Users(u.workloads, k)
      && e.workload == u.workloads[i].ref.(cluster := st.cluster)
      && e.ownerTeam == u.workloads[i].ownerTeam
      && e.criticality == RankName(CriticalityRank(u.workloads[i].criticality))
      && (e.resolved <==> Listed(u.secrets, k))
  {
    hide Apply, Prepared, SecretID, CriticalityRank, RankName, StoredID, Listed;
    var x, y := EdgeHasInput(st, u, id);
    i := x;
    KeyIgnoresCluster(u.workloads[x].edges[y].secret, st.cluster);
    assert u.workloads[x].edges[y] in u.workloads[x].edges;
  }

  /** And every user has such an edge. */
  lemma UserHasNamingEdge(st: State, u: Update, k: string, i: nat) returns (id: string)
    requires Prepared(st.cluster, u) && i in Users(u.workloads, k)
    ensures
      var edges := Apply(st, u.secrets, u.workloads, u.now).edges;
      && Names(edges, id, k)
      && edges[id].workload == u.workloads[i].ref.(cluster := st.cluster)
      && edges[id].ownerTeam == u.workloads[i].ownerTeam
      && edges[id].criticality == RankName(CriticalityRank(u.workloads[i].criticality))
  {
    hide Apply, Prepared, SecretID, CriticalityRank, RankName, StoredID, Listed;
    var e :| e in u.workloads[i].edges && SecretID(e.secret) == k;
    var j :| 0 <= j < |u.workloads[i].edges| && u.workloads[i].edges[j] == e;
    EdgeIsStored(st, u, i, j);
    KeyIgnoresCluster(e.secret, st.cluster);
    id := StoredID(st.cluster, e);
  }

  /** The edge has the workload and the team of the input. */
  ghost predicate Mirrors(cluster: string, e: DependencyEdge, input: WorkloadInput) {
    e.workload == input.ref.(cluster := cluster) && e.ownerTeam == input.ownerTeam
  }

  /** The edges that name a Secret and its users stand for each other. */
  ghost predicate Matched(cluster: string, edges: map<string, DependencyEdge>, inputs: seq<WorkloadInput>, k: string) {
    && (forall id :: id in edges && Names(edges, id, k) ==>
          exists i :: i in Users(inputs, k) && Mirrors(cluster, edges[id], inputs[i]))
    && (forall i :: i in Users(inputs, k) ==>
          exists id :: id in edges && Names(edges, id, k) && Mirrors(cluster, edges[id], inputs[i]))
  }

  lemma NamingIsMatched(st: State, u: Update, k: string)
    requires Prepared(st.cluster, u)
    ensures Matched(st.cluster, Apply(st, u.secrets, u.workloads, u.now).edges, u.workloads, k)
  {
    hide Apply, Prepared, CriticalityRank, RankName, Users, SecretID;
    var edges := Apply(st, u.secrets, u.workloads, u.now).edges;
    forall id | id in edges && Names(edges, id, k)
      ensures exists i :: i in Users(u.workloads, k) && Mirrors(st.cluster, edges[id], u.workloads[i])
    {
      var i := NamingEdgeHasUser(st, u, k, id);
      assert Mirrors(st.cluster, edges[id], u.workloads[i]);
    }
    forall i | i in Users(u.workloads, k)
      ensures exists id :: id in edges && Names(edges, id, k) && Mirrors(st.cluster, edges[id], u.workloads[i])
    {
      var id := UserHasNamingEdge(st, u, k, i);
      assert Mirrors(st.cluster, edges[id], u.workloads[i]);
    }
  }

  lemma CountedSets(cluster: string, edges: map<string, DependencyEdge>, inputs: seq<WorkloadInput>, k: string)
    requires Matched(cluster, edges, inputs, k)
    ensures AffectedWorkloads(edges, edges.Keys, k) == UserKeys(inputs, k)
    ensures AffectedTeams(edges, edges.Keys, k) == UserTeams(inputs, k)
    ensures AffectedNamespaces(edges, edges.Keys, k) == UserNamespaces(inputs, k)
  {
    hide Refers, SecretID, WorkloadID;
    forall w: WorkloadRef ensures WorkloadID(w.(cluster := cluster)) == WorkloadID(w) {
      WorkloadKeyIgnoresCluster(w, cluster);
    }
  }

  // ----- Secrets -----

  /** The highest rank among a Secret's own and those of the workloads that use it. */
  ghost predicate IsHighestOfUsers(rank: nat, own: nat, inputs: seq<WorkloadInput>, k: string) {
    && rank >= own
    && (forall i :: i in Users(inputs, k) ==> rank >= CriticalityRank(inputs[i].criticality))
    && (rank == own || exists i :: i in Users(inputs, k) && rank == CriticalityRank(inputs[i].criticality))
  }

  /** The weight of each rank in the score. */
  const WEIGHTS: seq<nat> := [0, 2, 8, 18, 30]

  lemma ScoreTable(s: SecretSummary)
    requires s.criticality == RankName(CriticalityRank(s.criticality))
    ensures
      var points := 2 * (s.affectedWorkloadCount + s.affectedTeamCount + s.affectedNamespaceCount
                         + s.unresolvedReferenceCount) + WEIGHTS[CriticalityRank(s.criticality)];
      s.impactScore == ImpactScore(s) ==> s.impactScore == if points < 100 then points else 100
  {
    hide CriticalityRank;
  }

  /** A listed Secret is what its last input says; another one is what its users call it. */
  ghost predicate SecretIdentified(cluster: string, u: Update, k: string, s: SecretSummary) {
    && s.ref.cluster == cluster && s.ref.key == ""
    && (Listed(u.secrets, k) ==>
          SameSecret(s.ref, LastListed(u.secrets, k).ref) && s.secretType == LastListed(u.secrets, k).secretType)
    && (!Listed(u.secrets, k) ==>
          s.secretType == "" && forall i, e ::
            0 <= i < |u.workloads| && e in u.workloads[i].edges && SecretID(e.secret) == k ==>
              SameSecret(s.ref, e.secret))
  }

  lemma SecretIsIdentified(st: State, u: Update, k: string)
    requires Prepared(st.cluster, u) && k in Apply(st, u.secrets, u.workloads, u.now).secrets
    ensures SecretIdentified(st.cluster, u, k, Apply(st, u.secrets, u.workloads, u.now).secrets[k])
  {
    hide Bare, DistinctWorkloads, DistinctEdges, ObservedEdges, ObservedSecrets, ObservedWorkloads, FinishedWorkloads,
         NamedSecrets, Listed, LastListed, RefOf, SecretID, NormalizeCriticality;
    var r, base := Apply(st, u.secrets, u.workloads, u.now), ObservedSecrets(st, u.secrets, u.now);
    ObservedIsLastListed(st, u.secrets, u.now, k);
    FinishKeepsIdentity(WithPhantoms(st.cluster, base, NamedSecrets(r.edges, r.edges.Keys))[k], r.edges, k);
    forall s: SecretRef | WellNamedSecret(s) && SecretID(s) == k
      ensures SameSecret(RefOf(st.cluster, k), s)
    {
      RefOfKey(st.cluster, s);
    }
    RefOfCluster(st.cluster, k);
    forall i, e | 0 <= i < |u.workloads| && e in u.workloads[i].edges ensures WellNamedSecret(e.secret) {
      assert WellFormedInput(u.workloads[i]);
    }
  }

  lemma FinishKeepsIdentity(base: SecretSummary, edges: map<string, DependencyEdge>, k: string)
    ensures FinishSecret(base, edges, k).ref == base.ref && FinishSecret(base, edges, k).secretType == base.secretType
  {}

  lemma RefOfKey(cluster: string, s: SecretRef)
    requires WellNamedSecret(s)
    ensures SameSecret(RefOf(cluster, SecretID(s)), s)
  {
    IndexOfPrefix(s.namespace, '/', s.name);
  }

  lemma RefOfCluster(cluster: string, k: string)
    ensures RefOf(cluster, k).cluster == cluster && RefOf(cluster, k).key == ""
  {}

  /** The whole record of a Secret, from the snapshot's inputs alone. */
  ghost predicate SecretDescribed(cluster: string, u: Update, k: string, s: SecretSummary) {
    var rank := CriticalityRank(s.criticality);
    && SecretIdentified(cluster, u, k, s)
    && (s.exists_ <==> Listed(u.secrets, k))
    && s.criticality == RankName(rank)
    && IsHighestOfUsers(rank, CriticalityRank(OwnCriticality(u.secrets, k)), u.workloads, k)
    && (if OwnTeam(u.secrets, k) != "" then s.ownerTeam == OwnTeam(u.secrets, k)
        else if s.ownerTeam != "" then UserTeams(u.workloads, k) == {s.ownerTeam}
        else |UserTeams(u.workloads, k)| != 1)
    && s.affectedWorkloadCount == |Users(u.workloads, k)|
    && s.affectedTeamCount == |UserTeams(u.workloads, k)|
    && s.affectedNamespaceCount == |UserNamespaces(u.workloads, k)|
    && s.unresolvedReferenceCount == (if Listed(u.secrets, k) then 0 else |Users(u.workloads, k)|)
    && (var points := 2 * (s.affectedWorkloadCount + s.affectedTeamCount + s.affectedNamespaceCount
                           + s.unresolvedReferenceCount) + WEIGHTS[rank];
        s.impactScore == if points < 100 then points else 100)
  }

  lemma HighestCarriesOver(st: State, u: Update, k: string, rank: nat, own: nat)
    requires Prepared(st.cluster, u)
    requires IsHighestRank(rank, own, Apply(st, u.secrets, u.workloads, u.now).edges, k)
    ensures IsHighestOfUsers(rank, own, u.workloads, k)
  {
    hide Apply, Prepared, CriticalityRank, RankName, Users, SecretID;
    var edges := Apply(st, u.secrets, u.workloads, u.now).edges;
    forall i | i in Users(u.workloads, k) ensures rank >= CriticalityRank(u.workloads[i].criticality) {
      var id := UserHasNamingEdge(st, u, k, i);
      RankNameIsNormal(CriticalityRank(u.workloads[i].criticality));
    }
    if rank != own {
      var id :| Names(edges, id, k) && rank == CriticalityRank(edges[id].criticality);
      var i := NamingEdgeHasUser(st, u, k, id);
      RankNameIsNormal(CriticalityRank(u.workloads[i].criticality));
    }
  }

  lemma UsersAreKeys(inputs: seq<WorkloadInput>, k: string)
    requires DistinctWorkloads(inputs)
    ensures |UserKeys(inputs, k)| == |Users(inputs, k)|
  {
    hide WorkloadID, Refers;
    var key := (i: nat) => if i < |inputs| then WorkloadID(inputs[i].ref) else "";
    SameSize(Users(inputs, k), key);
    assert UserKeys(inputs, k) == set i | i in Users(inputs, k) :: key(i);
  }

  lemma UnresolvedAreUsers(st: State, u: Update, k: string)
    requires Prepared(st.cluster, u)
    ensures
      var edges := Apply(st, u.secrets, u.workloads, u.now).edges;
      |UnresolvedNaming(edges, edges.Keys, k)| ==
        if Listed(u.secrets, k) then 0 else |AffectedWorkloads(edges, edges.Keys, k)|
  {
    hide Apply, CriticalityRank, RankName, Users, EdgesKeyed, Listed, AffectedWorkloads, WellFormed, Bare,
         DistinctWorkloads, DistinctEdges;
    var r := Apply(st, u.secrets, u.workloads, u.now);
    var own := Fiber(r.edges.Keys, SecretKeyOf(r.edges), k);
    EdgesOfApply(st, u);
    AffectedIsEdges(r, k);
    forall id | Names(r.edges, id, k) ensures r.edges[id].resolved <==> Listed(u.secrets, k) {
      var i := NamingEdgeHasUser(st, u, k, id);
    }
    if Listed(u.secrets, k) {
      assert UnresolvedNaming(r.edges, r.edges.Keys, k) == {};
    } else {
      assert UnresolvedNaming(r.edges, r.edges.Keys, k) == own;
    }
  }

  lemma EdgesOfApply(st: State, u: Update)
    requires WellFormed(u.workloads)
    ensures EdgesKeyed(Apply(st, u.secrets, u.workloads, u.now))
    ensures Apply(st, u.secrets, u.workloads, u.now).cluster == st.cluster
  {
    hide EdgeKeyed, ObservedEdges, ObservedSecrets, ObservedWorkloads, FinishedSecrets, FinishedWorkloads, WellFormed;
    var known := ObservedSecrets(st, u.secrets, u.now).Keys;
    forall id | id in ObservedEdges(st, known, u.workloads, u.now)
      ensures EdgeKeyed(st.cluster, id, ObservedEdges(st, known, u.workloads, u.now)[id])
    {
      StoredEdgeIsKeyed(st, known, u.workloads, u.now, id);
    }
  }

  /**
   The graph has a record of exactly the Secrets that are listed or used, and each record
   says what the snapshot's inputs say together.
   */
  lemma SecretIsFromInputs(st: State, u: Update, k: string)
    requires Prepared(st.cluster, u)
    ensures
      var r := Apply(st, u.secrets, u.workloads, u.now);
      && (k in r.secrets <==> Listed(u.secrets, k) || Users(u.workloads, k) != {})
      && (k in r.secrets ==> SecretDescribed(st.cluster, u, k, r.secrets[k]))
  {
    hide Prepared, Matched, CriticalityRank, RankName, Users, Listed, AffectedWorkloads, AffectedTeams,
         AffectedNamespaces, UnresolvedNaming, IsHighestRank, IsHighestOfUsers, OwnTeam, OwnCriticality, UserTeams,
         UserNamespaces, UserKeys, ImpactScore, SecretIdentified, Apply, ObservedSecrets, NamedSecrets;
    var r := Apply(st, u.secrets, u.workloads, u.now);
    SecretIsThere(st, u, k);
    if k in r.secrets {
      ApplySecret(st, u.secrets, u.workloads, u.now, k);
      ObservedIsLastListed(st, u.secrets, u.now, k);
      CriticalityIsHighest(st, u.secrets, u.workloads, u.now, k);
      OwnerIsOwnOrSole(st, u.secrets, u.workloads, u.now, k);
      var s := r.secrets[k];
      HighestCarriesOver(st, u, k, CriticalityRank(s.criticality), CriticalityRank(OwnCriticality(u.secrets, k)));
      NamingIsMatched(st, u, k);
      CountedSets(st.cluster, r.edges, u.workloads, k);
      UsersAreKeys(u.workloads, k) by { PreparedIsDistinct(st.cluster, u); }
      UnresolvedAreUsers(st, u, k);
      ScoreTable(s);
      SecretIsIdentified(st, u, k);
    }
  }

  lemma PreparedIsDistinct(cluster: string, u: Update)
    requires Prepared(cluster, u)
    ensures DistinctWorkloads(u.workloads)
  {}

  lemma SecretIsThere(st: State, u: Update, k: string)
    requires Prepared(st.cluster, u)
    ensures k in Apply(st, u.secrets, u.workloads, u.now).secrets <==>
      Listed(u.secrets, k) || Users(u.workloads, k) != {}
  {
    hide Prepared, Users, Listed, Apply, ObservedSecrets, SecretID, CriticalityRank, RankName;
    var edges := Apply(st, u.secrets, u.workloads, u.now).edges;
    ApplySecret(st, u.secrets, u.workloads, u.now, k);
    ObservedIsLastListed(st, u.secrets, u.now, k);
    NamedHasEdge(edges, k);
    if i :| i in Users(u.workloads, k) {
      var id := UserHasNamingEdge(st, u, k, i);
    }
    if id :| Names(edges, id, k) {
      var i := NamingEdgeHasUser(st, u, k, id);
    }
  }

  lemma NamedHasEdge(edges: map<string, DependencyEdge>, k: string)
    ensures k in NamedSecrets(edges, edges.Keys) <==> exists id :: Names(edges, id, k)
  {
    hide SecretID;
    assert forall id :: Names(edges, id, k) ==> SecretID(edges[id].secret) in NamedSecrets(edges, edges.Keys);
    if k in NamedSecrets(edges, edges.Keys) {
      var id :| id in edges && SecretID(edges[id].secret) == k;
      assert Names(edges, id, k);
    }
  }

  // ----- Workloads -----

  /** The keys under which a workload's edges are stored. */
  ghost function KeysOf(cluster: string, input: WorkloadInput, positions: set<nat>): set<string> {
    set j | j in positions && j < |input.edges| :: StoredID(cluster, input.edges[j])
  }

  ghost function Positions(n: nat): (r: set<nat>)
    ensures |r| == n && forall j: nat :: j in r <==> j < n
  {
    if n == 0 then {} else Positions(n - 1) + {n - 1}
  }

  lemma KeysAreAsMany(cluster: string, u: Update, i: nat, positions: set<nat>)
    requires DistinctEdges(cluster, u) && i < |u.workloads|
    requires forall j :: j in positions ==> j < |u.workloads[i].edges|
    ensures |KeysOf(cluster, u.workloads[i], positions)| == |positions|
  {
    hide StoredID;
    var input := u.workloads[i];
    var key := (j: nat) => if j < |input.edges| then StoredID(cluster, input.edges[j]) else "";
    forall j, k | j in positions && k in positions && key(j) == key(k) ensures j == k {
      assert EdgeAt(cluster, u, key(j), i, j) && EdgeAt(cluster, u, key(j), i, k);
    }
    SameSize(positions, key);
    assert KeysOf(cluster, input, positions) == set j | j in positions :: key(j);
  }

  lemma OwnIsUsed(st: State, u: Update, i: nat, j: nat)
    requires Prepared(st.cluster, u) && i < |u.workloads| && j < |u.workloads[i].edges|
    ensures
      var edges, from := Apply(st, u.secrets, u.workloads, u.now).edges, u.workloads[i].edges[j];
      var id := StoredID(st.cluster, from);
      && Uses(edges, id, WorkloadID(u.workloads[i].ref))
      && (edges[id].resolved <==> Listed(u.secrets, SecretID(from.secret)))
  {
    hide Apply, Prepared, WorkloadID, CriticalityRank, RankName, StoredID, Listed, SecretID;
    EdgeIsStored(st, u, i, j);
    WorkloadKeyIgnoresCluster(u.workloads[i].ref, st.cluster);
  }

  lemma UsedIsOwn(st: State, u: Update, i: nat, id: string) returns (j: nat)
    requires Prepared(st.cluster, u) && i < |u.workloads|
    requires Uses(Apply(st, u.secrets, u.workloads, u.now).edges, id, WorkloadID(u.workloads[i].ref))
    ensures j < |u.workloads[i].edges| && id == StoredID(st.cluster, u.workloads[i].edges[j])
  {
    hide Apply, WellFormed, Bare, DistinctWorkloads, DistinctEdges, WorkloadID, CriticalityRank, RankName, StoredID,
         Listed, SecretID;
    var x, y := EdgeHasInput(st, u, id);
    WorkloadKeyIgnoresCluster(u.workloads[x].ref, st.cluster);
    OneWorkload(u.workloads, x, i);
    j := y;
  }

  /** The stored edges of a workload are those of its input, and resolved as their Secrets are listed. */
  lemma UsedAreOwn(st: State, u: Update, i: nat)
    requires Prepared(st.cluster, u) && i < |u.workloads|
    ensures
      var edges, input := Apply(st, u.secrets, u.workloads, u.now).edges, u.workloads[i];
      var wkey := WorkloadID(input.ref);
      && (forall id :: id in edges && Uses(edges, id, wkey) <==>
                       id in KeysOf(st.cluster, input, Positions(|input.edges|)))
      && UnresolvedUsed(edges, edges.Keys, wkey) == KeysOf(st.cluster, input, Dangling(u.secrets, input))
  {
    hide Apply, Prepared, WorkloadID, StoredID, Listed, SecretID, Positions;
    var edges, input := Apply(st, u.secrets, u.workloads, u.now).edges, u.workloads[i];
    var wkey := WorkloadID(input.ref);
    forall j: nat | j < |input.edges|
      ensures Uses(edges, StoredID(st.cluster, input.edges[j]), wkey)
      ensures edges[StoredID(st.cluster, input.edges[j])].resolved <==>
              Listed(u.secrets, SecretID(input.edges[j].secret))
    {
      OwnIsUsed(st, u, i, j);
    }
    forall id | id in edges && Uses(edges, id, wkey)
      ensures exists j: nat :: j < |input.edges| && id == StoredID(st.cluster, input.edges[j])
    {
      var j := UsedIsOwn(st, u, i, id);
    }
  }

  lemma OneWorkload(inputs: seq<WorkloadInput>, i: nat, j: nat)
    requires DistinctWorkloads(inputs) && i < |inputs| && j < |inputs|
    requires WorkloadID(inputs[i].ref) == WorkloadID(inputs[j].ref)
    ensures i == j
  {}

  /** The graph has a record of exactly the workloads of the snapshot, and each says what its input says. */
  lemma WorkloadIsFromInput(st: State, u: Update, i: nat)
    requires Prepared(st.cluster, u) && i < |u.workloads|
    ensures
      var workloads, input := Apply(st, u.secrets, u.workloads, u.now).workloads, u.workloads[i];
      && WorkloadID(input.ref) in workloads
      && workloads[WorkloadID(input.ref)] ==
         WorkloadSummary(input.ref.(cluster := st.cluster), input.ownerTeam, input.service, input.environment,
                         RankName(CriticalityRank(input.criticality)), input.discoveryMode,
                         |input.edges|, |Dangling(u.secrets, input)|)
      && (forall k :: k in workloads ==> exists n :: 0 <= n < |u.workloads| && WorkloadID(u.workloads[n].ref) == k)
  {
    hide WellFormed, Bare, DistinctWorkloads, DistinctEdges, WorkloadID, ObservedEdges, ObservedSecrets,
         FinishedSecrets, ObservedWorkloads, NormalizeCriticality, CriticalityRank, RankName, Dependencies,
         UnresolvedUsed, Dangling, EdgesKeyed, KeysOf, NamedSecrets;
    var r, input := Apply(st, u.secrets, u.workloads, u.now), u.workloads[i];
    var wkey := WorkloadID(input.ref);
    forall k ensures k in r.workloads ==> exists n :: 0 <= n < |u.workloads| && WorkloadID(u.workloads[n].ref) == k {
      ObservedWorkloadKeys(st.cluster, u.workloads, k);
    }
    ObservedWorkloadKeys(st.cluster, u.workloads, wkey);
    var n :| 0 <= n < |u.workloads| && WorkloadID(u.workloads[n].ref) == wkey
             && ObservedWorkloads(st.cluster, u.workloads)[wkey] == ObserveWorkload(st.cluster, u.workloads[n]);
    OneWorkload(u.workloads, n, i);
    NormalizeIsRankName(input.criticality);
    WorkloadCounts(st, u, i);
  }

  lemma WorkloadCounts(st: State, u: Update, i: nat)
    requires Prepared(st.cluster, u) && i < |u.workloads|
    ensures
      var edges, input := Apply(st, u.secrets, u.workloads, u.now).edges, u.workloads[i];
      && |Dependencies(edges, edges.Keys, WorkloadID(input.ref))| == |input.edges|
      && |UnresolvedUsed(edges, edges.Keys, WorkloadID(input.ref))| == |Dangling(u.secrets, input)|
  {
    hide Apply, WellFormed, Bare, DistinctWorkloads, WorkloadID, SecretID, EdgesKeyed, KeysOf, Dependencies,
         UnresolvedUsed;
    var r, input := Apply(st, u.secrets, u.workloads, u.now), u.workloads[i];
    var wkey := WorkloadID(input.ref);
    EdgesOfApply(st, u);
    DependenciesAreEdges(r, wkey);
    UsedAreOwn(st, u, i);
    assert Fiber(r.edges.Keys, WorkloadKeyOf(r.edges), wkey) ==
      KeysOf(st.cluster, input, Positions(|input.edges|));
    KeysAreAsMany(st.cluster, u, i, Positions(|input.edges|));
    KeysAreAsMany(st.cluster, u, i, Dangling(u.secrets, input));
  }
}

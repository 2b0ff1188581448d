/**
 The dependency graph as a value, and applying a snapshot to it as a function: no loops, no
 order of iteration. The Cache class is proved to compute this function.
 */
module GraphSpec {
  import opened Text
  import opened GraphTypes
  import opened Ids
  import opened Criticality
  import opened Merge

  datatype State = State(
    cluster: string,
    secrets: map<string, SecretSummary>,
    workloads: map<string, WorkloadSummary>,
    edges: map<string, DependencyEdge>,
    versions: map<string, string>)

  function EmptyState(cluster: string): State {
    State(cluster, map[], map[], map[], map[])
  }

  // ----- Secrets -----

  const UINT64: nat := 0x1_0000_0000_0000_0000

  predicate VersionChanged(before: string, after: string) {
    before != "" && after != "" && before != after
  }

  function SecretBefore(st: State, key: string): SecretSummary {
    if key in st.secrets then st.secrets[key] else ZERO_SECRET
  }

  function VersionBefore(st: State, key: string): string {
    if key in st.versions then st.versions[key] else ""
  }

  function InitialChangeTime(previous: Time, created: Time, now: Time): Time {
    if previous != 0 then previous else if created != 0 then created else now
  }

  /** A Secret input with the history of its key carried over. */
  function ObserveSecret(st: State, input: SecretInput, now: Time): SecretSummary {
    var key := SecretID(input.ref);
    var prev := SecretBefore(st, key);
    var changed := VersionChanged(VersionBefore(st, key), input.resourceVersion);
    SecretSummary(
      SecretRef(st.cluster, input.ref.namespace, input.ref.name, ""),
      true,
      input.secretType,
      input.ownerTeam,
      NormalizeCriticality(input.criticality),
      if changed then now else InitialChangeTime(prev.lastObservedChangeTime, input.creationTimestamp, now),
      if changed then (prev.observedChangeCount + 1) % UINT64 else prev.observedChangeCount,
      0, 0, 0, 0, 0)
  }

  /** Later inputs with the same key replace earlier ones. */
  function ObservedSecrets(st: State, inputs: seq<SecretInput>, now: Time): map<string, SecretSummary> {
    if inputs == [] then map[]
    else
      var last := inputs[|inputs| - 1];
      ObservedSecrets(st, inputs[..|inputs| - 1], now)[SecretID(last.ref) := ObserveSecret(st, last, now)]
  }

  function ObservedVersions(inputs: seq<SecretInput>): map<string, string> {
    if inputs == [] then map[]
    else
      var last := inputs[|inputs| - 1];
      ObservedVersions(inputs[..|inputs| - 1])[SecretID(last.ref) := last.resourceVersion]
  }

  // ----- Workloads and edges -----

  function ObserveWorkload(cluster: string, input: WorkloadInput): WorkloadSummary {
    WorkloadSummary(input.ref.(cluster := cluster), input.ownerTeam, input.service, input.environment,
                    NormalizeCriticality(input.criticality), input.discoveryMode, 0, 0)
  }

  function ObservedWorkloads(cluster: string, inputs: seq<WorkloadInput>): map<string, WorkloadSummary> {
    if inputs == [] then map[]
    else
      var last := inputs[|inputs| - 1];
      ObservedWorkloads(cluster, inputs[..|inputs| - 1])[WorkloadID(last.ref) := ObserveWorkload(cluster, last)]
  }

  /** The key an edge is stored under, whatever key it came with. */
  function StoredID(cluster: string, edge: DependencyEdge): string {
    EdgeID(edge.workload.(cluster := cluster), edge.secret.(cluster := cluster, key := ""))
  }

  /** An edge as it is stored: what the input leaves open comes from its workload. */
  function Normalize(st: State, known: set<string>, input: WorkloadInput, edge: DependencyEdge,
      now: Time): DependencyEdge
  {
    var id := StoredID(st.cluster, edge);
    DependencyEdge(
      id,
      st.cluster,
      edge.workload.(cluster := st.cluster),
      edge.secret.(cluster := st.cluster, key := ""),
      if edge.discoveryMode == "" then input.discoveryMode else edge.discoveryMode,
      edge.sources,
      edge.optional,
      SecretID(edge.secret.(cluster := st.cluster, key := "")) in known,
      if edge.ownerTeam == "" then input.ownerTeam else edge.ownerTeam,
      if edge.criticality == "" then NormalizeCriticality(input.criticality) else edge.criticality,
      edge.purpose,
      if id in st.edges && st.edges[id].firstObservedAt != 0 then st.edges[id].firstObservedAt else now,
      now)
  }

  function NormalizeAll(st: State, known: set<string>, input: WorkloadInput, edges: seq<DependencyEdge>,
      now: Time): (r: seq<DependencyEdge>)
    ensures |r| == |edges|
    ensures forall j :: 0 <= j < |edges| ==> r[j] == Normalize(st, known, input, edges[j], now)
  {
    if edges == [] then []
    else
      var n := |edges| - 1;
      NormalizeAll(st, known, input, edges[..n], now) + [Normalize(st, known, input, edges[n], now)]
  }

  /** All edges of a snapshot, workload by workload. */
  function Flatten(st: State, known: set<string>, inputs: seq<WorkloadInput>, now: Time): seq<DependencyEdge> {
    if inputs == [] then []
    else
      var last := inputs[|inputs| - 1];
      Flatten(st, known, inputs[..|inputs| - 1], now) + NormalizeAll(st, known, last, last.edges, now)
  }

  function ObservedEdges(st: State, known: set<string>, inputs: seq<WorkloadInput>,
      now: Time): map<string, DependencyEdge>
  {
    MergeAll(AtSnapshot, Flatten(st, known, inputs, now))
  }

  // ----- Aggregates, as sets over the edges listed in `ids` -----

  predicate Names(edges: map<string, DependencyEdge>, id: string, skey: string) {
    id in edges && SecretID(edges[id].secret) == skey
  }

  predicate Uses(edges: map<string, DependencyEdge>, id: string, wkey: string) {
    id in edges && WorkloadID(edges[id].workload) == wkey
  }

  ghost function NamedSecrets(edges: map<string, DependencyEdge>, ids: set<string>): set<string> {
    set id | id in ids && id in edges :: SecretID(edges[id].secret)
  }

  ghost function AffectedWorkloads(edges: map<string, DependencyEdge>, ids: set<string>, skey: string): set<string> {
    set id | id in ids && Names(edges, id, skey) :: WorkloadID(edges[id].workload)
  }

  ghost function AffectedTeams(edges: map<string, DependencyEdge>, ids: set<string>, skey: string): set<string> {
    set id | id in ids && Names(edges, id, skey) && edges[id].ownerTeam != "" :: edges[id].ownerTeam
  }

  ghost function AffectedNamespaces(edges: map<string, DependencyEdge>, ids: set<string>, skey: string): set<string> {
    set id | id in ids && Names(edges, id, skey) :: edges[id].workload.namespace
  }

  ghost function UnresolvedNaming(edges: map<string, DependencyEdge>, ids: set<string>, skey: string): set<string> {
    set id | id in ids && Names(edges, id, skey) && !edges[id].resolved
  }

  ghost function Dependencies(edges: map<string, DependencyEdge>, ids: set<string>, wkey: string): set<string> {
    set id | id in ids && Uses(edges, id, wkey) :: SecretID(edges[id].secret)
  }

  ghost function UnresolvedUsed(edges: map<string, DependencyEdge>, ids: set<string>, wkey: string): set<string> {
    set id | id in ids && Uses(edges, id, wkey) && !edges[id].resolved
  }

  ghost predicate RankReached(edges: map<string, DependencyEdge>, ids: set<string>, skey: string, rank: nat) {
    exists id :: id in ids && Names(edges, id, skey) && CriticalityRank(edges[id].criticality) >= rank
  }

  /** The highest criticality rank among the edges that name a Secret. */
  ghost function TopRank(edges: map<string, DependencyEdge>, ids: set<string>, skey: string): (r: nat)
    ensures r <= 4
  {
    if RankReached(edges, ids, skey, 4) then 4
    else if RankReached(edges, ids, skey, 3) then 3
    else if RankReached(edges, ids, skey, 2) then 2
    else if RankReached(edges, ids, skey, 1) then 1
    else 0
  }

  /** The criticality a Secret gets from its edges, "" when it has none. */
  ghost function DerivedCriticality(edges: map<string, DependencyEdge>, ids: set<string>, skey: string): string {
    if RankReached(edges, ids, skey, 0) then RankName(TopRank(edges, ids, skey)) else ""
  }

  ghost function SoleTeam(teams: set<string>): string {
    if |teams| != 1 then ""
    else
      var t :| t in teams;
      t
  }

  /** The reference a Secret key stands for; a Secret nobody lists has no other record. */
  function RefOf(cluster: string, key: string): SecretRef {
    var i := IndexOf(key, '/');
    if i == |key| then SecretRef(cluster, "", key, "")
    else SecretRef(cluster, key[..i], key[i + 1..], "")
  }

  function Phantom(cluster: string, key: string): SecretSummary {
    ZERO_SECRET.(ref := RefOf(cluster, key), criticality := "unknown")
  }

  ghost function FinishSecret(base: SecretSummary, edges: map<string, DependencyEdge>, skey: string): SecretSummary {
    var all := edges.Keys;
    var derived := DerivedCriticality(edges, all, skey);
    var s := base.(
      ownerTeam := if base.ownerTeam == "" then SoleTeam(AffectedTeams(edges, all, skey)) else base.ownerTeam,
      criticality := if derived == "" then base.criticality else MaxCriticality(base.criticality, derived),
      affectedWorkloadCount := |AffectedWorkloads(edges, all, skey)|,
      affectedTeamCount := |AffectedTeams(edges, all, skey)|,
      affectedNamespaceCount := |AffectedNamespaces(edges, all, skey)|,
      unresolvedReferenceCount := |UnresolvedNaming(edges, all, skey)|);
    s.(impactScore := ImpactScore(s))
  }

  ghost function FinishWorkload(base: WorkloadSummary, edges: map<string, DependencyEdge>,
      wkey: string): WorkloadSummary
  {
    base.(dependencyCount := |Dependencies(edges, edges.Keys, wkey)|,
          unresolvedCount := |UnresolvedUsed(edges, edges.Keys, wkey)|)
  }

  /** The Secrets listed, and a record for every one that is only named. */
  function WithPhantoms(cluster: string, base: map<string, SecretSummary>,
      named: set<string>): map<string, SecretSummary>
  {
    map k | k in base.Keys + named :: if k in base then base[k] else Phantom(cluster, k)
  }

  ghost function FinishedSecrets(secrets: map<string, SecretSummary>,
      edges: map<string, DependencyEdge>): map<string, SecretSummary>
  {
    map k | k in secrets :: FinishSecret(secrets[k], edges, k)
  }

  ghost function FinishedWorkloads(workloads: map<string, WorkloadSummary>,
      edges: map<string, DependencyEdge>): map<string, WorkloadSummary>
  {
    map k | k in workloads :: FinishWorkload(workloads[k], edges, k)
  }

  /** The graph after a snapshot. Of the graph before, only history survives. */
  ghost function Apply(st: State, secrets: seq<SecretInput>, workloads: seq<WorkloadInput>, now: Time): State {
    var base := ObservedSecrets(st, secrets, now);
    var edges := ObservedEdges(st, base.Keys, workloads, now);
    State(
      st.cluster,
      FinishedSecrets(WithPhantoms(st.cluster, base, NamedSecrets(edges, edges.Keys)), edges),
      FinishedWorkloads(ObservedWorkloads(st.cluster, workloads), edges),
      edges,
      ObservedVersions(secrets))
  }

  // ----- What a snapshot leaves open -----

  /** The record of a Secret nobody lists, as made from some edge that names it. */
  ghost predicate IsPhantom(edges: map<string, DependencyEdge>, skey: string, s: SecretSummary) {
    exists id :: Names(edges, id, skey) && s == ZERO_SECRET.(ref := edges[id].secret, criticality := "unknown")
  }

  ghost predicate HasPhantoms(base: map<string, SecretSummary>, edges: map<string, DependencyEdge>, ids: set<string>,
                              all: map<string, SecretSummary>) {
    && all.Keys == base.Keys + NamedSecrets(edges, ids)
    && forall k :: k in all ==> if k in base then all[k] == base[k] else IsPhantom(edges, k, all[k])
  }

  /**
   The graphs a snapshot may leave, whatever its names: which of several edges gives a missing
   Secret its reference is up to the order in which the edges come.
   */
  ghost predicate Applied(st: State, secrets: seq<SecretInput>, workloads: seq<WorkloadInput>, now: Time, r: State) {
    var base := ObservedSecrets(st, secrets, now);
    var edges := ObservedEdges(st, base.Keys, workloads, now);
    exists all ::
      && HasPhantoms(base, edges, edges.Keys, all)
      && r == State(st.cluster, FinishedSecrets(all, edges),
                    FinishedWorkloads(ObservedWorkloads(st.cluster, workloads), edges), edges,
                    ObservedVersions(secrets))
  }

  // ----- What the extractors guarantee of their output -----

  /** Names fit for the string keys, and every edge under its own workload. */
  ghost predicate WellFormed(workloads: seq<WorkloadInput>) {
    forall i :: 0 <= i < |workloads| ==> WellFormedInput(workloads[i])
  }

  ghost predicate WellFormedInput(input: WorkloadInput) {
    && WellNamedWorkload(input.ref)
    && forall e :: e in input.edges ==> WellNamedSecret(e.secret) && e.workload == input.ref
  }

  /** What Kubernetes guarantees of the Secrets it lists. What annotations name may be anything. */
  ghost predicate PlainSecrets(secrets: seq<SecretInput>) {
    forall i :: 0 <= i < |secrets| ==> '|' !in SecretID(secrets[i].ref)
  }

  ghost predicate PlainKeys(known: set<string>) {
    forall k :: k in known ==> '|' !in k
  }

  /** Enough for a missing Secret to have one record, whichever edge names it. */
  ghost predicate UnambiguousSecrets(workloads: seq<WorkloadInput>) {
    forall i, e :: 0 <= i < |workloads| && e in workloads[i].edges ==> '/' !in e.secret.namespace
  }
}

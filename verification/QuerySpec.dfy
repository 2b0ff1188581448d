/** What the read-only queries return, stated over the graph as a value. */
module QuerySpec {
  import opened Basics
  import opened Text
  import opened Ordering
  import opened GraphTypes
  import opened Ids
  import opened GraphSpec

  /** The graph as sorted lists. The time it was taken is not modelled. */
  datatype View = View(
    cluster: string,
    secrets: seq<SecretSummary>,
    workloads: seq<WorkloadSummary>,
    edges: seq<DependencyEdge>)

  /** The records under the given keys, in that order. */
  function Records<T>(m: map<string, T>, keys: seq<string>): (r: seq<T>)
    requires forall k :: k in keys ==> k in m
    ensures |r| == |keys|
    ensures forall i :: 0 <= i < |keys| ==> r[i] == m[keys[i]]
  {
    seq(|keys|, i requires 0 <= i < |keys| => m[keys[i]])
  }

  function ViewOf(st: State): View {
    View(
      st.cluster,
      Records(st.secrets, SortedKeys(st.secrets.Keys)),
      Records(st.workloads, SortedKeys(st.workloads.Keys)),
      Records(st.edges, SortedKeys(st.edges.Keys)))
  }

  /** Each list is in the order of its records' own keys. */
  ghost predicate InKeyOrder(v: View) {
    && (forall i, j :: 0 <= i < j < |v.secrets| ==> Less(SecretID(v.secrets[i].ref), SecretID(v.secrets[j].ref)))
    && (forall i, j :: 0 <= i < j < |v.workloads| ==>
          Less(WorkloadID(v.workloads[i].ref), WorkloadID(v.workloads[j].ref)))
    && (forall i, j :: 0 <= i < j < |v.edges| ==> Less(v.edges[i].id, v.edges[j].id))
  }

  lemma ViewLists(st: State)
    ensures ViewOf(st).secrets == Records(st.secrets, SortedKeys(st.secrets.Keys))
    ensures ViewOf(st).workloads == Records(st.workloads, SortedKeys(st.workloads.Keys))
    ensures ViewOf(st).edges == Records(st.edges, SortedKeys(st.edges.Keys))
  {}

  datatype NodeRef = ToWorkload(workload: WorkloadRef) | ToSecret(secret: SecretRef)

  // The title is the source's node label.
  datatype DependencyMapNode = DependencyMapNode(
    id: string, nodeType: string, title: string, ref: NodeRef, ownerTeam: string, criticality: string, impactScore: nat)

  function WorkloadNode(w: WorkloadSummary): DependencyMapNode {
    DependencyMapNode("workload:" + WorkloadID(w.ref), "workload", w.ref.kind + "/" + w.ref.name,
                      ToWorkload(w.ref), w.ownerTeam, w.criticality, 0)
  }

  function SecretNode(s: SecretSummary): DependencyMapNode {
    DependencyMapNode("secret:" + SecretID(s.ref), "secret", "Secret/" + s.ref.name,
                      ToSecret(s.ref), s.ownerTeam, s.criticality, s.impactScore)
  }

  datatype DependencyMap = DependencyMap(nodes: seq<DependencyMapNode>, edges: seq<DependencyEdge>)

  function Nodes(view: View): (r: seq<DependencyMapNode>)
    ensures |r| == |view.workloads| + |view.secrets|
    ensures forall i :: 0 <= i < |view.workloads| ==> r[i] == WorkloadNode(view.workloads[i])
    ensures forall i :: 0 <= i < |view.secrets| ==> r[|view.workloads| + i] == SecretNode(view.secrets[i])
  {
    seq(|view.workloads|, i requires 0 <= i < |view.workloads| => WorkloadNode(view.workloads[i]))
    + seq(|view.secrets|, i requires 0 <= i < |view.secrets| => SecretNode(view.secrets[i]))
  }

  // ----- The impact of one Secret -----

  datatype AffectedTeam = AffectedTeam(ownerTeam: string, workloadCount: nat)

  datatype ImpactSummary = ImpactSummary(
    affectedWorkloadCount: nat,
    affectedTeamCount: nat,
    affectedNamespaceCount: nat,
    unresolvedReferenceCount: nat,
    discoveryModes: map<string, nat>)

  datatype SecretImpact = SecretImpact(
    secret: SecretSummary,
    summary: ImpactSummary,
    affectedTeams: seq<AffectedTeam>,
    affectedWorkloads: seq<WorkloadSummary>,
    edges: seq<DependencyEdge>)

  /** The keys of the edges that name a Secret. */
  ghost function Naming(st: State, skey: string): (ids: set<string>)
    ensures ids <= st.edges.Keys
  {
    set id | id in st.edges && SecretID(st.edges[id].secret) == skey
  }

  ghost function EdgesWithMode(edges: map<string, DependencyEdge>, ids: set<string>, mode: string): set<string> {
    set id | id in ids && id in edges && edges[id].discoveryMode == mode
  }

  ghost function ModesAmong(edges: map<string, DependencyEdge>, ids: set<string>): set<string> {
    set id | id in ids && id in edges :: edges[id].discoveryMode
  }

  /** How many of the edges have each mode. */
  ghost function ModeCounts(edges: map<string, DependencyEdge>, ids: set<string>): map<string, nat> {
    map m | m in ModesAmong(edges, ids) :: |EdgesWithMode(edges, ids, m)|
  }

  ghost function WorkloadKeys(st: State, ids: set<string>): set<string> {
    set id | id in ids && id in st.edges :: WorkloadID(st.edges[id].workload)
  }

  /** The workloads at the ends of the edges, by the team that owns them now. */
  ghost function TeamMembers(st: State, ids: set<string>, team: string): set<string> {
    set k | k in WorkloadKeys(st, ids) && k in st.workloads && st.workloads[k].ownerTeam == team
  }

  ghost function OwningTeams(st: State, ids: set<string>): set<string> {
    set k | k in WorkloadKeys(st, ids) && k in st.workloads && st.workloads[k].ownerTeam != "" ::
      st.workloads[k].ownerTeam
  }

  ghost function TeamCounts(st: State, ids: set<string>): map<string, nat> {
    map t | t in OwningTeams(st, ids) :: |TeamMembers(st, ids, t)|
  }

  /** Every edge has its workload in the graph. */
  ghost predicate WorkloadsExist(st: State) {
    forall id :: id in st.edges ==> WorkloadID(st.edges[id].workload) in st.workloads
  }

  ghost predicate HasEnd(st: State, id: string) {
    id in st.edges && WorkloadID(st.edges[id].workload) in st.workloads
  }

  function Elements(s: seq<string>): set<string> {
    set k | k in s
  }

  /** Of edges at one workload the first, and none whose workload is not in the graph. */
  ghost function FirstEnds(st: State, ids: seq<string>): (r: seq<string>)
    ensures forall i :: 0 <= i < |r| ==> r[i] in ids && HasEnd(st, r[i])
  {
    if ids == [] then []
    else
      var init, id := ids[..|ids| - 1], ids[|ids| - 1];
      if HasEnd(st, id) && WorkloadID(st.edges[id].workload) !in WorkloadKeys(st, Elements(init))
      then FirstEnds(st, init) + [id]
      else FirstEnds(st, init)
  }

  ghost function WorkloadsOf(st: State, ids: seq<string>): (r: seq<WorkloadSummary>)
    requires forall i :: 0 <= i < |ids| ==>
      ids[i] in st.edges && WorkloadID(st.edges[ids[i]].workload) in st.workloads
    ensures |r| == |ids|
    ensures forall i :: 0 <= i < |ids| ==> r[i] == st.workloads[WorkloadID(st.edges[ids[i]].workload)]
  {
    seq(|ids|, i requires 0 <= i < |ids| => st.workloads[WorkloadID(st.edges[ids[i]].workload)])
  }

  ghost function TeamList(counts: map<string, nat>): seq<AffectedTeam> {
    var teams := SortedKeys(counts.Keys);
    seq(|teams|, i requires 0 <= i < |teams| => AffectedTeam(teams[i], counts[teams[i]]))
  }

  ghost function ImpactOf(st: State, namespace: string, name: string): Option<SecretImpact> {
    var skey := namespace + "/" + name;
    var ids := SortedKeys(Naming(st, skey));
    if skey !in st.secrets && ids == [] then None
    else
      var secret := if skey in st.secrets then st.secrets[skey] else ZERO_SECRET;
      Some(SecretImpact(
        secret,
        ImpactSummary(secret.affectedWorkloadCount, secret.affectedTeamCount, secret.affectedNamespaceCount,
                      secret.unresolvedReferenceCount, ModeCounts(st.edges, Naming(st, skey))),
        TeamList(TeamCounts(st, Naming(st, skey))),
        WorkloadsOf(st, FirstEnds(st, ids)),
        Records(st.edges, ids)))
  }

  // ----- The dependencies of one workload -----

  datatype WorkloadDependency = WorkloadDependency(
    secret: SecretSummary, discoveryMode: DiscoveryMode, resolved: bool, optional: bool, sources: seq<DependencySource>)

  datatype WorkloadDependencies = WorkloadDependencies(workload: WorkloadSummary, dependencies: seq<WorkloadDependency>)

  predicate Matches(w: WorkloadSummary, namespace: string, kind: string, name: string) {
    w.ref.namespace == namespace && w.ref.name == name && (kind == "" || EqualFold(w.ref.kind, kind))
  }

  ghost function Matching(st: State, namespace: string, kind: string, name: string): (keys: set<string>)
    ensures keys <= st.workloads.Keys
  {
    set k | k in st.workloads && Matches(st.workloads[k], namespace, kind, name)
  }

  /** The keys of the edges that a workload has. */
  ghost function Using(st: State, wkey: string): (ids: set<string>)
    ensures ids <= st.edges.Keys
  {
    set id | id in st.edges && WorkloadID(st.edges[id].workload) == wkey
  }

  function DependencyOf(st: State, e: DependencyEdge): WorkloadDependency {
    var skey := SecretID(e.secret);
    WorkloadDependency(if skey in st.secrets then st.secrets[skey] else ZERO_SECRET,
                       e.discoveryMode, e.resolved, e.optional, e.sources)
  }

  function DependenciesOf(st: State, ids: seq<string>): (r: seq<WorkloadDependency>)
    requires forall id :: id in ids ==> id in st.edges
    ensures |r| == |ids|
    ensures forall i :: 0 <= i < |ids| ==> r[i] == DependencyOf(st, st.edges[ids[i]])
  {
    seq(|ids|, i requires 0 <= i < |ids| => DependencyOf(st, st.edges[ids[i]]))
  }

  /** The first workload that matches, in key order: without a kind there may be several. */
  ghost function WorkloadDependenciesOf(st: State, namespace: string, kind: string,
      name: string): Option<WorkloadDependencies>
  {
    var found := Matching(st, namespace, kind, name);
    if found == {} then None
    else
      var w := st.workloads[Least(found)];
      Some(WorkloadDependencies(w, DependenciesOf(st, SortedKeys(Using(st, WorkloadID(w.ref))))))
  }
}

/** The in-memory graph. Each method is one critical section of the source's lock. */
module GraphCache {
  import opened Basics
  import opened Text
  import opened Ordering
  import opened GraphTypes
  import opened Ids
  import opened Criticality
  import opened Merge
  import opened GraphSpec
  import opened Tally
  import opened Consistency
  import opened QuerySpec
  import opened Queries

  class Cache {
    const cluster: string
    var secrets: map<string, SecretSummary>
    var workloads: map<string, WorkloadSummary>
    var edges: map<string, DependencyEdge>
    var secretVersions: map<string, string>

    ghost function Graph(): State
      reads this
    {
      State(cluster, secrets, workloads, edges, secretVersions)
    }

    /** Holds from the start, and after any snapshot at all. */
    ghost predicate Valid()
      reads this
    {
      KeysFit(Graph())
    }

    constructor (cluster: string)
      ensures Graph() == EmptyState(cluster)
      ensures Valid() && Consistent(Graph())
    {
      this.cluster := cluster;
      secrets, workloads, edges, secretVersions := map[], map[], map[], map[];
    }

    /** Replaces the whole graph; every map is filled on the side and then swapped in. */
    method ApplySnapshot(secretInputs: seq<SecretInput>, workloadInputs: seq<WorkloadInput>, now: Time)
      modifies this
      ensures Valid()
      ensures Applied(old(Graph()), secretInputs, workloadInputs, now, Graph())
      ensures UnambiguousSecrets(workloadInputs) ==> Graph() == Apply(old(Graph()), secretInputs, workloadInputs, now)
      ensures WellFormed(workloadInputs) && PlainSecrets(secretInputs) ==> Consistent(Graph())
    {
      hide ObservedSecrets, ObservedVersions, ObservedWorkloads, ObservedEdges, FinishedSecrets, FinishedWorkloads,
           HasPhantoms, Tallied, Consistent, WellFormed, UnambiguousSecrets, PlainSecrets, KeysFit, Apply;
      ghost var before := Graph();
      var newSecrets, newVersions := ObserveSecrets(secretInputs, now);
      var newWorkloads, newEdges := ObserveWorkloads(newSecrets, workloadInputs, now);
      var tallies, allSecrets := TallyEdges(newSecrets, newEdges);
      newSecrets := FinishSecrets(allSecrets, newEdges, tallies);
      newWorkloads := FinishWorkloads(newWorkloads, newEdges, tallies);
      secrets := newSecrets;
      workloads := newWorkloads;
      edges := newEdges;
      secretVersions := newVersions;
      AppliedKeysFit(before, secretInputs, workloadInputs, now, Graph());
      if UnambiguousSecrets(workloadInputs) {
        AppliedIsApply(before, secretInputs, workloadInputs, now, Graph());
      }
      if WellFormed(workloadInputs) && PlainSecrets(secretInputs) {
        WellFormedIsUnambiguous(workloadInputs);
        ApplyIsConsistent(before, secretInputs, workloadInputs, now);
      }
    }

    method ObserveSecrets(inputs: seq<SecretInput>, now: Time)
      returns (newSecrets: map<string, SecretSummary>, newVersions: map<string, string>)
      ensures newSecrets == ObservedSecrets(Graph(), inputs, now)
      ensures newVersions == ObservedVersions(inputs)
    {
      newSecrets, newVersions := map[], map[];
      for n := 0 to |inputs|
        invariant newSecrets == ObservedSecrets(Graph(), inputs[..n], now)
        invariant newVersions == ObservedVersions(inputs[..n])
      {
        var key := SecretID(inputs[n].ref);
        var summary := ObserveOne(inputs[n], now);
        newSecrets := newSecrets[key := summary];
        newVersions := newVersions[key := inputs[n].resourceVersion];
        assert inputs[..n + 1][..n] == inputs[..n];
      }
      assert inputs[..|inputs|] == inputs;
    }

    method ObserveOne(input: SecretInput, now: Time) returns (summary: SecretSummary)
      ensures summary == ObserveSecret(Graph(), input, now)
    {
      var ref := input.ref.(cluster := cluster, key := "");
      var key := SecretID(ref);
      var prev := if key in secrets then secrets[key] else ZERO_SECRET;
      var prevVersion := if key in secretVersions then secretVersions[key] else "";

      var changeCount := prev.observedChangeCount;
      var changeTime := prev.lastObservedChangeTime;
      if changeTime == 0 {
        changeTime := input.creationTimestamp;
        if changeTime == 0 {
          changeTime := now;
        }
      }
      if prevVersion != "" && input.resourceVersion != "" && prevVersion != input.resourceVersion {
        changeCount := (changeCount + 1) % UINT64;
        changeTime := now;
      }
      summary := SecretSummary(
        ref, true, input.secretType, input.ownerTeam, NormalizeCriticality(input.criticality),
        changeTime, changeCount, 0, 0, 0, 0, 0);
    }

    method ObserveWorkloads(newSecrets: map<string, SecretSummary>, inputs: seq<WorkloadInput>, now: Time)
      returns (newWorkloads: map<string, WorkloadSummary>, newEdges: map<string, DependencyEdge>)
      ensures newWorkloads == ObservedWorkloads(cluster, inputs)
      ensures newEdges == ObservedEdges(Graph(), newSecrets.Keys, inputs, now)
    {
      newWorkloads, newEdges := map[], map[];
      for n := 0 to |inputs|
        invariant newWorkloads == ObservedWorkloads(cluster, inputs[..n])
        invariant newEdges == ObservedEdges(Graph(), newSecrets.Keys, inputs[..n], now)
      {
        var input := inputs[n];
        var ref := input.ref.(cluster := cluster);
        newWorkloads := newWorkloads[WorkloadID(ref) := WorkloadSummary(
          ref, input.ownerTeam, input.service, input.environment, NormalizeCriticality(input.criticality),
          input.discoveryMode, 0, 0)];
        newEdges := ObserveEdges(newSecrets, input, now, newEdges, Flatten(Graph(), newSecrets.Keys, inputs[..n], now));
        assert inputs[..n + 1][..n] == inputs[..n];
      }
      assert inputs[..|inputs|] == inputs;
    }

    /** The inner loop: one workload's edges on top of those of the workloads before it. */
    method ObserveEdges(newSecrets: map<string, SecretSummary>, input: WorkloadInput, now: Time,
                        mergedSoFar: map<string, DependencyEdge>, ghost flat: seq<DependencyEdge>)
      returns (newEdges: map<string, DependencyEdge>)
      requires mergedSoFar == MergeAll(AtSnapshot, flat)
      ensures newEdges == MergeAll(AtSnapshot, flat + NormalizeAll(Graph(), newSecrets.Keys, input, input.edges, now))
    {
      hide Normalize, MergeAll, Insert, NormalizeAll;
      ghost var st, known := Graph(), newSecrets.Keys;
      newEdges := mergedSoFar;
      EdgesOfNone(st, known, input, now, flat);
      for n := 0 to |input.edges|
        invariant newEdges == MergeAll(AtSnapshot, flat + NormalizeAll(st, known, input, input.edges[..n], now))
      {
        var edge := PrepareEdge(newSecrets, input, input.edges[n], now);
        newEdges := MergeEdge(newEdges, edge);
        EdgesOfOneMore(st, known, input, now, flat, n);
      }
      assert input.edges[..|input.edges|] == input.edges;
    }

    /** An edge whose key is taken is folded into the one that has it. */
    method MergeEdge(m: map<string, DependencyEdge>, edge: DependencyEdge) returns (r: map<string, DependencyEdge>)
      ensures r == Insert(AtSnapshot, m, edge)
    {
      if edge.id in m {
        var existing := m[edge.id];
        existing := existing.(sources := existing.sources + edge.sources);
        existing := existing.(optional := existing.optional && edge.optional);
        existing := existing.(resolved := existing.resolved || edge.resolved);
        if existing.discoveryMode != edge.discoveryMode {
          existing := existing.(discoveryMode := HYBRID);
        }
        return m[edge.id := existing];
      }
      return m[edge.id := edge];
    }

    /** One edge's fields settled, before it is merged with others of its key. */
    method PrepareEdge(newSecrets: map<string, SecretSummary>, input: WorkloadInput, given: DependencyEdge, now: Time)
      returns (edge: DependencyEdge)
      ensures edge == Normalize(Graph(), newSecrets.Keys, input, given, now)
    {
      hide EdgeID, SecretID, NormalizeCriticality;
      var workload := given.workload.(cluster := cluster);
      var secret := given.secret.(cluster := cluster);
      secret := secret.(key := "");
      var id := EdgeID(workload, secret);
      var ownerTeam, criticality, mode := given.ownerTeam, given.criticality, given.discoveryMode;
      if ownerTeam == "" {
        ownerTeam := input.ownerTeam;
      }
      if criticality == "" {
        criticality := NormalizeCriticality(input.criticality);
      }
      if mode == "" {
        mode := input.discoveryMode;
      }
      var resolved := SecretID(secret) in newSecrets;
      var first := now;
      if id in edges && edges[id].firstObservedAt != 0 {
        first := edges[id].firstObservedAt;
      }
      edge := DependencyEdge(id, cluster, workload, secret, mode, given.sources, given.optional, resolved,
                             ownerTeam, criticality, given.purpose, first, now);
    }

    /** Ranges over the merged edges in any order; the result does not depend on it. */
    method TallyEdges(newSecrets: map<string, SecretSummary>, newEdges: map<string, DependencyEdge>)
      returns (t: Tallies, allSecrets: map<string, SecretSummary>)
      ensures Tallied(t, newEdges, newEdges.Keys)
      ensures HasPhantoms(newSecrets, newEdges, newEdges.Keys, allSecrets)
    {
      hide Tallied, NamedSecrets, SecretID, HasPhantoms;
      NothingTallied(newEdges);
      NoPhantoms(newSecrets, newEdges);
      t, allSecrets := NO_TALLIES, newSecrets;
      var pending := newEdges.Keys;
      ghost var done: set<string> := {};
      while pending != {}
        invariant pending == newEdges.Keys - done && done <= newEdges.Keys
        invariant Tallied(t, newEdges, done)
        invariant HasPhantoms(newSecrets, newEdges, done, allSecrets)
      {
        var id :| id in pending;
        var edge := newEdges[id];
        var skey := SecretID(edge.secret);
        PhantomOfOneMore(newSecrets, newEdges, done, allSecrets, id);
        if skey !in allSecrets {
          allSecrets := allSecrets[skey := ZERO_SECRET.(ref := edge.secret, criticality := "unknown")];
        }
        TalliedOneMore(t, newEdges, done, id);
        t := TallyEdge(t, edge);
        pending := pending - {id};
        done := done + {id};
      }
      assert done == newEdges.Keys;
    }

    method FinishSecrets(allSecrets: map<string, SecretSummary>, newEdges: map<string, DependencyEdge>, t: Tallies)
      returns (finished: map<string, SecretSummary>)
      requires Tallied(t, newEdges, newEdges.Keys)
      ensures finished == FinishedSecrets(allSecrets, newEdges)
    {
      hide FinishSecret, Tallied;
      finished := allSecrets;
      ghost var goal := FinishedSecrets(allSecrets, newEdges);
      var pending := allSecrets.Keys;
      while pending != {}
        invariant pending <= allSecrets.Keys == finished.Keys
        invariant forall k :: k in allSecrets ==>
          finished[k] == if k in pending then allSecrets[k] else goal[k]
      {
        var skey :| skey in pending;
        var secret := FinishOneSecret(finished[skey], newEdges, t, skey);
        finished := finished[skey := secret];
        pending := pending - {skey};
      }
    }

    method FinishOneSecret(base: SecretSummary, ghost newEdges: map<string, DependencyEdge>, t: Tallies, skey: string)
      returns (secret: SecretSummary)
      requires Tallied(t, newEdges, newEdges.Keys)
      ensures secret == FinishSecret(base, newEdges, skey)
    {
      hide MaxCriticality, ImpactScore, AffectedWorkloads, AffectedTeams, AffectedNamespaces, UnresolvedNaming,
           DerivedCriticality, SoleTeam;
      assert ReachTalliesAt(t, newEdges, newEdges.Keys, skey);
      assert OwnerTalliesAt(t, newEdges, newEdges.Keys, skey);
      assert CountsAt(t, newEdges, newEdges.Keys, skey);
      var ownerTeam, criticality := base.ownerTeam, base.criticality;
      if ownerTeam == "" {
        ownerTeam := SingleTeam(SetAt(t.derivedOwnerTeams, skey));
      }
      var derivedCriticality := TextAt(t.derivedCriticality, skey);
      if derivedCriticality != "" {
        criticality := MaxCriticality(criticality, derivedCriticality);
      }
      secret := base.(
        ownerTeam := ownerTeam,
        criticality := criticality,
        affectedWorkloadCount := |SetAt(t.affectedWorkloads, skey)|,
        affectedTeamCount := |SetAt(t.affectedTeams, skey)|,
        affectedNamespaceCount := |SetAt(t.affectedNamespaces, skey)|,
        unresolvedReferenceCount := CountAt(t.unresolvedRefs, skey));
      secret := secret.(impactScore := ImpactScore(secret));
    }

    method SingleTeam(teams: set<string>) returns (team: string)
      ensures team == SoleTeam(teams)
    {
      if |teams| != 1 {
        return "";
      }
      team :| team in teams;
      assert teams == {team} by {
        assert |teams - {team}| == 0;
      }
    }

    method FinishOneWorkload(base: WorkloadSummary, ghost newEdges: map<string, DependencyEdge>, t: Tallies,
                             wkey: string)
      returns (workload: WorkloadSummary)
      requires Tallied(t, newEdges, newEdges.Keys)
      ensures workload == FinishWorkload(base, newEdges, wkey)
    {
      hide Dependencies, UnresolvedUsed;
      assert ReachTalliesAt(t, newEdges, newEdges.Keys, wkey);
      assert CountsAt(t, newEdges, newEdges.Keys, wkey);
      workload := base.(dependencyCount := |SetAt(t.workloadDeps, wkey)|,
                        unresolvedCount := CountAt(t.workloadUnresolved, wkey));
    }

    method FinishWorkloads(base: map<string, WorkloadSummary>, newEdges: map<string, DependencyEdge>, t: Tallies)
      returns (finished: map<string, WorkloadSummary>)
      requires Tallied(t, newEdges, newEdges.Keys)
      ensures finished == FinishedWorkloads(base, newEdges)
    {
      hide FinishWorkload, Tallied;
      finished := base;
      ghost var goal := FinishedWorkloads(base, newEdges);
      var pending := base.Keys;
      while pending != {}
        invariant pending <= base.Keys == finished.Keys
        invariant forall k :: k in base ==>
          finished[k] == if k in pending then base[k] else goal[k]
      {
        var wkey :| wkey in pending;
        var workload := FinishOneWorkload(finished[wkey], newEdges, t, wkey);
        finished := finished[wkey := workload];
        pending := pending - {wkey};
      }
    }

    // ----- Queries: they take a snapshot of the graph and change nothing -----

    /** Sorting records by the keys they carry is taking their keys in order. */
    method Snapshot() returns (view: View)
      requires Valid()
      ensures view == ViewOf(Graph()) && InKeyOrder(view)
    {
      hide KeysFit, InKeyOrder, SortedKeys;
      ViewIsSorted(Graph());
      var secretList := InOrder(secrets);
      var workloadList := InOrder(workloads);
      var edgeList := InOrder(edges);
      view := View(cluster, secretList, workloadList, edgeList);
    }

    static method InOrder<T>(m: map<string, T>) returns (list: seq<T>)
      ensures list == Records(m, SortedKeys(m.Keys))
    {
      hide SortedKeys;
      var keys := SortedKeys(m.Keys);
      list := [];
      for n := 0 to |keys|
        invariant |list| == n && forall i :: 0 <= i < n ==> list[i] == m[keys[i]]
      {
        list := list + [m[keys[n]]];
      }
    }

    method GetDependencyMap() returns (m: DependencyMap)
      requires Valid()
      ensures m == DependencyMap(Nodes(ViewOf(Graph())), ViewOf(Graph()).edges)
    {
      hide WorkloadNode, SecretNode, ViewOf, KeysFit, InKeyOrder;
      var view := Snapshot();
      var nodes: seq<DependencyMapNode> := [];
      for n := 0 to |view.workloads|
        invariant |nodes| == n && forall i :: 0 <= i < n ==> nodes[i] == WorkloadNode(view.workloads[i])
      {
        nodes := nodes + [WorkloadNode(view.workloads[n])];
      }
      for n := 0 to |view.secrets|
        invariant |nodes| == |view.workloads| + n
        invariant forall i :: 0 <= i < |view.workloads| ==> nodes[i] == WorkloadNode(view.workloads[i])
        invariant forall i :: 0 <= i < n ==> nodes[|view.workloads| + i] == SecretNode(view.secrets[i])
      {
        nodes := nodes + [SecretNode(view.secrets[n])];
      }
      assert forall i :: |view.workloads| <= i < |nodes| ==> nodes[i] == SecretNode(view.secrets[i - |view.workloads|]);
      assert nodes == Nodes(view);
      m := DependencyMap(nodes, view.edges);
    }

    method GetSecretImpact(namespace: string, name: string) returns (result: Option<SecretImpact>)
      requires Valid()
      ensures result == ImpactOf(Graph(), namespace, name)
    {
      hide KeysFit, InKeyOrder, Gathered, TeamsGathered, ImpactOf, ViewOf, Naming, SortedKeys, TeamCounts, TeamList;
      ghost var st := Graph();
      var view := Snapshot();
      var targetKey := namespace + "/" + name;
      ViewLists(st);
      var secret, found := FindSecret(st, view.secrets, targetKey);
      var workloadsByKey := IndexWorkloads(st, view.workloads);
      var impactEdges, affected, modeCounts, teams := GatherImpact(st, view.edges, workloadsByKey, targetKey);
      GatheredAll(st, namespace, name, secret, found, impactEdges, affected, modeCounts, teams);
      if !found && |impactEdges| == 0 {
        return None;
      }
      var affectedTeams := ListTeams(st, Naming(st, targetKey), teams);
      result := Some(SecretImpact(
        secret,
        ImpactSummary(secret.affectedWorkloadCount, secret.affectedTeamCount, secret.affectedNamespaceCount,
                      secret.unresolvedReferenceCount, modeCounts),
        affectedTeams, affected, impactEdges));
    }

    /** The loop over all edges that collects those of one Secret. */
    static method GatherImpact(ghost st: State, edgeList: seq<DependencyEdge>,
                               workloadsByKey: map<string, WorkloadSummary>, targetKey: string)
      returns (impactEdges: seq<DependencyEdge>, affected: seq<WorkloadSummary>, modeCounts: map<string, nat>,
               teams: map<string, set<string>>)
      requires workloadsByKey == st.workloads
      requires edgeList == Records(st.edges, SortedKeys(st.edges.Keys))
      ensures Gathered(st, SortedKeys(Naming(st, targetKey)), impactEdges, affected, modeCounts, teams)
    {
      hide SecretID, WorkloadID, SortedKeys, Gathered, WorkloadKeys;
      ghost var naming, keys := Naming(st, targetKey), SortedKeys(st.edges.Keys);
      ghost var done: seq<string> := [];
      impactEdges, affected, modeCounts, teams := [], [], map[], map[];
      var seen: set<string> := {};
      NothingGathered(st);
      for n := 0 to |edgeList|
        invariant done == Restrict(keys[..n], naming)
        invariant forall k :: k in done ==> k in naming
        invariant Gathered(st, done, impactEdges, affected, modeCounts, teams)
        invariant seen == WorkloadKeys(st, Elements(done)) * st.workloads.Keys
      {
        var edge := edgeList[n];
        RestrictOfLonger(keys, n, naming);
        if SecretID(edge.secret) != targetKey {
          continue;
        }
        RestrictIsFresh(keys, n, naming);
        impactEdges, affected, seen, modeCounts, teams :=
          GatherEdge(st, done, keys[n], edge, workloadsByKey, impactEdges, affected, seen, modeCounts, teams);
        done := done + [keys[n]];
      }
      assert keys[..|keys|] == keys;
      RestrictSortedKeys(st.edges.Keys, naming);
    }

    /** One edge of the Secret. */
    static method GatherEdge(ghost st: State, ghost done: seq<string>, ghost id: string, edge: DependencyEdge,
                             workloadsByKey: map<string, WorkloadSummary>, edgesSoFar: seq<DependencyEdge>,
                             affectedSoFar: seq<WorkloadSummary>, seenSoFar: set<string>,
                             modesSoFar: map<string, nat>, teamsSoFar: map<string, set<string>>)
      returns (impactEdges: seq<DependencyEdge>, affected: seq<WorkloadSummary>, seen: set<string>,
               modeCounts: map<string, nat>, teams: map<string, set<string>>)
      requires workloadsByKey == st.workloads
      requires id in st.edges && edge == st.edges[id] && id !in done
      requires Gathered(st, done, edgesSoFar, affectedSoFar, modesSoFar, teamsSoFar)
      requires seenSoFar == WorkloadKeys(st, Elements(done)) * st.workloads.Keys
      ensures Gathered(st, done + [id], impactEdges, affected, modeCounts, teams)
      ensures seen == WorkloadKeys(st, Elements(done + [id])) * st.workloads.Keys
    {
      hide SecretID, WorkloadID, ModeCounts, TeamsGathered, WorkloadKeys, FirstEnds, WorkloadsOf, Records, AddTo,
           Increment;
      assert Elements(done + [id]) == Elements(done) + {id};
      AffectedOfOneMore(st, done, id);
      RecordsOfOneMore(st.edges, done, id);
      ImpactOfOneMore(st, Elements(done), id, teamsSoFar);
      affected, seen, teams := affectedSoFar, seenSoFar, teamsSoFar;
      impactEdges := edgesSoFar + [edge];
      modeCounts := Increment(modesSoFar, edge.discoveryMode);
      var wkey := WorkloadID(edge.workload);
      if wkey !in workloadsByKey {
        return;
      }
      var workload := workloadsByKey[wkey];
      if wkey !in seen {
        affected := affected + [workload];
        seen := seen + {wkey};
      }
      if workload.ownerTeam != "" {
        teams := AddTo(teams, workload.ownerTeam, wkey);
      }
    }

    /** The first listed Secret with the key; there is at most one. */
    static method FindSecret(ghost st: State, list: seq<SecretSummary>, targetKey: string)
      returns (secret: SecretSummary, found: bool)
      requires KeysFit(st) && list == Records(st.secrets, SortedKeys(st.secrets.Keys))
      ensures found <==> targetKey in st.secrets
      ensures secret == if found then st.secrets[targetKey] else ZERO_SECRET
    {
      hide SecretID, SortedKeys;
      ghost var keys := SortedKeys(st.secrets.Keys);
      for n := 0 to |list|
        invariant forall i :: 0 <= i < n ==> keys[i] != targetKey
      {
        if SecretID(list[n].ref) == targetKey {
          return list[n], true;
        }
      }
      return ZERO_SECRET, false;
    }

    static method IndexWorkloads(ghost st: State, list: seq<WorkloadSummary>)
      returns (index: map<string, WorkloadSummary>)
      requires KeysFit(st) && list == Records(st.workloads, SortedKeys(st.workloads.Keys))
      ensures index == st.workloads
    {
      hide WorkloadID, SortedKeys;
      ghost var keys := SortedKeys(st.workloads.Keys);
      index := map[];
      for n := 0 to |list|
        invariant forall i :: 0 <= i < n ==> keys[i] in index
        invariant forall k :: k in index ==> k in st.workloads && index[k] == st.workloads[k]
      {
        index := index[WorkloadID(list[n].ref) := list[n]];
      }
      assert forall k :: k in st.workloads.Keys ==> k in keys;
    }

    static method ListTeams(ghost st: State, ghost ids: set<string>, teams: map<string, set<string>>)
      returns (list: seq<AffectedTeam>)
      requires TeamsGathered(st, ids, teams)
      ensures list == TeamList(TeamCounts(st, ids))
    {
      hide SortedKeys, OwningTeams, TeamMembers;
      var names := SortedKeys(teams.Keys);
      assert TeamCounts(st, ids).Keys == teams.Keys;
      list := [];
      for n := 0 to |names|
        invariant |list| == n && forall i :: 0 <= i < n ==> list[i] == AffectedTeam(names[i], |teams[names[i]]|)
      {
        list := list + [AffectedTeam(names[n], |teams[names[n]]|)];
      }
    }

    method GetWorkloadDependencies(namespace: string, kind: string, name: string)
      returns (result: Option<WorkloadDependencies>)
      requires Valid()
      ensures result == WorkloadDependenciesOf(Graph(), namespace, kind, name)
    {
      hide KeysFit, InKeyOrder, ViewOf, Matching, Using, WorkloadID, SortedKeys, Least, DependenciesOf;
      ghost var st := Graph();
      ViewLists(st);
      var view := Snapshot();
      var workload, found := FindWorkload(st, view.workloads, namespace, kind, name);
      if !found {
        return None;
      }
      var secretsByKey := IndexSecrets(st, view.secrets);
      var deps := GatherDependencies(st, view.edges, WorkloadID(workload.ref), secretsByKey);
      result := Some(WorkloadDependencies(workload, deps));
    }

    /** The first listed workload that matches. */
    static method FindWorkload(ghost st: State, list: seq<WorkloadSummary>, namespace: string, kind: string,
                               name: string)
      returns (workload: WorkloadSummary, found: bool)
      requires list == Records(st.workloads, SortedKeys(st.workloads.Keys))
      ensures found <==> Matching(st, namespace, kind, name) != {}
      ensures found ==> workload == st.workloads[Least(Matching(st, namespace, kind, name))]
    {
      hide SortedKeys, Matches, Least;
      ghost var keys, matching := SortedKeys(st.workloads.Keys), Matching(st, namespace, kind, name);
      for n := 0 to |list|
        invariant forall i :: 0 <= i < n ==> keys[i] !in matching
      {
        if Matches(list[n], namespace, kind, name) {
          assert keys[n] in matching;
          FirstIsLeast(st.workloads.Keys, matching, n);
          return list[n], true;
        }
      }
      assert forall k :: k in matching ==> k in keys;
      workload := WorkloadSummary(WorkloadRef("", "", "", "", "", ""), "", "", "", "", "", 0, 0);
      found := false;
    }

    /** The loop over all edges that collects those of one workload. */
    static method GatherDependencies(ghost st: State, edgeList: seq<DependencyEdge>, wkey: string,
                                     secretsByKey: map<string, SecretSummary>)
      returns (deps: seq<WorkloadDependency>)
      requires edgeList == Records(st.edges, SortedKeys(st.edges.Keys)) && secretsByKey == st.secrets
      ensures deps == DependenciesOf(st, SortedKeys(Using(st, wkey)))
    {
      hide WorkloadID, SortedKeys, DependencyOf, DependenciesOf;
      ghost var using, keys := Using(st, wkey), SortedKeys(st.edges.Keys);
      ghost var done: seq<string> := [];
      deps := [];
      for m := 0 to |edgeList|
        invariant done == Restrict(keys[..m], using)
        invariant forall k :: k in done ==> k in st.edges
        invariant deps == DependenciesOf(st, done)
      {
        var edge := edgeList[m];
        RestrictOfLonger(keys, m, using);
        if WorkloadID(edge.workload) != wkey {
          continue;
        }
        var dependency := Dependency(st, secretsByKey, edge);
        assert keys[m] in using;
        DependenciesOfLonger(st, done, keys[m]);
        deps := deps + [dependency];
        done := done + [keys[m]];
      }
      assert keys[..|keys|] == keys;
      RestrictSortedKeys(st.edges.Keys, using);
    }

    static method Dependency(ghost st: State, secretsByKey: map<string, SecretSummary>, edge: DependencyEdge)
      returns (d: WorkloadDependency)
      requires secretsByKey == st.secrets
      ensures d == DependencyOf(st, edge)
    {
      var skey := SecretID(edge.secret);
      var secret := if skey in secretsByKey then secretsByKey[skey] else ZERO_SECRET;
      d := WorkloadDependency(secret, edge.discoveryMode, edge.resolved, edge.optional, edge.sources);
    }

    static method IndexSecrets(ghost st: State, list: seq<SecretSummary>) returns (index: map<string, SecretSummary>)
      requires KeysFit(st) && list == Records(st.secrets, SortedKeys(st.secrets.Keys))
      ensures index == st.secrets
    {
      hide SecretID, SortedKeys;
      ghost var keys := SortedKeys(st.secrets.Keys);
      index := map[];
      for n := 0 to |list|
        invariant forall i :: 0 <= i < n ==> keys[i] in index
        invariant forall k :: k in index ==> k in st.secrets && index[k] == st.secrets[k]
      {
        index := index[SecretID(list[n].ref) := list[n]];
      }
      assert forall k :: k in st.secrets.Keys ==> k in keys;
    }
  }

  // ----- Steps of the query loops -----

  lemma DependenciesOfLonger(st: State, ids: seq<string>, id: string)
    requires (forall k :: k in ids ==> k in st.edges) && id in st.edges
    ensures DependenciesOf(st, ids + [id]) == DependenciesOf(st, ids) + [DependencyOf(st, st.edges[id])]
  {}

  /** The workloads and teams at the ends of some edges, as gathered by the impact loop. */
  ghost predicate TeamsGathered(st: State, ids: set<string>, teams: map<string, set<string>>) {
    && (forall t :: t in teams <==> t in OwningTeams(st, ids))
    && (forall t :: t in teams ==> teams[t] == TeamMembers(st, ids, t))
  }

  lemma ElementsOfSorted(s: set<string>)
    ensures Elements(SortedKeys(s)) == s
  {}

  /** What the impact loop has collected from the edges listed. */
  ghost predicate Gathered(st: State, done: seq<string>, impactEdges: seq<DependencyEdge>,
                           affected: seq<WorkloadSummary>, modeCounts: map<string, nat>,
                           teams: map<string, set<string>>) {
    && (forall k :: k in done ==> k in st.edges)
    && impactEdges == Records(st.edges, done)
    && affected == WorkloadsOf(st, FirstEnds(st, done))
    && modeCounts == ModeCounts(st.edges, Elements(done))
    && TeamsGathered(st, Elements(done), teams)
  }

  /** The collected parts make up the answer. */
  lemma GatheredAll(st: State, namespace: string, name: string, secret: SecretSummary, found: bool,
                    impactEdges: seq<DependencyEdge>, affected: seq<WorkloadSummary>, modeCounts: map<string, nat>,
                    teams: map<string, set<string>>)
    requires
      var skey := namespace + "/" + name;
      && Gathered(st, SortedKeys(Naming(st, skey)), impactEdges, affected, modeCounts, teams)
      && (found <==> skey in st.secrets)
      && secret == (if found then st.secrets[skey] else ZERO_SECRET)
    ensures TeamsGathered(st, Naming(st, namespace + "/" + name), teams)
    ensures ImpactOf(st, namespace, name) ==
      if !found && |impactEdges| == 0 then None
      else Some(SecretImpact(
        secret,
        ImpactSummary(secret.affectedWorkloadCount, secret.affectedTeamCount, secret.affectedNamespaceCount,
                      secret.unresolvedReferenceCount, modeCounts),
        TeamList(TeamCounts(st, Naming(st, namespace + "/" + name))),
        affected, impactEdges))
  {
    hide SortedKeys, Naming, ModeCounts, TeamCounts, TeamList, TeamsGathered, WorkloadsOf, FirstEnds;
    ElementsOfSorted(Naming(st, namespace + "/" + name));
  }

  lemma NothingGathered(st: State)
    ensures Gathered(st, [], [], [], map[], map[])
    ensures WorkloadKeys(st, Elements([])) == {}
  {}

  lemma FirstEndsOfOneMore(st: State, done: seq<string>, id: string)
    ensures
      var isNew := HasEnd(st, id) && WorkloadID(st.edges[id].workload) !in WorkloadKeys(st, Elements(done));
      FirstEnds(st, done + [id]) == if isNew then FirstEnds(st, done) + [id] else FirstEnds(st, done)
  {
    assert (done + [id])[..|done|] == done;
  }

  lemma AffectedOfOneMore(st: State, done: seq<string>, id: string)
    requires id in st.edges
    ensures
      var wkey := WorkloadID(st.edges[id].workload);
      WorkloadsOf(st, FirstEnds(st, done + [id])) ==
      if wkey in st.workloads && wkey !in WorkloadKeys(st, Elements(done))
      then WorkloadsOf(st, FirstEnds(st, done)) + [st.workloads[wkey]]
      else WorkloadsOf(st, FirstEnds(st, done))
  {
    hide WorkloadID, FirstEnds, WorkloadKeys;
    FirstEndsOfOneMore(st, done, id);
  }

  lemma RecordsOfOneMore(edges: map<string, DependencyEdge>, done: seq<string>, id: string)
    requires id in edges && forall k :: k in done ==> k in edges
    ensures Records(edges, done + [id]) == Records(edges, done) + [edges[id]]
  {}

  /** The team of a workload, none for one that is not in the graph. */
  function TeamAt(st: State, wkey: string): string {
    if wkey in st.workloads then st.workloads[wkey].ownerTeam else ""
  }

  lemma ImpactOfOneMore(st: State, ids: set<string>, id: string, teams: map<string, set<string>>)
    requires id in st.edges && id !in ids && TeamsGathered(st, ids, teams)
    ensures
      var wkey := WorkloadID(st.edges[id].workload);
      var team := TeamAt(st, wkey);
      && ModeCounts(st.edges, ids + {id}) == Increment(ModeCounts(st.edges, ids), st.edges[id].discoveryMode)
      && WorkloadKeys(st, ids + {id}) == WorkloadKeys(st, ids) + {wkey}
      && TeamsGathered(st, ids + {id}, if team != "" then AddTo(teams, team, wkey) else teams)
  {
    hide WorkloadID, ModeCounts, TeamsGathered, WorkloadKeys;
    ModesOfOneMore(st.edges, ids, id);
    WorkloadKeysOfOneMore(st, ids, id);
    TeamsOfOneMore(st, ids, id, teams);
  }

  lemma WorkloadKeysOfOneMore(st: State, ids: set<string>, id: string)
    requires id in st.edges
    ensures WorkloadKeys(st, ids + {id}) == WorkloadKeys(st, ids) + {WorkloadID(st.edges[id].workload)}
  {}

  lemma ModesOfOneMore(edges: map<string, DependencyEdge>, ids: set<string>, id: string)
    requires id in edges && id !in ids
    ensures ModeCounts(edges, ids + {id}) == Increment(ModeCounts(edges, ids), edges[id].discoveryMode)
  {
    hide ModesAmong, EdgesWithMode;
    var mode := edges[id].discoveryMode;
    ModeSetsOfOneMore(edges, ids, id);
    var before, after := ModeCounts(edges, ids), ModeCounts(edges, ids + {id});
    assert after.Keys == before.Keys + {mode};
    forall m | m in after ensures after[m] == Increment(before, mode)[m] {}
  }

  lemma ModeSetsOfOneMore(edges: map<string, DependencyEdge>, ids: set<string>, id: string)
    requires id in edges && id !in ids
    ensures
      var mode := edges[id].discoveryMode;
      && ModesAmong(edges, ids + {id}) == ModesAmong(edges, ids) + {mode}
      && |EdgesWithMode(edges, ids + {id}, mode)| ==
           (if mode in ModesAmong(edges, ids) then |EdgesWithMode(edges, ids, mode)| + 1 else 1)
      && (forall m :: m != mode ==> EdgesWithMode(edges, ids + {id}, m) == EdgesWithMode(edges, ids, m))
  {
    var mode := edges[id].discoveryMode;
    assert EdgesWithMode(edges, ids + {id}, mode) == EdgesWithMode(edges, ids, mode) + {id};
    assert mode !in ModesAmong(edges, ids) ==> EdgesWithMode(edges, ids, mode) == {};
  }

  lemma TeamsOfOneMore(st: State, ids: set<string>, id: string, teams: map<string, set<string>>)
    requires id in st.edges && TeamsGathered(st, ids, teams)
    ensures
      var wkey := WorkloadID(st.edges[id].workload);
      var team := TeamAt(st, wkey);
      TeamsGathered(st, ids + {id}, if team != "" then AddTo(teams, team, wkey) else teams)
  {
    hide WorkloadID, OwningTeams, TeamMembers;
    TeamSetsOfOneMore(st, ids, id);
    NoBlankTeam(st, ids);
  }

  lemma NoBlankTeam(st: State, ids: set<string>)
    ensures "" !in OwningTeams(st, ids)
  {}

  lemma TeamSetsOfOneMore(st: State, ids: set<string>, id: string)
    requires id in st.edges
    ensures
      var wkey := WorkloadID(st.edges[id].workload);
      var team := TeamAt(st, wkey);
      && OwningTeams(st, ids + {id}) == (if team != "" then OwningTeams(st, ids) + {team} else OwningTeams(st, ids))
      && (team != "" ==> TeamMembers(st, ids + {id}, team) == TeamMembers(st, ids, team) + {wkey})
      && (forall t :: t != "" && t != team ==> TeamMembers(st, ids + {id}, t) == TeamMembers(st, ids, t))
      && (team != "" && team !in OwningTeams(st, ids) ==> TeamMembers(st, ids, team) == {})
  {
    hide WorkloadID, WorkloadKeys;
    WorkloadKeysOfOneMore(st, ids, id);
    var wkey := WorkloadID(st.edges[id].workload);
    var team := TeamAt(st, wkey);
    assert forall k :: k in WorkloadKeys(st, ids + {id}) <==> k == wkey || k in WorkloadKeys(st, ids);
    if team != "" {
      assert TeamMembers(st, ids + {id}, team) == TeamMembers(st, ids, team) + {wkey};
      assert OwningTeams(st, ids + {id}) == OwningTeams(st, ids) + {team};
    } else {
      assert OwningTeams(st, ids + {id}) == OwningTeams(st, ids);
    }
    forall t | t != "" && t != team ensures TeamMembers(st, ids + {id}, t) == TeamMembers(st, ids, t) {}
    MembersOwn(st, ids, team);
  }

  lemma MembersOwn(st: State, ids: set<string>, team: string)
    ensures team != "" && team !in OwningTeams(st, ids) ==> TeamMembers(st, ids, team) == {}
  {}

  lemma RestrictIsFresh(keys: seq<string>, n: nat, keep: set<string>)
    requires Sorted(keys) && n < |keys|
    ensures keys[n] !in Restrict(keys[..n], keep)
  {
    RestrictIsSorted(keys[..n], keep);
    forall i | 0 <= i < n ensures keys[i] != keys[n] {
      LessIsAsymmetric(keys[i], keys[n]);
    }
  }

  lemma FirstIsLeast(all: set<string>, some: set<string>, n: nat)
    requires some <= all && n < |SortedKeys(all)| && SortedKeys(all)[n] in some
    requires forall i :: 0 <= i < n ==> SortedKeys(all)[i] !in some
    ensures SortedKeys(all)[n] == Least(some)
  {
    hide SortedKeys, Least;
    var keys := SortedKeys(all);
    forall k | k in some ensures k == keys[n] || Less(keys[n], k) {
      assert k in keys;
      var i :| 0 <= i < |keys| && keys[i] == k;
    }
    assert IsLeast(keys[n], some);
    LeastIsUnique(some);
  }

  // ----- Steps of ApplySnapshot -----

  lemma EdgesOfNone(st: State, known: set<string>, input: WorkloadInput, now: Time, flat: seq<DependencyEdge>)
    ensures flat + NormalizeAll(st, known, input, input.edges[..0], now) == flat
  {}

  lemma EdgesOfOneMore(st: State, known: set<string>, input: WorkloadInput, now: Time, flat: seq<DependencyEdge>,
                       n: nat)
    requires n < |input.edges|
    ensures MergeAll(AtSnapshot, flat + NormalizeAll(st, known, input, input.edges[..n + 1], now)) ==
            Insert(AtSnapshot, MergeAll(AtSnapshot, flat + NormalizeAll(st, known, input, input.edges[..n], now)),
                   Normalize(st, known, input, input.edges[n], now))
  {
    hide Normalize, MergeAll, Insert;
    var before, next := NormalizeAll(st, known, input, input.edges[..n], now),
      Normalize(st, known, input, input.edges[n], now);
    assert input.edges[..n + 1][..n] == input.edges[..n];
    assert flat + (before + [next]) == (flat + before) + [next];
    MergeAllOfLonger(AtSnapshot, flat + before, next);
  }

  lemma NoPhantoms(base: map<string, SecretSummary>, edges: map<string, DependencyEdge>)
    ensures HasPhantoms(base, edges, {}, base)
  {}

  lemma PhantomOfOneMore(base: map<string, SecretSummary>, edges: map<string, DependencyEdge>, ids: set<string>,
                         all: map<string, SecretSummary>, id: string)
    requires id in edges && HasPhantoms(base, edges, ids, all)
    ensures
      var skey := SecretID(edges[id].secret);
      var phantom := ZERO_SECRET.(ref := edges[id].secret, criticality := "unknown");
      HasPhantoms(base, edges, ids + {id}, if skey in all then all else all[skey := phantom])
  {
    hide SecretID;
    var skey := SecretID(edges[id].secret);
    assert NamedSecrets(edges, ids + {id}) == NamedSecrets(edges, ids) + {skey};
    assert Names(edges, id, skey);
  }

  // ----- What a snapshot leaves, in any order -----

  lemma AppliedKeysFit(st: State, secrets: seq<SecretInput>, inputs: seq<WorkloadInput>, now: Time, r: State)
    requires Applied(st, secrets, inputs, now, r)
    ensures KeysFit(r)
  {
    hide ObservedEdges, ObservedSecrets, ObservedWorkloads, SecretID, WorkloadID, FinishSecret, FinishWorkload;
    var base := ObservedSecrets(st, secrets, now);
    var all :| HasPhantoms(base, r.edges, r.edges.Keys, all) && r.secrets == FinishedSecrets(all, r.edges);
    forall k | k in r.secrets ensures SecretID(r.secrets[k].ref) == k {
      FinishKeepsRef(all[k], r.edges, k);
      if k in base {
        ObservedSecretIsKeyed(st, secrets, now, k);
      }
    }
    forall k | k in r.workloads ensures WorkloadID(r.workloads[k].ref) == k {
      ObservedWorkloadKeys(st.cluster, inputs, k);
      var i :| 0 <= i < |inputs| && WorkloadID(inputs[i].ref) == k
               && ObservedWorkloads(st.cluster, inputs)[k] == ObserveWorkload(st.cluster, inputs[i]);
      FinishKeepsWorkload(ObserveWorkload(st.cluster, inputs[i]), r.edges, k);
      WellNamedIgnoresCluster(inputs[i].ref, SecretRef("", "", "", ""), st.cluster);
    }
    StoredKeys(st, base.Keys, inputs, now);
  }

  lemma FinishKeepsRef(base: SecretSummary, edges: map<string, DependencyEdge>, k: string)
    ensures FinishSecret(base, edges, k).ref == base.ref
  {}

  lemma FinishKeepsWorkload(base: WorkloadSummary, edges: map<string, DependencyEdge>, k: string)
    ensures FinishWorkload(base, edges, k).ref == base.ref
  {}

  lemma WellFormedIsUnambiguous(inputs: seq<WorkloadInput>)
    requires WellFormed(inputs)
    ensures UnambiguousSecrets(inputs)
  {
    assert forall i :: 0 <= i < |inputs| ==> WellFormedInput(inputs[i]);
  }

  /** Where a missing Secret's key says what its reference is, one graph only. */
  lemma AppliedIsApply(st: State, secrets: seq<SecretInput>, inputs: seq<WorkloadInput>, now: Time, r: State)
    requires UnambiguousSecrets(inputs) && Applied(st, secrets, inputs, now, r)
    ensures r == Apply(st, secrets, inputs, now)
  {
    hide ObservedEdges, ObservedSecrets, ObservedWorkloads, SecretID, NamedSecrets, FinishedSecrets, FinishedWorkloads,
         RefOf, UnambiguousSecrets;
    var base := ObservedSecrets(st, secrets, now);
    var edges := ObservedEdges(st, base.Keys, inputs, now);
    var all :| HasPhantoms(base, edges, edges.Keys, all) && r.secrets == FinishedSecrets(all, edges);
    EdgesAreUnambiguous(st, base.Keys, inputs, now);
    assert all == WithPhantoms(st.cluster, base, NamedSecrets(edges, edges.Keys));
  }

  /** The record a missing Secret gets from this edge is the one its key stands for. */
  ghost predicate PhantomRefFits(cluster: string, secret: SecretRef) {
    RefOf(cluster, SecretID(secret)) == secret
  }

  lemma EdgesAreUnambiguous(st: State, known: set<string>, inputs: seq<WorkloadInput>, now: Time)
    requires UnambiguousSecrets(inputs)
    ensures
      var edges := ObservedEdges(st, known, inputs, now);
      forall id :: id in edges ==> PhantomRefFits(st.cluster, edges[id].secret)
  {
    var flat := Flatten(st, known, inputs, now);
    FlatEdgesAreUnambiguous(st, known, inputs, now);
    forall id | id in MergeAll(AtSnapshot, flat)
      ensures PhantomRefFits(st.cluster, MergeAll(AtSnapshot, flat)[id].secret)
    {
      MergeAllFoldsGroups(AtSnapshot, flat, id);
      FoldIsMerge(AtSnapshot, Group(flat, id));
      assert Group(flat, id)[0] in flat;
    }
  }

  lemma {:induction false} FlatEdgesAreUnambiguous(st: State, known: set<string>, inputs: seq<WorkloadInput>, now: Time)
    requires UnambiguousSecrets(inputs)
    ensures forall e :: e in Flatten(st, known, inputs, now) ==> PhantomRefFits(st.cluster, e.secret)
  {
    if inputs != [] {
      var init, last := inputs[..|inputs| - 1], inputs[|inputs| - 1];
      assert forall i :: 0 <= i < |init| ==> init[i] == inputs[i];
      FlatEdgesAreUnambiguous(st, known, init, now);
      forall e | e in NormalizeAll(st, known, last, last.edges, now) ensures PhantomRefFits(st.cluster, e.secret) {
        var j :| 0 <= j < |last.edges| && e == Normalize(st, known, last, last.edges[j], now);
        assert last.edges[j] in inputs[|inputs| - 1].edges;
        RefOfSecretID(st.cluster, e.secret);
      }
    }
  }

  lemma RefOfSecretID(cluster: string, secret: SecretRef)
    requires '/' !in secret.namespace
    ensures RefOf(cluster, SecretID(secret)) == secret.(cluster := cluster, key := "")
  {
    IndexOfPrefix(secret.namespace, '/', secret.name);
    assert SecretID(secret) == secret.namespace + ['/'] + secret.name;
  }
}

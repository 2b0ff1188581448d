/** The queries agree with the stored aggregates, and with each other. */
module Queries {
  import opened Text
  import opened Ordering
  import opened GraphTypes
  import opened Ids
  import opened Criticality
  import opened Merge
  import opened GraphSpec
  import opened Counting
  import opened Consistency
  import opened Laws
  import opened QuerySpec

  // ----- The sorted view -----

  /** Each record once, in the order of its key. */
  lemma ViewIsSorted(st: State)
    requires KeysFit(st)
    ensures
      var v := ViewOf(st);
      && |v.secrets| == |st.secrets| && |v.workloads| == |st.workloads| && |v.edges| == |st.edges|
      && InKeyOrder(v)
      && (forall k :: k in st.secrets ==> st.secrets[k] in v.secrets)
      && (forall k :: k in st.workloads ==> st.workloads[k] in v.workloads)
      && (forall k :: k in st.edges ==> st.edges[k] in v.edges)
  {
    hide SortedKeys, KeysFit, InKeyOrder;
    ViewIsInOrder(st);
    RecordsCover(st.secrets);
    RecordsCover(st.workloads);
    RecordsCover(st.edges);
  }

  lemma ViewIsInOrder(st: State)
    requires KeysFit(st)
    ensures InKeyOrder(ViewOf(st))
  {
    hide SortedKeys, SecretID, WorkloadID, Less, Records;
    RecordsInOrder(st.secrets, (s: SecretSummary) => SecretID(s.ref));
    RecordsInOrder(st.workloads, (w: WorkloadSummary) => WorkloadID(w.ref));
    RecordsInOrder(st.edges, (e: DependencyEdge) => e.id);
  }

  lemma RecordsInOrder<T>(m: map<string, T>, id: T -> string)
    requires forall k :: k in m ==> id(m[k]) == k
    ensures
      var r := Records(m, SortedKeys(m.Keys));
      |r| == |m| && forall i, j :: 0 <= i < j < |r| ==> Less(id(r[i]), id(r[j]))
  {}

  lemma RecordsCover<T>(m: map<string, T>)
    ensures forall k :: k in m ==> m[k] in Records(m, SortedKeys(m.Keys))
  {}

  // ----- Impact against the stored counts -----

  /** Every edge is counted under the team that owns its workload now. */
  ghost predicate TeamsAgree(st: State) {
    forall id :: id in st.edges && WorkloadID(st.edges[id].workload) in st.workloads ==>
      st.edges[id].ownerTeam == st.workloads[WorkloadID(st.edges[id].workload)].ownerTeam
  }

  /** newEdge leaves the owner to the workload. */
  ghost predicate NoOwners(inputs: seq<WorkloadInput>) {
    forall i, j :: 0 <= i < |inputs| && 0 <= j < |inputs[i].edges| ==> inputs[i].edges[j].ownerTeam == ""
  }

  lemma ApplyKeepsTeamsAgreed(st: State, secrets: seq<SecretInput>, inputs: seq<WorkloadInput>, now: Time)
    requires WellFormed(inputs) && DistinctWorkloads(inputs) && NoOwners(inputs)
    ensures TeamsAgree(Apply(st, secrets, inputs, now))
  {
    hide WorkloadID, ObservedSecrets, ObservedEdges, ObservedWorkloads, FinishedSecrets, DistinctWorkloads,
         NoOwners, WellFormed;
    var r := Apply(st, secrets, inputs, now);
    var known := ObservedSecrets(st, secrets, now).Keys;
    forall id | id in r.edges && WorkloadID(r.edges[id].workload) in r.workloads
      ensures r.edges[id].ownerTeam == r.workloads[WorkloadID(r.edges[id].workload)].ownerTeam
    {
      StoredTeam(st, known, inputs, now, id);
    }
  }

  lemma StoredTeam(st: State, known: set<string>, inputs: seq<WorkloadInput>, now: Time, id: string)
    requires WellFormed(inputs) && DistinctWorkloads(inputs) && NoOwners(inputs)
    requires id in ObservedEdges(st, known, inputs, now)
    ensures
      var e, workloads := ObservedEdges(st, known, inputs, now)[id], ObservedWorkloads(st.cluster, inputs);
      WorkloadID(e.workload) in workloads ==> e.ownerTeam == workloads[WorkloadID(e.workload)].ownerTeam
  {
    hide WorkloadID, SecretID, StoredID, MergeAll, Flatten, ObservedWorkloads, WellNamedWorkload, WellNamedSecret,
         NormalizeCriticality;
    var flat := Flatten(st, known, inputs, now);
    StoredEdgeIsMerge(st, known, inputs, now, id);
    var first := Group(flat, id)[0];
    assert first in flat;
    FlattenMember(st, known, inputs, now, first);
    var i, j :| ComesFrom(st, known, inputs, now, first, i, j);
    assert WellFormedInput(inputs[i]) && inputs[i].edges[j] in inputs[i].edges;
    WellNamedIgnoresCluster(inputs[i].ref, inputs[i].edges[j].secret, st.cluster);
    ObservedWorkloadKeys(st.cluster, inputs, WorkloadID(first.workload));
  }

  lemma NamingIsFiber(st: State, k: string)
    ensures Naming(st, k) == Fiber(st.edges.Keys, SecretKeyOf(st.edges), k)
    ensures forall id :: id in Naming(st, k) <==> id in st.edges.Keys && Names(st.edges, id, k)
  {}

  lemma UsingIsFiber(st: State, k: string)
    ensures Using(st, k) == Fiber(st.edges.Keys, WorkloadKeyOf(st.edges), k)
    ensures forall id :: id in Using(st, k) <==> id in st.edges.Keys && Uses(st.edges, id, k)
  {}

  lemma ModeCountsAddUp(edges: map<string, DependencyEdge>, ids: set<string>)
    requires ids <= edges.Keys
    ensures Sum(ModeCounts(edges, ids)) == |ids|
  {
    hide Sum;
    var mode := map id | id in edges :: edges[id].discoveryMode;
    forall m ensures EdgesWithMode(edges, ids, m) == Fiber(ids, mode, m) {}
    CountsAddUp(ModeCounts(edges, ids), ids, mode);
  }

  lemma TeamsOfSecret(st: State, k: string)
    requires WorkloadsExist(st) && TeamsAgree(st)
    ensures OwningTeams(st, Naming(st, k)) == AffectedTeams(st.edges, st.edges.Keys, k)
  {}

  lemma ConsistentImplies(st: State)
    requires Consistent(st)
    ensures WorkloadsExist(st) && EdgesKeyed(st) && NodesKeyed(st) && EndsExist(st)
  {}

  /** What GetSecretImpact lists is what the Secret's record counts. */
  lemma ImpactMatchesRecord(st: State, namespace: string, name: string)
    requires Consistent(st) && namespace + "/" + name in st.secrets
    ensures
      var record := st.secrets[namespace + "/" + name];
      WorkloadsExist(st) && ImpactOf(st, namespace, name).Some? &&
      var impact := ImpactOf(st, namespace, name).value;
      && impact.secret == record
      && |impact.edges| == |impact.affectedWorkloads| == record.affectedWorkloadCount
      && Sum(impact.summary.discoveryModes) == record.affectedWorkloadCount
      && (forall i, j :: 0 <= i < j < |impact.affectedWorkloads| ==>
            WorkloadID(impact.affectedWorkloads[i].ref) != WorkloadID(impact.affectedWorkloads[j].ref))
      && (TeamsAgree(st) ==> |impact.affectedTeams| == record.affectedTeamCount)
  {
    hide Consistent, Sum, Naming, SortedKeys, ModeCounts, TeamsAgree, WorkloadsExist, EdgesKeyed, NodesKeyed,
         EndsExist, SecretCounted, Fiber, OfSecret, Less, ImpactOf, OwningTeams, AffectedTeams, AffectedWorkloads;
    ConsistentImplies(st);
    var k := namespace + "/" + name;
    var ids := SortedKeys(Naming(st, k));
    NamingIsOfSecret(st, k);
    ImpactParts(st, namespace, name, ids);
    RecordCounts(st, k);
    NamingIsFiber(st, k);
    AffectedIsEdges(st, k);
    ModeCountsAddUp(st.edges, Naming(st, k));
    if TeamsAgree(st) {
      TeamsOfSecret(st, k);
    }
    AffectedAreDistinct(st, k, ids);
  }

  /** In any graph the workloads listed are those at the ends of the edges, as far as they are there, each once. */
  lemma {:induction false} FirstEndsCover(st: State, ids: seq<string>)
    ensures
      var firsts := FirstEnds(st, ids);
      && (forall i, j :: 0 <= i < j < |firsts| ==>
            WorkloadID(st.edges[firsts[i]].workload) != WorkloadID(st.edges[firsts[j]].workload))
      && WorkloadKeys(st, Elements(firsts)) == WorkloadKeys(st, Elements(ids)) * st.workloads.Keys
  {
    hide WorkloadID;
    if ids != [] {
      var init, id := ids[..|ids| - 1], ids[|ids| - 1];
      FirstEndsCover(st, init);
      assert ids == init + [id];
      assert Elements(ids) == Elements(init) + {id};
      var firsts := FirstEnds(st, init);
      EndsOfOneMore(st, Elements(init), id);
      if FirstEnds(st, ids) != firsts {
        assert Elements(firsts + [id]) == Elements(firsts) + {id};
        EndsOfOneMore(st, Elements(firsts), id);
        forall i | 0 <= i < |firsts|
          ensures WorkloadID(st.edges[firsts[i]].workload) in WorkloadKeys(st, Elements(firsts))
        {
          assert firsts[i] in Elements(firsts);
        }
      }
    }
  }

  lemma EndsOfOneMore(st: State, ids: set<string>, id: string)
    ensures WorkloadKeys(st, ids + {id}) ==
      if id in st.edges then WorkloadKeys(st, ids) + {WorkloadID(st.edges[id].workload)} else WorkloadKeys(st, ids)
  {}

  /** No other edge that names the Secret ends at the same workload. */
  lemma EndIsFresh(st: State, skey: string, ids: set<string>, id: string)
    requires EdgesKeyed(st) && ids <= Naming(st, skey) && id in Naming(st, skey) && id !in ids
    ensures WorkloadID(st.edges[id].workload) !in WorkloadKeys(st, ids)
  {
    hide EdgesKeyed, SecretID, WorkloadID;
    if WorkloadID(st.edges[id].workload) in WorkloadKeys(st, ids) {
      var d :| d in ids && d in st.edges && WorkloadID(st.edges[d].workload) == WorkloadID(st.edges[id].workload);
      EdgesAreTheirEnds(st, d, id);
    }
  }

  /** In a consistent graph every edge of a Secret is the first at its workload. */
  lemma {:induction false} AllAreFirst(st: State, skey: string, ids: seq<string>)
    requires EdgesKeyed(st) && WorkloadsExist(st) && Sorted(ids) && forall id :: id in ids ==> id in Naming(st, skey)
    ensures FirstEnds(st, ids) == ids
  {
    hide EdgesKeyed, SecretID, WorkloadID, WorkloadKeys, Less;
    if ids != [] {
      var init, id := ids[..|ids| - 1], ids[|ids| - 1];
      AllAreFirst(st, skey, init);
      LastIsFresh(ids);
      EndIsFresh(st, skey, Elements(init), id);
      assert ids == init + [id];
    }
  }

  /** Edges that name the Secret, each with its workload in the graph. */
  ghost predicate OfSecret(st: State, k: string, ids: seq<string>) {
    forall i :: 0 <= i < |ids| ==>
      ids[i] in st.edges && WorkloadID(st.edges[ids[i]].workload) in st.workloads
        && SecretID(st.edges[ids[i]].secret) == k
  }

  lemma NamingIsOfSecret(st: State, k: string)
    requires WorkloadsExist(st)
    ensures OfSecret(st, k, SortedKeys(Naming(st, k)))
  {
    hide SortedKeys, WorkloadID, SecretID;
    var ids := SortedKeys(Naming(st, k));
    forall i | 0 <= i < |ids| ensures ids[i] in Naming(st, k) {
      assert ids[i] in ids;
    }
  }

  lemma ImpactParts(st: State, namespace: string, name: string, ids: seq<string>)
    requires WorkloadsExist(st) && EdgesKeyed(st) && namespace + "/" + name in st.secrets
    requires OfSecret(st, namespace + "/" + name, ids) && ids == SortedKeys(Naming(st, namespace + "/" + name))
    ensures
      var k := namespace + "/" + name;
      ImpactOf(st, namespace, name).Some? &&
      var impact := ImpactOf(st, namespace, name).value;
      && impact.secret == st.secrets[k]
      && impact.edges == Records(st.edges, ids)
      && impact.affectedWorkloads == WorkloadsOf(st, ids)
      && impact.summary.discoveryModes == ModeCounts(st.edges, Naming(st, k))
      && |impact.affectedTeams| == |OwningTeams(st, Naming(st, k))|
  {
    hide SortedKeys, ModeCounts, OwningTeams, EdgesKeyed, SecretID, FirstEnds, Naming, TeamCounts, TeamList, Less,
         WorkloadID;
    var k := namespace + "/" + name;
    AllAreFirst(st, k, ids);
    TeamsListed(st, Naming(st, k));
  }

  lemma TeamsListed(st: State, ids: set<string>)
    ensures |TeamList(TeamCounts(st, ids))| == |OwningTeams(st, ids)|
  {
    hide SortedKeys, OwningTeams, TeamMembers;
    assert TeamCounts(st, ids).Keys == OwningTeams(st, ids);
  }

  lemma RecordCounts(st: State, k: string)
    requires Consistent(st) && k in st.secrets
    ensures SecretCounted(st.secrets[k], st.edges, k)
    ensures st.secrets[k].affectedWorkloadCount == |AffectedWorkloads(st.edges, st.edges.Keys, k)|
    ensures st.secrets[k].affectedTeamCount == |AffectedTeams(st.edges, st.edges.Keys, k)|
  {}

  lemma AffectedAreDistinct(st: State, k: string, ids: seq<string>)
    requires EdgesKeyed(st) && KeysFit(st) && OfSecret(st, k, ids) && Sorted(ids)
    ensures
      var affected := WorkloadsOf(st, ids);
      forall i, j :: 0 <= i < j < |ids| ==> WorkloadID(affected[i].ref) != WorkloadID(affected[j].ref)
  {
    hide SecretID, WorkloadID, EdgesKeyed, Less;
    forall i, j | 0 <= i < j < |ids|
      ensures WorkloadID(WorkloadsOf(st, ids)[i].ref) != WorkloadID(WorkloadsOf(st, ids)[j].ref)
    {
      LessIsAsymmetric(ids[i], ids[j]);
      if WorkloadID(st.edges[ids[i]].workload) == WorkloadID(st.edges[ids[j]].workload) {
        EdgesAreTheirEnds(st, ids[i], ids[j]);
      }
    }
  }

  // ----- Dependencies against the stored counts -----

  function UnresolvedIn(deps: seq<WorkloadDependency>): nat {
    if deps == [] then 0
    else UnresolvedIn(deps[..|deps| - 1]) + (if deps[|deps| - 1].resolved then 0 else 1)
  }

  ghost function OpenAmong(st: State, ids: seq<string>): set<string> {
    set id | id in ids && id in st.edges && !st.edges[id].resolved
  }

  lemma {:induction false} UnresolvedInIsOpen(st: State, ids: seq<string>)
    requires Sorted(ids) && forall id :: id in ids ==> id in st.edges
    ensures UnresolvedIn(DependenciesOf(st, ids)) == |OpenAmong(st, ids)|
  {
    hide DependencyOf, Less, DependenciesOf, OpenAmong;
    if ids == [] {
      OpenAmongNone(st);
    } else {
      var init, id := ids[..|ids| - 1], ids[|ids| - 1];
      UnresolvedInIsOpen(st, init);
      var deps := DependenciesOf(st, ids);
      assert deps[..|ids| - 1] == DependenciesOf(st, init);
      assert deps[|ids| - 1].resolved == st.edges[id].resolved by { DependencyKeepsResolved(st, st.edges[id]); }
      LastIsFresh(ids);
      assert ids == init + [id];
      OpenOfLonger(st, init, id);
    }
  }

  lemma OpenAmongNone(st: State)
    ensures OpenAmong(st, []) == {}
  {}

  lemma OpenOfLonger(st: State, init: seq<string>, id: string)
    requires id in st.edges && id !in init
    ensures |OpenAmong(st, init + [id])| == |OpenAmong(st, init)| + (if st.edges[id].resolved then 0 else 1)
  {
    var ids := init + [id];
    assert OpenAmong(st, ids) == OpenAmong(st, init) + (if st.edges[id].resolved then {} else {id});
  }

  lemma DependencyKeepsResolved(st: State, e: DependencyEdge)
    ensures DependencyOf(st, e).resolved == e.resolved
  {}

  lemma LastIsFresh(ids: seq<string>)
    requires Sorted(ids) && ids != []
    ensures ids[|ids| - 1] !in ids[..|ids| - 1]
  {
    forall i | 0 <= i < |ids| - 1 ensures ids[i] != ids[|ids| - 1] {
      LessIsAsymmetric(ids[i], ids[|ids| - 1]);
    }
  }

  /** Looked up with its kind, in any letter case, a workload is found: itself and no other. */
  lemma WorkloadIsFound(st: State, wkey: string, kind: string)
    requires NodesKeyed(st) && wkey in st.workloads
    requires kind != "" && EqualFold(kind, st.workloads[wkey].ref.kind)
    ensures
      var ref := st.workloads[wkey].ref;
      Matching(st, ref.namespace, kind, ref.name) == {wkey}
  {}

  lemma LeastOfOne(k: string)
    ensures Least({k}) == k
  {}

  /** What GetWorkloadDependencies lists is what the workload's record counts, all of it real. */
  lemma DependenciesMatchRecord(st: State, wkey: string, kind: string)
    requires Consistent(st) && wkey in st.workloads
    requires kind != "" && EqualFold(kind, st.workloads[wkey].ref.kind)
    ensures
      var record := st.workloads[wkey];
      var found := WorkloadDependenciesOf(st, record.ref.namespace, kind, record.ref.name);
      && found.Some?
      && found.value.workload == record
      && |found.value.dependencies| == record.dependencyCount
      && UnresolvedIn(found.value.dependencies) == record.unresolvedCount
      && (forall i :: 0 <= i < |found.value.dependencies| ==>
            exists k :: k in st.secrets && found.value.dependencies[i].secret == st.secrets[k])
  {
    hide Consistent, SortedKeys, Least, Matching, Using, WorkloadID, SecretID, UnresolvedIn, WorkloadsExist,
         EdgesKeyed, Fiber;
    ConsistentImplies(st);
    WorkloadIsFound(st, wkey, kind);
    LeastOfOne(wkey);
    var ids := SortedKeys(Using(st, wkey));
    DependencyCounts(st, wkey);
    UsingIsFiber(st, wkey);
    DependenciesAreEdges(st, wkey);
    UnresolvedInIsOpen(st, ids);
    assert OpenAmong(st, ids) == UnresolvedUsed(st.edges, st.edges.Keys, wkey);
  }

  lemma DependencyCounts(st: State, k: string)
    requires Consistent(st) && k in st.workloads
    ensures st.workloads[k].dependencyCount == |Dependencies(st.edges, st.edges.Keys, k)|
    ensures st.workloads[k].unresolvedCount == |UnresolvedUsed(st.edges, st.edges.Keys, k)|
  {}

  // ----- Duality -----

  ghost predicate Linked(st: State, skey: string, wkey: string) {
    exists id :: id in st.edges && SecretID(st.edges[id].secret) == skey && WorkloadID(st.edges[id].workload) == wkey
  }

  ghost predicate ListsSecret(deps: seq<WorkloadDependency>, s: SecretSummary) {
    exists i :: 0 <= i < |deps| && deps[i].secret == s
  }

  lemma DependsIsLinked(st: State, skey: string, wkey: string)
    requires NodesKeyed(st) && EndsExist(st) && skey in st.secrets
    ensures ListsSecret(DependenciesOf(st, SortedKeys(Using(st, wkey))), st.secrets[skey]) <==> Linked(st, skey, wkey)
  {
    hide SortedKeys, SecretID, WorkloadID, WellNamedWorkload;
    var ids := SortedKeys(Using(st, wkey));
    var deps := DependenciesOf(st, ids);
    if i :| 0 <= i < |deps| && deps[i].secret == st.secrets[skey] {
      assert ids[i] in Using(st, wkey);
      assert SecretID(st.edges[ids[i]].secret) == skey;
    }
    if id :| id in st.edges && SecretID(st.edges[id].secret) == skey && WorkloadID(st.edges[id].workload) == wkey {
      assert id in ids;
      var i :| 0 <= i < |ids| && ids[i] == id;
      assert deps[i].secret == st.secrets[skey];
    }
  }

  lemma AffectsIsLinked(st: State, skey: string, wkey: string)
    requires NodesKeyed(st) && WorkloadsExist(st) && wkey in st.workloads
    ensures st.workloads[wkey] in WorkloadsOf(st, SortedKeys(Naming(st, skey))) <==> Linked(st, skey, wkey)
  {
    hide SortedKeys, SecretID, WorkloadID, WellNamedWorkload;
    var ids := SortedKeys(Naming(st, skey));
    var affected := WorkloadsOf(st, ids);
    if st.workloads[wkey] in affected {
      var i :| 0 <= i < |affected| && affected[i] == st.workloads[wkey];
      assert ids[i] in Naming(st, skey);
      assert WorkloadID(st.edges[ids[i]].workload) == wkey;
    }
    if id :| id in st.edges && SecretID(st.edges[id].secret) == skey && WorkloadID(st.edges[id].workload) == wkey {
      assert id in ids;
      var i :| 0 <= i < |ids| && ids[i] == id;
      assert affected[i] == st.workloads[wkey];
    }
  }

  /**
   A Secret is among a workload's dependencies exactly when the workload is among those the
   Secret affects.
   */
  lemma QueriesAreDual(st: State, namespace: string, name: string, wkey: string, kind: string)
    requires Consistent(st) && namespace + "/" + name in st.secrets && wkey in st.workloads
    requires kind != "" && EqualFold(kind, st.workloads[wkey].ref.kind)
    ensures
      var s, w := st.secrets[namespace + "/" + name], st.workloads[wkey];
      var deps := WorkloadDependenciesOf(st, w.ref.namespace, kind, w.ref.name);
      WorkloadsExist(st) &&
      var impact := ImpactOf(st, namespace, name);
      && deps.Some? && impact.Some?
      && (ListsSecret(deps.value.dependencies, s) <==> w in impact.value.affectedWorkloads)
  {
    hide Consistent, SortedKeys, Least, Matching, Using, Naming, WorkloadID, SecretID, Linked, ListsSecret,
         WorkloadsExist, EdgesKeyed, NodesKeyed, EndsExist,
         ModeCounts, TeamCounts, TeamList, ImpactOf;
    ConsistentImplies(st);
    WorkloadIsFound(st, wkey, kind);
    LeastOfOne(wkey);
    assert WorkloadID(st.workloads[wkey].ref) == wkey by { WorkloadKeyed(st, wkey); }
    DependsIsLinked(st, namespace + "/" + name, wkey);
    NamingIsOfSecret(st, namespace + "/" + name);
    ImpactParts(st, namespace, name, SortedKeys(Naming(st, namespace + "/" + name)));
    AffectsIsLinked(st, namespace + "/" + name, wkey);
  }

  lemma WorkloadKeyed(st: State, wkey: string)
    requires NodesKeyed(st) && wkey in st.workloads
    ensures WorkloadID(st.workloads[wkey].ref) == wkey
  {}
}

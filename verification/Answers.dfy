/** What the answers of the queries say, read off the answers themselves. */
module Answers {
  import opened Text
  import opened Ordering
  import opened GraphTypes
  import opened Ids
  import opened GraphSpec
  import opened Counting
  import opened Consistency
  import opened QuerySpec
  import opened Queries

  // ----- The teams of an impact -----

  /** The listed workloads, by position, that the team owns. */
  ghost function OwnedBy(ws: seq<WorkloadSummary>, team: string): set<nat> {
    set n: nat | n < |ws| && ws[n].ownerTeam == team
  }

  ghost function Owned(ws: seq<WorkloadSummary>): set<nat> {
    set n: nat | n < |ws| && ws[n].ownerTeam != ""
  }

  function TeamTotal(teams: seq<AffectedTeam>): nat {
    if teams == [] then 0 else TeamTotal(teams[..|teams| - 1]) + teams[|teams| - 1].workloadCount
  }

  /** Every team that owns a listed workload is listed once, in order, with the number of those it owns. */
  ghost predicate CountsTeams(teams: seq<AffectedTeam>, ws: seq<WorkloadSummary>) {
    && (forall i, j :: 0 <= i < j < |teams| ==> Less(teams[i].ownerTeam, teams[j].ownerTeam))
    && (forall i :: 0 <= i < |teams| ==>
          teams[i].ownerTeam != "" && teams[i].workloadCount == |OwnedBy(ws, teams[i].ownerTeam)|)
    && (forall n :: 0 <= n < |ws| && ws[n].ownerTeam != "" ==>
          exists i :: 0 <= i < |teams| && teams[i].ownerTeam == ws[n].ownerTeam)
  }

  /** The edge at the position ends at the workload with the key. */
  ghost predicate EndsAt(st: State, ids: seq<string>, n: nat, k: string) {
    n < |ids| && ids[n] in st.edges && WorkloadID(st.edges[ids[n]].workload) == k
  }

  /** The workloads listed are those at the ends of the edges that the graph has, one position each. */
  lemma EndsAreListed(st: State, ids: seq<string>)
    requires forall id :: id in ids ==> id in st.edges
    ensures
      var firsts := FirstEnds(st, ids);
      && (forall k :: k in WorkloadKeys(st, Elements(ids)) && k in st.workloads <==>
            exists n: nat :: EndsAt(st, firsts, n, k))
      && (forall m: nat, n: nat, k :: EndsAt(st, firsts, m, k) && EndsAt(st, firsts, n, k) ==> m == n)
      && (forall n: nat, k :: EndsAt(st, firsts, n, k) ==>
            k in st.workloads && WorkloadsOf(st, firsts)[n] == st.workloads[k])
  {
    hide FirstEnds, WorkloadID;
    var firsts := FirstEnds(st, ids);
    FirstEndsCover(st, ids);
    forall k | k in WorkloadKeys(st, Elements(ids)) && k in st.workloads
      ensures exists n: nat :: EndsAt(st, firsts, n, k)
    {
      assert k in WorkloadKeys(st, Elements(firsts));
      var id :| id in Elements(firsts) && id in st.edges && WorkloadID(st.edges[id].workload) == k;
      var n: nat :| n < |firsts| && firsts[n] == id;
      assert EndsAt(st, firsts, n, k);
    }
    forall n: nat, k | EndsAt(st, firsts, n, k) ensures k in WorkloadKeys(st, Elements(firsts)) {
      assert firsts[n] in Elements(firsts);
    }
  }

  lemma OneEnd(st: State, ids: seq<string>, m: nat, n: nat, k: string)
    requires forall id :: id in ids ==> id in st.edges
    requires EndsAt(st, FirstEnds(st, ids), m, k) && EndsAt(st, FirstEnds(st, ids), n, k)
    ensures m == n
  {
    EndsAreListed(st, ids);
  }

  lemma MembersAreListed(st: State, ids: seq<string>, team: string)
    requires forall id :: id in ids ==> id in st.edges
    ensures |TeamMembers(st, Elements(ids), team)| == |OwnedBy(WorkloadsOf(st, FirstEnds(st, ids)), team)|
  {
    hide FirstEnds, WorkloadID, WorkloadKeys;
    var firsts := FirstEnds(st, ids);
    var ws := WorkloadsOf(st, firsts);
    EndsAreListed(st, ids);
    var key := (n: nat) =>
      if n < |firsts| && firsts[n] in st.edges then WorkloadID(st.edges[firsts[n]].workload) else "";
    forall n: nat | n < |firsts| ensures EndsAt(st, firsts, n, key(n)) {}
    forall m: nat, n: nat | m in OwnedBy(ws, team) && n in OwnedBy(ws, team) && key(m) == key(n) ensures m == n {
      OneEnd(st, ids, m, n, key(m));
    }
    SameSize(OwnedBy(ws, team), key);
    forall k | k in TeamMembers(st, Elements(ids), team)
      ensures exists n: nat :: n in OwnedBy(ws, team) && key(n) == k
    {
      var n: nat :| EndsAt(st, firsts, n, k);
      assert n in OwnedBy(ws, team) && key(n) == k;
    }
    forall n: nat | n in OwnedBy(ws, team) ensures key(n) in TeamMembers(st, Elements(ids), team) {
      assert EndsAt(st, firsts, n, key(n));
    }
    assert TeamMembers(st, Elements(ids), team) == set n | n in OwnedBy(ws, team) :: key(n);
  }

  lemma {:induction false} TotalIsOwned(teams: seq<AffectedTeam>, ws: seq<WorkloadSummary>)
    requires forall i, j :: 0 <= i < j < |teams| ==> Less(teams[i].ownerTeam, teams[j].ownerTeam)
    requires forall i :: 0 <= i < |teams| ==> teams[i].workloadCount == |OwnedBy(ws, teams[i].ownerTeam)|
    ensures TeamTotal(teams) == |OwnedByAny(ws, teams)|
  {
    hide Less, OwnedByAny, OwnedBy;
    if teams == [] {
      NoneOwned(ws);
    } else {
      var init, last := teams[..|teams| - 1], teams[|teams| - 1];
      TotalIsOwned(init, ws);
      forall i | 0 <= i < |init| ensures init[i].ownerTeam != last.ownerTeam {
        LessIsAsymmetric(init[i].ownerTeam, last.ownerTeam);
      }
      OneTeamMore(ws, init, last);
      assert teams == init + [last];
    }
  }

  ghost function OwnedByAny(ws: seq<WorkloadSummary>, teams: seq<AffectedTeam>): set<nat> {
    set n: nat | n < |ws| && exists i :: 0 <= i < |teams| && teams[i].ownerTeam == ws[n].ownerTeam
  }

  lemma NoneOwned(ws: seq<WorkloadSummary>)
    ensures OwnedByAny(ws, []) == {}
  {}

  lemma OneTeamMore(ws: seq<WorkloadSummary>, teams: seq<AffectedTeam>, team: AffectedTeam)
    requires forall i :: 0 <= i < |teams| ==> teams[i].ownerTeam != team.ownerTeam
    ensures |OwnedByAny(ws, teams + [team])| == |OwnedByAny(ws, teams)| + |OwnedBy(ws, team.ownerTeam)|
  {
    var longer := teams + [team];
    assert longer[|teams|] == team;
    assert forall i :: 0 <= i < |teams| ==> longer[i] == teams[i];
    assert OwnedByAny(ws, longer) == OwnedByAny(ws, teams) + OwnedBy(ws, team.ownerTeam);
  }

  /** In any graph, the teams of an impact count its own list of workloads, and add up to those that have a team. */
  lemma TeamsCountWorkloads(st: State, namespace: string, name: string)
    requires ImpactOf(st, namespace, name).Some?
    ensures
      var impact := ImpactOf(st, namespace, name).value;
      && CountsTeams(impact.affectedTeams, impact.affectedWorkloads)
      && TeamTotal(impact.affectedTeams) == |Owned(impact.affectedWorkloads)|
  {
    hide SortedKeys, FirstEnds, OwnedByAny, Owned, ModeCounts, CountsTeams, TeamList, TeamCounts, TeamTotal, Less;
    var ids := SortedKeys(Naming(st, namespace + "/" + name));
    var impact := ImpactOf(st, namespace, name).value;
    assert Elements(ids) == Naming(st, namespace + "/" + name);
    TeamsOfEdges(st, ids);
    TeamsAddUp(impact.affectedTeams, impact.affectedWorkloads);
  }

  lemma TeamsOfEdges(st: State, ids: seq<string>)
    requires forall id :: id in ids ==> id in st.edges
    ensures CountsTeams(TeamList(TeamCounts(st, Elements(ids))), WorkloadsOf(st, FirstEnds(st, ids)))
  {
    hide SortedKeys, FirstEnds, TeamMembers, OwnedBy, WorkloadsOf, OwningTeams, Less, TeamList, CountsTeams;
    var counts, ws := TeamCounts(st, Elements(ids)), WorkloadsOf(st, FirstEnds(st, ids));
    OwnersAreListed(st, ids);
    forall team | team in counts ensures counts[team] == |OwnedBy(ws, team)| {
      MembersAreListed(st, ids, team);
    }
    ListedTeamsCount(counts, ws);
  }

  lemma ListedTeamsCount(counts: map<string, nat>, ws: seq<WorkloadSummary>)
    requires forall t :: t in counts ==> t != "" && counts[t] == |OwnedBy(ws, t)|
    requires forall n :: 0 <= n < |ws| && ws[n].ownerTeam != "" ==> ws[n].ownerTeam in counts
    ensures CountsTeams(TeamList(counts), ws)
  {
    hide SortedKeys, OwnedBy, Less;
    var teams, keys := TeamList(counts), SortedKeys(counts.Keys);
    forall n | 0 <= n < |ws| && ws[n].ownerTeam != ""
      ensures exists i :: 0 <= i < |teams| && teams[i].ownerTeam == ws[n].ownerTeam
    {
      assert ws[n].ownerTeam in keys;
      var i :| 0 <= i < |keys| && keys[i] == ws[n].ownerTeam;
      assert teams[i].ownerTeam == ws[n].ownerTeam;
    }
    forall i | 0 <= i < |teams| ensures teams[i].ownerTeam in counts {
      assert keys[i] in keys;
    }
  }

  lemma TeamsAddUp(teams: seq<AffectedTeam>, ws: seq<WorkloadSummary>)
    requires CountsTeams(teams, ws)
    ensures TeamTotal(teams) == |Owned(ws)|
  {
    hide Less, OwnedBy, TeamTotal, OwnedByAny;
    TotalIsOwned(teams, ws);
    TeamsAreAll(teams, ws);
  }

  lemma TeamsAreAll(teams: seq<AffectedTeam>, ws: seq<WorkloadSummary>)
    requires CountsTeams(teams, ws)
    ensures OwnedByAny(ws, teams) == Owned(ws)
  {}

  /** The teams that own the ends of the edges are those of the workloads listed. */
  lemma OwnersAreListed(st: State, ids: seq<string>)
    requires forall id :: id in ids ==> id in st.edges
    ensures
      var ws := WorkloadsOf(st, FirstEnds(st, ids));
      forall t :: t in OwningTeams(st, Elements(ids)) <==> t != "" && exists n :: 0 <= n < |ws| && ws[n].ownerTeam == t
  {
    hide FirstEnds, WorkloadID, WorkloadKeys;
    var firsts := FirstEnds(st, ids);
    var ws := WorkloadsOf(st, firsts);
    EndsAreListed(st, ids);
    forall n: nat | n < |firsts| ensures EndsAt(st, firsts, n, WorkloadID(st.edges[firsts[n]].workload)) {}
    forall t | t in OwningTeams(st, Elements(ids)) ensures exists n :: 0 <= n < |ws| && ws[n].ownerTeam == t {
      var k :| k in WorkloadKeys(st, Elements(ids)) && k in st.workloads && st.workloads[k].ownerTeam == t;
      var n: nat :| EndsAt(st, firsts, n, k);
    }
  }

  // ----- The edges and modes of an impact -----

  ghost predicate ByID(es: seq<DependencyEdge>) {
    forall i, j :: 0 <= i < j < |es| ==> Less(es[i].id, es[j].id)
  }

  /** The listed edges, by position, that have the mode. */
  ghost function OfMode(es: seq<DependencyEdge>, mode: string): set<nat> {
    set n: nat | n < |es| && es[n].discoveryMode == mode
  }

  ghost predicate IsNaming(st: State, skey: string, e: DependencyEdge) {
    exists id :: id in st.edges && st.edges[id] == e && SecretID(e.secret) == skey
  }

  ghost predicate IsEnd(st: State, es: seq<DependencyEdge>, w: WorkloadSummary) {
    exists e :: e in es && WorkloadID(e.workload) in st.workloads && st.workloads[WorkloadID(e.workload)] == w
  }

  /** The answer lists the edges that name the Secret, and their workloads, in key order, and counts their modes. */
  ghost predicate ListsEdges(st: State, skey: string, impact: SecretImpact) {
    && ByID(impact.edges)
    && (forall e :: e in impact.edges <==> IsNaming(st, skey, e))
    && (forall w :: w in impact.affectedWorkloads <==> IsEnd(st, impact.edges, w))
    && (forall m :: m in impact.summary.discoveryModes <==> OfMode(impact.edges, m) != {})
    && (forall m :: m in impact.summary.discoveryModes ==>
          impact.summary.discoveryModes[m] == |OfMode(impact.edges, m)|)
  }

  /** The answer gives the Secret's record, and repeats four of its counts. */
  ghost predicate GivesRecord(st: State, skey: string, impact: SecretImpact) {
    && impact.secret == (if skey in st.secrets then st.secrets[skey] else ZERO_SECRET)
    && impact.summary.affectedWorkloadCount == impact.secret.affectedWorkloadCount
    && impact.summary.affectedTeamCount == impact.secret.affectedTeamCount
    && impact.summary.affectedNamespaceCount == impact.secret.affectedNamespaceCount
    && impact.summary.unresolvedReferenceCount == impact.secret.unresolvedReferenceCount
  }

  /** There is an answer exactly for Secrets with a record or an edge. */
  lemma ImpactListsItsEdges(st: State, namespace: string, name: string)
    requires KeysFit(st)
    ensures
      var skey, answer := namespace + "/" + name, ImpactOf(st, namespace, name);
      && (answer.Some? <==> skey in st.secrets || exists id :: Names(st.edges, id, skey))
      && (answer.Some? ==> GivesRecord(st, skey, answer.value) && ListsEdges(st, skey, answer.value))
  {
    hide SortedKeys, FirstEnds, TeamList, TeamCounts, WorkloadID, SecretID, Less, ListsEdges, KeysFit, ModeCounts,
         WorkloadsOf;
    var skey := namespace + "/" + name;
    var ids := SortedKeys(Naming(st, skey));
    if id :| Names(st.edges, id, skey) {
      assert id in Naming(st, skey) && id in ids;
    }
    if ids != [] {
      assert ids[0] in ids && ids[0] in Naming(st, skey);
      assert Names(st.edges, ids[0], skey);
    }
    if ImpactOf(st, namespace, name).Some? {
      EdgesAreListed(st, skey, ids, ImpactOf(st, namespace, name).value);
    }
  }

  lemma EdgesAreListed(st: State, skey: string, ids: seq<string>, impact: SecretImpact)
    requires KeysFit(st) && ids == SortedKeys(Naming(st, skey))
    requires impact.edges == Records(st.edges, ids) && impact.affectedWorkloads == WorkloadsOf(st, FirstEnds(st, ids))
    requires impact.summary.discoveryModes == ModeCounts(st.edges, Naming(st, skey))
    ensures ListsEdges(st, skey, impact)
  {
    hide SortedKeys, FirstEnds, KeysFit, ByID, IsNaming, IsEnd, Less, ModeCounts, WorkloadsOf, OfMode, Records;
    assert forall id :: id in ids <==> id in Naming(st, skey);
    assert Elements(ids) == Naming(st, skey);
    EdgesInOrder(st, ids);
    forall e ensures e in impact.edges <==> IsNaming(st, skey, e) {
      EdgeIsListed(st, skey, ids, e);
    }
    WorkloadsAreEnds(st, ids, impact.affectedWorkloads);
    ModesAreCounted(st, ids);
  }

  lemma EdgesInOrder(st: State, ids: seq<string>)
    requires KeysFit(st) && Sorted(ids) && forall id :: id in ids ==> id in st.edges
    ensures ByID(Records(st.edges, ids))
  {
    hide Less, SecretID, WorkloadID;
  }

  lemma EdgeIsListed(st: State, skey: string, ids: seq<string>, e: DependencyEdge)
    requires forall id :: id in ids <==> id in Naming(st, skey)
    ensures e in Records(st.edges, ids) <==> IsNaming(st, skey, e)
  {
    hide SecretID;
    var es := Records(st.edges, ids);
    if IsNaming(st, skey, e) {
      var id :| id in st.edges && st.edges[id] == e && SecretID(e.secret) == skey;
      assert id in ids;
      var i :| 0 <= i < |ids| && ids[i] == id;
      assert es[i] == e;
    }
    if e in es {
      var i :| 0 <= i < |ids| && es[i] == e;
      assert ids[i] in ids;
    }
  }

  lemma WorkloadsAreEnds(st: State, ids: seq<string>, ws: seq<WorkloadSummary>)
    requires (forall id :: id in ids ==> id in st.edges) && ws == WorkloadsOf(st, FirstEnds(st, ids))
    ensures
      forall w :: w in ws <==> IsEnd(st, Records(st.edges, ids), w)
  {
    hide FirstEnds, WorkloadID, WorkloadsOf, WorkloadKeys;
    var es, firsts := Records(st.edges, ids), FirstEnds(st, ids);
    EndsAreListed(st, ids);
    forall w | w in ws ensures IsEnd(st, es, w) {
      var n: nat :| n < |ws| && ws[n] == w;
      assert EndsAt(st, firsts, n, WorkloadID(st.edges[firsts[n]].workload));
      assert firsts[n] in ids;
      var i :| 0 <= i < |ids| && ids[i] == firsts[n];
      assert es[i] == st.edges[firsts[n]];
    }
    forall e | e in es && WorkloadID(e.workload) in st.workloads
      ensures st.workloads[WorkloadID(e.workload)] in ws
    {
      var i :| 0 <= i < |es| && es[i] == e;
      KeyOfEdge(st, ids, i);
      var n: nat :| EndsAt(st, firsts, n, WorkloadID(e.workload));
      assert ws[n] == st.workloads[WorkloadID(e.workload)];
    }
  }

  lemma KeyOfEdge(st: State, ids: seq<string>, i: nat)
    requires i < |ids| && ids[i] in st.edges
    ensures WorkloadID(st.edges[ids[i]].workload) in WorkloadKeys(st, Elements(ids))
  {
    hide WorkloadID;
    assert ids[i] in Elements(ids);
  }

  lemma ModesAreCounted(st: State, ids: seq<string>)
    requires Sorted(ids) && forall id :: id in ids ==> id in st.edges
    ensures
      var counts, es := ModeCounts(st.edges, Elements(ids)), Records(st.edges, ids);
      forall m :: (m in counts <==> OfMode(es, m) != {}) && (m in counts ==> counts[m] == |OfMode(es, m)|)
  {
    hide Sorted;
    var counts, es := ModeCounts(st.edges, Elements(ids)), Records(st.edges, ids);
    forall m ensures m in counts <==> OfMode(es, m) != {}
      ensures m in counts ==> counts[m] == |OfMode(es, m)|
    {
      ModeIsCounted(st, ids, m);
    }
  }

  lemma ModeIsCounted(st: State, ids: seq<string>, m: string)
    requires Sorted(ids) && forall id :: id in ids ==> id in st.edges
    ensures
      var es := Records(st.edges, ids);
      && (m in ModesAmong(st.edges, Elements(ids)) <==> OfMode(es, m) != {})
      && |EdgesWithMode(st.edges, Elements(ids), m)| == |OfMode(es, m)|
  {
    hide Less;
    var es := Records(st.edges, ids);
    var key := (n: nat) => if n < |ids| then ids[n] else "";
    forall i: nat, j: nat | i < j < |ids| ensures ids[i] != ids[j] {
      LessIsAsymmetric(ids[i], ids[j]);
    }
    SameSize(OfMode(es, m), key);
    forall id | id in Elements(ids) && st.edges[id].discoveryMode == m
      ensures exists n: nat :: n in OfMode(es, m) && ids[n] == id
    {
      var n: nat :| n < |ids| && ids[n] == id;
      assert n in OfMode(es, m);
    }
    assert EdgesWithMode(st.edges, Elements(ids), m) == set n | n in OfMode(es, m) :: key(n);
  }

  // ----- The two queries say the same of each edge -----

  ghost predicate DependsAs(deps: seq<WorkloadDependency>, s: SecretSummary, mode: string, resolved: bool,
                            optional: bool, sources: seq<DependencySource>)
  {
    exists i :: 0 <= i < |deps| && deps[i].secret == s && deps[i].discoveryMode == mode
                && deps[i].resolved == resolved && deps[i].optional == optional && deps[i].sources == sources
  }

  ghost predicate UsedAs(es: seq<DependencyEdge>, wkey: string, mode: string, resolved: bool, optional: bool,
                         sources: seq<DependencySource>)
  {
    exists e :: e in es && WorkloadID(e.workload) == wkey && e.discoveryMode == mode
                && e.resolved == resolved && e.optional == optional && e.sources == sources
  }

  /**
   A workload's dependencies say of a Secret exactly what the Secret's impact says of that
   workload: the mode, whether it is resolved, whether it is optional, and all sources.
   */
  lemma QueriesAgreeOnEdges(st: State, namespace: string, name: string, wkey: string, kind: string, mode: string,
                            resolved: bool, optional: bool, sources: seq<DependencySource>)
    requires Consistent(st) && namespace + "/" + name in st.secrets && wkey in st.workloads
    requires kind != "" && EqualFold(kind, st.workloads[wkey].ref.kind)
    ensures
      var s, w := st.secrets[namespace + "/" + name], st.workloads[wkey];
      var deps := WorkloadDependenciesOf(st, w.ref.namespace, kind, w.ref.name);
      var impact := ImpactOf(st, namespace, name);
      && deps.Some? && impact.Some?
      && (DependsAs(deps.value.dependencies, s, mode, resolved, optional, sources) <==>
          UsedAs(impact.value.edges, wkey, mode, resolved, optional, sources))
  {
    hide Consistent, SortedKeys, Least, Matching, WorkloadID, SecretID, DependsAs, UsedAs, ListsEdges, KeysFit,
         WorkloadsExist, EdgesKeyed, EndsExist, ImpactOf, GivesRecord;
    ConsistentImplies(st);
    WorkloadIsFound(st, wkey, kind);
    LeastOfOne(wkey);
    assert WorkloadID(st.workloads[wkey].ref) == wkey by { WorkloadKeyed(st, wkey); }
    ImpactListsItsEdges(st, namespace, name);
    DependsIsUsed(st, namespace + "/" + name, wkey, ImpactOf(st, namespace, name).value, mode, resolved, optional,
                  sources);
  }

  lemma DependsIsUsed(st: State, skey: string, wkey: string, impact: SecretImpact, mode: string, resolved: bool,
                      optional: bool, sources: seq<DependencySource>)
    requires KeysFit(st) && EndsExist(st) && skey in st.secrets && ListsEdges(st, skey, impact)
    ensures
      DependsAs(DependenciesOf(st, SortedKeys(Using(st, wkey))), st.secrets[skey], mode, resolved, optional, sources)
      <==> UsedAs(impact.edges, wkey, mode, resolved, optional, sources)
  {
    hide SortedKeys, WorkloadID, SecretID, ByID, OfMode, KeysFit, EndsExist, DependsAs, UsedAs, IsEnd, IsNaming, Using;
    var ids := SortedKeys(Using(st, wkey));
    forall id ensures id in ids <==> id in Using(st, wkey) {}
    if DependsAs(DependenciesOf(st, ids), st.secrets[skey], mode, resolved, optional, sources) {
      DependsThenUsed(st, skey, wkey, ids, impact.edges, mode, resolved, optional, sources);
    }
    if UsedAs(impact.edges, wkey, mode, resolved, optional, sources) {
      UsedThenDepends(st, skey, wkey, ids, impact.edges, mode, resolved, optional, sources);
    }
  }

  lemma DependsThenUsed(st: State, skey: string, wkey: string, ids: seq<string>, es: seq<DependencyEdge>, mode: string,
                        resolved: bool, optional: bool, sources: seq<DependencySource>)
    requires KeysFit(st) && EndsExist(st) && skey in st.secrets && forall e :: e in es <==> IsNaming(st, skey, e)
    requires forall id :: id in ids <==> id in Using(st, wkey)
    requires DependsAs(DependenciesOf(st, ids), st.secrets[skey], mode, resolved, optional, sources)
    ensures UsedAs(es, wkey, mode, resolved, optional, sources)
  {
    hide WorkloadID, SecretID;
    var deps := DependenciesOf(st, ids);
    var i :| 0 <= i < |deps| && deps[i].secret == st.secrets[skey] && deps[i].discoveryMode == mode
             && deps[i].resolved == resolved && deps[i].optional == optional && deps[i].sources == sources;
    assert ids[i] in ids && ids[i] in Using(st, wkey);
    var e := st.edges[ids[i]];
    assert SecretID(e.secret) in st.secrets && SecretID(st.secrets[SecretID(e.secret)].ref) == SecretID(e.secret);
    assert IsNaming(st, skey, e);
  }

  lemma UsedThenDepends(st: State, skey: string, wkey: string, ids: seq<string>, es: seq<DependencyEdge>, mode: string,
                        resolved: bool, optional: bool, sources: seq<DependencySource>)
    requires skey in st.secrets && forall e :: e in es <==> IsNaming(st, skey, e)
    requires forall id :: id in ids <==> id in Using(st, wkey)
    requires UsedAs(es, wkey, mode, resolved, optional, sources)
    ensures DependsAs(DependenciesOf(st, ids), st.secrets[skey], mode, resolved, optional, sources)
  {
    hide WorkloadID, SecretID;
    var deps := DependenciesOf(st, ids);
    var e :| e in es && WorkloadID(e.workload) == wkey && e.discoveryMode == mode
             && e.resolved == resolved && e.optional == optional && e.sources == sources;
    assert IsNaming(st, skey, e);
    var id :| id in st.edges && st.edges[id] == e && SecretID(e.secret) == skey;
    assert id in ids;
    var i :| 0 <= i < |ids| && ids[i] == id;
    assert deps[i].secret == st.secrets[skey];
  }

  // ----- Which workload is found -----

  /** The workload asked for; without a kind any of its name. */
  predicate IsAskedFor(w: WorkloadRef, namespace: string, kind: string, name: string) {
    w.namespace == namespace && w.name == name && (kind != "" ==> EqualFold(w.kind, kind))
  }

  /** An answer exists exactly if such a workload does, and is about the one with the least key. */
  lemma LeastMatchIsFound(st: State, namespace: string, kind: string, name: string)
    requires KeysFit(st)
    ensures
      var found := WorkloadDependenciesOf(st, namespace, kind, name);
      && (found.Some? <==> exists k :: k in st.workloads && IsAskedFor(st.workloads[k].ref, namespace, kind, name))
      && (found.Some? ==>
            var w := found.value.workload;
            && WorkloadID(w.ref) in st.workloads && st.workloads[WorkloadID(w.ref)] == w
            && IsAskedFor(w.ref, namespace, kind, name)
            && forall k :: k in st.workloads && IsAskedFor(st.workloads[k].ref, namespace, kind, name) ==>
                 k == WorkloadID(w.ref) || Less(WorkloadID(w.ref), k))
  {
    hide SortedKeys, WorkloadID, EqualFold, Less, Using, DependenciesOf;
    var found := Matching(st, namespace, kind, name);
    forall k ensures k in found <==> k in st.workloads && IsAskedFor(st.workloads[k].ref, namespace, kind, name) {}
    if k :| k in found {
      assert found != {};
    }
  }

  // ----- The nodes of the dependency map -----

  /** Each workload's node has its own id and says what the record says. */
  lemma WorkloadNodeTells(st: State, k: string)
    requires KeysFit(st) && k in st.workloads
    ensures
      var w := st.workloads[k];
      DependencyMapNode("workload:" + k, "workload", w.ref.kind + "/" + w.ref.name, ToWorkload(w.ref), w.ownerTeam,
                        w.criticality, 0) in Nodes(ViewOf(st))
  {
    hide SortedKeys, WorkloadID, ViewOf, Nodes, WorkloadNode, SecretNode;
    ViewLists(st);
    var view, keys := ViewOf(st), SortedKeys(st.workloads.Keys);
    assert k in keys;
    var i :| 0 <= i < |keys| && keys[i] == k;
    var node := Nodes(view)[i];
    assert node == WorkloadNode(st.workloads[k]) && node in Nodes(view);
    WorkloadNodeSays(st.workloads[k], k);
  }

  lemma WorkloadNodeSays(w: WorkloadSummary, k: string)
    requires WorkloadID(w.ref) == k
    ensures WorkloadNode(w) == DependencyMapNode("workload:" + k, "workload", w.ref.kind + "/" + w.ref.name,
                                                 ToWorkload(w.ref), w.ownerTeam, w.criticality, 0)
  {}

  /** And so does each Secret's. */
  lemma SecretNodeTells(st: State, k: string)
    requires KeysFit(st) && k in st.secrets
    ensures
      var s := st.secrets[k];
      DependencyMapNode("secret:" + k, "secret", "Secret/" + s.ref.name, ToSecret(s.ref), s.ownerTeam, s.criticality,
                        s.impactScore) in Nodes(ViewOf(st))
  {
    hide SortedKeys, SecretID, ViewOf, Nodes, WorkloadNode, SecretNode;
    ViewLists(st);
    var view, keys := ViewOf(st), SortedKeys(st.secrets.Keys);
    assert k in keys;
    var i :| 0 <= i < |keys| && keys[i] == k;
    SecretNodeIsThere(view, i);
    SecretNodeSays(st.secrets[k], k) by { assert SecretID(st.secrets[k].ref) == k; }
    hide *;
  }

  lemma SecretNodeIsThere(view: View, i: nat)
    requires i < |view.secrets|
    ensures SecretNode(view.secrets[i]) in Nodes(view)
  {
    hide WorkloadNode, SecretNode, Nodes;
    assert Nodes(view)[|view.workloads| + i] == SecretNode(view.secrets[i]);
  }

  lemma SecretNodeSays(s: SecretSummary, k: string)
    requires SecretID(s.ref) == k
    ensures SecretNode(s) == DependencyMapNode("secret:" + k, "secret", "Secret/" + s.ref.name, ToSecret(s.ref),
                                               s.ownerTeam, s.criticality, s.impactScore)
  {}
}

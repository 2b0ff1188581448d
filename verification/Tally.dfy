/** The per-key aggregates of a snapshot, gathered one edge at a time. */
module Tally {
  import opened GraphTypes
  import opened Ids
  import opened Criticality
  import opened GraphSpec

  /** The eight maps filled while ranging over the edges. */
  datatype Tallies = Tallies(
    affectedWorkloads: map<string, set<string>>,
    affectedTeams: map<string, set<string>>,
    affectedNamespaces: map<string, set<string>>,
    derivedOwnerTeams: map<string, set<string>>,
    derivedCriticality: map<string, string>,
    unresolvedRefs: map<string, nat>,
    workloadDeps: map<string, set<string>>,
    workloadUnresolved: map<string, nat>)

  const NO_TALLIES := Tallies(map[], map[], map[], map[], map[], map[], map[], map[])

  // What Go reads from a map at a key it may not have.
  function SetAt(m: map<string, set<string>>, k: string): set<string> {
    if k in m then m[k] else {}
  }

  function CountAt(m: map<string, nat>, k: string): nat {
    if k in m then m[k] else 0
  }

  function TextAt(m: map<string, string>, k: string): string {
    if k in m then m[k] else ""
  }

  function AddTo(m: map<string, set<string>>, k: string, v: string): map<string, set<string>> {
    m[k := SetAt(m, k) + {v}]
  }

  function Touch(m: map<string, set<string>>, k: string): map<string, set<string>> {
    if k in m then m else m[k := {}]
  }

  function Increment(m: map<string, nat>, k: string): map<string, nat> {
    m[k := CountAt(m, k) + 1]
  }

  ghost predicate ReachTalliesAt(t: Tallies, edges: map<string, DependencyEdge>, ids: set<string>, k: string) {
    && SetAt(t.affectedWorkloads, k) == AffectedWorkloads(edges, ids, k)
    && SetAt(t.affectedNamespaces, k) == AffectedNamespaces(edges, ids, k)
    && SetAt(t.workloadDeps, k) == Dependencies(edges, ids, k)
  }

  ghost predicate OwnerTalliesAt(t: Tallies, edges: map<string, DependencyEdge>, ids: set<string>, k: string) {
    && SetAt(t.affectedTeams, k) == AffectedTeams(edges, ids, k)
    && SetAt(t.derivedOwnerTeams, k) == AffectedTeams(edges, ids, k)
    && TextAt(t.derivedCriticality, k) == DerivedCriticality(edges, ids, k)
  }

  ghost predicate CountsAt(t: Tallies, edges: map<string, DependencyEdge>, ids: set<string>, k: string) {
    && CountAt(t.unresolvedRefs, k) == |UnresolvedNaming(edges, ids, k)|
    && CountAt(t.workloadUnresolved, k) == |UnresolvedUsed(edges, ids, k)|
  }

  /** The maps hold the aggregates of exactly the edges in `ids`. */
  ghost predicate Tallied(t: Tallies, edges: map<string, DependencyEdge>, ids: set<string>) {
    && (forall k :: ReachTalliesAt(t, edges, ids, k))
    && (forall k :: OwnerTalliesAt(t, edges, ids, k))
    && (forall k :: CountsAt(t, edges, ids, k))
  }

  lemma NothingTallied(edges: map<string, DependencyEdge>)
    ensures Tallied(NO_TALLIES, edges, {})
  {}

  /** One turn of the loop over the edges. */
  method TallyEdge(t: Tallies, edge: DependencyEdge) returns (r: Tallies)
    ensures r == Tallied1(t, edge)
  {
    hide SecretID, WorkloadID, MaxCriticality;
    var skey := SecretID(edge.secret);
    var wkey := WorkloadID(edge.workload);
    var teams := Touch(t.affectedTeams, skey);
    var owners := t.derivedOwnerTeams;
    if edge.ownerTeam != "" {
      teams := AddTo(teams, skey, edge.ownerTeam);
      owners := AddTo(owners, skey, edge.ownerTeam);
    }
    var unresolvedRefs, workloadUnresolved := t.unresolvedRefs, t.workloadUnresolved;
    if !edge.resolved {
      unresolvedRefs := Increment(unresolvedRefs, skey);
      workloadUnresolved := Increment(workloadUnresolved, wkey);
    }
    r := Tallies(
      AddTo(t.affectedWorkloads, skey, wkey),
      teams,
      AddTo(t.affectedNamespaces, skey, edge.workload.namespace),
      owners,
      t.derivedCriticality[skey := MaxCriticality(TextAt(t.derivedCriticality, skey), edge.criticality)],
      unresolvedRefs,
      AddTo(t.workloadDeps, wkey, skey),
      workloadUnresolved);
  }

  ghost function Tallied1(t: Tallies, edge: DependencyEdge): Tallies {
    var skey, wkey, team := SecretID(edge.secret), WorkloadID(edge.workload), edge.ownerTeam;
    Tallies(
      AddTo(t.affectedWorkloads, skey, wkey),
      if team != "" then AddTo(Touch(t.affectedTeams, skey), skey, team) else Touch(t.affectedTeams, skey),
      AddTo(t.affectedNamespaces, skey, edge.workload.namespace),
      if team != "" then AddTo(t.derivedOwnerTeams, skey, team) else t.derivedOwnerTeams,
      t.derivedCriticality[skey := MaxCriticality(TextAt(t.derivedCriticality, skey), edge.criticality)],
      if edge.resolved then t.unresolvedRefs else Increment(t.unresolvedRefs, skey),
      AddTo(t.workloadDeps, wkey, skey),
      if edge.resolved then t.workloadUnresolved else Increment(t.workloadUnresolved, wkey))
  }

  /** One more edge: each aggregate grows at that edge's key only. */
  lemma ReachOfOneMore(edges: map<string, DependencyEdge>, ids: set<string>, id: string, k: string)
    requires id in edges && id !in ids
    ensures
      var e, own := edges[id], SecretID(edges[id].secret) == k;
      && AffectedWorkloads(edges, ids + {id}, k) ==
         (if own then AffectedWorkloads(edges, ids, k) + {WorkloadID(e.workload)} else AffectedWorkloads(edges, ids, k))
      && AffectedNamespaces(edges, ids + {id}, k) ==
         (if own then AffectedNamespaces(edges, ids, k) + {e.workload.namespace} else AffectedNamespaces(edges, ids, k))
    ensures
      Dependencies(edges, ids + {id}, k) ==
      (if WorkloadID(edges[id].workload) == k then Dependencies(edges, ids, k) + {SecretID(edges[id].secret)}
       else Dependencies(edges, ids, k))
  {}

  lemma UnresolvedNamingOfOneMore(edges: map<string, DependencyEdge>, ids: set<string>, id: string, k: string)
    requires id in edges && id !in ids
    ensures |UnresolvedNaming(edges, ids + {id}, k)| ==
            |UnresolvedNaming(edges, ids, k)|
              + (if SecretID(edges[id].secret) == k && !edges[id].resolved then 1 else 0)
  {
    hide SecretID;
    var naming, more := UnresolvedNaming(edges, ids, k), UnresolvedNaming(edges, ids + {id}, k);
    assert forall d :: d in more <==> d in naming || (d == id && Names(edges, id, k) && !edges[id].resolved);
    if Names(edges, id, k) && !edges[id].resolved {
      assert more == naming + {id};
    } else {
      assert more == naming;
    }
  }

  lemma UnresolvedUsedOfOneMore(edges: map<string, DependencyEdge>, ids: set<string>, id: string, k: string)
    requires id in edges && id !in ids
    ensures |UnresolvedUsed(edges, ids + {id}, k)| ==
            |UnresolvedUsed(edges, ids, k)|
              + (if WorkloadID(edges[id].workload) == k && !edges[id].resolved then 1 else 0)
  {
    hide WorkloadID;
    var used, more := UnresolvedUsed(edges, ids, k), UnresolvedUsed(edges, ids + {id}, k);
    assert forall d :: d in more <==> d in used || (d == id && Uses(edges, id, k) && !edges[id].resolved);
    if Uses(edges, id, k) && !edges[id].resolved {
      assert more == used + {id};
    } else {
      assert more == used;
    }
  }

  lemma TeamsOfOneMore(edges: map<string, DependencyEdge>, ids: set<string>, id: string, k: string)
    requires id in edges && id !in ids
    ensures
      var e, own := edges[id], SecretID(edges[id].secret) == k;
      AffectedTeams(edges, ids + {id}, k) ==
      (if own && e.ownerTeam != "" then AffectedTeams(edges, ids, k) + {e.ownerTeam} else AffectedTeams(edges, ids, k))
  {}

  lemma RankOfOneMore(edges: map<string, DependencyEdge>, ids: set<string>, id: string, k: string, rank: nat)
    requires id in edges && id !in ids
    ensures RankReached(edges, ids + {id}, k, rank) <==>
            || RankReached(edges, ids, k, rank)
            || (SecretID(edges[id].secret) == k && CriticalityRank(edges[id].criticality) >= rank)
  {}

  lemma CriticalityOfOneMore(edges: map<string, DependencyEdge>, ids: set<string>, id: string, k: string)
    requires id in edges && id !in ids
    ensures
      var before := DerivedCriticality(edges, ids, k);
      DerivedCriticality(edges, ids + {id}, k) ==
      if SecretID(edges[id].secret) == k then MaxCriticality(before, edges[id].criticality) else before
  {
    hide SecretID, NormalizeCriticality, CriticalityRank, RankReached, MaxCriticality;
    for rank := 0 to 5
      invariant forall r: nat :: r < rank ==>
        (RankReached(edges, ids + {id}, k, r) <==>
         || RankReached(edges, ids, k, r)
         || (SecretID(edges[id].secret) == k && CriticalityRank(edges[id].criticality) >= r))
    {
      RankOfOneMore(edges, ids, id, k, rank);
    }
    RankIsDownwardClosed(edges, ids, k);
    RankNameIsNormal(TopRank(edges, ids, k));
    MaxCriticalityIsMaxRank(DerivedCriticality(edges, ids, k), edges[id].criticality);
    BlankIsUnknown();
  }

  lemma BlankIsUnknown()
    ensures CriticalityRank("") == 0
  {}

  lemma RankIsDownwardClosed(edges: map<string, DependencyEdge>, ids: set<string>, k: string)
    ensures forall r: nat, q: nat :: q <= r && RankReached(edges, ids, k, r) ==> RankReached(edges, ids, k, q)
  {}

  lemma LookupsByMap(m: map<string, set<string>>, n: map<string, nat>, k: string, v: string, j: string)
    ensures SetAt(AddTo(m, k, v), j) == (if j == k then SetAt(m, j) + {v} else SetAt(m, j))
    ensures SetAt(Touch(m, k), j) == SetAt(m, j)
    ensures CountAt(Increment(n, k), j) == (if j == k then CountAt(n, j) + 1 else CountAt(n, j))
  {}

  lemma ReachLookups(t: Tallies, edge: DependencyEdge, k: string)
    ensures
      var r, own := Tallied1(t, edge), SecretID(edge.secret) == k;
      && SetAt(r.affectedWorkloads, k) ==
         (if own then SetAt(t.affectedWorkloads, k) + {WorkloadID(edge.workload)} else SetAt(t.affectedWorkloads, k))
      && SetAt(r.affectedNamespaces, k) ==
         (if own then SetAt(t.affectedNamespaces, k) + {edge.workload.namespace} else SetAt(t.affectedNamespaces, k))
      && SetAt(r.workloadDeps, k) ==
         (if WorkloadID(edge.workload) == k then SetAt(t.workloadDeps, k) + {SecretID(edge.secret)}
           else SetAt(t.workloadDeps, k))
  {
    var skey := SecretID(edge.secret);
    LookupsByMap(t.affectedWorkloads, t.unresolvedRefs, skey, WorkloadID(edge.workload), k);
    LookupsByMap(t.affectedNamespaces, t.unresolvedRefs, skey, edge.workload.namespace, k);
    LookupsByMap(t.workloadDeps, t.unresolvedRefs, WorkloadID(edge.workload), skey, k);
  }

  lemma OwnerLookups(t: Tallies, edge: DependencyEdge, k: string)
    ensures
      var r, own := Tallied1(t, edge), SecretID(edge.secret) == k;
      && SetAt(r.affectedTeams, k) ==
         (if own && edge.ownerTeam != "" then SetAt(t.affectedTeams, k) + {edge.ownerTeam}
           else SetAt(t.affectedTeams, k))
      && SetAt(r.derivedOwnerTeams, k) ==
         (if own && edge.ownerTeam != "" then SetAt(t.derivedOwnerTeams, k) + {edge.ownerTeam}
           else SetAt(t.derivedOwnerTeams, k))
      && TextAt(r.derivedCriticality, k) ==
         (if own then MaxCriticality(TextAt(t.derivedCriticality, k), edge.criticality)
           else TextAt(t.derivedCriticality, k))
  {
    var skey := SecretID(edge.secret);
    LookupsByMap(t.derivedOwnerTeams, t.unresolvedRefs, skey, edge.ownerTeam, k);
    LookupsByMap(t.affectedTeams, t.unresolvedRefs, skey, edge.ownerTeam, k);
    LookupsByMap(Touch(t.affectedTeams, skey), t.unresolvedRefs, skey, edge.ownerTeam, k);
  }

  lemma CountLookups(t: Tallies, edge: DependencyEdge, k: string)
    ensures
      var r := Tallied1(t, edge);
      && CountAt(r.unresolvedRefs, k) ==
         CountAt(t.unresolvedRefs, k) + (if SecretID(edge.secret) == k && !edge.resolved then 1 else 0)
      && CountAt(r.workloadUnresolved, k) ==
         CountAt(t.workloadUnresolved, k) + (if WorkloadID(edge.workload) == k && !edge.resolved then 1 else 0)
  {}

  lemma ReachTalliesOfOneMore(t: Tallies, edges: map<string, DependencyEdge>, ids: set<string>, id: string, k: string)
    requires id in edges && id !in ids && ReachTalliesAt(t, edges, ids, k)
    ensures ReachTalliesAt(Tallied1(t, edges[id]), edges, ids + {id}, k)
  {
    hide Tallied1, AffectedWorkloads, AffectedNamespaces, Dependencies, SecretID, WorkloadID;
    ReachLookups(t, edges[id], k);
    ReachOfOneMore(edges, ids, id, k);
  }

  lemma OwnerTalliesOfOneMore(t: Tallies, edges: map<string, DependencyEdge>, ids: set<string>, id: string, k: string)
    requires id in edges && id !in ids && OwnerTalliesAt(t, edges, ids, k)
    ensures OwnerTalliesAt(Tallied1(t, edges[id]), edges, ids + {id}, k)
  {
    hide Tallied1, AffectedTeams, DerivedCriticality, MaxCriticality, SecretID;
    OwnerLookups(t, edges[id], k);
    TeamsOfOneMore(edges, ids, id, k);
    CriticalityOfOneMore(edges, ids, id, k);
  }

  lemma CountsOfOneMore(t: Tallies, edges: map<string, DependencyEdge>, ids: set<string>, id: string, k: string)
    requires id in edges && id !in ids && CountsAt(t, edges, ids, k)
    ensures CountsAt(Tallied1(t, edges[id]), edges, ids + {id}, k)
  {
    hide Tallied1, UnresolvedNaming, UnresolvedUsed, SecretID, WorkloadID;
    CountLookups(t, edges[id], k);
    UnresolvedNamingOfOneMore(edges, ids, id, k);
    UnresolvedUsedOfOneMore(edges, ids, id, k);
  }

  lemma TalliedOneMore(t: Tallies, edges: map<string, DependencyEdge>, ids: set<string>, id: string)
    requires id in edges && id !in ids && Tallied(t, edges, ids)
    ensures Tallied(Tallied1(t, edges[id]), edges, ids + {id})
  {
    hide ReachTalliesAt, OwnerTalliesAt, CountsAt, Tallied1;
    forall k ensures ReachTalliesAt(Tallied1(t, edges[id]), edges, ids + {id}, k) {
      ReachTalliesOfOneMore(t, edges, ids, id, k);
    }
    forall k ensures OwnerTalliesAt(Tallied1(t, edges[id]), edges, ids + {id}, k) {
      OwnerTalliesOfOneMore(t, edges, ids, id, k);
    }
    forall k ensures CountsAt(Tallied1(t, edges[id]), edges, ids + {id}, k) {
      CountsOfOneMore(t, edges, ids, id, k);
    }
  }
}

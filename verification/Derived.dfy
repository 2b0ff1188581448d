/** What a Secret's record takes from the workloads that use it: its criticality and its owner. */
module Derived {
  import opened GraphTypes
  import opened Ids
  import opened Criticality
  import opened GraphSpec
  import opened History

  /** What the snapshot itself says of a Secret; nothing of one that is only named. */
  ghost function OwnCriticality(secrets: seq<SecretInput>, k: string): string {
    if Listed(secrets, k) then LastListed(secrets, k).criticality else ""
  }

  ghost function OwnTeam(secrets: seq<SecretInput>, k: string): string {
    if Listed(secrets, k) then LastListed(secrets, k).ownerTeam else ""
  }

  /** The highest rank among a Secret's own and those of the edges that name it. */
  ghost predicate IsHighestRank(rank: nat, own: nat, edges: map<string, DependencyEdge>, k: string) {
    && rank >= own
    && (forall id :: Names(edges, id, k) ==> rank >= CriticalityRank(edges[id].criticality))
    && (rank == own || exists id :: Names(edges, id, k) && rank == CriticalityRank(edges[id].criticality))
  }

  /** The one team among the edges that name a Secret, or none if there is not exactly one. */
  ghost predicate IsSoleTeam(team: string, edges: map<string, DependencyEdge>, k: string) {
    var teams := AffectedTeams(edges, edges.Keys, k);
    if team != "" then teams == {team} else |teams| != 1
  }

  lemma TopRankIsHighest(edges: map<string, DependencyEdge>, k: string)
    requires RankReached(edges, edges.Keys, k, 0)
    ensures forall id :: Names(edges, id, k) ==> TopRank(edges, edges.Keys, k) >= CriticalityRank(edges[id].criticality)
    ensures exists id :: Names(edges, id, k) && TopRank(edges, edges.Keys, k) == CriticalityRank(edges[id].criticality)
  {
    hide CriticalityRank, Names;
    var top := TopRank(edges, edges.Keys, k);
    forall id ensures Names(edges, id, k) ==> id in edges { NamedIsEdge(edges, id, k); }
    forall id | id in edges && Names(edges, id, k) ensures top >= CriticalityRank(edges[id].criticality) {
      assert RankReached(edges, edges.Keys, k, CriticalityRank(edges[id].criticality));
    }
    assert RankReached(edges, edges.Keys, k, top);
    var id :| id in edges.Keys && Names(edges, id, k) && CriticalityRank(edges[id].criticality) >= top;
  }

  lemma NamedIsEdge(edges: map<string, DependencyEdge>, id: string, k: string)
    ensures Names(edges, id, k) ==> id in edges && RankReached(edges, edges.Keys, k, 0)
  {}

  lemma FinishedCriticality(base: SecretSummary, edges: map<string, DependencyEdge>, k: string)
    ensures
      var c := FinishSecret(base, edges, k).criticality;
      && IsHighestRank(CriticalityRank(c), CriticalityRank(base.criticality), edges, k)
      && (base.criticality == RankName(CriticalityRank(base.criticality)) ==> c == RankName(CriticalityRank(c)))
  {
    hide CriticalityRank, RankName, TopRank, AffectedWorkloads, AffectedTeams, AffectedNamespaces, UnresolvedNaming,
         SoleTeam, Names, MaxCriticality,
         ImpactScore;
    var derived := DerivedCriticality(edges, edges.Keys, k);
    if RankReached(edges, edges.Keys, k, 0) {
      TopRankIsHighest(edges, k);
      RankNameIsNormal(TopRank(edges, edges.Keys, k));
      RankNameIsSome(TopRank(edges, edges.Keys, k));
      MaxCriticalityIsMaxRank(base.criticality, derived);
    } else {
      forall id ensures !Names(edges, id, k) { NamedIsEdge(edges, id, k); }
    }
  }

  lemma RankNameIsSome(rank: nat)
    ensures RankName(rank) != ""
  {}

  lemma FinishedOwner(base: SecretSummary, edges: map<string, DependencyEdge>, k: string)
    ensures
      var team := FinishSecret(base, edges, k).ownerTeam;
      if base.ownerTeam != "" then team == base.ownerTeam else IsSoleTeam(team, edges, k)
  {
    hide CriticalityRank, DerivedCriticality, AffectedWorkloads, AffectedNamespaces, UnresolvedNaming,
         MaxCriticality, ImpactScore, Names;
    var teams := AffectedTeams(edges, edges.Keys, k);
    if |teams| == 1 {
      SoleIsAll(teams);
    }
  }

  lemma SoleIsAll(teams: set<string>)
    requires |teams| == 1
    ensures teams == {SoleTeam(teams)}
  {
    var t := SoleTeam(teams);
    assert |teams - {t}| == 0;
    assert teams - {t} == {};
  }

  /** The record before the edges are counted in. */
  lemma StartingRecord(st: State, secrets: seq<SecretInput>, named: set<string>, now: Time, k: string)
    requires k in WithPhantoms(st.cluster, ObservedSecrets(st, secrets, now), named)
    ensures
      var base := WithPhantoms(st.cluster, ObservedSecrets(st, secrets, now), named)[k];
      && base.criticality == RankName(CriticalityRank(OwnCriticality(secrets, k)))
      && base.ownerTeam == OwnTeam(secrets, k)
  {
    hide Listed, LastListed, SecretID;
    ObservedIsLastListed(st, secrets, now, k);
    NormalizeIsRankName(OwnCriticality(secrets, k));
  }

  /**
   Whatever the order of iteration, a Secret is as critical as the most critical of itself
   and the edges that name it, and its label is the normalised one.
   */
  lemma CriticalityIsHighest(st: State, secrets: seq<SecretInput>, inputs: seq<WorkloadInput>, now: Time, k: string)
    requires k in Apply(st, secrets, inputs, now).secrets
    ensures
      var r := Apply(st, secrets, inputs, now);
      var c := r.secrets[k].criticality;
      && IsHighestRank(CriticalityRank(c), CriticalityRank(OwnCriticality(secrets, k)), r.edges, k)
      && c == RankName(CriticalityRank(c))
  {
    hide FinishSecret, IsHighestRank, CriticalityRank, RankName, OwnCriticality, ObservedEdges, ObservedSecrets,
         ObservedWorkloads, NamedSecrets,
         WithPhantoms;
    var r, base := Apply(st, secrets, inputs, now), ObservedSecrets(st, secrets, now);
    var named := NamedSecrets(r.edges, r.edges.Keys);
    StartingRecord(st, secrets, named, now, k);
    FinishedCriticality(WithPhantoms(st.cluster, base, named)[k], r.edges, k);
    RankNameIsNormal(CriticalityRank(OwnCriticality(secrets, k)));
  }

  /** A Secret without an owner of its own gets one exactly when its users agree on one. */
  lemma OwnerIsOwnOrSole(st: State, secrets: seq<SecretInput>, inputs: seq<WorkloadInput>, now: Time, k: string)
    requires k in Apply(st, secrets, inputs, now).secrets
    ensures
      var r := Apply(st, secrets, inputs, now);
      var team := r.secrets[k].ownerTeam;
      if OwnTeam(secrets, k) != "" then team == OwnTeam(secrets, k) else IsSoleTeam(team, r.edges, k)
  {
    hide FinishSecret, IsSoleTeam, OwnTeam, ObservedEdges, ObservedSecrets, ObservedWorkloads, NamedSecrets,
         WithPhantoms, CriticalityRank, RankName,
         OwnCriticality;
    var r, base := Apply(st, secrets, inputs, now), ObservedSecrets(st, secrets, now);
    var named := NamedSecrets(r.edges, r.edges.Keys);
    StartingRecord(st, secrets, named, now, k);
    FinishedOwner(WithPhantoms(st.cluster, base, named)[k], r.edges, k);
  }
}

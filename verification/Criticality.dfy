/** Criticality labels, their order, and the impact score they weigh in. */
module Criticality {
  import opened Text
  import opened GraphTypes

  function NormalizeCriticality(value: string): string {
    var v := ToLower(TrimSpace(value));
    if v == "low" || v == "medium" || v == "high" || v == "critical" then v else "unknown"
  }

  function CriticalityRank(value: string): (r: nat)
    ensures r <= 4
  {
    var v := NormalizeCriticality(value);
    if v == "low" then 1
    else if v == "medium" then 2
    else if v == "high" then 3
    else if v == "critical" then 4
    else 0
  }

  function MaxCriticality(a: string, b: string): string {
    if CriticalityRank(b) > CriticalityRank(a) then NormalizeCriticality(b) else NormalizeCriticality(a)
  }

  /** The one normalised label of each rank. */
  function RankName(rank: nat): string {
    match rank
    case 1 => "low"
    case 2 => "medium"
    case 3 => "high"
    case 4 => "critical"
    case _ => "unknown"
  }

  lemma NormalizeIsRankName(value: string)
    ensures NormalizeCriticality(value) == RankName(CriticalityRank(value))
  {}

  lemma PlainLabel(name: string)
    requires name != "" && forall i :: 0 <= i < |name| ==> 'a' <= name[i] <= 'z'
    ensures ToLower(TrimSpace(name)) == name
  {
    hide TrimSpace;
    assert "" + name + "" == name;
    TrimPadded("", name, "");
  }

  lemma RankNameIsNormal(rank: nat)
    requires rank <= 4
    ensures NormalizeCriticality(RankName(rank)) == RankName(rank)
    ensures CriticalityRank(RankName(rank)) == rank
  {
    hide ToLower, TrimSpace;
    PlainLabel(RankName(rank));
  }

  /** Taking the maximum label is taking the maximum rank, so order does not matter. */
  lemma MaxCriticalityIsMaxRank(a: string, b: string)
    ensures
      var top := if CriticalityRank(b) > CriticalityRank(a) then CriticalityRank(b) else CriticalityRank(a);
      MaxCriticality(a, b) == RankName(top) && CriticalityRank(MaxCriticality(a, b)) == top
  {
    RankNameIsNormal(CriticalityRank(a));
    RankNameIsNormal(CriticalityRank(b));
  }

  function CriticalityWeight(criticality: string): nat {
    if criticality == "low" then 2
    else if criticality == "medium" then 8
    else if criticality == "high" then 18
    else if criticality == "critical" then 30
    else 0
  }

  /** Every term is a whole number, so the float score is modelled as one. */
  function ImpactScore(secret: SecretSummary): nat {
    var score := secret.affectedWorkloadCount * 2 + secret.affectedTeamCount * 2
                 + secret.affectedNamespaceCount * 2 + secret.unresolvedReferenceCount * 2
                 + CriticalityWeight(secret.criticality);
    if score < 100 then score else 100
  }

  predicate NoLowerThan(a: SecretSummary, b: SecretSummary) {
    && a.affectedWorkloadCount >= b.affectedWorkloadCount
    && a.affectedTeamCount >= b.affectedTeamCount
    && a.affectedNamespaceCount >= b.affectedNamespaceCount
    && a.unresolvedReferenceCount >= b.unresolvedReferenceCount
    && CriticalityRank(a.criticality) >= CriticalityRank(b.criticality)
  }

  lemma ScoreIsMonotone(a: SecretSummary, b: SecretSummary)
    requires NoLowerThan(a, b)
    requires a.criticality == RankName(CriticalityRank(a.criticality))
    requires b.criticality == RankName(CriticalityRank(b.criticality))
    ensures ImpactScore(a) >= ImpactScore(b)
  {}
}

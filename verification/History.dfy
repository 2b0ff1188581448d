/** Whole runs: any sequence of snapshots from an empty graph, and what it remembers. */
module History {
  import opened GraphTypes
  import opened Ids
  import opened Criticality
  import opened Merge
  import opened GraphSpec
  import opened Consistency

  /** The arguments of one ApplySnapshot call. */
  datatype Update = Update(secrets: seq<SecretInput>, workloads: seq<WorkloadInput>, now: Time)

  ghost function Run(cluster: string, updates: seq<Update>): State {
    if updates == [] then EmptyState(cluster)
    else
      var u := updates[|updates| - 1];
      Apply(Run(cluster, updates[..|updates| - 1]), u.secrets, u.workloads, u.now)
  }

  lemma {:induction false} RunKeepsCluster(cluster: string, updates: seq<Update>)
    ensures Run(cluster, updates).cluster == cluster
  {
    if updates != [] {
      RunKeepsCluster(cluster, updates[..|updates| - 1]);
    }
  }

  /** Every reachable graph is consistent. */
  lemma RunIsConsistent(cluster: string, updates: seq<Update>)
    requires forall i :: 0 <= i < |updates| ==> WellFormed(updates[i].workloads) && PlainSecrets(updates[i].secrets)
    ensures Consistent(Run(cluster, updates))
  {
    hide Consistent, WellFormed, PlainSecrets;
    if updates == [] {
      EmptyIsConsistent(cluster);
    } else {
      var u := updates[|updates| - 1];
      ApplyIsConsistent(Run(cluster, updates[..|updates| - 1]), u.secrets, u.workloads, u.now);
    }
  }

  // ----- Edges -----

  ghost predicate EdgeAt(cluster: string, u: Update, id: string, i: int, j: int) {
    0 <= i < |u.workloads| && 0 <= j < |u.workloads[i].edges| && StoredID(cluster, u.workloads[i].edges[j]) == id
  }

  /** Some workload of the snapshot has an edge with this key. */
  ghost predicate EdgePresent(cluster: string, u: Update, id: string) {
    exists i, j :: EdgeAt(cluster, u, id, i, j)
  }

  /** Snapshot k begins the unbroken presence of an edge that lasts to the end of the run. */
  ghost predicate EdgeStreak(cluster: string, updates: seq<Update>, id: string, k: int) {
    && 0 <= k < |updates|
    && (forall j :: k <= j < |updates| ==> EdgePresent(cluster, updates[j], id))
    && (k == 0 || !EdgePresent(cluster, updates[k - 1], id))
  }

  lemma StoredEdgeTimes(st: State, u: Update, id: string)
    ensures
      var r := Apply(st, u.secrets, u.workloads, u.now);
      && (id in r.edges <==> EdgePresent(st.cluster, u, id))
      && (id in r.edges ==>
            && r.edges[id].lastObservedAt == u.now
            && r.edges[id].firstObservedAt ==
               if id in st.edges && st.edges[id].firstObservedAt != 0 then st.edges[id].firstObservedAt else u.now)
  {
    hide ObservedSecrets, StoredID, MergeAll, Flatten, FinishedSecrets, FinishedWorkloads, WithPhantoms,
         ObservedWorkloads;
    var known := ObservedSecrets(st, u.secrets, u.now).Keys;
    var flat := Flatten(st, known, u.workloads, u.now);
    StoredEdgeIsMerge(st, known, u.workloads, u.now, id);
    var g := Group(flat, id);
    if g != [] {
      assert g[0] in flat;
      FlattenMember(st, known, u.workloads, u.now, g[0]);
      var i, j :| ComesFrom(st, known, u.workloads, u.now, g[0], i, j);
      assert EdgeAt(st.cluster, u, id, i, j);
    }
    if i, j :| EdgeAt(st.cluster, u, id, i, j) {
      var e := Normalize(st, known, u.workloads[i], u.workloads[i].edges[j], u.now);
      assert ComesFrom(st, known, u.workloads, u.now, e, i, j);
      FlattenMember(st, known, u.workloads, u.now, e);
      assert e in flat && e.id == id;
    }
  }

  /** An edge was first observed by the snapshot that began its current streak. */
  lemma {:induction false} EdgeHistory(cluster: string, updates: seq<Update>, id: string, k: int)
    requires forall i :: 0 <= i < |updates| ==> updates[i].now != 0
    requires EdgeStreak(cluster, updates, id, k)
    ensures
      var edges := Run(cluster, updates).edges;
      && id in edges
      && edges[id].firstObservedAt == updates[k].now
      && edges[id].lastObservedAt == updates[|updates| - 1].now
  {
    hide Apply, EdgePresent;
    var init, u := updates[..|updates| - 1], updates[|updates| - 1];
    RunKeepsCluster(cluster, init);
    StoredEdgeTimes(Run(cluster, init), u, id);
    if k < |updates| - 1 {
      assert forall i :: 0 <= i < |init| ==> init[i] == updates[i];
      EdgeHistory(cluster, init, id, k);
    } else {
      AbsentEdge(cluster, init, id);
    }
  }

  lemma AbsentEdge(cluster: string, updates: seq<Update>, id: string)
    requires updates == [] || !EdgePresent(cluster, updates[|updates| - 1], id)
    ensures id !in Run(cluster, updates).edges
  {
    hide Apply, EdgePresent;
    if updates != [] {
      RunKeepsCluster(cluster, updates[..|updates| - 1]);
      StoredEdgeTimes(Run(cluster, updates[..|updates| - 1]), updates[|updates| - 1], id);
    }
  }

  // ----- Secrets -----

  ghost predicate Listed(inputs: seq<SecretInput>, key: string) {
    exists i :: 0 <= i < |inputs| && SecretID(inputs[i].ref) == key
  }

  /** The input that counts when a key is listed more than once. */
  function LastListed(inputs: seq<SecretInput>, key: string): SecretInput
    requires Listed(inputs, key)
  {
    var last := inputs[|inputs| - 1];
    if SecretID(last.ref) == key then last
    else
      assert Listed(inputs[..|inputs| - 1], key) by {
        var i :| 0 <= i < |inputs| && SecretID(inputs[i].ref) == key;
        assert inputs[..|inputs| - 1][i] == inputs[i];
      }
      LastListed(inputs[..|inputs| - 1], key)
  }

  ghost function VersionIn(u: Update, key: string): string {
    if Listed(u.secrets, key) then LastListed(u.secrets, key).resourceVersion else ""
  }

  ghost predicate SecretStreak(updates: seq<Update>, key: string, k: int) {
    && 0 <= k < |updates|
    && (forall j :: k <= j < |updates| ==> Listed(updates[j].secrets, key))
    && (k == 0 || !Listed(updates[k - 1].secrets, key))
  }

  /** The snapshot and the one before it give the Secret two versions, neither of them empty. */
  ghost predicate ChangedAt(updates: seq<Update>, key: string, j: int) {
    && 0 < j < |updates|
    && VersionIn(updates[j - 1], key) != "" && VersionIn(updates[j], key) != ""
    && VersionIn(updates[j - 1], key) != VersionIn(updates[j], key)
  }

  /** The snapshots of a streak that saw another version than the one before. */
  ghost function Changes(updates: seq<Update>, key: string, k: int): set<int>
    requires 0 <= k
  {
    set j | k < j < |updates| && ChangedAt(updates, key, j)
  }

  lemma {:induction false} ObservedIsLastListed(st: State, inputs: seq<SecretInput>, now: Time, key: string)
    ensures key in ObservedSecrets(st, inputs, now) <==> Listed(inputs, key)
    ensures key in ObservedVersions(inputs) <==> Listed(inputs, key)
    ensures Listed(inputs, key) ==>
      && ObservedSecrets(st, inputs, now)[key] == ObserveSecret(st, LastListed(inputs, key), now)
      && ObservedVersions(inputs)[key] == LastListed(inputs, key).resourceVersion
  {
    hide SecretID, ObserveSecret;
    if inputs != [] {
      var init := inputs[..|inputs| - 1];
      ObservedIsLastListed(st, init, now, key);
      assert forall i :: 0 <= i < |init| ==> inputs[i] == init[i];
      assert Listed(inputs, key) <==> Listed(init, key) || SecretID(inputs[|inputs| - 1].ref) == key;
    }
  }

  /** The history fields of a Secret's record, as the next snapshot will find them. */
  lemma SecretCarriedOver(st: State, u: Update, key: string)
    ensures
      var r := Apply(st, u.secrets, u.workloads, u.now);
      && VersionBefore(r, key) == VersionIn(u, key)
      && (Listed(u.secrets, key) ==>
            && key in r.secrets
            && r.secrets[key].exists_
            && r.secrets[key].observedChangeCount ==
                 ObserveSecret(st, LastListed(u.secrets, key), u.now).observedChangeCount
            && r.secrets[key].lastObservedChangeTime ==
                 ObserveSecret(st, LastListed(u.secrets, key), u.now).lastObservedChangeTime)
      && (!Listed(u.secrets, key) ==>
            SecretBefore(r, key).observedChangeCount == 0 && SecretBefore(r, key).lastObservedChangeTime == 0)
  {
    hide ObservedSecrets, ObservedVersions, ObservedEdges, ObservedWorkloads, SecretID, RefOf, NamedSecrets,
         ImpactScore,
         DerivedCriticality, AffectedTeams, AffectedWorkloads, AffectedNamespaces, UnresolvedNaming, SoleTeam, Listed,
         LastListed;
    ObservedIsLastListed(st, u.secrets, u.now, key);
  }

  lemma {:induction false} LastListedHasKey(inputs: seq<SecretInput>, key: string)
    requires Listed(inputs, key)
    ensures SecretID(LastListed(inputs, key).ref) == key
  {
    if SecretID(inputs[|inputs| - 1].ref) != key {
      var init := inputs[..|inputs| - 1];
      var i :| 0 <= i < |inputs| && SecretID(inputs[i].ref) == key;
      assert init[i] == inputs[i];
      LastListedHasKey(init, key);
    }
  }

  ghost predicate IsLast(s: set<int>, j: int) {
    j in s && forall i :: i in s ==> i <= j
  }

  lemma SuccessorModulo(a: nat)
    ensures (a % UINT64 + 1) % UINT64 == (a + 1) % UINT64
  {}

  ghost predicate CountsChanges(s: SecretSummary, updates: seq<Update>, key: string, k: int)
    requires 0 <= k < |updates| && Listed(updates[k].secrets, key)
  {
    var changes := Changes(updates, key, k);
    && s.observedChangeCount == |changes| % UINT64
    && (changes == {} ==>
          var created := LastListed(updates[k].secrets, key).creationTimestamp;
          s.lastObservedChangeTime == InitialChangeTime(0, created, updates[k].now))
    && (forall j :: j in changes ==> 0 <= j < |updates|)
    && (forall j :: IsLast(changes, j) ==> s.lastObservedChangeTime == updates[j].now)
  }

  /**
   A Secret's change count is the number of version changes seen in its current streak, in
   64 bits; its change time is that of the last of them, or else the creation time, or else
   the time of the first observation.
   */
  lemma {:induction false} SecretHistory(cluster: string, updates: seq<Update>, key: string, k: int)
    requires forall i :: 0 <= i < |updates| ==> updates[i].now != 0
    requires SecretStreak(updates, key, k)
    ensures
      var r := Run(cluster, updates);
      && key in r.secrets && r.secrets[key].exists_
      && CountsChanges(r.secrets[key], updates, key, k)
      && r.secrets[key].lastObservedChangeTime != 0
  {
    hide Apply, Listed, LastListed, SecretID, VersionIn, CountsChanges, Changes, ChangedAt, ObserveSecret,
         VersionBefore;
    var init, u := updates[..|updates| - 1], updates[|updates| - 1];
    var st := Run(cluster, init);
    SecretCarriedOver(st, u, key);
    LastListedHasKey(u.secrets, key);
    if k < |updates| - 1 {
      assert forall i :: 0 <= i < |init| ==> init[i] == updates[i];
      SecretHistory(cluster, init, key, k);
      SecretCarriedOver(Run(cluster, init[..|init| - 1]), init[|init| - 1], key);
      assert init[|init| - 1] == updates[|updates| - 2];
      ObservedStep(st, updates, key);
      CountsOneMore(st.secrets[key], Run(cluster, updates).secrets[key], updates, key, k);
    } else {
      UnlistedSecret(cluster, init, key);
      FirstObserved(st, LastListed(u.secrets, key), u.now);
      CountsFromNone(Run(cluster, updates).secrets[key], updates, key, k);
    }
  }

  lemma ObservedStep(st: State, updates: seq<Update>, key: string)
    requires |updates| > 1 && Listed(updates[|updates| - 1].secrets, key)
    requires VersionBefore(st, key) == VersionIn(updates[|updates| - 2], key)
    requires key in st.secrets && st.secrets[key].lastObservedChangeTime != 0
    ensures
      var n := |updates| - 1;
      var changed := ChangedAt(updates, key, n);
      var before, after := st.secrets[key], ObserveSecret(st, LastListed(updates[n].secrets, key), updates[n].now);
      && after.observedChangeCount ==
           (if changed then (before.observedChangeCount + 1) % UINT64 else before.observedChangeCount)
      && after.lastObservedChangeTime == (if changed then updates[n].now else before.lastObservedChangeTime)
  {
    hide SecretID, Listed, NormalizeCriticality;
    LastListedHasKey(updates[|updates| - 1].secrets, key);
  }

  lemma FirstObserved(st: State, input: SecretInput, now: Time)
    requires VersionBefore(st, SecretID(input.ref)) == ""
    requires SecretBefore(st, SecretID(input.ref)).observedChangeCount == 0
    requires SecretBefore(st, SecretID(input.ref)).lastObservedChangeTime == 0
    ensures ObserveSecret(st, input, now).observedChangeCount == 0
    ensures ObserveSecret(st, input, now).lastObservedChangeTime == InitialChangeTime(0, input.creationTimestamp, now)
  {}

  lemma CountsFromNone(s: SecretSummary, updates: seq<Update>, key: string, k: int)
    requires 0 <= k == |updates| - 1 && Listed(updates[k].secrets, key)
    requires s.observedChangeCount == 0
    requires s.lastObservedChangeTime ==
      InitialChangeTime(0, LastListed(updates[k].secrets, key).creationTimestamp, updates[k].now)
    ensures CountsChanges(s, updates, key, k)
  {}

  lemma CountsOneMore(before: SecretSummary, after: SecretSummary, updates: seq<Update>, key: string, k: int)
    requires 0 <= k < |updates| - 1 && Listed(updates[k].secrets, key)
    requires updates[..|updates| - 1][k] == updates[k]
    requires CountsChanges(before, updates[..|updates| - 1], key, k)
    requires
      var n := |updates| - 1;
      var changed := ChangedAt(updates, key, n);
      && after.observedChangeCount ==
           (if changed then (before.observedChangeCount + 1) % UINT64 else before.observedChangeCount)
      && after.lastObservedChangeTime == (if changed then updates[n].now else before.lastObservedChangeTime)
    ensures CountsChanges(after, updates, key, k)
  {
    hide ChangedAt, Changes, Listed, LastListed;
    var n := |updates| - 1;
    var earlier := Changes(updates[..n], key, k);
    ChangesOfOneMore(updates, key, k);
    ChangesInRange(updates[..n], key, k);
    SuccessorModulo(|earlier|);
    if ChangedAt(updates, key, n) {
      assert forall j :: IsLast(earlier + {n}, j) ==> j == n by { assert n in earlier + {n}; }
    } else {
      assert forall j :: j in earlier ==> updates[..n][j] == updates[j];
    }
  }

  lemma ChangesInRange(updates: seq<Update>, key: string, k: int)
    requires 0 <= k
    ensures forall j :: j in Changes(updates, key, k) ==> 0 <= j < |updates|
  {}

  lemma ChangesOfOneMore(updates: seq<Update>, key: string, k: int)
    requires 0 <= k < |updates| - 1
    ensures
      var n := |updates| - 1;
      var before := Changes(updates[..n], key, k);
      && n !in before && (forall j :: j in before ==> j < n)
      && Changes(updates, key, k) ==
         if ChangedAt(updates, key, n) then before + {n} else before
  {}

  lemma UnlistedSecret(cluster: string, updates: seq<Update>, key: string)
    requires updates == [] || !Listed(updates[|updates| - 1].secrets, key)
    ensures VersionBefore(Run(cluster, updates), key) == ""
    ensures SecretBefore(Run(cluster, updates), key).observedChangeCount == 0
    ensures SecretBefore(Run(cluster, updates), key).lastObservedChangeTime == 0
  {
    hide Apply, Listed;
    if updates != [] {
      SecretCarriedOver(Run(cluster, updates[..|updates| - 1]), updates[|updates| - 1], key);
    }
  }
}

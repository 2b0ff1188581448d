/**
 From listed objects to the graph: which workloads a rebuild emits, what it extracts from
 them, and what the graph then holds.
 */
module EndToEnd {
  import opened Text
  import opened GraphTypes
  import opened Ids
  import opened Merge
  import opened GraphSpec
  import opened Consistency
  import opened History
  import opened Laws
  import opened Premerge
  import opened Queries
  import opened Extractor
  import opened Pipeline
  import A = Accounts
  import O = OwnerResolution
  import R = Rebuild

  /** What is extracted from the object of each kind, namespace and name. */
  type Specs = O.Workload -> Subject

  ghost predicate Describes(opts: Options, specs: Specs) {
    forall x :: Describes1(opts, x, specs(x))
  }

  predicate Describes1(opts: Options, x: O.Workload, y: Subject) {
    y.w.cluster == opts.cluster && y.w.kind == x.kind && y.w.namespace == x.namespace && y.w.name == x.name
  }

  function Emitted(filter: O.NamespaceFilter, all: O.Objects): seq<O.Workload> {
    O.EmittedWorkloads(O.Scope(filter, all))
  }

  function SubjectsOf(specs: Specs, ws: seq<O.Workload>): (xs: seq<Subject>)
    ensures |xs| == |ws| && forall i :: 0 <= i < |ws| ==> xs[i] == specs(ws[i])
  {
    seq(|ws|, i requires 0 <= i < |ws| => specs(ws[i]))
  }

  /** The inputs that a rebuild hands to the cache: one for each workload emitted. */
  ghost predicate Rebuilt(opts: Options, decode: Decoder, specs: Specs, ws: seq<O.Workload>,
                          inputs: seq<WorkloadInput>) {
    |inputs| == |ws| && forall i :: 0 <= i < |ws| ==> ExtractedFrom(opts, decode, specs(ws[i]), inputs[i])
  }

  const KINDS: set<string> := {"Deployment", "StatefulSet", "DaemonSet", "Ingress", "CronJob", "Job", "Pod"}

  /** An object as Kubernetes names it. */
  predicate Proper(x: O.Workload) {
    x.kind in KINDS && '/' !in x.namespace && '|' !in x.namespace && '|' !in x.name
  }

  ghost predicate AllProper(ws: seq<O.Workload>) {
    forall i :: 0 <= i < |ws| ==> Proper(ws[i])
  }

  /** Kinds differ in more than case. */
  lemma KindsDiffer(k: string, l: string)
    requires k in KINDS && l in KINDS && EqualFold(k, l)
    ensures k == l
  {
    assert |k| == |ToLower(k)| == |ToLower(l)| == |l|;
    assert ToLower(k)[0] == LowerChar(k[0]) && ToLower(l)[0] == LowerChar(l[0]);
  }

  lemma KindsArePlain(k: string)
    requires k in KINDS
    ensures '/' !in k && '|' !in k
  {}

  lemma ProperIsClean(opts: Options, specs: Specs, x: O.Workload)
    requires Describes(opts, specs) && Proper(x)
    ensures Clean(opts, specs(x))
  {
    KindsArePlain(x.kind);
    assert Describes1(opts, x, specs(x));
  }

  lemma SameKeySameWorkload(opts: Options, specs: Specs, x: O.Workload, y: O.Workload)
    requires Describes(opts, specs) && Proper(x) && Proper(y)
    requires SameWorkload(specs(x).w, specs(y).w)
    ensures x == y
  {
    assert Describes1(opts, x, specs(x)) && Describes1(opts, y, specs(y));
    KindsDiffer(x.kind, y.kind);
  }

  /** No two inputs of a rebuild share a workload key. */
  lemma InputsAreDistinct(opts: Options, decode: Decoder, specs: Specs, filter: O.NamespaceFilter, all: O.Objects,
                          inputs: seq<WorkloadInput>)
    requires R.Listable(all) && Describes(opts, specs) && AllProper(Emitted(filter, all))
    requires Rebuilt(opts, decode, specs, Emitted(filter, all), inputs)
    ensures DistinctWorkloads(inputs)
  {
    hide R.Listable, Emitted, ExtractedFrom, WorkloadID, Describes, Proper, SameWorkload;
    var ws := Emitted(filter, all);
    EmittedIsDistinct(filter, all);
    forall i, j | 0 <= i < |inputs| && 0 <= j < |inputs| && WorkloadID(inputs[i].ref) == WorkloadID(inputs[j].ref)
      ensures i == j
    {
      RefIsKept(opts, decode, specs(ws[i]), inputs[i]);
      RefIsKept(opts, decode, specs(ws[j]), inputs[j]);
      ProperIsClean(opts, specs, ws[i]);
      ProperIsClean(opts, specs, ws[j]);
      WorkloadIDIsInjective(inputs[i].ref, inputs[j].ref);
      SameKeySameWorkload(opts, specs, ws[i], ws[j]);
    }
  }

  lemma EmittedIsDistinct(filter: O.NamespaceFilter, all: O.Objects)
    requires R.Listable(all)
    ensures var ws := Emitted(filter, all);
            forall i, j :: 0 <= i < |ws| && 0 <= j < |ws| && ws[i] == ws[j] ==> i == j
  {
    hide O.EmittedWorkloads, O.Scope, R.Listable;
    R.EmittedOnce(filter, all);
  }

  lemma SubjectsExtracted(opts: Options, decode: Decoder, specs: Specs, ws: seq<O.Workload>, inputs: seq<WorkloadInput>)
    requires Describes(opts, specs) && AllProper(ws) && Rebuilt(opts, decode, specs, ws, inputs)
    ensures AllExtractedFrom(opts, decode, SubjectsOf(specs, ws), inputs)
  {
    hide Describes, Proper, ExtractedFrom, Clean;
    forall i | 0 <= i < |ws| ensures Clean(opts, specs(ws[i])) {
      ProperIsClean(opts, specs, ws[i]);
    }
  }

  /** Whatever objects are listed and whatever they refer to, a rebuild leaves a consistent graph. */
  lemma ObjectsLeaveConsistent(st: State, secrets: seq<SecretInput>, opts: Options, decode: Decoder, specs: Specs,
                               filter: O.NamespaceFilter, all: O.Objects, inputs: seq<WorkloadInput>, now: Time)
    requires R.Listable(all) && Describes(opts, specs) && AllProper(Emitted(filter, all)) && PlainSecrets(secrets)
    requires Rebuilt(opts, decode, specs, Emitted(filter, all), inputs)
    ensures Consistent(Apply(st, secrets, inputs, now)) && TeamsAgree(Apply(st, secrets, inputs, now))
  {
    hide R.Listable, Emitted, Rebuilt, Describes, AllProper, PlainSecrets, Consistent, TeamsAgree, Apply,
         AllExtractedFrom, DistinctWorkloads;
    InputsAreDistinct(opts, decode, specs, filter, all, inputs);
    SubjectsExtracted(opts, decode, specs, Emitted(filter, all), inputs);
    RebuildIsConsistent(st, secrets, opts, decode, SubjectsOf(specs, Emitted(filter, all)), inputs, now);
  }

  /**
   The graph has an edge with an object's key for a Secret exactly when the object is a
   workload that the rebuild emits and it names a Secret of that key in a way that counts.
   A Pod or Job that is folded into another workload has none.
   */
  lemma GraphOfObjects(st: State, secrets: seq<SecretInput>, opts: Options, decode: Decoder, specs: Specs,
                       filter: O.NamespaceFilter, all: O.Objects, inputs: seq<WorkloadInput>, now: Time,
                       x: O.Workload, s: SecretRef)
    requires R.Listable(all) && Describes(opts, specs) && AllProper(Emitted(filter, all)) && Proper(x)
    requires Rebuilt(opts, decode, specs, Emitted(filter, all), inputs) && st.cluster == opts.cluster
    ensures EdgeID(specs(x).w, s) in Apply(st, secrets, inputs, now).edges <==>
      x in Emitted(filter, all) && CountsLike(opts, decode, specs(x), s)
  {
    hide R.Listable, Emitted, Rebuilt, Describes, AllProper, Proper, Apply, AllExtractedFrom, DistinctWorkloads, EdgeID,
         CountsLike;
    var ws := Emitted(filter, all);
    InputsAreDistinct(opts, decode, specs, filter, all, inputs);
    SubjectsExtracted(opts, decode, specs, ws, inputs);
    if x in ws {
      var n :| 0 <= n < |ws| && ws[n] == x;
      GraphIsWhatIsNamed(st, secrets, opts, decode, SubjectsOf(specs, ws), inputs, now, n, s);
    } else if EdgeID(specs(x).w, s) in Apply(st, secrets, inputs, now).edges {
      NoOtherKey(st, secrets, opts, decode, specs, ws, inputs, now, x, s);
    }
  }

  /** Every key in the graph belongs to a workload that was emitted. */
  lemma NoOtherKey(st: State, secrets: seq<SecretInput>, opts: Options, decode: Decoder, specs: Specs,
                   ws: seq<O.Workload>, inputs: seq<WorkloadInput>, now: Time, x: O.Workload, s: SecretRef)
    requires Describes(opts, specs) && AllProper(ws) && Proper(x) && st.cluster == opts.cluster
    requires Rebuilt(opts, decode, specs, ws, inputs)
    requires EdgeID(specs(x).w, s) in Apply(st, secrets, inputs, now).edges
    ensures x in ws
  {
    hide Describes, Proper, ObservedEdges, ObservedSecrets, FinishedSecrets, FinishedWorkloads, ObservedWorkloads,
         AllExtractedFrom, EdgeID, WellFormed, AllInputsExtracted, ExtractedFrom, SecretTail, SameWorkload, WorkloadID,
         SecretID, Collide, WellNamedSecret;
    var id := EdgeID(specs(x).w, s);
    SubjectsExtracted(opts, decode, specs, ws, inputs);
    AllMeetDemands(opts, decode, SubjectsOf(specs, ws), inputs);
    StoredKeyIsInput(st, ObservedSecrets(st, secrets, now).Keys, inputs, now, id);
    var i :| 0 <= i < |inputs| && HasID(inputs[i].edges, id);
    var j :| 0 <= j < |inputs[i].edges| && inputs[i].edges[j].id == id;
    ProperIsClean(opts, specs, x);
    ProperIsClean(opts, specs, ws[i]);
    ExtractedMeetsDemands(opts, decode, specs(ws[i]), inputs[i]);
    EdgeIDIsPair(specs(ws[i]).w, inputs[i].edges[j].secret, specs(x).w, s);
    SameKeySameWorkload(opts, specs, ws[i], x);
  }

  /** The options of a rebuild: those of the controller, with the pull Secrets of the accounts listed. */
  ghost predicate WithAccounts(base: Options, filter: O.NamespaceFilter, accounts: seq<A.ServiceAccount>,
                               opts: Options) {
    && opts == base.(serviceAccountImagePullSecrets := opts.serviceAccountImagePullSecrets)
    && A.HoldsPullSecrets(filter, accounts, opts.serviceAccountImagePullSecrets)
  }

  /**
   In whatever order the stores list their objects and service accounts, and Go its maps, a
   rebuild at a given time leaves the same graph.
   */
  lemma RebuildIgnoresOrder(st: State, base: Options, decode: Decoder, specs: Specs, filter: O.NamespaceFilter,
                            listed: O.Objects, relisted: O.Objects,
                            accounts: seq<A.ServiceAccount>, again: seq<A.ServiceAccount>,
                            opts: Options, reopts: Options, a: Update, b: Update)
    requires WithAccounts(base, filter, accounts, opts) && WithAccounts(base, filter, again, reopts)
    requires forall x :: x in accounts <==> x in again
    requires st.cluster == base.cluster && Describes(base, specs) && a.now == b.now
    requires R.Listable(listed) && R.Listable(relisted) && R.SameListing(listed, relisted)
    requires AllProper(Emitted(filter, listed))
    requires Rebuilt(opts, decode, specs, Emitted(filter, listed), a.workloads)
    requires Rebuilt(reopts, decode, specs, Emitted(filter, relisted), b.workloads)
    requires DistinctSecrets(a.secrets) && DistinctSecrets(b.secrets) && forall s :: s in a.secrets <==> s in b.secrets
    ensures Apply(st, a.secrets, a.workloads, a.now) == Apply(st, b.secrets, b.workloads, b.now)
  {
    hide R.Listable, R.SameListing, Rebuilt, Describes1, AllExtractedFrom, DistinctWorkloads, DistinctSecrets, Apply,
         Emitted, Proper, A.HoldsPullSecrets;
    A.PullSecretsIgnoreOrder(filter, accounts, again, opts.serviceAccountImagePullSecrets,
                             reopts.serviceAccountImagePullSecrets);
    SameDescription(base, opts, specs);
    hide Describes, WithAccounts;
    var ws, vs := Emitted(filter, listed), Emitted(filter, relisted);
    forall x: O.Workload ensures x in ws <==> x in vs {
      SameEmitted(filter, listed, relisted, x);
    }
    SubjectsAlike(specs, ws, vs);
    SubjectsAlike(specs, vs, ws);
    ProperCarriesOver(ws, vs);
    InputsAreDistinct(opts, decode, specs, filter, listed, a.workloads);
    InputsAreDistinct(opts, decode, specs, filter, relisted, b.workloads);
    SubjectsExtracted(opts, decode, specs, ws, a.workloads);
    SubjectsExtracted(opts, decode, specs, vs, b.workloads);
    RebuildIgnoresListing(st, opts, decode, SubjectsOf(specs, ws), SubjectsOf(specs, vs), a, b);
  }

  lemma SameDescription(a: Options, b: Options, specs: Specs)
    requires Describes(a, specs) && a.cluster == b.cluster
    ensures Describes(b, specs)
  {
    forall x ensures Describes1(b, x, specs(x)) {
      assert Describes1(a, x, specs(x));
    }
  }

  lemma ProperCarriesOver(ws: seq<O.Workload>, vs: seq<O.Workload>)
    requires AllProper(ws) && forall x :: x in vs ==> x in ws
    ensures AllProper(vs)
  {
    forall i | 0 <= i < |vs| ensures Proper(vs[i]) {
      assert vs[i] in ws;
    }
  }

  lemma SameEmitted(filter: O.NamespaceFilter, a: O.Objects, b: O.Objects, x: O.Workload)
    requires R.SameListing(a, b)
    ensures x in Emitted(filter, a) <==> x in Emitted(filter, b)
  {
    hide O.EmittedWorkloads, O.Scope, R.SameListing;
    R.ListingIsIrrelevant(filter, a, b, x);
  }

  lemma SubjectsAlike(specs: Specs, ws: seq<O.Workload>, vs: seq<O.Workload>)
    requires forall x :: x in ws ==> x in vs
    ensures forall y :: y in SubjectsOf(specs, ws) ==> y in SubjectsOf(specs, vs)
  {
    forall y | y in SubjectsOf(specs, ws) ensures y in SubjectsOf(specs, vs) {
      var i :| 0 <= i < |ws| && SubjectsOf(specs, ws)[i] == y;
      assert ws[i] in vs;
      var j :| 0 <= j < |vs| && vs[j] == ws[i];
      assert SubjectsOf(specs, vs)[j] == y;
    }
  }
}

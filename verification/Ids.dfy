/** The three string keys of the graph, and when they can be told apart. */
module Ids {
  import opened Text
  import opened GraphTypes

  function EdgeID(workload: WorkloadRef, secret: SecretRef): string {
    Join([workload.cluster, workload.namespace, ToLower(workload.kind), workload.name,
          secret.namespace, secret.name], "|")
  }

  function SecretID(ref: SecretRef): string {
    ref.namespace + "/" + ref.name
  }

  function WorkloadID(ref: WorkloadRef): string {
    ref.namespace + "/" + ToLower(ref.kind) + "/" + ref.name
  }

  /**
   What Kubernetes guarantees of an object's namespace, kind and name, as far as the keys
   need it.
   */
  predicate WellNamedWorkload(w: WorkloadRef) {
    && '/' !in w.namespace && '/' !in w.kind
    && '|' !in w.namespace && '|' !in w.kind && '|' !in w.name
  }

  /** What a Secret key needs. A name may hold anything, and so may a namespace but a '/'. */
  predicate WellNamedSecret(s: SecretRef) {
    '/' !in s.namespace
  }

  predicate SameWorkload(v: WorkloadRef, w: WorkloadRef) {
    v.namespace == w.namespace && EqualFold(v.kind, w.kind) && v.name == w.name
  }

  predicate SameSecret(s: SecretRef, t: SecretRef) {
    s.namespace == t.namespace && s.name == t.name
  }

  /** The part of an edge key that comes from the Secret. */
  function SecretTail(s: SecretRef): string {
    s.namespace + "|" + s.name
  }

  /** Different namespaces under which two Secrets can end an edge key alike. */
  predicate Collide(m: string, n: string) {
    m != n && (m + "|" <= n || n + "|" <= m)
  }

  lemma SecretIDIsInjective(s: SecretRef, t: SecretRef)
    requires '/' !in s.namespace && '/' !in t.namespace
    ensures SecretID(s) == SecretID(t) <==> SameSecret(s, t)
  {
    if SecretID(s) == SecretID(t) {
      CutIsInjective(s.namespace, t.namespace, '/', s.name, t.name);
    }
  }

  lemma WorkloadIDIsInjective(v: WorkloadRef, w: WorkloadRef)
    requires '/' !in v.namespace && '/' !in v.kind && '/' !in w.namespace && '/' !in w.kind
    ensures WorkloadID(v) == WorkloadID(w) <==> SameWorkload(v, w)
  {
    if WorkloadID(v) == WorkloadID(w) {
      ToLowerKeepsAbsent(v.kind, '/');
      ToLowerKeepsAbsent(w.kind, '/');
      assert WorkloadID(v) == v.namespace + ['/'] + (ToLower(v.kind) + "/" + v.name);
      assert WorkloadID(w) == w.namespace + ['/'] + (ToLower(w.kind) + "/" + w.name);
      CutIsInjective(v.namespace, w.namespace, '/', ToLower(v.kind) + "/" + v.name, ToLower(w.kind) + "/" + w.name);
      CutIsInjective(ToLower(v.kind), ToLower(w.kind), '/', v.name, w.name);
    }
  }

  lemma EdgeIDSplits(w: WorkloadRef, s: SecretRef)
    ensures EdgeID(w, s) == Join([w.cluster, w.namespace, ToLower(w.kind), w.name], "|") + "|" + SecretTail(s)
  {
    var head, tail := [w.cluster, w.namespace, ToLower(w.kind), w.name], [s.namespace, s.name];
    JoinTail(head, tail, "|");
    assert head + tail == [w.cluster, w.namespace, ToLower(w.kind), w.name, s.namespace, s.name];
    assert tail[1..] == [s.name];
  }

  /** Under one workload, edge keys are equal exactly when their last parts are. */
  lemma EdgeIDIsTail(w: WorkloadRef, s: SecretRef, t: SecretRef)
    ensures EdgeID(w, s) == EdgeID(w, t) <==> SecretTail(s) == SecretTail(t)
  {
    hide EdgeID, SecretTail;
    EdgeIDSplits(w, s);
    EdgeIDSplits(w, t);
    var prefix := Join([w.cluster, w.namespace, ToLower(w.kind), w.name], "|") + "|";
    if EdgeID(w, s) == EdgeID(w, t) {
      assert EdgeID(w, s)[|prefix|..] == SecretTail(s) && EdgeID(w, t)[|prefix|..] == SecretTail(t);
    }
  }

  /** Which references those are: the same Secret, or one namespace carries on into the other. */
  lemma TailsMeet(s: SecretRef, t: SecretRef)
    requires SecretTail(s) == SecretTail(t)
    ensures SameSecret(s, t) || Collide(s.namespace, t.namespace)
    ensures !SameSecret(s, t) ==> '|' in SecretID(s) && '|' in SecretID(t)
  {
    var m, n := s.namespace, t.namespace;
    if |m| == |n| {
      assert m == SecretTail(s)[..|m|] == SecretTail(t)[..|n|] == n;
      assert s.name == SecretTail(s)[|m| + 1..] && t.name == SecretTail(t)[|n| + 1..];
    } else if |m| < |n| {
      ShorterTail(s, t);
    } else {
      ShorterTail(t, s);
    }
  }

  lemma ShorterTail(s: SecretRef, t: SecretRef)
    requires SecretTail(s) == SecretTail(t) && |s.namespace| < |t.namespace|
    ensures s.namespace + "|" <= t.namespace
    ensures '|' in SecretID(s) && '|' in SecretID(t)
  {
    var m, n, tail := s.namespace, t.namespace, SecretTail(s);
    assert tail[..|m| + 1] == m + "|" && tail[..|n|] == n;
    assert n[..|m| + 1] == tail[..|m| + 1];
    assert SecretID(t)[|m|] == n[|m|] == '|';
    assert s.name == tail[|m| + 1..];
    assert s.name[|n| - |m| - 1] == tail[|n|] == '|';
    assert SecretID(s)[|n|] == '|';
  }

  /**
   Exactly when an edge key can be shared under one workload: some Secrets of two namespaces
   share theirs if and only if the one with a '|' after it begins the other.
   */
  lemma EdgeIDNamesSecret(w: WorkloadRef, m: string, n: string)
    requires m != n
    ensures (exists x, y :: EdgeID(w, SecretRef("", m, x, "")) == EdgeID(w, SecretRef("", n, y, ""))) <==> Collide(m, n)
  {
    hide EdgeID;
    if x, y :| EdgeID(w, SecretRef("", m, x, "")) == EdgeID(w, SecretRef("", n, y, "")) {
      EdgeIDIsTail(w, SecretRef("", m, x, ""), SecretRef("", n, y, ""));
      TailsMeet(SecretRef("", m, x, ""), SecretRef("", n, y, ""));
    }
    if m + "|" <= n {
      CollidingNames(w, m, n);
    } else if n + "|" <= m {
      CollidingNames(w, n, m);
    }
  }

  /** Two Secrets that share a key, for namespaces that collide. */
  lemma CollidingNames(w: WorkloadRef, m: string, n: string)
    requires m + "|" <= n
    ensures EdgeID(w, SecretRef("", m, n[|m| + 1..] + "|x", "")) == EdgeID(w, SecretRef("", n, "x", ""))
  {
    var s, t := SecretRef("", m, n[|m| + 1..] + "|x", ""), SecretRef("", n, "x", "");
    assert n == m + "|" + n[|m| + 1..];
    assert SecretTail(s) == SecretTail(t);
    EdgeIDIsTail(w, s, t);
  }

  /** So where no namespaces collide, an edge key under a workload names one Secret. */
  lemma KeyNamesSecret(w: WorkloadRef, s: SecretRef, t: SecretRef)
    requires !Collide(s.namespace, t.namespace)
    ensures EdgeID(w, s) == EdgeID(w, t) <==> SameSecret(s, t)
  {
    hide EdgeID, Collide;
    EdgeIDIsTail(w, s, t);
    if SecretTail(s) == SecretTail(t) {
      TailsMeet(s, t);
    }
  }

  /**
   Within one cluster, whatever its name, and for any Secrets, an edge key names one workload
   and one last part. So it is shared when both other keys are, and when it is, both other
   keys are unless the two namespaces collide; and then both Secret keys hold a '|'.
   */
  lemma EdgeIDIsPair(v: WorkloadRef, s: SecretRef, w: WorkloadRef, t: SecretRef)
    requires v.cluster == w.cluster && WellNamedWorkload(v) && WellNamedWorkload(w)
    ensures EdgeID(v, s) == EdgeID(w, t) <==> SameWorkload(v, w) && SecretTail(s) == SecretTail(t)
    ensures EdgeID(v, s) == EdgeID(w, t) ==> WorkloadID(v) == WorkloadID(w)
    ensures EdgeID(v, s) == EdgeID(w, t) ==> SecretID(s) == SecretID(t) || ('|' in SecretID(s) && '|' in SecretID(t))
    ensures WellNamedSecret(s) && WellNamedSecret(t) && WorkloadID(v) == WorkloadID(w) && SecretID(s) == SecretID(t) ==>
      EdgeID(v, s) == EdgeID(w, t)
    ensures WellNamedSecret(s) && WellNamedSecret(t) && !Collide(s.namespace, t.namespace) ==>
      (EdgeID(v, s) == EdgeID(w, t) <==> WorkloadID(v) == WorkloadID(w) && SecretID(s) == SecretID(t))
  {
    hide EdgeID, WorkloadID, SecretID, SecretTail, Collide;
    WorkloadIDIsInjective(v, w);
    if WellNamedSecret(s) && WellNamedSecret(t) {
      SecretIDIsInjective(s, t);
    }
    if EdgeID(v, s) == EdgeID(w, t) {
      EdgeIDNamesWorkload(v, s, w, t);
      SameKeys(v, w, s, t);
      TailsMeet(s, t);
    }
    if SameWorkload(v, w) {
      SameWorkloadSameKey(v, w, s);
      EdgeIDIsTail(w, s, t);
    }
    if SameSecret(s, t) {
      SameKeys(v, w, s, t);
    }
  }

  lemma SameKeys(v: WorkloadRef, w: WorkloadRef, s: SecretRef, t: SecretRef)
    ensures SameSecret(s, t) ==> SecretID(s) == SecretID(t) && SecretTail(s) == SecretTail(t)
  {}

  lemma SameWorkloadSameKey(v: WorkloadRef, w: WorkloadRef, s: SecretRef)
    requires v.cluster == w.cluster && SameWorkload(v, w)
    ensures EdgeID(v, s) == EdgeID(w, s)
  {}

  lemma EdgeIDNamesWorkload(v: WorkloadRef, s: SecretRef, w: WorkloadRef, t: SecretRef)
    requires v.cluster == w.cluster && WellNamedWorkload(v) && WellNamedWorkload(w)
    requires EdgeID(v, s) == EdgeID(w, t)
    ensures SameWorkload(v, w) && SecretTail(s) == SecretTail(t)
  {
    hide SecretTail;
    ToLowerKeepsAbsent(v.kind, '|');
    ToLowerKeepsAbsent(w.kind, '|');
    AfterCluster(v, s);
    AfterCluster(w, t);
    var prefix := v.cluster + "|";
    var a := v.namespace + ['|'] + (ToLower(v.kind) + ['|'] + (v.name + ['|'] + SecretTail(s)));
    var b := w.namespace + ['|'] + (ToLower(w.kind) + ['|'] + (w.name + ['|'] + SecretTail(t)));
    assert a == EdgeID(v, s)[|prefix|..] && b == EdgeID(w, t)[|prefix|..];
    CutIsInjective(v.namespace, w.namespace, '|', ToLower(v.kind) + ['|'] + (v.name + ['|'] + SecretTail(s)),
                   ToLower(w.kind) + ['|'] + (w.name + ['|'] + SecretTail(t)));
    CutIsInjective(ToLower(v.kind), ToLower(w.kind), '|',
                   v.name + ['|'] + SecretTail(s), w.name + ['|'] + SecretTail(t));
    CutIsInjective(v.name, w.name, '|', SecretTail(s), SecretTail(t));
  }

  lemma AfterCluster(w: WorkloadRef, s: SecretRef)
    ensures EdgeID(w, s) ==
      w.cluster + "|" + (w.namespace + ['|'] + (ToLower(w.kind) + ['|'] + (w.name + ['|'] + SecretTail(s))))
  {
    hide SecretTail;
    EdgeIDSplits(w, s);
    var head, tail := [w.cluster, w.namespace, ToLower(w.kind), w.name], SecretTail(s);
    var three, two := [w.namespace, ToLower(w.kind), w.name], [ToLower(w.kind), w.name];
    assert head[1..] == three && three[1..] == two && two[1..] == [w.name];
    assert Join(two, "|") == ToLower(w.kind) + "|" + w.name;
    assert Join(three, "|") == w.namespace + "|" + Join(two, "|");
    assert Join(head, "|") == w.cluster + "|" + Join(three, "|");
    assert w.namespace + "|" + (ToLower(w.kind) + "|" + w.name) + "|" + tail
        == w.namespace + ['|'] + (ToLower(w.kind) + ['|'] + (w.name + ['|'] + tail));
  }

  lemma {:induction false} JoinTail(xs: seq<string>, ys: seq<string>, sep: string)
    requires xs != [] && ys != []
    ensures Join(xs + ys, sep) == Join(xs, sep) + sep + Join(ys, sep)
  {
    assert (xs + ys)[1..] == xs[1..] + ys;
    if |xs| > 1 {
      JoinTail(xs[1..], ys, sep);
    } else {
      assert xs[1..] + ys == ys;
    }
  }
}

/** The Secrets that a Confluent Connector authenticates with: every `secretRef` of a JSON tree. */
module Connectors {
  import opened Basics
  import opened Text
  import opened Ordering
  import opened GraphTypes
  import opened Ids
  import opened Extractor

  datatype Target = Target(namespace: string, name: string)

  // ----- One secretRef -----

  /** The trimmed string of the field, "" if it holds none. */
  function StringField(m: map<string, Json>, field: string): string {
    if field in m && m[field].Str? then TrimSpace(m[field].s) else ""
  }

  /** The first of the fields with a string that is not blank. */
  function FirstStringField(m: map<string, Json>, fields: seq<string>): string {
    if fields == [] then ""
    else if StringField(m, fields[0]) != "" then StringField(m, fields[0])
    else FirstStringField(m, fields[1..])
  }

  /** A name in the Connector's own namespace, or one with a namespace that may be any text. */
  function ParsedTarget(defaultNamespace: string, value: Json): Target {
    match value
    case Str(s) => if TrimSpace(s) == "" then Target("", "") else Target(defaultNamespace, TrimSpace(s))
    case Obj(m) =>
      var name, given := FirstStringField(m, ["name", "secretName"]), FirstStringField(m, ["namespace"]);
      var namespace := if given == "" then defaultNamespace else given;
      if name == "" || namespace == "" then Target("", "") else Target(namespace, name)
    case _ => Target("", "")
  }

  method ParseSecretRef(defaultNamespace: string, value: Json) returns (namespace: string, name: string)
    ensures Target(namespace, name) == ParsedTarget(defaultNamespace, value)
  {
    match value {
      case Str(s) =>
        name := TrimSpace(s);
        if name == "" {
          return "", "";
        }
        return defaultNamespace, name;
      case Obj(m) =>
        name := FirstString(m, ["name", "secretName"]);
        namespace := FirstString(m, ["namespace"]);
        if namespace == "" {
          namespace := defaultNamespace;
        }
        if name == "" || namespace == "" {
          return "", "";
        }
      case _ =>
        return "", "";
    }
  }

  method FirstString(m: map<string, Json>, fields: seq<string>) returns (value: string)
    ensures value == FirstStringField(m, fields)
  {
    hide TrimSpace;
    for n := 0 to |fields|
      invariant FirstStringField(m, fields) == FirstStringField(m, fields[n..])
    {
      assert fields[n..][1..] == fields[n + 1..];
      if fields[n] in m && m[fields[n]].Str? {
        value := TrimSpace(m[fields[n]].s);
        if value != "" {
          return;
        }
      }
    }
    value := "";
  }

  function TextAt(m: map<string, Json>, field: string): string {
    if field in m && m[field].Str? then TrimSpace(m[field].s) else ""
  }

  /**
   A text names a Secret of the Connector's namespace. An object names one by its name, or
   else its secretName, in its namespace or else the Connector's; any other value names none.
   */
  lemma TargetIsRead(namespace: string, value: Json)
    requires namespace != ""
    ensures
      var t := ParsedTarget(namespace, value);
      && (t.name != "" <==> t.namespace != "")
      && (value.Str? ==> t.name == TrimSpace(value.s) && (t.name != "" ==> t.namespace == namespace))
      && (value.Obj? ==> t.name == FirstOf(TextAt(value.fields, "name"), TextAt(value.fields, "secretName")))
      && (value.Obj? && t.name != "" ==> t.namespace == FirstOf(TextAt(value.fields, "namespace"), namespace))
      && (!value.Str? && !value.Obj? ==> t.name == "")
  {
    hide TrimSpace;
    if value.Obj? {
      var m := value.fields;
      assert ["name", "secretName"][1..] == ["secretName"] && ["secretName"][1..] == [] && ["namespace"][1..] == [];
      assert FirstStringField(m, ["secretName"]) == TextAt(m, "secretName");
      assert FirstStringField(m, ["namespace"]) == TextAt(m, "namespace");
    }
  }

  function FirstOf(a: string, b: string): string {
    if a != "" then a else b
  }

  // ----- All of them -----

  const AUTH_SOURCE := Source("confluent.connector.spec.connectRest.authentication.secretRef")

  /** The field is a reference to the Secret. */
  predicate Refers(namespace: string, key: string, value: Json, t: Target) {
    EqualFold(key, "secretRef") && t == ParsedTarget(namespace, value) && t.namespace != "" && t.name != ""
  }

  /** Somewhere in the tree there is a reference to the Secret. */
  ghost predicate Occurs(namespace: string, v: Json, t: Target)
    decreases v
  {
    match v
    case Obj(m) => exists k :: k in m && (Refers(namespace, k, m[k], t) || Occurs(namespace, m[k], t))
    case Arr(items) => exists i :: 0 <= i < |items| && Occurs(namespace, items[i], t)
    case _ => false
  }

  function TargetEdges(cluster: string, w: WorkloadRef, key: string, value: Json): seq<DependencyEdge> {
    var t := ParsedTarget(w.namespace, value);
    if EqualFold(key, "secretRef") && t.namespace != "" && t.name != "" then
      [NewEdge(cluster, w, t.namespace, t.name, false, INFER, AUTH_SOURCE)]
    else []
  }

  function ScanEdges(cluster: string, w: WorkloadRef, v: Json): seq<DependencyEdge>
    decreases v, 1, 0
  {
    match v
    case Obj(m) => FieldEdges(cluster, w, v, SortedKeys(m.Keys))
    case Arr(items) => ItemEdges(cluster, w, v, |items|)
    case _ => []
  }

  function FieldEdges(cluster: string, w: WorkloadRef, v: Json, keys: seq<string>): seq<DependencyEdge>
    requires v.Obj? && forall k :: k in keys ==> k in v.fields
    decreases v, 0, |keys|
  {
    if keys == [] then []
    else
      var init, k := keys[..|keys| - 1], keys[|keys| - 1];
      FieldEdges(cluster, w, v, init) + TargetEdges(cluster, w, k, v.fields[k]) + ScanEdges(cluster, w, v.fields[k])
  }

  function ItemEdges(cluster: string, w: WorkloadRef, v: Json, n: nat): seq<DependencyEdge>
    requires v.Arr? && n <= |v.items|
    decreases v, 0, n
  {
    if n == 0 then [] else ItemEdges(cluster, w, v, n - 1) + ScanEdges(cluster, w, v.items[n - 1])
  }

  method ScanSecretRefs(cluster: string, w: WorkloadRef, value: Json) returns (edges: seq<DependencyEdge>)
    ensures edges == ScanEdges(cluster, w, value)
    decreases value
  {
    hide ScanEdges, FieldEdges, ItemEdges, TargetEdges, Sorted, SortedKeys;
    ScanUnfolds(cluster, w, value);
    edges := [];
    match value {
      case Obj(m) =>
        var keys := SortedKeys(m.Keys);
        for n := 0 to |keys|
          invariant edges == FieldEdges(cluster, w, value, keys[..n])
        {
          var key := keys[n];
          FieldsOfLonger(cluster, w, value, keys, n);
          edges := AddTarget(edges, cluster, w, key, m[key]);
          var below := ScanSecretRefs(cluster, w, m[key]);
          edges := edges + below;
        }
        assert keys[..|keys|] == keys;
      case Arr(items) =>
        for n := 0 to |items|
          invariant edges == ItemEdges(cluster, w, value, n)
        {
          ItemsOfLonger(cluster, w, value, n);
          var below := ScanSecretRefs(cluster, w, items[n]);
          edges := edges + below;
        }
      case _ =>
    }
  }

  method AddTarget(edges: seq<DependencyEdge>, cluster: string, w: WorkloadRef, key: string, value: Json)
    returns (r: seq<DependencyEdge>)
    ensures r == edges + TargetEdges(cluster, w, key, value)
  {
    hide EqualFold, ParsedTarget, NewEdge;
    r := edges;
    if EqualFold(key, "secretRef") {
      var namespace, name := ParseSecretRef(w.namespace, value);
      if namespace != "" && name != "" {
        r := r + [NewEdge(cluster, w, namespace, name, false, INFER, AUTH_SOURCE)];
      }
    }
  }

  /** How each scan starts and ends. */
  lemma ScanUnfolds(cluster: string, w: WorkloadRef, v: Json)
    ensures v.Obj? ==> ScanEdges(cluster, w, v) == FieldEdges(cluster, w, v, SortedKeys(v.fields.Keys))
    ensures v.Obj? ==> FieldEdges(cluster, w, v, []) == []
    ensures v.Arr? ==> ScanEdges(cluster, w, v) == ItemEdges(cluster, w, v, |v.items|)
    ensures v.Arr? ==> ItemEdges(cluster, w, v, 0) == []
    ensures !v.Obj? && !v.Arr? ==> ScanEdges(cluster, w, v) == []
  {}

  lemma FieldsOfLonger(cluster: string, w: WorkloadRef, v: Json, keys: seq<string>, n: nat)
    requires v.Obj? && n < |keys| && forall k :: k in keys ==> k in v.fields
    ensures FieldEdges(cluster, w, v, keys[..n + 1]) ==
            FieldEdges(cluster, w, v, keys[..n]) + TargetEdges(cluster, w, keys[n], v.fields[keys[n]])
            + ScanEdges(cluster, w, v.fields[keys[n]])
  {
    hide ScanEdges, TargetEdges;
    assert keys[..n + 1][..n] == keys[..n];
  }

  lemma ItemsOfLonger(cluster: string, w: WorkloadRef, v: Json, n: nat)
    requires v.Arr? && n < |v.items|
    ensures ItemEdges(cluster, w, v, n + 1) == ItemEdges(cluster, w, v, n) + ScanEdges(cluster, w, v.items[n])
  {}

  ghost predicate Finds(es: seq<DependencyEdge>, t: Target) {
    exists i :: 0 <= i < |es| && es[i].secret.namespace == t.namespace && es[i].secret.name == t.name
  }

  lemma FindsEither(a: seq<DependencyEdge>, b: seq<DependencyEdge>, t: Target)
    ensures Finds(a + b, t) <==> Finds(a, t) || Finds(b, t)
  {
    if Finds(b, t) {
      var i :| 0 <= i < |b| && b[i].secret.namespace == t.namespace && b[i].secret.name == t.name;
      assert (a + b)[|a| + i] == b[i];
    }
    if Finds(a, t) {
      var i :| 0 <= i < |a| && a[i].secret.namespace == t.namespace && a[i].secret.name == t.name;
      assert (a + b)[i] == a[i];
    }
  }

  /** The scan finds a Secret exactly when a reference to it occurs, however deep. */
  lemma {:induction false} ScanFindsWhatOccurs(cluster: string, w: WorkloadRef, v: Json, t: Target)
    ensures Finds(ScanEdges(cluster, w, v), t) <==> Occurs(w.namespace, v, t)
    decreases v, 1, 0
  {
    hide Refers, Sorted, Finds;
    match v
    case Obj(m) =>
      FieldsFind(cluster, w, v, SortedKeys(m.Keys), t);
    case Arr(items) =>
      ItemsFind(cluster, w, v, |items|, t);
    case _ =>
      assert !Finds([], t) by { NothingFound(t); }
  }

  lemma NothingFound(t: Target)
    ensures !Finds([], t)
  {}

  lemma TargetIsFound(cluster: string, w: WorkloadRef, k: string, value: Json, t: Target)
    ensures Finds(TargetEdges(cluster, w, k, value), t) <==> Refers(w.namespace, k, value, t)
  {
    hide EqualFold, ParsedTarget, EdgeID;
    if Refers(w.namespace, k, value, t) {
      assert TargetEdges(cluster, w, k, value)[0].secret.name == t.name;
    }
  }

  lemma {:induction false} FieldsFind(cluster: string, w: WorkloadRef, v: Json, keys: seq<string>, t: Target)
    requires v.Obj? && forall k :: k in keys ==> k in v.fields
    ensures Finds(FieldEdges(cluster, w, v, keys), t) <==>
      exists k :: k in keys && (Refers(w.namespace, k, v.fields[k], t) || Occurs(w.namespace, v.fields[k], t))
    decreases v, 0, |keys|
  {
    hide Refers, Finds, TargetEdges, ScanEdges, Occurs;
    if keys == [] {
      NothingFound(t);
    } else {
      var init, k := keys[..|keys| - 1], keys[|keys| - 1];
      assert keys == init + [k];
      FieldsFind(cluster, w, v, init, t);
      ScanFindsWhatOccurs(cluster, w, v.fields[k], t);
      TargetIsFound(cluster, w, k, v.fields[k], t);
      var a, b := FieldEdges(cluster, w, v, init), TargetEdges(cluster, w, k, v.fields[k]);
      FindsEither(a + b, ScanEdges(cluster, w, v.fields[k]), t);
      FindsEither(a, b, t);
    }
  }

  lemma {:induction false} ItemsFind(cluster: string, w: WorkloadRef, v: Json, n: nat, t: Target)
    requires v.Arr? && n <= |v.items|
    ensures Finds(ItemEdges(cluster, w, v, n), t) <==> exists i :: 0 <= i < n && Occurs(w.namespace, v.items[i], t)
    decreases v, 0, n
  {
    hide Finds, ScanEdges, Occurs;
    if n == 0 {
      NothingFound(t);
    } else {
      ItemsFind(cluster, w, v, n - 1, t);
      ScanFindsWhatOccurs(cluster, w, v.items[n - 1], t);
      FindsEither(ItemEdges(cluster, w, v, n - 1), ScanEdges(cluster, w, v.items[n - 1]), t);
    }
  }

  /** A required, inferred reference from the authentication section. */
  ghost predicate Authenticates(cluster: string, w: WorkloadRef, e: DependencyEdge) {
    && e.workload == w && e.id == EdgeID(w, e.secret) && e.secret.cluster == cluster && e.secret.key == ""
    && e.discoveryMode == "infer" && !e.optional
    && e.sources == [DependencySource("confluent.connector.spec.connectRest.authentication.secretRef",
                                      "", "", false, "", "", "", "")]
  }

  /** And every edge of the scan is such a reference. */
  lemma {:induction false} ScannedAuthenticate(cluster: string, w: WorkloadRef, v: Json)
    ensures forall e :: e in ScanEdges(cluster, w, v) ==> Authenticates(cluster, w, e)
    decreases v, 1, 0
  {
    hide EqualFold, ParsedTarget, Sorted, Authenticates;
    match v
    case Obj(m) => FieldsAuthenticate(cluster, w, v, SortedKeys(m.Keys));
    case Arr(items) => ItemsAuthenticate(cluster, w, v, |items|);
    case _ =>
  }

  lemma TargetAuthenticates(cluster: string, w: WorkloadRef, k: string, value: Json)
    ensures forall e :: e in TargetEdges(cluster, w, k, value) ==> Authenticates(cluster, w, e)
  {
    hide EqualFold, ParsedTarget, EdgeID;
  }

  lemma {:induction false} FieldsAuthenticate(cluster: string, w: WorkloadRef, v: Json, keys: seq<string>)
    requires v.Obj? && forall k :: k in keys ==> k in v.fields
    ensures forall e :: e in FieldEdges(cluster, w, v, keys) ==> Authenticates(cluster, w, e)
    decreases v, 0, |keys|
  {
    hide TargetEdges, ScanEdges, Authenticates;
    if keys != [] {
      var k := keys[|keys| - 1];
      FieldsAuthenticate(cluster, w, v, keys[..|keys| - 1]);
      TargetAuthenticates(cluster, w, k, v.fields[k]);
      ScannedAuthenticate(cluster, w, v.fields[k]);
    }
  }

  lemma {:induction false} ItemsAuthenticate(cluster: string, w: WorkloadRef, v: Json, n: nat)
    requires v.Arr? && n <= |v.items|
    ensures forall e :: e in ItemEdges(cluster, w, v, n) ==> Authenticates(cluster, w, e)
    decreases v, 0, n
  {
    hide ScanEdges, Authenticates;
    if n > 0 {
      ItemsAuthenticate(cluster, w, v, n - 1);
      ScannedAuthenticate(cluster, w, v.items[n - 1]);
    }
  }

  function RefTo(t: Target): Json {
    Obj(map["name" := Str(t.name), "namespace" := Str(t.namespace)])
  }

  function Section(t: Target): Json {
    Obj(map["secretRef" := RefTo(t)])
  }

  const SLASHED: Json := Obj(map["basic" := Section(Target("a/b", "c")), "bearer" := Section(Target("a", "b/c"))])

  /** A Connector can name two Secrets that have one Secret key. */
  lemma OneKeyTwoTargets(cluster: string, w: WorkloadRef)
    ensures Finds(ScanEdges(cluster, w, SLASHED), Target("a/b", "c"))
    ensures Finds(ScanEdges(cluster, w, SLASHED), Target("a", "b/c"))
  {
    hide Finds, ScanEdges, Refers, RefTo;
    var s, t := Target("a/b", "c"), Target("a", "b/c");
    ScanFindsWhatOccurs(cluster, w, SLASHED, s);
    ScanFindsWhatOccurs(cluster, w, SLASHED, t);
    SectionRefers(w.namespace, s);
    SectionRefers(w.namespace, t);
    OccursBelow(w.namespace, SLASHED, "basic", s);
    OccursBelow(w.namespace, SLASHED, "bearer", t);
  }

  lemma OccursBelow(namespace: string, v: Json, k: string, t: Target)
    requires v.Obj? && k in v.fields && Occurs(namespace, v.fields[k], t)
    ensures Occurs(namespace, v, t)
  {}

  lemma SectionRefers(namespace: string, t: Target)
    requires t in {Target("a/b", "c"), Target("a", "b/c")}
    ensures Occurs(namespace, Section(t), t)
  {
    hide Refers, RefTo;
    RefToRefers(namespace, t);
    assert "secretRef" in Section(t).fields;
  }

  lemma RefToRefers(namespace: string, t: Target)
    requires t in {Target("a/b", "c"), Target("a", "b/c")}
    ensures Refers(namespace, "secretRef", RefTo(t), t)
  {
    var m := RefTo(t).fields;
    assert TrimSpace("a/b") == "a/b" && TrimSpace("c") == "c" && TrimSpace("a") == "a" && TrimSpace("b/c") == "b/c";
    hide TrimSpace, ToLower;
    assert StringField(m, "name") == t.name && StringField(m, "namespace") == t.namespace;
    assert FirstStringField(m, ["name", "secretName"]) == t.name;
    assert FirstStringField(m, ["namespace"]) == t.namespace;
  }
}

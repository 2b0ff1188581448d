/** Which values of a document a comparison reads, and under which ids. */
module Documents {
  import opened Basics
  import opened Text
  import opened SnapshotDiff

  // ----- Where a document holds a list -----

  /** The document holds the value at the end of the path. */
  ghost predicate Holds(document: Json, path: seq<string>, v: Json)
    decreases |path|
  {
    if path == [] then document == v
    else document.Obj? && path[0] in document.fields && Holds(document.fields[path[0]], path[1..], v)
  }

  /** The path leads nowhere, or to null. */
  ghost predicate Absent(document: Json, path: seq<string>) {
    forall v :: Holds(document, path, v) ==> v == Null
  }

  predicate Present(f: map<string, Json>, key: string) {
    key in f && f[key] != Null
  }

  /** The list a value stands for: itself, what it wraps as data, items or edges, or it alone. */
  ghost predicate StandsFor(v: Json, list: seq<Json>)
    decreases v
  {
    match v
    case Null => false
    case Arr(items) => list == items
    case Obj(f) =>
      if Present(f, "data") then StandsFor(f["data"], list)
      else if Present(f, "items") then StandsFor(f["items"], list)
      else if Present(f, "edges") then StandsFor(f["edges"], list)
      else list == [v]
    case _ => list == [v]
  }

  lemma {:induction false} ValuesAreStoodFor(v: Json, list: seq<Json>)
    ensures StandsFor(v, list) <==> ValuesFrom(v) == Some(list)
    ensures v == Null <==> ValuesFrom(v) == None
    decreases v
  {
    if v.Obj? {
      if "data" in v.fields { ValuesAreStoodFor(v.fields["data"], list); }
      if "items" in v.fields { ValuesAreStoodFor(v.fields["items"], list); }
      if "edges" in v.fields { ValuesAreStoodFor(v.fields["edges"], list); }
    }
  }

  lemma {:induction false} PathIsHeld(document: Json, path: seq<string>, v: Json)
    ensures Holds(document, path, v) ==> PathAt(document, path) == v
    ensures PathAt(document, path) == v && v != Null ==> Holds(document, path, v)
    decreases |path|
  {
    if path != [] && document.Obj? {
      PathIsHeld(FieldAt(document.fields, path[0]), path[1..], v);
      if path[0] !in document.fields {
        NullHoldsNothing(path[1..]);
      }
    }
  }

  lemma {:induction false} NullHoldsNothing(path: seq<string>)
    ensures PathAt(Null, path) == Null
  {}

  /** Where a resource is looked for, in this order. */
  function Places(resource: string): seq<seq<string>> {
    if resource == "edges" then
      [["resources", "dependency-map", "data", "edges"], ["resources", "dependency-map", "edges"],
       ["resources", "dependencyMap", "data", "edges"], ["resources", "edges"], ["resources", "edges", "data"],
       ["data", "edges"], ["edges"]]
    else
      [["resources", resource], ["resources", resource, "data"], ["data", resource], [resource]]
  }

  lemma {:induction false} FirstArrayIs(document: Json, paths: seq<seq<string>>, n: nat, v: Json, list: seq<Json>)
    requires n < |paths| && forall m :: 0 <= m < n ==> Absent(document, paths[m])
    requires Holds(document, paths[n], v) && StandsFor(v, list)
    ensures FirstArray(document, paths) == list
    decreases n
  {
    hide ValuesFrom, PathAt, Holds, StandsFor;
    if n == 0 {
      PathIsHeld(document, paths[0], v);
      ValuesAreStoodFor(v, list);
    } else {
      AbsentIsNone(document, paths[0]);
      FirstArrayIs(document, paths[1..], n - 1, v, list);
    }
  }

  lemma AbsentIsNone(document: Json, path: seq<string>)
    requires Absent(document, path)
    ensures ValuesFrom(PathAt(document, path)) == None
  {
    hide ValuesFrom, PathAt, Holds;
    PathIsHeld(document, path, PathAt(document, path));
    ValuesAreStoodFor(PathAt(document, path), []);
  }

  /** The first place that holds anything gives the list, whatever the later ones hold. */
  lemma FirstPlaceCounts(document: Json, resource: string, n: nat, v: Json, list: seq<Json>)
    requires n < |Places(resource)| && forall m :: 0 <= m < n ==> Absent(document, Places(resource)[m])
    requires Holds(document, Places(resource)[n], v) && StandsFor(v, list)
    ensures ResourceValues(document, resource) == list
  {
    hide FirstArray, Holds, StandsFor, Absent;
    FirstArrayIs(document, Places(resource), n, v, list);
  }

  lemma {:induction false} NothingIsEmpty(document: Json, paths: seq<seq<string>>)
    requires forall m :: 0 <= m < |paths| ==> Absent(document, paths[m])
    ensures FirstArray(document, paths) == []
  {
    hide ValuesFrom, PathAt, Absent;
    if paths != [] {
      AbsentIsNone(document, paths[0]);
      NothingIsEmpty(document, paths[1..]);
    }
  }

  lemma NowhereIsEmpty(document: Json, resource: string)
    requires forall m :: 0 <= m < |Places(resource)| ==> Absent(document, Places(resource)[m])
    ensures ResourceValues(document, resource) == []
  {
    hide FirstArray, Absent;
    NothingIsEmpty(document, Places(resource));
  }

  // ----- Exports -----

  /** Where an export has the resource. */
  function Place(resource: string): seq<string> {
    if resource == "edges" then ["resources", "dependency-map", "data", "edges"] else ["resources", resource]
  }

  /** The document holds the list in the place that exports have for it, in whatever wrapping. */
  ghost predicate Exports(document: Json, resource: string, list: seq<Json>) {
    exists v :: Holds(document, Place(resource), v) && StandsFor(v, list)
  }

  /** A comparison reads exactly the lists that were exported. */
  lemma ExportIsRead(document: Json, resource: string, list: seq<Json>)
    requires Exports(document, resource, list)
    ensures ResourceValues(document, resource) == list
  {
    hide FirstArray, Holds, StandsFor;
    var v :| Holds(document, Place(resource), v) && StandsFor(v, list);
    FirstPlaceCounts(document, resource, 0, v, list);
  }

  /** The agent's responses wrap a list as data; a list may also stand by itself or be wrapped as items. */
  lemma WrappedIsExported(document: Json, resource: string, wrapper: Json, list: seq<Json>)
    requires Holds(document, Place(resource), wrapper)
    requires
      || wrapper == Arr(list)
      || (wrapper.Obj? && "data" in wrapper.fields && wrapper.fields["data"] == Arr(list))
      || (wrapper.Obj? && "data" !in wrapper.fields
          && "items" in wrapper.fields && wrapper.fields["items"] == Arr(list))
    ensures Exports(document, resource, list)
  {
    hide Holds;
    assert StandsFor(wrapper, list);
  }

  // ----- The ids of items -----

  function TextOf(m: map<string, Json>, key: string): string {
    if key in m && m[key].Str? then TrimSpace(m[key].s) else ""
  }

  /** A reference with a namespace and a name, both of them texts that are not blank. */
  predicate Names(m: map<string, Json>) {
    TextOf(m, "namespace") != "" && TextOf(m, "name") != ""
  }

  predicate NamesKind(m: map<string, Json>) {
    Names(m) && TextOf(m, "kind") != ""
  }

  lemma SecretPathOf(m: map<string, Json>, sprint: Printer)
    requires Names(m)
    ensures SecretPath(m, sprint) == TextOf(m, "namespace") + "/" + TextOf(m, "name")
  {
    hide TrimSpace;
    var a, b := StringAt(m, "namespace", sprint), StringAt(m, "name", sprint);
    var parts := [a, b];
    assert parts[1..] == [b] && [b][1..] == [];
    assert NonEmpty([b]) == [TrimSpace(b)];
    assert NonEmpty(parts) == [TrimSpace(a), TrimSpace(b)];
    JoinTwo(TrimSpace(a), TrimSpace(b));
  }

  lemma JoinTwo(a: string, b: string)
    ensures Join([a, b], "/") == a + "/" + b
  {
    assert [a, b][1..] == [b];
  }

  lemma WorkloadPathOf(m: map<string, Json>, sprint: Printer)
    requires NamesKind(m)
    ensures WorkloadPath(m, sprint) ==
      TextOf(m, "namespace") + "/" + ToLower(TextOf(m, "kind")) + "/" + TextOf(m, "name")
  {
    hide TrimSpace;
    var a, b, c := StringAt(m, "namespace", sprint), ToLower(StringAt(m, "kind", sprint)), StringAt(m, "name", sprint);
    var parts := [a, b, c];
    TrimLower(m["kind"].s);
    assert parts[1..] == [b, c] && [b, c][1..] == [c] && [c][1..] == [];
    assert NonEmpty([c]) == [TrimSpace(c)];
    assert NonEmpty([b, c]) == [TrimSpace(b), TrimSpace(c)];
    assert NonEmpty(parts) == [TrimSpace(a), TrimSpace(b), TrimSpace(c)];
    assert [TrimSpace(a), TrimSpace(b), TrimSpace(c)][1..] == [TrimSpace(b), TrimSpace(c)];
    JoinTwo(TrimSpace(b), TrimSpace(c));
  }

  predicate HasObject(m: map<string, Json>, key: string) {
    key in m && m[key].Obj?
  }

  /** Exported items are indexed as the graph keys them: Secrets and workloads by reference, edges by their id. */
  lemma ExportedItemID(value: Json, sprint: Printer)
    requires value.Obj?
    ensures
      var m := value.fields;
      && ("id" in m && m["id"].Str? && m["id"].s != "" ==>
            forall resource :: ItemID(resource, value, sprint) == m["id"].s)
      && ("id" !in m && HasObject(m, "ref") && Names(m["ref"].fields) ==>
            ItemID("secrets", value, sprint) ==
            TextOf(m["ref"].fields, "namespace") + "/" + TextOf(m["ref"].fields, "name"))
      && ("id" !in m && HasObject(m, "ref") && NamesKind(m["ref"].fields) ==>
            ItemID("workloads", value, sprint) ==
            TextOf(m["ref"].fields, "namespace") + "/" + ToLower(TextOf(m["ref"].fields, "kind")) + "/"
            + TextOf(m["ref"].fields, "name"))
  {
    hide TrimSpace, SecretPath, WorkloadPath, ToLower;
    var m := value.fields;
    if HasObject(m, "ref") {
      if Names(m["ref"].fields) { SecretPathOf(m["ref"].fields, sprint); }
      if NamesKind(m["ref"].fields) { WorkloadPathOf(m["ref"].fields, sprint); }
    }
  }

  /** An edge without an id of its own is indexed by its two ends. */
  lemma EdgeItemID(value: Json, sprint: Printer)
    requires value.Obj? && "id" !in value.fields
    requires HasObject(value.fields, "workload") && HasObject(value.fields, "secret")
    requires NamesKind(value.fields["workload"].fields) && Names(value.fields["secret"].fields)
    ensures
      var w, s := value.fields["workload"].fields, value.fields["secret"].fields;
      ItemID("edges", value, sprint) ==
        TextOf(w, "namespace") + "/" + ToLower(TextOf(w, "kind")) + "/" + TextOf(w, "name") + "->"
        + (TextOf(s, "namespace") + "/" + TextOf(s, "name"))
  {
    hide TrimSpace, SecretPath, WorkloadPath, ToLower;
    WorkloadPathOf(value.fields["workload"].fields, sprint);
    SecretPathOf(value.fields["secret"].fields, sprint);
  }

  /** The id tried first: the item's own, or the resource and the position. */
  function OwnID(resource: string, value: Json, n: nat, sprint: Printer): string {
    if ItemID(resource, value, sprint) != "" then ItemID(resource, value, sprint)
    else resource + "[" + Itoa(n) + "]"
  }

  /** The first of own, own#2, own#3 and so on that no earlier item has. */
  ghost predicate FirstOpen(id: string, own: string, earlier: seq<string>) {
    if own !in earlier then id == own
    else exists k :: k >= 2 && id == own + "#" + Itoa(k) && id !in earlier
                     && forall j :: 2 <= j < k ==> own + "#" + Itoa(j) in earlier
  }

  /** Whatever the values, each ends up under the first open id. */
  lemma {:induction false} CollisionsAreNumbered(resource: string, values: seq<Json>, sprint: Printer, n: nat)
    requires n < |values|
    ensures
      var ids := ItemIDs(resource, values, sprint);
      FirstOpen(ids[n], OwnID(resource, values[n], n, sprint), ids[..n])
  {
    hide ItemID, FirstOpen, FreshID, Itoa;
    var last := |values| - 1;
    var earlier := ItemIDs(resource, values[..last], sprint);
    if n < last {
      CollisionsAreNumbered(resource, values[..last], sprint, n);
      assert ItemIDs(resource, values, sprint)[..n] == earlier[..n];
    } else {
      assert ItemIDs(resource, values, sprint)[..n] == earlier;
      FreshIsFirstOpen(BaseID(resource, values[n], n, sprint), earlier);
    }
  }

  lemma FreshIsFirstOpen(own: string, earlier: seq<string>)
    ensures FirstOpen(FreshID(own, set id | id in earlier), own, earlier)
  {
    hide Itoa, FirstFree;
    var taken := set id | id in earlier;
    var k := FirstFree(own, taken, 1);
    assert Candidate(own, 1) == own;
    if own in earlier {
      assert k >= 2 && Candidate(own, k) == own + "#" + Itoa(k);
      forall j | 2 <= j < k ensures own + "#" + Itoa(j) in earlier {
        assert Candidate(own, j) in taken;
      }
    }
  }

  // ----- The comparison, from the exported lists -----

  /** No two values of the list have the same id of their own. */
  ghost predicate DistinctItems(resource: string, values: seq<Json>, sprint: Printer) {
    forall i, j :: 0 <= i < j < |values| ==>
      BaseID(resource, values[i], i, sprint) != BaseID(resource, values[j], j, sprint)
  }

  /** The index holds each value under the id of its own, and nothing else. */
  ghost predicate HoldsOwn(index: map<string, Json>, resource: string, values: seq<Json>, sprint: Printer) {
    && (forall id :: id in index ==> exists i: nat :: i < |values| && BaseID(resource, values[i], i, sprint) == id)
    && (forall i: nat :: i < |values| ==>
          BaseID(resource, values[i], i, sprint) in index && index[BaseID(resource, values[i], i, sprint)] == values[i])
  }

  /** With distinct ids nothing is renamed. */
  lemma {:induction false} IndexOfDistinct(resource: string, values: seq<Json>, sprint: Printer)
    requires DistinctItems(resource, values, sprint)
    ensures HoldsOwn(ItemIndex(resource, values, sprint), resource, values, sprint)
  {
    hide BaseID, FirstFree, FreshID;
    if values != [] {
      var init, n := values[..|values| - 1], |values| - 1;
      assert forall i: nat :: i < n ==> init[i] == values[i];
      IndexOfDistinct(resource, init, sprint);
      var base := BaseID(resource, values[n], n, sprint);
      var earlier := ItemIndex(resource, init, sprint);
      assert base !in earlier;
      FreeIsKept(base, earlier.Keys);
      OneMoreOwn(earlier, resource, init, values[n], sprint);
      assert values == init + [values[n]];
    }
  }

  lemma OneMoreOwn(index: map<string, Json>, resource: string, values: seq<Json>, value: Json, sprint: Printer)
    requires HoldsOwn(index, resource, values, sprint)
    requires BaseID(resource, value, |values|, sprint) !in index
    ensures HoldsOwn(index[BaseID(resource, value, |values|, sprint) := value], resource, values + [value], sprint)
  {
    hide BaseID;
    var longer, base := values + [value], BaseID(resource, value, |values|, sprint);
    assert longer[|values|] == value;
    forall i: nat | i < |values| ensures longer[i] == values[i] {}
    forall id | id in index ensures exists i: nat :: i < |longer| && BaseID(resource, longer[i], i, sprint) == id {
      var i: nat :| i < |values| && BaseID(resource, values[i], i, sprint) == id;
      assert BaseID(resource, longer[i], i, sprint) == id;
    }
  }

  lemma FreeIsKept(base: string, taken: set<string>)
    requires base !in taken
    ensures FreshID(base, taken) == base
  {}

  /** Two exports differ on a resource exactly when the indexes of the two exported lists do. */
  lemma DiffersIsListsDiffer(before: Json, after: Json, resource: string, old_: seq<Json>, new_: seq<Json>,
                             sprint: Printer)
    requires Exports(before, resource, old_) && Exports(after, resource, new_)
    ensures Differs(before, after, resource, sprint) <==>
      ItemIndex(resource, old_, sprint) != ItemIndex(resource, new_, sprint)
  {
    hide ItemIndex, ResourceValues, Exports;
    ExportIsRead(before, resource, old_);
    ExportIsRead(after, resource, new_);
  }

  /** So a comparison of exports reports a change exactly when some of the exported lists differ as indexes. */
  lemma ComparisonIsOfLists(before: Json, after: Json, resources: seq<string>, old_: seq<seq<Json>>,
                            new_: seq<seq<Json>>, sprint: Printer)
    requires |old_| == |new_| == |resources|
    requires forall i :: 0 <= i < |resources| ==>
      Exports(before, resources[i], old_[i]) && Exports(after, resources[i], new_[i])
    ensures AnyDiffers(before, after, resources, sprint) <==>
      exists i :: 0 <= i < |resources|
        && ItemIndex(resources[i], old_[i], sprint) != ItemIndex(resources[i], new_[i], sprint)
  {
    hide ItemIndex, Exports, Differs;
    forall i | 0 <= i < |resources|
      ensures Differs(before, after, resources[i], sprint) <==>
        ItemIndex(resources[i], old_[i], sprint) != ItemIndex(resources[i], new_[i], sprint)
    {
      DiffersIsListsDiffer(before, after, resources[i], old_[i], new_[i], sprint);
    }
  }
}

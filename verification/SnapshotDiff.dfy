/** Comparing two exported snapshots: indexing their items, and the difference of two indexes. */
module SnapshotDiff {
  import opened Basics
  import opened Text
  import opened Ordering

  /** fmt.Sprint, for values that are not strings. */
  type Printer = Json -> string

  // ----- The items of a document -----

  function FieldAt(m: map<string, Json>, key: string): Json {
    if key in m then m[key] else Null
  }

  function StringAt(m: map<string, Json>, key: string, sprint: Printer): string {
    match FieldAt(m, key)
    case Null => ""
    case Str(s) => s
    case v => TrimSpace(sprint(v))
  }

  function MapAt(m: map<string, Json>, key: string): Option<map<string, Json>> {
    match FieldAt(m, key)
    case Obj(f) => Some(f)
    case _ => None
  }

  function NonEmpty(parts: seq<string>): seq<string> {
    if parts == [] then []
    else
      var rest := NonEmpty(parts[1..]);
      if TrimSpace(parts[0]) == "" then rest else [TrimSpace(parts[0])] + rest
  }

  function JoinNonEmpty(sep: string, parts: seq<string>): string {
    Join(NonEmpty(parts), sep)
  }

  function SecretPath(m: map<string, Json>, sprint: Printer): string {
    JoinNonEmpty("/", [StringAt(m, "namespace", sprint), StringAt(m, "name", sprint)])
  }

  function WorkloadPath(m: map<string, Json>, sprint: Printer): string {
    JoinNonEmpty("/", [StringAt(m, "namespace", sprint), ToLower(StringAt(m, "kind", sprint)),
      StringAt(m, "name", sprint)])
  }

  /** The id an item carries or is given by its reference; "" when it has neither. */
  function ItemID(resource: string, value: Json, sprint: Printer): string
    decreases value
  {
    if !value.Obj? then ""
    else
      var m := value.fields;
      if StringAt(m, "id", sprint) != "" then StringAt(m, "id", sprint)
      else if resource == "secrets" then
        (match MapAt(m, "ref") case Some(ref) => SecretPath(ref, sprint) case None => SecretPath(m, sprint))
      else if resource == "workloads" then
        (match MapAt(m, "ref") case Some(ref) => WorkloadPath(ref, sprint) case None => WorkloadPath(m, sprint))
      else if resource == "edges" then
        (match (MapAt(m, "workload"), MapAt(m, "secret"))
         case (Some(w), Some(s)) =>
           var left, right := WorkloadPath(w, sprint), SecretPath(s, sprint);
           if left == "" || right == "" then "" else left + "->" + right
         case _ => "")
      else if "ref" in m && m["ref"].Obj? then ItemID(resource, m["ref"], sprint)
      else StringAt(m, "name", sprint)
  }

  /** The list a value stands for, unwrapping `data`, `items` and `edges`. */
  function ValuesFrom(value: Json): Option<seq<Json>>
    decreases value
  {
    match value
    case Null => None
    case Arr(items) => Some(items)
    case Obj(f) =>
      if "data" in f && ValuesFrom(f["data"]).Some? then ValuesFrom(f["data"])
      else if "items" in f && ValuesFrom(f["items"]).Some? then ValuesFrom(f["items"])
      else if "edges" in f && ValuesFrom(f["edges"]).Some? then ValuesFrom(f["edges"])
      else Some([value])
    case _ => Some([value])
  }

  function PathAt(value: Json, parts: seq<string>): Json
    decreases |parts|
  {
    if parts == [] then value
    else if value.Obj? then PathAt(FieldAt(value.fields, parts[0]), parts[1..])
    else Null
  }

  function FirstArray(document: Json, paths: seq<seq<string>>): seq<Json>
    decreases |paths|
  {
    if paths == [] then []
    else match ValuesFrom(PathAt(document, paths[0]))
      case Some(values) => values
      case None => FirstArray(document, paths[1..])
  }

  function ResourcePaths(resource: string): seq<seq<string>> {
    if resource == "edges" then
      [["resources", "dependency-map", "data", "edges"], ["resources", "dependency-map", "edges"],
       ["resources", "dependencyMap", "data", "edges"], ["resources", "edges"], ["resources", "edges", "data"],
       ["data", "edges"], ["edges"]]
    else
      [["resources", resource], ["resources", resource, "data"], ["data", resource], [resource]]
  }

  function ResourceValues(document: Json, resource: string): seq<Json> {
    FirstArray(document, ResourcePaths(resource))
  }

  // ----- The index: every value under an id of its own -----

  /** The id of the item at a position, before collisions. */
  function BaseID(resource: string, value: Json, position: nat, sprint: Printer): string {
    var id := ItemID(resource, value, sprint);
    if id == "" then resource + "[" + Itoa(position) + "]" else id
  }

  /** The ids tried for an item: its own, then with #2, #3 and so on. */
  function Candidate(base: string, attempt: nat): string {
    if attempt <= 1 then base else base + "#" + Itoa(attempt)
  }

  lemma CandidatesDiffer(base: string, i: nat, j: nat)
    requires 1 <= i < j
    ensures Candidate(base, i) != Candidate(base, j)
  {
    hide Itoa;
    if i > 1 {
      var prefix := base + "#";
      assert Candidate(base, i)[|prefix|..] == Itoa(i) && Candidate(base, j)[|prefix|..] == Itoa(j);
      if Itoa(i) == Itoa(j) { ItoaIsInjective(i, j); }
    } else {
      assert |Candidate(base, j)| > |base|;
    }
  }

  ghost function Tried(base: string, attempt: nat): set<string> {
    set j | 1 <= j < attempt :: Candidate(base, j)
  }

  /** Candidates are distinct, so each one that is taken uses up a taken id. */
  lemma {:induction false} TriedGrows(base: string, attempt: nat)
    requires attempt >= 1
    ensures Candidate(base, attempt) !in Tried(base, attempt)
    ensures Tried(base, attempt + 1) == Tried(base, attempt) + {Candidate(base, attempt)}
    ensures |Tried(base, attempt)| == attempt - 1
  {
    hide Candidate;
    forall j | 1 <= j < attempt ensures Candidate(base, j) != Candidate(base, attempt) {
      CandidatesDiffer(base, j, attempt);
    }
    if attempt > 1 {
      TriedGrows(base, attempt - 1);
    } else {
      assert Tried(base, 1) == {};
    }
  }

  ghost function Untried(base: string, taken: set<string>, attempt: nat): nat {
    |taken - Tried(base, attempt)|
  }

  /** The first candidate that is free, from a given attempt on. */
  function FirstFree(base: string, taken: set<string>, attempt: nat): (k: nat)
    requires attempt >= 1
    ensures k >= attempt && Candidate(base, k) !in taken
    ensures forall j :: attempt <= j < k ==> Candidate(base, j) in taken
    decreases Untried(base, taken, attempt)
  {
    hide Candidate, Untried;
    if Candidate(base, attempt) !in taken then attempt
    else
      FewerUntried(base, taken, attempt);
      FirstFree(base, taken, attempt + 1)
  }

  lemma FewerUntried(base: string, taken: set<string>, attempt: nat)
    requires attempt >= 1 && Candidate(base, attempt) in taken
    ensures Untried(base, taken, attempt + 1) < Untried(base, taken, attempt)
  {
    hide Candidate, Tried;
    TriedGrows(base, attempt);
    var untried := taken - Tried(base, attempt);
    assert taken - Tried(base, attempt + 1) == untried - {Candidate(base, attempt)};
  }

  /** The search ends within one more attempt than there are ids taken. */
  lemma FirstFreeIsSoon(base: string, taken: set<string>)
    ensures 1 <= FirstFree(base, taken, 1) <= |taken| + 1
  {
    hide Candidate, FirstFree;
    var k := FirstFree(base, taken, 1);
    TriedGrows(base, k);
    assert Tried(base, k) <= taken;
    assert taken == Tried(base, k) + (taken - Tried(base, k));
  }

  function FreshID(base: string, taken: set<string>): string {
    Candidate(base, FirstFree(base, taken, 1))
  }

  /** The id each value ends up under. */
  function ItemIDs(resource: string, values: seq<Json>, sprint: Printer): (ids: seq<string>)
    ensures |ids| == |values|
  {
    if values == [] then []
    else
      var n := |values| - 1;
      var earlier := ItemIDs(resource, values[..n], sprint);
      earlier + [FreshID(BaseID(resource, values[n], n, sprint), set id | id in earlier)]
  }

  ghost predicate IsIndex(index: map<string, Json>, ids: seq<string>, values: seq<Json>) {
    && |ids| == |values|
    && (forall i, j :: 0 <= i < j < |ids| ==> ids[i] != ids[j])
    && (forall id :: id in index <==> id in ids)
    && (forall i :: 0 <= i < |ids| ==> ids[i] in index && index[ids[i]] == values[i])
  }

  /** The values of a resource under their ids. */
  function ItemIndex(resource: string, values: seq<Json>, sprint: Printer): map<string, Json> {
    if values == [] then map[]
    else
      var n := |values| - 1;
      var earlier := ItemIndex(resource, values[..n], sprint);
      earlier[FreshID(BaseID(resource, values[n], n, sprint), earlier.Keys) := values[n]]
  }

  /** indexSnapshotItems. */
  method IndexItems(resource: string, values: seq<Json>, sprint: Printer) returns (indexed: map<string, Json>)
    ensures indexed == ItemIndex(resource, values, sprint)
  {
    hide BaseID, FreshID;
    indexed := map[];
    for n := 0 to |values|
      invariant indexed == ItemIndex(resource, values[..n], sprint)
    {
      assert values[..n + 1][..n] == values[..n];
      var originalID := BaseID(resource, values[n], n, sprint);
      var id := NextFree(originalID, indexed);
      indexed := indexed[id := values[n]];
    }
    assert values[..|values|] == values;
  }

  /** Nothing is overwritten: every value has an id of its own, whatever the values. */
  lemma {:induction false} IndexLosesNothing(resource: string, values: seq<Json>, sprint: Printer)
    ensures
      var index, ids := ItemIndex(resource, values, sprint), ItemIDs(resource, values, sprint);
      && IsIndex(index, ids, values)
      && index.Keys == (set id | id in ids)
      && |index| == |values|
  {
    hide BaseID, FreshID, IsIndex;
    if values == [] {
      assert IsIndex(map[], [], []) by { EmptyIndex(); }
    } else {
      var n := |values| - 1;
      IndexLosesNothing(resource, values[..n], sprint);
      var earlier, ids := ItemIndex(resource, values[..n], sprint), ItemIDs(resource, values[..n], sprint);
      var base := BaseID(resource, values[n], n, sprint);
      FreshIDIsFree(base, earlier.Keys);
      var id := FreshID(base, earlier.Keys);
      IndexOfLonger(earlier, ids, values[..n], id, values[n]);
      assert values == values[..n] + [values[n]];
    }
  }

  lemma FreshIDIsFree(base: string, taken: set<string>)
    ensures FreshID(base, taken) !in taken
  {}

  lemma EmptyIndex()
    ensures IsIndex(map[], [], [])
  {}

  lemma IndexOfLonger(index: map<string, Json>, ids: seq<string>, values: seq<Json>, id: string, value: Json)
    requires IsIndex(index, ids, values) && id !in index
    ensures IsIndex(index[id := value], ids + [id], values + [value])
    ensures index[id := value].Keys == set k | k in ids + [id]
  {}

  /** The inner loop, which has no bound of its own: it ends because ids run out. */
  method NextFree(originalID: string, indexed: map<string, Json>) returns (id: string)
    ensures id == FreshID(originalID, indexed.Keys)
    ensures id !in indexed
  {
    hide FirstFree;
    id := originalID;
    var collision := 2;
    while id in indexed
      invariant 2 <= collision <= |indexed| + 2
      invariant id == Candidate(originalID, collision - 1)
      invariant forall j :: 1 <= j < collision - 1 ==> Candidate(originalID, j) in indexed
      decreases |indexed| + 2 - collision
    {
      AttemptsAreFew(originalID, indexed.Keys, collision);
      id := originalID + "#" + Itoa(collision);
      collision := collision + 1;
    }
    FirstFreeIs(originalID, indexed.Keys, collision - 1);
  }

  lemma AttemptsAreFew(base: string, taken: set<string>, collision: nat)
    requires collision >= 2
    requires forall j :: 1 <= j < collision ==> Candidate(base, j) in taken
    ensures collision <= |taken| + 1
  {
    hide Candidate;
    TriedGrows(base, collision);
    assert Tried(base, collision) <= taken;
    assert taken == Tried(base, collision) + (taken - Tried(base, collision));
  }

  lemma FirstFreeIs(base: string, taken: set<string>, k: nat)
    requires k >= 1 && Candidate(base, k) !in taken
    requires forall j :: 1 <= j < k ==> Candidate(base, j) in taken
    ensures FirstFree(base, taken, 1) == k
  {}

  // ----- The difference of two indexes -----

  datatype DiffItem = DiffItem(id: string, before: Json, after: Json)

  datatype ResourceDiff = ResourceDiff(name: string, added: seq<DiffItem>, removed: seq<DiffItem>,
    changed: seq<DiffItem>)

  function Item(id: string, before: map<string, Json>, after: map<string, Json>): DiffItem {
    DiffItem(id, FieldAt(before, id), FieldAt(after, id))
  }

  function Items(ids: seq<string>, before: map<string, Json>, after: map<string, Json>): (r: seq<DiffItem>)
    ensures |r| == |ids|
    ensures forall i :: 0 <= i < |ids| ==> r[i] == Item(ids[i], before, after)
  {
    seq(|ids|, i requires 0 <= i < |ids| => Item(ids[i], before, after))
  }

  function Differing(before: map<string, Json>, after: map<string, Json>): set<string> {
    set id | id in before.Keys * after.Keys && before[id] != after[id]
  }

  /** What is only new, what is only old, and what both have but not alike, in order. */
  function DiffOf(name: string, before: map<string, Json>, after: map<string, Json>): ResourceDiff {
    ResourceDiff(
      name,
      Items(SortedKeys(after.Keys - before.Keys), before, after),
      Items(SortedKeys(before.Keys - after.Keys), before, after),
      Items(SortedKeys(Differing(before, after)), before, after))
  }

  /** The difference restricted to the ids of a list. */
  ghost function DiffAmong(name: string, ids: seq<string>, before: map<string, Json>,
      after: map<string, Json>): ResourceDiff
  {
    ResourceDiff(
      name,
      Items(Restrict(ids, after.Keys - before.Keys), before, after),
      Items(Restrict(ids, before.Keys - after.Keys), before, after),
      Items(Restrict(ids, Differing(before, after)), before, after))
  }

  method DiffIndexes(name: string, oldItems: map<string, Json>, newItems: map<string, Json>) returns (out: ResourceDiff)
    ensures out == DiffOf(name, oldItems, newItems)
  {
    hide SortedKeys, DiffAmong, DiffOf;
    var ids := oldItems.Keys + newItems.Keys;
    var sortedIDs := SortedKeys(ids);
    out := ResourceDiff(name, [], [], []);
    DiffAmongNone(name, oldItems, newItems);
    for n := 0 to |sortedIDs|
      invariant out == DiffAmong(name, sortedIDs[..n], oldItems, newItems)
    {
      assert sortedIDs[..n + 1] == sortedIDs[..n] + [sortedIDs[n]];
      out := DiffOne(out, sortedIDs[n], oldItems, newItems, name, sortedIDs[..n]);
    }
    assert sortedIDs[..|sortedIDs|] == sortedIDs;
    DiffAmongAll(name, oldItems, newItems);
  }

  /** One id of either index. */
  method DiffOne(soFar: ResourceDiff, id: string, oldItems: map<string, Json>, newItems: map<string, Json>,
                 ghost name: string, ghost ids: seq<string>)
    returns (out: ResourceDiff)
    requires soFar == DiffAmong(name, ids, oldItems, newItems)
    ensures out == DiffAmong(name, ids + [id], oldItems, newItems)
  {
    hide Items, Item, Differing, Restrict;
    out := soFar;
    ItemOf(id, oldItems, newItems);
    ListOfLonger(ids, id, newItems.Keys - oldItems.Keys, oldItems, newItems);
    ListOfLonger(ids, id, oldItems.Keys - newItems.Keys, oldItems, newItems);
    ListOfLonger(ids, id, Differing(oldItems, newItems), oldItems, newItems);
    if id !in oldItems && id in newItems {
      out := out.(added := out.added + [DiffItem(id, Null, newItems[id])]);
    } else if id in oldItems && id !in newItems {
      out := out.(removed := out.removed + [DiffItem(id, oldItems[id], Null)]);
    } else if id in oldItems && id in newItems && oldItems[id] != newItems[id] {
      out := out.(changed := out.changed + [DiffItem(id, oldItems[id], newItems[id])]);
    }
  }

  lemma DiffAmongNone(name: string, before: map<string, Json>, after: map<string, Json>)
    ensures DiffAmong(name, [], before, after) == ResourceDiff(name, [], [], [])
  {}

  lemma DiffAmongAll(name: string, before: map<string, Json>, after: map<string, Json>)
    ensures DiffAmong(name, SortedKeys(before.Keys + after.Keys), before, after) == DiffOf(name, before, after)
  {
    hide SortedKeys, Items, Restrict, Differing;
    var all := before.Keys + after.Keys;
    RestrictSortedKeys(all, after.Keys - before.Keys);
    RestrictSortedKeys(all, before.Keys - after.Keys);
    DifferingAreShared(before, after);
    RestrictSortedKeys(all, Differing(before, after));
  }

  lemma ListOfLonger(ids: seq<string>, id: string, keep: set<string>, before: map<string, Json>,
                     after: map<string, Json>)
    ensures Items(Restrict(ids + [id], keep), before, after) ==
            Items(Restrict(ids, keep), before, after) + if id in keep then [Item(id, before, after)] else []
  {}

  lemma ItemOf(id: string, before: map<string, Json>, after: map<string, Json>)
    ensures Item(id, before, after) ==
      DiffItem(id, if id in before then before[id] else Null, if id in after then after[id] else Null)
    ensures id in Differing(before, after) <==> id in before && id in after && before[id] != after[id]
  {}

  lemma DifferingAreShared(before: map<string, Json>, after: map<string, Json>)
    ensures Differing(before, after) <= before.Keys * after.Keys
  {}

  function IDs(items: seq<DiffItem>): set<string> {
    set x | x in items :: x.id
  }

  /** Writing each item's new value. */
  function Writes(m: map<string, Json>, items: seq<DiffItem>): map<string, Json> {
    if items == [] then m
    else Writes(m, items[..|items| - 1])[items[|items| - 1].id := items[|items| - 1].after]
  }

  function Patch(m: map<string, Json>, d: ResourceDiff): map<string, Json> {
    Writes(Writes(m - IDs(d.removed), d.added), d.changed)
  }

  lemma {:induction false} WritesOfItems(m: map<string, Json>, ids: seq<string>, before: map<string, Json>,
                                         after: map<string, Json>, id: string)
    ensures
      var r := Writes(m, Items(ids, before, after));
      && (id in r <==> id in m || id in ids)
      && (id in ids ==> r[id] == FieldAt(after, id))
      && (id in m && id !in ids ==> r[id] == m[id])
  {
    hide FieldAt;
    if ids != [] {
      var init := ids[..|ids| - 1];
      WritesOfItems(m, init, before, after, id);
      var items := Items(ids, before, after);
      assert items[..|ids| - 1] == Items(init, before, after);
      assert ids == init + [ids[|ids| - 1]];
    }
  }

  lemma IDsOfItems(ids: seq<string>, before: map<string, Json>, after: map<string, Json>)
    ensures IDs(Items(ids, before, after)) == set id | id in ids
  {}

  /** The difference turns the old index into the new one. */
  lemma DiffIsPatch(name: string, before: map<string, Json>, after: map<string, Json>)
    ensures Patch(before, DiffOf(name, before, after)) == after
  {
    hide SortedKeys, Writes, IDs;
    var d := DiffOf(name, before, after);
    var gone, novel, changed := SortedKeys(before.Keys - after.Keys), SortedKeys(after.Keys - before.Keys),
      SortedKeys(Differing(before, after));
    IDsOfItems(gone, before, after);
    var kept := before - IDs(d.removed);
    var r := Patch(before, d);
    forall id ensures id in r <==> id in after
      ensures id in after ==> r[id] == after[id]
    {
      WritesOfItems(kept, novel, before, after, id);
      WritesOfItems(Writes(kept, d.added), changed, before, after, id);
    }
  }

  ghost predicate IDSorted(items: seq<DiffItem>) {
    forall i, j :: 0 <= i < j < |items| ==> Less(items[i].id, items[j].id)
  }

  /** Each list is in order, and no id is in two of them. */
  lemma DiffListsAreDisjoint(name: string, before: map<string, Json>, after: map<string, Json>)
    ensures
      var d := DiffOf(name, before, after);
      && IDSorted(d.added) && IDSorted(d.removed) && IDSorted(d.changed)
      && IDs(d.added) !! IDs(d.removed) !! IDs(d.changed)
  {
    hide SortedKeys, IDs, Items, IDSorted, Differing;
    var novel, gone, differing := SortedKeys(after.Keys - before.Keys), SortedKeys(before.Keys - after.Keys),
      SortedKeys(Differing(before, after));
    ItemsInOrder(novel, before, after);
    ItemsInOrder(gone, before, after);
    ItemsInOrder(differing, before, after);
    IDsOfItems(novel, before, after);
    IDsOfItems(gone, before, after);
    IDsOfItems(differing, before, after);
    DifferingAreShared(before, after);
  }

  lemma ItemsInOrder(ids: seq<string>, before: map<string, Json>, after: map<string, Json>)
    requires Sorted(ids)
    ensures IDSorted(Items(ids, before, after))
  {}

  function Flip(items: seq<DiffItem>): (r: seq<DiffItem>)
    ensures |r| == |items|
    ensures forall i :: 0 <= i < |items| ==> r[i] == DiffItem(items[i].id, items[i].after, items[i].before)
  {
    seq(|items|, i requires 0 <= i < |items| => DiffItem(items[i].id, items[i].after, items[i].before))
  }

  /** Comparing the other way round swaps the lists, and each item's two values. */
  lemma DiffOfSwapped(name: string, before: map<string, Json>, after: map<string, Json>)
    ensures
      var d := DiffOf(name, before, after);
      DiffOf(name, after, before) == ResourceDiff(name, Flip(d.removed), Flip(d.added), Flip(d.changed))
  {
    hide SortedKeys, Items, Flip;
    assert Differing(after, before) == Differing(before, after);
    FlipOfItems(SortedKeys(before.Keys - after.Keys), before, after);
    FlipOfItems(SortedKeys(after.Keys - before.Keys), before, after);
    FlipOfItems(SortedKeys(Differing(before, after)), before, after);
  }

  lemma FlipOfItems(ids: seq<string>, before: map<string, Json>, after: map<string, Json>)
    ensures Flip(Items(ids, before, after)) == Items(ids, after, before)
  {}

  predicate Unchanged(d: ResourceDiff) {
    |d.added| == 0 && |d.removed| == 0 && |d.changed| == 0
  }

  lemma UnchangedIsEqual(name: string, before: map<string, Json>, after: map<string, Json>)
    ensures Unchanged(DiffOf(name, before, after)) <==> before == after
  {}

  // ----- The whole comparison -----

  datatype DiffSummary = DiffSummary(hasChanges: bool, added: nat, removed: nat, changed: nat)

  datatype DiffDocument = DiffDocument(summary: DiffSummary, resources: seq<ResourceDiff>)

  datatype Change = Added | Removed | Changed

  function Size(d: ResourceDiff, change: Change): nat {
    match change
    case Added => |d.added|
    case Removed => |d.removed|
    case Changed => |d.changed|
  }

  function Total(ds: seq<ResourceDiff>, change: Change): nat {
    if ds == [] then 0 else Total(ds[..|ds| - 1], change) + Size(ds[|ds| - 1], change)
  }

  /** The items of one resource of a document. */
  function DocumentIndex(document: Json, resource: string, sprint: Printer): map<string, Json> {
    ItemIndex(resource, ResourceValues(document, resource), sprint)
  }

  method DiffResource(resource: string, before: Json, after: Json, sprint: Printer) returns (out: ResourceDiff)
    ensures out == DiffOf(resource, DocumentIndex(before, resource, sprint), DocumentIndex(after, resource, sprint))
  {
    hide ItemIndex, ResourceValues, DiffOf;
    var oldItems := IndexItems(resource, ResourceValues(before, resource), sprint);
    var newItems := IndexItems(resource, ResourceValues(after, resource), sprint);
    out := DiffIndexes(resource, oldItems, newItems);
  }

  /** Each total counts the items of its own list, resource by resource. */
  lemma TotalOfLonger(ds: seq<ResourceDiff>, d: ResourceDiff)
    ensures Total([], Added) == Total([], Removed) == Total([], Changed) == 0
    ensures Total(ds + [d], Added) == Total(ds, Added) + |d.added|
    ensures Total(ds + [d], Removed) == Total(ds, Removed) + |d.removed|
    ensures Total(ds + [d], Changed) == Total(ds, Changed) + |d.changed|
  {}

  /** The resources on which the two documents differ. */
  ghost predicate Differs(before: Json, after: Json, resource: string, sprint: Printer) {
    DocumentIndex(before, resource, sprint) != DocumentIndex(after, resource, sprint)
  }

  ghost predicate AnyDiffers(before: Json, after: Json, resources: seq<string>, sprint: Printer) {
    exists i :: 0 <= i < |resources| && Differs(before, after, resources[i], sprint)
  }

  lemma NothingDiffers(before: Json, after: Json, sprint: Printer)
    ensures !AnyDiffers(before, after, [], sprint)
  {}

  lemma AnyDiffersOfLonger(before: Json, after: Json, resources: seq<string>, resource: string, sprint: Printer)
    ensures AnyDiffers(before, after, resources + [resource], sprint) <==>
            AnyDiffers(before, after, resources, sprint) || Differs(before, after, resource, sprint)
  {
    hide Differs;
    var longer := resources + [resource];
    assert longer[|resources|] == resource;
    assert forall i :: 0 <= i < |resources| ==> longer[i] == resources[i];
  }

  /** buildSnapshotDiff, from the decoded documents: it reports a change exactly when there is one. */
  method BuildDiff(before: Json, after: Json, resources: seq<string>, sprint: Printer) returns (diff: DiffDocument)
    ensures |diff.resources| == |resources|
    ensures forall i :: 0 <= i < |resources| ==>
      diff.resources[i] == DiffOf(resources[i], DocumentIndex(before, resources[i], sprint),
        DocumentIndex(after, resources[i], sprint))
    ensures diff.summary.added == Total(diff.resources, Added)
    ensures diff.summary.removed == Total(diff.resources, Removed)
    ensures diff.summary.changed == Total(diff.resources, Changed)
    ensures diff.summary.hasChanges <==> AnyDiffers(before, after, resources, sprint)
  {
    hide DocumentIndex, DiffOf, AnyDiffers;
    var out: seq<ResourceDiff> := [];
    var added, removed, changed := 0, 0, 0;
    assert !AnyDiffers(before, after, resources[..0], sprint) by { NothingDiffers(before, after, sprint); }
    for n := 0 to |resources|
      invariant |out| == n
      invariant forall i :: 0 <= i < n ==>
        out[i] == DiffOf(resources[i], DocumentIndex(before, resources[i], sprint),
          DocumentIndex(after, resources[i], sprint))
      invariant added == Total(out, Added) && removed == Total(out, Removed) && changed == Total(out, Changed)
      invariant added > 0 || removed > 0 || changed > 0 <==> AnyDiffers(before, after, resources[..n], sprint)
    {
      var d := DiffResource(resources[n], before, after, sprint);
      UnchangedIsEqual(resources[n], DocumentIndex(before, resources[n], sprint),
        DocumentIndex(after, resources[n], sprint));
      AnyDiffersOfLonger(before, after, resources[..n], resources[n], sprint);
      assert resources[..n + 1] == resources[..n] + [resources[n]];
      TotalOfLonger(out, d);
      added, removed, changed := added + |d.added|, removed + |d.removed|, changed + |d.changed|;
      out := out + [d];
    }
    assert resources[..|resources|] == resources;
    diff := DiffDocument(DiffSummary(added > 0 || removed > 0 || changed > 0, added, removed, changed), out);
  }
}

/** Paging of list responses, and the nodes sent with a page of edges. */
module Paging {
  import opened Basics
  import opened Text
  import opened Ordering
  import opened GraphTypes
  import opened Ids
  import opened GraphSpec
  import opened Consistency
  import opened QuerySpec
  import opened Queries

  const DEFAULT_LIMIT: nat := 100
  const MAX_LIMIT: nat := 1000

  datatype PageRequest = PageRequest(limit: nat, offset: nat)

  datatype PageResponse = PageResponse(limit: nat, offset: nat, total: nat, returned: nat, nextOffset: Option<nat>)

  /** A limit that is absent is 100; otherwise it must be a positive number, cut at 1000. */
  function LimitOf(raw: string): (r: Result<nat>)
    ensures r.Ok? ==> 1 <= r.value <= MAX_LIMIT
  {
    if TrimSpace(raw) == "" then Ok(DEFAULT_LIMIT)
    else match Atoi(TrimSpace(raw))
      case None => Err
      case Some(n) => if n < 1 then Err else if n > MAX_LIMIT then Ok(MAX_LIMIT) else Ok(n)
  }

  function OffsetOf(raw: string): Result<nat> {
    if TrimSpace(raw) == "" then Ok(0)
    else match Atoi(TrimSpace(raw))
      case None => Err
      case Some(n) => if n < 0 then Err else Ok(n)
  }

  /** Both query parameters, where either may be refused. */
  method ParsePagination(rawLimit: string, rawOffset: string) returns (r: Result<PageRequest>)
    ensures r.Ok? <==> LimitOf(rawLimit).Ok? && OffsetOf(rawOffset).Ok?
    ensures r.Ok? ==> r.value == PageRequest(LimitOf(rawLimit).value, OffsetOf(rawOffset).value)
  {
    var out := PageRequest(DEFAULT_LIMIT, 0);
    var raw := TrimSpace(rawLimit);
    if raw != "" {
      var parsed := Atoi(raw);
      if parsed.None? || parsed.value < 1 {
        return Err;
      }
      var limit := parsed.value;
      if limit > MAX_LIMIT {
        limit := MAX_LIMIT;
      }
      out := out.(limit := limit);
    }
    raw := TrimSpace(rawOffset);
    if raw != "" {
      var parsed := Atoi(raw);
      if parsed.None? || parsed.value < 0 {
        return Err;
      }
      out := out.(offset := parsed.value);
    }
    r := Ok(out);
  }

  function Smaller(a: nat, b: nat): nat {
    if a > b then b else a
  }

  function Paginate<T>(items: seq<T>, request: PageRequest): (seq<T>, PageResponse) {
    var total := |items|;
    var start := Smaller(request.offset, total);
    var end := Smaller(start + request.limit, total);
    (items[start..end],
     PageResponse(request.limit, request.offset, total, end - start, if end < total then Some(end) else None))
  }

  /**
   A page is the stretch of the list that was asked for, as much of it as there is; the
   response says what was asked, how much came, how much there is, and where to go on if
   anything is left.
   */
  lemma PageDescribesItself<T>(items: seq<T>, request: PageRequest)
    ensures
      var (page, response) := Paginate(items, request);
      && |page| <= request.limit
      && (forall i :: 0 <= i < |page| ==> request.offset + i < |items| && page[i] == items[request.offset + i])
      && (request.offset + |page| < |items| ==> |page| == request.limit)
      && response.limit == request.limit && response.offset == request.offset
      && response.total == |items| && response.returned == |page|
      && response.nextOffset == (if request.offset + |page| < |items| then Some(request.offset + |page|) else None)
  {}

  /**
   A client's walk: ask for a page, then for the one at nextOffset as the response printed
   it, until there is none.
   */
  function Walk<T>(items: seq<T>, rawLimit: string, rawOffset: string): (pages: seq<seq<T>>)
    requires |items| <= MAX_INT64
    requires LimitOf(rawLimit).Ok? && OffsetOf(rawOffset).Ok?
    ensures pages != []
    decreases |items| - Smaller(OffsetOf(rawOffset).value, |items|)
  {
    var (page, response) := Paginate(items, PageRequest(LimitOf(rawLimit).value, OffsetOf(rawOffset).value));
    match response.nextOffset
    case None => [page]
    case Some(next) =>
      PrintedOffsetIsRead(next);
      [page] + Walk(items, rawLimit, Itoa(next))
  }

  lemma PrintedOffsetIsRead(n: nat)
    requires n <= MAX_INT64
    ensures OffsetOf(Itoa(n)) == Ok(n)
  {
    hide Atoi, TrimSpace, Itoa;
    AtoiOfItoa(n);
  }

  /** A printed limit is read as itself up to 1000, and refused when it is not positive; an absent one is 100. */
  lemma PrintedLimitIsRead(n: nat)
    requires n <= MAX_INT64
    ensures LimitOf(Itoa(n)) == if n == 0 then Err else if n <= 1000 then Ok(n) else Ok(1000)
    ensures LimitOf("") == Ok(100)
  {
    hide Atoi, Itoa;
    assert TrimSpace("") == "";
    hide TrimSpace;
    AtoiOfItoa(n);
  }

  function Concat<T>(pages: seq<seq<T>>): seq<T> {
    if pages == [] then [] else pages[0] + Concat(pages[1..])
  }

  lemma ConcatAfter<T>(page: seq<T>, rest: seq<seq<T>>)
    ensures Concat([page] + rest) == page + Concat(rest)
  {
    assert ([page] + rest)[1..] == rest;
  }

  /** All pages are full but the last, which is empty only if it is the only one. */
  ghost predicate Filled<T>(pages: seq<seq<T>>, limit: nat) {
    && pages != []
    && (forall i :: 0 <= i < |pages| - 1 ==> |pages[i]| == limit)
    && |pages[|pages| - 1]| <= limit
    && (|pages| > 1 ==> |pages[|pages| - 1]| > 0)
  }

  lemma FilledAfter<T>(page: seq<T>, rest: seq<seq<T>>, limit: nat)
    requires |page| == limit && Filled(rest, limit) && Concat(rest) != []
    ensures Filled([page] + rest, limit)
  {
    if |rest| == 1 {
      ConcatAfter(rest[0], []);
      assert rest == [rest[0]] + [];
    }
  }

  /** A walk from any offset sees the rest of the list, in full pages up to the last. */
  lemma {:induction false} WalkFrom<T>(items: seq<T>, rawLimit: string, rawOffset: string)
    requires |items| <= MAX_INT64
    requires LimitOf(rawLimit).Ok? && OffsetOf(rawOffset).Ok?
    ensures
      var pages := Walk(items, rawLimit, rawOffset);
      && Concat(pages) == items[Smaller(OffsetOf(rawOffset).value, |items|)..]
      && Filled(pages, LimitOf(rawLimit).value)
    decreases |items| - Smaller(OffsetOf(rawOffset).value, |items|)
  {
    hide LimitOf, OffsetOf, Itoa, Filled, Concat;
    var offset := OffsetOf(rawOffset).value;
    var (page, response) := Paginate(items, PageRequest(LimitOf(rawLimit).value, offset));
    if response.nextOffset.Some? {
      var next := response.nextOffset.value;
      PrintedOffsetIsRead(next);
      WalkFrom(items, rawLimit, Itoa(next));
      var rest := Walk(items, rawLimit, Itoa(next));
      ConcatAfter(page, rest);
      FilledAfter(page, rest, LimitOf(rawLimit).value);
      assert items[offset..] == items[offset..next] + items[next..];
    } else {
      OnePage(page, LimitOf(rawLimit).value);
    }
  }

  lemma OnePage<T>(page: seq<T>, limit: nat)
    requires |page| <= limit
    ensures Concat([page]) == page && Filled([page], limit)
  {
    ConcatAfter(page, []);
    assert [page] == [page] + [];
  }

  /** Following nextOffset from the start visits every item once, in order. */
  lemma WalkIsWhole<T>(items: seq<T>, rawLimit: string)
    requires |items| <= MAX_INT64 && LimitOf(rawLimit).Ok?
    ensures OffsetOf("") == Ok(0)
    ensures Concat(Walk(items, rawLimit, "")) == items
  {
    hide LimitOf, Walk, Atoi;
    assert OffsetOf("") == Ok(0);
    WalkFrom(items, rawLimit, "");
  }

  // ----- The nodes of a page of edges -----

  function EndpointIDs(edges: seq<DependencyEdge>): set<string> {
    (set e | e in edges :: "workload:" + WorkloadID(e.workload))
      + (set e | e in edges :: "secret:" + SecretID(e.secret))
  }

  /** The nodes with one of the ids, in list order. */
  function NodesWith(nodes: seq<DependencyMapNode>, ids: set<string>): seq<DependencyMapNode> {
    if nodes == [] then []
    else
      var init := NodesWith(nodes[..|nodes| - 1], ids);
      if nodes[|nodes| - 1].id in ids then init + [nodes[|nodes| - 1]] else init
  }

  method NodesForEdges(nodes: seq<DependencyMapNode>, edges: seq<DependencyEdge>) returns (out: seq<DependencyMapNode>)
    ensures out == NodesWith(nodes, EndpointIDs(edges))
  {
    hide WorkloadID, SecretID;
    var needed: set<string> := {};
    for n := 0 to |edges|
      invariant needed == EndpointIDs(edges[..n])
    {
      needed := needed + {"workload:" + WorkloadID(edges[n].workload)};
      needed := needed + {"secret:" + SecretID(edges[n].secret)};
      EndpointsOfLonger(edges[..n], edges[n]);
      assert edges[..n + 1] == edges[..n] + [edges[n]];
    }
    assert edges[..|edges|] == edges;
    out := [];
    for n := 0 to |nodes|
      invariant out == NodesWith(nodes[..n], needed)
    {
      assert nodes[..n + 1][..n] == nodes[..n];
      if nodes[n].id in needed {
        out := out + [nodes[n]];
      }
    }
    assert nodes[..|nodes|] == nodes;
  }

  lemma EndpointsOfLonger(edges: seq<DependencyEdge>, e: DependencyEdge)
    ensures EndpointIDs(edges + [e]) ==
      EndpointIDs(edges) + {"workload:" + WorkloadID(e.workload)} + {"secret:" + SecretID(e.secret)}
  {}

  lemma {:induction false} NodesWithMember(nodes: seq<DependencyMapNode>, ids: set<string>, node: DependencyMapNode)
    ensures node in NodesWith(nodes, ids) <==> node in nodes && node.id in ids
  {
    if nodes != [] {
      NodesWithMember(nodes[..|nodes| - 1], ids, node);
      assert nodes == nodes[..|nodes| - 1] + [nodes[|nodes| - 1]];
    }
  }

  ghost predicate DistinctNodes(nodes: seq<DependencyMapNode>) {
    forall i, j :: 0 <= i < j < |nodes| ==> nodes[i].id != nodes[j].id
  }

  lemma {:induction false} NodesWithDistinct(nodes: seq<DependencyMapNode>, ids: set<string>)
    requires DistinctNodes(nodes)
    ensures DistinctNodes(NodesWith(nodes, ids))
  {
    if nodes != [] {
      var init, last := nodes[..|nodes| - 1], nodes[|nodes| - 1];
      NodesWithDistinct(init, ids);
      var kept := NodesWith(init, ids);
      forall i | 0 <= i < |kept| ensures kept[i].id != last.id {
        NodesWithMember(init, ids, kept[i]);
        var j :| 0 <= j < |init| && init[j] == kept[i];
        assert nodes[j] == init[j];
      }
    }
  }

  ghost predicate HasNode(nodes: seq<DependencyMapNode>, id: string) {
    exists i :: 0 <= i < |nodes| && nodes[i].id == id
  }

  function WorkloadLabel(k: string): string {
    "workload:" + k
  }

  function SecretLabel(k: string): string {
    "secret:" + k
  }

  /** The ids of the nodes: those of the workloads, then those of the Secrets. */
  ghost predicate Labelled(nodes: seq<DependencyMapNode>, kw: seq<string>, ks: seq<string>) {
    && |nodes| == |kw| + |ks|
    && (forall i :: 0 <= i < |kw| ==> nodes[i].id == WorkloadLabel(kw[i]))
    && (forall i :: 0 <= i < |ks| ==> nodes[|kw| + i].id == SecretLabel(ks[i]))
  }

  lemma NodesAreLabelled(st: State)
    requires NodesKeyed(st) && EdgesKeyed(st)
    ensures Labelled(Nodes(ViewOf(st)), SortedKeys(st.workloads.Keys), SortedKeys(st.secrets.Keys))
  {
    hide SortedKeys, NodesKeyed, EdgesKeyed, ViewOf, Nodes, WorkloadNode, SecretNode, WorkloadLabel, SecretLabel,
         Sorted,
         Labelled;
    ViewLists(st);
    var view, kw, ks := ViewOf(st), SortedKeys(st.workloads.Keys), SortedKeys(st.secrets.Keys);
    forall i | 0 <= i < |kw| ensures WorkloadNode(view.workloads[i]).id == WorkloadLabel(kw[i]) {
      assert kw[i] in st.workloads.Keys;
      WorkloadNodeID(st, kw[i]);
    }
    forall i | 0 <= i < |ks| ensures SecretNode(view.secrets[i]).id == SecretLabel(ks[i]) {
      assert ks[i] in st.secrets.Keys;
      SecretNodeID(st, ks[i]);
    }
    ViewIsLabelled(view, kw, ks);
  }

  lemma ViewIsLabelled(view: View, kw: seq<string>, ks: seq<string>)
    requires |view.workloads| == |kw| && |view.secrets| == |ks|
    requires forall i :: 0 <= i < |kw| ==> WorkloadNode(view.workloads[i]).id == WorkloadLabel(kw[i])
    requires forall i :: 0 <= i < |ks| ==> SecretNode(view.secrets[i]).id == SecretLabel(ks[i])
    ensures Labelled(Nodes(view), kw, ks)
  {
    hide Nodes, WorkloadNode, SecretNode, WorkloadLabel, SecretLabel;
    forall i | 0 <= i < |ks| ensures Nodes(view)[|kw| + i].id == SecretLabel(ks[i]) {
      assert Nodes(view)[|view.workloads| + i] == SecretNode(view.secrets[i]);
    }
  }

  lemma WorkloadNodeID(st: State, k: string)
    requires NodesKeyed(st) && EdgesKeyed(st) && k in st.workloads
    ensures WorkloadNode(st.workloads[k]).id == WorkloadLabel(k)
  {}

  lemma SecretNodeID(st: State, k: string)
    requires NodesKeyed(st) && EdgesKeyed(st) && k in st.secrets
    ensures SecretNode(st.secrets[k]).id == SecretLabel(k)
  {}

  lemma PrefixesDiffer(a: string, b: string)
    ensures "workload:" + a != "secret:" + b
    ensures "workload:" + a == "workload:" + b <==> a == b
    ensures "secret:" + a == "secret:" + b <==> a == b
  {
    assert ("workload:" + a)[0] == 'w' && ("secret:" + b)[0] == 's';
    assert ("workload:" + a)[9..] == a && ("workload:" + b)[9..] == b;
    assert ("secret:" + a)[7..] == a && ("secret:" + b)[7..] == b;
  }

  lemma LabelledAreDistinct(nodes: seq<DependencyMapNode>, kw: seq<string>, ks: seq<string>)
    requires Labelled(nodes, kw, ks) && Sorted(kw) && Sorted(ks)
    ensures DistinctNodes(nodes)
  {
    forall i, j | 0 <= i < j < |nodes| ensures nodes[i].id != nodes[j].id {
      hide Sorted;
      if j < |kw| {
        PrefixesDiffer(kw[i], kw[j]);
        if kw[i] == kw[j] { SortedHasNoRepeats(kw, i, j); }
      } else {
        var y := ks[j - |kw|];
        assert nodes[|kw| + (j - |kw|)].id == "secret:" + y;
        if i < |kw| {
          PrefixesDiffer(kw[i], y);
        } else {
          var x := ks[i - |kw|];
          assert nodes[|kw| + (i - |kw|)].id == "secret:" + x;
          PrefixesDiffer(x, y);
          if x == y { SortedHasNoRepeats(ks, i - |kw|, j - |kw|); }
        }
      }
    }
  }

  /** The map's nodes: one for every workload and Secret of the graph, no id twice. */
  lemma NodesOfGraph(st: State)
    requires Consistent(st)
    ensures
      var nodes := Nodes(ViewOf(st));
      && DistinctNodes(nodes)
      && (forall k :: k in st.workloads ==> HasNode(nodes, "workload:" + k))
      && (forall k :: k in st.secrets ==> HasNode(nodes, "secret:" + k))
  {
    hide Consistent, SortedKeys, NodesKeyed, EdgesKeyed, DistinctNodes, Nodes, ViewOf, WorkloadsExist, EndsExist;
    ConsistentImplies(st);
    NodesAreLabelled(st);
    var nodes := Nodes(ViewOf(st));
    var kw, ks := SortedKeys(st.workloads.Keys), SortedKeys(st.secrets.Keys);
    LabelledAreDistinct(nodes, kw, ks);
    hide Labelled, HasNode;
    forall k | k in st.workloads ensures HasNode(nodes, "workload:" + k) {
      LabelledCover(nodes, kw, ks, k);
    }
    forall k | k in st.secrets ensures HasNode(nodes, "secret:" + k) {
      LabelledCover(nodes, kw, ks, k);
    }
  }

  lemma LabelledCover(nodes: seq<DependencyMapNode>, kw: seq<string>, ks: seq<string>, k: string)
    requires Labelled(nodes, kw, ks)
    ensures k in kw ==> HasNode(nodes, "workload:" + k)
    ensures k in ks ==> HasNode(nodes, "secret:" + k)
  {}

  ghost predicate InGraph(st: State, e: DependencyEdge) {
    exists id :: id in st.edges && st.edges[id] == e
  }

  /**
   Whatever edges of the graph a page holds, the nodes sent with it are exactly their
   endpoints: none missing, none extra, none twice.
   */
  lemma PageNodesAreEndpoints(st: State, page: seq<DependencyEdge>)
    requires Consistent(st)
    requires forall e :: e in page ==> InGraph(st, e)
    ensures
      var nodes := NodesWith(Nodes(ViewOf(st)), EndpointIDs(page));
      && DistinctNodes(nodes)
      && (forall id :: HasNode(nodes, id) <==>
            exists e :: e in page
              && (id == "workload:" + WorkloadID(e.workload) || id == "secret:" + SecretID(e.secret)))
  {
    hide Consistent, ViewOf, Nodes, DistinctNodes, NodesWith, EdgesKeyed, NodesKeyed, WorkloadsExist, EndsExist,
         EndpointIDs, InGraph;
    ConsistentImplies(st);
    NodesOfGraph(st);
    var all, ids := Nodes(ViewOf(st)), EndpointIDs(page);
    EndpointsAreEnds(page);
    var nodes := NodesWith(all, ids);
    NodesWithDistinct(all, ids);
    forall id ensures HasNode(nodes, id) <==> id in ids {
      if id in ids {
        EndpointIsNode(st, page, id);
        var i :| 0 <= i < |all| && all[i].id == id;
        NodesWithMember(all, ids, all[i]);
        var j :| 0 <= j < |nodes| && nodes[j] == all[i];
      }
      if i :| 0 <= i < |nodes| && nodes[i].id == id {
        NodesWithMember(all, ids, nodes[i]);
      }
    }
  }

  lemma EndpointsAreEnds(page: seq<DependencyEdge>)
    ensures forall id :: id in EndpointIDs(page) <==>
      exists e :: e in page && (id == "workload:" + WorkloadID(e.workload) || id == "secret:" + SecretID(e.secret))
  {
    hide WorkloadID, SecretID;
  }

  lemma EndpointIsNode(st: State, page: seq<DependencyEdge>, id: string)
    requires EndsExist(st) && id in EndpointIDs(page)
    requires forall e :: e in page ==> InGraph(st, e)
    requires
      var nodes := Nodes(ViewOf(st));
      && (forall k :: k in st.workloads ==> HasNode(nodes, "workload:" + k))
      && (forall k :: k in st.secrets ==> HasNode(nodes, "secret:" + k))
    ensures HasNode(Nodes(ViewOf(st)), id)
  {
    hide WorkloadID, SecretID, ViewOf, Nodes, HasNode;
    if e :| e in page && id == "workload:" + WorkloadID(e.workload) {
      assert InGraph(st, e);
      assert WorkloadID(e.workload) in st.workloads;
    } else {
      var e :| e in page && id == "secret:" + SecretID(e.secret);
      assert InGraph(st, e);
      assert SecretID(e.secret) in st.secrets;
    }
  }
}

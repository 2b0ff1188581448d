/**
 Merging edges that share a key. It happens twice: over one workload's references when they
 are extracted, and over all workloads' edges when a snapshot is applied. The second time
 the Resolved flags are joined too.
 */
module Merge {
  import opened GraphTypes
  import opened Ids

  datatype Level = AtExtraction | AtSnapshot

  function Combine(level: Level, a: DependencyEdge, b: DependencyEdge): DependencyEdge {
    a.(sources := a.sources + b.sources,
       optional := a.optional && b.optional,
       resolved := a.resolved || (level.AtSnapshot? && b.resolved),
       discoveryMode := if a.discoveryMode != b.discoveryMode then HYBRID else a.discoveryMode)
  }

  lemma CombineIsAssociative(level: Level, a: DependencyEdge, b: DependencyEdge, c: DependencyEdge)
    ensures Combine(level, Combine(level, a, b), c) == Combine(level, a, Combine(level, b, c))
  {}

  function Insert(level: Level, m: map<string, DependencyEdge>, e: DependencyEdge): map<string, DependencyEdge> {
    if e.id in m then m[e.id := Combine(level, m[e.id], e)] else m[e.id := e]
  }

  /** The merge loop: one edge after the other into a map. */
  function MergeAll(level: Level, es: seq<DependencyEdge>): map<string, DependencyEdge> {
    if es == [] then map[]
    else Insert(level, MergeAll(level, es[..|es| - 1]), es[|es| - 1])
  }

  /** The edges of a list that share the key id, in list order. */
  function Group(es: seq<DependencyEdge>, id: string): (g: seq<DependencyEdge>)
    ensures forall i :: 0 <= i < |g| ==> g[i] in es && g[i].id == id
    ensures g == [] <==> (forall i :: 0 <= i < |es| ==> es[i].id != id)
  {
    if es == [] then []
    else
      var init := Group(es[..|es| - 1], id);
      assert forall i :: 0 <= i < |es| ==> es[i] == es[|es| - 1] || es[i] == es[..|es| - 1][i];
      if es[|es| - 1].id == id then init + [es[|es| - 1]] else init
  }

  function Fold(level: Level, g: seq<DependencyEdge>): DependencyEdge
    requires g != []
  {
    if |g| == 1 then g[0] else Combine(level, Fold(level, g[..|g| - 1]), g[|g| - 1])
  }

  /** The merge of a list, key by key, is the fold of each key's group. */
  lemma {:induction false} MergeAllFoldsGroups(level: Level, es: seq<DependencyEdge>, id: string)
    ensures id in MergeAll(level, es) <==> Group(es, id) != []
    ensures id in MergeAll(level, es) ==> MergeAll(level, es)[id] == Fold(level, Group(es, id))
  {
    if es != [] {
      var init, e := es[..|es| - 1], es[|es| - 1];
      MergeAllFoldsGroups(level, init, id);
      if e.id == id && Group(init, id) != [] {
        var g := Group(es, id);
        assert g[..|g| - 1] == Group(init, id);
      }
    }
  }

  function AllSources(g: seq<DependencyEdge>): seq<DependencySource> {
    if g == [] then [] else AllSources(g[..|g| - 1]) + g[|g| - 1].sources
  }

  ghost predicate OneMode(g: seq<DependencyEdge>) {
    forall i, j :: 0 <= i < |g| && 0 <= j < |g| ==> g[i].discoveryMode == g[j].discoveryMode
  }

  /** What a merged edge is, for a group of any size. */
  ghost predicate IsMergeOf(level: Level, m: DependencyEdge, g: seq<DependencyEdge>)
    requires g != []
  {
    && m.sources == AllSources(g)
    && (m.optional <==> forall i :: 0 <= i < |g| ==> g[i].optional)
    && m.discoveryMode == (if OneMode(g) then g[0].discoveryMode else HYBRID)
    && (m.resolved <==> g[0].resolved || (level.AtSnapshot? && exists i :: 0 <= i < |g| && g[i].resolved))
    && m == g[0].(sources := m.sources, optional := m.optional,
                  discoveryMode := m.discoveryMode, resolved := m.resolved)
  }

  lemma {:induction false} FoldIsMerge(level: Level, g: seq<DependencyEdge>)
    requires g != []
    ensures IsMergeOf(level, Fold(level, g), g)
  {
    hide IsMergeOf;
    if |g| == 1 {
      assert IsMergeOf(level, g[0], g) by { LoneEdgeIsMerge(level, g[0]); assert g == [g[0]]; }
    } else {
      FoldIsMerge(level, g[..|g| - 1]);
      MergeExtends(level, Fold(level, g[..|g| - 1]), g[..|g| - 1], g[|g| - 1]);
      assert g == g[..|g| - 1] + [g[|g| - 1]];
    }
  }

  lemma LoneEdgeIsMerge(level: Level, e: DependencyEdge)
    ensures IsMergeOf(level, e, [e])
  {}

  lemma MergeExtends(level: Level, m: DependencyEdge, init: seq<DependencyEdge>, e: DependencyEdge)
    requires init != [] && IsMergeOf(level, m, init)
    ensures IsMergeOf(level, Combine(level, m, e), init + [e])
  {
    hide OneMode;
    var g := init + [e];
    assert g[..|g| - 1] == init && g[|g| - 1] == e && g[0] == init[0];
    FlagsOfLonger(init, e);
    ModesOfLonger(init, e);
  }

  lemma FlagsOfLonger(init: seq<DependencyEdge>, e: DependencyEdge)
    ensures
      var g := init + [e];
      && ((forall i :: 0 <= i < |g| ==> g[i].optional) <==>
           (forall i :: 0 <= i < |init| ==> init[i].optional) && e.optional)
      && ((exists i :: 0 <= i < |g| && g[i].resolved) <==>
           (exists i :: 0 <= i < |init| && init[i].resolved) || e.resolved)
  {
    var g := init + [e];
    assert g[|init|] == e;
    assert forall i :: 0 <= i < |init| ==> g[i] == init[i];
  }

  lemma ModesOfLonger(init: seq<DependencyEdge>, e: DependencyEdge)
    requires init != []
    ensures OneMode(init + [e]) <==> OneMode(init) && e.discoveryMode == init[0].discoveryMode
  {
    var g := init + [e];
    assert g[0] == init[0] && g[|init|] == e;
    assert forall i :: 0 <= i < |init| ==> g[i] == init[i];
    assert forall i :: 0 <= i < |g| ==> g[i] == e || (i < |init| && g[i] == init[i]);
  }

  lemma {:induction false} FoldOfAppend(level: Level, a: seq<DependencyEdge>, b: seq<DependencyEdge>)
    requires a != [] && b != []
    ensures Fold(level, a + b) == Combine(level, Fold(level, a), Fold(level, b))
  {
    var g := a + b;
    if |b| == 1 {
      assert g[..|g| - 1] == a;
    } else {
      assert g[..|g| - 1] == a + b[..|b| - 1];
      FoldOfAppend(level, a, b[..|b| - 1]);
      CombineIsAssociative(level, Fold(level, a), Fold(level, b[..|b| - 1]), b[|b| - 1]);
    }
  }

  lemma {:induction false} GroupOfAppend(a: seq<DependencyEdge>, b: seq<DependencyEdge>, id: string)
    ensures Group(a + b, id) == Group(a, id) + Group(b, id)
  {
    if b == [] {
      assert a + b == a;
    } else {
      assert (a + b)[..|a + b| - 1] == a + b[..|b| - 1];
      GroupOfAppend(a, b[..|b| - 1], id);
    }
  }

  predicate DistinctIDs(es: seq<DependencyEdge>) {
    forall i, j :: 0 <= i < |es| && 0 <= j < |es| && es[i].id == es[j].id ==> i == j
  }

  /** With distinct keys nothing merges: each edge is a group of its own. */
  lemma {:induction false} GroupOfDistinct(es: seq<DependencyEdge>, i: nat)
    requires DistinctIDs(es) && i < |es|
    ensures Group(es, es[i].id) == [es[i]]
  {
    var init, e := es[..|es| - 1], es[|es| - 1];
    if i < |es| - 1 {
      assert init[i] == es[i];
      GroupOfDistinct(init, i);
    } else {
      assert forall k :: 0 <= k < |init| ==> init[k] == es[k];
      assert Group(init, e.id) == [];
    }
  }

  ghost predicate HasID(es: seq<DependencyEdge>, id: string) {
    exists i :: 0 <= i < |es| && es[i].id == id
  }

  /** `out` holds the values of m, each once, in some order: what ranging over a Go map yields. */
  ghost predicate Lists(out: seq<DependencyEdge>, m: map<string, DependencyEdge>) {
    && DistinctIDs(out)
    && (forall i :: 0 <= i < |out| ==> out[i].id in m && m[out[i].id] == out[i])
    && (forall id :: id in m ==> HasID(out, id))
  }

  function NotIgnored(es: seq<DependencyEdge>, ignore: set<string>): (kept: seq<DependencyEdge>)
    ensures forall e :: e in kept <==> e in es && SecretID(e.secret) !in ignore
  {
    if es == [] then []
    else
      var init := NotIgnored(es[..|es| - 1], ignore);
      assert es == es[..|es| - 1] + [es[|es| - 1]];
      if SecretID(es[|es| - 1].secret) in ignore then init else init + [es[|es| - 1]]
  }

  lemma MergeAllKeepsKeys(level: Level, es: seq<DependencyEdge>)
    ensures forall id :: id in MergeAll(level, es) ==> MergeAll(level, es)[id].id == id
  {}

  lemma MergeAllOfLonger(level: Level, es: seq<DependencyEdge>, e: DependencyEdge)
    ensures MergeAll(level, es + [e]) == Insert(level, MergeAll(level, es), e)
  {}

  lemma NotIgnoredOfLonger(es: seq<DependencyEdge>, e: DependencyEdge, ignore: set<string>)
    ensures NotIgnored(es + [e], ignore) ==
            if SecretID(e.secret) in ignore then NotIgnored(es, ignore) else NotIgnored(es, ignore) + [e]
  {}

  /** filterAndMergeEdges: the output order is that of a map, so any order. */
  method FilterAndMergeEdges(edges: seq<DependencyEdge>, ignore: set<string>) returns (out: seq<DependencyEdge>)
    ensures Lists(out, MergeAll(AtExtraction, NotIgnored(edges, ignore)))
  {
    var merged: map<string, DependencyEdge> := map[];
    for n := 0 to |edges|
      invariant merged == MergeAll(AtExtraction, NotIgnored(edges[..n], ignore))
    {
      var edge := edges[n];
      assert edges[..n + 1] == edges[..n] + [edge];
      NotIgnoredOfLonger(edges[..n], edge, ignore);
      if SecretID(edge.secret) in ignore {
        continue;
      }
      MergeAllOfLonger(AtExtraction, NotIgnored(edges[..n], ignore), edge);
      if edge.id in merged {
        var existing := merged[edge.id];
        existing := existing.(sources := existing.sources + edge.sources);
        existing := existing.(optional := existing.optional && edge.optional);
        if existing.discoveryMode != edge.discoveryMode {
          existing := existing.(discoveryMode := HYBRID);
        }
        merged := merged[edge.id := existing];
        continue;
      }
      merged := merged[edge.id := edge];
    }
    assert edges[..|edges|] == edges;
    MergeAllKeepsKeys(AtExtraction, NotIgnored(edges, ignore));
    out := Values(merged);
  }

  /** Ranging over a map of edges, in whatever order. */
  method Values(m: map<string, DependencyEdge>) returns (out: seq<DependencyEdge>)
    requires forall id :: id in m ==> m[id].id == id
    ensures Lists(out, m)
  {
    out := [];
    var pending := m.Keys;
    while pending != {}
      invariant pending <= m.Keys
      invariant DistinctIDs(out)
      invariant forall i :: 0 <= i < |out| ==> out[i].id in m && out[i].id !in pending && m[out[i].id] == out[i]
      invariant forall id :: id in m && id !in pending ==> HasID(out, id)
    {
      var id :| id in pending;
      ghost var before := out;
      out := out + [m[id]];
      pending := pending - {id};
      assert out[|before|].id == id;
      forall d | d in m && d !in pending ensures HasID(out, d) {
        if d != id {
          var i :| 0 <= i < |before| && before[i].id == d;
          assert out[i].id == d;
        }
      }
    }
  }

  /**
   One edge per key that some reference not ignored has, and that edge is the merge of all
   of them, in order.
   */
  lemma FilterAndMergeIsExact(edges: seq<DependencyEdge>, ignore: set<string>, out: seq<DependencyEdge>)
    requires Lists(out, MergeAll(AtExtraction, NotIgnored(edges, ignore)))
    ensures DistinctIDs(out)
    ensures forall id :: HasID(out, id) <==> HasID(NotIgnored(edges, ignore), id)
    ensures forall i :: 0 <= i < |out| ==>
      var g := Group(NotIgnored(edges, ignore), out[i].id);
      g != [] && IsMergeOf(AtExtraction, out[i], g)
  {
    var kept := NotIgnored(edges, ignore);
    forall id ensures HasID(out, id) <==> HasID(kept, id) {
      MergeAllFoldsGroups(AtExtraction, kept, id);
    }
    forall i | 0 <= i < |out|
      ensures Group(kept, out[i].id) != [] && IsMergeOf(AtExtraction, out[i], Group(kept, out[i].id))
    {
      MergeAllFoldsGroups(AtExtraction, kept, out[i].id);
      FoldIsMerge(AtExtraction, Group(kept, out[i].id));
    }
  }
}

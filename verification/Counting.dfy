/** Sums over maps and sizes of images: what the counting theorems rest on. */
module Counting {

  ghost function Sum(m: map<string, nat>): nat {
    if m == map[] then 0
    else
      var k :| k in m;
      m[k] + Sum(m - {k})
  }

  lemma {:induction false} SumWithout(m: map<string, nat>, k: string)
    requires k in m
    ensures Sum(m) == m[k] + Sum(m - {k})
  {
    var j :| j in m && Sum(m) == m[j] + Sum(m - {j});
    if j != k {
      SumWithout(m - {j}, k);
      SumWithout(m - {k}, j);
      assert m - {j} - {k} == m - {k} - {j};
    }
  }

  /** The members of `items` that `key` sends to k. */
  ghost function Fiber(items: set<string>, key: map<string, string>, k: string): set<string> {
    set e | e in items && e in key && key[e] == k
  }

  ghost function FiberSizes(items: set<string>, key: map<string, string>, keys: set<string>): map<string, nat> {
    map k | k in keys :: |Fiber(items, key, k)|
  }

  /** Counting by key and then adding up counts everything once. */
  lemma {:induction false} FibersPartition(items: set<string>, key: map<string, string>, keys: set<string>)
    requires forall e :: e in items ==> e in key && key[e] in keys
    ensures Sum(FiberSizes(items, key, keys)) == |items|
    decreases |keys|
  {
    var sizes := FiberSizes(items, key, keys);
    if keys == {} {
      assert items == {};
    } else {
      var k :| k in keys;
      var own := Fiber(items, key, k);
      var others := items - own;
      FibersPartition(others, key, keys - {k});
      SumWithout(sizes, k);
      forall j | j in keys - {k} ensures Fiber(others, key, j) == Fiber(items, key, j) {}
      assert sizes - {k} == FiberSizes(others, key, keys - {k});
      assert own <= items && |items| == |own| + |others|;
    }
  }

  lemma CountsAddUp(counts: map<string, nat>, items: set<string>, key: map<string, string>)
    requires forall e :: e in items ==> e in key && key[e] in counts
    requires forall k :: k in counts ==> counts[k] == |Fiber(items, key, k)|
    ensures Sum(counts) == |items|
  {
    hide Fiber, Sum;
    FibersPartition(items, key, counts.Keys);
    assert counts == FiberSizes(items, key, counts.Keys);
  }

  ghost function Image(items: set<string>, key: map<string, string>): set<string> {
    set e | e in items && e in key :: key[e]
  }

  lemma {:induction false} ImageIsNoLarger(items: set<string>, key: map<string, string>)
    requires items <= key.Keys
    ensures |Image(items, key)| <= |items|
  {
    if items != {} {
      var e :| e in items;
      ImageIsNoLarger(items - {e}, key);
      assert Image(items, key) == Image(items - {e}, key) + {key[e]};
    } else {
      assert Image(items, key) == {};
    }
  }

  lemma {:induction false} InjectiveImage(items: set<string>, key: map<string, string>)
    requires items <= key.Keys
    requires forall d, e :: d in items && e in items && key[d] == key[e] ==> d == e
    ensures |Image(items, key)| == |items|
  {
    if items != {} {
      var e :| e in items;
      InjectiveImage(items - {e}, key);
      assert Image(items, key) == Image(items - {e}, key) + {key[e]};
    } else {
      assert Image(items, key) == {};
    }
  }

  lemma SubsetSize(a: set<string>, b: set<string>)
    requires a <= b
    ensures |a| <= |b|
  {
    assert b == a + (b - a);
  }

  // ----- Sizes of sets of positions -----

  lemma Member(positions: set<nat>) returns (i: nat)
    requires positions != {}
    ensures i in positions
  {
    i :| i in positions;
  }

  lemma {:induction false} SameSize(positions: set<nat>, key: nat -> string)
    requires forall i, j :: i in positions && j in positions && key(i) == key(j) ==> i == j
    ensures |set i | i in positions :: key(i)| == |positions|
  {
    if positions == {} {
      assert (set i | i in positions :: key(i)) == {};
    } else {
      var i := Member(positions);
      SameSize(positions - {i}, key);
      assert (set j | j in positions :: key(j)) == (set j | j in positions - {i} :: key(j)) + {key(i)};
    }
  }
}

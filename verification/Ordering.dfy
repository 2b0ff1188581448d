/**
 The order Go's sort.Strings and sort.Slice put keys in. Code-point order is byte order,
 since every string is UTF-8.
 */
module Ordering {

  predicate Less(a: string, b: string) {
    b != "" && (a == "" || a[0] < b[0] || (a[0] == b[0] && Less(a[1..], b[1..])))
  }

  lemma {:induction false} LessIsTotal(a: string, b: string)
    ensures a == b || Less(a, b) || Less(b, a)
  {
    if a != "" && b != "" && a[0] == b[0] {
      LessIsTotal(a[1..], b[1..]);
      assert a == [a[0]] + a[1..] && b == [b[0]] + b[1..];
    }
  }

  lemma {:induction false} LessIsAsymmetric(a: string, b: string)
    ensures !(Less(a, b) && Less(b, a))
  {
    if a != "" && b != "" {
      LessIsAsymmetric(a[1..], b[1..]);
    }
  }

  lemma {:induction false} LessIsTransitive(a: string, b: string, c: string)
    requires Less(a, b) && Less(b, c)
    ensures Less(a, c)
  {
    if a != "" && a[0] == b[0] == c[0] {
      LessIsTransitive(a[1..], b[1..], c[1..]);
    }
  }

  /** In order, and so without repetition. */
  ghost predicate Sorted(s: seq<string>) {
    forall i, j :: 0 <= i < j < |s| ==> Less(s[i], s[j])
  }

  predicate IsLeast(m: string, s: set<string>) {
    m in s && forall x :: x in s ==> x == m || Less(m, x)
  }

  lemma {:induction false} LeastExists(s: set<string>)
    requires s != {}
    ensures exists m :: IsLeast(m, s)
  {
    var x :| x in s;
    var rest := s - {x};
    if rest == {} {
      assert forall y :: y in s && y != x ==> y in rest;
      assert IsLeast(x, s);
    } else {
      LeastExists(rest);
      var m :| IsLeast(m, rest);
      LessIsTotal(x, m);
      if Less(x, m) {
        forall y | y in s ensures y == x || Less(x, y) {
          assert y != x ==> y in rest;
          if y != x && y != m { LessIsTransitive(x, m, y); }
        }
        assert IsLeast(x, s);
      } else {
        assert forall y :: y in s && y != x ==> y in rest;
        assert IsLeast(m, s);
      }
    }
  }

  lemma LeastIsUnique(s: set<string>)
    ensures forall m, m' :: IsLeast(m, s) && IsLeast(m', s) ==> m == m'
  {
    forall m, m' | IsLeast(m, s) && IsLeast(m', s) ensures m == m' {
      LessIsAsymmetric(m, m');
    }
  }

  function Least(s: set<string>): (m: string)
    requires s != {}
    ensures IsLeast(m, s)
  {
    LeastExists(s);
    LeastIsUnique(s);
    var m :| IsLeast(m, s);
    m
  }

  /** The elements of a set, in order, each once. */
  function SortedKeys(s: set<string>): (r: seq<string>)
    ensures |r| == |s|
    ensures forall k :: k in r <==> k in s
    ensures Sorted(r)
    decreases |s|
  {
    if s == {} then []
    else
      var m := Least(s);
      var rest := SortedKeys(s - {m});
      assert forall k :: k in s <==> k == m || k in s - {m};
      [m] + rest
  }

  /** One order only: two sorted lists of the same elements are the same list. */
  lemma {:induction false} SortedIsUnique(a: seq<string>, b: seq<string>)
    requires Sorted(a) && Sorted(b)
    requires forall k :: k in a <==> k in b
    ensures a == b
  {
    assert b != [] ==> b[0] in b;
    if a != [] {
      assert a[0] in b && b[0] in a;
      LessIsAsymmetric(a[0], b[0]);
      forall k ensures k in a[1..] <==> k in b[1..] {
        NotInTail(a, k);
        NotInTail(b, k);
      }
      SortedIsUnique(a[1..], b[1..]);
      assert a == [a[0]] + a[1..] && b == [b[0]] + b[1..];
    }
  }

  lemma NotInTail(a: seq<string>, k: string)
    requires Sorted(a) && a != []
    ensures k in a[1..] <==> k in a && k != a[0]
  {
    LessIsAsymmetric(a[0], a[0]);
    assert a == [a[0]] + a[1..];
  }

  lemma SortedHasNoRepeats(a: seq<string>, i: nat, j: nat)
    requires Sorted(a) && i < |a| && j < |a| && a[i] == a[j]
    ensures i == j
  {
    LessIsAsymmetric(a[i], a[j]);
  }

  /** The members of a list that are in a set, in list order. */
  function Restrict(s: seq<string>, keep: set<string>): seq<string> {
    if s == [] then []
    else
      var init := Restrict(s[..|s| - 1], keep);
      if s[|s| - 1] in keep then init + [s[|s| - 1]] else init
  }

  lemma RestrictOfLonger(keys: seq<string>, n: nat, keep: set<string>)
    requires n < |keys|
    ensures Restrict(keys[..n + 1], keep) ==
            if keys[n] in keep then Restrict(keys[..n], keep) + [keys[n]] else Restrict(keys[..n], keep)
  {
    assert keys[..n + 1][..n] == keys[..n];
  }

  lemma {:induction false} RestrictIsSorted(s: seq<string>, keep: set<string>)
    requires Sorted(s)
    ensures Sorted(Restrict(s, keep))
    ensures forall k :: k in Restrict(s, keep) <==> k in s && k in keep
  {
    if s != [] {
      var init := s[..|s| - 1];
      RestrictIsSorted(init, keep);
      assert s == init + [s[|s| - 1]];
      forall k | k in init ensures Less(k, s[|s| - 1]) {
        var i :| 0 <= i < |init| && init[i] == k;
        assert s[i] == k;
      }
      var kept := Restrict(init, keep);
      forall i | 0 <= i < |kept| ensures Less(kept[i], s[|s| - 1]) {
        assert kept[i] in kept;
      }
    }
  }

  lemma RestrictSortedKeys(all: set<string>, keep: set<string>)
    requires keep <= all
    ensures Restrict(SortedKeys(all), keep) == SortedKeys(keep)
  {
    hide SortedKeys, Restrict;
    RestrictIsSorted(SortedKeys(all), keep);
    SortedIsUnique(Restrict(SortedKeys(all), keep), SortedKeys(keep));
  }
}

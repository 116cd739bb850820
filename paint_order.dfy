/**
 * Python's sorted(..., key=...) as the sprite groups use it to choose the
 * paint order: a stable sort by a numeric key, written as insertion from
 * the back, with its three properties: the keys ascend, nothing is lost or
 * duplicated, and sprites with equal keys keep their group order.
 */
module PaintOrder {

  /** The keys ascend along s. */
  predicate Ascending<T>(s: seq<T>, key: T -> real) {
    forall i, j :: 0 <= i < j < |s| ==> key(s[i]) <= key(s[j])
  }

  /** Places x after the last element of s whose key is at most x's. */
  function Insert<T>(s: seq<T>, x: T, key: T -> real): (r: seq<T>)
    ensures |r| == |s| + 1
    decreases |s|
  {
    if s == [] then [x]
    else if key(s[|s| - 1]) <= key(x) then s + [x]
    else Insert(s[..|s| - 1], x, key) + [s[|s| - 1]]
  }

  /** sorted(s, key=key). */
  function SortedBy<T>(s: seq<T>, key: T -> real): (r: seq<T>)
    ensures |r| == |s|
    decreases |s|
  {
    if s == [] then [] else Insert(SortedBy(s[..|s| - 1], key), s[|s| - 1], key)
  }

  /** The elements of s whose key is k, in order. */
  function WithKey<T>(s: seq<T>, key: T -> real, k: real): seq<T>
    decreases |s|
  {
    if s == [] then []
    else WithKey(s[..|s| - 1], key, k) + (if key(s[|s| - 1]) == k then [s[|s| - 1]] else [])
  }

  lemma {:induction false} InsertAscending<T>(s: seq<T>, x: T, key: T -> real)
    requires Ascending(s, key)
    ensures Ascending(Insert(s, x, key), key)
    ensures forall i :: 0 <= i < |Insert(s, x, key)| ==>
      key(Insert(s, x, key)[i]) == key(x) || exists j :: 0 <= j < |s| && key(Insert(s, x, key)[i]) == key(s[j])
    decreases |s|
  {
    var r := Insert(s, x, key);
    if s != [] {
      var init := s[..|s| - 1];
      var last := s[|s| - 1];
      if key(last) <= key(x) {
        assert r == s + [x];
        forall i | 0 <= i < |r|
          ensures key(r[i]) == key(x) || exists j :: 0 <= j < |s| && key(r[i]) == key(s[j])
        {
          if i < |s| {
            assert key(r[i]) == key(s[i]);
          }
        }
      } else {
        assert Ascending(init, key);
        InsertAscending(init, x, key);
        var r0 := Insert(init, x, key);
        assert r == r0 + [last];
        forall i | 0 <= i < |r0|
          ensures key(r0[i]) <= key(last)
        {
          if key(r0[i]) != key(x) {
            var j :| 0 <= j < |init| && key(r0[i]) == key(init[j]);
            assert init[j] == s[j];
          }
        }
        forall i | 0 <= i < |r|
          ensures key(r[i]) == key(x) || exists j :: 0 <= j < |s| && key(r[i]) == key(s[j])
        {
          if i == |r0| {
            assert key(r[i]) == key(s[|s| - 1]);
          } else if key(r0[i]) != key(x) {
            var j :| 0 <= j < |init| && key(r0[i]) == key(init[j]);
            assert init[j] == s[j];
          }
        }
      }
    }
  }

  /** The sprites are painted with ascending keys. */
  lemma {:induction false} SortedAscending<T>(s: seq<T>, key: T -> real)
    ensures Ascending(SortedBy(s, key), key)
    decreases |s|
  {
    if s != [] {
      SortedAscending(s[..|s| - 1], key);
      InsertAscending(SortedBy(s[..|s| - 1], key), s[|s| - 1], key);
    }
  }

  lemma {:induction false} InsertPermutes<T>(s: seq<T>, x: T, key: T -> real)
    ensures multiset(Insert(s, x, key)) == multiset(s) + multiset{x}
    decreases |s|
  {
    if s != [] && key(s[|s| - 1]) > key(x) {
      var init := s[..|s| - 1];
      InsertPermutes(init, x, key);
      assert s == init + [s[|s| - 1]];
    }
  }

  /** Every sprite is painted exactly once: the order is a permutation of the group. */
  lemma {:induction false} SortedPermutes<T>(s: seq<T>, key: T -> real)
    ensures multiset(SortedBy(s, key)) == multiset(s)
    decreases |s|
  {
    if s != [] {
      var init := s[..|s| - 1];
      SortedPermutes(init, key);
      InsertPermutes(SortedBy(init, key), s[|s| - 1], key);
      assert s == init + [s[|s| - 1]];
    }
  }

  lemma {:induction false} WithKeyAppend<T>(a: seq<T>, b: seq<T>, key: T -> real, k: real)
    ensures WithKey(a + b, key, k) == WithKey(a, key, k) + WithKey(b, key, k)
    decreases |b|
  {
    if b == [] {
      assert a + b == a;
    } else {
      var binit := b[..|b| - 1];
      assert (a + b)[..|a + b| - 1] == a + binit;
      assert (a + b)[|a + b| - 1] == b[|b| - 1];
      WithKeyAppend(a, binit, key, k);
    }
  }

  lemma {:induction false} InsertStable<T>(s: seq<T>, x: T, key: T -> real, k: real)
    ensures WithKey(Insert(s, x, key), key, k) == WithKey(s, key, k) + (if key(x) == k then [x] else [])
    decreases |s|
  {
    if s != [] {
      var init := s[..|s| - 1];
      var last := s[|s| - 1];
      if key(last) <= key(x) {
        WithKeyAppend(s, [x], key, k);
        assert [x][..0] == [];
      } else {
        InsertStable(init, x, key, k);
        WithKeyAppend(Insert(init, x, key), [last], key, k);
        assert [last][..0] == [];
      }
    }
  }

  /** Sprites with equal keys are painted in their group order: the sort is stable. */
  lemma {:induction false} SortedStable<T>(s: seq<T>, key: T -> real, k: real)
    ensures WithKey(SortedBy(s, key), key, k) == WithKey(s, key, k)
    decreases |s|
  {
    if s != [] {
      var init := s[..|s| - 1];
      SortedStable(init, key, k);
      InsertStable(SortedBy(init, key), s[|s| - 1], key, k);
    }
  }
}

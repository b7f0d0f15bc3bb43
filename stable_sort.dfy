/** The result of a stable sort by an integer key (what Collections.sort
    with Comparator.comparingInt returns), defined by insertion: each
    element goes after every element whose key is not greater. */
module StableSort {
  import opened LinkedSets

  function InsertPos<T>(t: seq<T>, x: T, key: T -> nat): (m: nat)
    ensures m <= |t|
    ensures forall j :: m <= j < |t| ==> key(t[j]) > key(x)
    ensures m == 0 || key(t[m - 1]) <= key(x)
  {
    if t == [] || key(t[|t| - 1]) <= key(x) then |t|
    else
      var m := InsertPos(t[..|t| - 1], x, key);
      assert forall j :: m <= j < |t| - 1 ==> t[..|t| - 1][j] == t[j];
      m
  }

  function Insert<T>(t: seq<T>, x: T, key: T -> nat): seq<T> {
    var m := InsertPos(t, x, key);
    t[..m] + [x] + t[m..]
  }

  function Sort<T>(s: seq<T>, key: T -> nat): seq<T> {
    if s == [] then [] else Insert(Sort(s[..|s| - 1], key), s[|s| - 1], key)
  }

  predicate SortedBy<T>(s: seq<T>, key: T -> nat) {
    forall i, j :: 0 <= i < j < |s| ==> key(s[i]) <= key(s[j])
  }

  /** The elements whose key is k, in their order in s. */
  function WithKey<T>(s: seq<T>, key: T -> nat, k: nat): seq<T> {
    if s == [] then []
    else WithKey(s[..|s| - 1], key, k) + (if key(s[|s| - 1]) == k then [s[|s| - 1]] else [])
  }

  // ---------------------------------------------------------------------

  lemma MultisetLast<T>(s: seq<T>)
    requires |s| > 0
    ensures multiset(s) == multiset(s[..|s| - 1]) + multiset{s[|s| - 1]}
  {
    assert s == s[..|s| - 1] + [s[|s| - 1]];
  }

  lemma MultisetCut<T>(s: seq<T>, m: nat)
    requires m <= |s|
    ensures multiset(s) == multiset(s[..m]) + multiset(s[m..])
  {
    assert s == s[..m] + s[m..];
  }

  /** The sort is a permutation. */
  lemma {:induction false} SortPermutes<T>(s: seq<T>, key: T -> nat)
    ensures multiset(Sort(s, key)) == multiset(s)
    ensures |Sort(s, key)| == |s|
  {
    if s != [] {
      var init, x := s[..|s| - 1], s[|s| - 1];
      var t := Sort(init, key);
      SortPermutes(init, key);
      var m := InsertPos(t, x, key);
      calc {
        multiset(Sort(s, key));
        multiset(t[..m]) + multiset{x} + multiset(t[m..]);
        { MultisetCut(t, m); }
        multiset(t) + multiset{x};
        { MultisetLast(s); }
        multiset(s);
      }
    }
  }

  lemma SortMembers<T>(s: seq<T>, key: T -> nat)
    ensures forall x :: x in Sort(s, key) <==> x in s
  {
    SortPermutes(s, key);
    forall x ensures x in Sort(s, key) <==> x in s {
      assert x in Sort(s, key) <==> x in multiset(Sort(s, key));
    }
  }

  /** Sorting a list without duplicates gives a list without duplicates. */
  lemma {:induction false} SortDistinct<T>(s: seq<T>, key: T -> nat)
    requires Distinct(s)
    ensures Distinct(Sort(s, key))
  {
    if s != [] {
      var init, x := s[..|s| - 1], s[|s| - 1];
      assert Distinct(init);
      SortDistinct(init, key);
      SortMembers(init, key);
      var t := Sort(init, key);
      assert x !in t;
      var m := InsertPos(t, x, key);
      var r := Insert(t, x, key);
      forall i, j | 0 <= i < j < |r| ensures r[i] != r[j] {
        if i < m && j == m {
          assert r[i] == t[i];
        } else if i < m && j > m {
          assert r[i] == t[i] && r[j] == t[j - 1];
        } else if i == m {
          assert r[j] == t[j - 1];
        } else if i > m {
          assert r[i] == t[i - 1] && r[j] == t[j - 1];
        }
      }
    }
  }

  lemma InsertSorted<T>(t: seq<T>, x: T, key: T -> nat)
    requires SortedBy(t, key)
    ensures SortedBy(Insert(t, x, key), key)
  {
    var m := InsertPos(t, x, key);
    var r := Insert(t, x, key);
    forall i, j | 0 <= i < j < |r| ensures key(r[i]) <= key(r[j]) {
      if i < m && j == m {
        assert key(t[i]) <= key(t[m - 1]);
      } else if i < m && j > m {
        assert r[j] == t[j - 1];
      } else if i == m {
        assert r[j] == t[j - 1];
      } else if i > m {
        assert r[i] == t[i - 1] && r[j] == t[j - 1];
      }
    }
  }

  /** The result is sorted by the key. */
  lemma {:induction false} SortSorted<T>(s: seq<T>, key: T -> nat)
    ensures SortedBy(Sort(s, key), key)
  {
    if s != [] {
      SortSorted(s[..|s| - 1], key);
      InsertSorted(Sort(s[..|s| - 1], key), s[|s| - 1], key);
    }
  }

  lemma {:induction false} WithKeyAppend<T>(a: seq<T>, b: seq<T>, key: T -> nat, k: nat)
    ensures WithKey(a + b, key, k) == WithKey(a, key, k) + WithKey(b, key, k)
    decreases |b|
  {
    if b == [] {
      assert a + b == a;
    } else {
      assert (a + b)[..|a + b| - 1] == a + b[..|b| - 1];
      WithKeyAppend(a, b[..|b| - 1], key, k);
    }
  }

  lemma {:induction false} WithKeyNone<T>(s: seq<T>, key: T -> nat, k: nat)
    requires forall j :: 0 <= j < |s| ==> key(s[j]) != k
    ensures WithKey(s, key, k) == []
  {
    if s != [] {
      WithKeyNone(s[..|s| - 1], key, k);
    }
  }

  lemma WithKeySnoc<T>(a: seq<T>, x: T, key: T -> nat, k: nat)
    ensures WithKey(a + [x], key, k) == WithKey(a, key, k) + (if key(x) == k then [x] else [])
  {
    assert (a + [x])[..|a + [x]| - 1] == a;
  }

  /** Putting x between a and b, where every key of b exceeds x's, adds x
      to x's key group after all of a's. */
  lemma InsertWithKeyAt<T>(a: seq<T>, x: T, b: seq<T>, key: T -> nat, k: nat)
    requires forall j :: 0 <= j < |b| ==> key(b[j]) > key(x)
    ensures WithKey(a + [x] + b, key, k) == WithKey(a + b, key, k) + (if key(x) == k then [x] else [])
  {
    WithKeySnoc(a, x, key, k);
    WithKeyAppend(a + [x], b, key, k);
    WithKeyAppend(a, b, key, k);
    if key(x) == k {
      WithKeyNone(b, key, k);
    }
  }

  lemma InsertWithKey<T>(t: seq<T>, x: T, key: T -> nat, k: nat)
    ensures WithKey(Insert(t, x, key), key, k) == WithKey(t, key, k) + (if key(x) == k then [x] else [])
  {
    var m := InsertPos(t, x, key);
    var a, b := t[..m], t[m..];
    assert t == a + b;
    assert forall j :: 0 <= j < |b| ==> b[j] == t[m + j];
    InsertWithKeyAt(a, x, b, key, k);
  }

  /** Stability: among elements of equal key, the sort keeps their order. */
  lemma {:induction false} SortStable<T>(s: seq<T>, key: T -> nat, k: nat)
    ensures WithKey(Sort(s, key), key, k) == WithKey(s, key, k)
  {
    if s != [] {
      SortStable(s[..|s| - 1], key, k);
      InsertWithKey(Sort(s[..|s| - 1], key), s[|s| - 1], key, k);
    }
  }

  /** u occurs in r at some position before one where v occurs. */
  ghost predicate Precedes<T>(r: seq<T>, u: T, v: T) {
    exists p, q :: 0 <= p < q < |r| && r[p] == u && r[q] == v
  }

  lemma InsertIndex<T>(t: seq<T>, x: T, key: T -> nat, p: nat)
    requires p < |t|
    ensures var m := InsertPos(t, x, key);
            Insert(t, x, key)[if p < m then p else p + 1] == t[p]
  {
  }

  /** Inserting keeps every existing order. */
  lemma InsertKeepsPrecedes<T>(t: seq<T>, x: T, key: T -> nat, u: T, v: T)
    requires Precedes(t, u, v)
    ensures Precedes(Insert(t, x, key), u, v)
  {
    var p, q :| 0 <= p < q < |t| && t[p] == u && t[q] == v;
    InsertIndex(t, x, key, p);
    InsertIndex(t, x, key, q);
  }

  /** The inserted element goes after every element of no greater key. */
  lemma InsertAfter<T>(t: seq<T>, x: T, key: T -> nat, u: T)
    requires u in t && key(u) <= key(x)
    ensures Precedes(Insert(t, x, key), u, x)
  {
    var m := InsertPos(t, x, key);
    var p :| 0 <= p < |t| && t[p] == u;
    assert p < m;
    InsertIndex(t, x, key, p);
    assert Insert(t, x, key)[m] == x;
  }

  /** An element that precedes another of no smaller key still precedes
      it after sorting. */
  lemma {:induction false} SortKeepsBefore<T>(s: seq<T>, key: T -> nat, i: nat, j: nat)
    requires i < j < |s| && key(s[i]) <= key(s[j])
    ensures Precedes(Sort(s, key), s[i], s[j])
  {
    var init, x := s[..|s| - 1], s[|s| - 1];
    var t := Sort(init, key);
    assert Sort(s, key) == Insert(t, x, key);
    assert s[i] == init[i];
    if j == |s| - 1 {
      SortMembers(init, key);
      assert init[i] in init;
      InsertAfter(t, x, key, s[i]);
    } else {
      assert s[j] == init[j];
      SortKeepsBefore(init, key, i, j);
      InsertKeepsPrecedes(t, x, key, s[i], s[j]);
    }
  }
}

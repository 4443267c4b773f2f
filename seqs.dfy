/**
 * Sequence operations that JavaScript arrays provide: `filter`, `findIndex`/`find`
 * and the stable `sort`. Each is proved once against its specification here and used
 * throughout the model.
 */
module Seqs {
  import opened Wrappers

  /** No element occurs twice. */
  predicate Distinct<T(==)>(s: seq<T>) {
    forall i, j :: 0 <= i < j < |s| ==> s[i] != s[j]
  }

  /** `r` can be obtained from `s` by deleting elements (order is kept). */
  predicate IsSubsequence<T(==)>(r: seq<T>, s: seq<T>)
    decreases |s|
  {
    r == [] || (s != [] && ((r[0] == s[0] && IsSubsequence(r[1..], s[1..])) || IsSubsequence(r, s[1..])))
  }

  /** `Array.prototype.filter`: the elements of `s` satisfying `p`, in their original order. */
  function Filter<T>(s: seq<T>, p: T -> bool): (r: seq<T>)
    ensures |r| <= |s|
    ensures forall i :: 0 <= i < |r| ==> r[i] in s && p(r[i])
    ensures forall i :: 0 <= i < |s| && p(s[i]) ==> s[i] in r
  {
    if s == [] then [] else (if p(s[0]) then [s[0]] else []) + Filter(s[1..], p)
  }

  lemma {:induction false} FilterIsSubsequence<T>(s: seq<T>, p: T -> bool)
    ensures IsSubsequence(Filter(s, p), s)
  {
    if s != [] {
      FilterIsSubsequence(s[1..], p);
      var r := Filter(s, p);
      if p(s[0]) {
        assert r[0] == s[0] && r[1..] == Filter(s[1..], p);
      } else {
        assert r == Filter(s[1..], p);
      }
    }
  }

  lemma {:induction false} FilterDistinct<T>(s: seq<T>, p: T -> bool)
    requires Distinct(s)
    ensures Distinct(Filter(s, p))
  {
    if s != [] {
      assert Distinct(s[1..]) by {
        forall i, j | 0 <= i < j < |s[1..]| ensures s[1..][i] != s[1..][j] {
          assert s[1..][i] == s[i + 1] && s[1..][j] == s[j + 1];
        }
      }
      FilterDistinct(s[1..], p);
      var rest := Filter(s[1..], p);
      if p(s[0]) {
        assert s[0] !in s[1..] by {
          forall k | 0 <= k < |s[1..]| ensures s[1..][k] != s[0] {
            assert s[1..][k] == s[k + 1];
          }
        }
        assert s[0] !in rest;
        var r := [s[0]] + rest;
        forall i, j | 0 <= i < j < |r| ensures r[i] != r[j] {
          if i == 0 {
            assert r[j] == rest[j - 1] && rest[j - 1] in rest;
          } else {
            assert r[i] == rest[i - 1] && r[j] == rest[j - 1];
          }
        }
      }
    }
  }

  lemma {:induction false} FilterAppend<T>(a: seq<T>, b: seq<T>, p: T -> bool)
    ensures Filter(a + b, p) == Filter(a, p) + Filter(b, p)
  {
    if a == [] {
      assert a + b == b;
    } else {
      assert (a + b)[0] == a[0] && (a + b)[1..] == a[1..] + b;
      FilterAppend(a[1..], b, p);
    }
  }

  /** Filtering by a predicate that every element satisfies changes nothing. */
  lemma {:induction false} FilterAll<T>(s: seq<T>, p: T -> bool)
    requires forall i :: 0 <= i < |s| ==> p(s[i])
    ensures Filter(s, p) == s
  {
    if s != [] {
      FilterAll(s[1..], p);
    }
  }

  /** Filtering by a predicate that no element satisfies leaves nothing. */
  lemma {:induction false} FilterNone<T>(s: seq<T>, p: T -> bool)
    requires forall i :: 0 <= i < |s| ==> !p(s[i])
    ensures Filter(s, p) == []
  {
    if s != [] {
      FilterNone(s[1..], p);
    }
  }

  /** Filtering by `p` and by its negation `q` splits `s` in two. */
  lemma {:induction false} FilterComplement<T>(s: seq<T>, p: T -> bool, q: T -> bool)
    requires forall i :: 0 <= i < |s| ==> q(s[i]) == !p(s[i])
    ensures |Filter(s, p)| + |Filter(s, q)| == |s|
  {
    if s != [] {
      FilterComplement(s[1..], p, q);
    }
  }

  /** A weaker predicate keeps at least as many elements. */
  lemma {:induction false} FilterWeaker<T>(s: seq<T>, p: T -> bool, q: T -> bool)
    requires forall i :: 0 <= i < |s| ==> p(s[i]) ==> q(s[i])
    ensures |Filter(s, p)| <= |Filter(s, q)|
  {
    if s != [] {
      FilterWeaker(s[1..], p, q);
    }
  }

  /** `Array.prototype.findIndex`, with |s| standing for "not found". */
  function FirstIndex<T>(s: seq<T>, p: T -> bool): (i: nat)
    ensures i <= |s|
    ensures i < |s| ==> p(s[i])
    ensures forall j :: 0 <= j < i ==> !p(s[j])
  {
    if s == [] then 0 else if p(s[0]) then 0 else 1 + FirstIndex(s[1..], p)
  }

  /** `Array.prototype.find`: the first element satisfying `p`, if any. */
  function FindFirst<T>(s: seq<T>, p: T -> bool): (r: Option<T>)
    ensures r.None? <==> forall i :: 0 <= i < |s| ==> !p(s[i])
    ensures r.Some? ==> r.value == s[FirstIndex(s, p)] && p(r.value)
  {
    var i := FirstIndex(s, p);
    if i < |s| then Some(s[i]) else None
  }

  /** The elements are in non-increasing order of `key`. */
  predicate SortedDesc<T>(s: seq<T>, key: T -> int) {
    forall i, j :: 0 <= i < j < |s| ==> key(s[i]) >= key(s[j])
  }

  /** The elements whose key is `k`, in their order in `s`. A sort is stable when it keeps these sub-sequences. */
  function WithKey<T>(s: seq<T>, key: T -> int, k: int): seq<T> {
    Filter(s, x => key(x) == k)
  }

  lemma WithKeyCons<T>(x: T, l: seq<T>, key: T -> int, k: int)
    ensures WithKey([x] + l, key, k) == (if key(x) == k then [x] else []) + WithKey(l, key, k)
  {
    assert ([x] + l)[0] == x && ([x] + l)[1..] == l;
  }

  /** Inserts `x` in front of the first element whose key is not larger than its own. */
  function Insert<T>(x: T, l: seq<T>, key: T -> int): (r: seq<T>)
    ensures |r| == |l| + 1
    ensures multiset(r) == multiset(l) + multiset{x}
  {
    if l == [] || key(l[0]) <= key(x) then [x] + l
    else
      assert l == [l[0]] + l[1..];
      [l[0]] + Insert(x, l[1..], key)
  }

  lemma {:induction false} InsertSorted<T>(x: T, l: seq<T>, key: T -> int)
    requires SortedDesc(l, key)
    ensures SortedDesc(Insert(x, l, key), key)
  {
    if l != [] && key(l[0]) > key(x) {
      var rest := Insert(x, l[1..], key);
      InsertSorted(x, l[1..], key);
      var r := [l[0]] + rest;
      forall j | 0 < j < |r| ensures key(r[0]) >= key(r[j]) {
        var y := r[j];
        assert y in multiset(rest);
        if y != x {
          assert y in multiset(l[1..]);
          var m :| 0 <= m < |l[1..]| && l[1..][m] == y;
          assert l[m + 1] == y;
        }
      }
    }
  }

  lemma {:induction false} InsertStable<T>(x: T, l: seq<T>, key: T -> int, k: int)
    ensures WithKey(Insert(x, l, key), key, k) == (if key(x) == k then [x] else []) + WithKey(l, key, k)
  {
    if l == [] || key(l[0]) <= key(x) {
      WithKeyCons(x, l, key, k);
    } else {
      var rest := Insert(x, l[1..], key);
      assert Insert(x, l, key) == [l[0]] + rest;
      InsertStable(x, l[1..], key, k);
      WithKeyCons(l[0], rest, key, k);
      WithKeyCons(l[0], l[1..], key, k);
      assert [l[0]] + l[1..] == l;
    }
  }

  /**
   * Sort by descending key: `Array.prototype.sort((a, b) => key(b) - key(a))`.
   * Insertion sort; `SortDescStable` shows that it is stable, as that sort is since ECMAScript 2019.
   */
  function SortDesc<T>(s: seq<T>, key: T -> int): (r: seq<T>)
    ensures |r| == |s|
    ensures multiset(r) == multiset(s)
    ensures SortedDesc(r, key)
  {
    if s == [] then []
    else
      var sorted := SortDesc(s[1..], key);
      InsertSorted(s[0], sorted, key);
      assert s == [s[0]] + s[1..];
      Insert(s[0], sorted, key)
  }

  /** Elements with equal keys keep their relative order. */
  lemma {:induction false} SortDescStable<T>(s: seq<T>, key: T -> int, k: int)
    ensures WithKey(SortDesc(s, key), key, k) == WithKey(s, key, k)
  {
    if s != [] {
      SortDescStable(s[1..], key, k);
      InsertStable(s[0], SortDesc(s[1..], key), key, k);
      WithKeyCons(s[0], s[1..], key, k);
      assert s == [s[0]] + s[1..];
    }
  }

  /** Inserting `x` adds one to the count of every predicate `x` satisfies and nothing to the others. */
  lemma {:induction false} InsertCount<T>(x: T, l: seq<T>, key: T -> int, p: T -> bool)
    ensures |Filter(Insert(x, l, key), p)| == (if p(x) then 1 else 0) + |Filter(l, p)|
  {
    if l == [] || key(l[0]) <= key(x) {
      assert ([x] + l)[0] == x && ([x] + l)[1..] == l;
    } else {
      var rest := Insert(x, l[1..], key);
      InsertCount(x, l[1..], key, p);
      assert ([l[0]] + rest)[0] == l[0] && ([l[0]] + rest)[1..] == rest;
    }
  }

  /** Sorting changes no count: as many elements satisfy `p` before as after. */
  lemma {:induction false} SortDescCount<T>(s: seq<T>, key: T -> int, p: T -> bool)
    ensures |Filter(SortDesc(s, key), p)| == |Filter(s, p)|
  {
    if s != [] {
      SortDescCount(s[1..], key, p);
      InsertCount(s[0], SortDesc(s[1..], key), key, p);
    }
  }
}

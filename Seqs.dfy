/** Sequence vocabulary shared by the modules: JavaScript's `filter`,
    `slice(0, n)`, `find`, a stable `sort` and "is a subsequence of". */
module Seqs {

  /** `s.filter(p)`: the elements satisfying `p`, in their original order. */
  function Filter<T>(s: seq<T>, p: T -> bool): (r: seq<T>)
    ensures |r| <= |s|
    ensures forall i :: 0 <= i < |r| ==> p(r[i])
  {
    if s == [] then []
    else (if p(s[0]) then [s[0]] else []) + Filter(s[1..], p)
  }

  lemma {:induction false} FilterMembership<T>(s: seq<T>, p: T -> bool, x: T)
    ensures x in Filter(s, p) <==> x in s && p(x)
  {
    if s != [] {
      FilterMembership(s[1..], p, x);
      assert s == [s[0]] + s[1..];
    }
  }

  lemma {:induction false} FilterConcat<T>(a: seq<T>, b: seq<T>, p: T -> bool)
    ensures Filter(a + b, p) == Filter(a, p) + Filter(b, p)
  {
    if a == [] {
      assert a + b == b;
    } else {
      assert (a + b)[1..] == a[1..] + b;
      FilterConcat(a[1..], b, p);
    }
  }

  /** Filtering a sequence whose elements all satisfy `p` keeps all of it. */
  lemma {:induction false} FilterAll<T>(s: seq<T>, p: T -> bool)
    requires forall i :: 0 <= i < |s| ==> p(s[i])
    ensures Filter(s, p) == s
  {
    if s != [] {
      FilterAll(s[1..], p);
    }
  }

  /** `a` can be obtained from `b` by deleting elements. */
  predicate IsSubsequence<T(==)>(a: seq<T>, b: seq<T>)
    decreases |b|
  {
    if a == [] then true
    else if b == [] then false
    else if a[0] == b[0] then IsSubsequence(a[1..], b[1..])
    else IsSubsequence(a, b[1..])
  }

  lemma {:induction false} FilterIsSubsequence<T>(s: seq<T>, p: T -> bool)
    ensures IsSubsequence(Filter(s, p), s)
  {
    if s != [] {
      FilterIsSubsequence(s[1..], p);
      var rest := Filter(s[1..], p);
      if p(s[0]) {
        assert Filter(s, p) == [s[0]] + rest;
        assert ([s[0]] + rest)[1..] == rest;
      } else {
        assert Filter(s, p) == rest;
        SubsequenceSkip(rest, s);
      }
    }
  }

  /** `filter` keeps exactly the elements satisfying `p`, in their order. */
  lemma FilterKeepsExactly<T>(s: seq<T>, p: T -> bool)
    ensures forall x :: x in Filter(s, p) <==> x in s && p(x)
    ensures IsSubsequence(Filter(s, p), s)
  {
    forall x
      ensures x in Filter(s, p) <==> x in s && p(x)
    {
      FilterMembership(s, p, x);
    }
    FilterIsSubsequence(s, p);
  }

  /** Dropping the head of the longer sequence keeps a subsequence when
      the shorter one is already a subsequence of its tail. */
  lemma {:induction false} SubsequenceSkip<T>(a: seq<T>, b: seq<T>)
    requires b != [] && IsSubsequence(a, b[1..])
    ensures IsSubsequence(a, b)
    decreases 2 * |b|
  {
    if a != [] && a[0] == b[0] {
      // IsSubsequence(a, b) needs IsSubsequence(a[1..], b[1..]).
      SubsequenceTail(a, b[1..]);
    }
  }

  lemma {:induction false} SubsequenceTail<T>(a: seq<T>, b: seq<T>)
    requires a != [] && IsSubsequence(a, b)
    ensures IsSubsequence(a[1..], b)
    decreases 2 * |b| + 1
  {
    assert b != [];
    if a[0] == b[0] {
      assert IsSubsequence(a[1..], b[1..]);
      if a[1..] != [] {
        SubsequenceSkip(a[1..], b);
      }
    } else {
      SubsequenceTail(a, b[1..]);
      if a[1..] != [] {
        SubsequenceSkip(a[1..], b);
      }
    }
  }

  /** `s.slice(0, n)`. */
  function Take<T>(s: seq<T>, n: nat): (r: seq<T>)
    ensures |r| == if |s| <= n then |s| else n
    ensures r == s[..|r|]
  {
    if |s| <= n then s else s[..n]
  }

  /** `s.findIndex(p)` when something matches: the first index whose element satisfies `p`. */
  function FindIndex<T>(s: seq<T>, p: T -> bool): (k: int)
    ensures -1 <= k < |s|
    ensures k >= 0 ==> p(s[k]) && forall j :: 0 <= j < k ==> !p(s[j])
    ensures k == -1 ==> forall j :: 0 <= j < |s| ==> !p(s[j])
  {
    if s == [] then -1
    else if p(s[0]) then 0
    else var k := FindIndex(s[1..], p); if k == -1 then -1 else k + 1
  }

  /** The number of elements satisfying `p`. */
  function Count<T>(s: seq<T>, p: T -> bool): (n: nat)
    ensures n == |Filter(s, p)|
  {
    if s == [] then 0 else (if p(s[0]) then 1 else 0) + Count(s[1..], p)
  }

  lemma {:induction false} CountConcat<T>(a: seq<T>, b: seq<T>, p: T -> bool)
    ensures Count(a + b, p) == Count(a, p) + Count(b, p)
  {
    FilterConcat(a, b, p);
  }

  /** The elements are in non-decreasing order of `key`. */
  predicate SortedBy<T>(s: seq<T>, key: T -> int) {
    forall i, j :: 0 <= i < j < |s| ==> key(s[i]) <= key(s[j])
  }

  /** Inserts `x` before the first element whose key is at least `key(x)`,
      so that `x` stays ahead of the equal keys that follow it. */
  function InsertBy<T>(x: T, s: seq<T>, key: T -> int): seq<T>
  {
    if s == [] then [x]
    else if key(x) <= key(s[0]) then [x] + s
    else [s[0]] + InsertBy(x, s[1..], key)
  }

  /** A stable sort on ascending `key` (Array.prototype.sort is stable). */
  function SortBy<T>(s: seq<T>, key: T -> int): seq<T>
  {
    if s == [] then [] else InsertBy(s[0], SortBy(s[1..], key), key)
  }

  /** Every key of `InsertBy(x, s, key)` is at least a bound that `x` and all of `s` meet. */
  lemma {:induction false} InsertByBound<T>(x: T, s: seq<T>, key: T -> int, lo: int)
    requires lo <= key(x)
    requires forall i :: 0 <= i < |s| ==> lo <= key(s[i])
    ensures forall i :: 0 <= i < |InsertBy(x, s, key)| ==> lo <= key(InsertBy(x, s, key)[i])
  {
    if s != [] && key(x) > key(s[0]) {
      InsertByBound(x, s[1..], key, lo);
    }
  }

  lemma {:induction false} InsertByKeeps<T>(x: T, s: seq<T>, key: T -> int)
    requires SortedBy(s, key)
    ensures SortedBy(InsertBy(x, s, key), key)
    ensures multiset(InsertBy(x, s, key)) == multiset(s) + multiset{x}
  {
    if s == [] {
    } else if key(x) <= key(s[0]) {
    } else {
      var t := s[1..];
      assert s == [s[0]] + t;
      InsertByKeeps(x, t, key);
      InsertByBound(x, t, key, key(s[0]));
    }
  }

  lemma {:induction false} SortByIsSortedPermutation<T>(s: seq<T>, key: T -> int)
    ensures SortedBy(SortBy(s, key), key)
    ensures multiset(SortBy(s, key)) == multiset(s)
    ensures |SortBy(s, key)| == |s|
  {
    if s != [] {
      SortByIsSortedPermutation(s[1..], key);
      InsertByKeeps(s[0], SortBy(s[1..], key), key);
      assert s == [s[0]] + s[1..];
    }
    assert |multiset(SortBy(s, key))| == |multiset(s)|;
  }
}

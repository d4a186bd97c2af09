/** Sequence helpers with the meaning of JavaScript's `Array.prototype.filter`
    and of a `reduce` that adds up a number per element. */
module Seqs {

  /** The elements of `s` that satisfy `p`, in their original order. */
  function Filter<T(!new)>(s: seq<T>, p: T -> bool): (r: seq<T>)
    ensures |r| <= |s|
    ensures forall x :: x in r <==> x in s && p(x)
  {
    if s == [] then [] else (if p(s[0]) then [s[0]] else []) + Filter(s[1..], p)
  }

  /** Filtering distributes over concatenation. */
  lemma {:induction false} FilterAppend<T(!new)>(a: seq<T>, b: seq<T>, p: T -> bool)
    ensures Filter(a + b, p) == Filter(a, p) + Filter(b, p)
  {
    if a == [] {
      assert a + b == b;
    } else {
      assert (a + b)[1..] == a[1..] + b;
      FilterAppend(a[1..], b, p);
    }
  }

  /** A filter that every element passes keeps the whole sequence. */
  lemma {:induction false} FilterKeepsAll<T(!new)>(s: seq<T>, p: T -> bool)
    requires forall x :: x in s ==> p(x)
    ensures Filter(s, p) == s
  {
    if s != [] {
      FilterKeepsAll(s[1..], p);
    }
  }

  /** A weaker test keeps at least as many elements. */
  lemma {:induction false} FilterMonotone<T(!new)>(s: seq<T>, p: T -> bool, q: T -> bool)
    requires forall x :: p(x) ==> q(x)
    ensures |Filter(s, p)| <= |Filter(s, q)|
  {
    if s != [] {
      FilterMonotone(s[1..], p, q);
    }
  }

  /** Two filters in a row are one filter by both tests. */
  lemma {:induction false} FilterFilter<T(!new)>(s: seq<T>, p: T -> bool, q: T -> bool, pq: T -> bool)
    requires forall x :: pq(x) == (p(x) && q(x))
    ensures Filter(Filter(s, p), q) == Filter(s, pq)
  {
    if s != [] {
      FilterFilter(s[1..], p, q, pq);
      var rest := Filter(s[1..], p);
      if p(s[0]) {
        assert Filter(s, p) == [s[0]] + rest;
        assert ([s[0]] + rest)[1..] == rest;
      } else {
        assert Filter(s, p) == rest;
      }
    }
  }

  /** Two tests that agree on every element keep the same elements. */
  lemma {:induction false} FilterEquiv<T(!new)>(s: seq<T>, p: T -> bool, q: T -> bool)
    requires forall x :: x in s ==> p(x) == q(x)
    ensures Filter(s, p) == Filter(s, q)
  {
    if s != [] {
      FilterEquiv(s[1..], p, q);
    }
  }

  /** Counting over a range one value at a time from the bottom. */
  lemma FilterRangeStep(lo: int, hi: int, p: int -> bool)
    requires lo < hi
    ensures |Filter(Range(lo, hi), p)| == (if p(lo) then 1 else 0) + |Filter(Range(lo + 1, hi), p)|
  {
    var rest := Range(lo + 1, hi);
    assert Range(lo, hi) == [lo] + rest;
    assert ([lo] + rest)[1..] == rest;
  }

  /** Removing by a test that exactly one element fails drops just that
      element and keeps the rest in order. */
  lemma {:induction false} FilterDropsOne<T(!new)>(s: seq<T>, p: T -> bool, k: nat)
    requires k < |s| && !p(s[k])
    requires forall i :: 0 <= i < |s| && i != k ==> p(s[i])
    ensures Filter(s, p) == s[..k] + s[k + 1..]
  {
    var t := s[1..];
    if k == 0 {
      forall x | x in t ensures p(x) {
        var i :| 0 <= i < |t| && t[i] == x;
        assert s[i + 1] == x;
      }
      FilterKeepsAll(t, p);
    } else {
      FilterDropsOne(t, p, k - 1);
      assert s[..k] == [s[0]] + t[..k - 1];
      assert s[k + 1..] == t[k..];
    }
  }

  /** When every element passing `p` passes exactly one of `q` and `r`, and
      no other element passes either, `p` keeps as many as `q` and `r`
      together. */
  lemma {:induction false} FilterPartition<T(!new)>(s: seq<T>, p: T -> bool, q: T -> bool, r: T -> bool)
    requires forall x :: x in s ==> p(x) == (q(x) || r(x)) && !(q(x) && r(x))
    ensures |Filter(s, q)| + |Filter(s, r)| == |Filter(s, p)|
  {
    if s != [] {
      assert forall x :: x in s[1..] ==> x in s;
      assert s[0] in s;
      FilterPartition(s[1..], p, q, r);
    }
  }

  /** `s.map(x => p(x) ? f(x) : x)`: the elements that pass `p` are replaced
      by their image under `f`. */
  function MapWhere<T>(s: seq<T>, p: T -> bool, f: T -> T): (r: seq<T>)
    ensures |r| == |s|
  {
    seq(|s|, i requires 0 <= i < |s| => if p(s[i]) then f(s[i]) else s[i])
  }

  /** Replacing twice by an involution that keeps the test restores the
      sequence. */
  lemma MapWhereTwice<T>(s: seq<T>, p: T -> bool, f: T -> T)
    requires forall x :: p(f(x)) == p(x) && f(f(x)) == x
    ensures MapWhere(MapWhere(s, p, f), p, f) == s
  {
    var once := MapWhere(s, p, f);
    forall i | 0 <= i < |s| ensures MapWhere(once, p, f)[i] == s[i] {
      assert once[i] == if p(s[i]) then f(s[i]) else s[i];
    }
  }

  /** Replacing by a map that keeps the test `q` keeps the count `q`
      passes. */
  lemma {:induction false} MapWhereKeepsCount<T(!new)>(s: seq<T>, p: T -> bool, f: T -> T, q: T -> bool)
    requires forall x :: q(f(x)) == q(x)
    ensures |Filter(MapWhere(s, p, f), q)| == |Filter(s, q)|
  {
    if s != [] {
      var m := MapWhere(s, p, f);
      assert m[1..] == MapWhere(s[1..], p, f);
      MapWhereKeepsCount(s[1..], p, f, q);
    }
  }

  /** Replacing the one element that passes `p`, which fails `q`, by an
      image that passes `q` makes `q` keep one more element. */
  lemma {:induction false} MapWhereAddsOne<T(!new)>(s: seq<T>, p: T -> bool, f: T -> T, q: T -> bool, k: nat)
    requires k < |s| && p(s[k]) && !q(s[k]) && q(f(s[k]))
    requires forall i :: 0 <= i < |s| && i != k ==> !p(s[i])
    ensures |Filter(MapWhere(s, p, f), q)| == |Filter(s, q)| + 1
  {
    var m := MapWhere(s, p, f);
    assert m[1..] == MapWhere(s[1..], p, f);
    if k == 0 {
      assert MapWhere(s[1..], p, f) == s[1..];
    } else {
      MapWhereAddsOne(s[1..], p, f, q, k - 1);
    }
  }

  /** The sum of `f` over the elements of `s` (a `reduce` with `+`). */
  function SumBy<T>(s: seq<T>, f: T -> int): int
  {
    if s == [] then 0 else f(s[0]) + SumBy(s[1..], f)
  }

  /** Summing distributes over concatenation. */
  lemma {:induction false} SumByAppend<T>(a: seq<T>, b: seq<T>, f: T -> int)
    ensures SumBy(a + b, f) == SumBy(a, f) + SumBy(b, f)
  {
    if a == [] {
      assert a + b == b;
    } else {
      assert (a + b)[1..] == a[1..] + b;
      SumByAppend(a[1..], b, f);
    }
  }

  /** The integers lo, lo+1, ..., hi-1 in ascending order. */
  function Range(lo: int, hi: int): (r: seq<int>)
    requires lo <= hi
    ensures |r| == hi - lo
    ensures forall k :: 0 <= k < |r| ==> r[k] == lo + k
    decreases hi - lo
  {
    if lo == hi then [] else [lo] + Range(lo + 1, hi)
  }
}

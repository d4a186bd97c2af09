/** A JavaScript object used as a dictionary with string keys, modelled as an
    association list in insertion order (the order `Object.entries` reports
    for keys that are not array indices), and the `reduce` that fills one. */
module Records {
  import opened Wrappers
  import opened Seqs

  /** `r[k]`, or None when `k` was never set. */
  function Get<K(==), V>(r: seq<(K, V)>, k: K): Option<V>
  {
    if r == [] then None else if r[0].0 == k then Some(r[0].1) else Get(r[1..], k)
  }

  /** `r[k] = v`: overwrites an existing key where it stands, appends a new one. */
  function Put<K(==), V>(r: seq<(K, V)>, k: K, v: V): seq<(K, V)>
  {
    if r == [] then [(k, v)]
    else if r[0].0 == k then [(k, v)] + r[1..]
    else [r[0]] + Put(r[1..], k, v)
  }

  /** `Object.keys(r)`. */
  function Keys<K, V>(r: seq<(K, V)>): (ks: seq<K>)
    ensures |ks| == |r| && forall i :: 0 <= i < |r| ==> ks[i] == r[i].0
  {
    seq(|r|, i requires 0 <= i < |r| => r[i].0)
  }

  predicate DistinctKeys<K(==), V>(r: seq<(K, V)>) {
    forall i, j :: 0 <= i < j < |r| ==> r[i].0 != r[j].0
  }

  /** A key has a value exactly when it is one of the keys. */
  lemma {:induction false} GetSomeIffKey<K, V>(r: seq<(K, V)>, k: K)
    ensures Get(r, k).Some? <==> k in Keys(r)
  {
    if r != [] {
      GetSomeIffKey(r[1..], k);
      assert Keys(r) == [r[0].0] + Keys(r[1..]);
    }
  }

  /** Reading back what was written; other keys keep their values. */
  lemma {:induction false} GetPut<K, V>(r: seq<(K, V)>, k: K, v: V, k': K)
    ensures Get(Put(r, k, v), k') == if k' == k then Some(v) else Get(r, k')
  {
    if r != [] && r[0].0 != k {
      GetPut(r[1..], k, v, k');
    }
  }

  /** Writing keeps the keys in place and appends a key it has not seen. */
  lemma {:induction false} KeysPut<K, V>(r: seq<(K, V)>, k: K, v: V)
    ensures Keys(Put(r, k, v)) == if k in Keys(r) then Keys(r) else Keys(r) + [k]
  {
    if r != [] {
      var p := Put(r, k, v);
      KeysCons(r);
      KeysCons(p);
      if r[0].0 != k {
        KeysPut(r[1..], k, v);
        assert p[0] == r[0] && p[1..] == Put(r[1..], k, v);
        assert k in Keys(r) <==> k in Keys(r[1..]);
      } else {
        assert p[0].0 == k && p[1..] == r[1..];
        assert k in Keys(r);
      }
    }
  }

  lemma KeysCons<K, V>(r: seq<(K, V)>)
    requires r != []
    ensures Keys(r) == [r[0].0] + Keys(r[1..])
  {
    assert Keys(r)[1..] == Keys(r[1..]);
  }

  /** Writing never creates a second entry for a key. */
  lemma PutDistinct<K, V>(r: seq<(K, V)>, k: K, v: V)
    requires DistinctKeys(r)
    ensures DistinctKeys(Put(r, k, v))
  {
    KeysPut(r, k, v);
    var ks := Keys(Put(r, k, v));
    forall i, j | 0 <= i < j < |Put(r, k, v)| ensures Put(r, k, v)[i].0 != Put(r, k, v)[j].0 {
      assert ks[i] == Put(r, k, v)[i].0 && ks[j] == Put(r, k, v)[j].0;
      if k !in Keys(r) && j == |r| {
        assert ks[i] == Keys(r)[i];
      }
    }
  }

  /** The elements of `xs` whose key is `k`, in their original order. */
  function WithKey<T, K(==)>(xs: seq<T>, key: T -> K, k: K): (ys: seq<T>)
    ensures |ys| <= |xs|
  {
    if xs == [] then [] else (if key(xs[0]) == k then [xs[0]] else []) + WithKey(xs[1..], key, k)
  }

  /** No element has key `k` exactly when none is selected for it. */
  lemma {:induction false} WithKeyEmpty<T, K>(xs: seq<T>, key: T -> K, k: K)
    ensures WithKey(xs, key, k) == [] <==> forall x :: x in xs ==> key(x) != k
    decreases |xs|
  {
    if xs != [] {
      WithKeyEmpty(xs[1..], key, k);
      assert forall x :: x in xs ==> x == xs[0] || x in xs[1..];
    }
  }

  /** An element is selected for `k` exactly when it has key `k`. */
  lemma {:induction false} WithKeyMember<T, K>(xs: seq<T>, key: T -> K, k: K, x: T)
    ensures x in WithKey(xs, key, k) <==> x in xs && key(x) == k
    decreases |xs|
  {
    if xs != [] {
      WithKeyMember(xs[1..], key, k, x);
      assert x in xs <==> x == xs[0] || x in xs[1..];
    }
  }

  /** A left fold: `xs.reduce(add, v)`. */
  function FoldL<T, V>(v: V, xs: seq<T>, add: (V, T) -> V): V
  {
    if xs == [] then v else FoldL(add(v, xs[0]), xs[1..], add)
  }

  /** `xs.reduce((acc, x) => { acc[key(x)] = add(acc[key(x)] || zero, x); return acc; }, acc)`. */
  function Accumulate<T, K(==), V>(acc: seq<(K, V)>, xs: seq<T>, key: T -> K, zero: V, add: (V, T) -> V): seq<(K, V)>
    decreases |xs|
  {
    if xs == [] then acc
    else Accumulate(Put(acc, key(xs[0]), add(Get(acc, key(xs[0])).GetOr(zero), xs[0])), xs[1..], key, zero, add)
  }

  /** After the reduce, a key's entry is the fold of `add` over exactly the
      elements with that key, started from its previous value (or `zero`);
      a key no element has keeps its previous entry. */
  lemma {:induction false} AccumulateGet<T, K, V>(acc: seq<(K, V)>, xs: seq<T>, key: T -> K, zero: V, add: (V, T) -> V, k: K)
    ensures Get(Accumulate(acc, xs, key, zero, add), k) ==
      if WithKey(xs, key, k) == [] then Get(acc, k)
      else Some(FoldL(Get(acc, k).GetOr(zero), WithKey(xs, key, k), add))
    decreases |xs|
  {
    if xs != [] {
      var k0 := key(xs[0]);
      var acc' := Put(acc, k0, add(Get(acc, k0).GetOr(zero), xs[0]));
      AccumulateGet(acc', xs[1..], key, zero, add, k);
      GetPut(acc, k0, add(Get(acc, k0).GetOr(zero), xs[0]), k);
      var w := WithKey(xs[1..], key, k);
      if k0 == k {
        assert WithKey(xs, key, k) == [xs[0]] + w;
        assert ([xs[0]] + w)[1..] == w;
        assert FoldL(Get(acc, k).GetOr(zero), [xs[0]] + w, add) == FoldL(add(Get(acc, k).GetOr(zero), xs[0]), w, add);
      } else {
        assert WithKey(xs, key, k) == w;
      }
    }
  }

  /** The reduce keeps the keys distinct. */
  lemma {:induction false} AccumulateDistinct<T, K, V>(acc: seq<(K, V)>, xs: seq<T>, key: T -> K, zero: V, add: (V, T) -> V)
    requires DistinctKeys(acc)
    ensures DistinctKeys(Accumulate(acc, xs, key, zero, add))
    decreases |xs|
  {
    if xs != [] {
      var k0 := key(xs[0]);
      PutDistinct(acc, k0, add(Get(acc, k0).GetOr(zero), xs[0]));
      AccumulateDistinct(Put(acc, k0, add(Get(acc, k0).GetOr(zero), xs[0])), xs[1..], key, zero, add);
    }
  }

  /** Folding an append over a sequence rebuilds it: grouping keeps order. */
  lemma {:induction false} FoldAppend<T>(v: seq<T>, xs: seq<T>, add: (seq<T>, T) -> seq<T>)
    requires forall w, x :: add(w, x) == w + [x]
    ensures FoldL(v, xs, add) == v + xs
    decreases |xs|
  {
    if xs != [] {
      FoldAppend(v + [xs[0]], xs[1..], add);
      assert v + [xs[0]] + xs[1..] == v + xs;
    }
  }

  /** Folding an increment counts the elements. */
  lemma {:induction false} FoldCount<T>(v: int, xs: seq<T>, add: (int, T) -> int)
    requires forall w, x :: add(w, x) == w + 1
    ensures FoldL(v, xs, add) == v + |xs|
    decreases |xs|
  {
    if xs != [] {
      FoldCount(v + 1, xs[1..], add);
    }
  }

  /** Folding an addition of `f` adds up `f`. */
  lemma {:induction false} FoldSum<T>(v: int, xs: seq<T>, add: (int, T) -> int, f: T -> int)
    requires forall w, x :: add(w, x) == w + f(x)
    ensures FoldL(v, xs, add) == v + SumBy(xs, f)
    decreases |xs|
  {
    if xs != [] {
      FoldSum(v + f(xs[0]), xs[1..], add, f);
    }
  }

  /** The sum of all values of a dictionary with numeric values. */
  function SumValues<K>(r: seq<(K, int)>): int
  {
    if r == [] then 0 else r[0].1 + SumValues(r[1..])
  }

  /** Overwriting one entry changes the total by the difference. */
  lemma {:induction false} SumValuesPut<K>(r: seq<(K, int)>, k: K, v: int)
    requires DistinctKeys(r)
    ensures SumValues(Put(r, k, v)) == SumValues(r) - Get(r, k).GetOr(0) + v
  {
    if r != [] && r[0].0 != k {
      SumValuesPut(r[1..], k, v);
    } else if r != [] {
      assert Get(r[1..], k) == None by {
        GetSomeIffKey(r[1..], k);
      }
    }
  }

  /** A reduce that adds `f` per element raises the total by the sum of `f`. */
  lemma {:induction false} AccumulateSum<T, K>(acc: seq<(K, int)>, xs: seq<T>, key: T -> K, add: (int, T) -> int, f: T -> int)
    requires DistinctKeys(acc)
    requires forall w, x :: add(w, x) == w + f(x)
    ensures SumValues(Accumulate(acc, xs, key, 0, add)) == SumValues(acc) + SumBy(xs, f)
    decreases |xs|
  {
    if xs != [] {
      var k0 := key(xs[0]);
      var acc' := Put(acc, k0, add(Get(acc, k0).GetOr(0), xs[0]));
      SumValuesPut(acc, k0, add(Get(acc, k0).GetOr(0), xs[0]));
      PutDistinct(acc, k0, add(Get(acc, k0).GetOr(0), xs[0]));
      AccumulateSum(acc', xs[1..], key, add, f);
    }
  }
}

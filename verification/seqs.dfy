/**
 * Generic sequence operations the Go code writes out as loops: filtering,
 * taking a prefix, sorting by a descending key and cutting into batches.
 */
module Seqs {

  /**
   * `r` is obtained from `s` by deleting elements: the elements of `r`
   * occur in `s` in the same relative order.
   */
  ghost predicate Subsequence<T>(r: seq<T>, s: seq<T>)
    decreases |s|
  {
    if r == [] then true
    else if s == [] then false
    else (r[0] == s[0] && Subsequence(r[1..], s[1..])) || Subsequence(r, s[1..])
  }

  /**
   * `r` holds every occurrence in `s` of a value satisfying `p` and no
   * occurrence of any other value of `s`.
   */
  ghost predicate KeepsCounts<T>(r: seq<T>, s: seq<T>, p: T -> bool)
  {
    forall i :: 0 <= i < |s| ==> multiset(r)[s[i]] == if p(s[i]) then multiset(s)[s[i]] else 0
  }

  /**
   * The elements of `s` that satisfy `p`, in their original order: a
   * subsequence of `s` that keeps every occurrence of a satisfying value
   * and no occurrence of any other.
   */
  function Filter<T>(s: seq<T>, p: T -> bool): (r: seq<T>)
    ensures |r| <= |s|
    ensures forall i :: 0 <= i < |r| ==> r[i] in s && p(r[i])
    ensures forall i :: 0 <= i < |s| && p(s[i]) ==> s[i] in r
    ensures Subsequence(r, s)
  {
    if s == [] then []
    else
      assert s == [s[0]] + s[1..];
      var rest := Filter(s[1..], p);
      if p(s[0]) then
        assert ([s[0]] + rest)[1..] == rest;
        [s[0]] + rest
      else rest
  }

  /** Every sequence is a subsequence of itself. */
  lemma {:induction false} SubsequenceRefl<T>(s: seq<T>)
    ensures Subsequence(s, s)
    decreases |s|
  {
    if s != [] {
      SubsequenceRefl(s[1..]);
    }
  }

  /** Filtering keeps every occurrence of a satisfying value and drops every other. */
  lemma {:induction false} FilterKeepsCounts<T>(s: seq<T>, p: T -> bool)
    ensures KeepsCounts(Filter(s, p), s, p)
  {
    if s != [] {
      assert s == [s[0]] + s[1..];
      FilterKeepsCounts(s[1..], p);
      var r := Filter(s, p);
      var rest := Filter(s[1..], p);
      assert r == if p(s[0]) then [s[0]] + rest else rest;
      forall i | 0 <= i < |s|
        ensures multiset(r)[s[i]] == if p(s[i]) then multiset(s)[s[i]] else 0
      {
        if i > 0 {
          assert s[i] == s[1..][i - 1];
        } else if !p(s[0]) && s[0] in rest {
          assert false;
        } else if !p(s[0]) {
          assert multiset(rest)[s[0]] == 0;
        } else if s[0] !in s[1..] {
          assert multiset(rest)[s[0]] == 0;
        } else {
          var j :| 0 <= j < |s[1..]| && s[1..][j] == s[0];
        }
      }
    }
  }

  /** Filtering commutes with concatenation, so the order of survivors is the input order. */
  lemma {:induction false} FilterAppend<T>(a: seq<T>, b: seq<T>, p: T -> bool)
    ensures Filter(a + b, p) == Filter(a, p) + Filter(b, p)
  {
    if a == [] {
      assert a + b == b;
    } else {
      assert (a + b)[1..] == a[1..] + b;
      FilterAppend(a[1..], b, p);
    }
  }

  /** Filtering a sequence extended by one element extends the filtered sequence by that element when it passes. */
  lemma FilterSnoc<T>(s: seq<T>, x: T, p: T -> bool)
    ensures Filter(s + [x], p) == Filter(s, p) + (if p(x) then [x] else [])
  {
    FilterAppend(s, [x], p);
    assert [x][1..] == [];
  }

  /** A filter that keeps everything is the identity. */
  lemma {:induction false} FilterAll<T>(s: seq<T>, p: T -> bool)
    requires forall i :: 0 <= i < |s| ==> p(s[i])
    ensures Filter(s, p) == s
  {
    if s != [] {
      FilterAll(s[1..], p);
    }
  }

  /** Go's `s[:n]` guarded by `len(s) > n`: the first `n` elements, or all of them. */
  function Take<T>(s: seq<T>, n: nat): (r: seq<T>)
    ensures |r| == if |s| < n then |s| else n
    ensures forall i :: 0 <= i < |r| ==> r[i] == s[i]
  {
    if |s| <= n then s else s[..n]
  }

  /** A prefix holds no element more often than the whole sequence. */
  lemma TakeSubMultiset<T>(s: seq<T>, n: nat)
    ensures multiset(Take(s, n)) <= multiset(s)
  {
    if n < |s| {
      assert s == s[..n] + s[n..];
    }
  }

  /** `p` is an initial segment of `s`. */
  predicate IsPrefix<T(==)>(p: seq<T>, s: seq<T>)
  {
    |p| <= |s| && s[..|p|] == p
  }

  /** `t` is a final segment of `s`. */
  predicate IsSuffix<T(==)>(t: seq<T>, s: seq<T>)
  {
    |t| <= |s| && s[|s| - |t|..] == t
  }

  function Min(a: int, b: int): int { if a <= b then a else b }

  function Max(a: int, b: int): int { if a >= b then a else b }

  /** Non-increasing order of `key` along the sequence. */
  predicate SortedDesc<T>(s: seq<T>, key: T -> real)
  {
    forall i, j :: 0 <= i < j < |s| ==> key(s[i]) >= key(s[j])
  }

  function InsertDesc<T>(x: T, s: seq<T>, key: T -> real): (r: seq<T>)
    requires SortedDesc(s, key)
    ensures SortedDesc(r, key)
    ensures multiset(r) == multiset(s) + multiset{x}
    ensures |r| == |s| + 1
    ensures r[0] == x || (s != [] && r[0] == s[0])
  {
    if s == [] || key(x) >= key(s[0]) then [x] + s
    else
      var rest := InsertDesc(x, s[1..], key);
      assert s == [s[0]] + s[1..];
      assert key(rest[0]) <= key(s[0]);
      [s[0]] + rest
  }

  /**
   * Sorting by a descending key, the model of Go's `sort.Slice` with a `>`
   * comparator. Go's sort is not stable; this one is, which is one of the
   * orders Go may produce, and the contract only promises the order and the
   * permutation.
   */
  function SortDesc<T>(s: seq<T>, key: T -> real): (r: seq<T>)
    ensures SortedDesc(r, key)
    ensures multiset(r) == multiset(s)
    ensures |r| == |s|
  {
    if s == [] then []
    else
      assert s == [s[0]] + s[1..];
      InsertDesc(s[0], SortDesc(s[1..], key), key)
  }

  /**
   * The first `limit` elements of a descending sort are a top-`limit`
   * selection: an element left out means the prefix is full and scores
   * at least as high.
   */
  lemma TopK<T>(s: seq<T>, key: T -> real, limit: nat, x: T)
    requires x in s
    requires x !in Take(SortDesc(s, key), limit)
    ensures |Take(SortDesc(s, key), limit)| == limit
    ensures forall i :: 0 <= i < |Take(SortDesc(s, key), limit)| ==> key(Take(SortDesc(s, key), limit)[i]) >= key(x)
  {
    var sorted := SortDesc(s, key);
    assert x in multiset(s);
    assert x in multiset(sorted);
    var k :| 0 <= k < |sorted| && sorted[k] == x;
  }

  lemma TakeSortFacts<T>(s: seq<T>, key: T -> real, limit: nat)
    ensures var r := Take(SortDesc(s, key), limit);
      |r| <= limit && (forall i :: 0 <= i < |r| ==> r[i] in s)
      && (forall i, j :: 0 <= i < j < |r| ==> key(r[i]) >= key(r[j]))
  {
    var sorted := SortDesc(s, key);
    var r := Take(sorted, limit);
    forall i | 0 <= i < |r|
      ensures r[i] in s
    {
      assert r[i] == sorted[i];
      assert sorted[i] in multiset(sorted);
      assert r[i] in multiset(s);
    }
  }

  /** Concatenation of a sequence of sequences. */
  function Flatten<T>(ss: seq<seq<T>>): seq<T>
  {
    if ss == [] then [] else ss[0] + Flatten(ss[1..])
  }

  /** Every element of a part is an element of the concatenation. */
  lemma {:induction false} InFlatten<T>(ss: seq<seq<T>>, i: nat, j: nat)
    requires i < |ss| && j < |ss[i]|
    ensures ss[i][j] in Flatten(ss)
  {
    if i > 0 {
      assert ss[1..][i - 1] == ss[i];
      InFlatten(ss[1..], i - 1, j);
    } else {
      assert Flatten(ss)[j] == ss[0][j];
    }
  }

  /**
   * Go's `for i := 0; i < len(xs); i += size { batch := xs[i:min(i+size, len(xs))] }`.
   */
  function Batches<T>(xs: seq<T>, size: nat): (r: seq<seq<T>>)
    requires size > 0
    ensures forall i :: 0 <= i < |r| ==> 0 < |r[i]| <= size
    ensures forall i :: 0 <= i < |r| - 1 ==> |r[i]| == size
    ensures Flatten(r) == xs
    decreases |xs|
  {
    if |xs| <= size then (if xs == [] then [] else [xs])
    else
      var rest := Batches(xs[size..], size);
      assert xs == xs[..size] + xs[size..];
      [xs[..size]] + rest
  }

  /** Sum of reals. */
  function Sum(s: seq<real>): real
  {
    if s == [] then 0.0 else s[0] + Sum(s[1..])
  }

  lemma {:induction false} SumAppend(a: seq<real>, b: seq<real>)
    ensures Sum(a + b) == Sum(a) + Sum(b)
  {
    if a == [] {
      assert a + b == b;
    } else {
      assert (a + b)[1..] == a[1..] + b;
      SumAppend(a[1..], b);
    }
  }

  /** The values of `s` that satisfy `p` (a `for ... if ... {count++}` loop). */
  function CountWhere<T>(s: seq<T>, p: T -> bool): (n: nat)
    ensures n == |Filter(s, p)|
    ensures n <= |s|
  {
    if s == [] then 0 else (if p(s[0]) then 1 else 0) + CountWhere(s[1..], p)
  }

  /** No element occurs twice. */
  predicate NoDup<T(==)>(s: seq<T>)
  {
    forall i, j :: 0 <= i < j < |s| ==> s[i] != s[j]
  }

  /** `order` lists the keys of a Go map (or a Redis key space) exactly once, in iteration order. */
  predicate Enumerates<K(==)>(order: seq<K>, keys: set<K>)
  {
    NoDup(order) && (forall i :: 0 <= i < |order| ==> order[i] in keys)
    && (forall k :: k in keys ==> k in order)
  }

  /** An enumeration of a set has exactly as many elements as the set. */
  lemma {:induction false} EnumeratesCard<K>(order: seq<K>, keys: set<K>)
    requires Enumerates(order, keys)
    ensures |order| == |keys|
  {
    if order != [] {
      var k := order[0];
      assert Enumerates(order[1..], keys - {k}) by {
        forall i | 0 <= i < |order| - 1
          ensures order[1..][i] in keys - {k}
        {
          assert order[1..][i] == order[i + 1];
        }
        forall x | x in keys - {k}
          ensures x in order[1..]
        {
          var j :| 0 <= j < |order| && order[j] == x;
          assert j != 0;
          assert order[1..][j - 1] == x;
        }
      }
      EnumeratesCard(order[1..], keys - {k});
    } else {
      assert forall x :: x in keys ==> x in order;
      assert keys == {};
    }
  }
}

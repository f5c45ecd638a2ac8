/**
 * The array operations the client's catalogue views are built from:
 * `Array.prototype.filter`, `Array.prototype.find`, and the insertion order
 * of a JavaScript `Set`.
 */
module Seqs {
  import opened Wrappers

  /** `a` can be obtained from `b` by deleting elements, so `a` keeps `b`'s order. */
  predicate IsSubsequence<T(==)>(a: seq<T>, b: seq<T>)
    decreases |b|
  {
    if a == [] then true
    else if b == [] then false
    else (a[0] == b[0] && IsSubsequence(a[1..], b[1..])) || IsSubsequence(a, b[1..])
  }

  predicate NoDuplicates<T(==)>(xs: seq<T>) {
    forall i, j :: 0 <= i < j < |xs| ==> xs[i] != xs[j]
  }

  /** `xs.filter(p)`: the elements satisfying `p`. */
  function Filter<T(==)>(p: T -> bool, xs: seq<T>): (r: seq<T>)
    ensures |r| <= |xs|
    ensures forall i :: 0 <= i < |r| ==> r[i] in xs && p(r[i])
    ensures forall i :: 0 <= i < |xs| && p(xs[i]) ==> xs[i] in r
  {
    if xs == [] then []
    else
      var rest := Filter(p, xs[1..]);
      assert forall i :: 1 <= i < |xs| ==> xs[i] == xs[1..][i - 1];
      if p(xs[0]) then [xs[0]] + rest else rest
  }

  /** Filtering deletes elements and never reorders the ones it keeps. */
  lemma {:induction false} FilterIsSubsequence<T>(p: T -> bool, xs: seq<T>)
    ensures IsSubsequence(Filter(p, xs), xs)
  {
    if xs != [] {
      FilterIsSubsequence(p, xs[1..]);
      var rest := Filter(p, xs[1..]);
      if p(xs[0]) {
        assert ([xs[0]] + rest)[1..] == rest;
      } else if rest != [] {
        assert IsSubsequence(rest, xs[1..]);
      }
    }
  }

  /** Filtering keeps every occurrence of a satisfying element and no occurrence of another. */
  lemma {:induction false} FilterCount<T>(p: T -> bool, xs: seq<T>, x: T)
    ensures multiset(Filter(p, xs))[x] == if p(x) then multiset(xs)[x] else 0
  {
    if xs != [] {
      FilterCount(p, xs[1..], x);
      assert xs == [xs[0]] + xs[1..];
    }
  }

  /** When every element satisfies `p`, filtering changes nothing. */
  lemma {:induction false} FilterKeepsAll<T>(p: T -> bool, xs: seq<T>)
    requires forall i :: 0 <= i < |xs| ==> p(xs[i])
    ensures Filter(p, xs) == xs
  {
    if xs != [] {
      FilterKeepsAll(p, xs[1..]);
      assert [xs[0]] + xs[1..] == xs;
    }
  }

  /** Filtering twice by the same predicate is filtering once. */
  lemma FilterIdempotent<T>(p: T -> bool, xs: seq<T>)
    ensures Filter(p, Filter(p, xs)) == Filter(p, xs)
  {
    var r := Filter(p, xs);
    assert forall i :: 0 <= i < |r| ==> r[i] in r;
    FilterKeepsAll(p, r);
  }

  /** Predicates that agree on the elements of `xs` filter it alike. */
  lemma {:induction false} FilterCongruent<T>(p: T -> bool, q: T -> bool, xs: seq<T>)
    requires forall i :: 0 <= i < |xs| ==> p(xs[i]) == q(xs[i])
    ensures Filter(p, xs) == Filter(q, xs)
  {
    if xs != [] {
      assert p(xs[0]) == q(xs[0]);
      FilterCongruent(p, q, xs[1..]);
    }
  }

  /** `xs.find(p)`: the first element satisfying `p`, or `None` when there is none. */
  function Find<T(==)>(p: T -> bool, xs: seq<T>): (r: Option<T>)
    ensures r.None? <==> forall i :: 0 <= i < |xs| ==> !p(xs[i])
    ensures r.Some? ==> exists i :: 0 <= i < |xs| && xs[i] == r.value && p(xs[i]) && forall j :: 0 <= j < i ==> !p(xs[j])
  {
    if xs == [] then None
    else if p(xs[0]) then Some(xs[0])
    else
      var r := Find(p, xs[1..]);
      assert r.Some? ==> exists i :: 0 <= i < |xs| && xs[i] == r.value && p(xs[i]) && forall j :: 0 <= j < i ==> !p(xs[j]) by {
        if r.Some? {
          var k :| 0 <= k < |xs[1..]| && xs[1..][k] == r.value && p(xs[1..][k]) && forall j :: 0 <= j < k ==> !p(xs[1..][j]);
          assert xs[k + 1] == r.value;
          forall j | 0 <= j < k + 1 ensures !p(xs[j]) {
            if j > 0 { assert xs[j] == xs[1..][j - 1]; }
          }
        }
      }
      r
  }

  /** The position of the first occurrence of `x` in `xs`. */
  function FirstIndex<T(==)>(xs: seq<T>, x: T): (k: nat)
    requires x in xs
    ensures k < |xs| && xs[k] == x && x !in xs[..k]
  {
    if xs[0] == x then 0
    else
      var k := FirstIndex(xs[1..], x);
      assert xs[..k + 1] == [xs[0]] + xs[1..][..k];
      k + 1
  }

  /** Any position holding `x` with no `x` before it is the first index of `x`. */
  lemma FirstIndexUnique<T>(xs: seq<T>, x: T, k: nat)
    requires k < |xs| && xs[k] == x && x !in xs[..k]
    ensures FirstIndex(xs, x) == k
  {
  }

  /**
   * `Array.from(new Set(xs))`: the distinct elements of `xs`, each at the
   * place where the Set first received it.
   */
  function Distinct<T(==)>(xs: seq<T>): (r: seq<T>)
    ensures forall i :: 0 <= i < |r| ==> r[i] in xs
    ensures forall i :: 0 <= i < |xs| ==> xs[i] in r
    ensures NoDuplicates(r)
    decreases |xs|
  {
    if xs == [] then []
    else
      var init := xs[..|xs| - 1];
      var last := xs[|xs| - 1];
      var r := Distinct(init);
      assert xs == init + [last];
      if last in r then r else r + [last]
  }

  /** The Set lists its elements in the order of their first occurrences in `xs`. */
  lemma {:induction false} DistinctFirstOccurrenceOrder<T>(xs: seq<T>, i: nat, j: nat)
    requires i < j < |Distinct(xs)|
    ensures FirstIndex(xs, Distinct(xs)[i]) < FirstIndex(xs, Distinct(xs)[j])
  {
    var n := |xs|;
    var init := xs[..n - 1];
    var last := xs[n - 1];
    var r0 := Distinct(init);
    var r := Distinct(xs);
    assert xs == init + [last];
    // Elements already in `init` have the same first index in `xs`.
    forall y | y in init ensures FirstIndex(xs, y) == FirstIndex(init, y) {
      var k := FirstIndex(init, y);
      assert xs[..k] == init[..k];
      FirstIndexUnique(xs, y, k);
    }
    if j < |r0| {
      DistinctFirstOccurrenceOrder(init, i, j);
      assert r[i] == r0[i] && r[j] == r0[j];
    } else {
      assert last !in r0 && r == r0 + [last] && j == |r0|;
      assert r0[i] in init;
      assert last !in xs[..n - 1];
      FirstIndexUnique(xs, last, n - 1);
    }
  }
}

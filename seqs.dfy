/** `Array.prototype.filter`, `find` and `some` on sequences, with the
    facts the rest of the model uses about them. */
module Seqs {
  import opened Common

  /** `xs.filter(p)`: the elements satisfying `p`, in their original order. */
  function Filter<T>(xs: seq<T>, p: T -> bool): (r: seq<T>)
    ensures |r| <= |xs|
    ensures forall i :: 0 <= i < |r| ==> r[i] in xs && p(r[i])
    ensures forall i :: 0 <= i < |xs| && p(xs[i]) ==> xs[i] in r
  {
    if xs == [] then [] else (if p(xs[0]) then [xs[0]] else []) + Filter(xs[1..], p)
  }

  /** Filtering distributes over concatenation. */
  lemma {:induction false} FilterAppend<T>(a: seq<T>, b: seq<T>, p: T -> bool)
    ensures Filter(a + b, p) == Filter(a, p) + Filter(b, p)
  {
    if a != [] {
      assert (a + b)[1..] == a[1..] + b;
      FilterAppend(a[1..], b, p);
    } else {
      assert a + b == b;
    }
  }

  /** A filter that every element passes keeps the whole sequence. */
  lemma {:induction false} FilterKeepsAll<T>(xs: seq<T>, p: T -> bool)
    requires forall i :: 0 <= i < |xs| ==> p(xs[i])
    ensures Filter(xs, p) == xs
  {
    if xs != [] {
      FilterKeepsAll(xs[1..], p);
    }
  }

  /** A filter that no element passes keeps nothing. */
  lemma {:induction false} FilterKeepsNone<T>(xs: seq<T>, p: T -> bool)
    requires forall i :: 0 <= i < |xs| ==> !p(xs[i])
    ensures Filter(xs, p) == []
  {
    if xs != [] {
      FilterKeepsNone(xs[1..], p);
    }
  }

  /** The number of elements of `xs` that satisfy `p`. */
  function Count<T>(xs: seq<T>, p: T -> bool): nat {
    |Filter(xs, p)|
  }

  /** Appending one element adds one to the count exactly when it satisfies
      the predicate. */
  lemma CountSnoc<T>(xs: seq<T>, x: T, p: T -> bool)
    ensures Count(xs + [x], p) == Count(xs, p) + (if p(x) then 1 else 0)
  {
    FilterAppend(xs, [x], p);
  }

  /** Membership in a non-empty sequence: in all but the last, or the last. */
  lemma InInitOrLast<T>(xs: seq<T>, x: T)
    requires xs != []
    ensures x in xs <==> x in xs[..|xs| - 1] || x == xs[|xs| - 1]
  {
    if x in xs && x != xs[|xs| - 1] {
      var j :| 0 <= j < |xs| && xs[j] == x;
      assert xs[..|xs| - 1][j] == x;
    }
  }

  /** Filtering twice keeps the elements that pass both predicates. */
  lemma {:induction false} FilterFilter<T>(xs: seq<T>, p: T -> bool, q: T -> bool, pq: T -> bool)
    requires forall x :: pq(x) == (p(x) && q(x))
    ensures Filter(Filter(xs, p), q) == Filter(xs, pq)
  {
    if xs != [] {
      FilterFilter(xs[1..], p, q, pq);
      var f := Filter(xs, p);
      if p(xs[0]) {
        assert f == [xs[0]] + Filter(xs[1..], p);
        assert f[0] == xs[0] && f[1..] == Filter(xs[1..], p);
        assert Filter(f, q) == (if q(xs[0]) then [xs[0]] else []) + Filter(f[1..], q);
      } else {
        assert f == Filter(xs[1..], p);
      }
    }
  }

  /** Predicates that agree on every element of `xs` filter it alike. */
  lemma {:induction false} FilterCongruent<T>(xs: seq<T>, p: T -> bool, q: T -> bool)
    requires forall i :: 0 <= i < |xs| ==> p(xs[i]) == q(xs[i])
    ensures Filter(xs, p) == Filter(xs, q)
  {
    if xs != [] {
      FilterCongruent(xs[1..], p, q);
    }
  }

  /** `xs.some(p)`. */
  predicate Any<T>(xs: seq<T>, p: T -> bool) {
    exists i :: 0 <= i < |xs| && p(xs[i])
  }

  /** The position of the first element satisfying `p`, or `|xs|`. */
  function FirstIndex<T>(xs: seq<T>, p: T -> bool): (i: nat)
    ensures i <= |xs|
    ensures i < |xs| ==> p(xs[i])
    ensures forall j :: 0 <= j < i ==> !p(xs[j])
  {
    if xs == [] then 0
    else if p(xs[0]) then 0
    else 1 + FirstIndex(xs[1..], p)
  }

  /** `xs.find(p)`: the first element satisfying `p`, if any. */
  function Find<T>(xs: seq<T>, p: T -> bool): (r: Option<T>)
    ensures r.None? <==> !Any(xs, p)
    ensures r.Some? ==> r.value in xs && p(r.value)
    ensures r.Some? ==> exists i :: (0 <= i < |xs| && xs[i] == r.value
      && forall j :: 0 <= j < i ==> !p(xs[j]))
  {
    var i := FirstIndex(xs, p);
    if i < |xs| then Some(xs[i]) else None
  }

  /** The `reduce` that pushes every element into the bucket of its key,
      creating the bucket on first use. */
  function GroupBy<T, K>(xs: seq<T>, key: T -> K): map<K, seq<T>>
    decreases |xs|
  {
    if xs == [] then map[]
    else
      var g := GroupBy(xs[..|xs| - 1], key);
      var x := xs[|xs| - 1];
      g[key(x) := (if key(x) in g then g[key(x)] else []) + [x]]
  }

  /** There is a bucket exactly for every key some element has. */
  lemma {:induction false} GroupByKeys<T, K>(xs: seq<T>, key: T -> K, k: K)
    ensures k in GroupBy(xs, key) <==> exists i :: 0 <= i < |xs| && key(xs[i]) == k
    decreases |xs|
  {
    if xs != [] {
      var init := xs[..|xs| - 1];
      GroupByKeys(init, key, k);
      if exists i :: 0 <= i < |init| && key(init[i]) == k {
        var i :| 0 <= i < |init| && key(init[i]) == k;
        assert xs[i] == init[i];
      }
    }
  }

  /** Each bucket holds the elements with its key, in their original order;
      so every element lands in the bucket of its own key and in no other. */
  lemma {:induction false} GroupByBuckets<T, K>(xs: seq<T>, key: T -> K, k: K)
    requires k in GroupBy(xs, key)
    ensures GroupBy(xs, key)[k] == Filter(xs, (x: T) => key(x) == k)
    decreases |xs|
  {
    var p := (x: T) => key(x) == k;
    var init := xs[..|xs| - 1];
    var x := xs[|xs| - 1];
    var g := GroupBy(init, key);
    assert xs == init + [x];
    FilterAppend(init, [x], p);
    if k in g {
      GroupByBuckets(init, key, k);
    } else {
      GroupByKeys(init, key, k);
      FilterKeepsNone(init, p);
    }
  }

  /** The same, for any predicate that holds exactly on the elements with
      key `k`. */
  lemma GroupByBucketsAs<T, K>(xs: seq<T>, key: T -> K, k: K, p: T -> bool)
    requires k in GroupBy(xs, key)
    requires forall i :: 0 <= i < |xs| ==> p(xs[i]) == (key(xs[i]) == k)
    ensures GroupBy(xs, key)[k] == Filter(xs, p)
  {
    GroupByBuckets(xs, key, k);
    FilterCongruent(xs, (x: T) => key(x) == k, p);
  }

  /** `xs.filter((_, j) => j !== i)`: `xs` without position `i`, and all of
      `xs` when `i` is not one of its positions. */
  function RemoveAt<T>(xs: seq<T>, i: nat): (r: seq<T>)
    ensures i < |xs| ==> |r| == |xs| - 1
    ensures i >= |xs| ==> r == xs
    ensures forall k :: 0 <= k < i && k < |r| ==> r[k] == xs[k]
    ensures forall k :: i <= k < |r| ==> r[k] == xs[k + 1]
  {
    if i < |xs| then xs[..i] + xs[i + 1..] else xs
  }

  /** `xs.splice(i, 0, x)` on a copy: `x` placed at position `i`, the
      elements from `i` on shifted one place right. */
  function InsertAt<T>(xs: seq<T>, i: nat, x: T): (r: seq<T>)
    requires i <= |xs|
    ensures |r| == |xs| + 1 && r[i] == x
    ensures forall k :: 0 <= k < i ==> r[k] == xs[k]
    ensures forall k :: i < k < |r| ==> r[k] == xs[k - 1]
    ensures multiset(r) == multiset(xs) + multiset{x}
  {
    assert xs == xs[..i] + xs[i..];
    xs[..i] + [x] + xs[i..]
  }

  /** Removing what was just inserted gives the sequence back. */
  lemma RemoveInsert<T>(xs: seq<T>, i: nat, x: T)
    requires i <= |xs|
    ensures RemoveAt(InsertAt(xs, i, x), i) == xs
  {
  }

  /** Putting a removed element back where it was gives the sequence back. */
  lemma InsertRemove<T>(xs: seq<T>, i: nat)
    requires i < |xs|
    ensures InsertAt(RemoveAt(xs, i), i, xs[i]) == xs
  {
  }

  /** Removing one position takes exactly that element out of the multiset. */
  lemma RemoveAtMultiset<T>(xs: seq<T>, i: nat)
    requires i < |xs|
    ensures multiset(RemoveAt(xs, i)) + multiset{xs[i]} == multiset(xs)
  {
    assert xs == xs[..i] + [xs[i]] + xs[i + 1..];
  }
}

/** Sequence operations the dashboard builds every list from: JavaScript's
    `filter`, `filter(...).length`, `slice(0, k)` and `find`, with the facts
    about them that the pages and the data store rely on. */
module Seqs {

  /** `xs.filter(p)`: the elements satisfying `p`, in their original order. */
  function Filter<T>(xs: seq<T>, p: T -> bool): (r: seq<T>)
    ensures |r| <= |xs|
    ensures forall i :: 0 <= i < |r| ==> p(r[i])
    decreases |xs|
  {
    if xs == [] then []
    else if p(xs[0]) then [xs[0]] + Filter(xs[1..], p)
    else Filter(xs[1..], p)
  }

  /** `xs.filter(p).length`. */
  function Count<T>(xs: seq<T>, p: T -> bool): (n: nat)
    ensures n <= |xs|
  {
    |Filter(xs, p)|
  }

  /** `a` is `b` with some elements left out and the rest in the same order. */
  predicate IsSubseq<T(==)>(a: seq<T>, b: seq<T>)
    decreases |b|
  {
    a == [] || (b != [] && ((a[0] == b[0] && IsSubseq(a[1..], b[1..])) || IsSubseq(a, b[1..])))
  }

  /** Filtering keeps order and multiplicity: the result is a subsequence
      of the input in which every kept element occurs exactly as often as
      in the input, and every dropped element not at all. */
  lemma {:induction false} FilterExact<T>(xs: seq<T>, p: T -> bool)
    ensures IsSubseq(Filter(xs, p), xs)
    ensures forall x :: multiset(Filter(xs, p))[x] == if p(x) then multiset(xs)[x] else 0
    decreases |xs|
  {
    if xs != [] {
      FilterExact(xs[1..], p);
      assert xs == [xs[0]] + xs[1..];
      assert multiset(xs) == multiset{xs[0]} + multiset(xs[1..]);
      var rest := Filter(xs[1..], p);
      if p(xs[0]) {
        assert Filter(xs, p) == [xs[0]] + rest;
        assert multiset(Filter(xs, p)) == multiset{xs[0]} + multiset(rest);
        assert ([xs[0]] + rest)[1..] == rest;
      } else {
        assert Filter(xs, p) == rest;
      }
    }
  }

  /** An element is in the filtered list exactly when it is in the input
      and passes. */
  lemma FilterMembers<T>(xs: seq<T>, p: T -> bool)
    ensures forall x :: x in Filter(xs, p) <==> x in xs && p(x)
  {
    FilterExact(xs, p);
    forall x ensures x in Filter(xs, p) <==> x in xs && p(x) {
      assert x in Filter(xs, p) <==> multiset(Filter(xs, p))[x] > 0;
      assert x in xs <==> multiset(xs)[x] > 0;
    }
  }

  /** A filter that every element passes returns the input unchanged. */
  lemma {:induction false} FilterKeepsAll<T>(xs: seq<T>, p: T -> bool)
    requires forall i :: 0 <= i < |xs| ==> p(xs[i])
    ensures Filter(xs, p) == xs
    decreases |xs|
  {
    if xs != [] {
      FilterKeepsAll(xs[1..], p);
      assert [xs[0]] + xs[1..] == xs;
    }
  }

  /** The elements of `Filter(xs, p)` are exactly those positions of `xs`
      that pass, in order: the filter of a concatenation is the
      concatenation of the filters. */
  lemma {:induction false} FilterAppend<T>(xs: seq<T>, ys: seq<T>, p: T -> bool)
    ensures Filter(xs + ys, p) == Filter(xs, p) + Filter(ys, p)
    decreases |xs|
  {
    if xs == [] {
      assert xs + ys == ys;
    } else {
      assert (xs + ys)[1..] == xs[1..] + ys;
      FilterAppend(xs[1..], ys, p);
    }
  }

  /** Sub-collections split by three mutually exclusive predicates that
      cover every element: their counts add up to the whole. */
  lemma {:induction false} CountPartition3<T>(xs: seq<T>, p: T -> bool, q: T -> bool, r: T -> bool)
    requires forall i :: 0 <= i < |xs| ==> (if p(xs[i]) then 1 else 0) + (if q(xs[i]) then 1 else 0) + (if r(xs[i]) then 1 else 0) == 1
    ensures Count(xs, p) + Count(xs, q) + Count(xs, r) == |xs|
    decreases |xs|
  {
    if xs != [] {
      CountPartition3(xs[1..], p, q, r);
    }
  }

  /** Nothing is counted exactly when no element passes. */
  lemma {:induction false} CountZero<T>(xs: seq<T>, p: T -> bool)
    ensures Count(xs, p) == 0 <==> forall i :: 0 <= i < |xs| ==> !p(xs[i])
    decreases |xs|
  {
    if xs != [] {
      CountZero(xs[1..], p);
      assert forall i :: 1 <= i < |xs| ==> xs[i] == xs[1..][i - 1];
    }
  }

  /** When only the element at `k` fails, filtering removes exactly it. */
  lemma {:induction false} FilterDropsOne<T>(xs: seq<T>, p: T -> bool, k: nat)
    requires k < |xs| && !p(xs[k])
    requires forall i :: 0 <= i < |xs| && i != k ==> p(xs[i])
    ensures Filter(xs, p) == xs[..k] + xs[k + 1..]
  {
    var before, after := xs[..k], xs[k + 1..];
    assert xs == before + [xs[k]] + after;
    FilterAppend(before + [xs[k]], after, p);
    FilterAppend(before, [xs[k]], p);
    assert forall i :: 0 <= i < |before| ==> p(before[i]) by {
      forall i | 0 <= i < |before| ensures p(before[i]) {
        assert before[i] == xs[i];
      }
    }
    FilterKeepsAll(before, p);
    assert forall i :: 0 <= i < |after| ==> p(after[i]) by {
      forall i | 0 <= i < |after| ensures p(after[i]) {
        assert after[i] == xs[k + 1 + i];
      }
    }
    FilterKeepsAll(after, p);
    assert Filter([xs[k]], p) == [];
  }

  /** Two predicates that agree on every element filter alike. */
  lemma {:induction false} FilterSame<T>(xs: seq<T>, p: T -> bool, q: T -> bool)
    requires forall x :: p(x) == q(x)
    ensures Filter(xs, p) == Filter(xs, q)
    decreases |xs|
  {
    if xs != [] {
      FilterSame(xs[1..], p, q);
    }
  }

  /** Filtering by `p` and then by `q` is filtering once by their
      conjunction `pq`. */
  lemma {:induction false} FilterFilter<T>(xs: seq<T>, p: T -> bool, q: T -> bool, pq: T -> bool)
    requires forall x :: pq(x) == (p(x) && q(x))
    ensures Filter(Filter(xs, p), q) == Filter(xs, pq)
    decreases |xs|
  {
    if xs != [] {
      FilterFilter(xs[1..], p, q, pq);
      if p(xs[0]) {
        assert Filter(xs, p) == [xs[0]] + Filter(xs[1..], p);
        assert ([xs[0]] + Filter(xs[1..], p))[1..] == Filter(xs[1..], p);
      }
    }
  }

  /** The elements that pass and the elements that fail make up the whole. */
  lemma {:induction false} CountComplement<T>(xs: seq<T>, p: T -> bool, notP: T -> bool)
    requires forall x :: notP(x) == !p(x)
    ensures Count(xs, p) + Count(xs, notP) == |xs|
    decreases |xs|
  {
    if xs != [] {
      CountComplement(xs[1..], p, notP);
    }
  }

  /** `xs.slice(0, k)` for `k >= 0`: the first `min(k, |xs|)` elements. */
  function Take<T>(xs: seq<T>, k: nat): (r: seq<T>)
    ensures |r| == if k < |xs| then k else |xs|
    ensures r <= xs
  {
    if k < |xs| then xs[..k] else xs
  }

  /** The position `xs.find(p)` stops at: the first index whose element
      satisfies `p`, or none. */
  function FirstIndex<T>(xs: seq<T>, p: T -> bool): (r: Option<nat>)
    ensures r.None? <==> forall i :: 0 <= i < |xs| ==> !p(xs[i])
    ensures r.Some? ==> r.value < |xs| && p(xs[r.value]) && forall j :: 0 <= j < r.value ==> !p(xs[j])
    decreases |xs|
  {
    if xs == [] then None
    else if p(xs[0]) then Some(0)
    else match FirstIndex(xs[1..], p)
      case None => None
      case Some(k) => Some(k + 1)
  }

  /** `xs.find(p)`: the element at `FirstIndex(xs, p)`, if there is one. */
  function Find<T>(xs: seq<T>, p: T -> bool): (r: Option<T>)
    ensures r.None? <==> forall i :: 0 <= i < |xs| ==> !p(xs[i])
    ensures r.Some? ==> p(r.value)
    ensures r.Some? ==> exists k :: 0 <= k < |xs| && xs[k] == r.value && forall j :: 0 <= j < k ==> !p(xs[j])
  {
    match FirstIndex(xs, p)
    case None => None
    case Some(k) => Some(xs[k])
  }

  /** The `undefined`-or-value result of a lookup, and of an optional field. */
  datatype Option<+T> = None | Some(value: T) {
    /** `x ?? d` / `x || d` for a present value that is never falsy. */
    function GetOr(d: T): T {
      match this
      case Some(v) => v
      case None => d
    }
  }
}

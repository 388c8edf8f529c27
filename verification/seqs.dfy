/** Sequence operations the pages share: JavaScript's `Array.prototype.filter`,
    `flatMap` over arrays of arrays, and the counts read off filtered arrays. */
module Seqs {

  /** `a` is obtained from `b` by deleting elements; order is kept. */
  predicate IsSubsequence<T(==)>(a: seq<T>, b: seq<T>)
    decreases |b|
  {
    if |a| == 0 then true
    else if |b| == 0 then false
    else (a[0] == b[0] && IsSubsequence(a[1..], b[1..])) || IsSubsequence(a, b[1..])
  }

  /** `xs.filter(p)`: the elements satisfying `p`, in their original order. */
  function Filter<T(==)>(p: T -> bool, xs: seq<T>): (r: seq<T>)
    ensures |r| <= |xs|
    ensures IsSubsequence(r, xs)
    ensures forall i :: 0 <= i < |r| ==> p(r[i])
    ensures forall x :: x in r ==> x in xs
    ensures forall x :: x in xs && p(x) ==> x in r
  {
    if |xs| == 0 then []
    else if p(xs[0]) then [xs[0]] + Filter(p, xs[1..])
    else Filter(p, xs[1..])
  }

  /** The filter keeps every passing element as many times as it occurs and
      drops the others; with `IsSubsequence` this determines the result. */
  lemma {:induction false} FilterMultiset<T>(p: T -> bool, xs: seq<T>, x: T)
    ensures multiset(Filter(p, xs))[x] == if p(x) then multiset(xs)[x] else 0
  {
    if |xs| > 0 {
      assert xs == [xs[0]] + xs[1..];
      FilterMultiset(p, xs[1..], x);
    }
  }

  /** The positions of `xs` whose element satisfies `p`. */
  function Positions<T>(p: T -> bool, xs: seq<T>): set<int>
  {
    set i | 0 <= i < |xs| && p(xs[i])
  }

  lemma FilterSingleton<T>(p: T -> bool, z: T)
    ensures |Filter(p, [z])| == if p(z) then 1 else 0
  {
    assert [z][1..] == [];
  }

  /** Filtering an array counts its last element once if it passes. */
  lemma FilterLast<T>(p: T -> bool, xs: seq<T>)
    requires |xs| > 0
    ensures |Filter(p, xs)| == |Filter(p, xs[..|xs| - 1])| + if p(xs[|xs| - 1]) then 1 else 0
  {
    var ys, z := xs[..|xs| - 1], xs[|xs| - 1];
    assert xs == ys + [z];
    FilterConcat(p, ys, [z]);
    FilterSingleton(p, z);
  }

  /** The last position passes or not; the others are the prefix's. */
  lemma PositionsLast<T>(p: T -> bool, xs: seq<T>)
    requires |xs| > 0
    ensures |Positions(p, xs)| == |Positions(p, xs[..|xs| - 1])| + if p(xs[|xs| - 1]) then 1 else 0
  {
    var ys := xs[..|xs| - 1];
    var n := |ys|;
    forall i | 0 <= i < n
      ensures (i in Positions(p, xs)) <==> (i in Positions(p, ys))
    {
      assert xs[i] == ys[i];
    }
    assert n !in Positions(p, ys);
    if p(xs[n]) {
      assert Positions(p, xs) == Positions(p, ys) + {n};
    } else {
      assert Positions(p, xs) == Positions(p, ys);
    }
  }

  /** A filtered array holds one element per position that passes the test. */
  lemma {:induction false} FilterCountsPositions<T>(p: T -> bool, xs: seq<T>)
    ensures |Filter(p, xs)| == |Positions(p, xs)|
    decreases |xs|
  {
    if |xs| == 0 {
      assert Positions(p, xs) == {};
    } else {
      FilterLast(p, xs);
      PositionsLast(p, xs);
      FilterCountsPositions(p, xs[..|xs| - 1]);
    }
  }

  /** A filter that every element passes gives the array back unchanged. */
  lemma {:induction false} FilterKeepsAll<T>(p: T -> bool, xs: seq<T>)
    requires forall i :: 0 <= i < |xs| ==> p(xs[i])
    ensures Filter(p, xs) == xs
  {
    if |xs| > 0 {
      FilterKeepsAll(p, xs[1..]);
    }
  }

  /** Filtering distributes over concatenation. */
  lemma {:induction false} FilterConcat<T>(p: T -> bool, a: seq<T>, b: seq<T>)
    ensures Filter(p, a + b) == Filter(p, a) + Filter(p, b)
  {
    if |a| > 0 {
      assert (a + b)[0] == a[0];
      assert (a + b)[1..] == a[1..] + b;
      FilterConcat(p, a[1..], b);
    } else {
      assert a + b == b;
    }
  }

  /** Two filters whose predicates never hold together on `xs` select, between
      them, exactly as many elements as the filter by their disjunction. */
  lemma {:induction false} FilterDisjointCount<T>(p: T -> bool, q: T -> bool, xs: seq<T>)
    requires forall i :: 0 <= i < |xs| ==> !(p(xs[i]) && q(xs[i]))
    ensures |Filter(p, xs)| + |Filter(q, xs)| == |Filter(x => p(x) || q(x), xs)|
    ensures |Filter(p, xs)| + |Filter(q, xs)| <= |xs|
  {
    if |xs| > 0 {
      FilterDisjointCount(p, q, xs[1..]);
    }
  }

  /** When every element satisfies one of two disjoint predicates, the two
      filters partition the array: their lengths add up to its length. */
  lemma FilterPartitionCount<T>(p: T -> bool, q: T -> bool, xs: seq<T>)
    requires forall i :: 0 <= i < |xs| ==> !(p(xs[i]) && q(xs[i]))
    requires forall i :: 0 <= i < |xs| ==> p(xs[i]) || q(xs[i])
    ensures |Filter(p, xs)| + |Filter(q, xs)| == |xs|
  {
    FilterDisjointCount(p, q, xs);
    FilterKeepsAll(x => p(x) || q(x), xs);
  }

  /** `xss.flatMap(x => x)`: the inner arrays joined in order. */
  function Flatten<T>(xss: seq<seq<T>>): (r: seq<T>)
    ensures forall i :: 0 <= i < |xss| ==> |xss[i]| <= |r|
  {
    if |xss| == 0 then [] else xss[0] + Flatten(xss[1..])
  }

  /** Every element of a flattened array comes from one of the inner arrays,
      and every element of an inner array is in the flattened one. */
  lemma {:induction false} FlattenMembers<T>(xss: seq<seq<T>>, x: T)
    ensures x in Flatten(xss) <==> exists i :: 0 <= i < |xss| && x in xss[i]
  {
    if |xss| > 0 {
      FlattenMembers(xss[1..], x);
      if x in Flatten(xss[1..]) {
        var i :| 0 <= i < |xss[1..]| && x in xss[1..][i];
        assert x in xss[i + 1];
      }
      if exists i :: 0 <= i < |xss| && x in xss[i] {
        var i :| 0 <= i < |xss| && x in xss[i];
        if i > 0 {
          assert x in xss[1..][i - 1];
        }
      }
    }
  }

  /** Filtering a flattened array is flattening the filtered inner arrays. */
  lemma {:induction false} FilterFlatten<T>(p: T -> bool, xss: seq<seq<T>>)
    ensures Filter(p, Flatten(xss)) == Flatten(seq(|xss|, i requires 0 <= i < |xss| => Filter(p, xss[i])))
  {
    var mapped := seq(|xss|, i requires 0 <= i < |xss| => Filter(p, xss[i]));
    if |xss| > 0 {
      var rest := seq(|xss[1..]|, i requires 0 <= i < |xss[1..]| => Filter(p, xss[1..][i]));
      assert mapped[1..] == rest;
      FilterConcat(p, xss[0], Flatten(xss[1..]));
      FilterFlatten(p, xss[1..]);
      assert Flatten(mapped) == mapped[0] + Flatten(rest);
    }
  }
}

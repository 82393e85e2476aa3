/** Counting and de-duplication over sequences: the `Counter`-like dicts,
    `list(set(...))` and `not in` checks the system performs. */
module Seqs {

  predicate NoDuplicates<T(==,!new)>(xs: seq<T>) {
    forall i, j :: 0 <= i < j < |xs| ==> xs[i] != xs[j]
  }

  /** Number of occurrences of `x` in `xs`. */
  function Count<T(==,!new)>(xs: seq<T>, x: T): (n: nat)
    ensures n <= |xs|
    ensures n == 0 <==> x !in xs
    decreases |xs|
  {
    if |xs| == 0 then 0
    else
      assert forall y :: y in xs <==> y in xs[..|xs| - 1] || y == xs[|xs| - 1];
      Count(xs[..|xs| - 1], x) + (if xs[|xs| - 1] == x then 1 else 0)
  }

  lemma {:induction false} CountAppend<T(!new)>(xs: seq<T>, ys: seq<T>, x: T)
    ensures Count(xs + ys, x) == Count(xs, x) + Count(ys, x)
    decreases |ys|
  {
    if |ys| == 0 {
      assert xs + ys == xs;
    } else {
      assert (xs + ys)[..|xs + ys| - 1] == xs + ys[..|ys| - 1];
      CountAppend(xs, ys[..|ys| - 1], x);
    }
  }

  /** The elements of `xs` in order of first appearance, each once. */
  function Distinct<T(==,!new)>(xs: seq<T>): (d: seq<T>)
    ensures NoDuplicates(d)
    ensures forall x :: x in d <==> x in xs
    ensures |d| <= |xs|
    decreases |xs|
  {
    if |xs| == 0 then []
    else
      var p := Distinct(xs[..|xs| - 1]);
      assert forall y :: y in xs <==> y in xs[..|xs| - 1] || y == xs[|xs| - 1];
      if xs[|xs| - 1] in p then p else p + [xs[|xs| - 1]]
  }

  lemma CountSnoc<T(!new)>(xs: seq<T>, x: T, y: T)
    ensures Count(xs + [x], y) == Count(xs, y) + (if x == y then 1 else 0)
  {
    assert (xs + [x])[..|xs|] == xs;
  }

  lemma DistinctSnoc<T(!new)>(xs: seq<T>, x: T)
    ensures Distinct(xs + [x]) == if x in Distinct(xs) then Distinct(xs) else Distinct(xs) + [x]
  {
    assert (xs + [x])[..|xs|] == xs;
  }

  /** Total of the occurrence counts in `xs` of every key in `ks`. */
  function SumCounts<T(==,!new)>(ks: seq<T>, xs: seq<T>): nat
    decreases |ks|
  {
    if |ks| == 0 then 0 else Count(xs, ks[0]) + SumCounts(ks[1..], xs)
  }

  lemma {:induction false} SumCountsSnoc<T(!new)>(ks: seq<T>, xs: seq<T>, x: T)
    requires NoDuplicates(ks)
    ensures SumCounts(ks, xs + [x]) == SumCounts(ks, xs) + (if x in ks then 1 else 0)
    decreases |ks|
  {
    if |ks| > 0 {
      assert (xs + [x])[..|xs + [x]| - 1] == xs;
      SumCountsSnoc(ks[1..], xs, x);
      assert x in ks <==> x == ks[0] || x in ks[1..];
    }
  }

  lemma {:induction false} SumCountsAppendKey<T(!new)>(ks: seq<T>, k: T, xs: seq<T>)
    ensures SumCounts(ks + [k], xs) == SumCounts(ks, xs) + Count(xs, k)
    decreases |ks|
  {
    if |ks| == 0 {
      assert ks + [k] == [k];
    } else {
      assert (ks + [k])[1..] == ks[1..] + [k];
      SumCountsAppendKey(ks[1..], k, xs);
    }
  }

  /** Counting every distinct element accounts for every position exactly once. */
  lemma {:induction false} SumCountsOverDistinct<T(!new)>(xs: seq<T>)
    ensures SumCounts(Distinct(xs), xs) == |xs|
    decreases |xs|
  {
    if |xs| > 0 {
      var p := xs[..|xs| - 1];
      var x := xs[|xs| - 1];
      assert xs == p + [x];
      var dp := Distinct(p);
      SumCountsOverDistinct(p);
      SumCountsSnoc(dp, p, x);
      if x !in dp {
        SumCountsAppendKey(dp, x, xs);
      }
    }
  }

  lemma {:induction false} SumCountsEmpty<T(!new)>(ks: seq<T>)
    ensures SumCounts(ks, []) == 0
    decreases |ks|
  {
    if |ks| > 0 {
      SumCountsEmpty(ks[1..]);
    }
  }

  /** Keys listed once count each element at most once, and every element exactly once
      when all of them are keys. */
  lemma {:induction false} SumCountsAtMost<T(!new)>(ks: seq<T>, xs: seq<T>)
    requires NoDuplicates(ks)
    ensures SumCounts(ks, xs) <= |xs|
    ensures (forall x :: x in xs ==> x in ks) ==> SumCounts(ks, xs) == |xs|
    decreases |xs|
  {
    if |xs| == 0 {
      SumCountsEmpty(ks);
    } else {
      var p := xs[..|xs| - 1];
      assert xs == p + [xs[|xs| - 1]];
      SumCountsAtMost(ks, p);
      SumCountsSnoc(ks, p, xs[|xs| - 1]);
    }
  }

  /** `counts` and its key order tally the occurrences in `flat`: the dictionary a
      counting loop builds over strings. */
  ghost predicate Tally(counts: map<string, nat>, order: seq<string>, flat: seq<string>) {
    order == Distinct(flat) &&
    (forall t :: t in counts <==> t in order) &&
    (forall t :: t in counts ==> counts[t] == Count(flat, t))
  }

  lemma TallySnoc(counts: map<string, nat>, order: seq<string>, flat: seq<string>, tag: string)
    requires Tally(counts, order, flat)
    ensures tag in counts ==> Tally(counts[tag := counts[tag] + 1], order, flat + [tag])
    ensures tag !in counts ==> Tally(counts[tag := 1], order + [tag], flat + [tag])
  {
    DistinctSnoc(flat, tag);
    forall t ensures Count(flat + [tag], t) == Count(flat, t) + (if tag == t then 1 else 0) {
      CountSnoc(flat, tag, t);
    }
  }

  /** `a` can be obtained from `b` by deleting elements. */
  predicate IsSubsequence<T(==,!new)>(a: seq<T>, b: seq<T>)
    decreases |b|
  {
    |a| == 0 || (|b| > 0 && if a[0] == b[0] then IsSubsequence(a[1..], b[1..]) else IsSubsequence(a, b[1..]))
  }

  /** `xs[:n]` for `n >= 0`: the first `n` elements, or all of them. */
  function Take<T>(xs: seq<T>, n: nat): (r: seq<T>)
    ensures r <= xs
    ensures |r| == if n < |xs| then n else |xs|
  {
    if n < |xs| then xs[..n] else xs
  }

  function Sum(xs: seq<int>): int
    decreases |xs|
  {
    if |xs| == 0 then 0 else Sum(xs[..|xs| - 1]) + xs[|xs| - 1]
  }
}

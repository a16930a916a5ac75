/** The nearest-rank percentile of the two load harnesses, over whole percentages 1 to 100. */
module Percentile {
  import opened Sequences

  predicate AtMost(a: int, b: int) { a <= b }

  /** `Math.ceil((p / 100) * n)`. */
  function CeilPercent(p: nat, n: nat): nat { (p * n + 99) / 100 }

  /** The acceptance harness's version: sorts a copy, null when there is nothing. */
  function OfValues(values: seq<int>, p: nat): Option<int>
    requires 1 <= p <= 100
  {
    if values == [] then None
    else
      var sorted := Sort(values, AtMost);
      SortPermutes(values, AtMost);
      RankInRange(p, |values|);
      Some(sorted[Min(|sorted| - 1, CeilPercent(p, |sorted|) - 1)])
  }

  /** The overview harness's version: given sorted values. */
  function OfSorted(sorted: seq<int>, p: nat): int
    requires sorted != [] && 1 <= p <= 100
  {
    RankInRange(p, |sorted|);
    sorted[Min(|sorted| - 1, Max(0, CeilPercent(p, |sorted|) - 1))]
  }

  lemma {:induction false} RankInRange(p: nat, n: nat)
    requires n > 0 && 1 <= p <= 100
    ensures 1 <= CeilPercent(p, n) <= n
  {
    assert 1 <= p * n <= 100 * n;
  }

  /** Reaching the rounded-up rank is reaching the share itself. */
  lemma {:induction false} CeilMeans(p: nat, n: nat, count: int)
    requires count >= 0
    ensures count >= CeilPercent(p, n) <==> 100 * count >= p * n
  {
    var share := p * n;
    assert CeilPercent(p, n) == (share + 99) / 100;
  }

  /** One for each value of at most `x`. */
  function Counts(x: int): int -> int { (v: int) => if v <= x then 1 else 0 }

  /** How many values are at most `x`. */
  function CountAtMost(values: seq<int>, x: int): int { SumBy(values, Counts(x)) }

  lemma {:induction false} CountBounds(values: seq<int>, x: int)
    ensures 0 <= CountAtMost(values, x) <= |values|
  {
    if values != [] { CountBounds(values[..|values| - 1], x); }
  }

  /** In sorted values, the count reaches `k` exactly when the `k`-th one is at most `x`. */
  lemma {:induction false} CountInSorted(sorted: seq<int>, x: int, k: nat)
    requires Ordered(sorted, AtMost) && 1 <= k <= |sorted|
    ensures CountAtMost(sorted, x) >= k <==> sorted[k - 1] <= x
  {
    var front, last := sorted[..|sorted| - 1], sorted[|sorted| - 1];
    CountBounds(front, x);
    if k < |sorted| {
      CountInSorted(front, x, k);
      assert AtMost(sorted[k - 1], last);
    } else if last <= x && front != [] {
      CountInSorted(front, x, |front|);
      assert AtMost(front[|front| - 1], last);
    }
  }

  lemma {:induction false} SortedNumbers(values: seq<int>)
    ensures Ordered(Sort(values, AtMost), AtMost) && multiset(Sort(values, AtMost)) == multiset(values)
    ensures |Sort(values, AtMost)| == |values|
  {
    assert TotalPreorder(AtMost);
    SortOrders(values, AtMost);
    SortPermutes(values, AtMost);
  }

  lemma {:induction false} AtRank(values: seq<int>, p: nat)
    requires values != [] && 1 <= p <= 100
    ensures 1 <= CeilPercent(p, |values|) <= |values| == |Sort(values, AtMost)|
    ensures OfValues(values, p) == Some(Sort(values, AtMost)[CeilPercent(p, |values|) - 1])
  {
    SortPermutes(values, AtMost);
    RankInRange(p, |values|);
  }

  /** What a latency gate means: the p-th percentile is at most `x` if and only if at least
      p percent of the values are. */
  lemma {:induction false} GateMeansShare(values: seq<int>, p: nat, x: int)
    requires values != [] && 1 <= p <= 100
    ensures OfValues(values, p).value <= x <==> 100 * CountAtMost(values, x) >= p * |values|
  {
    var rank := CeilPercent(p, |values|);
    RankInRange(p, |values|);
    AtRank(values, p);
    SortedNumbers(values);
    CountInSorted(Sort(values, AtMost), x, rank);
    SumByPermutation(Sort(values, AtMost), values, Counts(x));
    CountBounds(values, x);
    CeilMeans(p, |values|, CountAtMost(values, x));
  }

  /** Nearest rank: the result is one of the values, p percent are at most it, and fewer are below it. */
  lemma {:induction false} NearestRank(values: seq<int>, p: nat)
    requires values != [] && 1 <= p <= 100
    ensures var v := OfValues(values, p).value;
            && v in values
            && 100 * CountAtMost(values, v) >= p * |values|
            && 100 * CountAtMost(values, v - 1) < p * |values|
  {
    var v := OfValues(values, p).value;
    GateMeansShare(values, p, v);
    GateMeansShare(values, p, v - 1);
    AtRank(values, p);
    SortPermutes(values, AtMost);
  }

  /** Nothing else is a nearest rank, so the order of the values does not matter. */
  lemma {:induction false} NearestRankIsUnique(values: seq<int>, p: nat, v: int)
    requires values != [] && 1 <= p <= 100
    requires 100 * CountAtMost(values, v) >= p * |values| && 100 * CountAtMost(values, v - 1) < p * |values|
    ensures OfValues(values, p) == Some(v)
  {
    GateMeansShare(values, p, v);
    GateMeansShare(values, p, v - 1);
  }

  /** A larger percentage never gives a smaller percentile: p50 <= p95 <= p99. */
  lemma {:induction false} PercentilesRise(values: seq<int>, p: nat, q: nat)
    requires values != [] && 1 <= p <= q <= 100
    ensures OfValues(values, p).value <= OfValues(values, q).value
  {
    var w := OfValues(values, q).value;
    GateMeansShare(values, q, w);
    SmallerShare(p, q, |values|);
    GateMeansShare(values, p, w);
  }

  lemma {:induction false} SmallerShare(p: nat, q: nat, n: nat)
    requires p <= q
    ensures p * n <= q * n
  {
    assert (q - p) * n >= 0;
  }

  /** The 100th percentile is the maximum. */
  lemma {:induction false} HundredthIsMaximum(values: seq<int>, x: int)
    requires x in values
    ensures x <= OfValues(values, 100).value
  {
    var sorted := Sort(values, AtMost);
    SortedNumbers(values);
    SortPermutes(values, AtMost);
    AtRank(values, 100);
    assert CeilPercent(100, |values|) == |values|;
    var i :| 0 <= i < |sorted| && sorted[i] == x;
    assert i < |sorted| - 1 ==> AtMost(sorted[i], sorted[|sorted| - 1]);
  }

  /** The two harnesses agree. */
  lemma {:induction false} VersionsAgree(values: seq<int>, p: nat)
    requires values != [] && 1 <= p <= 100
    ensures |Sort(values, AtMost)| == |values| && OfValues(values, p) == Some(OfSorted(Sort(values, AtMost), p))
  {
    SortPermutes(values, AtMost);
    RankInRange(p, |values|);
  }
}

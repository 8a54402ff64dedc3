/** Latency histograms (apps/api/src/observability.rs): what a cumulative histogram knows about the
    samples behind it. Times are reals in milliseconds. */
module Latency {

  const BOUNDS: seq<real> :=
    [5.0, 10.0, 25.0, 50.0, 100.0, 250.0, 500.0, 1_000.0, 2_500.0, 5_000.0, 15_000.0, 60_000.0]

  datatype Duration = Finite(ms: real) | NonFinite

  function Larger(a: real, b: real): real { if a < b then b else a }
  function Smaller(a: real, b: real): real { if a < b then a else b }

  /** What is recorded for a measured duration. */
  function Clamped(duration: Duration): (ms: real)
    ensures 0.0 <= ms <= 60_000.0
    ensures duration.Finite? && 0.0 <= duration.ms <= 60_000.0 ==> ms == duration.ms
    ensures !(duration.Finite? && 0.0 <= duration.ms <= 60_000.0) ==> ms == 60_000.0
  {
    if duration.Finite? && 0.0 <= duration.ms then Smaller(duration.ms, 60_000.0) else 60_000.0
  }

  datatype Histogram = Histogram(count: nat, sum: real, max: real, buckets: seq<nat>)

  const EMPTY: Histogram := Histogram(0, 0.0, 0.0, Zeros(|BOUNDS|))

  function Zeros(n: nat): (r: seq<nat>)
    ensures |r| == n
  {
    if n == 0 then [] else Zeros(n - 1) + [0]
  }

  /** Twelve buckets and a maximum that is no less than zero: all that merging relies on. */
  predicate Shaped(h: Histogram) { |h.buckets| == 12 && 0.0 <= h.max }

  /** Every bucket whose bound the duration does not exceed gains one. */
  function Bumped(buckets: seq<nat>, ms: real): (r: seq<nat>)
    requires |buckets| <= 12
    ensures |r| == |buckets|
  {
    if buckets == [] then []
    else
      var n := |buckets| - 1;
      Bumped(buckets[..n], ms) + [buckets[n] + if ms <= BOUNDS[n] then 1 else 0]
  }

  function Summed(a: seq<nat>, b: seq<nat>): (r: seq<nat>)
    requires |a| == |b|
    ensures |r| == |a|
  {
    if a == [] then [] else Summed(a[..|a| - 1], b[..|a| - 1]) + [a[|a| - 1] + b[|a| - 1]]
  }

  lemma {:induction false} ZerosAt(n: nat)
    ensures forall k :: 0 <= k < n ==> Zeros(n)[k] == 0
  {
    if n == 0 {
    } else {
      ZerosAt(n - 1);
    }
  }

  lemma {:induction false} BumpedAt(buckets: seq<nat>, ms: real)
    requires |buckets| <= 12
    ensures forall k :: 0 <= k < |buckets| ==> Bumped(buckets, ms)[k] == buckets[k] + if ms <= BOUNDS[k] then 1 else 0
  {
    if buckets == [] {
    } else {
      BumpedAt(buckets[..|buckets| - 1], ms);
    }
  }

  lemma {:induction false} SummedAt(a: seq<nat>, b: seq<nat>)
    requires |a| == |b|
    ensures forall k :: 0 <= k < |a| ==> Summed(a, b)[k] == a[k] + b[k]
  {
    if a == [] {
    } else {
      SummedAt(a[..|a| - 1], b[..|a| - 1]);
    }
  }

  function Observed(h: Histogram, duration: Duration): (r: Histogram)
    requires Shaped(h)
    ensures Shaped(r)
  {
    var ms := Clamped(duration);
    Histogram(h.count + 1, h.sum + ms, Larger(h.max, ms), Bumped(h.buckets, ms))
  }

  function Merged(h: Histogram, g: Histogram): (r: Histogram)
    requires Shaped(h) && Shaped(g)
    ensures Shaped(r)
  {
    Histogram(h.count + g.count, h.sum + g.sum, Larger(h.max, g.max), Summed(h.buckets, g.buckets))
  }

  /** The aggregate as it is updated in place. */
  class LatencyAggregate {
    var count: nat
    var sum: real
    var max: real
    const buckets: array<nat>

    ghost predicate Valid() reads this { buckets.Length == 12 && 0.0 <= max }

    ghost function Value(): Histogram reads this, buckets { Histogram(count, sum, max, buckets[..]) }

    constructor ()
      ensures Valid() && fresh(buckets) && Value() == EMPTY
    {
      count, sum, max := 0, 0.0, 0.0;
      buckets := new nat[12](_ => 0);
      ZerosAt(12);
    }

    method Observe(duration: Duration)
      requires Valid()
      modifies this, buckets
      ensures Valid() && Value() == Observed(old(Value()), duration)
    {
      var ms := Clamped(duration);
      BumpedAt(buckets[..], ms);
      count := count + 1;
      sum := sum + ms;
      max := Larger(max, ms);
      for index := 0 to 12
        modifies buckets
        invariant forall k :: 0 <= k < index ==> buckets[k] == old(buckets[k]) + if ms <= BOUNDS[k] then 1 else 0
        invariant forall k :: index <= k < 12 ==> buckets[k] == old(buckets[k])
      {
        if ms <= BOUNDS[index] {
          buckets[index] := buckets[index] + 1;
        }
      }
    }

    method Merge(other: LatencyAggregate)
      requires Valid() && other.Valid() && other != this && other.buckets != buckets
      modifies this, buckets
      ensures Valid() && Value() == Merged(old(Value()), old(other.Value()))
    {
      SummedAt(buckets[..], other.buckets[..]);
      count := count + other.count;
      sum := sum + other.sum;
      max := Larger(max, other.max);
      for index := 0 to 12
        modifies buckets
        invariant forall k :: 0 <= k < index ==> buckets[k] == old(buckets[k]) + old(other.buckets[k])
        invariant forall k :: index <= k < 12 ==> buckets[k] == old(buckets[k])
      {
        buckets[index] := buckets[index] + other.buckets[index];
      }
    }
  }

  // ---------------------------------------------------------------- what a histogram means

  function Total(samples: seq<real>): real {
    if samples == [] then 0.0 else Total(samples[..|samples| - 1]) + samples[|samples| - 1]
  }

  function Greatest(samples: seq<real>): real {
    if samples == [] then 0.0 else Larger(Greatest(samples[..|samples| - 1]), samples[|samples| - 1])
  }

  function AtMost(samples: seq<real>, bound: real): nat {
    if samples == [] then 0
    else AtMost(samples[..|samples| - 1], bound) + if samples[|samples| - 1] <= bound then 1 else 0
  }

  /** For the first `n` bounds, how many samples do not exceed each. */
  function Counts(samples: seq<real>, n: nat): (r: seq<nat>)
    requires n <= 12
    ensures |r| == n
  {
    if n == 0 then [] else Counts(samples, n - 1) + [AtMost(samples, BOUNDS[n - 1])]
  }

  lemma {:induction false} CountsAt(samples: seq<real>, n: nat)
    requires n <= 12
    ensures forall k :: 0 <= k < n ==> Counts(samples, n)[k] == AtMost(samples, BOUNDS[k])
  {
    if n == 0 {
    } else {
      CountsAt(samples, n - 1);
    }
  }

  /** The histogram of a sequence of recorded samples, defined without any updating. */
  function Of(samples: seq<real>): Histogram {
    Histogram(|samples|, Total(samples), Greatest(samples), Counts(samples, 12))
  }

  predicate Recordable(samples: seq<real>) {
    forall i :: 0 <= i < |samples| ==> 0.0 <= samples[i] <= 60_000.0
  }

  lemma {:induction false} OfShaped(samples: seq<real>)
    ensures Shaped(Of(samples))
  {
    if samples == [] {
    } else {
      OfShaped(samples[..|samples| - 1]);
    }
  }

  /** Observing is appending one sample. */
  lemma ObservedOf(samples: seq<real>, duration: Duration)
    ensures Shaped(Of(samples))
    ensures Observed(Of(samples), duration) == Of(samples + [Clamped(duration)])
  {
    OfShaped(samples);
    var ms := Clamped(duration);
    assert (samples + [ms])[..|samples|] == samples;
    BumpedAt(Counts(samples, 12), ms);
    CountsAt(samples, 12);
    CountsAt(samples + [ms], 12);
    assert Bumped(Counts(samples, 12), ms) == Counts(samples + [ms], 12);
  }

  lemma {:induction false} MomentsConcat(s: seq<real>, t: seq<real>)
    ensures Total(s + t) == Total(s) + Total(t)
    ensures Greatest(s + t) == Larger(Greatest(s), Greatest(t))
    ensures 0.0 <= Greatest(s)
  {
    OfShaped(s);
    if t == [] {
      assert s + t == s;
    } else {
      MomentsConcat(s, t[..|t| - 1]);
      assert (s + t)[..|s + t| - 1] == s + t[..|t| - 1];
    }
  }

  lemma {:induction false} AtMostConcat(s: seq<real>, t: seq<real>, bound: real)
    ensures AtMost(s + t, bound) == AtMost(s, bound) + AtMost(t, bound)
  {
    if t == [] {
      assert s + t == s;
    } else {
      AtMostConcat(s, t[..|t| - 1], bound);
      assert (s + t)[..|s + t| - 1] == s + t[..|t| - 1];
    }
  }

  /** Merging is concatenating. */
  lemma MergedOf(s: seq<real>, t: seq<real>)
    ensures Shaped(Of(s)) && Shaped(Of(t))
    ensures Merged(Of(s), Of(t)) == Of(s + t)
  {
    OfShaped(s);
    OfShaped(t);
    MomentsConcat(s, t);
    CountsAt(s, 12);
    CountsAt(t, 12);
    CountsAt(s + t, 12);
    SummedAt(Counts(s, 12), Counts(t, 12));
    forall k | 0 <= k < 12
      ensures Counts(s + t, 12)[k] == Summed(Counts(s, 12), Counts(t, 12))[k]
    {
      AtMostConcat(s, t, BOUNDS[k]);
    }
    assert Counts(s + t, 12) == Summed(Counts(s, 12), Counts(t, 12));
  }

  lemma EmptyOf()
    ensures Of([]) == EMPTY
  {
    ZerosAt(12);
    CountsAt([], 12);
    assert Counts([], 12) == Zeros(12);
  }

  lemma MergedEmpty(h: Histogram)
    requires Shaped(h)
    ensures Shaped(EMPTY) && Merged(EMPTY, h) == h && Merged(h, EMPTY) == h
  {
    ZerosAt(12);
    SummedAt(Zeros(12), h.buckets);
    SummedAt(h.buckets, Zeros(12));
    assert Summed(Zeros(12), h.buckets) == h.buckets == Summed(h.buckets, Zeros(12));
  }

  /** Merging commutes with one more observation on the right. */
  lemma MergedObserved(h: Histogram, g: Histogram, duration: Duration)
    requires Shaped(h) && Shaped(g)
    ensures Merged(h, Observed(g, duration)) == Observed(Merged(h, g), duration)
  {
    var ms := Clamped(duration);
    BumpedAt(g.buckets, ms);
    SummedAt(h.buckets, Bumped(g.buckets, ms));
    SummedAt(h.buckets, g.buckets);
    BumpedAt(Summed(h.buckets, g.buckets), ms);
    assert Summed(h.buckets, Bumped(g.buckets, ms)) == Bumped(Summed(h.buckets, g.buckets), ms);
  }
}

/** The percentile estimate read off a histogram against the exact nearest-rank sample. */
module Percentile {
  import opened Common
  import opened Sequences
  import opened Latency

  function Ceiling(x: real): int { -((-x).Floor) }

  /** The first bucket whose cumulative count reaches the target, 12 if none does. */
  function Reached(buckets: seq<nat>, target: int, from: nat): (k: nat)
    requires from <= |buckets|
    ensures from <= k <= |buckets|
    ensures forall j :: from <= j < k ==> buckets[j] < target
    ensures k < |buckets| ==> target <= buckets[k]
    decreases |buckets| - from
  {
    if from == |buckets| || target <= buckets[from] then from else Reached(buckets, target, from + 1)
  }

  /** Lower edge of a bucket. */
  function Edge(k: nat): real requires k <= 12 { if k == 0 then 0.0 else BOUNDS[k - 1] }

  function Before(h: Histogram, k: nat): nat requires k <= |h.buckets| { if k == 0 then 0 else h.buckets[k - 1] }

  /** Linear interpolation inside bucket `k`. */
  function Interpolated(h: Histogram, target: int, k: nat): real
    requires |h.buckets| == 12 && k < 12
    requires Before(h, k) < h.buckets[k]
  {
    var fraction := (target - Before(h, k)) as real / (h.buckets[k] - Before(h, k)) as real;
    Edge(k) + (BOUNDS[k] - Edge(k)) * fraction
  }

  /** The rank asked for. */
  function Target(count: nat, p: real): int { Ceiling(count as real * p) }

  /** The estimate for the sample of a given rank. */
  function Estimate(h: Histogram, target: int): real
    requires |h.buckets| == 12 && Reached(h.buckets, target, 0) < 12
    requires Before(h, Reached(h.buckets, target, 0)) < h.buckets[Reached(h.buckets, target, 0)]
  {
    Smaller(Interpolated(h, target, Reached(h.buckets, target, 0)), h.max)
  }

  predicate Sorted(s: seq<real>) { forall i, j :: 0 <= i < j < |s| ==> s[i] <= s[j] }

  /** The bucket a time falls into. */
  function BucketOf(ms: real): (k: nat)
    requires ms <= 60_000.0
    ensures k < 12 && ms <= BOUNDS[k] && forall j :: 0 <= j < k ==> BOUNDS[j] < ms
  {
    BucketFrom(ms, 0)
  }

  function BucketFrom(ms: real, from: nat): (k: nat)
    requires ms <= 60_000.0 && from < 12 && forall j :: 0 <= j < from ==> BOUNDS[j] < ms
    ensures k < 12 && ms <= BOUNDS[k] && forall j :: 0 <= j < k ==> BOUNDS[j] < ms
    decreases 12 - from
  {
    if ms <= BOUNDS[from] then from else BucketFrom(ms, from + 1)
  }

  // ---------------------------------------------------------------- counting

  lemma AtMostAround(front: seq<real>, x: real, back: seq<real>, bound: real)
    ensures AtMost((front + [x]) + back, bound) == AtMost(front + back, bound) + if x <= bound then 1 else 0
  {
    AtMostConcat(front, back, bound);
    AtMostConcat(front + [x], back, bound);
    assert (front + [x])[..|front|] == front;
  }

  /** How many samples are at most a bound does not depend on their order. */
  lemma {:induction false} AtMostPermuted(s: seq<real>, t: seq<real>, bound: real)
    requires multiset(s) == multiset(t)
    ensures AtMost(s, bound) == AtMost(t, bound)
  {
    if s == [] {
      assert |multiset(t)| == 0;
    } else {
      var i := TakeOut(s, t);
      AtMostPermuted(s[..|s| - 1], t[..i] + t[i + 1..], bound);
      AtMostAround(t[..i], t[i], t[i + 1..], bound);
    }
  }

  lemma {:induction false} AtMostBounds(s: seq<real>, bound: real)
    ensures AtMost(s, bound) <= |s|
    ensures (forall i :: 0 <= i < |s| ==> s[i] <= bound) ==> AtMost(s, bound) == |s|
    ensures (forall i :: 0 <= i < |s| ==> bound < s[i]) ==> AtMost(s, bound) == 0
  {
    if s == [] {
    } else {
      AtMostBounds(s[..|s| - 1], bound);
    }
  }

  lemma AtMostSplit(s: seq<real>, i: nat, bound: real)
    requires i <= |s|
    ensures AtMost(s, bound) == AtMost(s[..i], bound) + AtMost(s[i..], bound)
  {
    assert s == s[..i] + s[i..];
    AtMostConcat(s[..i], s[i..], bound);
  }

  lemma EnoughAtMost(sorted: seq<real>, rank: nat, bound: real)
    requires Sorted(sorted) && 1 <= rank <= |sorted| && sorted[rank - 1] <= bound
    ensures rank <= AtMost(sorted, bound)
  {
    AtMostSplit(sorted, rank, bound);
    AtMostBounds(sorted[..rank], bound);
  }

  lemma TooFewAtMost(sorted: seq<real>, rank: nat, bound: real)
    requires Sorted(sorted) && 1 <= rank <= |sorted| && bound < sorted[rank - 1]
    ensures AtMost(sorted, bound) < rank
  {
    AtMostSplit(sorted, rank - 1, bound);
    AtMostBounds(sorted[..rank - 1], bound);
    AtMostBounds(sorted[rank - 1..], bound);
  }

  /** In sorted order the sample of rank `rank` is at most the bound exactly when at least that many are. */
  lemma RankAtMost(sorted: seq<real>, rank: nat, bound: real)
    requires Sorted(sorted) && 1 <= rank <= |sorted|
    ensures sorted[rank - 1] <= bound <==> rank <= AtMost(sorted, bound)
  {
    if sorted[rank - 1] <= bound {
      EnoughAtMost(sorted, rank, bound);
    } else {
      TooFewAtMost(sorted, rank, bound);
    }
  }

  lemma {:induction false} GreatestBounds(s: seq<real>, i: nat)
    requires i < |s|
    ensures s[i] <= Greatest(s)
  {
    if i == |s| - 1 {
    } else {
      GreatestBounds(s[..|s| - 1], i);
    }
  }

  // ---------------------------------------------------------------- the estimate

  /** The samples, a sorted arrangement of them, and a rank. */
  ghost predicate Ranked(samples: seq<real>, sorted: seq<real>, rank: int) {
    Recordable(samples) && Sorted(sorted) && multiset(sorted) == multiset(samples) && 1 <= rank <= |samples|
  }

  lemma RankedFacts(samples: seq<real>, sorted: seq<real>, rank: int)
    requires Ranked(samples, sorted, rank)
    ensures |sorted| == |samples| && 0.0 <= sorted[rank - 1] <= 60_000.0
    ensures sorted[rank - 1] <= Of(samples).max
  {
    assert |multiset(sorted)| == |sorted| && |multiset(samples)| == |samples|;
    assert sorted[rank - 1] in multiset(samples);
    var i :| 0 <= i < |samples| && samples[i] == sorted[rank - 1];
    GreatestBounds(samples, i);
  }

  /** The search stops at the exact sample's own bucket, which is never empty. */
  lemma ReachedIsExactBucket(samples: seq<real>, sorted: seq<real>, rank: int)
    requires Ranked(samples, sorted, rank)
    ensures |sorted| == |samples| && sorted[rank - 1] <= 60_000.0
    ensures var k := Reached(Of(samples).buckets, rank, 0);
      k < 12 && k == BucketOf(sorted[rank - 1]) && Before(Of(samples), k) < rank <= Of(samples).buckets[k]
  {
    RankedFacts(samples, sorted, rank);
    CountsAt(samples, 12);
    forall k | 0 <= k < 12
      ensures rank <= Of(samples).buckets[k] <==> sorted[rank - 1] <= BOUNDS[k]
    {
      AtMostPermuted(sorted, samples, BOUNDS[k]);
      RankAtMost(sorted, rank, BOUNDS[k]);
    }
    var k := BucketOf(sorted[rank - 1]);
    var r := Reached(Of(samples).buckets, rank, 0);
    assert rank <= Of(samples).buckets[k];
    assert k == 0 || Of(samples).buckets[k - 1] < rank;
  }

  lemma FractionBounds(part: int, whole: int)
    requires 0 < part <= whole
    ensures 0.0 < part as real / whole as real <= 1.0
  {
  }

  lemma InterpolatedBounds(h: Histogram, rank: int, k: nat)
    requires |h.buckets| == 12 && k < 12 && Before(h, k) < rank <= h.buckets[k]
    ensures Edge(k) < Interpolated(h, rank, k) <= BOUNDS[k]
  {
    var fraction := (rank - Before(h, k)) as real / (h.buckets[k] - Before(h, k)) as real;
    FractionBounds(rank - Before(h, k), h.buckets[k] - Before(h, k));
    var width := BOUNDS[k] - Edge(k);
    assert width > 0.0;
    assert 0.0 < width * fraction <= width;
  }

  lemma BucketUnique(ms: real, k: nat)
    requires k < 12 && ms <= BOUNDS[k] && (k == 0 || Edge(k) < ms)
    ensures ms <= 60_000.0 && BucketOf(ms) == k
  {
  }

  /** The estimate falls into the exact sample's bucket and never exceeds the observed maximum. */
  lemma EstimateInExactBucket(samples: seq<real>, sorted: seq<real>, rank: int)
    requires Ranked(samples, sorted, rank)
    ensures var k := Reached(Of(samples).buckets, rank, 0); k < 12 && Before(Of(samples), k) < Of(samples).buckets[k]
    ensures |sorted| == |samples| && sorted[rank - 1] <= 60_000.0
    ensures Estimate(Of(samples), rank) <= Of(samples).max && Estimate(Of(samples), rank) <= 60_000.0
    ensures BucketOf(Estimate(Of(samples), rank)) == BucketOf(sorted[rank - 1])
  {
    RankedFacts(samples, sorted, rank);
    ReachedIsExactBucket(samples, sorted, rank);
    var k := Reached(Of(samples).buckets, rank, 0);
    InterpolatedBounds(Of(samples), rank, k);
    BucketUnique(Estimate(Of(samples), rank), k);
  }

  /** `r` of `n` steps from the lower to the upper bound. */
  function Way(lower: real, upper: real, r: int, n: int): real requires n != 0 {
    lower + (upper - lower) * (r as real / n as real)
  }

  /** How many samples lie below a bucket. */
  function Below(samples: seq<real>, k: nat): nat requires k <= 12 {
    if k == 0 then 0 else AtMost(samples, BOUNDS[k - 1])
  }

  lemma BucketCounts(samples: seq<real>, k: nat)
    requires k < 12
    ensures |Of(samples).buckets| == 12 && Of(samples).buckets[k] == AtMost(samples, BOUNDS[k])
    ensures Before(Of(samples), k) == Below(samples, k) && Of(samples).max == Greatest(samples)
  {
    CountsAt(samples, 12);
  }

  lemma EstimateWay(h: Histogram, rank: int, k: nat)
    requires |h.buckets| == 12 && k == Reached(h.buckets, rank, 0) < 12 && Before(h, k) < h.buckets[k]
    ensures var way := Way(Edge(k), BOUNDS[k], rank - Before(h, k), h.buckets[k] - Before(h, k));
      Estimate(h, rank) == if way <= h.max then way else h.max
  {
  }

  /** In the bucket (lower, upper] that holds n samples, the r-th of them is put at r/n of the way from the lower
      to the upper bound, but at most at the greatest sample. */
  predicate Linear(samples: seq<real>, k: nat, rank: int, estimate: real) requires k < 12 {
    var r, n := rank - Below(samples, k), AtMost(samples, BOUNDS[k]) - Below(samples, k);
    && 0 < r <= n
    && var way := Way(Edge(k), BOUNDS[k], r, n);
       estimate == if way <= Greatest(samples) then way else Greatest(samples)
  }

  /** The estimate in terms of the samples and the exact sample of the rank. */
  lemma EstimateIsLinear(samples: seq<real>, sorted: seq<real>, rank: int)
    requires Ranked(samples, sorted, rank)
    ensures |sorted| == |samples| && sorted[rank - 1] <= 60_000.0
    ensures var k := Reached(Of(samples).buckets, rank, 0); k < 12 && Before(Of(samples), k) < Of(samples).buckets[k]
    ensures Linear(samples, BucketOf(sorted[rank - 1]), rank, Estimate(Of(samples), rank))
  {
    ReachedIsExactBucket(samples, sorted, rank);
    var k := BucketOf(sorted[rank - 1]);
    BucketCounts(samples, k);
    EstimateWay(Of(samples), rank, k);
  }

  lemma WholeWay(lower: real, upper: real, n: int)
    requires 0 < n
    ensures Way(lower, upper, n, n) == upper
  {
    assert n as real / n as real == 1.0;
  }

  lemma {:induction false} GreatestAmong(s: seq<real>)
    requires s != [] && forall i :: 0 <= i < |s| ==> 0.0 <= s[i]
    ensures exists i :: 0 <= i < |s| && s[i] == Greatest(s)
  {
    var n := |s| - 1;
    if n == 0 {
      assert s[..n] == [] && s[0] == Greatest(s);
    } else {
      GreatestAmong(s[..n]);
      var i :| 0 <= i < n && s[..n][i] == Greatest(s[..n]);
      assert s[i] == Greatest(s) || s[n] == Greatest(s);
    }
  }

  lemma GreatestIsLast(samples: seq<real>, sorted: seq<real>)
    requires Recorded(samples, sorted)
    ensures |sorted| == |samples| && Greatest(samples) == sorted[|samples| - 1]
  {
    var n := |samples|;
    assert |multiset(sorted)| == |sorted| && |multiset(samples)| == n;
    GreatestAmong(samples);
    var i :| 0 <= i < n && samples[i] == Greatest(samples);
    assert samples[i] in multiset(sorted);
    var j :| 0 <= j < n && sorted[j] == samples[i];
    assert sorted[n - 1] in multiset(samples);
    var k :| 0 <= k < n && samples[k] == sorted[n - 1];
    GreatestBounds(samples, k);
  }

  lemma AllAtMost(samples: seq<real>, bound: real)
    requires Greatest(samples) <= bound
    ensures AtMost(samples, bound) == |samples|
  {
    forall i | 0 <= i < |samples| ensures samples[i] <= bound { GreatestBounds(samples, i); }
    AtMostBounds(samples, bound);
  }

  /** All samples lie in the last sample's bucket or below it. */
  lemma LastBucket(samples: seq<real>, sorted: seq<real>, x: real)
    requires Recorded(samples, sorted) && x == Greatest(samples) && x <= 60_000.0
    ensures AtMost(samples, BOUNDS[BucketOf(x)]) == |samples| && x <= BOUNDS[BucketOf(x)]
  {
    AllAtMost(samples, BOUNDS[BucketOf(x)]);
  }

  lemma LastWay(samples: seq<real>, k: nat, estimate: real)
    requires k < 12 && Linear(samples, k, |samples|, estimate)
    requires AtMost(samples, BOUNDS[k]) == |samples| && Greatest(samples) <= BOUNDS[k]
    ensures estimate == Greatest(samples)
  {
    WholeWay(Edge(k), BOUNDS[k], |samples| - Below(samples, k));
  }

  lemma LastRank(samples: seq<real>, sorted: seq<real>)
    requires Recorded(samples, sorted)
    ensures Ranked(samples, sorted, |samples|)
  {
  }

  /** So the estimate for the last rank is the greatest sample itself, which makes it exact for a single one. */
  lemma LastRankIsExact(samples: seq<real>, sorted: seq<real>)
    requires Recorded(samples, sorted)
    ensures var k := Reached(Of(samples).buckets, |samples|, 0);
      k < 12 && Before(Of(samples), k) < Of(samples).buckets[k]
    ensures Estimate(Of(samples), |samples|) == Greatest(samples)
  {
    LastRank(samples, sorted);
    EstimateIsLinear(samples, sorted, |samples|);
    GreatestIsLast(samples, sorted);
    var x := sorted[|samples| - 1];
    LastBucket(samples, sorted, x);
    LastWay(samples, BucketOf(x), Estimate(Of(samples), |samples|));
  }

  lemma FractionMonotone(a: int, b: int, whole: int)
    requires a <= b && 0 < whole
    ensures a as real / whole as real <= b as real / whole as real
  {
  }

  lemma InterpolatedMonotone(h: Histogram, low: int, high: int, k: nat)
    requires |h.buckets| == 12 && k < 12 && Before(h, k) < low <= high <= h.buckets[k]
    ensures Interpolated(h, low, k) <= Interpolated(h, high, k)
  {
    var start, width := Before(h, k), BOUNDS[k] - Edge(k);
    FractionMonotone(low - start, high - start, h.buckets[k] - start);
    var a := (low - start) as real / (h.buckets[k] - start) as real;
    var b := (high - start) as real / (h.buckets[k] - start) as real;
    assert width * a <= width * b;
  }

  lemma EdgesGrow(j: nat, k: nat)
    requires j < k < 12
    ensures BOUNDS[j] <= Edge(k)
  {
  }

  lemma EstimateMonotone(samples: seq<real>, sorted: seq<real>, low: int, high: int)
    requires Ranked(samples, sorted, low) && Ranked(samples, sorted, high) && low <= high
    ensures forall rank :: rank in {low, high} ==>
      var k := Reached(Of(samples).buckets, rank, 0); k < 12 && Before(Of(samples), k) < Of(samples).buckets[k]
    ensures Estimate(Of(samples), low) <= Estimate(Of(samples), high)
  {
    var h := Of(samples);
    ReachedIsExactBucket(samples, sorted, low);
    ReachedIsExactBucket(samples, sorted, high);
    var j, k := Reached(h.buckets, low, 0), Reached(h.buckets, high, 0);
    assert j <= k;
    InterpolatedBounds(h, low, j);
    InterpolatedBounds(h, high, k);
    if j == k { InterpolatedMonotone(h, low, high, k); } else { EdgesGrow(j, k); }
  }

  // ---------------------------------------------------------------- the ranks asked for

  lemma CeilingBounds(x: real)
    ensures x <= Ceiling(x) as real < x + 1.0
  {
  }

  lemma TargetInRange(count: nat, p: real)
    requires 0 < count && 0.0 < p <= 1.0
    ensures 1 <= Target(count, p) <= count
  {
    var x := count as real * p;
    assert 0.0 < x <= count as real;
    CeilingBounds(x);
  }

  /** The rank asked for is the nearest one: the first that leaves at least the share p of the samples behind. */
  lemma TargetIsNearestRank(count: nat, p: real)
    ensures var rank := Target(count, p);
      count as real * p <= rank as real && (rank - 1) as real < count as real * p
  {
    CeilingBounds(count as real * p);
  }

  lemma TargetMonotone(count: nat, p: real, q: real)
    requires p <= q
    ensures Target(count, p) <= Target(count, q)
  {
    var n := count as real;
    assert n * p <= n * q;
    CeilingBounds(n * p);
    CeilingBounds(n * q);
  }

  /** The scan over the buckets; the first `ensures` covers every histogram of recorded samples. */
  method Scan(h: Histogram, target: int) returns (estimate: real)
    requires |h.buckets| == 12
    ensures var k := Reached(h.buckets, target, 0);
      k < 12 && Before(h, k) < target ==> estimate == Estimate(h, target)
    ensures estimate <= h.max
  {
    var previous, lower := 0, 0.0;
    for index := 0 to 12
      invariant lower == Edge(index) && previous == Before(h, index)
      invariant Reached(h.buckets, target, 0) == Reached(h.buckets, target, index)
    {
      var count, upper := h.buckets[index], BOUNDS[index];
      if target <= count {
        var inBucket := Max(0, count - previous);
        if inBucket == 0 {
          estimate := upper;
        } else {
          var fraction := Max(0, target - previous) as real / inBucket as real;
          if previous < target { FractionBounds(target - previous, inBucket); }
          fraction := Smaller(Larger(fraction, 0.0), 1.0);
          estimate := lower + (upper - lower) * fraction;
        }
        return Smaller(estimate, h.max);
      }
      previous := count;
      lower := upper;
    }
    return Smaller(h.max, 60_000.0);
  }

  /** For every non-empty sample sequence and 0 < p <= 1 the result lies in the bucket of the exact
      nearest-rank sample and is at most the observed maximum; the empty-bucket case and the
      fall-through of the scan are not reached. */
  method PercentileOf(h: Histogram, p: real) returns (result: Option<real>)
    requires |h.buckets| == 12
    ensures result.None? <==> h.count == 0
    ensures result.Some? ==> result.value <= h.max
    ensures forall samples, sorted ::
      h == Of(samples) && 0.0 < p <= 1.0 && Recorded(samples, sorted) ==>
        NearExact(result, samples, sorted, Target(|samples|, p)) && Estimates(result, h, Target(|samples|, p))
  {
    if h.count == 0 {
      return None;
    }
    var estimate := Scan(h, Target(h.count, p));
    result := Some(estimate);
    forall samples, sorted | h == Of(samples) && 0.0 < p <= 1.0 && Recorded(samples, sorted)
      ensures NearExact(result, samples, sorted, Target(|samples|, p)) && Estimates(result, h, Target(|samples|, p))
    {
      TargetInRange(|samples|, p);
      ReachedIsExactBucket(samples, sorted, Target(|samples|, p));
      EstimateInExactBucket(samples, sorted, Target(|samples|, p));
      EstimateIsLinear(samples, sorted, Target(|samples|, p));
    }
  }

  /** Non-empty samples and a sorted arrangement of them. */
  ghost predicate Recorded(samples: seq<real>, sorted: seq<real>) {
    samples != [] && Recordable(samples) && Sorted(sorted) && multiset(sorted) == multiset(samples)
  }

  /** The interpolated estimate, from a bucket that exists and is not empty. */
  ghost predicate Estimates(result: Option<real>, h: Histogram, target: int) requires |h.buckets| == 12 {
    && Reached(h.buckets, target, 0) < 12
    && Before(h, Reached(h.buckets, target, 0)) < h.buckets[Reached(h.buckets, target, 0)]
    && result == Some(Estimate(h, target))
  }

  /** A result in the bucket of the sample of that rank, as far into it as the rank says. */
  ghost predicate NearExact(result: Option<real>, samples: seq<real>, sorted: seq<real>, rank: int) {
    && result.Some? && result.value <= 60_000.0
    && 1 <= rank <= |sorted| && sorted[rank - 1] <= 60_000.0
    && BucketOf(result.value) == BucketOf(sorted[rank - 1])
    && Linear(samples, BucketOf(sorted[rank - 1]), rank, result.value)
  }

  /** A sample put where it belongs in a sorted arrangement. */
  function Inserted(sorted: seq<real>, x: real): seq<real> {
    if sorted == [] || sorted[|sorted| - 1] <= x then sorted + [x]
    else Inserted(sorted[..|sorted| - 1], x) + [sorted[|sorted| - 1]]
  }

  function Arranged(samples: seq<real>): seq<real> {
    if samples == [] then [] else Inserted(Arranged(samples[..|samples| - 1]), samples[|samples| - 1])
  }

  ghost predicate NoMoreThan(s: seq<real>, bound: real) { forall i :: 0 <= i < |s| ==> s[i] <= bound }

  lemma SortedAppend(front: seq<real>, last: real)
    requires Sorted(front) && NoMoreThan(front, last)
    ensures Sorted(front + [last])
  {
  }

  lemma {:induction false} InsertedSorted(sorted: seq<real>, x: real, bound: real)
    requires Sorted(sorted) && NoMoreThan(sorted, bound) && x <= bound
    ensures Sorted(Inserted(sorted, x)) && NoMoreThan(Inserted(sorted, x), bound)
  {
    if sorted == [] || sorted[|sorted| - 1] <= x {
      SortedAppend(sorted, x);
    } else {
      var n, last := |sorted| - 1, sorted[|sorted| - 1];
      InsertedSorted(sorted[..n], x, last);
      SortedAppend(Inserted(sorted[..n], x), last);
    }
  }

  lemma {:induction false} InsertedMembers(sorted: seq<real>, x: real)
    ensures multiset(Inserted(sorted, x)) == multiset(sorted) + multiset{x}
  {
    if sorted == [] || sorted[|sorted| - 1] <= x {
    } else {
      var n := |sorted| - 1;
      InsertedMembers(sorted[..n], x);
      assert sorted == sorted[..n] + [sorted[n]];
    }
  }

  lemma {:induction false} ArrangedSorted(samples: seq<real>, bound: real)
    requires NoMoreThan(samples, bound)
    ensures Sorted(Arranged(samples)) && NoMoreThan(Arranged(samples), bound)
  {
    if samples == [] {
    } else {
      var n := |samples| - 1;
      ArrangedSorted(samples[..n], bound);
      InsertedSorted(Arranged(samples[..n]), samples[n], bound);
    }
  }

  lemma {:induction false} ArrangedMembers(samples: seq<real>)
    ensures multiset(Arranged(samples)) == multiset(samples)
  {
    if samples == [] {
    } else {
      var n := |samples| - 1;
      ArrangedMembers(samples[..n]);
      InsertedMembers(Arranged(samples[..n]), samples[n]);
      assert samples == samples[..n] + [samples[n]];
    }
  }

  /** Every recorded sample sequence has a sorted arrangement, so the results here speak of all of them. */
  lemma ArrangementExists(samples: seq<real>)
    requires samples != [] && Recordable(samples)
    ensures Recorded(samples, Arranged(samples))
  {
    ArrangedSorted(samples, 60_000.0);
    ArrangedMembers(samples);
  }

  /** The estimate grows with p. */
  lemma PercentileMonotone(samples: seq<real>, sorted: seq<real>, p: real, q: real)
    requires Recorded(samples, sorted) && 0.0 < p <= q <= 1.0
    ensures forall rank :: rank in {Target(|samples|, p), Target(|samples|, q)} ==>
      var k := Reached(Of(samples).buckets, rank, 0); k < 12 && Before(Of(samples), k) < Of(samples).buckets[k]
    ensures Estimate(Of(samples), Target(|samples|, p)) <= Estimate(Of(samples), Target(|samples|, q))
  {
    TargetInRange(|samples|, p);
    TargetInRange(|samples|, q);
    TargetMonotone(|samples|, p, q);
    EstimateMonotone(samples, sorted, Target(|samples|, p), Target(|samples|, q));
  }
}

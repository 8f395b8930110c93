/**
 Latency histograms, as sequences of counts and as the sparse lists of (bucket, count) pairs the fleet ships.
*/
module Histogram {

  const NBUCKETS: nat := 256

  function Zeros(): (h: seq<int>)
    ensures |h| == NBUCKETS && forall b | 0 <= b < |h| :: h[b] == 0
  {
    seq(NBUCKETS, _ => 0)
  }

  type Hist = h: seq<int> | |h| == NBUCKETS witness Zeros()

  function Sum(h: seq<int>): int {
    if h == [] then 0 else Sum(h[..|h| - 1]) + h[|h| - 1]
  }

  /** The bucket of a latency, on a logarithmic scale that is rounded down. */
  function Bucket(scale: real -> int, us: real): (b: nat)
    ensures b < NBUCKETS
  {
    var k := scale(if us > 0.0 then us else 0.0);
    if k > 255 then 255 else if k < 0 then 0 else k
  }

  /** The bucket is the scale's number as long as that is a bucket; the last bucket takes all higher ones, and a negative
      latency counts as none. */
  lemma BucketIsScale(scale: real -> int, us: real)
    ensures us >= 0.0 && 0 <= scale(us) <= 255 ==> Bucket(scale, us) == scale(us)
    ensures us >= 0.0 && scale(us) > 255 ==> Bucket(scale, us) == 255
    ensures us < 0.0 ==> Bucket(scale, us) == Bucket(scale, 0.0)
  {
  }

  /** How many of the latencies fall into bucket b. */
  function InBucket(lat: seq<real>, scale: real -> int, b: int): int {
    if lat == [] then 0 else InBucket(lat[..|lat| - 1], scale, b) + if Bucket(scale, lat[|lat| - 1]) == b then 1 else 0
  }

  lemma InBucketOne(lat: seq<real>, us: real, scale: real -> int, b: int)
    ensures InBucket(lat + [us], scale, b) == InBucket(lat, scale, b) + if Bucket(scale, us) == b then 1 else 0
  {
    assert (lat + [us])[..|lat|] == lat;
  }

  lemma {:induction false} InBucketAppends(a: seq<real>, c: seq<real>, scale: real -> int, b: int)
    ensures InBucket(a + c, scale, b) == InBucket(a, scale, b) + InBucket(c, scale, b)
  {
    if c == [] {
      assert a + c == a;
    } else {
      var n := |c| - 1;
      InBucketAppends(a, c[..n], scale, b);
      InBucketOne(a + c[..n], c[n], scale, b);
      assert a + c[..n] + [c[n]] == a + c;
    }
  }

  /** The count a sparse list gives to bucket b. */
  function Weight(pairs: seq<(nat, int)>, b: nat): int {
    if pairs == [] then 0
    else Weight(pairs[..|pairs| - 1], b) + (if pairs[|pairs| - 1].0 == b then pairs[|pairs| - 1].1 else 0)
  }

  function Total(pairs: seq<(nat, int)>): int {
    if pairs == [] then 0 else Total(pairs[..|pairs| - 1]) + pairs[|pairs| - 1].1
  }

  predicate InRange(pairs: seq<(nat, int)>) {
    forall i | 0 <= i < |pairs| :: pairs[i].0 < NBUCKETS
  }

  lemma {:induction false} SumUpdate(h: seq<int>, b: nat, v: int)
    requires b < |h|
    ensures Sum(h[b := v]) == Sum(h) + v - h[b]
  {
    var n := |h| - 1;
    if b < n {
      assert h[b := v][..n] == h[..n][b := v];
      SumUpdate(h[..n], b, v);
    } else {
      assert h[b := v][..n] == h[..n];
    }
  }

  /** A histogram that dominates another with the same sum equals it. */
  lemma {:induction false} SameSum(a: seq<int>, c: seq<int>)
    requires |a| == |c| && forall b | 0 <= b < |a| :: a[b] <= c[b]
    ensures Sum(a) <= Sum(c)
    ensures Sum(a) == Sum(c) ==> a == c
  {
    if a != [] {
      var n := |a| - 1;
      var u, v := a[..n], c[..n];
      SameSum(u, v);
      assert Sum(a) == Sum(u) + a[n] && Sum(c) == Sum(v) + c[n];
      if Sum(a) == Sum(c) {
        assert u == v && a[n] == c[n];
        assert a == u + [a[n]] && c == v + [c[n]];
      }
    }
  }

  lemma WeightAppend(pairs: seq<(nat, int)>, p: (nat, int), b: nat)
    ensures Weight(pairs + [p], b) == Weight(pairs, b) + (if p.0 == b then p.1 else 0)
    ensures Total(pairs + [p]) == Total(pairs) + p.1
  {
    assert (pairs + [p])[..|pairs|] == pairs;
  }

  /** A sparse list that holds the difference of two histograms adds up to the difference of their sums. */
  lemma {:induction false} TotalIsDifference(pairs: seq<(nat, int)>, h: seq<int>, g: seq<int>)
    requires |h| == |g| == NBUCKETS && InRange(pairs)
    requires forall b: nat | b < NBUCKETS :: Weight(pairs, b) == h[b] - g[b]
    ensures Total(pairs) == Sum(h) - Sum(g)
  {
    if pairs == [] {
      assert forall b: nat | b < NBUCKETS :: Weight(pairs, b) == 0;
      assert h == g;
    } else {
      var n := |pairs| - 1;
      var (b, v) := pairs[n];
      SumUpdate(g, b, g[b] + v);
      TotalIsDifference(pairs[..n], h, g[b := g[b] + v]);
    }
  }

  lemma {:induction false} SumZero(h: seq<int>)
    requires forall b | 0 <= b < |h| :: h[b] == 0
    ensures Sum(h) == 0
  {
    if h != [] {
      SumZero(h[..|h| - 1]);
    }
  }
}

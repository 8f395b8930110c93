/**
 Percentiles of a latency histogram: the one-pass search over the buckets, what it finds in terms of the samples
 that were counted, and what pooling the histograms of several workers does to it.

 A percentile is a bucket number; its midpoint in microseconds grows with the bucket and is positive. Thresholds are
 compared exactly, not in floating point.
*/
module Percentiles {
  import opened Histogram

  /** What the buckets below `n` hold. */
  function Cum(h: seq<int>, n: nat): int
    requires n <= |h|
  {
    if n == 0 then 0 else Cum(h, n - 1) + h[n - 1]
  }

  lemma {:induction false} CumPrefix(h: seq<int>, g: seq<int>, n: nat)
    requires n <= |h| && n <= |g| && forall b | 0 <= b < n :: h[b] == g[b]
    ensures Cum(h, n) == Cum(g, n)
  {
    if n > 0 {
      CumPrefix(h, g, n - 1);
    }
  }

  lemma {:induction false} CumIsSum(h: seq<int>)
    ensures Cum(h, |h|) == Sum(h)
  {
    if h != [] {
      CumIsSum(h[..|h| - 1]);
      CumPrefix(h, h[..|h| - 1], |h| - 1);
    }
  }

  /** Bucket b and those below it hold at least p percent of all samples. */
  predicate Reaches(h: seq<int>, p: int, b: int)
    requires 0 <= b < |h|
  {
    100 * Cum(h, b + 1) >= p * Sum(h)
  }

  /** Bucket b is the first to reach p percent. */
  predicate IsPercentile(h: seq<int>, p: int, b: int) {
    0 <= b < |h| && Reaches(h, p, b) && forall c | 0 <= c < b :: !Reaches(h, p, c)
  }

  predicate NoPercentile(h: seq<int>, p: int) {
    forall c | 0 <= c < |h| :: !Reaches(h, p, c)
  }

  // ---------- what counting buckets can mean ----------

  /** The buckets hold counts, and at least one sample. */
  predicate Counted(h: seq<int>) {
    Sum(h) > 0 && forall b | 0 <= b < |h| :: h[b] >= 0
  }

  lemma {:induction false} CumGrows(h: seq<int>, m: nat, n: nat)
    requires m <= n <= |h| && forall b | 0 <= b < |h| :: h[b] >= 0
    ensures 0 <= Cum(h, m) <= Cum(h, n)
  {
    if m < n {
      CumGrows(h, m, n - 1);
    } else if n > 0 {
      CumGrows(h, n - 1, n - 1);
    }
  }

  lemma ReachesOn(h: seq<int>, p: int, b: int, c: int)
    requires (forall b | 0 <= b < |h| :: h[b] >= 0) && 0 <= b <= c < |h| && Reaches(h, p, b)
    ensures Reaches(h, p, c)
  {
    CumGrows(h, b + 1, c + 1);
  }

  lemma {:induction false} FirstReaching(h: seq<int>, p: int, n: nat) returns (b: nat)
    requires n < |h| && Reaches(h, p, n)
    ensures b <= n && IsPercentile(h, p, b)
  {
    if c :| 0 <= c < n && Reaches(h, p, c) {
      b := FirstReaching(h, p, c);
    } else {
      b := n;
    }
  }

  /** Once anything has been counted, every percentile is found, in one bucket only. */
  lemma Found(h: seq<int>, p: int) returns (b: nat)
    requires Counted(h) && p <= 100
    ensures forall c :: IsPercentile(h, p, c) <==> c == b
    ensures !NoPercentile(h, p)
  {
    CumIsSum(h);
    assert Reaches(h, p, |h| - 1);
    b := FirstReaching(h, p, |h| - 1);
    assert Reaches(h, p, b);
  }

  /** A higher percentile lies in the same or a higher bucket. */
  lemma Ordered(h: seq<int>, p: int, q: int, b: int, c: int)
    requires Counted(h) && p <= q && IsPercentile(h, p, b) && IsPercentile(h, q, c)
    ensures b <= c
  {
    assert p * Sum(h) <= q * Sum(h);
    assert Reaches(h, p, c);
  }

  // ---------- the search ----------

  const WANTED: seq<int> := [50, 90, 99]

  /** After the first `b` buckets, a percentile is still looked for unless one of them has reached it. */
  ghost predicate Sought(h: seq<int>, p: int, b: int, targets: set<int>, out: map<int, nat>)
    requires 0 <= b <= |h|
  {
    if p in targets then p !in out && forall c | 0 <= c < b :: !Reaches(h, p, c)
    else p in out && IsPercentile(h, p, out[p])
  }

  lemma SearchSucceeds(h: seq<int>, out: map<int, nat>)
    requires Counted(h)
    requires forall p | p in WANTED :: if p in out then IsPercentile(h, p, out[p]) else NoPercentile(h, p)
    ensures 50 in out && 90 in out && 99 in out && out[50] <= out[90] <= out[99]
  {
    forall p | p in WANTED ensures p in out {
      var _ := Found(h, p);
    }
    assert 50 in WANTED && 90 in WANTED && 99 in WANTED;
    Ordered(h, 50, 90, out[50], out[90]);
    Ordered(h, 90, 99, out[90], out[99]);
  }

  /** The search, in one pass over the buckets: for each percentile, the bucket found, if any. */
  method Search(h: seq<int>) returns (out: map<int, nat>)
    requires |h| == NBUCKETS
    ensures Sum(h) == 0 ==> out == map[]
    ensures Sum(h) != 0 ==> forall p | p in WANTED ::
      if p in out then IsPercentile(h, p, out[p]) else NoPercentile(h, p)
    ensures Counted(h) ==> 50 in out && 90 in out && 99 in out && out[50] <= out[90] <= out[99]
  {
    var total := Sum(h);
    out := map[];
    if total == 0 {
      return;
    }
    var targets, cum, b := {50, 90, 99}, 0, 0;
    while b < NBUCKETS && targets != {}
      invariant 0 <= b <= NBUCKETS && cum == Cum(h, b)
      invariant forall p | p in WANTED :: Sought(h, p, b, targets, out)
      invariant forall p | p in targets :: p in WANTED
    {
      cum := cum + h[b];
      for i := 0 to |WANTED|
        invariant forall j | 0 <= j < |WANTED| :: Sought(h, WANTED[j], if j < i then b + 1 else b, targets, out)
        invariant forall p | p in targets :: p in WANTED
      {
        var p := WANTED[i];
        if p in targets && 100 * cum >= p * total {
          out := out[p := b];
          targets := targets - {p};
        }
      }
      b := b + 1;
    }
    if Counted(h) {
      SearchSucceeds(h, out);
    }
  }


  // ---------- the samples behind a histogram ----------

  /** The histogram after counting the latencies one by one. */
  function Tally(lat: seq<real>, scale: real -> int): (h: seq<int>)
    ensures |h| == NBUCKETS
  {
    if lat == [] then Zeros() else
    var h := Tally(lat[..|lat| - 1], scale);
    var b := Bucket(scale, lat[|lat| - 1]);
    h[b := h[b] + 1]
  }

  function AtMost(lat: seq<real>, scale: real -> int, b: int): int {
    if lat == [] then 0 else
    AtMost(lat[..|lat| - 1], scale, b) + (if Bucket(scale, lat[|lat| - 1]) <= b then 1 else 0)
  }

  lemma {:induction false} CumBump(h: seq<int>, b: nat, n: nat)
    requires b < |h| && n <= |h|
    ensures Cum(h[b := h[b] + 1], n) == Cum(h, n) + (if b < n then 1 else 0)
  {
    if n > 0 {
      CumBump(h, b, n - 1);
    }
  }

  lemma {:induction false} TallyCounts(lat: seq<real>, scale: real -> int, b: int)
    requires 0 <= b < NBUCKETS
    ensures var h := Tally(lat, scale);
      && Cum(h, b + 1) == AtMost(lat, scale, b)
      && Sum(h) == |lat|
      && (forall c | 0 <= c < NBUCKETS :: h[c] >= 0)
  {
    var h := Tally(lat, scale);
    if lat == [] {
      SumZero(h);
      ZeroCum(h, b + 1);
    } else {
      var n := |lat| - 1;
      TallyCounts(lat[..n], scale, b);
      var g, c := Tally(lat[..n], scale), Bucket(scale, lat[n]);
      CumBump(g, c, b + 1);
      SumUpdate(g, c, g[c] + 1);
    }
  }

  lemma {:induction false} ZeroCum(h: seq<int>, n: nat)
    requires n <= |h| && forall b | 0 <= b < |h| :: h[b] == 0
    ensures Cum(h, n) == 0
  {
    if n > 0 {
      ZeroCum(h, n - 1);
    }
  }

  /** The scale keeps the order of latencies. */
  ghost predicate Monotone(scale: real -> int) {
    forall x, y | 0.0 <= x <= y :: scale(x) <= scale(y)
  }

  lemma {:induction false} TallyIs(lat: seq<real>, scale: real -> int, b: nat)
    requires b < NBUCKETS
    ensures Tally(lat, scale)[b] == InBucket(lat, scale, b)
  {
    if lat != [] {
      TallyIs(lat[..|lat| - 1], scale, b);
    }
  }

  predicate Sorted(s: seq<real>) {
    forall i, j | 0 <= i < j < |s| :: s[i] <= s[j]
  }

  lemma {:induction false} AtMostSplits(a: seq<real>, c: seq<real>, scale: real -> int, b: int)
    ensures AtMost(a + c, scale, b) == AtMost(a, scale, b) + AtMost(c, scale, b)
  {
    if c == [] {
      assert a + c == a;
    } else {
      assert (a + c)[..|a + c| - 1] == a + c[..|c| - 1];
      AtMostSplits(a, c[..|c| - 1], scale, b);
    }
  }

  lemma TakeOut(s: seq<real>, j: nat)
    requires j < |s|
    ensures multiset(s[..j] + s[j + 1..]) == multiset(s) - multiset{s[j]}
  {
    assert s == s[..j] + [s[j]] + s[j + 1..];
  }

  lemma AtMostTakeOut(s: seq<real>, j: nat, scale: real -> int, b: int)
    requires j < |s|
    ensures AtMost(s, scale, b) == AtMost(s[..j] + s[j + 1..], scale, b) + if Bucket(scale, s[j]) <= b then 1 else 0
  {
    assert s == s[..j + 1] + s[j + 1..] && s[..j + 1][..j] == s[..j];
    AtMostSplits(s[..j + 1], s[j + 1..], scale, b);
    AtMostSplits(s[..j], s[j + 1..], scale, b);
  }

  /** Counting does not depend on the order of the samples. */
  lemma {:induction false} AtMostPermutes(lat: seq<real>, s: seq<real>, scale: real -> int, b: int)
    requires multiset(lat) == multiset(s)
    ensures AtMost(lat, scale, b) == AtMost(s, scale, b)
  {
    if lat == [] {
      assert |multiset(s)| == 0;
    } else {
      var n := |lat| - 1;
      var x := lat[n];
      assert x in multiset(lat);
      var j :| 0 <= j < |s| && s[j] == x;
      TakeOut(lat, n);
      TakeOut(s, j);
      assert lat[..n] + lat[n + 1..] == lat[..n];
      AtMostPermutes(lat[..n], s[..j] + s[j + 1..], scale, b);
      AtMostTakeOut(s, j, scale, b);
    }
  }

  /** Among sorted samples, the first k, and only if they are k, lie in buckets up to b just when the k-th does. */
  lemma {:induction false} SortedAtMost(s: seq<real>, scale: real -> int, b: int, k: nat)
    requires Sorted(s) && Monotone(scale) && 0 < k <= |s|
    ensures AtMost(s, scale, b) >= k <==> Bucket(scale, s[k - 1]) <= b
  {
    var n := |s| - 1;
    AtMostSize(s[..n], scale, b);
    if k <= n {
      SortedAtMost(s[..n], scale, b, k);
      assert s[k - 1] <= s[n];
    } else if n > 0 {
      SortedAtMost(s[..n], scale, b, n);
      assert s[n - 1] <= s[n];
    }
  }

  lemma {:induction false} AtMostSize(s: seq<real>, scale: real -> int, b: int)
    ensures 0 <= AtMost(s, scale, b) <= |s|
  {
    if s != [] {
      AtMostSize(s[..|s| - 1], scale, b);
    }
  }

  /** The smallest rank that holds p percent of n samples. */
  function Rank(p: int, n: int): (k: int)
    ensures 100 * (k - 1) < p * n <= 100 * k
  {
    (p * n + 99) / 100
  }

  lemma ReachesRank(lat: seq<real>, s: seq<real>, scale: real -> int, p: int, b: int)
    requires Monotone(scale)
    requires multiset(lat) == multiset(s) && Sorted(s)
    requires 0 < Rank(p, |lat|) <= |s| && 0 <= b < NBUCKETS
    ensures Reaches(Tally(lat, scale), p, b) <==> Bucket(scale, s[Rank(p, |lat|) - 1]) <= b
  {
    TallyCounts(lat, scale, b);
    AtMostPermutes(lat, s, scale, b);
    SortedAtMost(s, scale, b, Rank(p, |lat|));
  }

  lemma FirstIs(h: seq<int>, p: int, top: nat, b: int)
    requires top < |h| && forall c | 0 <= c < |h| :: Reaches(h, p, c) <==> top <= c
    ensures IsPercentile(h, p, b) <==> b == top
  {
    assert Reaches(h, p, top);
  }

  lemma RankFits(p: int, n: int)
    requires n > 0 && 0 < p <= 100
    ensures 1 <= Rank(p, n) <= n
  {
    assert 0 < p * n <= 100 * n;
  }

  /** The percentile found in the histogram of any latencies, counted in any order and on any monotone scale, is the
      bucket of the sample with that rank among the sorted latencies. */
  lemma PercentileIsOrderStatistic(lat: seq<real>, s: seq<real>, scale: real -> int, p: int, b: int)
    requires Monotone(scale)
    requires multiset(lat) == multiset(s) && Sorted(s) && lat != [] && 0 < p <= 100
    ensures 1 <= Rank(p, |lat|) <= |s| == |lat|
    ensures IsPercentile(Tally(lat, scale), p, b) <==> b == Bucket(scale, s[Rank(p, |lat|) - 1])
  {
    assert |s| == |multiset(s)| == |lat|;
    RankFits(p, |lat|);
    var h, top := Tally(lat, scale), Bucket(scale, s[Rank(p, |lat|) - 1]);
    forall c | 0 <= c < NBUCKETS ensures Reaches(h, p, c) <==> top <= c {
      ReachesRank(lat, s, scale, p, c);
    }
    FirstIs(h, p, top, b);
  }

  // ---------- pooling ----------

  function Add(h: seq<int>, g: seq<int>): seq<int>
    requires |h| == |g|
  {
    seq(|h|, b requires 0 <= b < |h| => h[b] + g[b])
  }

  predicate Histograms(hs: seq<seq<int>>) {
    forall i | 0 <= i < |hs| :: |hs[i]| == NBUCKETS && forall b | 0 <= b < NBUCKETS :: hs[i][b] >= 0
  }

  /** Bucket by bucket, what several histograms hold together. */
  function Pool(hs: seq<seq<int>>): (h: seq<int>)
    requires Histograms(hs)
    ensures |h| == NBUCKETS && forall b | 0 <= b < NBUCKETS :: h[b] >= 0
  {
    if hs == [] then Zeros() else Add(Pool(hs[..|hs| - 1]), hs[|hs| - 1])
  }

  /** By how much bucket b and those below it exceed p percent. */
  function Gap(h: seq<int>, p: int, b: int): int
    requires 0 <= b < |h|
  {
    100 * Cum(h, b + 1) - p * Sum(h)
  }

  lemma {:induction false} CumAdds(h: seq<int>, g: seq<int>, n: nat)
    requires |h| == |g| && n <= |h|
    ensures Cum(Add(h, g), n) == Cum(h, n) + Cum(g, n)
  {
    if n > 0 {
      CumAdds(h, g, n - 1);
    }
  }

  lemma SumAdds(h: seq<int>, g: seq<int>)
    requires |h| == |g|
    ensures Sum(Add(h, g)) == Sum(h) + Sum(g)
  {
    CumAdds(h, g, |h|);
    CumIsSum(h);
    CumIsSum(g);
    CumIsSum(Add(h, g));
  }

  lemma Distributes(p: int, a: int, c: int)
    ensures p * (a + c) == p * a + p * c
  {
  }

  lemma GapAdds(h: seq<int>, g: seq<int>, p: int, b: int)
    requires |h| == |g| && 0 <= b < |h|
    ensures Gap(Add(h, g), p, b) == Gap(h, p, b) + Gap(g, p, b)
    ensures Sum(Add(h, g)) == Sum(h) + Sum(g)
  {
    CumAdds(h, g, b + 1);
    SumAdds(h, g);
    Distributes(p, Sum(h), Sum(g));
  }

  /** On which side of bucket b the percentile of a histogram lies; an empty one has no say. */
  lemma GapSign(h: seq<int>, p: int, q: int, b: int)
    requires 0 <= b < |h| && forall c | 0 <= c < |h| :: h[c] >= 0
    requires Sum(h) > 0 ==> IsPercentile(h, p, q)
    ensures Sum(h) >= 0
    ensures Sum(h) == 0 ==> Gap(h, p, b) == 0
    ensures Sum(h) > 0 ==> (Gap(h, p, b) >= 0 <==> q <= b)
  {
    CumIsSum(h);
    CumGrows(h, b + 1, |h|);
    if Sum(h) > 0 {
      if q <= b {
        ReachesOn(h, p, q, b);
      } else {
        assert !Reaches(h, p, b);
      }
    }
  }

  lemma {:induction false} PoolGap(hs: seq<seq<int>>, p: int, qs: seq<int>, b: int)
    requires Histograms(hs) && |qs| == |hs| && 0 <= b < NBUCKETS
    requires forall i | 0 <= i < |hs| && Sum(hs[i]) > 0 :: IsPercentile(hs[i], p, qs[i])
    ensures Sum(Pool(hs)) >= 0
    ensures Sum(Pool(hs)) == 0 ==> Gap(Pool(hs), p, b) == 0
    ensures (forall i | 0 <= i < |hs| && Sum(hs[i]) > 0 :: qs[i] <= b) ==> Gap(Pool(hs), p, b) >= 0
    ensures Sum(Pool(hs)) > 0 && (forall i | 0 <= i < |hs| && Sum(hs[i]) > 0 :: b < qs[i]) ==> Gap(Pool(hs), p, b) < 0
  {
    if hs == [] {
      SumZero(Pool(hs));
      ZeroCum(Pool(hs), b + 1);
    } else {
      var n := |hs| - 1;
      PoolGap(hs[..n], p, qs[..n], b);
      GapAdds(Pool(hs[..n]), hs[n], p, b);
      GapSign(hs[n], p, qs[n], b);
    }
  }

  lemma PoolReaches(hs: seq<seq<int>>, p: int, qs: seq<int>, b: int)
    requires Histograms(hs) && |qs| == |hs| && 0 <= b < NBUCKETS && Sum(Pool(hs)) > 0
    requires forall i | 0 <= i < |hs| && Sum(hs[i]) > 0 :: IsPercentile(hs[i], p, qs[i])
    ensures (forall i | 0 <= i < |hs| && Sum(hs[i]) > 0 :: qs[i] <= b) ==> Reaches(Pool(hs), p, b)
    ensures (forall i | 0 <= i < |hs| && Sum(hs[i]) > 0 :: b < qs[i]) ==> !Reaches(Pool(hs), p, b)
  {
    PoolGap(hs, p, qs, b);
  }

  /** The percentile of the pooled histograms lies between the lowest and the highest of those of the histograms that
      hold samples. */
  lemma PoolingIsFair(hs: seq<seq<int>>, p: int, qs: seq<int>, low: int, high: int, b: int)
    requires Histograms(hs) && |qs| == |hs| && Sum(Pool(hs)) > 0
    requires forall i | 0 <= i < |hs| && Sum(hs[i]) > 0 :: IsPercentile(hs[i], p, qs[i]) && low <= qs[i] <= high
    requires IsPercentile(Pool(hs), p, b)
    ensures low <= b <= high
  {
    PoolReaches(hs, p, qs, b);
    if high < b {
      PoolReaches(hs, p, qs, if high >= 0 then high else 0);
    }
  }
}

/**
 The records of many workers, read in any interleaving that keeps each worker's order: what the aggregate holds does
 not depend on the interleaving, and at no point does it claim more than the workers did.
*/
module Merging {
  import opened Records
  import opened Histogram
  import opened Telemetry
  import P = Percentiles

  // ---------- the order of records does not matter ----------

  lemma AddToCommutes(bin: Bin, a: Record, c: Record)
    ensures AddTo(AddTo(bin, a), c) == AddTo(AddTo(bin, c), a)
  {
  }

  lemma FiledCommutes(bins: map<int, Bin>, phase: string, a: Record, c: Record)
    ensures Filed(Filed(bins, phase, a), phase, c) == Filed(Filed(bins, phase, c), phase, a)
  {
    if a.rate == c.rate {
      AddToCommutes(BinAt(bins, a.rate), a, c);
    }
  }

  lemma FoldedCommutes(s: Sheet, a: Record, c: Record)
    ensures Folded(Folded(s, a), c) == Folded(Folded(s, c), a)
  {
    FiledCommutes(s.open, "open", a, c);
    FiledCommutes(s.burst, "burst", a, c);
  }

  lemma FoldOne(rs: seq<Record>, r: Record)
    ensures FoldAll(rs + [r]) == Folded(FoldAll(rs), r)
  {
    assert (rs + [r])[..|rs|] == rs;
  }

  function Without(rs: seq<Record>, j: nat): seq<Record>
    requires j < |rs|
  {
    rs[..j] + rs[j + 1..]
  }

  lemma WithoutIsMinus(rs: seq<Record>, j: nat)
    requires j < |rs|
    ensures multiset(Without(rs, j)) == multiset(rs) - multiset{rs[j]}
  {
    assert rs == rs[..j] + [rs[j]] + rs[j + 1..];
  }

  lemma WithoutLater(rs: seq<Record>, j: nat)
    requires j < |rs| - 1
    ensures Without(rs, j) == Without(rs[..|rs| - 1], j) + [rs[|rs| - 1]]
  {
  }

  /** Any one record may be folded last. */
  lemma {:induction false} FoldLast(rs: seq<Record>, j: nat)
    requires j < |rs|
    ensures FoldAll(rs) == Folded(FoldAll(Without(rs, j)), rs[j])
  {
    var n := |rs| - 1;
    if j == n {
      assert Without(rs, j) == rs[..n];
    } else {
      var rest := Without(rs[..n], j);
      FoldLast(rs[..n], j);
      WithoutLater(rs, j);
      FoldOne(rest, rs[n]);
      FoldedCommutes(FoldAll(rest), rs[j], rs[n]);
    }
  }

  /** The same records in another order make the same aggregate. */
  lemma {:induction false} OrderDoesNotMatter(rs: seq<Record>, qs: seq<Record>)
    requires multiset(rs) == multiset(qs)
    ensures FoldAll(rs) == FoldAll(qs)
  {
    if rs == [] {
      assert |multiset(qs)| == 0;
    } else {
      var n := |rs| - 1;
      assert rs[n] in multiset(rs);
      var j :| 0 <= j < |qs| && qs[j] == rs[n];
      WithoutIsMinus(rs, n);
      assert Without(rs, n) == rs[..n];
      WithoutIsMinus(qs, j);
      OrderDoesNotMatter(rs[..n], Without(qs, j));
      FoldLast(qs, j);
    }
  }

  // ---------- interleavings ----------

  /** How many of the picks are of worker w. */
  function Taken(picks: seq<nat>, w: nat): nat {
    if picks == [] then 0 else Taken(picks[..|picks| - 1], w) + if picks[|picks| - 1] == w then 1 else 0
  }

  /** Each pick names a worker that has another record. */
  predicate Interleaves(streams: seq<seq<Record>>, picks: seq<nat>) {
    picks == [] ||
    var n := |picks| - 1;
    Interleaves(streams, picks[..n]) && picks[n] < |streams| && Taken(picks[..n], picks[n]) < |streams[picks[n]]|
  }

  /** The records in the order of the picks. */
  function Merged(streams: seq<seq<Record>>, picks: seq<nat>): seq<Record>
    requires Interleaves(streams, picks)
  {
    if picks == [] then [] else
    var n := |picks| - 1;
    Merged(streams, picks[..n]) + [streams[picks[n]][Taken(picks[..n], picks[n])]]
  }

  lemma {:induction false} TakenFits(streams: seq<seq<Record>>, picks: seq<nat>, w: nat)
    requires Interleaves(streams, picks) && w < |streams|
    ensures Taken(picks, w) <= |streams[w]|
  {
    if picks != [] {
      TakenFits(streams, picks[..|picks| - 1], w);
    }
  }

  /** What each worker has contributed. */
  function Cut(streams: seq<seq<Record>>, picks: seq<nat>): (parts: seq<seq<Record>>)
    requires forall w: nat | w < |streams| :: Taken(picks, w) <= |streams[w]|
    ensures |parts| == |streams|
  {
    seq(|streams|, w requires 0 <= w < |streams| => streams[w][..Taken(picks, w)])
  }

  function Flatten(parts: seq<seq<Record>>): seq<Record> {
    if parts == [] then [] else Flatten(parts[..|parts| - 1]) + parts[|parts| - 1]
  }

  lemma {:induction false} FlattenOne(parts: seq<seq<Record>>, w: nat, r: Record)
    requires w < |parts|
    ensures multiset(Flatten(parts[w := parts[w] + [r]])) == multiset(Flatten(parts)) + multiset{r}
  {
    var n := |parts| - 1;
    var more := parts[w := parts[w] + [r]];
    if w == n {
      assert more[..n] == parts[..n];
    } else {
      assert more[..n] == parts[..n][w := parts[w] + [r]];
      FlattenOne(parts[..n], w, r);
    }
  }

  lemma {:induction false} FlattenNone(parts: seq<seq<Record>>)
    requires forall w | 0 <= w < |parts| :: parts[w] == []
    ensures Flatten(parts) == []
  {
    if parts != [] {
      FlattenNone(parts[..|parts| - 1]);
    }
  }

  lemma CutGrows(streams: seq<seq<Record>>, picks: seq<nat>)
    requires Interleaves(streams, picks) && picks != []
    requires forall w: nat | w < |streams| :: Taken(picks, w) <= |streams[w]|
    requires forall w: nat | w < |streams| :: Taken(picks[..|picks| - 1], w) <= |streams[w]|
    ensures var n, w := |picks| - 1, picks[|picks| - 1];
      var parts := Cut(streams, picks[..n]);
      Cut(streams, picks) == parts[w := parts[w] + [streams[w][Taken(picks[..n], w)]]]
  {
    var n, w := |picks| - 1, picks[|picks| - 1];
    var k := Taken(picks[..n], w);
    assert streams[w][..k + 1] == streams[w][..k] + [streams[w][k]];
  }

  lemma {:induction false} MergedIsFlattened(streams: seq<seq<Record>>, picks: seq<nat>)
    requires Interleaves(streams, picks)
    ensures forall w: nat | w < |streams| :: Taken(picks, w) <= |streams[w]|
    ensures multiset(Merged(streams, picks)) == multiset(Flatten(Cut(streams, picks)))
  {
    forall w: nat | w < |streams| ensures Taken(picks, w) <= |streams[w]| {
      TakenFits(streams, picks, w);
    }
    if picks == [] {
      FlattenNone(Cut(streams, picks));
    } else {
      var n := |picks| - 1;
      MergedIsFlattened(streams, picks[..n]);
      var w, parts := picks[n], Cut(streams, picks[..n]);
      var r := streams[w][Taken(picks[..n], w)];
      FlattenOne(parts, w, r);
      CutGrows(streams, picks);
    }
  }

  /** The aggregate is that of the workers' records one worker after the other. */
  lemma WorkerByWorker(streams: seq<seq<Record>>, picks: seq<nat>)
    requires Interleaves(streams, picks)
    ensures forall w: nat | w < |streams| :: Taken(picks, w) <= |streams[w]|
    ensures FoldAll(Merged(streams, picks)) == FoldAll(Flatten(Cut(streams, picks)))
  {
    MergedIsFlattened(streams, picks);
    OrderDoesNotMatter(Merged(streams, picks), Flatten(Cut(streams, picks)));
  }

  /** Every record of every worker has been read. */
  predicate ReadAll(streams: seq<seq<Record>>, picks: seq<nat>) {
    Interleaves(streams, picks) && forall w: nat | w < |streams| :: Taken(picks, w) == |streams[w]|
  }

  lemma CutAll(streams: seq<seq<Record>>, picks: seq<nat>)
    requires forall w: nat | w < |streams| :: Taken(picks, w) == |streams[w]|
    ensures Cut(streams, picks) == streams
  {
    var parts := Cut(streams, picks);
    forall w: nat | w < |streams| ensures parts[w] == streams[w] {
      var whole := streams[w];
      assert whole[..|whole|] == whole;
    }
  }

  lemma AllIsFlattened(streams: seq<seq<Record>>, picks: seq<nat>)
    requires ReadAll(streams, picks)
    ensures FoldAll(Merged(streams, picks)) == FoldAll(Flatten(streams))
  {
    WorkerByWorker(streams, picks);
    CutAll(streams, picks);
  }

  /** Interleavings that have taken equally much from each worker make the same aggregate. */
  lemma InterleavingsAgree(streams: seq<seq<Record>>, picks: seq<nat>, others: seq<nat>)
    requires Interleaves(streams, picks) && Interleaves(streams, others)
    requires forall w: nat | w < |streams| :: Taken(picks, w) == Taken(others, w)
    ensures FoldAll(Merged(streams, picks)) == FoldAll(Merged(streams, others))
  {
    WorkerByWorker(streams, picks);
    WorkerByWorker(streams, others);
    assert Cut(streams, picks) == Cut(streams, others);
  }

  // ---------- what the aggregate claims ----------

  lemma FoldCountsNext(rs: seq<Record>, before: seq<Record>, r: Record)
    requires MakeUp(FoldAll(rs).counts, Shipped(before), FoldAll(rs + before).counts)
    ensures MakeUp(FoldAll(rs).counts, Shipped(before + [r]), FoldAll(rs + before + [r]).counts)
  {
    FoldOne(rs + before, r);
    ShipOne(before, r);
  }

  lemma {:induction false} FoldCounts(rs: seq<Record>, qs: seq<Record>)
    ensures MakeUp(FoldAll(rs).counts, Shipped(qs), FoldAll(rs + qs).counts)
  {
    if qs == [] {
      assert rs + qs == rs;
    } else {
      var n := |qs| - 1;
      FoldCounts(rs, qs[..n]);
      FoldCountsNext(rs, qs[..n], qs[n]);
      assert rs + qs == rs + qs[..n] + [qs[n]] && qs == qs[..n] + [qs[n]];
    }
  }

  lemma {:induction false} FlattenCredible(parts: seq<seq<Record>>)
    requires forall w | 0 <= w < |parts| :: Credible(Shipped(parts[w]))
    ensures Credible(FoldAll(Flatten(parts)).counts)
  {
    if parts != [] {
      FlattenCredible(parts[..|parts| - 1]);
      FoldCounts(Flatten(parts[..|parts| - 1]), parts[|parts| - 1]);
    }
  }

  lemma {:induction false} ShippedByCut(stream: seq<Record>, k: nat, m: nat)
    requires k <= m <= |stream|
    ensures ShippedBy(stream[..m], k) == ShippedBy(stream, k)
  {
    if k > 0 {
      ShippedByCut(stream, k - 1, m);
    }
  }

  /** At every point of every interleaving of credible streams, no more orders count as acknowledged than as sent,
      and no more probe rounds as passed than as attempted. */
  lemma AggregateIsCredible(streams: seq<seq<Record>>, picks: seq<nat>)
    requires Interleaves(streams, picks) && forall w | 0 <= w < |streams| :: CredibleStream(streams[w])
    ensures Credible(FoldAll(Merged(streams, picks)).counts)
  {
    WorkerByWorker(streams, picks);
    var parts := Cut(streams, picks);
    forall w | 0 <= w < |parts| ensures Credible(Shipped(parts[w])) {
      ShippedByCut(streams[w], Taken(picks, w), Taken(picks, w));
    }
    FlattenCredible(parts);
  }

  // ---------- continuations ----------

  predicate Extends(parts: seq<seq<Record>>, streams: seq<seq<Record>>) {
    |streams| == |parts| && forall w | 0 <= w < |parts| :: parts[w] <= streams[w]
  }

  lemma {:induction false} MergedExtends(parts: seq<seq<Record>>, streams: seq<seq<Record>>, picks: seq<nat>)
    requires Extends(parts, streams) && Interleaves(parts, picks)
    ensures Interleaves(streams, picks) && Merged(streams, picks) == Merged(parts, picks)
  {
    if picks != [] {
      var n := |picks| - 1;
      MergedExtends(parts, streams, picks[..n]);
      assert parts[picks[n]] <= streams[picks[n]];
    }
  }

  /** A prefix of the picks yields a prefix of the records. */
  lemma {:induction false} MergedPrefix(streams: seq<seq<Record>>, picks: seq<nat>, n: nat)
    requires Interleaves(streams, picks) && n <= |picks|
    ensures |Merged(streams, picks)| == |picks| && Interleaves(streams, picks[..n])
    ensures Merged(streams, picks)[..n] == Merged(streams, picks[..n])
  {
    if n < |picks| {
      MergedPrefix(streams, picks[..|picks| - 1], n);
      assert picks[..|picks| - 1][..n] == picks[..n];
    } else {
      assert picks[..n] == picks;
      if picks != [] {
        MergedPrefix(streams, picks[..|picks| - 1], |picks| - 1);
      }
    }
  }

  predicate Grow(rs: seq<Record>) {
    forall i | 0 <= i < |rs| :: Growing(rs[i].delta)
  }

  lemma {:induction false} MergedGrow(streams: seq<seq<Record>>, picks: seq<nat>)
    requires Interleaves(streams, picks) && forall w | 0 <= w < |streams| :: Increments(streams[w])
    ensures Grow(Merged(streams, picks))
  {
    if picks != [] {
      MergedGrow(streams, picks[..|picks| - 1]);
    }
  }

  lemma {:induction false} FoldGrows(rs: seq<Record>)
    requires Grow(rs)
    ensures Growing(FoldAll(rs).counts)
  {
    if rs != [] {
      FoldGrows(rs[..|rs| - 1]);
    }
  }

  predicate Same(a: Counts, c: Counts) {
    a.sent == c.sent && a.acked == c.acked && a.errors == c.errors && SameRounds(a, c)
  }

  lemma {:induction false} FoldIsShipped(rs: seq<Record>)
    ensures Same(FoldAll(rs).counts, Shipped(rs))
  {
    if rs != [] {
      var n := |rs| - 1;
      FoldIsShipped(rs[..n]);
      ShipOne(rs[..n], rs[n]);
      assert rs[..n] + [rs[n]] == rs;
    }
  }

  /** The counts of a sequence of records are those of its parts. */
  lemma FoldSplits(rs: seq<Record>, tail: seq<Record>)
    ensures MakeUp(FoldAll(rs).counts, FoldAll(tail).counts, FoldAll(rs + tail).counts)
  {
    FoldCounts(rs, tail);
    FoldIsShipped(tail);
  }

  function Outstanding(parts: seq<seq<Record>>): int {
    if parts == [] then 0 else
    var n := |parts| - 1;
    Outstanding(parts[..n]) + Shipped(parts[n]).sent - Shipped(parts[n]).acked
  }

  lemma {:induction false} FlattenedOutstanding(parts: seq<seq<Record>>)
    ensures FoldAll(Flatten(parts)).counts.sent - FoldAll(Flatten(parts)).counts.acked == Outstanding(parts)
  {
    if parts != [] {
      var n := |parts| - 1;
      FlattenedOutstanding(parts[..n]);
      FoldCounts(Flatten(parts[..n]), parts[n]);
      assert Flatten(parts) == Flatten(parts[..n]) + parts[n];
    } else {
      assert Flatten(parts) == [];
      assert FoldAll([]) == NOSHEET;
    }
  }

  lemma {:induction false} NoneOutstanding(parts: seq<seq<Record>>)
    requires forall w | 0 <= w < |parts| :: Shipped(parts[w]).acked == Shipped(parts[w]).sent
    ensures Outstanding(parts) == 0
  {
    if parts != [] {
      NoneOutstanding(parts[..|parts| - 1]);
    }
  }

  // ---------- bins ----------

  /** The histogram of a rate in one of the two sweeps. */
  function BinHist(s: Sheet, phase: string, rate: int): Hist {
    BinAt(if phase == "open" then s.open else s.burst, rate).hist
  }

  /** What the records tagged with a phase and rate count in bucket b. */
  function TaggedBucket(rs: seq<Record>, phase: string, rate: int, b: nat): int {
    if rs == [] then 0 else
    var r := rs[|rs| - 1];
    TaggedBucket(rs[..|rs| - 1], phase, rate, b) + if r.phase == phase && r.rate == rate then Weight(r.hist, b) else 0
  }

  /** The latencies one worker reported under a phase and rate. */
  function Tagged(rs: seq<Record>, phase: string, rate: int): seq<int> {
    seq(NBUCKETS, b requires 0 <= b < NBUCKETS => TaggedBucket(rs, phase, rate, b))
  }

  lemma TaggedOne(rs: seq<Record>, r: Record, phase: string, rate: int, b: nat)
    ensures TaggedBucket(rs + [r], phase, rate, b)
      == TaggedBucket(rs, phase, rate, b) + if r.phase == phase && r.rate == rate then Weight(r.hist, b) else 0
  {
    assert (rs + [r])[..|rs|] == rs;
  }

  lemma {:induction false} BinIsTagged(rs: seq<Record>, phase: string, rate: int)
    requires (phase == "open" || phase == "burst") && rate > 0
    ensures BinHist(FoldAll(rs), phase, rate) == Tagged(rs, phase, rate)
  {
    if rs == [] {
    } else {
      var n := |rs| - 1;
      BinIsTagged(rs[..n], phase, rate);
      assert rs == rs[..n] + [rs[n]];
      forall b: nat | b < NBUCKETS
        ensures TaggedBucket(rs, phase, rate, b) == TaggedBucket(rs[..n], phase, rate, b)
          + if rs[n].phase == phase && rs[n].rate == rate then Weight(rs[n].hist, b) else 0
      {
        TaggedOne(rs[..n], rs[n], phase, rate, b);
      }
    }
  }

  lemma {:induction false} TaggedAppends(rs: seq<Record>, qs: seq<Record>, phase: string, rate: int, b: nat)
    ensures TaggedBucket(rs + qs, phase, rate, b) == TaggedBucket(rs, phase, rate, b) + TaggedBucket(qs, phase, rate, b)
  {
    if qs == [] {
      assert rs + qs == rs;
    } else {
      var n := |qs| - 1;
      TaggedAppends(rs, qs[..n], phase, rate, b);
      TaggedOne(qs[..n], qs[n], phase, rate, b);
      assert qs == qs[..n] + [qs[n]];
      assert rs + qs == rs + qs[..n] + [qs[n]];
      TaggedOne(rs + qs[..n], qs[n], phase, rate, b);
    }
  }

  /** The histograms of the workers under a phase and rate. */
  function WorkerHists(parts: seq<seq<Record>>, phase: string, rate: int): seq<seq<int>> {
    seq(|parts|, w requires 0 <= w < |parts| => Tagged(parts[w], phase, rate))
  }

  lemma {:induction false} TaggedCounts(rs: seq<Record>, phase: string, rate: int, b: nat)
    requires Increments(rs) && b < NBUCKETS
    ensures TaggedBucket(rs, phase, rate, b) >= 0
  {
    if rs != [] {
      TaggedCounts(rs[..|rs| - 1], phase, rate, b);
    }
  }

  lemma {:induction false} FlattenedPools(parts: seq<seq<Record>>, phase: string, rate: int)
    requires forall w | 0 <= w < |parts| :: Increments(parts[w])
    ensures P.Histograms(WorkerHists(parts, phase, rate))
    ensures Tagged(Flatten(parts), phase, rate) == P.Pool(WorkerHists(parts, phase, rate))
  {
    forall w, b: nat | 0 <= w < |parts| && b < NBUCKETS ensures TaggedBucket(parts[w], phase, rate, b) >= 0 {
      TaggedCounts(parts[w], phase, rate, b);
    }
    if parts != [] {
      var n := |parts| - 1;
      FlattenedPools(parts[..n], phase, rate);
      assert WorkerHists(parts, phase, rate)[..n] == WorkerHists(parts[..n], phase, rate);
      forall b: nat | b < NBUCKETS
        ensures TaggedBucket(Flatten(parts), phase, rate, b)
          == TaggedBucket(Flatten(parts[..n]), phase, rate, b) + TaggedBucket(parts[n], phase, rate, b)
      {
        TaggedAppends(Flatten(parts[..n]), parts[n], phase, rate, b);
      }
    }
  }

  lemma FlattenedBin(parts: seq<seq<Record>>, phase: string, rate: int)
    requires (phase == "open" || phase == "burst") && rate > 0
    requires forall w | 0 <= w < |parts| :: Increments(parts[w])
    ensures P.Histograms(WorkerHists(parts, phase, rate))
    ensures BinHist(FoldAll(Flatten(parts)), phase, rate) == P.Pool(WorkerHists(parts, phase, rate))
  {
    BinIsTagged(Flatten(parts), phase, rate);
    FlattenedPools(parts, phase, rate);
  }

  /** The bin of a rate holds the workers' histograms of that rate added up, whatever the interleaving. */
  lemma BinPoolsWorkers(streams: seq<seq<Record>>, picks: seq<nat>, phase: string, rate: int)
    requires Interleaves(streams, picks) && (phase == "open" || phase == "burst") && rate > 0
    requires forall w | 0 <= w < |streams| :: Increments(streams[w])
    ensures forall w: nat | w < |streams| :: Taken(picks, w) <= |streams[w]|
    ensures P.Histograms(WorkerHists(Cut(streams, picks), phase, rate))
    ensures BinHist(FoldAll(Merged(streams, picks)), phase, rate)
      == P.Pool(WorkerHists(Cut(streams, picks), phase, rate))
  {
    WorkerByWorker(streams, picks);
    var parts := Cut(streams, picks);
    FlattenedBin(parts, phase, rate);
  }

  /** Each percentile of a point on the curve lies between the lowest and the highest percentile that the workers
      with samples of that rate would have had on their own. */
  lemma CurveIsFair(streams: seq<seq<Record>>, picks: seq<nat>, phase: string, rate: int,
                    p: int, qs: seq<int>, low: int, high: int, b: int)
    requires Interleaves(streams, picks) && (phase == "open" || phase == "burst") && rate > 0
    requires forall w | 0 <= w < |streams| :: Increments(streams[w])
    requires forall w: nat | w < |streams| :: Taken(picks, w) <= |streams[w]|
    requires var hs := WorkerHists(Cut(streams, picks), phase, rate);
      && |qs| == |hs|
      && forall w | 0 <= w < |hs| && Sum(hs[w]) > 0 :: P.IsPercentile(hs[w], p, qs[w]) && low <= qs[w] <= high
    requires var h := BinHist(FoldAll(Merged(streams, picks)), phase, rate);
      Sum(h) > 0 && P.IsPercentile(h, p, b)
    ensures low <= b <= high
  {
    BinPoolsWorkers(streams, picks, phase, rate);
    P.PoolingIsFair(WorkerHists(Cut(streams, picks), phase, rate), p, qs, low, high, b);
  }

  // ---------- the latencies behind the curve ----------

  /** The latencies told with the records of a phase and rate. */
  function TaggedLat(rs: seq<Record>, told: seq<seq<real>>, phase: string, rate: int): seq<real>
    requires |told| == |rs|
  {
    if rs == [] then [] else
    var n := |rs| - 1;
    TaggedLat(rs[..n], told[..n], phase, rate) + if rs[n].phase == phase && rs[n].rate == rate then told[n] else []
  }

  lemma {:induction false} TaggedIsBacked(rs: seq<Record>, told: seq<seq<real>>, phase: string, rate: int,
                                          scale: real -> int, b: nat)
    requires Backed(rs, told, scale) && b < NBUCKETS
    ensures TaggedBucket(rs, phase, rate, b) == InBucket(TaggedLat(rs, told, phase, rate), scale, b)
  {
    if rs != [] {
      var n := |rs| - 1;
      TaggedIsBacked(rs[..n], told[..n], phase, rate, scale, b);
      assert BackedBy(rs[n].hist, told[n], scale);
      InBucketAppends(TaggedLat(rs[..n], told[..n], phase, rate), told[n], scale, b);
      InBucketAppends(TaggedLat(rs[..n], told[..n], phase, rate), [], scale, b);
    }
  }

  predicate SameShape(parts: seq<seq<Record>>, tolds: seq<seq<seq<real>>>) {
    |tolds| == |parts| && forall w | 0 <= w < |parts| :: |tolds[w]| == |parts[w]|
  }

  predicate AllBacked(parts: seq<seq<Record>>, tolds: seq<seq<seq<real>>>, scale: real -> int) {
    SameShape(parts, tolds) && forall w | 0 <= w < |parts| :: Backed(parts[w], tolds[w], scale)
  }

  /** The latencies that all workers told of a phase and rate. */
  function AllLat(parts: seq<seq<Record>>, tolds: seq<seq<seq<real>>>, phase: string, rate: int): seq<real>
    requires SameShape(parts, tolds)
  {
    if parts == [] then [] else
    var n := |parts| - 1;
    AllLat(parts[..n], tolds[..n], phase, rate) + TaggedLat(parts[n], tolds[n], phase, rate)
  }

  lemma {:induction false} PoolIsBacked(parts: seq<seq<Record>>, tolds: seq<seq<seq<real>>>, phase: string, rate: int,
                                        scale: real -> int, b: nat)
    requires AllBacked(parts, tolds, scale)
    requires (forall w | 0 <= w < |parts| :: Increments(parts[w])) && b < NBUCKETS
    ensures P.Histograms(WorkerHists(parts, phase, rate))
    ensures P.Pool(WorkerHists(parts, phase, rate))[b] == InBucket(AllLat(parts, tolds, phase, rate), scale, b)
  {
    FlattenedPools(parts, phase, rate);
    if parts != [] {
      var n := |parts| - 1;
      PoolIsBacked(parts[..n], tolds[..n], phase, rate, scale, b);
      assert WorkerHists(parts, phase, rate)[..n] == WorkerHists(parts[..n], phase, rate);
      TaggedIsBacked(parts[n], tolds[n], phase, rate, scale, b);
      InBucketAppends(AllLat(parts[..n], tolds[..n], phase, rate), TaggedLat(parts[n], tolds[n], phase, rate), scale, b);
    }
  }

  /** What the workers told with the records that have been read. */
  function CutTold(streams: seq<seq<Record>>, tolds: seq<seq<seq<real>>>, picks: seq<nat>): (parts: seq<seq<seq<real>>>)
    requires SameShape(streams, tolds) && forall w: nat | w < |streams| :: Taken(picks, w) <= |streams[w]|
    ensures SameShape(Cut(streams, picks), parts)
  {
    seq(|streams|, w requires 0 <= w < |streams| => tolds[w][..Taken(picks, w)])
  }

  lemma PoolIsTally(parts: seq<seq<Record>>, tolds: seq<seq<seq<real>>>, phase: string, rate: int, scale: real -> int)
    requires AllBacked(parts, tolds, scale) && forall w | 0 <= w < |parts| :: Increments(parts[w])
    ensures P.Histograms(WorkerHists(parts, phase, rate))
    ensures P.Pool(WorkerHists(parts, phase, rate)) == P.Tally(AllLat(parts, tolds, phase, rate), scale)
  {
    FlattenedPools(parts, phase, rate);
    var lat := AllLat(parts, tolds, phase, rate);
    forall b: nat | b < NBUCKETS ensures P.Pool(WorkerHists(parts, phase, rate))[b] == P.Tally(lat, scale)[b] {
      PoolIsBacked(parts, tolds, phase, rate, scale, b);
      P.TallyIs(lat, scale, b);
    }
  }

  lemma CutBacked(streams: seq<seq<Record>>, tolds: seq<seq<seq<real>>>, picks: seq<nat>, scale: real -> int)
    requires AllBacked(streams, tolds, scale) && forall w: nat | w < |streams| :: Taken(picks, w) <= |streams[w]|
    ensures AllBacked(Cut(streams, picks), CutTold(streams, tolds, picks), scale)
  {
    var parts, told := Cut(streams, picks), CutTold(streams, tolds, picks);
    forall w | 0 <= w < |parts| ensures Backed(parts[w], told[w], scale) {
      assert Backed(streams[w], tolds[w], scale);
    }
  }

  lemma CutIncrements(streams: seq<seq<Record>>, picks: seq<nat>)
    requires forall w: nat | w < |streams| :: Taken(picks, w) <= |streams[w]|
    requires forall w | 0 <= w < |streams| :: Increments(streams[w])
    ensures forall w | 0 <= w < |streams| :: Increments(Cut(streams, picks)[w])
  {
  }

  /** At every point of every interleaving, the bin of a rate is the histogram of all latencies told of that rate in the
      records read so far. */
  lemma BinIsTally(streams: seq<seq<Record>>, tolds: seq<seq<seq<real>>>, picks: seq<nat>, phase: string, rate: int,
                   scale: real -> int)
    requires Interleaves(streams, picks) && (phase == "open" || phase == "burst") && rate > 0
    requires AllBacked(streams, tolds, scale) && forall w | 0 <= w < |streams| :: Increments(streams[w])
    ensures forall w: nat | w < |streams| :: Taken(picks, w) <= |streams[w]|
    ensures BinHist(FoldAll(Merged(streams, picks)), phase, rate)
      == P.Tally(AllLat(Cut(streams, picks), CutTold(streams, tolds, picks), phase, rate), scale)
  {
    BinPoolsWorkers(streams, picks, phase, rate);
    CutBacked(streams, tolds, picks, scale);
    CutIncrements(streams, picks);
    PoolIsTally(Cut(streams, picks), CutTold(streams, tolds, picks), phase, rate, scale);
  }

  lemma TallyRanks(h: Hist, lat: seq<real>, s: seq<real>, scale: real -> int, p: int, b: int)
    requires h == P.Tally(lat, scale) && multiset(s) == multiset(lat)
    requires P.Monotone(scale) && 0 < p <= 100 && P.Sorted(s) && s != []
    ensures 1 <= P.Rank(p, |s|) <= |s|
    ensures P.IsPercentile(h, p, b) <==> b == Bucket(scale, s[P.Rank(p, |s|) - 1])
  {
    assert |multiset(lat)| == |lat| && |s| == |multiset(s)|;
    P.PercentileIsOrderStatistic(lat, s, scale, p, b);
  }

  /** Each percentile on the curve is the bucket of the sample with that rank among all latencies told of that rate. */
  lemma CurveIsOrderStatistic(streams: seq<seq<Record>>, tolds: seq<seq<seq<real>>>, picks: seq<nat>, phase: string,
                              rate: int, scale: real -> int, p: int, s: seq<real>, b: int)
    requires Interleaves(streams, picks) && (phase == "open" || phase == "burst") && rate > 0
    requires AllBacked(streams, tolds, scale) && forall w | 0 <= w < |streams| :: Increments(streams[w])
    requires forall w: nat | w < |streams| :: Taken(picks, w) <= |streams[w]|
    requires P.Monotone(scale) && 0 < p <= 100 && P.Sorted(s) && s != []
    requires multiset(s) == multiset(AllLat(Cut(streams, picks), CutTold(streams, tolds, picks), phase, rate))
    ensures 1 <= P.Rank(p, |s|) <= |s|
    ensures P.IsPercentile(BinHist(FoldAll(Merged(streams, picks)), phase, rate), p, b)
      <==> b == Bucket(scale, s[P.Rank(p, |s|) - 1])
  {
    var lat := AllLat(Cut(streams, picks), CutTold(streams, tolds, picks), phase, rate);
    BinIsTally(streams, tolds, picks, phase, rate, scale);
    TallyRanks(BinHist(FoldAll(Merged(streams, picks)), phase, rate), lat, s, scale, p, b);
  }
}

/**
 From the bots of a whole fleet to the score: the workers of module Fleet feed the aggregate of module Telemetry.
*/
module Pipeline {
  import opened Bots
  import opened Course
  import opened Fleet
  import opened Histogram
  import opened Ingester
  import opened Merging
  import opened Options
  import P = Percentiles
  import opened Records
  import opened Scoring
  import opened Telemetry

  function SumOf(cs: seq<Counts>): Counts {
    if cs == [] then ZERO else SumOf(cs[..|cs| - 1]).Plus(cs[|cs| - 1])
  }

  /** What a worker has counted, and how much of it telemetry has not been told. */
  ghost predicate Accounts(w: Worker, stream: seq<Record>, counted: Counts, untold: Counts)
    reads w, w.stats, w.reporter
  {
    w.Valid() && w.stream == stream && w.stats.counts == counted && untold == w.past.lost.Plus(w.Pending())
  }

  lemma {:induction false} FlattenedTotals(streams: seq<seq<Record>>, untold: seq<Counts>, counted: seq<Counts>)
    requires |streams| == |untold| == |counted|
    requires forall w | 0 <= w < |streams| :: MakeUp(Shipped(streams[w]), untold[w], counted[w])
    ensures MakeUp(FoldAll(Flatten(streams)).counts, SumOf(untold), SumOf(counted))
  {
    if streams != [] {
      var n := |streams| - 1;
      FlattenedTotals(streams[..n], untold[..n], counted[..n]);
      FoldCounts(Flatten(streams[..n]), streams[n]);
      assert MakeUp(Shipped(streams[n]), untold[n], counted[n]);
    }
  }

  /** Once all records are read, in whatever interleaving, the aggregate's totals are what all bots of all workers
      counted, less what the workers lost between phases or still hold back. */
  lemma TotalsAreConserved(ws: seq<Worker>, streams: seq<seq<Record>>, counted: seq<Counts>, untold: seq<Counts>,
                           picks: seq<nat>)
    requires |ws| == |streams| == |counted| == |untold|
    requires forall i | 0 <= i < |ws| :: Accounts(ws[i], streams[i], counted[i], untold[i])
    requires ReadAll(streams, picks)
    ensures MakeUp(FoldAll(Merged(streams, picks)).counts, SumOf(untold), SumOf(counted))
  {
    forall i | 0 <= i < |ws| ensures MakeUp(Shipped(streams[i]), untold[i], counted[i]) {
      WorkerGuarantees(ws[i]);
    }
    FlattenedTotals(streams, untold, counted);
    AllIsFlattened(streams, picks);
  }

  /** Whatever the engine replies and however events and records interleave, at every point the correctness of the
      run is a fraction and its score is at least 0 and less than 1000. */
  lemma FleetScoreInRange(ws: seq<Worker>, streams: seq<seq<Record>>, picks: seq<nat>, peak: real, p99: real, s: Scale)
    requires |ws| == |streams| && forall i | 0 <= i < |ws| :: ws[i].Valid() && ws[i].stream == streams[i]
    requires Interleaves(streams, picks) && s.Ok() && peak >= 0.0
    ensures 0.0 <= Correctness(FoldAll(Merged(streams, picks)).counts) <= 1.0
    ensures 0.0 <= Score(FoldAll(Merged(streams, picks)).counts, peak, p99, s) < 1000.0
  {
    forall i | 0 <= i < |ws| ensures CredibleStream(streams[i]) {
      WorkerGuarantees(ws[i]);
    }
    ScoreInRange(streams, picks, peak, p99, s);
  }

  // ---------- the probe ----------

  function SumRounds(parts: seq<seq<Record>>): int {
    if parts == [] then 0 else SumRounds(parts[..|parts| - 1]) + Shipped(parts[|parts| - 1]).corrTotal
  }

  function SumPasses(parts: seq<seq<Record>>): int {
    if parts == [] then 0 else SumPasses(parts[..|parts| - 1]) + Shipped(parts[|parts| - 1]).corrPass
  }

  lemma {:induction false} FlattenedRounds(parts: seq<seq<Record>>)
    ensures FoldAll(Flatten(parts)).counts.corrTotal == SumRounds(parts)
    ensures FoldAll(Flatten(parts)).counts.corrPass == SumPasses(parts)
  {
    if parts != [] {
      var n := |parts| - 1;
      FlattenedRounds(parts[..n]);
      FoldCounts(Flatten(parts[..n]), parts[n]);
      assert Flatten(parts) == Flatten(parts[..n]) + parts[n];
    } else {
      assert Flatten(parts) == [];
      assert FoldAll([]) == NOSHEET;
    }
  }

  predicate NoRounds(part: seq<Record>) {
    Shipped(part).corrTotal == 0 == Shipped(part).corrPass
  }

  lemma {:induction false} OneCarries(parts: seq<seq<Record>>, leader: nat)
    requires forall w | 0 <= w < |parts| && w != leader :: NoRounds(parts[w])
    ensures SumRounds(parts) == if leader < |parts| then Shipped(parts[leader]).corrTotal else 0
    ensures SumPasses(parts) == if leader < |parts| then Shipped(parts[leader]).corrPass else 0
  {
    if parts != [] {
      var n := |parts| - 1;
      OneCarries(parts[..n], leader);
      assert n != leader ==> NoRounds(parts[n]);
    }
  }

  /** Whether a worker's stream carries the probe, and what it has carried after k records. */
  lemma RoundsRead(w: Worker, stream: seq<Record>, k: nat)
    requires w.Valid() && w.stream == stream && k <= |stream|
    ensures SameRounds(ShippedBy(stream, k), if w.leader && k > 0 then w.probe else ZERO)
  {
    WorkerGuarantees(w);
    assert SameRounds(ShippedBy(stream, 0), ZERO);
    if !w.leader {
      assert SameRounds(ShippedBy(stream, 0), w.probe);
    }
  }

  /** With one leader, at every point of every interleaving telemetry has counted either no probe round, or exactly the
      leader's, once the leader's first record has been read. */
  lemma ProbeArrivesWhole(ws: seq<Worker>, streams: seq<seq<Record>>, picks: seq<nat>, leader: nat)
    requires |ws| == |streams| && forall i | 0 <= i < |ws| :: ws[i].Valid() && ws[i].stream == streams[i]
    requires leader < |ws| && forall i | 0 <= i < |ws| :: ws[i].leader <==> i == leader
    requires Interleaves(streams, picks)
    ensures SameRounds(FoldAll(Merged(streams, picks)).counts, if Taken(picks, leader) > 0 then ws[leader].probe else ZERO)
  {
    WorkerByWorker(streams, picks);
    var parts := Cut(streams, picks);
    var probe := if Taken(picks, leader) > 0 then ws[leader].probe else ZERO;
    forall w: nat | w < |parts| ensures SameRounds(Shipped(parts[w]), if w == leader then probe else ZERO) {
      ShippedByCut(streams[w], Taken(picks, w), Taken(picks, w));
      RoundsRead(ws[w], streams[w], Taken(picks, w));
    }
    FlattenedRounds(parts);
    OneCarries(parts, leader);
  }

  /** An engine that fails every round of the leader's probe scores 0 from the moment the leader's first record is read. */
  lemma FailedProbeScoresNothing(ws: seq<Worker>, streams: seq<seq<Record>>, picks: seq<nat>, leader: nat,
                                 peak: real, p99: real, s: Scale)
    requires |ws| == |streams| && forall i | 0 <= i < |ws| :: ws[i].Valid() && ws[i].stream == streams[i]
    requires leader < |ws| && forall i | 0 <= i < |ws| :: ws[i].leader <==> i == leader
    requires ws[leader].probe.corrPass == 0 < ws[leader].probe.corrTotal
    requires Interleaves(streams, picks) && Taken(picks, leader) > 0 && s.Ok()
    ensures Score(FoldAll(Merged(streams, picks)).counts, peak, p99, s) == 0.0
  {
    ProbeArrivesWhole(ws, streams, picks, leader);
    forall i | 0 <= i < |ws| ensures CredibleStream(streams[i]) {
      WorkerGuarantees(ws[i]);
    }
    AggregateIsCredible(streams, picks);
    CheatScoresNothing(FoldAll(Merged(streams, picks)).counts, peak, p99, s);
  }

  // ---------- the curve ----------

  /** Each worker has followed its events, which determine the latencies it has told. */
  ghost predicate AllFollow(ws: seq<Worker>, streams: seq<seq<Record>>, runs: seq<seq<Event>>, tolds: seq<seq<seq<real>>>,
                            scale: real -> int)
    reads set i | 0 <= i < |ws| :: ws[i], set i | 0 <= i < |ws| :: ws[i].stats, set i | 0 <= i < |ws| :: ws[i].reporter
  {
    && |ws| == |streams| == |runs| == |tolds|
    && forall i | 0 <= i < |ws| ::
      && Follows(ws[i], runs[i]) && ws[i].stream == streams[i] && ws[i].scale == scale
      && tolds[i] == ToldBy(runs[i], |runs[i]|, ws[i].leader)
  }

  /** At every point of every interleaving, each percentile on the curve is the bucket of the sample with that rank among
      all latencies of acknowledgements that the workers' events contain and that they shipped under that phase and
      rate. */
  lemma FleetCurve(ws: seq<Worker>, streams: seq<seq<Record>>, runs: seq<seq<Event>>, tolds: seq<seq<seq<real>>>,
                   picks: seq<nat>, phase: string, rate: int, scale: real -> int, p: int, s: seq<real>, b: int)
    requires AllFollow(ws, streams, runs, tolds, scale)
    requires Interleaves(streams, picks) && (phase == "open" || phase == "burst") && rate > 0
    requires forall w: nat | w < |streams| :: Taken(picks, w) <= |streams[w]| == |tolds[w]|
    requires P.Monotone(scale) && 0 < p <= 100 && P.Sorted(s) && s != []
    requires SameShape(streams, tolds)
    requires multiset(s) == multiset(AllLat(Cut(streams, picks), CutTold(streams, tolds, picks), phase, rate))
    ensures 1 <= P.Rank(p, |s|) <= |s|
    ensures P.IsPercentile(BinHist(FoldAll(Merged(streams, picks)), phase, rate), p, b)
      <==> b == Bucket(scale, s[P.Rank(p, |s|) - 1])
  {
    forall i | 0 <= i < |ws| ensures Increments(streams[i]) && Backed(streams[i], tolds[i], scale) {
      WorkerGuarantees(ws[i]);
      FollowsTold(ws[i], runs[i]);
    }
    CurveIsOrderStatistic(streams, tolds, picks, phase, rate, scale, p, s, b);
  }

  // ---------- a late start ----------

  /** A worker ships one order, and later one more with the acknowledgements of both. If the run's start is read between the
      two records, correctness exceeds 1. */
  method LateStartInFleet() returns (w: Worker)
    ensures w.Valid() && |w.stream| == 2
    ensures Correctness(FoldAll(Received([Sample(1, w.stream[0]), Start(1), Sample(1, w.stream[1])], 1)).counts) > 1.0
  {
    w := OneInFlight(false);
    AnswerBoth(w);
    var first, second := w.stream[0], w.stream[1];
    LateReceived([first], [second], 1);
    assert Late([first], [second], 1) == [Sample(1, first), Start(1), Sample(1, second)];
    TooMany(second);
  }

  lemma TooMany(r: Record)
    requires r.delta.sent == 1 && r.delta.acked == 2 && r.delta.corrTotal == 0
    ensures Correctness(FoldAll([r]).counts) > 1.0
  {
    FoldOne([], r);
    assert [] + [r] == [r];
    assert FoldAll([]) == NOSHEET;
  }

  /** The bot sends a second order, and both are acknowledged before the next flush. */
  method AnswerBoth(w: Worker)
    requires w.Valid() && w.reporter.last == w.stats.counts && |w.stream| == 1
    requires |w.bots| == 1 && w.bots[0].sendTimes == {1} && w.bots[0].outstanding == 1 && w.bots[0].oid == 1
    requires w.bots[0].mode == Open && CanWake(w.bots[0])
    modifies w, w.stats, w.reporter
    ensures w.Valid() && |w.stream| == 2 && w.stream[0] == old(w.stream[0])
    ensures w.stream[1].delta.sent == 1 && w.stream[1].delta.acked == 2 && w.stream[1].delta.corrTotal == 0
  {
    FireOne(w, false);
    assert w.bots[0].sendTimes == {1, 2} && w.bots[0].life == Sending;
    HearBoth(w);
    var _ := w.Tick(3.0);
  }

  method HearBoth(w: Worker)
    requires w.Valid() && |w.bots| == 1 && w.bots[0].sendTimes == {1, 2} && w.bots[0].life == Sending
    modifies w`bots, w`held, w.stats
    ensures w.Valid() && w.stats.counts == old(w.stats.counts).(acked := old(w.stats.counts.acked) + 2)
  {
    w.ReplyKnown(0, 1, 5.0);
    w.ReplyKnown(0, 2, 5.0);
  }
}

/**
 One worker of the load generator: the counters its bots share, and the reporter that ships the counters' deltas.

 The interleaving of sends, replies, failures, flushes and phase changes is arbitrary. What the bots do is in module
 Bots, and what the worker makes of a run of events in module Course.
*/
module Fleet {
  import opened Bots
  import opened Course
  import opened Histogram
  import opened Options
  import opened Records

  /** The counters of a run, shared by its bots. */
  class Stats {
    var counts: Counts
    var hist: Hist

    constructor ()
      ensures counts == ZERO && hist == Zeros()
    {
      counts, hist := ZERO, Zeros();
    }
  }

  /** The baselines of the deltas of one phase. */
  class Reporter {
    var last: Counts
    var lastHist: Hist

    constructor (stats: Stats)
      ensures last == stats.counts && lastHist == stats.hist
    {
      last, lastHist := stats.counts, stats.hist;
    }

    /** Ship what has changed since the last flush, unless nothing has. The histogram baseline moves in any
        case; the counter baseline only if a record is shipped. */
    method Flush(stats: Stats, phase: string, rate: int, now: real) returns (rec: Option<Record>)
      modifies this
      ensures lastHist == stats.hist
      ensures var d := stats.counts.Minus(old(last));
        if d.sent == 0 && d.acked == 0 && d.errors == 0 && d.corrTotal == 0
        then rec == None && last == old(last)
        else last == stats.counts && rec.Some? && rec.value.phase == phase && rec.value.rate == rate &&
             rec.value.delta == d && rec.value.ts == now
      ensures rec.Some? ==> InRange(rec.value.hist)
      ensures rec.Some? ==>
        forall b: nat | b < NBUCKETS :: Weight(rec.value.hist, b) == stats.hist[b] - old(lastHist[b])
    {
      var d := stats.counts.Minus(last);
      ghost var was := lastHist;
      var histDelta: seq<(nat, int)> := [];
      for i := 0 to NBUCKETS
        invariant last == old(last)
        invariant forall b | 0 <= b < NBUCKETS :: lastHist[b] == if b < i then stats.hist[b] else was[b]
        invariant InRange(histDelta)
        invariant forall b: nat | b < NBUCKETS :: Weight(histDelta, b) == if b < i then stats.hist[b] - was[b] else 0
      {
        var dv := stats.hist[i] - lastHist[i];
        if dv != 0 {
          forall b: nat | b < NBUCKETS
            ensures Weight(histDelta + [(i, dv)], b) == Weight(histDelta, b) + (if b == i then dv else 0)
          {
            WeightAppend(histDelta, (i, dv), b);
          }
          histDelta := histDelta + [(i, dv)];
          lastHist := lastHist[i := stats.hist[i]];
        }
      }
      if d.sent == 0 && d.acked == 0 && d.errors == 0 && d.corrTotal == 0 {
        return None;
      }
      last := stats.counts;
      return Some(Record(phase, rate, d, histDelta, now));
    }
  }

  /** The send loop of one wake-up. */
  method SendBurst(b: Bot, burst: nat, fails: Option<nat>) returns (c: Bot, k: nat, raised: bool)
    requires BotOk(b) && CanWake(b)
    ensures k == Shots(b, burst, fails) && raised == (fails.Some? && fails.value < Fires(b, burst))
    ensures c == if raised then Broken(Sent(b, k)) else Sent(b, k)
  {
    c, k, raised := b, 0, false;
    var count := if b.mode == Closed then 1 else burst;
    while k < count
      invariant k <= count && k <= Fires(b, burst) && c == Sent(b, k) && !raised
      invariant fails.Some? ==> k <= fails.value
    {
      GuardStops(b, burst, k);
      if c.mode != Closed && c.outstanding >= MAX_OUTSTANDING {
        break;
      }
      k := k + 1;
      c := SendOne(c);
      if fails == Some(k - 1) {
        return Broken(c), k, true;
      }
    }
  }

  /** The leader runs the correctness probe and ships its outcome in a record of its own, because no reporter
      would ever count it: their baselines come later. */
  method Warmup(stats: Stats, leader: bool, rounds: seq<bool>, now: real) returns (records: seq<Record>)
    requires stats.counts == ZERO
    modifies stats`counts
    ensures stats.counts == ProbeCounts(leader, rounds) && Probed(records, leader, stats.counts)
    ensures |records| == Lead(leader)
    ensures Shipped(records) == stats.counts && CredibleStream(records)
    ensures Increments(records) && Tallied(records) && forall i | 0 <= i < |records| :: records[i].hist == []
  {
    NothingShipped();
    records := [];
    if leader {
      for i := 0 to |rounds|
        invariant stats.counts == Counts(0, 0, 0, Passed(rounds[..i]), i)
      {
        assert rounds[..i + 1][..i] == rounds[..i];
        stats.counts := stats.counts.(corrTotal := stats.counts.corrTotal + 1);
        if rounds[i] {
          stats.counts := stats.counts.(corrPass := stats.counts.corrPass + 1);
        }
      }
      assert rounds[..|rounds|] == rounds;
      var rec := Record("warmup", 0, Counts(0, 0, 0, stats.counts.corrPass, stats.counts.corrTotal), [], now);
      ShipOne([], rec);
      records := [rec];
      assert records == [] + [rec];
    }
  }

  /** Add to a histogram what another has beyond a third. */
  function Residue(lost: seq<int>, now: seq<int>, last: seq<int>): seq<int>
    requires |lost| == |now| == |last|
  {
    seq(|lost|, b requires 0 <= b < |lost| => lost[b] + now[b] - last[b])
  }

  /** What finished phases have left behind, for the proofs: orders whose acknowledgement was never counted, the
      counters when the current reporter was created, what had been shipped by then, and what was counted between
      a phase's last flush and the next reporter. */
  datatype Past = Past(stranded: int, start: Counts, earlier: Counts, lost: Counts, lostHist: seq<int>)

  /** Every order sent is acknowledged, in flight, or stranded; and the histogram counts the acknowledgements. */
  predicate Accounted(c: Counts, hist: seq<int>, bots: seq<Bot>, past: Past) {
    && BotsOk(bots)
    && c.sent == c.acked + InFlight(bots) + past.stranded
    && Sum(hist) == c.acked
    && past.stranded >= 0 && past.start.sent - past.start.acked == past.stranded
  }

  /** Since the phase started, the baselines and the counters only grew, and no more was acknowledged than was
      sent. */
  predicate Baselined(c: Counts, last: Counts, start: Counts) {
    && Growing(last.Minus(start)) && Growing(c.Minus(last)) && 0 <= start.corrPass <= start.corrTotal
    && last.acked - start.acked <= last.sent - start.sent
  }

  predicate HistBaselined(hist: seq<int>, lastHist: seq<int>, acked: int) {
    |hist| == |lastHist| && (forall b | 0 <= b < |hist| :: lastHist[b] <= hist[b]) && Sum(lastHist) == acked
  }

  /** Shipped and lost make up the baselines. */
  predicate Conserved(stream: seq<Record>, last: Counts, past: Past) {
    && Shipped(stream) == past.earlier.Plus(last.Minus(past.start))
    && Shipped(stream).Plus(past.lost) == last
    && Credible(past.earlier) && CredibleStream(stream)
    && Growing(past.lost)
  }

  predicate HistConserved(stream: seq<Record>, lost: seq<int>, lastHist: seq<int>) {
    |lost| == |lastHist| && forall b: nat | b < |lost| :: ShippedBucket(stream, b) + lost[b] == lastHist[b]
  }

  lemma PhaseTurns(stream: seq<Record>, c: Counts, last: Counts, past: Past)
    requires Conserved(stream, last, past) && Baselined(c, last, past.start)
    ensures var lost := past.lost.Plus(c.Minus(last));
      Conserved(stream, c, past.(start := c, earlier := Shipped(stream), lost := lost)) && Baselined(c, c, c)
    ensures IsNothing(past.lost.Plus(c.Minus(last))) <==> IsNothing(past.lost) && IsNothing(c.Minus(last))
  {
    LostNothing(past.lost, c.Minus(last));
    assert Credible(ShippedBy(stream, |stream|));
  }

  lemma StartsConserved(stream: seq<Record>, c: Counts, hist: seq<int>)
    requires Shipped(stream) == c && CredibleStream(stream) && Credible(c)
    ensures Conserved(stream, c, Past(0, c, c, ZERO, hist)) && Baselined(c, c, c)
  {
  }

  /** Shipping what is pending keeps the accounts. */
  lemma ShippingConserves(stream: seq<Record>, rec: Record, c: Counts, last: Counts, past: Past)
    requires Conserved(stream, last, past) && Baselined(c, last, past.start)
    requires rec.delta == c.Minus(last) && c.acked - past.start.acked <= c.sent - past.start.sent
    ensures Conserved(stream + [rec], c, past)
  {
    ShipOne(stream, rec);
  }

  lemma ShippingConservesBuckets(stream: seq<Record>, rec: Record, now: seq<int>, last: seq<int>, lost: seq<int>)
    requires HistConserved(stream, lost, last) && |now| == |last|
    requires forall b: nat | b < |now| :: Weight(rec.hist, b) == now[b] - last[b]
    ensures HistConserved(stream + [rec], lost, now)
  {
    ShipOne(stream, rec);
  }

  lemma ResidueConserves(stream: seq<Record>, lost: seq<int>, now: seq<int>, last: seq<int>)
    requires |now| == |last| && HistConserved(stream, lost, last)
    ensures HistConserved(stream, Residue(lost, now, last), now)
  {
  }

  /** What the histogram has beyond its baseline are the latencies held. */
  predicate Holds(hist: seq<int>, lastHist: seq<int>, held: seq<real>, scale: real -> int) {
    |hist| == |lastHist| && forall b: nat | b < |hist| :: hist[b] - lastHist[b] == InBucket(held, scale, b)
  }

  lemma HoldsMore(hist: seq<int>, lastHist: seq<int>, held: seq<real>, scale: real -> int, us: real)
    requires |hist| == NBUCKETS && Holds(hist, lastHist, held, scale)
    ensures var k := Bucket(scale, us); Holds(hist[k := hist[k] + 1], lastHist, held + [us], scale)
  {
    var k := Bucket(scale, us);
    forall b: nat | b < |hist|
      ensures hist[k := hist[k] + 1][b] - lastHist[b] == InBucket(held + [us], scale, b)
    {
      InBucketOne(held, us, scale, b);
    }
  }

  /** No probe round is counted after the warmup. */
  predicate ProbeDone(c: Counts, last: Counts, probe: Counts) {
    SameRounds(c, probe) && SameRounds(last, probe)
  }

  /** The counters of the moment agree with the bots, the baselines and the latencies held. */
  predicate Books(c: Counts, hist: Hist, last: Counts, lastHist: Hist, bots: seq<Bot>, past: Past, held: seq<real>,
                  scale: real -> int)
  {
    && Accounted(c, hist, bots, past) && Baselined(c, last, past.start)
    && HistBaselined(hist, lastHist, last.acked) && Holds(hist, lastHist, held, scale)
  }

  /** What has been shipped agrees with the baselines and with what was lost. */
  predicate Shipments(stream: seq<Record>, last: Counts, lastHist: Hist, past: Past, told: seq<seq<real>>,
                      scale: real -> int)
  {
    && Conserved(stream, last, past) && HistConserved(stream, past.lostHist, lastHist)
    && Increments(stream) && Tallied(stream) && Backed(stream, told, scale)
  }

  lemma AckBooks(c: Counts, hist: Hist, last: Counts, lastHist: Hist, bots: seq<Bot>, past: Past, held: seq<real>,
                 scale: real -> int, i: nat, ackId: Id, us: real)
    requires Books(c, hist, last, lastHist, bots, past, held, scale)
    requires i < |bots| && ackId in bots[i].sendTimes
    ensures var k := Bucket(scale, us);
      Books(c.(acked := c.acked + 1), hist[k := hist[k] + 1], last, lastHist, bots[i := Acked(bots[i], ackId)], past,
            held + [us], scale)
  {
    var k := Bucket(scale, us);
    AckedOk(bots[i], ackId);
    InFlightUpdate(bots, i, Acked(bots[i], ackId));
    SumUpdate(hist, k, hist[k] + 1);
    HoldsMore(hist, lastHist, held, scale, us);
    InFlightNonNegative(bots[i := Acked(bots[i], ackId)]);
  }

  lemma FireBooks(c: Counts, hist: Hist, last: Counts, lastHist: Hist, bots: seq<Bot>, past: Past, held: seq<real>,
                  scale: real -> int, i: nat, burst: nat, fails: Option<nat>, over: bool)
    requires Books(c, hist, last, lastHist, bots, past, held, scale)
    requires i < |bots| && CanWake(bots[i])
    ensures Books(c.(sent := c.sent + Shots(bots[i], burst, fails)), hist, last, lastHist,
                  bots[i := Woken(bots[i], burst, fails, over)], past, held, scale)
  {
    WokenOk(bots[i], burst, fails, over);
    InFlightUpdate(bots, i, Woken(bots[i], burst, fails, over));
  }

  lemma StrayBooks(c: Counts, hist: Hist, last: Counts, lastHist: Hist, bots: seq<Bot>, past: Past, held: seq<real>,
                   scale: real -> int, i: nat, ackId: Id)
    requires Books(c, hist, last, lastHist, bots, past, held, scale)
    requires i < |bots| && ackId !in bots[i].sendTimes
    ensures Books(c, hist, last, lastHist, bots[i := Acked(bots[i], ackId)], past, held, scale)
  {
    AckedOk(bots[i], ackId);
    InFlightUpdate(bots, i, Acked(bots[i], ackId));
  }

  lemma ShippedBooks(c: Counts, hist: Hist, last: Counts, lastHist: Hist, bots: seq<Bot>, past: Past, held: seq<real>,
                     scale: real -> int, stream: seq<Record>, told: seq<seq<real>>, rec: Record)
    requires Books(c, hist, last, lastHist, bots, past, held, scale)
    requires Shipments(stream, last, lastHist, past, told, scale)
    requires rec.delta == c.Minus(last) && InRange(rec.hist)
    requires forall b: nat | b < NBUCKETS :: Weight(rec.hist, b) == hist[b] - lastHist[b]
    ensures Books(c, hist, c, hist, bots, past, [], scale)
    ensures Shipments(stream + [rec], c, hist, past, told + [held], scale)
  {
    InFlightNonNegative(bots);
    ShippingConserves(stream, rec, c, last, past);
    ShippingConservesBuckets(stream, rec, hist, lastHist, past.lostHist);
    assert BackedBy(rec.hist, held, scale);
    TotalIsDifference(rec.hist, hist, lastHist);
  }

  // ---------- the worker ----------

  /** The counters grow by what the event adds to them. */
  predicate Gains(c: Counts, d: Counts, bots: seq<Bot>, ev: Event) {
    && d.sent == c.sent + Gain(Orders, bots, ev) && d.acked == c.acked + Gain(Acks, bots, ev)
    && d.errors == c.errors + Gain(Failures, bots, ev) && SameRounds(c, d)
  }

  /** One worker during one run. `scale` stands for the logarithm of the bucket map. */
  class Worker {
    const stats: Stats
    const scale: real -> int
    var reporter: Reporter
    var bots: seq<Bot>
    var tag: Tag
    var stream: seq<Record>

    ghost const leader: bool
    ghost const probe: Counts
    ghost var past: Past
    ghost var told: seq<seq<real>>
    ghost var held: seq<real>

    ghost predicate Valid()
      reads this, stats, reporter
    {
      && Books(stats.counts, stats.hist, reporter.last, reporter.lastHist, bots, past, held, scale)
      && Shipments(stream, reporter.last, reporter.lastHist, past, told, scale)
      && Probed(stream, leader, probe) && (leader ==> stream != []) && ProbeDone(stats.counts, reporter.last, probe)
    }

    /** The state when the first reporter is created, after the warmup. */
    constructor (s: Stats, r: Reporter, records: seq<Record>, log: real -> int, ghost leads: bool)
      requires s.hist == r.lastHist == Zeros() && r.last == s.counts
      requires s.counts == Counts(0, 0, 0, s.counts.corrPass, s.counts.corrTotal) && Credible(s.counts)
      requires Shipped(records) == s.counts && CredibleStream(records)
      requires Probed(records, leads, s.counts) && (leads ==> records != [])
      requires Increments(records) && Tallied(records) && forall i | 0 <= i < |records| :: records[i].hist == []
      ensures Valid() && stats == s && reporter == r && stream == records && bots == []
      ensures IsNothing(past.lost) && leader == leads && probe == s.counts && scale == log
      ensures tag == Tag("open", 0) && held == []
      ensures |told| == |records| && forall i | 0 <= i < |told| :: told[i] == []
    {
      SumZero(s.hist);
      NoBuckets(records);
      NoneTold(records, log);
      StartsConserved(records, s.counts, s.hist);
      stats, reporter, bots, tag, stream := s, r, [], Tag("open", 0), records;
      scale, leader, probe := log, leads, s.counts;
      past := Past(0, s.counts, s.counts, ZERO, s.hist);
      told, held := Silent(|records|), [];
    }

    /** What has been counted but not yet shipped. */
    ghost function Pending(): Counts
      reads this, stats, reporter
    {
      stats.counts.Minus(reporter.last)
    }

    /** What of the worker the events determine. */
    ghost function Now(): View
      reads this, stats, reporter
    {
      View(bots, tag, stats.counts, reporter.last, past.lost, held, stream, told)
    }

    method Connect(mode: Mode, oid: Id, over: bool)
      requires Valid()
      modifies this`bots
      ensures Valid() && bots == old(bots) + [Started(mode, oid, over)]
    {
      bots := bots + [Started(mode, oid, over)];
      assert bots[..|bots| - 1] == old(bots);
    }

    method Retag(newRate: int)
      requires Valid()
      modifies this`tag
      ensures Valid() && tag == old(tag).(rate := newRate)
    {
      tag := tag.(rate := newRate);
    }

    /** A bot that has drained or failed is gone; for a failed one an error is counted. */
    method Retire(i: nat)
      requires Valid() && i < |bots| && CanRetire(bots[i])
      modifies this`bots, stats`counts
      ensures Valid() && bots == old(bots)[i := old(bots)[i].(life := Gone)]
      ensures stats.counts == if old(bots)[i].life == Failing
        then old(stats.counts).(errors := old(stats.counts).errors + 1) else old(stats.counts)
      ensures IsNothing(Pending()) <==> IsNothing(old(Pending())) && old(bots)[i].life != Failing
      ensures Gains(old(stats.counts), stats.counts, old(bots), Retires(i))
    {
      InFlightUpdate(bots, i, bots[i].(life := Gone));
      if bots[i].life == Failing {
        stats.counts := stats.counts.(errors := stats.counts.errors + 1);
      }
      bots := bots[i := bots[i].(life := Gone)];
    }

    /** A bot that cannot connect only counts an error. */
    method FailToConnect()
      requires Valid()
      modifies stats`counts
      ensures Valid() && stats.counts == old(stats.counts).(errors := old(stats.counts).errors + 1)
      ensures !IsNothing(Pending())
    {
      stats.counts := stats.counts.(errors := stats.counts.errors + 1);
    }

    /** The receiver of bot i reads the acknowledgement of an order in flight, `us` microseconds after it was sent. */
    method ReplyKnown(i: nat, ackId: Id, us: real)
      requires Valid() && i < |bots| && ackId in bots[i].sendTimes
      modifies this`bots, this`held, stats
      ensures Valid() && bots == old(bots)[i := Acked(old(bots)[i], ackId)] && held == old(held) + [us]
      ensures stats.counts == old(stats.counts).(acked := old(stats.counts).acked + 1)
      ensures stats.hist == old(stats.hist)[Bucket(scale, us) := old(stats.hist)[Bucket(scale, us)] + 1]
      ensures !IsNothing(Pending())
    {
      AckBooks(stats.counts, stats.hist, reporter.last, reporter.lastHist, bots, past, held, scale, i, ackId, us);
      var k := Bucket(scale, us);
      stats.hist := stats.hist[k := stats.hist[k] + 1];
      stats.counts := stats.counts.(acked := stats.counts.acked + 1);
      held := held + [us];
      bots := bots[i := Acked(bots[i], ackId)];
    }

    /** The receiver of bot i reads any acknowledgement. One that matches no order in flight only frees a slot. */
    method Reply(i: nat, ackId: Id, us: real)
      requires Valid() && i < |bots| && bots[i].life != Gone
      modifies this`bots, this`held, stats
      ensures Valid() && bots == old(bots)[i := Acked(old(bots)[i], ackId)]
      ensures if ackId in old(bots)[i].sendTimes
        then stats.counts == old(stats.counts).(acked := old(stats.counts).acked + 1) && held == old(held) + [us] &&
             stats.hist == old(stats.hist)[Bucket(scale, us) := old(stats.hist)[Bucket(scale, us)] + 1]
        else stats.counts == old(stats.counts) && held == old(held) && stats.hist == old(stats.hist)
      ensures IsNothing(Pending()) <==> IsNothing(old(Pending())) && ackId !in old(bots)[i].sendTimes
      ensures Gains(old(stats.counts), stats.counts, old(bots), Replies(i, ackId, us))
    {
      if ackId in bots[i].sendTimes {
        ReplyKnown(i, ackId, us);
      } else {
        StrayBooks(stats.counts, stats.hist, reporter.last, reporter.lastHist, bots, past, held, scale, i, ackId);
        bots := bots[i := Acked(bots[i], ackId)];
      }
    }

    /** A wake-up of bot i. An order whose send raises counts as sent and in flight. */
    method Fire(i: nat, burst: nat, fails: Option<nat>, over: bool)
      requires Valid() && i < |bots| && CanWake(bots[i])
      modifies this`bots, stats`counts
      ensures Valid() && bots == old(bots)[i := Woken(old(bots)[i], burst, fails, over)]
      ensures stats.counts ==
        old(stats.counts).(sent := old(stats.counts).sent + Shots(old(bots)[i], burst, fails))
      ensures IsNothing(Pending()) <==> IsNothing(old(Pending())) && Shots(old(bots)[i], burst, fails) == 0
      ensures Gains(old(stats.counts), stats.counts, old(bots), Wakes(i, burst, fails, over))
    {
      var c, k, raised := SendBurst(bots[i], burst, fails);
      if !raised && over {
        c := c.(life := Draining);
      }
      FireBooks(stats.counts, stats.hist, reporter.last, reporter.lastHist, bots, past, held, scale, i, burst, fails, over);
      bots := bots[i := c];
      stats.counts := stats.counts.(sent := stats.counts.sent + k);
    }

    /** A flush tick of the reporter. If nothing is shipped, nothing was pending, not even in the histogram. */
    method Tick(now: real) returns (rec: Option<Record>)
      requires Valid()
      modifies this`stream, this`told, this`held, reporter
      ensures Valid() && reporter.last == stats.counts && reporter.lastHist == stats.hist && IsNothing(Pending())
      ensures rec.None? <==> IsNothing(old(Pending()))
      ensures rec.None? ==> stream == old(stream) && told == old(told) && held == old(held)
      ensures rec.None? ==> old(reporter.lastHist) == stats.hist
      ensures rec.Some? ==> stream == old(stream) + [rec.value] && told == old(told) + [old(held)] && held == []
      ensures rec.Some? ==> rec.value.phase == tag.phase && rec.value.rate == tag.rate && rec.value.ts == now
      ensures rec.Some? ==> rec.value.delta == old(Pending())
    {
      SameSum(reporter.lastHist, stats.hist);
      ghost var c, hist, last, lastHist := stats.counts, stats.hist, reporter.last, reporter.lastHist;
      rec := reporter.Flush(stats, tag.phase, tag.rate, now);
      if rec.Some? {
        ShippedBooks(c, hist, last, lastHist, bots, past, held, scale, stream, told, rec.value);
        ProbedOn(stream, rec.value, leader, probe);
        stream := stream + [rec.value];
        told, held := told + [held], [];
      }
    }

    /** The bots of the phase are gone and the next phase creates its reporter, whose baselines are the
        counters of that moment: whatever is still pending will never be shipped. */
    method NextPhase(name: string)
      requires Valid() && AllGone(bots)
      modifies this
      ensures Valid() && fresh(reporter)
      ensures bots == [] && stream == old(stream) && told == old(told) && held == [] && tag == Tag(name, 0)
      ensures past.lost == old(past.lost).Plus(old(Pending())) && reporter.last == stats.counts
      ensures IsNothing(past.lost) <==> IsNothing(old(past.lost)) && IsNothing(old(Pending()))
    {
      InFlightNonNegative(bots);
      PhaseTurns(stream, stats.counts, reporter.last, past);
      ghost var now := stats.hist;
      ResidueConserves(stream, past.lostHist, now, reporter.lastHist);
      past := Past(past.stranded + InFlight(bots), stats.counts, Shipped(stream), past.lost.Plus(Pending()),
                   Residue(past.lostHist, now, reporter.lastHist));
      reporter := new Reporter(stats);
      bots, tag, held := [], Tag(name, 0), [];
    }

    /** Let something happen to the bots; what cannot happen now is skipped. */
    method ApplyToBots(ev: Event)
      requires Valid() && !ev.Ticks? && !ev.Turns? && !ev.Retags?
      modifies this`bots, this`held, stats
      ensures Valid() && bots == Next(old(bots), ev)
      ensures Gains(old(stats.counts), stats.counts, old(bots), ev)
      ensures held == if Hears(old(bots), ev) then old(held) + [ev.us] else old(held)
    {
      match ev {
        case Connects(mode, oid, over) => Connect(mode, oid, over);
        case Misses => FailToConnect();
        case Wakes(i, burst, fails, over) =>
          if i < |bots| && CanWake(bots[i]) {
            Fire(i, burst, fails, over);
          }
        case Replies(i, ackId, us) =>
          if i < |bots| && bots[i].life != Gone {
            Reply(i, ackId, us);
          }
        case Retires(i) =>
          if i < |bots| && CanRetire(bots[i]) {
            Retire(i);
          }
      }
    }
  }

  /** Start a run: the warmup, and then the first reporter. */
  method Begin(leader: bool, rounds: seq<bool>, scale: real -> int, now: real) returns (w: Worker)
    ensures fresh(w) && fresh(w.stats) && fresh(w.reporter)
    ensures w.Valid() && w.leader == leader && w.scale == scale
    ensures w.stats.counts == w.probe == ProbeCounts(leader, rounds)
    ensures IsNothing(w.past.lost) && w.reporter.last == w.stats.counts && w.bots == [] && w.held == []
    ensures w.tag == Tag("open", 0) && |w.stream| == |w.told| == Lead(leader) && (leader ==> w.told[0] == [])
  {
    var s := new Stats();
    var records := Warmup(s, leader, rounds, now);
    var r := new Reporter(s);
    w := new Worker(s, r, records, scale, leader);
  }

  // ---------- whole runs ----------

  /** What a valid worker guarantees: every count is shipped, lost at a phase boundary, or still pending; the
      stream is credible; and bots, counters and histogram agree. */
  lemma WorkerGuarantees(w: Worker)
    requires w.Valid()
    ensures Shipped(w.stream).Plus(w.past.lost).Plus(w.Pending()) == w.stats.counts
    ensures forall b: nat | b < NBUCKETS ::
      ShippedBucket(w.stream, b) + w.past.lostHist[b] + (w.stats.hist[b] - w.reporter.lastHist[b]) == w.stats.hist[b]
    ensures Plausible(w.stream)
    ensures Probed(w.stream, w.leader, w.probe) && (w.leader ==> w.stream != [])
    ensures Backed(w.stream, w.told, w.scale)
    ensures 0 <= w.stats.counts.acked <= w.stats.counts.sent && Sum(w.stats.hist) == w.stats.counts.acked
    ensures forall i | 0 <= i < |w.bots| && w.bots[i].mode == Open ::
      |w.bots[i].sendTimes| == w.bots[i].outstanding <= MAX_OUTSTANDING
    ensures forall i | 0 <= i < |w.bots| && w.bots[i].mode == Closed ::
      w.bots[i].permits + |w.bots[i].sendTimes| == WINDOW <==> w.bots[i].strays == 0
  {
    InFlightNonNegative(w.bots);
    assert Credible(ShippedBy(w.stream, |w.stream|));
  }

  /** The counters are what the run started with and the events add up to. */
  predicate Adds(c: Counts, probe: Counts, events: seq<Event>, k: nat)
    requires k <= |events|
  {
    && c.sent == probe.sent + Counted(Orders, events, k) && c.acked == probe.acked + Counted(Acks, events, k)
    && c.errors == probe.errors + Counted(Failures, events, k) && SameRounds(c, probe)
  }

  /** What is not yet shipped is what the events leave pending. */
  predicate Awaits(c: Counts, last: Counts, events: seq<Event>, k: nat)
    requires k <= |events|
  {
    && c.sent == last.sent + Pending(Orders, events, k) && c.acked == last.acked + Pending(Acks, events, k)
    && c.errors == last.errors + Pending(Failures, events, k) && SameRounds(c, last)
  }

  predicate IsDelta(d: Counts, b: Batch) {
    d.sent == b.sent && d.acked == |b.heard| && d.errors == b.errors && d.corrPass == d.corrTotal == 0
  }

  /** A record is batch i, and was told its latencies. */
  predicate IsBatch(stream: seq<Record>, told: seq<seq<real>>, lead: nat, events: seq<Event>, batches: seq<Batch>, i: nat)
    requires i < |batches| && |stream| == |told| == lead + |batches| && AllHeard(events, |events|, batches[i].heard)
  {
    var rec, b := stream[lead + i], batches[i];
    && rec.phase == b.tag.phase && rec.rate == b.tag.rate && rec.ts == b.ts && IsDelta(rec.delta, b)
    && told[lead + i] == Latencies(events, b.heard)
  }

  /** After the leader's first record the stream is the batches. */
  predicate Ships(stream: seq<Record>, told: seq<seq<real>>, leader: bool, events: seq<Event>, batches: seq<Batch>)
    requires forall i | 0 <= i < |batches| :: AllHeard(events, |events|, batches[i].heard)
  {
    && |stream| == |told| == Lead(leader) + |batches| && (leader ==> told[0] == [])
    && forall i: nat | i < |batches| :: IsBatch(stream, told, Lead(leader), events, batches, i)
  }

  lemma ShipsMore(stream: seq<Record>, told: seq<seq<real>>, leader: bool, events: seq<Event>, batches: seq<Batch>,
                  rec: Record, lat: seq<real>, b: Batch)
    requires forall i | 0 <= i < |batches| :: AllHeard(events, |events|, batches[i].heard)
    requires Ships(stream, told, leader, events, batches)
    requires rec.phase == b.tag.phase && rec.rate == b.tag.rate && rec.ts == b.ts && IsDelta(rec.delta, b)
    requires AllHeard(events, |events|, b.heard) && lat == Latencies(events, b.heard)
    ensures Ships(stream + [rec], told + [lat], leader, events, batches + [b])
  {
    forall i: nat | i < |batches| + 1
      ensures IsBatch(stream + [rec], told + [lat], Lead(leader), events, batches + [b], i)
    {
      assert i < |batches| ==> IsBatch(stream, told, Lead(leader), events, batches, i);
    }
  }

  /** What of a worker the events determine. */
  datatype View = View(bots: seq<Bot>, tag: Tag, counts: Counts, last: Counts, lost: Counts, held: seq<real>,
                       stream: seq<Record>, told: seq<seq<real>>)

  /** The view is what the first k events make of a worker. */
  predicate Matches(v: View, probe: Counts, leader: bool, events: seq<Event>, k: nat)
    requires k <= |events|
  {
    && v.bots == BotsAt(events, k) && v.tag == TagAt(events, k)
    && Adds(v.counts, probe, events, k) && Awaits(v.counts, v.last, events, k)
    && (IsNothing(v.lost) <==> AlwaysSettled(events, k))
    && v.held == Latencies(events, Held(events, k))
    && Ships(v.stream, v.told, leader, events, Batches(events, k))
  }

  lemma NothingAwaits(c: Counts, last: Counts, events: seq<Event>, k: nat)
    requires k <= |events| && Awaits(c, last, events, k)
    ensures IsNothing(c.Minus(last)) <==> Settled(events, k)
    ensures Settled(events, k) ==> Held(events, k) == []
    ensures |Held(events, k)| == c.acked - last.acked
  {
    SettledIsNonePending(events, k);
    HeldIsPending(events, k);
  }

  lemma TickMatches(v: View, probe: Counts, leader: bool, events: seq<Event>, k: nat, rec: Record)
    requires k < |events| && Matches(v, probe, leader, events, k) && events[k].Ticks?
    requires rec.phase == v.tag.phase && rec.rate == v.tag.rate && rec.ts == events[k].now
    requires rec.delta == v.counts.Minus(v.last)
    ensures IsNothing(rec.delta) ==> Matches(v.(last := v.counts), probe, leader, events, k + 1)
    ensures !IsNothing(rec.delta) ==>
      Matches(v.(last := v.counts, held := [], stream := v.stream + [rec], told := v.told + [v.held]), probe, leader,
              events, k + 1)
  {
    NextAt(events, k);
    NothingAwaits(v.counts, v.last, events, k);
    if !IsNothing(rec.delta) {
      ShipsMore(v.stream, v.told, leader, events, Batches(events, k), rec, v.held, BatchAt(events, k));
    }
  }

  lemma TurnMatches(v: View, lost: Counts, probe: Counts, leader: bool, events: seq<Event>, k: nat)
    requires k < |events| && Matches(v, probe, leader, events, k) && TurnsAt(events, k)
    requires IsNothing(lost) <==> IsNothing(v.lost) && IsNothing(v.counts.Minus(v.last))
    ensures Matches(v.(bots := [], tag := Tag(events[k].phase, 0), last := v.counts, lost := lost, held := []),
                    probe, leader, events, k + 1)
  {
    NextAt(events, k);
    NothingAwaits(v.counts, v.last, events, k);
  }

  lemma OtherMatches(v: View, w: View, probe: Counts, leader: bool, events: seq<Event>, k: nat)
    requires k < |events| && Matches(v, probe, leader, events, k) && !ResetsAt(events, k)
    requires Gains(v.counts, w.counts, v.bots, events[k])
    requires w.bots == Next(v.bots, events[k]) && w.last == v.last && w.lost == v.lost
    requires w.stream == v.stream && w.told == v.told
    requires w.tag == if events[k].Retags? then v.tag.(rate := events[k].rate) else v.tag
    requires w.held == if Hears(v.bots, events[k]) then v.held + [events[k].us] else v.held
    ensures Matches(w, probe, leader, events, k + 1)
  {
    NextAt(events, k);
    AddsNext(v.counts, w.counts, probe, events, k);
    AwaitsNext(v.counts, w.counts, v.last, events, k);
    HeldNow(events, k);
    assert Batches(events, k + 1) == Batches(events, k) && AlwaysSettled(events, k + 1) == AlwaysSettled(events, k);
  }

  lemma AddsNext(c: Counts, d: Counts, probe: Counts, events: seq<Event>, k: nat)
    requires k < |events| && Adds(c, probe, events, k) && Gains(c, d, BotsAt(events, k), events[k])
    ensures Adds(d, probe, events, k + 1)
  {
  }

  lemma AwaitsNext(c: Counts, d: Counts, last: Counts, events: seq<Event>, k: nat)
    requires k < |events| && Awaits(c, last, events, k) && Gains(c, d, BotsAt(events, k), events[k])
    requires !ResetsAt(events, k)
    ensures Awaits(d, last, events, k + 1)
  {
  }

  lemma HeldNow(events: seq<Event>, k: nat)
    requires k < |events| && !ResetsAt(events, k)
    ensures Latencies(events, Held(events, k + 1)) ==
      if HearsAt(events, k) then Latencies(events, Held(events, k)) + [events[k].us]
      else Latencies(events, Held(events, k))
  {
  }

  lemma StartMatches(v: View, probe: Counts, leader: bool, events: seq<Event>)
    requires v.bots == [] && v.tag == Tag("open", 0) && v.held == []
    requires IsNothing(v.lost) && v.counts == v.last == probe
    requires |v.stream| == |v.told| == Lead(leader) && (leader ==> v.told[0] == [])
    ensures Matches(v, probe, leader, events, 0)
  {
    assert BotsAt(events, 0) == [] by {
      assert events[..0] == [];
    }
    assert Latencies(events, []) == [];
  }

  lemma MatchesSettled(v: View, probe: Counts, leader: bool, events: seq<Event>, k: nat)
    requires k <= |events| && Matches(v, probe, leader, events, k)
    ensures IsNothing(v.counts.Minus(v.last)) <==> forall j: nat | j < k :: !Unflushed(events, j, k)
    ensures IsNothing(v.lost) <==>
      forall i: nat, j: nat | j < i < k && TurnsAt(events, i) :: !Unflushed(events, j, i)
  {
    NothingAwaits(v.counts, v.last, events, k);
    SettledIsFlushed(events, k);
    AlwaysSettledMeans(events, k);
  }

  /** The worker is what the first k events make of it. */
  ghost predicate InStep(w: Worker, events: seq<Event>, k: nat)
    requires k <= |events|
    reads w, w.stats, w.reporter
  {
    w.Valid() && Matches(w.Now(), w.probe, w.leader, events, k)
  }

  method OnTick(w: Worker, events: seq<Event>, k: nat)
    requires k < |events| && InStep(w, events, k) && events[k].Ticks?
    modifies w, w.reporter
    ensures InStep(w, events, k + 1) && w.reporter == old(w.reporter)
  {
    ghost var v := w.Now();
    ghost var any := Record(v.tag.phase, v.tag.rate, w.Pending(), [], events[k].now);
    var rec := w.Tick(events[k].now);
    TickMatches(v, w.probe, w.leader, events, k, if rec.Some? then rec.value else any);
  }

  method OnTurn(w: Worker, events: seq<Event>, k: nat)
    requires k < |events| && InStep(w, events, k) && events[k].Turns?
    modifies w
    ensures InStep(w, events, k + 1) && (w.reporter == old(w.reporter) || fresh(w.reporter))
  {
    ghost var v := w.Now();
    if AllGone(w.bots) {
      w.NextPhase(events[k].phase);
      TurnMatches(v, w.past.lost, w.probe, w.leader, events, k);
    } else {
      OtherMatches(v, v, w.probe, w.leader, events, k);
    }
  }

  method OnOther(w: Worker, events: seq<Event>, k: nat)
    requires k < |events| && InStep(w, events, k) && !events[k].Ticks? && !events[k].Turns?
    modifies w`bots, w`held, w`tag, w.stats
    ensures InStep(w, events, k + 1)
  {
    ghost var v := w.Now();
    if events[k].Retags? {
      w.Retag(events[k].rate);
    } else {
      w.ApplyToBots(events[k]);
    }
    OtherMatches(v, w.Now(), w.probe, w.leader, events, k);
  }

  method Step(w: Worker, events: seq<Event>, k: nat)
    requires k < |events| && InStep(w, events, k)
    modifies w, w.stats, w.reporter
    ensures InStep(w, events, k + 1) && (w.reporter == old(w.reporter) || fresh(w.reporter))
  {
    match events[k] {
      case Ticks(_) => OnTick(w, events, k);
      case Turns(_) => OnTurn(w, events, k);
      case _ => OnOther(w, events, k);
    }
  }

  method Drive(w: Worker, events: seq<Event>)
    requires InStep(w, events, 0)
    modifies w, w.stats, w.reporter
    ensures InStep(w, events, |events|)
  {
    for k := 0 to |events|
      invariant (w.reporter == old(w.reporter) || fresh(w.reporter)) && InStep(w, events, k)
    {
      Step(w, events, k);
    }
  }

  /** The worker is what the events make of it: its counters, what is pending, lost and held, its tag, and its records with
      the latencies behind them. */
  ghost predicate Follows(w: Worker, events: seq<Event>)
    reads w, w.stats, w.reporter
  {
    InStep(w, events, |events|)
  }

  lemma BatchTold(stream: seq<Record>, told: seq<seq<real>>, leader: bool, events: seq<Event>, i: nat)
    requires Ships(stream, told, leader, events, Batches(events, |events|)) && i < |Batches(events, |events|)|
    ensures told[Lead(leader) + i] == BatchLatencies(events, |events|, |Batches(events, |events|)|)[i]
  {
    BatchLatenciesAt(events, |events|, |Batches(events, |events|)|, i);
    assert IsBatch(stream, told, Lead(leader), events, Batches(events, |events|), i);
  }

  lemma Rejoin<T>(s: seq<T>, head: seq<T>, tail: seq<T>)
    requires |s| == |head| + |tail| && head == s[..|head|] && forall i | 0 <= i < |tail| :: s[|head| + i] == tail[i]
    ensures s == head + tail
  {
  }

  lemma ShipsTold(stream: seq<Record>, told: seq<seq<real>>, leader: bool, events: seq<Event>, head: seq<seq<real>>,
                  tail: seq<seq<real>>)
    requires Ships(stream, told, leader, events, Batches(events, |events|))
    requires head == if leader then [[]] else []
    requires tail == BatchLatencies(events, |events|, |Batches(events, |events|)|)
    ensures told == head + tail
  {
    forall i | 0 <= i < |tail| ensures told[|head| + i] == tail[i] {
      BatchTold(stream, told, leader, events, i);
    }
    Rejoin(told, head, tail);
  }

  /** The latencies told with its records are those of the acknowledgements in each batch. */
  lemma FollowsTold(w: Worker, events: seq<Event>)
    requires Follows(w, events)
    ensures w.told == ToldBy(events, |events|, w.leader)
  {
    ShipsTold(w.stream, w.told, w.leader, events, if w.leader then [[]] else [],
              BatchLatencies(events, |events|, |Batches(events, |events|)|));
  }

  /** Once the bots of a phase are gone, the errors are the missed connections and the sends that raised. */
  lemma ErrorsAre(w: Worker, events: seq<Event>)
    requires Follows(w, events) && AllGone(w.bots)
    ensures w.stats.counts.errors == w.probe.errors + Missed(events, |events|) + Raised(events, |events|)
  {
    FailuresAre(events, |events|);
  }

  /** Any interleaving of bot events, flushes and phase changes keeps the worker valid and is followed exactly. At the end
      nothing is pending just when every event that changed a counter was followed by a flush or a new phase; and nothing
      has been lost just when that was so at the start of every phase. */
  method Simulate(leader: bool, rounds: seq<bool>, scale: real -> int, now: real, events: seq<Event>)
    returns (w: Worker)
    ensures fresh(w) && w.Valid() && w.leader == leader && w.probe == ProbeCounts(leader, rounds) && w.scale == scale
    ensures Follows(w, events)
    ensures IsNothing(w.Pending()) <==> forall j: nat | j < |events| :: !Unflushed(events, j, |events|)
    ensures IsNothing(w.past.lost) <==>
      forall i: nat, j: nat | j < i < |events| && TurnsAt(events, i) :: !Unflushed(events, j, i)
  {
    w := Begin(leader, rounds, scale, now);
    StartMatches(w.Now(), w.probe, leader, events);
    Drive(w, events);
    MatchesSettled(w.Now(), w.probe, leader, events, |events|);
  }

  /** An acknowledgement that arrives while the last bot drains, after the phase's last flush, is counted but never
      shipped. */
  method LateAckIsLost(w: Worker, ackId: Id, us: real, next: string)
    requires w.Valid() && w.reporter.last == w.stats.counts
    requires |w.bots| == 1 && w.bots[0].life == Draining && ackId in w.bots[0].sendTimes
    modifies w, w.stats
    ensures w.Valid() && w.stream == old(w.stream) && w.reporter.last == w.stats.counts
    ensures w.stats.counts.acked == old(w.stats.counts.acked) + 1
    ensures w.past.lost.acked == old(w.past.lost.acked) + 1
  {
    w.Reply(0, ackId, us);
    w.Retire(0);
    w.NextPhase(next);
  }

  /** An order that a bot sends after the phase's last flush, before it sees the stop event, is never shipped either. */
  method LateOrderIsLost(w: Worker, next: string)
    requires w.Valid() && w.reporter.last == w.stats.counts
    requires |w.bots| == 1 && CanWake(w.bots[0]) && w.bots[0].outstanding < MAX_OUTSTANDING
    modifies w, w.stats`counts
    ensures w.Valid() && w.stream == old(w.stream) && w.reporter.last == w.stats.counts
    ensures w.past.lost.sent == old(w.past.lost.sent) + 1
  {
    w.Fire(0, 1, None, true);
    w.Retire(0);
    w.NextPhase(next);
  }

  /** A latency measured while the rate is 0, as in the settling time of a step of the sweep, is filed under the step's rate
      if no flush comes in between. */
  method SettlingIsMeasured(w: Worker, ackId: Id, us: real, rate: int, now: real) returns (rec: Option<Record>)
    requires w.Valid() && w.reporter.last == w.stats.counts && w.held == [] && w.tag.rate == 0
    requires |w.bots| == 1 && w.bots[0].life != Gone && ackId in w.bots[0].sendTimes
    modifies w, w.stats, w.reporter
    ensures w.Valid() && rec.Some? && rec.value.rate == rate
    ensures w.stream == old(w.stream) + [rec.value] && w.told == old(w.told) + [[us]]
  {
    w.Reply(0, ackId, us);
    w.Retag(rate);
    rec := w.Tick(now);
  }

  /** A run with one bot that has not sent anything yet. */
  method OneBot(over: bool) returns (w: Worker)
    ensures fresh(w) && fresh(w.stats) && fresh(w.reporter) && w.Valid() && w.reporter.last == w.stats.counts
    ensures w.bots == [Started(Open, 0, over)] && w.stream == [] && w.tag.rate == 0 && w.held == []
  {
    w := Begin(false, [], (us: real) => us.Floor, 1.0);
    w.Connect(Open, 0, over);
  }

  /** These situations come about: one order is sent and flushed, and its bot drains or is about to wake again. */
  method OneInFlight(drains: bool) returns (w: Worker)
    ensures w.Valid() && w.reporter.last == w.stats.counts
    ensures fresh(w) && fresh(w.stats) && fresh(w.reporter) && w.tag.rate == 0 && w.held == []
    ensures |w.stream| == 1 && w.stream[0].delta.sent == 1 && w.stream[0].delta.acked == 0
    ensures |w.bots| == 1 && w.bots[0].sendTimes == {1} && w.bots[0].outstanding == 1 && w.bots[0].oid == 1
    ensures w.bots[0].mode == Open
    ensures if drains then w.bots[0].life == Draining else CanWake(w.bots[0])
  {
    w := OneBot(false);
    FireOne(w, drains);
    var _ := w.Tick(2.0);
  }

  /** The worker's only bot sends one order. */
  method FireOne(w: Worker, drains: bool)
    requires w.Valid() && |w.bots| == 1 && w.bots[0].mode == Open && CanWake(w.bots[0])
    requires w.bots[0].outstanding < MAX_OUTSTANDING
    modifies w`bots, w.stats`counts
    ensures w.Valid() && |w.bots| == 1 && w.bots[0].mode == Open
    ensures var b := old(w.bots[0]);
      && w.bots[0].oid == b.oid + 1 && w.bots[0].sendTimes == b.sendTimes + {b.oid + 1}
      && w.bots[0].outstanding == b.outstanding + 1 && w.bots[0].life == if drains then Draining else b.life
    ensures w.stats.counts == old(w.stats.counts).(sent := old(w.stats.counts.sent) + 1)
  {
    OneShot(w.bots[0], drains);
    w.Fire(0, 1, None, drains);
  }
}

/**
 How telemetry folds the records of a run's workers into one aggregate: totals, and one bin for every offered rate of
 the steady and of the bursty sweep.

 `Sheet` is the value of an aggregate, and `FoldAll` what a sequence of records makes of an empty one.
*/
module Telemetry {
  import opened Records
  import opened Histogram
  import opened Options

  datatype Bin = Bin(sent: int, acked: int, hist: Hist, first: Option<real>, last: Option<real>)

  function NoBin(): Bin {
    Bin(0, 0, Zeros(), None, None)
  }

  datatype Sheet = Sheet(counts: Counts, open: map<int, Bin>, burst: map<int, Bin>)

  const NOSHEET := Sheet(ZERO, map[], map[])

  function Earlier(t: Option<real>, ts: real): Option<real> {
    if t.Some? && t.value <= ts then t else Some(ts)
  }

  function Later(t: Option<real>, ts: real): Option<real> {
    if t.Some? && t.value >= ts then t else Some(ts)
  }

  /** A bin after one more record; a timestamp of zero means none. */
  function AddTo(bin: Bin, r: Record): Bin {
    Bin(bin.sent + r.delta.sent, bin.acked + r.delta.acked,
        seq(NBUCKETS, b requires 0 <= b < NBUCKETS => bin.hist[b] + Weight(r.hist, b)),
        if r.ts == 0.0 then bin.first else Earlier(bin.first, r.ts),
        if r.ts == 0.0 then bin.last else Later(bin.last, r.ts))
  }

  function BinAt(bins: map<int, Bin>, rate: int): Bin {
    if rate in bins then bins[rate] else NoBin()
  }

  /** The bins of a sweep after one more record: only samples of an offered rate of that sweep reach one. */
  function Filed(bins: map<int, Bin>, phase: string, r: Record): map<int, Bin> {
    if r.rate > 0 && r.phase == phase then bins[r.rate := AddTo(BinAt(bins, r.rate), r)] else bins
  }

  /** An aggregate after one more record. */
  function Folded(s: Sheet, r: Record): Sheet {
    Sheet(s.counts.Plus(r.delta), Filed(s.open, "open", r), Filed(s.burst, "burst", r))
  }

  function FoldAll(rs: seq<Record>): Sheet {
    if rs == [] then NOSHEET else Folded(FoldAll(rs[..|rs| - 1]), rs[|rs| - 1])
  }

  // ---------- the aggregate ----------

  class RateBin {
    var sent: int
    var acked: int
    var hist: Hist
    var first: Option<real>
    var last: Option<real>

    constructor ()
      ensures Value() == NoBin()
    {
      sent, acked, hist, first, last := 0, 0, Zeros(), None, None;
    }

    function Value(): Bin
      reads this
    {
      Bin(sent, acked, hist, first, last)
    }

    method Add(r: Record)
      requires InRange(r.hist)
      modifies this
      ensures Value() == AddTo(old(Value()), r)
    {
      sent, acked := sent + r.delta.sent, acked + r.delta.acked;
      ghost var was := hist;
      for i := 0 to |r.hist|
        invariant forall b | 0 <= b < NBUCKETS :: hist[b] == was[b] + Weight(r.hist[..i], b)
        invariant sent == old(sent) + r.delta.sent && acked == old(acked) + r.delta.acked
        invariant first == old(first) && last == old(last)
      {
        var (b, v) := r.hist[i];
        assert r.hist[..i + 1] == r.hist[..i] + [(b, v)];
        forall c: nat | c < NBUCKETS
          ensures Weight(r.hist[..i + 1], c) == Weight(r.hist[..i], c) + if b == c then v else 0
        {
          WeightAppend(r.hist[..i], (b, v), c);
        }
        hist := hist[b := hist[b] + v];
      }
      assert r.hist[..|r.hist|] == r.hist;
      if r.ts != 0.0 {
        first := if first.None? then Some(r.ts) else Some(if r.ts < first.value then r.ts else first.value);
        last := if last.None? then Some(r.ts) else Some(if r.ts > last.value then r.ts else last.value);
      }
    }
  }

  ghost function Values(bins: map<int, RateBin>): map<int, Bin>
    reads bins.Values
  {
    map rate | rate in bins :: bins[rate].Value()
  }

  /** No two rates share a bin. */
  ghost predicate Apart(bins: map<int, RateBin>) {
    forall r, q | r in bins && q in bins && r != q :: bins[r] != bins[q]
  }

  /** Give a rate an empty bin unless it has one. */
  method SetDefault(bins: map<int, RateBin>, rate: int) returns (more: map<int, RateBin>)
    requires Apart(bins)
    ensures Apart(more) && rate in more && fresh(more.Values - bins.Values) && bins.Values <= more.Values
    ensures Values(more) == Values(bins)[rate := BinAt(Values(bins), rate)]
  {
    more := bins;
    if rate !in bins {
      var bin := new RateBin();
      more := more[rate := bin];
      forall q | q in bins ensures more[q] in bins.Values {
        assert more[q] == bins[q];
      }
    }
  }

  /** Add a record to its bin, which is created when it is the first of its rate. */
  method AddToBins(bins: map<int, RateBin>, r: Record) returns (more: map<int, RateBin>)
    requires Apart(bins) && InRange(r.hist)
    modifies bins.Values
    ensures Apart(more) && bins.Values <= more.Values && fresh(more.Values - bins.Values)
    ensures Values(more) == old(Values(bins))[r.rate := AddTo(BinAt(old(Values(bins)), r.rate), r)]
  {
    more := SetDefault(bins, r.rate);
    ghost var mid := Values(more);
    var bin := more[r.rate];
    bin.Add(r);
    assert forall q | q in more && q != r.rate :: more[q] != bin;
    assert Values(more) == mid[r.rate := AddTo(mid[r.rate], r)];
  }

  const SPAN := 2.0  // seconds of readings the current throughput looks back on

  predicate InOrder(win: seq<(real, int)>, now: real) {
    && (forall i, j | 0 <= i < j < |win| :: win[i].0 <= win[j].0)
    && (forall i | 0 <= i < |win| :: win[i].0 <= now)
  }

  /** The readings of the last two seconds. */
  function Recent(win: seq<(real, int)>, now: real): (r: seq<(real, int)>) {
    if win == [] then [] else
    var before := Recent(win[..|win| - 1], now);
    if now - win[|win| - 1].0 <= SPAN then before + [win[|win| - 1]] else before
  }

  /** Orders per second. */
  function Slope(dt: real, n: int): real {
    if dt > 0.0 then n as real / dt else 0.0
  }

  lemma {:induction false} RecentDrops(win: seq<(real, int)>, now: real)
    requires win != [] && now - win[0].0 > SPAN
    ensures Recent(win, now) == Recent(win[1..], now)
  {
    if |win| > 1 {
      assert win[1..][..|win| - 2] == win[..|win| - 1][1..];
      RecentDrops(win[..|win| - 1], now);
    }
  }

  lemma {:induction false} RecentKeeps(win: seq<(real, int)>, now: real)
    requires InOrder(win, now) && (win == [] || now - win[0].0 <= SPAN)
    ensures Recent(win, now) == win
  {
    if win != [] {
      RecentKeeps(win[..|win| - 1], now);
    }
  }

  /** Of readings in order, those are the last ones: all before them are more than two seconds old, and none of them is. */
  lemma {:induction false} RecentIsLast(win: seq<(real, int)>, now: real) returns (k: nat)
    requires InOrder(win, now)
    ensures k <= |win| && Recent(win, now) == win[k..]
    ensures forall i | 0 <= i < |win| :: i < k <==> now - win[i].0 > 2.0
  {
    if win == [] || now - win[0].0 <= SPAN {
      RecentKeeps(win, now);
      k := 0;
    } else {
      RecentDrops(win, now);
      k := RecentIsLast(win[1..], now);
      k := k + 1;
    }
  }

  class Agg {
    var counts: Counts
    var rates: map<int, RateBin>
    var burstRates: map<int, RateBin>
    var peak: real
    var win: seq<(real, int)>  // when throughput was asked for, and how many orders had been sent by then

    constructor ()
      ensures Valid() && View() == NOSHEET && Bins() == {} && peak == 0.0 && win == []
    {
      counts, rates, burstRates, peak, win := ZERO, map[], map[], 0.0, [];
    }

    ghost function Bins(): set<RateBin>
      reads this
    {
      rates.Values + burstRates.Values
    }

    ghost predicate Valid()
      reads this
    {
      Apart(rates) && Apart(burstRates) && rates.Values !! burstRates.Values
    }

    ghost function View(): Sheet
      reads this, Bins()
    {
      Sheet(counts, Values(rates), Values(burstRates))
    }

    method AddSteady(r: Record)
      requires Valid() && InRange(r.hist)
      modifies `rates, Bins()
      ensures Valid() && fresh(Bins() - old(Bins())) && counts == old(counts)
      ensures Values(rates) == old(Values(rates))[r.rate := AddTo(BinAt(old(Values(rates)), r.rate), r)]
      ensures burstRates == old(burstRates) && Values(burstRates) == old(Values(burstRates))
    {
      rates := AddToBins(rates, r);
    }

    method AddBurst(r: Record)
      requires Valid() && InRange(r.hist)
      modifies `burstRates, Bins()
      ensures Valid() && fresh(Bins() - old(Bins())) && counts == old(counts)
      ensures Values(burstRates) == old(Values(burstRates))[r.rate := AddTo(BinAt(old(Values(burstRates)), r.rate), r)]
      ensures rates == old(rates) && Values(rates) == old(Values(rates))
    {
      burstRates := AddToBins(burstRates, r);
    }

    method Add(r: Record)
      requires Valid() && InRange(r.hist)
      modifies `counts, `rates, `burstRates, Bins()
      ensures Valid() && fresh(Bins() - old(Bins()))
      ensures View() == Folded(old(View()), r)
    {
      counts := counts.Plus(r.delta);
      if r.rate > 0 && (r.phase == "open" || r.phase == "burst") {
        if r.phase == "open" {
          AddSteady(r);
        } else {
          AddBurst(r);
        }
      }
    }

    /** Note a reading and forget those that are too old. */
    method Look(now: real)
      requires InOrder(win, now)
      modifies `win
      ensures win == Recent(old(win) + [(now, counts.sent)], now) && InOrder(win, now) && win != []
    {
      win := win + [(now, counts.sent)];
      ghost var readings := win;
      while win != [] && now - win[0].0 > SPAN
        invariant InOrder(win, now) && win != [] && win[|win| - 1].0 == now
        invariant Recent(win, now) == Recent(readings, now)
        decreases |win|
      {
        RecentDrops(win, now);
        win := win[1..];
      }
      RecentKeeps(win, now);
    }

    /** The current throughput: the orders sent since the oldest reading of the last two seconds, per second. Older
        readings are forgotten, and the best throughput so far is kept. */
    method Tps(now: real) returns (cur: real)
      requires InOrder(win, now)
      modifies `peak, `win
      ensures win == Recent(old(win) + [(now, counts.sent)], now) && InOrder(win, now) && win != []
      ensures cur == Slope(now - win[0].0, counts.sent - win[0].1)
      ensures now > win[0].0 ==> cur * (now - win[0].0) == (counts.sent - win[0].1) as real
      ensures now <= win[0].0 ==> cur == 0.0
      ensures peak == if cur > old(peak) then cur else old(peak)
    {
      Look(now);
      cur := Slope(now - win[0].0, counts.sent - win[0].1);
      peak := if cur > peak then cur else peak;
    }
  }
}

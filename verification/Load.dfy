/**
 What a worker's share means for the load it offers: pacing and split together.
*/
module Load {
  import opened Pacing
  import opened Split

  /** One bot's ticks and orders, of which the wake-ups from i up to j fall into a window. */
  datatype Log = Log(t0: real, ticks: seq<Tick>, fired: seq<nat>, i: nat, j: nat)

  predicate InWindow(l: Log, gap: real, burst: nat, s: real, T: real) {
    && Schedule(l.t0, l.ticks, gap)
    && l.i <= l.j <= |l.ticks| == |l.fired|
    && (forall k | 0 <= k < |l.fired| :: l.fired[k] <= burst)
    && (l.i < l.j ==> s <= l.ticks[l.i].wake && l.ticks[l.j - 1].wake <= T)
  }

  predicate AllInWindow(logs: seq<Log>, gap: real, burst: nat, s: real, T: real) {
    forall k | 0 <= k < |logs| :: InWindow(logs[k], gap, burst, s, T)
  }

  /** The orders all bots send in the window. */
  function Sent(logs: seq<Log>): int
    requires forall k | 0 <= k < |logs| :: logs[k].i <= logs[k].j <= |logs[k].fired|
  {
    if logs == [] then 0 else
    var l := logs[|logs| - 1];
    Sent(logs[..|logs| - 1]) + Orders(l.fired, l.i, l.j)
  }

  /** What one bot with that gap may send within a window of that span: two bursts more than fit in. */
  function PerBot(burst: nat, gap: real, span: real): real
    requires gap > 0.0
  {
    burst as real * (span / gap + 2.0)
  }

  function Allowance(bots: nat, burst: nat, gap: real, span: real): real
    requires gap > 0.0
  {
    Repeat(bots, PerBot(burst, gap, span))
  }

  lemma BotKeepsToItsPace(l: Log, gap: real, burst: nat, s: real, T: real)
    requires InWindow(l, gap, burst, s, T) && s <= T
    ensures Orders(l.fired, l.i, l.j) as real <= PerBot(burst, gap, T - s + MAX_LAG)
  {
    if l.i < l.j {
      SendsInWindow(l.t0, l.ticks, l.fired, burst, gap, l.i, l.j - 1, s, T);
    } else {
      assert (T - s + MAX_LAG) / gap >= 0.0;
    }
  }

  /** In any window, the bots of a worker together send at most their allowance for its length and half a second. */
  lemma {:induction false} WorkerKeepsToItsPace(logs: seq<Log>, gap: real, burst: nat, s: real, T: real)
    requires AllInWindow(logs, gap, burst, s, T) && gap > 0.0 && s <= T
    ensures Sent(logs) as real <= Allowance(|logs|, burst, gap, T - s + MAX_LAG)
  {
    if logs != [] {
      var n := |logs| - 1;
      var l := logs[n];
      WorkerKeepsToItsPace(logs[..n], gap, burst, s, T);
      assert InWindow(l, gap, burst, s, T);
      BotKeepsToItsPace(l, gap, burst, s, T);
    }
  }

  lemma Regroup(n: real, b: real, span: real, gap: real, share: real)
    requires gap > 0.0 && n * b / gap == share
    ensures n * (b * (span / gap + 2.0)) == share * span + 2.0 * (n * b)
  {
    assert span / gap == span * (1.0 / gap);
    assert n * b / gap == n * b * (1.0 / gap);
    assert n * (b * (span / gap + 2.0)) == n * b * (1.0 / gap) * span + 2.0 * (n * b);
  }

  /** A worker's share of the rate for a span of time, and two bursts for each bot. */
  function Due(bots: int, burst: nat, rate: int, fleet: int, span: real): real
    requires fleet > 0
  {
    Max(ShareOf(rate, fleet), 1.0) * span + 2.0 * (bots as real * burst as real)
  }

  /** That is what bots with the interval of `Split.Interval` may send. */
  lemma AllowanceIsShare(bots: int, burst: nat, rate: int, fleet: int, span: real)
    requires bots > 0 && burst > 0 && fleet > 0
    ensures var gap := Interval(bots, burst, rate, fleet);
      && gap > 0.0
      && Allowance(bots, burst, gap, span) == Due(bots, burst, rate, fleet, span)
  {
    var gap := Interval(bots, burst, rate, fleet);
    WorkerOffers(bots, burst, rate, fleet);
    RepeatMultiplies(bots, PerBot(burst, gap, span));
    Regroup(bots as real, burst as real, span, gap, Max(ShareOf(rate, fleet), 1.0));
  }

  /** In any window of any length, a worker sends at most its share of the rate for that time and half a second, and
      two bursts for each bot. */
  lemma WorkerKeepsItsShare(logs: seq<Log>, gap: real, burst: nat, rate: int, fleet: int, s: real, T: real)
    requires |logs| > 0 && burst > 0 && fleet > 0 && gap == Interval(|logs|, burst, rate, fleet)
    requires AllInWindow(logs, gap, burst, s, T) && s <= T
    ensures Sent(logs) as real <= Due(|logs|, burst, rate, fleet, T - s + MAX_LAG)
  {
    AllowanceIsShare(|logs|, burst, rate, fleet, T - s + MAX_LAG);
    WorkerKeepsToItsPace(logs, gap, burst, s, T);
  }

  // ---------- at least its share ----------

  /** A bot that started by s, is never more than half a second late, is not cut short by the guard, and has woken j times up
      to T. */
  predicate Punctual(l: Log, gap: real, burst: nat, over: real, s: real, T: real) {
    && Schedule(l.t0, l.ticks, gap) && l.t0 <= s
    && (forall k | 0 <= k < |l.ticks| :: l.ticks[k].interval <= gap)
    && l.i == 0 && l.j < |l.ticks| == |l.fired|
    && WokenBy(l.t0, l.ticks, l.j, over, T) && KeepsUp(l.t0, l.ticks, 0, l.j + 1)
    && (forall k | 0 <= k < l.j :: l.fired[k] == burst)
  }

  predicate AllPunctual(logs: seq<Log>, gap: real, burst: nat, over: real, s: real, T: real) {
    forall k | 0 <= k < |logs| :: Punctual(logs[k], gap, burst, over, s, T)
  }

  /** What one bot with that gap sends at least in that span: one burst less than fit in. */
  function AtLeast(burst: nat, gap: real, span: real): real
    requires gap > 0.0
  {
    burst as real * (span / gap - 1.0)
  }

  lemma {:induction false} AllBursts(fired: seq<nat>, j: nat, burst: nat)
    requires j <= |fired| && forall k | 0 <= k < j :: fired[k] == burst
    ensures Orders(fired, 0, j) == burst * j
  {
    if j > 0 {
      AllBursts(fired, j - 1, burst);
      assert burst * j == burst * (j - 1) + burst;
    }
  }

  lemma PunctualBot(l: Log, gap: real, burst: nat, over: real, s: real, T: real)
    requires Punctual(l, gap, burst, over, s, T) && gap > 0.0
    ensures Orders(l.fired, l.i, l.j) as real >= AtLeast(burst, gap, T - s - 0.5 - over)
  {
    AllBursts(l.fired, l.j, burst);
    WakesAtLeast(l.t0, l.ticks, gap, gap, l.j, over, T);
    LaterStart(T - s - 0.5 - over, T - l.t0 - 0.5 - over, gap);
    Bursts(burst, l.j, (T - s - 0.5 - over) / gap - 1.0);
  }

  lemma LaterStart(short: real, span: real, gap: real)
    requires gap > 0.0 && short <= span
    ensures short / gap <= span / gap
  {
    assert short / gap * gap == short && span / gap * gap == span;
  }

  lemma Bursts(burst: nat, n: nat, bound: real)
    requires bound <= n as real
    ensures (burst * n) as real >= burst as real * bound
  {
    assert (burst * n) as real == burst as real * n as real;
  }

  lemma {:induction false} PunctualBots(logs: seq<Log>, gap: real, burst: nat, over: real, s: real, T: real)
    requires AllPunctual(logs, gap, burst, over, s, T) && gap > 0.0
    ensures Sent(logs) as real >= Repeat(|logs|, AtLeast(burst, gap, T - s - 0.5 - over))
  {
    if logs != [] {
      var n := |logs| - 1;
      PunctualBots(logs[..n], gap, burst, over, s, T);
      assert Punctual(logs[n], gap, burst, over, s, T);
      PunctualBot(logs[n], gap, burst, over, s, T);
    }
  }

  lemma RegroupLess(n: real, b: real, span: real, gap: real, share: real)
    requires gap > 0.0 && n * b / gap == share
    ensures n * (b * (span / gap - 1.0)) == share * span - n * b
  {
    assert span / gap == span * (1.0 / gap);
    assert n * b / gap == n * b * (1.0 / gap);
    assert n * (b * (span / gap - 1.0)) == n * b * (1.0 / gap) * span - n * b;
  }

  /** A worker's share of the rate, or one order a second, for a span of time, less a burst for each bot. */
  function Owed(bots: int, burst: nat, rate: int, fleet: int, span: real): real
    requires fleet > 0
  {
    Max(ShareOf(rate, fleet), 1.0) * span - bots as real * burst as real
  }

  lemma AtLeastIsShare(bots: int, burst: nat, rate: int, fleet: int, span: real)
    requires bots > 0 && burst > 0 && fleet > 0
    ensures var gap := Interval(bots, burst, rate, fleet);
      gap > 0.0 && Repeat(bots, AtLeast(burst, gap, span)) == Owed(bots, burst, rate, fleet, span)
  {
    var gap := Interval(bots, burst, rate, fleet);
    WorkerOffers(bots, burst, rate, fleet);
    RepeatMultiplies(bots, AtLeast(burst, gap, span));
    RegroupLess(bots as real, burst as real, span, gap, Max(ShareOf(rate, fleet), 1.0));
  }

  /** From the time all its bots have started, a worker whose bots keep up and are not cut short sends at least its share of the
      rate, or one order a second if that is more, less half a second, an oversleep, and one burst for each bot. */
  lemma WorkerMeetsItsShare(logs: seq<Log>, gap: real, burst: nat, rate: int, fleet: int, over: real, s: real, T: real)
    requires |logs| > 0 && burst > 0 && fleet > 0 && gap == Interval(|logs|, burst, rate, fleet)
    requires AllPunctual(logs, gap, burst, over, s, T)
    ensures Sent(logs) as real >=
      Owed(|logs|, burst, rate, fleet, T - s - 0.5 - over)
  {
    AtLeastIsShare(|logs|, burst, rate, fleet, T - s - 0.5 - over);
    PunctualBots(logs, gap, burst, over, s, T);
  }
}

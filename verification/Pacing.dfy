/**
 Open-loop pacing: how often a bot can wake, whatever the clock and the scheduler do.

 Time is real. A tick holds what the clock shows during one turn of the send loop: when the delay is computed,
 when a late bot resynchronises, and when the bot fires. The clock does not run backwards and a sleep does not
 end early; nothing bounds how late things happen.
*/
module Pacing {

  const MAX_LAG := 0.5  // a bot further behind than this resynchronises

  datatype Tick = Tick(interval: real, now: real, again: real, wake: real)

  /** The sender's pacing state. */
  class Sender {
    var tNext: real

    constructor (now: real)
      ensures tNext == now
    {
      tNext := now;
    }

    /** One turn of the loop; `again` is read only when the bot resynchronises. Returns how long to sleep. */
    method Pace(interval: real, now: real, again: real) returns (delay: real)
      modifies this
      ensures tNext == Target(old(tNext), interval, now, again)
      ensures delay == Sleep(old(tNext), interval, now)
    {
      tNext := tNext + interval;
      delay := tNext - now;
      if delay > 0.0 {
        return;
      } else if delay < -MAX_LAG {
        tNext := again;
      }
      delay := 0.0;
    }
  }

  function Target(tNext: real, interval: real, now: real, again: real): real {
    if tNext + interval - now < -MAX_LAG then again else tNext + interval
  }

  function Sleep(tNext: real, interval: real, now: real): real {
    if tNext + interval > now then tNext + interval - now else 0.0
  }

  /** The pacing target after the first k ticks of a bot that starts at t0. */
  function TargetAfter(t0: real, ticks: seq<Tick>, k: nat): real
    requires k <= |ticks|
  {
    if k == 0 then t0
    else Target(TargetAfter(t0, ticks, k - 1), ticks[k - 1].interval, ticks[k - 1].now, ticks[k - 1].again)
  }

  /** What the clock and the scheduler guarantee about tick k. */
  predicate TickOk(t0: real, ticks: seq<Tick>, k: nat)
    requires k < |ticks|
  {
    var t := ticks[k];
    && t.now >= (if k == 0 then t0 else ticks[k - 1].wake)
    && t.now <= t.again <= t.wake
    && t.wake >= t.now + Sleep(TargetAfter(t0, ticks, k), t.interval, t.now)
  }

  predicate Schedule(t0: real, ticks: seq<Tick>, least: real) {
    && least > 0.0
    && (forall k | 0 <= k < |ticks| :: ticks[k].interval >= least)
    && (forall k | 0 <= k < |ticks| :: TickOk(t0, ticks, k))
  }

  /** How long the bot sleeps in tick k. */
  function DelayAt(t0: real, ticks: seq<Tick>, k: nat): real
    requires k < |ticks|
  {
    Sleep(TargetAfter(t0, ticks, k), ticks[k].interval, ticks[k].now)
  }

  /** The loop follows the targets. */
  method Drive(t0: real, ticks: seq<Tick>) returns (delays: seq<real>)
    ensures |delays| == |ticks| && forall k | 0 <= k < |ticks| :: delays[k] == DelayAt(t0, ticks, k)
  {
    var sender := new Sender(t0);
    delays := [];
    var i := 0;
    while i < |ticks|
      invariant 0 <= i <= |ticks| && |delays| == i
      invariant sender.tNext == TargetAfter(t0, ticks, i)
      invariant forall k | 0 <= k < i :: delays[k] == DelayAt(t0, ticks, k)
    {
      var delay := sender.Pace(ticks[i].interval, ticks[i].now, ticks[i].again);
      delays := delays + [delay];
      i := i + 1;
    }
  }

  /** A bot never fires ahead of its target, and never carries more than the lag cap. */
  lemma TargetBrackets(t0: real, ticks: seq<Tick>, k: nat, least: real)
    requires Schedule(t0, ticks, least) && k < |ticks|
    ensures ticks[k].now - MAX_LAG <= TargetAfter(t0, ticks, k + 1) <= ticks[k].wake
  {
    assert TickOk(t0, ticks, k);
  }

  /** Targets advance by at least the interval, since resynchronising only moves them forward. */
  lemma {:induction false} TargetsAdvance(t0: real, ticks: seq<Tick>, i: nat, j: nat, least: real)
    requires Schedule(t0, ticks, least) && i <= j <= |ticks|
    ensures TargetAfter(t0, ticks, j) >= TargetAfter(t0, ticks, i) + (j - i) as real * least
  {
    if i < j {
      TargetsAdvance(t0, ticks, i, j - 1, least);
      assert TickOk(t0, ticks, j - 1);
      assert (j - i) as real * least == (j - 1 - i) as real * least + least;
    }
  }

  /** From its start at t0 up to T a bot wakes at most (T - t0) / interval times. */
  lemma WakesSinceStart(t0: real, ticks: seq<Tick>, least: real, T: real)
    requires Schedule(t0, ticks, least) && ticks != [] && ticks[|ticks| - 1].wake <= T
    ensures |ticks| as real <= (T - t0) / least
  {
    var n := |ticks|;
    TargetsAdvance(t0, ticks, 0, n, least);
    TargetBrackets(t0, ticks, n - 1, least);
    DivideBound(n, T - t0, least);
  }

  // ---------- when targets are kept ----------

  /** By how much tick k misses its target when it computes its delay. */
  function LagAt(t0: real, ticks: seq<Tick>, k: nat): real
    requires k < |ticks|
  {
    ticks[k].now - (TargetAfter(t0, ticks, k) + ticks[k].interval)
  }

  /** A bot gives up its lag exactly when that is more than half a second, and then starts anew from the clock. */
  lemma ResyncsWhenLate(t0: real, ticks: seq<Tick>, k: nat, least: real)
    requires Schedule(t0, ticks, least) && k < |ticks|
    ensures TargetAfter(t0, ticks, k + 1) == TargetAfter(t0, ticks, k) + ticks[k].interval <==> LagAt(t0, ticks, k) <= 0.5
    ensures LagAt(t0, ticks, k) > 0.5 ==> TargetAfter(t0, ticks, k + 1) == ticks[k].again
    ensures TargetAfter(t0, ticks, k + 1) >= TargetAfter(t0, ticks, k) + ticks[k].interval
  {
    assert TickOk(t0, ticks, k);
  }

  /** The intervals of the ticks from i up to j. */
  function Intervals(ticks: seq<Tick>, i: nat, j: nat): real
    requires i <= j <= |ticks|
  {
    if i == j then 0.0 else Intervals(ticks, i, j - 1) + ticks[j - 1].interval
  }

  predicate KeepsUp(t0: real, ticks: seq<Tick>, i: nat, j: nat)
    requires i <= j <= |ticks|
  {
    forall k | i <= k < j :: LagAt(t0, ticks, k) <= 0.5
  }

  /** Targets advance by exactly the intervals, so that all lag is caught up, if and only if no tick in between is more than
      half a second late; otherwise they advance by more. */
  lemma {:induction false} TargetsAdd(t0: real, ticks: seq<Tick>, i: nat, j: nat, least: real)
    requires Schedule(t0, ticks, least) && i <= j <= |ticks|
    ensures TargetAfter(t0, ticks, j) >= TargetAfter(t0, ticks, i) + Intervals(ticks, i, j)
    ensures TargetAfter(t0, ticks, j) == TargetAfter(t0, ticks, i) + Intervals(ticks, i, j) <==> KeepsUp(t0, ticks, i, j)
  {
    if i < j {
      TargetsAdd(t0, ticks, i, j - 1, least);
      ResyncsWhenLate(t0, ticks, j - 1, least);
      assert KeepsUp(t0, ticks, i, j) <==> KeepsUp(t0, ticks, i, j - 1) && LagAt(t0, ticks, j - 1) <= 0.5;
    }
  }

  lemma {:induction false} IntervalsAtMost(ticks: seq<Tick>, i: nat, j: nat, most: real)
    requires i <= j <= |ticks| && forall k | 0 <= k < |ticks| :: ticks[k].interval <= most
    ensures Intervals(ticks, i, j) <= (j - i) as real * most
  {
    if i < j {
      IntervalsAtMost(ticks, i, j - 1, most);
      assert (j - i) as real * most == (j - 1 - i) as real * most + most;
    }
  }

  /** The bot has woken n times up to T, in tick n it sleeps past T, and no sleep takes more than `over` too long. */
  predicate WokenBy(t0: real, ticks: seq<Tick>, n: nat, over: real, T: real) {
    && n < |ticks| && (n > 0 ==> ticks[n - 1].wake <= T) && T < ticks[n].wake
    && ticks[n].wake <= ticks[n].now + DelayAt(t0, ticks, n) + over
  }

  /** A bot that is never more than half a second late wakes at least (T - t0 - 0.5 - over) / interval - 1 times up to T. */
  lemma WakesAtLeast(t0: real, ticks: seq<Tick>, least: real, most: real, n: nat, over: real, T: real)
    requires Schedule(t0, ticks, least) && forall k | 0 <= k < |ticks| :: ticks[k].interval <= most
    requires WokenBy(t0, ticks, n, over, T) && KeepsUp(t0, ticks, 0, n + 1)
    ensures n as real >= (T - t0 - 0.5 - over) / most - 1.0
  {
    TargetsAdd(t0, ticks, 0, n, least);
    assert KeepsUp(t0, ticks, 0, n);
    IntervalsAtMost(ticks, 0, n + 1, most);
    assert Intervals(ticks, 0, n + 1) == Intervals(ticks, 0, n) + ticks[n].interval;
    assert LagAt(t0, ticks, n) <= 0.5;
    var span := T - t0 - 0.5 - over;
    assert span <= Intervals(ticks, 0, n + 1);
    assert span <= (n + 1 - 0) as real * most;
    assert least <= ticks[n].interval <= most;
    QuotientBound(n + 1, span, most);
  }

  lemma QuotientBound(n: int, span: real, most: real)
    requires most > 0.0 && span <= n as real * most
    ensures span / most <= n as real
  {
    assert span / most * most == span;
  }

  // ---------- how often a bot wakes in a window ----------

  lemma WindowSpan(t0: real, ticks: seq<Tick>, least: real, i: nat, j: nat, s: real, T: real)
    requires Schedule(t0, ticks, least) && i < j < |ticks|
    requires s <= ticks[i].wake && ticks[j].wake <= T
    ensures (j - i - 1) as real * least <= T - s + MAX_LAG
  {
    assert TickOk(t0, ticks, i + 1);
    TargetBrackets(t0, ticks, i + 1, least);
    TargetsAdvance(t0, ticks, i + 2, j + 1, least);
    TargetBrackets(t0, ticks, j, least);
    assert j + 1 - (i + 2) == j - i - 1;
  }

  /** The most wake-ups in a window of that span. */
  function MostWakes(span: real, least: real): real
    requires least > 0.0
  {
    (span + MAX_LAG) / least + 2.0
  }

  /** In any window [s, T] a bot wakes at most (T - s + 0.5) / interval + 2 times: the wake-ups numbered i to j
      fall into the window. */
  lemma WakesInWindow(t0: real, ticks: seq<Tick>, least: real, i: nat, j: nat, s: real, T: real)
    requires Schedule(t0, ticks, least) && i <= j < |ticks|
    requires s <= ticks[i].wake && ticks[j].wake <= T
    ensures (j + 1 - i) as real <= MostWakes(T - s, least)
  {
    if i < j {
      WindowSpan(t0, ticks, least, i, j, s, T);
      DivideBound(j - i - 1, T - s + MAX_LAG, least);
    } else {
      DivideBound(0, T - s + MAX_LAG, least);
    }
  }

  lemma DivideBound(n: int, span: real, least: real)
    requires least > 0.0 && n as real * least <= span
    ensures n as real <= span / least
  {
    assert n as real * least / least == n as real;
    var rest := span - n as real * least;
    assert rest / least >= 0.0;
    assert span / least == n as real * least / least + rest / least;
  }

  /** The orders fired by the wake-ups i up to j. */
  function Orders(fired: seq<nat>, i: nat, j: nat): nat
    requires i <= j <= |fired|
  {
    if i == j then 0 else Orders(fired, i, j - 1) + fired[j - 1]
  }

  lemma {:induction false} OrdersBound(fired: seq<nat>, i: nat, j: nat, burst: nat)
    requires i <= j <= |fired| && forall k | 0 <= k < |fired| :: fired[k] <= burst
    ensures Orders(fired, i, j) <= burst * (j - i)
  {
    if i < j {
      OrdersBound(fired, i, j - 1, burst);
      assert burst * (j - i) == burst * (j - 1 - i) + burst;
    }
  }

  /** If no wake-up fires more than `burst` orders, a window sees at most burst times that many. */
  lemma SendsInWindow(t0: real, ticks: seq<Tick>, fired: seq<nat>, burst: nat, least: real, i: nat, j: nat,
                      s: real, T: real)
    requires Schedule(t0, ticks, least) && i <= j < |ticks| == |fired|
    requires forall k | 0 <= k < |fired| :: fired[k] <= burst
    requires s <= ticks[i].wake && ticks[j].wake <= T
    ensures Orders(fired, i, j + 1) as real <= burst as real * MostWakes(T - s, least)
  {
    WakesInWindow(t0, ticks, least, i, j, s, T);
    OrdersScale(fired, i, j + 1, burst, MostWakes(T - s, least));
  }

  lemma OrdersScale(fired: seq<nat>, i: nat, j: nat, burst: nat, bound: real)
    requires i <= j <= |fired| && forall k | 0 <= k < |fired| :: fired[k] <= burst
    requires (j - i) as real <= bound
    ensures Orders(fired, i, j) as real <= burst as real * bound
  {
    OrdersBound(fired, i, j, burst);
    Scaled(Orders(fired, i, j), burst, j - i, bound);
  }

  lemma Scaled(orders: nat, burst: nat, n: nat, bound: real)
    requires orders <= burst * n && n as real <= bound
    ensures orders as real <= burst as real * bound
  {
    assert (burst * n) as real == burst as real * n as real;
  }
}

/**
 The fleet barrier: workers register, one of them is elected to run the probe, and each then reads how many are
 registered and offers that fraction of the tagged rate.

 A step machine over the shared keys. Workers are named by the order in which they register and take their steps in
 any order; `GiveUp` is a follower that stops waiting for the probe.
*/
module Split {
  import opened Options

  datatype Stage = Joined | Leads | Probed | Follows | Loads(fleet: int)

  datatype Step = Join | Elect(w: int) | Finish(w: int) | Go(w: int) | GiveUp(w: int)

  /** Where each registered worker is, the holder of the scenario lock, the done flag, and how many workers were
      registered when the flag was set. */
  datatype Fleet = Fleet(stage: seq<Stage>, lock: Option<int>, done: bool, early: int)

  const START := Fleet([], None, false, 0)

  predicate Is(f: Fleet, w: int, s: Stage) {
    0 <= w < |f.stage| && f.stage[w] == s
  }

  predicate Enabled(f: Fleet, s: Step) {
    match s
    case Join => true
    case Elect(w) => Is(f, w, Joined)
    case Finish(w) => Is(f, w, Leads)
    case Go(w) => Is(f, w, Probed) || (Is(f, w, Follows) && f.done)
    case GiveUp(w) => Is(f, w, Follows)
  }

  function After(f: Fleet, s: Step): Fleet
    requires Enabled(f, s)
  {
    match s
    case Join => f.(stage := f.stage + [Joined])
    case Elect(w) =>
      if f.lock == None
      then f.(lock := Some(w), stage := f.stage[w := Leads])
      else f.(stage := f.stage[w := Follows])
    case Finish(w) => f.(done := true, early := |f.stage|, stage := f.stage[w := Probed])
    case Go(w) => f.(stage := f.stage[w := Loads(|f.stage|)])
    case GiveUp(w) => f.(stage := f.stage[w := Loads(|f.stage|)])
  }

  /** The state after a run; `None` when some step is not enabled. */
  function State(steps: seq<Step>): Option<Fleet> {
    if steps == [] then Some(START) else
    var before := State(steps[..|steps| - 1]);
    var s := steps[|steps| - 1];
    if before.Some? && Enabled(before.value, s) then Some(After(before.value, s)) else None
  }

  predicate Patient(steps: seq<Step>) {
    forall i | 0 <= i < |steps| :: !steps[i].GiveUp?
  }

  // ---------- election and registration ----------

  predicate HasLed(s: Stage) {
    s == Leads || s == Probed
  }

  /** Only the lock holder leads, and whoever loads has counted itself and everyone registered before it. */
  predicate Inv(f: Fleet) {
    && (forall w | 0 <= w < |f.stage| && HasLed(f.stage[w]) :: f.lock == Some(w))
    && (forall w | 0 <= w < |f.stage| && f.stage[w].Loads? :: w < f.stage[w].fleet <= |f.stage|)
  }

  lemma {:induction false} RunKeepsInv(steps: seq<Step>)
    requires State(steps).Some?
    ensures Inv(State(steps).value)
  {
    if steps != [] {
      RunKeepsInv(steps[..|steps| - 1]);
    }
  }

  lemma {:induction false} LockStays(steps: seq<Step>, k: int)
    requires State(steps).Some? && 0 <= k <= |steps|
    ensures State(steps[..k]).Some?
    ensures State(steps[..k]).value.lock.Some? ==> State(steps).value.lock == State(steps[..k]).value.lock
  {
    if k < |steps| {
      LockStays(steps[..|steps| - 1], k);
      assert steps[..|steps| - 1][..k] == steps[..k];
    } else {
      assert steps[..k] == steps;
    }
  }

  predicate LedBy(f: Fleet, w: int) {
    0 <= w < |f.stage| && HasLed(f.stage[w])
  }

  /** No run ever has two leaders, not even at different times. */
  lemma OneLeader(steps: seq<Step>, j: int, k: int, v: int, w: int)
    requires State(steps).Some? && 0 <= j <= |steps| && 0 <= k <= |steps|
    requires State(steps[..j]).Some? && LedBy(State(steps[..j]).value, v)
    requires State(steps[..k]).Some? && LedBy(State(steps[..k]).value, w)
    ensures v == w
  {
    RunKeepsInv(steps[..j]);
    RunKeepsInv(steps[..k]);
    LockStays(steps, j);
    LockStays(steps, k);
  }

  /** Load is offered only after the probe; whoever loads counts at least the workers registered by its end. */
  predicate Barred(f: Fleet) {
    && (forall w | 0 <= w < |f.stage| && f.stage[w].Loads? :: f.done && f.early <= f.stage[w].fleet)
    && (forall w | 0 <= w < |f.stage| && f.stage[w] == Probed :: f.done)
    && (forall w | 0 <= w < |f.stage| && f.stage[w] == Leads :: !f.done)
    && f.early <= |f.stage|
    && (f.done ==> f.lock.Some?)
  }

  /** When no follower gives up, no load is offered before the probe has ended. */
  lemma {:induction false} ProbeComesFirst(steps: seq<Step>)
    requires State(steps).Some? && Patient(steps)
    ensures Barred(State(steps).value)
  {
    if steps != [] {
      ProbeComesFirst(steps[..|steps| - 1]);
      RunKeepsInv(steps[..|steps| - 1]);
    }
  }

  /** The workers that load, and the fleet size each of them read. */
  predicate AllLoad(f: Fleet) {
    forall w | 0 <= w < |f.stage| :: f.stage[w].Loads?
  }

  function Counts(f: Fleet): (counts: seq<int>)
    requires AllLoad(f)
    ensures |counts| == |f.stage|
    ensures Inv(f) ==> forall w | 0 <= w < |counts| :: w < counts[w] <= |counts|
  {
    seq(|f.stage|, w requires 0 <= w < |f.stage| => f.stage[w].fleet)
  }

  // ---------- who counts everyone ----------

  predicate Reads(s: Step) {
    s.Go? || s.GiveUp?
  }

  predicate NoneReads(steps: seq<Step>) {
    forall i | 0 <= i < |steps| :: !Reads(steps[i])
  }

  /** No worker registers after another has read the count. */
  predicate InTime(steps: seq<Step>) {
    forall i, j | 0 <= i < j < |steps| && Reads(steps[i]) :: !steps[j].Join?
  }

  predicate NoneLoads(f: Fleet) {
    forall w | 0 <= w < |f.stage| :: !f.stage[w].Loads?
  }

  predicate CountsAll(f: Fleet) {
    forall w | 0 <= w < |f.stage| && f.stage[w].Loads? :: f.stage[w].fleet == |f.stage|
  }

  lemma {:induction false} ReadersLoad(steps: seq<Step>)
    requires State(steps).Some?
    ensures NoneReads(steps) <==> NoneLoads(State(steps).value)
  {
    if steps != [] {
      var n := |steps| - 1;
      var before, s := steps[..n], steps[n];
      ReadersLoad(before);
      assert NoneReads(steps) <==> NoneReads(before) && !Reads(s);
      var f, g := State(before).value, State(steps).value;
      if Reads(s) {
        assert g.stage[s.w].Loads?;
      } else if !NoneLoads(f) {
        var w :| 0 <= w < |f.stage| && f.stage[w].Loads?;
        assert g.stage[w].Loads?;
      }
    }
  }

  lemma InTimeExtends(steps: seq<Step>)
    requires steps != []
    ensures var n := |steps| - 1;
      InTime(steps) <==> InTime(steps[..n]) && (steps[n].Join? ==> NoneReads(steps[..n]))
  {
  }

  lemma NextCounts(f: Fleet, s: Step)
    requires Inv(f) && Enabled(f, s)
    ensures CountsAll(After(f, s)) <==> CountsAll(f) && (s.Join? ==> NoneLoads(f))
  {
    var g := After(f, s);
    if s.Join? {
      if w :| 0 <= w < |f.stage| && f.stage[w].Loads? {
        assert g.stage[w] == f.stage[w];
      }
    } else {
      assert !f.stage[s.w].Loads? && |g.stage| == |f.stage|;
      forall w | 0 <= w < |f.stage| && w != s.w ensures g.stage[w] == f.stage[w] {
      }
    }
  }

  /** Everyone who has read the count has counted everyone, exactly when nobody registered after a reading. */
  lemma {:induction false} InTimeCountsAll(steps: seq<Step>)
    requires State(steps).Some?
    ensures CountsAll(State(steps).value) <==> InTime(steps)
  {
    if steps != [] {
      var before := steps[..|steps| - 1];
      InTimeCountsAll(before);
      ReadersLoad(before);
      RunKeepsInv(before);
      InTimeExtends(steps);
      NextCounts(State(before).value, steps[|steps| - 1]);
    }
  }

  // ---------- the offered load ----------

  function Max(a: real, b: real): real {
    if a >= b then a else b
  }

  function ShareOf(rate: int, fleet: int): real
    requires fleet > 0
  {
    rate as real / fleet as real
  }

  /** The gap between two wake-ups of one of `bots` bots, in the steady sweep (`burst` 1) and the bursty one. */
  function Interval(bots: int, burst: int, rate: int, fleet: int): (gap: real)
    requires fleet > 0
  {
    (if bots > 1 then bots else 1) as real * burst as real / Max(ShareOf(rate, fleet), 1.0)
  }

  /** Orders a second from `bots` bots that each send `burst` orders every `gap` seconds. */
  function Pace(bots: int, burst: int, gap: real): real
    requires gap > 0.0
  {
    bots as real * burst as real / gap
  }

  lemma DivideBack(a: real, b: real)
    requires a > 0.0 && b > 0.0
    ensures a / b > 0.0 && a / (a / b) == b
  {
    assert (a / b) * b == a;
  }

  /** A worker with any bots offers its share, or one order a second when the share is smaller. */
  lemma WorkerOffers(bots: int, burst: int, rate: int, fleet: int)
    requires bots > 0 && burst > 0 && fleet > 0
    ensures Interval(bots, burst, rate, fleet) > 0.0
    ensures Pace(bots, burst, Interval(bots, burst, rate, fleet)) == Max(ShareOf(rate, fleet), 1.0)
  {
    assert bots as real * burst as real > 0.0;
    DivideBack(bots as real * burst as real, Max(ShareOf(rate, fleet), 1.0));
  }

  predicate Positive(counts: seq<int>) {
    forall w | 0 <= w < |counts| :: counts[w] > 0
  }

  /** The load the whole fleet offers when worker `w` has counted `counts[w]` workers. */
  function Aggregate(counts: seq<int>, rate: int): real
    requires Positive(counts)
  {
    if counts == [] then 0.0 else
    Aggregate(counts[..|counts| - 1], rate) + Max(ShareOf(rate, counts[|counts| - 1]), 1.0)
  }

  function Harmonic(n: nat): real {
    if n == 0 then 0.0 else Harmonic(n - 1) + 1.0 / n as real
  }

  /** `a` added `k` times. */
  function Repeat(k: nat, a: real): real {
    if k == 0 then 0.0 else Repeat(k - 1, a) + a
  }

  lemma {:induction false} RepeatMultiplies(k: nat, a: real)
    ensures Repeat(k, a) == k as real * a
  {
    if k > 0 {
      RepeatMultiplies(k - 1, a);
      assert k as real * a == (k - 1) as real * a + a;
    }
  }

  lemma SharesCancel(rate: int, n: int)
    requires n > 0
    ensures Repeat(n, ShareOf(rate, n)) == rate as real
    ensures rate >= n <==> ShareOf(rate, n) >= 1.0
  {
    var share := ShareOf(rate, n);
    RepeatMultiplies(n, share);
    assert n as real * share == rate as real;
    if share >= 1.0 {
      ProductGrows(n as real, 1.0, share);
    } else {
      ProductGrows(n as real, share, 1.0);
    }
  }

  lemma ProductGrows(a: real, b: real, c: real)
    requires a > 0.0 && b <= c
    ensures a * b <= a * c
    ensures b < c ==> a * b < a * c
  {
  }

  /** The load of `n` workers of which each counts only itself and those before it. */
  function HarmonicLoad(n: nat, rate: int): real {
    if n == 0 then 0.0 else HarmonicLoad(n - 1, rate) + ShareOf(rate, n)
  }

  /** That load is the rate times the harmonic number of `n`. */
  lemma {:induction false} HarmonicLoadIs(n: nat, rate: int)
    ensures HarmonicLoad(n, rate) == rate as real * Harmonic(n)
  {
    if n > 0 {
      HarmonicLoadIs(n - 1, rate);
      Spread(rate as real, Harmonic(n - 1), 1.0 / n as real);
      assert ShareOf(rate, n) == rate as real * (1.0 / n as real);
    }
  }

  lemma Spread(a: real, b: real, c: real)
    ensures a * (b + c) == a * b + a * c
  {
  }

  lemma {:induction false} EqualParts(counts: seq<int>, rate: int, n: int)
    requires n > 0 && forall w | 0 <= w < |counts| :: counts[w] == n
    ensures Aggregate(counts, rate) == Repeat(|counts|, Max(ShareOf(rate, n), 1.0))
  {
    if counts != [] {
      EqualParts(counts[..|counts| - 1], rate, n);
    }
  }

  lemma ShareShrinks(rate: int, low: int, high: int)
    requires rate >= 0 && 0 < low <= high
    ensures ShareOf(rate, high) <= ShareOf(rate, low)
  {
    assert ShareOf(rate, high) * high as real == rate as real == ShareOf(rate, low) * low as real;
  }

  lemma ShareShrinksStrictly(rate: int, low: int, high: int)
    requires rate > 0 && 0 < low < high
    ensures ShareOf(rate, high) < ShareOf(rate, low)
  {
    assert ShareOf(rate, high) * high as real == rate as real == ShareOf(rate, low) * low as real;
  }

  lemma {:induction false} PartialBounds(counts: seq<int>, rate: int, n: int)
    requires rate >= n >= |counts| && n > 0
    requires forall w | 0 <= w < |counts| :: w < counts[w] <= n
    ensures Repeat(|counts|, ShareOf(rate, n)) <= Aggregate(counts, rate) <= HarmonicLoad(|counts|, rate)
  {
    if counts != [] {
      var k := |counts|;
      PartialBounds(counts[..k - 1], rate, n);
      ShareShrinks(rate, k, counts[k - 1]);
      ShareShrinks(rate, counts[k - 1], n);
      SharesCancel(rate, n);
    }
  }

  lemma FleetBounds(f: Fleet, rate: int)
    requires Inv(f) && AllLoad(f) && rate >= |f.stage| > 0
    ensures Positive(Counts(f)) && rate as real <= Aggregate(Counts(f), rate) <= HarmonicLoad(|f.stage|, rate)
  {
    PartialBounds(Counts(f), rate, |f.stage|);
    SharesCancel(rate, |f.stage|);
  }

  /** In any order of registrations and readings, even when followers give up, the fleet offers at least the tagged
      rate and at most that rate times the harmonic number of the fleet size. */
  lemma SplitIsBounded(steps: seq<Step>, rate: int)
    requires State(steps).Some? && AllLoad(State(steps).value)
    requires rate >= |State(steps).value.stage| > 0
    ensures var f := State(steps).value;
            && Positive(Counts(f))
            && rate as real <= Aggregate(Counts(f), rate) <= HarmonicLoad(|f.stage|, rate)
  {
    RunKeepsInv(steps);
    FleetBounds(State(steps).value, rate);
  }

  // ---------- when the shares add up ----------

  /** Unless all count n, the shares add up to more than as many n-th parts. */
  lemma {:induction false} UnevenExceeds(counts: seq<int>, rate: int, n: int)
    requires rate >= n > 0 && forall w | 0 <= w < |counts| :: 0 < counts[w] <= n
    ensures Repeat(|counts|, ShareOf(rate, n)) <= Aggregate(counts, rate)
    ensures (forall w | 0 <= w < |counts| :: counts[w] == n) || Repeat(|counts|, ShareOf(rate, n)) < Aggregate(counts, rate)
  {
    if counts != [] {
      var k := |counts|;
      UnevenExceeds(counts[..k - 1], rate, n);
      SharesCancel(rate, n);
      if counts[k - 1] == n {
        assert ShareOf(rate, counts[k - 1]) == ShareOf(rate, n);
      } else {
        ShareShrinksStrictly(rate, counts[k - 1], n);
      }
    }
  }

  lemma {:induction false} AtLeastOneEach(counts: seq<int>, rate: int)
    requires Positive(counts)
    ensures Aggregate(counts, rate) >= |counts| as real
  {
    if counts != [] {
      AtLeastOneEach(counts[..|counts| - 1], rate);
    }
  }

  lemma FleetIsEven(f: Fleet, rate: int)
    requires Inv(f) && AllLoad(f) && |f.stage| > 0
    ensures Positive(Counts(f))
    ensures Aggregate(Counts(f), rate) == rate as real <==> rate >= |f.stage| && CountsAll(f)
    ensures rate < |f.stage| && CountsAll(f) ==> Aggregate(Counts(f), rate) == |f.stage| as real
  {
    var counts, n := Counts(f), |f.stage|;
    AtLeastOneEach(counts, rate);
    SharesCancel(rate, n);
    if rate < n {
      if CountsAll(f) {
        EqualParts(counts, rate, n);
        RepeatMultiplies(n, 1.0);
      }
    } else {
      UnevenExceeds(counts, rate, n);
      if CountsAll(f) {
        EqualParts(counts, rate, n);
        assert Max(ShareOf(rate, n), 1.0) == ShareOf(rate, n);
      } else {
        var w :| 0 <= w < n && f.stage[w].Loads? && f.stage[w].fleet != n;
        assert counts[w] != n;
      }
    }
  }

  /** In any order of registrations and readings, and for any rate, the shares add up to the tagged rate if and only if
      the rate is at least one order a second for each worker and no worker registers after another has read the
      count. */
  lemma EvenSplit(steps: seq<Step>, rate: int)
    requires State(steps).Some? && AllLoad(State(steps).value) && |State(steps).value.stage| > 0
    ensures var f := State(steps).value;
      && Positive(Counts(f))
      && (Aggregate(Counts(f), rate) == rate as real <==> rate >= |f.stage| && InTime(steps))
  {
    RunKeepsInv(steps);
    InTimeCountsAll(steps);
    FleetIsEven(State(steps).value, rate);
  }

  /** In particular they do when every worker has registered before the probe ends and none gives up; and then all have
      counted all. */
  lemma BarrierSplitsEvenly(steps: seq<Step>, rate: int)
    requires State(steps).Some? && Patient(steps)
    requires AllLoad(State(steps).value) && State(steps).value.early == |State(steps).value.stage| > 0
    ensures var f := State(steps).value;
      && InTime(steps)
      && (forall w | 0 <= w < |f.stage| :: f.stage[w] == Loads(|f.stage|))
      && Positive(Counts(f))
      && (Aggregate(Counts(f), rate) == if rate >= |f.stage| then rate as real else |f.stage| as real)
  {
    ProbeComesFirst(steps);
    RunKeepsInv(steps);
    InTimeCountsAll(steps);
    FleetIsEven(State(steps).value, rate);
  }

  // ---------- a follower that gives up ----------

  /** A follower that stops waiting loads while the leader still probes. */
  lemma GivingUpLoadsEarly()
    ensures State([Join, Elect(0), Join, Elect(1), GiveUp(1)]) == Some(Fleet([Leads, Loads(2)], Some(0), false, 0))
  {
    var s1, s2, s3, s4 := [Join], [Join, Elect(0)], [Join, Elect(0), Join], [Join, Elect(0), Join, Elect(1)];
    assert [] + [Join] == s1 && s1 + [Elect(0)] == s2 && s2 + [Join] == s3 && s3 + [Elect(1)] == s4;
    StateExtends([], Join);
    assert START.stage + [Joined] == [Joined];
    StateExtends(s1, Elect(0));
    assert [Joined][0 := Leads] == [Leads];
    StateExtends(s2, Join);
    assert [Leads] + [Joined] == [Leads, Joined];
    StateExtends(s3, Elect(1));
    assert [Leads, Joined][1 := Follows] == [Leads, Follows];
    assert s4 + [GiveUp(1)] == [Join, Elect(0), Join, Elect(1), GiveUp(1)];
    StateExtends(s4, GiveUp(1));
    assert [Leads, Follows][1 := Loads(2)] == [Leads, Loads(2)];
  }

  // ---------- the upper bound is reached ----------

  /** Each worker registers only once all earlier ones are already loading. */
  function OneByOne(n: nat): seq<Step> {
    if n == 0 then [] else
    if n == 1 then [Join, Elect(0), Finish(0), Go(0)] else
    OneByOne(n - 1) + [Join, Elect(n - 1), Go(n - 1)]
  }

  function Staircase(n: nat): seq<Stage> {
    seq(n, w => Loads(w + 1))
  }

  lemma StateExtends(steps: seq<Step>, s: Step)
    requires State(steps).Some? && Enabled(State(steps).value, s)
    ensures State(steps + [s]) == Some(After(State(steps).value, s))
  {
    assert (steps + [s])[..|steps|] == steps;
  }

  lemma AloneRuns()
    ensures State(OneByOne(1)) == Some(Fleet([Loads(1)], Some(0), true, 1))
  {
    var s1, s2, s3 := [Join], [Join, Elect(0)], [Join, Elect(0), Finish(0)];
    assert [] + [Join] == s1 && s1 + [Elect(0)] == s2 && s2 + [Finish(0)] == s3 && s3 + [Go(0)] == OneByOne(1);
    StateExtends([], Join);
    assert START.stage + [Joined] == [Joined];
    assert State(s1) == Some(Fleet([Joined], None, false, 0));
    StateExtends(s1, Elect(0));
    assert [Joined][0 := Leads] == [Leads];
    assert State(s2) == Some(Fleet([Leads], Some(0), false, 0));
    StateExtends(s2, Finish(0));
    assert [Leads][0 := Probed] == [Probed];
    assert State(s3) == Some(Fleet([Probed], Some(0), true, 1));
    StateExtends(s3, Go(0));
    assert [Probed][0 := Loads(1)] == [Loads(1)];
  }

  lemma NextClimbs(steps: seq<Step>, n: nat)
    requires n > 1 && State(steps) == Some(Fleet(Staircase(n - 1), Some(0), true, 1))
    ensures State(steps + [Join, Elect(n - 1), Go(n - 1)]) == Some(Fleet(Staircase(n), Some(0), true, 1))
  {
    var stairs, s1 := Staircase(n - 1), steps + [Join];
    var s2 := s1 + [Elect(n - 1)];
    StateExtends(steps, Join);
    StateExtends(s1, Elect(n - 1));
    assert (stairs + [Joined])[n - 1 := Follows] == stairs + [Follows];
    StateExtends(s2, Go(n - 1));
    assert (stairs + [Follows])[n - 1 := Loads(n)] == Staircase(n);
    assert s2 + [Go(n - 1)] == steps + [Join, Elect(n - 1), Go(n - 1)];
  }

  lemma {:induction false} OneByOneRuns(n: nat)
    requires n > 0
    ensures Patient(OneByOne(n))
    ensures State(OneByOne(n)) == Some(Fleet(Staircase(n), Some(0), true, 1))
  {
    if n == 1 {
      AloneRuns();
      assert Staircase(1) == [Loads(1)];
    } else {
      OneByOneRuns(n - 1);
      NextClimbs(OneByOne(n - 1), n);
    }
  }

  lemma {:induction false} StairsAdd(counts: seq<int>, rate: int)
    requires rate >= |counts| && forall w | 0 <= w < |counts| :: counts[w] == w + 1
    ensures Aggregate(counts, rate) == HarmonicLoad(|counts|, rate)
  {
    if counts != [] {
      StairsAdd(counts[..|counts| - 1], rate);
      SharesCancel(rate, |counts|);
    }
  }

  /** The harmonic bound cannot be improved: late registrations reach it, with no follower giving up. */
  lemma BoundIsReached(n: nat, rate: int)
    requires rate >= n > 0
    ensures Patient(OneByOne(n)) && State(OneByOne(n)).Some? && AllLoad(State(OneByOne(n)).value)
    ensures var counts := Counts(State(OneByOne(n)).value);
            |counts| == n && Positive(counts) && Aggregate(counts, rate) == HarmonicLoad(n, rate)
  {
    OneByOneRuns(n);
    StairsAdd(Counts(State(OneByOne(n)).value), rate);
  }
}

/**
 What the events of a run make of a worker: its counters, the latencies it holds, its tag and the batches it ships, each as a
 function of the first k events.
*/
module Course {
  import opened Bots
  import opened Options
  import opened Records

  // ---------- counters ----------

  // What the bots count.
  datatype Counter = Orders | Acks | Failures

  /** What an event adds to a counter. */
  function Gain(what: Counter, bots: seq<Bot>, ev: Event): nat {
    match what
    case Orders =>
      if ev.Wakes? && ev.bot < |bots| && CanWake(bots[ev.bot]) then Shots(bots[ev.bot], ev.burst, ev.fails) else 0
    case Acks => if Hears(bots, ev) then 1 else 0
    case Failures => if ev.Misses? || (ev.Retires? && ev.bot < |bots| && bots[ev.bot].life == Failing) then 1 else 0
  }

  function GainAt(what: Counter, events: seq<Event>, k: nat): nat
    requires k < |events|
  {
    Gain(what, BotsAt(events, k), events[k])
  }

  /** All that has been counted. */
  function Counted(what: Counter, events: seq<Event>, k: nat): nat
    requires k <= |events|
  {
    if k == 0 then 0 else Counted(what, events, k - 1) + GainAt(what, events, k - 1)
  }

  /** What has been counted since the last flush or phase start. */
  function Pending(what: Counter, events: seq<Event>, k: nat): nat
    requires k <= |events|
  {
    if k == 0 || ResetsAt(events, k - 1) then 0 else Pending(what, events, k - 1) + GainAt(what, events, k - 1)
  }

  predicate NonePending(events: seq<Event>, k: nat)
    requires k <= |events|
  {
    Pending(Orders, events, k) == Pending(Acks, events, k) == Pending(Failures, events, k) == 0
  }

  lemma GainMoves(events: seq<Event>, k: nat)
    requires k < |events|
    ensures MovesAt(events, k) <==>
      GainAt(Orders, events, k) > 0 || GainAt(Acks, events, k) > 0 || GainAt(Failures, events, k) > 0
  {
  }

  lemma {:induction false} SettledIsNonePending(events: seq<Event>, k: nat)
    requires k <= |events|
    ensures Settled(events, k) <==> NonePending(events, k)
  {
    if k > 0 && !ResetsAt(events, k - 1) {
      SettledIsNonePending(events, k - 1);
      GainMoves(events, k - 1);
    }
  }

  /** Nothing is pending just when every event that changed a counter was followed by a flush or a phase start. */
  lemma PendingIsUnflushed(events: seq<Event>, k: nat)
    requires k <= |events|
    ensures NonePending(events, k) <==> forall j: nat | j < k :: !Unflushed(events, j, k)
  {
    SettledIsNonePending(events, k);
    SettledIsFlushed(events, k);
  }

  // ---------- failures ----------

  /** A wake-up in which send number n raises counts n + 1 orders, and later ones of that bot in the phase none. */
  lemma RaisedSendsNoMore(events: seq<Event>, k: nat, m: nat, i: nat)
    requires k < m < |events| && RaisesAt(events, k, i)
    requires forall j | k < j < m :: !TurnsAt(events, j)
    requires events[m].Wakes? && events[m].bot == i
    ensures GainAt(Orders, events, k) == events[k].fails.value + 1 && GainAt(Orders, events, m) == 0
  {
    AfterOk([], events[..k]);
    FiresReached(BotsAt(events, k)[i], events[k].burst, events[k].fails.value);
    RaisedStaysOut(events, k, m, i);
  }

  /** How many connections were missed. */
  function Missed(events: seq<Event>, k: nat): nat
    requires k <= |events|
  {
    if k == 0 then 0 else Missed(events, k - 1) + if events[k - 1].Misses? then 1 else 0
  }

  /** How many sends raised, which is at most one for each bot of a phase. */
  function Raised(events: seq<Event>, k: nat): nat
    requires k <= |events|
  {
    if k == 0 then 0 else
    Raised(events, k - 1) + if events[k - 1].Wakes? && RaisesAt(events, k - 1, events[k - 1].bot) then 1 else 0
  }

  /** How many bots have failed but are not gone yet. */
  function Ailing(bots: seq<Bot>): nat {
    if bots == [] then 0 else Ailing(bots[..|bots| - 1]) + if bots[|bots| - 1].life == Failing then 1 else 0
  }

  lemma {:induction false} AilingUpdate(bots: seq<Bot>, i: nat, b: Bot)
    requires i < |bots|
    ensures Ailing(bots[i := b]) ==
      Ailing(bots) + (if b.life == Failing then 1 else 0) - if bots[i].life == Failing then 1 else 0
  {
    var n := |bots| - 1;
    if i < n {
      assert bots[i := b][..n] == bots[..n][i := b];
      AilingUpdate(bots[..n], i, b);
    } else {
      assert bots[i := b][..n] == bots[..n];
    }
  }

  lemma {:induction false} NoneAiling(bots: seq<Bot>)
    requires AllGone(bots)
    ensures Ailing(bots) == 0
  {
    if bots != [] {
      NoneAiling(bots[..|bots| - 1]);
    }
  }

  lemma AilingNext(events: seq<Event>, k: nat)
    requires k < |events|
    ensures GainAt(Failures, events, k) + Ailing(BotsAt(events, k + 1)) == Ailing(BotsAt(events, k)) +
      (if events[k].Misses? then 1 else 0) +
      (if events[k].Wakes? && RaisesAt(events, k, events[k].bot) then 1 else 0)
  {
    var bots, ev := BotsAt(events, k), events[k];
    NextAt(events, k);
    AfterOk([], events[..k]);
    match ev
    case Connects(mode, oid, over) =>
      assert (bots + [Started(mode, oid, over)])[..|bots|] == bots;
    case Wakes(i, burst, fails, over) =>
      if i < |bots| && CanWake(bots[i]) {
        AilingUpdate(bots, i, Woken(bots[i], burst, fails, over));
        SentOk(bots[i], Shots(bots[i], burst, fails));
        if fails.Some? {
          FiresReached(bots[i], burst, fails.value);
        }
      }
    case Replies(i, ackId, _) =>
      if i < |bots| {
        AilingUpdate(bots, i, Acked(bots[i], ackId));
      }
    case Retires(i) =>
      if i < |bots| {
        AilingUpdate(bots, i, bots[i].(life := Gone));
      }
    case Turns(_) =>
      if AllGone(bots) {
        NoneAiling(bots);
      }
    case _ =>
  }

  /** The failures counted are the missed connections and the bots of which a send has raised, but for those that are not
      gone yet. */
  lemma {:induction false} FailuresAre(events: seq<Event>, k: nat)
    requires k <= |events|
    ensures Counted(Failures, events, k) + Ailing(BotsAt(events, k)) == Missed(events, k) + Raised(events, k)
    ensures AllGone(BotsAt(events, k)) ==> Counted(Failures, events, k) == Missed(events, k) + Raised(events, k)
  {
    if AllGone(BotsAt(events, k)) {
      NoneAiling(BotsAt(events, k));
    }
    if k > 0 {
      FailuresAre(events, k - 1);
      AilingNext(events, k - 1);
    } else {
      assert events[..0] == [];
    }
  }

  // ---------- latencies and tags ----------

  /** Event k is the acknowledgement of an order in flight. */
  predicate HearsAt(events: seq<Event>, k: nat)
    requires k < |events|
  {
    Hears(BotsAt(events, k), events[k])
  }

  /** The acknowledgements since the last flush or phase start, in order. */
  function Held(events: seq<Event>, k: nat): (js: seq<nat>)
    requires k <= |events|
    ensures forall i | 0 <= i < |js| :: js[i] < k && HearsAt(events, js[i])
  {
    if k == 0 || ResetsAt(events, k - 1) then []
    else if HearsAt(events, k - 1) then Held(events, k - 1) + [k - 1]
    else Held(events, k - 1)
  }

  lemma {:induction false} HeldInOrder(events: seq<Event>, k: nat, i: nat, j: nat)
    requires k <= |events| && i < j < |Held(events, k)|
    ensures Held(events, k)[i] < Held(events, k)[j]
  {
    if j < |Held(events, k - 1)| {
      HeldInOrder(events, k - 1, i, j);
    }
  }

  /** They are the acknowledgements that no flush or phase start has followed. */
  lemma {:induction false} HeldIsUnflushed(events: seq<Event>, k: nat)
    requires k <= |events|
    ensures forall j: nat | j < k :: j in Held(events, k) <==> HearsAt(events, j) && Unflushed(events, j, k)
  {
    if k > 0 {
      HeldIsUnflushed(events, k - 1);
      forall j: nat | j < k
        ensures j in Held(events, k) <==> HearsAt(events, j) && Unflushed(events, j, k)
      {
        HeldNext(events, j, k - 1);
      }
    }
  }

  lemma HeldNext(events: seq<Event>, j: nat, k: nat)
    requires j <= k < |events|
    requires j < k ==> (j in Held(events, k) <==> HearsAt(events, j) && Unflushed(events, j, k))
    ensures j in Held(events, k + 1) <==> HearsAt(events, j) && Unflushed(events, j, k + 1)
  {
    if j < k {
      UnflushedNext(events, j, k);
    }
  }

  lemma {:induction false} HeldIsPending(events: seq<Event>, k: nat)
    requires k <= |events|
    ensures |Held(events, k)| == Pending(Acks, events, k)
  {
    if k > 0 {
      HeldIsPending(events, k - 1);
    }
  }

  function Latencies(events: seq<Event>, js: seq<nat>): seq<real>
    requires forall i | 0 <= i < |js| :: js[i] < |events| && events[js[i]].Replies?
  {
    seq(|js|, i requires 0 <= i < |js| => events[js[i]].us)
  }

  function TagAt(events: seq<Event>, k: nat): Tag
    requires k <= |events|
  {
    if k == 0 then Tag("open", 0)
    else if TurnsAt(events, k - 1) then Tag(events[k - 1].phase, 0)
    else if events[k - 1].Retags? then TagAt(events, k - 1).(rate := events[k - 1].rate)
    else TagAt(events, k - 1)
  }

  // ---------- what is shipped ----------

  /** What a flush ships: what has been sent, what has failed, and the acknowledgements with their latencies. */
  datatype Batch = Batch(tag: Tag, sent: nat, errors: nat, heard: seq<nat>, ts: real)

  predicate AllHeard(events: seq<Event>, k: nat, js: seq<nat>)
    requires k <= |events|
  {
    forall i | 0 <= i < |js| :: js[i] < k && HearsAt(events, js[i])
  }

  function BatchAt(events: seq<Event>, k: nat): Batch
    requires k < |events| && events[k].Ticks?
  {
    Batch(TagAt(events, k), Pending(Orders, events, k), Pending(Failures, events, k), Held(events, k), events[k].now)
  }

  /** Flushes ship what is pending, if anything is. */
  function Batches(events: seq<Event>, k: nat): (batches: seq<Batch>)
    requires k <= |events|
    ensures forall i | 0 <= i < |batches| :: AllHeard(events, k, batches[i].heard)
  {
    if k == 0 then []
    else if events[k - 1].Ticks? && !Settled(events, k - 1) then Batches(events, k - 1) + [BatchAt(events, k - 1)]
    else Batches(events, k - 1)
  }

  /** How many records come before the batches. */
  function Lead(leader: bool): nat {
    if leader then 1 else 0
  }

  /** The latencies of the first n batches. */
  function BatchLatencies(events: seq<Event>, k: nat, n: nat): (told: seq<seq<real>>)
    requires k <= |events| && n <= |Batches(events, k)|
    ensures |told| == n
  {
    if n == 0 then [] else
    BatchLatencies(events, k, n - 1) + [Latencies(events, Batches(events, k)[n - 1].heard)]
  }

  lemma {:induction false} BatchLatenciesAt(events: seq<Event>, k: nat, n: nat, i: nat)
    requires k <= |events| && i < n <= |Batches(events, k)|
    ensures BatchLatencies(events, k, n)[i] == Latencies(events, Batches(events, k)[i].heard)
  {
    if i < n - 1 {
      BatchLatenciesAt(events, k, n - 1, i);
    }
  }

  /** The latencies of all batches, after the leader's record, which has none. */
  function ToldBy(events: seq<Event>, k: nat, leader: bool): (told: seq<seq<real>>)
    requires k <= |events|
    ensures |told| == Lead(leader) + |Batches(events, k)|
  {
    (if leader then [[]] else []) + BatchLatencies(events, k, |Batches(events, k)|)
  }

  // ---------- the rate a latency is filed under ----------

  /** A flush after k events would file each latency under the tag under which it was measured. */
  predicate Straight(events: seq<Event>, k: nat)
    requires k <= |events|
  {
    forall i | 0 <= i < |Held(events, k)| :: TagAt(events, Held(events, k)[i]) == TagAt(events, k)
  }

  /** Event k changes the rate. */
  predicate Shifts(events: seq<Event>, k: nat)
    requires k < |events|
  {
    events[k].Retags? && events[k].rate != TagAt(events, k).rate
  }

  lemma NextStraight(events: seq<Event>, k: nat)
    requires k < |events| && Straight(events, k)
    ensures Straight(events, k + 1) <==> !Shifts(events, k) || Held(events, k) == []
  {
    if !ResetsAt(events, k) {
      assert Held(events, k) != [] ==> Held(events, k + 1)[0] == Held(events, k)[0];
    }
  }

  predicate AlwaysStraight(events: seq<Event>, n: nat)
    requires n <= |events|
  {
    forall k: nat | k <= n :: Straight(events, k)
  }

  /** No latency is held when the rate changes. */
  predicate ShiftsEmpty(events: seq<Event>, n: nat)
    requires n <= |events|
  {
    forall k: nat | k < n && Shifts(events, k) :: Held(events, k) == []
  }

  lemma {:induction false} StraightIsEmpty(events: seq<Event>, n: nat)
    requires n <= |events|
    ensures AlwaysStraight(events, n) <==> ShiftsEmpty(events, n)
  {
    if n == 0 {
      assert Held(events, 0) == [] && Straight(events, 0);
    } else {
      StraightIsEmpty(events, n - 1);
      StraightNext(events, n - 1);
      EmptyNext(events, n - 1);
    }
  }

  lemma StraightNext(events: seq<Event>, n: nat)
    requires n < |events|
    ensures AlwaysStraight(events, n + 1) <==>
      AlwaysStraight(events, n) && (Shifts(events, n) ==> Held(events, n) == [])
  {
    if AlwaysStraight(events, n) {
      assert Straight(events, n);
      NextStraight(events, n);
      assert AlwaysStraight(events, n + 1) <==> Straight(events, n + 1);
    }
  }

  lemma EmptyNext(events: seq<Event>, n: nat)
    requires n < |events|
    ensures ShiftsEmpty(events, n + 1) <==> ShiftsEmpty(events, n) && (Shifts(events, n) ==> Held(events, n) == [])
  {
  }

  lemma NoneHeld(events: seq<Event>, k: nat)
    requires k <= |events|
    ensures Held(events, k) == [] <==> forall j: nat | j < k && HearsAt(events, j) :: !Unflushed(events, j, k)
  {
    HeldIsUnflushed(events, k);
    if Held(events, k) != [] {
      assert Held(events, k)[0] in Held(events, k);
    }
  }

  /** At every moment a flush would file all latencies under the tag under which they were measured, if and only if no
      acknowledgement is still unflushed when the rate changes. */
  lemma RatesAreStraight(events: seq<Event>, n: nat)
    requires n <= |events|
    ensures AlwaysStraight(events, n) <==>
      forall k: nat, j: nat | j < k < n && Shifts(events, k) && HearsAt(events, j) :: !Unflushed(events, j, k)
  {
    StraightIsEmpty(events, n);
    forall k: nat | k < n
      ensures Held(events, k) == [] <==> forall j: nat | j < k && HearsAt(events, j) :: !Unflushed(events, j, k)
    {
      NoneHeld(events, k);
    }
  }

  predicate FiledStraight(events: seq<Event>, b: Batch) {
    forall i | 0 <= i < |b.heard| :: b.heard[i] <= |events| && TagAt(events, b.heard[i]) == b.tag
  }

  /** Then every batch is filed under the tag under which its latencies were measured. */
  lemma {:induction false} BatchesAreStraight(events: seq<Event>, n: nat)
    requires n <= |events| && AlwaysStraight(events, n)
    ensures forall i | 0 <= i < |Batches(events, n)| :: FiledStraight(events, Batches(events, n)[i])
  {
    if n > 0 {
      BatchesAreStraight(events, n - 1);
      assert Straight(events, n - 1);
    }
  }

  // ---------- one run ----------

  /** A connection is missed; a bot connects, sends two orders at rate 100 and leaves its loop; they are flushed, one of them
      is acknowledged and flushed, and the bot goes before the next phase starts. */
  function Short(): (events: seq<Event>)
    ensures |events| == 9
  {
    [Misses, Connects(Open, 0, false), Retags(100), Wakes(0, 2, None, true), Ticks(1.0), Replies(0, 1, 7.0), Ticks(2.0),
     Retires(0), Turns("burst")]
  }

  function Two(outstanding: int, ids: set<Id>, life: Life): seq<Bot> {
    [Bot(Open, 2, ids, outstanding, WINDOW, 0, life)]
  }

  lemma ShortBots()
    ensures BotsAt(Short(), 1) == [] && BotsAt(Short(), 2) == BotsAt(Short(), 3) == [Started(Open, 0, false)]
    ensures BotsAt(Short(), 4) == BotsAt(Short(), 5) == Two(2, {1, 2}, Draining)
    ensures BotsAt(Short(), 6) == BotsAt(Short(), 7) == Two(1, {2}, Draining)
    ensures BotsAt(Short(), 8) == Two(1, {2}, Gone) && BotsAt(Short(), 9) == []
  {
    var events := Short();
    assert events[..0] == [];
    NextAt(events, 0);
    NextAt(events, 1);
    NextAt(events, 2);
    ShortSends();
    NextAt(events, 3);
    NextAt(events, 4);
    NextAt(events, 5);
    assert {1, 2} - {1} == {2};
    NextAt(events, 6);
    NextAt(events, 7);
    NextAt(events, 8);
  }

  lemma ShortSends()
    ensures var b := Started(Open, 0, false);
      Shots(b, 2, None) == 2 && [Woken(b, 2, None, true)] == Two(2, {1, 2}, Draining)
  {
    var b := Started(Open, 0, false);
    assert Sent(b, 2) == SendOne(Sent(b, 1)) && Sent(b, 1) == SendOne(Sent(b, 0)) && Sent(b, 0) == b;
    assert {} + {1} + {2} == {1, 2};
    assert Woken(b, 2, None, true) == Sent(b, 2).(life := Draining);
  }

  lemma ShortCounts()
    ensures Counted(Orders, Short(), 9) == 2 && Counted(Acks, Short(), 9) == 1 && Counted(Failures, Short(), 9) == 1
    ensures Pending(Orders, Short(), 4) == 2 && Pending(Failures, Short(), 4) == 1
    ensures Pending(Orders, Short(), 6) == 0 && Pending(Failures, Short(), 6) == 0
  {
    ShortGains();
    ShortFirst(Orders);
    ShortFirst(Acks);
    ShortFirst(Failures);
    ShortSecond(Orders);
    ShortSecond(Acks);
    ShortSecond(Failures);
  }

  lemma ShortGains()
    ensures GainAt(Orders, Short(), 0) == 0 && GainAt(Orders, Short(), 3) == 2 && GainAt(Orders, Short(), 5) == 0
    ensures GainAt(Acks, Short(), 0) == 0 && GainAt(Acks, Short(), 3) == 0 && GainAt(Acks, Short(), 5) == 1
    ensures GainAt(Failures, Short(), 0) == 1 && GainAt(Failures, Short(), 3) == 0 && GainAt(Failures, Short(), 5) == 0
  {
    ShortBots();
    ShortSends();
  }

  lemma ShortFirst(what: Counter)
    ensures Counted(what, Short(), 4) == GainAt(what, Short(), 0) + GainAt(what, Short(), 3)
    ensures Pending(what, Short(), 4) == Counted(what, Short(), 4)
  {
    var events := Short();
    ShortBots();
    assert Counted(what, events, 1) == GainAt(what, events, 0) == Pending(what, events, 1);
    assert Counted(what, events, 3) == Counted(what, events, 2) == Counted(what, events, 1);
    assert Pending(what, events, 3) == Pending(what, events, 2) == Pending(what, events, 1);
  }

  lemma ShortSecond(what: Counter)
    ensures Counted(what, Short(), 9) == Counted(what, Short(), 4) + GainAt(what, Short(), 5)
    ensures Pending(what, Short(), 6) == GainAt(what, Short(), 5)
  {
    var events := Short();
    ShortBots();
    assert Counted(what, events, 6) == Counted(what, events, 5) + GainAt(what, events, 5);
    assert Counted(what, events, 5) == Counted(what, events, 4);
    assert Counted(what, events, 9) == Counted(what, events, 8) == Counted(what, events, 7) == Counted(what, events, 6);
    assert Pending(what, events, 5) == 0;
  }

  lemma ShortTags()
    ensures TagAt(Short(), 4) == TagAt(Short(), 6) == Tag("open", 100) && TagAt(Short(), 9) == Tag("burst", 0)
    ensures Held(Short(), 4) == [] && Held(Short(), 6) == [5]
  {
    var events := Short();
    ShortBots();
    assert TagAt(events, 2) == TagAt(events, 1) == TagAt(events, 0);
    assert TagAt(events, 3) == Tag("open", 100);
    assert TagAt(events, 5) == TagAt(events, 4) == TagAt(events, 3);
    assert Held(events, 1) == [] && Held(events, 2) == [] && Held(events, 3) == [] && Held(events, 5) == [];
  }

  lemma ShortSettles()
    ensures !Settled(Short(), 4) && !Settled(Short(), 6) && Settled(Short(), 8)
    ensures AlwaysSettled(Short(), 9)
  {
    var events := Short();
    ShortBots();
    ShortSends();
    assert MovesAt(events, 3) && MovesAt(events, 5);
    assert Settled(events, 7) && !MovesAt(events, 7);
    assert AlwaysSettled(events, 2) && AlwaysSettled(events, 4) && AlwaysSettled(events, 6) && AlwaysSettled(events, 8);
  }

  /** Two records are shipped, each under the rate of the moment: the two orders with the missed connection, and then the
      acknowledgement. Nothing is pending when the next phase starts. */
  lemma ShortRun()
    ensures Counted(Orders, Short(), 9) == 2 && Counted(Acks, Short(), 9) == 1 && Counted(Failures, Short(), 9) == 1
    ensures Batches(Short(), 9) == [Batch(Tag("open", 100), 2, 1, [], 1.0), Batch(Tag("open", 100), 0, 0, [5], 2.0)]
    ensures TagAt(Short(), 9) == Tag("burst", 0) && AlwaysSettled(Short(), 9)
  {
    var events := Short();
    ShortCounts();
    ShortTags();
    ShortSettles();
    assert Batches(events, 2) == [] && Batches(events, 4) == [];
    assert Batches(events, 5) == [BatchAt(events, 4)];
    assert Batches(events, 6) == Batches(events, 5);
    assert Batches(events, 7) == [BatchAt(events, 4), BatchAt(events, 6)];
    assert Batches(events, 9) == Batches(events, 8) == Batches(events, 7);
  }
}

/**
 The bots of a worker: what each of them may do next, and whether a phase can end.

 A bot is the state its sender and receiver share; the pacing of its sends is in module Pacing. Engine replies are
 arbitrary. A burst during which replies are read is as many smaller bursts.
*/
module Bots {
  import opened Options

  type Id = int

  const WINDOW := 32  // orders in flight per closed-loop bot

  const MAX_OUTSTANDING := 512  // open-loop overload guard

  datatype Mode = Closed | Open

  // A bot's sender sends, then waits for late replies, and then the bot is gone. A send that raises closes the
  // connection first, during which replies are still read.
  datatype Life = Sending | Draining | Failing | Gone

  /** sendTimes are the ids in flight, oid is the last id used, permits are the free slots of a closed-loop
      window, and strays counts what freed a slot without ending an order in flight: acknowledgements that matched
      none, and a send that raised. */
  datatype Bot = Bot(mode: Mode, oid: Id, sendTimes: set<Id>, outstanding: int, permits: int, strays: int, life: Life)

  /** What can happen to a worker. A bot's loop is over when the stop event or the deadline is seen, which is before a
      wait for the next wake-up and never during it. */
  datatype Event =
    | Connects(mode: Mode, oid: Id, over: bool)
    | Misses
    | Wakes(bot: nat, burst: nat, fails: Option<nat>, over: bool)
    | Replies(bot: nat, ackId: Id, us: real)
    | Retires(bot: nat)
    | Ticks(now: real)
    | Retags(rate: int)
    | Turns(phase: string)

  /** In-flight bookkeeping is exact; an open bot never has more than the guard in flight; and a closed bot's
      free slots and orders in flight fill its window, but for one extra slot per stray. */
  predicate BotOk(b: Bot) {
    && b.outstanding == |b.sendTimes|
    && (forall id | id in b.sendTimes :: id <= b.oid)
    && (b.mode == Open ==> b.outstanding <= MAX_OUTSTANDING)
    && (b.mode == Closed ==> b.permits + b.outstanding == WINDOW + b.strays && b.permits >= 0)
    && b.strays >= 0
  }

  predicate BotsOk(bots: seq<Bot>) {
    forall i | 0 <= i < |bots| :: BotOk(bots[i])
  }

  function InFlight(bots: seq<Bot>): int {
    if bots == [] then 0 else InFlight(bots[..|bots| - 1]) + bots[|bots| - 1].outstanding
  }

  lemma {:induction false} InFlightUpdate(bots: seq<Bot>, i: nat, b: Bot)
    requires i < |bots|
    ensures InFlight(bots[i := b]) == InFlight(bots) + b.outstanding - bots[i].outstanding
  {
    var n := |bots| - 1;
    if i < n {
      assert bots[i := b][..n] == bots[..n][i := b];
      InFlightUpdate(bots[..n], i, b);
    } else {
      assert bots[i := b][..n] == bots[..n];
    }
  }

  lemma {:induction false} InFlightNonNegative(bots: seq<Bot>)
    requires BotsOk(bots)
    ensures InFlight(bots) >= 0
  {
    if bots != [] {
      InFlightNonNegative(bots[..|bots| - 1]);
    }
  }

  // ---------- one bot ----------

  function Started(mode: Mode, oid: Id, over: bool): Bot {
    Bot(mode, oid, {}, 0, WINDOW, 0, if over then Draining else Sending)
  }

  /** Send one order under the next id; a closed-loop bot takes a slot of its window for it. */
  function SendOne(b: Bot): Bot {
    b.(oid := b.oid + 1, sendTimes := b.sendTimes + {b.oid + 1}, outstanding := b.outstanding + 1,
       permits := if b.mode == Closed then b.permits - 1 else b.permits)
  }

  function Sent(b: Bot, k: nat): Bot {
    if k == 0 then b else SendOne(Sent(b, k - 1))
  }

  /** How many orders a wake-up with this burst sends if nothing fails: a closed-loop bot one, an open-loop bot
      what the overload guard leaves of the burst. */
  function Fires(b: Bot, burst: nat): nat {
    if b.mode == Closed then 1
    else if b.outstanding + burst <= MAX_OUTSTANDING then burst
    else if b.outstanding < MAX_OUTSTANDING then MAX_OUTSTANDING - b.outstanding
    else 0
  }

  /** A wake-up may send k orders: it has slots for them, or the guard allows them. */
  predicate Allows(b: Bot, k: nat) {
    k == 0 || if b.mode == Closed then k <= b.permits else b.outstanding + k <= MAX_OUTSTANDING
  }

  lemma {:induction false} SentOk(b: Bot, k: nat)
    requires BotOk(b) && Allows(b, k)
    ensures var c := Sent(b, k);
      && BotOk(c) && c.oid == b.oid + k && c.outstanding == b.outstanding + k
      && c.mode == b.mode && c.life == b.life && c.strays == b.strays
      && c.permits == if b.mode == Closed then b.permits - k else b.permits
  {
    if k > 0 {
      SentOk(b, k - 1);
      assert b.oid + k !in Sent(b, k - 1).sendTimes;
    }
  }

  /** Unless the guard or the burst ends the wake-up first, its send numbered n happens. */
  predicate Reaches(b: Bot, burst: nat, n: nat) {
    if b.mode == Closed then n == 0 else n < burst && b.outstanding + n < MAX_OUTSTANDING
  }

  lemma FiresReached(b: Bot, burst: nat, n: nat)
    requires BotOk(b)
    ensures n < Fires(b, burst) <==> Reaches(b, burst, n)
  {
  }

  /** A wake-up in which no send raises sends the whole burst, unless that fills the bot up to the guard. */
  lemma BurstOrFull(b: Bot, burst: nat, over: bool)
    requires BotOk(b) && b.mode == Open && CanWake(b)
    ensures var c := Woken(b, burst, None, over);
      c.outstanding == (if b.outstanding + burst <= 512 then b.outstanding + burst else 512) && |c.sendTimes| == c.outstanding
  {
    WokenOk(b, burst, None, over);
  }

  /** The overload guard stops the burst exactly when as many orders as it allows have been sent. */
  lemma GuardStops(b: Bot, burst: nat, k: nat)
    requires BotOk(b) && CanWake(b) && k <= Fires(b, burst) && k < if b.mode == Closed then 1 else burst
    ensures Sent(b, k).mode == b.mode
    ensures b.mode != Closed && Sent(b, k).outstanding >= MAX_OUTSTANDING <==> k == Fires(b, burst)
  {
    SentOk(b, k);
  }

  /** The bot after a send has raised: a closed-loop bot gives the slot back. */
  function Broken(b: Bot): Bot {
    if b.mode == Closed
    then b.(life := Failing, permits := b.permits + 1, strays := b.strays + 1)
    else b.(life := Failing)
  }

  /** The bot before its next wait: its loop may be over. */
  function Looped(b: Bot, over: bool): Bot {
    if over then b.(life := Draining) else b
  }

  /** The number of orders a wake-up sends. */
  function Shots(b: Bot, burst: nat, fails: Option<nat>): nat {
    if fails.Some? && fails.value < Fires(b, burst) then fails.value + 1 else Fires(b, burst)
  }

  /** The bot after a wake-up: one order, or what the guard leaves of a burst, unless the send numbered `fails`
      raises. */
  function Woken(b: Bot, burst: nat, fails: Option<nat>, over: bool): Bot {
    var c := Sent(b, Shots(b, burst, fails));
    if fails.Some? && fails.value < Fires(b, burst) then Broken(c) else Looped(c, over)
  }

  predicate CanWake(b: Bot) {
    b.life == Sending && (b.mode == Closed ==> b.permits > 0)  // the semaphore blocks otherwise
  }

  /** A wake-up of an open-loop bot, below the guard, for one order. */
  lemma OneShot(b: Bot, over: bool)
    requires b.mode == Open && b.outstanding < MAX_OUTSTANDING
    ensures Shots(b, 1, None) == 1
    ensures Woken(b, 1, None, over) ==
      b.(oid := b.oid + 1, sendTimes := b.sendTimes + {b.oid + 1}, outstanding := b.outstanding + 1,
         life := if over then Draining else b.life)
  {
    assert Sent(b, 1) == SendOne(Sent(b, 0)) && Sent(b, 0) == b;
  }

  lemma WokenOk(b: Bot, burst: nat, fails: Option<nat>, over: bool)
    requires BotOk(b) && CanWake(b)
    ensures var c := Woken(b, burst, fails, over);
      BotOk(c) && c.outstanding == b.outstanding + Shots(b, burst, fails)
  {
    SentOk(b, Shots(b, burst, fails));
  }

  /** The receiver's handling of an acknowledgement. */
  function Acked(b: Bot, ackId: Id): Bot {
    var known := ackId in b.sendTimes;
    b.(sendTimes := b.sendTimes - {ackId},
       outstanding := if known then b.outstanding - 1 else b.outstanding,
       permits := if b.mode == Closed then b.permits + 1 else b.permits,
       strays := if known then b.strays else b.strays + 1)
  }

  lemma AckedOk(b: Bot, ackId: Id)
    requires BotOk(b)
    ensures BotOk(Acked(b, ackId))
  {
    if ackId in b.sendTimes {
      assert |b.sendTimes - {ackId}| == |b.sendTimes| - 1;
    } else {
      assert b.sendTimes - {ackId} == b.sendTimes;
    }
  }

  predicate CanRetire(b: Bot) {
    b.life == Draining || b.life == Failing
  }

  // ---------- all bots ----------

  predicate AllGone(bots: seq<Bot>) {
    forall i | 0 <= i < |bots| :: bots[i].life == Gone
  }

  /** The bots after an event; one that cannot happen is skipped. A phase turns once all its bots are gone. */
  function Next(bots: seq<Bot>, ev: Event): seq<Bot> {
    match ev
    case Connects(mode, oid, over) => bots + [Started(mode, oid, over)]
    case Wakes(i, burst, fails, over) =>
      if i < |bots| && CanWake(bots[i]) then bots[i := Woken(bots[i], burst, fails, over)] else bots
    case Replies(i, ackId, _) =>
      if i < |bots| && bots[i].life != Gone then bots[i := Acked(bots[i], ackId)] else bots
    case Retires(i) =>
      if i < |bots| && CanRetire(bots[i]) then bots[i := bots[i].(life := Gone)] else bots
    case Turns(_) => if AllGone(bots) then [] else bots
    case _ => bots
  }

  lemma NextOk(bots: seq<Bot>, ev: Event)
    requires BotsOk(bots)
    ensures BotsOk(Next(bots, ev))
  {
    match ev
    case Wakes(i, burst, fails, over) =>
      if i < |bots| && CanWake(bots[i]) {
        WokenOk(bots[i], burst, fails, over);
      }
    case Replies(i, ackId, _) =>
      if i < |bots| {
        AckedOk(bots[i], ackId);
      }
    case _ =>
  }

  function After(bots: seq<Bot>, events: seq<Event>): seq<Bot> {
    if events == [] then bots else Next(After(bots, events[..|events| - 1]), events[|events| - 1])
  }

  lemma {:induction false} AfterOk(bots: seq<Bot>, events: seq<Event>)
    requires BotsOk(bots)
    ensures BotsOk(After(bots, events))
  {
    if events != [] {
      AfterOk(bots, events[..|events| - 1]);
      NextOk(After(bots, events[..|events| - 1]), events[|events| - 1]);
    }
  }

  lemma {:induction false} AfterAppends(bots: seq<Bot>, a: seq<Event>, c: seq<Event>)
    ensures After(bots, a + c) == After(After(bots, a), c)
  {
    if c == [] {
      assert a + c == a;
    } else {
      assert (a + c)[..|a + c| - 1] == a + c[..|c| - 1];
      AfterAppends(bots, a, c[..|c| - 1]);
    }
  }

  // ---------- events that count ----------

  /** The event is the acknowledgement of an order in flight. */
  predicate Hears(bots: seq<Bot>, ev: Event) {
    ev.Replies? && ev.bot < |bots| && bots[ev.bot].life != Gone && ev.ackId in bots[ev.bot].sendTimes
  }

  /** The event changes a counter: an order is sent, an order in flight is acknowledged, a failed bot goes, or a bot
      cannot connect. */
  predicate Moves(bots: seq<Bot>, ev: Event) {
    match ev
    case Misses => true
    case Wakes(i, burst, fails, _) => i < |bots| && CanWake(bots[i]) && Shots(bots[i], burst, fails) > 0
    case Replies(_, _, _) => Hears(bots, ev)
    case Retires(i) => i < |bots| && bots[i].life == Failing
    case _ => false
  }

  /** The event starts the next phase. */
  predicate Turned(bots: seq<Bot>, ev: Event) {
    ev.Turns? && AllGone(bots)
  }

  /** The bots before event k of a run. */
  function BotsAt(events: seq<Event>, k: nat): seq<Bot>
    requires k <= |events|
  {
    After([], events[..k])
  }

  predicate MovesAt(events: seq<Event>, k: nat)
    requires k < |events|
  {
    Moves(BotsAt(events, k), events[k])
  }

  predicate TurnsAt(events: seq<Event>, k: nat)
    requires k < |events|
  {
    Turned(BotsAt(events, k), events[k])
  }

  /** Event k is a flush, or the start of a phase, whose reporter starts from the counters of that moment. */
  predicate ResetsAt(events: seq<Event>, k: nat)
    requires k < |events|
  {
    events[k].Ticks? || TurnsAt(events, k)
  }

  /** Nothing has changed a counter since the last reset before event k. */
  predicate Settled(events: seq<Event>, k: nat)
    requires k <= |events|
  {
    k == 0 || ResetsAt(events, k - 1) || (Settled(events, k - 1) && !MovesAt(events, k - 1))
  }

  /** Every phase before event k started settled. */
  predicate AlwaysSettled(events: seq<Event>, k: nat)
    requires k <= |events|
  {
    k == 0 || (AlwaysSettled(events, k - 1) && (TurnsAt(events, k - 1) ==> Settled(events, k - 1)))
  }

  lemma NextAt(events: seq<Event>, k: nat)
    requires k < |events|
    ensures BotsAt(events, k + 1) == Next(BotsAt(events, k), events[k])
  {
    assert events[..k + 1][..k] == events[..k];
  }

  /** Event j changed a counter, and no flush or new phase followed before event k. */
  predicate Unflushed(events: seq<Event>, j: nat, k: nat)
    requires j < k <= |events|
  {
    MovesAt(events, j) && forall m | j < m < k :: !ResetsAt(events, m)
  }

  lemma UnflushedNext(events: seq<Event>, j: nat, k: nat)
    requires j < k < |events|
    ensures Unflushed(events, j, k + 1) <==> Unflushed(events, j, k) && !ResetsAt(events, k)
  {
  }

  lemma {:induction false} SettledIsFlushed(events: seq<Event>, k: nat)
    requires k <= |events|
    ensures Settled(events, k) <==> forall j: nat | j < k :: !Unflushed(events, j, k)
  {
    if k > 0 {
      SettledIsFlushed(events, k - 1);
      forall j: nat | j < k - 1
        ensures Unflushed(events, j, k) <==> Unflushed(events, j, k - 1) && !ResetsAt(events, k - 1)
      {
        UnflushedNext(events, j, k - 1);
      }
      assert Unflushed(events, k - 1, k) <==> MovesAt(events, k - 1);
      assert ResetsAt(events, k - 1) ==> !MovesAt(events, k - 1);
      if !Settled(events, k - 1) && !ResetsAt(events, k - 1) {
        var j: nat :| j < k - 1 && Unflushed(events, j, k - 1);
        assert Unflushed(events, j, k);
      }
    }
  }

  lemma {:induction false} AlwaysSettledMeans(events: seq<Event>, k: nat)
    requires k <= |events|
    ensures AlwaysSettled(events, k) <==>
      forall i: nat, j: nat | j < i < k && TurnsAt(events, i) :: !Unflushed(events, j, i)
  {
    if k > 0 {
      AlwaysSettledMeans(events, k - 1);
      SettledIsFlushed(events, k - 1);
    }
  }

  // ---------- when a window is full ----------

  /** Event k frees a slot of bot i without ending an order in flight: an acknowledgement that matches none, or a send of
      a closed-loop bot that raises. */
  predicate StraysAt(events: seq<Event>, k: nat, i: nat)
    requires k < |events|
  {
    var bots := BotsAt(events, k);
    i < |bots| && match events[k]
      case Replies(bot, ackId, _) => bot == i && bots[i].life != Gone && ackId !in bots[i].sendTimes
      case Wakes(bot, burst, fails, _) =>
        bot == i && CanWake(bots[i]) && bots[i].mode == Closed && fails.Some? && fails.value < Fires(bots[i], burst)
      case _ => false
  }

  /** No such event since the phase began. */
  predicate Unstrayed(events: seq<Event>, k: nat, i: nat)
    requires k <= |events|
  {
    k == 0 || TurnsAt(events, k - 1) || (Unstrayed(events, k - 1, i) && !StraysAt(events, k - 1, i))
  }

  lemma StraysNext(bots: seq<Bot>, ev: Event, i: nat)
    requires BotsOk(bots) && i < |bots| && i < |Next(bots, ev)|
    ensures Next(bots, ev)[i].mode == bots[i].mode
    ensures Next(bots, ev)[i].strays == bots[i].strays + match ev
      case Replies(bot, ackId, _) =>
        if bot == i && bots[i].life != Gone && ackId !in bots[i].sendTimes then 1 else 0
      case Wakes(bot, burst, fails, _) =>
        if bot == i && CanWake(bots[i]) && bots[i].mode == Closed && fails.Some? && fails.value < Fires(bots[i], burst)
        then 1 else 0
      case _ => 0
  {
    if ev.Wakes? && ev.bot == i && CanWake(bots[i]) {
      SentOk(bots[i], Shots(bots[i], ev.burst, ev.fails));
    }
  }

  lemma {:induction false} StraysAreCounted(events: seq<Event>, k: nat, i: nat)
    requires k <= |events|
    ensures i < |BotsAt(events, k)| ==> (BotsAt(events, k)[i].strays == 0 <==> Unstrayed(events, k, i))
    ensures i >= |BotsAt(events, k)| ==> Unstrayed(events, k, i)
  {
    AfterOk([], events[..k]);
    if k > 0 {
      StraysAreCounted(events, k - 1, i);
      NextAt(events, k - 1);
      AfterOk([], events[..k - 1]);
      if i < |BotsAt(events, k - 1)| && !TurnsAt(events, k - 1) {
        StraysNext(BotsAt(events, k - 1), events[k - 1], i);
      }
    }
  }

  /** Event j is one, in the same phase as event k. */
  predicate Strayed(events: seq<Event>, j: nat, k: nat, i: nat)
    requires j < k <= |events|
  {
    StraysAt(events, j, i) && forall m | j < m < k :: !TurnsAt(events, m)
  }

  lemma {:induction false} UnstrayedMeans(events: seq<Event>, k: nat, i: nat)
    requires k <= |events|
    ensures Unstrayed(events, k, i) <==> forall j: nat | j < k :: !Strayed(events, j, k, i)
  {
    if k > 0 {
      UnstrayedMeans(events, k - 1, i);
      forall j: nat | j < k - 1
        ensures Strayed(events, j, k, i) <==> Strayed(events, j, k - 1, i) && !TurnsAt(events, k - 1)
      {
      }
      assert Strayed(events, k - 1, k, i) <==> StraysAt(events, k - 1, i);
      assert TurnsAt(events, k - 1) ==> !StraysAt(events, k - 1, i);
      if !Unstrayed(events, k - 1, i) && !TurnsAt(events, k - 1) {
        var j: nat :| j < k - 1 && Strayed(events, j, k - 1, i);
        assert Strayed(events, j, k, i);
      }
    }
  }

  /** A closed-loop bot's free slots and orders in flight fill its window exactly, if and only if in its phase every
      acknowledgement it read was for an order in flight and none of its sends raised. */
  lemma WindowIsFull(events: seq<Event>, k: nat, i: nat)
    requires k <= |events| && i < |BotsAt(events, k)| && BotsAt(events, k)[i].mode == Closed
    ensures var b := BotsAt(events, k)[i];
      b.permits + |b.sendTimes| == WINDOW <==> forall j: nat | j < k :: !Strayed(events, j, k, i)
  {
    AfterOk([], events[..k]);
    StraysAreCounted(events, k, i);
    UnstrayedMeans(events, k, i);
  }

  // ---------- sends that raise ----------

  /** In event k a send of bot i raises. */
  predicate RaisesAt(events: seq<Event>, k: nat, i: nat)
    requires k < |events|
  {
    var bots := BotsAt(events, k);
    && i < |bots| && CanWake(bots[i])
    && events[k].Wakes? && events[k].bot == i && events[k].fails.Some?
    && Reaches(bots[i], events[k].burst, events[k].fails.value)
  }

  /** The bot's loop has ended with an exception. */
  predicate Out(b: Bot) {
    b.life == Failing || b.life == Gone
  }

  /** The bot fails, with the order whose send raised in flight, and gives the slot of that order back. */
  lemma RaisedIsOut(events: seq<Event>, k: nat, i: nat)
    requires k < |events| && RaisesAt(events, k, i)
    ensures i < |BotsAt(events, k + 1)| && BotsAt(events, k + 1)[i].life == Failing && CanRetire(BotsAt(events, k + 1)[i])
    ensures var b, c := BotsAt(events, k)[i], BotsAt(events, k + 1)[i];
      && c.outstanding == b.outstanding + events[k].fails.value + 1
      && (b.mode == Closed ==> c.permits == b.permits)
  {
    AfterOk([], events[..k]);
    NextAt(events, k);
    FiresReached(BotsAt(events, k)[i], events[k].burst, events[k].fails.value);
    SentOk(BotsAt(events, k)[i], events[k].fails.value + 1);
  }

  /** A send that raises ends the bot's loop, in either mode: in the rest of the phase the bot does not wake again. */
  lemma {:induction false} RaisedStaysOut(events: seq<Event>, k: nat, m: nat, i: nat)
    requires k < m <= |events| && RaisesAt(events, k, i)
    requires forall j | k < j < m :: !TurnsAt(events, j)
    ensures i < |BotsAt(events, m)| && Out(BotsAt(events, m)[i]) && !CanWake(BotsAt(events, m)[i])
    ensures m < |events| ==> !RaisesAt(events, m, i)
  {
    if m == k + 1 {
      RaisedIsOut(events, k, i);
    } else {
      RaisedStaysOut(events, k, m - 1, i);
      NextAt(events, m - 1);
      assert !TurnsAt(events, m - 1);
    }
  }

  // ---------- whether a phase can end ----------

  /** A closed-loop bot whose window is full waits for a slot, and does not see the stop event meanwhile. */
  predicate Blocked(b: Bot) {
    b.mode == Closed && b.life == Sending && b.permits == 0
  }

  /** Only bots in `some` get replies. */
  predicate OnlyReplies(events: seq<Event>, some: set<nat>) {
    forall k | 0 <= k < |events| && events[k].Replies? :: events[k].bot in some
  }

  /** Without a reply a blocked bot stays as it is, whatever else happens, so its phase does not end. */
  lemma {:induction false} BlockedStays(bots: seq<Bot>, events: seq<Event>, i: nat, some: set<nat>)
    requires i < |bots| && Blocked(bots[i]) && OnlyReplies(events, some) && i !in some
    ensures i < |After(bots, events)| && After(bots, events)[i] == bots[i]
  {
    if events != [] {
      var n := |events| - 1;
      BlockedStays(bots, events[..n], i, some);
      var now := After(bots, events[..n]);
      assert !AllGone(now);
    }
  }

  predicate Elsewhere(was: seq<Bot>, now: seq<Bot>, i: nat) {
    |now| == |was| && forall j | 0 <= j < |was| && j != i :: now[j] == was[j]
  }

  /** What makes a bot go: a reply if it is blocked, a last wake-up if it is sending, and the end of its life. */
  function Freeing(b: Bot, i: nat): seq<Event> {
    if Blocked(b) then [Replies(i, b.oid + 1, 0.0)] else []
  }

  function Firing(b: Bot, i: nat): seq<Event> {
    if b.life == Sending then [Wakes(i, 1, None, true)] else []
  }

  function Leaving(b: Bot, i: nat): seq<Event> {
    if b.life != Gone then [Retires(i)] else []
  }

  lemma AfterOne(bots: seq<Bot>, ev: Event)
    ensures After(bots, [ev]) == Next(bots, ev)
  {
    assert [ev][..0] == [];
  }

  lemma FreeingWorks(bots: seq<Bot>, i: nat)
    requires i < |bots| && BotOk(bots[i])
    ensures var now := After(bots, Freeing(bots[i], i));
      Elsewhere(bots, now, i) && BotOk(now[i]) && !Blocked(now[i]) && now[i].life == bots[i].life
  {
    if Blocked(bots[i]) {
      AfterOne(bots, Replies(i, bots[i].oid + 1, 0.0));
      AckedOk(bots[i], bots[i].oid + 1);
    }
  }

  lemma FiringWorks(bots: seq<Bot>, i: nat)
    requires i < |bots| && BotOk(bots[i]) && !Blocked(bots[i])
    ensures var now := After(bots, Firing(bots[i], i));
      Elsewhere(bots, now, i) && now[i].life == if bots[i].life == Sending then Draining else bots[i].life
  {
    if bots[i].life == Sending {
      AfterOne(bots, Wakes(i, 1, None, true));
    }
  }

  lemma LeavingWorks(bots: seq<Bot>, i: nat)
    requires i < |bots| && bots[i].life != Sending
    ensures var now := After(bots, Leaving(bots[i], i));
      Elsewhere(bots, now, i) && now[i].life == Gone
  {
    if bots[i].life != Gone {
      AfterOne(bots, Retires(i));
    }
  }

  /** These steps for the bot as it is when it takes them. */
  function Exit(bots: seq<Bot>, i: nat): seq<Event>
    requires i < |bots|
  {
    Freeing(bots[i], i) + Firing(bots[i], i) + Leaving(bots[i], i)
  }

  lemma ExitWorks(bots: seq<Bot>, i: nat)
    requires i < |bots| && BotOk(bots[i])
    ensures var now := After(bots, Exit(bots, i));
      Elsewhere(bots, now, i) && now[i].life == Gone
  {
    var b := bots[i];
    var s1 := After(bots, Freeing(b, i));
    var s2 := After(s1, Firing(b, i));
    AfterAppends(bots, Freeing(b, i) + Firing(b, i), Leaving(b, i));
    AfterAppends(bots, Freeing(b, i), Firing(b, i));
    FreeingWorks(bots, i);
    assert Firing(s1[i], i) == Firing(b, i);
    FiringWorks(s1, i);
    assert Leaving(s2[i], i) == Leaving(b, i);
    LeavingWorks(s2, i);
  }

  /** The first n bots are gone and the others as they were. */
  predicate FirstGone(was: seq<Bot>, now: seq<Bot>, n: nat) {
    && |now| == |was|
    && (forall i | 0 <= i < n && i < |was| :: now[i].life == Gone)
    && (forall i | n <= i < |was| :: now[i] == was[i])
  }

  lemma ExitNext(bots: seq<Bot>, mid: seq<Bot>, i: nat, some: set<nat>) returns (events: seq<Event>)
    requires i < |bots| && BotOk(bots[i]) && FirstGone(bots, mid, i) && (Blocked(bots[i]) ==> i in some)
    ensures OnlyReplies(events, some) && FirstGone(bots, After(mid, events), i + 1)
  {
    events := Exit(mid, i);
    ExitWorks(mid, i);
  }

  lemma {:induction false} ExitAll(bots: seq<Bot>, n: nat, some: set<nat>) returns (events: seq<Event>)
    requires n <= |bots| && BotsOk(bots) && forall i: nat | i < |bots| && Blocked(bots[i]) :: i in some
    ensures OnlyReplies(events, some) && FirstGone(bots, After(bots, events), n)
  {
    if n == 0 {
      events := [];
    } else {
      var early := ExitAll(bots, n - 1, some);
      var late := ExitNext(bots, After(bots, early), n - 1, some);
      AfterAppends(bots, early, late);
      events := early + late;
    }
  }

  ghost predicate CanEnd(bots: seq<Bot>, some: set<nat>) {
    exists events :: OnlyReplies(events, some) && AllGone(After(bots, events))
  }

  /** The bots of a phase can all come to an end with replies to some of them only, if and only if every blocked bot is
      among those. In particular, once the engine is silent, a phase ends just when no window is full. */
  lemma PhaseCanEnd(bots: seq<Bot>, some: set<nat>)
    requires BotsOk(bots)
    ensures CanEnd(bots, some) <==> forall i: nat | i < |bots| && Blocked(bots[i]) :: i in some
  {
    if CanEnd(bots, some) {
      var events :| OnlyReplies(events, some) && AllGone(After(bots, events));
      forall i: nat | i < |bots| && Blocked(bots[i]) ensures i in some {
        if i !in some {
          BlockedStays(bots, events, i, some);
        }
      }
    }
    if forall i: nat | i < |bots| && Blocked(bots[i]) :: i in some {
      var events := ExitAll(bots, |bots|, some);
      assert OnlyReplies(events, some) && AllGone(After(bots, events));
    }
  }

  // ---------- a phase that cannot end ----------

  /** A closed-loop bot starts and sends n orders. */
  function Filling(n: nat): seq<Event> {
    if n == 0 then [Connects(Closed, 0, false)] else Filling(n - 1) + [Wakes(0, 1, None, false)]
  }

  lemma {:induction false} FillingFills(n: nat)
    requires n <= WINDOW
    ensures var bots := After([], Filling(n));
      |bots| == 1 && BotOk(bots[0]) && bots[0].mode == Closed && bots[0].life == Sending && bots[0].permits == WINDOW - n
  {
    if n == 0 {
      AfterOne([], Connects(Closed, 0, false));
    } else {
      FillingFills(n - 1);
      var bots := After([], Filling(n - 1));
      AfterAppends([], Filling(n - 1), [Wakes(0, 1, None, false)]);
      AfterOne(bots, Wakes(0, 1, None, false));
      SentOk(bots[0], 1);
    }
  }

  /** It comes about: a bot whose first 32 orders are not answered is blocked, and its phase cannot end without an answer;
      with fewer orders in flight it can. */
  lemma PhaseMayNotEnd(n: nat)
    requires n <= 32
    ensures CanEnd(After([], Filling(n)), {}) <==> n < 32
  {
    FillingFills(n);
    var bots := After([], Filling(n));
    assert Blocked(bots[0]) <==> n == 32;
    PhaseCanEnd(bots, {});
  }
}

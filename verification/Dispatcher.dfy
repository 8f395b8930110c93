/**
 The run lane: requests wait in a queue, a dispatcher takes one at a time, launches its sandbox and holds the lane
 until the run is reported done or has taken too long.

 Dispatcher, request handler and completion handlers interleave at their awaits, so each method is one stretch of
 code between awaits. Runs are numbered in the order in which they are accepted; a run is reported done only after
 it was started, but possibly often and arbitrarily late.
*/
module Dispatcher {
  import opened Lane
  import opened Options

  datatype Reply = Unknown | Accepted(run: int, queuedBehind: int)

  /** The jobs accepted in the course of the events: the requests for known submissions, numbered in order. */
  function KnownJobs(events: seq<Event>): seq<Job> {
    if events == [] then [] else
    var jobs := KnownJobs(events[..|events| - 1]);
    match events[|events| - 1]
    case Request(sub, known) => if known then jobs + [Job(|jobs|, sub)] else jobs
    case _ => jobs
  }

  /** A health check that fails, or a wait for a completion that takes too long. */
  predicate IsFailure(ev: Event) {
    ev == Expire || ev == Health(false)
  }

  function Failures(events: seq<Event>): nat {
    if events == [] then 0 else Failures(events[..|events| - 1]) + if IsFailure(events[|events| - 1]) then 1 else 0
  }

  /** The stages in which the active run's sandbox may be up. */
  predicate MayRun(s: Stage) {
    s == Checking || s == Failing || s == Waiting || s == Expiring
  }

  /** The stages after the start command. */
  predicate HasStarted(s: Stage) {
    s == Waiting || s == Expiring || s == Releasing
  }

  predicate Numbered(accepted: seq<Job>) {
    forall i | 0 <= i < |accepted| :: accepted[i].run == i
  }

  /** The accepted runs are the finished ones, then the one that holds the lane, then the queue. */
  predicate InOrder(accepted: seq<Job>, finished: int, active: Option<Job>, queue: seq<Job>) {
    var k := finished + if active.Some? then 1 else 0;
    && 0 <= finished <= k <= |accepted|
    && queue == accepted[k..]
    && (active.Some? ==> active.value == accepted[finished])
  }

  /** Only the run that holds the lane may have a sandbox. */
  predicate OneSandbox(live: map<Submission, int>, stage: Stage, active: Option<Job>) {
    && (active.None? <==> stage == Idle)
    && forall sub | sub in live :: MayRun(stage) && active == Some(Job(live[sub], sub))
  }

  /** Completions being handled belong to started runs. */
  predicate Genuine(handlers: seq<Handler>, started: map<int, Submission>, accepted: seq<Job>, finished: int,
                    stage: Stage)
  {
    && (forall r | r in started :: 0 <= r < |accepted| && (r < finished || (r == finished && HasStarted(stage))))
    && (forall r | r in started :: accepted[r] == Job(r, started[r]))
    && (forall i | 0 <= i < |handlers| :: handlers[i].run in started)
    && (forall i | 0 <= i < |handlers| && handlers[i].Stopping? :: handlers[i].sub == started[handlers[i].run])
  }

  ghost predicate NoneLive(live: map<Submission, int>) {
    forall sub :: sub !in live
  }

  ghost predicate OnlyLive(live: map<Submission, int>, job: Job) {
    job.sub in live && live[job.sub] == job.run && forall sub | sub in live :: sub == job.sub
  }

  /** When the active run's completion is about to be signalled or has been, its sandbox is down. */
  ghost predicate StopsFirst(handlers: seq<Handler>, live: map<Submission, int>, active: Option<Job>, doneEv: bool) {
    && (doneEv && active.Some? ==> NoneLive(live))
    && (forall i | 0 <= i < |handlers| && handlers[i].Signalling? && active.Some? && active.value.run == handlers[i].run ::
        NoneLive(live))
  }

  /** A run gives the lane up only when it has been reported done, or has failed or taken too long. */
  ghost predicate EndsForAReason(finished: int, stage: Stage, reported: set<int>, failed: set<int>) {
    && (forall r | 0 <= r < finished :: r in reported || r in failed)
    && (stage == Failing || stage == Expiring ==> finished in failed)
    && (stage == Releasing ==> finished in reported || finished in failed)
  }

  class Orchestrator {
    var queue: seq<Job>
    var active: Option<Job>
    var doneEv: bool
    var stage: Stage
    var live: map<Submission, int>  // the submissions with a sandbox, and the run that launched it
    var handlers: seq<Handler>
    var nextRun: int
    var started: map<int, Submission>  // the start commands sent so far

    ghost var accepted: seq<Job>
    ghost var finished: int
    ghost var reported: set<int>
    ghost var failed: set<int>

    ghost predicate Valid()
      reads this
    {
      && Numbered(accepted) && nextRun == |accepted|
      && InOrder(accepted, finished, active, queue)
      && OneSandbox(live, stage, active)
      && Genuine(handlers, started, accepted, finished, stage)
      && StopsFirst(handlers, live, active, doneEv)
      && (forall i | 0 <= i < |handlers| :: handlers[i].run in reported)
      && (doneEv && active.Some? ==> active.value.run in reported)
      && (forall r | r in reported :: r in started)
      && EndsForAReason(finished, stage, reported, failed)
    }

    /** The state of the lane. */
    ghost function View(): State
      reads this
    {
      State(queue, active, doneEv, stage, live, handlers, nextRun, started, finished)
    }

    constructor ()
      ensures queue == [] && active == None && !doneEv && nextRun == 0
      ensures Valid() && accepted == [] && live == started == map[] && handlers == [] && stage == Idle && finished == 0
      ensures reported == failed == {}
    {
      queue, active, doneEv, stage, live, handlers, nextRun := [], None, false, Idle, map[], [], 0;
      started, accepted, finished, reported, failed := map[], [], 0, {}, {};
    }

    /** A request is told how many accepted runs have not finished yet. */
    method StartRun(sub: Submission, known: bool) returns (reply: Reply)
      requires Valid()
      modifies `queue, `accepted, `nextRun
      ensures Valid()
      ensures View() == if known then Requested(old(View()), sub) else old(View())
      ensures known ==> accepted == old(accepted) + [Job(|old(accepted)|, sub)]
      ensures known ==> reply == Accepted(|old(accepted)|, |old(accepted)| - finished)
      ensures !known ==> reply == Unknown && accepted == old(accepted) && queue == old(queue)
    {
      if !known {
        return Unknown;
      }
      var ahead := |queue| + if active.Some? then 1 else 0;
      var job := Job(nextRun, sub);
      queue, nextRun, accepted := queue + [job], nextRun + 1, accepted + [job];
      return Accepted(job.run, ahead);
    }

    /** The dispatcher takes the first job of the queue: the oldest run that has not finished. */
    method TakeJob()
      requires Valid() && stage == Idle && queue != []
      modifies `queue, `active, `doneEv, `stage
      ensures Valid() && stage == Deploying && !doneEv
      ensures View() == Taken(old(View()))
      ensures 0 <= finished < |accepted| && active == Some(accepted[finished]) && queue == old(queue)[1..]
      ensures active == Some(old(queue[0]))
    {
      active, queue, doneEv, stage := Some(queue[0]), queue[1..], false, Deploying;
    }

    method LaunchSandbox()
      requires Valid() && stage == Deploying
      modifies `live, `stage
      ensures Valid() && stage == Checking && active.Some? && OnlyLive(live, active.value)
      ensures View() == Launched(old(View()))
    {
      live, stage := live[active.value.sub := active.value.run], Checking;
    }

    method CheckHealth(ok: bool)
      requires Valid() && stage == Checking
      modifies `stage, `started, `failed
      ensures Valid() && stage == if ok then Waiting else Failing
      ensures View() == Checked(old(View()), ok)
      ensures failed == if ok then old(failed) else old(failed) + {finished}
      ensures active.Some? && started == if ok then old(started)[active.value.run := active.value.sub] else old(started)
    {
      stage := if ok then Waiting else Failing;
      started := if ok then started[active.value.run := active.value.sub] else started;
      failed := if ok then failed else failed + {finished};
    }

    method TimeOut()
      requires Valid() && stage == Waiting
      modifies `stage, `failed
      ensures Valid() && stage == Expiring && failed == old(failed) + {finished}
      ensures View() == Expired(old(View()))
    {
      stage, failed := Expiring, failed + {finished};
    }

    /** After a failed health check or a timeout the dispatcher stops the sandbox itself. */
    method StopOwn()
      requires Valid() && (stage == Failing || stage == Expiring)
      modifies `live, `stage
      ensures Valid() && stage == Releasing && NoneLive(live)
      ensures View() == Stopped(old(View()))
    {
      live, stage := live - {active.value.sub}, Releasing;
    }

    /** The dispatcher sees the run's completion, whose handler has already stopped the sandbox. */
    method SeeDone()
      requires Valid() && stage == Waiting && doneEv
      modifies `stage
      ensures Valid() && stage == Releasing
      ensures View() == Woken(old(View()))
      ensures NoneLive(live) && active.Some? && active.value.run in reported
    {
      stage := Releasing;
    }

    method ReleaseLane()
      requires Valid() && stage == Releasing
      modifies `active, `stage, `finished
      ensures Valid() && stage == Idle && active == None && finished == old(finished) + 1
      ensures View() == Released(old(View()))
      ensures old(active) == Some(accepted[old(finished)])
    {
      active, stage, finished := None, Idle, finished + 1;
    }

    /** The fleet reports a started run done; a handler begins. */
    method ReportDone(run: int)
      requires Valid() && run in started
      modifies `handlers, `reported
      ensures Valid() && reported == old(reported) + {run}
      ensures View() == Reported(old(View()), run)
      ensures 0 <= run < |accepted| && handlers == old(handlers) + [Stopping(run, accepted[run].sub)]
    {
      handlers, reported := handlers + [Stopping(run, started[run])], reported + {run};
    }

    /** A handler takes its next step. A completion of a finished run never wakes the dispatcher; but it takes the
        sandbox of the active run down just when both runs are of the same submission. */
    method HandleStep(i: int)
      requires Valid() && 0 <= i < |handlers|
      modifies `handlers, `live, `doneEv
      ensures Valid()
      ensures View() == Handled(old(View()), i)
      ensures var h := old(handlers[i]);
        if h.Stopping?
        then live == old(live) - {h.sub} && doneEv == old(doneEv) && handlers == old(handlers)[i := Signalling(h.run)]
        else live == old(live) && doneEv == (old(doneEv) || active == Some(accepted[h.run])) &&
             handlers == old(handlers)[..i] + old(handlers)[i + 1..]
      ensures active.Some? && old(handlers[i]).run < finished ==>
        && doneEv == old(doneEv)
        && (old(handlers[i]).Stopping? && active.value.sub in old(live) ==>
            (active.value.sub !in live <==> old(handlers[i]).sub == active.value.sub))
    {
      var h := handlers[i];
      match h {
        case Stopping(run, sub) =>
          live := live - {sub};
          handlers := handlers[i := Signalling(run)];
        case Signalling(run) =>
          if active.Some? && active.value.run == run {
            doneEv := true;
          }
          handlers := handlers[..i] + handlers[i + 1..];
      }
    }

    /** A step of the dispatcher; one that cannot happen now is skipped. */
    method Dispatch(ev: Event)
      requires Valid()
      modifies `queue, `active, `doneEv, `stage, `live, `started, `finished, `failed
      ensures Valid() && old(finished) <= finished <= old(finished) + 1
      ensures !ev.Request? && !ev.Report? && !ev.Handle? ==> View() == Next(old(View()), ev)
      ensures finished > old(finished) ==> ev == Release && old(stage) == Releasing
      ensures failed == old(failed) || (IsFailure(ev) && failed == old(failed) + {finished})
    {
      match ev {
        case Take => if stage == Idle && queue != [] { TakeJob(); }
        case Launch => if stage == Deploying { LaunchSandbox(); }
        case Health(ok) => if stage == Checking { CheckHealth(ok); }
        case Expire => if stage == Waiting { TimeOut(); }
        case Stop => if stage == Failing || stage == Expiring { StopOwn(); }
        case Wake => if stage == Waiting && doneEv { SeeDone(); }
        case Release => if stage == Releasing { ReleaseLane(); }
        case _ =>
      }
    }

    /** Let an event happen. */
    method Apply(ev: Event)
      requires Valid()
      modifies this
      ensures Valid() && old(finished) <= finished
      ensures View() == Next(old(View()), ev)
      ensures accepted == match ev
        case Request(sub, known) => if known then old(accepted) + [Job(|old(accepted)|, sub)] else old(accepted)
        case _ => old(accepted)
      ensures forall r | r in reported :: r in old(reported) || ev == Report(r)
      ensures failed == old(failed) || (IsFailure(ev) && failed == old(failed) + {finished})
    {
      match ev {
        case Request(sub, known) => var _ := StartRun(sub, known);
        case Report(run) => if run in started { ReportDone(run); }
        case Handle(i) => if 0 <= i < |handlers| { HandleStep(i); }
        case _ => Dispatch(ev);
      }
    }
  }

  // ---------- whole runs ----------

  /** At any point of any run: at most one sandbox is up, and none while no run holds the lane; the accepted runs are
      the finished ones, the one that holds the lane and the queued ones, in the order of acceptance; and the lane
      is about to be released by a completion only if that very run was reported done. */
  lemma LaneGuarantees(o: Orchestrator)
    requires o.Valid()
    ensures forall s, u | s in o.live && u in o.live :: s == u
    ensures o.stage == Idle ==> NoneLive(o.live)
    ensures 0 <= o.finished <= |o.accepted|
    ensures o.accepted == o.accepted[..o.finished] + (if o.active.Some? then [o.active.value] else []) + o.queue
    ensures forall i | 0 <= i < |o.queue| :: o.queue[i].run == o.finished + i + if o.active.Some? then 1 else 0
    ensures o.doneEv && o.active.Some? ==> o.finished in o.reported && NoneLive(o.live)
  {
  }

  /** Any interleaving of requests, dispatcher steps, reports and handler steps. The accepted runs are those requested
      for known submissions, in order; and each run that has given the lane up was reported done in the course of the
      events, except at most one for each failed health check and each timeout. */
  method Simulate(events: seq<Event>) returns (o: Orchestrator)
    ensures fresh(o) && o.Valid() && o.View() == After(START, events) && o.accepted == KnownJobs(events)
    ensures forall r | r in o.reported :: Report(r) in events
    ensures forall r | 0 <= r < o.finished :: Report(r) in events || r in o.failed
    ensures |o.failed| <= Failures(events)
  {
    if events == [] {
      o := new Orchestrator();
    } else {
      var n := |events| - 1;
      o := Simulate(events[..n]);
      ReportsBefore(events);
      o.Apply(events[n]);
    }
  }

  lemma ReportsBefore(events: seq<Event>)
    requires events != []
    ensures forall ev :: ev in events <==> ev in events[..|events| - 1] || ev == events[|events| - 1]
  {
    assert events == events[..|events| - 1] + [events[|events| - 1]];
  }

  /** When a run that no longer holds the lane is reported done, the first step of its handler stops the sandbox of
      the active run of the same submission, and no step of it tells the dispatcher. */
  method StaleCompletion(o: Orchestrator, run: int)
    requires o.Valid() && o.active.Some? && run in o.started && run < o.finished
    requires o.started[run] == o.active.value.sub && o.handlers == []
    modifies o
    ensures o.Valid() && NoneLive(o.live) && o.handlers == []
    ensures o.active == old(o.active) && o.stage == old(o.stage) && o.doneEv == old(o.doneEv)
  {
    o.ReportDone(run);
    o.HandleStep(0);
    o.HandleStep(0);
  }

  /** That comes about: of two runs of a submission the first times out, and the second is under way. */
  method SecondRun(sub: Submission) returns (o: Orchestrator)
    ensures fresh(o) && o.Valid() && o.stage == Waiting && o.active == Some(Job(1, sub)) && !o.doneEv
    ensures OnlyLive(o.live, Job(1, sub)) && o.handlers == [] && 0 in o.started && o.started[0] == sub && o.finished == 1
  {
    o := FirstTimesOut(sub);
    o.TakeJob();
    o.LaunchSandbox();
    o.CheckHealth(true);
  }

  method FirstTimesOut(sub: Submission) returns (o: Orchestrator)
    ensures fresh(o) && o.Valid() && o.stage == Idle && o.queue == [Job(1, sub)]
    ensures o.finished == 1 && o.accepted == [Job(0, sub), Job(1, sub)] && o.started == map[0 := sub] && o.handlers == []
  {
    o := TwoRequests(sub);
    RunTimesOut(o);
  }

  method TwoRequests(sub: Submission) returns (o: Orchestrator)
    ensures fresh(o) && o.Valid() && o.stage == Idle && o.finished == 0 && o.started == map[] && o.handlers == []
    ensures o.accepted == o.queue == [Job(0, sub), Job(1, sub)]
  {
    o := OneRequest(sub);
    var _ := o.StartRun(sub, true);
    assert o.accepted == [Job(0, sub), Job(1, sub)];
  }

  method OneRequest(sub: Submission) returns (o: Orchestrator)
    ensures fresh(o) && o.Valid() && o.stage == Idle && o.finished == 0 && o.started == map[] && o.handlers == []
    ensures o.accepted == [Job(0, sub)]
  {
    o := new Orchestrator();
    var _ := o.StartRun(sub, true);
  }

  /** The oldest queued run takes the lane, is started, and times out. */
  method RunTimesOut(o: Orchestrator)
    requires o.Valid() && o.stage == Idle && o.queue != []
    modifies o
    ensures o.Valid() && o.stage == Idle && o.queue == old(o.queue)[1..] && o.accepted == old(o.accepted)
    ensures o.handlers == old(o.handlers) && o.finished == old(o.finished) + 1
    ensures o.started == old(o.started)[old(o.queue)[0].run := old(o.queue)[0].sub]
  {
    o.TakeJob();
    o.LaunchSandbox();
    o.CheckHealth(true);
    o.TimeOut();
    o.StopOwn();
    o.ReleaseLane();
  }
}

/**
 The run lane as a step machine: what each event makes of the queue, the dispatcher, the sandboxes and the completion
 handlers. A request, a report and a step can happen at any time; one that cannot happen now is skipped.
*/
module Lane {
  import opened Options

  type Submission = int

  datatype Job = Job(run: int, sub: Submission)

  // Where the dispatcher is between two awaits.
  datatype Stage = Idle | Deploying | Checking | Failing | Waiting | Expiring | Releasing

  // A completion handler first stops the sandbox of the submission and then signals the run.
  datatype Handler = Stopping(run: int, sub: Submission) | Signalling(run: int)

  /** What can happen to the orchestrator. */
  datatype Event =
    | Request(sub: Submission, known: bool)
    | Take
    | Launch
    | Health(ok: bool)
    | Expire
    | Stop
    | Wake
    | Release
    | Report(run: int)
    | Handle(i: int)

  /** live are the submissions with a sandbox, and the run that launched it; started are the start commands sent so far. */
  datatype State = State(queue: seq<Job>, active: Option<Job>, doneEv: bool, stage: Stage, live: map<Submission, int>,
                         handlers: seq<Handler>, nextRun: int, started: map<int, Submission>, finished: int)

  const START := State([], None, false, Idle, map[], [], 0, map[], 0)

  function Requested(s: State, sub: Submission): State {
    s.(queue := s.queue + [Job(s.nextRun, sub)], nextRun := s.nextRun + 1)
  }

  /** The dispatcher takes the oldest job of the queue. */
  function Taken(s: State): State {
    if s.stage == Idle && s.queue != []
    then s.(active := Some(s.queue[0]), queue := s.queue[1..], doneEv := false, stage := Deploying) else s
  }

  function Launched(s: State): State {
    if s.stage == Deploying && s.active.Some?
    then s.(live := s.live[s.active.value.sub := s.active.value.run], stage := Checking) else s
  }

  function Checked(s: State, ok: bool): State {
    if s.stage != Checking || s.active.None? then s
    else if ok then s.(stage := Waiting, started := s.started[s.active.value.run := s.active.value.sub])
    else s.(stage := Failing)
  }

  function Expired(s: State): State {
    if s.stage == Waiting then s.(stage := Expiring) else s
  }

  function Stopped(s: State): State {
    if (s.stage == Failing || s.stage == Expiring) && s.active.Some?
    then s.(live := s.live - {s.active.value.sub}, stage := Releasing) else s
  }

  function Woken(s: State): State {
    if s.stage == Waiting && s.doneEv then s.(stage := Releasing) else s
  }

  function Released(s: State): State {
    if s.stage == Releasing then s.(active := None, stage := Idle, finished := s.finished + 1) else s
  }

  function Reported(s: State, run: int): State {
    if run in s.started then s.(handlers := s.handlers + [Stopping(run, s.started[run])]) else s
  }

  /** A handler stops the sandbox of its submission; and then it wakes the dispatcher, if its run has the lane. */
  function Handled(s: State, i: int): State {
    if !(0 <= i < |s.handlers|) then s
    else
      match s.handlers[i]
      case Stopping(run, sub) => s.(live := s.live - {sub}, handlers := s.handlers[i := Signalling(run)])
      case Signalling(run) =>
        s.(doneEv := s.doneEv || (s.active.Some? && s.active.value.run == run),
           handlers := s.handlers[..i] + s.handlers[i + 1..])
  }

  function Next(s: State, ev: Event): State {
    match ev
    case Request(sub, known) => if known then Requested(s, sub) else s
    case Take => Taken(s)
    case Launch => Launched(s)
    case Health(ok) => Checked(s, ok)
    case Expire => Expired(s)
    case Stop => Stopped(s)
    case Wake => Woken(s)
    case Release => Released(s)
    case Report(run) => Reported(s, run)
    case Handle(i) => Handled(s, i)
  }

  function After(s: State, events: seq<Event>): State {
    if events == [] then s else Next(After(s, events[..|events| - 1]), events[|events| - 1])
  }

  lemma {:induction false} AfterAppends(s: State, a: seq<Event>, c: seq<Event>)
    ensures After(s, a + c) == After(After(s, a), c)
  {
    if c == [] {
      assert a + c == a;
    } else {
      assert (a + c)[..|a + c| - 1] == a + c[..|c| - 1];
      AfterAppends(s, a, c[..|c| - 1]);
    }
  }

  lemma AfterTwo(s: State, a: Event, c: Event)
    ensures After(s, [a, c]) == Next(Next(s, a), c)
  {
    assert [a, c][..1] == [a] && [a][..0] == [];
    assert After(s, [a]) == Next(s, a);
  }

  // ---------- served in turn ----------

  /** Requests for known submissions. */
  function Requests(subs: seq<Submission>): seq<Event> {
    seq(|subs|, i requires 0 <= i < |subs| => Request(subs[i], true))
  }

  /** The way of one run: it is taken, launched, found healthy and started; it is reported done, which stops its sandbox and
      wakes the dispatcher; and the lane is released. */
  function Round(run: int): seq<Event> {
    [Take, Launch] + [Health(true), Report(run)] + [Handle(0), Handle(0)] + [Wake, Release]
  }

  function Rounds(n: nat): seq<Event> {
    if n == 0 then [] else Rounds(n - 1) + Round(n - 1)
  }

  function Jobs(subs: seq<Submission>): (jobs: seq<Job>)
    ensures |jobs| == |subs|
  {
    seq(|subs|, i requires 0 <= i < |subs| => Job(i, subs[i]))
  }

  /** The lane is free, nothing runs, and these jobs wait. */
  predicate Free(s: State, queue: seq<Job>, finished: int) {
    && s.stage == Idle && s.active == None && s.live == map[] && s.handlers == []
    && s.queue == queue && s.finished == finished
  }

  lemma {:induction false} RequestsQueue(subs: seq<Submission>)
    ensures Free(After(START, Requests(subs)), Jobs(subs), 0) && After(START, Requests(subs)).nextRun == |subs|
  {
    if subs != [] {
      var n := |subs| - 1;
      assert Requests(subs)[..n] == Requests(subs[..n]);
      RequestsQueue(subs[..n]);
      assert Jobs(subs) == Jobs(subs[..n]) + [Job(n, subs[n])];
    }
  }

  /** The run's sandbox is up and it has the lane. */
  predicate Holds(s: State, stage: Stage, job: Job, queue: seq<Job>, finished: int) {
    s.stage == stage && s.active == Some(job) && s.queue == queue && s.finished == finished
  }

  lemma Launches(s: State, queue: seq<Job>, finished: int)
    requires Free(s, queue, finished) && queue != []
    ensures var t := Next(Next(s, Take), Launch);
      Holds(t, Checking, queue[0], queue[1..], finished) && t.live == map[queue[0].sub := queue[0].run] && t.handlers == []
  {
  }

  lemma Starts(s: State, job: Job, queue: seq<Job>, finished: int)
    requires Holds(s, Checking, job, queue, finished) && s.live == map[job.sub := job.run] && s.handlers == []
    ensures var t := Next(Next(s, Health(true)), Report(job.run));
      && Holds(t, Waiting, job, queue, finished) && t.live == map[job.sub := job.run]
      && t.handlers == [Stopping(job.run, job.sub)]
  {
  }

  lemma Completes(s: State, job: Job, queue: seq<Job>, finished: int)
    requires Holds(s, Waiting, job, queue, finished) && s.live == map[job.sub := job.run]
    requires s.handlers == [Stopping(job.run, job.sub)]
    ensures var t := Next(Next(s, Handle(0)), Handle(0));
      Holds(t, Waiting, job, queue, finished) && t.live == map[] && t.handlers == [] && t.doneEv
  {
    var t := Next(s, Handle(0));
    assert t.handlers == [Signalling(job.run)] && t.live == map[];
  }

  lemma RoundServes(s: State, queue: seq<Job>, finished: int)
    requires Free(s, queue, finished) && queue != []
    ensures Free(After(s, Round(queue[0].run)), queue[1..], finished + 1)
  {
    var job, rest := queue[0], queue[1..];
    var a, b, c, d := [Take, Launch], [Health(true), Report(job.run)], [Handle(0), Handle(0)], [Wake, Release];
    var s1 := After(s, a);
    AfterTwo(s, Take, Launch);
    Launches(s, queue, finished);
    var s2 := After(s1, b);
    AfterTwo(s1, Health(true), Report(job.run));
    Starts(s1, job, rest, finished);
    var s3 := After(s2, c);
    AfterTwo(s2, Handle(0), Handle(0));
    Completes(s2, job, rest, finished);
    AfterTwo(s3, Wake, Release);
    AfterFour(s, a, b, c, d);
  }

  lemma AfterFour(s: State, a: seq<Event>, b: seq<Event>, c: seq<Event>, d: seq<Event>)
    ensures After(s, a + b + c + d) == After(After(After(After(s, a), b), c), d)
  {
    AfterAppends(s, a, b);
    AfterAppends(s, a + b, c);
    AfterAppends(s, a + b + c, d);
  }

  lemma {:induction false} RoundsServe(s: State, queue: seq<Job>, k: nat)
    requires Free(s, queue, 0) && k <= |queue| && forall i | 0 <= i < |queue| :: queue[i].run == i
    ensures Free(After(s, Rounds(k)), queue[k..], k)
  {
    if k > 0 {
      RoundsServe(s, queue, k - 1);
      AfterAppends(s, Rounds(k - 1), Round(k - 1));
      RoundServes(After(s, Rounds(k - 1)), queue[k - 1..], k - 1);
      assert queue[k - 1..][1..] == queue[k..];
    }
  }

  /** Any number of accepted runs, each of which is healthy and reported done, are all served, one after the other: all have
      finished, the queue is empty, and no sandbox is left. */
  lemma AllServed(subs: seq<Submission>)
    ensures Free(After(START, Requests(subs) + Rounds(|subs|)), [], |subs|)
  {
    RequestsQueue(subs);
    RoundsServe(After(START, Requests(subs)), Jobs(subs), |subs|);
    AfterAppends(START, Requests(subs), Rounds(|subs|));
  }

  // ---------- never stuck ----------

  /** Every accepted run has finished, holds the lane, or waits; and the lane is held just outside the idle stage. */
  predicate Counted(s: State) {
    && s.nextRun == s.finished + |s.queue| + (if s.active.Some? then 1 else 0)
    && (s.stage == Idle <==> s.active.None?)
  }

  lemma {:induction false} AlwaysCounted(events: seq<Event>)
    ensures Counted(After(START, events))
  {
    if events != [] {
      AlwaysCounted(events[..|events| - 1]);
    }
  }

  predicate OwnStep(ev: Event) {
    ev.Take? || ev.Launch? || ev.Health? || ev.Expire? || ev.Stop? || ev.Release?
  }

  /** Steps of the dispatcher alone, which needs no report for them. */
  predicate OwnSteps(events: seq<Event>) {
    forall i | 0 <= i < |events| :: OwnStep(events[i])
  }

  /** How many steps the run that holds the lane is away from its end, when it fails or expires. */
  function StepsLeft(s: Stage): nat {
    match s
    case Idle => 0
    case Releasing => 1
    case Failing => 2
    case Expiring => 2
    case Waiting => 3
    case Checking => 3
    case Deploying => 4
  }

  function OwnNext(s: Stage): Event {
    match s
    case Idle => Take
    case Deploying => Launch
    case Checking => Health(false)
    case Failing => Stop
    case Waiting => Expire
    case Expiring => Stop
    case Releasing => Release
  }

  lemma OwnStepHelps(s: State)
    requires Counted(s) && (s.stage != Idle || s.queue != [])
    ensures var t := Next(s, OwnNext(s.stage));
      && Counted(t) && t.nextRun == s.nextRun
      && if s.stage == Idle then |t.queue| == |s.queue| - 1
         else |t.queue| == |s.queue| && StepsLeft(t.stage) < StepsLeft(s.stage)
  {
  }

  /** Wherever it is, the dispatcher can finish every accepted run by its own steps, with failed health checks and timeouts. */
  lemma {:induction false} NeverStuck(s: State) returns (events: seq<Event>)
    requires Counted(s)
    ensures OwnSteps(events)
    ensures var t := After(s, events); t.stage == Idle && t.queue == [] && t.finished == t.nextRun == s.nextRun
    decreases |s.queue|, StepsLeft(s.stage)
  {
    if s.stage == Idle && s.queue == [] {
      events := [];
    } else {
      var ev := OwnNext(s.stage);
      OwnStepHelps(s);
      var more := NeverStuck(Next(s, ev));
      events := [ev] + more;
      assert [ev][..0] == [];
      assert After(s, [ev]) == Next(s, ev);
      AfterAppends(s, [ev], more);
    }
  }
}

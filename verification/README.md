# HFT Arena: a verified model

HFT Arena runs contestants' matching engines in sandboxes, loads each with a fleet of bots and scores what comes back.
This project models its logic in Dafny and proves what the pieces promise, and what they promise together:

- **The order book, four times.** `Market` is the price-time-priority book as a pure step machine, indexed by engine.
  `GoEngine`, `PythonEngine`, `RustEngine` and `CppEngine` are the four reference engines in their own representations
  (sorted slices and linked elements with pointers into them; insertion-ordered dicts; ordered maps of deques with
  deferred index deletion; ordered maps of lists with stored iterators). Every operation of every class is proved to be a
  step of `Market`, for arbitrary, even repeated, ids. `BookLaws`, `Ledger`, `Directory` and `Identity` prove what all
  engines keep, conservation of quantity, when the id index is a directory of the book, and exactly when the engines
  agree; `Tapes` when their difference shows in the fills, and `Workload` when the ids of the load bots make them agree.
  `Reference` is a book without levels, sorting or index whose matches are known in closed form; `Refinement` and
  `Agreement` connect the engines to it.
- **The correctness probe** (`Probe`) as a client of the book, and the last-in-first-out book it must reject (`CheatBook`).
- **The load generator**: what bots do, and whether a phase can end (`Bots`); what a run of events makes of a worker's
  counters, latencies and records (`Course`, `Records`); a worker's counters, delta flushing and phases under any
  interleaving and any engine replies (`Fleet`); open-loop pacing over real time (`Pacing`); the election
  and load split of several workers (`Split`); and what a worker's share means for what it sends (`Load`).
- **Telemetry**: the histogram percentiles (`Histogram`, `Percentiles`), the fold of records into an aggregate
  (`Telemetry`, `Ingester`), what the bins of the curve hold (`Bins`), what the fold makes of interleaved worker streams
  (`Merging`), the score (`Scoring`), and the way from the bots to the score (`Pipeline`).
- **The run lane** of the orchestrator, as a step machine (`Lane`) and as the class that follows it (`Dispatcher`), and **the
  binary wire protocol** (`Wire`).

`Slices` holds the sorted price slices of the Go and Python books, `Elements` what the Go and C++ books share, and
`Options` the option type. Verify everything with `dafny verify dfyconfig.toml`.

## What does not hold as one might expect

Each of these is a member of the project, with the exact condition where there is one.

- The engines agree if and only if every limit order that rests is fresh for its level (`Identity.RunsAgree`). `Divergence`
  has two short runs on which engines part. From the first order that is not fresh, a cancel and a sale make two engines
  report different fills (`Tapes.TapesDecide`), although the difference may also vanish unseen
  (`Divergence.DifferenceMayNotShow`).
- The fleet does not ensure that: `bot_fleet/fleet.py:143` calls a random block of ids disjoint, but nothing makes it so, and
  bots count past the end of their block. Whatever the bots send, the engines agree, if and only if the blocks, as far as
  they are used, are apart (`Workload.BlocksDecide`, `Workload.ApartMeans`).
- Cancelling through the index removes all of an id's orders if and only if the index is complete (and, for Go and C++, no
  level repeats an id): `Directory.CancelIsScan`. Two bids under one id at two prices make it incomplete in every engine
  (`Divergence.CancelMissesTheOlderBid`).
- Not all that a worker counts is shipped. The reporter's last flush comes at most 0.2 s after the stop event, while bots
  read replies for another 0.5 s, one that sleeps when the event is set still sends its burst, and the next reporter
  starts from the counters of that moment. Nothing is lost if and only if, at the start of every phase, each earlier
  order sent, acknowledgement of an order in flight, exit of a failed bot and missed connection was followed by a flush;
  and what is still pending at the end of the last phase is decided in the same way (`Fleet.Simulate`). Both late
  acknowledgements and late orders do get lost (`Fleet.LateAckIsLost`, `Fleet.LateOrderIsLost`, `Fleet.OneInFlight`).
- The settling time at rate 0 does not keep its latencies out of the measurement, because the rate of a latency is the one
  at its flush. At every moment a flush would file all latencies under the tag under which they were measured, if and only
  if no acknowledgement is unflushed when the rate changes (`Course.RatesAreStraight`). One that is gets filed under the new
  rate (`Fleet.SettlingIsMeasured`).
- A closed-loop phase need not end: a bot whose window is full waits for an acknowledgement and does not see the stop
  event. The phase can end if and only if each such bot gets another one (`Bots.PhaseCanEnd`); an engine that answers none
  of a bot's first 32 orders brings that about (`Bots.PhaseMayNotEnd`).
- A late completion of a finished run never releases another run's lane, but its handler stops the sandbox of the active
  run just when both runs are of the same submission (`Dispatcher.Orchestrator.HandleStep`,
  `Dispatcher.StaleCompletion`). The active run then goes on without a sandbox, until its own completion or its timeout
  releases the lane.
- If a run's start reaches telemetry after some of its records, correctness may exceed 1 (`Ingester.LateStartExceeds`, and
  with the records of a worker `Pipeline.LateStartInFleet`). It cannot, whatever the workers ship afterwards and in whatever
  order it is read, if and only if all orders counted in the records read before the start had been acknowledged in them
  (`Ingester.LateStartIsSafe`).
- The workers' shares add up to the tagged rate if and only if that rate is at least one order a second for each worker
  and no worker registers after another has read the count (`Split.EvenSplit`). Otherwise, for such rates, the fleet offers
  more: up to the rate times the harmonic number of its size, and that bound is reached (`Split.SplitIsBounded`,
  `Split.BoundIsReached`).

## Model

| member | source | states |
|---|---|---|
| Market.TradeShrinks | reference_engine_go/engine.go:99-132 | the nested loops, as one recursion over single trades, terminate: each trade removes a level, or shortens the best level, or ends the taker |
| Market.BestIsUnique | reference_engine_go/engine.go:100-111 | there is one best price of a side: the lowest ask, the highest bid |
| BookLaws.MatchConsumes | reference_engine_go/engine.go:93-134 | a match leaves no empty level or exhausted order, removes only ids it reports as used up, and stops early only when nothing crosses |
| BookLaws.RestedUncrossed | reference_engine_go/engine.go:136-142 | the remainder of a limit order rests without crossing the other side |
| BookLaws.StepKeeps | reference_engine_cpp/engine.cpp:49-102 | every operation of every engine, with any ids, keeps: best bid below best ask, no empty level, positive quantities, every index entry names a resting order |
| BookLaws.RunHealthy | reference_engine_py/engine.py:85-127 | the same for every run from the empty book; in Python no level repeats an id |
| Identity.StepsAgree | reference_engine_py/engine.py:52-60 | from one book without repeats on a level, the four engines reach the same book if and only if the order that rests is fresh for its level |
| Identity.RunsAgree | reference_engine_rust/main.rs:31-89 | the four engines hold the same book throughout a run if and only if every order that rests is fresh for its level |
| Identity.TapesAgree | reference_engine_rust/main.rs:37-89 | then they report the same fills, operation by operation |
| Tapes.TapesDecide | reference_engine_rust/main.rs:37-89 | all engines report the same fills, however any part of a run goes on with cancels and market orders, if and only if every order of the run that rests is fresh for its level |
| Identity.GoIsCpp | reference_engine_cpp/engine.cpp:49-102 | Go and C++ agree on every run, whatever its ids |
| Directory.StepExact | reference_engine_go/engine.go:73-170 | an operation keeps the index a bijection with the resting orders if and only if an order that rests does not rest already |
| Directory.FreshRunExact | reference_engine_go/engine.go:89-126 | it is one throughout runs whose new ids are not indexed when they arrive |
| Directory.CancelIsScan | reference_engine_go/engine.go:149-170 | cancel through the index equals deleting the id from the whole book if and only if the index is complete (Go, C++: and no level repeats an id) |
| Divergence.RustSweepsWhatGoKeeps | reference_engine_rust/main.rs:81-89 | with a repeated id, Rust's cancel removes what Go keeps and later fills differ |
| Divergence.PythonMergesWhatGoQueues | reference_engine_py/engine.py:59 | with a repeated id, Python's merged order takes a sale that Go splits between two |
| Divergence.DifferenceMayNotShow | reference_engine_py/engine.py:59 | a run with an order that is not fresh for its level, on which all engines report the same fills and end with the same book |
| Divergence.CancelMissesTheOlderBid | reference_engine_go/engine.go:149-170 | after two bids under one id at two prices the index is incomplete in every engine, and cancel does not delete all orders of the id |
| Reference.SettleClosedForm | reference_engine_py/engine.py:73-104 | what a match leaves: each order less its share, which is what its predecessors in priority leave of the taker |
| Reference.SettleReports | reference_engine_py/engine.py:85-104 | the fills are exactly the orders with a share, in (price, arrival) order, each with its share |
| Reference.SettleVolume | reference_engine_go/engine.go:93-134 | the traded total is the lesser of the taker's quantity and all crossing liquidity |
| Reference.PartialIsLast | reference_engine_go/engine.go:113-127 | every maker but the last is filled completely |
| Refinement.SettleRefines | reference_engine_go/engine.go:93-134 | matching over levels is matching over the arrival-order log |
| Refinement.StepRefines | reference_engine_go/engine.go:136-170 | one operation with an exact index is one operation of the reference book |
| Refinement.EnginesRefineReference | reference_engine_py/engine.py:73-127 | in runs where no order rests while its id rests already, all engines report the reference fills and hold its orders |
| Refinement.FreshRunAdmitted | bot_fleet/fleet.py:143-186 | runs with fresh ids are such runs |
| Workload.ApartMeans | bot_fleet/fleet.py:143-186 | two bots' blocks share no id just when one is unused or the lower one has not been counted up to the other |
| Workload.ProbeIsApart | bot_fleet/scenarios.py:22-67 | a bot never uses an id of the probe, just as long as it has not counted up to the first of them |
| Workload.UniqueIsFresh | bot_fleet/fleet.py:143-186 | in every engine, orders with ids of their own are not indexed when they arrive |
| Workload.ApartIsFresh | bot_fleet/fleet.py:143-196 | if the blocks are apart, then in any interleaving all engines hold the same books, with exact indexes, and report the reference fills |
| Workload.BlocksDecide | bot_fleet/fleet.py:143-196 | the engines hold the same books throughout whatever the bots send, if and only if the blocks are apart |
| Ledger.MatchBalances | reference_engine_go/engine.go:117-127 | a match takes from each maker what it reports, and from the taker the sum |
| Ledger.StepBalances | reference_engine_go/engine.go:93-170 | one operation accounts for every unit of every id |
| Ledger.RunBalances | reference_engine_py/engine.py:106-127 | over whole runs, per id and without freshness: submitted = taken + made + withdrawn + dropped market remainder + resting; no maker trades beyond what came to rest |
| Ledger.FillsAreFair | reference_engine_go/engine.go:120-122 | each fill is at a level that held its maker, crosses the taker's limit and is at most the taker's quantity |
| Ledger.LimitIsKept | reference_engine_go/engine.go:99-142 | in plain prices: a buyer's fills are at or below its limit, a seller's at or above; and if a limit order is not filled, all that is left on the opposite side is worse than its limit |
| Ledger.MarketTakesAll | reference_engine_go/engine.go:144-147 | a market order that is not filled leaves the opposite side empty |
| Ledger.BestPricesFirst | reference_engine_go/engine.go:99-111 | a buyer's fills never get cheaper, a seller's never dearer |
| Ledger.TapeKeepsLimits | reference_engine_py/engine.py:73-110 | so in every run of every engine |
| Slices.AscendingEnds | reference_engine_go/engine.go:41-42 | the ends of a sorted price slice are the best prices |
| GoEngine.SearchInts | reference_engine_go/engine.go:59 | the binary search behind insort and remove |
| GoEngine.Insort | reference_engine_go/engine.go:58-64 | any sorted slice stays sorted and gains exactly the price; a strictly ascending one stays so if it did not hold it |
| GoEngine.Remove | reference_engine_go/engine.go:65-71 | any sorted slice stays sorted and loses exactly one occurrence of the price, if it holds it |
| GoEngine.MatchSide | reference_engine_go/engine.go:99-132 | the two loops over slices, lists and elements compute `Market.Match` |
| Elements.UnlinkIsDrop | reference_engine_go/engine.go:159 | unlinking an indexed element removes the youngest order of the id and nothing else |
| GoEngine.Book.LimitOrder | reference_engine_go/engine.go:136-142 | is `Step(Go, ...)` and reports its fills; keeps slices ascending and equal to the level keys, elements distinct, and every index entry pointing at a live element |
| GoEngine.Book.MarketOrder | reference_engine_go/engine.go:144-147 | is `Step(Go, ...)`; the remainder is dropped |
| GoEngine.Book.CancelOrder | reference_engine_go/engine.go:149-170 | is `Step(Go, ...)`; never unlinks a dead element |
| PythonEngine.MatchSide | reference_engine_py/engine.py:85-104 | the loops over dict keys compute `Market.Match` |
| PythonEngine.OrderBook.LimitOrder | reference_engine_py/engine.py:106-110 | is `Step(Python, ...)` and reports its fills |
| PythonEngine.OrderBook.MarketOrder | reference_engine_py/engine.py:112-115 | is `Step(Python, ...)` and reports its fills |
| PythonEngine.OrderBook.CancelOrder | reference_engine_py/engine.py:117-127 | is `Step(Python, ...)`; tells whether the id was indexed |
| RustEngine.MatchSide | reference_engine_rust/main.rs:41-66 | the loops over deques compute `Market.Match`; the ids to delete afterwards are the makers used up |
| RustEngine.Book.DropFilled | reference_engine_rust/main.rs:67 | the deferred deletions leave the index without the used-up makers |
| RustEngine.Book.LimitOrder | reference_engine_rust/main.rs:71-75 | is `Step(Rust, ...)` and reports its fills |
| RustEngine.Book.MarketOrder | reference_engine_rust/main.rs:77-79 | is `Step(Rust, ...)` and reports its fills |
| RustEngine.Book.CancelOrder | reference_engine_rust/main.rs:81-89 | is `Step(Rust, ...)`: all orders of the id leave the level |
| CppEngine.MatchSide | reference_engine_cpp/engine.cpp:83-100 | the loops over maps of lists compute `Market.Match` |
| CppEngine.OrderBook.LimitOrder | reference_engine_cpp/engine.cpp:49-53 | is `Step(Cpp, ...)` and reports its fills |
| CppEngine.OrderBook.MarketOrder | reference_engine_cpp/engine.cpp:54-57 | is `Step(Cpp, ...)` and reports its fills |
| CppEngine.OrderBook.CancelOrder | reference_engine_cpp/engine.cpp:58-69 | is `Step(Cpp, ...)`; never erases through a dead iterator |
| Agreement.RunGo | reference_engine_go/engine.go:136-170 | driving the Go class over any operations reports the fills of its step machine |
| Agreement.RunPython | reference_engine_py/engine.py:106-127 | likewise for the Python class |
| Agreement.RunRust | reference_engine_rust/main.rs:71-89 | likewise for the Rust class |
| Agreement.RunCpp | reference_engine_cpp/engine.cpp:49-69 | likewise for the C++ class |
| Agreement.RunAll | reference_engine_rust/main.rs:37-89 | the four classes report the same fills when orders rest fresh for their level, and those of the reference book when their id rests nowhere |
| CheatBook.WalkShrinks | tests/adversarial/cheater.py:45-63 | the cheat's loop terminates although its cancel leaves empty levels behind |
| CheatBook.CheatIsUpsideDown | tests/adversarial/cheater.py:50-60 | on any side, with or without the empty levels that its cancel leaves: the cheat matches like an honest book with all levels reversed and the empty ones dropped; same fills, remainder and used-up ids |
| CheatBook.CheatKeepsLimits | tests/adversarial/cheater.py:45-63 | the cheat keeps to limits and to the order of prices |
| CheatBook.EmptiedLevelStays | tests/adversarial/cheater.py:75-82 | a cancel of a level's only order leaves the level, empty |
| CheatBook.CheatBook.LimitOrder | tests/adversarial/cheater.py:66-70 | the class is its step machine |
| CheatBook.CheatBook.MarketOrder | tests/adversarial/cheater.py:72-73 | likewise |
| CheatBook.CheatBook.CancelOrder | tests/adversarial/cheater.py:75-82 | likewise; an emptied level stays |
| Probe.ExpectFills | bot_fleet/scenarios.py:38-55 | collects the taker's replies in order until it has enough or the inbox is empty |
| Probe.HonestRound | bot_fleet/scenarios.py:63-84 | a probe round on any engine fills A for 5 and then B for 1, and leaves the book empty |
| Probe.RunProbe | bot_fleet/scenarios.py:58-86 | n rounds on the Python book score n of n and leave it empty |
| Probe.CheatRound | tests/adversarial/cheater.py:35-82 | a round on the cheat fills B for 5 and A for 1, and leaves 4 of A on top of the earlier rounds' leftovers |
| Probe.RunProbeOnCheat | tests/adversarial/cheater.py:35-82 | n rounds on the cheat score 0 of n and leave n bids |
| Bots.SettledIsFlushed | bot_fleet/fleet.py:209-244 | that nothing has changed a counter since the last flush or phase start, as a recursion over the events, says that no change is without a later flush |
| Bots.AlwaysSettledMeans | bot_fleet/fleet.py:209-244 | likewise for the start of every phase |
| Bots.BlockedStays | bot_fleet/fleet.py:169-171 | a closed-loop bot with a full window stays as it is for as long as it gets no reply, and so does its phase |
| Bots.PhaseCanEnd | bot_fleet/fleet.py:247-258 | with replies to some bots only, all bots of a phase can come to an end if and only if every blocked bot is among those |
| Bots.PhaseMayNotEnd | bot_fleet/fleet.py:140-171 | of a bot that has sent n orders without an answer, the phase can end without one if and only if n is less than 32 |
| Bots.WindowIsFull | bot_fleet/fleet.py:140-196 | a closed-loop bot's free slots and orders in flight are 32 in all, if and only if in its phase it read only acknowledgements of orders in flight and none of its sends raised |
| Bots.BurstOrFull | bot_fleet/fleet.py:182-190 | a wake-up in which no send raises sends the whole burst, or fills the bot up to 512 in flight |
| Bots.RaisedIsOut | bot_fleet/fleet.py:191-196 | a send that raises fails the bot, with that order in flight and, in closed loop, its slot given back |
| Bots.RaisedStaysOut | bot_fleet/fleet.py:191-200 | in either mode the bot does not wake again in that phase |
| Course.RaisedSendsNoMore | bot_fleet/fleet.py:185-200 | a wake-up in which send number n raises counts n + 1 orders, and later ones of that bot in the phase none |
| Course.FailuresAre | bot_fleet/fleet.py:192-200 | when a phase's bots are gone, the failures counted are exactly the missed connections and the sends that raised |
| Course.PendingIsUnflushed | bot_fleet/fleet.py:209-244 | what has been counted since the last flush or phase start is nothing, just when every event that changed a counter was followed by one |
| Course.HeldIsUnflushed | bot_fleet/fleet.py:218-244 | the latencies that the next record will carry are those of the acknowledgements that no flush or phase start has followed |
| Course.RatesAreStraight | bot_fleet/fleet.py:276-285 | at every moment a flush would file all latencies under the tag under which they were measured, if and only if no acknowledgement is unflushed when the rate changes |
| Course.BatchesAreStraight | bot_fleet/fleet.py:276-288 | then every batch shipped has the tag under which its latencies were measured |
| Course.ShortRun | bot_fleet/fleet.py:127-258 | a run of nine events, one of each kind, with its counters, its two records and its tag |
| Fleet.SendBurst | bot_fleet/fleet.py:182-196 | how many orders a wake-up sends under the overload guard and failing sends, and the bot it leaves |
| Fleet.Reporter.Flush | bot_fleet/fleet.py:218-244 | ships exactly the difference to the baselines, bucket by bucket; histogram baselines move in any case, counters only with a record |
| Fleet.Warmup | bot_fleet/fleet.py:345-361 | the leader's record ships what the probe counted, once |
| Fleet.Worker.Reply | bot_fleet/fleet.py:145-165 | an acknowledgement of an order in flight counts once, in the counter and in its latency's bucket; any other only frees a closed-loop slot; the accounts are kept |
| Fleet.Worker.Fire | bot_fleet/fleet.py:169-196 | a wake-up, which an exhausted semaphore prevents, sends what the guard and a failing send allow; it keeps sent = acked + in flight + stranded, and at most 512 in flight per open-loop bot |
| Fleet.Worker.Retire | bot_fleet/fleet.py:196-200 | only a bot that has left its loop or failed goes; a failed one counts an error |
| Fleet.Worker.Tick | bot_fleet/fleet.py:203-244 | a flush ships all that is pending; when it ships nothing, nothing was pending, not even in the histogram |
| Fleet.Worker.NextPhase | bot_fleet/fleet.py:209-215 | what is pending when the next reporter is created is lost, and only that; it needs all bots gone |
| Fleet.WorkerGuarantees | bot_fleet/fleet.py:140-244 | shipped + lost + pending = counted, for counters and buckets; the stream is credible and never decreases anything; each record's histogram counts the latencies behind it, one for each acknowledgement; a leader ships its probe once, others none; a closed-loop window is full just when there were no strays |
| Fleet.Simulate | bot_fleet/fleet.py:127-258 | any interleaving of bot events, flushes and phase changes keeps all that; counters, pending counts, held latencies, tag and the records, each with the latencies behind it, are what the events make of them (`Course`); nothing is pending if and only if every change of a counter was followed by a flush or a phase start; nothing was lost if and only if that was so at every phase start |
| Fleet.LateAckIsLost | bot_fleet/fleet.py:197-215 | an acknowledgement after the phase's last flush is counted but never shipped |
| Fleet.LateOrderIsLost | bot_fleet/fleet.py:175-190 | an order sent after the phase's last flush, by a bot that slept when the stop event was set, is counted but never shipped |
| Fleet.ErrorsAre | bot_fleet/fleet.py:199-200 | a worker whose bots are gone has counted exactly the missed connections and the sends that raised as errors |
| Fleet.SettlingIsMeasured | bot_fleet/fleet.py:279-285 | a latency measured at rate 0 is filed under the next rate if no flush comes in between |
| Fleet.FollowsTold | bot_fleet/fleet.py:158-162 | the latencies behind a worker's records are those of the acknowledgements of its events, batch by batch |
| Fleet.OneInFlight | bot_fleet/fleet.py:197-215 | the states in which these three happen can be reached |
| Pacing.Sender.Pace | bot_fleet/fleet.py:174-179 | one turn of the pacing loop moves the target as specified |
| Pacing.Drive | bot_fleet/fleet.py:168-180 | the loop follows the targets |
| Pacing.TargetBrackets | bot_fleet/fleet.py:174-179 | a bot fires no earlier than its target and carries at most 0.5 s of lag |
| Pacing.TargetsAdvance | bot_fleet/fleet.py:174-179 | targets advance by at least the interval, since resynchronising moves them only forward |
| Pacing.ResyncsWhenLate | bot_fleet/fleet.py:174-179 | a bot gives up its lag exactly when it computes its delay more than 0.5 s late |
| Pacing.TargetsAdd | bot_fleet/fleet.py:174-179 | targets advance by exactly the intervals, so lag is caught up, if and only if no tick in between is that late |
| Pacing.WakesAtLeast | bot_fleet/fleet.py:168-180 | a bot that is never that late wakes at least (T - t0 - 0.5) / interval - 1 times up to T, but for an oversleep |
| Pacing.WakesSinceStart | bot_fleet/fleet.py:168-180 | at most (T - t0) / interval wake-ups up to T |
| Pacing.WakesInWindow | bot_fleet/fleet.py:168-180 | at most (T - s + 0.5) / interval + 2 wake-ups in any window |
| Pacing.SendsInWindow | bot_fleet/fleet.py:168-190 | and at most burst times as many orders |
| Split.OneLeader | bot_fleet/fleet.py:343-345 | no run has two leaders, not even at different times |
| Split.ProbeComesFirst | bot_fleet/fleet.py:345-368 | without a follower giving up, no load is offered before the probe has ended |
| Split.WorkerOffers | bot_fleet/fleet.py:277-281 | the interval makes a worker offer its share, or one order a second if that is more, in steady and bursty sweeps |
| Split.InTimeCountsAll | bot_fleet/fleet.py:336-368 | all who have read the count have counted the whole fleet if and only if no worker registered after a reading |
| Split.EvenSplit | bot_fleet/fleet.py:276-285 | for any order of steps and any rate: the shares add up to the tagged rate if and only if the rate is at least the fleet size and no worker registered after a reading |
| Split.BarrierSplitsEvenly | bot_fleet/fleet.py:336-368 | in particular if all register before the probe ends and none gives up; then all count everyone |
| Split.SplitIsBounded | bot_fleet/fleet.py:276-285 | in any order of registering and reading, the fleet offers between the rate and the rate times the harmonic number of its size |
| Split.GivingUpLoadsEarly | bot_fleet/fleet.py:362-368 | a follower that gives up loads while the leader still probes |
| Split.HarmonicLoadIs | bot_fleet/fleet.py:276-285 | that bound is the rate times the harmonic number |
| Split.BoundIsReached | bot_fleet/fleet.py:336-368 | and is reached by workers that register one after the other |
| Load.WorkerKeepsItsShare | bot_fleet/fleet.py:276-313 | in any window a worker's bots send at most its share of the rate for that time and half a second, and two bursts each |
| Load.WorkerMeetsItsShare | bot_fleet/fleet.py:276-313 | bots that keep up and are not cut short send at least the worker's share of the rate, less half a second, an oversleep and one burst each |
| Histogram.BucketIsScale | bot_fleet/fleet.py:77-79 | the bucket is the scale's number, held between 0 and 255 |
| Percentiles.Search | telemetry/metrics.py:26-40 | the one-pass search finds, for each percentile, the first bucket to reach it; all are found, in order, once anything is counted |
| Percentiles.Found | telemetry/metrics.py:34-40 | of counted samples every percentile up to 100 exists and is unique, so the fallback 0.0 is not used |
| Percentiles.Ordered | telemetry/metrics.py:30-40 | higher percentiles lie in the same or higher buckets |
| Percentiles.PercentileIsOrderStatistic | telemetry/metrics.py:26-40 | for latencies counted in any order on any monotone scale, the percentile is the bucket of the ceil(p * N)-th smallest latency |
| Percentiles.PoolingIsFair | telemetry/metrics.py:52-57 | a percentile of any number of pooled histograms lies between the extremes of those that hold samples |
| Telemetry.RateBin.Add | telemetry/metrics.py:52-59 | adds the deltas bucket by bucket and widens the time span; a zero timestamp counts as none |
| Telemetry.Agg.Add | telemetry/metrics.py:83-98 | totals always grow by the record; a bin only for a positive rate of one of the sweeps |
| Telemetry.Agg.Tps | telemetry/metrics.py:100-112 | keeps exactly the readings of the last two seconds, the slope over them, and the best slope so far |
| Telemetry.RecentIsLast | telemetry/metrics.py:103-105 | the window is what comes after all readings more than two seconds old |
| Bins.BinHoldsSums | telemetry/metrics.py:90-97 | a bin exists just for the positive rates of its sweep's records, and holds the sums of the orders and acknowledgements they report |
| Bins.BinSpansRecords | telemetry/metrics.py:57-59 | its span is from the earliest to the latest timestamp of those records, zero timestamps aside |
| Bins.AchievedIsRate | telemetry/metrics.py:61-63 | its throughput, times that span if over 0.5 s, is the number acknowledged; otherwise it is zero |
| Ingester.Ingester.StartRun | telemetry/ingester.py:44-45 | a start empties the run's aggregate and leaves all others alone |
| Ingester.Ingester.Apply | telemetry/ingester.py:84-100 | a record is folded into its run's aggregate, which is created if needed, and into no other |
| Ingester.Consume | telemetry/ingester.py:36-100 | after any messages each run's aggregate is the fold of its records since its last start |
| Ingester.StartSeparates | telemetry/ingester.py:44-45 | records before a run's last start do not count, all later ones do |
| Ingester.LateStartIsSafe | telemetry/ingester.py:36-45 | for a start read after any records of any workers, whose records are credible increments with as many latencies as acknowledgements: correctness stays a fraction in every continuation of their streams and every interleaving of it, if and only if the orders counted before the start were acknowledged before it |
| Ingester.LateStartExceeds | telemetry/ingester.py:36-45 | two such records with the start between them make correctness exceed 1 |
| Merging.OrderDoesNotMatter | telemetry/metrics.py:83-98 | the same records in any order make the same aggregate |
| Merging.InterleavingsAgree | telemetry/ingester.py:103-113 | so do interleavings that have read equally much from each worker |
| Merging.AggregateIsCredible | telemetry/metrics.py:114-117 | at every point of every interleaving acked <= sent and passed <= attempted |
| Merging.BinPoolsWorkers | telemetry/metrics.py:95-97 | the bin of a rate is the sum of the workers' histograms of that rate |
| Merging.CurveIsFair | telemetry/metrics.py:120-129 | each percentile on the curve lies between the workers' own |
| Merging.BinIsTally | telemetry/metrics.py:52-57 | and so it is the histogram of all latencies told of that rate in the records read so far |
| Merging.CurveIsOrderStatistic | telemetry/metrics.py:120-129 | each percentile on the curve is the bucket of the sample of that rank among all those latencies |
| Scoring.CorrectnessIsFraction | telemetry/metrics.py:114-117 | correctness is in [0, 1]; it is 1 just when all orders are acknowledged and all rounds pass, and 0 just when no attempted round passes or no order is acknowledged |
| Scoring.CorrectnessIsProduct | telemetry/metrics.py:114-117 | it is the product of the share of rounds passed and the share of orders acknowledged |
| Scoring.ThroughputWeighs | telemetry/metrics.py:171-179 | throughput adds 600 points times correctness at the target, in proportion below it and no more above |
| Scoring.LatencyWeighs | telemetry/metrics.py:172-179 | a measured latency p adds 400 * reference / (reference + p) points times correctness |
| Scoring.ScoreInRange | telemetry/metrics.py:169-179 | at every point of every interleaving the score is in [0, 1000) |
| Scoring.CheatScoresNothing | telemetry/metrics.py:172-179 | an engine that fails every round scores 0 |
| Scoring.FasterIsBetter | telemetry/metrics.py:170-179 | once a latency is measured, more throughput and less latency never lower the score |
| Pipeline.TotalsAreConserved | bot_fleet/fleet.py:218-244 | with all records read, telemetry's totals are what all bots counted less what workers lost or hold back |
| Pipeline.FleetScoreInRange | telemetry/metrics.py:151-179 | whatever engines reply and however events and records interleave, correctness is a fraction and the score is in [0, 1000) |
| Pipeline.ProbeArrivesWhole | bot_fleet/fleet.py:345-361 | at every point of every interleaving telemetry has counted either no probe round or exactly those of the one leader |
| Pipeline.FailedProbeScoresNothing | telemetry/metrics.py:172-179 | if all of the leader's rounds fail, the score is 0 from the moment its first record is read |
| Pipeline.FleetCurve | telemetry/metrics.py:120-129 | a percentile on the curve is the bucket of the sample of that rank among all latencies of acknowledgements in the workers' events that were shipped under that phase and rate |
| Pipeline.LateStartInFleet | telemetry/ingester.py:36-45 | a worker's run of two orders, both acknowledged after the start is read, makes correctness exceed 1 |
| Lane.AllServed | orchestrator/app.py:177-231 | any number of requests, followed by the eight steps of each run in turn, ends with all of them finished, the queue empty and no sandbox |
| Lane.NeverStuck | orchestrator/app.py:183-211 | from every reachable state the dispatcher can finish all accepted runs by its own steps |
| Dispatcher.Orchestrator.StartRun | orchestrator/app.py:161-174 | the reply's queued_behind is the number of earlier accepted runs that have not finished; an unknown submission changes nothing |
| Dispatcher.Orchestrator.TakeJob | orchestrator/app.py:183-186 | the lane goes to the oldest run that has not finished |
| Dispatcher.Orchestrator.LaunchSandbox | orchestrator/app.py:202-206 | afterwards its sandbox is the only one |
| Dispatcher.Orchestrator.StopOwn | orchestrator/app.py:192-211 | after a failed health check or a timeout no sandbox is left |
| Dispatcher.Orchestrator.SeeDone | orchestrator/app.py:187-199 | when a completion wakes the dispatcher, the active run itself was reported done and its sandbox is down |
| Dispatcher.Orchestrator.ReleaseLane | orchestrator/app.py:198-199 | the run that held the lane is finished, and the lane is free |
| Dispatcher.Orchestrator.HandleStep | orchestrator/app.py:71-99 | a completion wakes the dispatcher only for the active run; a stale one stops the active sandbox just when the submissions are the same |
| Dispatcher.LaneGuarantees | orchestrator/app.py:177-199 | at most one sandbox, none without a lane holder; finished, active and queued runs are the accepted ones in order; only a run's own completion releases its lane |
| Dispatcher.Simulate | orchestrator/app.py:71-231 | after any interleaving of requests, dispatcher steps, reports and handler steps, queue, lane holder, sandboxes, handlers and finished runs are what `Lane` makes of the events, the accepted runs are the known requests in order, and every finished run was reported done in the course of it, except at most one for each failed health check and each timeout |
| Dispatcher.StaleCompletion | orchestrator/app.py:77-99 | reporting a finished run done takes down the active run's sandbox of the same submission, unnoticed |
| Dispatcher.SecondRun | orchestrator/app.py:183-199 | the state in which that happens can be reached |
| Wire.I32RoundTrip | reference_engine_go/engine.go:199-200 | four bytes bring back a number if and only if it has 32 bits |
| Wire.RequestLayout | bot_fleet/wire.py:8-32 | byte by byte, the kind, the side and the little-endian numbers of each encoded request |
| Wire.ReplyLayout | bot_fleet/wire.py:11-17 | likewise of acknowledgements and fills |
| Wire.UnpackPack | reference_engine_go/engine.go:196-201 | every request that can be packed is read back field by field |
| Wire.PackUnpack | bot_fleet/wire.py:15 | every frame of 26 bytes is the packing of what is read from it |
| Wire.RequestRoundTrip | bot_fleet/wire.py:23-32 | the encoders succeed exactly on operations that fit, and the engines then perform that operation and acknowledge its id |
| Wire.AckRoundTrip | bot_fleet/wire.py:39-41 | acknowledgements survive if and only if id and clock have 64 bits |
| Wire.FillRoundTrip | reference_engine_go/engine.go:218-225 | the casts of a fill lose nothing if and only if it fits |
| Wire.FillsSurviveTheWire | reference_engine_rust/main.rs:134-142 | after any run of operations that came over the wire, in any engine, every fill reaches the fleet unchanged |

## Left out

Assumptions and simplifications:

- Machine integers inside the engines: prices, quantities and counters are unbounded; the wire's widths are in `Wire`. A
  Python level can add up more than 32 bits under a repeated id, but a fill never exceeds the taker's quantity.
- Failures of the host: out of memory, lost connections other than a failing send, exceptions after a sandbox launch.
- Floating point: thresholds, timestamps and scores are exact rationals or reals; display rounding is not modelled, nor the
  rounding of the reference latency to a tenth of a microsecond before it is scored.
- `log1p` and `expm1` of the bucket map: any monotone map of latencies to buckets.
- Semantics of the libraries: Go's list, Rust's ordered map and deque, C++'s map and list, Python's dict and asyncio are
  taken at their documented meaning. Checks for a missing level behind an index entry are dead code by the proved invariant.
- Unknown message types, on which the engines differ (Go ignores an unknown binary type, the others cancel), and frames of
  a wrong length, on which they fail differently; `Wire.Decode` follows Rust and skips short frames.
- The clock: it does not run backwards, and a sleep does not end early.
- Redis keys do not expire during a run; worker names are distinct; a follower's twelve-second wait is the step `GiveUp`.
- A bot whose connection has closed reads no more replies. The source does not cancel the reader of a failed bot.
- Replies read within a burst are read between two smaller bursts.
- A worker that is still in its last phase ignores the start of the next run (`bot_fleet/fleet.py:399`): each run has its
  own workers here.
- Run identifiers are numbered in the order of acceptance instead of being random.
- A run is reported done only after its start command, and with the submission of that run.
- Timeouts of the probe are an empty inbox; its connection does not fail between two rounds.
- The mutexes around the books: operations are atomic.

Behaviour without a model:

- JSON, WebSocket, Redis, Kafka and gRPC transport, and the choice between them: records arrive once each and in each
  worker's order, although the Redis stream is trimmed to its last 100000 entries.
- `_build_order`, the random mix of orders: operations are arbitrary.
- The curve's points, the reference point and the highest sustained rate: easy folds over a few points.
- Persistence, history, trends and the leaderboard of `telemetry/store.py` and the publisher.
- Docker and Kubernetes sandboxes beyond launch and stop; building images; the /stop command.
- `tests/adversarial/membomb.py` and `crasher.py`, dashboards, deployment files and generated code.
- Liveness beyond `Bots.PhaseCanEnd` and `Lane.NeverStuck`: no event is promised to happen, such as that a queued run is served.

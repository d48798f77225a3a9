# Verification of the CPU scheduling simulator

A Dafny model of the discrete-tick scheduling engine: `Simulator.executeTimeUnit` and its helpers, the ten scheduling
policies it can be given, the process records they update, and the `Start`/`Pause`/`Resume`/`Stop`/`Reset`/`Step`
protocol around it.

Verify everything with `dafny verify dfyconfig.toml`.

## How the model is built

The engine exists twice, and the two are tied together.

* **As values.** `Processes`, `Policies` and `Engine` describe a tick as a function `Tick` on a `State`: processes, ready
  queue, I/O queue, CPU slot, clock, Gantt chart, event log and counters. Processes are named by their index in the
  process list, which stands for the Go pointer. `Run(s, n)` is the state after `n` ticks. `Runner(s)` is the process that
  executes in the next tick. All theorems about runs are about these functions, for every workload and every number of
  ticks.
* **As objects.** `Schedulers` and `Simulators` hold classes with the Go fields and the Go loops: scans with a running
  best, a pointer-keyed level map, a random source with state, queues that are searched and compacted. A ghost field holds
  the corresponding `State`, and `ExecuteTimeUnit` is proved to turn a state `m` into exactly `Tick(m)`. What is proved of
  runs is therefore proved of the object.

| file | contents |
|---|---|
| `Processes`, `Policies`, `RandomWords`, `Engine` | the values: process records, policies, xorshift64, one tick and whole runs |
| `Invariants`, `Effects`, `Runs`, `Choice` | what every tick keeps, what it changes, who runs |
| `Sums`, `Dominance` | sums over sequences; the exchange argument behind shortest-first |
| `Dispatches` | whom each policy dispatches, in the fields of the records |
| `Makespan`, `Termination`, `Quanta`, `QuantumLengths` | theorems about all policies: work, idle time, deadline, quantum per dispatch |
| `ShortestFirst`, `SrtfOptimality`, `SjfOptimality`, `Fcfs`, `RoundRobin`, `Aging`, `CfsFairness`, `Levels`, `MlfqResponse`, `Lottery` | theorems about single policies |
| `Accounting`, `LotteryCounter`, `WaitingCounter`, `Bursts`, `GanttChart`, `EventLog` | what is recorded about a run: time, I/O bursts, chart, log |
| `Draws`, `Replay`, `Sources` | what a run owes to its random source, and replay after `Reset` |
| `Pairs` | admission in small cases, for the examples |
| `Schedulers`, `Slices`, `Simulator` | the classes and the in-place slice operations |
| `Lifecycle` | the control protocol, as a step relation |

`Startable(policy, procs)` collects the assumptions on the input. They are what the API layer checks
(internal/api/api.go:139-146 and 266-277, web/server.go:328-336) and what `NewProcess` and the scheduler constructors
produce: `PID >= 0`, `ArrivalTime >= 0`, `BurstTime >= 1`, I/O durations above zero, `Weight >= 1` and a positive quantum.
The theorems about runs start from `Initial`: all processes are added before
the first tick. `DistinctPids` is asked for only where the code compares PIDs
(simulator.go:408, scheduler.go:145, 280 and 331) or where the statement itself speaks of PIDs.

## Where the code does not do what is written about it

* `WaitingTime` is not always the ticks a process has waited. A quantum expiry charges the process that loses the CPU for
  the tick it just ran, and the dispatch that follows in the same tick spares the process picked a tick it waited. The two
  can cancel later. `WaitingCounter.ExactIffQuantumFree`: for each of the ten schedulers, the lottery with its built-in
  source, and from every seed, the counter is exact in every run if and only if there is no quantum. A lottery whose injected
  source always draws the last ticket is exact too (`WaitingCounter.LastTicketStaysExact`).
  `Accounting.TickChargesOneIff` gives the condition for one tick, `Accounting.WaitingExactIffNoDrift` for one process in one
  run, and `Accounting.RoundRobinDrifts` a small example.
* Equal weights get equal shares under CFS only up to `Weight == VRuntimeScale`. Above it a tick adds nothing to the virtual
  runtime, and PIDs decide. `CfsFairness.EqualSharesIffWithinScale` states this as an equivalence.
* `Reset` rewinds only the built-in random source. A lottery scheduler with an injected source replays its log if and only
  if the draws made from where the reset leaves the source select the same processes (`Replay.ReplayRepeatsIff`). Every
  workload logs the same from two words of a source if and only if the source draws alike from both
  (`Sources.AlwaysSameLogIff`). A constant source replays although it moves (`Replay.ConstantSourceReplays`), a counting one
  need not (`Replay.InjectedSourceReplaysDifferently`).
* `Start` beside a goroutine that has not finished gives two. `Start` keeps to one goroutine if and only if the simulator
  is Running, so that the call does nothing, or no goroutine is left that can still touch the protocol
  (`Lifecycle.StartKeepsOneIff`). Paused after `Pause` is the bad case (`Lifecycle.StartWhilePausedDoubles`), paused after a
  `Step` of an idle simulator is not (`Lifecycle.StartAfterStepIsAllowed`).
* A simulator can be Running with nobody to run it. `Resume` after a `Step` of an idle simulator makes it so
  (`Lifecycle.StepThenResumeRunsNobody`), although simulator.go:163-164 says Resume can pick it up. So does `Step`, `Stop`,
  `Start`, because the new goroutine takes the old stop token (`Lifecycle.StaleTokenEndsStart`).
  `Lifecycle.KeepsRunningIff` is the exact condition, `Lifecycle.RunningHasRunner` the discipline that avoids both.
* `Resume` can fail to wake its goroutine. The goroutine answers a pause with a token of its own in the channel that
  `Resume` sends to. If `Resume` comes after it stopped its ticker and before it took that token back, it parks on a token
  for good, and simulator.go:317-323 does not see it. `Lifecycle.ResumeCanTickIff` says where it can tick again,
  `Lifecycle.ResumeSurelyTicksIff` where it must, and `Lifecycle.WakeUpLost` is a history that loses the wake-up.
* `Step` beside a live goroutine can tick beside it and can make `Stop` and `Reset` hang. It ticks alone if and only if no
  goroutine is about to tick when it is called (`Lifecycle.StepTicksAloneIff`). `Stop` can return afterwards unless the step
  completed the simulation while a goroutine waits for a token (`Lifecycle.StopAfterStepIff`), because `Stop` sends none to
  a completed simulation (simulator.go:194-199). Then it hangs for good (`Lifecycle.StepToCompletionHangsStop`).
* The context-switch increment in `scheduleNextProcess` (simulator.go:452-454) never happens: the counter always equals the
  number of preemptions and quantum expiries (`EventLog.LogWellFormed`).
* docs/ALGORITHMS.md:178-192 gives MLFQ quanta 1/2/4 and a periodic boost. The code has 2/4/8 and no boost, so levels never
  fall (`Levels.MlfqLevelNeverFalls`).
* docs/ALGORITHMS.md:154-174 says CFS adds `1/nReady` per tick and resets `VRuntime` after I/O. The code adds
  `VRuntimeScale/Weight` and never resets it during a run (`CfsFairness.VruntimeMeasuresService`).
* docs/ALGORITHMS.md:203-217 derives lottery tickets from `Priority`. The code uses `Weight`.
* docs/ALGORITHMS.md:240-244 describes round robin within an MLQ level. The code breaks ties by arrival time, then PID.
* docs/ALGORITHMS.md:28-32 says FCFS takes the head of the ready queue. The code scans for the earliest arrival.

## Model

| member | source | states |
|---|---|---|
| Simulators.Simulator.ExecuteTimeUnit | internal/simulator/simulator.go:346-412 | One time unit on the object takes the abstract state from `m` to exactly `Tick(m)`, all fields and all process records included, and keeps the partition invariant |
| Simulators.Simulator.RunUntilComplete | internal/simulator/simulator.go:311-341 | Ticking until every process is complete ends, with every process complete, after one tick or at most `Outlook` ticks, in the state `Run` reaches after that many ticks |
| Simulators.Simulator.CheckArrivals | internal/simulator/simulator.go:417-426 | Exactly the New processes that have arrived become Ready, are enlisted, logged and appended in list order |
| Simulators.Simulator.TickIOQueue | internal/simulator/simulator.go:511-527 | Every blocked process is counted down once; those that reach zero go to the ready queue, the others stay in order |
| Simulators.Simulator.ScheduleNext | internal/simulator/simulator.go:429-466 | The scheduler's pick leaves the ready queue and gets the CPU with a fresh quantum; with an empty queue the CPU is free |
| Simulators.Simulator.PreemptCurrent | internal/simulator/simulator.go:474-484 | The process on the CPU goes to the tail of the ready queue, with a log entry and a context switch |
| Simulators.Simulator.ExecuteProcess | internal/simulator/simulator.go:487-506 | One unit executed, charted, and on completion logged, delisted and taken off the CPU |
| Simulators.Simulator.CheckIOBurst | internal/simulator/simulator.go:532-558 | Fired bursts are skipped, the next one starts if its CPU time is reached, and then the process blocks |
| Simulators.Simulator.ExpireQuantum | internal/simulator/simulator.go:377-397 | A used-up quantum demotes, logs and requeues the process and dispatches again in the same tick; otherwise nothing changes |
| Simulators.Simulator.AdvanceClock | internal/simulator/simulator.go:404-411 | The clock moves and exactly the ready processes whose PID is not the current one wait a tick more |
| Simulators.Simulator.AddGanttEntry | internal/simulator/simulator.go:561-578 | The last slice grows if it is the same PID's and ends where the new one starts; otherwise a slice is appended |
| Simulators.Simulator.IsComplete | internal/simulator/simulator.go:600-610 | True if and only if every process is complete |
| Simulators.Simulator.CalculateMetrics | internal/simulator/simulator.go:680-697 | The integer totals: turnaround and response over completed processes, waiting over all; when all are complete they are the totals the optimality theorems bound |
| Simulators.Simulator.AddProcess | internal/simulator/simulator.go:83-95 | At any time a copy joins the list at one place, the list stays sorted by arrival time, and queues, CPU, logs and counters keep meaning what they meant |
| Invariants.InvInserted | internal/simulator/simulator.go:83-95 | Adding a fresh process at any place and at any time keeps the partition invariant, so that ticks may go on |
| Simulators.Simulator.Reset | internal/simulator/simulator.go:224-259 | Every process, queue, log and counter, the level map and the lottery's source go back to their state before the first tick |
| Schedulers.Process.Execute | internal/process/process.go:127-154 | The record after executing: response fixed at first execution, virtual runtime moved, totals fixed at completion |
| Schedulers.Process.TryBurst | internal/simulator/simulator.go:539-557 | The loop over bursts fires the first one not yet completed if its CPU time is reached, and no other |
| Schedulers.Process.Clone | internal/process/process.go:96-124 | The copy agrees in every modelled field |
| Schedulers.Process.Restore | internal/simulator/simulator.go:242-258 | One process back to its configuration, bursts able to fire again |
| Schedulers.DeterministicRNG.Intn | internal/scheduler/scheduler.go:475-486 | The value drawn and the state left are those of the word functions |
| Schedulers.Scheduler.Schedule | internal/scheduler/scheduler.go:53-65 | For each of the ten schedulers the scan returns the process the policy picks from the records; nothing only for an empty queue |
| Schedulers.Scheduler.SchedulePriority | internal/scheduler/scheduler.go:254-270 | The scan returns the head-most of the best effective priority, earliest arrival |
| Schedulers.Scheduler.ScheduleMLFQ | internal/scheduler/scheduler.go:367-389 | The scan returns the head-most of the lowest level, arrival and PID, for levels in range |
| Schedulers.Scheduler.ScheduleMLQ | internal/scheduler/scheduler.go:572-592 | The scan by level of the priority, then arrival, then PID, returns the lowest-ranked entry |
| Schedulers.Scheduler.ScheduleLottery | internal/scheduler/scheduler.go:500-528 | The holder of the drawn ticket is returned and the source moves on by one draw |
| Schedulers.Scheduler.PreemptCFS | internal/scheduler/scheduler.go:324-339 | Preempts if and only if another process is more than one granularity step behind in virtual runtime |
| Schedulers.Scheduler.Preempt | internal/scheduler/scheduler.go:139-149 | Each preemption loop answers exactly the policy's condition |
| Schedulers.Scheduler.ComputeEffectivePriority | internal/scheduler/scheduler.go:233-252 | Base priority less the aging boost since last activity, never below zero |
| Schedulers.Scheduler.AddProcess | internal/scheduler/scheduler.go:391-396 | MLFQ enters a new process at level 0 and keeps a known one's level; MLQ enters the level of its priority; no other entry changes |
| Schedulers.Scheduler.OnQuantumExpired | internal/scheduler/scheduler.go:429-437 | MLFQ moves the process down one level, at most to the last; no other entry changes |
| Schedulers.Scheduler.Reset | internal/scheduler/scheduler.go:538-542 | The level map is emptied and the lottery's default source is back at its seed |
| Schedulers.HolderFound | internal/scheduler/scheduler.go:517-527 | Where the lottery's walk stops is the holder of the winning ticket |
| Slices.RemoveInPlace | internal/simulator/simulator.go:444-449 | Moving the tail down in the same array removes the first occurrence only, keeps the order and touches nothing beyond |
| Slices.CompactInPlace | internal/simulator/simulator.go:512-526 | Writing survivors over the array being read keeps exactly the still-blocked ones in order and hands out the others in order |
| Invariants.ArrivingMembers | internal/simulator/simulator.go:418-425 | The arrivals of a tick are exactly the New processes whose time has come, in list order |
| Invariants.ReturningMembers | internal/simulator/simulator.go:511-527 | The countdown splits the I/O queue into those that return and those that stay, without loss or duplicates |
| Invariants.RemoveMembers | internal/simulator/simulator.go:442-449 | Removal takes out exactly the dispatched process |
| Invariants.InvTick | internal/simulator/simulator.go:346-412 | A tick keeps the partition: each process is in exactly one of no queue, ready queue, I/O queue, CPU or terminated, its state says so, queues have no duplicates, records are consistent, burst flags are in list order, levels are in range |
| Invariants.InvRun | internal/simulator/simulator.go:346-412 | Every reachable state of every policy satisfies the partition invariant |
| Runs.OnTrackRun | internal/simulator/simulator.go:346-426 | Runs never change a process's configuration or the policy, and every process is admitted in the tick it arrives |
| Effects.TickSpends | internal/simulator/simulator.go:366-369 | A tick takes one unit of work from the runner, which has some, and none from anyone else |
| Choice.BestIsFirstLowest | internal/scheduler/scheduler.go:53-65 | A strict-comparison scan returns an entry no other beats, the head-most of its rank |
| Choice.RunnerChoice | internal/simulator/simulator.go:357-364 | Who runs: the current process unless preempted, else a lowest-ranked one among all that compete, the preempted one included |
| Dispatches.FcfsServes | internal/scheduler/scheduler.go:53-65 | In every FCFS run, with I/O: the process on the CPU keeps it, and a free CPU goes to the ready process of earliest arrival, the first in queue order of several |
| Dispatches.SjfServes | internal/scheduler/scheduler.go:86-106 | In every SJF run, with staggered arrivals and I/O: the process on the CPU keeps it, and a free CPU goes to the ready process of shortest burst, of those the earliest arrival, of those the first in queue order |
| Dispatches.SrtfPicks | internal/scheduler/scheduler.go:121-135 | Least remaining time, then earliest arrival, then queue order |
| Dispatches.RoundRobinPicks | internal/scheduler/scheduler.go:174-180 | The head of the queue |
| Dispatches.CfsPicks | internal/scheduler/scheduler.go:306-319 | Least virtual runtime, then lowest PID, then queue order |
| Dispatches.MlfqPicks | internal/scheduler/scheduler.go:367-389 | Lowest level entry, a missing one counting as 0, then earliest arrival, then lowest PID |
| Dispatches.MlqPicks | internal/scheduler/scheduler.go:572-592 | Lowest priority number counted within the levels, then earliest arrival, then lowest PID |
| Dispatches.PriorityPicks | internal/scheduler/scheduler.go:254-270 | Nobody in the queue is more urgent than the pick, nor as urgent and earlier, where urgency is priority less whole intervals of inactivity |
| Dispatches.EffectivePriorityIs | internal/scheduler/scheduler.go:233-252 | The effective priority is the configured one without aging; with aging it is lower by exactly the number of whole intervals since arrival or last execution, whichever is later, down to zero |
| Dispatches.PreemptivePriorityServes | internal/scheduler/scheduler.go:254-285 | In every run of preemptive Priority nobody who competes is more urgent than the process that runs |
| Dispatches.LowestPriorityRuns | internal/scheduler/scheduler.go:254-285 | There, if neither has been inactive for a whole interval or there is no aging, the process that runs has a configured priority no higher than its competitor's, or one that aging already counts as zero |
| Dispatches.NonPreemptivePriorityServes | internal/scheduler/scheduler.go:254-285 | In every run of non-preemptive Priority nobody loses the CPU, and a free one goes to a most urgent ready process, of those the earliest arrival, of those the first in queue order |
| Dispatches.CfsPreemptsIff | internal/scheduler/scheduler.go:324-339 | In every CFS run a decision preempts if and only if somebody with another PID has weighted CPU time behind the current process's by more than its weighted tick, weighted CPU time being executed ticks times `0x10_0000 / weight` |
| Makespan.WorkConservedRun | internal/simulator/simulator.go:366-404 | For every policy, with I/O: executed CPU time is clock time less idle time |
| Makespan.IdleFollowsWorkload | internal/simulator/simulator.go:346-402 | Without I/O: idle ticks, the idle counter and completion follow one recurrence on arrivals and bursts alone |
| Makespan.MakespanIndependentOfPolicy | internal/simulator/simulator.go:346-402 | Without I/O any two policies are idle in the same ticks, with the same idle total, and are complete at the same clock times |
| Termination.OutlookFalls | internal/simulator/simulator.go:346-402 | Time to last arrival, CPU work and outstanding I/O together fall in every tick until all is complete |
| Termination.AllFinishByDeadline | internal/simulator/simulator.go:346-402 | Under every policy all processes are complete from last arrival + bursts + sum of (I/O duration - 1) on |
| Quanta.QuantumRun | internal/simulator/simulator.go:377-397 | At every tick boundary of every run the current dispatch has used less than its quantum |
| QuantumLengths.TickOfDispatch | internal/simulator/simulator.go:377-397 | A tick of a dispatch that leaves its process alive and unblocked ends in a quantum expiry if and only if it is the last one granted; otherwise the process stays on the CPU |
| QuantumLengths.QuantumIsExact | internal/simulator/simulator.go:377-397 | In every run an undisturbed dispatch has the CPU in each of its granted ticks and expires in the last and only there: 2, 4 or 8 under MLFQ by level entry, the configured quantum under RR, Lottery and MLQ, 1 under CFS |
| QuantumLengths.AlwaysGranted | internal/scheduler/scheduler.go:417-427 | Every dispatch of a policy with a quantum is granted one of these, so MLFQ entries are never others than 0, 1 and 2 |
| Dominance.ServiceKeepsDomination | internal/scheduler/scheduler.go:121-135 | Serving a shortest job keeps the tail sums of remaining work below those of any other service |
| ShortestFirst.EngineIsRival | internal/simulator/simulator.go:346-412 | Without I/O each run of each policy is one of the schedules compared against, with the completion times it records |
| ShortestFirst.FewestUnfinished | internal/simulator/simulator.go:346-412 | A run that always serves a shortest job has, at every tick, the fewest arrived unfinished processes of all schedules |
| ShortestFirst.ElapsedGrows | internal/process/process.go:147-153 | Total time in the system grows by the number of arrived unfinished processes each tick |
| ShortestFirst.ShortestIsOptimal | internal/simulator/simulator.go:680-693 | When any schedule has finished, such a run has too, and its recorded turnaround and waiting totals are no larger |
| SrtfOptimality.SrtfRunsShortest | internal/scheduler/scheduler.go:121-150 | The process SRTF runs has the least remaining time of all that compete, preemption included |
| SrtfOptimality.SrtfFewestUnfinished | internal/scheduler/scheduler.go:121-150 | At every tick no schedule that runs at most one arrived process per tick has fewer unfinished processes than SRTF |
| SrtfOptimality.SrtfOptimal | internal/scheduler/scheduler.go:121-150 | SRTF's recorded total turnaround and total waiting are least among all schedules |
| SrtfOptimality.SrtfOptimalAmongPolicies | docs/ALGORITHMS.md:81-82 | In particular least among the simulator's own policies |
| SjfOptimality.SjfOptimal | internal/scheduler/scheduler.go:86-106 | For simultaneous arrivals non-preemptive SJF is least among all schedules, even preemptive ones |
| FcfsClosedForm.FcfsMatchesClosedForm | internal/scheduler/scheduler.go:53-65 | Process `k` of the sorted list is complete exactly from `C_k = max(C_(k-1), A_k) + B_k` on; start, completion, turnaround, response and waiting are the closed form's |
| RoundRobinWaiting.TickAdvances | internal/scheduler/scheduler.go:174-190 | Index times quantum plus the current process's unused quantum falls each tick a queued process does not run |
| RoundRobinWaiting.RoundRobinBoundedWait | internal/scheduler/scheduler.go:174-190 | A process in the ready queue at a decision executes within `(n-1) * quantum` ticks, I/O included |
| PriorityAging.EffectivePriorityImproves | internal/scheduler/scheduler.go:233-252 | While a process waits its effective priority never gets worse |
| PriorityAging.AgedOut | internal/scheduler/scheduler.go:233-252 | After its aging time its effective priority is the best possible |
| PriorityAging.DispatchAfterAging | internal/scheduler/scheduler.go:254-285 | While an aged process waits, every other dispatch goes to a process that arrived no later |
| PriorityAging.AgingPreventsStarvation | internal/scheduler/scheduler.go:233-285 | With aging, preemptive or not, a waiting process executes within its aging time, the bursts of earlier arrivals and one longest burst |
| CfsFairness.VruntimeMeasuresService | internal/process/process.go:145 | Virtual runtime is executed ticks times `VRuntimeScale/Weight`, in every run of every policy |
| CfsFairness.VruntimeInNumbers | internal/process/process.go:145 | In every run the virtual runtime is the ticks executed times `0x10_0000 / weight`, the configured weight |
| CfsFairness.CfsFair | internal/scheduler/scheduler.go:306-341 | Two unfinished I/O-free processes that arrived together differ by at most one step of virtual runtime at every boundary |
| CfsFairness.EqualWeightsShareEqually | internal/scheduler/scheduler.go:306-341 | With equal weights up to the scale their executed ticks differ by at most one |
| CfsFairness.HeavyWeightsShareUnequally | internal/process/process.go:145 | For every weight above the scale two equal processes are two ticks apart after two ticks |
| CfsFairness.EqualSharesIffWithinScale | internal/process/process.go:145 | Equal weights share equally in every run if and only if the weight is at most the scale |
| Levels.MlfqLevelCountsExpiries | internal/scheduler/scheduler.go:391-437 | A live process's MLFQ level is its number of quantum expiries, at most 2 |
| Levels.MlfqLevelNeverFalls | internal/scheduler/scheduler.go:391-437 | A live process never moves back to a higher-priority level |
| Levels.MlqLevelIsFixed | internal/scheduler/scheduler.go:594-635 | Under MLQ the map entry of a live process is always the level of its priority |
| Levels.MlqLevelIsPriority | internal/scheduler/scheduler.go:594-635 | In every MLQ run the entry of a live process is its configured priority if that is in range, 0 if it is below, the last level if above |
| Levels.LowestLevelServed | internal/simulator/simulator.go:358-364 | Under MLFQ and MLQ every executed tick goes to a process of minimal level among ready and current |
| Levels.MlqLowestPriorityServed | internal/scheduler/scheduler.go:572-635 | In every MLQ run no competitor has a lower configured priority than the process that runs, save where both count as level 0 or both as the last |
| MlfqResponse.MlfqRespondsInTime | internal/scheduler/scheduler.go:367-437 | Without I/O every process first runs within `2 * (n-1)` ticks of its arrival |
| LotteryFairness.DrawSelectsBlock | internal/scheduler/scheduler.go:517-527 | A draw selects a process if and only if it falls in the process's block of tickets, so the fallback is never needed |
| LotteryFairness.LotteryIsProportional | internal/scheduler/scheduler.go:500-528 | Of all possible draws each process wins exactly as many as it has tickets |
| RandomWords.NextWordIsBijective | internal/scheduler/scheduler.go:479-484 | The xorshift64 step is a bijection on 64-bit words |
| RandomWords.KnownSteps | internal/scheduler/scheduler.go:479-484 | Two steps of the generator by number; another order of its shifts gives other words |
| RandomWords.NeverSticks | internal/scheduler/scheduler.go:468-486 | A seeded source never reaches zero, after any number of draws |
| Accounting.TimeIsAccounted | internal/simulator/simulator.go:404-411 | In every run of every policy, time since arrival is executed + waited + blocked ticks less the drift; without a quantum the drift is zero |
| WaitingCounter.ExactIffQuantumFree | internal/simulator/simulator.go:377-411 | For every policy as the simulator builds it and every seed, the waiting counter is exact in all runs if and only if the policy grants no quantum |
| WaitingCounter.QuantumMiscounts | internal/simulator/simulator.go:382-411 | For every RR, lottery and MLQ quantum, for CFS and MLFQ, from every seed: a workload and a tick after which the counter is wrong |
| LotteryCounter.LotteryDrifts | internal/scheduler/scheduler.go:475-528 | From every seed of the built-in source and for every quantum, two or three processes of which one loses the CPU to its quantum while the draw takes another |
| WaitingCounter.LastTicketStaysExact | internal/scheduler/scheduler.go:500-528 | With an injected source that draws the last ticket the counter is exact in every run despite the quantum |
| Accounting.TickChargesOneIff | internal/simulator/simulator.go:382-411 | A tick charges an arrived unfinished process one tick if and only if no quantum expires in it, or the process is both the one expired and the one the scheduler picks from the requeued queue, or neither |
| Accounting.WaitingExactIffNoDrift | internal/simulator/simulator.go:382-411 | The waiting counter is exact for an unfinished process if and only if its expiries and same-tick dispatches balance |
| Accounting.RoundRobinDrifts | internal/simulator/simulator.go:382-411 | Two processes under round robin with quantum 1 after one tick: one is charged for a tick it ran, the other not for a tick it waited |
| Accounting.WaitingWithoutIO | internal/process/process.go:147-153 | Without quantum and I/O: elapsed = executed + waited at each boundary; at completion response <= waiting = turnaround - burst |
| Accounting.CompletionOverwrite | internal/process/process.go:147-153 | In the tick of any run that completes a process, the overwrite adds the ticks its fired bursts blocked it and takes away its drift |
| Accounting.OverwriteChangesNothingIff | internal/process/process.go:147-153 | Without a quantum the overwrite changes nothing if and only if every fired burst had duration one; in particular without I/O |
| Bursts.BurstTick | internal/simulator/simulator.go:532-558 | A tick fires at most one burst of a process, the next in its list, exactly when it executes, is left unfinished and has executed the burst's CPU time; it is then blocked for that burst's duration |
| Bursts.BurstsFireInOrder | internal/simulator/simulator.go:532-558 | In every run the number of fired bursts never falls and grows by at most one a tick, the fired ones are the first of the list, and there are as many `io_start` events of the process |
| Bursts.BurstEndsOnTime | internal/simulator/simulator.go:511-527 | Under any policy, a burst of configured duration `d` that fires in tick `t` keeps its process off the CPU, and the decision of tick `t + d` finds it in the ready queue |
| GanttChart.GanttEncodesTrace | internal/simulator/simulator.go:561-578 | The chart tiles `[0, currentTime)` by who ran when, without gap or overlap, neighbours differing |
| GanttChart.EncodingIsUnique | internal/simulator/simulator.go:561-578 | No other chart encodes the same trace |
| GanttChart.GanttAccountsForTime | internal/simulator/simulator.go:398-404 | Idle slices sum to `totalIdleTime`, each PID's slices to its executed time, and the clock to both together |
| GanttChart.UtilisationInRange | internal/simulator/simulator.go:714-717 | CPU utilisation lies between 0 and 100 percent in every run |
| EventLog.LogWellFormed | internal/simulator/simulator.go:346-557 | Each process's log is a prefix of arrival ((start or resume)(preempt, quantum_expire or io_start io_complete))* (start or resume) complete, without resume before start or start after a sign of execution, that ends where the process is; times never decrease; switches = preempt + quantum_expire events |
| EventLog.NoStartAfterResume | internal/simulator/simulator.go:456-465 | No run announces the start of a process it has resumed |
| Draws.SameLogIff | internal/scheduler/scheduler.go:500-528 | Two runs that differ in the source's word only have equal logs if and only if every draw selects the same process, and then agree in everything but the word |
| Draws.StreamRun | internal/scheduler/scheduler.go:500-528 | A source that draws alike from both words, out-of-range draws counted as the nearest in range, makes every draw of the run select alike |
| Sources.AlwaysSameLogIff | internal/scheduler/scheduler.go:500-528 | Every workload logs the same from two words of a source if and only if the source draws alike from both after all sequences of positive bounds |
| Sources.StartsOverIff | internal/scheduler/scheduler.go:538-542 | Every workload logs the same however often the source was drawn from before, if and only if the source goes on after any draws as it began |
| Sources.StartsOverReplays | internal/scheduler/scheduler.go:538-542 | Such a source replays every workload after every Reset |
| Replay.ReplayRepeatsIff | internal/scheduler/scheduler.go:538-542 | After Reset, any policy and any source repeat the log if and only if the draws from the source's word select the same processes, and then everything but that word |
| Replay.SameStreamReplays | internal/scheduler/scheduler.go:538-542 | A source that has moved but draws alike replays the run |
| Replay.ConstantSourceReplays | internal/scheduler/scheduler.go:538-542 | A source that moves with every draw and draws the first ticket always replays every run |
| Replay.InjectedSourceReplaysDifferently | internal/scheduler/scheduler.go:538-542 | A counting source and two processes whose log after Reset differs |
| Replay.RunAfterResetRepeats | internal/simulator/simulator.go:224-259 | `m` ticks after Reset reproduce the first `m` ticks exactly |
| Lifecycle.GuardedSafe | internal/simulator/simulator.go:112-343 | The protocol invariant holds in every state of every interleaving whose `Start` calls meet the guard; every other call is free |
| Lifecycle.AtMostOneTicks | internal/simulator/simulator.go:278-343 | At most one goroutine can ever tick |
| Lifecycle.StartKeepsOneIff | internal/simulator/simulator.go:112-123 | A call of `Start` keeps it at one goroutine if and only if the simulator is Running or no goroutine is left that can touch the protocol |
| Lifecycle.StartWhilePausedDoubles | internal/simulator/simulator.go:112-123 | A reachable paused state from which `Start` leaves two goroutines in `run` |
| Lifecycle.StartAfterStepIsAllowed | internal/simulator/simulator.go:163-167 | A reachable paused state, after a `Step`, in which `Start` meets the guard |
| Lifecycle.StepTicksAloneIff | internal/simulator/simulator.go:152-171 | A `Step` that goes ahead never ticks beside a goroutine about to tick, if and only if none is about to when it is called |
| Lifecycle.StepBesideDueTick | internal/simulator/simulator.go:311-330 | A reachable paused state with a goroutine about to tick |
| Lifecycle.StopKeepsItsToken | internal/simulator/simulator.go:183-193 | While a `Stop` that sent its token waits for a goroutine not already returning, the token is in the channel |
| Lifecycle.StopReturnsIff | internal/simulator/simulator.go:183-203 | `Stop`, and `Reset` through it, can return, from the call and from every state inside the wait, if and only if it was not called on a completed simulation with a goroutine waiting for a token and none in the channel |
| Lifecycle.StopAfterStepIff | internal/simulator/simulator.go:170-178 | After a `Step`, `Stop` can return if and only if the step did not complete the simulation beside such a goroutine |
| Lifecycle.StepToCompletionHangsStop | internal/simulator/simulator.go:152-203 | Start, pause, park, step to completion, stop: reachable, and then no step of anybody is possible |
| Lifecycle.KeepsRunningIff | internal/simulator/simulator.go:278-343 | Left to itself a Running simulator has a goroutine until it completes, if and only if it has one now and no stop token that it can still take |
| Lifecycle.StartKeepsRunningIff | internal/simulator/simulator.go:112-123 | A `Start` that launches where it is allowed keeps the simulator running if and only if no stop token is left |
| Lifecycle.ResumeKeepsRunningIff | internal/simulator/simulator.go:135-147 | A `Resume` of a paused simulator keeps it running if and only if it has a goroutine and no stop token that this can still take |
| Lifecycle.TickReachableIff | internal/simulator/simulator.go:278-343 | For any number of goroutines in any state: left to themselves those of a Running simulator can come to a tick if and only if one has its ticker and is not on its way out, or one is parked and a token is there or about to be sent, or one that has stopped its ticker can park on one token while another is about to be sent |
| Lifecycle.AloneTicksIff | internal/simulator/simulator.go:278-343 | With a single goroutine: if and only if it has its ticker and is not on its way out, or is parked and a pause token is there |
| Lifecycle.ResumeCanTickIff | internal/simulator/simulator.go:135-147 | After a Resume the goroutine can tick again if and only if it is parked, or has not stopped its ticker and is not on its way out |
| Lifecycle.ResumeSurelyTicksIff | internal/simulator/simulator.go:135-147 | The wake-up cannot be missed, whatever the goroutine does next, if and only if it is parked and no stop token waits, or it has received a ticker event already |
| Lifecycle.WakeUpLost | internal/simulator/simulator.go:135-147 | Reachable: a Resume that returns with the simulator Running, not done, and no tick reachable; then the goroutine parks and no goroutine step is possible |
| Lifecycle.RunningHasRunner | internal/simulator/simulator.go:112-343 | If no launching `Start` and no `Resume` finds a stop token and every `Resume` finds a goroutine, Running always means exactly one goroutine and no stop token |
| Lifecycle.StepThenResumeRunsNobody | internal/simulator/simulator.go:135-167 | Reachable: `Step`, `Resume`, then Running without a goroutine, and `Start` does nothing |
| Lifecycle.StaleTokenEndsStart | internal/simulator/simulator.go:183-193 | Reachable: `Step`, `Stop`, `Start`, then the goroutine takes the old token and Running is left without one |
| Lifecycle.StuckForever | internal/simulator/simulator.go:194-199 | From such a state every interleaving stays in it |
| Lifecycle.AtMostOneLateTick | internal/simulator/simulator.go:126-132 | Goroutines execute at most one tick after a returned `Pause`, or during a `Stop` |
| Lifecycle.ResetLeavesNothingBehind | internal/simulator/simulator.go:208-224 | When `Reset` returns no goroutine is alive and both channels are empty |

## Left out

- Simulators.Simulator.AddProcess: the invariant and the ticks cover processes added to a running simulation; the theorems about whole runs, which start from `Initial`, do not.
- Simulators.Simulator.CalculateMetrics: the integer sums only; the floating-point averages and throughput derived from them are not modelled.
- CfsFairness.EqualWeightsShareEqually: weights above `VRuntimeScale` are excluded because the claim is false there, see CfsFairness.EqualSharesIffWithinScale.
- MlfqResponse.MlfqRespondsInTime: stated for workloads without I/O.
- Makespan.MakespanIndependentOfPolicy: without I/O, because with I/O the policy decides when blocking starts.
- SrtfOptimality.SrtfOptimal: without I/O, and against schedules of single ticks on one CPU.
- SjfOptimality.SjfOptimal: for simultaneous arrivals; with staggered arrivals a non-preemptive scheduler that has started a long process cannot match a schedule that waits for a short one.
- Replay.RunAfterResetRepeats: for the default random source; every source is covered by Replay.ReplayRepeatsIff.
- WaitingCounter.ExactIffQuantumFree: the lottery with its built-in source; for an injected one it depends on the source, and Accounting.TickChargesOneIff holds.
- Sources.AlwaysSameLogIff: for two given words; the word a Reset leaves depends on the workload, for which Replay.ReplayRepeatsIff is exact.
- Lifecycle.AtMostOneTicks: for one sequential controller whose `Start` calls meet the guard, see Lifecycle.StartKeepsOneIff; nothing is said about concurrent controllers.
- Lifecycle.StopReturnsIff: that some interleaving returns, not that a fair scheduler always finds it; a goroutine's `select` may keep choosing the ticker.
- Schedulers.Scheduler.Schedule: the ten Go structs behind the interface are one class with a policy value, and its random source is the default one; injected sources exist in the value model only.
- The queues of the class `Simulator` are sequence fields; that the slice code works inside one backing array is captured by `Slices` separately, on arrays of indices.
- Where `sort.Slice` puts processes with equal arrival times is left open.
- Machine integers: times, weights and virtual runtime are unbounded integers; only the random source is a 64-bit word.
- Division by `Weight` is given a value for weights below one, where the code would panic; such processes are excluded by `Startable`.
- `TimeQuantum`, `lastGanttUpdate`, names, colours, descriptions and the `State` recorded in events are not read by scheduling and not modelled.
- `SetNice` and `niceToWeight` use floating point; weights are given.
- Speed, tickers and wall-clock time: in `Lifecycle` a ticker that has not been stopped may fire at any moment.
- Update callbacks, snapshots and locking inside a tick; the critical sections of the control calls are single steps in `Lifecycle`.
- The web server, the API, the store, metrics export, configuration and logging.

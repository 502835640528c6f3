# A verified model of the Lunar scheduler

Lunar is a sched_ext scheduler: four strict tiers (LC, INTERACTIVE, NORMAL, GREEDY), one FIFO queue per tier and cpu, a
classifier that puts every task into a tier, placement on the enqueue side, stealing across cpus on the dispatch side, and
starvation overrides that keep the lower tiers alive. It ships with an arena queued spinlock and with cmask bitmaps. This
project models the four and proves what they are for.

**The scheduler** is a transition system (`Machine`): tier queues and local queues, per-cpu and per-task contexts, who
runs where, the clock. Events are the callbacks and what the kernel does in between (`Machine.Event`).
`Machine.GoodChoice` says declaratively which decisions dispatch may come to; `LunarImpl.Lunar` is the code itself, a
class whose methods update the fields and scan the cpus from a random start, each method proved to carry out the
machine's step. On the machine: `Invariant` and `Preservation` (what every event keeps, over every run), `Dispatching`
(strict tiers, work conservation), `StarvationView`, `Starvation` and `OverrideRuns` (starvation overrides over whole
runs), `OverrideLaws` (an override goes on until its budget is spent), `QueueOrder` (the order of arrival in a tier
queue), `BoostRuns` (cpu time and wake boosts over whole runs), `TierRuns` (classification over whole runs),
`Placement`, `LoadLaws` and `PlacementRuns` (where tasks go, and how often), `RtRuns`, `RunningRuns` and `KickRuns`
(what a cpu's context says about RT tasks, about our own and about kicks), `SliceRuns` (what a preempted task gets
back), `EventLaws` (wakeups, stops and sleeps). `RtWitness` and `BoostWitness` are runs from init that show two
properties to fail. `Accounting` and `Classifier` hold the arithmetic of one task, and `TaskLaws` says what the numbers
mean: which tier a duty and a criticality earn, and which rates of wakeups and lengths of runs and sleeps make them.
`RtCounter` is the one place where a callback is not atomic: the flag and the counter of RT-busy cpus.

The functions of `Machine` are close to the code, and the methods are proved against them. What they should do is said by
laws that do not mention them: on the state before and after an event (`Machine.Next`), on sets of tasks and their places, or
over whole runs.

Whole-run theorems go through a *view*: what one cpu (or one task) shows of a state, and what one event does to it. The
theorem is proved on sequences of views (`StarvationView`, the first half of `BoostRuns`), and every event of the machine is
proved to be a step of views.

**The spinlock** (`SpinLock`) is an interleaved protocol: every access to shared memory of every context is a step, any
number of cpus take steps in any order, and on one cpu up to four contexts nest. Owner, pending owner, queue order and the
order of landings are history; the invariant ties them to the lock word, the nodes and the program counters. `SpinLocks` runs
any number of locks at once, whose words and queues are their own while the nodes of a cpu serve them all; the safety
theorems are about its runs. `SpinDeadlock` says, for one lock, exactly when it gets stuck. `LockWord` ties the record that
the protocol uses as lock word to the 32 bits of the code.

**The cmasks** (`Words64`, `CmaskWords`, `CmaskImpl`, `CmaskScan`, `CmaskDistribute`, `CmaskCas`): arrays of 64-bit words
over a range of cids that need not start at a word boundary. The words are bit-vectors and the loops work on them with the
code's own shifts, masks, `ctzll` and population count; the abstraction of a word is `Bits.Ones`, the set of the positions of
its ones. `Bits` proves that the operations on bits are the set operations and that the table form of `ctzll` is the
minimum, `CmaskWords` is the arithmetic of words as sets, and the contracts of the methods speak of sets of cids.

`dafny verify dfyconfig.toml` checks everything.

## What turned out different from the documentation

- New user tasks start in GREEDY and stay there until they have three sleep samples (source/lunar.bpf.c:62-65, 197); kernel
  threads start in INTERACTIVE. The duty caps are strict (source/lunar.bpf.c:33-38).
- Tiers are not strict without exception: a cpu with nothing of its own takes even a GREEDY task from an RT-taken cpu before
  it looks for better tasks elsewhere (source/dispatches.h:335 comes before 342-347). `RtWitness.StrictnessCanFail` is a run
  from init in which a GREEDY task goes ahead of a waiting INTERACTIVE one, `Dispatching.StrictWithoutOwnWork` says exactly
  when it happens.
- A pending preemption kick keeps a boost beyond its budget (source/lunar.bpf.c:328, 404-410). `BoostWitness.BoostCanOverrun`
  is a run from init in which it does; `BoostRuns.BoostIsBounded` says exactly when: some dispatch or stop, before the last,
  has charged the task past the 4 ms with a kick pending. A kick before the 4 ms are used up does no harm.
- A preempted task does not go back with the rest of its slice (source/lunar.bpf.c:262-264, 402-405), but with more of it:
  dispatch, which comes before the stop, starts the count of the time used anew (source/lunar.bpf.c:331). It is the rest
  exactly when no dispatch has accounted for the task since the slice began (`SliceRuns.RestIsExact`); after the dispatch
  that replaces it, the whole slice comes back (`SliceRuns.WholeSliceComesBack`).
- The cap of 40 on the criticality score never bites: 32 is the most it can be (`Accounting.CritAtMost32`).
- The spinlock accepts CONFIG_NR_CPUS up to 16384, but the tail code of cpu 16383 does not come back, and for node 0 it is
  the code of an empty queue (`LockWord.TailRoundTrip`, `LockWord.LastCpuCanVanish`).
- Between the flag write and the counter update of the sched_switch hook the early exit can miss an RT-busy cpu
  (`RtCounter.MidUpdateCanBeOff`). It does so exactly when some raised flag is still without its increment and no other
  increment has landed (`RtCounter.EarlyExitMisses`).

## A condition of use

The lock is not for contexts that interrupt one another on a cpu while one of them holds, pends for or queues for the same
lock; `arena_spin_lock_irqsave` (include/bpf_arena_spin_lock.h:533) is there to prevent it. `SpinDeadlock` says what the
condition is worth: a holder, pending owner or queued waiter never runs again if and only if a context above it on its cpu is
in the code of the same lock (`SpinDeadlock.StuckIffInterrupted`), that can happen from the start
(`SpinDeadlock.DeadlockHappens`), and as long as it does not, somebody can always move (`SpinDeadlock.NoDeadlock`).

## Model

| member | source | states |
|---|---|---|
| `Defs.DsqIdsNeverCollide` | source/helpers.h:13-25 | two tier queues have the same id exactly when tier and cpu are the same, for all cpus below MAX_CPUS; cpu 512 would collide |
| `Accounting.TaskDutyRange` | source/helpers.h:112-115 | duty is in 0..1023 for all accumulators, and the shift by ten fits 64 bits for accumulators within the window |
| `Accounting.DutyAccountKeepsWindow` | source/helpers.h:117-132 | the two accumulators together stay within 80..200 ms, whatever is accounted |
| `Accounting.HalvingKeepsDuty` | source/helpers.h:127-131 | halving both accumulators never raises the duty and lowers it by at most one |
| `Accounting.EwmaKeepsRange` | source/helpers.h:138-141 | averages of samples in 10 us..1 s stay in 10 us..1 s |
| `Accounting.EwmaStep` | source/helpers.h:138-141 | towards a constant sample the average moves strictly closer without leaving its side of the sample's bucket of four; it rests exactly inside the bucket |
| `Accounting.EwmaConverges` | source/helpers.h:138-141 | after as many steps as the distance the average is in the bucket for good, and it never overshot |
| `Accounting.FloorLog2Brackets` | source/helpers.h:143-146 | the reference logarithm is the exact floor: 2^n <= v < 2^(n+1) |
| `Accounting.CascadeStep` | include/scx/common.bpf.h:869-872 | one rung of the shift cascade takes off exactly what it adds to the logarithm |
| `Accounting.Log2U32` | include/scx/common.bpf.h:864-875 | the shift cascade is the floor logarithm of every 32-bit value |
| `Accounting.ILog2` | source/helpers.h:143-146 | the floor logarithm of every 64-bit value, 0 for 0 |
| `Accounting.CritAtMost32` | source/helpers.h:168-174 | the score is at most 32, whatever the averages and times, so the cap of 40 never applies |
| `Accounting.CritNeverRisesWithoutEvents` | source/helpers.h:162-174 | as time passes without wakeups the score never rises |
| `Classifier.ClassifyKeepsTaskOk` | source/lunar.bpf.c:56-80 | classification keeps the tier in 1..4 and every other bound of a task's context |
| `Classifier.ReclassifyIsClamp` | source/lunar.bpf.c:68-75 | hysteresis is a clamp: the band between optimistic and pessimistic target is never empty, the new tier is the closest tier of the band to the old one, and classifying again changes nothing |
| `Classifier.ReversalCosts21` | source/lunar.bpf.c:68-75 | turning from promotion to demotion or back takes a duty at least 21 away from the one of the last move |
| `Classifier.ReversalsAreRare` | source/lunar.bpf.c:56-76 | along any history of tiers and duties with a fixed criticality, in which the task each time stays or is classified anew, 21 times the number of reversals is at most the total variation of the duty |
| `Classifier.ReversalsBoundIsTight` | source/defines.h:42-46 | for every n there is a history with n reversals and a total variation of exactly 21 n |
| `TaskLaws.DutyGrowsWithRun` | source/helpers.h:112-115 | of two tasks that slept the same, the one that ran more has no lower duty |
| `TaskLaws.DutyFallsWithSleep` | source/helpers.h:112-115 | of two tasks that ran the same, the one that slept more has no higher duty |
| `TaskLaws.RunningRaisesDuty` | source/helpers.h:117-132 | accounting a run never lowers the duty, but for the one point that halving may cost |
| `TaskLaws.SleepingLowersDuty` | source/helpers.h:117-132 | accounting a sleep never raises the duty |
| `TaskLaws.RateReaches` | source/helpers.h:162-171 | while events come, a task has a rate of a or more exactly when its average interval fits 2^a times in a second |
| `TaskLaws.SilentRate` | source/helpers.h:162-171 | once the time since the last event exceeds eight times the average, that time takes the place of the average, so the rate ages away |
| `TaskLaws.SilenceCosts3` | source/helpers.h:162-166 | falling silent costs at least three points of the rate at once, or all of it |
| `TaskLaws.CritReaches` | source/helpers.h:168-174 | for a task that is not silent, the score reaches k exactly when its wakeups come 2^a times a second and its waking of others 2^(k-a) times, for some a |
| `TaskLaws.TierEarned` | source/lunar.bpf.c:21-75 | a sampled user task comes out at tier t or better exactly when its criticality reaches the edge of t and its duty is more than the hysteresis below the cap of t, or it was there already and the duty is less than the hysteresis above |
| `TaskLaws.EarnedFromAnywhere` | source/lunar.bpf.c:21-75 | it comes out at t or better from every old tier exactly in the first of these cases |
| `TaskLaws.CritNeverHurts` | source/lunar.bpf.c:21-75 | a higher criticality never gives a worse tier, nor a higher duty a better one |
| `TaskLaws.ClassifiedTier` | source/lunar.bpf.c:56-80 | without its samples a user task is GREEDY; with them it gets the tier it earns or may keep; a kernel thread the same, but no worse than INTERACTIVE while its duty is below the cap of INTERACTIVE |
| `TierRuns.EveryEventKeepsTier` | source/lunar.bpf.c:188-492 | every event leaves the tier of a sampled user task as it is, or classifies it by the duty and the criticality it then has; without its samples a task keeps its tier or is GREEDY; samples never get fewer |
| `TierRuns.TiersRarelyReverse` | source/lunar.bpf.c:56-76 | over any stretch of a run of the scheduler in which a user task has its samples and a steady criticality, 21 times the reversals of its tier is at most the total variation of its duty |
| `TierRuns.NewTasksAreGreedy` | source/lunar.bpf.c:62-65 | in every state of every run a user task that has slept fewer than three times is in GREEDY |
| `EventLaws.WakeupsAreCounted` | source/lunar.bpf.c:123-138 | a wakeup moves the woken task's average strictly towards the time since it was last woken, and that of the task that wakes it towards the time since it last woke anybody, unless they are in the sample's bucket already; no other task changes, and without a wakeup no average does |
| `EventLaws.RestOfSlice` | source/lunar.bpf.c:402-405 | a stopped task takes a rest of its slice with it exactly when a kick stopped it and more than 50 us are left; the rest is what was granted less the time since the task was last accounted for |
| `EventLaws.BoostSurvives` | source/lunar.bpf.c:324-410 | a boost outlasts a dispatch that keeps its task exactly while the 4 ms are not used up, any other dispatch then or with a kick pending, and a stop if the task takes a rest of its slice along or is runnable with budget left; it never changes in another way |
| `SliceRuns.RestIsExact` | source/lunar.bpf.c:262-276 | over every run: a task stopped by a kick takes along at least what it has not run of its slice, and exactly that if and only if no dispatch has accounted for it, at a later time than the slice began |
| `SliceRuns.WholeSliceComesBack` | source/lunar.bpf.c:331-405 | after a dispatch that takes another task, a stop by a kick at the same time gives the whole slice back, however much of it was run |
| `KickRuns.KickIsPending` | source/lunar.bpf.c:302-412 | in every state of every run: a kick is pending on a cpu exactly when an LC wakeup has sent one since one of our tasks last started, stopped or went on there |
| `EventLaws.SleepEndsBoost` | source/lunar.bpf.c:421-430 | a task that leaves the queues has no boost and no rest of a slice, and its sleep counts from then on; no other task changes |
| `EventLaws.CpuTimeCounts` | source/lunar.bpf.c:315-397 | the time since the last accounting is counted as run, in full up to 100 ms, and both sums are halved when they exceed 200 ms; a dispatch starts the count anew |
| `EventLaws.SleepCounts` | source/lunar.bpf.c:447-451 | the time asleep is counted as slept in the same way |
| `EventLaws.CpuTimeRaisesDuty` | source/lunar.bpf.c:315-397 | what a dispatch or a stop accounts never lowers the task's duty, but for the point that halving may cost |
| `EventLaws.SleepLowersDuty` | source/lunar.bpf.c:447-458 | the sleep that ends with a wakeup never raises the duty, and counts as a sample |
| `EventLaws.Newcomers` | source/lunar.bpf.c:188-225 | a new user task is in GREEDY without a sample; a new kernel thread is in INTERACTIVE with its samples, and whenever it is classified before it has run it comes out no worse |
| `Invariant.InitialInv` | source/lunar.bpf.c:142-186 | the state after init satisfies the invariant, for every topology |
| `Invariant.NewTaskOk` | source/lunar.bpf.c:188-225 | a new task, user or kernel thread, has a context within all bounds |
| `Invariant.BoostLiftsToWaker` | source/lunar.bpf.c:98-121 | a wake boost lifts the effective tier to the better of the task's and its waker's, resets the boost's use when it does, and touches nothing else; no waker, the task itself and kernel threads lift nobody |
| `Invariant.BoostedOk` | source/lunar.bpf.c:98-121 | a wake boost keeps boosts in {1,2,3,5} and all other bounds of the context |
| `Invariant.GoodChoiceCanTake` | source/dispatches.h:266-364 | every decision that takes a task names a queue with a task that may run on the cpu |
| `Preservation.NextKeepsInv` | source/lunar.bpf.c:188-492 | every event keeps the invariant: each waiting task is in exactly one queue, once, that of its effective tier, on an online cpu it may use; tiers in 1..4, boosts in {1,2,3,5}; duties, averages and scores within bounds; time stamps in the past; overrides within budget and for tiers 2..4 |
| `Preservation.RunsKeepInv` | source/lunar.bpf.c:142-492 | the invariant holds in every state of every run from init |
| `Preservation.EnqueueKeepsInv` | source/lunar.bpf.c:248-307 | enqueue keeps the invariant, with boosting, resuming, placement and kick |
| `Preservation.DispatchKeepsInv` | source/lunar.bpf.c:309-357 | dispatch keeps the invariant, for every decision it may come to |
| `Preservation.StoppingKeepsInv` | source/lunar.bpf.c:380-414 | stopping keeps the invariant |
| `Preservation.QuiescentKeepsInv` | source/lunar.bpf.c:421-430 | leaving the queues keeps the invariant, wherever the task was |
| `Preservation.RunnableKeepsInv` | source/lunar.bpf.c:432-459 | a wakeup's accounting, for the task and its waker, keeps the invariant |
| `Preservation.SchedSwitchKeepsInv` | source/lunar.bpf.c:468-492 | an RT task taking a cpu, and the local queue going back through enqueue, keeps the invariant |
| `Preservation.PickAllowed` | source/dispatches.h:46-113 | placement only picks cpus that the task may use |
| `Dispatching.VerdictMeaning` | source/dispatches.h:266-364 | dispatch moves at most one task; it returns 1..4 exactly when one task left a queue of that tier, EMPTY exactly when nothing moved and prev is runnable, EMPTY+1 exactly when nothing moved and there is no prev |
| `Dispatching.TakesTheFirst` | source/dispatches.h:250-259 | the task moved is the first of its queue that may run here; the others stay in order, all other queues unchanged |
| `Dispatching.IdleOnlyWithoutWork` | source/dispatches.h:342-363 | work conservation: when dispatch leaves an online cpu idle, no task that waits on any cpu may run on it |
| `Dispatching.VerdictIsDetermined` | source/dispatches.h:119-185 | verdict and phase do not depend on where the random scans start |
| `Dispatching.ServesBestTier` | source/dispatches.h:299-349 | outside an override, when the cpu had own work, or no cpu is RT-busy, or the counter of RT-busy cpus is zero, no better task that it may run waits on an online cpu of its LLC |
| `Dispatching.KeepsBestTier` | source/dispatches.h:299-340 | when prev of tier t keeps the cpu, no better eligible task waits in the LLC and the own queues of tiers up to t are empty |
| `Dispatching.StrictWithoutOwnWork` | source/dispatches.h:321-349 | for a cpu with no work of its own: the tier served is strict if and only if the best tier on RT-taken peers is the best tier on all peers, or none waits on an RT-taken one |
| `Dispatching.NeverWorseThanPrev` | source/dispatches.h:299-340 | only an override takes prev off its cpu for a worse tier |
| `Dispatching.RtFirstPeersLast` | source/dispatches.h:271-340 | outside overrides a cpu takes an own task only when none of that tier waits on an RT-taken peer, and a task of any other peer only when nothing as good waits in its own queues |
| `Dispatching.FetchesBestTier` | source/dispatches.h:342-361 | a task of another LLC is taken only when nothing ran and nothing waits that the cpu may run in its own LLC, and then of the best tier that waits in the others |
| `Dispatching.KeepIff` | source/dispatches.h:266-340 | prev keeps the cpu if and only if no override decides, nothing as good waits in the own queues or on an RT-taken peer, and nothing better on any peer |
| `EventLaws.PrevGoesOn` | source/lunar.bpf.c:334-357 | a dispatch with a runnable prev takes no task of a worse tier than prev then has, but by an override, and never leaves the cpu idle; without one it keeps nobody |
| `QueueOrder.EnqueueJoins` | source/lunar.bpf.c:268-289 | an enqueued task joins one queue: at the end, or at the front and on the cpu it comes back to if it resumes its slice; every other queue is unchanged |
| `QueueOrder.OrderOfArrival` | source/lunar.bpf.c:268-289 | over every run: of two tasks that wait in one tier queue, the one that came last stands behind the other, but before it if it came to resume its slice |
| `QueueOrder.FirstComeFirstServed` | source/dispatches.h:250-259 | over every run: when a dispatch takes a task that has not come to resume, no task that came before it and waits in the same queue may run on that cpu |
| `QueueOrder.FirstIsTaken` | source/dispatches.h:250-259 | no dispatch takes a task from behind one of the same queue that may run on its cpu |
| `RtWitness.StrictnessCanFail` | source/dispatches.h:335-345 | a run from init to a state in which dispatch takes a GREEDY task from an RT-taken cpu while an INTERACTIVE task that the cpu may run waits in its LLC |
| `StarvationView.BypassIsBounded` | source/dispatches.h:210-248 | on views: each override of another tier takes a rival away for good, so an overdue tier sees at most as many as it has rivals |
| `StarvationView.StartsOnlyWhenOverdue` | source/dispatches.h:289-295 | on views: a start is preceded by an uninterrupted wait longer than the budget |
| `StarvationView.StartsAreRationed` | source/dispatches.h:217-220 | on views: starts in any stretch are at most its length over 10 ms, and one |
| `StarvationView.ChargesStayInBudget` | source/helpers.h:99-104 | on views: charges to one override stay below the budget and the last charge |
| `Starvation.EveryEventSteps` | source/lunar.bpf.c:188-492 | every event of the machine, enqueue, resume, local take, steal, dequeue and all others, is a step of a cpu's starvation view |
| `OverrideRuns.BoundedBypass` | source/dispatches.h:278-296 | over every run: from when a tier is overdue until it is served, at most two overrides start on that cpu, none for it, and every look for a starved tier outside the cooldown starts one |
| `OverrideRuns.OverridesAreNeverSpurious` | source/dispatches.h:210-259 | over every run: when an override starts, that queue has been non-empty and unserved, by its cpu and by thieves, for strictly longer than the tier's budget |
| `OverrideRuns.OverridesAreRationed` | source/dispatches.h:217-220 | over every run: starts on a cpu are at least 10 ms apart, and the time granted in any stretch is at most a tenth of it and 1 ms |
| `OverrideRuns.OverrideOvershootIsOneStretch` | source/helpers.h:99-104 | over every run: the time charged to one override is below 1 ms and its last charge |
| `OverrideRuns.WholeRunsQualify` | source/lunar.bpf.c:142-492 | the run theorems apply to every cpu of every run from init |
| `OverrideLaws.OverridesGoOn` | source/dispatches.h:278-287 | over every run: once an override has started for a tier of a cpu, and until tasks of the tier have been accounted 1 ms there, every dispatch on the cpu takes LC if an LC task waits there or on an RT-taken peer, and otherwise the next task of the tier from the cpu's own queue, as long as there is one of the two each time |
| `OverrideLaws.ContinuesIff` | source/dispatches.h:281-287 | a dispatch goes on with an override if and only if some budget is left after its own charge, no LC task waits there or on an RT-taken peer, and the queue of the override's tier is not empty |
| `OverrideLaws.ContinuedWithinBudget` | source/dispatches.h:281-295 | over every run: a dispatch that goes on takes the tier of the last start from the own queue, and since that start tasks of the tier have been accounted less than 1 ms on the cpu |
| `OverrideLaws.OverrideEnds` | source/dispatches.h:281-296 | a dispatch without LC work that does not go on with the override leaves nothing of it, unless it starts another |
| `BoostRuns.EveryEventSteps` | source/lunar.bpf.c:188-492 | every event of the machine is a step of a task's view: charged once per accounting, boosts granted only fresh |
| `BoostRuns.TimeIsChargedOnce` | source/lunar.bpf.c:315-347 | over every run: what the dispatches and the stop charge a task for adds up to the time since it started to run |
| `BoostRuns.BoostIsBounded` | source/lunar.bpf.c:324-347 | over every run: while a boost lasts its use is the time run since the grant; and that time is below 4 ms and the last stretch if and only if no dispatch or stop before the last has charged the task past the 4 ms with a preemption kick pending |
| `BoostRuns.BoostedTime` | source/lunar.bpf.c:324-347 | on views: the same, for every sequence of charges, grants and kicks |
| `BoostRuns.WholeRunsQualify` | source/lunar.bpf.c:142-492 | the run theorems apply to every task of every run from init, from the state on in which it is known |
| `BoostWitness.BoostCanOverrun` | source/lunar.bpf.c:324-410 | a run from init in which a task is boosted for 5 ms, 1 ms of it the last stretch, because a kick was pending when the 4 ms were used up; every event of it is one a kernel can bring about: wakers run, idle cpus run nothing, tasks stop before they sleep and stay within their slices |
| `BoostRuns.BoostsComeFromWakeups` | source/lunar.bpf.c:234-256 | over every run: a boost that has ended comes back only with a wakeup of the task |
| `Placement.LeastLoadedIsLeast` | source/dispatches.h:89-108 | the scan's result has the least load of all cpus scanned, strictly less than the own cpu's if it is another |
| `Placement.CandidatesComplete` | source/dispatches.h:89-95 | the rotating scan reaches every eligible cpu, wherever it starts |
| `Placement.LatencyTiersGetLeastLoad` | source/dispatches.h:52-113 | LC and INTERACTIVE tasks that find no idle cpu get the least load of all eligible cpus of the LLC, for every random start, also when they are pinned to one cpu |
| `Placement.OtherTiersMoveToImprove` | source/dispatches.h:68-113 | NORMAL and GREEDY tasks move only to strictly less load, at least 10 ms after the last move unless an RT task took their cpu, and then to the best of the samples |
| `Placement.PlacedOnlineAndAllowed` | source/lunar.bpf.c:248-289 | enqueue always leaves the task in a queue of an online cpu it may use |
| `LoadLaws.LoadCounts` | source/dispatches.h:19-44 | the load ahead of a tier is the number of tasks that wait in the local queue or in a queue of that tier or a better one, and one for a running task of such a tier, or else two for an RT task |
| `LoadLaws.LoadIsZero` | source/dispatches.h:19-44 | it is zero exactly when nothing of that tier or a better one runs or waits there, the local queue is empty and no RT task is current |
| `LoadLaws.QueuedAddsOne` | source/dispatches.h:35-41 | one more task in a tier queue adds exactly one to the load of its tier and all worse ones on that cpu, and nothing to any other |
| `LoadLaws.LocalAddsOne` | source/dispatches.h:32-33 | a task put on a cpu directly adds exactly one to every load there, and nothing elsewhere |
| `LoadLaws.WhereItGoes` | source/dispatches.h:46-66 | a task stays on its cpu when nothing there runs before it or it is pinned, and otherwise goes to the idle cpu that the kernel has found |
| `LoadLaws.NotBehindRt` | source/dispatches.h:26-30 | without an idle cpu, no task is moved behind an RT task, to where none of ours runs ahead of it, while fewer than three tasks are ahead of it at a home that is not taken itself |
| `LoadLaws.NotToMoreOfOurs` | source/dispatches.h:97-104 | without an idle cpu, a task leaves a home that no RT task has only for a cpu with strictly fewer of our tasks ahead of it |
| `LoadLaws.DirectIffUnloaded` | source/lunar.bpf.c:239-243 | select_cpu puts a task on the idle cpu directly exactly when nothing there runs before it |
| `LoadLaws.KickIff` | source/lunar.bpf.c:297-306 | a cpu is marked for preemption exactly when an LC task that wakes up, and does not resume a slice, is queued there while a task of a worse tier runs |
| `PlacementRuns.MovesAreRationed` | source/dispatches.h:68-72 | over every run: from any move of a task to its next move for balance alone 10 ms pass |
| `RtRuns.LocalGoesBack` | source/lunar.bpf.c:461-492 | after the switch of a cpu to an RT task its local queue is empty and every task of it is ready to be enqueued; every other task is where it was, and without an RT task all are |
| `RtRuns.ExpelledCanBeEnqueued` | source/lunar.bpf.c:488-489 | such a task can be enqueued on any online cpu it may use |
| `RtRuns.CounterCounts` | source/lunar.bpf.c:476-484 | in every state of every run the counter is the number of cpus flagged as RT-busy |
| `RtRuns.ExitHidesNobody` | source/dispatches.h:154-157 | so with atomic callbacks the early exit on the counter hides no RT-taken peer |
| `RunningRuns.NextKnown` | source/lunar.bpf.c:349-413 | the tier recorded for a cpu is that of the task that starts to run or goes on, EMPTY after a stop, and no other event changes it |
| `RunningRuns.RunningIsKnown` | source/lunar.bpf.c:359-414 | in every run in which the kernel runs our tasks on a cpu one at a time, its record is EMPTY exactly while none of them runs there |
| `LunarImpl.AccountDuty` | source/helpers.h:117-132 | the statements of duty_account compute the specification that the window lemmas are about |
| `LunarImpl.ScoreCrit` | source/helpers.h:168-174 | the score, through the shift cascade, is the one that the bounds are about |
| `LunarImpl.UpdateTaskDsqType` | source/lunar.bpf.c:56-80 | the assignments of update_task_dsq_type are the classification that the hysteresis lemmas and `TaskLaws.ClassifiedTier` are about |
| `LunarImpl.AccountStop` | source/lunar.bpf.c:388-410 | the stopping task's charges, classification, resumed slice and end of boost |
| `LunarImpl.Lunar.constructor` | source/lunar.bpf.c:165-183 | init leaves the machine's initial state |
| `LunarImpl.Lunar.StampTierHead` | source/helpers.h:34-48 | the stamp is written for the three tiers that have one, and nothing else changes |
| `LunarImpl.Lunar.MoveToLocal` | source/dispatches.h:253-253 | the kernel's move: fails exactly when no task of the queue may run here, else moves the first that may |
| `LunarImpl.Lunar.TakeFromLocalTier` | source/dispatches.h:250-259 | succeeds exactly when the own queue has an eligible task; then one move and one stamp, else nothing |
| `LunarImpl.Lunar.TryAcquireFromOtherCpu` | source/dispatches.h:119-147 | for every random start: finds a victim exactly when one exists in (or outside) the LLC; one move and its stamp, else nothing |
| `LunarImpl.Lunar.TryAcquireFromRtCpu` | source/dispatches.h:154-185 | the same for RT-taken cpus of the LLC, with the early exit on the counter |
| `LunarImpl.Lunar.MostStarvedTier` | source/dispatches.h:217-248 | the tier with the largest positive overrun, the better tier on ties, none during the cooldown |
| `LunarImpl.Lunar.Overtake` | source/dispatches.h:311-319 | takes the best tier below the own best that waits on a peer, if any |
| `LunarImpl.Lunar.ServeOwnTiers` | source/dispatches.h:321-340 | serves the best of the tiers up to prev's from RT-taken peers and own queues, or keeps prev |
| `LunarImpl.Lunar.Steal` | source/dispatches.h:342-363 | takes the best tier of the LLC, then the best outside, or finds nothing |
| `LunarImpl.Lunar.ContinueOverride` | source/dispatches.h:281-287 | goes on with an override while some of its budget is left and its tier has a task, else ends it; `OverrideLaws` says what that means over runs |
| `LunarImpl.Lunar.StartOverride` | source/dispatches.h:289-296 | starts an override for the most starved tier if its queue has an eligible task, else changes nothing |
| `LunarImpl.Lunar.DispatchDsqPerCpu` | source/dispatches.h:266-364 | the whole engine comes to a decision that the declarative specification allows, and carries out exactly that one |
| `LunarImpl.Lunar.CpuLoadAhead` | source/dispatches.h:19-44 | the load ahead of a tier that placement minimises; `LoadLaws.LoadCounts` says which tasks it counts |
| `LunarImpl.Lunar.ScanForLeastLoad` | source/dispatches.h:79-108 | the scan with its sample budget and its exit at an empty cpu gives the least loaded of the first candidates |
| `LunarImpl.Lunar.PickEnqueueCpu` | source/dispatches.h:46-113 | the placement that the placement theorems are about, recording migrations and nothing else |
| `LunarImpl.Lunar.ApplyWakeBoost` | source/lunar.bpf.c:98-121 | boosts to the waker's tier exactly when that is better than the task's own tier and boost |
| `LunarImpl.Lunar.InitTask` | source/lunar.bpf.c:188-225 | a new task's context |
| `LunarImpl.Lunar.SelectCpu` | source/lunar.bpf.c:229-246 | the select_cpu event: boost, and direct insertion only on an idle cpu with no load ahead |
| `LunarImpl.Lunar.Runnable` | source/lunar.bpf.c:432-459 | the runnable event, with the waker's average |
| `LunarImpl.Lunar.Enqueue` | source/lunar.bpf.c:248-307 | the enqueue event: boost, resume at the head or placement, stamp of an empty tier, preemption; `QueueOrder` and `LoadLaws` say what it means for order, place and kick |
| `LunarImpl.Lunar.Dispatch` | source/lunar.bpf.c:309-357 | the dispatch event of the machine, for a decision that is enabled there; the invariant is kept |
| `LunarImpl.Lunar.Running` | source/lunar.bpf.c:359-378 | the running event |
| `LunarImpl.Lunar.Stopping` | source/lunar.bpf.c:380-414 | the stopping event |
| `LunarImpl.Lunar.Quiescent` | source/lunar.bpf.c:421-430 | the quiescent event |
| `LunarImpl.Lunar.SchedSwitch` | source/lunar.bpf.c:468-492 | the sched_switch event: flag, counter, and the local queue sent back when an RT task comes in, as `RtRuns.LocalGoesBack` states it |
| `LunarImpl.Lunar.Handle` | source/lunar.bpf.c:494-506 | whatever enabled event comes, its callback takes the object to the machine's next state and keeps the invariant, so the callbacks make runs of the machine |
| `RtCounter.StepKeepsInv` | source/lunar.bpf.c:476-484 | with flag write and counter update as separate steps, the counter is at every step the number of cpus whose increment has landed and was not undone, and no decrement wraps |
| `RtCounter.RunKeepsInv` | source/lunar.bpf.c:476-484 | the same over every interleaving |
| `RtCounter.EarlyExitIsExact` | source/dispatches.h:154-157 | whenever no cpu is mid-update the counter is the number of RT-busy cpus, zero exactly when there is none |
| `RtCounter.EarlyExitMisses` | source/dispatches.h:154-157 | over every interleaving: the counter is zero with a flag up if and only if some raised flag waits for its increment and no increment of any cpu has landed |
| `RtCounter.MidUpdateCanBeOff` | source/lunar.bpf.c:479-481 | mid-update the flag can be up with the counter still zero |
| `SpinLock.NextKeepsInv` | include/bpf_arena_spin_lock.h:242-531 | every memory access of every context keeps the protocol's invariant, whatever other locks use the other nodes of the cpu for |
| `SpinLocks.StartAll` | include/bpf_arena_spin_lock.h:119-119 | the state in which every lock and node is free and nobody is in the code is an initial one, so that there are runs for the theorems to speak of |
| `SpinLocks.NextKeepsAll` | include/bpf_arena_spin_lock.h:119-531 | with any number of locks at once, every access at one of them keeps the invariant of all of them, and every node in use is in use for one context at one lock |
| `SpinLocks.RunsKeepAll` | include/bpf_arena_spin_lock.h:119-531 | these invariants hold in every state of every interleaving |
| `SpinLocks.MutualExclusion` | include/bpf_arena_spin_lock.h:253-322 | in every interleaving and for every lock: at most one context holds it, its locked byte is set exactly while one does, and its pending byte has exactly one owner while it is set |
| `SpinLocks.HandOffIsFifo` | include/bpf_arena_spin_lock.h:379-455 | for every lock: those who took it from the queue are a prefix of those whose tail exchange landed, in that order; the rest is exactly who still waits in the queue |
| `SpinLocks.FirstInFirstServed` | include/bpf_arena_spin_lock.h:437-447 | whoever takes a lock as head of its queue is the first that landed and has not had it |
| `SpinLocks.NobodyIsLost` | include/bpf_arena_spin_lock.h:442-455 | a holder that waits for its successor's link waits for a context that is about to write it, or for one committed to queueing |
| `SpinLock.WhyClaimFails` | include/bpf_arena_spin_lock.h:437-442 | when the uncontended exchange fails the claimer is the head, and somebody is queued behind it or the pending owner has seen the tail and will queue |
| `SpinLocks.FailedClaimHasCompany` | include/bpf_arena_spin_lock.h:437-455 | over every interleaving: a failed exchange means that another context is in the queue or one is giving up the pending byte to queue |
| `SpinLock.CommitmentHolds` | include/bpf_arena_spin_lock.h:286-379 | a committed context stays committed, whoever moves, until it is the last of the queue |
| `SpinLock.Successor` | include/bpf_arena_spin_lock.h:453-455 | the node handed to is that of the next in the queue, which is waiting |
| `SpinLocks.NodesSuffice` | include/bpf_arena_spin_lock.h:119-345 | with four nesting levels the node grabbed always exists, whatever the contexts of the cpu do at other locks, and nobody has it for any lock, so the EBUSY exit is never taken |
| `SpinLocks.NodesAreDisjoint` | include/bpf_arena_spin_lock.h:119-119 | two contexts never use the same node, and no context uses one for two locks |
| `SpinDeadlock.NoDeadlock` | include/bpf_arena_spin_lock.h:253-531 | in every state of every interleaving in which some context is inside: while no holder, pending owner or queued waiter is interrupted by a context inside the lock code, some context can move |
| `SpinDeadlock.StuckIffInterrupted` | include/bpf_arena_spin_lock.h:242-531 | after every interleaving, a holder, pending owner or queued waiter takes no further step in any continuation if and only if a context above it on its cpu is inside the lock code |
| `SpinDeadlock.NextKeepsDeep` | include/bpf_arena_spin_lock.h:242-531 | every access keeps where an interrupting context can be: over a holder anywhere before the lock, over a pending owner on its way as far as the head's wait, over a queued waiter on its way or behind it in the queue |
| `SpinDeadlock.InterruptedForGood` | include/bpf_arena_spin_lock.h:242-531 | a holder, pending owner or queued waiter interrupted on its cpu by a context inside the lock code stays where it is in every later state |
| `SpinDeadlock.DeadlockHappens` | include/bpf_arena_spin_lock.h:242-322 | from every initial state four steps lead to a state in which a holder is interrupted and no context inside can move |
| `SpinLock.OnlyLoopsBlock` | include/bpf_arena_spin_lock.h:313-453 | a context fails to move exactly when it is in one of the four wait loops with its condition unmet |
| `LockWord.TailRoundTrip` | include/bpf_arena_spin_lock.h:121-137 | decoding inverts encoding if and only if the cpu is below 16383 |
| `LockWord.LastCpuCanVanish` | include/bpf_arena_spin_lock.h:506-507 | the code of cpu 16383's first node is 0 |
| `LockWord.PackedFields` | include/bpf_arena_spin_lock.h:75-108 | the tests on the raw 32 bits are the tests on the record, and the tail decodes |
| `LockWord.PackIsInjective` | include/bpf_arena_spin_lock.h:173-173 | words with the same bits are the same record, so compare-exchange on bits is compare-exchange on records |
| `LockWord.PackedExchange` | include/bpf_arena_spin_lock.h:157-175 | the value the tail exchange stores is the record with the tail replaced |
| `LockWord.RunsPack` | include/bpf_arena_spin_lock.h:84-84 | in every run on cpus below 16383 the word of every lock fits the 32-bit layout |
| `Bits.OnesAnd` | include/scx/cid.bpf.h:593-602 | bitwise and is intersection |
| `Bits.OnesOr` | include/scx/cid.bpf.h:593-602 | bitwise or is union |
| `Bits.OnesNot` | include/scx/cid.bpf.h:593-602 | bitwise not is complement |
| `Bits.OnesSingle` | include/scx/cid.bpf.h:21-21 | BIT_U64 is a singleton |
| `Bits.OnesFrom` | include/scx/cid.bpf.h:24-24 | the lower factor of GENMASK_U64 is the positions from l on |
| `Bits.Genmask` | include/scx/cid.bpf.h:24-24 | GENMASK_U64(h, l) is exactly the positions l..h |
| `Bits.OnesBelow` | include/scx/cid.bpf.h:545-550 | (1 << n) - 1 is exactly the positions below n |
| `Bits.OnesAndNot` | include/scx/cid.bpf.h:542-545 | and with the complement is the difference of sets |
| `Bits.OnesMerge` | include/scx/cid.bpf.h:602-602 | the masked store keeps the ones outside of the mask and takes the new ones inside |
| `Bits.OnesUpTo` | include/scx/cid.bpf.h:24-24 | the upper factor of GENMASK_U64 is the positions up to h |
| `Bits.OnesInjective` | include/scx/cid.bpf.h:692-692 | words are equal exactly when their sets are |
| `Bits.CtzIsLowest` | include/scx/common.bpf.h:913-974 | the De Bruijn table form returns the lowest set bit of every 64-bit word, and -1 for zero |
| `Words64.RangeMask` | include/scx/cid.bpf.h:453-463 | the mask built for a word of the loops is the part of the range in that word |
| `Words64.OpWordU64` | include/scx/cid.bpf.h:586-603 | on 64-bit words: each of the four operations under a mask is the set operation inside the mask, and keeps what is outside |
| `Words64.Ctzll` | include/scx/cid.bpf.h:736-736 | the lowest member of a non-empty word |
| `Words64.Popcount` | include/scx/cid.bpf.h:817-817 | the number of ones is the cardinality of the set |
| `Words64.Below` | include/scx/cid.bpf.h:545-550 | the shift-and-subtract masks of cmask_fill |
| `CmaskWords.RangeFitsStorage` | include/scx/cid.bpf.h:36-42 | the storage formula covers a range wherever it starts |
| `CmaskWords.LoopMaskIsRange` | include/scx/cid.bpf.h:453-463 | the masks that the word loops build are exactly the cids of the range in that word |
| `CmaskWords.WindowIsShared` | include/scx/cid.bpf.h:610-611 | the window of an operation is the intersection of the two ranges |
| `CmaskWords.OpMembers` | include/scx/cid.bpf.h:605-640 | word-wise combination under the masks is the set operation inside the window and nothing outside, with clear padding kept |
| `CmaskImpl.Cmask.constructor` | include/scx/cid.bpf.h:64-85 | an empty mask with clear padding |
| `CmaskImpl.Cmask.Reframe` | include/scx/cid.bpf.h:109-124 | refused exactly when the storage is too small; else the padding of the new range is clear |
| `CmaskImpl.Cmask.Test` | include/scx/cid.bpf.h:199-204 | membership, false outside of the range |
| `CmaskImpl.Cmask.TestAndSet` | include/scx/cid.bpf.h:317-329 | adds the cid if it is in range and returns whether it was set; padding stays clear |
| `CmaskImpl.Cmask.TestAndClear` | include/scx/cid.bpf.h:331-343 | removes the cid and returns whether it was set |
| `CmaskImpl.Cmask.SetRange` | include/scx/cid.bpf.h:434-465 | adds exactly the part of the range inside the active range; padding stays clear |
| `CmaskImpl.Cmask.ClearRange` | include/scx/cid.bpf.h:477-508 | removes exactly the range |
| `CmaskImpl.Cmask.Zero` | include/scx/cid.bpf.h:510-519 | the mask is empty |
| `CmaskImpl.Cmask.Fill` | include/scx/cid.bpf.h:528-551 | the mask is the whole active range, and padding is clear |
| `CmaskImpl.Cmask.Combine` | include/scx/cid.bpf.h:605-640 | and, or, copy, andnot of masks with different bases: the set operation on the shared window, no change outside, also for a mask with itself |
| `CmaskScan.FullRange` | include/scx/cid.bpf.h:388-422 | true exactly when the part of the range inside the active range is contained in the mask |
| `CmaskScan.Empty` | include/scx/cid.bpf.h:560-571 | true exactly when the set is empty |
| `CmaskScan.Equal` | include/scx/cid.bpf.h:678-696 | true exactly when shapes and sets are equal |
| `CmaskScan.Weight` | include/scx/cid.bpf.h:805-820 | the cardinality of the set |
| `CmaskScan.NextSet` | include/scx/cid.bpf.h:707-742 | the least member from the start on, or the end when there is none |
| `CmaskScan.NextAndSet` | include/scx/cid.bpf.h:874-917 | the least common member from the start on, or the end of the first mask |
| `CmaskScan.Intersects` | include/scx/cid.bpf.h:826-865 | true exactly when the sets intersect |
| `CmaskScan.Subset` | include/scx/cid.bpf.h:759-798 | true exactly when the first set is contained in the second, whatever the ranges |
| `CmaskScan.StaysInRange` | include/scx/cid.bpf.h:770-776 | the two searches decide whether the first set lies in the second's range |
| `CmaskDistribute.NextSetWrap` | include/scx/cid.bpf.h:926-938 | the cyclic successor of the start in the set, the end exactly when the set is empty |
| `CmaskDistribute.NextAndSetWrap` | include/scx/cid.bpf.h:958-971 | the same on the intersection of two masks |
| `CmaskDistribute.Rotor.AnyDistribute` | include/scx/cid.bpf.h:989-1001 | picks the cyclic successor of the last pick and remembers it; an empty mask leaves the rotor alone |
| `CmaskDistribute.Rotor.AnyAndDistribute` | include/scx/cid.bpf.h:1012-1025 | the same on an intersection |
| `CmaskDistribute.RoundRobin` | include/scx/cid.bpf.h:981-1001 | on an unchanged mask of k cids any k successive picks visit each cid exactly once, wherever the rotor stands |
| `CmaskDistribute.Round` | include/scx/cid.bpf.h:981-1001 | k successive calls of AnyDistribute on a mask of k cids return each cid exactly once |
| `CmaskCas.ResultBits` | include/scx/cid.bpf.h:217-257 | the word a loop stores has the bits of its mask set (or clear) and every other bit as it was |
| `CmaskCas.StepIsAtomic` | include/scx/cid.bpf.h:346-377 | an update takes effect in the one step that completes it, on the word as it is then |
| `CmaskCas.NoUpdateIsLost` | include/scx/cid.bpf.h:217-257 | in every interleaving of set and clear loops on a word, every bit holds what the last completed update of that bit wrote |
| `CmaskCas.OneWinner` | include/scx/cid.bpf.h:259-279 | between two test-and-sets that both found a bit clear, an update cleared it |

## Left out

- Idle masks and kicks: which idle cpu the kernel hands out is an arbitrary cpu allowed to the task; `kick_idle_for_waiting` and the kicks have no effect in the model.
- Failing lookups: contexts of tasks and cpus always exist, as they do after init; the branches for missing contexts are not modelled.
- Callbacks are atomic with respect to each other, with the one exception of the RT counter.
- The affinity of a task may change at any time except while it waits in a tier queue; the kernel dequeues a waiting task first.
- Contexts of tasks and cpus are values that the class replaces as a whole, field by field; pointers into kernel storage are not modelled.
- 64-bit widths: time stamps and accumulators are unbounded naturals. The invariant keeps every stamp in the past, so that the differences in the code do not wrap, and bounds the one shift.
- Liveness: nothing says that a cpu ever calls dispatch; `OverrideRuns.BoundedBypass` counts the looks for a starved tier instead of time. The same holds for the spinlock: `SpinDeadlock.NoDeadlock` is about states, not about fairness.
- SpinDeadlock.NoDeadlock: about one lock; the order in which contexts take several locks is the callers' affair, and a cycle of locks does get stuck.
- Weak memory ordering, the `may_goto` timeouts and the error exits of the spinlock.
- The bound on compare-and-swap tries (CMASK_CAS_TRIES), after which the code gives up with an error.
- LunarImpl.Lunar.Dispatch: the decision is returned as a ghost value beside the verdict, because several decisions are allowed for one state, one for each random start.
- CmaskImpl.Cmask.Reframe: says nothing about the members of the new range besides clear padding, because the code leaves the words in between as they were.
- The three-mask searches and range-word helpers of the cmask header, which repeat the two-mask ones.
- Topology discovery, process control and the service files; the topology is a parameter.

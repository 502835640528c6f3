/** What single events mean for the tasks concerned. */
module EventLaws {
  import opened Options
  import opened Defs
  import opened Accounting
  import opened Classifier
  import opened Machine
  import opened Invariant
  import opened Preservation
  import opened Dispatching
  import opened BoostRuns
  import opened TaskLaws

  // ----- wakeups -----

  /** The average moves towards the sample: strictly closer to it, without passing it, unless it is there already. */
  predicate MovesTowards(avg: nat, avg': nat, sample: nat)
  {
    && (avg / 4 == sample / 4 ==> avg' == avg)
    && (avg / 4 != sample / 4 ==> Distance(avg', sample) < Distance(avg, sample))
  }

  lemma EwmaMoves(avg: nat, sample: nat)
    ensures MovesTowards(avg, Ewma(avg, sample), sample)
  {
    EwmaStep(avg, sample);
  }

  /** What a wakeup leaves of the averages of the task that wakes another, and of the one that is woken. */
  predicate WakerCounted(tc: TaskCtx, t: TaskCtx, now: nat)
    requires tc.lastWake <= now
  {
    && MovesTowards(tc.wakeInterval, t.wakeInterval, ClampInterval(now - tc.lastWake)) && t.lastWake == now
    && t.waitInterval == tc.waitInterval && t.lastWoken == tc.lastWoken
  }

  predicate WokenCounted(tc: TaskCtx, t: TaskCtx, now: nat)
    requires tc.lastWoken <= now
  {
    && MovesTowards(tc.waitInterval, t.waitInterval, ClampInterval(now - tc.lastWoken)) && t.lastWoken == now
    && t.wakeInterval == tc.wakeInterval && t.lastWake == tc.lastWake
  }

  predicate SameAverages(tc: TaskCtx, t: TaskCtx)
  {
    && t.waitInterval == tc.waitInterval && t.lastWoken == tc.lastWoken
    && t.wakeInterval == tc.wakeInterval && t.lastWake == tc.lastWake
  }

  lemma WakingCounts(tc: TaskCtx, kthread: bool, now: nat)
    requires tc.lastWake <= now && tc.lastWoken <= now
    ensures WakerCounted(tc, WokeAnother(tc, now), now)
    ensures WokenCounted(tc, AccountSleep(Woken(tc, now), kthread, now), now)
    ensures SameAverages(tc, AccountSleep(tc, kthread, now))
  {
    EwmaMoves(tc.wakeInterval, ClampInterval(now - tc.lastWake));
    EwmaMoves(tc.waitInterval, ClampInterval(now - tc.lastWoken));
    SleepKeepsAverages(Woken(tc, now), kthread, now);
    SleepKeepsAverages(tc, kthread, now);
  }

  /** A wakeup moves the woken task's average towards the time since it was last woken, and that of the task that wakes
      it towards the time since it last woke anybody, both within 10 us..1 s; no other task changes, and becoming
      runnable without a wakeup moves no average. */
  lemma WakeupsAreCounted(s: Sys, x: Task, wakeup: bool, waker: Option<Task>, y: Task)
    requires Inv(s) && Enabled(s, Runnable(x, wakeup, waker)) && y in s.tc
    ensures var s' := Next(s, Runnable(x, wakeup, waker));
            && y in s'.tc && s.tc[y].lastWake <= s.now && s.tc[y].lastWoken <= s.now
            && (if y == x then
                  if wakeup then WokenCounted(s.tc[x], s'.tc[x], s.now) else SameAverages(s.tc[x], s'.tc[x])
                else if wakeup && waker == Some(y) then WakerCounted(s.tc[y], s'.tc[y], s.now)
                else s'.tc[y] == s.tc[y])
  {
    assert TaskTimesOk(s.tc[y], s.loc[y], s.now);
    WakingCounts(s.tc[y], y in s.kthreads, s.now);
    RunnableOf(s, x, wakeup, waker, y);
  }

  lemma RunnableOf(s: Sys, x: Task, wakeup: bool, waker: Option<Task>, y: Task)
    requires x in s.tc && x in s.loc && y in s.tc
    ensures var s' := RunnableStep(s, x, wakeup, waker);
            && y in s'.tc
            && s'.tc[y] == (if y == x then
                              AccountSleep(if wakeup then Woken(s.tc[x], s.now) else s.tc[x], x in s.kthreads, s.now)
                            else if wakeup && waker == Some(y) then WokeAnother(s.tc[y], s.now) else s.tc[y])
  {
  }

  lemma SleepKeepsAverages(tc: TaskCtx, kthread: bool, now: nat)
    ensures var t := AccountSleep(tc, kthread, now);
            && t.waitInterval == tc.waitInterval && t.wakeInterval == tc.wakeInterval
            && t.lastWoken == tc.lastWoken && t.lastWake == tc.lastWake
  {
  }

  // ----- stops and sleeps -----

  /** What accounting leaves of the context of the running task. */
  function AfterAccounting(tc: TaskCtx, kthread: bool, preempt: bool, e: Event, now: nat): TaskCtx
    requires e.Dispatch? || e.Stopping?
  {
    if e.Stopping? then AccountInStopping(tc, kthread, preempt, e.runnable, e.sliceZero, now)
    else if e.ch == Keep then KeepRunning(AccountInDispatch(tc, kthread, preempt, now))
    else AccountInDispatch(tc, kthread, preempt, now)
  }

  lemma AccountedTask(s: Sys, e: Event, x: Task)
    requires Inv(s) && Enabled(s, e) && x in s.tc && Accounts(e, x)
    ensures 0 <= e.cpu < |s.d| && x in Next(s, e).tc
    ensures Next(s, e).tc[x] == AfterAccounting(s.tc[x], x in s.kthreads, s.d[e.cpu].preempt, e, s.now)
  {
    if e.Dispatch? {
      DispatchTask(s, e, x);
    } else {
      assert Next(s, e) == StoppingStep(s, e.x, e.cpu, e.runnable, e.sliceZero);
    }
  }

  lemma RunningTimes(s: Sys, e: Event, x: Task)
    requires Inv(s) && Enabled(s, e) && x in s.tc && Accounts(e, x)
    ensures s.tc[x].startedAt <= s.now && s.tc[x].resume == 0 && s.tc[x].runAcc + s.tc[x].sleepAcc <= 2 * DUTY_WINDOW
  {
    assert TaskOk(s.tc[x]) && TaskTimesOk(s.tc[x], s.loc[x], s.now);
  }

  /** A task stopped by a kick that is still runnable takes the rest of its slice with it, if that is more than 50 us; a
      task that stops in any other way has none. */
  lemma RestOfSlice(s: Sys, e: Event)
    requires Inv(s) && e.Stopping? && Enabled(s, e)
    ensures var used := s.now - s.tc[e.x].startedAt;
            var rest := Next(s, e).tc[e.x].resume;
            && e.x in Next(s, e).tc
            && (rest > 0 ==> used + rest == s.tc[e.x].granted && rest > RESUME_SLICE_MIN)
            && (rest > 0 <==> s.d[e.cpu].preempt && e.runnable && e.sliceZero
                              && s.tc[e.x].granted - used > RESUME_SLICE_MIN)
  {
    assert TaskTimesOk(s.tc[e.x], s.loc[e.x], s.now);
    assert Next(s, e) == StoppingStep(s, e.x, e.cpu, e.runnable, e.sliceZero);
  }

  /** A task that leaves the queues has no boost and no rest of a slice, and if it sleeps, the sleep counts from now on.
      */
  lemma SleepEndsBoost(s: Sys, x: Task, sleep: bool)
    requires Inv(s) && Enabled(s, Quiescent(x, sleep))
    ensures var s' := Next(s, Quiescent(x, sleep));
            && x in s'.tc && s'.tc[x].boost == EMPTY && s'.tc[x].resume == 0 && s'.loc[x] == Asleep
            && s'.tc[x].blockedAt == (if sleep then s.now else 0)
            && forall y :: y in s.tc && y != x ==> y in s'.tc && s'.tc[y] == s.tc[y] && s'.loc[y] == s.loc[y]
  {
    assert Next(s, Quiescent(x, sleep)) == QuiescentStep(s, x, sleep);
  }

  /** The task has a boost and keeps it. */
  predicate StaysBoosted(tc: TaskCtx, tc': TaskCtx) { tc.boost != EMPTY && tc'.boost == tc.boost }

  lemma AfterBoost(tc: TaskCtx, kthread: bool, preempt: bool, e: Event, now: nat)
    requires (e.Dispatch? || e.Stopping?) && tc.resume == 0 && tc.startedAt <= now
    ensures var t := AfterAccounting(tc, kthread, preempt, e, now);
            var used := tc.boostUsed + (now - tc.startedAt);
            && (t.boost == tc.boost || t.boost == EMPTY)
            && (StaysBoosted(tc, t) <==>
                && tc.boost != EMPTY
                && (if e.Stopping? then t.resume > 0 || (e.runnable && used < WAKE_BOOST_BUDGET)
                    else used < WAKE_BOOST_BUDGET || (preempt && e.ch != Keep)))
  {
  }

  /** When a boost outlasts an accounting: one that keeps the task on its cpu, exactly while the budget is not used up;
      any other dispatch, then or with a kick pending; a stop, if the task takes the rest of its slice with it, or is
      still runnable with budget left. */
  lemma BoostSurvives(s: Sys, e: Event, x: Task)
    requires Inv(s) && Enabled(s, e) && x in s.tc && Accounts(e, x)
    ensures x in Next(s, e).tc
    ensures var tc, t := s.tc[x], Next(s, e).tc[x];
            var used := tc.boostUsed + (s.now - tc.startedAt);
            && (t.boost == tc.boost || t.boost == EMPTY)
            && (StaysBoosted(tc, t) <==>
                && tc.boost != EMPTY
                && (if e.Stopping? then t.resume > 0 || (e.runnable && used < WAKE_BOOST_BUDGET)
                    else used < WAKE_BOOST_BUDGET || (s.d[e.cpu].preempt && e.ch != Keep)))
  {
    RunningTimes(s, e, x);
    AccountedTask(s, e, x);
    AfterBoost(s.tc[x], x in s.kthreads, s.d[e.cpu].preempt, e, s.now);
  }

  // ----- duty -----

  function DutyOf(tc: TaskCtx): nat { TaskDuty(tc.runAcc, tc.sleepAcc) }

  lemma AfterDuty(tc: TaskCtx, kthread: bool, preempt: bool, e: Event, now: nat)
    requires (e.Dispatch? || e.Stopping?) && tc.runAcc + tc.sleepAcc <= 2 * DUTY_WINDOW
    ensures var t := AfterAccounting(tc, kthread, preempt, e, now); t.duty == DutyOf(t) && t.duty >= DutyOf(tc) - 1
  {
    RunningRaisesDuty(tc, Elapsed(now, tc.startedAt));
    AfterSums(tc, kthread, preempt, e, now);
  }

  /** What is run and slept counts in full, up to 100 ms at a time; when 200 ms are exceeded, both sums are halved. */
  predicate Counted(tc: TaskCtx, t: TaskCtx, ran: nat, slept: nat)
  {
    var run, sleep := tc.runAcc + Min(ran, DUTY_WINDOW), tc.sleepAcc + Min(slept, DUTY_WINDOW);
    if run + sleep <= 2 * DUTY_WINDOW then t.runAcc == run && t.sleepAcc == sleep
    else run - 1 <= 2 * t.runAcc <= run && sleep - 1 <= 2 * t.sleepAcc <= sleep
  }

  lemma DutyCounts(tc: TaskCtx, ran: nat, slept: nat)
    ensures Counted(tc, DutyAccount(tc, ran, slept), ran, slept)
  {
  }

  lemma DispatchSums(tc: TaskCtx, kthread: bool, preempt: bool, now: nat)
    ensures var t, t0 := AccountInDispatch(tc, kthread, preempt, now), DutyAccount(tc, Elapsed(now, tc.startedAt), 0);
            t.runAcc == t0.runAcc && t.sleepAcc == t0.sleepAcc && t.duty == DutyOf(t0) && t.startedAt == now
  {
  }

  lemma StoppingSums(tc: TaskCtx, kthread: bool, preempt: bool, runnable: bool, sliceZero: bool, now: nat)
    ensures var t := AccountInStopping(tc, kthread, preempt, runnable, sliceZero, now);
            var t0 := DutyAccount(tc, Elapsed(now, tc.startedAt), 0);
            t.runAcc == t0.runAcc && t.sleepAcc == t0.sleepAcc && t.duty == DutyOf(t0)
  {
  }

  lemma AfterSums(tc: TaskCtx, kthread: bool, preempt: bool, e: Event, now: nat)
    requires e.Dispatch? || e.Stopping?
    ensures var t, t0 := AfterAccounting(tc, kthread, preempt, e, now), DutyAccount(tc, Elapsed(now, tc.startedAt), 0);
            t.runAcc == t0.runAcc && t.sleepAcc == t0.sleepAcc && t.duty == DutyOf(t0)
              && (e.Dispatch? ==> t.startedAt == now)
  {
    if e.Stopping? {
      StoppingSums(tc, kthread, preempt, e.runnable, e.sliceZero, now);
    } else {
      DispatchSums(tc, kthread, preempt, now);
    }
  }

  lemma AfterCounts(tc: TaskCtx, kthread: bool, preempt: bool, e: Event, now: nat)
    requires (e.Dispatch? || e.Stopping?) && tc.startedAt <= now
    ensures var t := AfterAccounting(tc, kthread, preempt, e, now);
            Counted(tc, t, now - tc.startedAt, 0) && (e.Dispatch? ==> t.startedAt == now)
  {
    DutyCounts(tc, Elapsed(now, tc.startedAt), 0);
    AfterSums(tc, kthread, preempt, e, now);
  }

  /** The time on a cpu counts as run, from the last accounting on. */
  lemma CpuTimeCounts(s: Sys, e: Event, x: Task)
    requires Inv(s) && Enabled(s, e) && x in s.tc && Accounts(e, x)
    ensures x in Next(s, e).tc && Counted(s.tc[x], Next(s, e).tc[x], s.now - s.tc[x].startedAt, 0)
    ensures e.Dispatch? ==> Next(s, e).tc[x].startedAt == s.now
  {
    RunningTimes(s, e, x);
    AccountedTask(s, e, x);
    AfterCounts(s.tc[x], x in s.kthreads, s.d[e.cpu].preempt, e, s.now);
  }

  function SleptFor(tc: TaskCtx, now: nat): nat { if tc.blockedAt > 0 then Elapsed(now, tc.blockedAt) else 0 }

  lemma SleepAccounted(tc: TaskCtx, kthread: bool, now: nat)
    requires tc.runAcc + tc.sleepAcc <= 2 * DUTY_WINDOW
    ensures Counted(tc, AccountSleep(tc, kthread, now), 0, SleptFor(tc, now))
  {
  }

  /** The time asleep counts as slept. */
  lemma SleepCounts(s: Sys, x: Task, wakeup: bool, waker: Option<Task>)
    requires Inv(s) && Enabled(s, Runnable(x, wakeup, waker))
    ensures var s' := Next(s, Runnable(x, wakeup, waker));
            x in s'.tc && Counted(s.tc[x], s'.tc[x], 0, SleptFor(s.tc[x], s.now))
  {
    assert TaskOk(s.tc[x]);
    RunnableCounts(s, x, wakeup, waker);
  }

  lemma RunnableCounts(s: Sys, x: Task, wakeup: bool, waker: Option<Task>)
    requires x in s.tc && x in s.loc && s.tc[x].runAcc + s.tc[x].sleepAcc <= 2 * DUTY_WINDOW
    ensures var s' := RunnableStep(s, x, wakeup, waker);
            x in s'.tc && Counted(s.tc[x], s'.tc[x], 0, SleptFor(s.tc[x], s.now))
  {
    var w := if wakeup then Woken(s.tc[x], s.now) else s.tc[x];
    SleepAccounted(w, x in s.kthreads, s.now);
    assert RunnableStep(s, x, wakeup, waker).tc[x] == AccountSleep(w, x in s.kthreads, s.now);
  }

  /** The time on a cpu raises the duty that the dispatches and the stop see, but for the point that halving may cost.
      */
  lemma CpuTimeRaisesDuty(s: Sys, e: Event, x: Task)
    requires Inv(s) && Enabled(s, e) && x in s.tc && Accounts(e, x)
    ensures x in Next(s, e).tc && Next(s, e).tc[x].duty >= DutyOf(s.tc[x]) - 1
  {
    RunningTimes(s, e, x);
    AccountedTask(s, e, x);
    AfterDuty(s.tc[x], x in s.kthreads, s.d[e.cpu].preempt, e, s.now);
  }

  lemma SleepDuty(tc: TaskCtx, kthread: bool, now: nat)
    requires tc.runAcc + tc.sleepAcc <= 2 * DUTY_WINDOW && tc.blockedAt > 0
    ensures var t := AccountSleep(tc, kthread, now);
            && t.duty == DutyOf(t) && t.duty <= DutyOf(tc) && t.blockedAt == 0
            && t.samples == Min(tc.samples + 1, DUTY_SAMPLES_MAX)
  {
    SleepingLowersDuty(tc, Elapsed(now, tc.blockedAt));
  }

  /** The time asleep never raises the duty that the task wakes up with, and is one more sample of it. */
  lemma SleepLowersDuty(s: Sys, x: Task, wakeup: bool, waker: Option<Task>)
    requires Inv(s) && Enabled(s, Runnable(x, wakeup, waker)) && s.tc[x].blockedAt > 0
    ensures var s' := Next(s, Runnable(x, wakeup, waker));
            && x in s'.tc && s'.tc[x].duty <= DutyOf(s.tc[x])
               && s'.tc[x].samples == Min(s.tc[x].samples + 1, DUTY_SAMPLES_MAX)
  {
    assert TaskOk(s.tc[x]);
    RunnableDuty(s, x, wakeup, waker);
  }

  lemma RunnableDuty(s: Sys, x: Task, wakeup: bool, waker: Option<Task>)
    requires x in s.tc && x in s.loc && s.tc[x].blockedAt > 0 && s.tc[x].runAcc + s.tc[x].sleepAcc <= 2 * DUTY_WINDOW
    ensures var s' := RunnableStep(s, x, wakeup, waker);
            && x in s'.tc && s'.tc[x].duty <= DutyOf(s.tc[x])
               && s'.tc[x].samples == Min(s.tc[x].samples + 1, DUTY_SAMPLES_MAX)
  {
    var w := if wakeup then Woken(s.tc[x], s.now) else s.tc[x];
    SleepDuty(w, x in s.kthreads, s.now);
  }

  // ----- prev -----

  /** A dispatch with a runnable prev takes no worse task than it, but by an override, and never leaves the cpu idle;
      without one nobody is kept. */
  lemma PrevGoesOn(s: Sys, e: Event, x: Task)
    requires Inv(s) && Enabled(s, e) && e.Dispatch? && x in s.tc
    ensures x in Next(s, e).tc
    ensures e.prev == Some(x) && e.ch.Take? && !ByOverride(e.ch) ==> e.ch.tier <= EffectiveTier(Next(s, e).tc[x])
    ensures !e.ch.Take? ==> (e.prev.Some? <==> e.ch == Keep)
  {
    DispatchTask(s, e, x);
    var s1 := AccountPrev(s, e.cpu, e.prev);
    AccountPrevKeepsInv(s, e.cpu, e.prev);
    PrevTierOk(s1, e.prev);
    DecidesByPrev(s1, e.cpu, PrevTier(s1, e.prev), e.ch);
  }

  lemma PrevTierOk(s: Sys, prev: Option<Task>)
    requires Inv(s) && (prev.Some? ==> prev.value in s.tc)
    ensures LC <= PrevTier(s, prev) <= EMPTY && (prev.Some? <==> PrevTier(s, prev) <= GREEDY)
  {
    if prev.Some? { assert TaskOk(s.tc[prev.value]); }
  }

  lemma DecidesByPrev(s: Sys, cpu: int, prev: int, ch: Choice)
    requires Inv(s) && s.Cpu(cpu) && LC <= prev <= EMPTY && GoodChoice(s, cpu, prev, ch)
    ensures ch.Take? && !ByOverride(ch) ==> ch.tier <= prev
    ensures !ch.Take? ==> (prev <= GREEDY <==> ch == Keep)
  {
    if ch.Take? && !ByOverride(ch) { NeverWorseThanPrev(s, cpu, prev, ch); }
  }

  // ----- new tasks -----

  /** A new task is asleep, in GREEDY without a sample, or in INTERACTIVE with all samples it needs when it is a kernel
      thread; there it is classified as INTERACTIVE or better until it has run. */
  lemma Newcomers(s: Sys, e: Event)
    requires Inv(s) && e.InitTask? && Enabled(s, e)
    ensures var s' := Next(s, e);
            && e.x in s'.tc && e.x in s'.loc && s'.loc[e.x] == Asleep
            && EffectiveTier(s'.tc[e.x]) == (if e.kthread then INTERACTIVE else GREEDY) && s'.tc[e.x].boost == EMPTY
            && (s'.tc[e.x].samples >= DUTY_SAMPLES_NEEDED <==> e.kthread)
            && (forall now :: Classify(s'.tc[e.x], e.kthread, now).tier <= EffectiveTier(s'.tc[e.x]))
            && (forall y :: y in s.tc ==> y in s'.tc && s'.tc[y] == s.tc[y] && s'.loc[y] == s.loc[y])
  {
    assert TaskDuty(KTHREAD_INIT_RUN, DUTY_WINDOW - KTHREAD_INIT_RUN) < DUTY_CAP_INTERACTIVE;
  }
}

/** The tiers a task takes over runs of the scheduler. */
module TierRuns {
  import opened Options
  import opened Defs
  import opened Accounting
  import opened Classifier
  import opened Machine
  import opened Invariant
  import Preservation
  import opened BoostRuns

  /** A sampled user task keeps its tier, or is classified by the duty and the criticality it then has; one without its
      samples keeps its tier or is GREEDY. */
  predicate TierKept(t: TaskCtx, t': TaskCtx)
  {
    && t.samples <= t'.samples
    && (t'.samples >= DUTY_SAMPLES_NEEDED ==> Moved(t.tier, t'.tier, t'.duty, t'.crit))
    && (t'.samples < DUTY_SAMPLES_NEEDED ==> t'.tier == t.tier || t'.tier == GREEDY)
  }

  lemma AccountingTier(tc: TaskCtx, preempt: bool, runnable: bool, sliceZero: bool, now: nat)
    requires tc.samples <= DUTY_SAMPLES_MAX
    ensures TierKept(tc, AccountInDispatch(tc, false, preempt, now))
    ensures TierKept(tc, KeepRunning(AccountInDispatch(tc, false, preempt, now)))
    ensures TierKept(tc, AccountInStopping(tc, false, preempt, runnable, sliceZero, now))
    ensures TierKept(tc, AccountSleep(tc, false, now))
  {
  }

  lemma DispatchTier(s: Sys, e: Event, x: Task)
    requires Inv(s) && Enabled(s, e) && e.Dispatch? && x in s.tc && x !in s.kthreads
    ensures x in Next(s, e).tc && TierKept(s.tc[x], Next(s, e).tc[x])
  {
    DispatchTask(s, e, x);
    assert TaskOk(s.tc[x]);
    AccountingTier(s.tc[x], s.d[e.cpu].preempt, false, false, s.now);
  }

  lemma StoppingStepTier(s: Sys, y: Task, cpu: int, runnable: bool, sliceZero: bool, x: Task)
    requires s.Shape() && s.Cpu(cpu) && y in s.tc && x in s.tc && x !in s.kthreads
             && s.tc[x].samples <= DUTY_SAMPLES_MAX
    ensures var s' := StoppingStep(s, y, cpu, runnable, sliceZero); x in s'.tc && TierKept(s.tc[x], s'.tc[x])
  {
    AccountingTier(s.tc[x], s.d[cpu].preempt, runnable, sliceZero, s.now);
  }

  lemma RunnableStepTier(s: Sys, y: Task, wakeup: bool, waker: Option<Task>, x: Task)
    requires y in s.tc && y in s.loc && x in s.tc && x !in s.kthreads && s.tc[x].samples <= DUTY_SAMPLES_MAX
    ensures var s' := RunnableStep(s, y, wakeup, waker); x in s'.tc && TierKept(s.tc[x], s'.tc[x])
  {
    var tc1 := if wakeup then s.tc[y := Woken(s.tc[y], s.now)] else s.tc;
    var tc2 := if wakeup && waker.Some? && waker.value != y && waker.value in tc1
               then tc1[waker.value := WokeAnother(tc1[waker.value], s.now)] else tc1;
    AccountingTier(tc2[x], false, false, false, s.now);
  }

  lemma EnqueueTier(s: Sys, e: Event, x: Task)
    requires Inv(s) && Enabled(s, e) && e.Enqueue? && x in s.tc
    ensures x in Next(s, e).tc && TierKept(s.tc[x], Next(s, e).tc[x])
  {
    EnqueuedTasks(s, e, x);
  }

  lemma RunStepTier(s: Sys, y: Task, cpu: int, slice: nat, x: Task)
    requires s.Shape() && s.Cpu(cpu) && s.local[cpu] != [] && y in s.tc && x in s.tc
    ensures var s' := RunStep(s, y, cpu, slice); x in s'.tc && TierKept(s.tc[x], s'.tc[x])
  {
  }

  lemma OtherTier(s: Sys, e: Event, x: Task)
    requires Inv(s) && Enabled(s, e) && x in s.tc && !e.Dispatch? && !e.Stopping? && !e.Runnable? && !e.Enqueue?
    ensures x in Next(s, e).tc && TierKept(s.tc[x], Next(s, e).tc[x])
  {
    if e.Run? {
      RunStepTier(s, e.x, e.cpu, e.slice, x);
    } else if e.SchedSwitch? {
      SwitchKeepsTasks(s, e.cpu, x);
    }
  }

  lemma EveryEventKeepsTier(s: Sys, e: Event, x: Task)
    requires Inv(s) && Enabled(s, e) && x in s.tc && x !in s.kthreads
    ensures x in Next(s, e).tc && TierKept(s.tc[x], Next(s, e).tc[x])
  {
    assert TaskOk(s.tc[x]);
    if e.Dispatch? {
      DispatchTier(s, e, x);
    } else if e.Stopping? {
      StoppingStepTier(s, e.x, e.cpu, e.runnable, e.sliceZero, x);
    } else if e.Runnable? {
      RunnableStepTier(s, e.x, e.wakeup, e.waker, x);
    } else if e.Enqueue? {
      EnqueueTier(s, e, x);
    } else {
      OtherTier(s, e, x);
    }
  }

  ghost function TiersOf(states: seq<Sys>, x: Task): (ts: seq<int>)
    requires forall i :: 0 <= i < |states| ==> x in states[i].tc
    ensures |ts| == |states| && forall i :: 0 <= i < |ts| ==> ts[i] == states[i].tc[x].tier
  {
    seq(|states|, i requires 0 <= i < |states| => states[i].tc[x].tier)
  }

  ghost function DutiesOf(states: seq<Sys>, x: Task): (ds: seq<int>)
    requires forall i :: 0 <= i < |states| ==> x in states[i].tc
    ensures |ds| == |states| && forall i :: 0 <= i < |ds| ==> ds[i] == states[i].tc[x].duty
  {
    seq(|states|, i requires 0 <= i < |states| => states[i].tc[x].duty)
  }

  /** Over any stretch of a run in which a user task has its samples and its criticality is steady, every turn of its
      tier from promotion to demotion or back is paid for with at least 21 units of movement of its duty. */
  lemma TiersRarelyReverse(states: seq<Sys>, events: seq<Event>, x: Task, crit: int)
    requires RunOf(states, events, x)
    requires forall i :: 0 <= i < |states| ==>
               x !in states[i].kthreads && states[i].tc[x].samples >= DUTY_SAMPLES_NEEDED
                 && states[i].tc[x].crit == crit
    ensures 21 * Reversals(TiersOf(states, x), Unmoved) <= TotalVariation(DutiesOf(states, x))
  {
    var ts, ds := TiersOf(states, x), DutiesOf(states, x);
    forall i | 0 <= i < |ts| - 1 ensures Moved(ts[i], ts[i + 1], ds[i + 1], crit) {
      assert Preservation.Follows(states[i], events[i], states[i + 1]);
      EveryEventKeepsTier(states[i], events[i], x);
    }
    ReversalsAreRare(ts, ds, crit);
  }

  // ----- new tasks -----

  /** A user task without its samples is GREEDY. */
  predicate Unproven(s: Sys, x: Task)
  {
    x in s.tc && x !in s.kthreads && s.tc[x].samples < DUTY_SAMPLES_NEEDED ==> s.tc[x].tier == GREEDY
  }

  lemma DispatchTasks(s: Sys, cpu: int, prev: Option<Task>, ch: Choice)
    requires s.Shape() && s.Cpu(cpu) && (prev.Some? ==> prev.value in s.tc)
    requires AccountPrev(s, cpu, prev).Shape() && CanTake(AccountPrev(s, cpu, prev), cpu, ch)
    ensures var s' := DispatchStep(s, cpu, prev, ch); s'.tc.Keys == s.tc.Keys && s'.kthreads == s.kthreads
  {
  }

  lemma PlaceOnTasks(s: Sys, x: Task, tier: int, cpu: int, wakeup: bool, pick: int)
    requires s.Shape() && x in s.tc && s.Cpu(cpu) && s.Cpu(pick) && LC <= tier <= GREEDY
    ensures var s' := PlaceOn(s, x, tier, cpu, wakeup, pick); s'.tc.Keys == s.tc.Keys && s'.kthreads == s.kthreads
  {
  }

  lemma EnqueueTasks(s: Sys, x: Task, cpu: int, wakeup: bool, waker: Option<Task>, idleCpu: int, start: nat)
    requires s.Shape() && x in s.tc && s.Cpu(cpu) && start < s.N() && (idleCpu == -1 || s.Cpu(idleCpu))
    requires var tc := if wakeup then Boosted(s, x, waker) else s.tc[x]; LC <= EffectiveTier(tc) <= GREEDY
    ensures var s' := EnqueueStep(s, x, cpu, wakeup, waker, idleCpu, start);
            s'.tc.Keys == s.tc.Keys && s'.kthreads == s.kthreads
  {
    var tc := if wakeup then Boosted(s, x, waker) else s.tc[x];
    var s1 := s.(tc := s.tc[x := tc.(resume := 0)]);
    var tier := EffectiveTier(tc);
    if !(tc.resume > 0 && !s.rtCurr[cpu]) {
      PlaceOnTasks(s1, x, tier, cpu, wakeup, Pick(s1, x, tier, cpu, idleCpu, start));
    }
  }

  /** Nobody comes or goes. */
  predicate SameTasks(s: Sys, s': Sys) { s'.tc.Keys == s.tc.Keys && s'.kthreads == s.kthreads }

  lemma DispatchedTasks(s: Sys, e: Event)
    requires Inv(s) && Enabled(s, e) && e.Dispatch?
    ensures SameTasks(s, Next(s, e))
  {
    Preservation.AccountPrevKeepsInv(s, e.cpu, e.prev);
    var s1 := AccountPrev(s, e.cpu, e.prev);
    GoodChoiceCanTake(s1, e.cpu, PrevTier(s1, e.prev), e.ch);
    DispatchTasks(s, e.cpu, e.prev, e.ch);
  }

  lemma NobodyNew(s: Sys, e: Event)
    requires Inv(s) && Enabled(s, e) && !e.InitTask?
    ensures SameTasks(s, Next(s, e))
  {
    if e.Dispatch? {
      DispatchedTasks(s, e);
    } else if e.Enqueue? {
      EnqueuedNobody(s, e);
    } else {
      OthersNobody(s, e);
    }
  }

  lemma EnqueuedNobody(s: Sys, e: Event)
    requires Inv(s) && Enabled(s, e) && e.Enqueue?
    ensures SameTasks(s, Next(s, e))
  {
    BoostedOk(s, e.x, e.waker);
    EnqueueTasks(s, e.x, e.cpu, e.wakeup, e.waker, e.idleCpu, e.start);
  }

  lemma RunnableNobody(s: Sys, x: Task, wakeup: bool, waker: Option<Task>)
    requires x in s.tc && x in s.loc
    ensures SameTasks(s, RunnableStep(s, x, wakeup, waker))
  {
  }

  lemma StoppingNobody(s: Sys, x: Task, cpu: int, runnable: bool, sliceZero: bool)
    requires s.Shape() && s.Cpu(cpu) && x in s.tc
    ensures SameTasks(s, StoppingStep(s, x, cpu, runnable, sliceZero))
  {
  }

  lemma OthersNobody(s: Sys, e: Event)
    requires Inv(s) && Enabled(s, e) && !e.InitTask? && !e.Enqueue? && !e.Dispatch?
    ensures SameTasks(s, Next(s, e))
  {
    if e.Stopping? {
      StoppingNobody(s, e.x, e.cpu, e.runnable, e.sliceZero);
    } else if e.Runnable? {
      RunnableNobody(s, e.x, e.wakeup, e.waker);
    }
  }

  lemma StaysUnproven(s: Sys, e: Event, x: Task)
    requires Inv(s) && Enabled(s, e) && Unproven(s, x)
    ensures Unproven(Next(s, e), x)
  {
    if e.InitTask? {
      assert x in s.tc ==> e.x != x && Next(s, e).tc[x] == s.tc[x];
    } else {
      NobodyNew(s, e);
      if x in s.tc && x !in s.kthreads { EveryEventKeepsTier(s, e, x); }
    }
  }

  predicate UnprovenAt(states: seq<Sys>, x: Task, k: nat) { k < |states| && Unproven(states[k], x) }

  lemma UnprovenNext(states: seq<Sys>, events: seq<Event>, x: Task, k: nat)
    requires Preservation.IsRun(states, events) && k < |events| && UnprovenAt(states, x, k)
    ensures UnprovenAt(states, x, k + 1)
  {
    Preservation.RunsKeepInv(states, events);
    assert Preservation.Follows(states[k], events[k], states[k + 1]);
    StaysUnproven(states[k], events[k], x);
  }

  /** In every state of every run, a user task that has slept fewer than three times is GREEDY. */
  lemma {:induction false} NewTasksAreGreedy(states: seq<Sys>, events: seq<Event>, x: Task, k: nat)
    requires Preservation.IsRun(states, events) && k < |states|
    ensures UnprovenAt(states, x, k)
    decreases k
  {
    if k > 0 {
      NewTasksAreGreedy(states, events, x, k - 1);
      UnprovenNext(states, events, x, k - 1);
    }
  }
}

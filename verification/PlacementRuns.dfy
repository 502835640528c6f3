/** How often load balancing moves a task, over whole runs. */
module PlacementRuns {
  import opened Options
  import opened Defs
  import opened Accounting
  import opened Classifier
  import opened Machine
  import opened Invariant
  import opened Preservation
  import opened Placement
  import opened BoostRuns

  /** Enqueue event `e` leads from `s` to `s'` and puts its task on another cpu than the kernel came with. */
  predicate MovedBy(s: Sys, e: Event, s': Sys)
  {
    e.Enqueue? && e.x in s'.loc && s'.loc[e.x].Queued? && s'.loc[e.x].qid.cpu != e.cpu
  }

  /** It does so for balance alone: for a NORMAL or GREEDY task, without an idle cpu and without an RT task at home. */
  predicate Balances(s: Sys, e: Event, s': Sys)
  {
    MovedBy(s, e, s') && e.idleCpu == -1 && s'.loc[e.x].qid.tier >= NORMAL && 0 <= e.cpu < |s.rtCurr|
      && !s.rtCurr[e.cpu]
  }

  lemma PlaceOnMoves(s: Sys, x: Task, tier: int, cpu: int, wakeup: bool, pick: int)
    requires s.Shape() && x in s.tc && s.Cpu(cpu) && s.Cpu(pick) && LC <= tier <= GREEDY
    ensures var s' := PlaceOn(s, x, tier, cpu, wakeup, pick);
            && x in s'.loc && s'.loc[x].Queued? && s'.loc[x].qid.tier == tier && x in s'.tc
            && (s'.loc[x].qid.cpu != cpu ==> pick != cpu)
            && s'.tc[x].lastMigrated == if pick != cpu then s.now else s.tc[x].lastMigrated
  {
  }

  lemma SettledMove(s: Sys, x: Task, tier: int, cpu: int, wakeup: bool, idleCpu: int, start: nat)
    requires Inv(s) && x in s.tc && s.Cpu(cpu) && LC <= tier <= GREEDY && start < s.N()
    requires idleCpu == -1 || s.Cpu(idleCpu)
    ensures var s' := PlaceOn(s, x, tier, cpu, wakeup, Pick(s, x, tier, cpu, idleCpu, start));
            x in s'.tc && x in s'.loc && s'.loc[x].Queued? && s'.loc[x].qid.tier == tier &&
            (s'.loc[x].qid.cpu != cpu ==>
               && s'.tc[x].lastMigrated == s.now
               && (idleCpu == -1 && tier >= NORMAL && !s.rtCurr[cpu] ==>
                  s.now - s.tc[x].lastMigrated >= BALANCE_INTERVAL))
  {
    PlaceOnMoves(s, x, tier, cpu, wakeup, Pick(s, x, tier, cpu, idleCpu, start));
    if idleCpu == -1 && tier >= NORMAL { OtherTiersMoveToImprove(s, x, tier, cpu, start); }
  }

  /** A move is recorded, and one for balance alone comes at least 10 ms after the last. */
  lemma MoveIsStamped(s: Sys, e: Event)
    requires Inv(s) && Enabled(s, e) && MovedBy(s, e, Next(s, e))
    ensures e.x in Next(s, e).tc && Next(s, e).tc[e.x].lastMigrated == s.now
    ensures Balances(s, e, Next(s, e)) ==> s.now - s.tc[e.x].lastMigrated >= BALANCE_INTERVAL
  {
    BoostedOk(s, e.x, e.waker);
    MoveStep(s, e.x, e.cpu, e.wakeup, e.waker, e.idleCpu, e.start);
  }

  lemma MoveStep(s: Sys, x: Task, cpu: int, wakeup: bool, waker: Option<Task>, idleCpu: int, start: nat)
    requires Inv(s) && x in s.tc && s.Cpu(cpu) && start < s.N() && (idleCpu == -1 || s.Cpu(idleCpu))
             && s.loc[x] == Ready(-1)
    requires LC <= EffectiveTier(if wakeup then Boosted(s, x, waker) else s.tc[x]) <= GREEDY
    ensures var s' := EnqueueStep(s, x, cpu, wakeup, waker, idleCpu, start);
            x in s'.tc && x in s'.loc && s'.loc[x].Queued? &&
            (s'.loc[x].qid.cpu != cpu ==>
               && s'.tc[x].lastMigrated == s.now
               && (idleCpu == -1 && s'.loc[x].qid.tier >= NORMAL && !s.rtCurr[cpu] ==>
                     s.now - s.tc[x].lastMigrated >= BALANCE_INTERVAL))
  {
    BoostedOk(s, x, waker);
    var tc := if wakeup then Boosted(s, x, waker) else s.tc[x];
    SetTask(s, x, tc.(resume := 0));
    if !(tc.resume > 0 && !s.rtCurr[cpu]) {
      SettledMove(s.(tc := s.tc[x := tc.(resume := 0)]), x, EffectiveTier(tc), cpu, wakeup, idleCpu, start);
    }
  }

  /** The time of the last move, before and after. */
  predicate Grows(m: map<Task, TaskCtx>, m': map<Task, TaskCtx>, x: Task, now: nat)
  {
    x in m && x in m' && (m'[x].lastMigrated == m[x].lastMigrated || m'[x].lastMigrated == now)
  }

  lemma AccountingGrows(tc: TaskCtx, kthread: bool, preempt: bool, runnable: bool, sliceZero: bool, now: nat)
    ensures AccountInDispatch(tc, kthread, preempt, now).lastMigrated == tc.lastMigrated
    ensures AccountInStopping(tc, kthread, preempt, runnable, sliceZero, now).lastMigrated == tc.lastMigrated
    ensures AccountSleep(tc, kthread, now).lastMigrated == tc.lastMigrated
  {
  }

  lemma DispatchGrows(s: Sys, e: Event, x: Task)
    requires Inv(s) && Enabled(s, e) && e.Dispatch? && x in s.tc
    ensures Grows(s.tc, Next(s, e).tc, x, s.now)
  {
    DispatchTask(s, e, x);
    AccountingGrows(s.tc[x], x in s.kthreads, s.d[e.cpu].preempt, false, false, s.now);
  }

  lemma StoppingGrows(s: Sys, y: Task, cpu: int, runnable: bool, sliceZero: bool, x: Task)
    requires s.Shape() && s.Cpu(cpu) && y in s.tc && x in s.tc
    ensures Grows(s.tc, StoppingStep(s, y, cpu, runnable, sliceZero).tc, x, s.now)
  {
    AccountingGrows(s.tc[y], y in s.kthreads, s.d[cpu].preempt, runnable, sliceZero, s.now);
  }

  lemma WakingGrows(tc: TaskCtx, now: nat)
    ensures Woken(tc, now).lastMigrated == tc.lastMigrated && WokeAnother(tc, now).lastMigrated == tc.lastMigrated
  {
  }

  lemma SetGrows(m: map<Task, TaskCtx>, m1: map<Task, TaskCtx>, y: Task, t: TaskCtx, x: Task, now: nat)
    requires Grows(m, m1, x, now) && y in m1 && t.lastMigrated == m1[y].lastMigrated
    ensures Grows(m, m1[y := t], x, now)
  {
  }

  lemma RunnableGrows(s: Sys, y: Task, wakeup: bool, waker: Option<Task>, x: Task)
    requires y in s.tc && y in s.loc && x in s.tc
    ensures Grows(s.tc, RunnableStep(s, y, wakeup, waker).tc, x, s.now)
  {
    var w, tc1, tc2 := Woken(s.tc[y], s.now), s.tc, s.tc;
    if wakeup {
      WakingGrows(s.tc[y], s.now);
      tc1 := s.tc[y := w];
      SetGrows(s.tc, s.tc, y, w, x, s.now);
      tc2 := tc1;
      if waker.Some? && waker.value != y && waker.value in tc1 {
        WakingGrows(tc1[waker.value], s.now);
        tc2 := tc1[waker.value := WokeAnother(tc1[waker.value], s.now)];
        SetGrows(s.tc, tc1, waker.value, WokeAnother(tc1[waker.value], s.now), x, s.now);
      }
    }
    AccountingGrows(tc2[y], y in s.kthreads, false, false, false, s.now);
    SetGrows(s.tc, tc2, y, AccountSleep(tc2[y], y in s.kthreads, s.now), x, s.now);
  }

  lemma EnqueueGrows(s: Sys, y: Task, cpu: int, wakeup: bool, waker: Option<Task>, idleCpu: int, start: nat, x: Task)
    requires s.Shape() && y in s.tc && x in s.tc && s.Cpu(cpu) && start < s.N() && (idleCpu == -1 || s.Cpu(idleCpu))
    requires var tc := if wakeup then Boosted(s, y, waker) else s.tc[y]; LC <= EffectiveTier(tc) <= GREEDY
    ensures Grows(s.tc, EnqueueStep(s, y, cpu, wakeup, waker, idleCpu, start).tc, x, s.now)
  {
    var tc := if wakeup then Boosted(s, y, waker) else s.tc[y];
    var s1 := s.(tc := s.tc[y := tc.(resume := 0)]);
    var tier := EffectiveTier(tc);
    if !(tc.resume > 0 && !s.rtCurr[cpu]) {
      PlacedGrows(s1, y, tier, cpu, wakeup, Pick(s1, y, tier, cpu, idleCpu, start), x);
    }
  }

  lemma PlacedGrows(s: Sys, y: Task, tier: int, cpu: int, wakeup: bool, pick: int, x: Task)
    requires s.Shape() && y in s.tc && x in s.tc && s.Cpu(cpu) && s.Cpu(pick) && LC <= tier <= GREEDY
    ensures Grows(s.tc, PlaceOn(s, y, tier, cpu, wakeup, pick).tc, x, s.now)
  {
  }

  lemma OtherGrows(s: Sys, e: Event, x: Task)
    requires Inv(s) && Enabled(s, e) && x in s.tc && !e.Dispatch? && !e.Stopping? && !e.Runnable? && !e.Enqueue?
    ensures Grows(s.tc, Next(s, e).tc, x, s.now)
  {
    if e.SelectCpu? {
      assert Next(s, e) == SelectCpuStep(s, e.x, e.ttwu, e.waker, e.cpu, e.idle);
    } else if e.Run? {
      assert Next(s, e) == RunStep(s, e.x, e.cpu, e.slice);
    } else if e.SchedSwitch? {
      SwitchKeepsTasks(s, e.cpu, x);
    }
  }

  lemma EnqueuedGrows(s: Sys, e: Event, x: Task)
    requires Inv(s) && Enabled(s, e) && x in s.tc && e.Enqueue?
    ensures Grows(s.tc, Next(s, e).tc, x, s.now)
  {
    BoostedOk(s, e.x, e.waker);
    EnqueueGrows(s, e.x, e.cpu, e.wakeup, e.waker, e.idleCpu, e.start, x);
  }

  /** No event sets the time of the last move back. */
  lemma StampGrows(s: Sys, e: Event, x: Task)
    requires Inv(s) && Enabled(s, e) && x in s.tc
    ensures Grows(s.tc, Next(s, e).tc, x, s.now)
  {
    if e.Dispatch? {
      DispatchGrows(s, e, x);
    } else if e.Stopping? {
      StoppingGrows(s, e.x, e.cpu, e.runnable, e.sliceZero, x);
    } else if e.Runnable? {
      RunnableGrows(s, e.x, e.wakeup, e.waker, x);
    } else if e.Enqueue? {
      EnqueuedGrows(s, e, x);
    } else {
      OtherGrows(s, e, x);
    }
  }

  lemma StampAfter(s: Sys, e: Event, s': Sys, x: Task)
    requires Inv(s) && Follows(s, e, s') && x in s.tc
    ensures x in s'.tc && s'.tc[x].lastMigrated >= s.tc[x].lastMigrated
  {
    StampGrows(s, e, x);
    assert TaskTimesOk(s.tc[x], s.loc[x], s.now);
  }

  ghost function StampsOf(states: seq<Sys>, events: seq<Event>, x: Task): (ms: seq<nat>)
    requires RunOf(states, events, x)
    ensures |ms| == |states| && forall i :: 0 <= i < |ms| ==> ms[i] == states[i].tc[x].lastMigrated
  {
    seq(|states|, i requires 0 <= i < |states| => states[i].tc[x].lastMigrated)
  }

  lemma StampsGrow(states: seq<Sys>, events: seq<Event>, x: Task)
    requires RunOf(states, events, x)
    ensures var ms := StampsOf(states, events, x); forall i :: 0 <= i < |ms| - 1 ==> ms[i] <= ms[i + 1]
  {
    var ms := StampsOf(states, events, x);
    forall i | 0 <= i < |ms| - 1 ensures ms[i] <= ms[i + 1] { StampAfter(states[i], events[i], states[i + 1], x); }
  }

  lemma {:induction false} Monotone(ms: seq<nat>, a: nat, b: nat)
    requires a <= b < |ms| && forall i :: 0 <= i < |ms| - 1 ==> ms[i] <= ms[i + 1]
    ensures ms[a] <= ms[b]
    decreases b
  {
    if a < b { Monotone(ms, a, b - 1); }
  }

  /** Over every run: from any move of a task to the next move for balance alone, 10 ms pass. */
  lemma MovesAreRationed(states: seq<Sys>, events: seq<Event>, x: Task, a: nat, b: nat)
    requires RunOf(states, events, x) && a < b < |events|
    requires MovedBy(states[a], events[a], states[a + 1]) && events[a].x == x
    requires Balances(states[b], events[b], states[b + 1]) && events[b].x == x
    ensures states[b].now - states[a].now >= BALANCE_INTERVAL
  {
    assert Follows(states[a], events[a], states[a + 1]) && Follows(states[b], events[b], states[b + 1]);
    MoveIsStamped(states[a], events[a]);
    MoveIsStamped(states[b], events[b]);
    StampsGrow(states, events, x);
    Monotone(StampsOf(states, events, x), a + 1, b);
  }
}

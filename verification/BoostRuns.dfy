/** CPU time of one task over runs of the scheduler: it is charged exactly once, and wake boosts are bounded. */
module BoostRuns {
  import opened Options
  import opened Defs
  import opened Accounting
  import opened Classifier
  import opened Machine
  import opened Invariant
  import opened Preservation

  /** One task, as far as its running time and its boost are concerned. */
  datatype View = View(now: nat, running: bool, started: nat, boost: int, used: nat)

  /** What an event does to the task: the time it charges it for, whether a preemption kick was pending then, and
      whether it grants a boost. */
  datatype Deed = Deed(accounts: bool, charged: nat, preempt: bool, grants: bool)

  ghost predicate Step(v: View, w: Deed, v': View)
  {
    && v.started <= v.now <= v'.now
    && (if w.accounts then v.running && w.charged == v.now - v.started && v'.now == v.now else w.charged == 0)
    && (v'.running ==> v'.started == (if w.accounts || !v.running then v.now else v.started))
    && (v'.running && !v.running ==> v'.now == v.now)
    && (w.grants ==> v'.boost != EMPTY && v'.used == 0 && !w.accounts)
    && (!w.grants ==> v'.boost == EMPTY || (v'.boost == v.boost && v'.used == v.used + w.charged))
    && (w.accounts && !w.preempt ==> v'.boost == EMPTY || v'.used < WAKE_BOOST_BUDGET)
  }

  ghost predicate Run(vs: seq<View>, ws: seq<Deed>)
  {
    |vs| == |ws| + 1 && forall i :: 0 <= i < |ws| ==> Step(vs[i], ws[i], vs[i + 1])
  }

  function SumCharged(ws: seq<Deed>): nat
  {
    if ws == [] then 0 else SumCharged(ws[..|ws| - 1]) + ws[|ws| - 1].charged
  }

  lemma SumLast(ws: seq<Deed>, a: nat, b: nat)
    requires a < b <= |ws|
    ensures SumCharged(ws[a..b]) == SumCharged(ws[a..b - 1]) + ws[b - 1].charged
  {
    assert ws[a..b][..b - a - 1] == ws[a..b - 1];
  }

  // ----- from what one event may do to whole stretches -----

  lemma {:induction false} ChargesTelescope(vs: seq<View>, ws: seq<Deed>, a: nat, b: nat)
    requires Run(vs, ws) && a <= b < |vs| && forall i :: a <= i <= b ==> vs[i].running
    ensures SumCharged(ws[a..b]) == vs[b].started - vs[a].started
    decreases b
  {
    if a < b {
      ChargesTelescope(vs, ws, a, b - 1);
      SumLast(ws, a, b);
      assert Step(vs[b - 1], ws[b - 1], vs[b]);
    } else {
      assert ws[a..b] == [];
    }
  }

  lemma {:induction false} BoostUsedIsTimeRun(vs: seq<View>, ws: seq<Deed>, a: nat, b: nat)
    requires Run(vs, ws) && a <= b < |vs|
    requires forall i :: a <= i < b ==> !ws[i].grants
    requires forall i :: a <= i <= b ==> vs[i].boost != EMPTY
    ensures vs[b].boost == vs[a].boost && vs[b].used == vs[a].used + SumCharged(ws[a..b])
    decreases b
  {
    if a < b {
      BoostUsedIsTimeRun(vs, ws, a, b - 1);
      SumLast(ws, a, b);
      assert Step(vs[b - 1], ws[b - 1], vs[b]);
    } else {
      assert ws[a..b] == [];
    }
  }

  /** The event charges a boosted task past the budget while a preemption kick is pending: the boost goes on all the
      same. */
  predicate KeptByKick(v: View, w: Deed) { w.preempt && v.used + w.charged >= WAKE_BOOST_BUDGET }

  lemma {:induction false} BoostUsedStaysInBudget(vs: seq<View>, ws: seq<Deed>, a: nat, b: nat)
    requires Run(vs, ws) && a <= b < |vs| && vs[a].used < WAKE_BOOST_BUDGET
    requires forall i :: a <= i < b ==> !ws[i].grants && !KeptByKick(vs[i], ws[i])
    requires forall i :: a <= i <= b ==> vs[i].boost != EMPTY
    ensures vs[b].used < WAKE_BOOST_BUDGET
    decreases b
  {
    if a < b {
      BoostUsedStaysInBudget(vs, ws, a, b - 1);
      assert Step(vs[b - 1], ws[b - 1], vs[b]);
    }
  }

  /** Once past the budget, a boost that goes on stays past it. */
  lemma {:induction false} BoostUsedStaysPast(vs: seq<View>, ws: seq<Deed>, a: nat, b: nat)
    requires Run(vs, ws) && a <= b < |vs| && vs[a].used >= WAKE_BOOST_BUDGET
    requires forall i :: a <= i < b ==> !ws[i].grants
    requires forall i :: a <= i <= b ==> vs[i].boost != EMPTY
    ensures vs[b].used >= WAKE_BOOST_BUDGET
    decreases b
  {
    if a < b {
      BoostUsedStaysPast(vs, ws, a, b - 1);
      assert Step(vs[b - 1], ws[b - 1], vs[b]);
    }
  }

  lemma {:induction false} UnboostedStays(vs: seq<View>, ws: seq<Deed>, a: nat, b: nat)
    requires Run(vs, ws) && a <= b < |vs| && vs[a].boost == EMPTY && forall i :: a <= i < b ==> !ws[i].grants
    ensures vs[b].boost == EMPTY
    decreases b
  {
    if a < b {
      UnboostedStays(vs, ws, a, b - 1);
      assert Step(vs[b - 1], ws[b - 1], vs[b]);
    }
  }

  /** From the event that puts the task on a cpu to the one that takes it off again. */
  lemma StretchIsCharged(vs: seq<View>, ws: seq<Deed>, a: nat, b: nat)
    requires Run(vs, ws) && a < b < |ws| && !vs[a].running && ws[b].accounts
    requires forall i :: a < i <= b ==> vs[i].running
    ensures SumCharged(ws[a + 1..b + 1]) == vs[b].now - vs[a].now
  {
    StartAt(vs, ws, a);
    StopAt(vs, ws, b);
    ChargesTelescope(vs, ws, a + 1, b);
    SumLast(ws, a + 1, b + 1);
  }

  lemma StartAt(vs: seq<View>, ws: seq<Deed>, i: nat)
    requires Run(vs, ws) && i < |ws| && !vs[i].running && vs[i + 1].running
    ensures vs[i + 1].started == vs[i].now
  {
    assert Step(vs[i], ws[i], vs[i + 1]);
  }

  lemma StopAt(vs: seq<View>, ws: seq<Deed>, i: nat)
    requires Run(vs, ws) && i < |ws| && ws[i].accounts
    ensures ws[i].charged == vs[i].now - vs[i].started
  {
    assert Step(vs[i], ws[i], vs[i + 1]);
  }

  /** From the grant with event `a` on; the boost lasts at least until event `b - 1`. What it has used is the time
      charged since then; and that is below the budget and the last charge exactly when no event before the last one has
      charged the task past the budget with a kick pending. */
  lemma BoostedTime(vs: seq<View>, ws: seq<Deed>, a: nat, b: nat)
    requires Run(vs, ws) && a + 1 < b <= |ws| && ws[a].grants
    requires forall i :: a < i < b ==> !ws[i].grants && vs[i].boost != EMPTY
    ensures vs[b].boost != EMPTY ==> vs[b].used == SumCharged(ws[a + 1..b])
    ensures SumCharged(ws[a + 1..b]) < WAKE_BOOST_BUDGET + ws[b - 1].charged <==>
            forall i :: a < i < b - 1 ==> !KeptByKick(vs[i], ws[i])
  {
    GrantAt(vs, ws, a);
    if vs[b].boost != EMPTY {
      BoostUsedIsTimeRun(vs, ws, a + 1, b);
    }
    BoostUsedIsTimeRun(vs, ws, a + 1, b - 1);
    SumLast(ws, a + 1, b);
    BudgetKept(vs, ws, a, b - 1);
  }

  lemma GrantAt(vs: seq<View>, ws: seq<Deed>, i: nat)
    requires Run(vs, ws) && i < |ws| && ws[i].grants
    ensures vs[i + 1].boost != EMPTY && vs[i + 1].used == 0
  {
    assert Step(vs[i], ws[i], vs[i + 1]);
  }

  lemma BudgetKept(vs: seq<View>, ws: seq<Deed>, a: nat, c: nat)
    requires Run(vs, ws) && a < c < |ws| && vs[a + 1].used < WAKE_BOOST_BUDGET
    requires forall i :: a < i < c ==> !ws[i].grants
    requires forall i :: a < i <= c ==> vs[i].boost != EMPTY
    ensures vs[c].used < WAKE_BOOST_BUDGET <==> forall i :: a < i < c ==> !KeptByKick(vs[i], ws[i])
  {
    if i :| a < i < c && KeptByKick(vs[i], ws[i]) {
      assert Step(vs[i], ws[i], vs[i + 1]);
      BoostUsedStaysPast(vs, ws, i + 1, c);
    } else {
      BoostUsedStaysInBudget(vs, ws, a + 1, c);
    }
  }

  // ----- every event is such a step -----

  function ViewOf(s: Sys, x: Task): View
    requires s.Shape() && x in s.tc
  {
    View(s.now, s.loc[x].Running?, s.tc[x].startedAt, s.tc[x].boost, s.tc[x].boostUsed)
  }

  predicate Accounts(e: Event, x: Task)
  {
    (e.Stopping? && e.x == x) || (e.Dispatch? && e.prev == Some(x))
  }

  /** A wakeup that gives `x` a better boost than it had. */
  predicate Grants(s: Sys, e: Event, x: Task)
    requires x in s.tc
  {
    && ((e.SelectCpu? && e.x == x && e.ttwu) || (e.Enqueue? && e.x == x && e.wakeup))
    && Boosted(s, x, e.waker).boost < s.tc[x].boost
  }

  function DeedOf(s: Sys, e: Event, x: Task): Deed
    requires s.Shape() && Enabled(s, e) && x in s.tc
  {
    Deed(Accounts(e, x),
         if Accounts(e, x) then Elapsed(s.now, s.tc[x].startedAt) else 0,
         Accounts(e, x) && s.d[e.cpu].preempt,
         Grants(s, e, x))
  }

  lemma KeepOrNot(tc: TaskCtx, kthread: bool, preempt: bool, now: nat)
    requires tc.startedAt <= now
    ensures var t := AccountInDispatch(tc, kthread, preempt, now);
            var used := tc.boostUsed + (now - tc.startedAt);
            && t.startedAt == now
            && (t.boost == EMPTY || (t.boost == tc.boost && t.boostUsed == used
               && (preempt || used < WAKE_BOOST_BUDGET)))
            && KeepRunning(t).startedAt == now
            && (KeepRunning(t).boost == t.boost || KeepRunning(t).boost == EMPTY)
            && KeepRunning(t).boostUsed == t.boostUsed
  {
  }

  lemma StoppingBoost(tc: TaskCtx, kthread: bool, preempt: bool, runnable: bool, sliceZero: bool, now: nat)
    requires tc.startedAt <= now && tc.resume == 0
    ensures var t := AccountInStopping(tc, kthread, preempt, runnable, sliceZero, now);
            var used := tc.boostUsed + (now - tc.startedAt);
            && t.startedAt == tc.startedAt
            && (t.boost == EMPTY || (t.boost == tc.boost && t.boostUsed == used
               && (preempt || used < WAKE_BOOST_BUDGET)))
  {
  }

  /** A boost is only ever granted anew, with nothing used. */
  predicate BoostGranted(tc: TaskCtx, t: TaskCtx)
  {
    && t.startedAt == tc.startedAt && t.granted == tc.granted
    && (t.boost < tc.boost ==> t.boost != EMPTY && t.boostUsed == 0)
    && (t.boost >= tc.boost ==> t.boost == EMPTY || (t.boost == tc.boost && t.boostUsed == tc.boostUsed))
  }

  lemma SleepKeepsBoost(tc: TaskCtx, kthread: bool, now: nat)
    ensures var t := AccountSleep(tc, kthread, now);
            && t.startedAt == tc.startedAt && t.granted == tc.granted
            && t.boost == tc.boost && t.boostUsed == tc.boostUsed
  {
  }

  lemma BoostedIsGranted(s: Sys, x: Task, waker: Option<Task>)
    requires s.Shape() && TasksOk(s) && x in s.tc
    ensures BoostGranted(s.tc[x], Boosted(s, x, waker))
  {
    assert TaskOk(s.tc[x]);
    if waker.Some? && waker.value in s.tc {
      assert TaskOk(s.tc[waker.value]);
    }
  }

  /** What events do to a task they do not account for. */
  ghost predicate Unaccounted(s: Sys, e: Event, s': Sys, x: Task)
    requires s.Shape() && x in s.tc
  {
    && x in s'.tc && x in s'.loc && s.now <= s'.now
    && (s'.tc[x].boost < s.tc[x].boost <==> Grants(s, e, x))
    && s'.tc[x].startedAt == s.tc[x].startedAt && s'.loc[x].Running? == s.loc[x].Running?
    && BoostGranted(s.tc[x], s'.tc[x])
  }

  lemma UnaccountedSteps(s: Sys, e: Event, x: Task)
    requires Inv(s) && Enabled(s, e) && x in s.tc && Inv(Next(s, e)) && Unaccounted(s, e, Next(s, e), x)
             && !Accounts(e, x)
    ensures Step(ViewOf(s, x), DeedOf(s, e, x), ViewOf(Next(s, e), x))
  {
    assert TaskOk(s.tc[x]) && TaskTimesOk(s.tc[x], s.loc[x], s.now);
  }

  lemma PlaceOnKeepsTasks(s: Sys, y: Task, tier: int, cpu: int, wakeup: bool, pick: int, x: Task)
    requires s.Shape() && y in s.tc && x in s.tc && s.Cpu(cpu) && s.Cpu(pick) && LC <= tier <= GREEDY
    ensures var s' := PlaceOn(s, y, tier, cpu, wakeup, pick);
            && x in s'.tc && s'.tc[x] == s.tc[x].(lastMigrated := s'.tc[x].lastMigrated) && s'.now == s.now
            && x in s'.loc && (if x == y then s'.loc[x].Queued? else s'.loc[x] == s.loc[x])
  {
  }

  /** Putting a task into a queue leaves the contexts as they are, but for the time of a migration. */
  lemma EnqueueStepTasks(s: Sys, y: Task, cpu: int, wakeup: bool, waker: Option<Task>, idleCpu: int, start: nat,
                         x: Task)
    requires s.Shape() && y in s.tc && x in s.tc && s.Cpu(cpu) && start < s.N() && (idleCpu == -1 || s.Cpu(idleCpu))
    requires var tc := if wakeup then Boosted(s, y, waker) else s.tc[y]; LC <= EffectiveTier(tc) <= GREEDY
    ensures var tc := if wakeup then Boosted(s, y, waker) else s.tc[y];
            var was, s' := (if x == y then tc.(resume := 0) else s.tc[x]),
              EnqueueStep(s, y, cpu, wakeup, waker, idleCpu, start);
            && x in s'.tc && x in s'.loc && s'.now == s.now && s'.tc[x] == was.(lastMigrated := s'.tc[x].lastMigrated)
            && (if x == y then s'.loc[x].Queued? else s'.loc[x] == s.loc[x])
  {
    var tc := if wakeup then Boosted(s, y, waker) else s.tc[y];
    var s1 := s.(tc := s.tc[y := tc.(resume := 0)]);
    var tier := EffectiveTier(tc);
    if !(tc.resume > 0 && !s.rtCurr[cpu]) {
      PlaceOnKeepsTasks(s1, y, tier, cpu, wakeup, Pick(s1, y, tier, cpu, idleCpu, start), x);
    }
  }

  lemma EnqueuedTasks(s: Sys, e: Event, x: Task)
    requires Inv(s) && Enabled(s, e) && e.Enqueue? && x in s.tc
    ensures var tc := if e.wakeup then Boosted(s, e.x, e.waker) else s.tc[e.x];
            var was, s' := (if x == e.x then tc.(resume := 0) else s.tc[x]), Next(s, e);
            && x in s'.tc && x in s'.loc && s'.now == s.now && s'.tc[x] == was.(lastMigrated := s'.tc[x].lastMigrated)
            && (if x == e.x then s'.loc[x].Queued? else s'.loc[x] == s.loc[x])
  {
    BoostedOk(s, e.x, e.waker);
    EnqueueStepTasks(s, e.x, e.cpu, e.wakeup, e.waker, e.idleCpu, e.start, x);
  }

  lemma EnqueueTask(s: Sys, e: Event, x: Task)
    requires Inv(s) && Enabled(s, e) && e.Enqueue? && x in s.tc
    ensures Unaccounted(s, e, Next(s, e), x)
  {
    EnqueuedTasks(s, e, x);
    BoostedIsGranted(s, e.x, e.waker);
    assert TaskOk(s.tc[x]);
  }

  lemma ApplyKeepsTasks(s: Sys, cpu: int, ch: Choice, x: Task)
    requires Inv(s) && s.Cpu(cpu) && CanTake(s, cpu, ch) && x in s.tc
    ensures var s' := Apply(s, cpu, ch);
            && s'.tc == s.tc && s'.now == s.now && x in s'.loc && s'.loc[x].Running? == s.loc[x].Running?
  {
    if ch.Take? {
      var k := Qid(ch.tier, ch.from);
      var i := FirstAllowed(s, s.q[k], cpu);
      assert s.loc[s.q[k][i]] == Queued(k);
    }
  }

  lemma DispatchTask(s: Sys, e: Event, x: Task)
    requires Inv(s) && Enabled(s, e) && e.Dispatch? && x in s.tc
    ensures x in Next(s, e).tc && x in Next(s, e).loc && Next(s, e).now == s.now
    ensures var t := AccountInDispatch(s.tc[x], x in s.kthreads, s.d[e.cpu].preempt, s.now);
            Next(s, e).tc[x]
              == if e.prev != Some(x) then s.tc[x] else if e.ch == Keep then KeepRunning(t) else t
    ensures Next(s, e).loc[x].Running? <==> s.loc[x].Running?
  {
    AccountPrevKeepsInv(s, e.cpu, e.prev);
    var s1 := AccountPrev(s, e.cpu, e.prev);
    GoodChoiceCanTake(s1, e.cpu, PrevTier(s1, e.prev), e.ch);
    ApplyKeepsTasks(s1, e.cpu, e.ch, x);
    assert Next(s, e) == DispatchStep(s, e.cpu, e.prev, e.ch);
  }

  lemma DispatchLeaves(s: Sys, e: Event, x: Task)
    requires Inv(s) && Enabled(s, e) && e.Dispatch? && x in s.tc && e.prev != Some(x)
    ensures Unaccounted(s, e, Next(s, e), x)
  {
    DispatchTask(s, e, x);
    assert TaskOk(s.tc[x]);
  }

  lemma DispatchedSteps(s: Sys, e: Event, x: Task)
    requires Inv(s) && Enabled(s, e) && e.Dispatch? && x in s.tc && e.prev == Some(x)
    requires Next(s, e).Shape() && x in Next(s, e).tc
    ensures Step(ViewOf(s, x), DeedOf(s, e, x), ViewOf(Next(s, e), x))
  {
    DispatchTask(s, e, x);
    assert TaskOk(s.tc[x]) && TaskTimesOk(s.tc[x], s.loc[x], s.now);
    KeepOrNot(s.tc[x], x in s.kthreads, s.d[e.cpu].preempt, s.now);
  }

  lemma DispatchSteps(s: Sys, e: Event, x: Task)
    requires Inv(s) && Enabled(s, e) && e.Dispatch? && x in s.tc && Inv(Next(s, e)) && x in Next(s, e).tc
    ensures Step(ViewOf(s, x), DeedOf(s, e, x), ViewOf(Next(s, e), x))
  {
    if e.prev == Some(x) {
      DispatchedSteps(s, e, x);
    } else {
      DispatchLeaves(s, e, x);
      UnaccountedSteps(s, e, x);
    }
  }

  lemma StoppingLeaves(s: Sys, e: Event, x: Task)
    requires Inv(s) && Enabled(s, e) && e.Stopping? && x in s.tc && x != e.x
    ensures Unaccounted(s, e, Next(s, e), x)
  {
    assert Next(s, e) == StoppingStep(s, e.x, e.cpu, e.runnable, e.sliceZero);
    assert TaskOk(s.tc[x]);
  }

  lemma StoppedSteps(s: Sys, e: Event)
    requires Inv(s) && Enabled(s, e) && e.Stopping? && e.x in Next(s, e).tc && e.x in Next(s, e).loc
    ensures Step(ViewOf(s, e.x), DeedOf(s, e, e.x), ViewOf(Next(s, e), e.x))
  {
    var x := e.x;
    assert TaskOk(s.tc[x]) && TaskTimesOk(s.tc[x], s.loc[x], s.now);
    StoppingBoost(s.tc[x], x in s.kthreads, s.d[e.cpu].preempt, e.runnable, e.sliceZero, s.now);
    assert Next(s, e) == StoppingStep(s, x, e.cpu, e.runnable, e.sliceZero);
  }

  lemma StoppingSteps(s: Sys, e: Event, x: Task)
    requires Inv(s) && Enabled(s, e) && e.Stopping? && x in s.tc && Inv(Next(s, e)) && x in Next(s, e).tc
    ensures Step(ViewOf(s, x), DeedOf(s, e, x), ViewOf(Next(s, e), x))
  {
    if e.x == x {
      StoppedSteps(s, e);
    } else {
      StoppingLeaves(s, e, x);
      UnaccountedSteps(s, e, x);
    }
  }

  lemma RunLeaves(s: Sys, e: Event, x: Task)
    requires Inv(s) && Enabled(s, e) && e.Run? && x in s.tc && x != e.x
    ensures Unaccounted(s, e, Next(s, e), x)
  {
    assert Next(s, e) == RunStep(s, e.x, e.cpu, e.slice);
    assert TaskOk(s.tc[x]);
  }

  lemma RanSteps(s: Sys, e: Event)
    requires Inv(s) && Enabled(s, e) && e.Run? && e.x in Next(s, e).tc && Next(s, e).Shape()
    ensures Step(ViewOf(s, e.x), DeedOf(s, e, e.x), ViewOf(Next(s, e), e.x))
  {
    assert Next(s, e) == RunStep(s, e.x, e.cpu, e.slice);
    assert s.loc[e.x] == Local(e.cpu);
    assert TaskOk(s.tc[e.x]) && TaskTimesOk(s.tc[e.x], s.loc[e.x], s.now);
  }

  lemma RunSteps(s: Sys, e: Event, x: Task)
    requires Inv(s) && Enabled(s, e) && e.Run? && x in s.tc && Inv(Next(s, e)) && x in Next(s, e).tc
    ensures Step(ViewOf(s, x), DeedOf(s, e, x), ViewOf(Next(s, e), x))
  {
    if e.x == x {
      RanSteps(s, e);
    } else {
      RunLeaves(s, e, x);
      UnaccountedSteps(s, e, x);
    }
  }

  lemma RunnableTask(s: Sys, e: Event, x: Task)
    requires Inv(s) && Enabled(s, e) && e.Runnable? && x in s.tc
    ensures Unaccounted(s, e, Next(s, e), x)
  {
    var tc1 := if e.wakeup then s.tc[e.x := Woken(s.tc[e.x], s.now)] else s.tc;
    var tc2 := if e.wakeup && e.waker.Some? && e.waker.value != e.x && e.waker.value in tc1
               then tc1[e.waker.value := WokeAnother(tc1[e.waker.value], s.now)] else tc1;
    SleepKeepsBoost(tc2[e.x], e.x in s.kthreads, s.now);
    assert Next(s, e) == RunnableStep(s, e.x, e.wakeup, e.waker);
    assert TaskOk(s.tc[x]);
  }

  lemma SelectCpuTask(s: Sys, e: Event, x: Task)
    requires Inv(s) && Enabled(s, e) && e.SelectCpu? && x in s.tc
    ensures Unaccounted(s, e, Next(s, e), x)
  {
    BoostedIsGranted(s, e.x, e.waker);
    assert TaskOk(s.tc[x]) && TaskOk(s.tc[e.x]);
    assert Next(s, e) == SelectCpuStep(s, e.x, e.ttwu, e.waker, e.cpu, e.idle);
  }

  lemma QuiescentTask(s: Sys, e: Event, x: Task)
    requires Inv(s) && Enabled(s, e) && e.Quiescent? && x in s.tc
    ensures Unaccounted(s, e, Next(s, e), x)
  {
    assert Next(s, e) == QuiescentStep(s, e.x, e.sleep);
    assert TaskOk(s.tc[x]);
  }

  lemma SwitchKeepsTasks(s: Sys, cpu: int, x: Task)
    requires s.Shape() && s.Cpu(cpu) && x in s.tc
    ensures var s' := SchedSwitchStep(s, cpu);
            s'.tc == s.tc && s'.now == s.now && x in s'.loc && s'.loc[x].Running? == s.loc[x].Running?
  {
  }

  lemma SchedSwitchTask(s: Sys, e: Event, x: Task)
    requires Inv(s) && Enabled(s, e) && e.SchedSwitch? && x in s.tc
    ensures Unaccounted(s, e, Next(s, e), x)
  {
    SwitchKeepsTasks(s, e.cpu, x);
    assert TaskOk(s.tc[x]);
  }

  lemma OtherTask(s: Sys, e: Event, x: Task)
    requires Inv(s) && Enabled(s, e) && x in s.tc
    requires e.Tick? || e.InitTask? || e.SetAffinity? || e.InsertDirect? || e.SetCurrent?
    ensures Unaccounted(s, e, Next(s, e), x)
  {
    assert TaskOk(s.tc[x]);
  }

  lemma EveryEventSteps(s: Sys, e: Event, x: Task)
    requires Inv(s) && Enabled(s, e) && x in s.tc
    ensures Inv(Next(s, e)) && x in Next(s, e).tc
    ensures Step(ViewOf(s, x), DeedOf(s, e, x), ViewOf(Next(s, e), x))
  {
    NextKeepsInv(s, e);
    TasksStay(s, e, x);
    if e.Dispatch? {
      DispatchSteps(s, e, x);
    } else if e.Stopping? {
      StoppingSteps(s, e, x);
    } else if e.Run? {
      RunSteps(s, e, x);
    } else {
      UnaccountedEvent(s, e, x);
      UnaccountedSteps(s, e, x);
    }
  }

  /** Tasks do not go away. */
  lemma TasksStay(s: Sys, e: Event, x: Task)
    requires Inv(s) && Enabled(s, e) && x in s.tc
    ensures x in Next(s, e).tc
  {
    if e.Dispatch? {
      DispatchTask(s, e, x);
    } else if !e.Stopping? && !e.Run? {
      UnaccountedEvent(s, e, x);
    }
  }

  lemma UnaccountedEvent(s: Sys, e: Event, x: Task)
    requires Inv(s) && Enabled(s, e) && x in s.tc && !e.Dispatch? && !e.Stopping? && !e.Run?
    ensures Unaccounted(s, e, Next(s, e), x)
  {
    if e.Enqueue? {
      EnqueueTask(s, e, x);
    } else if e.Runnable? {
      RunnableTask(s, e, x);
    } else if e.SelectCpu? {
      SelectCpuTask(s, e, x);
    } else if e.Quiescent? {
      QuiescentTask(s, e, x);
    } else if e.SchedSwitch? {
      SchedSwitchTask(s, e, x);
    } else {
      OtherTask(s, e, x);
    }
  }

  // ----- runs -----

  ghost predicate RunOf(states: seq<Sys>, events: seq<Event>, x: Task)
  {
    && |states| == |events| + 1
    && (forall i :: 0 <= i < |states| ==> Inv(states[i]) && x in states[i].tc)
    && (forall i :: 0 <= i < |events| ==> Follows(states[i], events[i], states[i + 1]))
  }

  /** From the state on in which a task is known, every run from init qualifies. */
  lemma {:induction false} WholeRunsQualify(states: seq<Sys>, events: seq<Event>, n: nat, x: Task)
    requires IsRun(states, events) && n < |states| && x in states[n].tc
    ensures RunOf(states[n..], events[n..], x)
  {
    RunsKeepInv(states, events);
    KnownFrom(states, events, n, x);
    var states', events' := states[n..], events[n..];
    forall i | 0 <= i < |states'| ensures Inv(states'[i]) && x in states'[i].tc { assert states'[i] == states[n + i]; }
    forall i | 0 <= i < |events'| ensures Follows(states'[i], events'[i], states'[i + 1]) {
      assert states'[i] == states[n + i] && states'[i + 1] == states[n + i + 1] && events'[i] == events[n + i];
    }
  }

  lemma KnownFrom(states: seq<Sys>, events: seq<Event>, n: nat, x: Task)
    requires Steps(states, events) && (forall i :: 0 <= i < |states| ==> Inv(states[i])) && n < |states|
             && x in states[n].tc
    ensures forall i :: n <= i < |states| ==> x in states[i].tc
  {
    var i := n;
    while i < |events|
      invariant n <= i <= |events|
      invariant forall j :: n <= j <= i ==> x in states[j].tc
    {
      assert Follows(states[i], events[i], states[i + 1]);
      TasksStay(states[i], events[i], x);
      i := i + 1;
    }
  }

  ghost function ViewsOf(states: seq<Sys>, events: seq<Event>, x: Task): (vs: seq<View>)
    requires RunOf(states, events, x)
    ensures |vs| == |states| && forall i :: 0 <= i < |vs| ==> vs[i] == ViewOf(states[i], x)
  {
    seq(|states|, i requires 0 <= i < |states| => ViewOf(states[i], x))
  }

  ghost function DeedsOf(states: seq<Sys>, events: seq<Event>, x: Task): (ws: seq<Deed>)
    requires RunOf(states, events, x)
    ensures |ws| == |events|
    ensures forall i :: 0 <= i < |ws| ==>
              Follows(states[i], events[i], states[i + 1]) && ws[i] == DeedOf(states[i], events[i], x)
  {
    seq(|events|, i requires 0 <= i < |events| && Follows(states[i], events[i], states[i + 1]) =>
      DeedOf(states[i], events[i], x))
  }

  lemma RunsAreWatched(states: seq<Sys>, events: seq<Event>, x: Task)
    requires RunOf(states, events, x)
    ensures Run(ViewsOf(states, events, x), DeedsOf(states, events, x))
  {
    var vs, ws := ViewsOf(states, events, x), DeedsOf(states, events, x);
    forall i | 0 <= i < |ws|
      ensures Step(vs[i], ws[i], vs[i + 1])
    {
      assert Follows(states[i], events[i], states[i + 1]);
      EveryEventSteps(states[i], events[i], x);
    }
  }

  /** CPU time is charged exactly once. A task starts to run with event `a` and event `b` is the stop (or a dispatch):
      what the dispatches in between and `b` charge it for adds up to the time in between. */
  lemma TimeIsChargedOnce(states: seq<Sys>, events: seq<Event>, x: Task, a: nat, b: nat)
    requires RunOf(states, events, x) && a < b < |events|
    requires var vs, ws := ViewsOf(states, events, x), DeedsOf(states, events, x);
             !vs[a].running && ws[b].accounts && forall i :: a < i <= b ==> vs[i].running
    ensures var vs, ws := ViewsOf(states, events, x), DeedsOf(states, events, x);
            SumCharged(ws[a + 1..b + 1]) == vs[b].now - vs[a].now
  {
    RunsAreWatched(states, events, x);
    StretchIsCharged(ViewsOf(states, events, x), DeedsOf(states, events, x), a, b);
  }

  /** While a boost lasts, `boostUsed` is the time the task has run since it was granted. That time is below 4 ms and
      the stretch that uses them up, exactly when no dispatch or stop before the last has charged the task past the 4 ms
      while a preemption kick was pending; a kick that comes before the 4 ms are used up does no harm. */
  lemma BoostIsBounded(states: seq<Sys>, events: seq<Event>, x: Task, a: nat, b: nat)
    requires RunOf(states, events, x) && a + 1 < b <= |events|
    requires var vs, ws := ViewsOf(states, events, x), DeedsOf(states, events, x);
             ws[a].grants && forall i :: a < i < b ==> !ws[i].grants && vs[i].boost != EMPTY
    ensures var vs, ws := ViewsOf(states, events, x), DeedsOf(states, events, x);
            && (vs[b].boost != EMPTY ==> vs[b].used == SumCharged(ws[a + 1..b]))
            && (SumCharged(ws[a + 1..b]) < WAKE_BOOST_BUDGET + ws[b - 1].charged <==>
                forall i :: a < i < b - 1 ==> !KeptByKick(vs[i], ws[i]))
  {
    RunsAreWatched(states, events, x);
    BoostedTime(ViewsOf(states, events, x), DeedsOf(states, events, x), a, b);
  }

  /** A boost that has ended, for its budget or because the task slept, only comes back with a new wakeup. */
  lemma BoostsComeFromWakeups(states: seq<Sys>, events: seq<Event>, x: Task, a: nat, b: nat)
    requires RunOf(states, events, x) && a <= b <= |events| && states[a].tc[x].boost == EMPTY
    requires forall i :: a <= i < b ==>
               !((events[i].SelectCpu? && events[i].x == x && events[i].ttwu)
                 || (events[i].Enqueue? && events[i].x == x && events[i].wakeup))
    ensures states[b].tc[x].boost == EMPTY
  {
    RunsAreWatched(states, events, x);
    var vs, ws := ViewsOf(states, events, x), DeedsOf(states, events, x);
    forall i | a <= i < b ensures !ws[i].grants { NoGrantWithoutWakeup(states[i], events[i], x); }
    UnboostedStays(vs, ws, a, b);
  }

  lemma NoGrantWithoutWakeup(s: Sys, e: Event, x: Task)
    requires s.Shape() && Enabled(s, e) && x in s.tc
    requires !((e.SelectCpu? && e.x == x && e.ttwu) || (e.Enqueue? && e.x == x && e.wakeup))
    ensures !DeedOf(s, e, x).grants
  {
  }
}

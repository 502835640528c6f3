/** Starvation overrides over whole runs of the scheduler. */
module Starvation {
  import opened Options
  import opened Defs
  import opened Classifier
  import opened Machine
  import opened Invariant
  import opened Preservation
  import opened Dispatching
  import V = StarvationView

  function ViewOf(s: Sys, c: int): V.View
    requires s.Shape() && s.Cpu(c)
  {
    V.View(s.now, s.d[c].head,
           [false, s.Q(LC, c) != [], s.Q(INTERACTIVE, c) != [], s.Q(NORMAL, c) != [], s.Q(GREEDY, c) != []],
           s.d[c].lastOverride, s.d[c].ovLeft)
  }

  /** The tier of `c` one of whose tasks an event serves, on `c` itself or on a cpu that takes it over. */
  function TookFrom(e: Event, c: int): int
  {
    if e.Dispatch? && e.ch.Take? && e.ch.from == c then e.ch.tier else 0
  }

  function StartedOn(e: Event, c: int): int
  {
    if e.Dispatch? && e.cpu == c && e.ch.Take? && e.ch.phase == Start then e.ch.tier else 0
  }

  /** Dispatch on `c` gets as far as looking for a starved tier, outside the cooldown. */
  ghost predicate Checks(s: Sys, e: Event, c: int)
    requires Inv(s) && Enabled(s, e)
  {
    e.Dispatch? && e.cpu == c &&
    var s1 := AccountPrev(s, c, e.prev);
    !EarlyWork(s1, c) && !CanContinue(s1, c) && !CoolingDown(s1, c)
  }

  /** The task whose time an event accounts for on `c`. */
  function Accounted(e: Event, c: int): Option<Task>
  {
    if e.Stopping? && e.cpu == c then Some(e.x) else if e.Dispatch? && e.cpu == c then e.prev else None
  }

  /** CPU time an event counts against the override in progress on `c`. */
  function Charged(s: Sys, e: Event, c: int): nat
    requires s.Shape() && s.Cpu(c) && Enabled(s, e)
  {
    var x := Accounted(e, c);
    if x.None? || s.d[c].ovLeft == 0 || EffectiveTier(s.tc[x.value]) != s.d[c].ovTier then 0
    else Elapsed(s.now, s.tc[x.value].startedAt)
  }

  ghost function DeedOf(s: Sys, e: Event, c: int): V.Deed
    requires Inv(s) && Enabled(s, e) && s.Cpu(c)
  {
    V.Deed(TookFrom(e, c), StartedOn(e, c), Checks(s, e, c), Charged(s, e, c))
  }

  // ----- every event is a step of every cpu's view -----

  lemma ViewOk(s: Sys, c: int)
    requires Inv(s) && s.Cpu(c)
    ensures ViewOf(s, c).Ok()
    ensures forall t :: INTERACTIVE <= t <= GREEDY ==> (ViewOf(s, c).waiting[t] <==> s.Q(t, c) != [])
    ensures forall t :: INTERACTIVE <= t <= GREEDY ==> ViewOf(s, c).Overrun(t) == Overrun(s, c, t)
  {
    assert CpuOk(s.d[c], s.now);
  }

  /** What events other than dispatch do to the tiers of `c`: queue something, or take something away unserved. */
  ghost predicate Undisturbed(s: Sys, s': Sys, c: int)
    requires s.Shape() && s.Cpu(c)
  {
    && s'.Shape() && s'.N() == s.N() && s.now <= s'.now
    && s'.d[c].lastOverride == s.d[c].lastOverride && s'.d[c].ovTier == s.d[c].ovTier
    && forall t :: INTERACTIVE <= t <= GREEDY ==>
         var filled := s.Q(t, c) == [] && s'.Q(t, c) != [];
         s'.d[c].head[t] == (if filled then s.now else s.d[c].head[t]) && (filled ==> s'.now == s.now)
  }

  lemma UndisturbedSteps(s: Sys, e: Event, s': Sys, c: int)
    requires Inv(s) && Enabled(s, e) && !e.Dispatch? && Inv(s') && s.Cpu(c) && Undisturbed(s, s', c)
    requires s'.d[c].ovLeft == Elapsed(s.d[c].ovLeft, Charged(s, e, c))
    ensures V.Step(ViewOf(s, c), DeedOf(s, e, c), ViewOf(s', c))
  {
    ViewOk(s, c);
    ViewOk(s', c);
    assert DeedOf(s, e, c) == V.Deed(0, 0, false, Charged(s, e, c));
  }

  lemma SameTiersUndisturbed(s: Sys, s': Sys, c: int)
    requires s.Shape() && s'.Shape() && s.Cpu(c) && s'.topo == s.topo && s'.q == s.q && s.now <= s'.now
    requires s'.d[c].head == s.d[c].head && s'.d[c].lastOverride == s.d[c].lastOverride
             && s'.d[c].ovTier == s.d[c].ovTier
    ensures Undisturbed(s, s', c)
  {
  }

  lemma StoppingKeepsTiers(s: Sys, x: Task, cpu: int, runnable: bool, sliceZero: bool, c: int)
    requires s.Shape() && s.Cpu(cpu) && x in s.tc && s.Cpu(c)
    ensures var s' := StoppingStep(s, x, cpu, runnable, sliceZero);
            && s'.topo == s.topo && s'.q == s.q && s'.now == s.now && |s'.d| == |s.d|
            && s'.d[c].head == s.d[c].head && s'.d[c].lastOverride == s.d[c].lastOverride
               && s'.d[c].ovTier == s.d[c].ovTier
            && s'.d[c].ovLeft == (if c == cpu && s.d[c].ovLeft > 0 && EffectiveTier(s.tc[x]) == s.d[c].ovTier
                                  then Elapsed(s.d[c].ovLeft, Elapsed(s.now, s.tc[x].startedAt)) else s.d[c].ovLeft)
  {
  }

  lemma StoppingUndisturbs(s: Sys, e: Event, c: int)
    requires Inv(s) && Enabled(s, e) && e.Stopping? && s.Cpu(c) && Next(s, e).Shape()
    ensures Undisturbed(s, Next(s, e), c)
    ensures Next(s, e).d[c].ovLeft == Elapsed(s.d[c].ovLeft, Charged(s, e, c))
  {
    StoppingKeepsTiers(s, e.x, e.cpu, e.runnable, e.sliceZero, c);
    SameTiersUndisturbed(s, Next(s, e), c);
  }

  lemma QuiescentUndisturbs(s: Sys, e: Event, c: int)
    requires Inv(s) && Enabled(s, e) && e.Quiescent? && s.Cpu(c)
    ensures Undisturbed(s, Next(s, e), c) && Next(s, e).d[c].ovLeft == s.d[c].ovLeft
  {
    NextKeepsInv(s, e);
    WithoutAnything(e.x);
  }

  lemma WithoutAnything(x: Task)
    ensures Without([], x) == []
  {
  }

  lemma InsertUndisturbs(s: Sys, s2: Sys, x: Task, tier: int, cpu: int, atHead: bool, c: int)
    requires s.Shape() && s2.Shape() && LC <= tier <= GREEDY && s.Cpu(cpu) && s.Cpu(c) && x in s2.tc
    requires s2.topo == s.topo && s2.q == s.q && s2.d == s.d && s2.now == s.now
    ensures var s3 := Insert(s2, x, tier, cpu, atHead);
            && Undisturbed(s, s3, c) && s3.d[c].ovLeft == s.d[c].ovLeft
            && Undisturbed(s, s3.(d := s3.d[cpu := s3.d[cpu].(preempt := true)]), c)
  {
    var s3 := Insert(s2, x, tier, cpu, atHead);
    assert s3.loc.Keys == s3.tc.Keys;
    assert s3.Shape();
    assert s3.Q(tier, cpu) != [];
    assert forall t, c' :: LC <= t <= GREEDY && s.Cpu(c') && Qid(t, c') != Qid(tier, cpu) ==> s3.Q(t, c') == s.Q(t, c');
  }

  lemma PlaceOnUndisturbs(s: Sys, s1: Sys, x: Task, tier: int, cpu: int, wakeup: bool, pick: int, c: int)
    requires s.Shape() && s1.Shape() && LC <= tier <= GREEDY && s.Cpu(cpu) && s.Cpu(pick) && s.Cpu(c) && x in s1.tc
    requires s1.topo == s.topo && s1.q == s.q && s1.d == s.d && s1.now == s.now
    ensures var s' := PlaceOn(s1, x, tier, cpu, wakeup, pick);
            Undisturbed(s, s', c) && s'.d[c].ovLeft == s.d[c].ovLeft
  {
    var s2 := if pick != cpu then s1.(tc := s1.tc[x := s1.tc[x].(lastMigrated := s.now)]) else s1;
    assert s2.tc.Keys == s1.tc.Keys;
    assert s2.Shape();
    InsertUndisturbs(s, s2, x, tier, if s1.Online(pick) then pick else cpu, false, c);
  }

  lemma EnqueueUndisturbs(s: Sys, e: Event, c: int)
    requires Inv(s) && Enabled(s, e) && e.Enqueue? && s.Cpu(c)
    ensures Undisturbed(s, Next(s, e), c) && Next(s, e).d[c].ovLeft == s.d[c].ovLeft
  {
    BoostedOk(s, e.x, e.waker);
    var tc := if e.wakeup then Boosted(s, e.x, e.waker) else s.tc[e.x];
    var tier := EffectiveTier(tc);
    var s1 := s.(tc := s.tc[e.x := tc.(resume := 0)]);
    assert s1.Shape() by { SetTask(s, e.x, tc.(resume := 0)); }
    if tc.resume > 0 && !s.rtCurr[e.cpu] {
      InsertUndisturbs(s, s1, e.x, tier, e.cpu, true, c);
    } else {
      PlaceOnUndisturbs(s, s1, e.x, tier, e.cpu, e.wakeup, Pick(s1, e.x, tier, e.cpu, e.idleCpu, e.start), c);
    }
  }

  /** The remaining events touch neither tier queues nor stamps. */
  lemma OthersUndisturb(s: Sys, e: Event, c: int)
    requires Inv(s) && Enabled(s, e) && s.Cpu(c) && Next(s, e).Shape()
    requires !e.Dispatch? && !e.Enqueue? && !e.Stopping? && !e.Quiescent?
    ensures Undisturbed(s, Next(s, e), c) && Next(s, e).d[c].ovLeft == s.d[c].ovLeft
  {
    OthersKeepTiers(s, e, c);
    SameTiersUndisturbed(s, Next(s, e), c);
  }

  /** The queues stay as they are, and so do the stamps and the override of `c`. */
  ghost predicate KeepsTiers(s: Sys, s': Sys, c: int)
    requires s.Shape() && s.Cpu(c)
  {
    && s'.topo == s.topo && s'.q == s.q && s.now <= s'.now && |s'.d| == |s.d|
    && s'.d[c].head == s.d[c].head && s'.d[c].lastOverride == s.d[c].lastOverride
    && s'.d[c].ovTier == s.d[c].ovTier && s'.d[c].ovLeft == s.d[c].ovLeft
  }

  lemma RunKeepsTiers(s: Sys, x: Task, cpu: int, slice: nat, c: int)
    requires s.Shape() && x in s.tc && s.Cpu(cpu) && s.local[cpu] != [] && s.Cpu(c)
    ensures KeepsTiers(s, RunStep(s, x, cpu, slice), c)
  {
  }

  lemma SwitchKeepsTiers(s: Sys, cpu: int, c: int)
    requires s.Shape() && s.Cpu(cpu) && s.Cpu(c)
    ensures KeepsTiers(s, SchedSwitchStep(s, cpu), c)
  {
  }

  lemma OthersKeepTiers(s: Sys, e: Event, c: int)
    requires Inv(s) && Enabled(s, e) && s.Cpu(c)
    requires !e.Dispatch? && !e.Enqueue? && !e.Stopping? && !e.Quiescent?
    ensures KeepsTiers(s, Next(s, e), c)
  {
    match e
    case Tick(_) =>
    case InitTask(_, _, _) =>
    case SetAffinity(_, _) =>
    case SelectCpu(_, _, _, _, _) =>
    case Runnable(_, _, _) =>
    case InsertDirect(_) =>
    case SetCurrent(_, _) =>
    case Run(x, cpu, slice) => RunKeepsTiers(s, x, cpu, slice, c);
    case SchedSwitch(cpu) => SwitchKeepsTiers(s, cpu, c);
  }

  /** Two states in which the same tiers of `c` are starved. */
  ghost predicate SameBook(s: Sys, s1: Sys, c: int)
    requires s.Shape() && s.Cpu(c)
  {
    && s1.Shape() && s1.topo == s.topo && s1.q == s.q && s1.now == s.now
    && s1.d[c].head == s.d[c].head && s1.d[c].lastOverride == s.d[c].lastOverride && s1.d[c].ovTier == s.d[c].ovTier
  }

  lemma AccountPrevBook(s: Sys, cpu: int, prev: Option<Task>, c: int)
    requires s.Shape() && s.Cpu(cpu) && s.Cpu(c) && (prev.Some? ==> prev.value in s.tc)
             && AccountPrev(s, cpu, prev).Shape()
    ensures var s1 := AccountPrev(s, cpu, prev);
            && SameBook(s, s1, c)
            && s1.d[c].ovLeft ==
               if prev.Some? && c == cpu
               then ChargeOverride(s.d[c], EffectiveTier(s.tc[prev.value]),
                 Elapsed(s.now, s.tc[prev.value].startedAt)).ovLeft
               else s.d[c].ovLeft
  {
  }

  /** Charging prev changes neither the queues nor the stamps that decide who is starved. */
  lemma AccountedBook(s: Sys, e: Event, c: int)
    requires Inv(s) && Enabled(s, e) && e.Dispatch? && s.Cpu(c)
    ensures var s1 := AccountPrev(s, e.cpu, e.prev);
            Inv(s1) && SameBook(s, s1, c) && s1.d[c].ovLeft == Elapsed(s.d[c].ovLeft, Charged(s, e, c))
  {
    AccountPrevKeepsInv(s, e.cpu, e.prev);
    AccountPrevBook(s, e.cpu, e.prev, c);
  }

  /** What a decision does to the tiers of any cpu. */
  lemma ApplyToTiers(s: Sys, cpu: int, ch: Choice, c: int)
    requires s.Shape() && s.Cpu(cpu) && s.Cpu(c) && CanTake(s, cpu, ch) && Apply(s, cpu, ch).Shape()
    ensures var s' := Apply(s, cpu, ch);
            forall t :: INTERACTIVE <= t <= GREEDY ==>
              && (s'.Q(t, c) != [] ==> s.Q(t, c) != [])
              && s'.d[c].head[t] == (if ch.Take? && ch.from == c && ch.tier == t then s.now else s.d[c].head[t])
  {
    var s' := Apply(s, cpu, ch);
    assert forall t :: LC <= t <= GREEDY && !(ch.Take? && Qid(t, c) == Qid(ch.tier, ch.from)) ==>
           s'.Q(t, c) == s.Q(t, c);
    if ch.Take? && ch.from == c {
      assert s.Q(ch.tier, c) != [];
    }
  }

  lemma ApplyToOverride(s: Sys, cpu: int, ch: Choice, c: int)
    requires s.Shape() && s.Cpu(cpu) && s.Cpu(c) && CanTake(s, cpu, ch)
    ensures var s' := Apply(s, cpu, ch);
            var starts := c == cpu && ch.Take? && ch.phase == Start;
            && |s'.d| == |s.d|
            && s'.d[c].lastOverride == (if starts then s.now else s.d[c].lastOverride)
            && s'.d[c].ovTier == (if starts then ch.tier else s.d[c].ovTier)
            && (starts ==> s'.d[c].ovLeft == OVERRIDE_BUDGET)
            && (!starts ==> s'.d[c].ovLeft == 0 || s'.d[c].ovLeft == s.d[c].ovLeft)
  {
  }

  lemma StartIsDue(s: Sys, cpu: int, prev: int, ch: Choice)
    requires s.Shape() && s.Cpu(cpu) && GoodChoice(s, cpu, prev, ch) && ch.Take? && ch.phase == Start
    ensures ch.from == cpu && !CoolingDown(s, cpu) && MostStarved(s, cpu, ch.tier)
  {
  }

  lemma AMostStarvedTierExists(s: Sys, c: int) returns (t: int)
    requires s.Shape() && s.Cpu(c)
    requires Overrun(s, c, INTERACTIVE) > 0 || Overrun(s, c, NORMAL) > 0 || Overrun(s, c, GREEDY) > 0
    ensures MostStarved(s, c, t)
  {
    t := INTERACTIVE;
    if Overrun(s, c, NORMAL) > Overrun(s, c, t) { t := NORMAL; }
    if Overrun(s, c, GREEDY) > Overrun(s, c, t) { t := GREEDY; }
  }

  /** With an overdue tier, looking for a starved tier outside the cooldown always starts an override. */
  lemma CheckStarts(s: Sys, cpu: int, prev: int, ch: Choice)
    requires Inv(s) && s.Cpu(cpu) && GoodChoice(s, cpu, prev, ch)
    requires !EarlyWork(s, cpu) && !CanContinue(s, cpu) && !CoolingDown(s, cpu)
    requires Overrun(s, cpu, INTERACTIVE) > 0 || Overrun(s, cpu, NORMAL) > 0 || Overrun(s, cpu, GREEDY) > 0
    ensures ch.Take? && ch.phase == Start && INTERACTIVE <= ch.tier <= GREEDY
  {
    var t := AMostStarvedTierExists(s, cpu);
    OwnQueueIsOwnWork(s, cpu, t);
    assert CanStart(s, cpu, t);
  }

  lemma SameOverruns(s: Sys, s1: Sys, c: int)
    requires Inv(s) && s.Cpu(c) && SameBook(s, s1, c)
    ensures ViewOf(s, c).Ok() && (CoolingDown(s1, c) <==> ViewOf(s, c).CoolingDown())
    ensures forall t :: INTERACTIVE <= t <= GREEDY ==> Overrun(s1, c, t) == ViewOf(s, c).Overrun(t)
  {
    ViewOk(s, c);
  }

  /** The decision of `e`, taken in `s1`, against the bookkeeping of `s`. */
  lemma DecisionOverrides(s: Sys, s1: Sys, e: Event, prev: int)
    requires Inv(s) && e.Dispatch? && s.Cpu(e.cpu) && Inv(s1) && SameBook(s, s1, e.cpu)
             && GoodChoice(s1, e.cpu, prev, e.ch)
    ensures ViewOf(s, e.cpu).Ok()
    ensures (!EarlyWork(s1, e.cpu) && !CanContinue(s1, e.cpu) && !CoolingDown(s1, e.cpu)
            && V.AnyOverdue(ViewOf(s, e.cpu)))
            ==> StartedOn(e, e.cpu) != 0
    ensures StartedOn(e, e.cpu) != 0 ==>
              && INTERACTIVE <= e.ch.tier <= GREEDY && e.ch.from == e.cpu
              && V.MostOverdue(ViewOf(s, e.cpu), e.ch.tier) && !ViewOf(s, e.cpu).CoolingDown()
  {
    SameOverruns(s, s1, e.cpu);
    if StartedOn(e, e.cpu) != 0 {
      StartIsDue(s1, e.cpu, prev, e.ch);
    }
    if !EarlyWork(s1, e.cpu) && !CanContinue(s1, e.cpu) && !CoolingDown(s1, e.cpu) && V.AnyOverdue(ViewOf(s, e.cpu)) {
      CheckStarts(s1, e.cpu, prev, e.ch);
    }
  }

  lemma DecisionStamps(s: Sys, s1: Sys, s2: Sys, e: Event, s': Sys, c: int, t: int)
    requires s.Shape() && e.Dispatch? && s.Cpu(c) && s.Cpu(e.cpu) && SameBook(s, s1, c) && CanTake(s1, e.cpu, e.ch)
    requires s2 == Apply(s1, e.cpu, e.ch) && s2.Shape()
    requires s'.Shape() && s'.topo == s.topo && s'.now == s.now && s'.q == s2.q && s'.d[c].head == s2.d[c].head
    requires INTERACTIVE <= t <= GREEDY
    ensures s'.Q(t, c) != [] ==> s.Q(t, c) != []
    ensures s'.d[c].head[t] == (if TookFrom(e, c) == t then s.now else s.d[c].head[t])
  {
    ApplyToTiers(s1, e.cpu, e.ch, c);
  }

  /** The views before and after, from what the lemmas above establish about the states in between. */
  lemma DecisionSteps(s: Sys, e: Event, s': Sys, c: int, w: V.Deed, left: nat)
    requires Inv(s) && Inv(s') && s.Cpu(c) && s'.topo == s.topo && s'.now == s.now
    requires forall t :: INTERACTIVE <= t <= GREEDY ==>
               && (s'.Q(t, c) != [] ==> s.Q(t, c) != [])
               && s'.d[c].head[t] == (if w.took == t then s.now else s.d[c].head[t])
    requires ViewOf(s, c).Ok() && left == Elapsed(s.d[c].ovLeft, w.charged) && (w.charged > 0 ==> s.d[c].ovLeft > 0)
    requires s'.d[c].lastOverride == (if w.started != 0 then s.now else s.d[c].lastOverride)
    requires if w.started != 0 then s'.d[c].ovLeft == OVERRIDE_BUDGET else s'.d[c].ovLeft == 0 || s'.d[c].ovLeft == left
    requires w.checked && V.AnyOverdue(ViewOf(s, c)) ==> w.started != 0
    requires w.started != 0 ==>
               && INTERACTIVE <= w.started <= GREEDY && w.took == w.started
               && V.MostOverdue(ViewOf(s, c), w.started) && !ViewOf(s, c).CoolingDown()
    ensures V.Step(ViewOf(s, c), w, ViewOf(s', c))
  {
    ViewOk(s, c);
    ViewOk(s', c);
  }

  lemma KeepPrevKeepsBook(s: Sys, cpu: int, prev: Option<Task>, c: int)
    requires Inv(s) && s.Cpu(cpu) && s.Cpu(c) && (prev.Some? ==> prev.value in s.tc)
    ensures var s' := KeepPrev(s, cpu, prev); SameStamps(s, s', c) && s'.topo == s.topo && s'.now == s.now
  {
  }

  ghost predicate SameStamps(s: Sys, s': Sys, c: int)
    requires s.Shape() && s.Cpu(c)
  {
    && s'.q == s.q && |s'.d| == |s.d|
    && s'.d[c].head == s.d[c].head && s'.d[c].lastOverride == s.d[c].lastOverride
    && s'.d[c].ovTier == s.d[c].ovTier && s'.d[c].ovLeft == s.d[c].ovLeft
  }

  lemma DispatchSteps(s: Sys, e: Event, c: int)
    requires Inv(s) && Enabled(s, e) && e.Dispatch? && s.Cpu(c)
    ensures Inv(Next(s, e)) && Next(s, e).Cpu(c)
    ensures V.Step(ViewOf(s, c), DeedOf(s, e, c), ViewOf(Next(s, e), c))
  {
    NextKeepsInv(s, e);
    var s1, s2 := DispatchParts(s, e, Next(s, e), c);
    DispatchDeed(s, e, c);
    DispatchLeavesTiers(s, e, Next(s, e), c);
    DispatchLeavesOverride(s, e, Next(s, e), c);
    ViewOk(s, c);
    DecisionSteps(s, e, Next(s, e), c, DeedOf(s, e, c), Elapsed(s.d[c].ovLeft, Charged(s, e, c)));
  }

  lemma DispatchDeed(s: Sys, e: Event, c: int)
    requires Inv(s) && Enabled(s, e) && e.Dispatch? && s.Cpu(c)
    ensures ViewOf(s, c).Ok()
    ensures var w := DeedOf(s, e, c);
            && (w.charged > 0 ==> s.d[c].ovLeft > 0)
            && (w.checked && V.AnyOverdue(ViewOf(s, c)) ==> w.started != 0)
            && (w.started != 0 ==>
                  && INTERACTIVE <= w.started <= GREEDY && w.took == w.started
                  && V.MostOverdue(ViewOf(s, c), w.started) && !ViewOf(s, c).CoolingDown())
  {
    ViewOk(s, c);
    AccountedBook(s, e, e.cpu);
    var s1 := AccountPrev(s, e.cpu, e.prev);
    DecisionOverrides(s, s1, e, PrevTier(s1, e.prev));
  }

  lemma DispatchLeavesTiers(s: Sys, e: Event, s': Sys, c: int)
    requires Inv(s) && Enabled(s, e) && e.Dispatch? && s.Cpu(c) && s' == Next(s, e) && s'.Shape() && s'.Cpu(c)
    ensures forall t :: INTERACTIVE <= t <= GREEDY ==>
              && (s'.Q(t, c) != [] ==> s.Q(t, c) != [])
              && s'.d[c].head[t] == (if TookFrom(e, c) == t then s.now else s.d[c].head[t])
  {
    var s1, s2 := DispatchParts(s, e, s', c);
    forall t | INTERACTIVE <= t <= GREEDY
      ensures s'.Q(t, c) != [] ==> s.Q(t, c) != []
      ensures s'.d[c].head[t] == (if TookFrom(e, c) == t then s.now else s.d[c].head[t])
    {
      DecisionStamps(s, s1, s2, e, s', c, t);
    }
  }

  lemma DecisionOverride(s: Sys, s1: Sys, s2: Sys, e: Event, s': Sys, c: int)
    requires s.Shape() && e.Dispatch? && s.Cpu(c) && s.Cpu(e.cpu) && SameBook(s, s1, c) && CanTake(s1, e.cpu, e.ch)
    requires e.ch.Take? && e.ch.phase == Start ==> e.ch.tier != 0
    requires s2 == Apply(s1, e.cpu, e.ch) && |s'.d| == |s2.d|
    requires s'.d[c].lastOverride == s2.d[c].lastOverride && s'.d[c].ovLeft == s2.d[c].ovLeft
    requires s'.d[c].ovTier == s2.d[c].ovTier
    ensures s'.d[c].ovTier == (if StartedOn(e, c) != 0 then StartedOn(e, c) else s.d[c].ovTier)
    ensures s'.d[c].lastOverride == (if StartedOn(e, c) != 0 then s.now else s.d[c].lastOverride)
    ensures if StartedOn(e, c) != 0 then s'.d[c].ovLeft == OVERRIDE_BUDGET
            else s'.d[c].ovLeft == 0 || s'.d[c].ovLeft == s1.d[c].ovLeft
  {
    ApplyToOverride(s1, e.cpu, e.ch, c);
  }

  lemma DispatchLeavesOverride(s: Sys, e: Event, s': Sys, c: int)
    requires Inv(s) && Enabled(s, e) && e.Dispatch? && s.Cpu(c) && s' == Next(s, e)
    ensures |s'.d| == |s.d| && s'.d[c].lastOverride == (if StartedOn(e, c) != 0 then s.now else s.d[c].lastOverride)
    ensures s'.d[c].ovTier == (if StartedOn(e, c) != 0 then StartedOn(e, c) else s.d[c].ovTier)
    ensures if StartedOn(e, c) != 0 then s'.d[c].ovLeft == OVERRIDE_BUDGET
            else s'.d[c].ovLeft == 0 || s'.d[c].ovLeft == Elapsed(s.d[c].ovLeft, Charged(s, e, c))
  {
    var s1, s2 := DispatchParts(s, e, s', c);
    DecisionOverride(s, s1, s2, e, s', c);
  }

  /** Dispatch charges prev, applies the decision and, if that is to keep prev, renews it. */
  lemma DispatchParts(s: Sys, e: Event, s': Sys, c: int) returns (s1: Sys, s2: Sys)
    requires Inv(s) && Enabled(s, e) && e.Dispatch? && s.Cpu(c) && s' == Next(s, e)
    ensures SameBook(s, s1, c) && CanTake(s1, e.cpu, e.ch) && s2 == Apply(s1, e.cpu, e.ch) && s2.Shape() && s2.Cpu(c)
    ensures s1.d[c].ovLeft == Elapsed(s.d[c].ovLeft, Charged(s, e, c))
    ensures e.ch.Take? && e.ch.phase == Start ==> e.ch.tier != 0
    ensures SameStamps(s2, s', c) && s'.topo == s.topo && s'.now == s.now && |s'.d| == |s.d|
  {
    AccountedBook(s, e, c);
    s1 := AccountPrev(s, e.cpu, e.prev);
    s2 := Decide(s1, e.cpu, e.prev, e.ch, c);
    assert s' == DispatchStep(s, e.cpu, e.prev, e.ch);
  }

  lemma Decide(s: Sys, cpu: int, prev: Option<Task>, ch: Choice, c: int) returns (s2: Sys)
    requires Inv(s) && s.Cpu(cpu) && s.Cpu(c) && (prev.Some? ==> prev.value in s.tc)
             && GoodChoice(s, cpu, PrevTier(s, prev), ch)
    ensures CanTake(s, cpu, ch) && s2 == Apply(s, cpu, ch) && s2.Shape() && s2.Cpu(c)
    ensures var s' := if ch == Keep then KeepPrev(s2, cpu, prev) else s2;
            SameStamps(s2, s', c) && s'.topo == s.topo && s'.now == s.now && |s'.d| == |s.d|
    ensures ch.Take? && ch.phase == Start ==> ch.tier != 0
  {
    ApplyKeepsInv(s, cpu, PrevTier(s, prev), ch);
    s2 := Apply(s, cpu, ch);
    KeepPrevKeepsBook(s2, cpu, prev, c);
    StartHasTier(s, cpu, PrevTier(s, prev), ch);
  }

  lemma StartHasTier(s: Sys, cpu: int, prev: int, ch: Choice)
    requires s.Shape() && s.Cpu(cpu) && GoodChoice(s, cpu, prev, ch)
    ensures ch.Take? && ch.phase == Start ==> ch.tier != 0
  {
    if ch.Take? && ch.phase == Start {
      StartIsDue(s, cpu, prev, ch);
    }
  }

  lemma OnlyAccountingCharges(s: Sys, e: Event, c: int)
    requires s.Shape() && s.Cpu(c) && Enabled(s, e) && !e.Dispatch? && !e.Stopping?
    ensures Charged(s, e, c) == 0 && Elapsed(s.d[c].ovLeft, 0) == s.d[c].ovLeft
  {
  }

  lemma OtherSteps(s: Sys, e: Event, c: int)
    requires Inv(s) && Enabled(s, e) && s.Cpu(c) && !e.Dispatch? && Inv(Next(s, e)) && Next(s, e).Cpu(c)
    ensures V.Step(ViewOf(s, c), DeedOf(s, e, c), ViewOf(Next(s, e), c))
  {
    if e.Stopping? {
      StoppingUndisturbs(s, e, c);
    } else {
      OnlyAccountingCharges(s, e, c);
      if e.Enqueue? {
        EnqueueUndisturbs(s, e, c);
      } else if e.Quiescent? {
        QuiescentUndisturbs(s, e, c);
      } else {
        OthersUndisturb(s, e, c);
      }
    }
    UndisturbedSteps(s, e, Next(s, e), c);
  }

  lemma DispatchCpusStay(s: Sys, e: Event)
    requires Inv(s) && Enabled(s, e) && e.Dispatch?
    ensures Next(s, e).topo == s.topo
  {
    var s1, s2 := DispatchParts(s, e, Next(s, e), e.cpu);
  }

  lemma EnqueueCpusStay(s: Sys, e: Event)
    requires Inv(s) && Enabled(s, e) && e.Enqueue?
    ensures Next(s, e).topo == s.topo
  {
    BoostedOk(s, e.x, e.waker);
    assert Next(s, e) == EnqueueStep(s, e.x, e.cpu, e.wakeup, e.waker, e.idleCpu, e.start);
  }

  lemma StepCpusStay(s: Sys, e: Event)
    requires Inv(s) && Enabled(s, e) && (e.Stopping? || e.Quiescent?)
    ensures Next(s, e).topo == s.topo
  {
    if e.Stopping? {
      assert Next(s, e) == StoppingStep(s, e.x, e.cpu, e.runnable, e.sliceZero);
    } else {
      assert Next(s, e) == QuiescentStep(s, e.x, e.sleep);
    }
  }

  lemma CpusStay(s: Sys, e: Event)
    requires Inv(s) && Enabled(s, e)
    ensures Next(s, e).topo == s.topo
  {
    if e.Dispatch? {
      DispatchCpusStay(s, e);
    } else if e.Enqueue? {
      EnqueueCpusStay(s, e);
    } else if e.Stopping? || e.Quiescent? {
      StepCpusStay(s, e);
    } else {
      OthersKeepTiers(s, e, 0);
    }
  }

  /** Every event is a step of every cpu's view. */
  lemma EveryEventSteps(s: Sys, e: Event, c: int)
    requires Inv(s) && Enabled(s, e) && s.Cpu(c)
    ensures Inv(Next(s, e)) && Next(s, e).Cpu(c)
    ensures V.Step(ViewOf(s, c), DeedOf(s, e, c), ViewOf(Next(s, e), c))
  {
    NextKeepsInv(s, e);
    CpusStay(s, e);
    if e.Dispatch? {
      DispatchSteps(s, e, c);
    } else {
      OtherSteps(s, e, c);
    }
  }
}

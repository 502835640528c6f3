/** What a cpu's context says about the task that runs there, over whole runs. */
module RunningRuns {
  import opened Options
  import opened Defs
  import opened Classifier
  import opened Machine
  import opened Invariant
  import opened Preservation
  import opened Dispatching

  predicate RunsOn(s: Sys, x: Task, c: int) { x in s.loc && s.loc[x] == Running(c) }

  ghost predicate NobodyRuns(s: Sys, c: int) { forall x: Task :: !RunsOn(s, x, c) }

  /** The tier recorded for a cpu is EMPTY exactly when none of our tasks runs there; and at most one does. */
  ghost predicate Known(s: Sys, c: int)
    requires 0 <= c < |s.d|
  {
    && (s.d[c].running == EMPTY <==> NobodyRuns(s, c))
    && forall x: Task, y: Task :: RunsOn(s, x, c) && RunsOn(s, y, c) ==> x == y
  }

  /** The same tasks run on `c`, and its context says the same of them. */
  ghost predicate RunsAlike(s: Sys, s': Sys, c: int)
  {
    && 0 <= c < |s.d| == |s'.d| && s'.d[c].running == s.d[c].running
    && forall x: Task :: RunsOn(s', x, c) <==> RunsOn(s, x, c)
  }

  lemma AlikeKnown(s: Sys, s': Sys, c: int)
    requires RunsAlike(s, s', c) && Known(s, c)
    ensures Known(s', c)
  {
  }

  // ----- the events -----

  lemma EnqueueAlike(s: Sys, x: Task, cpu: int, wakeup: bool, waker: Option<Task>, idleCpu: int, start: nat, c: int)
    requires s.Shape() && x in s.tc && s.Cpu(cpu) && start < s.N() && (idleCpu == -1 || s.Cpu(idleCpu)) && s.Cpu(c)
    requires var tc := if wakeup then Boosted(s, x, waker) else s.tc[x]; LC <= EffectiveTier(tc) <= GREEDY
    requires s.loc[x] == Ready(-1)
    ensures RunsAlike(s, EnqueueStep(s, x, cpu, wakeup, waker, idleCpu, start), c)
  {
    var tc := if wakeup then Boosted(s, x, waker) else s.tc[x];
    var s1 := s.(tc := s.tc[x := tc.(resume := 0)]);
    var tier := EffectiveTier(tc);
    if !(tc.resume > 0 && !s.rtCurr[cpu]) {
      PlaceOnAlike(s1, x, tier, cpu, wakeup, Pick(s1, x, tier, cpu, idleCpu, start), c);
    }
  }

  lemma PlaceOnAlike(s: Sys, x: Task, tier: int, cpu: int, wakeup: bool, pick: int, c: int)
    requires s.Shape() && x in s.tc && s.Cpu(cpu) && s.Cpu(pick) && LC <= tier <= GREEDY && s.Cpu(c)
             && s.loc[x] == Ready(-1)
    ensures RunsAlike(s, PlaceOn(s, x, tier, cpu, wakeup, pick), c)
  {
  }

  lemma SwitchAlike(s: Sys, cpu: int, c: int)
    requires s.Shape() && s.Cpu(cpu) && s.Cpu(c)
    ensures RunsAlike(s, SchedSwitchStep(s, cpu), c)
  {
  }

  lemma RunnableAlike(s: Sys, x: Task, wakeup: bool, waker: Option<Task>, c: int)
    requires s.Shape() && x in s.tc && s.Cpu(c) && !s.loc[x].Running?
    ensures RunsAlike(s, RunnableStep(s, x, wakeup, waker), c)
  {
  }

  lemma RunKnown(s: Sys, x: Task, cpu: int, slice: nat, c: int)
    requires s.Shape() && s.Cpu(cpu) && x in s.tc && s.local[cpu] != [] && s.Cpu(c) && s.loc[x] == Local(cpu)
    requires Known(s, c) && (c == cpu ==> NobodyRuns(s, c)) && LC <= EffectiveTier(s.tc[x]) <= GREEDY
    ensures var s' := RunStep(s, x, cpu, slice);
            && |s'.d| == |s.d| && Known(s', c) && RunsOn(s', x, cpu) && s'.d[cpu].running == EffectiveTier(s'.tc[x])
            && (c != cpu ==> s'.d[c].running == s.d[c].running)
  {
    var s' := RunStep(s, x, cpu, slice);
    assert RunsOn(s', x, cpu);
    assert forall y: Task :: y != x ==> (RunsOn(s', y, c) <==> RunsOn(s, y, c));
  }

  lemma StoppingKnown(s: Sys, x: Task, cpu: int, runnable: bool, sliceZero: bool, c: int)
    requires s.Shape() && s.Cpu(cpu) && x in s.tc && s.Cpu(c) && RunsOn(s, x, cpu) && Known(s, c)
    ensures var s' := StoppingStep(s, x, cpu, runnable, sliceZero);
            |s'.d| == |s.d| && Known(s', c) && (c != cpu ==> s'.d[c].running == s.d[c].running)
  {
    var s' := StoppingStep(s, x, cpu, runnable, sliceZero);
    assert forall y: Task :: y != x ==> (RunsOn(s', y, c) <==> RunsOn(s, y, c));
  }

  lemma ApplyAlike(s: Sys, cpu: int, ch: Choice, c: int)
    requires s.Shape() && s.Cpu(cpu) && CanTake(s, cpu, ch) && s.Cpu(c) && QueuesOk(s.q, s.loc)
    ensures RunsAlike(s, Apply(s, cpu, ch), c)
  {
    var s' := Apply(s, cpu, ch);
    if ch.Take? {
      TakesTheFirst(s, cpu, ch);
      var k := Qid(ch.tier, ch.from);
      var x := s.q[k][FirstAllowed(s, s.q[k], cpu)];
      assert s.loc[x] == Queued(k) && s'.loc == s.loc[x := Local(cpu)];
    }
  }

  lemma AccountPrevAlike(s: Sys, cpu: int, prev: Option<Task>, c: int)
    requires s.Shape() && s.Cpu(cpu) && (prev.Some? ==> prev.value in s.tc) && s.Cpu(c)
    ensures RunsAlike(s, AccountPrev(s, cpu, prev), c) && AccountPrev(s, cpu, prev).loc == s.loc
  {
  }

  /** When prev keeps the cpu, its tier is recorded anew. */
  lemma KeepKnown(s: Sys, cpu: int, prev: Option<Task>, c: int)
    requires s.Shape() && s.Cpu(cpu) && s.Cpu(c) && prev.Some? && prev.value in s.tc && RunsOn(s, prev.value, cpu)
    requires Known(s, c) && LC <= EffectiveTier(KeepRunning(s.tc[prev.value])) <= GREEDY
    ensures var s' := KeepPrev(s, cpu, prev);
            && |s'.d| == |s.d| && Known(s', c) && s'.d[cpu].running == EffectiveTier(s'.tc[prev.value])
            && (c != cpu ==> s'.d[c].running == s.d[c].running)
  {
    assert forall y: Task :: RunsOn(KeepPrev(s, cpu, prev), y, c) <==> RunsOn(s, y, c);
  }

  // ----- every event -----

  /** The kernel runs a task only on a cpu on which none of ours runs. */
  ghost predicate RunsOne(s: Sys, e: Event, c: int) { e.Run? && e.cpu == c ==> NobodyRuns(s, c) }

  /** The tier that event `e` records for `c`. */
  predicate Records(s: Sys, e: Event, s': Sys, c: int)
    requires 0 <= c < |s.d| && 0 <= c < |s'.d|
  {
    if e.Run? && e.cpu == c then e.x in s'.tc && s'.d[c].running == EffectiveTier(s'.tc[e.x])
    else if e.Stopping? && e.cpu == c then s'.d[c].running == EMPTY
    else if e.Dispatch? && e.cpu == c && e.ch == Keep then
      e.prev.Some? && e.prev.value in s'.tc && s'.d[c].running == EffectiveTier(s'.tc[e.prev.value])
    else s'.d[c].running == s.d[c].running
  }

  lemma DispatchKnown(s: Sys, e: Event, s': Sys, c: int)
    requires Inv(s) && Follows(s, e, s') && e.Dispatch? && s.Cpu(c) && Known(s, c)
    ensures |s'.d| == |s.d| && Known(s', c) && Records(s, e, s', c)
  {
    AccountPrevKeepsInv(s, e.cpu, e.prev);
    var s1 := AccountPrev(s, e.cpu, e.prev);
    AllowedDecision(s1, e.cpu, PrevTier(s1, e.prev), e.ch);
    AccountedKnown(s, s1, e, s', c);
  }

  lemma AccountedKnown(s: Sys, s1: Sys, e: Event, s': Sys, c: int)
    requires s.Shape() && Inv(s1) && e.Dispatch? && s.Cpu(e.cpu) && s.Cpu(c) && Known(s, c)
    requires e.prev.Some? ==> e.prev.value in s.tc && s.loc[e.prev.value] == Running(e.cpu)
    requires s1 == AccountPrev(s, e.cpu, e.prev) && CanTake(s1, e.cpu, e.ch)
             && (e.ch == Keep ==> PrevTier(s1, e.prev) <= GREEDY)
    requires s' == DispatchStep(s, e.cpu, e.prev, e.ch)
    ensures |s'.d| == |s.d| && Known(s', c) && Records(s, e, s', c)
  {
    AccountPrevAlike(s, e.cpu, e.prev, c);
    AlikeKnown(s, s1, c);
    DecisionKnown(s1, e, PrevTier(s1, e.prev), s', c);
  }

  lemma AllowedDecision(s: Sys, cpu: int, prev: int, ch: Choice)
    requires Inv(s) && s.Cpu(cpu) && GoodChoice(s, cpu, prev, ch)
    ensures CanTake(s, cpu, ch) && (ch == Keep ==> prev <= GREEDY)
  {
    GoodChoiceCanTake(s, cpu, prev, ch);
  }

  lemma DecisionKnown(s: Sys, e: Event, prev: int, s': Sys, c: int)
    requires Inv(s) && e.Dispatch? && s.Cpu(e.cpu) && s.Cpu(c) && Known(s, c) && CanTake(s, e.cpu, e.ch)
    requires e.prev.Some? ==> e.prev.value in s.tc && s.loc[e.prev.value] == Running(e.cpu)
    requires prev == PrevTier(s, e.prev) && (e.ch == Keep ==> prev <= GREEDY)
    requires var s2 := Apply(s, e.cpu, e.ch); s' == if e.ch == Keep then KeepPrev(s2, e.cpu, e.prev) else s2
    ensures |s'.d| == |s.d| && Known(s', c) && Records(s, e, s', c)
  {
    ApplyAlike(s, e.cpu, e.ch, c);
    var s2 := Apply(s, e.cpu, e.ch);
    AlikeKnown(s, s2, c);
    if e.ch == Keep {
      assert TaskOk(s.tc[e.prev.value]);
      KeepKnown(s2, e.cpu, e.prev, c);
    }
  }

  /** Running, stopping and a dispatch that keeps prev record the tier of the task that runs from then on, or that none
      does; no other event changes it. */
  lemma NextKnown(s: Sys, e: Event, s': Sys, c: int)
    requires Inv(s) && Follows(s, e, s') && s.Cpu(c) && Known(s, c) && RunsOne(s, e, c)
    ensures |s'.d| == |s.d| && Known(s', c) && Records(s, e, s', c)
  {
    if e.Dispatch? {
      DispatchKnown(s, e, s', c);
    } else if e.Run? {
      assert TaskOk(s.tc[e.x]) && s.loc[e.x] == Local(e.cpu);
      RunKnown(s, e.x, e.cpu, e.slice, c);
    } else if e.Stopping? {
      StoppingKnown(s, e.x, e.cpu, e.runnable, e.sliceZero, c);
    } else {
      OthersAlike(s, e, s', c);
      AlikeKnown(s, s', c);
    }
  }

  lemma OthersAlike(s: Sys, e: Event, s': Sys, c: int)
    requires Inv(s) && Follows(s, e, s') && s.Cpu(c) && !e.Dispatch? && !e.Run? && !e.Stopping?
    ensures RunsAlike(s, s', c)
  {
    if e.Enqueue? {
      BoostedOk(s, e.x, e.waker);
      EnqueueAlike(s, e.x, e.cpu, e.wakeup, e.waker, e.idleCpu, e.start, c);
    } else if e.SchedSwitch? {
      SwitchAlike(s, e.cpu, c);
    } else if e.Runnable? {
      RunnableAlike(s, e.x, e.wakeup, e.waker, c);
    }
  }

  // ----- whole runs -----

  ghost predicate KnownAt(states: seq<Sys>, c: int, k: nat)
  {
    k < |states| && 0 <= c < |states[k].d| && Known(states[k], c)
  }

  ghost predicate RunsOneAt(states: seq<Sys>, events: seq<Event>, c: int, k: nat)
    requires k < |events| <= |states|
  {
    RunsOne(states[k], events[k], c)
  }

  lemma KnownNext(states: seq<Sys>, events: seq<Event>, c: int, k: nat)
    requires IsRun(states, events) && k < |events| && KnownAt(states, c, k) && RunsOneAt(states, events, c, k)
    ensures KnownAt(states, c, k + 1)
  {
    RunsKeepInv(states, events);
    NextKnown(states[k], events[k], states[k + 1], c);
  }

  lemma KnownAtFirst(s: Sys, c: int)
    requires s.topo.Valid() && s == InitialSys(s.topo, s.now) && 0 <= c < |s.d|
    ensures Known(s, c)
  {
  }

  /** In every run in which the kernel never runs two tasks at once on `c`, a cpu's record is EMPTY exactly while none
      of ours runs there. */
  lemma {:induction false} RunningIsKnown(states: seq<Sys>, events: seq<Event>, c: int, k: nat)
    requires IsRun(states, events) && k < |states| && 0 <= c < |states[0].d|
    requires forall i: nat :: i < k ==> RunsOneAt(states, events, c, i)
    ensures KnownAt(states, c, k)
    decreases k
  {
    if k == 0 {
      KnownAtFirst(states[0], c);
    } else {
      RunningIsKnown(states, events, c, k - 1);
      assert RunsOneAt(states, events, c, k - 1);
      KnownNext(states, events, c, k - 1);
    }
  }
}

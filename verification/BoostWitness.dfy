/** A run from init in which a wake boost lasts longer than its budget and the last stretch: a preemption kick that is
    pending when the budget runs out keeps the boost. Two cpus and three tasks: a user task that has become NORMAL by
    sleeping, a kernel thread that has become LC by waking up often, and a user task that the first one wakes. */
module BoostWitness {
  import opened Options
  import opened Defs
  import opened Accounting
  import opened Classifier
  import opened Machine
  import opened Invariant
  import opened Preservation
  import opened BoostRuns

  const TWO := Topo([true, true], [0, 1], 2)
  const WAKER: Task := 1
  const KICKER: Task := 2
  const X: Task := 3
  const TASKS: set<Task> := {WAKER, KICKER, X}
  const MS := 1_000_000

  // ----- runs that a kernel can bring about -----

  ghost predicate Free(s: Sys, cpu: int) { forall x :: x in s.loc ==> s.loc[x] != Loc.Running(cpu) }

  /** A wakeup comes from a task that runs, or from no task. */
  predicate FromRunning(s: Sys, waker: Option<Task>)
  {
    waker.Some? ==> waker.value in s.loc && s.loc[waker.value].Running?
  }

  /** No task runs past its slice. */
  ghost predicate WithinSlices(s: Sys, dt: nat)
  {
    forall x :: x in s.loc && s.loc[x].Running? ==> x in s.tc && s.now + dt <= s.tc[x].startedAt + s.tc[x].granted
  }

  /** What the events of the machine leave open and a kernel does not: a waker runs, a wakeup is of a task that has gone
      to sleep, and has been through select_cpu unless the task is pinned; a cpu said to be idle runs nothing, a cpu
      runs one task at a time, no longer than its slice; a task goes to sleep from where it has stopped running. */
  ghost predicate Plausible(s: Sys, e: Event)
  {
    match e
    case Tick(dt) => WithinSlices(s, dt)
    case SelectCpu(x, ttwu, waker, cpu, idle) =>
      && FromRunning(s, waker) && (idle ==> Free(s, cpu)) && (ttwu ==> x in s.tc && s.tc[x].blockedAt != 0)
    case Runnable(x, wakeup, waker) =>
      && FromRunning(s, waker) && x in s.loc && x in s.aff && (s.loc[x].Waking? || |s.aff[x]| == 1)
      && (wakeup ==> x in s.tc && s.tc[x].blockedAt != 0)
    case Enqueue(x, cpu, wakeup, waker, idleCpu, start) => FromRunning(s, waker) && (idleCpu != -1 ==> Free(s, idleCpu))
    case Dispatch(cpu, prev, ch) => prev.None? ==> Free(s, cpu)
    case Run(x, cpu, slice) => Free(s, cpu) && slice <= SLICE
    case Quiescent(x, sleep) => sleep ==> x in s.loc && s.loc[x] == Stopped
    case _ => true
  }

  ghost predicate PlausibleAt(states: seq<Sys>, events: seq<Event>, i: nat)
    requires i < |events| < |states|
  {
    Plausible(states[i], events[i])
  }

  /** A plausible run from init to `s`. */
  ghost predicate Reached(states: seq<Sys>, events: seq<Event>, s: Sys)
  {
    Reaches(states, events, s) && forall i :: 0 <= i < |events| ==> PlausibleAt(states, events, i)
  }

  lemma ReachedInv(states: seq<Sys>, events: seq<Event>, s: Sys)
    requires Reaches(states, events, s)
    ensures Inv(s)
  {
    RunsKeepInv(states, events);
  }

  lemma Go(states: seq<Sys>, events: seq<Event>, s: Sys, e: Event, s': Sys)
    returns (states': seq<Sys>, events': seq<Event>)
    requires Reached(states, events, s) && Inv(s) && Enabled(s, e) && Plausible(s, e) && s' == Next(s, e)
    ensures Reached(states', events', s') && events' == events + [e] && states' == states + [s'] && Inv(s')
  {
    states', events' := Extend(states, events, s, e);
    forall i | 0 <= i < |events'| ensures PlausibleAt(states', events', i) {
      assert states'[i] == states[i];
      if i < |events| { assert PlausibleAt(states, events, i) && events'[i] == events[i]; }
    }
    ReachedInv(states', events', s');
  }

  // ----- what the states of the run look like -----

  function Queue(s: Sys, tier: int, cpu: int): seq<Task> { if Qid(tier, cpu) in s.q then s.q[Qid(tier, cpu)] else [] }

  predicate Queues(s: Sys, lc: seq<Task>, normal: seq<Task>)
  {
    && Queue(s, LC, 0) == lc && Queue(s, INTERACTIVE, 0) == [] && Queue(s, NORMAL, 0) == normal
       && Queue(s, GREEDY, 0) == []
    && Queue(s, LC, 1) == [] && Queue(s, INTERACTIVE, 1) == [] && Queue(s, NORMAL, 1) == [] && Queue(s, GREEDY, 1) == []
  }

  predicate Known(s: Sys)
  {
    && s.kthreads == {KICKER} && s.tc.Keys == TASKS && s.loc.Keys == TASKS && s.aff.Keys == TASKS
    && 0 in s.aff[WAKER] && 1 in s.aff[WAKER] && 0 in s.aff[KICKER] && 0 in s.aff[X]
  }

  /** Everything but the contexts of the three tasks and where they are. */
  predicate Scene(s: Sys, lc: seq<Task>, normal: seq<Task>, local: seq<seq<Task>>, running: seq<int>, preempt: bool)
  {
    && s.topo == TWO && s.now > 0 && s.local == local && |local| == 2 && s.rtCurr == [false, false] && s.nrRt == 0
    && Queues(s, lc, normal) && Known(s)
    && |s.d| == 2 && |running| == 2 && s.d[0].running == running[0] && s.d[1].running == running[1]
    && s.d[0].preempt == preempt && s.d[0].ovLeft == 0
  }

  const NOBODY: seq<seq<Task>> := [[], []]
  const IDLE: seq<int> := [EMPTY, EMPTY]

  predicate Resting(s: Sys) { Scene(s, [], [], NOBODY, IDLE, false) }

  /** From `s` to `s'` only task `y` changes, to context `tc` and place `l`. */
  ghost predicate Only(s: Sys, s': Sys, y: Task, tc: TaskCtx, l: Loc)
  {
    && y in s'.tc && s'.tc[y] == tc && y in s'.loc && s'.loc[y] == l && s'.aff == s.aff
    && forall z :: z != y && z in s.tc && z in s.loc ==>
       z in s'.tc && s'.tc[z] == s.tc[z] && z in s'.loc && s'.loc[z] == s.loc[z]
  }

  /** No other task runs on the cpu. */
  ghost predicate Alone(s: Sys, y: Task, cpu: int) { forall z :: z != y && z in s.loc ==> s.loc[z] != Loc.Running(cpu) }

  function Touch(s: Sys, y: Task, tc: TaskCtx, l: Loc): Sys { s.(tc := s.tc[y := tc], loc := s.loc[y := l]) }

  lemma Touched(s: Sys, y: Task, tc: TaskCtx, l: Loc, lc: seq<Task>, normal: seq<Task>, local: seq<seq<Task>>,
                running: seq<int>, preempt: bool)
    requires Scene(s, lc, normal, local, running, preempt) && y in TASKS
    ensures Scene(Touch(s, y, tc, l), lc, normal, local, running, preempt) && Only(s, Touch(s, y, tc, l), y, tc, l)
  {
  }

  lemma OnlyThen(s: Sys, s1: Sys, s2: Sys, y: Task, tc1: TaskCtx, l1: Loc, tc2: TaskCtx, l2: Loc)
    requires Only(s, s1, y, tc1, l1) && Only(s1, s2, y, tc2, l2)
    ensures Only(s, s2, y, tc2, l2)
  {
  }

  lemma AloneStays(s: Sys, s': Sys, y: Task, cpu: int, tc: TaskCtx, l: Loc)
    requires Known(s) && Known(s') && Only(s, s', y, tc, l) && Alone(s, y, cpu)
    ensures Alone(s', y, cpu)
  {
  }

  // ----- a task comes to run on an idle cpu -----

  function Awoken(tc: TaskCtx, wakeup: bool, kthread: bool, now: nat): TaskCtx
  {
    AccountSleep(if wakeup then Woken(tc, now) else tc, kthread, now)
  }

  function Started(tc: TaskCtx, now: nat): TaskCtx { tc.(startedAt := now, granted := SLICE) }

  function Ended(tc: TaskCtx, kthread: bool, now: nat): TaskCtx
  {
    AccountInStopping(tc, kthread, false, false, false, now)
  }

  function Blocked(tc: TaskCtx, now: nat): TaskCtx { tc.(resume := 0, boost := EMPTY, blockedAt := now) }

  /** select_cpu finds the cpu idle. */
  lemma Chosen(s: Sys, y: Task, ttwu: bool, c: int, running: seq<int>)
    requires Inv(s) && Scene(s, [], [], NOBODY, running, false) && y in TASKS && 0 <= c < 2 && running[c] == EMPTY
    requires s.loc[y] == Asleep && Alone(s, y, c) && (ttwu ==> s.tc[y].blockedAt != 0)
    ensures var e := SelectCpu(y, ttwu, None, c, true);
            Enabled(s, e) && Plausible(s, e) && Next(s, e) == Touch(s, y, s.tc[y], Waking(c))
  {
    var e := SelectCpu(y, ttwu, None, c, true);
    assert s.Q(LC, c) == [] && s.Q(INTERACTIVE, c) == [] && s.Q(NORMAL, c) == [] && s.Q(GREEDY, c) == [];
    assert Load(s, c, EffectiveTier(s.tc[y])) == 0;
    assert s.tc[y := s.tc[y]] == s.tc;
    assert Next(s, e) == SelectCpuStep(s, y, ttwu, None, c, true);
  }

  lemma WakesStep(s: Sys, y: Task, wakeup: bool, c: int)
    requires s.kthreads == {KICKER} && y in s.tc && y in s.loc && s.loc[y] == Waking(c)
    ensures RunnableStep(s, y, wakeup, None) == Touch(s, y, Awoken(s.tc[y], wakeup, y == KICKER, s.now), Ready(c))
  {
    var w := if wakeup then Woken(s.tc[y], s.now) else s.tc[y];
    assert s.tc[y := w][y := AccountSleep(w, y == KICKER, s.now)] == s.tc[y := AccountSleep(w, y == KICKER, s.now)];
    assert s.tc[y := s.tc[y]] == s.tc;
  }

  lemma Wakes(s: Sys, y: Task, wakeup: bool, c: int)
    requires Inv(s) && Known(s) && y in TASKS && s.loc[y] == Waking(c) && (wakeup ==> s.tc[y].blockedAt != 0)
    ensures var e := Runnable(y, wakeup, None);
            Enabled(s, e) && Plausible(s, e) && Next(s, e) == Touch(s, y, Awoken(s.tc[y], wakeup, y == KICKER, s.now),
              Ready(c))
  {
    WakesStep(s, y, wakeup, c);
  }

  lemma Inserts(s: Sys, y: Task, c: int, running: seq<int>, s': Sys)
    requires Inv(s) && Scene(s, [], [], NOBODY, running, false) && y in TASKS && 0 <= c < 2 && s.loc[y] == Ready(c)
    requires s' == s.(local := NOBODY[c := [y]], loc := s.loc[y := Local(c)])
    ensures Enabled(s, InsertDirect(y)) && Plausible(s, InsertDirect(y)) && Next(s, InsertDirect(y)) == s'
    ensures Scene(s', [], [], NOBODY[c := [y]], running, false) && Only(s, s', y, s.tc[y], Local(c))
  {
    assert s.local[c] + [y] == [y];
  }

  lemma StartsStep(s: Sys, y: Task, c: int, lc: seq<Task>, normal: seq<Task>, local: seq<seq<Task>>, running: seq<int>)
    requires s.Shape() && Scene(s, lc, normal, local, running, false) && y in TASKS && 0 <= c < 2 && local[c] == [y]
    ensures var s' := RunStep(s, y, c, SLICE);
            && Scene(s', lc, normal, local[c := []], running[c := EffectiveTier(s.tc[y])], false) && s'.now == s.now
            && Only(s, s', y, Started(s.tc[y], s.now), Loc.Running(c))
            && s'.d[c] == s.d[c].(running := EffectiveTier(s.tc[y]), preempt := false)
  {
    assert local[c][1..] == [];
  }

  lemma Starts(s: Sys, y: Task, c: int, lc: seq<Task>, normal: seq<Task>, local: seq<seq<Task>>, running: seq<int>)
    requires Inv(s) && Scene(s, lc, normal, local, running, false) && y in TASKS && 0 <= c < 2 && local[c] == [y]
    requires s.loc[y] == Local(c) && Alone(s, y, c)
    ensures var e := Event.Run(y, c, SLICE);
            && Enabled(s, e) && Plausible(s, e)
            && var s' := Next(s, e);
               && Scene(s', lc, normal, local[c := []], running[c := EffectiveTier(s.tc[y])], false) && s'.now == s.now
               && Only(s, s', y, Started(s.tc[y], s.now), Loc.Running(c))
               && s'.d[c] == s.d[c].(running := EffectiveTier(s.tc[y]), preempt := false)
  {
    StartsStep(s, y, c, lc, normal, local, running);
  }

  lemma Ticks(s: Sys, dt: nat)
    requires Inv(s) && WithinSlices(s, dt)
    ensures Enabled(s, Tick(dt)) && Plausible(s, Tick(dt)) && Next(s, Tick(dt)) == s.(now := s.now + dt)
  {
  }

  lemma StopsStep(s: Sys, y: Task, c: int, lc: seq<Task>, normal: seq<Task>, local: seq<seq<Task>>, running: seq<int>)
    requires s.Shape() && Scene(s, lc, normal, local, running, false) && y in TASKS && 0 <= c < 2
             && s.d[c].preempt == false
    ensures var s' := StoppingStep(s, y, c, false, false);
            && Scene(s', lc, normal, local, running[c := EMPTY], false) && s'.now == s.now
            && Only(s, s', y, Ended(s.tc[y], y == KICKER, s.now), Stopped)
  {
  }

  lemma Stops(s: Sys, y: Task, c: int, lc: seq<Task>, normal: seq<Task>, local: seq<seq<Task>>, running: seq<int>)
    requires Inv(s) && Scene(s, lc, normal, local, running, false) && y in TASKS && 0 <= c < 2
    requires s.loc[y] == Loc.Running(c) && s.d[c].preempt == false
    ensures var e := Stopping(y, c, false, false);
            && Enabled(s, e) && Plausible(s, e)
            && var s' := Next(s, e);
               && Scene(s', lc, normal, local, running[c := EMPTY], false) && s'.now == s.now
               && Only(s, s', y, Ended(s.tc[y], y == KICKER, s.now), Stopped)
  {
    StopsStep(s, y, c, lc, normal, local, running);
  }

  lemma Sleeps(s: Sys, y: Task)
    requires Inv(s) && Known(s) && y in TASKS && s.loc[y] == Stopped
    ensures var e := Quiescent(y, true);
            Enabled(s, e) && Plausible(s, e) && Next(s, e) == Touch(s, y, Blocked(s.tc[y], s.now), Asleep)
  {
  }

  predicate Asleep3(s: Sys) { Known(s) && s.loc[WAKER] == Asleep && s.loc[KICKER] == Asleep && s.loc[X] == Asleep }

  lemma ToReady(states: seq<Sys>, events: seq<Event>, s: Sys, y: Task, wakeup: bool, c: int)
    returns (states': seq<Sys>, events': seq<Event>, s': Sys)
    requires Reached(states, events, s) && Resting(s) && Asleep3(s) && y in TASKS && 0 <= c < 2
    requires wakeup ==> s.tc[y].blockedAt != 0
    ensures Reached(states', events', s') && Inv(s') && Resting(s') && s'.now == s.now
    ensures Only(s, s', y, Awoken(s.tc[y], wakeup, y == KICKER, s.now), Ready(c)) && Alone(s', y, c)
  {
    ReachedInv(states, events, s);
    Chosen(s, y, wakeup, c, IDLE);
    var s1 := Touch(s, y, s.tc[y], Waking(c));
    Touched(s, y, s.tc[y], Waking(c), [], [], NOBODY, IDLE, false);
    states', events' := Go(states, events, s, SelectCpu(y, wakeup, None, c, true), s1);
    Wakes(s1, y, wakeup, c);
    s' := Touch(s1, y, Awoken(s1.tc[y], wakeup, y == KICKER, s.now), Ready(c));
    Touched(s1, y, Awoken(s1.tc[y], wakeup, y == KICKER, s.now), Ready(c), [], [], NOBODY, IDLE, false);
    states', events' := Go(states', events', s1, Runnable(y, wakeup, None), s');
    OnlyThen(s, s1, s', y, s.tc[y], Waking(c), s'.tc[y], Ready(c));
  }

  lemma ToLocal(states: seq<Sys>, events: seq<Event>, s: Sys, y: Task, c: int)
    returns (states': seq<Sys>, events': seq<Event>, s': Sys)
    requires Reached(states, events, s) && Inv(s) && Resting(s) && y in TASKS && 0 <= c < 2
    requires s.loc[y] == Ready(c) && Alone(s, y, c)
    ensures Reached(states', events', s') && Inv(s') && Scene(s', [], [], NOBODY[c := [y]], IDLE, false)
    ensures s'.now == s.now && s'.d == s.d && Only(s, s', y, s.tc[y], Local(c)) && Alone(s', y, c)
  {
    s' := s.(local := NOBODY[c := [y]], loc := s.loc[y := Local(c)]);
    Inserts(s, y, c, IDLE, s');
    states', events' := Go(states, events, s, InsertDirect(y), s');
    AloneStays(s, s', y, c, s.tc[y], Local(c));
  }

  lemma ToRunning(states: seq<Sys>, events: seq<Event>, s: Sys, y: Task, c: int)
    returns (states': seq<Sys>, events': seq<Event>, s': Sys)
    requires Reached(states, events, s) && Inv(s) && y in TASKS && 0 <= c < 2
             && Scene(s, [], [], NOBODY[c := [y]], IDLE, false)
    requires s.loc[y] == Local(c) && Alone(s, y, c)
    ensures Reached(states', events', s') && Inv(s') && s'.now == s.now
    ensures Scene(s', [], [], NOBODY, IDLE[c := EffectiveTier(s.tc[y])], false) && s'.d[c].preempt == false
    ensures Only(s, s', y, Started(s.tc[y], s.now), Loc.Running(c))
  {
    Starts(s, y, c, [], [], NOBODY[c := [y]], IDLE);
    s' := Next(s, Event.Run(y, c, SLICE));
    states', events' := Go(states, events, s, Event.Run(y, c, SLICE), s');
    assert NOBODY[c := [y]][c := []] == NOBODY;
  }

  /** A sleeping task wakes up and runs on an idle cpu. */
  lemma ComesToRun(states: seq<Sys>, events: seq<Event>, s: Sys, y: Task, wakeup: bool, c: int, t: TaskCtx)
    returns (states': seq<Sys>, events': seq<Event>, s': Sys)
    requires Reached(states, events, s) && Resting(s) && Asleep3(s) && y in TASKS && 0 <= c < 2
    requires (wakeup ==> s.tc[y].blockedAt != 0) && t == Awoken(s.tc[y], wakeup, y == KICKER, s.now)
    ensures Reached(states', events', s') && Inv(s') && s'.now == s.now
    ensures Scene(s', [], [], NOBODY, IDLE[c := EffectiveTier(t)], false) && s'.d[c].preempt == false
    ensures Only(s, s', y, Started(t, s.now), Loc.Running(c))
  {
    var s1, s2;
    states', events', s1 := ToReady(states, events, s, y, wakeup, c);
    states', events', s2 := ToLocal(states', events', s1, y, c);
    states', events', s' := ToRunning(states', events', s2, y, c);
    OnlyThen(s, s1, s2, y, t, Ready(c), t, Local(c));
    OnlyThen(s, s2, s', y, t, Local(c), Started(t, s.now), Loc.Running(c));
  }

  lemma ToStopped(states: seq<Sys>, events: seq<Event>, s: Sys, y: Task, tier: int, t: TaskCtx)
    returns (states': seq<Sys>, events': seq<Event>, s': Sys)
    requires Reached(states, events, s) && Inv(s) && Scene(s, [], [], NOBODY, [tier, EMPTY], false) && y in TASKS
    requires s.loc[y] == Loc.Running(0) && t == Ended(s.tc[y], y == KICKER, s.now)
    ensures Reached(states', events', s') && Inv(s') && Resting(s') && s'.now == s.now && Only(s, s', y, t, Stopped)
  {
    Stops(s, y, 0, [], [], NOBODY, [tier, EMPTY]);
    s' := Next(s, Stopping(y, 0, false, false));
    states', events' := Go(states, events, s, Stopping(y, 0, false, false), s');
    assert [tier, EMPTY][0 := EMPTY] == IDLE;
  }

  lemma ToAsleep(states: seq<Sys>, events: seq<Event>, s: Sys, y: Task, t: TaskCtx)
    returns (states': seq<Sys>, events': seq<Event>, s': Sys)
    requires Reached(states, events, s) && Inv(s) && Resting(s) && y in TASKS && s.loc[y] == Stopped
             && t == Blocked(s.tc[y], s.now)
    ensures Reached(states', events', s') && Inv(s') && Resting(s') && s'.now == s.now && Only(s, s', y, t, Asleep)
  {
    Sleeps(s, y);
    s' := Touch(s, y, t, Asleep);
    Touched(s, y, t, Asleep, [], [], NOBODY, IDLE, false);
    states', events' := Go(states, events, s, Quiescent(y, true), s');
  }

  /** A running task stops after `r`, with context `t`, and sleeps. */
  lemma ToSleep(states: seq<Sys>, events: seq<Event>, s: Sys, y: Task, r: nat, tier: int, t: TaskCtx)
    returns (states': seq<Sys>, events': seq<Event>, s': Sys)
    requires Reached(states, events, s) && Inv(s) && Scene(s, [], [], NOBODY, [tier, EMPTY], false) && y in TASKS
             && r <= SLICE
    requires s.loc[y] == Loc.Running(0) && s.tc[y].startedAt == s.now && s.tc[y].granted == SLICE
    requires (forall z :: z in TASKS && z != y ==> s.loc[z] == Asleep) && t == Ended(s.tc[y], y == KICKER, s.now + r)
    ensures Reached(states', events', s') && Inv(s') && Resting(s') && Asleep3(s') && s'.now == s.now + r
    ensures Only(s, s', y, Blocked(t, s.now + r), Asleep)
  {
    states', events', s' := RunAndStop(states, events, s, y, r, tier, t);
    AllAsleep(s, s', y, Blocked(t, s.now + r));
  }

  lemma RunAndStop(states: seq<Sys>, events: seq<Event>, s: Sys, y: Task, r: nat, tier: int, t: TaskCtx)
    returns (states': seq<Sys>, events': seq<Event>, s': Sys)
    requires Reached(states, events, s) && Inv(s) && Scene(s, [], [], NOBODY, [tier, EMPTY], false) && y in TASKS
             && r <= SLICE
    requires s.loc[y] == Loc.Running(0) && s.tc[y].startedAt == s.now && s.tc[y].granted == SLICE
    requires (forall z :: z in TASKS && z != y ==> s.loc[z] == Asleep) && t == Ended(s.tc[y], y == KICKER, s.now + r)
    ensures Reached(states', events', s') && Inv(s') && Resting(s') && s'.now == s.now + r
    ensures Only(s, s', y, Blocked(t, s.now + r), Asleep)
  {
    var s1;
    states', events', s1 := RunsFor(states, events, s, y, r, tier);
    states', events', s' := StopAndSleep(states', events', s1, y, tier, t);
  }

  lemma RunsFor(states: seq<Sys>, events: seq<Event>, s: Sys, y: Task, r: nat, tier: int)
    returns (states': seq<Sys>, events': seq<Event>, s': Sys)
    requires Reached(states, events, s) && Inv(s) && Scene(s, [], [], NOBODY, [tier, EMPTY], false) && y in TASKS
             && r <= SLICE
    requires s.loc[y] == Loc.Running(0) && s.tc[y].startedAt == s.now && s.tc[y].granted == SLICE
    requires forall z :: z in TASKS && z != y ==> s.loc[z] == Asleep
    ensures Reached(states', events', s') && Inv(s') && Scene(s', [], [], NOBODY, [tier, EMPTY], false)
            && s' == s.(now := s.now + r)
  {
    Ticks(s, r);
    s' := s.(now := s.now + r);
    states', events' := Go(states, events, s, Tick(r), s');
  }

  lemma StopAndSleep(states: seq<Sys>, events: seq<Event>, s: Sys, y: Task, tier: int, t: TaskCtx)
    returns (states': seq<Sys>, events': seq<Event>, s': Sys)
    requires Reached(states, events, s) && Inv(s) && Scene(s, [], [], NOBODY, [tier, EMPTY], false) && y in TASKS
    requires s.loc[y] == Loc.Running(0) && t == Ended(s.tc[y], y == KICKER, s.now)
    ensures Reached(states', events', s') && Inv(s') && Resting(s') && s'.now == s.now
            && Only(s, s', y, Blocked(t, s.now), Asleep)
  {
    var s1;
    states', events', s1 := ToStopped(states, events, s, y, tier, t);
    states', events', s' := ToAsleep(states', events', s1, y, Blocked(t, s.now));
    OnlyThen(s, s1, s', y, t, Stopped, Blocked(t, s.now), Asleep);
  }

  lemma AllAsleep(s: Sys, s': Sys, y: Task, t: TaskCtx)
    requires Known(s) && Known(s') && y in TASKS && Only(s, s', y, t, Asleep) && forall z :: z in TASKS && z != y ==>
             s.loc[z] == Asleep
    ensures Asleep3(s')
  {
    assert forall z :: z in TASKS && z != y ==> s'.loc[z] == s.loc[z];
  }

  lemma TimePasses(states: seq<Sys>, events: seq<Event>, s: Sys, dt: nat)
    returns (states': seq<Sys>, events': seq<Event>, s': Sys)
    requires Reached(states, events, s) && Inv(s) && Resting(s) && Asleep3(s)
    ensures Reached(states', events', s') && Inv(s') && Resting(s') && s' == s.(now := s.now + dt)
  {
    Ticks(s, dt);
    s' := s.(now := s.now + dt);
    states', events' := Go(states, events, s, Tick(dt), s');
  }

  // ----- what naps make of a task -----

  /** The part of a context that naps work on: the average between wakeups, the two accumulators, the last wakeup, and
      when the task went to sleep. */
  datatype Num = Num(wait: nat, run: nat, sleep: nat, woken: nat, blocked: nat)

  predicate Numbers(t: TaskCtx, n: Num)
  {
    && t.waitInterval == n.wait && t.runAcc == n.run && t.sleepAcc == n.sleep && t.lastWoken == n.woken
       && t.blockedAt == n.blocked
    && t.wakeInterval == CRIT_INTERVAL_REF && t.lastWake == 1 && t.boost == EMPTY && t.resume == 0
  }

  function Accounted(n: Num, run: nat, slept: nat): Num
  {
    var r, s := n.run + Min(run, DUTY_WINDOW), n.sleep + Min(slept, DUTY_WINDOW);
    if r + s > 2 * DUTY_WINDOW then n.(run := r / 2, sleep := s / 2) else n.(run := r, sleep := s)
  }

  function AfterSleep(n: Num, now: nat): Num
    requires n.woken <= now && n.blocked <= now
  {
    Accounted(n.(wait := Ewma(n.wait, ClampInterval(now - n.woken)), woken := now, blocked := 0), 0, now - n.blocked)
  }

  function AfterRun(n: Num, now: nat, r: nat): Num { Accounted(n, r, 0).(blocked := now + r) }

  lemma AwokenNumbers(tc: TaskCtx, kthread: bool, now: nat, n: Num)
    requires Numbers(tc, n) && n.woken <= now && 0 < n.blocked <= now && tc.samples <= DUTY_SAMPLES_MAX
    ensures var t := Awoken(tc, true, kthread, now);
            Numbers(t, AfterSleep(n, now)) && t.samples == Min(tc.samples + 1, DUTY_SAMPLES_MAX)
  {
  }

  lemma EndedNumbers(tc: TaskCtx, kthread: bool, now: nat, r: nat, n: Num)
    requires Numbers(tc, n) && tc.startedAt == now
    ensures var t := Ended(tc, kthread, now + r);
            && Numbers(Blocked(t, now + r), AfterRun(n, now, r)) && t.samples == tc.samples
            && (!kthread && t.samples < DUTY_SAMPLES_NEEDED ==> t.tier == GREEDY)
  {
  }

  lemma ContextOk(states: seq<Sys>, events: seq<Event>, s: Sys, y: Task)
    requires Reached(states, events, s) && y in s.tc
    ensures LC <= s.tc[y].tier <= GREEDY && s.tc[y].samples <= DUTY_SAMPLES_MAX
  {
    ReachedInv(states, events, s);
    assert TaskOk(s.tc[y]);
  }

  lemma AwokenTask(states: seq<Sys>, events: seq<Event>, s: Sys, y: Task, n: Num) returns (t: TaskCtx)
    requires Reached(states, events, s) && y in s.tc && Numbers(s.tc[y], n) && n.woken <= s.now
             && 0 < n.blocked <= s.now
    ensures t == Awoken(s.tc[y], true, y == KICKER, s.now) && Numbers(t, AfterSleep(n, s.now))
    ensures t.samples == Min(s.tc[y].samples + 1, DUTY_SAMPLES_MAX)
  {
    t := Awoken(s.tc[y], true, y == KICKER, s.now);
    ContextOk(states, events, s, y);
    AwokenNumbers(s.tc[y], y == KICKER, s.now, n);
  }

  lemma Rouse(states: seq<Sys>, events: seq<Event>, s: Sys, y: Task, n: Num)
    returns (states': seq<Sys>, events': seq<Event>, s': Sys, tier: int)
    requires Reached(states, events, s) && Resting(s) && Asleep3(s) && y in TASKS
    requires Numbers(s.tc[y], n) && n.woken <= s.now && 0 < n.blocked <= s.now
    ensures Reached(states', events', s') && Inv(s') && s'.now == s.now
            && Scene(s', [], [], NOBODY, [tier, EMPTY], false)
    ensures Only(s, s', y, s'.tc[y], Loc.Running(0)) && s'.tc[y].startedAt == s.now && s'.tc[y].granted == SLICE
    ensures Numbers(s'.tc[y], AfterSleep(n, s.now)) && s'.tc[y].samples == Min(s.tc[y].samples + 1, DUTY_SAMPLES_MAX)
  {
    var t := AwokenTask(states, events, s, y, n);
    states', events', s' := ComesToRun(states, events, s, y, true, 0, t);
    tier := EffectiveTier(t);
  }

  lemma Doze(states: seq<Sys>, events: seq<Event>, s: Sys, y: Task, r: nat, tier: int, n: Num)
    returns (states': seq<Sys>, events': seq<Event>, s': Sys)
    requires Reached(states, events, s) && Inv(s) && Scene(s, [], [], NOBODY, [tier, EMPTY], false) && y in TASKS
             && r <= SLICE
    requires s.loc[y] == Loc.Running(0) && s.tc[y].startedAt == s.now && s.tc[y].granted == SLICE
    requires (forall z :: z in TASKS && z != y ==> s.loc[z] == Asleep) && Numbers(s.tc[y], n)
    ensures Reached(states', events', s') && Inv(s') && Resting(s') && Asleep3(s') && s'.now == s.now + r
    ensures Only(s, s', y, s'.tc[y], Asleep) && Numbers(s'.tc[y], AfterRun(n, s.now, r))
            && s'.tc[y].samples == s.tc[y].samples
    ensures y != KICKER && s.tc[y].samples < DUTY_SAMPLES_NEEDED ==> s'.tc[y].tier == GREEDY
  {
    var t := Ended(s.tc[y], y == KICKER, s.now + r);
    EndedNumbers(s.tc[y], y == KICKER, s.now, r, n);
    states', events', s' := ToSleep(states, events, s, y, r, tier, t);
  }

  /** A sleeping task wakes up, runs for `r` and sleeps again for `nap`. */
  lemma Nap(states: seq<Sys>, events: seq<Event>, s: Sys, y: Task, r: nat, nap: nat, n: Num)
    returns (states': seq<Sys>, events': seq<Event>, s': Sys)
    requires Reached(states, events, s) && Resting(s) && Asleep3(s) && y in TASKS && r <= SLICE
    requires Numbers(s.tc[y], n) && n.woken <= s.now && 0 < n.blocked <= s.now
    ensures Reached(states', events', s') && Resting(s') && Asleep3(s') && s'.now == s.now + r + nap
    ensures Only(s, s', y, s'.tc[y], Asleep) && Numbers(s'.tc[y], AfterRun(AfterSleep(n, s.now), s.now, r))
    ensures s'.tc[y].samples == Min(s.tc[y].samples + 1, DUTY_SAMPLES_MAX)
  {
    var s1;
    states', events', s1 := ShortRun(states, events, s, y, r, n);
    states', events', s' := TimePasses(states', events', s1, nap);
  }

  lemma ShortRun(states: seq<Sys>, events: seq<Event>, s: Sys, y: Task, r: nat, n: Num)
    returns (states': seq<Sys>, events': seq<Event>, s': Sys)
    requires Reached(states, events, s) && Resting(s) && Asleep3(s) && y in TASKS && r <= SLICE
    requires Numbers(s.tc[y], n) && n.woken <= s.now && 0 < n.blocked <= s.now
    ensures Reached(states', events', s') && Inv(s') && Resting(s') && Asleep3(s') && s'.now == s.now + r
    ensures Only(s, s', y, s'.tc[y], Asleep) && Numbers(s'.tc[y], AfterRun(AfterSleep(n, s.now), s.now, r))
    ensures s'.tc[y].samples == Min(s.tc[y].samples + 1, DUTY_SAMPLES_MAX)
  {
    var s1, tier;
    states', events', s1, tier := Rouse(states, events, s, y, n);
    states', events', s' := DozeAfter(states', events', s, s1, y, r, tier, AfterSleep(n, s.now));
  }

  lemma DozeAfter(states: seq<Sys>, events: seq<Event>, s0: Sys, s: Sys, y: Task, r: nat, tier: int, n: Num)
    returns (states': seq<Sys>, events': seq<Event>, s': Sys)
    requires Reached(states, events, s) && Inv(s) && Scene(s, [], [], NOBODY, [tier, EMPTY], false) && y in TASKS
             && r <= SLICE
    requires Asleep3(s0) && Only(s0, s, y, s.tc[y], Loc.Running(0)) && Numbers(s.tc[y], n)
    requires s.tc[y].startedAt == s.now && s.tc[y].granted == SLICE
    ensures Reached(states', events', s') && Inv(s') && Resting(s') && Asleep3(s') && s'.now == s.now + r
    ensures Only(s0, s', y, s'.tc[y], Asleep) && Numbers(s'.tc[y], AfterRun(n, s.now, r))
            && s'.tc[y].samples == s.tc[y].samples
  {
    states', events', s' := Doze(states, events, s, y, r, tier, n);
    OnlyThen(s0, s, s', y, s.tc[y], Loc.Running(0), s'.tc[y], Asleep);
  }

  /** A new task is woken, runs for `r` and sleeps for `nap`. */
  lemma Born(states: seq<Sys>, events: seq<Event>, s: Sys, y: Task, r: nat, nap: nat, n: Num)
    returns (states': seq<Sys>, events': seq<Event>, s': Sys)
    requires Reached(states, events, s) && Resting(s) && Asleep3(s) && y in TASKS && r <= SLICE
    requires s.tc[y] == NewTask(y == KICKER, 1)
    requires n == if y == KICKER then Num(CRIT_INTERVAL_REF, KTHREAD_INIT_RUN, DUTY_WINDOW - KTHREAD_INIT_RUN, 1, 0)
                  else Num(CRIT_INTERVAL_REF, DUTY_INIT_RUN, 0, 1, 0)
    ensures Reached(states', events', s') && Resting(s') && Asleep3(s') && s'.now == s.now + r + nap
    ensures Only(s, s', y, s'.tc[y], Asleep) && Numbers(s'.tc[y], AfterRun(n, s.now, r))
            && s'.tc[y].samples == s.tc[y].samples
    ensures y != KICKER ==> s'.tc[y].tier == GREEDY
  {
    var t := NewTask(y == KICKER, 1);
    var s1;
    states', events', s1 := ComesToRun(states, events, s, y, false, 0, t);
    states', events', s' := FirstSleep(states', events', s, s1, y, r, nap, t, n);
  }

  lemma FirstSleep(states: seq<Sys>, events: seq<Event>, s0: Sys, s: Sys, y: Task, r: nat, nap: nat, t: TaskCtx, n: Num)
    returns (states': seq<Sys>, events': seq<Event>, s': Sys)
    requires Reached(states, events, s) && Inv(s) && y in TASKS && r <= SLICE && Asleep3(s0) && s.now == s0.now
    requires Scene(s, [], [], NOBODY, IDLE[0 := EffectiveTier(t)], false)
             && Only(s0, s, y, Started(t, s.now), Loc.Running(0))
    requires Numbers(Started(t, s.now), n) && s0.tc[y].samples == t.samples < (if y == KICKER then 4
             else DUTY_SAMPLES_NEEDED)
    ensures Reached(states', events', s') && Resting(s') && Asleep3(s') && s'.now == s.now + r + nap
    ensures Only(s0, s', y, s'.tc[y], Asleep) && Numbers(s'.tc[y], AfterRun(n, s.now, r))
            && s'.tc[y].samples == t.samples
    ensures y != KICKER ==> s'.tc[y].tier == GREEDY
  {
    assert IDLE[0 := EffectiveTier(t)] == [EffectiveTier(t), EMPTY];
    var s1;
    states', events', s1 := Doze(states, events, s, y, r, EffectiveTier(t), n);
    OnlyThen(s0, s, s1, y, Started(t, s.now), Loc.Running(0), s1.tc[y], Asleep);
    states', events', s' := TimePasses(states', events', s1, nap);
  }

  // ----- the three tasks before the boost -----

  lemma Arrives(states: seq<Sys>, events: seq<Event>, s: Sys, x: Task, kthread: bool)
    returns (states': seq<Sys>, events': seq<Event>, s': Sys)
    requires Reached(states, events, s) && s.now == 1 && x !in s.tc
    ensures Reached(states', events', s')
    ensures s' == s.(tc := s.tc[x := NewTask(kthread, 1)], loc := s.loc[x := Asleep], aff := s.aff[x := {0, 1}],
                     kthreads := if kthread then s.kthreads + {x} else s.kthreads)
  {
    var e := InitTask(x, kthread, {0, 1});
    ReachedInv(states, events, s);
    s' := Next(s, e);
    states', events' := Go(states, events, s, e, s');
  }

  lemma ThreeArrive() returns (states: seq<Sys>, events: seq<Event>, s: Sys)
    ensures Reached(states, events, s) && Resting(s) && Asleep3(s) && s.now == 1
    ensures s.tc[WAKER] == NewTask(false, 1) && s.tc[KICKER] == NewTask(true, 1) && s.tc[X] == NewTask(false, 1)
  {
    var s0 := InitialSys(TWO, 1);
    var s1, s2;
    states, events, s1 := Arrives([s0], [], s0, WAKER, false);
    states, events, s2 := Arrives(states, events, s1, KICKER, true);
    states, events, s := Arrives(states, events, s2, X, false);
    NothingYet(s);
  }

  lemma NothingYet(s: Sys)
    requires s.q == InitialSys(TWO, 1).q && s.d == InitialSys(TWO, 1).d && s.local == InitialSys(TWO, 1).local
    requires s.topo == TWO && s.now == 1 && s.rtCurr == InitialSys(TWO, 1).rtCurr && s.nrRt == 0
             && s.kthreads == {KICKER}
    requires s.tc.Keys == TASKS && s.loc.Keys == TASKS && s.aff == map[WAKER := {0, 1}, KICKER := {0, 1}, X := {0, 1}]
    ensures Resting(s)
  {
  }

  const US := 1_000

  /** The user tasks have run for the first time. */
  lemma UsersRun() returns (states: seq<Sys>, events: seq<Event>, s: Sys)
    ensures Reached(states, events, s) && Resting(s) && Asleep3(s) && s.now == 10_010_001
    ensures Numbers(s.tc[WAKER], Num(CRIT_INTERVAL_REF, 80_010_000, 0, 1, 20_001)) && s.tc[WAKER].samples == 0
    ensures XReady(s) && s.tc[KICKER] == NewTask(true, 1)
  {
    var s0, s1;
    var n := Num(CRIT_INTERVAL_REF, DUTY_INIT_RUN, 0, 1, 0);
    states, events, s0 := ThreeArrive();
    states, events, s1 := Born(states, events, s0, X, 10 * US, 0, n);
    states, events, s := Born(states, events, s1, WAKER, 10 * US, 9_990 * US, n);
  }

  predicate XReady(s: Sys)
  {
    && X in s.tc && Numbers(s.tc[X], Num(CRIT_INTERVAL_REF, 80_010_000, 0, 1, 10_001)) && s.tc[X].samples == 0
    && s.tc[X].tier == GREEDY
  }

  predicate WakerReady(s: Sys)
  {
    && WAKER in s.tc && Numbers(s.tc[WAKER], Num(566_876_875, 80_030_000, 19_980_000, 20_010_001, 20_020_001))
    && s.tc[WAKER].samples == 2
  }

  predicate UsersReady(s: Sys) { WakerReady(s) && XReady(s) }

  /** The user tasks after their first naps. */
  lemma UsersNap() returns (states: seq<Sys>, events: seq<Event>, s: Sys)
    ensures Reached(states, events, s) && Resting(s) && Asleep3(s) && s.now == 20_020_001 && UsersReady(s)
    ensures s.tc[KICKER] == NewTask(true, 1)
  {
    var s0, s1;
    states, events, s0 := UsersRun();
    states, events, s1 := Nap(states, events, s0, WAKER, 10 * US, 9_990 * US,
      Num(CRIT_INTERVAL_REF, 80_010_000, 0, 1, 20_001));
    states, events, s := Nap(states, events, s1, WAKER, 10 * US, 0,
      Num(752_502_500, 80_020_000, 9_990_000, 10_010_001, 10_020_001));
  }

  /** The average between wakeups, which short naps bring down. */
  function Average(i: nat): nat
  {
    match i
    case 0 => 457_505_313 case 1 => 343_131_485 case 2 => 257_351_114 case 3 => 193_015_836 case 4 => 144_764_377
    case 5 => 108_575_783 case 6 => 81_434_338 case 7 => 61_078_254 case 8 => 45_811_191 case 9 => 34_360_894
    case _ => 25_773_171
  }

  lemma AverageFalls(i: nat)
    requires i < 10
    ensures Average(i + 1) == Ewma(Average(i), 10 * US)
  {
  }

  /** The kernel thread after `i` short naps. */
  function Napping(i: nat): Num
  {
    Num(Average(i), 2_012_500 + 5 * US * i, 97_995_000 + 5 * US * i, 220_030_001 + 10 * US * i,
      220_035_001 + 10 * US * i)
  }

  lemma NappingOn(i: nat, now: nat)
    requires i < 10 && now == 220_040_001 + 10 * US * i
    ensures AfterRun(AfterSleep(Napping(i), now), now, 5 * US) == Napping(i + 1)
  {
    AverageFalls(i);
  }

  predicate Sampled(tc: TaskCtx) { DUTY_SAMPLES_NEEDED <= tc.samples <= DUTY_SAMPLES_MAX }

  lemma KickerLongNaps() returns (states: seq<Sys>, events: seq<Event>, s: Sys)
    ensures Reached(states, events, s) && Resting(s) && Asleep3(s) && s.now == 220_020_001 && UsersReady(s)
    ensures Numbers(s.tc[KICKER], Num(780_005_000, 4_010_000, 95_995_000, 120_020_001, 120_030_001))
    ensures Sampled(s.tc[KICKER])
  {
    var s0, s1;
    states, events, s0 := UsersNap();
    states, events, s1 := Born(states, events, s0, KICKER, 10 * US, 99_990 * US,
      Num(CRIT_INTERVAL_REF, 8_000_000, 92_000_000, 1, 0));
    states, events, s := Nap(states, events, s1, KICKER, 10 * US, 99_990 * US,
      Num(CRIT_INTERVAL_REF, 8_010_000, 92_000_000, 1, 20_030_001));
  }

  lemma KickerFirstNaps() returns (states: seq<Sys>, events: seq<Event>, s: Sys)
    ensures Reached(states, events, s) && Resting(s) && Asleep3(s) && s.now == 220_040_001 && UsersReady(s)
    ensures Numbers(s.tc[KICKER], Napping(0)) && Sampled(s.tc[KICKER])
  {
    var s0, s1;
    states, events, s0 := KickerLongNaps();
    states, events, s1 := Nap(states, events, s0, KICKER, 5 * US, 5 * US,
      Num(780_005_000, 4_010_000, 95_995_000, 120_020_001, 120_030_001));
    states, events, s := Nap(states, events, s1, KICKER, 5 * US, 5 * US,
      Num(610_003_750, 4_015_000, 195_985_000, 220_020_001, 220_025_001));
  }

  lemma ShortNap(states: seq<Sys>, events: seq<Event>, s: Sys, i: nat)
    returns (states': seq<Sys>, events': seq<Event>, s': Sys)
    requires Reached(states, events, s) && Resting(s) && Asleep3(s) && i < 10 && s.now == 220_040_001 + 10 * US * i
             && UsersReady(s)
    requires Numbers(s.tc[KICKER], Napping(i)) && DUTY_SAMPLES_NEEDED <= s.tc[KICKER].samples <= DUTY_SAMPLES_MAX
    ensures Reached(states', events', s') && Resting(s') && Asleep3(s') && s'.now == s.now + 10 * US && UsersReady(s')
    ensures Numbers(s'.tc[KICKER], Napping(i + 1)) && DUTY_SAMPLES_NEEDED <= s'.tc[KICKER].samples <= DUTY_SAMPLES_MAX
  {
    NappingOn(i, s.now);
    states', events', s' := Nap(states, events, s, KICKER, 5 * US, 5 * US, Napping(i));
  }

  lemma KickerNaps() returns (states: seq<Sys>, events: seq<Event>, s: Sys)
    ensures Reached(states, events, s) && Resting(s) && Asleep3(s) && s.now == 220_140_001 && UsersReady(s)
    ensures Numbers(s.tc[KICKER], Napping(10)) && DUTY_SAMPLES_NEEDED <= s.tc[KICKER].samples <= DUTY_SAMPLES_MAX
  {
    states, events, s := KickerFirstNaps();
    var i := 0;
    while i < 10
      invariant 0 <= i <= 10 && Reached(states, events, s) && Resting(s) && Asleep3(s)
                && s.now == 220_040_001 + 10 * US * i
      invariant UsersReady(s) && Numbers(s.tc[KICKER], Napping(i))
                && DUTY_SAMPLES_NEEDED <= s.tc[KICKER].samples <= DUTY_SAMPLES_MAX
    {
      states, events, s := ShortNap(states, events, s, i);
      i := i + 1;
    }
  }

  /** The kernel thread is pinned to cpu 0 while it sleeps. */
  lemma KickerPinned() returns (states: seq<Sys>, events: seq<Event>, s: Sys)
    ensures Reached(states, events, s) && Resting(s) && Asleep3(s) && s.now == 220_140_001 && UsersReady(s)
            && s.aff[KICKER] == {0}
    ensures Numbers(s.tc[KICKER], Napping(10)) && DUTY_SAMPLES_NEEDED <= s.tc[KICKER].samples <= DUTY_SAMPLES_MAX
  {
    var s0;
    states, events, s0 := KickerNaps();
    ReachedInv(states, events, s0);
    var e := SetAffinity(KICKER, {0});
    s := Next(s0, e);
    states, events := Go(states, events, s0, e, s);
  }

  lemma WakerRates()
    ensures Rate(475_190_157, 220_140_001, 220_140_001) == 1 && Rate(CRIT_INTERVAL_REF, 1, 220_140_001) == 0
    ensures TaskDuty(40_015_000, 59_990_000) == 409
  {
  }

  /** The third time it wakes up the user task is NORMAL. */
  lemma WakerIsNormal(tc: TaskCtx)
    requires Numbers(tc, Num(566_876_875, 80_030_000, 19_980_000, 20_010_001, 20_020_001)) && tc.samples == 2
    requires LC <= tc.tier <= GREEDY
    ensures var t := Awoken(tc, true, false, 220_140_001); t.tier == NORMAL && t.boost == EMPTY
  {
    WakerRates();
    assert TargetTier(1, 419) == NORMAL && TargetTier(1, 399) == NORMAL;
  }

  /** Everything is ready: the waker runs on cpu 1. */
  lemma WakerRuns() returns (states: seq<Sys>, events: seq<Event>, s: Sys)
    ensures Reached(states, events, s) && Inv(s) && Ready3(s)
  {
    var s0;
    states, events, s0 := KickerPinned();
    ContextOk(states, events, s0, WAKER);
    ContextOk(states, events, s0, KICKER);
    var t := Awoken(s0.tc[WAKER], true, false, s0.now);
    WakerIsNormal(s0.tc[WAKER]);
    states, events, s := WakerRunsAs(states, events, s0, t);
  }

  lemma WakerRunsAs(states: seq<Sys>, events: seq<Event>, s: Sys, t: TaskCtx)
    returns (states': seq<Sys>, events': seq<Event>, s': Sys)
    requires Reached(states, events, s) && Resting(s) && Asleep3(s) && s.now == NOW && UsersReady(s) && KickerWaits(s)
    requires t == Awoken(s.tc[WAKER], true, false, NOW) && t.tier == NORMAL && t.boost == EMPTY
    ensures Reached(states', events', s') && Inv(s') && Ready3(s')
  {
    states', events', s' := ComesToRun(states, events, s, WAKER, true, 1, t);
    AllReady(s, s', Started(t, NOW));
  }

  lemma AllReady(s: Sys, s': Sys, t: TaskCtx)
    requires Asleep3(s) && UsersReady(s) && KickerWaits(s) && Only(s, s', WAKER, t, Loc.Running(1)) && t.tier == NORMAL
             && t.boost == EMPTY
    requires Scene(s', [], [], NOBODY, IDLE[1 := NORMAL], false) && s'.d[1].preempt == false && s'.now == NOW
    ensures Ready3(s')
  {
    assert IDLE[1 := NORMAL] == [EMPTY, NORMAL];
  }

  const NOW := 220_140_001

  predicate Ready3(s: Sys)
  {
    && Scene(s, [], [], NOBODY, [EMPTY, NORMAL], false) && s.d[1].preempt == false && s.now == NOW
    && s.loc[WAKER] == Loc.Running(1) && s.tc[WAKER].tier == NORMAL && s.tc[WAKER].boost == EMPTY
    && s.loc[X] == Asleep && s.tc[X].tier == GREEDY && s.tc[X].samples == 0 && s.tc[X].boost == EMPTY
       && s.tc[X].resume == 0
    && s.tc[X].blockedAt != 0
    && KickerWaits(s)
  }

  predicate KickerWaits(s: Sys)
  {
    && Known(s) && s.loc[KICKER] == Asleep && s.aff[KICKER] == {0} && Numbers(s.tc[KICKER], Napping(10))
    && DUTY_SAMPLES_NEEDED <= s.tc[KICKER].samples <= DUTY_SAMPLES_MAX && LC <= s.tc[KICKER].tier <= GREEDY
  }

  // ----- the boost, one event after the other -----

  const NOTHING := Deed(false, 0, false, false)

  /** The boosted task: what it has used of its boost, what it has to resume, where it is. */
  predicate Boosting(s: Sys, used: nat, resume: nat, l: Loc)
  {
    && Known(s) && s.loc[X] == l && s.tc[X].boost == NORMAL && s.tc[X].boostUsed == used && s.tc[X].resume == resume
    && s.tc[X].tier == GREEDY && s.tc[X].samples <= 1
  }

  /** Event `e` does `w` to the boosted task and leads to `s'`. */
  ghost predicate Moves(s: Sys, e: Event, w: Deed, s': Sys)
  {
    && Inv(s) && Enabled(s, e) && Plausible(s, e) && X in s.tc && w == DeedOf(s, e, X) && s' == Next(s, e)
    && X in s'.tc && s'.tc[X].boost != EMPTY
  }

  /** The boost is granted while the waker runs on cpu 1. */
  predicate Granting(s: Sys, local: seq<Task>, l: Loc)
  {
    && Scene(s, [], [], [local, []], [EMPTY, NORMAL], false) && s.d[1].preempt == false && s.now == NOW
    && s.loc[WAKER] == Loc.Running(1) && Boosting(s, 0, 0, l) && KickerWaits(s)
  }

  lemma GrantedStep(s: Sys, t: TaskCtx)
    requires s.Shape() && Ready3(s) && t == s.tc[X].(boost := NORMAL, boostUsed := 0)
    ensures Boosted(s, X, Some(WAKER)) == t
    ensures SelectCpuStep(s, X, true, Some(WAKER), 0, true) == Touch(s, X, t, Waking(0))
  {
    assert s.Q(LC, 0) == [] && s.Q(INTERACTIVE, 0) == [] && s.Q(NORMAL, 0) == [] && s.Q(GREEDY, 0) == [];
    assert Load(s, 0, NORMAL) == 0;
  }

  lemma GrantIs(s: Sys, t: TaskCtx, s': Sys)
    requires Inv(s) && Ready3(s) && t == s.tc[X].(boost := NORMAL, boostUsed := 0) && s' == Touch(s, X, t, Waking(0))
    ensures var e := SelectCpu(X, true, Some(WAKER), 0, true);
            Enabled(s, e) && Plausible(s, e) && Next(s, e) == s' && DeedOf(s, e, X) == Deed(false, 0, false, true)
  {
    GrantedStep(s, t);
  }

  lemma Granted(s: Sys) returns (s': Sys)
    requires Inv(s) && Ready3(s)
    ensures Moves(s, SelectCpu(X, true, Some(WAKER), 0, true), Deed(false, 0, false, true), s')
    ensures Granting(s', [], Waking(0)) && s'.tc[X].blockedAt != 0 && s'.tc[X].samples == 0
  {
    var t := s.tc[X].(boost := NORMAL, boostUsed := 0);
    s' := Touch(s, X, t, Waking(0));
    GrantIs(s, t, s');
    GrantScene(s, t, s');
  }

  lemma GrantScene(s: Sys, t: TaskCtx, s': Sys)
    requires Ready3(s) && t == s.tc[X].(boost := NORMAL, boostUsed := 0) && s' == Touch(s, X, t, Waking(0))
    ensures Granting(s', [], Waking(0)) && s'.tc[X].blockedAt != 0 && s'.tc[X].samples == 0
  {
    Touched(s, X, t, Waking(0), [], [], NOBODY, [EMPTY, NORMAL], false);
  }

  lemma RousedStep(s: Sys)
    requires Granting(s, [], Waking(0)) && s.tc[X].blockedAt != 0 && s.tc[X].samples == 0
    ensures Granting(RunnableStep(s, X, true, Some(WAKER)), [], Ready(0))
  {
  }

  lemma Roused(s: Sys) returns (s': Sys)
    requires Inv(s) && Granting(s, [], Waking(0)) && s.tc[X].blockedAt != 0 && s.tc[X].samples == 0
    ensures Moves(s, Runnable(X, true, Some(WAKER)), NOTHING, s') && Granting(s', [], Ready(0))
  {
    s' := Next(s, Runnable(X, true, Some(WAKER)));
    RousedStep(s);
  }

  lemma Inserted(s: Sys) returns (s': Sys)
    requires Inv(s) && Granting(s, [], Ready(0))
    ensures Moves(s, InsertDirect(X), NOTHING, s') && Granting(s', [X], Local(0))
  {
    s' := s.(local := NOBODY[0 := [X]], loc := s.loc[X := Local(0)]);
    Inserts(s, X, 0, [EMPTY, NORMAL], s');
    assert NOBODY[0 := [X]] == [[X], []];
  }

  lemma WakerStops(s: Sys) returns (s': Sys)
    requires Inv(s) && Granting(s, [X], Local(0))
    ensures Moves(s, Stopping(WAKER, 1, false, false), NOTHING, s') && Given(s', Stopped)
  {
    Stops(s, WAKER, 1, [], [], [[X], []], [EMPTY, NORMAL]);
    s' := Next(s, Stopping(WAKER, 1, false, false));
    assert [EMPTY, NORMAL][1 := EMPTY] == [EMPTY, EMPTY];
  }

  /** The boosted task waits in the local queue of cpu 0; where the waker is. */
  predicate Given(s: Sys, w: Loc)
  {
    Lonely(s, [], [], [X], EMPTY, false) && s.loc[WAKER] == w && s.now == NOW && Boosting(s, 0, 0, Local(0))
      && KickerWaits(s)
  }

  /** Nothing happens on cpu 1. */
  predicate Lonely(s: Sys, lc: seq<Task>, normal: seq<Task>, local: seq<Task>, running: int, preempt: bool)
  {
    Scene(s, lc, normal, [local, []], [running, EMPTY], preempt)
  }

  lemma WakerSleeps(s: Sys) returns (s': Sys)
    requires Inv(s) && Given(s, Stopped)
    ensures Moves(s, Quiescent(WAKER, true), NOTHING, s') && Given(s', Asleep)
  {
    Sleeps(s, WAKER);
    var t := Blocked(s.tc[WAKER], s.now);
    s' := Touch(s, WAKER, t, Asleep);
    Touched(s, WAKER, t, Asleep, [], [], [[X], []], [EMPTY, EMPTY], false);
  }

  /** The boosted task runs, with a new slice, on the scene of a cpu with nothing else to do. */
  predicate Going(s: Sys, used: nat, since: nat)
  {
    && Lonely(s, [], [], [], NORMAL, false) && s.loc[WAKER] == Asleep && Boosting(s, used, 0, Loc.Running(0))
    && s.now == s.tc[X].startedAt + since && s.tc[X].granted == SLICE
  }

  /** The same before the kick, with all of the time since the grant spent on it. */
  predicate Budgeted(s: Sys, used: nat, since: nat)
  {
    Going(s, used, since) && s.now == NOW + used + since && KickerWaits(s)
  }

  lemma BoostRunsOn(s: Sys, used: nat) returns (s': Sys)
    requires Inv(s) && Lonely(s, [], [], [X], EMPTY, false) && s.loc[WAKER] == Asleep && Boosting(s, used, 0, Local(0))
    requires !s.loc[KICKER].Running?
    ensures Moves(s, Event.Run(X, 0, SLICE), NOTHING, s') && Going(s', used, 0) && s'.now == s.now
    ensures s'.tc[KICKER] == s.tc[KICKER] && s'.loc[KICKER] == s.loc[KICKER] && s'.aff == s.aff
  {
    Starts(s, X, 0, [], [], [[X], []], [EMPTY, EMPTY]);
    s' := Next(s, Event.Run(X, 0, SLICE));
    assert [[X], []][0 := []] == [[], []] && [EMPTY, EMPTY][0 := NORMAL] == [NORMAL, EMPTY];
  }

  lemma RunsOn(s: Sys, used: nat) returns (s': Sys)
    requires Inv(s) && Going(s, used, 0) && !s.loc[KICKER].Running?
    ensures Moves(s, Tick(MS), NOTHING, s') && Going(s', used, MS) && s' == s.(now := s.now + MS)
  {
    Ticks(s, MS);
    s' := s.(now := s.now + MS);
  }

  // ----- dispatch on cpu 0 -----

  lemma NoPeers(s: Sys)
    requires s.Shape() && s.topo == TWO
    ensures forall o :: !Peer(s, 0, o)
  {
  }

  lemma NothingOverdue(s: Sys)
    requires s.Shape() && s.Cpu(0) && s.Q(INTERACTIVE, 0) == [] && s.Q(GREEDY, 0) == []
    requires s.Q(NORMAL, 0) == [] || s.now <= s.d[0].head[NORMAL] + MS
    ensures forall t :: !CanStart(s, 0, t)
  {
  }

  lemma KeepOnly(s: Sys)
    requires s.Shape() && s.topo == TWO && s.nrRt == 0 && s.d[0].ovLeft == 0 && Queues(s, [], [])
    ensures GoodChoice(s, 0, NORMAL, Keep)
  {
    assert s.Q(LC, 0) == [] && s.Q(INTERACTIVE, 0) == [] && s.Q(NORMAL, 0) == [] && s.Q(GREEDY, 0) == [];
    NoPeers(s);
    NothingOverdue(s);
  }

  /** After a millisecond nothing waits, and the boosted task goes on, as long as its budget lasts. */
  lemma KeptOn(s: Sys, used: nat) returns (s': Sys)
    requires Inv(s) && Going(s, used, MS) && used + MS < WAKE_BOOST_BUDGET
    ensures Moves(s, Dispatch(0, Some(X), Keep), Deed(true, MS, false, false), s') && Going(s', used + MS, 0)
            && s'.now == s.now
    ensures s'.tc[KICKER] == s.tc[KICKER] && s'.loc[KICKER] == s.loc[KICKER] && s'.aff == s.aff
  {
    var s1 := AccountPrev(s, 0, Some(X));
    Charged(s, s1, used);
    KeepOnly(s1);
    s' := Next(s, Dispatch(0, Some(X), Keep));
  }

  lemma Charged(s: Sys, s1: Sys, used: nat)
    requires Inv(s) && Going(s, used, MS) && s1 == AccountPrev(s, 0, Some(X)) && used + MS < WAKE_BOOST_BUDGET
    ensures s1.Shape() && s1 == s.(tc := s.tc[X := s1.tc[X]]) && s1.tc[X].startedAt == s.now
            && s1.tc[X].granted == SLICE
    ensures s1.tc[X].boost == NORMAL && s1.tc[X].boostUsed == used + MS && s1.tc[X].resume == 0
    ensures s1.tc[X].tier == GREEDY && s1.tc[X].samples == s.tc[X].samples && EffectiveTier(s1.tc[X]) == NORMAL
  {
    assert s.d[0 := s.d[0]] == s.d;
  }

  /** What a dispatch that takes a task comes to. */
  lemma DispatchTakes(s: Sys, prev: Option<Task>, s1: Sys, ch: Choice, s': Sys)
    requires Inv(s) && s.Cpu(0) && (prev.Some? ==> prev.value in s.tc && s.loc[prev.value] == Loc.Running(0))
    requires s1 == AccountPrev(s, 0, prev) && s1.Shape() && s1.Cpu(0) && GoodChoice(s1, 0, PrevTier(s1, prev), ch)
             && CanTake(s1, 0, ch)
    requires ch.Take? && s' == Apply(s1, 0, ch)
    ensures Enabled(s, Dispatch(0, prev, ch)) && Next(s, Dispatch(0, prev, ch)) == s'
  {
  }

  lemma DispatchDeed(s: Sys, prev: Option<Task>, ch: Choice)
    requires s.Shape() && Enabled(s, Dispatch(0, prev, ch)) && X in s.tc
    ensures DeedOf(s, Dispatch(0, prev, ch), X)
         == if prev == Some(X) then Deed(true, Elapsed(s.now, s.tc[X].startedAt), s.d[0].preempt, false) else NOTHING
  {
  }

  lemma DispatchMoves(s: Sys, prev: Option<Task>, s1: Sys, ch: Choice, s': Sys, w: Deed)
    requires Inv(s) && s.Cpu(0) && (prev.Some? ==> prev.value in s.tc && s.loc[prev.value] == Loc.Running(0))
    requires s1 == AccountPrev(s, 0, prev) && s1.Shape() && s1.Cpu(0) && GoodChoice(s1, 0, PrevTier(s1, prev), ch)
             && CanTake(s1, 0, ch)
    requires ch.Take? && s' == Apply(s1, 0, ch) && (prev.None? ==> Free(s, 0))
    requires X in s.tc && X in s'.tc && s'.tc[X].boost != EMPTY
    requires w == if prev == Some(X) then Deed(true, Elapsed(s.now, s.tc[X].startedAt), s.d[0].preempt, false)
             else NOTHING
    ensures Moves(s, Dispatch(0, prev, ch), w, s')
  {
    DispatchTakes(s, prev, s1, ch, s');
    DispatchDeed(s, prev, ch);
  }

  // ----- the kick -----

  lemma LcRates()
    ensures Rate(20_332_379, NOW + 4 * MS, NOW + 4 * MS) == 5 && Rate(CRIT_INTERVAL_REF, 1, NOW + 4 * MS) == 0
    ensures TaskDuty(2_062_500, 102_050_000) == 20
  {
    assert CRIT_INTERVAL_REF / 20_332_379 == 49;
    assert FloorLog2(49) == 5;
  }

  /** Having slept for 4 ms the kernel thread is LC. */
  lemma KickerIsLc(tc: TaskCtx)
    requires Numbers(tc, Napping(10)) && DUTY_SAMPLES_NEEDED <= tc.samples <= DUTY_SAMPLES_MAX
             && LC <= tc.tier <= GREEDY
    ensures var t := Awoken(tc, true, true, NOW + 4 * MS); t.tier == LC && t.boost == EMPTY && t.resume == 0
  {
    LcRates();
    assert Reclassify(tc.tier, 5, 20) == LC;
  }

  predicate KickerReady(s: Sys)
  {
    Known(s) && s.loc[KICKER] == Ready(-1) && s.tc[KICKER].tier == LC && s.tc[KICKER].boost == EMPTY
      && s.tc[KICKER].resume == 0
  }

  lemma KickerWakesStep(s: Sys, t: TaskCtx)
    requires Known(s) && s.loc[KICKER] == Asleep && t == Awoken(s.tc[KICKER], true, true, s.now)
    ensures RunnableStep(s, KICKER, true, None) == Touch(s, KICKER, t, Ready(-1))
  {
    var w := Woken(s.tc[KICKER], s.now);
    assert s.tc[KICKER := w][KICKER := t] == s.tc[KICKER := t];
  }

  /** A timer wakes the kernel thread. */
  lemma KickerWakes(s: Sys) returns (s': Sys)
    requires Inv(s) && Going(s, 3 * MS, MS) && s.now == NOW + 4 * MS && KickerWaits(s)
    ensures Moves(s, Runnable(KICKER, true, None), NOTHING, s') && Going(s', 3 * MS, MS) && KickerReady(s')
            && s'.now == s.now
  {
    var t := Awoken(s.tc[KICKER], true, true, s.now);
    KickerIsLc(s.tc[KICKER]);
    KickerWakesStep(s, t);
    s' := Touch(s, KICKER, t, Ready(-1));
    Touched(s, KICKER, t, Ready(-1), [], [], [[], []], [NORMAL, EMPTY], false);
  }

  /** The boosted task runs, and the kernel thread waits behind it with a kick pending. */
  predicate UnderKick(s: Sys, lc: seq<Task>, local: seq<Task>, l: Loc)
  {
    Lonely(s, lc, [], local, NORMAL, true) && s.loc[WAKER] == Asleep && s.loc[KICKER] == l
  }

  predicate OnSlice(s: Sys, used: nat, since: nat)
  {
    Boosting(s, used, 0, Loc.Running(0)) && s.now == s.tc[X].startedAt + since && s.tc[X].granted == SLICE
  }

  /** The LC task queues on the cpu where the boosted one runs, and a kick is on its way. */
  lemma KickedStep(s: Sys)
    requires s.Shape() && Going(s, 3 * MS, MS) && KickerReady(s)
    ensures EnqueueStep(s, KICKER, 0, true, None, -1, 0) == PlaceOn(s, KICKER, LC, 0, true, 0)
  {
    assert s.Q(LC, 0) == [] && s.Q(INTERACTIVE, 0) == [] && s.Q(NORMAL, 0) == [] && s.Q(GREEDY, 0) == [];
    assert s.tc[KICKER := s.tc[KICKER].(resume := 0)] == s.tc && s.(tc := s.tc) == s;
    assert Load(s, 0, LC) == 0;
  }

  lemma KickIs(s: Sys)
    requires Inv(s) && Going(s, 3 * MS, MS) && KickerReady(s)
    ensures var e := Enqueue(KICKER, 0, true, None, -1, 0);
            && Enabled(s, e) && Plausible(s, e) && DeedOf(s, e, X) == NOTHING
            && Next(s, e) == PlaceOn(s, KICKER, LC, 0, true, 0)
  {
    KickedStep(s);
  }

  lemma Kicked(s: Sys) returns (s': Sys)
    requires Inv(s) && Going(s, 3 * MS, MS) && KickerReady(s)
    ensures Moves(s, Enqueue(KICKER, 0, true, None, -1, 0), NOTHING, s')
            && UnderKick(s', [KICKER], [], Queued(Qid(LC, 0))) && OnSlice(s', 3 * MS, MS)
  {
    KickIs(s);
    s' := PlaceOn(s, KICKER, LC, 0, true, 0);
    PlacedStep(s, s');
  }

  lemma PlacedStep(s: Sys, s': Sys)
    requires s.Shape() && Going(s, 3 * MS, MS) && KickerReady(s) && s' == PlaceOn(s, KICKER, LC, 0, true, 0)
    ensures UnderKick(s', [KICKER], [], Queued(Qid(LC, 0))) && s'.tc == s.tc && s'.now == s.now && s'.loc[X] == s.loc[X]
  {
    assert s.Q(LC, 0) == [] && s.Q(LC, 0) + [KICKER] == [KICKER];
  }

  /** Dispatch charges the boosted task for the fourth millisecond. Its budget is used up, and the pending kick keeps
      the boost. */
  lemma DispatchedAway(s: Sys) returns (s': Sys)
    requires Inv(s) && UnderKick(s, [KICKER], [], Queued(Qid(LC, 0))) && OnSlice(s, 3 * MS, MS)
    ensures Moves(s, Dispatch(0, Some(X), Take(LC, 0, Early)), Deed(true, MS, true, false), s')
    ensures UnderKick(s', [], [KICKER], Local(0)) && OnSlice(s', 4 * MS, 0)
  {
    s' := Away(s);
    DispatchMoves(s, Some(X), AccountPrev(s, 0, Some(X)), Take(LC, 0, Early), s', Deed(true, MS, true, false));
  }

  lemma Away(s: Sys) returns (s': Sys)
    requires Inv(s) && UnderKick(s, [KICKER], [], Queued(Qid(LC, 0))) && OnSlice(s, 3 * MS, MS)
    ensures var s1, ch := AccountPrev(s, 0, Some(X)), Take(LC, 0, Early);
            && s1.Shape() && s1.Cpu(0) && GoodChoice(s1, 0, PrevTier(s1, Some(X)), ch) && CanTake(s1, 0, ch)
               && s' == Apply(s1, 0, ch)
    ensures UnderKick(s', [], [KICKER], Local(0)) && OnSlice(s', 4 * MS, 0)
  {
    var s1 := AccountPrev(s, 0, Some(X));
    ChargedUnderKick(s, s1);
    LcFirst(s1);
    s' := Apply(s1, 0, Take(LC, 0, Early));
    KickerTaken(s1);
  }

  lemma ChargedUnderKick(s: Sys, s1: Sys)
    requires Inv(s) && UnderKick(s, [KICKER], [], Queued(Qid(LC, 0))) && s1 == AccountPrev(s, 0, Some(X))
    requires Boosting(s, 3 * MS, 0, Loc.Running(0)) && s.now == s.tc[X].startedAt + MS
    ensures s1.Shape() && s1 == s.(tc := s.tc[X := s1.tc[X]]) && s1.tc[X].startedAt == s.now
            && s1.tc[X].granted == s.tc[X].granted
    ensures s1.tc[X].boost == NORMAL && s1.tc[X].boostUsed == 4 * MS && s1.tc[X].resume == 0
    ensures s1.tc[X].tier == GREEDY && s1.tc[X].samples == s.tc[X].samples
  {
    assert s.d[0 := s.d[0]] == s.d;
  }

  lemma KickerTaken(s: Sys)
    requires s.Shape() && UnderKick(s, [KICKER], [], Queued(Qid(LC, 0))) && CanTake(s, 0, Take(LC, 0, Early))
    requires Move(s, LC, 0, 0).(d := s.d) == s.(q := s.q[Qid(LC, 0) := []], local := [[KICKER], []],
             loc := s.loc[KICKER := Local(0)])
    ensures var s' := Apply(s, 0, Take(LC, 0, Early));
            && UnderKick(s', [], [KICKER], Local(0)) && s'.now == s.now && s'.tc == s.tc && s'.aff == s.aff
            && s'.loc == s.loc[KICKER := Local(0)]
  {
  }

  lemma LcFirst(s: Sys)
    requires s.Shape() && s.topo == TWO && s.nrRt == 0 && Queue(s, LC, 0) == [KICKER] && KICKER in s.aff
             && 0 in s.aff[KICKER]
    requires s.local == [[], []]
    ensures forall prev :: GoodChoice(s, 0, prev, Take(LC, 0, Early))
    ensures CanTake(s, 0, Take(LC, 0, Early))
    ensures Move(s, LC, 0, 0).(d := s.d) == s.(q := s.q[Qid(LC, 0) := []], local := [[KICKER], []],
            loc := s.loc[KICKER := Local(0)])
  {
    assert s.Q(LC, 0) == [KICKER] && s.Allows(KICKER, 0);
    assert FirstAllowed(s, s.Q(LC, 0), 0) == 0;
    assert OwnWork(s, 0, LC);
    assert RemoveAt([KICKER], 0) == [] && s.local[0] + [KICKER] == [KICKER] && s.local[0 := [KICKER]] == [[KICKER], []];
  }

  /** Stopped, with the rest of its slice and its boost, and the kernel thread next. */
  predicate GaveWay(s: Sys)
  {
    && Lonely(s, [], [], [KICKER], EMPTY, false) && Boosting(s, 4 * MS, SLICE, Ready(-1))
    && s.loc[WAKER] == Asleep && s.loc[KICKER] == Local(0)
  }

  /** Stopped by the kick: the rest of the slice is given back, and with it the boost. */
  lemma StoppedByKick(s: Sys) returns (s': Sys)
    requires Inv(s) && UnderKick(s, [], [KICKER], Local(0)) && OnSlice(s, 4 * MS, 0)
    ensures Moves(s, Stopping(X, 0, true, true), Deed(true, 0, true, false), s')
    ensures GaveWay(s')
  {
    s' := Next(s, Stopping(X, 0, true, true));
    StoppedStep(s, s');
  }

  lemma StoppedStep(s: Sys, s': Sys)
    requires s.Shape() && UnderKick(s, [], [KICKER], Local(0)) && Boosting(s, 4 * MS, 0, Loc.Running(0))
    requires s.tc[X].startedAt == s.now && s.tc[X].granted == SLICE && s' == StoppingStep(s, X, 0, true, true)
    ensures GaveWay(s')
  {
  }

  /** The time since the NORMAL tier of cpu 0 was stamped. */
  predicate Stamped(s: Sys, since: nat) { |s.d| == 2 && |s.d[0].head| == 5 && s.now == s.d[0].head[NORMAL] + since }

  predicate Behind(s: Sys, local: seq<Task>, running: int)
  {
    Lonely(s, [], [X], local, running, false) && s.loc[WAKER] == Asleep
      && Boosting(s, 4 * MS, 0, Queued(Qid(NORMAL, 0)))
  }

  /** It goes to the front of its tier, still boosted. */
  lemma QueuedAgain(s: Sys) returns (s': Sys)
    requires Inv(s) && GaveWay(s)
    ensures Moves(s, Enqueue(X, 0, false, None, -1, 0), NOTHING, s') && Behind(s', [KICKER], EMPTY) && Stamped(s', 0)
    ensures s'.loc[KICKER] == Local(0)
  {
    var s1 := s.(tc := s.tc[X := s.tc[X].(resume := 0)]);
    s' := Insert(s1, X, NORMAL, 0, true);
    assert Next(s, Enqueue(X, 0, false, None, -1, 0)) == s';
    QueuedStep(s, s1, s');
  }

  lemma QueuedStep(s: Sys, s1: Sys, s': Sys)
    requires s1.Shape() && GaveWay(s)
    requires s1 == s.(tc := s.tc[X := s.tc[X].(resume := 0)]) && s' == Insert(s1, X, NORMAL, 0, true)
    ensures Behind(s', [KICKER], EMPTY) && Stamped(s', 0) && s'.loc[KICKER] == Local(0)
  {
    assert s1.Q(NORMAL, 0) == [] && [X] + s1.Q(NORMAL, 0) == [X];
  }

  /** The kernel thread runs, and the boosted task waits. */
  predicate KickerOn(s: Sys) { |s.d| > 0 && Behind(s, [], s.d[0].running) && s.loc[KICKER] == Loc.Running(0) }

  lemma KickerRuns(s: Sys) returns (s': Sys)
    requires Inv(s) && Behind(s, [KICKER], EMPTY) && Stamped(s, 0) && s.loc[KICKER] == Local(0)
    ensures Moves(s, Event.Run(KICKER, 0, SLICE), NOTHING, s') && Behind(s', [], s'.d[0].running) && Stamped(s', 0)
    ensures s'.loc[KICKER] == Loc.Running(0) && s'.tc[KICKER].startedAt == s'.now && s'.tc[KICKER].granted == SLICE
  {
    Starts(s, KICKER, 0, [], [X], [[KICKER], []], [EMPTY, EMPTY]);
    s' := Next(s, Event.Run(KICKER, 0, SLICE));
    assert [[KICKER], []][0 := []] == [[], []];
  }

  lemma KickerRunsOn(s: Sys) returns (s': Sys)
    requires Inv(s) && Behind(s, [], s.d[0].running) && Stamped(s, 0)
    requires s.loc[KICKER] == Loc.Running(0) && s.tc[KICKER].startedAt == s.now && s.tc[KICKER].granted == SLICE
    ensures Moves(s, Tick(20 * US), NOTHING, s') && Behind(s', [], s'.d[0].running) && Stamped(s', 20 * US)
    ensures s'.loc[KICKER] == Loc.Running(0)
  {
    Ticks(s, 20 * US);
    s' := s.(now := s.now + 20 * US);
  }

  lemma KickerStops(s: Sys) returns (s': Sys)
    requires Inv(s) && Behind(s, [], s.d[0].running) && Stamped(s, 20 * US) && s.loc[KICKER] == Loc.Running(0)
    ensures Moves(s, Stopping(KICKER, 0, false, false), NOTHING, s') && Behind(s', [], EMPTY) && Stamped(s', 20 * US)
    ensures s'.loc[KICKER] == Stopped
  {
    Stops(s, KICKER, 0, [], [X], [[], []], [s.d[0].running, EMPTY]);
    s' := Next(s, Stopping(KICKER, 0, false, false));
    assert [s.d[0].running, EMPTY][0 := EMPTY] == [EMPTY, EMPTY];
    assert s'.d[0].head == s.d[0].head;
  }

  lemma KickerSleeps(s: Sys) returns (s': Sys)
    requires Inv(s) && Behind(s, [], EMPTY) && Stamped(s, 20 * US) && s.loc[KICKER] == Stopped
    ensures Moves(s, Quiescent(KICKER, true), NOTHING, s') && Behind(s', [], EMPTY) && Stamped(s', 20 * US)
    ensures s'.loc[KICKER] == Asleep
  {
    Sleeps(s, KICKER);
    var t := Blocked(s.tc[KICKER], s.now);
    s' := Touch(s, KICKER, t, Asleep);
    Touched(s, KICKER, t, Asleep, [], [X], [[], []], [EMPTY, EMPTY], false);
  }

  /** The boosted task is next to run. */
  predicate Taken(s: Sys)
  {
    && Lonely(s, [], [], [X], EMPTY, false) && Boosting(s, 4 * MS, 0, Local(0))
    && s.loc[WAKER] == Asleep && s.loc[KICKER] == Asleep
  }

  /** The boosted task is the only one waiting, and not overdue. */
  lemma DispatchedAgain(s: Sys) returns (s': Sys)
    requires Inv(s) && Behind(s, [], EMPTY) && Stamped(s, 20 * US) && s.loc[KICKER] == Asleep
    ensures Moves(s, Dispatch(0, None, Take(NORMAL, 0, Late)), NOTHING, s') && Taken(s')
  {
    s' := Again(s);
    IdleDispatchMoves(s, Take(NORMAL, 0, Late), s');
  }

  lemma IdleDispatchMoves(s: Sys, ch: Choice, s': Sys)
    requires Inv(s) && s.Cpu(0) && GoodChoice(s, 0, EMPTY, ch) && CanTake(s, 0, ch) && ch.Take? && s' == Apply(s, 0, ch)
    requires Free(s, 0) && X in s.tc && X in s'.tc && s'.tc[X].boost != EMPTY
    ensures Moves(s, Dispatch(0, None, ch), NOTHING, s')
  {
    DispatchMoves(s, None, s, ch, s', NOTHING);
  }

  lemma Again(s: Sys) returns (s': Sys)
    requires s.Shape() && Behind(s, [], EMPTY) && Stamped(s, 20 * US) && s.loc[KICKER] == Asleep
    ensures var ch := Take(NORMAL, 0, Late);
            GoodChoice(s, 0, EMPTY, ch) && CanTake(s, 0, ch) && s' == Apply(s, 0, ch) && Taken(s') && Free(s, 0)
  {
    NormalOnly(s);
    s' := Apply(s, 0, Take(NORMAL, 0, Late));
    AppliedScene(s, s');
  }

  lemma AppliedScene(s: Sys, s': Sys)
    requires s.Shape() && Behind(s, [], EMPTY) && s.loc[KICKER] == Asleep && Applied(s, s')
    ensures Taken(s')
  {
  }

  lemma NormalOnly(s: Sys)
    requires s.Shape() && Behind(s, [], EMPTY) && Stamped(s, 20 * US)
    ensures GoodChoice(s, 0, EMPTY, Take(NORMAL, 0, Late)) && CanTake(s, 0, Take(NORMAL, 0, Late))
    ensures Applied(s, Apply(s, 0, Take(NORMAL, 0, Late)))
  {
    assert s.Q(LC, 0) == [] && s.Q(INTERACTIVE, 0) == [] && s.Q(NORMAL, 0) == [X] && s.Q(GREEDY, 0) == [];
    assert s.Q(NORMAL, 0)[0] == X && s.Allows(X, 0);
    assert OwnWork(s, 0, NORMAL) && !OwnWork(s, 0, LC) && !OwnWork(s, 0, INTERACTIVE) && !OwnWork(s, 0, GREEDY);
    NoPeers(s);
    NothingOverdue(s);
    NormalMoves(s);
  }

  /** The boosted task has gone to the local queue. */
  predicate Applied(s: Sys, s': Sys)
  {
    && s'.q == s.q[Qid(NORMAL, 0) := []] && s'.local == [[X], []] && s'.loc == s.loc[X := Local(0)] && s'.tc == s.tc
    && s'.aff == s.aff && s'.topo == s.topo && s'.now == s.now && s'.rtCurr == s.rtCurr && s'.nrRt == s.nrRt
    && s'.kthreads == s.kthreads && |s.d| == |s'.d| == 2 && s'.d[0] == s.d[0].(head := s'.d[0].head, ovLeft := 0)
       && s'.d[1] == s.d[1]
  }

  lemma NormalMoves(s: Sys)
    requires s.Shape() && s.topo == TWO && s.Q(NORMAL, 0) == [X] && s.Allows(X, 0) && s.local == [[], []]
    requires CanTake(s, 0, Take(NORMAL, 0, Late))
    ensures Applied(s, Apply(s, 0, Take(NORMAL, 0, Late)))
  {
    assert FirstAllowed(s, [X], 0) == 0;
    assert RemoveAt([X], 0) == [] && s.local[0] + [X] == [X] && s.local[0 := [X]] == [[X], []];
  }

  /** The boosted task runs for another millisecond before it stops by itself. */
  lemma StopsAtLast(s: Sys)
    requires Inv(s) && Going(s, 4 * MS, MS)
    ensures var e := Stopping(X, 0, false, false);
            Enabled(s, e) && Plausible(s, e) && DeedOf(s, e, X) == Deed(true, MS, false, false)
  {
  }

  // ----- the run -----

  /** Event `i` of the run does `w` to the boosted task. */
  ghost predicate Does(states: seq<Sys>, events: seq<Event>, i: nat, w: Deed)
    requires i < |events| < |states|
  {
    Inv(states[i]) && Enabled(states[i], events[i]) && X in states[i].tc && w == DeedOf(states[i], events[i], X)
  }

  /** The events from `a` on do `ws` to the boosted task. */
  ghost predicate Doing(states: seq<Sys>, events: seq<Event>, a: nat, ws: seq<Deed>)
  {
    && |states| == |events| + 1 && |events| == a + |ws|
    && forall j :: 0 <= j < |ws| ==> Does(states, events, a + j, ws[j])
  }

  /** The task is boosted after each event from `a` on. */
  ghost predicate Lifted(states: seq<Sys>, a: nat)
  {
    forall i :: a < i < |states| ==> X in states[i].tc && states[i].tc[X].boost != EMPTY
  }

  /** The first deed grants a boost and no later one does; the later ones charge `sum`. */
  ghost predicate Adds(ws: seq<Deed>, sum: nat)
  {
    && |ws| > 0 && ws[0].grants && (forall j :: 0 < j < |ws| ==> !ws[j].grants) && SumCharged(ws[1..]) == sum
  }

  /** A plausible run to `s` whose events from `a` on do `ws`, which charge `sum`; the task is boosted after each of
      them. */
  ghost predicate Trace(states: seq<Sys>, events: seq<Event>, a: nat, ws: seq<Deed>, s: Sys, n: nat, sum: nat)
  {
    && Reached(states, events, s) && Inv(s)
    && Doing(states, events, a, ws) && Lifted(states, a) && Adds(ws, sum) && |ws| == n
  }

  lemma AddsMore(ws: seq<Deed>, sum: nat, w: Deed)
    requires Adds(ws, sum) && !w.grants
    ensures Adds(ws + [w], sum + w.charged)
  {
    var vs := (ws + [w])[1..];
    assert vs[..|vs| - 1] == ws[1..];
  }

  ghost predicate Did(s: Sys, e: Event, w: Deed) { Inv(s) && Enabled(s, e) && X in s.tc && w == DeedOf(s, e, X) }

  lemma DoesMore(states: seq<Sys>, events: seq<Event>, a: nat, ws: seq<Deed>, s: Sys, e: Event, w: Deed, s': Sys)
    requires Doing(states, events, a, ws) && states[|events|] == s && Did(s, e, w)
    ensures Doing(states + [s'], events + [e], a, ws + [w])
  {
    var states', events', ws' := states + [s'], events + [e], ws + [w];
    forall j | 0 <= j < |ws'| ensures Does(states', events', a + j, ws'[j]) {
      assert states'[a + j] == states[a + j];
      if j < |ws| {
        assert Does(states, events, a + j, ws[j]);
        assert events'[a + j] == events[a + j];
      }
    }
  }

  /** One event more. */
  lemma Trails(states: seq<Sys>, events: seq<Event>, a: nat, ws: seq<Deed>, s: Sys, n: nat, sum: nat, e: Event, w: Deed,
               s': Sys)
    returns (states': seq<Sys>, events': seq<Event>, ws': seq<Deed>)
    requires Trace(states, events, a, ws, s, n, sum) && Moves(s, e, w, s') && !w.grants
    ensures Trace(states', events', a, ws', s', n + 1, sum + w.charged)
  {
    AddsMore(ws, sum, w);
    DoesMore(states, events, a, ws, s, e, w, s');
    LiftedMore(states, a, s');
    states', events' := Go(states, events, s, e, s');
    ws' := ws + [w];
  }

  lemma LiftedMore(states: seq<Sys>, a: nat, s': Sys)
    requires Lifted(states, a) && X in s'.tc && s'.tc[X].boost != EMPTY
    ensures Lifted(states + [s'], a)
  {
  }

  lemma FirstDeed(states: seq<Sys>, events: seq<Event>, s: Sys, e: Event, w: Deed, s': Sys)
    returns (states': seq<Sys>, events': seq<Event>)
    requires Reached(states, events, s) && Moves(s, e, w, s') && w.grants
    ensures Trace(states', events', |events|, [w], s', 1, 0)
  {
    assert [w][1..] == [];
    assert Doing(states, events, |events|, []);
    DoesMore(states, events, |events|, [], s, e, w, s');
    assert [] + [w] == [w];
    states', events' := Go(states, events, s, e, s');
  }

  /** The next event on a stretch of the run: what it does, and what it leads to. */
  ghost predicate Advances(s: Sys, e: Event, w: Deed, s': Sys, charged: nat)
  {
    Moves(s, e, w, s') && !w.grants && w.charged == charged
  }

  // from the grant to where the waker sleeps

  predicate GrantStage(k: nat, s: Sys)
  {
    match k
    case 1 => Granting(s, [], Waking(0)) && s.tc[X].blockedAt != 0 && s.tc[X].samples == 0
    case 2 => Granting(s, [], Ready(0))
    case 3 => Granting(s, [X], Local(0))
    case 4 => Given(s, Stopped)
    case _ => Given(s, Asleep)
  }

  lemma GrantNext(k: nat, s: Sys) returns (e: Event, w: Deed, s': Sys)
    requires Inv(s) && GrantStage(k, s) && 1 <= k < 5
    ensures Advances(s, e, w, s', 0) && GrantStage(k + 1, s')
  {
    w := NOTHING;
    match k
    case 1 => e := Runnable(X, true, Some(WAKER)); s' := Roused(s);
    case 2 => e := InsertDirect(X); s' := Inserted(s);
    case 3 => e := Stopping(WAKER, 1, false, false); s' := WakerStops(s);
    case 4 => e := Quiescent(WAKER, true); s' := WakerSleeps(s);
  }

  lemma RunToGrant() returns (states: seq<Sys>, events: seq<Event>, a: nat, ws: seq<Deed>, s: Sys)
    ensures Trace(states, events, a, ws, s, 1, 0) && GrantStage(1, s)
  {
    var s0;
    states, events, s0 := WakerRuns();
    a := |events|;
    s := Granted(s0);
    ws := [Deed(false, 0, false, true)];
    states, events := FirstDeed(states, events, s0, SelectCpu(X, true, Some(WAKER), 0, true), ws[0], s);
  }

  lemma RunToLocal() returns (states: seq<Sys>, events: seq<Event>, a: nat, ws: seq<Deed>, s: Sys)
    ensures Trace(states, events, a, ws, s, 5, 0) && Given(s, Asleep)
  {
    states, events, a, ws, s := RunToGrant();
    var k := 1;
    while k < 5
      invariant 1 <= k <= 5 && Trace(states, events, a, ws, s, k, 0) && GrantStage(k, s)
    {
      var e, w, s' := GrantNext(k, s);
      states, events, ws := Trails(states, events, a, ws, s, k, 0, e, w, s');
      s, k := s', k + 1;
    }
  }

  // four milliseconds

  lemma RunToFirst() returns (states: seq<Sys>, events: seq<Event>, a: nat, ws: seq<Deed>, s: Sys)
    ensures Trace(states, events, a, ws, s, 6, 0) && Budgeted(s, 0, 0)
  {
    var s0;
    states, events, a, ws, s0 := RunToLocal();
    s := BoostRunsOn(s0, 0);
    states, events, ws := Trails(states, events, a, ws, s0, 5, 0, Event.Run(X, 0, SLICE), NOTHING, s);
  }

  lemma RunForOne(states: seq<Sys>, events: seq<Event>, a: nat, ws: seq<Deed>, s: Sys, n: nat, used: nat)
    returns (states': seq<Sys>, events': seq<Event>, ws': seq<Deed>, s': Sys)
    requires Trace(states, events, a, ws, s, n, used) && Budgeted(s, used, 0)
    ensures Trace(states', events', a, ws', s', n + 1, used) && Budgeted(s', used, MS)
  {
    s' := RunsOn(s, used);
    states', events', ws' := Trails(states, events, a, ws, s, n, used, Tick(MS), NOTHING, s');
  }

  lemma KeepAfterOne(states: seq<Sys>, events: seq<Event>, a: nat, ws: seq<Deed>, s: Sys, n: nat, used: nat)
    returns (states': seq<Sys>, events': seq<Event>, ws': seq<Deed>, s': Sys)
    requires Trace(states, events, a, ws, s, n, used) && Budgeted(s, used, MS) && used + MS < WAKE_BOOST_BUDGET
    ensures Trace(states', events', a, ws', s', n + 1, used + MS) && Budgeted(s', used + MS, 0)
  {
    s' := KeptOn(s, used);
    states', events', ws' := Trails(states, events, a, ws, s, n, used, Dispatch(0, Some(X), Keep),
      Deed(true, MS, false, false), s');
  }

  /** Until the boosted task has run for 4 ms, the last of them not yet charged. */
  lemma RunToBudget() returns (states: seq<Sys>, events: seq<Event>, a: nat, ws: seq<Deed>, s: Sys)
    ensures Trace(states, events, a, ws, s, 13, 3 * MS) && Budgeted(s, 3 * MS, MS)
  {
    states, events, a, ws, s := RunToFirst();
    var i := 0;
    while i < 3
      invariant 0 <= i <= 3 && Trace(states, events, a, ws, s, 6 + 2 * i, i * MS) && Budgeted(s, i * MS, 0)
    {
      states, events, ws, s := RunForOne(states, events, a, ws, s, 6 + 2 * i, i * MS);
      states, events, ws, s := KeepAfterOne(states, events, a, ws, s, 7 + 2 * i, i * MS);
      i := i + 1;
    }
    states, events, ws, s := RunForOne(states, events, a, ws, s, 12, 3 * MS);
  }

  // the kick, until the boosted task is queued again

  predicate KickStage(k: nat, s: Sys)
  {
    match k
    case 13 => Budgeted(s, 3 * MS, MS)
    case 14 => Going(s, 3 * MS, MS) && KickerReady(s)
    case 15 => UnderKick(s, [KICKER], [], Queued(Qid(LC, 0))) && OnSlice(s, 3 * MS, MS)
    case 16 => UnderKick(s, [], [KICKER], Local(0)) && OnSlice(s, 4 * MS, 0)
    case 17 => GaveWay(s)
    case _ => Behind(s, [KICKER], EMPTY) && Stamped(s, 0) && s.loc[KICKER] == Local(0)
  }

  lemma KickNext(k: nat, s: Sys) returns (e: Event, w: Deed, s': Sys)
    requires Inv(s) && KickStage(k, s) && 13 <= k < 18
    ensures Advances(s, e, w, s', if k == 15 then MS else 0) && KickStage(k + 1, s')
  {
    w := NOTHING;
    match k
    case 13 => e := Runnable(KICKER, true, None); s' := KickerWakes(s);
    case 14 => e := Enqueue(KICKER, 0, true, None, -1, 0); s' := Kicked(s);
    case 15 => e, w := Dispatch(0, Some(X), Take(LC, 0, Early)), Deed(true, MS, true, false); s' := DispatchedAway(s);
    case 16 => e, w := Stopping(X, 0, true, true), Deed(true, 0, true, false); s' := StoppedByKick(s);
    case 17 => e := Enqueue(X, 0, false, None, -1, 0); s' := QueuedAgain(s);
  }

  lemma RunToQueue() returns (states: seq<Sys>, events: seq<Event>, a: nat, ws: seq<Deed>, s: Sys)
    ensures Trace(states, events, a, ws, s, 18, 4 * MS) && KickStage(18, s)
  {
    states, events, a, ws, s := RunToBudget();
    var k, sum := 13, 3 * MS;
    while k < 18
      invariant 13 <= k <= 18 && sum == (if k < 16 then 3 else 4) * MS && Trace(states, events, a, ws, s, k, sum)
                && KickStage(k, s)
    {
      var e, w, s' := KickNext(k, s);
      states, events, ws := Trails(states, events, a, ws, s, k, sum, e, w, s');
      s, k, sum := s', k + 1, sum + w.charged;
    }
  }

  // the kernel thread runs, and then the boosted task

  predicate BackStage(k: nat, s: Sys)
  {
    match k
    case 18 => KickStage(18, s)
    case 19 => KickerOn(s) && Stamped(s, 0) && s.tc[KICKER].startedAt == s.now && s.tc[KICKER].granted == SLICE
    case 20 => KickerOn(s) && Stamped(s, 20 * US)
    case 21 => Behind(s, [], EMPTY) && Stamped(s, 20 * US) && s.loc[KICKER] == Stopped
    case _ => Behind(s, [], EMPTY) && Stamped(s, 20 * US) && s.loc[KICKER] == Asleep
  }

  predicate LastStage(k: nat, s: Sys)
  {
    match k
    case 22 => Behind(s, [], EMPTY) && Stamped(s, 20 * US) && s.loc[KICKER] == Asleep
    case 23 => Taken(s)
    case 24 => Going(s, 4 * MS, 0) && s.loc[KICKER] == Asleep
    case _ => Going(s, 4 * MS, MS)
  }

  lemma BackNext(k: nat, s: Sys) returns (e: Event, w: Deed, s': Sys)
    requires Inv(s) && BackStage(k, s) && 18 <= k < 22
    ensures Advances(s, e, w, s', 0) && BackStage(k + 1, s')
  {
    w := NOTHING;
    match k
    case 18 => e := Event.Run(KICKER, 0, SLICE); s' := KickerRuns(s);
    case 19 => e := Tick(20 * US); s' := KickerRunsOn(s);
    case 20 => e := Stopping(KICKER, 0, false, false); s' := KickerStops(s);
    case 21 => e := Quiescent(KICKER, true); s' := KickerSleeps(s);
  }

  lemma LastNext(k: nat, s: Sys) returns (e: Event, w: Deed, s': Sys)
    requires Inv(s) && LastStage(k, s) && 22 <= k < 25
    ensures Advances(s, e, w, s', 0) && LastStage(k + 1, s')
  {
    w := NOTHING;
    match k
    case 22 => e := Dispatch(0, None, Take(NORMAL, 0, Late)); s' := DispatchedAgain(s);
    case 23 => e := Event.Run(X, 0, SLICE); s' := BoostRunsOn(s, 4 * MS);
    case 24 => e := Tick(MS); s' := RunsOn(s, 4 * MS);
  }

  lemma RunToIdle() returns (states: seq<Sys>, events: seq<Event>, a: nat, ws: seq<Deed>, s: Sys)
    ensures Trace(states, events, a, ws, s, 22, 4 * MS) && LastStage(22, s)
  {
    states, events, a, ws, s := RunToQueue();
    var k := 18;
    while k < 22
      invariant 18 <= k <= 22 && Trace(states, events, a, ws, s, k, 4 * MS) && BackStage(k, s)
    {
      var e, w, s' := BackNext(k, s);
      states, events, ws := Trails(states, events, a, ws, s, k, 4 * MS, e, w, s');
      s, k := s', k + 1;
    }
  }

  lemma RunToLast() returns (states: seq<Sys>, events: seq<Event>, a: nat, ws: seq<Deed>, s: Sys)
    ensures Trace(states, events, a, ws, s, 25, 4 * MS) && Going(s, 4 * MS, MS)
  {
    states, events, a, ws, s := RunToIdle();
    var k := 22;
    while k < 25
      invariant 22 <= k <= 25 && Trace(states, events, a, ws, s, k, 4 * MS) && LastStage(k, s)
    {
      var e, w, s' := LastNext(k, s);
      states, events, ws := Trails(states, events, a, ws, s, k, 4 * MS, e, w, s');
      s, k := s', k + 1;
    }
  }

  /** The whole run, and what its last 26 events do. */
  lemma RunToEnd() returns (states: seq<Sys>, events: seq<Event>, a: nat, ws: seq<Deed>)
    ensures IsRun(states, events) && (forall i :: 0 <= i < |events| ==> PlausibleAt(states, events, i))
    ensures |ws| == 26 && Doing(states, events, a, ws) && Adds(ws, 5 * MS) && ws[25].charged == MS
    ensures forall i :: a < i < a + 26 ==> X in states[i].tc && states[i].tc[X].boost != EMPTY
  {
    var s, ws0;
    states, events, a, ws0, s := RunToLast();
    StopsAtLast(s);
    var e := Stopping(X, 0, false, false);
    states, events, ws := LastEvent(states, events, a, ws0, s, e, Deed(true, MS, false, false), Next(s, e));
  }

  lemma LastEvent(states: seq<Sys>, events: seq<Event>, a: nat, ws: seq<Deed>, s: Sys, e: Event, w: Deed,
                  s': Sys)
    returns (states': seq<Sys>, events': seq<Event>, ws': seq<Deed>)
    requires Trace(states, events, a, ws, s, 25, 4 * MS) && Did(s, e, w) && Plausible(s, e)
             && !w.grants && s' == Next(s, e)
    ensures IsRun(states', events') && (forall i :: 0 <= i < |events'| ==> PlausibleAt(states', events', i))
    ensures |ws'| == 26 && Doing(states', events', a, ws') && Adds(ws', 4 * MS + w.charged) && ws'[25] == w
    ensures forall i :: a < i < a + 26 ==> X in states'[i].tc && states'[i].tc[X].boost != EMPTY
  {
    ws' := ws + [w];
    AllDone(states, events, a, ws, s, e, w, s');
    states', events' := Go(states, events, s, e, s');
  }

  lemma AllDone(states: seq<Sys>, events: seq<Event>, a: nat, ws: seq<Deed>, s: Sys, e: Event, w: Deed, s': Sys)
    requires Doing(states, events, a, ws) && Lifted(states, a) && Adds(ws, 4 * MS) && |ws| == 25
    requires states[|events|] == s && Did(s, e, w) && !w.grants
    ensures Doing(states + [s'], events + [e], a, ws + [w]) && Adds(ws + [w], 4 * MS + w.charged)
    ensures forall i :: a < i < a + 26 ==> X in (states + [s'])[i].tc && (states + [s'])[i].tc[X].boost != EMPTY
  {
    AddsMore(ws, 4 * MS, w);
    DoesMore(states, events, a, ws, s, e, w, s');
    StillLifted(states, a, s');
  }

  lemma StillLifted(states: seq<Sys>, a: nat, s': Sys)
    requires Lifted(states, a) && |states| == a + 26
    ensures forall i :: a < i < a + 26 ==> X in (states + [s'])[i].tc && (states + [s'])[i].tc[X].boost != EMPTY
  {
  }

  lemma SeenDeeds(states: seq<Sys>, events: seq<Event>, a: nat, ws: seq<Deed>)
    requires Doing(states, events, a, ws) && RunOf(states[a..], events[a..], X)
    ensures DeedsOf(states[a..], events[a..], X) == ws
  {
    forall j | 0 <= j < |ws| ensures DeedsOf(states[a..], events[a..], X)[j] == ws[j] {
      assert Does(states, events, a + j, ws[j]);
      assert states[a..][j] == states[a + j] && events[a..][j] == events[a + j];
    }
  }

  lemma SeenViews(states: seq<Sys>, events: seq<Event>, a: nat)
    requires |states| == |events| + 1 && |events| == a + 26 && RunOf(states[a..], events[a..], X)
    requires forall i :: a < i < a + 26 ==> X in states[i].tc && states[i].tc[X].boost != EMPTY
    ensures forall i :: 0 < i < 26 ==> ViewsOf(states[a..], events[a..], X)[i].boost != EMPTY
  {
    forall i | 0 < i < 26 ensures ViewsOf(states[a..], events[a..], X)[i].boost != EMPTY {
      assert states[a..][i] == states[a + i];
    }
  }

  /** Granted with the first of 26 events and boosted until the last, the task runs for as long as the budget and the
      last stretch together, so that some event before has charged it past the budget with a kick pending. */
  predicate Overruns(vs: seq<View>, ws: seq<Deed>)
  {
    && |ws| == 26 && |vs| == 27 && ws[0].grants && (forall i :: 0 < i < 26 ==> !ws[i].grants && vs[i].boost != EMPTY)
    && SumCharged(ws[1..26]) == 5 * MS && ws[25].charged == MS
    && !(SumCharged(ws[1..26]) < WAKE_BOOST_BUDGET + ws[25].charged)
    && exists i :: 0 < i < 25 && KeptByKick(vs[i], ws[i])
  }

  /** There is a plausible run from init in which a task, from the grant of its boost with event `a` on, runs boosted
      for 5 ms, the last stretch of which is 1 ms: not below the budget of 4 ms and the last stretch. */
  lemma BoostCanOverrun() returns (states: seq<Sys>, events: seq<Event>, a: nat)
    ensures IsRun(states, events) && (forall i :: 0 <= i < |events| ==> PlausibleAt(states, events, i))
    ensures |events| == a + 26 && X in states[a].tc && RunOf(states[a..], events[a..], X)
    ensures Overruns(ViewsOf(states[a..], events[a..], X), DeedsOf(states[a..], events[a..], X))
  {
    var ws;
    states, events, a, ws := RunToEnd();
    KnownAt(states, events, a, ws);
    WholeRunsQualify(states, events, a, X);
    SeenOverrun(states, events, a, ws);
  }

  lemma KnownAt(states: seq<Sys>, events: seq<Event>, a: nat, ws: seq<Deed>)
    requires Doing(states, events, a, ws) && |ws| > 0
    ensures X in states[a].tc
  {
    assert Does(states, events, a + 0, ws[0]);
  }

  lemma SeenOverrun(states: seq<Sys>, events: seq<Event>, a: nat, ws: seq<Deed>)
    requires Doing(states, events, a, ws) && |ws| == 26 && RunOf(states[a..], events[a..], X) && Adds(ws, 5 * MS)
             && ws[25].charged == MS
    requires forall i :: a < i < a + 26 ==> X in states[i].tc && states[i].tc[X].boost != EMPTY
    ensures Overruns(ViewsOf(states[a..], events[a..], X), DeedsOf(states[a..], events[a..], X))
  {
    SeenDeeds(states, events, a, ws);
    SeenViews(states, events, a);
    Overrun(states[a..], events[a..], ws);
  }

  lemma Overrun(states: seq<Sys>, events: seq<Event>, ws: seq<Deed>)
    requires RunOf(states, events, X) && ws == DeedsOf(states, events, X) && |ws| == 26 && Adds(ws, 5 * MS)
             && ws[25].charged == MS
    requires forall i :: 0 < i < 26 ==> ViewsOf(states, events, X)[i].boost != EMPTY
    ensures Overruns(ViewsOf(states, events, X), ws)
  {
    RunsAreWatched(states, events, X);
    Overlong(ViewsOf(states, events, X), ws);
  }

  lemma Overlong(vs: seq<View>, ws: seq<Deed>)
    requires BoostRuns.Run(vs, ws) && |ws| == 26 && Adds(ws, 5 * MS) && ws[25].charged == MS
    requires forall i :: 0 < i < 26 ==> vs[i].boost != EMPTY
    ensures Overruns(vs, ws)
  {
    assert ws[1..] == ws[1..26];
    BoostedTime(vs, ws, 0, 26);
  }
}

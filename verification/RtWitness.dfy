/** A run from init to a state in which dispatch does not serve the best tier: the exception to strict tiers is real.
    Cpu 1 is taken by an RT task while a GREEDY task waits there, an INTERACTIVE kernel thread waits on cpu 2, and cpu
    0, which has nothing of its own, takes the GREEDY task. */
module RtWitness {
  import opened Options
  import opened Defs
  import opened Classifier
  import opened Machine
  import opened Invariant
  import opened Preservation
  import opened Dispatching

  const THREE := Topo([true, true, true], [0, 0, 0], 1)
  const ANY: set<int> := {0, 1, 2}
  const USER: Task := 7
  const KTHREAD: Task := 8

  /** Nothing runs; of the queues only those of the two tasks may have something, as the flags say. */
  ghost predicate Quiet(s: Sys, user: bool, kthread: bool)
  {
    && Inv(s) && s.topo == THREE && s.now == 1 && s.local == [[], [], []]
    && (forall c :: 0 <= c < 3 ==> s.d[c].running == EMPTY && s.d[c].ovLeft == 0)
    && (forall k :: k in s.q ==> s.q[k] == if user && k == Qid(GREEDY, 1) then [USER]
                                           else if kthread && k == Qid(INTERACTIVE, 2) then [KTHREAD] else [])
  }

  ghost predicate NoRt(s: Sys)
    requires s.Shape()
  {
    s.nrRt == 0 && s.rtCurr == [false, false, false] && forall c :: 0 <= c < |s.d| ==> !s.d[c].rtBusy
  }

  ghost predicate Has(s: Sys, x: Task, kthread: bool, l: Loc)
    requires s.Shape()
  {
    x in s.tc && s.tc[x] == NewTask(kthread, 1) && s.loc[x] == l && s.aff[x] == ANY
  }

  lemma Begin()
    ensures var s := InitialSys(THREE, 1); Quiet(s, false, false) && NoRt(s) && s.tc == map[]
  {
    InitialInv(THREE, 1);
  }

  lemma Arrives(s: Sys, x: Task, kthread: bool)
    requires Quiet(s, false, false) && NoRt(s) && x !in s.tc
    ensures var s' := Next(s, InitTask(x, kthread, ANY));
            && Quiet(s', false, false) && NoRt(s') && Has(s', x, kthread, Asleep)
            && s'.kthreads == (if kthread then s.kthreads + {x} else s.kthreads)
            && forall y, k, l :: y != x && y in s.tc && Has(s, y, k, l) ==> Has(s', y, k, l)
  {
    NextKeepsInv(s, InitTask(x, kthread, ANY));
  }

  lemma Wakes(s: Sys, x: Task, kthread: bool, user: bool, other: bool)
    requires Quiet(s, user, other) && NoRt(s) && Has(s, x, kthread, Asleep)
    ensures Enabled(s, Runnable(x, false, None))
    ensures var s' := Next(s, Runnable(x, false, None));
            && Quiet(s', user, other) && NoRt(s') && Has(s', x, kthread, Ready(-1))
            && forall y, k, l :: y != x && y in s.tc && Has(s, y, k, l) ==> Has(s', y, k, l)
  {
    NextKeepsInv(s, Runnable(x, false, None));
    assert s.tc[x].blockedAt == 0;
  }

  function Joined(s: Sys, x: Task, tier: int, cpu: int): Sys
    requires s.Shape() && s.Cpu(cpu)
  {
    s.(q := s.q[Qid(tier, cpu) := [x]], loc := s.loc[x := Queued(Qid(tier, cpu))],
       d := s.d[cpu := StampHead(s.d[cpu], tier, s.now)])
  }

  lemma JoinedQuiet(s: Sys, x: Task, tier: int, cpu: int, user: bool, kthread: bool)
    requires Quiet(s, user, false) && NoRt(s) && s.Cpu(cpu) && LC <= tier <= GREEDY && Inv(Joined(s, x, tier, cpu))
    requires if kthread then x == KTHREAD && tier == INTERACTIVE && cpu == 2
             else x == USER && tier == GREEDY && cpu == 1
    ensures Quiet(Joined(s, x, tier, cpu), user || !kthread, kthread) && NoRt(Joined(s, x, tier, cpu))
  {
  }

  lemma JoinedTasks(s: Sys, x: Task, kthread: bool, tier: int, cpu: int)
    requires s.Shape() && s.Cpu(cpu) && Joined(s, x, tier, cpu).Shape() && Has(s, x, kthread, Ready(-1))
    ensures var s' := Joined(s, x, tier, cpu);
            && Has(s', x, kthread, Queued(Qid(tier, cpu))) && s'.tc == s.tc && s'.aff == s.aff
            && forall y :: y in s.loc && y != x ==> s'.loc[y] == s.loc[y]
  {
  }

  /** What enqueue does with a task that finds nothing ahead of it on its cpu. */
  lemma JoinsQueue(s: Sys, x: Task, tier: int, cpu: int)
    requires Inv(s) && s.Online(cpu) && x in s.tc && EffectiveTier(s.tc[x]) == tier && s.tc[x].resume == 0
    requires s.loc[x] == Ready(-1) && cpu in s.aff[x]
    requires s.local[cpu] == [] && s.d[cpu].running == EMPTY && !s.rtCurr[cpu]
    requires LC <= tier <= GREEDY && s.Q(LC, cpu) == [] && s.Q(INTERACTIVE, cpu) == [] && s.Q(NORMAL, cpu) == []
             && s.Q(GREEDY, cpu) == []
    ensures Enabled(s, Enqueue(x, cpu, false, None, -1, 0))
    ensures Next(s, Enqueue(x, cpu, false, None, -1, 0)) == Joined(s, x, tier, cpu)
  {
    assert s.tc[x := s.tc[x].(resume := 0)] == s.tc;
    assert Load(s, cpu, tier) == 0;
    assert s.(tc := s.tc) == s;
    assert Next(s, Enqueue(x, cpu, false, None, -1, 0)) == PlaceOn(s, x, tier, cpu, false, cpu);
    assert PlaceOn(s, x, tier, cpu, false, cpu) == Insert(s, x, tier, cpu, false);
    assert s.Q(tier, cpu) == [] && [] + [x] == [x];
  }

  lemma UserQueues(s: Sys)
    requires Quiet(s, false, false) && NoRt(s) && Has(s, USER, false, Ready(-1))
    ensures Enabled(s, Enqueue(USER, 1, false, None, -1, 0))
    ensures var s' := Next(s, Enqueue(USER, 1, false, None, -1, 0));
            && Quiet(s', true, false) && NoRt(s') && Has(s', USER, false, Queued(Qid(GREEDY, 1)))
            && s'.tc == s.tc && s'.aff == s.aff && forall y :: y in s.loc && y != USER ==> s'.loc[y] == s.loc[y]
  {
    JoinsQueue(s, USER, GREEDY, 1);
    NextKeepsInv(s, Enqueue(USER, 1, false, None, -1, 0));
    JoinedQuiet(s, USER, GREEDY, 1, false, false);
    JoinedTasks(s, USER, false, GREEDY, 1);
  }

  lemma KthreadQueues(s: Sys)
    requires Quiet(s, true, false) && NoRt(s) && Has(s, KTHREAD, true, Ready(-1))
    ensures Enabled(s, Enqueue(KTHREAD, 2, false, None, -1, 0))
    ensures var s' := Next(s, Enqueue(KTHREAD, 2, false, None, -1, 0));
            Quiet(s', true, true) && NoRt(s') && s'.tc == s.tc && s'.aff == s.aff
  {
    JoinsQueue(s, KTHREAD, INTERACTIVE, 2);
    NextKeepsInv(s, Enqueue(KTHREAD, 2, false, None, -1, 0));
    JoinedQuiet(s, KTHREAD, INTERACTIVE, 2, true, true);
  }

  /** An RT task takes cpu 1 ... */
  lemma RtComes(s: Sys)
    requires Quiet(s, true, true) && NoRt(s)
    ensures Enabled(s, SetCurrent(1, true))
    ensures var s' := Next(s, SetCurrent(1, true));
            && Quiet(s', true, true) && s'.nrRt == 0 && s'.rtCurr == [false, true, false] && !s'.d[1].rtBusy
            && s'.aff == s.aff && s'.tc == s.tc
  {
    NextKeepsInv(s, SetCurrent(1, true));
  }

  /** ... and the hook notices. */
  lemma RtNoticed(s: Sys)
    requires Quiet(s, true, true) && s.nrRt == 0 && s.rtCurr == [false, true, false] && !s.d[1].rtBusy
    ensures Enabled(s, SchedSwitch(1))
    ensures var s' := Next(s, SchedSwitch(1));
            && Quiet(s', true, true) && s'.nrRt == 1 && s'.rtCurr == [false, true, false] && s'.d[1].rtBusy
            && s'.aff == s.aff && s'.tc == s.tc
  {
    NextKeepsInv(s, SchedSwitch(1));
    NoticedStep(s);
  }

  lemma NoticedStep(s: Sys)
    requires s.Shape() && s.topo == THREE && s.nrRt == 0 && s.rtCurr == [false, true, false] && !s.d[1].rtBusy
    requires s.local == [[], [], []]
    ensures var s' := SchedSwitchStep(s, 1);
            && s'.q == s.q && s'.tc == s.tc && s'.aff == s.aff && s'.topo == s.topo && s'.now == s.now
               && s'.rtCurr == s.rtCurr
            && s'.local == [[], [], []] && s'.nrRt == 1 && s'.d == s.d[1 := s.d[1].(rtBusy := true)]
  {
  }

  lemma TakesTheWorse(s: Sys)
    requires Quiet(s, true, true) && s.nrRt == 1 && s.rtCurr == [false, true, false] && s.d[1].rtBusy
    requires USER in s.tc && KTHREAD in s.tc && s.aff[USER] == ANY && s.aff[KTHREAD] == ANY
    ensures GoodChoice(s, 0, EMPTY, Take(GREEDY, 1, Late)) && PeerWork(s, 0, INTERACTIVE) && BetterWaits(s, 0, GREEDY)
  {
    assert s.Q(GREEDY, 1) == [USER] && s.Q(INTERACTIVE, 2) == [KTHREAD];
    assert s.Q(GREEDY, 1)[0] == USER && s.Q(INTERACTIVE, 2)[0] == KTHREAD;
    assert forall t :: LC <= t <= GREEDY ==> s.Q(t, 0) == [];
    assert s.Q(LC, 1) == [] && s.Q(INTERACTIVE, 1) == [] && s.Q(NORMAL, 1) == [];
    OnlyChoice(s);
  }

  lemma OnlyChoice(s: Sys)
    requires Inv(s) && s.N() == 3 && s.nrRt == 1 && s.d[0].ovLeft == 0
    requires forall t :: LC <= t <= GREEDY ==> s.Q(t, 0) == []
    requires HasWork(s, GREEDY, 1, 0) && HasWork(s, INTERACTIVE, 2, 0)
    requires s.Q(LC, 1) == [] && s.Q(INTERACTIVE, 1) == [] && s.Q(NORMAL, 1) == []
    requires RtPeer(s, 0, 1) && Peer(s, 0, 2) && !s.rtCurr[2]
    ensures GoodChoice(s, 0, EMPTY, Take(GREEDY, 1, Late)) && BetterWaits(s, 0, GREEDY)
  {
    assert PeerWork(s, 0, INTERACTIVE);
    assert forall o :: RtPeer(s, 0, o) ==> o == 1;
    assert !RtWork(s, 0, LC) && !RtWork(s, 0, INTERACTIVE) && !RtWork(s, 0, NORMAL) && RtWork(s, 0, GREEDY);
    assert !OwnWork(s, 0, LC) && !OwnWork(s, 0, INTERACTIVE) && !OwnWork(s, 0, NORMAL) && !OwnWork(s, 0, GREEDY);
    assert Serves(s, 0, EMPTY, GREEDY);
  }

  lemma BothWait() returns (states: seq<Sys>, events: seq<Event>, s: Sys)
    ensures Reaches(states, events, s) && Quiet(s, true, true) && NoRt(s)
    ensures USER in s.tc && KTHREAD in s.tc && s.aff[USER] == ANY && s.aff[KTHREAD] == ANY
  {
    states, events, s := UserWaits();
    Wakes(s, KTHREAD, true, true, false);
    states, events := Extend(states, events, s, Runnable(KTHREAD, false, None));
    s := Next(s, Runnable(KTHREAD, false, None));
    KthreadQueues(s);
    states, events := Extend(states, events, s, Enqueue(KTHREAD, 2, false, None, -1, 0));
    s := Next(s, Enqueue(KTHREAD, 2, false, None, -1, 0));
  }

  lemma UserWaits() returns (states: seq<Sys>, events: seq<Event>, s: Sys)
    ensures Reaches(states, events, s) && Quiet(s, true, false) && NoRt(s)
    ensures Has(s, USER, false, Queued(Qid(GREEDY, 1))) && Has(s, KTHREAD, true, Asleep)
  {
    states, events, s := BothArrive();
    Wakes(s, USER, false, false, false);
    states, events := Extend(states, events, s, Runnable(USER, false, None));
    s := Next(s, Runnable(USER, false, None));
    UserQueues(s);
    states, events := Extend(states, events, s, Enqueue(USER, 1, false, None, -1, 0));
    s := Next(s, Enqueue(USER, 1, false, None, -1, 0));
  }

  lemma BothArrive() returns (states: seq<Sys>, events: seq<Event>, s: Sys)
    ensures Reaches(states, events, s) && Quiet(s, false, false) && NoRt(s)
    ensures Has(s, USER, false, Asleep) && Has(s, KTHREAD, true, Asleep)
  {
    s := InitialSys(THREE, 1);
    states, events := [s], [];
    Begin();
    Arrives(s, USER, false);
    states, events := Extend(states, events, s, InitTask(USER, false, ANY));
    s := Next(s, InitTask(USER, false, ANY));
    Arrives(s, KTHREAD, true);
    states, events := Extend(states, events, s, InitTask(KTHREAD, true, ANY));
    s := Next(s, InitTask(KTHREAD, true, ANY));
  }

  /** There is a run from init at whose end dispatch on cpu 0 may take the GREEDY task of the RT-taken cpu (and, the
      verdict being determined, takes no other tier), while an INTERACTIVE task that it may run waits on another cpu of
      its LLC. */
  lemma StrictnessCanFail() returns (states: seq<Sys>, events: seq<Event>, s: Sys)
    ensures Reaches(states, events, s) && Inv(s) && s.Cpu(0)
    ensures GoodChoice(s, 0, EMPTY, Take(GREEDY, 1, Late)) && Enabled(s, Dispatch(0, None, Take(GREEDY, 1, Late)))
    ensures PeerWork(s, 0, INTERACTIVE) && BetterWaits(s, 0, GREEDY)
  {
    states, events, s := BothWait();
    RtComes(s);
    states, events := Extend(states, events, s, SetCurrent(1, true));
    s := Next(s, SetCurrent(1, true));
    RtNoticed(s);
    states, events := Extend(states, events, s, SchedSwitch(1));
    s := Next(s, SchedSwitch(1));
    TakesTheWorse(s);
    DispatchFromIdle(s, Take(GREEDY, 1, Late));
  }

  lemma DispatchFromIdle(s: Sys, ch: Choice)
    requires Inv(s) && s.Cpu(0) && GoodChoice(s, 0, EMPTY, ch)
    ensures Enabled(s, Dispatch(0, None, ch))
  {
  }
}

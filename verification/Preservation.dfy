/** Every event keeps the invariant, and so does every run. */
module Preservation {
  import opened Options
  import opened Defs
  import opened Accounting
  import opened Classifier
  import opened Machine
  import opened Invariant

  // ----- single updates; every event is a few of these -----

  lemma SetTask(s: Sys, x: Task, tc: TaskCtx)
    requires Inv(s) && x in s.tc && TaskOk(tc) && TaskTimesOk(tc, s.loc[x], s.now)
    requires s.loc[x].Queued? ==> EffectiveTier(tc) == EffectiveTier(s.tc[x])
    ensures Inv(s.(tc := s.tc[x := tc]))
  {
  }

  lemma SetCtx(s: Sys, c: int, d: DispatchCtx)
    requires Inv(s) && s.Cpu(c) && CpuOk(d, s.now)
    ensures Inv(s.(d := s.d[c := d]))
  {
  }

  lemma SetTaskAndLoc(s: Sys, x: Task, tc: TaskCtx, l: Loc)
    requires Inv(s) && x in s.tc && !s.loc[x].Queued? && !s.loc[x].Local? && !l.Queued? && !l.Local?
    requires TaskOk(tc) && TaskTimesOk(tc, l, s.now)
    ensures Inv(s.(tc := s.tc[x := tc], loc := s.loc[x := l]))
  {
    RelabelKeepsQueues(s.q, s.loc, x, l);
    RelabelKeepsLocals(s.local, s.loc, x, l);
  }

  // ----- the events -----

  lemma InitTaskKeepsInv(s: Sys, e: Event)
    requires Inv(s) && e.InitTask? && Enabled(s, e)
    ensures Inv(Next(s, e))
  {
    NewTaskOk(e.kthread, s.now);
    RelabelKeepsQueues(s.q, s.loc, e.x, Asleep);
    RelabelKeepsLocals(s.local, s.loc, e.x, Asleep);
  }

  lemma SelectCpuKeepsInv(s: Sys, e: Event)
    requires Inv(s) && e.SelectCpu? && Enabled(s, e)
    ensures Inv(Next(s, e))
  {
    BoostedOk(s, e.x, e.waker);
    var s' := Next(s, e);
    SetTaskAndLoc(s, e.x, s'.tc[e.x], s'.loc[e.x]);
  }

  lemma RunnableKeepsInv(s: Sys, e: Event)
    requires Inv(s) && e.Runnable? && Enabled(s, e)
    ensures Inv(Next(s, e))
  {
    var tc1 := if e.wakeup then s.tc[e.x := Woken(s.tc[e.x], s.now)] else s.tc;
    var s1 := s.(tc := tc1);
    if e.wakeup {
      WokenOk(s.tc[e.x], s.now);
      SetTask(s, e.x, Woken(s.tc[e.x], s.now));
    }
    assert Inv(s1);
    RecordWaker(s1, e);
  }

  lemma RecordWaker(s1: Sys, e: Event)
    requires Inv(s1) && e.Runnable? && e.x in s1.tc && (s1.loc[e.x] == Asleep || s1.loc[e.x].Waking?)
    ensures var s2 := if e.wakeup && e.waker.Some? && e.waker.value != e.x && e.waker.value in s1.tc
                      then s1.(tc := s1.tc[e.waker.value := WokeAnother(s1.tc[e.waker.value], s1.now)]) else s1;
            var t := AccountSleep(s2.tc[e.x], e.x in s1.kthreads, s1.now);
            var l := Ready(if s1.loc[e.x].Waking? then s1.loc[e.x].direct else -1);
            Inv(s2.(tc := s2.tc[e.x := t], loc := s2.loc[e.x := l]))
  {
    var s2 := if e.wakeup && e.waker.Some? && e.waker.value != e.x && e.waker.value in s1.tc
              then s1.(tc := s1.tc[e.waker.value := WokeAnother(s1.tc[e.waker.value], s1.now)]) else s1;
    if s2 != s1 {
      WokeAnotherOk(s1.tc[e.waker.value], s1.now);
      SetTask(s1, e.waker.value, WokeAnother(s1.tc[e.waker.value], s1.now));
    }
    AccountSleepOk(s2.tc[e.x], e.x in s1.kthreads, s1.now, s2.loc[e.x]);
    SetTaskAndLoc(s2, e.x, AccountSleep(s2.tc[e.x], e.x in s1.kthreads, s1.now),
                  Ready(if s1.loc[e.x].Waking? then s1.loc[e.x].direct else -1));
  }

  lemma WokenOk(tc: TaskCtx, now: nat)
    requires TaskOk(tc)
    ensures TaskOk(Woken(tc, now))
  {
    EwmaKeepsRange(tc.waitInterval, ClampInterval(Elapsed(now, tc.lastWoken)));
  }

  lemma WokeAnotherOk(tc: TaskCtx, now: nat)
    requires TaskOk(tc)
    ensures TaskOk(WokeAnother(tc, now))
  {
    EwmaKeepsRange(tc.wakeInterval, ClampInterval(Elapsed(now, tc.lastWake)));
  }

  lemma InsertDirectKeepsInv(s: Sys, e: Event)
    requires Inv(s) && e.InsertDirect? && Enabled(s, e)
    ensures Inv(Next(s, e))
  {
    var c := s.loc[e.x].direct;
    AppendKeepsLocals(s.local, s.loc, c, e.x);
    RelabelKeepsQueues(s.q, s.loc, e.x, Local(c));
  }

  /** Queueing a ready task on a cpu it may use, in the tier it runs in. */
  lemma InsertKeepsInv(s: Sys, x: Task, tier: int, cpu: int, atHead: bool)
    requires Inv(s) && LC <= tier <= GREEDY && x in s.tc && s.loc[x].Ready?
    requires s.Online(cpu) && cpu in s.aff[x] && EffectiveTier(s.tc[x]) == tier
    requires s.tc[x].resume == 0
    ensures Inv(Insert(s, x, tier, cpu, atHead))
  {
    var k := Qid(tier, cpu);
    InsertKeepsQueues(s.q, s.loc, k, x, atHead);
    RelabelKeepsLocals(s.local, s.loc, x, Queued(k));
    var queue := s.q[k];
    JoinQueue(s, x, k, s.q[k := if atHead then [x] + queue else queue + [x]], cpu,
              if queue == [] then StampHead(s.d[cpu], tier, s.now) else s.d[cpu]);
    assert s.d[cpu := s.d[cpu]] == s.d;
  }

  /** A ready task joins a queue; the queues themselves are taken care of. */
  lemma JoinQueue(s: Sys, x: Task, k: Qid, q': map<Qid, seq<Task>>, c: int, d: DispatchCtx)
    requires Inv(s) && x in s.tc && s.tc[x].resume == 0 && s.Cpu(c) && CpuOk(d, s.now) && q'.Keys == s.q.Keys
    requires s.Online(k.cpu) && k.cpu in s.aff[x] && EffectiveTier(s.tc[x]) == k.tier
    requires QueuesOk(q', s.loc[x := Queued(k)]) && LocalsOk(s.local, s.loc[x := Queued(k)])
    ensures Inv(s.(q := q', loc := s.loc[x := Queued(k)], d := s.d[c := d]))
  {
    assert TaskOk(s.tc[x]) && TaskTimesOk(s.tc[x], s.loc[x], s.now);
  }

  lemma EnqueueKeepsInv(s: Sys, e: Event)
    requires Inv(s) && e.Enqueue? && Enabled(s, e)
    ensures Inv(Next(s, e))
  {
    BoostedOk(s, e.x, e.waker);
    EnqueueStepKeepsInv(s, e.x, e.cpu, e.wakeup, e.waker, e.idleCpu, e.start);
  }

  lemma EnqueueStepKeepsInv(s: Sys, x: Task, cpu: int, wakeup: bool, waker: Option<Task>, idleCpu: int, start: nat)
    requires Inv(s) && x in s.tc && s.loc[x] == Ready(-1) && s.Online(cpu) && cpu in s.aff[x]
    requires start < s.N() && (idleCpu == -1 || (s.Cpu(idleCpu) && idleCpu in s.aff[x]))
    requires LC <= EffectiveTier(if wakeup then Boosted(s, x, waker) else s.tc[x]) <= GREEDY
    ensures Inv(EnqueueStep(s, x, cpu, wakeup, waker, idleCpu, start))
  {
    BoostedOk(s, x, waker);
    var tc := if wakeup then Boosted(s, x, waker) else s.tc[x];
    SetTask(s, x, tc.(resume := 0));
    var s1 := s.(tc := s.tc[x := tc.(resume := 0)]);
    assert s1.Online(cpu) && s1.N() == s.N();
    SettledKeepsInv(s1, x, EffectiveTier(tc), cpu, wakeup, idleCpu, start, tc.resume > 0 && !s.rtCurr[cpu]);
  }

  lemma SettledKeepsInv(s: Sys, x: Task, tier: int, cpu: int, wakeup: bool, idleCpu: int, start: nat, resume: bool)
    requires Inv(s) && x in s.tc && s.loc[x] == Ready(-1) && s.tc[x].resume == 0 && tier == EffectiveTier(s.tc[x])
    requires s.Online(cpu) && cpu in s.aff[x] && LC <= tier <= GREEDY
    requires start < s.N() && (idleCpu == -1 || (s.Cpu(idleCpu) && idleCpu in s.aff[x]))
    ensures resume ==> Inv(Insert(s, x, tier, cpu, true))
    ensures !resume ==> s.Cpu(Pick(s, x, tier, cpu, idleCpu, start))
                        && Inv(PlaceOn(s, x, tier, cpu, wakeup, Pick(s, x, tier, cpu, idleCpu, start)))
  {
    if resume {
      InsertKeepsInv(s, x, tier, cpu, true);
    } else {
      PickAllowed(s, x, tier, cpu, idleCpu, start);
      PlaceOnKeepsInv(s, x, tier, cpu, wakeup, Pick(s, x, tier, cpu, idleCpu, start));
    }
  }

  lemma PlaceOnKeepsInv(s: Sys, x: Task, tier: int, cpu: int, wakeup: bool, pick: int)
    requires Inv(s) && x in s.tc && s.loc[x] == Ready(-1) && s.tc[x].resume == 0 && tier == EffectiveTier(s.tc[x])
    requires s.Online(cpu) && cpu in s.aff[x] && s.Cpu(pick) && pick in s.aff[x] && LC <= tier <= GREEDY
    ensures Inv(PlaceOn(s, x, tier, cpu, wakeup, pick))
  {
    var target := if s.Online(pick) then pick else cpu;
    SetTask(s, x, s.tc[x].(lastMigrated := s.now));
    var s2 := if pick != cpu then s.(tc := s.tc[x := s.tc[x].(lastMigrated := s.now)]) else s;
    InsertKeepsInv(s2, x, tier, target, false);
    var s3 := Insert(s2, x, tier, target, false);
    SetCtx(s3, target, s3.d[target].(preempt := true));
  }

  lemma {:induction false} LeastLoadedAmong(s: Sys, tier: int, best: int, cs: seq<int>)
    requires s.Shape() && s.Cpu(best) && forall k :: 0 <= k < |cs| ==> s.Cpu(cs[k])
    ensures var r := LeastLoaded(s, tier, best, cs); r == best || r in cs
    decreases |cs|
  {
    if cs != [] {
      LeastLoadedAmong(s, tier, if Load(s, cs[0], tier) < Load(s, best, tier) then cs[0] else best, cs[1..]);
    }
  }

  /** Placement stays within the task's affinity when the task's own cpu and the kernel's idle pick do. */
  lemma PickAllowed(s: Sys, x: Task, tier: int, cpu: int, idle: int, start: nat)
    requires s.Shape() && s.Cpu(cpu) && x in s.tc && start < s.N()
    requires cpu in s.aff[x] && (idle == -1 || (s.Cpu(idle) && idle in s.aff[x]))
    ensures Pick(s, x, tier, cpu, idle, start) in s.aff[x]
  {
    var cs := Prefix(Candidates(s, x, cpu, start, 0), if tier <= INTERACTIVE then s.N() else BALANCE_SAMPLES);
    LeastLoadedAmong(s, tier, cpu, cs);
  }

  lemma AccountPrevKeepsInv(s: Sys, cpu: int, prev: Option<Task>)
    requires Inv(s) && s.Cpu(cpu)
    requires prev.Some? ==> prev.value in s.tc && s.loc[prev.value] == Running(cpu)
    ensures Inv(AccountPrev(s, cpu, prev))
  {
    if prev.Some? {
      var x := prev.value;
      var t := AccountInDispatch(s.tc[x], x in s.kthreads, s.d[cpu].preempt, s.now);
      AccountInDispatchOk(s.tc[x], x in s.kthreads, s.d[cpu].preempt, s.now, s.loc[x]);
      SetTask(s, x, t);
      SetCtx(s.(tc := s.tc[x := t]), cpu,
             ChargeOverride(s.d[cpu], EffectiveTier(s.tc[x]), Elapsed(s.now, s.tc[x].startedAt)));
    }
  }

  lemma MoveKeepsInv(s: Sys, tier: int, from: int, cpu: int)
    requires Inv(s) && LC <= tier <= GREEDY && s.Cpu(from) && s.Cpu(cpu) && HasWork(s, tier, from, cpu)
    ensures Inv(Move(s, tier, from, cpu))
  {
    MoveMoves(s, tier, from, cpu);
    var k := Qid(tier, from);
    var i := FirstAllowed(s, s.q[k], cpu);
    var x := s.q[k][i];
    assert s.loc[x] == Queued(k);
    LeaveQueues(s, x, Local(cpu), s.q[k := RemoveAt(s.q[k], i)], s.local[cpu := s.local[cpu] + [x]], from,
                StampHead(s.d[from], tier, s.now));
  }

  /** A task leaves a queue for another place; the queues themselves are taken care of. */
  lemma LeaveQueues(s: Sys, x: Task, l: Loc, q': map<Qid, seq<Task>>, local': seq<seq<Task>>, c: int, d: DispatchCtx)
    requires Inv(s) && x in s.tc && s.loc[x].Queued? && l.Local? && s.Cpu(c) && CpuOk(d, s.now)
    requires q'.Keys == s.q.Keys && |local'| == |s.local|
    requires QueuesOk(q', s.loc[x := l]) && LocalsOk(local', s.loc[x := l])
    ensures Inv(s.(q := q', local := local', loc := s.loc[x := l], d := s.d[c := d]))
  {
    assert TaskOk(s.tc[x]) && TaskTimesOk(s.tc[x], s.loc[x], s.now);
  }

  lemma MoveMoves(s: Sys, tier: int, from: int, cpu: int)
    requires Inv(s) && LC <= tier <= GREEDY && s.Cpu(from) && s.Cpu(cpu) && HasWork(s, tier, from, cpu)
    ensures var s' := Move(s, tier, from, cpu); QueuesOk(s'.q, s'.loc) && LocalsOk(s'.local, s'.loc)
  {
    var k := Qid(tier, from);
    var i := FirstAllowed(s, s.q[k], cpu);
    var x := s.q[k][i];
    assert s.loc[x] == Queued(k);
    RemoveKeepsQueues(s.q, s.loc, k, i, Local(cpu));
    AppendKeepsLocals(s.local, s.loc, cpu, x);
  }

  lemma ApplyKeepsInv(s: Sys, cpu: int, prev: int, ch: Choice)
    requires Inv(s) && s.Cpu(cpu) && GoodChoice(s, cpu, prev, ch)
    ensures CanTake(s, cpu, ch) && Inv(Apply(s, cpu, ch))
  {
    GoodChoiceCanTake(s, cpu, prev, ch);
    StartTierInRange(s, cpu, prev, ch);
    if ch.Take? {
      MoveKeepsInv(s, ch.tier, ch.from, cpu);
    }
    var s1 := if ch.Take? then Move(s, ch.tier, ch.from, cpu) else s;
    SetCtx(s1, cpu, SettleOverride(s1.d[cpu], ch, s.now));
  }

  lemma KeepPrevKeepsInv(s: Sys, cpu: int, prev: Option<Task>)
    requires Inv(s) && s.Cpu(cpu)
    requires prev.Some? ==> prev.value in s.tc && s.loc[prev.value] == Running(cpu)
    ensures Inv(KeepPrev(s, cpu, prev))
  {
    if prev.Some? {
      var tc := KeepRunning(s.tc[prev.value]);
      SetTask(s, prev.value, tc);
      SetCtx(s.(tc := s.tc[prev.value := tc]), cpu, s.d[cpu].(running := EffectiveTier(tc), preempt := false));
    }
  }

  lemma DispatchKeepsInv(s: Sys, e: Event)
    requires Inv(s) && e.Dispatch? && Enabled(s, e)
    ensures Inv(Next(s, e))
  {
    AccountPrevKeepsInv(s, e.cpu, e.prev);
    DispatchTail(AccountPrev(s, e.cpu, e.prev), e);
  }

  lemma DispatchTail(s1: Sys, e: Event)
    requires Inv(s1) && e.Dispatch? && s1.Cpu(e.cpu)
    requires e.prev.Some? ==> e.prev.value in s1.tc && s1.loc[e.prev.value] == Running(e.cpu)
    requires GoodChoice(s1, e.cpu, PrevTier(s1, e.prev), e.ch)
    ensures CanTake(s1, e.cpu, e.ch)
    ensures var s2 := Apply(s1, e.cpu, e.ch); Inv(if e.ch == Keep then KeepPrev(s2, e.cpu, e.prev) else s2)
  {
    ApplyKeepsInv(s1, e.cpu, PrevTier(s1, e.prev), e.ch);
    if e.ch == Keep {
      KeepPrevKeepsInv(Apply(s1, e.cpu, e.ch), e.cpu, e.prev);
    }
  }

  lemma StartTierInRange(s: Sys, cpu: int, prev: int, ch: Choice)
    requires s.Shape() && s.Cpu(cpu) && GoodChoice(s, cpu, prev, ch)
    ensures ch.Take? && ch.phase == Start ==> INTERACTIVE <= ch.tier <= GREEDY
  {
  }

  lemma RunMoves(s: Sys, e: Event)
    requires Inv(s) && e.Run? && Enabled(s, e)
    ensures var s' := RunStep(s, e.x, e.cpu, e.slice);
            QueuesOk(s'.q, s'.loc) && LocalsOk(s'.local, s'.loc)
  {
    assert s.local[e.cpu][1..] == RemoveAt(s.local[e.cpu], 0);
    assert s.loc[e.x] == Local(e.cpu);
    RemoveKeepsLocals(s.local, s.loc, e.cpu, 0, Running(e.cpu));
    RelabelKeepsQueues(s.q, s.loc, e.x, Running(e.cpu));
  }

  lemma RunKeepsInv(s: Sys, e: Event)
    requires Inv(s) && e.Run? && Enabled(s, e)
    ensures Inv(Next(s, e))
  {
    RunMoves(s, e);
    assert s.loc[e.x] == Local(e.cpu);
    assert TaskOk(s.tc[e.x]) && TaskTimesOk(s.tc[e.x], s.loc[e.x], s.now) && CpuOk(s.d[e.cpu], s.now);
    PickUp(s, e.x, Running(e.cpu), s.local[e.cpu := s.local[e.cpu][1..]],
           s.tc[e.x].(startedAt := s.now, granted := e.slice), e.cpu,
           s.d[e.cpu].(running := EffectiveTier(s.tc[e.x]), preempt := false));
  }

  /** A task leaves a local queue; the queues themselves are taken care of. */
  lemma PickUp(s: Sys, x: Task, l: Loc, local': seq<seq<Task>>, tc: TaskCtx, c: int, d: DispatchCtx)
    requires Inv(s) && x in s.tc && s.loc[x].Local? && !l.Queued? && s.Cpu(c) && CpuOk(d, s.now)
    requires |local'| == |s.local| && TaskOk(tc) && TaskTimesOk(tc, l, s.now)
    requires QueuesOk(s.q, s.loc[x := l]) && LocalsOk(local', s.loc[x := l])
    ensures Inv(s.(local := local', loc := s.loc[x := l], tc := s.tc[x := tc], d := s.d[c := d]))
  {
  }

  lemma ChargeOverrideOk(d: DispatchCtx, tier: int, used: nat, now: nat)
    requires CpuOk(d, now)
    ensures CpuOk(ChargeOverride(d, tier, used).(preempt := false, running := EMPTY), now)
    ensures CpuOk(ChargeOverride(d, tier, used), now)
  {
  }

  lemma SetTaskLocAndCtx(s: Sys, x: Task, tc: TaskCtx, l: Loc, c: int, d: DispatchCtx)
    requires Inv(s) && x in s.tc && !s.loc[x].Queued? && !s.loc[x].Local? && !l.Queued? && !l.Local?
    requires TaskOk(tc) && TaskTimesOk(tc, l, s.now) && s.Cpu(c) && CpuOk(d, s.now)
    ensures Inv(s.(loc := s.loc[x := l], tc := s.tc[x := tc], d := s.d[c := d]))
  {
    SetTaskAndLoc(s, x, tc, l);
    SetCtx(s.(tc := s.tc[x := tc], loc := s.loc[x := l]), c, d);
  }

  lemma StoppingKeepsInv(s: Sys, e: Event)
    requires Inv(s) && e.Stopping? && Enabled(s, e)
    ensures Inv(Next(s, e))
  {
    var x, c := e.x, e.cpu;
    var used := Elapsed(s.now, s.tc[x].startedAt);
    AccountInStoppingOk(s.tc[x], x in s.kthreads, s.d[c].preempt, e.runnable, e.sliceZero, s.now, s.loc[x]);
    assert CpuOk(s.d[c], s.now);
    ChargeOverrideOk(s.d[c], EffectiveTier(s.tc[x]), used, s.now);
    SetTaskLocAndCtx(s, x, Next(s, e).tc[x], if e.runnable then Ready(-1) else Stopped, c, Next(s, e).d[c]);
  }

  /** A waiting task leaves the queue it is in. */
  lemma LeaveQueue(s: Sys, x: Task)
    requires Inv(s) && x in s.tc && s.loc[x].Queued?
    ensures s.loc[x].qid in s.q
    ensures Inv(s.(q := s.q[s.loc[x].qid := Without(s.q[s.loc[x].qid], x)], loc := s.loc[x := Asleep]))
  {
    var k := s.loc[x].qid;
    var i := WithoutRemoves(s.q[k], x);
    var q', loc' := s.q[k := Without(s.q[k], x)], s.loc[x := Asleep];
    assert QueuesOk(q', loc') by { RemoveKeepsQueues(s.q, s.loc, k, i, Asleep); }
    assert LocalsOk(s.local, loc') by { RelabelKeepsLocals(s.local, s.loc, x, Asleep); }
    SetQueuesAndLoc(s, q', loc', x);
  }

  lemma SetQueuesAndLoc(s: Sys, q: map<Qid, seq<Task>>, loc: map<Task, Loc>, x: Task)
    requires Inv(s) && x in s.tc && s.loc[x] != Ready(-1) && loc == s.loc[x := Asleep] && q.Keys == s.q.Keys
    requires QueuesOk(q, loc) && LocalsOk(s.local, loc)
    ensures Inv(s.(q := q, loc := loc))
  {
    assert forall k :: k in q <==> k in s.q;
  }

  lemma LeaveLocal(s: Sys, x: Task)
    requires Inv(s) && x in s.tc && s.loc[x].Local?
    ensures s.Cpu(s.loc[x].cpu)
    ensures Inv(s.(local := s.local[s.loc[x].cpu := Without(s.local[s.loc[x].cpu], x)], loc := s.loc[x := Asleep]))
  {
    var c := s.loc[x].cpu;
    var i := WithoutRemoves(s.local[c], x);
    RemoveKeepsLocals(s.local, s.loc, c, i, Asleep);
    RelabelKeepsQueues(s.q, s.loc, x, Asleep);
  }

  lemma QuiescentKeepsInv(s: Sys, e: Event)
    requires Inv(s) && e.Quiescent? && Enabled(s, e)
    ensures Inv(Next(s, e))
  {
    var x, l := e.x, s.loc[e.x];
    var t := s.tc[x].(resume := 0, boost := EMPTY, blockedAt := if e.sleep then s.now else 0);
    if l.Queued? {
      LeaveQueue(s, x);
      SetTask(s.(q := s.q[l.qid := Without(s.q[l.qid], x)], loc := s.loc[x := Asleep]), x, t);
    } else if l.Local? {
      LeaveLocal(s, x);
      SetTask(s.(local := s.local[l.cpu := Without(s.local[l.cpu], x)], loc := s.loc[x := Asleep]), x, t);
    } else {
      SetTaskAndLoc(s, x, t, Asleep);
    }
  }

  lemma SchedSwitchKeepsInv(s: Sys, e: Event)
    requires Inv(s) && e.SchedSwitch? && Enabled(s, e)
    ensures Inv(Next(s, e))
  {
    var c := e.cpu;
    var rt, nrRt := s.rtCurr[c], Next(s, e).nrRt;
    SetCtx(s, c, s.d[c].(rtBusy := rt));
    var s1 := s.(d := s.d[c := s.d[c].(rtBusy := rt)], nrRt := nrRt);
    assert Inv(s1);
    if rt {
      ReenqueueLocal(s1, c);
    }
  }

  lemma ReenqueueLocal(s: Sys, c: int)
    requires Inv(s) && s.Cpu(c)
    ensures Inv(s.(local := s.local[c := []],
                   loc := map x | x in s.loc :: if s.loc[x] == Local(c) then Ready(-1) else s.loc[x]))
  {
    var loc := map x | x in s.loc :: if s.loc[x] == Local(c) then Ready(-1) else s.loc[x];
    assert QueuesOk(s.q, loc);
    assert LocalsOk(s.local[c := []], loc);
  }

  lemma TickKeepsInv(s: Sys, dt: nat)
    requires Inv(s)
    ensures Inv(s.(now := s.now + dt))
  {
  }

  lemma AffinityKeepsInv(s: Sys, x: Task, cpus: set<int>)
    requires Inv(s) && x in s.tc && !s.loc[x].Queued?
    ensures Inv(s.(aff := s.aff[x := cpus]))
  {
  }

  lemma SettingKeepsInv(s: Sys, e: Event)
    requires Inv(s) && Enabled(s, e) && (e.Tick? || e.SetAffinity? || e.SetCurrent?)
    ensures Inv(Next(s, e))
  {
    if e.Tick? { TickKeepsInv(s, e.dt); }
    if e.SetAffinity? { AffinityKeepsInv(s, e.x, e.cpus); }
  }

  /** The system invariant, event by event. */
  lemma NextKeepsInv(s: Sys, e: Event)
    requires Inv(s) && Enabled(s, e)
    ensures Inv(Next(s, e))
  {
    if e.Dispatch? || e.Run? || e.Stopping? || e.Quiescent? || e.SchedSwitch? {
      RunningKeepsInv(s, e);
    } else {
      WakingKeepsInv(s, e);
    }
  }

  /** The events from dispatch on. */
  lemma RunningKeepsInv(s: Sys, e: Event)
    requires Inv(s) && Enabled(s, e) && (e.Dispatch? || e.Run? || e.Stopping? || e.Quiescent? || e.SchedSwitch?)
    ensures Inv(Next(s, e))
  {
    match e
    case Dispatch(_, _, _) => DispatchKeepsInv(s, e);
    case Run(_, _, _) => RunKeepsInv(s, e);
    case Stopping(_, _, _, _) => StoppingKeepsInv(s, e);
    case Quiescent(_, _) => QuiescentKeepsInv(s, e);
    case SchedSwitch(_) => SchedSwitchKeepsInv(s, e);
  }

  /** The events before a task is dispatched. */
  lemma WakingKeepsInv(s: Sys, e: Event)
    requires Inv(s) && Enabled(s, e) && !e.Dispatch? && !e.Run? && !e.Stopping? && !e.Quiescent? && !e.SchedSwitch?
    ensures Inv(Next(s, e))
  {
    if e.InitTask? {
      InitTaskKeepsInv(s, e);
    } else if e.SelectCpu? {
      SelectCpuKeepsInv(s, e);
    } else if e.Runnable? {
      RunnableKeepsInv(s, e);
    } else if e.InsertDirect? {
      InsertDirectKeepsInv(s, e);
    } else if e.Enqueue? {
      EnqueueKeepsInv(s, e);
    } else {
      SettingKeepsInv(s, e);
    }
  }

  // ----- runs -----

  ghost predicate Follows(s: Sys, e: Event, s': Sys)
    requires Inv(s)
  {
    Enabled(s, e) && s' == Next(s, e)
  }

  /** A run: states, and the event between each two of them. */
  ghost predicate Steps(states: seq<Sys>, events: seq<Event>)
  {
    && |states| == |events| + 1
    && forall i :: 0 <= i < |events| ==>
         Inv(states[i]) && Follows(states[i], events[i], states[i + 1])
  }

  ghost predicate IsRun(states: seq<Sys>, events: seq<Event>)
  {
    && |states| == |events| + 1
    && states[0].topo.Valid() && states[0] == InitialSys(states[0].topo, states[0].now)
    && forall i :: 0 <= i < |events| ==>
         Inv(states[i]) ==> Follows(states[i], events[i], states[i + 1])
  }

  /** Every state of every run from lunar_init satisfies the invariant. */
  lemma {:induction false} RunsKeepInv(states: seq<Sys>, events: seq<Event>)
    requires IsRun(states, events)
    ensures Steps(states, events) && forall i :: 0 <= i < |states| ==> Inv(states[i])
    decreases |events|
  {
    if events == [] {
      InitialInv(states[0].topo, states[0].now);
    } else {
      var n := |events| - 1;
      var states', events' := states[..n + 1], events[..n];
      forall i | 0 <= i < n && Inv(states'[i])
        ensures Follows(states'[i], events'[i], states'[i + 1])
      {
        assert states'[i] == states[i] && states'[i + 1] == states[i + 1] && events'[i] == events[i];
      }
      RunsKeepInv(states', events');
      assert Inv(states'[n]) && states'[n] == states[n];
      assert Follows(states[n], events[n], states[n + 1]);
      NextKeepsInv(states[n], events[n]);
      forall i | 0 <= i < |states| ensures Inv(states[i]) {
        if i <= n { assert states'[i] == states[i]; }
      }
    }
  }

  /** A run from init that ends in `s`. */
  ghost predicate Reaches(states: seq<Sys>, events: seq<Event>, s: Sys)
  {
    IsRun(states, events) && states[|events|] == s
  }

  /** One event more. */
  lemma Extend(states: seq<Sys>, events: seq<Event>, s: Sys, e: Event) returns (states': seq<Sys>, events': seq<Event>)
    requires Reaches(states, events, s) && Inv(s) && Enabled(s, e)
    ensures Reaches(states', events', Next(s, e)) && events' == events + [e] && states' == states + [Next(s, e)]
  {
    var s' := Next(s, e);
    events', states' := events + [e], states + [s'];
    assert Follows(s, e, s');
    forall i | 0 <= i < |events'| && Inv(states'[i]) ensures Follows(states'[i], events'[i], states'[i + 1]) {
      assert states'[i] == states[i];
      if i < |events| { assert states'[i + 1] == states[i + 1] && events'[i] == events[i]; }
    }
  }
}

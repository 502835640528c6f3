/** What every callback keeps, over every run. */
module Invariant {
  import opened Options
  import opened Defs
  import opened Accounting
  import opened Classifier
  import opened Machine

  /** Every task of a tier queue is recorded there and nowhere else, once, and every waiting task is in its queue. */
  ghost predicate QueuesOk(q: map<Qid, seq<Task>>, loc: map<Task, Loc>)
  {
    && (forall k, i :: k in q && 0 <= i < |q[k]| ==> q[k][i] in loc && loc[q[k][i]] == Queued(k))
    && (forall k, i, j :: k in q && 0 <= i < j < |q[k]| ==> q[k][i] != q[k][j])
    && (forall x :: x in loc && loc[x].Queued? ==> loc[x].qid in q && x in q[loc[x].qid])
  }

  ghost predicate LocalsOk(local: seq<seq<Task>>, loc: map<Task, Loc>)
  {
    && (forall c, i :: 0 <= c < |local| && 0 <= i < |local[c]| ==> local[c][i] in loc && loc[local[c][i]] == Local(c))
    && (forall c, i, j :: 0 <= c < |local| && 0 <= i < j < |local[c]| ==> local[c][i] != local[c][j])
    && (forall x :: x in loc && loc[x].Local? ==> 0 <= loc[x].cpu < |local| && x in local[loc[x].cpu])
  }

  /** A task waits in the queue of exactly the tier it runs in, on an online cpu it may use. */
  ghost predicate WaitingOk(s: Sys)
    requires s.Shape()
  {
    forall x :: x in s.tc && s.loc[x].Queued? ==>
      EffectiveTier(s.tc[x]) == s.loc[x].qid.tier && s.Online(s.loc[x].qid.cpu) && s.loc[x].qid.cpu in s.aff[x]
  }

  /** Time stamps lie in the past, so that no difference with `now` wraps; only a task on its way back to a queue has
      a rest of its slice to resume. */
  predicate TaskTimesOk(tc: TaskCtx, loc: Loc, now: nat)
  {
    && tc.startedAt <= now && tc.lastMigrated <= now && tc.blockedAt <= now && tc.lastWoken <= now && tc.lastWake <= now
    && (tc.resume > 0 ==> loc == Ready(-1))
  }

  ghost predicate TasksOk(s: Sys)
    requires s.Shape()
  {
    forall x :: x in s.tc ==> TaskOk(s.tc[x]) && TaskTimesOk(s.tc[x], s.loc[x], s.now)
  }

  predicate CpuOk(d: DispatchCtx, now: nat)
  {
    && |d.head| == 5
    && (forall t :: INTERACTIVE <= t <= GREEDY ==> d.head[t] <= now)
    && d.lastOverride <= now
    && d.ovLeft <= OVERRIDE_BUDGET
    && (d.ovLeft > 0 ==> INTERACTIVE <= d.ovTier <= GREEDY)
  }

  ghost predicate CpusOk(s: Sys) { forall c :: 0 <= c < |s.d| ==> CpuOk(s.d[c], s.now) }

  ghost predicate Inv(s: Sys)
  {
    && s.Shape()
    && QueuesOk(s.q, s.loc) && LocalsOk(s.local, s.loc)
    && WaitingOk(s) && TasksOk(s) && CpusOk(s)
  }

  /** The state lunar_init leaves behind: no tasks, empty queues, every stamp taken now. */
  function InitialCtx(now: nat): DispatchCtx
  {
    DispatchCtx(EMPTY, [now, now, now, now, now], now, EMPTY, 0, false, false)
  }

  function InitialSys(topo: Topo, now: nat): Sys
  {
    Sys(topo,
        map t, c | LC <= t <= GREEDY && 0 <= c < topo.N() :: Qid(t, c) := [],
        seq(topo.N(), _ => []),
        seq(topo.N(), _ => InitialCtx(now)),
        map[], map[], map[], {},
        seq(topo.N(), _ => false), 0, now)
  }

  lemma InitialInv(topo: Topo, now: nat)
    requires topo.Valid()
    ensures Inv(InitialSys(topo, now))
  {
    var s := InitialSys(topo, now);
    forall k: Qid | LC <= k.tier <= GREEDY && 0 <= k.cpu < topo.N()
      ensures k in s.q
    {
      assert k == Qid(k.tier, k.cpu);
    }
  }

  // ----- queue surgery -----

  lemma RemoveKeepsQueues(q: map<Qid, seq<Task>>, loc: map<Task, Loc>, k: Qid, i: nat, l: Loc)
    requires QueuesOk(q, loc) && k in q && i < |q[k]| && !l.Queued?
    ensures QueuesOk(q[k := RemoveAt(q[k], i)], loc[q[k][i] := l])
  {
    var x, r := q[k][i], RemoveAt(q[k], i);
    var q', loc' := q[k := r], loc[x := l];
    assert forall j :: 0 <= j < |r| ==> r[j] == if j < i then q[k][j] else q[k][j + 1];
    forall y | y in loc' && loc'[y].Queued?
      ensures loc'[y].qid in q' && y in q'[loc'[y].qid]
    {
      assert y != x && y in q[loc[y].qid];
      if loc[y].qid == k {
        var j :| 0 <= j < |q[k]| && q[k][j] == y;
        assert r[if j < i then j else j - 1] == y;
      }
    }
  }

  lemma InsertKeepsQueues(q: map<Qid, seq<Task>>, loc: map<Task, Loc>, k: Qid, x: Task, atHead: bool)
    requires QueuesOk(q, loc) && k in q && x in loc && !loc[x].Queued?
    ensures QueuesOk(q[k := if atHead then [x] + q[k] else q[k] + [x]], loc[x := Queued(k)])
  {
    var r := if atHead then [x] + q[k] else q[k] + [x];
    var q', loc' := q[k := r], loc[x := Queued(k)];
    assert x !in q[k];
    assert forall y :: y in r <==> y == x || y in q[k];
    assert x in r;
    forall y | y in loc' && loc'[y].Queued?
      ensures loc'[y].qid in q' && y in q'[loc'[y].qid]
    {
    }
  }

  lemma RelabelKeepsQueues(q: map<Qid, seq<Task>>, loc: map<Task, Loc>, x: Task, l: Loc)
    requires QueuesOk(q, loc) && !l.Queued? && (x in loc ==> !loc[x].Queued?)
    ensures QueuesOk(q, loc[x := l])
  {
  }

  lemma AppendKeepsLocals(local: seq<seq<Task>>, loc: map<Task, Loc>, c: int, x: Task)
    requires LocalsOk(local, loc) && 0 <= c < |local| && x in loc && !loc[x].Local?
    ensures LocalsOk(local[c := local[c] + [x]], loc[x := Local(c)])
  {
    var local' := local[c := local[c] + [x]];
    assert x in local'[c] by { assert local'[c][|local[c]|] == x; }
    forall y | y in loc && y in local[c]
      ensures y in local'[c]
    {
      var j :| 0 <= j < |local[c]| && local[c][j] == y;
      assert local'[c][j] == y;
    }
  }

  lemma RemoveKeepsLocals(local: seq<seq<Task>>, loc: map<Task, Loc>, c: int, i: nat, l: Loc)
    requires LocalsOk(local, loc) && 0 <= c < |local| && i < |local[c]| && !l.Local?
    ensures LocalsOk(local[c := RemoveAt(local[c], i)], loc[local[c][i] := l])
  {
    var x, r := local[c][i], RemoveAt(local[c], i);
    var local', loc' := local[c := r], loc[x := l];
    assert forall j :: 0 <= j < |r| ==> r[j] == if j < i then local[c][j] else local[c][j + 1];
    forall y | y in loc' && loc'[y].Local?
      ensures 0 <= loc'[y].cpu < |local'| && y in local'[loc'[y].cpu]
    {
      assert y != x && y in local[loc[y].cpu];
      if loc[y].cpu == c {
        var j :| 0 <= j < |local[c]| && local[c][j] == y;
        assert r[if j < i then j else j - 1] == y;
      }
    }
  }

  lemma RelabelKeepsLocals(local: seq<seq<Task>>, loc: map<Task, Loc>, x: Task, l: Loc)
    requires LocalsOk(local, loc) && !l.Local? && (x in loc ==> !loc[x].Local?)
    ensures LocalsOk(local, loc[x := l])
  {
  }

  lemma {:induction false} WithoutRemoves(queue: seq<Task>, x: Task) returns (i: nat)
    requires x in queue
    ensures i < |queue| && queue[i] == x && Without(queue, x) == RemoveAt(queue, i)
  {
    if queue[0] == x {
      i := 0;
      assert queue[1..] == RemoveAt(queue, 0);
    } else {
      var j := WithoutRemoves(queue[1..], x);
      i := j + 1;
      assert [queue[0]] + RemoveAt(queue[1..], j) == RemoveAt(queue, i);
    }
  }

  // ----- one task's context -----

  lemma AccountKeepsTaskOk(tc: TaskCtx, run: nat, slept: nat)
    requires TaskOk(tc)
    ensures TaskOk(Account(tc, run, slept))
  {
    DutyAccountKeepsWindow(tc, run, slept);
    var t := DutyAccount(tc, run, slept);
    TaskDutyRange(t.runAcc, t.sleepAcc);
  }

  lemma AccountInDispatchOk(tc: TaskCtx, kthread: bool, preempt: bool, now: nat, loc: Loc)
    requires TaskOk(tc) && TaskTimesOk(tc, loc, now)
    ensures var t := AccountInDispatch(tc, kthread, preempt, now); TaskOk(t) && TaskTimesOk(t, loc, now)
  {
    var used := Elapsed(now, tc.startedAt);
    var t := ChargeWakeBoost(tc, used);
    var t1 := if !preempt && t.boostUsed >= WAKE_BOOST_BUDGET then t.(boost := EMPTY) else t;
    AccountKeepsTaskOk(t1, used, 0);
    ClassifyKeepsTaskOk(Account(t1, used, 0).(startedAt := now), kthread, now);
  }

  lemma AccountInStoppingOk(tc: TaskCtx, kthread: bool, preempt: bool, runnable: bool, sliceZero: bool, now: nat,
                            loc: Loc)
    requires TaskOk(tc) && TaskTimesOk(tc, loc, now) && loc.Running?
    ensures var t := AccountInStopping(tc, kthread, preempt, runnable, sliceZero, now);
            TaskOk(t) && TaskTimesOk(t, if runnable then Ready(-1) else Stopped, now)
  {
    var used := Elapsed(now, tc.startedAt);
    AccountKeepsTaskOk(ChargeWakeBoost(tc, used), used, 0);
    ClassifyKeepsTaskOk(Account(ChargeWakeBoost(tc, used), used, 0), kthread, now);
  }

  lemma AccountSleepOk(tc: TaskCtx, kthread: bool, now: nat, loc: Loc)
    requires TaskOk(tc) && TaskTimesOk(tc, loc, now)
    ensures TaskOk(AccountSleep(tc, kthread, now)) && TaskTimesOk(AccountSleep(tc, kthread, now), loc, now)
  {
    var slept := Elapsed(now, tc.blockedAt);
    AccountKeepsTaskOk(tc, 0, slept);
    ClassifyKeepsTaskOk(Account(tc, 0, slept).(samples := Min(tc.samples + 1, DUTY_SAMPLES_MAX), blockedAt := 0),
                        kthread, now);
  }

  lemma NewTaskOk(kthread: bool, now: nat)
    ensures TaskOk(NewTask(kthread, now))
  {
    TaskDutyRange(KTHREAD_INIT_RUN, DUTY_WINDOW - KTHREAD_INIT_RUN);
  }

  lemma BoostedOk(s: Sys, x: Task, waker: Option<Task>)
    requires s.Shape() && TasksOk(s) && x in s.tc
    ensures var tc := Boosted(s, x, waker);
            TaskOk(tc) && TaskTimesOk(tc, s.loc[x], s.now) && tc.resume == s.tc[x].resume
  {
  }

  /** A wake boost lifts a task exactly to its waker's tier if that is better than where it is, and touches nothing but
      the boost and its use; a task's own waking, an interrupt's (no waker) and a kernel thread's lift nobody. */
  lemma BoostLiftsToWaker(s: Sys, x: Task, waker: Option<Task>)
    requires s.Shape() && TasksOk(s) && x in s.tc
    ensures var tc, t := s.tc[x], Boosted(s, x, waker);
            && (if waker.Some? && waker.value != x && waker.value !in s.kthreads && waker.value in s.tc
                then EffectiveTier(t) == Min(EffectiveTier(tc), EffectiveTier(s.tc[waker.value]))
                else t == tc)
            && t == tc.(boost := t.boost, boostUsed := t.boostUsed)
            && (t != tc ==> EffectiveTier(t) < EffectiveTier(tc) && t.boostUsed == 0)
  {
    assert TaskOk(s.tc[x]);
  }

  // ----- the transition function -----

  lemma GoodChoiceCanTake(s: Sys, cpu: int, prev: int, ch: Choice)
    requires s.Shape() && s.Cpu(cpu) && GoodChoice(s, cpu, prev, ch)
    ensures CanTake(s, cpu, ch)
  {
  }

  function Next(s: Sys, e: Event): Sys
    requires Inv(s) && Enabled(s, e)
  {
    match e
    case Tick(dt) => s.(now := s.now + dt)
    case InitTask(x, kthread, cpus) =>
      s.(tc := s.tc[x := NewTask(kthread, s.now)], loc := s.loc[x := Asleep], aff := s.aff[x := cpus],
         kthreads := if kthread then s.kthreads + {x} else s.kthreads)
    case SetAffinity(x, cpus) => s.(aff := s.aff[x := cpus])
    case SelectCpu(x, ttwu, waker, cpu, idle) => SelectCpuStep(s, x, ttwu, waker, cpu, idle)
    case Runnable(x, wakeup, waker) => RunnableStep(s, x, wakeup, waker)
    case InsertDirect(x) =>
      var c := s.loc[x].direct;
      s.(local := s.local[c := s.local[c] + [x]], loc := s.loc[x := Local(c)])
    case Enqueue(x, cpu, wakeup, waker, idleCpu, start) =>
      BoostedOk(s, x, waker);
      EnqueueStep(s, x, cpu, wakeup, waker, idleCpu, start)
    case Dispatch(cpu, prev, ch) =>
      var s1 := AccountPrev(s, cpu, prev);
      GoodChoiceCanTake(s1, cpu, PrevTier(s1, prev), ch);
      DispatchStep(s, cpu, prev, ch)
    case Run(x, cpu, slice) => RunStep(s, x, cpu, slice)
    case Stopping(x, cpu, runnable, sliceZero) => StoppingStep(s, x, cpu, runnable, sliceZero)
    case Quiescent(x, sleep) => QuiescentStep(s, x, sleep)
    case SetCurrent(cpu, rt) => s.(rtCurr := s.rtCurr[cpu := rt])
    case SchedSwitch(cpu) => SchedSwitchStep(s, cpu)
  }
}

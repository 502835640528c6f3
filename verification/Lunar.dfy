/** The scheduler as the callbacks run it: fields updated in place, scans that start at a random cpu. Each method is
    proved against the transition of the machine it carries out. */
module LunarImpl {
  import opened Options
  import opened Defs
  import opened Accounting
  import opened Classifier
  import opened Machine
  import opened Invariant
  import opened Preservation
  import opened Placement

  // ----- helpers on one task's context -----

  method AccountDuty(tc: TaskCtx, ran: nat, slpt: nat) returns (t: TaskCtx)
    ensures t == DutyAccount(tc, ran, slpt)
  {
    t := tc;
    var run, slept := ran, slpt;
    if run > DUTY_WINDOW { run := DUTY_WINDOW; }
    if slept > DUTY_WINDOW { slept := DUTY_WINDOW; }
    t := t.(runAcc := t.runAcc + run);
    t := t.(sleepAcc := t.sleepAcc + slept);
    if t.runAcc + t.sleepAcc > 2 * DUTY_WINDOW {
      t := t.(runAcc := t.runAcc / 2);
      t := t.(sleepAcc := t.sleepAcc / 2);
    }
  }

  lemma DivAtMost(a: nat, d: nat)
    requires d > 0
    ensures a / d <= a
  {
    var q := a / d;
    MulLe(1, d, q);
  }

  method ScoreCrit(tc: TaskCtx, now: nat) returns (crit: nat)
    ensures crit == CalcCrit(tc, now)
  {
    var wait := EffectiveInterval(tc.waitInterval, tc.lastWoken, now);
    var wake := EffectiveInterval(tc.wakeInterval, tc.lastWake, now);
    DivAtMost(CRIT_INTERVAL_REF, wait);
    DivAtMost(CRIT_INTERVAL_REF, wake);
    var a := ILog2(CRIT_INTERVAL_REF / wait);
    var b := ILog2(CRIT_INTERVAL_REF / wake);
    crit := a + b;
    if crit > CRIT_MAX { crit := CRIT_MAX; }
  }

  method UpdateTaskDsqType(tc: TaskCtx, kthread: bool, now: nat) returns (t: TaskCtx)
    ensures t == Classify(tc, kthread, now)
  {
    var crit := ScoreCrit(tc, now);
    t := tc.(crit := crit);
    if t.samples < DUTY_SAMPLES_NEEDED {
      t := t.(tier := GREEDY);
    } else {
      var pessimistic := TargetTier(crit, t.duty + DUTY_HYST);
      var optimistic := TargetTier(crit, t.duty - DUTY_HYST);
      if pessimistic < tc.tier {
        t := t.(tier := pessimistic);
      } else if optimistic > tc.tier {
        t := t.(tier := optimistic);
      }
    }
    if kthread && t.duty < DUTY_CAP_INTERACTIVE && t.tier > INTERACTIVE {
      t := t.(tier := INTERACTIVE);
    }
  }

  /** Where the scan stands: `goal` is the least loaded of `best` and of up to `k` candidates from index `i` on. */
  ghost predicate ScanLeft(s: Sys, x: Task, tier: int, cpu: int, start: nat, i: nat, best: int, k: nat, goal: int)
  {
    && s.Shape() && s.Cpu(cpu) && start < s.N() && i <= s.N() && s.Cpu(best)
    && goal == LeastLoaded(s, tier, best, Prefix(Candidates(s, x, cpu, start, i), k))
  }

  lemma ScanStep(s: Sys, x: Task, tier: int, cpu: int, start: nat, i: nat, best: int, k: nat, goal: int)
    returns (best': int, k': nat)
    requires ScanLeft(s, x, tier, cpu, start, i, best, k, goal) && i < s.N() && k > 0
    ensures var o := Rotate(start, i, s.N());
            var sampled := Peer(s, cpu, o) && s.Allows(x, o);
            && best' == (if sampled && Load(s, o, tier) < Load(s, best, tier) then o else best)
            && k' == (if sampled then k - 1 else k)
    ensures ScanLeft(s, x, tier, cpu, start, i + 1, best', k', goal)
  {
    var o, cs, rest := Rotate(start, i, s.N()), Candidates(s, x, cpu, start, i), Candidates(s, x, cpu, start, i + 1);
    if Peer(s, cpu, o) && s.Allows(x, o) {
      assert cs == [o] + rest;
      FirstSample(s, tier, best, cs, k);
      assert cs[1..] == rest;
      best', k' := if Load(s, o, tier) < Load(s, best, tier) then o else best, k - 1;
    } else {
      assert cs == rest;
      best', k' := best, k;
    }
  }

  lemma ScanDone(s: Sys, x: Task, tier: int, cpu: int, start: nat, i: nat, best: int, k: nat, goal: int)
    requires ScanLeft(s, x, tier, cpu, start, i, best, k, goal) && (i == s.N() || k == 0 || Load(s, best, tier) == 0)
    ensures goal == best
  {
    var cs := Prefix(Candidates(s, x, cpu, start, i), k);
    if i < s.N() && k > 0 {
      NothingBeatsZero(s, tier, best, cs);
    }
  }

  /** One sample of the scan: the first candidate is compared, the rest is left to compare. */
  lemma FirstSample(s: Sys, tier: int, best: int, cs: seq<int>, budget: nat)
    requires s.Shape() && s.Cpu(best) && cs != [] && budget > 0 && forall k :: 0 <= k < |cs| ==> s.Cpu(cs[k])
    ensures LeastLoaded(s, tier, best, Prefix(cs, budget))
         == LeastLoaded(s, tier, if Load(s, cs[0], tier) < Load(s, best, tier) then cs[0]
           else best, Prefix(cs[1..], budget - 1))
  {
    assert Prefix(cs, budget)[0] == cs[0] && Prefix(cs, budget)[1..] == Prefix(cs[1..], budget - 1);
  }

  predicate Stealable(s: Sys, cpu: int, sameLlc: bool, o: int)
    requires s.Shape() && s.Cpu(cpu)
  {
    if sameLlc then Peer(s, cpu, o) else Remote(s, cpu, o)
  }

  /** The stopping task's own accounting. */
  method AccountStop(tc: TaskCtx, kthread: bool, preempt: bool, runnable: bool, sliceZero: bool, now: nat)
      returns (t: TaskCtx)
    ensures t == AccountInStopping(tc, kthread, preempt, runnable, sliceZero, now)
  {
    var used := Elapsed(now, tc.startedAt);
    t := ChargeWakeBoost(tc, used);
    t := AccountDuty(t, used, 0);
    t := t.(duty := TaskDuty(t.runAcc, t.sleepAcc));
    t := UpdateTaskDsqType(t, kthread, now);
    if preempt && runnable && sliceZero && t.granted > used + RESUME_SLICE_MIN {
      t := t.(resume := t.granted - used);
    }
    if t.resume == 0 && (!runnable || t.boostUsed >= WAKE_BOOST_BUDGET) {
      t := t.(boost := EMPTY);
    }
  }

  class Lunar {
    const topo: Topo
    var q: map<Qid, seq<Task>>
    var local: seq<seq<Task>>
    var d: seq<DispatchCtx>
    var tc: map<Task, TaskCtx>
    var nrRt: nat
    // the kernel's side
    var loc: map<Task, Loc>
    var aff: map<Task, set<int>>
    var kthreads: set<Task>
    var rtCurr: seq<bool>
    var now: nat

    ghost function St(): Sys
      reads this
    {
      Sys(topo, q, local, d, tc, loc, aff, kthreads, rtCurr, nrRt, now)
    }

    /** lunar_init. */
    constructor (topo: Topo, now: nat)
      requires topo.Valid()
      ensures St() == InitialSys(topo, now) && Inv(St())
    {
      this.topo := topo;
      this.now := now;
      q := map t, c | LC <= t <= GREEDY && 0 <= c < topo.N() :: Qid(t, c) := [];
      local := seq(topo.N(), _ => []);
      d := seq(topo.N(), _ => InitialCtx(now));
      tc, loc, aff, kthreads, nrRt := map[], map[], map[], {}, 0;
      rtCurr := seq(topo.N(), _ => false);
      new;
      InitialInv(topo, now);
    }

    // ----- dispatches.h: taking tasks -----

    method StampTierHead(cpu: int, tier: int)
      requires 0 <= cpu < |d| && |d[cpu].head| == 5
      modifies `d
      ensures d == old(d)[cpu := StampHead(old(d)[cpu], tier, now)]
    {
      if tier == INTERACTIVE || tier == NORMAL || tier == GREEDY {
        d := d[cpu := d[cpu].(head := d[cpu].head[tier := now])];
      }
    }

    /** The kernel's move_to_local: the first task of the queue that may run on `cpu` goes to its local queue. */
    method MoveToLocal(tier: int, from: int, cpu: int) returns (ok: bool)
      requires St().Shape() && LC <= tier <= GREEDY && St().Cpu(from) && St().Cpu(cpu)
      modifies `q, `local, `loc
      ensures ok == old(HasWork(St(), tier, from, cpu))
      ensures !ok ==> St() == old(St())
      ensures ok ==> St() == old(Move(St(), tier, from, cpu)).(d := d)
    {
      ghost var s := St();
      var queue := q[Qid(tier, from)];
      assert queue == s.Q(tier, from);
      var i := 0;
      while i < |queue|
        invariant 0 <= i <= |queue| && St() == s
        invariant forall j :: 0 <= j < i ==> !s.Allows(queue[j], cpu)
      {
        var x := queue[i];
        if x in aff && cpu in aff[x] {
          assert i == FirstAllowed(s, queue, cpu) && HasWork(s, tier, from, cpu);
          q := q[Qid(tier, from) := queue[..i] + queue[i + 1..]];
          local := local[cpu := local[cpu] + [x]];
          loc := loc[x := Local(cpu)];
          return true;
        }
        i := i + 1;
      }
      return false;
    }

    /** A move out of a tier queue, with the stamp that goes with it. */
    method TakeFrom(tier: int, from: int, cpu: int) returns (ok: bool)
      requires St().Shape() && LC <= tier <= GREEDY && St().Cpu(from) && St().Cpu(cpu)
      modifies `q, `local, `loc, `d
      ensures ok == old(HasWork(St(), tier, from, cpu))
      ensures St() == if ok then old(Move(St(), tier, from, cpu)) else old(St())
    {
      if |q[Qid(tier, from)]| == 0 { return false; }
      ok := MoveToLocal(tier, from, cpu);
      if ok {
        StampTierHead(from, tier);
      }
    }

    method TakeFromLocalTier(tier: int, cpu: int) returns (ok: bool)
      requires St().Shape() && LC <= tier <= GREEDY && St().Cpu(cpu)
      modifies `q, `local, `loc, `d
      ensures ok == old(OwnWork(St(), cpu, tier))
      ensures St() == if ok then old(Move(St(), tier, cpu, cpu)) else old(St())
    {
      ok := TakeFrom(tier, cpu, cpu);
    }

    /** Steal from another cpu of the same LLC, or only from other LLCs; -1 when there is nothing to take. */
    method TryAcquireFromOtherCpu(tier: int, cpu: int, sameLlc: bool) returns (from: int)
      requires St().Shape() && LC <= tier <= GREEDY && St().Cpu(cpu)
      modifies `q, `local, `loc, `d
      ensures from == -1 ==>
                St() == old(St()) && !old(if sameLlc then PeerWork(St(), cpu, tier) else RemoteWork(St(), cpu, tier))
      ensures from != -1 ==>
                && old(if sameLlc then Peer(St(), cpu, from) else Remote(St(), cpu, from))
                && old(HasWork(St(), tier, from, cpu)) && St() == old(Move(St(), tier, from, cpu))
    {
      ghost var s := St();
      var n := topo.N();
      var start :| 0 <= start < n;
      var i := 0;
      while i < n
        invariant 0 <= i <= n && St() == s
        invariant forall j :: 0 <= j < i && Stealable(s, cpu, sameLlc, Rotate(start, j, n)) ==>
                    !HasWork(s, tier, Rotate(start, j, n), cpu)
      {
        var other := Rotate(start, i, n);
        var ok := TakeFromOther(tier, other, cpu, sameLlc);
        if ok {
          return other;
        }
        i := i + 1;
      }
      from := -1;
      AllOthersSeen(s, tier, cpu, sameLlc, start);
    }

    /** One turn of the scan. */
    method TakeFromOther(tier: int, other: int, cpu: int, sameLlc: bool) returns (ok: bool)
      requires St().Shape() && LC <= tier <= GREEDY && St().Cpu(other) && St().Cpu(cpu)
      modifies `q, `local, `loc, `d
      ensures ok == old(Stealable(St(), cpu, sameLlc, other) && HasWork(St(), tier, other, cpu))
      ensures St() == if ok then old(Move(St(), tier, other, cpu)) else old(St())
    {
      if other != cpu && topo.online[other] && (sameLlc <==> topo.llc[other] == topo.llc[cpu]) {
        ok := TakeFrom(tier, other, cpu);
      } else {
        ok := false;
      }
    }

    /** Take over from a cpu of the LLC that an RT task has taken. */
    method TryAcquireFromRtCpu(tier: int, cpu: int) returns (from: int)
      requires St().Shape() && LC <= tier <= GREEDY && St().Cpu(cpu)
      modifies `q, `local, `loc, `d
      ensures from == -1 ==> St() == old(St()) && !old(RtWork(St(), cpu, tier))
      ensures from != -1 ==>
                && old(RtPeer(St(), cpu, from)) && old(HasWork(St(), tier, from, cpu))
                && St() == old(Move(St(), tier, from, cpu))
    {
      if nrRt == 0 { return -1; }
      ghost var s := St();
      var n := topo.N();
      var start :| 0 <= start < n;
      var i := 0;
      while i < n
        invariant 0 <= i <= n && St() == s
        invariant forall j :: 0 <= j < i && RtPeer(s, cpu, Rotate(start, j, n)) ==>
                    !HasWork(s, tier, Rotate(start, j, n), cpu)
      {
        var other := Rotate(start, i, n);
        var ok := TakeFromRt(tier, other, cpu);
        if ok {
          return other;
        }
        i := i + 1;
      }
      from := -1;
      AllRtSeen(s, tier, cpu, start);
    }

    /** One turn of the scan. */
    method TakeFromRt(tier: int, other: int, cpu: int) returns (ok: bool)
      requires St().Shape() && LC <= tier <= GREEDY && St().Cpu(other) && St().Cpu(cpu) && nrRt != 0
      modifies `q, `local, `loc, `d
      ensures ok == old(RtPeer(St(), cpu, other) && HasWork(St(), tier, other, cpu))
      ensures St() == if ok then old(Move(St(), tier, other, cpu)) else old(St())
    {
      if other != cpu && topo.online[other] && topo.llc[other] == topo.llc[cpu] && d[other].rtBusy && rtCurr[other] {
        ok := TakeFrom(tier, other, cpu);
      } else {
        ok := false;
      }
    }

    method MostStarvedTier(cpu: int) returns (worst: int)
      requires St().Shape() && St().Cpu(cpu)
      ensures CoolingDown(St(), cpu) ==> worst == EMPTY
      ensures !CoolingDown(St(), cpu) ==>
                if worst == EMPTY then forall t :: !MostStarved(St(), cpu, t) else MostStarved(St(), cpu, worst)
    {
      if now - d[cpu].lastOverride < OVERRIDE_COOLDOWN { return EMPTY; }
      worst := EMPTY;
      var worstOverrun := 0;
      var tier := INTERACTIVE;
      while tier <= GREEDY
        invariant INTERACTIVE <= tier <= GREEDY + 1
        invariant worst == EMPTY ==> worstOverrun == 0
        invariant worst != EMPTY ==>
                    INTERACTIVE <= worst < tier && worstOverrun == Overrun(St(), cpu, worst) > 0
        invariant forall t :: INTERACTIVE <= t < tier ==>
                    Overrun(St(), cpu, t) < worstOverrun
                    || (Overrun(St(), cpu, t) == worstOverrun && worst <= t)
                    || (worst == EMPTY && Overrun(St(), cpu, t) <= 0)
      {
        var overrun := if |q[Qid(tier, cpu)]| == 0 then 0 else now - d[cpu].head[tier] - StarveBudget(tier);
        assert overrun == Overrun(St(), cpu, tier);
        if overrun > worstOverrun {
          worstOverrun, worst := overrun, tier;
        }
        tier := tier + 1;
      }
    }

    /** A task of a better tier than anything the cpu has itself (`best`), taken over from a peer. */
    method Overtake(cpu: int, best: int, ghost prev: int) returns (tier: int, from: int)
      requires St().Shape() && St().Cpu(cpu) && LC <= best <= EMPTY && best == LocalBest(St(), cpu, prev)
      modifies `q, `local, `loc, `d
      ensures tier == old(Overtaking(St(), cpu, prev))
      ensures tier == EMPTY ==> St() == old(St())
      ensures tier != EMPTY ==>
                old(Peer(St(), cpu, from) && HasWork(St(), tier, from, cpu)) && St() == old(Move(St(), tier, from, cpu))
    {
      from := -1;
      if best != EMPTY {
        if best > LC {
          from := TryAcquireFromOtherCpu(LC, cpu, true);
          if from != -1 { return LC, from; }
        }
        if best > INTERACTIVE {
          from := TryAcquireFromOtherCpu(INTERACTIVE, cpu, true);
          if from != -1 { return INTERACTIVE, from; }
        }
        if best > NORMAL {
          from := TryAcquireFromOtherCpu(NORMAL, cpu, true);
          if from != -1 { return NORMAL, from; }
        }
      }
      return EMPTY, -1;
    }

    /** One tier, for an RT-taken peer first and then from the cpu's own queue. */
    method ServeTier(cpu: int, tier: int) returns (from: int)
      requires St().Shape() && St().Cpu(cpu) && LC <= tier <= GREEDY
      modifies `q, `local, `loc, `d
      ensures from == -1 ==> St() == old(St()) && !old(RtWork(St(), cpu, tier) || OwnWork(St(), cpu, tier))
      ensures from != -1 ==>
                && (if old(RtWork(St(), cpu, tier)) then old(RtPeer(St(), cpu, from)) else from == cpu)
                && old(HasWork(St(), tier, from, cpu)) && St() == old(Move(St(), tier, from, cpu))
    {
      from := TryAcquireFromRtCpu(tier, cpu);
      if from != -1 { return; }
      var ok := TakeFromLocalTier(tier, cpu);
      from := if ok then cpu else -1;
    }

    method ServeOwnTiers(cpu: int, prev: int) returns (tier: int, from: int)
      requires St().Shape() && St().Cpu(cpu) && LC <= prev <= EMPTY
      modifies `q, `local, `loc, `d
      ensures tier == old(Served(St(), cpu, prev))
      ensures tier == EMPTY ==> St() == old(St())
      ensures tier != EMPTY ==>
                && (if old(RtWork(St(), cpu, tier)) then old(RtPeer(St(), cpu, from)) else from == cpu)
                && old(HasWork(St(), tier, from, cpu)) && St() == old(Move(St(), tier, from, cpu))
    {
      if prev < INTERACTIVE { return EMPTY, -1; }
      from := ServeTier(cpu, INTERACTIVE);
      if from != -1 { return INTERACTIVE, from; }
      if prev < NORMAL { return EMPTY, -1; }
      from := ServeTier(cpu, NORMAL);
      if from != -1 { return NORMAL, from; }
      if prev < GREEDY { return EMPTY, -1; }
      from := ServeTier(cpu, GREEDY);
      if from != -1 { return GREEDY, from; }
      return EMPTY, -1;
    }

    method Steal(cpu: int, sameLlc: bool) returns (tier: int, from: int)
      requires St().Shape() && St().Cpu(cpu)
      modifies `q, `local, `loc, `d
      ensures tier == old(if sameLlc then Stolen(St(), cpu) else Fetched(St(), cpu))
      ensures tier == EMPTY ==> St() == old(St())
      ensures tier != EMPTY ==>
                && old(if sameLlc then Peer(St(), cpu, from) else Remote(St(), cpu, from))
                && old(HasWork(St(), tier, from, cpu)) && St() == old(Move(St(), tier, from, cpu))
    {
      from := TryAcquireFromOtherCpu(LC, cpu, sameLlc);
      if from != -1 { return LC, from; }
      from := TryAcquireFromOtherCpu(INTERACTIVE, cpu, sameLlc);
      if from != -1 { return INTERACTIVE, from; }
      from := TryAcquireFromOtherCpu(NORMAL, cpu, sameLlc);
      if from != -1 { return NORMAL, from; }
      from := TryAcquireFromOtherCpu(GREEDY, cpu, sameLlc);
      if from != -1 { return GREEDY, from; }
      return EMPTY, -1;
    }

    method BestOfItsOwn(cpu: int, prev: int) returns (best: int)
      requires St().Shape() && St().Cpu(cpu) && LC <= prev <= EMPTY
      ensures best == LocalBest(St(), cpu, prev)
    {
      best := if prev <= GREEDY then prev else EMPTY;
      if best > INTERACTIVE && |q[Qid(INTERACTIVE, cpu)]| != 0 {
        best := INTERACTIVE;
      } else if best > NORMAL && |q[Qid(NORMAL, cpu)]| != 0 {
        best := NORMAL;
      } else if best > GREEDY && |q[Qid(GREEDY, cpu)]| != 0 {
        best := GREEDY;
      }
    }

    /** The part of the decision behind the starvation check. */
    method DispatchLate(cpu: int, prev: int) returns (verdict: int, ghost ch: Choice)
      requires St().Shape() && St().Cpu(cpu) && LC <= prev <= EMPTY && d[cpu].ovLeft == 0
      modifies `q, `local, `loc, `d
      ensures old(LateChoice(St(), cpu, prev, ch)) && old(CanTake(St(), cpu, ch))
      ensures ch.Take? ==> ch.phase == Late
      ensures St() == (if ch.Take? then old(Move(St(), ch.tier, ch.from, cpu)) else old(St()))
      ensures verdict == ch.Verdict()
    {
      var best := BestOfItsOwn(cpu, prev);
      var tier, from := Overtake(cpu, best, prev);
      if tier != EMPTY { return tier, Take(tier, from, Late); }
      tier, from := ServeOwnTiers(cpu, prev);
      if tier != EMPTY { return tier, Take(tier, from, Late); }
      if prev <= GREEDY { return EMPTY, Keep; }
      tier, from := Steal(cpu, true);
      if tier != EMPTY { return tier, Take(tier, from, Late); }
      if topo.nrLlcs > 1 {
        tier, from := Steal(cpu, false);
        if tier != EMPTY { return tier, Take(tier, from, Late); }
      }
      return EMPTY + 1, Idle;
    }

    /** An override in progress goes on as long as its tier has tasks, and is given up otherwise. */
    method ContinueOverride(cpu: int) returns (ok: bool)
      requires St().Shape() && St().Cpu(cpu)
      modifies `q, `local, `loc, `d
      ensures ok == old(CanContinue(St(), cpu))
      ensures St() == old(if ok then Move(St(), d[cpu].ovTier, cpu, cpu) else Cleared(St(), cpu))
    {
      ok := false;
      if d[cpu].ovLeft > 0 {
        var tier := d[cpu].ovTier;
        if INTERACTIVE <= tier <= GREEDY {
          ok := TakeFromLocalTier(tier, cpu);
          if ok {
            return;
          }
        }
      }
      d := d[cpu := d[cpu].(ovLeft := 0)];
    }

    /** An override starts for the most starved tier outside the cooldown; EMPTY when there is none. */
    method StartOverride(cpu: int) returns (tier: int)
      requires St().Shape() && St().Cpu(cpu)
      modifies `q, `local, `loc, `d
      ensures tier == EMPTY ==> St() == old(St()) && forall t :: !old(CanStart(St(), cpu, t))
      ensures tier != EMPTY ==> old(CanStart(St(), cpu, tier)) && St() == old(Apply(St(), cpu, Take(tier, cpu, Start)))
    {
      tier := MostStarvedTier(cpu);
      if tier != EMPTY {
        var ok := TakeFromLocalTier(tier, cpu);
        if ok {
          d := d[cpu := d[cpu].(lastOverride := now, ovTier := tier, ovLeft := OVERRIDE_BUDGET)];
          return;
        }
        ghost var s := St();
        assert forall t :: MostStarved(s, cpu, t) ==> t == tier;
      }
      return EMPTY;
    }

    /** The decision engine. The choice it came to is returned as a ghost, for the contract. */
    method DispatchDsqPerCpu(cpu: int, prev: int) returns (verdict: int, ghost ch: Choice)
      requires St().Shape() && St().Cpu(cpu) && LC <= prev <= EMPTY
      modifies `q, `local, `loc, `d
      ensures old(GoodChoice(St(), cpu, prev, ch)) && old(CanTake(St(), cpu, ch))
      ensures St() == old(Apply(St(), cpu, ch)) && verdict == ch.Verdict()
    {
      ghost var s := St();
      var from := ServeTier(cpu, LC);
      if from != -1 {
        EarlyDecides(s, cpu, prev, from);
        return LC, Take(LC, from, Early);
      }
      var ok := ContinueOverride(cpu);
      if ok {
        ContinueDecides(s, cpu, prev);
        return d[cpu].ovTier, Take(s.d[cpu].ovTier, cpu, Continue);
      }
      verdict := StartOverride(cpu);
      if verdict != EMPTY {
        StartDecides(s, cpu, prev, verdict);
        return verdict, Take(verdict, cpu, Start);
      }
      NoStart(s, cpu);
      verdict, ch := DispatchLate(cpu, prev);
      LateDecides(s, cpu, prev, ch);
    }

    // ----- dispatches.h: placement -----

    method CpuLoadAhead(cpu: int, tier: int) returns (load: nat)
      requires St().Shape() && St().Cpu(cpu)
      ensures load == Load(St(), cpu, tier)
    {
      load := 0;
      if d[cpu].running <= tier {
        load := load + 1;
      } else if rtCurr[cpu] {
        load := load + RT_CPU_LOAD;
      }
      load := load + |local[cpu]|;
      load := load + |q[Qid(LC, cpu)]|;
      if tier >= INTERACTIVE { load := load + |q[Qid(INTERACTIVE, cpu)]|; }
      if tier >= NORMAL { load := load + |q[Qid(NORMAL, cpu)]|; }
      if tier >= GREEDY { load := load + |q[Qid(GREEDY, cpu)]|; }
    }

    method Eligible(x: Task, cpu: int, other: int) returns (r: bool)
      requires St().Shape() && St().Cpu(cpu) && St().Cpu(other) && x in aff
      ensures r == (Peer(St(), cpu, other) && St().Allows(x, other))
    {
      r := other != cpu && topo.llc[other] == topo.llc[cpu] && topo.online[other] && other in aff[x];
    }

    /** One sample: `other` replaces the best cpu so far if its load is smaller. */
    method Sample(other: int, tier: int, best: int, bestLoad: nat) returns (best': int, bestLoad': nat)
      requires St().Shape() && St().Cpu(other) && St().Cpu(best) && bestLoad == Load(St(), best, tier)
      ensures best' == if Load(St(), other, tier) < Load(St(), best, tier) then other else best
      ensures bestLoad' == Load(St(), best', tier)
    {
      best', bestLoad' := best, bestLoad;
      var load := CpuLoadAhead(other, tier);
      if load < bestLoad {
        bestLoad', best' := load, other;
      }
    }

    /** The scan over the other cpus, with its budget of samples and its way out at an empty cpu. */
    method ScanForLeastLoad(x: Task, tier: int, cpu: int, start: nat, budget: nat) returns (best: int)
      requires St().Shape() && St().Cpu(cpu) && x in aff && start < topo.N() && budget > 0
      ensures best == LeastLoaded(St(), tier, cpu, Prefix(Candidates(St(), x, cpu, start, 0), budget))
    {
      best := Scan(x, tier, cpu, start, budget, St(), LeastLoaded(St(), tier, cpu,
        Prefix(Candidates(St(), x, cpu, start, 0), budget)));
    }

    method Scan(x: Task, tier: int, cpu: int, start: nat, budget: nat, ghost s: Sys, ghost goal: int)
        returns (best: int)
      requires s == St() && x in aff && budget > 0 && ScanLeft(s, x, tier, cpu, start, 0, cpu, budget, goal)
      ensures best == goal
    {
      best := cpu;
      var bestLoad := CpuLoadAhead(cpu, tier);
      var n, left, i := topo.N(), budget, 0;
      while i < n
        invariant 0 <= i <= n && 0 < left
        invariant ScanLeft(s, x, tier, cpu, start, i, best, left, goal) && bestLoad == Load(s, best, tier)
      {
        var sampled;
        sampled, best, bestLoad, left := ScanOne(x, tier, cpu, start, i, best, bestLoad, left, s, goal);
        i := i + 1;
        if sampled && (bestLoad == 0 || left == 0) { break; }
      }
      ScanDone(s, x, tier, cpu, start, i, best, left, goal);
    }

    /** The `i`-th step of the scan: a sample, if the cpu is eligible. */
    method ScanOne(x: Task, tier: int, cpu: int, start: nat, i: nat, best: int, bestLoad: nat, left: nat, ghost s: Sys,
                   ghost goal: int)
      returns (sampled: bool, best': int, bestLoad': nat, left': nat)
      requires s == St() && x in aff && ScanLeft(s, x, tier, cpu, start, i, best, left, goal)
               && bestLoad == Load(s, best, tier)
      requires i < topo.N() && left > 0
      ensures ScanLeft(s, x, tier, cpu, start, i + 1, best', left', goal)
      ensures bestLoad' == Load(s, best', tier) && (sampled || left' == left)
    {
      var other := Rotate(start, i, topo.N());
      ghost var b, k := ScanStep(s, x, tier, cpu, start, i, best, left, goal);
      sampled := Eligible(x, cpu, other);
      best', bestLoad', left' := best, bestLoad, left;
      if sampled {
        best', bestLoad' := Sample(other, tier, best, bestLoad);
        left' := left - 1;
      }
    }

    /** pick_enqueue_cpu; `idle` is what the kernel's idle search came back with. */
    method PickEnqueueCpu(x: Task, tier: int, cpu: int, idle: int, start: nat) returns (target: int)
      requires St().Shape() && St().Cpu(cpu) && x in tc && start < topo.N() && (idle == -1 || St().Cpu(idle))
      modifies `tc
      ensures target == old(Pick(St(), x, tier, cpu, idle, start))
      ensures tc == if target == cpu then old(tc) else old(tc)[x := old(tc)[x].(lastMigrated := now)]
    {
      var load := CpuLoadAhead(cpu, tier);
      if load == 0 || |aff[x]| == 1 { return cpu; }
      if idle >= 0 {
        target := idle;
      } else {
        var latencyTier := tier <= INTERACTIVE;
        if !latencyTier && now - tc[x].lastMigrated < BALANCE_INTERVAL && !rtCurr[cpu] { return cpu; }
        target := ScanForLeastLoad(x, tier, cpu, start, if latencyTier then topo.N() else BALANCE_SAMPLES);
      }
      if target != cpu {
        tc := tc[x := tc[x].(lastMigrated := now)];
      }
    }

    // ----- lunar.bpf.c: the callbacks -----

    method ApplyWakeBoost(x: Task, waker: Option<Task>)
      requires x in tc
      modifies `tc
      ensures tc == old(tc)[x := old(Boosted(St(), x, waker))]
    {
      if waker.None? || waker.value == x || waker.value in kthreads || waker.value !in tc { return; }
      var wakerTier := EffectiveTier(tc[waker.value]);
      if wakerTier < SanitizeTier(tc[x].tier) && wakerTier < tc[x].boost {
        tc := tc[x := tc[x].(boost := wakerTier, boostUsed := 0)];
      }
    }

    method InitTask(x: Task, kthread: bool)
      modifies `tc
      ensures tc == old(tc)[x := NewTask(kthread, now)]
    {
      var t := TaskCtx(GREEDY, EMPTY, 0, 0, DUTY_RANGE / 2, DUTY_INIT_RUN, 0, now, 0, 0, 0, 0,
                       CRIT_INTERVAL_REF, CRIT_INTERVAL_REF, now, now, 0);
      if kthread {
        t := t.(runAcc := 8 * DUTY_WINDOW / 100);
        t := t.(sleepAcc := DUTY_WINDOW - t.runAcc);
        t := t.(samples := DUTY_SAMPLES_NEEDED);
        t := t.(duty := TaskDuty(t.runAcc, t.sleepAcc));
        t := t.(tier := INTERACTIVE);
      }
      tc := tc[x := t];
    }

    method SelectCpu(x: Task, ttwu: bool, waker: Option<Task>, cpu: int, idle: bool)
      requires St().Shape() && x in tc && St().Cpu(cpu)
      modifies `tc, `loc
      ensures St() == old(SelectCpuStep(St(), x, ttwu, waker, cpu, idle))
    {
      ghost var s := St();
      if ttwu { ApplyWakeBoost(x, waker); }
      assert tc == s.tc[x := if ttwu then Boosted(s, x, waker) else s.tc[x]];
      assert tc.Keys == s.tc.Keys;
      var direct := -1;
      if idle {
        var load := CpuLoadAhead(cpu, EffectiveTier(tc[x]));
        if load == 0 { direct := cpu; }
      }
      loc := loc[x := Waking(direct)];
    }

    /** The sleep just ended, for the duty. */
    method AccountWakeup(tc: TaskCtx, kthread: bool) returns (t: TaskCtx)
      ensures t == AccountSleep(tc, kthread, now)
    {
      t := tc;
      if t.blockedAt != 0 {
        t := AccountDuty(t, 0, Elapsed(now, t.blockedAt));
        t := t.(samples := t.samples + 1);
        if t.samples > DUTY_SAMPLES_MAX { t := t.(samples := DUTY_SAMPLES_MAX); }
        t := t.(blockedAt := 0);
        t := t.(duty := TaskDuty(t.runAcc, t.sleepAcc));
        t := UpdateTaskDsqType(t, kthread, now);
      }
    }

    method Runnable(x: Task, wakeup: bool, waker: Option<Task>)
      requires x in tc && x in loc
      modifies `tc, `loc
      ensures St() == old(RunnableStep(St(), x, wakeup, waker))
    {
      if wakeup {
        tc := tc[x := Woken(tc[x], now)];
        if waker.Some? && waker.value != x && waker.value in tc {
          tc := tc[waker.value := WokeAnother(tc[waker.value], now)];
        }
      }
      var t := AccountWakeup(tc[x], x in kthreads);
      tc := tc[x := t];
      loc := loc[x := Ready(if loc[x].Waking? then loc[x].direct else -1)];
    }

    /** Puts a task into a tier queue, stamping the tier when it was empty. */
    method InsertTask(x: Task, tier: int, cpu: int, atHead: bool)
      requires St().Shape() && LC <= tier <= GREEDY && St().Cpu(cpu)
      modifies `q, `loc, `d
      ensures St() == old(Insert(St(), x, tier, cpu, atHead))
    {
      var k := Qid(tier, cpu);
      if tier != LC && |q[k]| == 0 {
        StampTierHead(cpu, tier);
      }
      q := q[k := if atHead then [x] + q[k] else q[k] + [x]];
      loc := loc[x := Queued(k)];
    }

    method Enqueue(x: Task, cpu: int, wakeup: bool, waker: Option<Task>, idleCpu: int, start: nat)
      requires St().Shape() && x in tc && St().Cpu(cpu) && start < topo.N() && (idleCpu == -1 || St().Cpu(idleCpu))
      requires LC <= EffectiveTier(if wakeup then Boosted(St(), x, waker) else tc[x]) <= GREEDY
      modifies `q, `loc, `d, `tc
      ensures St() == old(EnqueueStep(St(), x, cpu, wakeup, waker, idleCpu, start))
    {
      ghost var s := St();
      if wakeup { ApplyWakeBoost(x, waker); }
      var t := tc[x];
      var tier := EffectiveTier(t);
      var resume := t.resume > 0 && !rtCurr[cpu];
      tc := tc[x := t.(resume := 0)];
      ghost var s1 := St();
      assert s1 == s.(tc := s.tc[x := t.(resume := 0)]);
      assert s1.tc.Keys == s.tc.Keys;
      if resume {
        InsertTask(x, tier, cpu, true);
      } else {
        var pick := PickEnqueueCpu(x, tier, cpu, idleCpu, start);
        PlacePicked(x, tier, cpu, wakeup, pick, s1);
      }
    }

    /** The end of enqueue: queue on the picked cpu, and preempt what runs there for a waking LC task. */
    method PlacePicked(x: Task, tier: int, cpu: int, wakeup: bool, pick: int, ghost s1: Sys)
      requires s1.Shape() && x in s1.tc && s1.Cpu(cpu) && s1.Cpu(pick) && LC <= tier <= GREEDY
      requires St() == if pick == cpu then s1 else s1.(tc := s1.tc[x := s1.tc[x].(lastMigrated := s1.now)])
      modifies `q, `loc, `d
      ensures St() == PlaceOn(s1, x, tier, cpu, wakeup, pick)
    {
      var target := pick;
      if !topo.online[target] { target := cpu; }
      assert St().tc.Keys == s1.tc.Keys;
      InsertTask(x, tier, target, false);
      var running := d[target].running;
      if running != EMPTY && tier == LC && wakeup && running > tier {
        d := d[target := d[target].(preempt := true)];
      }
    }

    method ChargeOverrideOf(cpu: int, tier: int, used: nat)
      requires 0 <= cpu < |d|
      modifies `d
      ensures d == old(d)[cpu := ChargeOverride(old(d)[cpu], tier, used)]
    {
      if d[cpu].ovLeft == 0 || tier != d[cpu].ovTier { return; }
      d := d[cpu := d[cpu].(ovLeft := if d[cpu].ovLeft > used then d[cpu].ovLeft - used else 0)];
    }

    method ChargePrev(cpu: int, x: Task)
      requires St().Shape() && St().Cpu(cpu) && x in tc
      modifies `d, `tc
      ensures St() == old(AccountPrev(St(), cpu, Some(x)))
    {
      var t := tc[x];
      var used := Elapsed(now, t.startedAt);
      ChargeOverrideOf(cpu, EffectiveTier(t), used);
      t := ChargeWakeBoost(t, used);
      if !d[cpu].preempt && t.boostUsed >= WAKE_BOOST_BUDGET { t := t.(boost := EMPTY); }
      t := AccountDuty(t, used, 0);
      t := t.(startedAt := now);
      t := t.(duty := TaskDuty(t.runAcc, t.sleepAcc));
      t := UpdateTaskDsqType(t, x in kthreads, now);
      tc := tc[x := t];
    }

    /** prev keeps the cpu for a new slice. */
    method KeepOn(cpu: int, x: Task)
      requires St().Shape() && St().Cpu(cpu) && x in tc
      modifies `d, `tc
      ensures St() == old(KeepPrev(St(), cpu, Some(x)))
    {
      var t := tc[x];
      var prevTier := EffectiveTier(t);
      if t.boost != EMPTY && t.boostUsed >= WAKE_BOOST_BUDGET {
        t := t.(boost := EMPTY);
        prevTier := EffectiveTier(t);
      }
      KeptTier(tc[x]);
      tc := tc[x := t.(granted := SLICE)];
      d := d[cpu := d[cpu].(running := prevTier, preempt := false)];
    }

    /** lunar_dispatch: a step of the machine, with the decision it came to. */
    method Dispatch(cpu: int, prev: Option<Task>) returns (verdict: int, ghost ch: Choice)
      requires Inv(St()) && St().Cpu(cpu) && (prev.Some? ==> prev.value in tc && loc[prev.value] == Loc.Running(cpu))
      modifies `q, `local, `loc, `d, `tc
      ensures old(Enabled(St(), Event.Dispatch(cpu, prev, ch)))
      ensures Inv(St()) && St() == old(Next(St(), Event.Dispatch(cpu, prev, ch)))
      ensures verdict == ch.Verdict()
    {
      ghost var s := St();
      verdict, ch := ServeOrKeep(cpu, prev);
      DispatchIsNext(s, cpu, prev, ch);
    }

    method ServeOrKeep(cpu: int, prev: Option<Task>) returns (verdict: int, ghost ch: Choice)
      requires Inv(St()) && St().Cpu(cpu) && (prev.Some? ==> prev.value in tc && loc[prev.value] == Loc.Running(cpu))
      modifies `q, `local, `loc, `d, `tc
      ensures old(Enabled(St(), Event.Dispatch(cpu, prev, ch)))
      ensures old(CanTake(AccountPrev(St(), cpu, prev), cpu, ch)) && St() == old(DispatchStep(St(), cpu, prev, ch))
      ensures verdict == ch.Verdict()
    {
      ghost var s := St();
      assert Inv(AccountPrev(s, cpu, prev)) && LC <= PrevTier(AccountPrev(s, cpu, prev), prev) <= EMPTY by {
        PrevIsOk(s, cpu, prev);
      }
      var prevTier := EMPTY;
      if prev.Some? {
        ChargePrev(cpu, prev.value);
        prevTier := EffectiveTier(tc[prev.value]);
      }
      assert St() == AccountPrev(s, cpu, prev) && prevTier == PrevTier(St(), prev);
      verdict, ch := DispatchDsqPerCpu(cpu, prevTier);
      ApplyKeepsInv(AccountPrev(s, cpu, prev), cpu, prevTier, ch);
      if verdict == EMPTY && prev.Some? {
        KeepOn(cpu, prev.value);
      }
    }

    method Running(x: Task, cpu: int, slice: nat)
      requires St().Shape() && St().Cpu(cpu) && x in tc && local[cpu] != []
      modifies `local, `loc, `d, `tc
      ensures St() == old(RunStep(St(), x, cpu, slice))
    {
      local := local[cpu := local[cpu][1..]];
      loc := loc[x := Loc.Running(cpu)];
      d := d[cpu := d[cpu].(running := EffectiveTier(tc[x]), preempt := false)];
      tc := tc[x := tc[x].(startedAt := now, granted := slice)];
    }

    method Stopping(x: Task, cpu: int, runnable: bool, sliceZero: bool)
      requires St().Shape() && St().Cpu(cpu) && x in tc
      modifies `loc, `d, `tc
      ensures St() == old(StoppingStep(St(), x, cpu, runnable, sliceZero))
    {
      ChargeOverrideOf(cpu, EffectiveTier(tc[x]), Elapsed(now, tc[x].startedAt));
      var t := AccountStop(tc[x], x in kthreads, d[cpu].preempt, runnable, sliceZero, now);
      tc := tc[x := t];
      d := d[cpu := d[cpu].(preempt := false, running := EMPTY)];
      loc := loc[x := if runnable then Ready(-1) else Stopped];
    }

    method Quiescent(x: Task, sleep: bool)
      requires St().Shape() && x in tc
      requires loc[x].Queued? ==> loc[x].qid in q
      requires loc[x].Local? ==> St().Cpu(loc[x].cpu)
      modifies `q, `local, `loc, `tc
      ensures St() == old(QuiescentStep(St(), x, sleep))
    {
      match loc[x] {
        case Queued(k) => q := q[k := Without(q[k], x)];
        case Local(c) => local := local[c := Without(local[c], x)];
        case _ =>
      }
      loc := loc[x := Asleep];
      tc := tc[x := tc[x].(resume := 0, boost := EMPTY, blockedAt := if sleep then now else 0)];
    }

    method SchedSwitch(cpu: int)
      requires St().Shape() && St().Cpu(cpu)
      modifies `local, `loc, `d, `nrRt
      ensures St() == old(SchedSwitchStep(St(), cpu))
    {
      var rt := rtCurr[cpu];
      if rt != d[cpu].rtBusy {
        nrRt := if rt then nrRt + 1 else Dec(nrRt);
      }
      d := d[cpu := d[cpu].(rtBusy := rt)];
      if rt {
        local := local[cpu := []];
        loc := map x | x in loc :: if loc[x] == Local(cpu) then Ready(-1) else loc[x];
      }
    }

    // ----- the callbacks make runs of the machine -----

    /** A callback of the table, on behalf of a task that wakes up or waits. */
    method HandleWaking(e: Event)
      requires Inv(St()) && Enabled(St(), e) && (e.SelectCpu? || e.Runnable? || e.Enqueue?)
      modifies `q, `loc, `d, `tc
      ensures St() == old(Next(St(), e))
    {
      ghost var s := St();
      match e {
        case SelectCpu(x, ttwu, waker, cpu, idle) => SelectCpu(x, ttwu, waker, cpu, idle);
        case Runnable(x, wakeup, waker) => Runnable(x, wakeup, waker);
        case Enqueue(x, cpu, wakeup, waker, idleCpu, start) =>
          BoostedOk(s, x, waker);
          Enqueue(x, cpu, wakeup, waker, idleCpu, start);
      }
    }

    /** A callback on behalf of a task that starts, stops or goes to sleep, and the switch of a cpu to another task. */
    method HandleRunning(e: Event)
      requires Inv(St()) && Enabled(St(), e) && (e.Run? || e.Stopping? || e.Quiescent? || e.SchedSwitch?)
      modifies `q, `local, `loc, `d, `tc, `nrRt
      ensures St() == old(Next(St(), e))
    {
      match e {
        case Run(x, cpu, slice) => Running(x, cpu, slice);
        case Stopping(x, cpu, runnable, sliceZero) => Stopping(x, cpu, runnable, sliceZero);
        case Quiescent(x, sleep) => Quiescent(x, sleep);
        case SchedSwitch(cpu) => SchedSwitch(cpu);
      }
    }

    /** What the kernel does on its own, and the callback for a new task. */
    method HandleKernel(e: Event)
      requires Inv(St()) && Enabled(St(), e) && (e.Tick? || e.InitTask? || e.SetAffinity? || e.InsertDirect?
               || e.SetCurrent?)
      modifies `local, `loc, `tc, `aff, `kthreads, `rtCurr, `now
      ensures St() == old(Next(St(), e))
    {
      match e {
        case Tick(dt) => now := now + dt;
        case InitTask(x, kthread, cpus) =>
          InitTask(x, kthread);
          loc, aff := loc[x := Asleep], aff[x := cpus];
          if kthread { kthreads := kthreads + {x}; }
        case SetAffinity(x, cpus) => aff := aff[x := cpus];
        case InsertDirect(x) =>
          var c := loc[x].direct;
          local, loc := local[c := local[c] + [x]], loc[x := Local(c)];
        case SetCurrent(cpu, rt) => rtCurr := rtCurr[cpu := rt];
      }
    }

    /** Every event but a dispatch, whose decision is Dispatch's own: the callbacks take the machine's step and keep the
        invariant. */
    method Handle(e: Event)
      requires Inv(St()) && Enabled(St(), e) && !e.Dispatch?
      modifies this
      ensures Inv(St()) && St() == old(Next(St(), e))
    {
      NextKeepsInv(St(), e);
      if e.SelectCpu? || e.Runnable? || e.Enqueue? {
        HandleWaking(e);
      } else if e.Run? || e.Stopping? || e.Quiescent? || e.SchedSwitch? {
        HandleRunning(e);
      } else {
        HandleKernel(e);
      }
    }
  }

  lemma PrevIsOk(s: Sys, cpu: int, prev: Option<Task>)
    requires Inv(s) && s.Cpu(cpu) && (prev.Some? ==> prev.value in s.tc && s.loc[prev.value] == Loc.Running(cpu))
    ensures var s1 := AccountPrev(s, cpu, prev); Inv(s1) && LC <= PrevTier(s1, prev) <= EMPTY
  {
    AccountPrevKeepsInv(s, cpu, prev);
    var s1 := AccountPrev(s, cpu, prev);
    if prev.Some? {
      assert prev.value in s1.tc && TaskOk(s1.tc[prev.value]);
    }
  }

  lemma KeptTier(tc: TaskCtx)
    ensures EffectiveTier(KeepRunning(tc))
         == if tc.boost != EMPTY && tc.boostUsed >= WAKE_BOOST_BUDGET then EffectiveTier(tc.(boost := EMPTY))
            else EffectiveTier(tc)
  {
  }

  // ----- giving up an override changes nothing else -----

  function Cleared(s: Sys, cpu: int): Sys
    requires 0 <= cpu < |s.d|
  {
    s.(d := s.d[cpu := s.d[cpu].(ovLeft := 0)])
  }

  lemma ClearedWork(s: Sys, cpu: int, tier: int)
    requires s.Shape() && s.Cpu(cpu) && LC <= tier <= GREEDY
    ensures var s1 := Cleared(s, cpu);
            && s1.Shape()
            && (OwnWork(s1, cpu, tier) <==> OwnWork(s, cpu, tier))
            && (PeerWork(s1, cpu, tier) <==> PeerWork(s, cpu, tier))
            && (RtWork(s1, cpu, tier) <==> RtWork(s, cpu, tier))
            && (RemoteWork(s1, cpu, tier) <==> RemoteWork(s, cpu, tier))
            && (forall o :: s.Cpu(o) ==> (HasWork(s1, tier, o, cpu) <==> HasWork(s, tier, o, cpu)))
  {
    var s1 := Cleared(s, cpu);
    assert forall o :: s.Cpu(o) ==> (HasWork(s1, tier, o, cpu) <==> HasWork(s, tier, o, cpu)) by {
      assert forall o :: s.Cpu(o) ==> s1.Q(tier, o) == s.Q(tier, o);
    }
    assert forall o :: Peer(s1, cpu, o) <==> Peer(s, cpu, o);
    assert forall o :: RtPeer(s1, cpu, o) <==> RtPeer(s, cpu, o);
    assert forall o :: Remote(s1, cpu, o) <==> Remote(s, cpu, o);
  }

  lemma ClearedStarved(s: Sys, cpu: int, t: int)
    requires s.Shape() && s.Cpu(cpu)
    ensures var s1 := Cleared(s, cpu);
            s1.Shape() && (MostStarved(s1, cpu, t) <==> MostStarved(s, cpu, t))
              && (CoolingDown(s1, cpu) <==> CoolingDown(s, cpu))
  {
    var s1 := Cleared(s, cpu);
    assert forall u :: INTERACTIVE <= u <= GREEDY ==> Overrun(s1, cpu, u) == Overrun(s, cpu, u);
  }

  lemma ClearedStarts(s: Sys, cpu: int)
    requires s.Shape() && s.Cpu(cpu)
    ensures Cleared(s, cpu).Shape() && forall t :: CanStart(Cleared(s, cpu), cpu, t) <==> CanStart(s, cpu, t)
  {
    ClearedWork(s, cpu, LC);
    forall t
      ensures CanStart(Cleared(s, cpu), cpu, t) <==> CanStart(s, cpu, t)
    {
      ClearedStarved(s, cpu, t);
      if INTERACTIVE <= t <= GREEDY {
        ClearedWork(s, cpu, t);
      }
    }
  }

  lemma ClearedApplyStart(s: Sys, cpu: int, t: int)
    requires s.Shape() && s.Cpu(cpu) && Cleared(s, cpu).Shape() && CanStart(Cleared(s, cpu), cpu, t)
             && CanStart(s, cpu, t)
    ensures Apply(s, cpu, Take(t, cpu, Start)) == Apply(Cleared(s, cpu), cpu, Take(t, cpu, Start))
  {
    SameFirst(s, Cleared(s, cpu), s.Q(t, cpu), cpu);
  }

  lemma ClearedTiers(s: Sys, cpu: int, prev: int)
    requires s.Shape() && s.Cpu(cpu)
    ensures var s1 := Cleared(s, cpu);
            && s1.Shape()
            && Overtaking(s1, cpu, prev) == Overtaking(s, cpu, prev) && Served(s1, cpu, prev) == Served(s, cpu, prev)
            && Stolen(s1, cpu) == Stolen(s, cpu) && Fetched(s1, cpu) == Fetched(s, cpu)
  {
    var s1 := Cleared(s, cpu);
    forall t | LC <= t <= GREEDY
      ensures Overtakes(s1, cpu, prev, t) <==> Overtakes(s, cpu, prev, t)
      ensures Serves(s1, cpu, prev, t) <==> Serves(s, cpu, prev, t)
      ensures PeerWork(s1, cpu, t) <==> PeerWork(s, cpu, t)
      ensures RemoteWork(s1, cpu, t) <==> RemoteWork(s, cpu, t)
    {
      ClearedWork(s, cpu, t);
    }
  }

  lemma ClearedLate(s: Sys, cpu: int, prev: int, ch: Choice)
    requires s.Shape() && s.Cpu(cpu) && Cleared(s, cpu).Shape() && LateChoice(Cleared(s, cpu), cpu, prev, ch)
    ensures LateChoice(s, cpu, prev, ch)
  {
    ClearedTiers(s, cpu, prev);
    if ch.Take? {
      ClearedWork(s, cpu, ch.tier);
    }
  }

  lemma DispatchIsNext(s: Sys, cpu: int, prev: Option<Task>, ch: Choice)
    requires Inv(s) && Enabled(s, Event.Dispatch(cpu, prev, ch)) && CanTake(AccountPrev(s, cpu, prev), cpu, ch)
    ensures Inv(DispatchStep(s, cpu, prev, ch)) && Next(s, Event.Dispatch(cpu, prev, ch))
            == DispatchStep(s, cpu, prev, ch)
  {
    NextKeepsInv(s, Event.Dispatch(cpu, prev, ch));
  }

  /** A scan of all cpus, from any start, has seen every RT-taken peer, or every cpu to steal from. */
  lemma AllRtSeen(s: Sys, tier: int, cpu: int, start: nat)
    requires s.Shape() && LC <= tier <= GREEDY && s.Cpu(cpu) && start < s.N()
    requires forall j :: 0 <= j < s.N() && RtPeer(s, cpu, Rotate(start, j, s.N())) ==>
             !HasWork(s, tier, Rotate(start, j, s.N()), cpu)
    ensures !RtWork(s, cpu, tier)
  {
    forall o | RtPeer(s, cpu, o) ensures !HasWork(s, tier, o, cpu) { var j := RotationReaches(s.N(), start, o); }
  }

  lemma AllOthersSeen(s: Sys, tier: int, cpu: int, sameLlc: bool, start: nat)
    requires s.Shape() && LC <= tier <= GREEDY && s.Cpu(cpu) && start < s.N()
    requires forall j :: 0 <= j < s.N() && Stealable(s, cpu, sameLlc, Rotate(start, j, s.N())) ==>
               !HasWork(s, tier, Rotate(start, j, s.N()), cpu)
    ensures !(if sameLlc then PeerWork(s, cpu, tier) else RemoteWork(s, cpu, tier))
  {
    forall o | Stealable(s, cpu, sameLlc, o) ensures !HasWork(s, tier, o, cpu)
      { var j := RotationReaches(s.N(), start, o); }
  }

  // ----- the returns of the engine are the decisions of the machine -----

  lemma EarlyDecides(s: Sys, cpu: int, prev: int, from: int)
    requires s.Shape() && s.Cpu(cpu) && s.Cpu(from) && HasWork(s, LC, from, cpu)
    requires if RtWork(s, cpu, LC) then RtPeer(s, cpu, from) else from == cpu
    ensures var ch := Take(LC, from, Early);
            GoodChoice(s, cpu, prev, ch) && CanTake(s, cpu, ch) && Apply(s, cpu, ch) == Move(s, LC, from, cpu)
  {
    var s1 := Move(s, LC, from, cpu);
    assert s1.d[cpu := s1.d[cpu]] == s1.d;
  }

  lemma ContinueDecides(s: Sys, cpu: int, prev: int)
    requires s.Shape() && s.Cpu(cpu) && !EarlyWork(s, cpu) && CanContinue(s, cpu)
    ensures var ch := Take(s.d[cpu].ovTier, cpu, Continue);
            && GoodChoice(s, cpu, prev, ch) && CanTake(s, cpu, ch) && Apply(s, cpu, ch) == Move(s, ch.tier, cpu, cpu)
            && Apply(s, cpu, ch).d[cpu].ovTier == ch.tier
  {
    var s1 := Move(s, s.d[cpu].ovTier, cpu, cpu);
    assert s1.d[cpu := s1.d[cpu]] == s1.d;
  }

  lemma StartDecides(s: Sys, cpu: int, prev: int, t: int)
    requires s.Shape() && s.Cpu(cpu) && !EarlyWork(s, cpu) && !CanContinue(s, cpu)
    requires Cleared(s, cpu).Shape() && CanStart(Cleared(s, cpu), cpu, t)
    ensures var ch := Take(t, cpu, Start);
            && GoodChoice(s, cpu, prev, ch) && CanTake(s, cpu, ch)
            && CanTake(Cleared(s, cpu), cpu, ch) && Apply(s, cpu, ch) == Apply(Cleared(s, cpu), cpu, ch)
  {
    ClearedStarts(s, cpu);
    ClearedApplyStart(s, cpu, t);
  }

  lemma NoStart(s: Sys, cpu: int)
    requires s.Shape() && s.Cpu(cpu) && Cleared(s, cpu).Shape() && forall t :: !CanStart(Cleared(s, cpu), cpu, t)
    ensures forall t :: !CanStart(s, cpu, t)
  {
    ClearedStarts(s, cpu);
  }

  lemma LateDecides(s: Sys, cpu: int, prev: int, ch: Choice)
    requires s.Shape() && s.Cpu(cpu) && !EarlyWork(s, cpu) && !CanContinue(s, cpu) && forall t :: !CanStart(s, cpu, t)
    requires Cleared(s, cpu).Shape() && LateChoice(Cleared(s, cpu), cpu, prev, ch) && CanTake(Cleared(s, cpu), cpu, ch)
    requires ch.Take? ==> ch.phase == Late
    ensures GoodChoice(s, cpu, prev, ch) && CanTake(s, cpu, ch)
    ensures Apply(s, cpu, ch) == if ch.Take? then Move(Cleared(s, cpu), ch.tier, ch.from, cpu) else Cleared(s, cpu)
  {
    ClearedLate(s, cpu, prev, ch);
    ClearedApply(s, cpu, ch);
  }

  lemma ClearedApply(s: Sys, cpu: int, ch: Choice)
    requires s.Shape() && s.Cpu(cpu) && Cleared(s, cpu).Shape() && CanTake(Cleared(s, cpu), cpu, ch)
    requires ch.Take? ==> ch.phase == Late
    ensures CanTake(s, cpu, ch)
    ensures Apply(s, cpu, ch) == if ch.Take? then Move(Cleared(s, cpu), ch.tier, ch.from, cpu) else Cleared(s, cpu)
  {
    if ch.Take? {
      ClearedWork(s, cpu, ch.tier);
      SameFirst(s, Cleared(s, cpu), s.Q(ch.tier, ch.from), cpu);
    }
  }

  lemma {:induction false} SameFirst(s: Sys, s1: Sys, queue: seq<Task>, cpu: int)
    requires s1.aff == s.aff
    ensures FirstAllowed(s1, queue, cpu) == FirstAllowed(s, queue, cpu)
  {
    if queue != [] {
      SameFirst(s, s1, queue[1..], cpu);
    }
  }
}

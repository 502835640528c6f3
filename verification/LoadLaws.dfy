/** What placement counts as load, and what that means for where tasks go. */
module LoadLaws {
  import opened Defs
  import opened Classifier
  import opened Machine
  import opened Invariant
  import opened Preservation
  import opened Placement

  /** A task here runs on `cpu` before a newly queued task of `tier`. */
  predicate Ahead(l: Loc, cpu: int, tier: int)
  {
    l == Local(cpu) || (l.Queued? && l.qid.cpu == cpu && l.qid.tier <= tier)
  }

  function TasksAhead(s: Sys, cpu: int, tier: int): set<Task> { set x | x in s.loc && Ahead(s.loc[x], cpu, tier) }

  /** One of our tasks runs on the cpu, of this tier or a better one. */
  predicate RunsAhead(s: Sys, cpu: int, tier: int)
    requires s.Shape() && s.Cpu(cpu)
  {
    s.d[cpu].running <= tier
  }

  // ----- counting -----

  function Members(queue: seq<Task>): set<Task> { set x | x in queue }

  lemma {:induction false} DistinctMembers(queue: seq<Task>)
    requires forall i, j :: 0 <= i < j < |queue| ==> queue[i] != queue[j]
    ensures |Members(queue)| == |queue|
  {
    if queue != [] {
      var n := |queue| - 1;
      DistinctMembers(queue[..n]);
      assert queue == queue[..n] + [queue[n]];
      assert Members(queue) == Members(queue[..n]) + {queue[n]};
    }
  }

  function QueuedAt(s: Sys, tier: int, cpu: int): set<Task> { set x | x in s.loc && s.loc[x] == Queued(Qid(tier, cpu)) }

  lemma QueueCounts(s: Sys, tier: int, cpu: int)
    requires Inv(s) && s.Cpu(cpu) && LC <= tier <= GREEDY
    ensures |QueuedAt(s, tier, cpu)| == |s.Q(tier, cpu)|
  {
    DistinctMembers(s.Q(tier, cpu));
    assert QueuedAt(s, tier, cpu) == Members(s.Q(tier, cpu));
  }

  function LocalAt(s: Sys, cpu: int): set<Task> { set x | x in s.loc && s.loc[x] == Local(cpu) }

  lemma LocalCounts(s: Sys, cpu: int)
    requires Inv(s) && s.Cpu(cpu)
    ensures |LocalAt(s, cpu)| == |s.local[cpu]|
  {
    DistinctMembers(s.local[cpu]);
    assert LocalAt(s, cpu) == Members(s.local[cpu]);
  }

  lemma QueuedTier(s: Sys, x: Task)
    requires Inv(s) && x in s.loc && s.loc[x].Queued?
    ensures LC <= s.loc[x].qid.tier <= GREEDY
  {
  }

  lemma AheadSplits(s: Sys, cpu: int, tier: int)
    requires Inv(s) && s.Cpu(cpu) && LC <= tier <= GREEDY
    ensures TasksAhead(s, cpu, tier) == (if tier == LC then LocalAt(s, cpu)
            else TasksAhead(s, cpu, tier - 1)) + QueuedAt(s, tier, cpu)
    ensures (if tier == LC then LocalAt(s, cpu) else TasksAhead(s, cpu, tier - 1)) !! QueuedAt(s, tier, cpu)
  {
    forall x | x in s.loc && s.loc[x].Queued? ensures LC <= s.loc[x].qid.tier { QueuedTier(s, x); }
  }

  /** The lengths of the local queue and of the tier queues up to `tier`. */
  function Waiting(s: Sys, cpu: int, tier: int): nat
    requires s.Shape() && s.Cpu(cpu) && LC - 1 <= tier <= GREEDY
    decreases tier
  {
    if tier < LC then |s.local[cpu]| else Waiting(s, cpu, tier - 1) + |s.Q(tier, cpu)|
  }

  lemma {:induction false} AheadCounts(s: Sys, cpu: int, tier: int)
    requires Inv(s) && s.Cpu(cpu) && LC <= tier <= GREEDY
    ensures |TasksAhead(s, cpu, tier)| == Waiting(s, cpu, tier)
    decreases tier
  {
    AheadSplits(s, cpu, tier);
    QueueCounts(s, tier, cpu);
    if tier == LC { LocalCounts(s, cpu); } else { AheadCounts(s, cpu, tier - 1); }
  }

  lemma LoadWaits(s: Sys, cpu: int, tier: int)
    requires s.Shape() && s.Cpu(cpu) && LC <= tier <= GREEDY
    ensures Load(s, cpu, tier) == Waiting(s, cpu, tier) + if RunsAhead(s, cpu, tier) then 1 else if s.rtCurr[cpu] then 2
            else 0
  {
    assert Waiting(s, cpu, LC) == |s.local[cpu]| + |s.Q(LC, cpu)|;
    assert tier >= INTERACTIVE ==> Waiting(s, cpu, INTERACTIVE) == Waiting(s, cpu, LC) + |s.Q(INTERACTIVE, cpu)|;
    assert tier >= NORMAL ==> Waiting(s, cpu, NORMAL) == Waiting(s, cpu, INTERACTIVE) + |s.Q(NORMAL, cpu)|;
    assert tier == LC || tier == INTERACTIVE || tier == NORMAL || tier == GREEDY;
  }

  // ----- what the load is -----

  /** The load is the number of our tasks that run before a new one, the running one included; a cpu on which none of
      ours runs first counts as two more while an RT task has it. */
  lemma LoadCounts(s: Sys, cpu: int, tier: int)
    requires Inv(s) && s.Cpu(cpu) && LC <= tier <= GREEDY
    ensures Load(s, cpu, tier) == |TasksAhead(s, cpu, tier)|
              + if RunsAhead(s, cpu, tier) then 1 else if s.rtCurr[cpu] then 2 else 0
  {
    AheadCounts(s, cpu, tier);
    LoadWaits(s, cpu, tier);
  }

  /** Nothing would run before a new task of the tier. */
  predicate Unloaded(s: Sys, cpu: int, tier: int)
    requires s.Shape() && s.Cpu(cpu)
  {
    TasksAhead(s, cpu, tier) == {} && !RunsAhead(s, cpu, tier) && !s.rtCurr[cpu]
  }

  lemma LoadIsZero(s: Sys, cpu: int, tier: int)
    requires Inv(s) && s.Cpu(cpu) && LC <= tier <= GREEDY
    ensures Load(s, cpu, tier) == 0 <==> Unloaded(s, cpu, tier)
  {
    LoadCounts(s, cpu, tier);
  }

  /** A task more in a tier queue adds one to the load of its tier and all worse ones there, and nothing anywhere else.
      */
  lemma QueuedAddsOne(s: Sys, x: Task, t: int, c: int, atHead: bool, cpu: int, tier: int)
    requires s.Shape() && x in s.tc && s.Cpu(c) && s.Cpu(cpu) && LC <= t <= GREEDY && LC <= tier <= GREEDY
    ensures var s' := Insert(s, x, t, c, atHead);
            s'.Shape() && Load(s', cpu, tier) == Load(s, cpu, tier) + if c == cpu && t <= tier then 1 else 0
  {
    var s' := Insert(s, x, t, c, atHead);
    assert s'.loc.Keys == s'.tc.Keys;
    LoadWaits(s, cpu, tier);
    LoadWaits(s', cpu, tier);
    WaitsForOneMore(s, x, t, c, atHead, cpu, tier, s');
    assert s'.d[cpu].running == s.d[cpu].running;
  }

  lemma {:induction false} WaitsForOneMore(s: Sys, x: Task, t: int, c: int, atHead: bool, cpu: int, tier: int, s': Sys)
    requires s.Shape() && s.Cpu(c) && s.Cpu(cpu) && LC <= t <= GREEDY && LC - 1 <= tier <= GREEDY
    requires s' == Insert(s, x, t, c, atHead) && s'.Shape()
    ensures Waiting(s', cpu, tier) == Waiting(s, cpu, tier) + if c == cpu && t <= tier then 1 else 0
    decreases tier
  {
    if tier >= LC {
      WaitsForOneMore(s, x, t, c, atHead, cpu, tier - 1, s');
      assert |s'.Q(tier, cpu)| == |s.Q(tier, cpu)| + if c == cpu && t == tier then 1 else 0;
    }
  }

  lemma LocalAddsOne(s: Sys, x: Task, cpu: int, tier: int)
    requires Inv(s) && Enabled(s, InsertDirect(x)) && s.Cpu(cpu) && LC <= tier <= GREEDY
    ensures var s' := Next(s, InsertDirect(x));
            s'.Shape() && Load(s', cpu, tier) == Load(s, cpu, tier) + if s.loc[x].direct == cpu then 1 else 0
  {
    NextKeepsInv(s, InsertDirect(x));
  }

  // ----- where tasks go -----

  /** A task stays where nothing is ahead of it, or where it is pinned; else it takes the idle cpu the kernel has found.
      */
  lemma WhereItGoes(s: Sys, x: Task, tier: int, cpu: int, idle: int, start: nat)
    requires Inv(s) && s.Cpu(cpu) && x in s.tc && start < s.N() && (idle == -1 || s.Cpu(idle)) && LC <= tier <= GREEDY
    ensures Unloaded(s, cpu, tier) || |s.aff[x]| == 1 ==> Pick(s, x, tier, cpu, idle, start) == cpu
    ensures !Unloaded(s, cpu, tier) && |s.aff[x]| != 1 && idle >= 0 ==> Pick(s, x, tier, cpu, idle, start) == idle
  {
    LoadIsZero(s, cpu, tier);
  }

  /** Without an idle cpu, a task is not moved behind an RT task, to a cpu where none of ours runs ahead of it, while
      fewer than three tasks are ahead of it at home and home is not taken itself. */
  lemma NotBehindRt(s: Sys, x: Task, tier: int, cpu: int, start: nat)
    requires Inv(s) && s.Cpu(cpu) && x in s.tc && start < s.N() && LC <= tier <= GREEDY && !s.rtCurr[cpu]
    requires |TasksAhead(s, cpu, tier)| + (if RunsAhead(s, cpu, tier) then 1 else 0) < 3
    ensures var r := Pick(s, x, tier, cpu, -1, start); r != cpu ==> !s.rtCurr[r] || RunsAhead(s, r, tier)
  {
    var cs := Prefix(Candidates(s, x, cpu, start, 0), if tier <= INTERACTIVE then s.N() else BALANCE_SAMPLES);
    LeastLoadedIsLeast(s, tier, cpu, cs);
    var r := Pick(s, x, tier, cpu, -1, start);
    LoadCounts(s, cpu, tier);
    LoadCounts(s, r, tier);
  }

  /** Nor is it moved anywhere with as many tasks of ours ahead of it as at home. */
  lemma NotToMoreOfOurs(s: Sys, x: Task, tier: int, cpu: int, start: nat)
    requires Inv(s) && s.Cpu(cpu) && x in s.tc && start < s.N() && LC <= tier <= GREEDY && !s.rtCurr[cpu]
    ensures var r := Pick(s, x, tier, cpu, -1, start);
            r != cpu ==> |TasksAhead(s, r, tier)| + (if RunsAhead(s, r, tier) then 1 else 0)
                         < |TasksAhead(s, cpu, tier)| + (if RunsAhead(s, cpu, tier) then 1 else 0)
  {
    var cs := Prefix(Candidates(s, x, cpu, start, 0), if tier <= INTERACTIVE then s.N() else BALANCE_SAMPLES);
    LeastLoadedIsLeast(s, tier, cpu, cs);
    LoadCounts(s, cpu, tier);
    LoadCounts(s, Pick(s, x, tier, cpu, -1, start), tier);
  }

  /** select_cpu puts a task on an idle cpu directly exactly when nothing there would run before it. */
  lemma DirectIffUnloaded(s: Sys, e: Event)
    requires Inv(s) && e.SelectCpu? && Enabled(s, e)
    ensures var s' := Next(s, e);
            e.x in s'.tc && e.x in s'.loc &&
            s'.loc[e.x] == Waking(if e.idle && Unloaded(s, e.cpu, EffectiveTier(s'.tc[e.x])) then e.cpu else -1)
  {
    var tc := if e.ttwu then Boosted(s, e.x, e.waker) else s.tc[e.x];
    BoostedOk(s, e.x, e.waker);
    assert TaskOk(s.tc[e.x]);
    LoadIsZero(s, e.cpu, EffectiveTier(tc));
    assert Next(s, e) == SelectCpuStep(s, e.x, e.ttwu, e.waker, e.cpu, e.idle);
  }

  // ----- the preemption kick -----

  /** An LC task that wakes up has come to wait on cpu `c` for a task of a worse tier that runs there. */
  predicate Kicks(s: Sys, e: Event, l: Loc, c: int)
    requires e.Enqueue? && e.x in s.tc && 0 <= c < |s.d| && 0 <= e.cpu < |s.rtCurr|
  {
    l == Queued(Qid(LC, c)) && e.wakeup && !Resumes(s, e) && LC < s.d[c].running && s.d[c].running != EMPTY
  }

  /** The task comes back with a rest of its slice, to a cpu that no RT task has. */
  predicate Resumes(s: Sys, e: Event)
    requires e.Enqueue? && e.x in s.tc && 0 <= e.cpu < |s.rtCurr|
  {
    s.tc[e.x].resume > 0 && !s.rtCurr[e.cpu]
  }

  /** A cpu is marked for preemption exactly when an LC task that wakes up is queued there, not to resume its slice,
      while a task of a worse tier runs. */
  lemma KickIff(s: Sys, e: Event, c: int)
    requires Inv(s) && e.Enqueue? && Enabled(s, e) && s.Cpu(c)
    ensures var s' := Next(s, e);
            && |s'.d| == |s.d| && e.x in s'.loc
            && (s'.d[c].preempt <==> (s.d[c].preempt || Kicks(s, e, s'.loc[e.x], c)))
  {
    BoostedOk(s, e.x, e.waker);
    var tc := if e.wakeup then Boosted(s, e.x, e.waker) else s.tc[e.x];
    var s1 := s.(tc := s.tc[e.x := tc.(resume := 0)]);
    var tier := EffectiveTier(tc);
    assert Next(s, e) == EnqueueStep(s, e.x, e.cpu, e.wakeup, e.waker, e.idleCpu, e.start);
    if !Resumes(s, e) {
      PlacedKick(s1, e.x, tier, e.cpu, e.wakeup, Pick(s1, e.x, tier, e.cpu, e.idleCpu, e.start), c);
    }
  }

  lemma PlacedKick(s: Sys, x: Task, tier: int, cpu: int, wakeup: bool, pick: int, c: int)
    requires s.Shape() && x in s.tc && s.Cpu(cpu) && s.Cpu(pick) && LC <= tier <= GREEDY && s.Cpu(c)
    ensures var s' := PlaceOn(s, x, tier, cpu, wakeup, pick);
            && |s'.d| == |s.d| && x in s'.loc && s'.loc[x].Queued?
            && (s'.d[c].preempt <==>
                (s.d[c].preempt || (s'.loc[x] == Queued(Qid(LC, c)) && wakeup && LC < s.d[c].running
                  && s.d[c].running != EMPTY)))
  {
  }
}

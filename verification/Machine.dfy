/** The scheduler's state, and its callbacks as transitions of that state. The kernel's side of the state (where each
    task is, which cpus it may use, what runs on each cpu) is part of it, so that runs are sequences of events. */
module Machine {
  import opened Options
  import opened Defs
  import opened Accounting
  import opened Classifier

  type Task = nat

  datatype Qid = Qid(tier: int, cpu: int)

  /** What user space reads from the topology. With a single LLC all online cpus share it. */
  datatype Topo = Topo(online: seq<bool>, llc: seq<nat>, nrLlcs: nat) {
    function N(): nat { |online| }

    predicate Valid()
    {
      && 1 <= |online| <= MAX_CPUS && |llc| == |online|
      && (nrLlcs <= 1 ==> forall a, b :: 0 <= a < N() && 0 <= b < N() && online[a] && online[b] ==> llc[a] == llc[b])
    }
  }

  datatype DispatchCtx = DispatchCtx(
    running: int,        // tier of the running task, EMPTY when none of ours runs
    head: seq<nat>,      // when the head of a tier was last served, or the tier became non-empty
    lastOverride: nat,
    ovTier: int,
    ovLeft: nat,
    rtBusy: bool,
    preempt: bool)

  /** Where the kernel has a task. `direct` is the cpu a waking task was put on by select_cpu, or -1. */
  datatype Loc =
    | Asleep
    | Waking(direct: int)
    | Ready(direct: int)
    | Queued(qid: Qid)
    | Local(cpu: int)
    | Running(cpu: int)
    | Stopped

  datatype Sys = Sys(
    topo: Topo,
    q: map<Qid, seq<Task>>,
    local: seq<seq<Task>>,
    d: seq<DispatchCtx>,
    tc: map<Task, TaskCtx>,
    loc: map<Task, Loc>,
    aff: map<Task, set<int>>,
    kthreads: set<Task>,
    rtCurr: seq<bool>,   // an RT or deadline task is current on the cpu
    nrRt: nat,
    now: nat)
  {
    function N(): nat { topo.N() }

    predicate Cpu(c: int) { 0 <= c < N() }

    predicate Online(c: int) { 0 <= c < |topo.online| && topo.online[c] }

    /** The shape the kernel and lunar_init give the state, before anything is said about its contents. */
    ghost predicate Shape()
    {
      && topo.Valid()
      && (forall k :: k in q <==> LC <= k.tier <= GREEDY && 0 <= k.cpu < N())
      && |local| == N() && |d| == N() && |rtCurr| == N()
      && (forall c :: 0 <= c < |d| ==> |d[c].head| == 5)
      && loc.Keys == tc.Keys && aff.Keys == tc.Keys
    }

    function Q(tier: int, c: int): seq<Task>
      requires Shape() && LC <= tier <= GREEDY && Cpu(c)
    {
      q[Qid(tier, c)]
    }

    predicate Allows(x: Task, c: int) { x in aff && c in aff[x] }
  }

  // ----- dispatch contexts -----

  function StampHead(d: DispatchCtx, tier: int, now: nat): DispatchCtx
    requires |d.head| == 5
  {
    if INTERACTIVE <= tier <= GREEDY then d.(head := d.head[tier := now]) else d
  }

  function ChargeOverride(d: DispatchCtx, tier: int, used: nat): DispatchCtx
  {
    if d.ovLeft == 0 || tier != d.ovTier then d
    else d.(ovLeft := if d.ovLeft > used then d.ovLeft - used else 0)
  }

  // ----- what waits where, seen from one cpu -----

  /** Some task of `tier` waiting on cpu `from` may run on `cpu`. */
  ghost predicate HasWork(s: Sys, tier: int, from: int, cpu: int)
    requires s.Shape() && LC <= tier <= GREEDY && s.Cpu(from)
  {
    exists i :: 0 <= i < |s.Q(tier, from)| && s.Allows(s.Q(tier, from)[i], cpu)
  }

  /** Another online cpu of the same LLC. */
  predicate Peer(s: Sys, cpu: int, o: int)
    requires s.Shape() && s.Cpu(cpu)
  {
    s.Cpu(o) && o != cpu && s.Online(o) && s.topo.llc[o] == s.topo.llc[cpu]
  }

  predicate Remote(s: Sys, cpu: int, o: int)
    requires s.Shape() && s.Cpu(cpu)
  {
    s.Cpu(o) && o != cpu && s.Online(o) && s.topo.llc[o] != s.topo.llc[cpu]
  }

  /** A peer that an RT task has taken, found only while any cpu is known to be RT-busy. */
  predicate RtPeer(s: Sys, cpu: int, o: int)
    requires s.Shape() && s.Cpu(cpu)
  {
    s.nrRt != 0 && Peer(s, cpu, o) && s.d[o].rtBusy && s.rtCurr[o]
  }

  ghost predicate OwnWork(s: Sys, cpu: int, tier: int)
    requires s.Shape() && s.Cpu(cpu) && LC <= tier <= GREEDY
  {
    HasWork(s, tier, cpu, cpu)
  }

  ghost predicate PeerWork(s: Sys, cpu: int, tier: int)
    requires s.Shape() && s.Cpu(cpu) && LC <= tier <= GREEDY
  {
    exists o :: Peer(s, cpu, o) && HasWork(s, tier, o, cpu)
  }

  ghost predicate RtWork(s: Sys, cpu: int, tier: int)
    requires s.Shape() && s.Cpu(cpu) && LC <= tier <= GREEDY
  {
    exists o :: RtPeer(s, cpu, o) && HasWork(s, tier, o, cpu)
  }

  ghost predicate RemoteWork(s: Sys, cpu: int, tier: int)
    requires s.Shape() && s.Cpu(cpu) && LC <= tier <= GREEDY
  {
    exists o :: Remote(s, cpu, o) && HasWork(s, tier, o, cpu)
  }

  // ----- starvation -----

  function Overrun(s: Sys, cpu: int, tier: int): int
    requires s.Shape() && s.Cpu(cpu) && INTERACTIVE <= tier <= GREEDY
  {
    if |s.Q(tier, cpu)| == 0 then 0 else (s.now - s.d[cpu].head[tier]) - StarveBudget(tier)
  }

  predicate CoolingDown(s: Sys, cpu: int)
    requires s.Shape() && s.Cpu(cpu)
  {
    s.now - s.d[cpu].lastOverride < OVERRIDE_COOLDOWN
  }

  /** `tier` is overdue and no tier is overdue by more; of equals the best tier counts. */
  predicate MostStarved(s: Sys, cpu: int, tier: int)
    requires s.Shape() && s.Cpu(cpu)
  {
    && INTERACTIVE <= tier <= GREEDY
    && Overrun(s, cpu, tier) > 0
    && forall t :: INTERACTIVE <= t <= GREEDY ==>
         Overrun(s, cpu, t) < Overrun(s, cpu, tier) || (Overrun(s, cpu, t) == Overrun(s, cpu, tier) && tier <= t)
  }

  // ----- what dispatch may choose -----

  datatype Phase = Early | Continue | Start | Late

  datatype Choice = Take(tier: int, from: int, phase: Phase) | Keep | Idle {
    function Verdict(): int
    {
      match this
      case Take(t, _, _) => t
      case Keep => EMPTY
      case Idle => EMPTY + 1
    }
  }

  ghost predicate EarlyWork(s: Sys, cpu: int)
    requires s.Shape() && s.Cpu(cpu)
  {
    RtWork(s, cpu, LC) || OwnWork(s, cpu, LC)
  }

  ghost predicate CanContinue(s: Sys, cpu: int)
    requires s.Shape() && s.Cpu(cpu)
  {
    var d := s.d[cpu];
    d.ovLeft > 0 && INTERACTIVE <= d.ovTier <= GREEDY && OwnWork(s, cpu, d.ovTier)
  }

  ghost predicate CanStart(s: Sys, cpu: int, tier: int)
    requires s.Shape() && s.Cpu(cpu)
  {
    !CoolingDown(s, cpu) && MostStarved(s, cpu, tier) && OwnWork(s, cpu, tier)
  }

  /** The first tier whose flag is set. */
  function First(lc: bool, interactive: bool, normal: bool, greedy: bool): int
  {
    if lc then LC else if interactive then INTERACTIVE else if normal then NORMAL else if greedy then GREEDY else EMPTY
  }

  /** The best tier the cpu could go on with by itself: prev, or one of its own queues. */
  function LocalBest(s: Sys, cpu: int, prev: int): int
    requires s.Shape() && s.Cpu(cpu)
  {
    Min(prev, First(false, s.Q(INTERACTIVE, cpu) != [], s.Q(NORMAL, cpu) != [], s.Q(GREEDY, cpu) != []))
  }

  /** A peer's tier that goes before anything the cpu has itself. A cpu with nothing of its own skips this. */
  ghost predicate Overtakes(s: Sys, cpu: int, prev: int, t: int)
    requires s.Shape() && s.Cpu(cpu) && LC <= t <= GREEDY
  {
    t < LocalBest(s, cpu, prev) != EMPTY && PeerWork(s, cpu, t)
  }

  /** A tier not worse than prev that the cpu serves from its own queue or for an RT-taken peer. */
  ghost predicate Serves(s: Sys, cpu: int, prev: int, t: int)
    requires s.Shape() && s.Cpu(cpu) && LC <= t <= GREEDY
  {
    INTERACTIVE <= t <= prev && (RtWork(s, cpu, t) || OwnWork(s, cpu, t))
  }

  ghost function Overtaking(s: Sys, cpu: int, prev: int): int
    requires s.Shape() && s.Cpu(cpu)
  {
    First(Overtakes(s, cpu, prev, LC), Overtakes(s, cpu, prev, INTERACTIVE),
          Overtakes(s, cpu, prev, NORMAL), Overtakes(s, cpu, prev, GREEDY))
  }

  ghost function Served(s: Sys, cpu: int, prev: int): int
    requires s.Shape() && s.Cpu(cpu)
  {
    First(Serves(s, cpu, prev, LC), Serves(s, cpu, prev, INTERACTIVE),
          Serves(s, cpu, prev, NORMAL), Serves(s, cpu, prev, GREEDY))
  }

  ghost function Stolen(s: Sys, cpu: int): int
    requires s.Shape() && s.Cpu(cpu)
  {
    First(PeerWork(s, cpu, LC), PeerWork(s, cpu, INTERACTIVE), PeerWork(s, cpu, NORMAL), PeerWork(s, cpu, GREEDY))
  }

  ghost function Fetched(s: Sys, cpu: int): int
    requires s.Shape() && s.Cpu(cpu)
  {
    First(RemoteWork(s, cpu, LC), RemoteWork(s, cpu, INTERACTIVE), RemoteWork(s, cpu, NORMAL),
      RemoteWork(s, cpu, GREEDY))
  }

  ghost predicate LateChoice(s: Sys, cpu: int, prev: int, ch: Choice)
    requires s.Shape() && s.Cpu(cpu)
  {
    var overtaking, served, stolen, fetched :=
      Overtaking(s, cpu, prev), Served(s, cpu, prev), Stolen(s, cpu), Fetched(s, cpu);
    if overtaking != EMPTY then
      ch.Take? && ch.tier == overtaking && Peer(s, cpu, ch.from) && HasWork(s, ch.tier, ch.from, cpu)
    else if served != EMPTY then
      && ch.Take? && ch.tier == served
      && (if RtWork(s, cpu, served) then RtPeer(s, cpu, ch.from) else ch.from == cpu)
      && HasWork(s, ch.tier, ch.from, cpu)
    else if prev <= GREEDY then
      ch == Keep
    else if stolen != EMPTY then
      ch.Take? && ch.tier == stolen && Peer(s, cpu, ch.from) && HasWork(s, ch.tier, ch.from, cpu)
    else if s.topo.nrLlcs > 1 && fetched != EMPTY then
      ch.Take? && ch.tier == fetched && Remote(s, cpu, ch.from) && HasWork(s, ch.tier, ch.from, cpu)
    else
      ch == Idle
  }

  /** The decisions dispatch_dsq_per_cpu can come to, over all random scan starts. */
  ghost predicate GoodChoice(s: Sys, cpu: int, prev: int, ch: Choice)
    requires s.Shape() && s.Cpu(cpu)
  {
    if EarlyWork(s, cpu) then
      && ch.Take? && ch.tier == LC && ch.phase == Early
      && (if RtWork(s, cpu, LC) then RtPeer(s, cpu, ch.from) else ch.from == cpu)
      && HasWork(s, LC, ch.from, cpu)
    else if CanContinue(s, cpu) then
      ch == Take(s.d[cpu].ovTier, cpu, Continue)
    else if exists t :: CanStart(s, cpu, t) then
      ch.Take? && ch.from == cpu && ch.phase == Start && CanStart(s, cpu, ch.tier)
    else
      (ch.Take? ==> ch.phase == Late) && LateChoice(s, cpu, prev, ch)
  }

  /** Index of the first task of a queue that may run on `cpu`, or its length: what move_to_local picks. */
  function FirstAllowed(s: Sys, queue: seq<Task>, cpu: int): (i: nat)
    ensures i <= |queue|
    ensures i < |queue| ==> s.Allows(queue[i], cpu)
    ensures forall j :: 0 <= j < i ==> !s.Allows(queue[j], cpu)
  {
    if queue == [] || s.Allows(queue[0], cpu) then 0 else 1 + FirstAllowed(s, queue[1..], cpu)
  }

  function RemoveAt(queue: seq<Task>, i: nat): seq<Task>
    requires i < |queue|
  {
    queue[..i] + queue[i + 1..]
  }

  /** Moves the first allowed task of a tier queue to the local queue of `cpu`, and stamps the tier it came from. */
  function Move(s: Sys, tier: int, from: int, cpu: int): Sys
    requires s.Shape() && LC <= tier <= GREEDY && s.Cpu(from) && s.Cpu(cpu)
    requires HasWork(s, tier, from, cpu)
  {
    var queue := s.Q(tier, from);
    var i := FirstAllowed(s, queue, cpu);
    var x := queue[i];
    s.(q := s.q[Qid(tier, from) := RemoveAt(queue, i)],
       local := s.local[cpu := s.local[cpu] + [x]],
       loc := s.loc[x := Local(cpu)],
       d := s.d[from := StampHead(s.d[from], tier, s.now)])
  }

  ghost predicate CanTake(s: Sys, cpu: int, ch: Choice)
    requires s.Shape() && s.Cpu(cpu)
  {
    ch.Take? ==> LC <= ch.tier <= GREEDY && s.Cpu(ch.from) && HasWork(s, ch.tier, ch.from, cpu)
  }

  function SettleOverride(d: DispatchCtx, ch: Choice, now: nat): DispatchCtx
  {
    if !ch.Take? || ch.phase == Late then d.(ovLeft := 0)
    else if ch.phase == Start then d.(lastOverride := now, ovTier := ch.tier, ovLeft := OVERRIDE_BUDGET)
    else d
  }

  function Apply(s: Sys, cpu: int, ch: Choice): Sys
    requires s.Shape() && s.Cpu(cpu) && CanTake(s, cpu, ch)
  {
    var s1 := if ch.Take? then Move(s, ch.tier, ch.from, cpu) else s;
    s1.(d := s1.d[cpu := SettleOverride(s1.d[cpu], ch, s.now)])
  }

  // ----- placement -----

  /** Tasks that would run on `cpu` before a newly queued task of `tier`. */
  function Load(s: Sys, cpu: int, tier: int): nat
    requires s.Shape() && s.Cpu(cpu)
  {
    (if s.d[cpu].running <= tier then 1 else if s.rtCurr[cpu] then RT_CPU_LOAD else 0)
    + |s.local[cpu]|
    + |s.Q(LC, cpu)|
    + (if tier >= INTERACTIVE then |s.Q(INTERACTIVE, cpu)| else 0)
    + (if tier >= NORMAL then |s.Q(NORMAL, cpu)| else 0)
    + (if tier >= GREEDY then |s.Q(GREEDY, cpu)| else 0)
  }

  /** The `i`-th cpu of a scan over all of them that starts at a random one. */
  function Rotate(start: nat, i: nat, n: nat): (o: nat)
    requires n > 0
    ensures o < n
  {
    (start + i) % n
  }

  /** The cpus placement compares with, in scan order from rotation index `i` on. */
  function Candidates(s: Sys, x: Task, cpu: int, start: nat, i: nat): (cs: seq<int>)
    requires s.Shape() && s.Cpu(cpu) && start < s.N() && i <= s.N()
    ensures forall k :: 0 <= k < |cs| ==> Peer(s, cpu, cs[k]) && s.Allows(x, cs[k])
    ensures |cs| <= s.N() - i
    decreases s.N() - i
  {
    if i == s.N() then []
    else
      var o := Rotate(start, i, s.N());
      (if Peer(s, cpu, o) && s.Allows(x, o) then [o] else []) + Candidates(s, x, cpu, start, i + 1)
  }

  /** The first of `best` and then `cs` with the smallest load. */
  function LeastLoaded(s: Sys, tier: int, best: int, cs: seq<int>): (r: int)
    requires s.Shape() && s.Cpu(best) && forall k :: 0 <= k < |cs| ==> s.Cpu(cs[k])
    ensures s.Cpu(r)
    decreases |cs|
  {
    if cs == [] then best
    else LeastLoaded(s, tier, if Load(s, cs[0], tier) < Load(s, best, tier) then cs[0] else best, cs[1..])
  }

  function Prefix(cs: seq<int>, n: nat): seq<int> { if n < |cs| then cs[..n] else cs }

  /** The cpu a task is queued on; `idle` is the idle cpu the kernel found for it, or -1. */
  function Pick(s: Sys, x: Task, tier: int, cpu: int, idle: int, start: nat): (r: int)
    requires s.Shape() && s.Cpu(cpu) && x in s.tc && start < s.N()
    requires idle == -1 || s.Cpu(idle)
    ensures s.Cpu(r)
  {
    if Load(s, cpu, tier) == 0 || |s.aff[x]| == 1 then cpu
    else if idle >= 0 then idle
    else if tier > INTERACTIVE && s.now - s.tc[x].lastMigrated < BALANCE_INTERVAL && !s.rtCurr[cpu] then cpu
    else
      LeastLoaded(s, tier, cpu,
                  Prefix(Candidates(s, x, cpu, start, 0), if tier <= INTERACTIVE then s.N() else BALANCE_SAMPLES))
  }

  // ----- task contexts in the callbacks -----

  function ChargeWakeBoost(tc: TaskCtx, used: nat): TaskCtx
  {
    if tc.boost != EMPTY then tc.(boostUsed := tc.boostUsed + used) else tc
  }

  function Account(tc: TaskCtx, run: nat, slept: nat): TaskCtx
  {
    var t := DutyAccount(tc, run, slept);
    t.(duty := TaskDuty(t.runAcc, t.sleepAcc))
  }

  /** dispatch, for a running task that goes on being runnable. */
  function AccountInDispatch(tc: TaskCtx, kthread: bool, preempt: bool, now: nat): TaskCtx
  {
    var used := Elapsed(now, tc.startedAt);
    var t := ChargeWakeBoost(tc, used);
    var t := if !preempt && t.boostUsed >= WAKE_BOOST_BUDGET then t.(boost := EMPTY) else t;
    Classify(Account(t, used, 0).(startedAt := now), kthread, now)
  }

  /** dispatch, when the task keeps the cpu for another slice. */
  function KeepRunning(tc: TaskCtx): TaskCtx
  {
    tc.(boost := if tc.boostUsed >= WAKE_BOOST_BUDGET then EMPTY else tc.boost, granted := SLICE)
  }

  function AccountInStopping(tc: TaskCtx, kthread: bool, preempt: bool, runnable: bool, sliceZero: bool,
                             now: nat): TaskCtx
  {
    var used := Elapsed(now, tc.startedAt);
    var t := Classify(Account(ChargeWakeBoost(tc, used), used, 0), kthread, now);
    var t := if preempt && runnable && sliceZero && t.granted > used + RESUME_SLICE_MIN
             then t.(resume := t.granted - used) else t;
    if t.resume == 0 && (!runnable || t.boostUsed >= WAKE_BOOST_BUDGET) then t.(boost := EMPTY) else t
  }

  function WakeBoost(tc: TaskCtx, wakerTier: int): TaskCtx
  {
    if wakerTier < SanitizeTier(tc.tier) && wakerTier < tc.boost then tc.(boost := wakerTier, boostUsed := 0) else tc
  }

  function Woken(tc: TaskCtx, now: nat): TaskCtx
  {
    tc.(waitInterval := Ewma(tc.waitInterval, ClampInterval(Elapsed(now, tc.lastWoken))), lastWoken := now)
  }

  function WokeAnother(tc: TaskCtx, now: nat): TaskCtx
  {
    tc.(wakeInterval := Ewma(tc.wakeInterval, ClampInterval(Elapsed(now, tc.lastWake))), lastWake := now)
  }

  function AccountSleep(tc: TaskCtx, kthread: bool, now: nat): TaskCtx
  {
    if tc.blockedAt == 0 then tc
    else
      var t := DutyAccount(tc, 0, Elapsed(now, tc.blockedAt));
      Classify(t.(samples := Min(t.samples + 1, DUTY_SAMPLES_MAX), blockedAt := 0,
                  duty := TaskDuty(t.runAcc, t.sleepAcc)), kthread, now)
  }

  function NewTask(kthread: bool, now: nat): TaskCtx
  {
    var t := TaskCtx(GREEDY, EMPTY, 0, 0, DUTY_RANGE / 2, DUTY_INIT_RUN, 0, now, 0, 0, 0, 0,
                     CRIT_INTERVAL_REF, CRIT_INTERVAL_REF, now, now, 0);
    if !kthread then t
    else t.(runAcc := KTHREAD_INIT_RUN, sleepAcc := DUTY_WINDOW - KTHREAD_INIT_RUN, samples := DUTY_SAMPLES_NEEDED,
            duty := TaskDuty(KTHREAD_INIT_RUN, DUTY_WINDOW - KTHREAD_INIT_RUN), tier := INTERACTIVE)
  }

  // ----- events -----

  /** What happens to the scheduler. A waker is the task in whose context a wakeup runs; None when it runs in an
      interrupt or in the idle task. */
  datatype Event =
    | Tick(dt: nat)
    | InitTask(x: Task, kthread: bool, cpus: set<int>)
    | SetAffinity(x: Task, cpus: set<int>)
    | SelectCpu(x: Task, ttwu: bool, waker: Option<Task>, cpu: int, idle: bool)
    | Runnable(x: Task, wakeup: bool, waker: Option<Task>)
    | InsertDirect(x: Task)
    | Enqueue(x: Task, cpu: int, wakeup: bool, waker: Option<Task>, idleCpu: int, start: nat)
    | Dispatch(cpu: int, prev: Option<Task>, ch: Choice)
    | Run(x: Task, cpu: int, slice: nat)
    | Stopping(x: Task, cpu: int, runnable: bool, sliceZero: bool)
    | Quiescent(x: Task, sleep: bool)
    | SetCurrent(cpu: int, rt: bool)
    | SchedSwitch(cpu: int)

  /** apply_wake_boost: a user task other than `x` lends its tier. */
  function Boosted(s: Sys, x: Task, waker: Option<Task>): TaskCtx
    requires x in s.tc
  {
    if waker.Some? && waker.value != x && waker.value !in s.kthreads && waker.value in s.tc
    then WakeBoost(s.tc[x], EffectiveTier(s.tc[waker.value]))
    else s.tc[x]
  }

  function SelectCpuStep(s: Sys, x: Task, ttwu: bool, waker: Option<Task>, cpu: int, idle: bool): Sys
    requires s.Shape() && x in s.tc && s.Cpu(cpu)
  {
    var tc := if ttwu then Boosted(s, x, waker) else s.tc[x];
    var direct := if idle && Load(s, cpu, EffectiveTier(tc)) == 0 then cpu else -1;
    s.(tc := s.tc[x := tc], loc := s.loc[x := Waking(direct)])
  }

  function RunnableStep(s: Sys, x: Task, wakeup: bool, waker: Option<Task>): Sys
    requires x in s.tc && x in s.loc
  {
    var direct := if s.loc[x].Waking? then s.loc[x].direct else -1;
    var tc1 := if wakeup then s.tc[x := Woken(s.tc[x], s.now)] else s.tc;
    var tc2 := if wakeup && waker.Some? && waker.value != x && waker.value in tc1
               then tc1[waker.value := WokeAnother(tc1[waker.value], s.now)] else tc1;
    s.(tc := tc2[x := AccountSleep(tc2[x], x in s.kthreads, s.now)], loc := s.loc[x := Ready(direct)])
  }

  /** Puts a ready task into a tier queue, stamping a tier other than LC that was empty. */
  function Insert(s: Sys, x: Task, tier: int, cpu: int, atHead: bool): Sys
    requires s.Shape() && LC <= tier <= GREEDY && s.Cpu(cpu)
  {
    var queue := s.Q(tier, cpu);
    s.(q := s.q[Qid(tier, cpu) := if atHead then [x] + queue else queue + [x]],
       loc := s.loc[x := Queued(Qid(tier, cpu))],
       d := if queue == [] then s.d[cpu := StampHead(s.d[cpu], tier, s.now)] else s.d)
  }

  /** Queues a task on the cpu placement picked, or on its own when that one is offline. */
  function PlaceOn(s: Sys, x: Task, tier: int, cpu: int, wakeup: bool, pick: int): Sys
    requires s.Shape() && x in s.tc && s.Cpu(cpu) && s.Cpu(pick) && LC <= tier <= GREEDY
  {
    var target := if s.Online(pick) then pick else cpu;
    var s2 := if pick != cpu then s.(tc := s.tc[x := s.tc[x].(lastMigrated := s.now)]) else s;
    var s3 := Insert(s2, x, tier, target, false);
    var running := s3.d[target].running;
    if running != EMPTY && tier == LC && wakeup && running > tier
    then s3.(d := s3.d[target := s3.d[target].(preempt := true)]) else s3
  }

  function EnqueueStep(s: Sys, x: Task, cpu: int, wakeup: bool, waker: Option<Task>, idleCpu: int, start: nat): Sys
    requires s.Shape() && x in s.tc && s.Cpu(cpu) && start < s.N() && (idleCpu == -1 || s.Cpu(idleCpu))
    requires var tc := if wakeup then Boosted(s, x, waker) else s.tc[x]; LC <= EffectiveTier(tc) <= GREEDY
  {
    var tc := if wakeup then Boosted(s, x, waker) else s.tc[x];
    var tier := EffectiveTier(tc);
    var s1 := s.(tc := s.tc[x := tc.(resume := 0)]);
    if tc.resume > 0 && !s.rtCurr[cpu] then Insert(s1, x, tier, cpu, true)
    else PlaceOn(s1, x, tier, cpu, wakeup, Pick(s1, x, tier, cpu, idleCpu, start))
  }

  /** lunar_dispatch up to the decision: prev is charged and reclassified. */
  function AccountPrev(s: Sys, cpu: int, prev: Option<Task>): Sys
    requires s.Shape() && s.Cpu(cpu) && (prev.Some? ==> prev.value in s.tc)
  {
    if prev.None? then s
    else
      var tc := s.tc[prev.value];
      s.(d := s.d[cpu := ChargeOverride(s.d[cpu], EffectiveTier(tc), Elapsed(s.now, tc.startedAt))],
         tc := s.tc[prev.value := AccountInDispatch(tc, prev.value in s.kthreads, s.d[cpu].preempt, s.now)])
  }

  function PrevTier(s: Sys, prev: Option<Task>): int
    requires prev.Some? ==> prev.value in s.tc
  {
    if prev.None? then EMPTY else EffectiveTier(s.tc[prev.value])
  }

  function KeepPrev(s: Sys, cpu: int, prev: Option<Task>): Sys
    requires s.Shape() && s.Cpu(cpu) && (prev.Some? ==> prev.value in s.tc)
  {
    if prev.None? then s
    else
      var tc := KeepRunning(s.tc[prev.value]);
      s.(tc := s.tc[prev.value := tc], d := s.d[cpu := s.d[cpu].(running := EffectiveTier(tc), preempt := false)])
  }

  function DispatchStep(s: Sys, cpu: int, prev: Option<Task>, ch: Choice): Sys
    requires s.Shape() && s.Cpu(cpu) && (prev.Some? ==> prev.value in s.tc)
    requires CanTake(AccountPrev(s, cpu, prev), cpu, ch)
  {
    var s1 := Apply(AccountPrev(s, cpu, prev), cpu, ch);
    if ch == Keep then KeepPrev(s1, cpu, prev) else s1
  }

  function RunStep(s: Sys, x: Task, cpu: int, slice: nat): Sys
    requires s.Shape() && s.Cpu(cpu) && x in s.tc && s.local[cpu] != []
  {
    s.(local := s.local[cpu := s.local[cpu][1..]],
       loc := s.loc[x := Running(cpu)],
       tc := s.tc[x := s.tc[x].(startedAt := s.now, granted := slice)],
       d := s.d[cpu := s.d[cpu].(running := EffectiveTier(s.tc[x]), preempt := false)])
  }

  function StoppingStep(s: Sys, x: Task, cpu: int, runnable: bool, sliceZero: bool): Sys
    requires s.Shape() && s.Cpu(cpu) && x in s.tc
  {
    var tc, d := s.tc[x], s.d[cpu];
    s.(loc := s.loc[x := if runnable then Ready(-1) else Stopped],
       tc := s.tc[x := AccountInStopping(tc, x in s.kthreads, d.preempt, runnable, sliceZero, s.now)],
       d := s.d[cpu := ChargeOverride(d, EffectiveTier(tc), Elapsed(s.now, tc.startedAt))
                       .(preempt := false, running := EMPTY)])
  }

  function Without(queue: seq<Task>, x: Task): (r: seq<Task>)
    ensures x !in queue ==> r == queue
  {
    if queue == [] then [] else if queue[0] == x then queue[1..] else [queue[0]] + Without(queue[1..], x)
  }

  /** The kernel takes the task off whatever queue it waits in, then calls quiescent. */
  function QuiescentStep(s: Sys, x: Task, sleep: bool): Sys
    requires s.Shape() && x in s.tc
    requires s.loc[x].Queued? ==> s.loc[x].qid in s.q
    requires s.loc[x].Local? ==> s.Cpu(s.loc[x].cpu)
  {
    var l := s.loc[x];
    s.(q := if l.Queued? then s.q[l.qid := Without(s.q[l.qid], x)] else s.q,
       local := if l.Local? then s.local[l.cpu := Without(s.local[l.cpu], x)] else s.local,
       loc := s.loc[x := Asleep],
       tc := s.tc[x := s.tc[x].(resume := 0, boost := EMPTY, blockedAt := if sleep then s.now else 0)])
  }

  /** The sched_switch hook; when an RT task takes the cpu, the tasks of its local queue go back through enqueue. */
  function SchedSwitchStep(s: Sys, cpu: int): Sys
    requires s.Shape() && s.Cpu(cpu)
  {
    var rt := s.rtCurr[cpu];
    var nrRt := if rt == s.d[cpu].rtBusy then s.nrRt else if rt then s.nrRt + 1 else Dec(s.nrRt);
    var s1 := s.(d := s.d[cpu := s.d[cpu].(rtBusy := rt)], nrRt := nrRt);
    if !rt then s1
    else s1.(local := s1.local[cpu := []],
             loc := map x | x in s1.loc :: if s1.loc[x] == Local(cpu) then Ready(-1) else s1.loc[x])
  }

  function Dec(n: nat): nat { if n == 0 then 0xFFFF_FFFF_FFFF_FFFF else n - 1 }

  ghost predicate Enabled(s: Sys, e: Event)
    requires s.Shape()
  {
    match e
    case Tick(_) => true
    case InitTask(x, _, _) => x !in s.tc
    case SetAffinity(x, _) => x in s.tc && !s.loc[x].Queued?
    case SelectCpu(x, _, _, cpu, _) => x in s.tc && s.loc[x] == Asleep && s.Cpu(cpu)
    case Runnable(x, _, _) => x in s.tc && (s.loc[x] == Asleep || s.loc[x].Waking?)
    case InsertDirect(x) => x in s.tc && s.loc[x].Ready? && s.Cpu(s.loc[x].direct)
    case Enqueue(x, cpu, wakeup, waker, idleCpu, start) =>
      && x in s.tc && s.loc[x] == Ready(-1) && s.Online(cpu) && cpu in s.aff[x]
      && start < s.N() && (idleCpu == -1 || (s.Cpu(idleCpu) && idleCpu in s.aff[x]))
    case Dispatch(cpu, prev, ch) =>
      && s.Cpu(cpu) && (prev.Some? ==> prev.value in s.tc && s.loc[prev.value] == Running(cpu))
      && var s1 := AccountPrev(s, cpu, prev);
         GoodChoice(s1, cpu, PrevTier(s1, prev), ch)
    case Run(x, cpu, _) => x in s.tc && s.Cpu(cpu) && s.local[cpu] != [] && s.local[cpu][0] == x
    case Stopping(x, cpu, _, _) => x in s.tc && s.Cpu(cpu) && s.loc[x] == Running(cpu)
    case Quiescent(x, _) => x in s.tc && !s.loc[x].Running?
    case SetCurrent(cpu, _) => s.Cpu(cpu)
    case SchedSwitch(cpu) => s.Cpu(cpu)
  }
}

/** The order in which tasks wait in a tier queue, over whole runs: the order of arrival, but for those that come back
    to resume their slice, who go to the front. */
module QueueOrder {
  import opened Options
  import opened Defs
  import opened Accounting
  import opened Classifier
  import opened Machine
  import opened Invariant
  import opened Preservation
  import opened LoadLaws
  import opened Starvation
  import opened Dispatching

  // ----- how one task joins -----

  /** The queue of `k` with the newcomer of enqueue event `e`. */
  ghost predicate Joins(s: Sys, e: Event, s': Sys, k: Qid)
    requires e.Enqueue? && e.x in s.tc && 0 <= e.cpu < |s.rtCurr|
  {
    && k in s.q && e.x in s'.loc && s'.loc[e.x] == Queued(k)
    && s'.q == s.q[k := if Resumes(s, e) then [e.x] + s.q[k] else s.q[k] + [e.x]]
    && (Resumes(s, e) ==> k.cpu == e.cpu)
  }

  lemma InsertJoins(s: Sys, s1: Sys, e: Event, tier: int, cpu: int)
    requires e.Enqueue? && e.x in s.tc && s1.Shape() && s1.Cpu(cpu) && LC <= tier <= GREEDY && s1.q == s.q
    requires 0 <= e.cpu < |s.rtCurr| && (Resumes(s, e) ==> cpu == e.cpu)
    ensures Joins(s, e, Insert(s1, e.x, tier, cpu, Resumes(s, e)), Qid(tier, cpu))
  {
  }

  lemma PlaceOnJoins(s: Sys, s1: Sys, e: Event, tier: int, pick: int) returns (k: Qid)
    requires e.Enqueue? && e.x in s.tc && e.x in s1.tc && s1.Shape() && s1.Cpu(e.cpu) && s1.Cpu(pick)
             && LC <= tier <= GREEDY
    requires s1.q == s.q && 0 <= e.cpu < |s.rtCurr| && !Resumes(s, e)
    ensures Joins(s, e, PlaceOn(s1, e.x, tier, e.cpu, e.wakeup, pick), k) && k.tier == tier
  {
    var target := if s1.Online(pick) then pick else e.cpu;
    var s2 := if pick != e.cpu then s1.(tc := s1.tc[e.x := s1.tc[e.x].(lastMigrated := s1.now)]) else s1;
    k := Qid(tier, target);
    InsertJoins(s, s2, e, tier, target);
  }

  /** Enqueue puts its task into one queue: that of its tier, at the end; or at the front, on the cpu it comes back to,
      if it resumes its slice. */
  lemma EnqueueJoins(s: Sys, e: Event) returns (k: Qid)
    requires Inv(s) && e.Enqueue? && Enabled(s, e)
    ensures Joins(s, e, Next(s, e), k)
  {
    BoostedOk(s, e.x, e.waker);
    var tc := if e.wakeup then Boosted(s, e.x, e.waker) else s.tc[e.x];
    SetTask(s, e.x, tc.(resume := 0));
    k := StepJoins(s, e, tc, s.(tc := s.tc[e.x := tc.(resume := 0)]));
  }

  lemma StepJoins(s: Sys, e: Event, tc: TaskCtx, s1: Sys) returns (k: Qid)
    requires e.Enqueue? && s.Shape() && e.x in s.tc && s.Cpu(e.cpu) && e.start < s.N()
             && (e.idleCpu == -1 || s.Cpu(e.idleCpu))
    requires tc == (if e.wakeup then Boosted(s, e.x, e.waker) else s.tc[e.x]) && LC <= EffectiveTier(tc) <= GREEDY
    requires tc.resume == s.tc[e.x].resume && s1 == s.(tc := s.tc[e.x := tc.(resume := 0)]) && s1.Shape()
    ensures Joins(s, e, EnqueueStep(s, e.x, e.cpu, e.wakeup, e.waker, e.idleCpu, e.start), k)
  {
    var tier := EffectiveTier(tc);
    if Resumes(s, e) {
      k := Qid(tier, e.cpu);
      InsertJoins(s, s1, e, tier, e.cpu);
    } else {
      k := PlaceOnJoins(s, s1, e, tier, Pick(s1, e.x, tier, e.cpu, e.idleCpu, e.start));
    }
  }

  // ----- how tasks leave -----

  /** At most one task has left one of the queues, and none has joined. */
  ghost predicate Leaves(q: map<Qid, seq<Task>>, q': map<Qid, seq<Task>>)
  {
    q' == q || exists k, i :: k in q && 0 <= i < |q[k]| && q' == q[k := q[k][..i] + q[k][i + 1..]]
  }

  lemma DispatchLeaves(s: Sys, e: Event)
    requires Inv(s) && Enabled(s, e) && e.Dispatch?
    ensures Leaves(s.q, Next(s, e).q)
  {
    var s1, s2 := DispatchParts(s, e, Next(s, e), e.cpu);
    if e.ch.Take? {
      TakesTheFirst(s1, e.cpu, e.ch);
    }
  }

  lemma QuiescentLeaves(s: Sys, e: Event)
    requires Inv(s) && Enabled(s, e) && e.Quiescent?
    ensures Leaves(s.q, Next(s, e).q)
  {
    assert Next(s, e) == QuiescentStep(s, e.x, e.sleep);
    if s.loc[e.x].Queued? {
      var k := s.loc[e.x].qid;
      var i := WithoutRemoves(s.q[k], e.x);
      assert Next(s, e).q == s.q[k := s.q[k][..i] + s.q[k][i + 1..]];
    }
  }

  lemma OthersLeave(s: Sys, e: Event)
    requires Inv(s) && Enabled(s, e) && !e.Enqueue?
    ensures Leaves(s.q, Next(s, e).q)
  {
    if e.Dispatch? {
      DispatchLeaves(s, e);
    } else if e.Quiescent? {
      QuiescentLeaves(s, e);
    } else if e.Stopping? {
      StoppingKeepsTiers(s, e.x, e.cpu, e.runnable, e.sliceZero, 0);
    } else {
      OthersKeepTiers(s, e, 0);
    }
  }

  // ----- ranks -----

  /** Where a task stands among those that wait with it: after all that came before it, or before them. */
  ghost function Rank(states: seq<Sys>, events: seq<Event>, n: nat, x: Task): int
    requires n <= |events| <= |states|
  {
    if n == 0 then 0
    else if Came(states, events, n - 1, x) then (if CameToResume(states, events, n - 1) then 0 - n else n)
    else Rank(states, events, n - 1, x)
  }

  /** Event `i` is an enqueue of `x`. */
  predicate Came(states: seq<Sys>, events: seq<Event>, i: nat, x: Task)
    requires i < |events| <= |states|
  {
    events[i].Enqueue? && events[i].x == x
  }

  predicate CameToResume(states: seq<Sys>, events: seq<Event>, i: nat)
    requires i < |events| <= |states| && events[i].Enqueue?
  {
    var s, e := states[i], events[i];
    e.x in s.tc && 0 <= e.cpu < |s.rtCurr| && Resumes(s, e)
  }

  lemma {:induction false} RankRange(states: seq<Sys>, events: seq<Event>, n: nat, x: Task)
    requires n <= |events| <= |states|
    ensures 0 - n <= Rank(states, events, n, x) <= n
  {
    if n > 0 { RankRange(states, events, n - 1, x); }
  }

  ghost predicate Sorted(queue: seq<Task>, r: Task -> int)
  {
    forall i, j :: 0 <= i < j < |queue| ==> r(queue[i]) < r(queue[j])
  }

  ghost predicate AllSorted(q: map<Qid, seq<Task>>, r: Task -> int) { forall k :: k in q ==> Sorted(q[k], r) }

  lemma LeavingKeepsSorted(q: map<Qid, seq<Task>>, q': map<Qid, seq<Task>>, r: Task -> int)
    requires AllSorted(q, r) && Leaves(q, q')
    ensures AllSorted(q', r)
  {
    if q' != q {
      var k, i :| k in q && 0 <= i < |q[k]| && q' == q[k := q[k][..i] + q[k][i + 1..]];
      assert Sorted(q[k], r);
      RestIsSorted(q[k], i, r);
    }
  }

  lemma RestIsSorted(queue: seq<Task>, i: nat, r: Task -> int)
    requires i < |queue| && Sorted(queue, r)
    ensures Sorted(queue[..i] + queue[i + 1..], r)
  {
    var rest := queue[..i] + queue[i + 1..];
    assert forall j :: 0 <= j < |rest| ==> rest[j] == queue[if j < i then j else j + 1];
  }

  lemma JoiningKeepsSorted(queue: seq<Task>, x: Task, front: bool, r: Task -> int, r': Task -> int, n: nat)
    requires Sorted(queue, r) && x !in queue && forall y :: y in queue ==> 0 - n <= r(y) <= n && r'(y) == r(y)
    requires r'(x) == if front then 0 - (n + 1) else n + 1
    ensures Sorted(if front then [x] + queue else queue + [x], r')
  {
    var queue' := if front then [x] + queue else queue + [x];
    forall i, j | 0 <= i < j < |queue'| ensures r'(queue'[i]) < r'(queue'[j]) {
      var i0, j0 := if front then i - 1 else i, if front then j - 1 else j;
      if 0 <= i0 && j0 < |queue| { assert r(queue[i0]) < r(queue[j0]); }
    }
  }

  // ----- whole runs -----

  ghost function RankAt(states: seq<Sys>, events: seq<Event>, n: nat): Task -> int
    requires n <= |events| <= |states|
  {
    (x: Task) => if n <= |events| <= |states| then Rank(states, events, n, x) else 0
  }

  lemma EnqueueKeepsSorted(s: Sys, e: Event, s': Sys, r: Task -> int, r': Task -> int, n: nat)
    requires Inv(s) && Follows(s, e, s') && e.Enqueue? && AllSorted(s.q, r)
    requires forall y :: 0 - n <= r(y) <= n && (y != e.x ==> r'(y) == r(y))
    requires r'(e.x) == if Resumes(s, e) then 0 - (n + 1) else n + 1
    ensures AllSorted(s'.q, r')
  {
    var k := EnqueueJoins(s, e);
    NotYetThere(s, e.x);
    forall k' | k' in s'.q ensures Sorted(s'.q[k'], r') {
      assert Sorted(s.q[k'], r) && e.x !in s.q[k'];
      if k' == k { JoiningKeepsSorted(s.q[k], e.x, Resumes(s, e), r, r', n); } else { SortedAlike(s.q[k'], r, r'); }
    }
  }

  lemma NotYetThere(s: Sys, x: Task)
    requires Inv(s) && x in s.loc && s.loc[x] == Ready(-1)
    ensures forall k :: k in s.q ==> x !in s.q[k]
  {
  }

  lemma SortedAlike(queue: seq<Task>, r: Task -> int, r': Task -> int)
    requires Sorted(queue, r) && forall y :: y in queue ==> r'(y) == r(y)
    ensures Sorted(queue, r')
  {
  }

  lemma OthersKeepSorted(s: Sys, e: Event, s': Sys, r: Task -> int, r': Task -> int)
    requires Inv(s) && Follows(s, e, s') && !e.Enqueue? && AllSorted(s.q, r) && forall y :: r'(y) == r(y)
    ensures AllSorted(s'.q, r')
  {
    OthersLeave(s, e);
    LeavingKeepsSorted(s.q, s'.q, r);
    forall k | k in s'.q ensures Sorted(s'.q[k], r') { SortedAlike(s'.q[k], r, r'); }
  }

  lemma RanksMove(states: seq<Sys>, events: seq<Event>, n: nat, r: Task -> int, r': Task -> int)
    requires n < |events| < |states| && r == RankAt(states, events, n) && r' == RankAt(states, events, n + 1)
    ensures forall y :: 0 - n <= r(y) <= n && (!Came(states, events, n, y) ==> r'(y) == r(y))
    ensures events[n].Enqueue? ==> r'(events[n].x) == if CameToResume(states, events, n) then 0 - (n + 1) else n + 1
  {
    forall y ensures 0 - n <= r(y) <= n && (!Came(states, events, n, y) ==> r'(y) == r(y)) {
      RankRange(states, events, n, y);
    }
  }

  lemma NextKeepsSorted(states: seq<Sys>, events: seq<Event>, n: nat, s: Sys, e: Event, s': Sys)
    requires n < |events| < |states| && s == states[n] && e == events[n] && Inv(s) && Follows(s, e, s')
    requires AllSorted(s.q, RankAt(states, events, n))
    ensures AllSorted(s'.q, RankAt(states, events, n + 1))
  {
    var r, r' := RankAt(states, events, n), RankAt(states, events, n + 1);
    RanksMove(states, events, n, r, r');
    if e.Enqueue? { EnqueueKeepsSorted(s, e, s', r, r', n); } else { OthersKeepSorted(s, e, s', r, r'); }
  }

  lemma StepOfRun(states: seq<Sys>, events: seq<Event>, n: nat)
    requires IsRun(states, events) && n < |events|
    ensures Inv(states[n]) && Follows(states[n], events[n], states[n + 1])
  {
    RunsKeepInv(states, events);
  }

  lemma SortedNext(states: seq<Sys>, events: seq<Event>, n: nat)
    requires IsRun(states, events) && n < |events| && AllSorted(states[n].q, RankAt(states, events, n))
    ensures AllSorted(states[n + 1].q, RankAt(states, events, n + 1))
  {
    StepOfRun(states, events, n);
    NextKeepsSorted(states, events, n, states[n], events[n], states[n + 1]);
  }

  lemma SortedAtFirst(s: Sys, r: Task -> int)
    requires s.topo.Valid() && s == InitialSys(s.topo, s.now)
    ensures AllSorted(s.q, r)
  {
  }

  lemma {:induction false} QueuesAreSorted(states: seq<Sys>, events: seq<Event>, n: nat)
    requires IsRun(states, events) && n < |states|
    ensures AllSorted(states[n].q, RankAt(states, events, n))
    decreases n
  {
    if n == 0 {
      SortedAtFirst(states[0], RankAt(states, events, 0));
    } else {
      QueuesAreSorted(states, events, n - 1);
      SortedNext(states, events, n - 1);
    }
  }

  /** Event `i` is the last enqueue of `x` before state `n`. */
  ghost predicate LastCame(states: seq<Sys>, events: seq<Event>, i: nat, n: nat, x: Task)
    requires i < n <= |events| <= |states|
  {
    Came(states, events, i, x) && forall j :: i < j < n ==> !Came(states, events, j, x)
  }

  lemma {:induction false} LastRank(states: seq<Sys>, events: seq<Event>, i: nat, n: nat, x: Task)
    requires i < n <= |events| <= |states| && LastCame(states, events, i, n, x)
    ensures Rank(states, events, n, x) == if CameToResume(states, events, i) then 0 - (i + 1) else i + 1
    decreases n
  {
    if n > i + 1 { LastRank(states, events, i, n - 1, x); }
  }

  /** Of two tasks that wait in one queue, the one that came last stands behind the other; but if it came back to resume
      its slice, before it. */
  lemma OrderOfArrival(states: seq<Sys>, events: seq<Event>, n: nat, k: Qid, i: nat, j: nat, x: Task, y: Task, a: nat,
                       b: nat)
    requires IsRun(states, events) && i < j < n < |states| && k in states[n].q
    requires a < |states[n].q[k]| && b < |states[n].q[k]| && states[n].q[k][a] == x && states[n].q[k][b] == y && x != y
    requires LastCame(states, events, i, n, x) && LastCame(states, events, j, n, y)
    ensures if CameToResume(states, events, j) then b < a else a < b
  {
    QueuesAreSorted(states, events, n);
    LastRank(states, events, i, n, x);
    LastRank(states, events, j, n, y);
    var r := RankAt(states, events, n);
    assert Sorted(states[n].q[k], r);
    assert r(x) == Rank(states, events, n, x) && r(y) == Rank(states, events, n, y);
    assert a < b ==> r(x) < r(y);
    assert b < a ==> r(y) < r(x);
  }

  /** First come, first served: when a dispatch takes one of two tasks that wait in one queue, and the other came before
      it, and it has not come back to resume its slice, then the other may not run on that cpu. */
  lemma FirstComeFirstServed(states: seq<Sys>, events: seq<Event>, n: nat, i: nat, j: nat, x: Task, y: Task)
    requires IsRun(states, events) && i < j < n < |events| && events[n].Dispatch?
    requires x in states[n].loc && y in states[n].loc && states[n].loc[x] == states[n].loc[y]
             && states[n].loc[x].Queued? && x != y
    requires LastCame(states, events, i, n, x) && LastCame(states, events, j, n, y) && !CameToResume(states, events, j)
    requires y in states[n + 1].loc && states[n + 1].loc[y].Local?
    ensures !states[n].Allows(x, events[n].cpu)
  {
    StepOfRun(states, events, n);
    var s, k := states[n], states[n].loc[x].qid;
    var a :| 0 <= a < |s.q[k]| && s.q[k][a] == x;
    var b :| 0 <= b < |s.q[k]| && s.q[k][b] == y;
    OrderOfArrival(states, events, n, k, i, j, x, y, a, b);
    assert Follows(s, events[n], states[n + 1]);
    FirstIsTaken(s, events[n], k, a, b);
  }

  /** Dispatch takes nobody with somebody before it that it could have taken. */
  lemma FirstIsTaken(s: Sys, e: Event, k: Qid, a: nat, b: nat)
    requires Inv(s) && Enabled(s, e) && e.Dispatch? && k in s.q && a < b < |s.q[k]|
    requires s.q[k][b] in Next(s, e).loc && Next(s, e).loc[s.q[k][b]].Local?
    ensures !s.Allows(s.q[k][a], e.cpu)
  {
    var s1 := Decided(s, e);
    TakenByApply(s1, e.cpu, e.ch, k, a, b);
  }

  /** The state in which dispatch decides. */
  lemma Decided(s: Sys, e: Event) returns (s1: Sys)
    requires Inv(s) && Enabled(s, e) && e.Dispatch?
    ensures Inv(s1) && s1.Cpu(e.cpu) && CanTake(s1, e.cpu, e.ch) && Next(s, e).loc == Apply(s1, e.cpu, e.ch).loc
    ensures s1.q == s.q && s1.loc == s.loc && s1.aff == s.aff
  {
    AccountPrevKeepsInv(s, e.cpu, e.prev);
    s1 := AccountPrev(s, e.cpu, e.prev);
    GoodChoiceCanTake(s1, e.cpu, PrevTier(s1, e.prev), e.ch);
    DispatchedPlaces(s, s1, e.cpu, e.prev, e.ch);
  }

  lemma DispatchedPlaces(s: Sys, s1: Sys, cpu: int, prev: Option<Task>, ch: Choice)
    requires s.Shape() && s.Cpu(cpu) && (prev.Some? ==> prev.value in s.tc) && s1 == AccountPrev(s, cpu, prev)
    requires s1.Shape() && CanTake(s1, cpu, ch)
    ensures s1.q == s.q && s1.loc == s.loc && s1.aff == s.aff
            && DispatchStep(s, cpu, prev, ch).loc == Apply(s1, cpu, ch).loc
  {
  }

  lemma TakenByApply(s: Sys, cpu: int, ch: Choice, k: Qid, a: nat, b: nat)
    requires Inv(s) && s.Cpu(cpu) && CanTake(s, cpu, ch) && k in s.q && a < b < |s.q[k]|
    requires s.q[k][b] in Apply(s, cpu, ch).loc && Apply(s, cpu, ch).loc[s.q[k][b]].Local?
    ensures !s.Allows(s.q[k][a], cpu)
  {
    var y := s.q[k][b];
    assert s.loc[y] == Queued(k);
    if ch.Take? {
      TakesTheFirst(s, cpu, ch);
      var k0 := Qid(ch.tier, ch.from);
      var i := FirstAllowed(s, s.q[k0], cpu);
      assert s.loc[s.q[k0][i]] == Queued(k0);
      assert s.q[k0][i] == y;
    }
  }
}

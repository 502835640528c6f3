/** An override that has started goes on until its budget is spent, over whole runs. */
module OverrideLaws {
  import opened Options
  import opened Defs
  import opened Classifier
  import opened Machine
  import opened Invariant
  import opened Preservation
  import opened Dispatching
  import opened Starvation
  import opened OverrideRuns

  /** An LC task waits on the cpu, or on a peer that an RT task has taken, and may run here. */
  ghost predicate LcWaits(s: Sys, c: int)
    requires s.Shape() && s.Cpu(c)
  {
    RtWork(s, c, LC) || OwnWork(s, c, LC)
  }

  /** The cpu time of a task of tier `t` that the event accounts for on `c`. */
  function Spent(s: Sys, e: Event, c: int, t: int): nat
  {
    var x := Accounted(e, c);
    if x.Some? && x.value in s.tc && EffectiveTier(s.tc[x.value]) == t then Elapsed(s.now, s.tc[x.value].startedAt)
      else 0
  }

  /** An override for tier `t` is in progress on `c`, with so much of its budget left. */
  predicate InProgress(s: Sys, c: int, t: int, left: nat)
    requires 0 <= c < |s.d|
  {
    s.d[c].ovTier == t && s.d[c].ovLeft == left
  }

  /** How an event on any cpu leaves the override of `c`: it starts one, or keeps its tier and charges the event's cpu
      time to it; or it is a dispatch on `c` that ends it. */
  ghost predicate Moves(s: Sys, e: Event, s': Sys, c: int)
    requires 0 <= c < |s.d|
  {
    0 <= c < |s'.d| &&
    if StartedOn(e, c) != 0 then InProgress(s', c, StartedOn(e, c), OVERRIDE_BUDGET)
    else
      var t := s.d[c].ovTier;
      InProgress(s', c, t, Elapsed(s.d[c].ovLeft, Spent(s, e, c, t)))
        || (e.Dispatch? && e.cpu == c && InProgress(s', c, t, 0))
  }

  lemma ChargedIsSpent(s: Sys, e: Event, c: int)
    requires s.Shape() && s.Cpu(c) && Enabled(s, e)
    ensures Elapsed(s.d[c].ovLeft, Charged(s, e, c)) == Elapsed(s.d[c].ovLeft, Spent(s, e, c, s.d[c].ovTier))
  {
  }

  lemma DispatchMoves(s: Sys, e: Event, s': Sys, c: int)
    requires Inv(s) && Follows(s, e, s') && e.Dispatch? && s.Cpu(c)
    ensures Moves(s, e, s', c)
  {
    ChargedIsSpent(s, e, c);
    DispatchLeavesOverride(s, e, s', c);
    if e.cpu != c { DispatchElsewhere(s, e, s', c); }
  }

  /** A dispatch on another cpu leaves the override of `c` alone. */
  lemma DispatchElsewhere(s: Sys, e: Event, s': Sys, c: int)
    requires Inv(s) && Follows(s, e, s') && e.Dispatch? && s.Cpu(c) && e.cpu != c
    ensures |s'.d| == |s.d| && s'.d[c].ovLeft == s.d[c].ovLeft
  {
    var s1, s2 := DispatchParts(s, e, s', c);
    ApplyElsewhere(s1, e.cpu, e.ch, c);
  }

  lemma ApplyElsewhere(s: Sys, cpu: int, ch: Choice, c: int)
    requires s.Shape() && s.Cpu(cpu) && s.Cpu(c) && CanTake(s, cpu, ch) && c != cpu
    ensures |Apply(s, cpu, ch).d| == |s.d| && Apply(s, cpu, ch).d[c].ovLeft == s.d[c].ovLeft
  {
  }

  lemma EveryEventMoves(s: Sys, e: Event, s': Sys, c: int)
    requires Inv(s) && Follows(s, e, s') && s.Cpu(c) && s'.Shape()
    ensures Moves(s, e, s', c)
  {
    if e.Dispatch? {
      DispatchMoves(s, e, s', c);
    } else {
      ChargedIsSpent(s, e, c);
      if e.Stopping? { StoppingUndisturbs(s, e, c); } else { OthersMove(s, e, s', c); }
    }
  }

  lemma OthersMove(s: Sys, e: Event, s': Sys, c: int)
    requires Inv(s) && Follows(s, e, s') && s.Cpu(c) && !e.Dispatch? && !e.Stopping? && s'.Shape()
    ensures Undisturbed(s, s', c) && s'.d[c].ovLeft == s.d[c].ovLeft
  {
    if e.Enqueue? {
      EnqueueUndisturbs(s, e, c);
    } else if e.Quiescent? {
      QuiescentUndisturbs(s, e, c);
    } else {
      OthersUndisturb(s, e, c);
    }
  }

  // ----- a dispatch while an override is in progress -----

  /** Two states in which dispatch finds the same LC work. */
  ghost predicate SameWork(s: Sys, s1: Sys)
    requires s.Shape() && s1.Shape()
  {
    && s1.topo == s.topo && s1.q == s.q && s1.aff == s.aff && s1.rtCurr == s.rtCurr && s1.nrRt == s.nrRt
    && forall o :: s.Cpu(o) ==> s1.d[o].rtBusy == s.d[o].rtBusy
  }

  lemma SameLc(s: Sys, s1: Sys, cpu: int)
    requires s.Shape() && s1.Shape() && SameWork(s, s1) && s.Cpu(cpu)
    ensures LcWaits(s1, cpu) <==> LcWaits(s, cpu)
  {
    forall from | s.Cpu(from)
      ensures (HasWork(s1, LC, from, cpu) <==> HasWork(s, LC, from, cpu))
              && (RtPeer(s1, cpu, from) <==> RtPeer(s, cpu, from))
    {
      assert s1.Q(LC, from) == s.Q(LC, from) && forall x :: s1.Allows(x, cpu) == s.Allows(x, cpu);
    }
    assert forall o :: RtPeer(s1, cpu, o) && HasWork(s1, LC, o, cpu) <==> RtPeer(s, cpu, o) && HasWork(s, LC, o, cpu);
  }

  /** What charging prev changes, and what it leaves of the override. */
  lemma AccountSpends(s: Sys, s1: Sys, cpu: int, prev: Option<Task>, e: Event)
    requires s.Shape() && s.Cpu(cpu) && (prev.Some? ==> prev.value in s.tc) && s1 == AccountPrev(s, cpu, prev)
             && s1.Shape()
    requires e.Dispatch? && e.cpu == cpu && e.prev == prev
    ensures SameWork(s, s1) && s1.d[cpu].ovTier == s.d[cpu].ovTier
    ensures s1.d[cpu].ovLeft == Elapsed(s.d[cpu].ovLeft, Spent(s, e, cpu, s.d[cpu].ovTier))
  {
  }

  /** The decision of a dispatch that finds an override in progress. */
  lemma DecisionGoesOn(s: Sys, cpu: int, prev: int, ch: Choice)
    requires Inv(s) && s.Cpu(cpu) && GoodChoice(s, cpu, prev, ch) && s.d[cpu].ovLeft > 0
    ensures INTERACTIVE <= s.d[cpu].ovTier <= GREEDY
    ensures LcWaits(s, cpu) ==> ch.Take? && ch.tier == LC && ch.phase == Early
    ensures !LcWaits(s, cpu) && s.Q(s.d[cpu].ovTier, cpu) != [] ==> ch == Take(s.d[cpu].ovTier, cpu, Continue)
    ensures ch.Take? && ch.phase == Continue <==> !LcWaits(s, cpu) && s.Q(s.d[cpu].ovTier, cpu) != []
  {
    OwnQueueIsOwnWork(s, cpu, s.d[cpu].ovTier);
  }

  /** Without a budget no override goes on. */
  lemma NothingGoesOn(s: Sys, cpu: int, prev: int, ch: Choice)
    requires Inv(s) && s.Cpu(cpu) && GoodChoice(s, cpu, prev, ch) && s.d[cpu].ovLeft == 0
    ensures !(ch.Take? && ch.phase == Continue)
  {
  }

  /** Dispatch on `c` takes the next task of the override in progress. */
  predicate Continues(e: Event, c: int) { e.Dispatch? && e.cpu == c && e.ch.Take? && e.ch.phase == Continue }

  /** The state in which the dispatch on `c` decides, and the tier of prev there. */
  lemma DecidesIn(s: Sys, e: Event, c: int) returns (s1: Sys, prev: int)
    requires Inv(s) && Enabled(s, e) && e.Dispatch? && e.cpu == c
    ensures Inv(s1) && s1.Cpu(c) && GoodChoice(s1, c, prev, e.ch) && s1.q == s.q && s1.topo == s.topo
    ensures s1.d[c].ovTier == s.d[c].ovTier && s1.d[c].ovLeft == Elapsed(s.d[c].ovLeft, Spent(s, e, c, s.d[c].ovTier))
    ensures LcWaits(s1, c) <==> LcWaits(s, c)
  {
    AccountPrevKeepsInv(s, c, e.prev);
    s1 := AccountPrev(s, c, e.prev);
    prev := PrevTier(s1, e.prev);
    AccountSpends(s, s1, c, e.prev, e);
    SameLc(s, s1, c);
  }

  /** An override goes on exactly while it has budget left, nothing of LC waits, and a task of its tier does. */
  lemma ContinuesIff(s: Sys, e: Event, c: int)
    requires Inv(s) && Enabled(s, e) && e.Dispatch? && e.cpu == c
    ensures var t := s.d[c].ovTier;
            Continues(e, c) <==>
              Spent(s, e, c, t) < s.d[c].ovLeft && INTERACTIVE <= t <= GREEDY && !LcWaits(s, c) && s.Q(t, c) != []
  {
    var s1, prev := DecidesIn(s, e, c);
    if s1.d[c].ovLeft > 0 { DecisionGoesOn(s1, c, prev, e.ch); } else { NothingGoesOn(s1, c, prev, e.ch); }
  }

  /** The event, if it is a dispatch on `c`, serves LC when an LC task waits, and otherwise the next task of `t` there.
      */
  ghost predicate GoesOn(s: Sys, e: Event, c: int, t: int)
    requires s.Shape() && s.Cpu(c)
  {
    e.Dispatch? && e.cpu == c ==>
      if LcWaits(s, c) then e.ch.Take? && e.ch.tier == LC && e.ch.phase == Early else e.ch == Take(t, c, Continue)
  }

  /** The event, if it is a dispatch on `c`, finds an LC task or a task of `t`. */
  ghost predicate Supplied(s: Sys, e: Event, c: int, t: int)
    requires s.Shape() && s.Cpu(c) && INTERACTIVE <= t <= GREEDY
  {
    e.Dispatch? && e.cpu == c ==> LcWaits(s, c) || s.Q(t, c) != []
  }

  lemma DispatchGoesOn(s: Sys, e: Event, c: int, t: int, left: nat)
    requires Inv(s) && Enabled(s, e) && e.Dispatch? && e.cpu == c && InProgress(s, c, t, left)
             && Spent(s, e, c, t) < left
    requires INTERACTIVE <= t <= GREEDY && Supplied(s, e, c, t)
    ensures GoesOn(s, e, c, t)
  {
    var s1, prev := DecidesIn(s, e, c);
    DecisionGoesOn(s1, c, prev, e.ch);
  }

  lemma TakeKeepsProgress(s: Sys, e: Event, s': Sys, c: int)
    requires Inv(s) && Follows(s, e, s') && e.Dispatch? && e.cpu == c && s.Cpu(c)
    requires e.ch.Take? && (e.ch.phase == Early || e.ch.phase == Continue)
    ensures |s'.d| == |s.d| && InProgress(s', c, s.d[c].ovTier, Elapsed(s.d[c].ovLeft, Spent(s, e, c, s.d[c].ovTier)))
  {
    ChargedIsSpent(s, e, c);
    var s1, s2 := DispatchParts(s, e, s', c);
    ApplyKeepsProgress(s1, c, e.ch);
  }

  lemma ApplyKeepsProgress(s: Sys, cpu: int, ch: Choice)
    requires s.Shape() && s.Cpu(cpu) && CanTake(s, cpu, ch) && ch.Take? && (ch.phase == Early || ch.phase == Continue)
    ensures |Apply(s, cpu, ch).d| == |s.d| && InProgress(Apply(s, cpu, ch), cpu, s.d[cpu].ovTier, s.d[cpu].ovLeft)
  {
  }

  /** An override ends when a dispatch that LC does not claim does not go on with it: nothing is left of it then, unless
      the dispatch starts another. */
  lemma OverrideEnds(s: Sys, e: Event, s': Sys, c: int)
    requires Inv(s) && Follows(s, e, s') && e.Dispatch? && e.cpu == c && !LcWaits(s, c) && !Continues(e, c)
    ensures |s'.d| == |s.d| && (if StartedOn(e, c) != 0 then s'.d[c].ovLeft == OVERRIDE_BUDGET else s'.d[c].ovLeft == 0)
  {
    var s1, prev := DecidesIn(s, e, c);
    DispatchLeavesOverride(s, e, s', c);
    DecisionLate(s1, c, prev, e.ch);
    if StartedOn(e, c) == 0 { LateLeavesNothing(s, e, s', c); }
  }

  lemma DecisionLate(s: Sys, cpu: int, prev: int, ch: Choice)
    requires Inv(s) && s.Cpu(cpu) && GoodChoice(s, cpu, prev, ch) && !LcWaits(s, cpu)
    ensures ch.Take? ==> ch.phase != Early && (ch.phase == Start ==> ch.tier != 0)
  {
  }

  lemma LateLeavesNothing(s: Sys, e: Event, s': Sys, c: int)
    requires Inv(s) && Follows(s, e, s') && e.Dispatch? && e.cpu == c && s.Cpu(c) && (e.ch.Take? ==> e.ch.phase == Late)
    ensures |s'.d| == |s.d| && s'.d[c].ovLeft == 0
  {
    var s1, s2 := DispatchParts(s, e, s', c);
    ApplyLate(s1, c, e.ch);
  }

  lemma ApplyLate(s: Sys, cpu: int, ch: Choice)
    requires s.Shape() && s.Cpu(cpu) && CanTake(s, cpu, ch) && (ch.Take? ==> ch.phase == Late)
    ensures |Apply(s, cpu, ch).d| == |s.d| && Apply(s, cpu, ch).d[cpu].ovLeft == 0
  {
  }

  // ----- whole runs -----

  /** An override and what is left of it. */
  datatype Mark = Mark(tier: int, left: nat)

  ghost function MarksOf(states: seq<Sys>, events: seq<Event>, c: int): (ms: seq<Mark>)
    requires RunOn(states, events, c)
    ensures |ms| == |states| && forall i :: 0 <= i < |ms| ==>
            ms[i] == Mark(states[i].d[c].ovTier, states[i].d[c].ovLeft)
  {
    seq(|states|, i requires 0 <= i < |states| => Mark(states[i].d[c].ovTier, states[i].d[c].ovLeft))
  }

  function StartsOf(events: seq<Event>, c: int): (ts: seq<int>)
    ensures |ts| == |events| && forall i :: 0 <= i < |ts| ==> ts[i] == StartedOn(events[i], c)
  {
    seq(|events|, i requires 0 <= i < |events| => StartedOn(events[i], c))
  }

  /** The cpu time of tasks of tier `t` that each event accounts for on `c`. */
  function SpentOf(states: seq<Sys>, events: seq<Event>, c: int, t: int): (us: seq<nat>)
    requires |events| <= |states|
    ensures |us| == |events| && forall i :: 0 <= i < |us| ==> us[i] == Spent(states[i], events[i], c, t)
  {
    seq(|events|, i requires 0 <= i < |events| => Spent(states[i], events[i], c, t))
  }

  function Sum(us: seq<nat>, a: nat, n: nat): nat
    requires n <= |us|
    decreases n
  {
    if n <= a then 0 else Sum(us, a, n - 1) + us[n - 1]
  }

  ghost predicate SuppliedAt(states: seq<Sys>, events: seq<Event>, c: int, t: int, i: nat)
    requires i < |events| <= |states|
  {
    INTERACTIVE <= t <= GREEDY && states[i].Shape() && states[i].Cpu(c) && Supplied(states[i], events[i], c, t)
  }

  lemma StartLeaves(states: seq<Sys>, events: seq<Event>, c: int, a: nat)
    requires RunOn(states, events, c) && a < |events| && StartedOn(events[a], c) != 0
    ensures MarksOf(states, events, c)[a + 1] == Mark(StartedOn(events[a], c), OVERRIDE_BUDGET)
  {
    assert Follows(states[a], events[a], states[a + 1]);
    DispatchMoves(states[a], events[a], states[a + 1], c);
  }

  lemma GoesOnAt(states: seq<Sys>, events: seq<Event>, c: int, t: int, n: nat, left: nat)
    requires RunOn(states, events, c) && n < |events| && MarksOf(states, events, c)[n] == Mark(t, left)
    requires SpentOf(states, events, c, t)[n] < left && SuppliedAt(states, events, c, t, n)
    ensures GoesOn(states[n], events[n], c, t)
    ensures MarksOf(states, events, c)[n + 1] == Mark(t, left - SpentOf(states, events, c, t)[n])
  {
    var s, e, s' := states[n], events[n], states[n + 1];
    assert Follows(s, e, s');
    if e.Dispatch? && e.cpu == c {
      DispatchGoesOn(s, e, c, t, left);
      TakeKeepsProgress(s, e, s', c);
    } else {
      EveryEventMoves(s, e, s', c);
    }
  }

  /** Event `i` charges the override for `t` if enough of it is left. */
  predicate Charges(ms: seq<Mark>, us: seq<nat>, t: int, i: nat)
    requires i < |us| && |ms| == |us| + 1
  {
    ms[i].tier == t && us[i] < ms[i].left ==> ms[i + 1] == Mark(t, ms[i].left - us[i])
  }

  lemma {:induction false} MarksCountDown(ms: seq<Mark>, us: seq<nat>, t: int, a: nat, n: nat)
    requires |ms| == |us| + 1 && a < n <= |us| && ms[a + 1] == Mark(t, OVERRIDE_BUDGET)
    requires forall i: nat :: a < i < n ==> Charges(ms, us, t, i)
    requires Sum(us, a + 1, n) < OVERRIDE_BUDGET
    ensures ms[n] == Mark(t, OVERRIDE_BUDGET - Sum(us, a + 1, n))
    decreases n
  {
    if n > a + 1 {
      MarksCountDown(ms, us, t, a, n - 1);
      assert Charges(ms, us, t, n - 1);
    }
  }

  lemma ChargesAt(states: seq<Sys>, events: seq<Event>, c: int, t: int, n: nat)
    requires RunOn(states, events, c) && n < |events| && SuppliedAt(states, events, c, t, n)
    ensures Charges(MarksOf(states, events, c), SpentOf(states, events, c, t), t, n)
  {
    var ms, us := MarksOf(states, events, c), SpentOf(states, events, c, t);
    if ms[n].tier == t && us[n] < ms[n].left { GoesOnAt(states, events, c, t, n, ms[n].left); }
  }

  /** An override goes on. Once one has started for tier `t` of `c`, and until the tasks of `t` have used up its budget
      there, every dispatch on that cpu serves tier `t` from its own queue, unless an LC task waits, which goes first
      and does not end the override. It ends early only when a dispatch finds neither. */
  lemma OverridesGoOn(states: seq<Sys>, events: seq<Event>, c: int, t: int, a: nat, n: nat)
    requires RunOn(states, events, c) && a < n < |events| && StartedOn(events[a], c) == t != 0
    requires Sum(SpentOf(states, events, c, t), a + 1, n + 1) < OVERRIDE_BUDGET
    requires forall i: nat :: a < i <= n ==> SuppliedAt(states, events, c, t, i)
    ensures GoesOn(states[n], events[n], c, t)
  {
    var ms, us := MarksOf(states, events, c), SpentOf(states, events, c, t);
    StartLeaves(states, events, c, a);
    forall i: nat | a < i < n ensures Charges(ms, us, t, i) { ChargesAt(states, events, c, t, i); }
    MarksCountDown(ms, us, t, a, n);
    GoesOnAt(states, events, c, t, n, ms[n].left);
  }

  lemma NoOverrideAtFirst(s: Sys, c: int)
    requires s.topo.Valid() && s == InitialSys(s.topo, s.now) && 0 <= c < |s.d|
    ensures s.d[c].ovLeft == 0
  {
  }

  /** Event `i` starts an override; or it keeps the tier of the one in progress and, if that is `t`, charges it; or it
      ends it. */
  predicate StartsOrCharges(ms: seq<Mark>, ts: seq<int>, us: seq<nat>, t: int, i: nat)
    requires i < |us| == |ts| && |ms| == |us| + 1
  {
    if ts[i] != 0 then ms[i + 1] == Mark(ts[i], OVERRIDE_BUDGET)
    else
      || ms[i + 1].left == 0
      || (ms[i + 1].tier == ms[i].tier && (ms[i].tier == t ==> ms[i + 1].left == Elapsed(ms[i].left, us[i])))
  }

  lemma StartsOrChargesAt(states: seq<Sys>, events: seq<Event>, c: int, t: int, n: nat)
    requires RunOn(states, events, c) && n < |events|
    ensures StartsOrCharges(MarksOf(states, events, c), StartsOf(events, c), SpentOf(states, events, c, t), t, n)
  {
    assert Follows(states[n], events[n], states[n + 1]);
    EveryEventMoves(states[n], events[n], states[n + 1], c);
  }

  /** What is left of an override is the budget of the last start, less what its tier has used since. */
  lemma {:induction false} LeftIsUnspent(ms: seq<Mark>, ts: seq<int>, us: seq<nat>, t: int, n: nat) returns (a: nat)
    requires |ms| == |us| + 1 && |ts| == |us| && n < |ms| && ms[0].left == 0 && ms[n].left > 0 && ms[n].tier == t
    requires forall i: nat :: i < n ==> StartsOrCharges(ms, ts, us, t, i)
    ensures a < n && ts[a] == t != 0 && forall i :: a < i < n ==> ts[i] == 0
    ensures Sum(us, a + 1, n) + ms[n].left == OVERRIDE_BUDGET
    decreases n
  {
    assert n > 0 && StartsOrCharges(ms, ts, us, t, n - 1);
    if ts[n - 1] != 0 { a := n - 1; } else { a := LeftIsUnspent(ms, ts, us, t, n - 1); }
  }

  lemma ContinuesWhatIsLeft(states: seq<Sys>, events: seq<Event>, c: int, n: nat)
    requires RunOn(states, events, c) && n < |events| && Continues(events[n], c)
    ensures events[n].ch.from == c && MarksOf(states, events, c)[n].tier == events[n].ch.tier
    ensures SpentOf(states, events, c, events[n].ch.tier)[n] < MarksOf(states, events, c)[n].left
  {
    var s, e := states[n], events[n];
    assert Follows(s, e, states[n + 1]);
    ContinuesIff(s, e, c);
    DispatchGoesOn(s, e, c, s.d[c].ovTier, s.d[c].ovLeft);
  }

  /** And an override goes on only within its budget: a dispatch that continues one takes the tier of the last start
      from the cpu's own queue, and its tasks have used less than the budget since, this dispatch's own charge included.
      */
  lemma ContinuedWithinBudget(states: seq<Sys>, events: seq<Event>, c: int, n: nat) returns (a: nat)
    requires IsRun(states, events) && RunOn(states, events, c) && n < |events| && Continues(events[n], c)
    ensures a < n && StartedOn(events[a], c) == events[n].ch.tier && events[n].ch.from == c
    ensures forall i :: a < i < n ==> StartedOn(events[i], c) == 0
    ensures Sum(SpentOf(states, events, c, events[n].ch.tier), a + 1, n + 1) < OVERRIDE_BUDGET
  {
    var t := events[n].ch.tier;
    var ms, ts, us := MarksOf(states, events, c), StartsOf(events, c), SpentOf(states, events, c, t);
    ContinuesWhatIsLeft(states, events, c, n);
    NoOverrideAtFirst(states[0], c);
    forall i: nat | i < n ensures StartsOrCharges(ms, ts, us, t, i) { StartsOrChargesAt(states, events, c, t, i); }
    a := LeftIsUnspent(ms, ts, us, t, n);
    forall i | a < i < n ensures StartedOn(events[i], c) == 0 { assert ts[i] == 0; }
  }
}

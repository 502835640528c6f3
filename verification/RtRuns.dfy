/** RT tasks: what the switch hook does to a cpu's local queue, and the count of RT-busy cpus over whole runs. */
module RtRuns {
  import opened Options
  import opened Defs
  import opened Classifier
  import opened Machine
  import opened Invariant
  import opened Preservation

  // ----- the local queue goes back -----

  /** Where a task is after the switch of cpu `c` to an RT task. */
  function Expelled(l: Loc, c: int): Loc { if l == Local(c) then Ready(-1) else l }

  /** When an RT task comes in, every task of the cpu's local queue goes back to be enqueued anew, and every other task
      stays where it is; when none is current, nothing moves. The flag says which it was. */
  ghost predicate GoneBack(s: Sys, s': Sys, c: int)
    requires s.Shape() && s.Cpu(c)
  {
    && s'.loc.Keys == s.loc.Keys && |s'.d| == |s.d| && |s'.local| == |s.local|
    && s'.d[c].rtBusy == s.rtCurr[c] && s'.q == s.q && s'.tc == s.tc
    && (forall x :: x in s.loc ==> s'.loc[x] == if s.rtCurr[c] then Expelled(s.loc[x], c) else s.loc[x])
    && (forall o :: s.Cpu(o) ==> s'.local[o] == if o == c && s.rtCurr[c] then [] else s.local[o])
  }

  lemma LocalGoesBack(s: Sys, c: int)
    requires Inv(s) && s.Cpu(c)
    ensures GoneBack(s, Next(s, SchedSwitch(c)), c)
  {
    SwitchStep(s, c);
  }

  lemma SwitchStep(s: Sys, c: int)
    requires s.Shape() && s.Cpu(c)
    ensures GoneBack(s, SchedSwitchStep(s, c), c)
  {
  }

  lemma ExpelledCanBeEnqueued(s: Sys, c: int, x: Task, cpu: int, start: nat)
    requires Inv(s) && s.Cpu(c) && s.rtCurr[c] && x in s.loc && s.loc[x] == Local(c)
    requires s.Online(cpu) && cpu in s.aff[x] && start < s.N()
    ensures Inv(Next(s, SchedSwitch(c))) && Enabled(Next(s, SchedSwitch(c)), Enqueue(x, cpu, false, None, -1, start))
  {
    NextKeepsInv(s, SchedSwitch(c));
    LocalGoesBack(s, c);
    assert Next(s, SchedSwitch(c)) == SchedSwitchStep(s, c);
  }

  // ----- the counter and the flags -----

  function Busy(d: seq<DispatchCtx>): set<int> { set c | 0 <= c < |d| && d[c].rtBusy }

  predicate SameFlags(d: seq<DispatchCtx>, d': seq<DispatchCtx>)
  {
    |d'| == |d| && forall c :: 0 <= c < |d| ==> d'[c].rtBusy == d[c].rtBusy
  }

  /** The callback leaves the flags and the counter alone. */
  predicate KeepsFlags(s: Sys, s': Sys) { SameFlags(s.d, s'.d) && s'.nrRt == s.nrRt }

  lemma EnqueueStepKeepsFlags(s: Sys, x: Task, cpu: int, wakeup: bool, waker: Option<Task>, idleCpu: int, start: nat)
    requires s.Shape() && x in s.tc && s.Cpu(cpu) && start < s.N() && (idleCpu == -1 || s.Cpu(idleCpu))
    requires var tc := if wakeup then Boosted(s, x, waker) else s.tc[x]; LC <= EffectiveTier(tc) <= GREEDY
    ensures KeepsFlags(s, EnqueueStep(s, x, cpu, wakeup, waker, idleCpu, start))
  {
    var tc := if wakeup then Boosted(s, x, waker) else s.tc[x];
    var s1 := s.(tc := s.tc[x := tc.(resume := 0)]);
    var tier := EffectiveTier(tc);
    if !(tc.resume > 0 && !s.rtCurr[cpu]) {
      PlaceOnKeepsFlags(s1, x, tier, cpu, wakeup, Pick(s1, x, tier, cpu, idleCpu, start));
    }
  }

  lemma PlaceOnKeepsFlags(s: Sys, x: Task, tier: int, cpu: int, wakeup: bool, pick: int)
    requires s.Shape() && x in s.tc && s.Cpu(cpu) && s.Cpu(pick) && LC <= tier <= GREEDY
    ensures KeepsFlags(s, PlaceOn(s, x, tier, cpu, wakeup, pick))
  {
  }

  lemma DispatchStepKeepsFlags(s: Sys, cpu: int, prev: Option<Task>, ch: Choice)
    requires s.Shape() && s.Cpu(cpu) && (prev.Some? ==> prev.value in s.tc)
    requires AccountPrev(s, cpu, prev).Shape() && CanTake(AccountPrev(s, cpu, prev), cpu, ch)
    ensures KeepsFlags(s, DispatchStep(s, cpu, prev, ch))
  {
    var s1 := AccountPrev(s, cpu, prev);
    assert KeepsFlags(s, s1);
    ApplyKeepsFlags(s1, cpu, ch);
  }

  lemma ApplyKeepsFlags(s: Sys, cpu: int, ch: Choice)
    requires s.Shape() && s.Cpu(cpu) && CanTake(s, cpu, ch)
    ensures KeepsFlags(s, Apply(s, cpu, ch))
  {
  }

  lemma DispatchKeepsFlags(s: Sys, e: Event)
    requires Inv(s) && Enabled(s, e) && e.Dispatch?
    ensures KeepsFlags(s, Next(s, e))
  {
    var s1 := AccountPrev(s, e.cpu, e.prev);
    GoodChoiceCanTake(s1, e.cpu, PrevTier(s1, e.prev), e.ch);
    DispatchStepKeepsFlags(s, e.cpu, e.prev, e.ch);
  }

  lemma OthersKeepFlags(s: Sys, e: Event)
    requires Inv(s) && Enabled(s, e) && !e.SchedSwitch?
    ensures KeepsFlags(s, Next(s, e))
  {
    if e.Dispatch? {
      DispatchKeepsFlags(s, e);
    } else if e.Enqueue? {
      BoostedOk(s, e.x, e.waker);
      EnqueueStepKeepsFlags(s, e.x, e.cpu, e.wakeup, e.waker, e.idleCpu, e.start);
    } else if e.Run? {
      assert KeepsFlags(s, RunStep(s, e.x, e.cpu, e.slice));
    } else if e.Stopping? {
      assert KeepsFlags(s, StoppingStep(s, e.x, e.cpu, e.runnable, e.sliceZero));
    }
  }

  lemma SameBusy(d: seq<DispatchCtx>, d': seq<DispatchCtx>)
    requires SameFlags(d, d')
    ensures Busy(d') == Busy(d)
  {
  }

  lemma FlagCounts(d: seq<DispatchCtx>, c: int, rt: bool, d': seq<DispatchCtx>)
    requires 0 <= c < |d| && |d'| == |d| && d'[c].rtBusy == rt
    requires forall i :: 0 <= i < |d| && i != c ==> d'[i].rtBusy == d[i].rtBusy
    ensures |Busy(d')| == |Busy(d)| + if rt == d[c].rtBusy then 0 else if rt then 1 else -1
  {
    if rt {
      assert Busy(d') == Busy(d) + {c};
    } else {
      assert Busy(d') == Busy(d) - {c};
    }
    assert d[c].rtBusy <==> c in Busy(d);
  }

  lemma SwitchCounts(s: Sys, c: int)
    requires s.Shape() && s.Cpu(c) && s.nrRt == |Busy(s.d)|
    ensures var s' := SchedSwitchStep(s, c); s'.nrRt == |Busy(s'.d)|
  {
    CounterAfter(s, c);
    FlagCounts(s.d, c, s.rtCurr[c], SchedSwitchStep(s, c).d);
    assert s.d[c].rtBusy ==> c in Busy(s.d);
  }

  /** The counter goes up and down with the flag, as long as it does not wrap. */
  lemma CounterAfter(s: Sys, c: int)
    requires s.Shape() && s.Cpu(c)
    ensures var s', rt := SchedSwitchStep(s, c), s.rtCurr[c];
            && s'.d == s.d[c := s.d[c].(rtBusy := rt)]
            && (s.nrRt > 0 || rt || !s.d[c].rtBusy ==>
                  s'.nrRt == s.nrRt + if rt == s.d[c].rtBusy then 0 else if rt then 1 else -1)
  {
  }

  lemma NextCounts(s: Sys, e: Event, s': Sys)
    requires Inv(s) && Follows(s, e, s') && s.nrRt == |Busy(s.d)|
    ensures s'.nrRt == |Busy(s'.d)|
  {
    if e.SchedSwitch? {
      SwitchCounts(s, e.cpu);
    } else {
      OthersKeepFlags(s, e);
      SameBusy(s.d, s'.d);
    }
  }

  /** In every state of every run from init the counter is the number of cpus flagged as RT-busy. */
  lemma {:induction false} CounterCounts(states: seq<Sys>, events: seq<Event>, k: nat)
    requires IsRun(states, events) && k < |states|
    ensures states[k].nrRt == |Busy(states[k].d)|
    decreases k
  {
    if k == 0 {
      assert Busy(states[0].d) == {};
    } else {
      CounterCounts(states, events, k - 1);
      RunsKeepInv(states, events);
      NextCounts(states[k - 1], events[k - 1], states[k]);
    }
  }

  /** So the early exit of the search for RT-taken peers never hides one. */
  lemma ExitHidesNobody(states: seq<Sys>, events: seq<Event>, k: nat, cpu: int, o: int)
    requires IsRun(states, events) && k < |states| && states[k].Shape() && states[k].Cpu(cpu)
    ensures var s := states[k]; RtPeer(s, cpu, o) <==> Peer(s, cpu, o) && s.d[o].rtBusy && s.rtCurr[o]
  {
    CounterCounts(states, events, k);
    var s := states[k];
    assert s.Cpu(o) && s.d[o].rtBusy ==> o in Busy(s.d);
  }
}

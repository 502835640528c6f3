/** When a preemption kick is pending on a cpu, over whole runs. */
module KickRuns {
  import opened Options
  import opened Defs
  import opened Machine
  import opened Invariant
  import opened Preservation
  import opened LoadLaws
  import opened RunningRuns

  /** The event settles what runs on `c`: a task starts there, stops there, or goes on there. */
  predicate Settles(e: Event, c: int)
  {
    ((e.Run? || e.Stopping?) && e.cpu == c) || (e.Dispatch? && e.cpu == c && e.ch == Keep)
  }

  /** The event kicks `c`. */
  predicate KicksCpu(s: Sys, e: Event, s': Sys, c: int)
  {
    e.Enqueue? && e.x in s.tc && e.x in s'.loc && 0 <= c < |s.d| && 0 <= e.cpu < |s.rtCurr|
      && Kicks(s, e, s'.loc[e.x], c)
  }

  predicate SamePreempt(s: Sys, s': Sys, c: int) { 0 <= c < |s.d| == |s'.d| && s'.d[c].preempt == s.d[c].preempt }

  lemma AccountPrevPreempt(s: Sys, cpu: int, prev: Option<Task>, c: int)
    requires s.Shape() && s.Cpu(cpu) && (prev.Some? ==> prev.value in s.tc) && s.Cpu(c)
    ensures SamePreempt(s, AccountPrev(s, cpu, prev), c)
  {
  }

  lemma ApplyPreempt(s: Sys, cpu: int, ch: Choice, c: int)
    requires s.Shape() && s.Cpu(cpu) && CanTake(s, cpu, ch) && s.Cpu(c)
    ensures SamePreempt(s, Apply(s, cpu, ch), c)
  {
  }

  lemma DecisionKick(s: Sys, s1: Sys, e: Event, s': Sys, c: int)
    requires s.Shape() && s1.Shape() && e.Dispatch? && s.Cpu(e.cpu) && s.Cpu(c)
    requires e.prev.Some? ==> e.prev.value in s.tc
    requires s1 == AccountPrev(s, e.cpu, e.prev)
    requires CanTake(s1, e.cpu, e.ch) && (e.ch == Keep ==> PrevTier(s1, e.prev) <= GREEDY)
    requires s' == DispatchStep(s, e.cpu, e.prev, e.ch)
    ensures |s'.d| == |s.d| && (s'.d[c].preempt <==> s.d[c].preempt && !Settles(e, c))
  {
    AccountPrevPreempt(s, e.cpu, e.prev, c);
    ApplyPreempt(s1, e.cpu, e.ch, c);
  }

  lemma DispatchKick(s: Sys, e: Event, s': Sys, c: int)
    requires Inv(s) && Follows(s, e, s') && e.Dispatch? && s.Cpu(c)
    ensures |s'.d| == |s.d| && (s'.d[c].preempt <==> s.d[c].preempt && !Settles(e, c))
  {
    AccountPrevKeepsInv(s, e.cpu, e.prev);
    var s1 := AccountPrev(s, e.cpu, e.prev);
    AllowedDecision(s1, e.cpu, PrevTier(s1, e.prev), e.ch);
    DecisionKick(s, s1, e, s', c);
  }

  lemma RunKick(s: Sys, x: Task, cpu: int, slice: nat, c: int)
    requires s.Shape() && s.Cpu(cpu) && x in s.tc && s.local[cpu] != [] && s.Cpu(c)
    ensures var s' := RunStep(s, x, cpu, slice); |s'.d| == |s.d| && (s'.d[c].preempt <==> s.d[c].preempt && c != cpu)
  {
  }

  lemma StoppingKick(s: Sys, x: Task, cpu: int, runnable: bool, sliceZero: bool, c: int)
    requires s.Shape() && s.Cpu(cpu) && x in s.tc && s.Cpu(c)
    ensures var s' := StoppingStep(s, x, cpu, runnable, sliceZero);
            |s'.d| == |s.d| && (s'.d[c].preempt <==> s.d[c].preempt && c != cpu)
  {
  }

  lemma SwitchKick(s: Sys, cpu: int, c: int)
    requires s.Shape() && s.Cpu(cpu) && s.Cpu(c)
    ensures SamePreempt(s, SchedSwitchStep(s, cpu), c)
  {
  }

  lemma NextKick(s: Sys, e: Event, s': Sys, c: int)
    requires Inv(s) && Follows(s, e, s') && s.Cpu(c)
    ensures |s'.d| == |s.d| && (s'.d[c].preempt <==> (s.d[c].preempt && !Settles(e, c)) || KicksCpu(s, e, s', c))
  {
    if e.Dispatch? {
      DispatchKick(s, e, s', c);
    } else if e.Enqueue? {
      KickIff(s, e, c);
    } else {
      OthersKick(s, e, s', c);
    }
  }

  lemma OthersKick(s: Sys, e: Event, s': Sys, c: int)
    requires Inv(s) && Follows(s, e, s') && s.Cpu(c) && !e.Dispatch? && !e.Enqueue?
    ensures |s'.d| == |s.d| && (s'.d[c].preempt <==> s.d[c].preempt && !Settles(e, c))
  {
    if e.Run? {
      RunKick(s, e.x, e.cpu, e.slice, c);
    } else if e.Stopping? {
      StoppingKick(s, e.x, e.cpu, e.runnable, e.sliceZero, c);
    } else if e.SchedSwitch? {
      SwitchKick(s, e.cpu, c);
    }
  }

  // ----- whole runs -----

  /** Event `i` kicks `c`, and no event between it and state `n` has settled what runs there. */
  predicate PendingSince(states: seq<Sys>, events: seq<Event>, c: int, i: nat, n: nat)
    requires i < n <= |events| < |states|
  {
    KicksCpu(states[i], events[i], states[i + 1], c) && forall j :: i < j < n ==> !Settles(events[j], c)
  }

  predicate Pending(states: seq<Sys>, c: int, n: nat)
  {
    n < |states| && 0 <= c < |states[n].d| && states[n].d[c].preempt
  }

  lemma PendingNext(states: seq<Sys>, events: seq<Event>, c: int, n: nat)
    requires IsRun(states, events) && n < |events| && 0 <= c < |states[n].d|
    ensures |states[n + 1].d| == |states[n].d|
    ensures Pending(states, c, n + 1) <==>
              (Pending(states, c, n) && !Settles(events[n], c)) || KicksCpu(states[n], events[n], states[n + 1], c)
  {
    RunsKeepInv(states, events);
    NextKick(states[n], events[n], states[n + 1], c);
  }

  lemma NothingPendingAtFirst(s: Sys, c: int)
    requires s.topo.Valid() && s == InitialSys(s.topo, s.now) && 0 <= c < |s.d|
    ensures !s.d[c].preempt
  {
  }

  /** In every state of every run: a kick is pending on a cpu exactly when one has been sent there since a task last
      started, stopped or went on there. */
  lemma {:induction false} KickIsPending(states: seq<Sys>, events: seq<Event>, c: int, n: nat)
    requires IsRun(states, events) && n < |states| && 0 <= c < |states[0].d|
    ensures |states[n].d| == |states[0].d|
    ensures Pending(states, c, n) <==> exists i: nat :: i < n && PendingSince(states, events, c, i, n)
    decreases n
  {
    if n == 0 {
      NothingPendingAtFirst(states[0], c);
    } else {
      KickIsPending(states, events, c, n - 1);
      PendingNext(states, events, c, n - 1);
      SinceNext(states, events, c, n - 1, n);
    }
  }

  lemma SinceNext(states: seq<Sys>, events: seq<Event>, c: int, n: nat, m: nat)
    requires n < |events| < |states| && m == n + 1
    ensures (exists i: nat :: i < m && PendingSince(states, events, c, i, m)) <==>
              || ((exists i: nat :: i < n && PendingSince(states, events, c, i, n)) && !Settles(events[n], c))
              || KicksCpu(states[n], events[n], states[m], c)
  {
    forall i: nat | i < n
      ensures PendingSince(states, events, c, i, m) <==> PendingSince(states, events, c, i, n) && !Settles(events[n], c)
    {
    }
    assert PendingSince(states, events, c, n, m) <==> KicksCpu(states[n], events[n], states[m], c);
  }
}

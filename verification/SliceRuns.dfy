/** What a preempted task gets back of its slice, over whole runs. */
module SliceRuns {
  import opened Options
  import opened Defs
  import opened Accounting
  import opened Machine
  import opened Invariant
  import opened Preservation
  import opened BoostRuns
  import opened EventLaws

  /** The event starts a slice of `x`: it begins to run, or keeps its cpu for another slice. */
  predicate StartsSlice(e: Event, x: Task)
  {
    (e.Run? && e.x == x) || (e.Dispatch? && e.prev == Some(x) && e.ch == Keep)
  }

  function SliceOf(e: Event): nat { if e.Run? then e.slice else SLICE }

  lemma AfterSlice(tc: TaskCtx, kthread: bool, preempt: bool, e: Event, now: nat)
    requires e.Dispatch? || e.Stopping?
    ensures AfterAccounting(tc, kthread, preempt, e, now).granted == if e.Dispatch? && e.ch == Keep then SLICE
            else tc.granted
  {
  }

  lemma RunSlice(s: Sys, e: Event)
    requires Inv(s) && Enabled(s, e) && e.Run?
    ensures e.x in Next(s, e).tc && Next(s, e).tc[e.x].granted == e.slice && Next(s, e).tc[e.x].startedAt == s.now
  {
    assert Next(s, e) == RunStep(s, e.x, e.cpu, e.slice);
  }

  lemma OthersKeepSlice(s: Sys, e: Event, x: Task)
    requires Inv(s) && Enabled(s, e) && x in s.tc && !Accounts(e, x) && !(e.Run? && e.x == x)
    ensures x in Next(s, e).tc && Next(s, e).tc[x].granted == s.tc[x].granted
  {
    if e.Dispatch? {
      DispatchLeaves(s, e, x);
    } else if e.Stopping? {
      StoppingLeaves(s, e, x);
    } else if e.Run? {
      RunLeaves(s, e, x);
    } else {
      UnaccountedEvent(s, e, x);
    }
  }

  /** The length of the slice is what the last event that started one has granted. */
  lemma SliceAfter(s: Sys, e: Event, x: Task)
    requires Inv(s) && Enabled(s, e) && x in s.tc
    ensures x in Next(s, e).tc && Next(s, e).tc[x].granted == if StartsSlice(e, x) then SliceOf(e) else s.tc[x].granted
  {
    if Accounts(e, x) {
      AccountedTask(s, e, x);
      AfterSlice(s.tc[x], x in s.kthreads, s.d[e.cpu].preempt, e, s.now);
    } else if e.Run? && e.x == x {
      RunSlice(s, e);
    } else {
      OthersKeepSlice(s, e, x);
    }
  }

  // ----- whole runs -----

  ghost function SlicesOf(states: seq<Sys>, events: seq<Event>, x: Task): (gs: seq<nat>)
    requires RunOf(states, events, x)
    ensures |gs| == |states| && forall i :: 0 <= i < |gs| ==> gs[i] == states[i].tc[x].granted
  {
    seq(|states|, i requires 0 <= i < |states| => states[i].tc[x].granted)
  }

  lemma SlicesKept(states: seq<Sys>, events: seq<Event>, x: Task, i: nat)
    requires RunOf(states, events, x) && i < |events|
    ensures SlicesOf(states, events, x)[i + 1]
         == if StartsSlice(events[i], x) then SliceOf(events[i]) else SlicesOf(states, events, x)[i]
  {
    assert Follows(states[i], events[i], states[i + 1]);
    SliceAfter(states[i], events[i], x);
  }

  lemma {:induction false} SameSlice(gs: seq<nat>, a: nat, b: nat)
    requires a < b < |gs| && forall i :: a < i < b ==> gs[i + 1] == gs[i]
    ensures gs[b] == gs[a + 1]
    decreases b
  {
    if b > a + 1 { SameSlice(gs, a, b - 1); }
  }

  ghost predicate AccountedLater(vs: seq<View>, ws: seq<Deed>, a: nat, i: nat)
    requires a < i < |ws| <= |vs|
  {
    ws[i].accounts && vs[i].now > vs[a].now
  }

  /** The task counts as running since event `a` exactly when nothing has accounted for it since, at a later time. */
  lemma {:induction false} RunsSince(vs: seq<View>, ws: seq<Deed>, a: nat, b: nat)
    requires BoostRuns.Run(vs, ws) && a < b < |vs| && vs[a + 1].started == vs[a].now
    requires forall i :: a < i <= b ==> vs[i].running
    ensures vs[a].now <= vs[b].started <= vs[b].now
    ensures vs[b].started == vs[a].now <==> forall i :: a < i < b ==> !AccountedLater(vs, ws, a, i)
    decreases b
  {
    if b > a + 1 {
      RunsSince(vs, ws, a, b - 1);
      assert Step(vs[b - 1], ws[b - 1], vs[b]);
      NowGrows(vs, ws, a, b - 1);
      assert vs[b].started == vs[a].now <==> vs[b - 1].started == vs[a].now && !AccountedLater(vs, ws, a, b - 1);
    } else {
      assert Step(vs[a], ws[a], vs[b]);
    }
  }

  lemma {:induction false} NowGrows(vs: seq<View>, ws: seq<Deed>, a: nat, b: nat)
    requires BoostRuns.Run(vs, ws) && a <= b < |vs|
    ensures forall i :: a <= i <= b ==> vs[a].now <= vs[i].now <= vs[b].now
    decreases b
  {
    if b > a {
      NowGrows(vs, ws, a, b - 1);
      assert Step(vs[b - 1], ws[b - 1], vs[b]);
    }
  }

  /** `x` runs from event `a`, which starts a slice, to event `b`, which stops it, in that one slice. */
  ghost predicate OneSlice(states: seq<Sys>, events: seq<Event>, x: Task, a: nat, b: nat)
    requires RunOf(states, events, x)
  {
    && a < b < |events| && StartsSlice(events[a], x) && events[b].Stopping? && events[b].x == x
    && (forall i :: a < i < b ==> !StartsSlice(events[i], x))
    && (forall i :: a < i <= b ==> ViewOf(states[i], x).running)
  }

  lemma SliceStarts(states: seq<Sys>, events: seq<Event>, x: Task, a: nat)
    requires RunOf(states, events, x) && a < |events| && StartsSlice(events[a], x)
    ensures states[a + 1].tc[x].startedAt == states[a].now
  {
    assert Follows(states[a], events[a], states[a + 1]);
    if events[a].Run? {
      RunSlice(states[a], events[a]);
    } else {
      RunningTimes(states[a], events[a], x);
      CpuTimeCounts(states[a], events[a], x);
    }
  }

  lemma StopsWithRest(states: seq<Sys>, events: seq<Event>, x: Task, b: nat)
    requires RunOf(states, events, x) && b < |events| && events[b].Stopping? && events[b].x == x
    requires states[b + 1].tc[x].resume > 0
    ensures states[b + 1].tc[x].resume + states[b].now == states[b].tc[x].granted + states[b].tc[x].startedAt
  {
    assert Follows(states[b], events[b], states[b + 1]);
    RestOfSlice(states[b], events[b]);
  }

  lemma SlicesAlong(states: seq<Sys>, events: seq<Event>, x: Task, a: nat, b: nat)
    requires RunOf(states, events, x) && OneSlice(states, events, x, a, b)
    ensures SlicesOf(states, events, x)[b] == SliceOf(events[a])
  {
    var gs := SlicesOf(states, events, x);
    forall i | a <= i < b ensures gs[i + 1] == if i == a then SliceOf(events[a]) else gs[i] {
      SlicesKept(states, events, x, i);
    }
    SameSlice(gs, a, b);
  }

  ghost predicate AccountsLater(states: seq<Sys>, events: seq<Event>, x: Task, a: nat, i: nat)
    requires a < i < |events| <= |states|
  {
    Accounts(events[i], x) && states[i].now > states[a].now
  }

  lemma AccountingSeen(states: seq<Sys>, events: seq<Event>, x: Task, a: nat, i: nat)
    requires RunOf(states, events, x) && a < i < |events|
    ensures AccountedLater(ViewsOf(states, events, x), DeedsOf(states, events, x), a, i)
       <==> AccountsLater(states, events, x, a, i)
  {
    assert Follows(states[i], events[i], states[i + 1]);
  }

  lemma SliceInViews(states: seq<Sys>, events: seq<Event>, x: Task, a: nat, b: nat)
    requires RunOf(states, events, x) && OneSlice(states, events, x, a, b)
    ensures var vs := ViewsOf(states, events, x);
            vs[a + 1].started == vs[a].now && forall i :: a < i <= b ==> vs[i].running
  {
    SliceStarts(states, events, x, a);
  }

  lemma RunsInOneGo(states: seq<Sys>, events: seq<Event>, x: Task, a: nat, b: nat)
    requires RunOf(states, events, x) && OneSlice(states, events, x, a, b)
    ensures var v, v' := ViewsOf(states, events, x)[a], ViewsOf(states, events, x)[b];
            && v.now <= v'.started <= v'.now
            && (v'.started == v.now <==> forall i :: a < i < b ==> !AccountsLater(states, events, x, a, i))
  {
    RunsAreWatched(states, events, x);
    SliceInViews(states, events, x, a, b);
    var vs, ws := ViewsOf(states, events, x), DeedsOf(states, events, x);
    RunsSince(vs, ws, a, b);
    forall i | a < i < b ensures AccountedLater(vs, ws, a, i) <==> AccountsLater(states, events, x, a, i) {
      AccountingSeen(states, events, x, a, i);
    }
  }

  /** A task that a kick stops takes along at least what it has not run of its slice, and exactly that if and only if no
      dispatch has accounted for it since the slice began. */
  lemma RestIsExact(states: seq<Sys>, events: seq<Event>, x: Task, a: nat, b: nat)
    requires RunOf(states, events, x) && OneSlice(states, events, x, a, b) && states[b + 1].tc[x].resume > 0
    ensures var rest, ran := states[b + 1].tc[x].resume, states[b].now - states[a].now;
            && rest + ran >= SliceOf(events[a])
            && (rest + ran == SliceOf(events[a]) <==>
                forall i :: a < i < b ==> !AccountsLater(states, events, x, a, i))
  {
    RunsInOneGo(states, events, x, a, b);
    StopsWithRest(states, events, x, b);
    SlicesAlong(states, events, x, a, b);
  }

  lemma DispatchRestarts(s: Sys, e: Event, s': Sys, x: Task)
    requires Inv(s) && Follows(s, e, s') && e.Dispatch? && e.prev == Some(x) && e.ch.Take? && x in s'.tc
    ensures s'.tc[x].startedAt == s'.now && s'.tc[x].granted == s.tc[x].granted
  {
    DispatchTask(s, e, x);
    AfterSlice(s.tc[x], x in s.kthreads, s.d[e.cpu].preempt, e, s.now);
    AfterSums(s.tc[x], x in s.kthreads, s.d[e.cpu].preempt, e, s.now);
  }

  /** A dispatch that takes another task and is followed at once by the stop gives the whole slice back, however much of
      it the task has run. */
  lemma WholeSliceComesBack(s: Sys, e: Event, s1: Sys, e1: Event, x: Task)
    requires Inv(s) && Follows(s, e, s1) && e.Dispatch? && e.prev == Some(x) && e.ch.Take? && x in s.tc && x in s1.tc
    requires Inv(s1) && e1.Stopping? && e1.x == x && e1.runnable && e1.sliceZero && Enabled(s1, e1)
    requires s1.d[e1.cpu].preempt && s.tc[x].granted > RESUME_SLICE_MIN
    ensures x in Next(s1, e1).tc && Next(s1, e1).tc[x].resume == s.tc[x].granted
  {
    DispatchRestarts(s, e, s1, x);
    RestOfSlice(s1, e1);
  }
}

/** The theorems on starvation overrides, for runs of the whole scheduler and any one of its cpus. */
module OverrideRuns {
  import opened Defs
  import opened Machine
  import opened Invariant
  import opened Preservation
  import opened Starvation
  import V = StarvationView

  /** A run seen from cpu `c`, not necessarily from its beginning. */
  ghost predicate RunOn(states: seq<Sys>, events: seq<Event>, c: int)
  {
    && |states| == |events| + 1
    && (forall i :: 0 <= i < |states| ==> Inv(states[i]) && states[i].Cpu(c))
    && (forall i :: 0 <= i < |events| ==> Follows(states[i], events[i], states[i + 1]))
  }

  /** Every run from lunar_init qualifies, on every cpu. */
  lemma WholeRunsQualify(states: seq<Sys>, events: seq<Event>, c: int)
    requires IsRun(states, events) && 0 <= c < states[0].topo.N()
    ensures RunOn(states, events, c)
  {
    RunsKeepInv(states, events);
    var i := 0;
    while i < |events|
      invariant 0 <= i <= |events|
      invariant forall j :: 0 <= j <= i ==> states[j].Cpu(c)
    {
      assert Follows(states[i], events[i], states[i + 1]);
      CpusStay(states[i], events[i]);
      i := i + 1;
    }
  }

  ghost function ViewsOf(states: seq<Sys>, events: seq<Event>, c: int): (vs: seq<V.View>)
    requires RunOn(states, events, c)
    ensures |vs| == |states| && forall i :: 0 <= i < |vs| ==> vs[i] == ViewOf(states[i], c)
  {
    seq(|states|, i requires 0 <= i < |states| => ViewOf(states[i], c))
  }

  ghost function DeedsOf(states: seq<Sys>, events: seq<Event>, c: int): (ws: seq<V.Deed>)
    requires RunOn(states, events, c)
    ensures |ws| == |events|
    ensures forall i :: 0 <= i < |ws| ==>
              Follows(states[i], events[i], states[i + 1]) && ws[i] == DeedOf(states[i], events[i], c)
  {
    seq(|events|, i requires 0 <= i < |events| && Follows(states[i], events[i], states[i + 1]) =>
      DeedOf(states[i], events[i], c))
  }

  lemma RunsAreWatched(states: seq<Sys>, events: seq<Event>, c: int)
    requires RunOn(states, events, c)
    ensures V.Run(ViewsOf(states, events, c), DeedsOf(states, events, c))
    ensures forall i :: 0 <= i < |states| ==> ViewOf(states[i], c).Ok()
  {
    var vs, ws := ViewsOf(states, events, c), DeedsOf(states, events, c);
    forall i | 0 <= i < |ws|
      ensures V.Step(vs[i], ws[i], vs[i + 1])
    {
      assert Follows(states[i], events[i], states[i + 1]);
      EveryEventSteps(states[i], events[i], c);
    }
    forall i | 0 <= i < |states|
      ensures ViewOf(states[i], c).Ok()
    {
      ViewOk(states[i], c);
    }
  }

  /** From state `a` to state `b` tasks of `tier` wait on `c` all the time, and none of them is served. */
  ghost predicate WaitsUnserved(states: seq<Sys>, events: seq<Event>, c: int, tier: int, a: nat, b: nat)
    requires RunOn(states, events, c)
  {
    && INTERACTIVE <= tier <= GREEDY && a <= b < |states|
    && (forall i :: a <= i <= b ==> states[i].Q(tier, c) != [])
    && (forall i :: a <= i < b ==> TookFrom(events[i], c) != tier)
  }

  lemma WaitingInViews(states: seq<Sys>, events: seq<Event>, c: int, tier: int, a: nat, b: nat)
    requires RunOn(states, events, c) && INTERACTIVE <= tier <= GREEDY && a <= b < |states|
    ensures WaitsUnserved(states, events, c, tier, a, b)
       <==> V.WaitsUnserved(ViewsOf(states, events, c), DeedsOf(states, events, c), tier, a, b)
  {
    var vs, ws := ViewsOf(states, events, c), DeedsOf(states, events, c);
    forall i | 0 <= i < |vs| ensures vs[i].waiting[tier] <==> states[i].Q(tier, c) != [] { ViewOk(states[i], c); }
    forall i | 0 <= i < |ws| ensures ws[i].took == TookFrom(events[i], c) {
      assert Follows(states[i], events[i], states[i + 1]);
    }
  }

  /** Bounded bypass. While an overdue tier waits unserved on a cpu, at most two overrides start there, both for other
      tiers, whatever is queued and taken over in between. And no more than twice does dispatch get to look for a
      starved tier outside the cooldown: every such look starts one of those overrides. */
  lemma BoundedBypass(states: seq<Sys>, events: seq<Event>, c: int, tier: int, a: nat, b: nat)
    requires RunOn(states, events, c) && WaitsUnserved(states, events, c, tier, a, b)
    requires Overrun(states[a], c, tier) > 0
    ensures var ws := DeedsOf(states, events, c)[a..b];
            V.CountChecks(ws) <= V.CountStarts(ws) <= 2
    ensures forall i :: a <= i < b ==> StartedOn(events[i], c) != tier
  {
    RunsAreWatched(states, events, c);
    WaitingInViews(states, events, c, tier, a, b);
    ViewOk(states[a], c);
    var vs, ws := ViewsOf(states, events, c), DeedsOf(states, events, c);
    V.BypassIsBounded(vs, ws, tier, a, b);
    forall i | a <= i < b ensures StartedOn(events[i], c) != tier {
      assert V.Step(vs[i], ws[i], vs[i + 1]);
      assert Follows(states[i], events[i], states[i + 1]);
    }
  }

  /** Overrides are never spurious. When one starts, tasks of its tier have been waiting there, and no cpu has served
      any of them, for strictly longer than the tier's budget. */
  lemma OverridesAreNeverSpurious(states: seq<Sys>, events: seq<Event>, c: int, n: nat) returns (m: nat)
    requires IsRun(states, events) && RunOn(states, events, c) && n < |events|
    requires StartedOn(events[n], c) != 0
    ensures m <= n && WaitsUnserved(states, events, c, events[n].ch.tier, m, n)
    ensures states[n].now - states[m].now > StarveBudget(events[n].ch.tier)
  {
    RunsAreWatched(states, events, c);
    var vs, ws := ViewsOf(states, events, c), DeedsOf(states, events, c);
    NothingWaitsAtFirst(states[0], c);
    assert Follows(states[n], events[n], states[n + 1]);
    assert V.Step(vs[n], ws[n], vs[n + 1]);
    m := V.StartsOnlyWhenOverdue(vs, ws, n);
    WaitingInViews(states, events, c, events[n].ch.tier, m, n);
  }

  lemma NothingWaitsAtFirst(s: Sys, c: int)
    requires Inv(s) && s.Cpu(c) && s == InitialSys(s.topo, s.now)
    ensures forall t :: INTERACTIVE <= t <= GREEDY ==> !ViewOf(s, c).waiting[t]
  {
    ViewOk(s, c);
    forall t | INTERACTIVE <= t <= GREEDY ensures s.Q(t, c) == [] {
      assert Qid(t, c) in s.q;
    }
  }

  /** Overrides are rationed: starts on a cpu are 10 ms apart, and over any stretch of a run the override time granted
      there is at most a tenth of the stretch and 1 ms. */
  lemma OverridesAreRationed(states: seq<Sys>, events: seq<Event>, c: int, a: nat, b: nat)
    requires RunOn(states, events, c) && a <= b <= |events| && events != []
    ensures var grants := V.CountStarts(DeedsOf(states, events, c)[a..b]);
            grants * OVERRIDE_BUDGET * 10 <= (states[b].now - states[a].now) + 10 * OVERRIDE_BUDGET
    ensures a < b && b < |events| && StartedOn(events[a], c) != 0 && StartedOn(events[b], c) != 0 ==>
              states[b].now - states[a].now >= OVERRIDE_COOLDOWN
  {
    RunsAreWatched(states, events, c);
    var vs, ws := ViewsOf(states, events, c), DeedsOf(states, events, c);
    V.StartsAreRationed(vs, ws, a, b);
    if a < b && b < |events| && StartedOn(events[a], c) != 0 {
      assert Follows(states[a], events[a], states[a + 1]) && Follows(states[b], events[b], states[b + 1]);
      V.StartsAreSpaced(vs, ws, a, b);
    }
  }

  /** The cpu time charged to one override, up to its last charge, overshoots the 1 ms budget by less than that charge.
      */
  lemma OverrideOvershootIsOneStretch(states: seq<Sys>, events: seq<Event>, c: int, a: nat, b: nat)
    requires RunOn(states, events, c) && a < b < |events| && StartedOn(events[a], c) != 0
    requires forall i :: a < i < b ==> StartedOn(events[i], c) == 0
    requires Follows(states[b], events[b], states[b + 1]) && Charged(states[b], events[b], c) > 0
    ensures V.SumCharged(DeedsOf(states, events, c)[a + 1..b + 1]) < OVERRIDE_BUDGET + Charged(states[b], events[b], c)
  {
    RunsAreWatched(states, events, c);
    var vs, ws := ViewsOf(states, events, c), DeedsOf(states, events, c);
    forall i | a <= i <= b ensures ws[i].started == StartedOn(events[i], c) { DeedSeen(states, events, c, ws, i); }
    DeedSeen(states, events, c, ws, b);
    V.ChargesStayInBudget(vs, ws, a, b);
  }

  lemma DeedSeen(states: seq<Sys>, events: seq<Event>, c: int, ws: seq<V.Deed>, i: nat)
    requires RunOn(states, events, c) && ws == DeedsOf(states, events, c) && i < |events|
    ensures ws[i].started == StartedOn(events[i], c)
    ensures Follows(states[i], events[i], states[i + 1]) && ws[i].charged == Charged(states[i], events[i], c)
  {
    assert Follows(states[i], events[i], states[i + 1]);
  }
}

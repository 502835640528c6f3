/** The starvation bookkeeping of one cpu, and what any event may do to it. Everything about overrides over whole runs
    is proved here, from what one event may do. */
module StarvationView {
  import opened Defs

  predicate IsOverridable(tier: int) { INTERACTIVE <= tier <= GREEDY }

  /** One cpu's view: the stamps and non-emptiness of its tiers, and the override in progress. */
  datatype View = View(now: nat, head: seq<nat>, waiting: seq<bool>, lastOverride: nat, ovLeft: nat) {
    predicate Ok()
    {
      |head| == 5 && |waiting| == 5 && lastOverride <= now && forall t :: INTERACTIVE <= t <= GREEDY ==> head[t] <= now
    }

    function Overrun(t: int): int
      requires |head| == 5 && |waiting| == 5 && IsOverridable(t)
    {
      if waiting[t] then now - head[t] - StarveBudget(t) else 0
    }

    predicate CoolingDown() { now - lastOverride < OVERRIDE_COOLDOWN }
  }

  /** What an event does on the cpu: the tier one of whose tasks is served from the cpu's queues (0 for none), the tier
      an override starts for (0 for none), whether dispatch looks for a starved tier outside the cooldown, and the time
      charged to the override in progress. */
  datatype Deed = Deed(took: int, started: int, checked: bool, charged: nat)

  predicate Stamped(v: View, w: Deed, v': View, t: int)
    requires v.Ok() && v'.Ok() && IsOverridable(t)
  {
    var restamp := w.took == t || (!v.waiting[t] && v'.waiting[t]);
    && v'.head[t] == (if restamp then v.now else v.head[t])
    && (restamp ==> v'.now == v.now)
  }

  /** No tier is further overdue than `t`. */
  predicate MostOverdue(v: View, t: int)
    requires v.Ok() && IsOverridable(t)
  {
    && v.Overrun(t) > 0
    && v.Overrun(INTERACTIVE) <= v.Overrun(t) && v.Overrun(NORMAL) <= v.Overrun(t) && v.Overrun(GREEDY) <= v.Overrun(t)
  }

  predicate AnyOverdue(v: View)
    requires v.Ok()
  {
    v.Overrun(INTERACTIVE) > 0 || v.Overrun(NORMAL) > 0 || v.Overrun(GREEDY) > 0
  }

  predicate OverrideStep(v: View, w: Deed, v': View)
    requires v.Ok() && v'.Ok()
  {
    && (w.charged > 0 ==> v.ovLeft > 0)
    && (w.checked && AnyOverdue(v) ==> w.started != 0)
    && (if w.started == 0 then
          && v'.lastOverride == v.lastOverride
          && (v'.ovLeft == 0 || v'.ovLeft == Elapsed(v.ovLeft, w.charged))
        else
          && IsOverridable(w.started) && w.took == w.started && MostOverdue(v, w.started) && !v.CoolingDown()
          && v'.lastOverride == v.now == v'.now && v'.ovLeft == OVERRIDE_BUDGET)
  }

  ghost predicate Step(v: View, w: Deed, v': View)
  {
    && v.Ok() && v'.Ok() && v.now <= v'.now
    && Stamped(v, w, v', INTERACTIVE) && Stamped(v, w, v', NORMAL) && Stamped(v, w, v', GREEDY)
    && OverrideStep(v, w, v')
  }

  ghost predicate Run(vs: seq<View>, ws: seq<Deed>)
  {
    && |vs| == |ws| + 1
    && forall i :: 0 <= i < |ws| ==> Step(vs[i], ws[i], vs[i + 1])
  }

  /** From `a` to `b` the tier never runs empty and none of its tasks is served. */
  ghost predicate WaitsUnserved(vs: seq<View>, ws: seq<Deed>, tier: int, a: nat, b: nat)
  {
    && |vs| == |ws| + 1 && IsOverridable(tier) && a <= b < |vs|
    && (forall i :: a <= i <= b ==> |vs[i].waiting| == 5 && vs[i].waiting[tier])
    && (forall i :: a <= i < b ==> ws[i].took != tier)
  }

  function CountStarts(ws: seq<Deed>): nat
  {
    if ws == [] then 0 else (if ws[0].started != 0 then 1 else 0) + CountStarts(ws[1..])
  }

  function CountChecks(ws: seq<Deed>): nat
  {
    if ws == [] then 0 else (if ws[0].checked then 1 else 0) + CountChecks(ws[1..])
  }

  function SumCharged(ws: seq<Deed>): nat
  {
    if ws == [] then 0 else SumCharged(ws[..|ws| - 1]) + ws[|ws| - 1].charged
  }

  // ----- bounded bypass -----

  /** 1 while tier `y` could still be preferred to `tier`: its deadline is not later. */
  function Outranks(v: View, y: int, tier: int): nat
    requires v.Ok() && IsOverridable(y) && IsOverridable(tier)
  {
    if y != tier && v.head[y] + StarveBudget(y) <= v.head[tier] + StarveBudget(tier) then 1 else 0
  }

  function Rivals(v: View, tier: int): nat
    requires v.Ok() && IsOverridable(tier)
  {
    Outranks(v, INTERACTIVE, tier) + Outranks(v, NORMAL, tier) + Outranks(v, GREEDY, tier)
  }

  /** Once `tier` is overdue, serving another tier restamps that one behind it for good. */
  lemma FewerRivals(v: View, w: Deed, v': View, tier: int)
    requires Step(v, w, v') && IsOverridable(tier)
    requires v.Overrun(tier) > 0 && w.took != tier && v'.waiting[tier]
    ensures v'.Overrun(tier) > 0
    ensures Rivals(v', tier) + (if w.started != 0 then 1 else 0) <= Rivals(v, tier)
    ensures w.checked ==> w.started != 0
  {
  }

  lemma {:induction false} BypassIsBounded(vs: seq<View>, ws: seq<Deed>, tier: int, a: nat, b: nat)
    requires Run(vs, ws) && WaitsUnserved(vs, ws, tier, a, b)
    requires vs[a].Ok() && vs[a].Overrun(tier) > 0
    ensures CountStarts(ws[a..b]) <= Rivals(vs[a], tier) <= 2
    ensures CountChecks(ws[a..b]) <= CountStarts(ws[a..b])
    decreases b - a
  {
    if a < b {
      assert Step(vs[a], ws[a], vs[a + 1]);
      FewerRivals(vs[a], ws[a], vs[a + 1], tier);
      BypassIsBounded(vs, ws, tier, a + 1, b);
      assert ws[a..b][1..] == ws[a + 1..b];
    }
  }

  // ----- overrides are never spurious -----

  /** The stamp of a waiting tier is the moment since which it has waited unserved. */
  lemma {:induction false} WaitingSince(vs: seq<View>, ws: seq<Deed>, tier: int, n: nat) returns (m: nat)
    requires Run(vs, ws) && IsOverridable(tier) && n < |vs|
    requires vs[0].Ok() && !vs[0].waiting[tier]
    requires vs[n].Ok() && vs[n].waiting[tier]
    ensures m <= n && WaitsUnserved(vs, ws, tier, m, n) && vs[m].now == vs[n].head[tier]
    decreases n
  {
    assert n > 0;
    assert Step(vs[n - 1], ws[n - 1], vs[n]);
    if ws[n - 1].took == tier || !vs[n - 1].waiting[tier] {
      m := n;
    } else {
      m := WaitingSince(vs, ws, tier, n - 1);
    }
  }

  lemma StartsOnlyWhenOverdue(vs: seq<View>, ws: seq<Deed>, n: nat) returns (m: nat)
    requires Run(vs, ws) && n < |ws| && ws[n].started != 0
    requires vs[0].Ok() && forall t :: IsOverridable(t) ==> !vs[0].waiting[t]
    ensures m <= n && WaitsUnserved(vs, ws, ws[n].started, m, n)
    ensures vs[n].now - vs[m].now > StarveBudget(ws[n].started)
  {
    assert Step(vs[n], ws[n], vs[n + 1]);
    m := WaitingSince(vs, ws, ws[n].started, n);
  }

  // ----- rationing -----

  lemma {:induction false} StartsAreSpaced(vs: seq<View>, ws: seq<Deed>, i: nat, j: nat)
    requires Run(vs, ws) && i < j < |ws| && ws[i].started != 0
    ensures vs[i].now <= vs[j].lastOverride <= vs[j].now
    ensures ws[j].started != 0 ==> vs[j].now - vs[i].now >= OVERRIDE_COOLDOWN
    decreases j
  {
    assert Step(vs[j - 1], ws[j - 1], vs[j]);
    assert Step(vs[j], ws[j], vs[j + 1]);
    if i < j - 1 {
      StartsAreSpaced(vs, ws, i, j - 1);
    }
  }

  lemma {:induction false} CountStartsAppend(ws: seq<Deed>, w: Deed)
    ensures CountStarts(ws + [w]) == CountStarts(ws) + (if w.started != 0 then 1 else 0)
  {
    if ws == [] {
      assert [w][1..] == [];
    } else {
      CountStartsAppend(ws[1..], w);
      assert (ws + [w])[1..] == ws[1..] + [w];
    }
  }

  /** Over any window, the granted override time is at most a tenth of its length and one more grant. */
  lemma {:induction false} StartsAreRationed(vs: seq<View>, ws: seq<Deed>, a: nat, b: nat)
    requires Run(vs, ws) && a <= b <= |ws| && ws != []
    ensures vs[a].now <= vs[b].now
    ensures CountStarts(ws[a..b]) * OVERRIDE_COOLDOWN <= vs[b].now - vs[a].now + OVERRIDE_COOLDOWN
    ensures CountStarts(ws[a..b]) > 0 ==>
              CountStarts(ws[a..b]) * OVERRIDE_COOLDOWN <= vs[b].lastOverride - vs[a].now + OVERRIDE_COOLDOWN
    decreases b
  {
    if a < b {
      StartsAreRationed(vs, ws, a, b - 1);
      assert Step(vs[b - 1], ws[b - 1], vs[b]);
      assert ws[a..b] == ws[a..b - 1] + [ws[b - 1]];
      CountStartsAppend(ws[a..b - 1], ws[b - 1]);
    }
  }

  lemma ChargeStep(v: View, w: Deed, v': View, sum: nat)
    requires Step(v, w, v') && w.started == 0
    requires v.ovLeft > 0 ==> v.ovLeft == OVERRIDE_BUDGET - sum
    ensures v'.ovLeft > 0 ==> v'.ovLeft == OVERRIDE_BUDGET - (sum + w.charged)
    ensures w.charged > 0 ==> sum < OVERRIDE_BUDGET
  {
  }

  lemma SumChargedLast(ws: seq<Deed>, a: nat, b: nat)
    requires a < b <= |ws|
    ensures SumCharged(ws[a..b]) == SumCharged(ws[a..b - 1]) + ws[b - 1].charged
  {
    assert ws[a..b][..b - a - 1] == ws[a..b - 1];
  }

  /** Between two starts, what is left of the budget is what has not been charged, until it is used up or given up. */
  lemma {:induction false} LeftIsUncharged(vs: seq<View>, ws: seq<Deed>, a: nat, b: nat)
    requires Run(vs, ws) && a < b < |vs| && ws[a].started != 0
    requires forall i :: a < i < b ==> ws[i].started == 0
    ensures vs[b].ovLeft > 0 ==> vs[b].ovLeft == OVERRIDE_BUDGET - SumCharged(ws[a + 1..b])
    decreases b
  {
    if a + 1 < b {
      LeftIsUncharged(vs, ws, a, b - 1);
      SumChargedLast(ws, a + 1, b);
      ChargeAt(vs, ws, b - 1, SumCharged(ws[a + 1..b - 1]));
    } else {
      StartAt(vs, ws, a);
      assert ws[a + 1..b] == [];
    }
  }

  lemma ChargeAt(vs: seq<View>, ws: seq<Deed>, i: nat, sum: nat)
    requires Run(vs, ws) && i < |ws| && ws[i].started == 0
    requires vs[i].ovLeft > 0 ==> vs[i].ovLeft == OVERRIDE_BUDGET - sum
    ensures vs[i + 1].ovLeft > 0 ==> vs[i + 1].ovLeft == OVERRIDE_BUDGET - (sum + ws[i].charged)
  {
    ChargeStep(vs[i], ws[i], vs[i + 1], sum);
  }

  lemma StartAt(vs: seq<View>, ws: seq<Deed>, i: nat)
    requires Run(vs, ws) && i < |ws| && ws[i].started != 0
    ensures vs[i + 1].ovLeft == OVERRIDE_BUDGET
  {
    assert Step(vs[i], ws[i], vs[i + 1]);
  }

  /** So a charge only comes while the earlier ones together are below the budget: all of them overshoot it by less than
      the last stretch. */
  lemma ChargesStayInBudget(vs: seq<View>, ws: seq<Deed>, a: nat, b: nat)
    requires Run(vs, ws) && a < b < |ws| && ws[a].started != 0
    requires forall i :: a < i < b ==> ws[i].started == 0
    requires ws[b].charged > 0
    ensures SumCharged(ws[a + 1..b + 1]) < OVERRIDE_BUDGET + ws[b].charged
  {
    LeftIsUncharged(vs, ws, a, b);
    assert Step(vs[b], ws[b], vs[b + 1]);
    SumChargedLast(ws, a + 1, b + 1);
  }
}

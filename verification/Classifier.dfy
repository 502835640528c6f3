/** The tier a task belongs to: a wish from its criticality, a cap from its duty, and hysteresis on the duty. */
module Classifier {
  import opened Defs
  import opened Accounting

  function TierFromCrit(crit: int): int
  {
    if crit >= CRIT_EDGE_LC then LC
    else if crit >= CRIT_EDGE_INTERACTIVE then INTERACTIVE
    else if crit >= CRIT_EDGE_NORMAL then NORMAL
    else GREEDY
  }

  function TierCapFromDuty(duty: int): int
  {
    if duty < DUTY_CAP_LC then LC
    else if duty < DUTY_CAP_INTERACTIVE then INTERACTIVE
    else if duty < DUTY_CAP_NORMAL then NORMAL
    else GREEDY
  }

  function TargetTier(crit: int, duty: int): int
  {
    var wanted, allowed := TierFromCrit(crit), TierCapFromDuty(duty);
    if wanted > allowed then wanted else allowed
  }

  /** The tier a sampled user task moves to. */
  function Reclassify(tier: int, crit: int, duty: int): int
  {
    var pessimistic := TargetTier(crit, duty + DUTY_HYST);
    var optimistic := TargetTier(crit, duty - DUTY_HYST);
    if pessimistic < tier then pessimistic
    else if optimistic > tier then optimistic
    else tier
  }

  function Classify(tc: TaskCtx, kthread: bool, now: nat): TaskCtx
  {
    var crit := CalcCrit(tc, now);
    var tier := if tc.samples < DUTY_SAMPLES_NEEDED then GREEDY else Reclassify(tc.tier, crit, tc.duty);
    tc.(crit := crit,
        tier := if kthread && tc.duty < DUTY_CAP_INTERACTIVE && tier > INTERACTIVE then INTERACTIVE else tier)
  }

  function SanitizeTier(tier: int): int { if tier < LC || tier > GREEDY then GREEDY else tier }

  function EffectiveTier(tc: TaskCtx): int
  {
    if tc.boost < SanitizeTier(tc.tier) then tc.boost else SanitizeTier(tc.tier)
  }

  /** What every callback keeps about one task. */
  predicate TaskOk(tc: TaskCtx)
  {
    && LC <= tc.tier <= GREEDY
    && (LC <= tc.boost <= NORMAL || tc.boost == EMPTY)
    && DutyOk(tc)
    && IntervalOk(tc.waitInterval) && IntervalOk(tc.wakeInterval)
    && tc.crit <= 32
    && tc.samples <= DUTY_SAMPLES_MAX
  }

  lemma ClassifyKeepsTaskOk(tc: TaskCtx, kthread: bool, now: nat)
    requires TaskOk(tc)
    ensures TaskOk(Classify(tc, kthread, now))
  {
    CritAtMost32(tc, now);
  }

  /** Hysteresis is a clamp: the old tier is moved only as far as into the band between the optimistic and the
      pessimistic target, which is never empty. */
  lemma ReclassifyIsClamp(tier: int, crit: int, duty: int)
    ensures var lo, hi := TargetTier(crit, duty - DUTY_HYST), TargetTier(crit, duty + DUTY_HYST);
            && lo <= hi
            && lo <= Reclassify(tier, crit, duty) <= hi
            && (lo <= tier <= hi <==> Reclassify(tier, crit, duty) == tier)
            && forall t :: lo <= t <= hi ==> Distance(tier, Reclassify(tier, crit, duty)) <= Distance(tier, t)
    ensures Reclassify(Reclassify(tier, crit, duty), crit, duty) == Reclassify(tier, crit, duty)
  {
  }

  // ----- reversals over a whole history of tiers and duties -----

  datatype Direction = Unmoved | Promoted | Demoted

  function Turn(tier: int, tier': int, last: Direction): Direction
  {
    if tier' < tier then Promoted else if tier' > tier then Demoted else last
  }

  /** Changes of direction along the tiers `ts`, when the last move before them was `last`. */
  function Reversals(ts: seq<int>, last: Direction): nat
    decreases |ts|
  {
    if |ts| < 2 then 0
    else
      var turn := Turn(ts[0], ts[1], last);
      (if last != Unmoved && turn != last then 1 else 0) + Reversals(ts[1..], turn)
  }

  function TotalVariation(ds: seq<int>): nat
  {
    if |ds| < 2 then 0 else Distance(ds[0], ds[1]) + TotalVariation(ds[1..])
  }

  /** A task goes through the tiers `ts` while its duty goes through `ds`: each time it stays, or is classified anew. */
  predicate History(ts: seq<int>, ds: seq<int>, crit: int)
  {
    |ts| == |ds| && forall i :: 0 <= i < |ts| - 1 ==> Moved(ts[i], ts[i + 1], ds[i + 1], crit)
  }

  predicate Moved(tier: int, tier': int, duty': int, crit: int)
  {
    tier' == tier || tier' == Reclassify(tier, crit, duty')
  }

  /** The duty from which a task at `tier` last moved there, as far as the next reversal is concerned. */
  predicate Anchored(tier: int, crit: int, last: Direction, anchor: int)
  {
    match last
    case Unmoved => true
    case Promoted => TargetTier(crit, anchor + DUTY_HYST) <= tier
    case Demoted => TargetTier(crit, anchor - DUTY_HYST) >= tier
  }

  lemma ReversalCosts21(tier: int, crit: int, last: Direction, anchor: int, duty: int)
    requires last != Unmoved && Anchored(tier, crit, last, anchor)
    requires Turn(tier, Reclassify(tier, crit, duty), last) != last
    ensures Distance(anchor, duty) >= 2 * DUTY_HYST + 1
  {
  }

  lemma HistoryGoesOn(ts: seq<int>, ds: seq<int>, crit: int)
    requires History(ts, ds, crit) && |ts| > 0
    ensures History(ts[1..], ds[1..], crit)
  {
    var ts', ds' := ts[1..], ds[1..];
    forall i | 0 <= i < |ts'| - 1 ensures Moved(ts'[i], ts'[i + 1], ds'[i + 1], crit) {
      assert Moved(ts[i + 1], ts[i + 2], ds[i + 2], crit);
    }
  }

  lemma {:induction false} ReversalsFromAnchor(ts: seq<int>, ds: seq<int>, crit: int, last: Direction, anchor: int)
    requires History(ts, ds, crit) && |ts| > 0 && Anchored(ts[0], crit, last, anchor)
    ensures 21 * Reversals(ts, last) <= Distance(anchor, ds[0]) + TotalVariation(ds)
    decreases |ts|
  {
    if |ts| > 1 {
      HistoryGoesOn(ts, ds, crit);
      assert Moved(ts[0], ts[1], ds[1], crit);
      var turn := Turn(ts[0], ts[1], last);
      if last != Unmoved && turn != last {
        ReversalCosts21(ts[0], crit, last, anchor, ds[1]);
      }
      ReversalsFromAnchor(ts[1..], ds[1..], crit, turn, if ts[1] == ts[0] then anchor else ds[1]);
    }
  }

  /** A user task with enough samples and a steady criticality pays at least 21 units of duty movement for every time
      its classification turns from promoting to demoting or back. */
  lemma ReversalsAreRare(ts: seq<int>, ds: seq<int>, crit: int)
    requires History(ts, ds, crit)
    ensures 21 * Reversals(ts, Unmoved) <= TotalVariation(ds)
  {
    if ts != [] {
      ReversalsFromAnchor(ts, ds, crit, Unmoved, ds[0]);
    }
  }

  /** `n` swings across the LC cap, from `tier` on. */
  function Swings(n: nat, tier: int): (ts: seq<int>)
    ensures |ts| == n + 1 && ts[0] == tier
  {
    [tier] + if n == 0 then [] else Swings(n - 1, LC + INTERACTIVE - tier)
  }

  /** With duty 40 a task of criticality 5 goes to LC, and with 61 back to INTERACTIVE. */
  function SwingDuties(n: nat, tier: int): (ds: seq<int>)
    ensures |ds| == n + 1 && ds[0] == if tier == LC then 40 else 61
  {
    [if tier == LC then 40 else 61] + if n == 0 then [] else SwingDuties(n - 1, LC + INTERACTIVE - tier)
  }

  lemma {:induction false} SwingsReverse(n: nat, tier: int)
    requires LC <= tier <= INTERACTIVE
    ensures History(Swings(n, tier), SwingDuties(n, tier), 5)
    ensures Reversals(Swings(n, tier), if tier == LC then Promoted else Demoted) == n
    ensures TotalVariation(SwingDuties(n, tier)) == 21 * n
  {
    if n > 0 {
      var other := LC + INTERACTIVE - tier;
      SwingsReverse(n - 1, other);
      var ts, ds, ts', ds' := Swings(n, tier), SwingDuties(n, tier), Swings(n - 1, other), SwingDuties(n - 1, other);
      assert ts[1..] == ts' && ds[1..] == ds';
      forall i | 0 <= i < |ts| - 1 ensures Moved(ts[i], ts[i + 1], ds[i + 1], 5) {
        if i > 0 { assert Moved(ts'[i - 1], ts'[i], ds'[i], 5); }
      }
    }
  }

  /** The bound is tight, however often a task turns: there are histories with any number of reversals and a duty
      movement of 21 for each. */
  lemma ReversalsBoundIsTight(n: nat) returns (ts: seq<int>, ds: seq<int>)
    ensures History(ts, ds, 5) && Reversals(ts, Unmoved) == n && TotalVariation(ds) == 21 * n
  {
    SwingsReverse(n, LC);
    ts, ds := [INTERACTIVE] + Swings(n, LC), [40] + SwingDuties(n, LC);
    assert ts[1..] == Swings(n, LC) && ds[1..] == SwingDuties(n, LC);
    forall i | 0 <= i < |ts| - 1 ensures Moved(ts[i], ts[i + 1], ds[i + 1], 5) {
      if i > 0 { assert Moved(Swings(n, LC)[i - 1], Swings(n, LC)[i], SwingDuties(n, LC)[i], 5); }
    }
  }
}

/** What the numbers of one task mean: what raises and lowers its duty and its criticality, and which tier they earn. */
module TaskLaws {
  import opened Defs
  import opened Accounting
  import opened Classifier

  // ----- duty -----

  /** Of two tasks that have slept the same, the one that ran more has no lower duty. */
  lemma DutyGrowsWithRun(run: nat, run': nat, sleep: nat)
    requires run <= run'
    ensures TaskDuty(run, sleep) <= TaskDuty(run', sleep)
  {
    var k := TaskDuty(run, sleep);
    TaskDutyRange(run, sleep);
    assert k * (run + sleep + 1) <= run * 1024;
    MulLe(k, 1024, run' - run);
    assert k * (run' + sleep + 1) == k * (run + sleep + 1) + k * (run' - run);
    QuotientAtLeast(run' * 1024, run' + sleep + 1, k);
  }

  lemma DutyFallsWithSleep(run: nat, sleep: nat, sleep': nat)
    requires sleep <= sleep'
    ensures TaskDuty(run, sleep') <= TaskDuty(run, sleep)
  {
    var k := TaskDuty(run, sleep');
    assert k * (run + sleep' + 1) <= run * 1024;
    MulLe(run + sleep + 1, run + sleep' + 1, k);
    QuotientAtLeast(run * 1024, run + sleep + 1, k);
  }

  /** Running never lowers the duty, but for the one point that halving may cost; sleeping never raises it. */
  lemma RunningRaisesDuty(tc: TaskCtx, ran: nat)
    requires tc.runAcc + tc.sleepAcc <= 2 * DUTY_WINDOW
    ensures var t := DutyAccount(tc, ran, 0); TaskDuty(t.runAcc, t.sleepAcc) >= TaskDuty(tc.runAcc, tc.sleepAcc) - 1
  {
    var r := tc.runAcc + Min(ran, DUTY_WINDOW);
    DutyGrowsWithRun(tc.runAcc, r, tc.sleepAcc);
    if r + tc.sleepAcc > 2 * DUTY_WINDOW { HalvingKeepsDuty(r, tc.sleepAcc); }
  }

  lemma SleepingLowersDuty(tc: TaskCtx, slept: nat)
    requires tc.runAcc + tc.sleepAcc <= 2 * DUTY_WINDOW
    ensures var t := DutyAccount(tc, 0, slept); TaskDuty(t.runAcc, t.sleepAcc) <= TaskDuty(tc.runAcc, tc.sleepAcc)
  {
    var s := tc.sleepAcc + Min(slept, DUTY_WINDOW);
    DutyFallsWithSleep(tc.runAcc, tc.sleepAcc, s);
    if tc.runAcc + s > 2 * DUTY_WINDOW { HalvingKeepsDuty(tc.runAcc, s); }
  }

  // ----- criticality -----

  lemma LogReaches(v: nat, a: nat)
    requires v > 0
    ensures FloorLog2(v) >= a <==> v >= Pow2(a)
  {
    FloorLog2Brackets(v);
    if FloorLog2(v) >= a { Pow2Monotone(a, FloorLog2(v)); } else { Pow2Monotone(FloorLog2(v) + 1, a); }
  }

  lemma {:induction false} Pow2Monotone(a: nat, b: nat)
    requires a <= b
    ensures 1 <= Pow2(a) <= Pow2(b)
    decreases b
  {
    if b > 0 {
      if a == b { Pow2Monotone(a - 1, b - 1); } else { Pow2Monotone(a, b - 1); }
    }
  }

  lemma QuotientReaches(n: nat, e: nat, p: nat)
    requires e > 0
    ensures n / e >= p <==> p * e <= n
  {
    var q := n / e;
    assert q * e <= n < q * e + e;
    if q >= p { MulLe(p, q, e); } else { MulLe(q + 1, p, e); }
  }

  /** No event for longer than eight times the average between events. */
  predicate Silent(avg: nat, last: nat, now: nat) { Elapsed(now, last) > avg * 8 }

  /** While events keep coming, the rate is the number of times the average fits in a second, in doublings. */
  lemma RateReaches(avg: nat, last: nat, now: nat, a: nat)
    requires IntervalOk(avg) && !Silent(avg, last, now)
    ensures Rate(avg, last, now) >= a <==> Pow2(a) * avg <= CRIT_INTERVAL_REF
  {
    LogReaches(CRIT_INTERVAL_REF / avg, a);
    QuotientReaches(CRIT_INTERVAL_REF, avg, Pow2(a));
  }

  /** After that it is the number of doublings of the silence; a second of silence, and it is gone. */
  lemma SilentRate(avg: nat, last: nat, now: nat, a: nat)
    requires IntervalOk(avg) && Silent(avg, last, now) && a > 0
    ensures Rate(avg, last, now) >= a <==> Pow2(a) * (now - last) <= CRIT_INTERVAL_REF
  {
    var since := now - last;
    var e := EffectiveInterval(avg, last, now);
    LogReaches(CRIT_INTERVAL_REF / e, a);
    QuotientReaches(CRIT_INTERVAL_REF, e, Pow2(a));
    Pow2Monotone(1, a);
    assert Pow2(1) == 2;
    if since > CRIT_INTERVAL_REF { MulLe(2, Pow2(a), since); }
  }

  /** Falling silent costs a task at least three points of the rate at once, or all it has. */
  lemma SilenceCosts3(avg: nat, last: nat, now: nat)
    requires IntervalOk(avg) && Silent(avg, last, now)
    ensures Rate(avg, last, now) == 0 || Rate(avg, last, now) + 3 <= Rate(avg, now, now)
  {
    var a := Rate(avg, last, now);
    if a > 0 {
      SilentRate(avg, last, now, a);
      Pow2Adds(3, a);
      assert Pow2(3) == 8;
      MulLe(avg * 8, now - last, Pow2(a));
      assert Pow2(a + 3) * avg == Pow2(a) * (avg * 8);
      RateReaches(avg, now, now, a + 3);
    }
  }

  /** The criticality of a task that is not silent: it reaches `k` exactly when its wakeups and its waking of others,
      together, come that often. */
  lemma CritReaches(tc: TaskCtx, now: nat, k: nat)
    requires IntervalOk(tc.waitInterval) && IntervalOk(tc.wakeInterval)
    requires !Silent(tc.waitInterval, tc.lastWoken, now) && !Silent(tc.wakeInterval, tc.lastWake, now)
    ensures CalcCrit(tc, now) >= k <==>
            exists a :: 0 <= a <= k && Comes(tc.waitInterval, a) && Comes(tc.wakeInterval, k - a)
  {
    var u, v := Rate(tc.waitInterval, tc.lastWoken, now), Rate(tc.wakeInterval, tc.lastWake, now);
    CritAtMost32(tc, now);
    forall a: nat ensures Comes(tc.waitInterval, a) <==> u >= a { RateReaches(tc.waitInterval, tc.lastWoken, now, a); }
    forall b: nat ensures Comes(tc.wakeInterval, b) <==> v >= b { RateReaches(tc.wakeInterval, tc.lastWake, now, b); }
    if u + v >= k {
      var a := if u < k then u else k;
      assert Comes(tc.waitInterval, a) && Comes(tc.wakeInterval, k - a);
    }
  }

  /** Events with this average come 2^a times a second. */
  predicate Comes(avg: nat, a: nat) { Pow2(a) * avg <= CRIT_INTERVAL_REF }

  // ----- the tier that criticality and duty earn -----

  /** The criticality a tier asks for, and the duty it does not admit. */
  function EdgeOf(t: int): int
    requires LC <= t <= NORMAL
  {
    [CRIT_EDGE_LC, CRIT_EDGE_INTERACTIVE, CRIT_EDGE_NORMAL][t - LC]
  }

  function CapOf(t: int): int
    requires LC <= t <= NORMAL
  {
    [DUTY_CAP_LC, DUTY_CAP_INTERACTIVE, DUTY_CAP_NORMAL][t - LC]
  }

  /** A task earns a tier, or a better one, wherever it comes from. */
  predicate Earns(crit: int, duty: int, t: int)
    requires LC <= t <= NORMAL
  {
    crit >= EdgeOf(t) && duty + DUTY_HYST < CapOf(t)
  }

  /** A task that has a tier may keep it. */
  predicate MayKeep(crit: int, duty: int, t: int)
    requires LC <= t <= NORMAL
  {
    crit >= EdgeOf(t) && duty - DUTY_HYST < CapOf(t)
  }

  /** Classification: tier `t` or better comes out exactly for a task that earns it, or that comes from there and may
      keep it. */
  lemma TierEarned(tier: int, crit: int, duty: int, t: int)
    requires LC <= tier <= GREEDY && LC <= t <= NORMAL
    ensures Reclassify(tier, crit, duty) <= t <==> Earns(crit, duty, t) || (tier <= t && MayKeep(crit, duty, t))
    ensures LC <= Reclassify(tier, crit, duty) <= GREEDY
  {
  }

  /** So from every tier it comes out exactly when it is earned. */
  lemma EarnedFromAnywhere(crit: int, duty: int, t: int)
    requires LC <= t <= NORMAL
    ensures (forall tier :: LC <= tier <= GREEDY ==> Reclassify(tier, crit, duty) <= t) <==> Earns(crit, duty, t)
  {
    TierEarned(GREEDY, crit, duty, t);
    forall tier | LC <= tier <= GREEDY ensures Earns(crit, duty, t) ==> Reclassify(tier, crit, duty) <= t {
      TierEarned(tier, crit, duty, t);
    }
  }

  /** A higher criticality never gives a worse tier, nor a higher duty a better one. */
  lemma CritNeverHurts(tier: int, crit: int, crit': int, duty: int, duty': int)
    requires LC <= tier <= GREEDY && crit <= crit' && duty' <= duty
    ensures Reclassify(tier, crit', duty') <= Reclassify(tier, crit, duty)
  {
    var t := Reclassify(tier, crit, duty);
    TierEarned(tier, crit, duty, LC);
    TierEarned(tier, crit', duty', LC);
    if INTERACTIVE <= t <= NORMAL {
      TierEarned(tier, crit, duty, t);
      TierEarned(tier, crit', duty', t);
    }
    TierEarned(tier, crit', duty', NORMAL);
  }

  /** What a task is classified as: GREEDY without samples; for a user task with samples the tier above; a kernel thread
      is treated as a user task, but with little duty it is never worse than INTERACTIVE. */
  lemma ClassifiedTier(tc: TaskCtx, now: nat)
    requires TaskOk(tc)
    ensures tc.samples < DUTY_SAMPLES_NEEDED ==> Classify(tc, false, now).tier == GREEDY
    ensures tc.samples >= DUTY_SAMPLES_NEEDED ==> forall t :: LC <= t <= NORMAL ==>
              (Classify(tc, false, now).tier <= t <==>
               Earns(CalcCrit(tc, now), tc.duty, t) || (tc.tier <= t && MayKeep(CalcCrit(tc, now), tc.duty, t)))
    ensures Classify(tc, true, now).tier ==
            if tc.duty < DUTY_CAP_INTERACTIVE then Min(INTERACTIVE, Classify(tc, false, now).tier)
            else Classify(tc, false, now).tier
    ensures Classify(tc, false, now).crit == CalcCrit(tc, now)
  {
    if tc.samples >= DUTY_SAMPLES_NEEDED {
      forall t | LC <= t <= NORMAL
        ensures Reclassify(tc.tier, CalcCrit(tc, now), tc.duty) <= t <==>
                Earns(CalcCrit(tc, now), tc.duty, t) || (tc.tier <= t && MayKeep(CalcCrit(tc, now), tc.duty, t))
      {
        TierEarned(tc.tier, CalcCrit(tc, now), tc.duty, t);
      }
    }
  }
}

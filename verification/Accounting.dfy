/** Per-task accounting: duty accumulators, wake-interval averages and the latency-criticality score. */
module Accounting {
  import opened Defs

  datatype TaskCtx = TaskCtx(
    tier: int,          // own tier
    boost: int,         // tier of a wake boost, EMPTY when there is none
    boostUsed: nat,
    blockedAt: nat,
    duty: int,
    runAcc: nat,
    sleepAcc: nat,
    startedAt: nat,
    samples: nat,
    granted: nat,
    resume: nat,
    lastMigrated: nat,
    waitInterval: nat,
    wakeInterval: nat,
    lastWoken: nat,
    lastWake: nat,
    crit: nat)

  // ----- duty -----

  function TaskDuty(run: nat, sleep: nat): nat { (run * 1024) / (run + sleep + 1) }

  function DutyAccount(tc: TaskCtx, run: nat, slept: nat): TaskCtx
  {
    var r := tc.runAcc + Min(run, DUTY_WINDOW);
    var s := tc.sleepAcc + Min(slept, DUTY_WINDOW);
    if r + s > 2 * DUTY_WINDOW then tc.(runAcc := r / 2, sleepAcc := s / 2)
    else tc.(runAcc := r, sleepAcc := s)
  }

  /** The accumulators hold between 80 and 200 ms, and duty fits ten bits. */
  predicate DutyOk(tc: TaskCtx)
  {
    && DUTY_INIT_RUN <= tc.runAcc + tc.sleepAcc <= 2 * DUTY_WINDOW
    && 0 <= tc.duty < DUTY_RANGE
  }

  lemma TaskDutyRange(run: nat, sleep: nat)
    ensures 0 <= TaskDuty(run, sleep) < DUTY_RANGE
    ensures run + sleep <= 2 * DUTY_WINDOW ==> run * 1024 < 0x1_0000_0000_0000_0000
  {
    var d, k := run + sleep + 1, TaskDuty(run, sleep);
    if k >= 1024 {
      MulLe(1024, k, d);
    }
  }

  lemma MulLe(a: int, b: int, c: nat)
    requires a <= b
    ensures a * c <= b * c
  {
  }

  lemma QuotientAtLeast(a: nat, d: nat, m: int)
    requires d > 0 && m * d <= a
    ensures m <= a / d
  {
    var q := a / d;
    if q < m {
      MulLe(q + 1, m, d);
    }
  }

  lemma DutyAccountKeepsWindow(tc: TaskCtx, run: nat, slept: nat)
    requires DUTY_INIT_RUN <= tc.runAcc + tc.sleepAcc <= 2 * DUTY_WINDOW
    ensures var t := DutyAccount(tc, run, slept);
            DUTY_INIT_RUN <= t.runAcc + t.sleepAcc <= 2 * DUTY_WINDOW
  {
  }

  /** Halving both accumulators together never raises the duty and lowers it by at most one. */
  lemma HalvingKeepsDuty(run: nat, sleep: nat)
    requires run + sleep > 2 * DUTY_WINDOW
    ensures TaskDuty(run, sleep) - 1 <= TaskDuty(run / 2, sleep / 2) <= TaskDuty(run, sleep)
  {
    HalvingNeverRaises(run, sleep);
    HalvingLowersByOne(run, sleep);
  }

  lemma HalvingNeverRaises(run: nat, sleep: nat)
    ensures TaskDuty(run / 2, sleep / 2) <= TaskDuty(run, sleep)
  {
    var r', d' := run / 2, run / 2 + sleep / 2 + 1;
    var k' := TaskDuty(r', sleep / 2);
    HalvingCrossTerms(run, sleep);
    assert k' * d' <= r' * 1024;
    CrossLe(r' * 1024, d', run * 1024, run + sleep + 1, k');
    QuotientAtLeast(run * 1024, run + sleep + 1, k');
  }

  lemma HalvingLowersByOne(run: nat, sleep: nat)
    requires run + sleep > 2 * DUTY_RANGE
    ensures TaskDuty(run, sleep) - 1 <= TaskDuty(run / 2, sleep / 2)
  {
    var d, k := run + sleep + 1, TaskDuty(run, sleep);
    var r', d' := run / 2, run / 2 + sleep / 2 + 1;
    TaskDutyRange(run, sleep);
    if k > 0 {
      HalvedQuotient(k, d, d', run * 1024, r' * 1024);
      QuotientAtLeast(r' * 1024, d', k - 1);
    }
  }

  lemma HalvedQuotient(k: nat, d: nat, d': nat, a: nat, a': nat)
    requires 1 <= k && k * d <= a
    requires 2 * d' <= d + 1 && 2 * a' >= a - 1024 && d >= k + 1023
    ensures (k - 1) * d' <= a'
  {
    MulLe(2 * d', d + 1, k - 1);
    assert (d + 1) * (k - 1) == k * d + k - d - 1;
    assert (2 * d') * (k - 1) == 2 * ((k - 1) * d');
  }

  lemma HalvingCrossTerms(run: nat, sleep: nat)
    ensures (run / 2 * 1024) * (run + sleep + 1) <= (run * 1024) * (run / 2 + sleep / 2 + 1)
  {
    CrossTerms(run / 2, run % 2, run + sleep + 1, run / 2 + sleep / 2 + 1);
    Scaled(run / 2, run + sleep + 1, run, run / 2 + sleep / 2 + 1);
  }

  lemma CrossTerms(a: nat, i: nat, d: nat, d': nat)
    requires d <= 2 * d' + i && a <= d'
    ensures a * d <= (2 * a + i) * d'
  {
    MulLe(d, 2 * d' + i, a);
    MulLe(a, d', i);
    Distributes(d', a, i);
    Distributes(a, d', i);
    Commutes(a, d');
  }

  lemma Distributes(x: nat, y: nat, i: nat)
    ensures (2 * y + i) * x == 2 * (y * x) + i * x
  {
  }

  lemma Commutes(x: nat, y: nat)
    ensures x * y == y * x
  {
  }

  lemma Scaled(a: nat, d: nat, b: nat, e: nat)
    requires a * d <= b * e
    ensures (a * 1024) * d <= (b * 1024) * e
  {
    ScalesOut(a, d);
    ScalesOut(b, e);
  }

  lemma ScalesOut(a: nat, d: nat)
    ensures (a * 1024) * d == 1024 * (a * d)
  {
  }

  /** If a/d <= A/D, cross-multiplied, and m <= a/d, then m <= A/D. */
  lemma CrossLe(a: nat, d: nat, A: nat, D: nat, m: nat)
    requires d > 0 && D > 0 && a * D <= A * d && m * d <= a
    ensures m * D <= A
  {
    MulLe(m * d, a, D);
    assert (m * D) * d == (m * d) * D;
    if m * D > A {
      MulLe(A + 1, m * D, d);
    }
  }

  // ----- wake-interval averages -----

  function Ewma(avg: nat, sample: nat): nat { avg - avg / 4 + sample / 4 }

  function ClampInterval(interval: nat): nat
  {
    if interval < CRIT_INTERVAL_MIN then CRIT_INTERVAL_MIN
    else if interval > CRIT_INTERVAL_REF then CRIT_INTERVAL_REF
    else interval
  }

  predicate IntervalOk(interval: nat) { CRIT_INTERVAL_MIN <= interval <= CRIT_INTERVAL_REF }

  lemma EwmaKeepsRange(avg: nat, sample: nat)
    requires IntervalOk(avg) && IntervalOk(sample)
    ensures IntervalOk(Ewma(avg, sample))
  {
  }

  function EwmaIterate(avg: nat, sample: nat, n: nat): nat
    decreases n
  {
    if n == 0 then avg else EwmaIterate(Ewma(avg, sample), sample, n - 1)
  }

  function Distance(a: int, b: int): nat { if a < b then b - a else a - b }

  /** One step towards a constant sample: the average stays on its side of the sample's four-wide bucket, and moves
      strictly closer until it is inside, where it stays put. */
  lemma EwmaStep(avg: nat, sample: nat)
    ensures avg / 4 == sample / 4 <==> Ewma(avg, sample) == avg
    ensures avg / 4 > sample / 4 ==> sample / 4 <= Ewma(avg, sample) / 4 && Ewma(avg, sample) < avg
    ensures avg / 4 < sample / 4 ==> Ewma(avg, sample) / 4 <= sample / 4 && Ewma(avg, sample) > avg
  {
  }

  /** Fed one sample for long enough, the average settles in the sample's bucket for good, without overshooting. */
  lemma {:induction false} EwmaConverges(avg: nat, sample: nat, n: nat)
    requires n >= Distance(avg, sample)
    ensures EwmaIterate(avg, sample, n) / 4 == sample / 4
    ensures avg / 4 >= sample / 4 ==> EwmaIterate(avg, sample, n) <= avg
    ensures avg / 4 <= sample / 4 ==> EwmaIterate(avg, sample, n) >= avg
    decreases n
  {
    EwmaStep(avg, sample);
    if n > 0 {
      if avg / 4 == sample / 4 {
        EwmaSettled(avg, sample, n);
      } else {
        EwmaConverges(Ewma(avg, sample), sample, n - 1);
      }
    }
  }

  lemma {:induction false} EwmaSettled(avg: nat, sample: nat, n: nat)
    requires avg / 4 == sample / 4
    ensures EwmaIterate(avg, sample, n) == avg
    decreases n
  {
    if n > 0 {
      EwmaSettled(Ewma(avg, sample), sample, n - 1);
    }
  }

  // ----- base-2 logarithm -----

  function FloorLog2(v: nat): nat { if v < 2 then 0 else 1 + FloorLog2(v / 2) }

  function Pow2(n: nat): nat { if n == 0 then 1 else 2 * Pow2(n - 1) }

  lemma {:induction false} FloorLog2Brackets(v: nat)
    requires v > 0
    ensures Pow2(FloorLog2(v)) <= v < Pow2(FloorLog2(v) + 1)
  {
    if v >= 2 {
      FloorLog2Brackets(v / 2);
    }
  }

  lemma {:induction false} FloorLog2Shift(v: nat, k: nat)
    requires v >= Pow2(k)
    ensures Pow2(k) > 0 && FloorLog2(v) == k + FloorLog2(v / Pow2(k))
    decreases k
  {
    if k > 0 {
      var p := Pow2(k - 1);
      FloorLog2Shift(v / 2, k - 1);
      DivTwice(v, p);
    }
  }

  lemma DivTwice(v: nat, p: nat)
    requires p > 0
    ensures (v / 2) / p == v / (2 * p)
  {
    var q := (v / 2) / p;
    assert q * p <= v / 2 < q * p + p;
    assert q * (2 * p) <= v < q * (2 * p) + 2 * p;
    QuotientAtLeast(v, 2 * p, q);
    var q' := v / (2 * p);
    assert q' * (2 * p) == (q' * p) * 2;
    QuotientAtLeast(v / 2, p, q');
  }

  lemma {:induction false} FloorLog2Monotone(u: nat, v: nat)
    requires u <= v
    ensures FloorLog2(u) <= FloorLog2(v)
  {
    if u >= 2 {
      FloorLog2Monotone(u / 2, v / 2);
    }
  }

  lemma {:induction false} Pow2Adds(a: nat, b: nat)
    ensures Pow2(a + b) == Pow2(a) * Pow2(b)
  {
    if a > 0 {
      Pow2Adds(a - 1, b);
    }
  }

  lemma Pow2Table()
    ensures Pow2(1) == 2 && Pow2(2) == 4 && Pow2(4) == 16 && Pow2(8) == 256
    ensures Pow2(16) == 0x1_0000 && Pow2(32) == 0x1_0000_0000
  {
    Pow2Adds(1, 1);
    Pow2Adds(2, 2);
    Pow2Adds(4, 4);
    Pow2Adds(8, 8);
    Pow2Adds(16, 16);
  }

  /** One rung of the cascade: `shift = (v > p - 1) << log2(k); v >>= shift`. */
  method CascadeStep(v: nat, k: nat, p: nat) returns (v': nat, shift: nat)
    requires Pow2(k) == p > 0
    requires v < p * p
    ensures v' < p && (v > 0 ==> v' > 0)
    ensures FloorLog2(v) == shift + FloorLog2(v')
  {
    if v > p - 1 {
      FloorLog2Shift(v, k);
      assert v / p < p by {
        if v / p >= p { MulLe(p, v / p, p); }
      }
      QuotientAtLeast(v, p, 1);
      v', shift := v / p, k;
    } else {
      v', shift := v, 0;
    }
  }

  /** The shift cascade finds the position of the highest set bit of a 32-bit word. Each `shift` only has bits that are
      still clear in `r`, so that or-ing it in adds it. */
  method Log2U32(x: nat) returns (r: nat)
    requires x < 0x1_0000_0000
    ensures r == FloorLog2(x)
  {
    Pow2Table();
    var v, shift;
    v, r := CascadeStep(x, 16, 0x1_0000);
    v, shift := CascadeStep(v, 8, 0x100);
    r := r + shift;
    v, shift := CascadeStep(v, 4, 0x10);
    r := r + shift;
    v, shift := CascadeStep(v, 2, 4);
    r := r + shift;
    r := r + v / 2;
  }

  /** `log2_u64` returns one more than the logarithm; `ilog2` takes that one off again. */
  method ILog2(v: nat) returns (r: nat)
    requires v < 0x1_0000_0000_0000_0000
    ensures r == FloorLog2(v)
  {
    if v == 0 { return 0; }
    var hi := v / 0x1_0000_0000;
    if hi > 0 {
      r := Log2U32(hi);
      r := r + 32 + 1;
      Pow2Table();
      FloorLog2Shift(v, 32);
    } else {
      r := Log2U32(v);
      r := r + 1;
    }
    r := r - 1;
  }

  // ----- criticality -----

  function EffectiveInterval(avg: nat, last: nat, now: nat): nat
  {
    var since := Elapsed(now, last);
    ClampInterval(if since > avg * 8 then since else avg)
  }

  function Rate(avg: nat, last: nat, now: nat): nat
  {
    FloorLog2(CRIT_INTERVAL_REF / EffectiveInterval(avg, last, now))
  }

  function CalcCrit(tc: TaskCtx, now: nat): nat
  {
    Min(CRIT_MAX, Rate(tc.waitInterval, tc.lastWoken, now) + Rate(tc.wakeInterval, tc.lastWake, now))
  }

  lemma RateAtMost16(avg: nat, last: nat, now: nat)
    ensures Rate(avg, last, now) <= 16
  {
    var e := EffectiveInterval(avg, last, now);
    assert CRIT_INTERVAL_REF / e <= 100_000 by {
      var q := CRIT_INTERVAL_REF / e;
      MulLe(10_000, e, q);
    }
    FloorLog2Monotone(CRIT_INTERVAL_REF / e, 100_000);
    assert FloorLog2(100_000) == 16 by {
      assert Pow2(10) == 1024;
      FloorLog2Shift(100_000, 10);
      assert FloorLog2(97) == 6;
    }
  }

  /** The score never exceeds 32, so its cap of 40 never bites. */
  lemma CritAtMost32(tc: TaskCtx, now: nat)
    ensures CalcCrit(tc, now) <= 32
    ensures CalcCrit(tc, now)
         == Rate(tc.waitInterval, tc.lastWoken, now) + Rate(tc.wakeInterval, tc.lastWake, now)
  {
    RateAtMost16(tc.waitInterval, tc.lastWoken, now);
    RateAtMost16(tc.wakeInterval, tc.lastWake, now);
  }

  lemma RateNeverRises(avg: nat, last: nat, now: nat, later: nat)
    requires now <= later
    ensures Rate(avg, last, later) <= Rate(avg, last, now)
  {
    var e, e' := EffectiveInterval(avg, last, now), EffectiveInterval(avg, last, later);
    assert e <= e';
    var q' := CRIT_INTERVAL_REF / e';
    assert q' * e' <= CRIT_INTERVAL_REF;
    MulLe(e, e', q');
    QuotientAtLeast(CRIT_INTERVAL_REF, e, q');
    FloorLog2Monotone(q', CRIT_INTERVAL_REF / e);
  }

  /** With no wakeups in between, waiting never raises the score. */
  lemma CritNeverRisesWithoutEvents(tc: TaskCtx, now: nat, later: nat)
    requires now <= later
    ensures CalcCrit(tc, later) <= CalcCrit(tc, now)
  {
    RateNeverRises(tc.waitInterval, tc.lastWoken, now, later);
    RateNeverRises(tc.wakeInterval, tc.lastWake, now, later);
  }
}

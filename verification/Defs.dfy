/** Constants of the Lunar scheduler, and the numbering of its dispatch queues. */
module Defs {
  const NS_PER_MS: int := 1_000_000

  // Tiers, best first. EMPTY stands for "no tier" wherever a tier is stored.
  const LC: int := 1
  const INTERACTIVE: int := 2
  const NORMAL: int := 3
  const GREEDY: int := 4
  const EMPTY: int := 5

  const MAX_CPUS: int := 512

  const SLICE: int := 1_000_000
  const RESUME_SLICE_MIN: int := 50_000
  const OVERRIDE_COOLDOWN: int := 10_000_000
  const OVERRIDE_BUDGET: int := SLICE
  const WAKE_BOOST_BUDGET: int := 4_000_000
  const BALANCE_INTERVAL: int := 10_000_000
  const BALANCE_SAMPLES: int := 2
  const RT_CPU_LOAD: int := 2

  const DUTY_INIT_RUN: int := 80_000_000
  const DUTY_WINDOW: int := 100_000_000
  const DUTY_SAMPLES_NEEDED: int := 3
  const DUTY_SAMPLES_MAX: int := 1000
  const DUTY_RANGE: int := 1024
  const DUTY_CAP_LC: int := 51           // 5 * DUTY_RANGE / 100
  const DUTY_CAP_INTERACTIVE: int := 102 // 10 * DUTY_RANGE / 100
  const DUTY_CAP_NORMAL: int := 819      // 80 * DUTY_RANGE / 100
  const DUTY_HYST: int := 10             // DUTY_RANGE / 100
  const KTHREAD_INIT_RUN: int := 8_000_000

  const CRIT_INTERVAL_REF: int := 1_000_000_000
  const CRIT_INTERVAL_MIN: int := 10_000
  const CRIT_MAX: int := 40
  const CRIT_EDGE_LC: int := 5
  const CRIT_EDGE_INTERACTIVE: int := 3
  const CRIT_EDGE_NORMAL: int := 1

  /** How long a non-empty tier may go unserved before it counts as starved. */
  function StarveBudget(tier: int): (b: int)
  {
    if tier == INTERACTIVE then 25 * NS_PER_MS
    else if tier == NORMAL then 50 * NS_PER_MS
    else 75 * NS_PER_MS
  }

  function Min(a: int, b: int): int { if a < b then a else b }

  /** Time since `last`, zero when `last` lies in the future. */
  function Elapsed(now: nat, last: nat): nat { if now > last then now - last else 0 }

  /** The kernel-wide id of the queue of `tier` on `cpu`. */
  function DsqId(tier: int, cpu: int): int
  {
    if tier == LC then 1536 + cpu
    else if tier == INTERACTIVE then 2048 + cpu
    else if tier == NORMAL then 2560 + cpu
    else 3072 + cpu
  }

  /** Two tier queues share an id exactly when they are the same queue. At MAX_CPUS the ids would wrap into the next
      tier: cpu 512's LC queue would be cpu 0's INTERACTIVE queue. */
  lemma DsqIdsNeverCollide(tier: int, cpu: int, tier': int, cpu': int)
    requires LC <= tier <= GREEDY && LC <= tier' <= GREEDY
    requires 0 <= cpu < MAX_CPUS && 0 <= cpu' < MAX_CPUS
    ensures DsqId(tier, cpu) == DsqId(tier', cpu') <==> tier == tier' && cpu == cpu'
    ensures DsqId(LC, MAX_CPUS) == DsqId(INTERACTIVE, 0)
  {
    assert DsqId(tier, cpu) == 1024 + 512 * tier + cpu;
    assert DsqId(tier', cpu') == 1024 + 512 * tier' + cpu';
  }
}

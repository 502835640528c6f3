/** The sched_switch hook on many cpus at once: writing a cpu's rt_busy flag and the atomic update of the shared counter
    are two steps, with any number of steps of other cpus in between. */
module RtCounter {
  import opened Options
  import opened Machine

  /** `pending`: the flag is written, the counter not yet updated. */
  datatype Cpu = Cpu(rtBusy: bool, pending: bool)

  datatype Shared = Shared(cpus: seq<Cpu>, nrRtBusy: nat)

  datatype Action = WriteFlag(cpu: nat, rt: bool) | UpdateCounter(cpu: nat)

  predicate Enabled(s: Shared, a: Action)
  {
    match a
    case WriteFlag(c, rt) => c < |s.cpus| && !s.cpus[c].pending && rt != s.cpus[c].rtBusy
    case UpdateCounter(c) => c < |s.cpus| && s.cpus[c].pending
  }

  /** A decrement of zero wraps around, as in the 64-bit counter. */
  function Step(s: Shared, a: Action): Shared
    requires Enabled(s, a)
  {
    match a
    case WriteFlag(c, rt) => s.(cpus := s.cpus[c := Cpu(rt, true)])
    case UpdateCounter(c) =>
      s.(cpus := s.cpus[c := s.cpus[c].(pending := false)],
         nrRtBusy := if s.cpus[c].rtBusy then s.nrRtBusy + 1 else Dec(s.nrRtBusy))
  }

  function Run(s: Shared, acts: seq<Action>): (r: Option<Shared>)
    decreases |acts|
  {
    if acts == [] then Some(s)
    else if Enabled(s, acts[0]) then Run(Step(s, acts[0]), acts[1..])
    else None
  }

  /** A cpu whose increment has landed and has not been taken back. */
  predicate Landed(c: Cpu) { c.rtBusy != c.pending }

  function CountLanded(cpus: seq<Cpu>): nat
  {
    if cpus == [] then 0 else (if Landed(cpus[0]) then 1 else 0) + CountLanded(cpus[1..])
  }

  function CountBusy(cpus: seq<Cpu>): nat
  {
    if cpus == [] then 0 else (if cpus[0].rtBusy then 1 else 0) + CountBusy(cpus[1..])
  }

  predicate Inv(s: Shared) { s.nrRtBusy == CountLanded(s.cpus) }

  lemma {:induction false} CountAfterUpdate(cpus: seq<Cpu>, i: nat, c: Cpu)
    requires i < |cpus|
    ensures CountLanded(cpus[i := c]) + (if Landed(cpus[i]) then 1 else 0)
         == CountLanded(cpus) + (if Landed(c) then 1 else 0)
    ensures Landed(cpus[i]) ==> CountLanded(cpus) > 0
  {
    if i == 0 {
      assert cpus[i := c][1..] == cpus[1..];
    } else {
      assert cpus[i := c][1..] == cpus[1..][i - 1 := c];
      CountAfterUpdate(cpus[1..], i - 1, c);
    }
  }

  /** The counter is exact at every step, and no decrement ever wraps. */
  lemma StepKeepsInv(s: Shared, a: Action)
    requires Inv(s) && Enabled(s, a)
    ensures Inv(Step(s, a))
    ensures a.UpdateCounter? && !s.cpus[a.cpu].rtBusy ==> s.nrRtBusy > 0
  {
    CountAfterUpdate(s.cpus, a.cpu, Step(s, a).cpus[a.cpu]);
  }

  lemma {:induction false} RunKeepsInv(s: Shared, acts: seq<Action>)
    requires Inv(s)
    ensures Run(s, acts).Some? ==> Inv(Run(s, acts).value)
    decreases |acts|
  {
    if acts != [] && Enabled(s, acts[0]) {
      StepKeepsInv(s, acts[0]);
      RunKeepsInv(Step(s, acts[0]), acts[1..]);
    }
  }

  lemma {:induction false} SettledCount(cpus: seq<Cpu>)
    requires forall i :: 0 <= i < |cpus| ==> !cpus[i].pending
    ensures CountLanded(cpus) == CountBusy(cpus)
    ensures CountBusy(cpus) == 0 <==> forall i :: 0 <= i < |cpus| ==> !cpus[i].rtBusy
  {
    if cpus != [] {
      SettledCount(cpus[1..]);
      assert forall i :: 1 <= i < |cpus| ==> cpus[i] == cpus[1..][i - 1];
    }
  }

  /** From the zeroed map, over every interleaving: whenever no cpu is between its two steps, the counter is the number
      of RT-busy cpus, so leaving the search for them early at zero skips nothing. */
  lemma EarlyExitIsExact(n: nat, acts: seq<Action>)
    ensures var r := Run(Shared(seq(n, _ => Cpu(false, false)), 0), acts);
            r.Some? && (forall i :: 0 <= i < |r.value.cpus| ==> !r.value.cpus[i].pending) ==>
              && r.value.nrRtBusy == CountBusy(r.value.cpus)
              && (r.value.nrRtBusy == 0 <==> forall i :: 0 <= i < |r.value.cpus| ==> !r.value.cpus[i].rtBusy)
  {
    var zeroed := seq(n, _ => Cpu(false, false));
    SettledCount(zeroed);
    var s := Shared(zeroed, 0);
    RunKeepsInv(s, acts);
    var r := Run(s, acts);
    if r.Some? && (forall i :: 0 <= i < |r.value.cpus| ==> !r.value.cpus[i].pending) {
      SettledCount(r.value.cpus);
    }
  }

  lemma {:induction false} NoneLanded(cpus: seq<Cpu>)
    ensures CountLanded(cpus) == 0 <==> forall i :: 0 <= i < |cpus| ==> !Landed(cpus[i])
  {
    if cpus != [] {
      NoneLanded(cpus[1..]);
      assert forall i :: 1 <= i < |cpus| ==> cpus[i] == cpus[1..][i - 1];
    }
  }

  /** Exactly when the early exit misses an RT-busy cpu, over every interleaving: some cpu has put up its flag and not
      yet counted itself, and no cpu at all is counted. A pending decrement, or any other increment that has landed,
      keeps the exit right. */
  lemma EarlyExitMisses(n: nat, acts: seq<Action>)
    ensures var r := Run(Shared(seq(n, _ => Cpu(false, false)), 0), acts);
            r.Some? ==>
              var s := r.value;
              s.nrRtBusy == 0 && (exists i :: 0 <= i < |s.cpus| && s.cpus[i].rtBusy) <==>
              (exists i :: 0 <= i < |s.cpus| && s.cpus[i].rtBusy && s.cpus[i].pending) &&
              (forall i :: 0 <= i < |s.cpus| ==> !Landed(s.cpus[i]))
  {
    var zeroed := seq(n, _ => Cpu(false, false));
    SettledCount(zeroed);
    RunKeepsInv(Shared(zeroed, 0), acts);
    var r := Run(Shared(zeroed, 0), acts);
    if r.Some? { NoneLanded(r.value.cpus); }
  }

  /** In between it may be off: the flag is up and the counter still zero. */
  lemma MidUpdateCanBeOff()
    ensures var s := Step(Shared([Cpu(false, false)], 0), WriteFlag(0, true));
            s.cpus[0].rtBusy && s.nrRtBusy == 0
  {
  }
}

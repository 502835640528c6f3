/** Where enqueue puts a task. */
module Placement {
  import opened Options
  import opened Defs
  import opened Classifier
  import opened Machine
  import opened Invariant
  import opened Preservation

  lemma {:induction false} LeastLoadedIsLeast(s: Sys, tier: int, best: int, cs: seq<int>)
    requires s.Shape() && s.Cpu(best) && forall k :: 0 <= k < |cs| ==> s.Cpu(cs[k])
    ensures var r := LeastLoaded(s, tier, best, cs);
            && Load(s, r, tier) <= Load(s, best, tier)
            && (forall k :: 0 <= k < |cs| ==> Load(s, r, tier) <= Load(s, cs[k], tier))
            && (r != best ==> r in cs && Load(s, r, tier) < Load(s, best, tier))
    decreases |cs|
  {
    if cs != [] {
      var best' := if Load(s, cs[0], tier) < Load(s, best, tier) then cs[0] else best;
      LeastLoadedIsLeast(s, tier, best', cs[1..]);
      forall k | 0 <= k < |cs|
        ensures Load(s, LeastLoaded(s, tier, best, cs), tier) <= Load(s, cs[k], tier)
      {
        if k > 0 { assert cs[k] == cs[1..][k - 1]; }
      }
    }
  }

  /** Once an empty cpu is found, looking further changes nothing. */
  lemma {:induction false} NothingBeatsZero(s: Sys, tier: int, best: int, cs: seq<int>)
    requires s.Shape() && s.Cpu(best) && (forall k :: 0 <= k < |cs| ==> s.Cpu(cs[k])) && Load(s, best, tier) == 0
    ensures LeastLoaded(s, tier, best, cs) == best
    decreases |cs|
  {
    if cs != [] {
      NothingBeatsZero(s, tier, best, cs[1..]);
    }
  }

  lemma RotationReaches(n: nat, start: nat, o: nat) returns (i: nat)
    requires start < n && o < n
    ensures i < n && Rotate(start, i, n) == o
  {
    i := if o >= start then o - start else o + n - start;
    if o < start {
      assert (start + i) % n == o by { assert start + i == o + n; ModOnce(o, n); }
    }
  }

  lemma ModOnce(o: nat, n: nat)
    requires o < n
    ensures (o + n) % n == o
  {
  }

  /** The scan reaches every cpu that qualifies, wherever it starts. */
  lemma {:induction false} CandidatesFrom(s: Sys, x: Task, cpu: int, start: nat, i: nat, j: nat)
    requires s.Shape() && s.Cpu(cpu) && start < s.N() && i <= j < s.N()
    requires Peer(s, cpu, Rotate(start, j, s.N())) && s.Allows(x, Rotate(start, j, s.N()))
    ensures Rotate(start, j, s.N()) in Candidates(s, x, cpu, start, i)
    decreases j - i
  {
    if i < j {
      CandidatesFrom(s, x, cpu, start, i + 1, j);
    }
  }

  lemma CandidatesComplete(s: Sys, x: Task, cpu: int, start: nat, o: int)
    requires s.Shape() && s.Cpu(cpu) && start < s.N() && Peer(s, cpu, o) && s.Allows(x, o)
    ensures o in Candidates(s, x, cpu, start, 0)
  {
    var i := RotationReaches(s.N(), start, o);
    CandidatesFrom(s, x, cpu, start, 0, i);
  }

  lemma OnlyOne(cpus: set<int>, c: int, o: int)
    requires |cpus| == 1 && c in cpus && o in cpus
    ensures o == c
  {
    var rest := cpus - {c};
    assert |rest| == 0;
    assert o != c ==> o in rest;
  }

  /** LC and INTERACTIVE tasks that find no idle cpu go where the least work is ahead of them, of all the cpus of their
      LLC they may use, wherever the random scan starts. */
  lemma LatencyTiersGetLeastLoad(s: Sys, x: Task, tier: int, cpu: int, start: nat, o: int)
    requires s.Shape() && s.Cpu(cpu) && x in s.tc && cpu in s.aff[x] && start < s.N() && LC <= tier <= INTERACTIVE
    requires o == cpu || (Peer(s, cpu, o) && s.Allows(x, o))
    ensures Load(s, Pick(s, x, tier, cpu, -1, start), tier) <= Load(s, o, tier)
  {
    if |s.aff[x]| == 1 {
      OnlyOne(s.aff[x], cpu, o);
    } else {
      LeastLoadedIsLeast(s, tier, cpu, Candidates(s, x, cpu, start, 0));
      if o != cpu {
        CandidatesComplete(s, x, cpu, start, o);
      }
    }
  }

  /** NORMAL and GREEDY tasks are moved only to a cpu with strictly less work ahead of them, and at least 10 ms after
      they were last moved, unless an RT task has taken their own cpu; they stay when neither of the two cpus looked at
      is better. */
  lemma OtherTiersMoveToImprove(s: Sys, x: Task, tier: int, cpu: int, start: nat)
    requires Inv(s) && s.Cpu(cpu) && x in s.tc && start < s.N() && NORMAL <= tier <= GREEDY
    ensures var r := Pick(s, x, tier, cpu, -1, start);
            r != cpu ==>
              && Peer(s, cpu, r) && s.Allows(x, r)
              && Load(s, r, tier) < Load(s, cpu, tier)
              && (s.now - s.tc[x].lastMigrated >= BALANCE_INTERVAL || s.rtCurr[cpu])
              && r in Prefix(Candidates(s, x, cpu, start, 0), BALANCE_SAMPLES)
    ensures var r, cs := Pick(s, x, tier, cpu, -1, start), Prefix(Candidates(s, x, cpu, start, 0), BALANCE_SAMPLES);
            Load(s, cpu, tier) > 0 && |s.aff[x]| != 1
            && (s.now - s.tc[x].lastMigrated >= BALANCE_INTERVAL || s.rtCurr[cpu]) ==>
              forall k :: 0 <= k < |cs| ==> Load(s, r, tier) <= Load(s, cs[k], tier)
  {
    LeastLoadedIsLeast(s, tier, cpu, Prefix(Candidates(s, x, cpu, start, 0), BALANCE_SAMPLES));
  }

  lemma WaitsOnlineAndAllowed(s: Sys, x: Task)
    requires Inv(s) && x in s.tc && s.loc[x].Queued?
    ensures s.Online(s.loc[x].qid.cpu) && s.loc[x].qid.cpu in s.aff[x]
  {
    assert WaitingOk(s);
  }

  lemma PlaceOnEndsQueued(s: Sys, x: Task, tier: int, cpu: int, wakeup: bool, pick: int)
    requires s.Shape() && x in s.tc && s.Cpu(cpu) && s.Cpu(pick) && LC <= tier <= GREEDY
    ensures var s' := PlaceOn(s, x, tier, cpu, wakeup, pick); x in s'.loc && s'.loc[x].Queued? && s'.aff == s.aff
  {
  }

  lemma EnqueueStepEndsQueued(s: Sys, x: Task, cpu: int, wakeup: bool, waker: Option<Task>, idleCpu: int, start: nat)
    requires s.Shape() && x in s.tc && s.Cpu(cpu) && start < s.N() && (idleCpu == -1 || s.Cpu(idleCpu))
    requires var tc := if wakeup then Boosted(s, x, waker) else s.tc[x]; LC <= EffectiveTier(tc) <= GREEDY
    ensures var s' := EnqueueStep(s, x, cpu, wakeup, waker, idleCpu, start);
            x in s'.loc && s'.loc[x].Queued? && s'.aff == s.aff
  {
    var tc := if wakeup then Boosted(s, x, waker) else s.tc[x];
    var s1 := s.(tc := s.tc[x := tc.(resume := 0)]);
    var tier := EffectiveTier(tc);
    if !(tc.resume > 0 && !s.rtCurr[cpu]) {
      PlaceOnEndsQueued(s1, x, tier, cpu, wakeup, Pick(s1, x, tier, cpu, idleCpu, start));
    }
  }

  lemma EndsQueued(s: Sys, e: Event)
    requires Inv(s) && e.Enqueue? && Enabled(s, e)
    ensures var s' := Next(s, e); e.x in s'.loc && s'.loc[e.x].Queued? && s'.aff == s.aff
  {
    BoostedOk(s, e.x, e.waker);
    EnqueueStepEndsQueued(s, e.x, e.cpu, e.wakeup, e.waker, e.idleCpu, e.start);
  }

  /** A task is always queued on an online cpu it may use. */
  lemma PlacedOnlineAndAllowed(s: Sys, e: Event)
    requires Inv(s) && e.Enqueue? && Enabled(s, e)
    ensures var s' := Next(s, e);
            && e.x in s'.tc && s'.Shape() && s'.loc[e.x].Queued? && s'.Online(s'.loc[e.x].qid.cpu)
            && s'.loc[e.x].qid.cpu in s.aff[e.x]
  {
    EnqueueKeepsInv(s, e);
    EndsQueued(s, e);
    WaitsOnlineAndAllowed(Next(s, e), e.x);
  }
}

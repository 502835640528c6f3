/** What a dispatch decision guarantees: verdicts, work conservation, FIFO order and strict tiers. */
module Dispatching {
  import opened Defs
  import opened Machine
  import opened Invariant

  /** A cpu may run whatever waits in its own queues. */
  lemma OwnQueueIsOwnWork(s: Sys, cpu: int, tier: int)
    requires Inv(s) && s.Cpu(cpu) && LC <= tier <= GREEDY
    ensures OwnWork(s, cpu, tier) <==> s.Q(tier, cpu) != []
  {
    if s.Q(tier, cpu) != [] {
      var x := s.Q(tier, cpu)[0];
      assert s.loc[x] == Queued(Qid(tier, cpu));
      assert s.Allows(x, cpu);
    }
  }

  lemma WorkWaitsOnline(s: Sys, cpu: int, tier: int)
    requires Inv(s) && s.Cpu(cpu) && LC <= tier <= GREEDY
    ensures s.Q(tier, cpu) != [] ==> s.Online(cpu)
  {
    if s.Q(tier, cpu) != [] {
      var x := s.Q(tier, cpu)[0];
      assert s.loc[x] == Queued(Qid(tier, cpu));
    }
  }

  /** A task of a tier better than `tier` that `cpu` may run waits on an online cpu of its LLC. */
  ghost predicate BetterWaits(s: Sys, cpu: int, tier: int)
    requires s.Shape() && s.Cpu(cpu)
  {
    exists t :: LC <= t < tier && t <= GREEDY && (OwnWork(s, cpu, t) || PeerWork(s, cpu, t))
  }

  /** Each verdict says exactly what happened to the queues. */
  lemma VerdictMeaning(s: Sys, cpu: int, prev: int, ch: Choice)
    requires Inv(s) && s.Cpu(cpu) && LC <= prev <= EMPTY && GoodChoice(s, cpu, prev, ch)
    ensures CanTake(s, cpu, ch)
    ensures var s' := Apply(s, cpu, ch);
            && (LC <= ch.Verdict() <= GREEDY <==> ch.Take?)
            && (ch.Verdict() == EMPTY <==> s'.q == s.q && prev <= GREEDY)
            && (ch.Verdict() == EMPTY + 1 <==> s'.q == s.q && prev == EMPTY)
            && (ch.Take? ==> TookOne(s, s', cpu, ch))
            && (!ch.Take? ==> s'.local == s.local && s'.loc == s.loc)
  {
    GoodChoiceCanTake(s, cpu, prev, ch);
    OwnQueueIsOwnWork(s, cpu, LC);
    if ch.Take? {
      TakesTheFirst(s, cpu, ch);
      var k := Qid(ch.tier, ch.from);
      assert |Apply(s, cpu, ch).q[k]| == |s.q[k]| - 1;
    }
  }

  /** One task moved: the first of its queue that may run on the cpu, leaving the rest in order. */
  ghost predicate TookOne(s: Sys, s': Sys, cpu: int, ch: Choice)
    requires s.Shape() && s.Cpu(cpu) && ch.Take? && CanTake(s, cpu, ch)
  {
    exists i, x ::
      var k := Qid(ch.tier, ch.from);
      && 0 <= i < |s.q[k]| && s.q[k][i] == x && s.Allows(x, cpu)
      && (forall j :: 0 <= j < i ==> !s.Allows(s.q[k][j], cpu))
      && s'.q == s.q[k := s.q[k][..i] + s.q[k][i + 1..]]
      && s'.local == s.local[cpu := s.local[cpu] + [x]]
      && s'.loc == s.loc[x := Local(cpu)]
  }

  lemma TakesTheFirst(s: Sys, cpu: int, ch: Choice)
    requires s.Shape() && s.Cpu(cpu) && ch.Take? && CanTake(s, cpu, ch)
    ensures TookOne(s, Apply(s, cpu, ch), cpu, ch)
  {
    var k := Qid(ch.tier, ch.from);
    var i := FirstAllowed(s, s.q[k], cpu);
    var x := s.q[k][i];
    assert Apply(s, cpu, ch).q == s.q[k := s.q[k][..i] + s.q[k][i + 1..]];
  }

  /** Work conservation: a cpu goes idle only when nothing that waits anywhere may run on it. */
  lemma IdleOnlyWithoutWork(s: Sys, cpu: int, ch: Choice, tier: int, from: int)
    requires Inv(s) && s.Online(cpu) && GoodChoice(s, cpu, EMPTY, ch) && ch == Idle
    requires LC <= tier <= GREEDY && s.Cpu(from)
    ensures !HasWork(s, tier, from, cpu)
  {
    if HasWork(s, tier, from, cpu) {
      WorkIsWithinReach(s, cpu, tier, from);
      IdleFoundNothing(s, cpu, ch, tier);
    }
  }

  lemma WorkIsWithinReach(s: Sys, cpu: int, tier: int, from: int)
    requires Inv(s) && s.Online(cpu) && LC <= tier <= GREEDY && s.Cpu(from) && HasWork(s, tier, from, cpu)
    ensures OwnWork(s, cpu, tier) || PeerWork(s, cpu, tier) || (RemoteWork(s, cpu, tier) && s.topo.nrLlcs > 1)
  {
    WorkWaitsOnline(s, from, tier);
    assert from == cpu || Peer(s, cpu, from) || Remote(s, cpu, from);
  }

  lemma IdleFoundNothing(s: Sys, cpu: int, ch: Choice, tier: int)
    requires Inv(s) && s.Online(cpu) && GoodChoice(s, cpu, EMPTY, ch) && ch == Idle && LC <= tier <= GREEDY
    ensures !OwnWork(s, cpu, tier) && !PeerWork(s, cpu, tier) && (s.topo.nrLlcs > 1 ==> !RemoteWork(s, cpu, tier))
  {
    assert tier == LC || tier == INTERACTIVE || tier == NORMAL || tier == GREEDY;
  }

  /** The served tier, and whether it was an override, do not depend on where the random scans start. */
  lemma VerdictIsDetermined(s: Sys, cpu: int, prev: int, ch: Choice, ch': Choice)
    requires Inv(s) && s.Cpu(cpu) && GoodChoice(s, cpu, prev, ch) && GoodChoice(s, cpu, prev, ch')
    ensures ch.Verdict() == ch'.Verdict() && ch.Take? == ch'.Take? && (ch.Take? ==> ch.phase == ch'.phase)
  {
    if ch.Take? && ch.phase == Start && ch'.Take? {
      assert MostStarved(s, cpu, ch.tier) && MostStarved(s, cpu, ch'.tier);
    }
  }

  /** Strict tiers. Outside an override, no better task the cpu may run waits in its LLC, as long as the cpu had work
      of its own, or no cpu is RT-busy, or the counter says so. */
  lemma ServesBestTier(s: Sys, cpu: int, prev: int, ch: Choice)
    requires Inv(s) && s.Cpu(cpu) && LC <= prev <= EMPTY && GoodChoice(s, cpu, prev, ch)
    requires ch.Take? && ch.phase != Continue && ch.phase != Start
    requires LocalBest(s, cpu, prev) != EMPTY || s.Q(LC, cpu) != [] || s.nrRt == 0 || forall o :: s.Cpu(o) ==>
             !s.d[o].rtBusy
    ensures !BetterWaits(s, cpu, ch.tier)
  {
    OwnQueueIsOwnWork(s, cpu, LC);
    OwnQueueIsOwnWork(s, cpu, INTERACTIVE);
    OwnQueueIsOwnWork(s, cpu, NORMAL);
    OwnQueueIsOwnWork(s, cpu, GREEDY);
    forall t | LC <= t < ch.tier
      ensures !OwnWork(s, cpu, t) && !PeerWork(s, cpu, t)
    {
      assert t == LC || t == INTERACTIVE || t == NORMAL;
    }
  }

  /** When prev keeps the cpu, no better task waits in the LLC, nor one as good in the cpu's own queues. */
  lemma KeepsBestTier(s: Sys, cpu: int, prev: int, ch: Choice)
    requires Inv(s) && s.Cpu(cpu) && LC <= prev <= EMPTY && GoodChoice(s, cpu, prev, ch) && ch == Keep
    ensures !BetterWaits(s, cpu, prev)
    ensures forall t :: LC <= t <= prev && t <= GREEDY ==> s.Q(t, cpu) == []
  {
    OwnQueueIsOwnWork(s, cpu, LC);
    OwnQueueIsOwnWork(s, cpu, INTERACTIVE);
    OwnQueueIsOwnWork(s, cpu, NORMAL);
    OwnQueueIsOwnWork(s, cpu, GREEDY);
    forall t | LC <= t <= prev && t <= GREEDY
      ensures s.Q(t, cpu) == [] && (t < prev ==> !PeerWork(s, cpu, t))
    {
      assert t == LC || t == INTERACTIVE || t == NORMAL || t == GREEDY;
    }
  }

  /** Without work of its own a cpu helps out RT-taken peers first. That is strict exactly when the best tier waiting on
      an RT-taken peer is the best tier waiting on any peer. */
  lemma StrictWithoutOwnWork(s: Sys, cpu: int, ch: Choice)
    requires Inv(s) && s.Cpu(cpu) && GoodChoice(s, cpu, EMPTY, ch)
    requires ch.Take? && ch.phase == Late && LocalBest(s, cpu, EMPTY) == EMPTY
    ensures var onRt := First(RtWork(s, cpu, LC), RtWork(s, cpu, INTERACTIVE), RtWork(s, cpu, NORMAL),
            RtWork(s, cpu, GREEDY));
            var best := First(PeerWork(s, cpu, LC), PeerWork(s, cpu, INTERACTIVE), PeerWork(s, cpu, NORMAL),
              PeerWork(s, cpu, GREEDY));
            !BetterWaits(s, cpu, ch.tier) <==> onRt == EMPTY || onRt == best
  {
    RtWorkIsPeerWork(s, cpu);
    var best := First(PeerWork(s, cpu, LC), PeerWork(s, cpu, INTERACTIVE), PeerWork(s, cpu, NORMAL),
      PeerWork(s, cpu, GREEDY));
    assert best != EMPTY ==> PeerWork(s, cpu, best);
    assert best < ch.tier ==> BetterWaits(s, cpu, ch.tier);
  }

  lemma RtWorkIsPeerWork(s: Sys, cpu: int)
    requires Inv(s) && s.Cpu(cpu)
    ensures RtWork(s, cpu, LC) ==> PeerWork(s, cpu, LC)
    ensures RtWork(s, cpu, INTERACTIVE) ==> PeerWork(s, cpu, INTERACTIVE)
    ensures RtWork(s, cpu, NORMAL) ==> PeerWork(s, cpu, NORMAL)
    ensures RtWork(s, cpu, GREEDY) ==> PeerWork(s, cpu, GREEDY)
  {
  }

  // ----- whose work goes first -----

  /** An override decided, not the order of tiers. */
  predicate ByOverride(ch: Choice) { ch.Take? && (ch.phase == Continue || ch.phase == Start) }

  lemma OwnQueuesAreOwnWork(s: Sys, cpu: int)
    requires Inv(s) && s.Cpu(cpu)
    ensures forall t :: LC <= t <= GREEDY ==> (OwnWork(s, cpu, t) <==> s.Q(t, cpu) != [])
  {
    forall t | LC <= t <= GREEDY ensures OwnWork(s, cpu, t) <==> s.Q(t, cpu) != [] { OwnQueueIsOwnWork(s, cpu, t); }
  }

  /** Only an override takes prev off its cpu for a worse tier. */
  lemma NeverWorseThanPrev(s: Sys, cpu: int, prev: int, ch: Choice)
    requires Inv(s) && s.Cpu(cpu) && LC <= prev <= EMPTY && GoodChoice(s, cpu, prev, ch)
    requires ch.Take? && !ByOverride(ch)
    ensures ch.tier <= prev
  {
  }

  /** Outside overrides, a cpu takes a task of its own only when none of that tier waits on an RT-taken peer, and a task
      of any other peer only when nothing as good waits in its own queues. */
  lemma RtFirstPeersLast(s: Sys, cpu: int, prev: int, ch: Choice)
    requires Inv(s) && s.Cpu(cpu) && LC <= prev <= EMPTY && GoodChoice(s, cpu, prev, ch)
    requires ch.Take? && !ByOverride(ch)
    ensures ch.from == cpu ==> !RtWork(s, cpu, ch.tier)
    ensures Peer(s, cpu, ch.from) && !RtPeer(s, cpu, ch.from) ==> forall t :: LC <= t <= ch.tier ==> s.Q(t, cpu) == []
  {
    OwnQueuesAreOwnWork(s, cpu);
    if Peer(s, cpu, ch.from) && !RtPeer(s, cpu, ch.from) {
      forall t | LC <= t <= ch.tier ensures s.Q(t, cpu) == [] {
        assert t == LC || t == INTERACTIVE || t == NORMAL || t == GREEDY;
      }
    }
  }

  /** A task of another LLC is the last resort, and then the best of what waits there is taken: nothing ran on the cpu,
      it may run nothing that waits in its own LLC, and no better task in the others. */
  lemma FetchesBestTier(s: Sys, cpu: int, prev: int, ch: Choice, t: int)
    requires Inv(s) && s.Cpu(cpu) && LC <= prev <= EMPTY && GoodChoice(s, cpu, prev, ch) && LC <= t <= GREEDY
    requires ch.Take? && Remote(s, cpu, ch.from)
    ensures prev == EMPTY && !OwnWork(s, cpu, t) && !PeerWork(s, cpu, t)
    ensures t < ch.tier ==> !RemoteWork(s, cpu, t)
  {
    OwnQueuesAreOwnWork(s, cpu);
    assert t == LC || t == INTERACTIVE || t == NORMAL || t == GREEDY;
  }

  /** Prev keeps the cpu exactly when no override decides, and nothing as good waits in the cpu's own queues or on an
      RT-taken peer, and nothing better on any peer. */
  lemma KeepIff(s: Sys, cpu: int, prev: int, ch: Choice)
    requires Inv(s) && s.Cpu(cpu) && LC <= prev <= EMPTY && GoodChoice(s, cpu, prev, ch)
    ensures ch == Keep <==>
              && prev <= GREEDY && !ByOverride(ch)
              && forall t :: LC <= t <= prev && t <= GREEDY ==>
                   s.Q(t, cpu) == [] && !RtWork(s, cpu, t) && (t < prev ==> !PeerWork(s, cpu, t))
  {
    OwnQueuesAreOwnWork(s, cpu);
    if prev <= GREEDY && !ByOverride(ch) {
      if ch == Keep {
        KeepFoundNothing(s, cpu, prev, ch);
      } else if ch.Take? {
        TookForAReason(s, cpu, prev, ch);
      }
    }
  }

  lemma KeepFoundNothing(s: Sys, cpu: int, prev: int, ch: Choice)
    requires Inv(s) && s.Cpu(cpu) && LC <= prev <= GREEDY && GoodChoice(s, cpu, prev, ch) && ch == Keep
    ensures forall t :: LC <= t <= prev ==>
              s.Q(t, cpu) == [] && !RtWork(s, cpu, t) && (t < prev ==> !PeerWork(s, cpu, t))
  {
    OwnQueuesAreOwnWork(s, cpu);
    forall t | LC <= t <= prev
      ensures s.Q(t, cpu) == [] && !RtWork(s, cpu, t) && (t < prev ==> !PeerWork(s, cpu, t))
    {
      assert t == LC || t == INTERACTIVE || t == NORMAL || t == GREEDY;
    }
  }

  lemma TookForAReason(s: Sys, cpu: int, prev: int, ch: Choice)
    requires Inv(s) && s.Cpu(cpu) && LC <= prev <= GREEDY && GoodChoice(s, cpu, prev, ch) && ch.Take? && !ByOverride(ch)
    ensures LC <= ch.tier <= prev
    ensures OwnWork(s, cpu, ch.tier) || RtWork(s, cpu, ch.tier) || (ch.tier < prev && PeerWork(s, cpu, ch.tier))
  {
  }
}

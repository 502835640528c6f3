/** When the spinlock gets stuck. A context that others may have to wait for must not be interrupted by another one that
    takes the lock: exactly then it never runs again, and as long as it does not happen somebody can always move. */
module SpinDeadlock {
  import opened SpinLock

  /** Holds the lock, owns the pending byte or stands in the queue: others may have to wait for it. */
  predicate Needed(p: Pc) { Holds(p) || Pends(p) || InQueue(p) }

  predicate Below(o: Tid, v: Tid) { o.cpu == v.cpu && o.level < v.level < 4 }

  ghost predicate Behind(s: State, o: Tid, v: Tid)
  {
    exists i, j :: 0 <= i < j < |s.queue| && s.queue[i] == o && s.queue[j] == v
  }

  // ----- where a context can be that has interrupted a needed one -----

  predicate OverHolder(p: Pc) { p != Idle && p != TryCas }

  predicate OnTheWay(p: Pc) { Preparing(p) || (Unlinked(p) && !p.QTryCas?) }

  predicate OverPender(p: Pc) { p.SpinPending? || OnTheWay(p) || Waiting(p) }

  predicate OverQueued(p: Pc) { OnTheWay(p) || p.QLink? || p.QWait? }

  /** Where `v` can be that has interrupted `o`. */
  predicate OverOk(o: Pc, v: Pc, behind: bool)
  {
    && (Holds(o) ==> OverHolder(v)) && (Pends(o) ==> OverPender(v))
    && (InQueue(o) ==> OverQueued(v) && (InQueue(v) ==> behind))
  }

  /** If `v` has interrupted `o`, it has done so since `o` is needed, and is on its way to wait for it. */
  ghost predicate NestOk(s: State, o: Tid, v: Tid)
    requires s.Total()
  {
    Below(o, v) && s.pc[v] != Idle ==> OverOk(s.pc[o], s.pc[v], Behind(s, o, v))
  }

  /** While the head hands the lock's queue on, a pending owner has seen the tail. */
  ghost predicate HandingOk(s: State, t: Tid)
    requires s.Total()
  {
    Handing(s.pc[t]) && s.pender.Some? ==> s.pender.value in s.pc && s.pc[s.pender.value].UndoPending?
  }

  /** A head without a successor, past the point where it could have cleared the tail. */
  ghost predicate Lonely(s: State)
    requires s.Total()
  {
    |s.queue| == 1 && (s.pc[s.queue[0]].QSetLocked? || s.pc[s.queue[0]].QWaitNext?)
  }

  /** It waits for a context on its way into the queue that the head itself has not interrupted. */
  ghost predicate LonelyOk(s: State)
    requires s.Total()
  {
    Lonely(s) ==> exists u :: Committed(s.pc[u]) && !Below(u, s.queue[0])
  }

  ghost predicate Deep(s: State)
  {
    Whole(s) && LonelyOk(s) && (forall t :: HandingOk(s, t)) && forall o, v :: NestOk(s, o, v)
  }

  // ----- what a step does to the queue and to the pending byte -----

  ghost predicate QueueMoves(q: seq<Tid>, q': seq<Tid>, t: Tid)
  {
    q' == q || q' == q + [t] || (q != [] && q[0] == t && q' == q[1..])
  }

  lemma QueueAfter(s: State, t: Tid, try: bool)
    requires Inv(s)
    ensures QueueMoves(s.queue, Next(s, t, try).queue, t)
  {
    if AtHead(s.pc[t]) { var i := Position(s, t); }
    if Early(s.pc[t]) { EarlyQueue(s, t, try); } else { LateQueue(s, t, try); }
  }

  lemma EarlyQueue(s: State, t: Tid, try: bool)
    requires s.Total() && Early(s.pc[t])
    ensures Next(s, t, try).queue == s.queue || Next(s, t, try).queue == s.queue + [t]
  {
    if Arriving(s.pc[t]) { ArrivingQueue(s, t, try); } else if Unlinked(s.pc[t]) { UnlinkedQueue(s, t); }
  }

  lemma ArrivingQueue(s: State, t: Tid, try: bool)
    requires s.Total() && Arriving(s.pc[t])
    ensures NextArriving(s, t, try).queue == s.queue
  {
  }

  lemma UnlinkedQueue(s: State, t: Tid)
    requires s.Total() && Unlinked(s.pc[t])
    ensures NextUnlinked(s, t).queue == s.queue || NextUnlinked(s, t).queue == s.queue + [t]
  {
  }

  lemma LateQueue(s: State, t: Tid, try: bool)
    requires s.Total() && !Early(s.pc[t]) && (AtHead(s.pc[t]) ==> s.queue != [])
    ensures Next(s, t, try).queue == s.queue || (AtHead(s.pc[t]) && Next(s, t, try).queue == s.queue[1..])
  {
  }

  lemma BehindStays(s: State, s': State, t: Tid, o: Tid, v: Tid)
    requires Behind(s, o, v) && QueueMoves(s.queue, s'.queue, t) && o != t
    ensures Behind(s', o, v)
  {
    var i, j :| 0 <= i < j < |s.queue| && s.queue[i] == o && s.queue[j] == v;
    if s'.queue == s.queue || s'.queue == s.queue + [t] {
      assert s'.queue[i] == o && s'.queue[j] == v;
    } else {
      assert s'.queue[i - 1] == o && s'.queue[j - 1] == v;
    }
  }

  // ----- the interrupting context moves -----

  lemma WordInUse(s: State, o: Tid)
    requires Inv(s) && Needed(s.pc[o])
    ensures Holds(s.pc[o]) ==> s.word.locked
    ensures Pends(s.pc[o]) ==> s.word.pending
    ensures InQueue(s.pc[o]) ==> s.word.tail.Some? && o in s.queue
    ensures s.word != FREE
  {
    assert ThreadOk(s, o);
  }

  /** Nobody gets past a lock in use, nor back to where it came from once it is past the first read. */
  lemma ArrivesOver(s: State, v: Tid, try: bool)
    requires s.Total() && Arriving(s.pc[v]) && s.pc[v] != TryCas && s.word != FREE
    ensures var p, s' := s.pc[v], Next(s, v, try);
            && v in s'.pc && s'.queue == s.queue
            && (OverHolder(s'.pc[v]) || (p == Idle && s'.pc[v] == Idle))
            && (s.word.pending && (p.Idle? || p.SpinPending?) ==>
               s'.pc[v].SpinPending? || s'.pc[v].QEnter? || s'.pc[v] == p)
            && (s.word.tail.Some? && p.Idle? ==> s'.pc[v].QEnter? || s'.pc[v] == p)
  {
    ArrivePcOver(s.word, s.pc[v], try);
    var s' := NextArriving(s, v, try);
    assert s'.pc[v] == if SetsPending(s.word, s.pc[v]) then AfterPending(s.word) else ArrivePc(s.word, s.pc[v], try);
  }

  lemma ArrivePcOver(w: Word, p: Pc, try: bool)
    requires Arriving(p) && p != TryCas && w != FREE
    ensures OverHolder(AfterPending(w))
    ensures var p' := ArrivePc(w, p, try);
            && (OverHolder(p') || (p == Idle && p' == Idle))
            && (w.pending && (p.Idle? || p.SpinPending?) ==> p'.SpinPending? || p'.QEnter? || p' == p)
            && (w.tail.Some? && p.Idle? ==> p'.QEnter? || p' == p)
  {
  }

  lemma PreparesOnTheWay(s: State, v: Tid)
    requires s.Total() && Preparing(s.pc[v])
    ensures var s' := NextPreparing(s, v); v in s'.pc && OnTheWay(s'.pc[v]) && s'.queue == s.queue
  {
  }

  lemma SearchesOnTheWay(s: State, v: Tid)
    requires s.Total() && Unlinked(s.pc[v]) && !s.pc[v].QTryCas? && s.word != FREE
    ensures var s' := NextUnlinked(s, v);
            && v in s'.pc
            && (if OnTheWay(s'.pc[v]) then s'.queue == s.queue
                else s'.queue == s.queue + [v] && (s'.pc[v].QLink? || (s.word.tail.None? && s'.pc[v].QHead?)))
  {
  }

  lemma GoesOnTheWay(s: State, v: Tid, try: bool)
    requires s.Total() && OnTheWay(s.pc[v]) && s.word != FREE
    ensures var s' := Next(s, v, try);
            && v in s'.pc
            && (if OnTheWay(s'.pc[v]) then s'.queue == s.queue
                else s'.queue == s.queue + [v] && (s'.pc[v].QLink? || (s.word.tail.None? && s'.pc[v].QHead?)))
  {
    if Preparing(s.pc[v]) { PreparesOnTheWay(s, v); } else { SearchesOnTheWay(s, v); }
  }

  lemma PendsOver(s: State, v: Tid)
    requires s.Total() && Pends(s.pc[v])
    ensures var s' := NextPending(s, v); v in s'.pc && OverHolder(s'.pc[v])
  {
  }

  lemma WaitsOver(s: State, v: Tid, try: bool)
    requires s.Total() && Waiting(s.pc[v])
    ensures var s' := Next(s, v, try);
            && v in s'.pc && OverHolder(s'.pc[v]) && s'.queue == s.queue
            && (s.word.pending ==> Waiting(s'.pc[v]))
            && (s.pc[v].QLink? || (s.pc[v].QWait? && !s.woken[s.nd[v]]) ==> s'.pc[v].QWait?)
  {
  }

  lemma ClaimsOver(s: State, v: Tid)
    requires s.Total() && Claims(s.pc[v])
    ensures var s' := NextClaiming(s, v); v in s'.pc && OverHolder(s'.pc[v])
  {
  }

  lemma HandsOver(s: State, v: Tid)
    requires s.Total() && Handing(s.pc[v])
    ensures var s' := NextHanding(s, v); v in s'.pc && OverHolder(s'.pc[v])
  {
  }

  lemma TriesOver(s: State, v: Tid)
    requires s.Total() && s.pc[v].QTryCas?
    ensures var s' := NextUnlinked(s, v); v in s'.pc && OverHolder(s'.pc[v])
  {
  }

  lemma HeadOver(s: State, v: Tid, try: bool, s': State)
    requires s.Total() && (Claims(s.pc[v]) || Handing(s.pc[v]) || s.pc[v].QTryCas?)
    requires s' == if Claims(s.pc[v]) then NextClaiming(s, v) else if Handing(s.pc[v]) then NextHanding(s, v)
             else NextUnlinked(s, v)
    ensures v in s'.pc && OverHolder(s'.pc[v])
  {
    if Claims(s.pc[v]) { ClaimsOver(s, v); } else if Handing(s.pc[v]) { HandsOver(s, v); } else { TriesOver(s, v); }
  }

  /** Going from `p` to `p'` a context is where it may be, or has not begun. */
  predicate Keeps(p: Pc, p': Pc, over: bool) { over || (p == Idle && p' == Idle) }

  lemma MovesOverHolder(s: State, v: Tid, try: bool, s': State)
    requires s.Total() && s.word != FREE && !Leaving(s.pc[v]) && (s.pc[v] == Idle || OverHolder(s.pc[v]))
             && s' == Next(s, v, try)
    ensures v in s'.pc && Keeps(s.pc[v], s'.pc[v], OverHolder(s'.pc[v]))
  {
    var p := s.pc[v];
    if Arriving(p) { ArrivesOver(s, v, try); }
    else if Pends(p) { PendsOver(s, v); }
    else if OnTheWay(p) { GoesOnTheWay(s, v, try); }
    else if Waiting(p) { WaitsOver(s, v, try); }
    else { HeadOver(s, v, try, s'); }
  }

  lemma MovesOverPender(s: State, v: Tid, try: bool, s': State)
    requires s.Total() && s.word.pending && (s.pc[v] == Idle || OverPender(s.pc[v])) && s' == Next(s, v, try)
    ensures v in s'.pc && Keeps(s.pc[v], s'.pc[v], OverPender(s'.pc[v]))
  {
    var p := s.pc[v];
    if Arriving(p) { ArrivesOver(s, v, try); }
    else if OnTheWay(p) { GoesOnTheWay(s, v, try); }
    else { WaitsOver(s, v, try); }
  }

  lemma LandsOverQueued(s: State, o: Tid, v: Tid, try: bool, s': State)
    requires s.Total() && o in s.queue && s.word.tail.Some? && OnTheWay(s.pc[v]) && s' == Next(s, v, try)
    ensures v in s'.pc && OverQueued(s'.pc[v]) && (InQueue(s'.pc[v]) ==> Behind(s', o, v))
  {
    GoesOnTheWay(s, v, try);
    if !OnTheWay(s'.pc[v]) { Lands(s, s', o, v); }
  }

  lemma WaitsOverQueued(s: State, o: Tid, v: Tid, try: bool, s': State)
    requires s.Total() && (s.pc[v].QLink? || s.pc[v].QWait?) && Behind(s, o, v) && !s.woken[s.nd[v]]
             && s' == Next(s, v, try)
    ensures v in s'.pc && s'.pc[v].QWait? && Behind(s', o, v)
  {
    WaitsOver(s, v, try);
    SameQueueBehind(s, s', o, v);
  }

  lemma SameQueueBehind(s: State, s': State, o: Tid, v: Tid)
    requires Behind(s, o, v) && s'.queue == s.queue
    ensures Behind(s', o, v)
  {
  }

  lemma MovesOverQueued(s: State, o: Tid, v: Tid, try: bool, s': State)
    requires s.Total() && o in s.queue && s.word.tail.Some? && s' == Next(s, v, try)
    requires s.pc[v] != Idle ==> OverQueued(s.pc[v]) && (InQueue(s.pc[v]) ==> Behind(s, o, v) && !s.woken[s.nd[v]])
    ensures v in s'.pc && Keeps(s.pc[v], s'.pc[v], OverQueued(s'.pc[v])) && (InQueue(s'.pc[v]) ==> Behind(s', o, v))
  {
    if Arriving(s.pc[v]) { ArrivesOver(s, v, try); }
    else if OnTheWay(s.pc[v]) { LandsOverQueued(s, o, v, try, s'); }
    else { WaitsOverQueued(s, o, v, try, s'); }
  }

  lemma Lands(s: State, s': State, o: Tid, v: Tid)
    requires o in s.queue && s'.queue == s.queue + [v]
    ensures Behind(s', o, v)
  {
    var i :| 0 <= i < |s.queue| && s.queue[i] == o;
    assert s'.queue[i] == o && s'.queue[|s.queue|] == v;
  }

  lemma BehindWaits(s: State, o: Tid, v: Tid)
    requires Inv(s) && Behind(s, o, v)
    ensures o != v && !s.woken[s.nd[v]]
  {
    var i, j :| 0 <= i < j < |s.queue| && s.queue[i] == o && s.queue[j] == v;
    assert LinkOk(s, j);
  }

  /** The interrupting context moves: it stays where it may be, and does not leave. */
  lemma OverMoves(s: State, o: Tid, v: Tid, try: bool, s': State)
    requires Inv(s) && Needed(s.pc[o]) && Below(o, v) && NestOk(s, o, v) && s' == Next(s, v, try) && s'.Total()
    requires s'.pc[o] == s.pc[o]
    ensures NestOk(s', o, v) && (s.pc[v] != Idle ==> s'.pc[v] != Idle)
  {
    WordInUse(s, o);
    OverInUse(s, o, v);
    if Holds(s.pc[o]) { MovesOverHolder(s, v, try, s'); }
    if Pends(s.pc[o]) { PenderMoves(s, v, try, s'); }
    if InQueue(s.pc[o]) { WaiterMoves(s, o, v, try, s'); }
  }

  lemma OverInUse(s: State, o: Tid, v: Tid)
    requires Inv(s) && Needed(s.pc[o]) && Below(o, v) && NestOk(s, o, v)
    ensures Holds(s.pc[o]) ==> !Leaving(s.pc[v])
    ensures InQueue(s.pc[o]) && InQueue(s.pc[v]) ==> !s.woken[s.nd[v]]
  {
    assert ThreadOk(s, o) && ThreadOk(s, v);
    if InQueue(s.pc[o]) && InQueue(s.pc[v]) { BehindWaits(s, o, v); }
  }

  lemma PenderMoves(s: State, v: Tid, try: bool, s': State)
    requires s.Total() && s.word.pending && (s.pc[v] == Idle || OverPender(s.pc[v])) && s' == Next(s, v, try)
    ensures v in s'.pc && (s'.pc[v] != Idle ==> OverPender(s'.pc[v])) && (s.pc[v] != Idle ==> s'.pc[v] != Idle)
  {
    MovesOverPender(s, v, try, s');
  }

  lemma WaiterMoves(s: State, o: Tid, v: Tid, try: bool, s': State)
    requires s.Total() && s.word.tail.Some? && o in s.queue && s' == Next(s, v, try)
    requires s.pc[v] != Idle ==>
             OverQueued(s.pc[v]) && (InQueue(s.pc[v]) ==> Behind(s, o, v) && !s.woken[s.nd[v]])
    ensures v in s'.pc && (s.pc[v] != Idle ==> s'.pc[v] != Idle)
    ensures s'.pc[v] != Idle ==> OverQueued(s'.pc[v]) && (InQueue(s'.pc[v]) ==> Behind(s', o, v))
  {
    MovesOverQueued(s, o, v, try, s');
  }

  /** Neither of the two moves. */
  lemma NestStays(s: State, o: Tid, v: Tid, t: Tid, try: bool, s': State)
    requires Inv(s) && t != o && t != v && NestOk(s, o, v) && s' == Next(s, t, try) && s'.Total()
    ensures NestOk(s', o, v)
  {
    OthersStay(s, t, try, o);
    OthersStay(s, t, try, v);
    QueueAfter(s, t, try);
    if Behind(s, o, v) { BehindStays(s, s', t, o, v); }
  }

  lemma NestKept(s: State, o: Tid, v: Tid, t: Tid, try: bool, s': State)
    requires Inv(s) && Enabled(s, t) && NestOk(s, o, v) && s' == Next(s, t, try) && s'.Total()
    ensures NestOk(s', o, v)
  {
    if !Below(o, v) {
    } else if t == o {
      assert v == Tid(o.cpu, v.level);
      OthersStay(s, t, try, v);
    } else if t == v {
      OthersStay(s, v, try, o);
      if Needed(s.pc[o]) { OverMoves(s, o, v, try, s'); }
    } else {
      NestStays(s, o, v, t, try, s');
    }
  }

  // ----- the head of the queue -----

  ghost predicate Clean(s: State) { s.Total() && (s.pender.Some? ==> s.pc[s.pender.value].UndoPending?) }

  /** Whoever comes to the pending byte while there is a queue has seen the tail. */
  lemma PenderAfter(s: State, t: Tid, try: bool, s': State)
    requires Inv(s) && s.queue != [] && Clean(s) && s' == Next(s, t, try) && s'.Total()
    ensures Clean(s')
  {
    if Arriving(s.pc[t]) { ArrivingPender(s, t, try); }
    else if Pends(s.pc[t]) { assert ThreadOk(s, t); }
    else { OtherPender(s, t, try, s'); }
  }

  lemma ArrivingPender(s: State, t: Tid, try: bool)
    requires s.Total() && Arriving(s.pc[t]) && Clean(s) && s.word.tail.Some?
    ensures NextArriving(s, t, try).Total() ==> Clean(NextArriving(s, t, try))
  {
  }

  lemma OtherPender(s: State, t: Tid, try: bool, s': State)
    requires Inv(s) && Clean(s) && !Arriving(s.pc[t]) && !Pends(s.pc[t]) && s' == Next(s, t, try) && s'.Total()
    ensures Clean(s')
  {
    KeepsPender(s, t, try);
    if s.pender.Some? { OthersStay(s, t, try, s.pender.value); }
  }

  lemma KeepsPender(s: State, t: Tid, try: bool)
    requires s.Total() && !Arriving(s.pc[t]) && !Pends(s.pc[t])
    ensures Next(s, t, try).pender == s.pender
  {
    if Unlinked(s.pc[t]) { UnlinkedKeepsPender(s, t); } else if Waiting(s.pc[t]) { WaitingKeepsPender(s, t); }
  }

  lemma UnlinkedKeepsPender(s: State, t: Tid)
    requires s.Total() && Unlinked(s.pc[t])
    ensures NextUnlinked(s, t).pender == s.pender
  {
  }

  lemma WaitingKeepsPender(s: State, t: Tid)
    requires s.Total() && Waiting(s.pc[t])
    ensures NextWaiting(s, t).pender == s.pender
  {
  }

  lemma ArrivePcHands(w: Word, p: Pc, try: bool)
    requires Arriving(p)
    ensures !Handing(ArrivePc(w, p, try)) && !Handing(AfterPending(w))
  {
  }

  lemma ArrivingHands(s: State, t: Tid, try: bool)
    requires s.Total() && Arriving(s.pc[t])
    ensures t in NextArriving(s, t, try).pc && !Handing(NextArriving(s, t, try).pc[t])
  {
    ArrivePcHands(s.word, s.pc[t], try);
  }

  lemma PendingHands(s: State, t: Tid)
    requires s.Total() && Pends(s.pc[t])
    ensures t in NextPending(s, t).pc && !Handing(NextPending(s, t).pc[t])
  {
  }

  lemma PreparingHands(s: State, t: Tid)
    requires s.Total() && Preparing(s.pc[t])
    ensures t in NextPreparing(s, t).pc && !Handing(NextPreparing(s, t).pc[t])
  {
  }

  lemma UnlinkedHands(s: State, t: Tid)
    requires s.Total() && Unlinked(s.pc[t])
    ensures t in NextUnlinked(s, t).pc && !Handing(NextUnlinked(s, t).pc[t])
  {
  }

  lemma WaitingHands(s: State, t: Tid)
    requires s.Total() && Waiting(s.pc[t])
    ensures t in NextWaiting(s, t).pc && !Handing(NextWaiting(s, t).pc[t])
  {
  }

  lemma EarlyHands(s: State, t: Tid, try: bool)
    requires s.Total() && (Early(s.pc[t]) || Waiting(s.pc[t]))
    ensures t in Next(s, t, try).pc && !Handing(Next(s, t, try).pc[t])
  {
    if Arriving(s.pc[t]) { ArrivingHands(s, t, try); }
    else if Pends(s.pc[t]) { PendingHands(s, t); }
    else if Preparing(s.pc[t]) { PreparingHands(s, t); }
    else if Unlinked(s.pc[t]) { UnlinkedHands(s, t); }
    else { WaitingHands(s, t); }
  }

  lemma LeavingHands(s: State, t: Tid, try: bool)
    requires s.Total() && Leaving(s.pc[t])
    ensures t in Next(s, t, try).pc ==> !Handing(Next(s, t, try).pc[t])
  {
  }

  lemma HandsAfter(s: State, t: Tid, try: bool, u: Tid, s': State)
    requires s.Total() && s' == Next(s, t, try) && s'.Total() && Handing(s'.pc[u])
    ensures Handing(s.pc[u]) || Claims(s.pc[u])
  {
    if t != u { OthersStay(s, t, try, u); }
    else if Early(s.pc[t]) || Waiting(s.pc[t]) { EarlyHands(s, t, try); }
    else if Leaving(s.pc[t]) { LeavingHands(s, t, try); }
  }

  lemma HandingKept(s: State, t: Tid, try: bool, u: Tid)
    requires Inv(s) && Next(s, t, try).Total() && HandingOk(s, u)
    ensures HandingOk(Next(s, t, try), u)
  {
    if Handing(Next(s, t, try).pc[u]) {
      HandsAfter(s, t, try, u, Next(s, t, try));
      assert ThreadOk(s, u);
      PenderAfter(s, t, try, Next(s, t, try));
    }
  }

  // ----- the head without a successor -----

  /** A head comes past the point of clearing the tail alone only if the exchange fails, over a pending owner. */
  lemma BecomesLonely(s: State, t: Tid, try: bool, s': State)
    requires Inv(s) && s' == Next(s, t, try) && s'.Total() && Lonely(s') && s'.queue == s.queue && !Lonely(s)
    ensures s.pc[t].QClaim? && s.word != s.pc[t].seen && s.queue == [t]
  {
    var h := s.queue[0];
    if t != h { OthersStay(s, t, try, h); }
    assert ThreadOk(s, t) && LinkOk(s, 0);
  }

  /** A context that lands is not past that point. */
  lemma LandsEarly(s: State, t: Tid, try: bool, s': State)
    requires s.Total() && s' == Next(s, t, try) && s'.Total() && s'.queue == s.queue + [t]
             && (AtHead(s.pc[t]) ==> s.queue != [])
    ensures !Lonely(s')
  {
    if Early(s.pc[t]) { EarlyLands(s, t, try); } else { LateQueue(s, t, try); }
    FirstIsLast(s'.queue, s.queue, t);
  }

  lemma FirstIsLast(q': seq<Tid>, q: seq<Tid>, t: Tid)
    requires q' == q + [t]
    ensures |q'| == 1 ==> q'[0] == t
  {
  }

  lemma EarlyLands(s: State, t: Tid, try: bool)
    requires s.Total() && Early(s.pc[t]) && Next(s, t, try).queue != s.queue
    ensures t in Next(s, t, try).pc && (Next(s, t, try).pc[t].QLink? || Next(s, t, try).pc[t].QHead?)
  {
    if Arriving(s.pc[t]) { ArrivingQueue(s, t, try); } else if Unlinked(s.pc[t]) { UnlinkedLands(s, t); }
  }

  lemma UnlinkedLands(s: State, t: Tid)
    requires s.Total() && Unlinked(s.pc[t]) && NextUnlinked(s, t).queue != s.queue
    ensures t in NextUnlinked(s, t).pc && (NextUnlinked(s, t).pc[t].QLink? || NextUnlinked(s, t).pc[t].QHead?)
  {
  }

  lemma SameQueueLonely(s: State, t: Tid, try: bool, s': State)
    requires Deep(s) && s' == Next(s, t, try) && s'.Total() && Lonely(s') && s'.queue == s.queue
    ensures LonelyOk(s')
  {
    if Lonely(s) {
      var u :| Committed(s.pc[u]) && !Below(u, s.queue[0]);
      CommitmentHolds(s, u, t, try);
      assert s'.queue != s.queue + [u];
    } else {
      BecomesLonely(s, t, try, s');
      WhyClaimFails(s, t);
      var u := s.pender.value;
      assert NestOk(s, u, t);
      OthersStay(s, t, try, u);
      assert Committed(s'.pc[u]);
    }
  }

  lemma PoppedIsNotLonely(s: State, t: Tid, try: bool, s': State)
    requires Inv(s) && s' == Next(s, t, try) && s'.Total() && s.queue != [] && s.queue[0] == t
             && s'.queue == s.queue[1..]
    ensures !Lonely(s')
  {
    if |s.queue| == 2 {
      QueueNodes(s, 0, 1);
      OthersStay(s, t, try, s.queue[1]);
      assert LinkOk(s, 1);
    }
  }

  lemma LonelyKept(s: State, t: Tid, try: bool, s': State)
    requires Deep(s) && s' == Next(s, t, try) && s'.Total() && QueueMoves(s.queue, s'.queue, t)
    ensures LonelyOk(s')
  {
    if s'.queue == s.queue {
      if Lonely(s') { SameQueueLonely(s, t, try, s'); }
    } else {
      OtherQueueNotLonely(s, t, try, s');
    }
  }

  lemma OtherQueueNotLonely(s: State, t: Tid, try: bool, s': State)
    requires Inv(s) && s' == Next(s, t, try) && s'.Total() && QueueMoves(s.queue, s'.queue, t) && s'.queue != s.queue
    ensures !Lonely(s')
  {
    if s'.queue == s.queue + [t] {
      if AtHead(s.pc[t]) { var i := Position(s, t); }
      LandsEarly(s, t, try, s');
    } else {
      PoppedIsNotLonely(s, t, try, s');
    }
  }

  // ----- every step, and every run -----

  lemma NextKeepsDeep(s: State, t: Tid, try: bool)
    requires Deep(s) && Enabled(s, t)
    ensures Deep(Next(s, t, try))
  {
    var s' := Next(s, t, try);
    NextKeepsWhole(s, t, try);
    QueueAfter(s, t, try);
    LonelyKept(s, t, try, s');
    forall u ensures HandingOk(s', u) { HandingKept(s, t, try, u); }
    forall o, v ensures NestOk(s', o, v) { NestKept(s, o, v, t, try, s'); }
  }

  lemma {:induction false} RunsKeepDeep(states: seq<State>, moves: seq<Move>, k: nat)
    requires IsRun(states, moves) && k < |states|
    ensures Deep(states[k])
  {
    if k == 0 {
      InitialInv(states[0]);
    } else {
      RunsKeepDeep(states, moves, k - 1);
      assert Follows(states[k - 1], moves[k - 1], states[k]);
      NextKeepsDeep(states[k - 1], moves[k - 1].t, moves[k - 1].try);
    }
  }

  // ----- a needed context that is interrupted -----

  /** Interrupted, a needed context stays where it is, and interrupted. */
  lemma StuckStep(s: State, t: Tid, try: bool, o: Tid)
    requires Deep(s) && Enabled(s, t) && Needed(s.pc[o]) && !Enabled(s, o)
    ensures var s' := Next(s, t, try); Deep(s') && s'.pc[o] == s.pc[o] && !Enabled(s', o)
  {
    NextKeepsDeep(s, t, try);
    var s' := Next(s, t, try);
    assert ThreadOk(s, o);
    var l: nat :| o.level < l < 4 && s.pc[Tid(o.cpu, l)] != Idle;
    var v := Tid(o.cpu, l);
    OthersStay(s, t, try, o);
    if t == v { OverMoves(s, o, v, try, s'); } else { OthersStay(s, t, try, v); }
  }

  ghost predicate Stuck(s: State, o: Tid, p: Pc) { Deep(s) && s.pc[o] == p && !Enabled(s, o) }

  lemma StuckFollows(s: State, m: Move, s': State, o: Tid, p: Pc)
    requires Stuck(s, o, p) && Needed(p) && Follows(s, m, s')
    ensures Stuck(s', o, p)
  {
    StuckStep(s, m.t, m.try, o);
  }

  /** Over every run: a holder, a pending owner or a waiter in the queue that is interrupted by a context of its cpu
      inside the lock code stays where it is for good. */
  lemma {:induction false} InterruptedForGood(states: seq<State>, moves: seq<Move>, j: nat, k: nat, o: Tid)
    requires IsRun(states, moves) && j <= k < |states|
    requires states[j].Total() && Needed(states[j].pc[o]) && !Enabled(states[j], o)
    ensures Stuck(states[k], o, states[j].pc[o])
    decreases k
  {
    if j < k {
      InterruptedForGood(states, moves, j, k - 1, o);
      StuckFollows(states[k - 1], moves[k - 1], states[k], o, states[j].pc[o]);
    } else {
      RunsKeepDeep(states, moves, j);
    }
  }

  ghost predicate Extends(states: seq<State>, moves: seq<Move>, states': seq<State>, moves': seq<Move>)
  {
    IsRun(states', moves') && states <= states' && moves <= moves'
  }

  /** In no run that goes on from this one does `o` take another step. */
  ghost predicate NeverRunsAgain(states: seq<State>, moves: seq<Move>, o: Tid)
  {
    forall states': seq<State>, moves': seq<Move>, k: nat ::
      Extends(states, moves, states', moves') && |moves| <= k < |moves'| ==> moves'[k].t != o
  }

  /** Somebody above `o` on its cpu is inside the lock code or holds the lock. */
  ghost predicate Interrupted(s: State, o: Tid)
    requires s.Total()
  {
    exists l: nat :: o.level < l < 4 && s.pc[Tid(o.cpu, l)] != Idle
  }

  /** A needed context never runs again exactly if it is interrupted. */
  lemma StuckIffInterrupted(states: seq<State>, moves: seq<Move>, o: Tid)
    requires IsRun(states, moves) && states[|moves|].Total() && Needed(states[|moves|].pc[o])
    ensures NeverRunsAgain(states, moves, o) <==> Interrupted(states[|moves|], o)
  {
    var s := states[|moves|];
    RunsKeepInv(states, moves, |moves|);
    assert ThreadOk(s, o);
    if Interrupted(s, o) {
      forall states': seq<State>, moves': seq<Move>, k: nat
        | Extends(states, moves, states', moves') && |moves| <= k < |moves'|
        ensures moves'[k].t != o
      {
        assert states'[|moves|] == s;
        InterruptedForGood(states', moves', |moves|, k, o);
        assert Follows(states'[k], moves'[k], states'[k + 1]);
      }
    } else {
      GoesOn(states, moves, Move(o, false));
      var states', moves' := states + [Next(s, o, false)], moves + [Move(o, false)];
      assert Extends(states, moves, states', moves') && moves'[|moves|].t == o;
    }
  }

  lemma GoesOn(states: seq<State>, moves: seq<Move>, m: Move)
    requires IsRun(states, moves) && states[|moves|].Total() && Enabled(states[|moves|], m.t)
    ensures IsRun(states + [Next(states[|moves|], m.t, m.try)], moves + [m])
  {
    var states', moves' := states + [Next(states[|moves|], m.t, m.try)], moves + [m];
    forall k | 0 <= k < |moves'| ensures Follows(states'[k], moves'[k], states'[k + 1]) {
      if k < |moves| { assert Follows(states[k], moves[k], states[k + 1]); }
    }
  }

  // ----- somebody moves -----

  /** The topmost context of a cpu that is in the lock code or holds the lock. */
  lemma Topmost(s: State, t: Tid) returns (u: Tid)
    requires s.Total() && s.pc[t] != Idle && t.level < 4
    ensures s.pc[u] != Idle && Enabled(s, u) && u.cpu == t.cpu && t.level <= u.level
    decreases 4 - t.level
  {
    if l: nat :| t.level < l < 4 && s.pc[Tid(t.cpu, l)] != Idle {
      u := Topmost(s, Tid(t.cpu, l));
    } else {
      u := t;
    }
  }

  /** With everybody running that is needed, somebody inside runs and is not blocked. */
  lemma Unblocked(s: State, t: Tid) returns (u: Tid)
    requires Deep(s) && s.pc[t] != Idle && forall o :: Needed(s.pc[o]) ==> Enabled(s, o)
    ensures s.pc[u] != Idle && !Blocked(s, u) && Enabled(s, u)
  {
    if s.owner.Some? {
      u := s.owner.value;
      assert ThreadOk(s, u);
      if Blocked(s, u) { u := BehindTheOwner(s, u); }
    } else if s.pender.Some? {
      u := s.pender.value;
      assert ThreadOk(s, u);
    } else if s.queue != [] {
      u := s.queue[0];
      assert ThreadOk(s, u);
    } else {
      assert ThreadOk(s, t);
      u := Topmost(s, t);
      assert ThreadOk(s, u);
    }
  }

  lemma BehindTheOwner(s: State, o: Tid) returns (u: Tid)
    requires Deep(s) && s.pc[o] == QWaitNext && s.next[s.nd[o]].None? && forall x :: Needed(s.pc[x]) ==> Enabled(s, x)
    ensures s.pc[u] != Idle && !Blocked(s, u) && Enabled(s, u)
  {
    var i := Position(s, o);
    if |s.queue| >= 2 {
      assert LinkOk(s, 1);
      u := s.queue[1];
    } else {
      var w :| Committed(s.pc[w]) && !Below(w, s.queue[0]);
      assert ThreadOk(s, w);
      u := Topmost(s, w);
      assert HandingOk(s, o) && ThreadOk(s, u);
      if InQueue(s.pc[u]) { var j := Position(s, u); }
    }
  }

  /** The protocol never stops while no needed context is interrupted. */
  lemma NoDeadlock(states: seq<State>, moves: seq<Move>, k: nat, t: Tid)
    requires IsRun(states, moves) && k < |states|
    requires states[k].Total() && states[k].pc[t] != Idle
    requires forall u :: Needed(states[k].pc[u]) ==> Enabled(states[k], u)
    ensures exists u :: states[k].pc[u] != Idle && Enabled(states[k], u) && Next(states[k], u, false) != states[k]
  {
    RunsKeepDeep(states, moves, k);
    var u := Unblocked(states[k], t);
    OnlyLoopsBlock(states[k], u);
  }

  // ----- and it does happen -----

  const TASK := Tid(0, 0)
  const IRQ := Tid(0, 1)

  /** Four steps: the task of cpu 0 takes the lock, an interrupt there finds it locked, and puts up the pending byte. */
  ghost function DeadlockRun(s0: State): seq<State>
    requires s0.Total()
  {
    var s1 := Grab(s0, TASK, Critical);
    var s2 := Goto(s1, IRQ, ReadForPending);
    var s3 := Goto(s2, IRQ, CasPending(LOCKED));
    [s0, s1, s2, s3, SetPending(s3, IRQ)]
  }

  lemma DeadlockSteps(s0: State)
    requires Initial(s0)
    ensures var r, m := DeadlockRun(s0), Move(IRQ, false);
            && Follows(r[0], Move(TASK, false), r[1]) && Follows(r[1], m, r[2]) && Follows(r[2], m, r[3])
            && Follows(r[3], m, r[4])
  {
    var r := DeadlockRun(s0);
    TaskGrabs(r[0], r[1]);
    IrqReads(r[1], r[2], r[3]);
    IrqPends(r[3], r[4]);
  }

  lemma TaskGrabs(s: State, s': State)
    requires Initial(s) && s' == Grab(s, TASK, Critical)
    ensures Follows(s, Move(TASK, false), s')
  {
  }

  predicate IrqOver(s: State, p: Pc) { s.word == LOCKED && IRQ in s.pc && s.pc[IRQ] == p }

  ghost predicate NobodyElse(s: State) { forall l: nat :: 1 < l < 4 ==> Tid(0, l) in s.pc && s.pc[Tid(0, l)] == Idle }

  lemma IrqReads(s: State, s1: State, s2: State)
    requires s.Total() && IrqOver(s, Idle) && NobodyElse(s)
    requires s1 == Goto(s, IRQ, ReadForPending) && s1.Total() && s2 == Goto(s1, IRQ, CasPending(LOCKED))
    ensures Follows(s, Move(IRQ, false), s1) && Follows(s1, Move(IRQ, false), s2)
  {
  }

  lemma IrqPends(s: State, s': State)
    requires s.Total() && IrqOver(s, CasPending(LOCKED)) && NobodyElse(s) && s' == SetPending(s, IRQ)
    ensures Follows(s, Move(IRQ, false), s')
  {
  }

  /** From every initial state: this is a run of the protocol, and at its end nobody who runs can move. */
  lemma DeadlockHappens(s0: State)
    requires Initial(s0)
    ensures IsRun(DeadlockRun(s0), [Move(TASK, false), Move(IRQ, false), Move(IRQ, false), Move(IRQ, false)])
    ensures var s := DeadlockRun(s0)[4];
            s.Total() && Needed(s.pc[TASK]) && Interrupted(s, TASK) &&
            forall u :: s.pc[u] != Idle && Enabled(s, u) ==> Next(s, u, false) == s
  {
    var r, m := DeadlockRun(s0), Move(IRQ, false);
    DeadlockSteps(s0);
    var moves := [Move(TASK, false), m, m, m];
    forall k | 0 <= k < 4 ensures Follows(r[k], moves[k], r[k + 1]) {
      assert k == 0 || k == 1 || k == 2 || k == 3;
    }
    DeadlockEnds(s0);
  }

  lemma DeadlockEnds(s0: State)
    requires Initial(s0)
    ensures var s := DeadlockRun(s0)[4];
            s.Total() && Needed(s.pc[TASK]) && Interrupted(s, TASK) &&
            forall u :: s.pc[u] != Idle && Enabled(s, u) ==> Next(s, u, false) == s
  {
    var s := DeadlockRun(s0)[4];
    assert s.pc[IRQ] == WaitOwner && s.word.locked && IRQ == Tid(TASK.cpu, 1);
    forall u | s.pc[u] != Idle && Enabled(s, u) ensures Next(s, u, false) == s {
      assert u == TASK || u == IRQ;
      OnlyLoopsBlock(s, u);
    }
  }
}

/** Any number of spinlocks at once. Each has its own word and queue, while the queue nodes of a cpu serve them all. A
    context may hold several locks, and is on its way to at most one of them; contexts of one cpu nest across locks. */
module SpinLocks {
  import opened SpinLock

  /** For each lock its word, who is where in its code, and its history; the nodes are the same in all of them. */
  type Locks = imap<nat, State>

  ghost predicate Shares(s: State, s': State) { s.held == s'.held && s.next == s'.next && s.woken == s'.woken }

  ghost predicate Joined(m: Locks)
  {
    (forall l: nat :: l in m && m[l].Total()) && forall l: nat :: Shares(m[l], m[0])
  }

  /** `t` can take a step at lock `l`: nobody above it on its cpu is inside the code of any lock or holds one, and it is
      not on its way to another lock. */
  ghost predicate EnabledAt(m: Locks, l: nat, t: Tid)
    requires Joined(m)
  {
    && t.level < 4
    && (forall k: nat, i: nat :: t.level < i < 4 ==> m[k].pc[Tid(t.cpu, i)] == Idle)
    && (forall k: nat :: k != l ==> m[k].pc[t] == Idle || m[k].pc[t] == Critical)
  }

  ghost function With(s: State, s': State): State { s.(held := s'.held, next := s'.next, woken := s'.woken) }

  ghost function NextAt(m: Locks, l: nat, t: Tid, try: bool): Locks
    requires Joined(m)
  {
    var s' := Next(m[l], t, try);
    imap k: nat | true :: if k == l then s' else With(m[k], s')
  }

  // ----- the invariant -----

  /** A node in use is in use for some lock. */
  ghost predicate InUse(m: Locks, c: nat, i: int)
    requires Joined(m)
  {
    0 <= i < |m[0].held[c]| ==>
      exists l: nat :: HasNode(m[l].pc[m[0].held[c][i]]) && m[l].nd[m[0].held[c][i]] == Node(c, i)
  }

  ghost predicate OneNode(m: Locks, t: Tid)
    requires Joined(m)
  {
    forall k: nat, l: nat :: HasNode(m[k].pc[t]) && HasNode(m[l].pc[t]) ==> k == l
  }

  ghost predicate InvAll(m: Locks)
  {
    && Joined(m) && (forall l: nat :: Inv(m[l])) && (forall c: nat, i :: InUse(m, c, i)) && forall t :: OneNode(m, t)
  }

  ghost predicate InitialAll(m: Locks) { Joined(m) && forall l: nat :: Initial(m[l]) }

  ghost function StartAll(): (m: Locks)
    ensures InitialAll(m)
  {
    imap l: nat {:trigger Node(l, 0)} | true :: Start()
  }

  lemma InitialInvAll(m: Locks)
    requires InitialAll(m)
    ensures InvAll(m)
  {
    forall l: nat ensures Inv(m[l]) { InitialInv(m[l]); }
    forall c: nat, i ensures InUse(m, c, i) { assert Initial(m[0]); }
    forall t ensures OneNode(m, t) {
      forall l: nat ensures !HasNode(m[l].pc[t]) { assert Initial(m[l]); }
    }
  }

  /** Two nodes in use are different, within one lock and across locks. */
  lemma NodesDiffer(m: Locks, k: nat, l: nat, t: Tid, u: Tid)
    requires InvAll(m) && HasNode(m[k].pc[t]) && HasNode(m[l].pc[u]) && m[k].nd[t] == m[l].nd[u]
    ensures k == l && t == u
  {
    assert ThreadOk(m[k], t) && ThreadOk(m[l], u);
    assert Shares(m[k], m[0]) && Shares(m[l], m[0]) && OneNode(m, t);
  }

  lemma NoNodeElsewhere(m: Locks, l: nat, t: Tid, k: nat)
    requires Joined(m) && EnabledAt(m, l, t) && k != l
    ensures !HasNode(m[k].pc[t])
  {
    assert m[k].pc[t] == Idle || m[k].pc[t] == Critical;
  }

  lemma NoNodeAbove(m: Locks, l: nat, t: Tid, k: nat, i: nat)
    requires Joined(m) && EnabledAt(m, l, t) && t.level < i < 4
    ensures !HasNode(m[k].pc[Tid(t.cpu, i)])
  {
  }

  /** The last node taken on the cpu of a context that steps is its own, for the lock it is at, or one of a context
      below. */
  lemma LastTaken(m: Locks, l: nat, t: Tid, top: Tid, k: nat)
    requires Joined(m) && EnabledAt(m, l, t) && top.cpu == t.cpu && top.level < 4 && HasNode(m[k].pc[top])
    ensures top.level < t.level || (top == t && HasNode(m[l].pc[t]))
  {
    assert top == Tid(t.cpu, top.level);
    forall i: nat | t.level < i < 4 ensures !HasNode(m[k].pc[Tid(t.cpu, i)]) { NoNodeAbove(m, l, t, k, i); }
    if k != l { NoNodeElsewhere(m, l, t, k); }
  }

  lemma StepsFit(m: Locks, l: nat, t: Tid)
    requires InvAll(m) && EnabledAt(m, l, t)
    ensures Fits(m[l], t)
  {
    var i := |m[l].held[t.cpu]| - 1;
    assert Shares(m[l], m[0]) && Inv(m[l]);
    assert SlotOk(m[l], t.cpu, i) && InUse(m, t.cpu, i);
    OnlyBelow(m, l, t, i);
    LastFits(m[l], t);
  }

  ghost predicate TopBelow(s: State, t: Tid)
    requires s.Total()
  {
    var stack := s.held[t.cpu];
    stack != [] ==> var top := stack[|stack| - 1]; top.level < t.level || (top == t && HasNode(s.pc[t]))
  }

  lemma OnlyBelow(m: Locks, l: nat, t: Tid, i: int)
    requires Joined(m) && EnabledAt(m, l, t) && m[l].held == m[0].held && i == |m[l].held[t.cpu]| - 1
    requires SlotOk(m[l], t.cpu, i) && InUse(m, t.cpu, i)
    ensures TopBelow(m[l], t)
  {
    if i >= 0 {
      var top := m[l].held[t.cpu][i];
      var k: nat :| HasNode(m[k].pc[top]);
      LastTaken(m, l, t, top, k);
    }
  }

  lemma LastFits(s: State, t: Tid)
    requires Inv(s) && t.level < 4 && TopBelow(s, t)
    ensures Fits(s, t)
  {
    var stack := s.held[t.cpu];
    assert ThreadOk(s, t);
    if HasNode(s.pc[t]) { LevelsGrow(s, t.cpu, s.nd[t].idx, |stack| - 1); }
  }

  // ----- what a step does to the nodes -----

  /** A step writes only to nodes in use for its own lock. */
  lemma WritesOwn(s: State, t: Tid, try: bool, s': State, n: Node)
    requires Inv(s) && s' == Next(s, t, try) && s'.Total() && (s'.next[n] != s.next[n] || s'.woken[n] != s.woken[n])
    ensures exists u :: HasNode(s.pc[u]) && s.nd[u] == n
  {
    if s.pc[t].QLink? { NextLinks(s, t, try); LinksOwn(s, t, s', n); }
    else if s.pc[t].QHand? { NextHands(s, t, try); HandsToOwn(s, t, s', n); }
    else { WritesToItself(s, t, try, s', n); }
  }

  lemma NextLinks(s: State, t: Tid, try: bool)
    requires s.Total() && s.pc[t].QLink?
    ensures Next(s, t, try) == Link(s, t, s.pc[t].prev)
  {
  }

  lemma NextHands(s: State, t: Tid, try: bool)
    requires s.Total() && s.pc[t].QHand?
    ensures Next(s, t, try) == HandOver(s, t, s.pc[t].succ)
  {
  }

  lemma WritesToItself(s: State, t: Tid, try: bool, s': State, n: Node)
    requires s.Total() && !s.pc[t].QLink? && !s.pc[t].QHand?
    requires s' == Next(s, t, try) && s'.Total() && (s'.next[n] != s.next[n] || s'.woken[n] != s.woken[n])
    ensures HasNode(s.pc[t]) && s.nd[t] == n
  {
    if !s.pc[t].QInitLocked? && !s.pc[t].QInitNext? { WritesNothing(s, t, try); }
  }

  lemma LinksOwn(s: State, t: Tid, s': State, n: Node)
    requires Inv(s) && s.pc[t].QLink? && s' == Link(s, t, s.pc[t].prev)
             && (s'.next[n] != s.next[n] || s'.woken[n] != s.woken[n])
    ensures exists u :: HasNode(s.pc[u]) && s.nd[u] == n
  {
    var i := Position(s, t);
    assert ThreadOk(s, s.queue[i - 1]);
    assert HasNode(s.pc[s.queue[i - 1]]) && n == s.nd[s.queue[i - 1]];
  }

  lemma HandsToOwn(s: State, t: Tid, s': State, n: Node)
    requires Inv(s) && s.pc[t].QHand? && s' == HandOver(s, t, s.pc[t].succ)
             && (s'.next[n] != s.next[n] || s'.woken[n] != s.woken[n])
    ensures exists u :: HasNode(s.pc[u]) && s.nd[u] == n
  {
    Successor(s, t);
    assert HasNode(s.pc[s.queue[1]]) && n == s.nd[s.queue[1]];
  }

  lemma WritesNothing(s: State, t: Tid, try: bool)
    requires s.Total() && !s.pc[t].QLink? && !s.pc[t].QHand? && !s.pc[t].QInitLocked? && !s.pc[t].QInitNext?
    ensures Next(s, t, try).next == s.next && Next(s, t, try).woken == s.woken
  {
    if Early(s.pc[t]) { EarlyWritesNothing(s, t, try); }
  }

  lemma EarlyWritesNothing(s: State, t: Tid, try: bool)
    requires s.Total() && Early(s.pc[t]) && !s.pc[t].QInitLocked? && !s.pc[t].QInitNext?
    ensures Next(s, t, try).next == s.next && Next(s, t, try).woken == s.woken
  {
    if Arriving(s.pc[t]) { ArrivingWritesNothing(s, t, try); }
      else if Unlinked(s.pc[t]) { UnlinkedWritesNothing(s, t); }
  }

  lemma ArrivingWritesNothing(s: State, t: Tid, try: bool)
    requires s.Total() && Arriving(s.pc[t])
    ensures NextArriving(s, t, try).next == s.next && NextArriving(s, t, try).woken == s.woken
  {
  }

  lemma UnlinkedWritesNothing(s: State, t: Tid)
    requires s.Total() && Unlinked(s.pc[t])
    ensures NextUnlinked(s, t).next == s.next && NextUnlinked(s, t).woken == s.woken
  {
  }

  /** A step takes and gives back only its own node. */
  ghost predicate StackMoved(s: State, t: Tid, s': State)
    requires s.Total() && s'.Total()
  {
    && (forall c: nat :: c != t.cpu ==> s'.held[c] == s.held[c])
    && var stack, stack' := s.held[t.cpu], s'.held[t.cpu];
       if s.pc[t].QEnter? then stack' == stack + [t]
       else if s.pc[t].QRelease? then stack != [] && stack[|stack| - 1] == t && stack' == stack[..|stack| - 1]
       else stack' == stack
  }

  lemma StackAfter(s: State, t: Tid, try: bool, s': State)
    requires s.Total() && Fits(s, t) && s' == Next(s, t, try) && s'.Total()
    ensures StackMoved(s, t, s')
  {
    if !s.pc[t].QEnter? && !s.pc[t].QRelease? { KeepsNode(s, t, try); }
  }

  // ----- a step as another lock sees it -----

  /** Nothing has happened to the node that `u` uses for the lock. */
  ghost predicate Untouched(s: State, s': State, u: Tid)
    requires s.Total() && s'.Total()
  {
    HasNode(s.pc[u]) ==>
      && s'.next[s.nd[u]] == s.next[s.nd[u]] && s'.woken[s.nd[u]] == s.woken[s.nd[u]]
      && (NodeOk(s, u) ==> s.nd[u].idx < |s'.held[u.cpu]| && s'.held[u.cpu][s.nd[u].idx] == u)
  }

  lemma UntouchedThread(s: State, s': State, u: Tid)
    requires s.Total() && s'.Total() && s' == With(s, s') && ThreadOk(s, u) && Untouched(s, s', u)
    ensures ThreadOk(s', u)
  {
  }

  lemma UntouchedLink(s: State, s': State, i: int)
    requires Inv(s) && s'.Total() && s' == With(s, s') && forall u :: Untouched(s, s', u)
    ensures LinkOk(s', i)
  {
    assert LinkOk(s, i);
    if 1 <= i < |s.queue| {
      assert ThreadOk(s, s.queue[i]) && ThreadOk(s, s.queue[i - 1]);
      assert Untouched(s, s', s.queue[i]) && Untouched(s, s', s.queue[i - 1]);
    }
  }

  lemma OtherLockKeepsInv(s: State, s': State)
    requires Inv(s) && s'.Total() && s' == With(s, s') && (forall u :: Untouched(s, s', u))
             && forall c: nat, i :: SlotOk(s', c, i)
    ensures Inv(s')
  {
    forall u ensures ThreadOk(s', u) { assert ThreadOk(s, u) && Untouched(s, s', u); UntouchedThread(s, s', u); }
    forall i ensures LinkOk(s', i) { UntouchedLink(s, s', i); }
    if s.queue != [] {
      var h, last := s.queue[0], s.queue[|s.queue| - 1];
      assert ThreadOk(s, h) && ThreadOk(s, last);
      assert Untouched(s, s', h) && Untouched(s, s', last);
    }
  }

  /** The nodes of lock `k` are untouched by a step at lock `l`. */
  lemma NothingWritten(m: Locks, l: nat, t: Tid, try: bool, k: nat, u: Tid, a': State)
    requires InvAll(m) && k != l && HasNode(m[k].pc[u]) && a' == Next(m[l], t, try) && a'.Total()
    ensures a'.next[m[k].nd[u]] == m[k].next[m[k].nd[u]] && a'.woken[m[k].nd[u]] == m[k].woken[m[k].nd[u]]
  {
    var a, n := m[l], m[k].nd[u];
    assert Shares(m[k], m[0]) && Shares(a, m[0]);
    if a'.next[n] != a.next[n] || a'.woken[n] != a.woken[n] {
      WritesOwn(a, t, try, a', n);
      var x :| HasNode(a.pc[x]) && a.nd[x] == n;
      NodesDiffer(m, k, l, u, x);
    }
  }

  lemma NothingReleased(m: Locks, l: nat, t: Tid, try: bool, k: nat, u: Tid, a': State)
    requires InvAll(m) && k != l && HasNode(m[k].pc[u]) && a' == Next(m[l], t, try) && a'.Total() && Fits(m[l], t)
    ensures m[k].nd[u].idx < |a'.held[u.cpu]| && a'.held[u.cpu][m[k].nd[u].idx] == u
  {
    assert Shares(m[k], m[0]) && Shares(m[l], m[0]) && ThreadOk(m[k], u) && OneNode(m, u) && Inv(m[l]);
    StackAfter(m[l], t, try, a');
    StillHeld(m[l], t, a', u, m[k].nd[u].idx);
  }

  lemma StillHeld(a: State, t: Tid, a': State, u: Tid, i: nat)
    requires a.Total() && a'.Total() && i < |a.held[u.cpu]| && a.held[u.cpu][i] == u && !HasNode(a.pc[u])
             && StackMoved(a, t, a')
    ensures i < |a'.held[u.cpu]| && a'.held[u.cpu][i] == u
  {
  }

  lemma StepsAside(m: Locks, l: nat, t: Tid, try: bool, k: nat, u: Tid, a': State)
    requires InvAll(m) && k != l && a' == Next(m[l], t, try) && a'.Total() && Fits(m[l], t)
    ensures Untouched(m[k], With(m[k], a'), u)
  {
    if HasNode(m[k].pc[u]) {
      NothingWritten(m, l, t, try, k, u, a');
      NothingReleased(m, l, t, try, k, u, a');
    }
  }

  lemma LocksKeepInv(m: Locks, l: nat, t: Tid, try: bool, k: nat)
    requires InvAll(m) && Fits(m[l], t)
    ensures Inv(NextAt(m, l, t, try)[k])
  {
    var a' := Next(m[l], t, try);
    NextKeepsInv(m[l], t, try);
    if k != l {
      var s' := With(m[k], a');
      forall u ensures Untouched(m[k], s', u) { StepsAside(m, l, t, try, k, u, a'); }
      forall c: nat, i ensures SlotOk(s', c, i) { assert SlotOk(a', c, i); }
      OtherLockKeepsInv(m[k], s');
    }
  }

  // ----- who has which node -----

  /** A step moves one context at one lock; what becomes of its node. */
  ghost predicate NodeMoved(s: State, t: Tid, s': State)
    requires s.Total() && s'.Total()
  {
    if s.pc[t].QEnter? then HasNode(s'.pc[t]) && s'.nd[t] == Node(t.cpu, |s.held[t.cpu]|)
    else s'.nd[t] == s.nd[t] && (HasNode(s.pc[t]) && !s.pc[t].QRelease? ==> HasNode(s'.pc[t]))
  }

  ghost predicate Same(s: State, s': State, u: Tid)
    requires s.Total() && s'.Total()
  {
    s'.pc[u] == s.pc[u] && s'.nd[u] == s.nd[u]
  }

  ghost predicate Moved(m: Locks, l: nat, t: Tid, m': Locks)
    requires Joined(m) && Joined(m')
  {
    && StackMoved(m[l], t, m'[l]) && NodeMoved(m[l], t, m'[l])
    && forall k: nat, u :: k != l || u != t ==> Same(m[k], m'[k], u)
  }

  lemma NodeAfter(s: State, t: Tid, try: bool, s': State)
    requires s.Total() && s' == Next(s, t, try) && s'.Total()
    ensures NodeMoved(s, t, s')
  {
    if !s.pc[t].QEnter? && !s.pc[t].QRelease? { KeepsNode(s, t, try); }
  }

  lemma SameAfter(s: State, t: Tid, try: bool, s': State, u: Tid)
    requires s.Total() && u != t && s' == Next(s, t, try) && s'.Total()
    ensures Same(s, s', u)
  {
    OthersStay(s, t, try, u);
    if !s.pc[t].QEnter? && !s.pc[t].QRelease? { KeepsNode(s, t, try); }
  }

  lemma NextMoves(m: Locks, l: nat, t: Tid, try: bool, m': Locks)
    requires Joined(m) && Fits(m[l], t) && m' == NextAt(m, l, t, try) && Joined(m')
    ensures Moved(m, l, t, m')
  {
    StackAfter(m[l], t, try, m'[l]);
    NodeAfter(m[l], t, try, m'[l]);
    forall k: nat, u | k != l || u != t ensures Same(m[k], m'[k], u) {
      if k == l { SameAfter(m[l], t, try, m'[l], u); }
    }
  }

  lemma OneNodeKept(m: Locks, l: nat, t: Tid, u: Tid, m': Locks)
    requires Joined(m) && OneNode(m, u) && EnabledAt(m, l, t) && Joined(m') && Moved(m, l, t, m')
    ensures OneNode(m', u)
  {
    forall j: nat, k: nat | HasNode(m'[j].pc[u]) && HasNode(m'[k].pc[u]) ensures j == k {
      HadNode(m, l, t, u, m', j);
      HadNode(m, l, t, u, m', k);
    }
  }

  lemma HadNode(m: Locks, l: nat, t: Tid, u: Tid, m': Locks, k: nat)
    requires Joined(m) && EnabledAt(m, l, t) && Joined(m') && Moved(m, l, t, m') && HasNode(m'[k].pc[u])
    ensures if u == t then k == l else HasNode(m[k].pc[u])
  {
    if k != l { NoNodeElsewhere(m, l, t, k); }
    NodeBefore(m, l, t, u, m', k);
  }

  lemma NodeBefore(m: Locks, l: nat, t: Tid, u: Tid, m': Locks, k: nat)
    requires Joined(m) && Joined(m') && Moved(m, l, t, m') && HasNode(m'[k].pc[u])
    ensures k != l || u != t ==> HasNode(m[k].pc[u])
  {
    if k != l || u != t { assert Same(m[k], m'[k], u); }
  }

  /** The stacks of nodes after a step. */
  lemma InUseKept(m: Locks, l: nat, t: Tid, c: nat, i: int, m': Locks)
    requires Joined(m) && Joined(m') && Moved(m, l, t, m') && InUse(m, c, i)
    requires forall c': nat, j :: SlotOk(m[l], c', j)
    ensures InUse(m', c, i)
  {
    assert Shares(m[l], m[0]) && Shares(m'[l], m'[0]);
    if 0 <= i < |m'[l].held[c]| {
      var k := Taken(m, l, t, c, i, m'[l].held[c][i], m');
    }
  }

  lemma Taken(m: Locks, l: nat, t: Tid, c: nat, i: nat, x: Tid, m': Locks) returns (k: nat)
    requires Joined(m) && Joined(m') && Moved(m, l, t, m') && InUse(m, c, i) && m[l].held == m[0].held
    requires (forall c': nat, j :: SlotOk(m[l], c', j)) && i < |m'[l].held[c]| && x == m'[l].held[c][i]
    ensures HasNode(m'[k].pc[x]) && m'[k].nd[x] == Node(c, i)
  {
    if i == |m[l].held[c]| {
      k := l;
    } else {
      k :| HasNode(m[k].pc[x]) && m[k].nd[x] == Node(c, i);
      StaysTaken(m, l, t, c, i, x, m', k);
    }
  }

  lemma StaysTaken(m: Locks, l: nat, t: Tid, c: nat, i: nat, x: Tid, m': Locks, k: nat)
    requires Joined(m) && Joined(m') && Moved(m, l, t, m') && (forall c': nat, j :: SlotOk(m[l], c', j))
    requires i < |m[l].held[c]| && i < |m'[l].held[c]| && x == m[l].held[c][i] && HasNode(m[k].pc[x])
    ensures HasNode(m'[k].pc[x]) && m'[k].nd[x] == m[k].nd[x]
  {
    if k != l || x != t { assert Same(m[k], m'[k], x); } else { StaysOnStack(m[l], m'[l], t, c, i); }
  }

  lemma StaysOnStack(s: State, s': State, t: Tid, c: nat, i: nat)
    requires s.Total() && s'.Total() && StackMoved(s, t, s') && i < |s.held[c]| && i < |s'.held[c]| && s.held[c][i] == t
    requires forall c': nat, j :: SlotOk(s, c', j)
    ensures !s.pc[t].QRelease?
  {
    assert SlotOk(s, c, i);
    if s.pc[t].QRelease? { NotTwice(s, c, i, |s.held[c]| - 1); }
  }

  /** A context is on its cpu's stack only once. */
  lemma {:induction false} NotTwice(s: State, c: nat, i: nat, j: nat)
    requires s.Total() && i < j < |s.held[c]| && forall i' :: SlotOk(s, c, i')
    ensures s.held[c][i].level < s.held[c][j].level
  {
    assert SlotOk(s, c, j);
    if i < j - 1 { NotTwice(s, c, i, j - 1); }
  }

  lemma WithIsTotal(s: State, s': State)
    requires s.Total() && s'.Total()
    ensures With(s, s').Total() && Shares(With(s, s'), s')
  {
  }

  ghost predicate SharesAt(m: Locks, k: nat, a: State) { k in m && m[k].Total() && Shares(m[k], a) }

  lemma NextIsJoined(m: Locks, l: nat, t: Tid, try: bool, a': State, m': Locks)
    requires Joined(m) && a' == Next(m[l], t, try) && a'.Total() && m' == NextAt(m, l, t, try)
    ensures Joined(m')
  {
    forall k: nat ensures SharesAt(m', k, a') { WithIsTotal(m[k], a'); }
    AllShare(m', a');
  }

  lemma AllShare(m: Locks, a: State)
    requires forall k: nat :: SharesAt(m, k, a)
    ensures Joined(m)
  {
    assert SharesAt(m, 0, a);
    forall k: nat ensures k in m { assert SharesAt(m, k, a); }
    forall k: nat ensures m[k].Total() { assert SharesAt(m, k, a); }
    forall k: nat ensures Shares(m[k], m[0]) { assert SharesAt(m, k, a); }
  }

  lemma NextKeepsAll(m: Locks, l: nat, t: Tid, try: bool)
    requires InvAll(m) && EnabledAt(m, l, t)
    ensures InvAll(NextAt(m, l, t, try))
  {
    StepsFit(m, l, t);
    forall k: nat ensures Inv(NextAt(m, l, t, try)[k]) { LocksKeepInv(m, l, t, try, k); }
    NextKeepsInv(m[l], t, try);
    NextIsJoined(m, l, t, try, Next(m[l], t, try), NextAt(m, l, t, try));
    NodesKept(m, l, t, try, NextAt(m, l, t, try));
  }

  lemma NodesKept(m: Locks, l: nat, t: Tid, try: bool, m': Locks)
    requires InvAll(m) && EnabledAt(m, l, t) && Fits(m[l], t) && m' == NextAt(m, l, t, try) && Joined(m')
    ensures (forall u :: OneNode(m', u)) && forall c: nat, i :: InUse(m', c, i)
  {
    NextMoves(m, l, t, try, m');
    AllKept(m, l, t, m');
  }

  lemma AllKept(m: Locks, l: nat, t: Tid, m': Locks)
    requires InvAll(m) && EnabledAt(m, l, t) && Joined(m') && Moved(m, l, t, m')
    ensures (forall u :: OneNode(m', u)) && forall c: nat, i :: InUse(m', c, i)
  {
    forall u ensures OneNode(m', u) { OneNodeKept(m, l, t, u, m'); }
    assert Inv(m[l]);
    forall c: nat, i ensures InUse(m', c, i) { InUseKept(m, l, t, c, i, m'); }
  }

  // ----- whole runs -----

  datatype Move = Move(lock: nat, t: Tid, try: bool)

  ghost predicate Follows(m: Locks, v: Move, m': Locks)
  {
    Joined(m) && EnabledAt(m, v.lock, v.t) && m' == NextAt(m, v.lock, v.t, v.try)
  }

  /** Any contexts take steps at any locks, in any order. */
  ghost predicate IsRun(states: seq<Locks>, moves: seq<Move>)
  {
    && |states| == |moves| + 1 && InitialAll(states[0])
    && forall k: nat :: 0 <= k < |moves| ==> StepOk(states, moves, k)
  }

  ghost predicate StepOk(states: seq<Locks>, moves: seq<Move>, k: nat)
    requires k < |moves| < |states|
  {
    Follows(states[k], moves[k], states[k + 1])
  }

  lemma {:induction false} RunsKeepAll(states: seq<Locks>, moves: seq<Move>, k: nat, m: Locks)
    requires IsRun(states, moves) && k < |states| && m == states[k]
    ensures InvAll(m)
  {
    if k == 0 {
      InitialInvAll(m);
    } else {
      RunsKeepAll(states, moves, k - 1, states[k - 1]);
      NextOfRun(states, moves, k - 1, m);
    }
  }

  lemma NextOfRun(states: seq<Locks>, moves: seq<Move>, k: nat, m': Locks)
    requires IsRun(states, moves) && k < |moves| && InvAll(states[k]) && m' == states[k + 1]
    ensures InvAll(m')
  {
    assert StepOk(states, moves, k);
    StepOfRun(states[k], moves[k], m');
  }

  lemma StepOfRun(m: Locks, v: Move, m': Locks)
    requires InvAll(m) && Follows(m, v, m')
    ensures InvAll(m')
  {
    NextKeepsAll(m, v.lock, v.t, v.try);
  }

  lemma RunsAreJoined(states: seq<Locks>, moves: seq<Move>, k: nat)
    requires IsRun(states, moves) && k < |states|
    ensures Joined(states[k])
  {
    RunsKeepAll(states, moves, k, states[k]);
  }

  lemma RunsKeepInv(states: seq<Locks>, moves: seq<Move>, k: nat, l: nat)
    requires IsRun(states, moves) && k < |states|
    ensures Joined(states[k]) && Inv(states[k][l])
  {
    RunsKeepAll(states, moves, k, states[k]);
  }

  /** For every lock: at most one context holds it, and its locked byte is set exactly while one does; at most one has
      put up its pending byte, and the byte is set exactly while one has. */
  lemma MutualExclusion(states: seq<Locks>, moves: seq<Move>, k: nat, l: nat)
    requires IsRun(states, moves) && k < |states|
    ensures Joined(states[k])
    ensures forall t, u :: Holds(states[k][l].pc[t]) && Holds(states[k][l].pc[u]) ==> t == u
    ensures states[k][l].word.locked <==> exists t :: Holds(states[k][l].pc[t])
    ensures forall t, u :: Pends(states[k][l].pc[t]) && Pends(states[k][l].pc[u]) ==> t == u
    ensures states[k][l].word.pending <==> exists t :: Pends(states[k][l].pc[t])
  {
    RunsKeepInv(states, moves, k, l);
    Exclusive(states[k][l]);
  }

  /** For every lock: the contexts that took it from the queue did so in the order in which their tail exchanges landed;
      those still to come wait in the queue, in that order, and nobody else does. */
  lemma HandOffIsFifo(states: seq<Locks>, moves: seq<Move>, k: nat, l: nat)
    requires IsRun(states, moves) && k < |states|
    ensures Joined(states[k]) && states[k][l].taken <= states[k][l].landed
    ensures var s := states[k][l]; forall t :: t in s.landed[|s.taken|..] <==> InQueue(s.pc[t]) && !Holds(s.pc[t])
  {
    RunsKeepInv(states, moves, k, l);
    forall t { StillWaiting(states[k][l], t); }
  }

  /** Whoever takes a lock as head of its queue is the first of those that landed and have not had it. */
  lemma FirstInFirstServed(states: seq<Locks>, moves: seq<Move>, k: nat, v: Move, s: State, s': State)
    requires IsRun(states, moves) && k < |moves| && v == moves[k] && Joined(states[k]) && Joined(states[k + 1])
    requires s == states[k][v.lock] && s' == states[k + 1][v.lock]
    requires InQueue(s.pc[v.t]) && !Holds(s.pc[v.t]) && Holds(s'.pc[v.t])
    ensures |s.taken| < |s.landed| && s.landed[|s.taken|] == v.t
  {
    RunsKeepInv(states, moves, k, v.lock);
    assert StepOk(states, moves, k);
    TakesFromHead(s, v.t, v.try);
    NextInLine(s, v.t);
  }

  /** When the head's uncontended exchange fails, somebody is linked or linking behind it, or a context has put up the
      pending byte over a queue it has seen, and will take it down and queue. */
  lemma FailedClaimHasCompany(states: seq<Locks>, moves: seq<Move>, k: nat, s: State, t: Tid)
    requires IsRun(states, moves) && k < |moves| && Joined(states[k]) && s == states[k][moves[k].lock]
             && t == moves[k].t
    requires s.pc[t].QClaim? && s.word != s.pc[t].seen
    ensures (exists u :: u != t && InQueue(s.pc[u])) || exists u :: s.pc[u].UndoPending?
  {
    RunsKeepInv(states, moves, k, moves[k].lock);
    ClaimHasCompany(s, t);
  }

  /** A head that holds the lock and waits for its successor's link waits for somebody: the next in the queue is about
      to write the link, or a context is on its way into the queue, which it cannot leave but by landing there. */
  lemma NobodyIsLost(states: seq<Locks>, moves: seq<Move>, k: nat, s: State, l: nat, t: Tid)
    requires IsRun(states, moves) && k < |states| && Joined(states[k]) && s == states[k][l]
    requires s.pc[t] == QWaitNext && s.next[s.nd[t]].None?
    ensures exists u :: s.pc[u] == QLink(s.nd[t]) || Committed(s.pc[u])
  {
    RunsKeepInv(states, moves, k, l);
    WaitsForSomebody(s, t);
  }

  /** The queue code never asks for a fifth node of a cpu, whatever its contexts do at other locks, and the node it gets
      is in use for no lock. */
  lemma NodesSuffice(states: seq<Locks>, moves: seq<Move>, k: nat, v: Move)
    requires IsRun(states, moves) && k < |moves| && v == moves[k] && Joined(states[k])
    requires states[k][v.lock].pc[v.t] == QEnter
    ensures var m, i := states[k], |states[k][v.lock].held[v.t.cpu]|;
            i < 4 && forall l: nat, u :: HasNode(m[l].pc[u]) ==> m[l].nd[u] != Node(v.t.cpu, i)
  {
    RunsKeepAll(states, moves, k, states[k]);
    assert StepOk(states, moves, k);
    StepsFit(states[k], v.lock, v.t);
    NodeLeft(states[k][v.lock], v.t);
    forall l: nat, u | HasNode(states[k][l].pc[u]) ensures states[k][l].nd[u] != Node(v.t.cpu,
      |states[k][v.lock].held[v.t.cpu]|) {
      assert ThreadOk(states[k][l], u);
      assert Shares(states[k][l], states[k][0]) && Shares(states[k][v.lock], states[k][0]);
    }
  }

  /** Two contexts never use the same node, and no context uses one for two locks. */
  lemma NodesAreDisjoint(states: seq<Locks>, moves: seq<Move>, n: nat, k: nat, l: nat, t: Tid, u: Tid)
    requires IsRun(states, moves) && n < |states| && Joined(states[n])
    requires HasNode(states[n][k].pc[t]) && HasNode(states[n][l].pc[u]) && states[n][k].nd[t] == states[n][l].nd[u]
    ensures k == l && t == u
  {
    RunsKeepAll(states, moves, n, states[n]);
    NodesDiffer(states[n], k, l, t, u);
  }
}

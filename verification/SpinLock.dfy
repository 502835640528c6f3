/** The arena queued spinlock: one lock word with a locked byte, a pending byte and the tail of an MCS queue. Every
    access to shared memory is a step of its own; any number of cpus take steps in any order. On one cpu up to four
    contexts (task, softirq, hardirq, NMI) nest: a context runs only while no context above it is inside the lock code
    or holds the lock. */
module SpinLock {
  import opened Options

  /** A context: level 0 is interrupted by level 1, and so on. */
  datatype Tid = Tid(cpu: nat, level: nat)

  datatype Node = Node(cpu: nat, idx: nat)

  datatype Word = Word(locked: bool, pending: bool, tail: Option<Node>)

  const FREE := Word(false, false, None)
  const LOCKED := Word(true, false, None)
  const PENDING := Word(false, true, None)

  /** Where a context is. The data are its local variables. */
  datatype Pc =
    | Idle
    | TryCas                            // arena_spin_trylock, having read zero
    | SpinPending(cnt: nat)             // slow path, waiting for a pending -> locked hand-over
    | ReadForPending                    // fetch_set_pending: the first read
    | CasPending(seen: Word)
    | UndoPending
    | WaitOwner                         // pending, waiting for the owner to go away
    | TakePending                       // clear_pending_set_locked
    | QEnter
    | QInitLocked
    | QInitNext
    | QTry
    | QTryCas
    | QReadTail                         // xchg_tail: the first read
    | QCasTail(seen: Word)
    | QLink(prev: Node)
    | QWait
    | QReadNext
    | QHead(next: Option<Node>)
    | QClaim(seen: Word, next: Option<Node>)
    | QSetLocked(next: Option<Node>)
    | QWaitNext
    | QHand(succ: Node)
    | QRelease
    | Critical

  /** `nd` is the node a context has grabbed. The rest is history: who owns the lock and the pending byte, the queue in
      order, the contexts whose tail exchange landed so far, and those that took the lock from the queue. */
  datatype State = State(
    word: Word,
    next: imap<Node, Option<Node>>,
    woken: imap<Node, bool>,            // the node's own `locked` field
    held: imap<nat, seq<Tid>>,          // who holds node 0, 1, ... of a cpu; its length is the `count` field
    pc: imap<Tid, Pc>,
    nd: imap<Tid, Node>,
    owner: Option<Tid>,
    pender: Option<Tid>,
    queue: seq<Tid>,
    landed: seq<Tid>,
    taken: seq<Tid>)
  {
    ghost predicate Total()
    {
      && (forall n :: n in next) && (forall n :: n in woken) && (forall c: nat :: c in held)
      && (forall t :: t in pc) && (forall t :: t in nd)
    }
  }

  /** Nobody above `t` on its cpu is inside the lock code or holds the lock. */
  ghost predicate Enabled(s: State, t: Tid)
    requires s.Total()
  {
    t.level < 4 && forall l: nat :: t.level < l < 4 ==> s.pc[Tid(t.cpu, l)] == Idle
  }

  /** What the slow path does with a value it has read. */
  function Decide(w: Word): Pc { if w.pending || w.tail.Some? then QEnter else ReadForPending }

  function AfterPending(seen: Word): Pc
  {
    if seen.pending then QEnter
    else if seen.tail.Some? then UndoPending
    else if seen.locked then WaitOwner
    else TakePending
  }

  ghost function Goto(s: State, t: Tid, pc: Pc): State
    requires s.Total()
  {
    s.(pc := s.pc[t := pc])
  }

  // ----- the steps that change shared memory -----

  /** cmpxchg of a free word to locked: the fast path and the trylocks. */
  ghost function Grab(s: State, t: Tid, pc: Pc): State
    requires s.Total()
  {
    Goto(s, t, pc).(word := LOCKED, owner := Some(t))
  }

  ghost function SetPending(s: State, t: Tid): State
    requires s.Total()
  {
    Goto(s, t, AfterPending(s.word)).(word := s.word.(pending := true), pender := Some(t))
  }

  ghost function ClearPending(s: State, t: Tid): State
    requires s.Total()
  {
    Goto(s, t, QEnter).(word := s.word.(pending := false), pender := None)
  }

  ghost function ClearPendingSetLocked(s: State, t: Tid): State
    requires s.Total()
  {
    Goto(s, t, Critical).(word := s.word.(locked := true, pending := false), pender := None, owner := Some(t))
  }

  /** `idx = node0->count++`. */
  ghost function GrabNode(s: State, t: Tid): State
    requires s.Total()
  {
    var stack := s.held[t.cpu];
    Goto(s, t, QInitLocked).(nd := s.nd[t := Node(t.cpu, |stack|)], held := s.held[t.cpu := stack + [t]])
  }

  ghost function InitLocked(s: State, t: Tid): State
    requires s.Total()
  {
    Goto(s, t, QInitNext).(woken := s.woken[s.nd[t] := false])
  }

  ghost function InitNext(s: State, t: Tid): State
    requires s.Total()
  {
    Goto(s, t, QTry).(next := s.next[s.nd[t] := None])
  }

  /** The tail exchange lands. */
  ghost function Land(s: State, t: Tid): State
    requires s.Total()
  {
    Goto(s, t, if s.word.tail.Some? then QLink(s.word.tail.value) else QHead(None))
    .(word := s.word.(tail := Some(s.nd[t])), queue := s.queue + [t], landed := s.landed + [t])
  }

  ghost function Link(s: State, t: Tid, prev: Node): State
    requires s.Total()
  {
    Goto(s, t, QWait).(next := s.next[prev := Some(s.nd[t])])
  }

  /** The head is alone and clears the tail as it takes the lock. */
  ghost function Claim(s: State, t: Tid): State
    requires s.Total()
  {
    Goto(s, t, QRelease).(word := LOCKED, owner := Some(t), queue := Rest(s.queue), taken := s.taken + [t])
  }

  ghost function SetLocked(s: State, t: Tid, next: Option<Node>): State
    requires s.Total()
  {
    Goto(s, t, if next.Some? then QHand(next.value) else QWaitNext)
    .(word := s.word.(locked := true), owner := Some(t), taken := s.taken + [t])
  }

  /** The successor becomes the head of the queue. */
  ghost function HandOver(s: State, t: Tid, succ: Node): State
    requires s.Total()
  {
    Goto(s, t, QRelease).(woken := s.woken[succ := true], queue := Rest(s.queue))
  }

  /** `node0->count--`. */
  ghost function ReleaseNode(s: State, t: Tid): State
    requires s.Total()
  {
    var stack := s.held[t.cpu];
    Goto(s, t, Critical).(held := s.held[t.cpu := if stack == [] then [] else stack[..|stack| - 1]])
  }

  ghost function Unlock(s: State, t: Tid): State
    requires s.Total()
  {
    Goto(s, t, Idle).(word := s.word.(locked := false), owner := None)
  }

  // ----- where a context is -----

  /** On the way in, as long as nobody else can tell. */
  predicate Arriving(p: Pc) { p.Idle? || p.TryCas? || p.SpinPending? || p.ReadForPending? || p.CasPending? }

  /** Owns the pending byte. */
  predicate Pends(p: Pc) { p.UndoPending? || p.WaitOwner? || p.TakePending? }

  predicate Preparing(p: Pc) { p.QEnter? || p.QInitLocked? || p.QInitNext? }

  /** Node initialised, not yet in the queue. */
  predicate Unlinked(p: Pc) { p.QTry? || p.QTryCas? || p.QReadTail? || p.QCasTail? }

  predicate Waiting(p: Pc) { p.QLink? || p.QWait? || p.QReadNext? || p.QHead? }

  /** About to take the lock as head of the queue. */
  predicate Claims(p: Pc) { p.QClaim? || p.QSetLocked? }

  predicate Handing(p: Pc) { p.QWaitNext? || p.QHand? }

  predicate Leaving(p: Pc) { p.QRelease? || p.Critical? }

  // ----- the next step of a context -----

  /** `try` says which operation an idle context starts. */
  predicate Grabs(w: Word, p: Pc, try: bool) { w == FREE && (p.TryCas? || (p.Idle? && !try)) }

  predicate SetsPending(w: Word, p: Pc) { p.CasPending? && p.seen == w && !w.pending }

  /** Where a context goes that has only read the word, or failed to exchange it. */
  function ArrivePc(w: Word, p: Pc, try: bool): Pc
    requires Arriving(p)
  {
    match p
    case Idle =>
      if try then (if w == FREE then TryCas else Idle)
      else if w == PENDING then SpinPending(1)
      else Decide(w)
    case TryCas => Idle
    case SpinPending(cnt) => if w != PENDING || cnt == 0 then Decide(w) else SpinPending(cnt - 1)
    case ReadForPending => CasPending(w)
    case CasPending(seen) => if w != seen then CasPending(w) else QEnter
  }

  ghost function NextArriving(s: State, t: Tid, try: bool): State
    requires s.Total() && Arriving(s.pc[t])
  {
    if Grabs(s.word, s.pc[t], try) then Grab(s, t, Critical)
    else if SetsPending(s.word, s.pc[t]) then SetPending(s, t)
    else Goto(s, t, ArrivePc(s.word, s.pc[t], try))
  }

  ghost function NextPending(s: State, t: Tid): State
    requires s.Total() && Pends(s.pc[t])
  {
    match s.pc[t]
    case UndoPending => ClearPending(s, t)
    case WaitOwner => if s.word.locked then s else Goto(s, t, TakePending)
    case TakePending => ClearPendingSetLocked(s, t)
  }

  ghost function NextPreparing(s: State, t: Tid): State
    requires s.Total() && Preparing(s.pc[t])
  {
    match s.pc[t]
    case QEnter => GrabNode(s, t)
    case QInitLocked => InitLocked(s, t)
    case QInitNext => InitNext(s, t)
  }

  /** Where a context with a node goes that has only read the word, or failed to exchange it. */
  function SearchPc(w: Word, p: Pc): Pc
    requires Unlinked(p)
  {
    if p.QTry? then (if w == FREE then QTryCas else QReadTail)
    else if p.QTryCas? then QReadTail
    else QCasTail(w)
  }

  ghost function NextUnlinked(s: State, t: Tid): State
    requires s.Total() && Unlinked(s.pc[t])
  {
    var p := s.pc[t];
    if p.QTryCas? && s.word == FREE then Grab(s, t, QRelease)
    else if p.QCasTail? && s.word == p.seen then Land(s, t)
    else Goto(s, t, SearchPc(s.word, p))
  }

  /** Where a context in the queue goes, having looked at its node (`woken`, `next`) or at the word. */
  function WaitPc(w: Word, p: Pc, node: Node, woken: bool, next: Option<Node>): Pc
    requires Waiting(p) && !p.QLink?
  {
    match p
    case QWait => if woken then QReadNext else QWait
    case QReadNext => QHead(next)
    case QHead(n) =>
      if w.locked || w.pending then p
      else if w.tail == Some(node) then QClaim(w, n)
      else QSetLocked(n)
  }

  ghost function NextWaiting(s: State, t: Tid): State
    requires s.Total() && Waiting(s.pc[t])
  {
    var p := s.pc[t];
    if p.QLink? then Link(s, t, p.prev)
    else
      var p' := WaitPc(s.word, p, s.nd[t], s.woken[s.nd[t]], s.next[s.nd[t]]);
      if p' == p then s else Goto(s, t, p')
  }

  ghost function NextClaiming(s: State, t: Tid): State
    requires s.Total() && Claims(s.pc[t])
  {
    match s.pc[t]
    case QClaim(seen, next) => if s.word == seen then Claim(s, t) else Goto(s, t, QSetLocked(next))
    case QSetLocked(next) => SetLocked(s, t, next)
  }

  ghost function NextHanding(s: State, t: Tid): State
    requires s.Total() && Handing(s.pc[t])
  {
    match s.pc[t]
    case QWaitNext =>
      var n := s.next[s.nd[t]];
      if n.Some? then Goto(s, t, QHand(n.value)) else s
    case QHand(succ) => HandOver(s, t, succ)
  }

  ghost function NextLeaving(s: State, t: Tid): State
    requires s.Total() && Leaving(s.pc[t])
  {
    match s.pc[t]
    case QRelease => ReleaseNode(s, t)
    case Critical => Unlock(s, t)
  }

  ghost function Next(s: State, t: Tid, try: bool): State
    requires s.Total()
  {
    var p := s.pc[t];
    if Arriving(p) then NextArriving(s, t, try)
    else if Pends(p) then NextPending(s, t)
    else if Preparing(p) then NextPreparing(s, t)
    else if Unlinked(p) then NextUnlinked(s, t)
    else if Waiting(p) then NextWaiting(s, t)
    else if Claims(p) then NextClaiming(s, t)
    else if Handing(p) then NextHanding(s, t)
    else NextLeaving(s, t)
  }

  function Rest(q: seq<Tid>): seq<Tid> { if q == [] then [] else q[1..] }

  // ----- the invariant -----

  /** Holding the lock, from the store that took it on. */
  predicate Holds(p: Pc) { Handing(p) || Leaving(p) }

  predicate HasNode(p: Pc)
  {
    p.QInitLocked? || p.QInitNext? || Unlinked(p) || InQueue(p) || p.QRelease?
  }

  predicate InQueue(p: Pc) { p.QLink? || p.QWait? || AtHead(p) }

  predicate AtHead(p: Pc) { p.QReadNext? || p.QHead? || Claims(p) || Handing(p) }

  /** On the way into the queue, having seen it non-empty or found the lock word in use. */
  predicate Committed(p: Pc)
  {
    p.UndoPending? || p.QEnter? || p.QInitLocked? || p.QInitNext? || p.QTry? || p.QReadTail? || p.QCasTail?
  }

  /** A context in the queue code has its own node, the one its cpu's stack of holders says. */
  ghost predicate NodeOk(s: State, t: Tid)
    requires s.Total()
  {
    && (s.pc[t] != Idle ==> t.level < 4)
    && (HasNode(s.pc[t]) ==>
          s.nd[t].cpu == t.cpu && s.nd[t].idx < |s.held[t.cpu]| && s.held[t.cpu][s.nd[t].idx] == t)
    && (s.pc[t].QInitNext? || Unlinked(s.pc[t]) ==> !s.woken[s.nd[t]])
    && (Unlinked(s.pc[t]) ==> s.next[s.nd[t]] == None)
  }

  /** The nodes of a cpu in use belong to contexts of rising levels, whatever lock they use them for. */
  ghost predicate SlotOk(s: State, c: nat, i: int)
    requires s.Total()
  {
    0 <= i < |s.held[c]| ==>
      && s.held[c][i].cpu == c && i <= s.held[c][i].level < 4
      && (0 < i ==> s.held[c][i - 1].level < s.held[c][i].level)
  }

  /** Who owns the lock and who owns the pending byte. */
  ghost predicate RoleOk(s: State, t: Tid)
    requires s.Total()
  {
    && (Holds(s.pc[t]) <==> s.owner == Some(t))
    && (Pends(s.pc[t]) <==> s.pender == Some(t))
    && (s.pc[t].TakePending? ==> s.owner.None?)
    && (InQueue(s.pc[t]) <==> t in s.queue)
  }

  /** What a context at the head knows. */
  ghost predicate HeadOk(s: State, t: Tid)
    requires s.Total()
  {
    && (s.pc[t].QHead? && s.pc[t].next.Some? ==> s.next[s.nd[t]] == s.pc[t].next)
    && (s.pc[t].QClaim? ==>
          s.pc[t].seen == Word(false, false, Some(s.nd[t])) && (s.pc[t].next.Some? ==> s.next[s.nd[t]] == s.pc[t].next))
    && (s.pc[t].QSetLocked? && s.pc[t].next.Some? ==> s.next[s.nd[t]] == s.pc[t].next)
    && (s.pc[t].QHand? ==> s.next[s.nd[t]] == Some(s.pc[t].succ))
    && (Claims(s.pc[t]) ==> s.owner.None? && (s.pender.Some? ==> s.pc[s.pender.value].UndoPending?))
  }

  ghost predicate WordOk(s: State)
    requires s.Total()
  {
    && (s.word.locked <==> s.owner.Some?)
    && (s.word.pending <==> s.pender.Some?)
    && s.word.tail == (if s.queue == [] then None else Some(s.nd[s.queue[|s.queue| - 1]]))
    && (s.queue != [] ==> s.next[s.nd[s.queue[|s.queue| - 1]]] == None)
    && (s.queue != [] ==> var h := s.queue[0]; AtHead(s.pc[h]) || (s.pc[h] == QWait && s.woken[s.nd[h]]))
  }

  /** The `i`-th in the queue: it waits, linked to its predecessor or about to link itself. */
  ghost predicate LinkOk(s: State, i: int)
    requires s.Total()
  {
    1 <= i < |s.queue| ==>
      && !s.woken[s.nd[s.queue[i]]]
      && (s.pc[s.queue[i]] == QWait || s.pc[s.queue[i]] == QLink(s.nd[s.queue[i - 1]]))
      && s.next[s.nd[s.queue[i - 1]]] == (if s.pc[s.queue[i]] == QWait then Some(s.nd[s.queue[i]]) else None)
  }

  ghost predicate Distinct(q: seq<Tid>) { forall i, j :: 0 <= i < j < |q| ==> q[i] != q[j] }

  /** A head that waits, or will wait, for a successor is not alone for good. */
  ghost predicate SuccessorOk(s: State)
    requires s.Total()
  {
    |s.queue| == 1 && (s.pc[s.queue[0]].QSetLocked? || s.pc[s.queue[0]].QWaitNext?) ==> exists u :: Committed(s.pc[u])
  }

  ghost predicate OrderOk(s: State)
    requires s.Total()
  {
    s.landed == s.taken + (if s.queue != [] && Holds(s.pc[s.queue[0]]) then s.queue[1..] else s.queue)
  }

  ghost predicate ThreadOk(s: State, t: Tid)
    requires s.Total()
  {
    NodeOk(s, t) && RoleOk(s, t) && HeadOk(s, t)
  }

  ghost predicate Inv(s: State)
  {
    && s.Total() && WordOk(s) && Distinct(s.queue) && SuccessorOk(s) && OrderOk(s)
    && (forall t :: ThreadOk(s, t))
    && (forall c: nat, i :: SlotOk(s, c, i))
    && (forall i :: LinkOk(s, i))
  }

  ghost predicate Initial(s: State)
  {
    && s.Total() && s.word == FREE && (forall t :: s.pc[t] == Idle) && (forall c: nat :: s.held[c] == [])
    && s.owner.None? && s.pender.None? && s.queue == [] && s.landed == [] && s.taken == []
  }

  /** No context has done anything yet. */
  ghost function Start(): (s: State)
    ensures Initial(s)
  {
    State(FREE, imap n: Node {:trigger n.cpu} | true :: None, imap n: Node {:trigger n.cpu} | true :: false,
          imap c: nat {:trigger Node(c, 0)} | true :: [], imap t: Tid {:trigger t.cpu} | true :: Idle,
            imap t: Tid {:trigger t.cpu} | true :: Node(0, 0),
          None, None, [], [], [])
  }

  lemma InitialInv(s: State)
    requires Initial(s)
    ensures Whole(s)
  {
  }

  lemma NodesDistinct(s: State, t: Tid, u: Tid)
    requires s.Total() && NodeOk(s, t) && NodeOk(s, u) && HasNode(s.pc[t]) && HasNode(s.pc[u])
    ensures s.nd[t] == s.nd[u] <==> t == u
  {
  }

  // ----- steps that change nothing but the context's own place -----

  /** The two places are the same to everybody else. */
  predicate SameRole(p: Pc, p': Pc)
  {
    Holds(p) == Holds(p') && Pends(p) == Pends(p') && HasNode(p) == HasNode(p') && !InQueue(p) && !InQueue(p')
  }

  // ----- frames: what a step that does not touch a part keeps of it -----

  ghost predicate OnlyMoves(s: State, s': State, t: Tid)
    requires s.Total()
  {
    s'.Total() && forall u :: u != t ==> s'.pc[u] == s.pc[u]
  }

  lemma SlotsKept(s: State, s': State, t: Tid)
    requires Inv(s) && OnlyMoves(s, s', t) && s'.held == s.held
    ensures forall c: nat, i :: SlotOk(s', c, i)
  {
    forall c: nat, i ensures SlotOk(s', c, i) { assert SlotOk(s, c, i); }
  }

  lemma LinksKept(s: State, s': State, t: Tid)
    requires Inv(s) && OnlyMoves(s, s', t) && s'.queue == s.queue && s'.next == s.next && s'.woken == s.woken
    requires !InQueue(s.pc[t]) && forall u :: u != t ==> s'.nd[u] == s.nd[u]
    ensures forall i :: LinkOk(s', i)
    ensures s.queue != [] ==> s.queue[0] != t && s.queue[|s.queue| - 1] != t
  {
    forall i ensures LinkOk(s', i) {
      assert LinkOk(s, i);
      QueueNotSelf(s, t, i);
      QueueNotSelf(s, t, i - 1);
    }
    QueueNotSelf(s, t, 0);
    QueueNotSelf(s, t, |s.queue| - 1);
  }

  lemma QueueOtherNode(s: State, t: Tid, i: int)
    requires Inv(s) && HasNode(s.pc[t]) && !InQueue(s.pc[t])
    ensures 0 <= i < |s.queue| ==> s.queue[i] != t && s.nd[s.queue[i]] != s.nd[t] && InQueue(s.pc[s.queue[i]])
  {
    QueueNotSelf(s, t, i);
    if 0 <= i < |s.queue| {
      assert ThreadOk(s, t) && ThreadOk(s, s.queue[i]);
      NodesDistinct(s, t, s.queue[i]);
    }
  }

  /** The step writes to the context's own node, which is not in the queue yet. */
  lemma LinksKeptAside(s: State, s': State, t: Tid)
    requires Inv(s) && OnlyMoves(s, s', t) && s'.queue == s.queue && s'.nd == s.nd
    requires HasNode(s.pc[t]) && !InQueue(s.pc[t])
    requires forall n :: n != s.nd[t] ==> s'.next[n] == s.next[n] && s'.woken[n] == s.woken[n]
    ensures forall i :: LinkOk(s', i)
    ensures s.queue != [] ==> s.queue[0] != t && s.queue[|s.queue| - 1] != t
    ensures s.queue != [] ==> s.nd[s.queue[0]] != s.nd[t] && s.nd[s.queue[|s.queue| - 1]] != s.nd[t]
  {
    forall i ensures LinkOk(s', i) {
      assert LinkOk(s, i);
      QueueOtherNode(s, t, i);
      QueueOtherNode(s, t, i - 1);
    }
    QueueOtherNode(s, t, 0);
    QueueOtherNode(s, t, |s.queue| - 1);
  }

  /** The step does not touch the queue, the context is not in it, and the two bytes say who owns what. */
  lemma CoreKept(s: State, s': State, t: Tid)
    requires Inv(s) && OnlyMoves(s, s', t) && s'.word.tail == s.word.tail
    requires s'.word.locked == s'.owner.Some? && s'.word.pending == s'.pender.Some?
    requires s'.queue == s.queue && s'.landed == s.landed && s'.taken == s.taken && s'.next == s.next
             && s'.woken == s.woken
    requires !InQueue(s.pc[t]) && forall u :: u != t ==> s'.nd[u] == s.nd[u]
    requires Committed(s.pc[t]) ==> Committed(s'.pc[t]) || s.queue == []
    ensures WordOk(s') && Distinct(s'.queue) && SuccessorOk(s') && OrderOk(s') && forall i :: LinkOk(s', i)
  {
    LinksKept(s, s', t);
    if s.queue != [] { KeepWitness(s, s', t); }
  }

  lemma QuietOthers(s: State, t: Tid, p: Pc, u: Tid)
    requires s.Total() && ThreadOk(s, t) && ThreadOk(s, u) && SameRole(s.pc[t], p) && u != t
             && (s.pc[t].UndoPending? ==> p.UndoPending?)
    ensures ThreadOk(Goto(s, t, p), u)
  {
  }

  lemma QuietStep(s: State, t: Tid, p: Pc)
    requires Inv(s) && SameRole(s.pc[t], p) && ThreadOk(Goto(s, t, p), t)
    requires s.pc[t].UndoPending? ==> p.UndoPending?
    requires Committed(s.pc[t]) ==> Committed(p) || s.queue == []
    ensures Inv(Goto(s, t, p))
  {
    var s' := Goto(s, t, p);
    forall u ensures ThreadOk(s', u) { assert ThreadOk(s, t) && ThreadOk(s, u); if u != t { QuietOthers(s, t, p, u); } }
    SlotsKept(s, s', t);
    CoreKept(s, s', t);
  }

  // ----- taking and leaving the lock -----

  /** Taking a free lock, past the queue: the fast path and the two trylocks. */
  lemma GrabFree(s: State, t: Tid, p: Pc)
    requires Inv(s) && t.level < 4 && s.word == FREE
    requires s.pc[t].Idle? || s.pc[t].TryCas? || s.pc[t].QTryCas?
    requires p == if s.pc[t].QTryCas? then QRelease else Critical
    ensures Inv(Grab(s, t, p))
  {
    var s' := Grab(s, t, p);
    assert ThreadOk(s, t);
    forall u ensures ThreadOk(s', u) { assert ThreadOk(s, u); }
    forall c: nat, i ensures SlotOk(s', c, i) { assert SlotOk(s, c, i); }
    forall i ensures LinkOk(s', i) { assert LinkOk(s, i); }
  }

  lemma TakePendingThread(s: State, t: Tid, u: Tid)
    requires s.Total() && ThreadOk(s, t) && ThreadOk(s, u) && s.pc[t].TakePending?
    ensures ThreadOk(ClearPendingSetLocked(s, t), u)
  {
  }

  lemma TakePendingStep(s: State, t: Tid)
    requires Inv(s) && s.pc[t].TakePending?
    ensures Inv(ClearPendingSetLocked(s, t))
  {
    var s' := ClearPendingSetLocked(s, t);
    forall u ensures ThreadOk(s', u) { assert ThreadOk(s, t) && ThreadOk(s, u); TakePendingThread(s, t, u); }
    SlotsKept(s, s', t);
    CoreKept(s, s', t);
  }

  /** A committed context other than the one that moves stays committed. */
  lemma KeepWitness(s: State, s': State, t: Tid)
    requires s.Total() && s'.Total() && (Committed(s.pc[t]) ==> Committed(s'.pc[t]))
    requires forall u :: u != t ==> s'.pc[u] == s.pc[u]
    ensures (exists u :: Committed(s.pc[u])) ==> exists u :: Committed(s'.pc[u])
  {
    if exists u :: Committed(s.pc[u]) {
      var u :| Committed(s.pc[u]);
      assert Committed(s'.pc[u]);
    }
  }

  lemma UnlockThread(s: State, t: Tid, u: Tid)
    requires s.Total() && ThreadOk(s, t) && ThreadOk(s, u) && s.pc[t].Critical?
    ensures ThreadOk(Unlock(s, t), u)
  {
  }

  lemma UnlockStep(s: State, t: Tid)
    requires Inv(s) && s.pc[t].Critical?
    ensures Inv(Unlock(s, t))
  {
    var s' := Unlock(s, t);
    forall u ensures ThreadOk(s', u) { assert ThreadOk(s, t) && ThreadOk(s, u); UnlockThread(s, t, u); }
    SlotsKept(s, s', t);
    CoreKept(s, s', t);
  }

  // ----- the pending byte -----

  lemma SetPendingHead(s: State, t: Tid, u: Tid)
    requires Inv(s) && s.pc[t].CasPending? && !s.word.pending
    ensures HeadOk(SetPending(s, t), u)
  {
    assert ThreadOk(s, t) && ThreadOk(s, u);
    if Claims(s.pc[u]) { assert s.queue != []; }
  }

  lemma SetPendingThread(s: State, t: Tid, u: Tid)
    requires Inv(s) && s.pc[t].CasPending? && !s.word.pending
    ensures ThreadOk(SetPending(s, t), u)
  {
    assert ThreadOk(s, t) && ThreadOk(s, u);
    SetPendingHead(s, t, u);
  }

  lemma SetPendingStep(s: State, t: Tid)
    requires Inv(s) && s.pc[t].CasPending? && s.word == s.pc[t].seen && !s.word.pending
    ensures Inv(SetPending(s, t))
  {
    var s' := SetPending(s, t);
    forall u ensures ThreadOk(s', u) { SetPendingThread(s, t, u); }
    SlotsKept(s, s', t);
    CoreKept(s, s', t);
  }

  lemma UndoPendingThread(s: State, t: Tid, u: Tid)
    requires s.Total() && ThreadOk(s, t) && ThreadOk(s, u) && s.pc[t].UndoPending?
    ensures ThreadOk(ClearPending(s, t), u)
  {
  }

  lemma UndoPendingStep(s: State, t: Tid)
    requires Inv(s) && s.pc[t].UndoPending?
    ensures Inv(ClearPending(s, t))
  {
    var s' := ClearPending(s, t);
    forall u ensures ThreadOk(s', u) { assert ThreadOk(s, t) && ThreadOk(s, u); UndoPendingThread(s, t, u); }
    SlotsKept(s, s', t);
    CoreKept(s, s', t);
  }

  // ----- grabbing and releasing a node -----

  /** The nodes of the cpu in use are those of contexts below `t`. */
  ghost predicate Room(s: State, t: Tid)
    requires s.Total()
  {
    var stack := s.held[t.cpu]; stack != [] ==> stack[|stack| - 1].level < t.level
  }

  /** The last node taken on the cpu is `t`'s. */
  ghost predicate OnTop(s: State, t: Tid)
    requires s.Total()
  {
    var stack := s.held[t.cpu]; stack != [] && stack[|stack| - 1] == t
  }

  /** What a step needs to know about the nodes of the cpu, which other locks use as well. */
  ghost predicate Fits(s: State, t: Tid)
    requires s.Total()
  {
    t.level < 4 && (s.pc[t].QEnter? ==> Room(s, t)) && (s.pc[t].QRelease? ==> OnTop(s, t))
  }

  /** Contexts below `t` hold at most as many nodes as there are levels below it, so that a node is always left. */
  lemma NodeLeft(s: State, t: Tid)
    requires Inv(s) && t.level < 4 && Room(s, t)
    ensures |s.held[t.cpu]| <= t.level < 4
  {
    var stack := s.held[t.cpu];
    if stack != [] { assert SlotOk(s, t.cpu, |stack| - 1); }
  }

  lemma EnterSlot(s: State, t: Tid, c: nat, i: int)
    requires Inv(s) && Fits(s, t) && s.pc[t].QEnter?
    ensures SlotOk(GrabNode(s, t), c, i)
  {
    NodeLeft(s, t);
    assert SlotOk(s, c, i);
  }

  lemma EnterThread(s: State, t: Tid, u: Tid)
    requires s.Total() && ThreadOk(s, t) && ThreadOk(s, u) && s.pc[t].QEnter?
    ensures ThreadOk(GrabNode(s, t), u)
  {
  }

  lemma EnterStep(s: State, t: Tid)
    requires Inv(s) && Fits(s, t) && s.pc[t].QEnter?
    ensures Inv(GrabNode(s, t))
  {
    var s' := GrabNode(s, t);
    forall u ensures ThreadOk(s', u) { assert ThreadOk(s, t) && ThreadOk(s, u); EnterThread(s, t, u); }
    forall c: nat, i ensures SlotOk(s', c, i) { EnterSlot(s, t, c, i); }
    CoreKept(s, s', t);
  }

  lemma QueueNotSelf(s: State, t: Tid, i: int)
    requires Inv(s) && !InQueue(s.pc[t])
    ensures 0 <= i < |s.queue| ==> s.queue[i] != t && InQueue(s.pc[s.queue[i]])
  {
    assert ThreadOk(s, t);
    if 0 <= i < |s.queue| { assert ThreadOk(s, s.queue[i]); }
  }

  lemma ReleaseSlot(s: State, t: Tid, c: nat, i: int)
    requires Inv(s) && Fits(s, t) && s.pc[t].QRelease?
    ensures SlotOk(ReleaseNode(s, t), c, i)
  {
    assert SlotOk(s, c, i);
  }

  lemma ReleaseKeepsNode(s: State, t: Tid, u: Tid)
    requires Inv(s) && Fits(s, t) && s.pc[t].QRelease?
    ensures NodeOk(ReleaseNode(s, t), u)
  {
    TopOfStack(s, t);
    assert ThreadOk(s, t) && ThreadOk(s, u);
    if HasNode(s.pc[u]) { NodesDistinct(s, t, u); }
  }

  lemma ReleaseThread(s: State, t: Tid, u: Tid)
    requires Inv(s) && Fits(s, t) && s.pc[t].QRelease?
    ensures ThreadOk(ReleaseNode(s, t), u)
  {
    ReleaseKeepsNode(s, t, u);
    assert ThreadOk(s, t) && ThreadOk(s, u);
  }

  lemma ReleaseStep(s: State, t: Tid)
    requires Inv(s) && Fits(s, t) && s.pc[t].QRelease?
    ensures Inv(ReleaseNode(s, t))
  {
    var s' := ReleaseNode(s, t);
    forall u ensures ThreadOk(s', u) { ReleaseThread(s, t, u); }
    forall c: nat, i ensures SlotOk(s', c, i) { ReleaseSlot(s, t, c, i); }
    CoreKept(s, s', t);
  }

  lemma TopOfStack(s: State, t: Tid)
    requires Inv(s) && OnTop(s, t) && HasNode(s.pc[t])
    ensures s.nd[t].idx == |s.held[t.cpu]| - 1
  {
    assert ThreadOk(s, t);
    LevelsGrow(s, t.cpu, s.nd[t].idx, |s.held[t.cpu]| - 1);
  }

  lemma {:induction false} LevelsGrow(s: State, c: nat, i: nat, j: nat)
    requires Inv(s) && i <= j < |s.held[c]|
    ensures s.held[c][i].level + (j - i) <= s.held[c][j].level
    decreases j - i
  {
    if i < j {
      LevelsGrow(s, c, i, j - 1);
      assert SlotOk(s, c, j);
    }
  }

  lemma InitLockedNode(s: State, t: Tid, u: Tid)
    requires s.Total() && s.pc[t].QInitLocked? && NodeOk(s, t) && NodeOk(s, u)
    ensures NodeOk(InitLocked(s, t), u)
  {
    if HasNode(s.pc[u]) { NodesDistinct(s, t, u); }
  }

  lemma InitLockedHead(s: State, t: Tid, u: Tid)
    requires s.Total() && s.pc[t].QInitLocked? && NodeOk(s, t) && ThreadOk(s, u) && s.pender != Some(t)
    ensures HeadOk(InitLocked(s, t), u)
  {
    if HasNode(s.pc[u]) { NodesDistinct(s, t, u); }
  }

  lemma InitLockedThread(s: State, t: Tid, u: Tid)
    requires s.Total() && ThreadOk(s, t) && ThreadOk(s, u) && s.pc[t].QInitLocked?
    ensures ThreadOk(InitLocked(s, t), u)
  {
    InitLockedNode(s, t, u);
    InitLockedHead(s, t, u);
  }

  lemma InitLockedStep(s: State, t: Tid)
    requires Inv(s) && s.pc[t].QInitLocked?
    ensures Inv(InitLocked(s, t))
  {
    var s' := InitLocked(s, t);
    forall u ensures ThreadOk(s', u) { assert ThreadOk(s, t) && ThreadOk(s, u); InitLockedThread(s, t, u); }
    SlotsKept(s, s', t);
    LinksKeptAside(s, s', t);
    KeepWitness(s, s', t);
  }

  lemma InitNextNode(s: State, t: Tid, u: Tid)
    requires s.Total() && s.pc[t].QInitNext? && NodeOk(s, t) && NodeOk(s, u)
    ensures NodeOk(InitNext(s, t), u)
  {
    if HasNode(s.pc[u]) { NodesDistinct(s, t, u); }
  }

  lemma InitNextHead(s: State, t: Tid, u: Tid)
    requires s.Total() && s.pc[t].QInitNext? && NodeOk(s, t) && ThreadOk(s, u) && s.pender != Some(t)
    ensures HeadOk(InitNext(s, t), u)
  {
    if HasNode(s.pc[u]) { NodesDistinct(s, t, u); }
  }

  lemma InitNextThread(s: State, t: Tid, u: Tid)
    requires s.Total() && ThreadOk(s, t) && ThreadOk(s, u) && s.pc[t].QInitNext?
    ensures ThreadOk(InitNext(s, t), u)
  {
    InitNextNode(s, t, u);
    InitNextHead(s, t, u);
  }

  lemma InitNextStep(s: State, t: Tid)
    requires Inv(s) && s.pc[t].QInitNext?
    ensures Inv(InitNext(s, t))
  {
    var s' := InitNext(s, t);
    forall u ensures ThreadOk(s', u) { assert ThreadOk(s, t) && ThreadOk(s, u); InitNextThread(s, t, u); }
    SlotsKept(s, s', t);
    LinksKeptAside(s, s', t);
    KeepWitness(s, s', t);
  }

  // ----- the queue -----

  /** The newcomer is linked, or about to link itself, to the one that was last. */
  lemma LandsLast(s: State, t: Tid)
    requires Inv(s) && s.pc[t].QCasTail?
    ensures LinkOk(Land(s, t), |s.queue|)
  {
    assert ThreadOk(s, t);
    QueueOtherNode(s, t, |s.queue| - 1);
  }

  lemma LandLink(s: State, t: Tid, i: int)
    requires Inv(s) && s.pc[t].QCasTail?
    ensures LinkOk(Land(s, t), i)
  {
    if i < |s.queue| {
      assert LinkOk(s, i);
      QueueNotSelf(s, t, i);
      QueueNotSelf(s, t, i - 1);
    } else {
      LandsLast(s, t);
    }
  }

  lemma LandThread(s: State, t: Tid, u: Tid)
    requires s.Total() && ThreadOk(s, t) && ThreadOk(s, u) && s.pc[t].QCasTail?
    ensures ThreadOk(Land(s, t), u)
  {
  }

  lemma LandWord(s: State, t: Tid)
    requires Inv(s) && s.pc[t].QCasTail?
    ensures var s' := Land(s, t); WordOk(s') && SuccessorOk(s')
  {
    QueueNotSelf(s, t, 0);
    assert ThreadOk(s, t);
  }

  lemma LandOrder(s: State, t: Tid)
    requires Inv(s) && s.pc[t].QCasTail?
    ensures var s' := Land(s, t); Distinct(s'.queue) && OrderOk(s')
  {
    forall i ensures 0 <= i < |s.queue| ==> s.queue[i] != t { QueueNotSelf(s, t, i); }
  }

  lemma LandStep(s: State, t: Tid)
    requires Inv(s) && s.pc[t].QCasTail? && s.word == s.pc[t].seen
    ensures Inv(Land(s, t))
  {
    var s' := Land(s, t);
    forall u ensures ThreadOk(s', u) { assert ThreadOk(s, t) && ThreadOk(s, u); LandThread(s, t, u); }
    forall i ensures LinkOk(s', i) { LandLink(s, t, i); }
    SlotsKept(s, s', t);
    LandWord(s, t);
    LandOrder(s, t);
  }

  /** Where a context is in the queue. */
  lemma Position(s: State, t: Tid) returns (i: nat)
    requires Inv(s) && InQueue(s.pc[t])
    ensures i < |s.queue| && s.queue[i] == t
    ensures AtHead(s.pc[t]) || s.woken[s.nd[t]] ==> i == 0
    ensures s.pc[t].QLink? ==> 0 < i && s.pc[t].prev == s.nd[s.queue[i - 1]] && s.next[s.pc[t].prev] == None
  {
    assert ThreadOk(s, t);
    i :| 0 <= i < |s.queue| && s.queue[i] == t;
    assert LinkOk(s, i);
  }

  /** Two places of the queue have two nodes. */
  lemma QueueNodes(s: State, i: int, j: int)
    requires Inv(s)
    ensures 0 <= i < |s.queue| && 0 <= j < |s.queue| && i != j ==>
            s.queue[i] != s.queue[j] && s.nd[s.queue[i]] != s.nd[s.queue[j]]
  {
    if 0 <= i < |s.queue| && 0 <= j < |s.queue| && i != j {
      assert ThreadOk(s, s.queue[i]) && ThreadOk(s, s.queue[j]);
      NodesDistinct(s, s.queue[i], s.queue[j]);
    }
  }

  lemma LinkLink(s: State, t: Tid, i: int, k: int)
    requires Inv(s) && 0 < k < |s.queue| && s.queue[k] == t && s.pc[t] == QLink(s.nd[s.queue[k - 1]])
    ensures LinkOk(Link(s, t, s.pc[t].prev), i)
  {
    assert LinkOk(s, i) && LinkOk(s, k);
    QueueNodes(s, i, k);
    QueueNodes(s, i - 1, k - 1);
  }

  lemma LinkNode(s: State, t: Tid, u: Tid, k: int)
    requires Inv(s) && 0 < k < |s.queue| && s.queue[k] == t && s.pc[t] == QLink(s.nd[s.queue[k - 1]])
    ensures NodeOk(Link(s, t, s.pc[t].prev), u)
  {
    assert ThreadOk(s, t) && ThreadOk(s, u);
    if HasNode(s.pc[u]) && !InQueue(s.pc[u]) { QueueOtherNode(s, u, k - 1); }
  }

  lemma LinkThread(s: State, t: Tid, u: Tid, k: int)
    requires Inv(s) && 0 < k < |s.queue| && s.queue[k] == t && s.pc[t] == QLink(s.nd[s.queue[k - 1]])
    requires s.next[s.pc[t].prev] == None
    ensures ThreadOk(Link(s, t, s.pc[t].prev), u)
  {
    LinkNode(s, t, u, k);
    assert ThreadOk(s, t) && ThreadOk(s, u);
  }

  lemma LinkStep(s: State, t: Tid)
    requires Inv(s) && s.pc[t].QLink?
    ensures Inv(Link(s, t, s.pc[t].prev))
  {
    var s' := Link(s, t, s.pc[t].prev);
    var k := Position(s, t);
    forall u ensures ThreadOk(s', u) { LinkThread(s, t, u, k); }
    forall i ensures LinkOk(s', i) { LinkLink(s, t, i, k); }
    SlotsKept(s, s', t);
    QueueNodes(s, k, 0);
    QueueNodes(s, k - 1, |s.queue| - 1);
    KeepWitness(s, s', t);
  }

  /** The head of the queue moves on by itself. */
  lemma HeadOthers(s: State, t: Tid, p: Pc, u: Tid)
    requires s.Total() && ThreadOk(s, t) && ThreadOk(s, u) && InQueue(s.pc[t]) && AtHead(p)
             && ThreadOk(Goto(s, t, p), t)
    ensures ThreadOk(Goto(s, t, p), u)
  {
  }

  lemma HeadStep(s: State, t: Tid, p: Pc)
    requires Inv(s) && InQueue(s.pc[t]) && s.queue != [] && s.queue[0] == t && AtHead(p)
    requires ThreadOk(Goto(s, t, p), t)
    requires Holds(p) == Holds(s.pc[t])
    requires p.QSetLocked? && |s.queue| == 1 ==> exists u :: Committed(s.pc[u])
    requires !p.QWaitNext?
    ensures Inv(Goto(s, t, p))
  {
    var s' := Goto(s, t, p);
    forall u ensures ThreadOk(s', u) { assert ThreadOk(s, t) && ThreadOk(s, u); HeadOthers(s, t, p, u); }
    forall i ensures LinkOk(s', i) { assert LinkOk(s, i); QueueNodes(s, 0, i); }
    SlotsKept(s, s', t);
    KeepWitness(s, s', t);
  }

  lemma WokenStep(s: State, t: Tid)
    requires Inv(s) && s.pc[t].QWait? && s.woken[s.nd[t]]
    ensures Inv(Goto(s, t, QReadNext))
  {
    var i := Position(s, t);
    assert ThreadOk(s, t);
    HeadStep(s, t, QReadNext);
  }

  lemma ReadNextStep(s: State, t: Tid)
    requires Inv(s) && s.pc[t].QReadNext?
    ensures Inv(Goto(s, t, QHead(s.next[s.nd[t]])))
  {
    var i := Position(s, t);
    assert ThreadOk(s, t);
    HeadStep(s, t, QHead(s.next[s.nd[t]]));
  }

  lemma SeesFreeStep(s: State, t: Tid)
    requires Inv(s) && s.pc[t].QHead? && !s.word.locked && !s.word.pending
    ensures s.word.tail == Some(s.nd[t]) ==> Inv(Goto(s, t, QClaim(s.word, s.pc[t].next)))
    ensures s.word.tail != Some(s.nd[t]) ==> Inv(Goto(s, t, QSetLocked(s.pc[t].next)))
  {
    var i := Position(s, t);
    assert ThreadOk(s, t);
    HeadStep(s, t, if s.word.tail == Some(s.nd[t]) then QClaim(s.word, s.pc[t].next) else QSetLocked(s.pc[t].next));
  }

  /** Why the uncontended exchange fails: either somebody is queued behind the head, or the pending byte is up, and the
      one who put it there has seen the tail and is on its way into the queue. */
  lemma WhyClaimFails(s: State, t: Tid)
    requires Inv(s) && s.pc[t].QClaim? && s.word != s.pc[t].seen
    ensures |s.queue| >= 2 || (s.pender.Some? && s.pc[s.pender.value].UndoPending?)
    ensures s.queue != [] && s.queue[0] == t
  {
    var i := Position(s, t);
    assert ThreadOk(s, t);
  }

  lemma ClaimFailsStep(s: State, t: Tid)
    requires Inv(s) && s.pc[t].QClaim? && s.word != s.pc[t].seen
    ensures Inv(Goto(s, t, QSetLocked(s.pc[t].next)))
  {
    WhyClaimFails(s, t);
    assert ThreadOk(s, t);
    if |s.queue| == 1 { assert Committed(s.pc[s.pender.value]); }
    HeadStep(s, t, QSetLocked(s.pc[t].next));
  }

  lemma ClaimStep(s: State, t: Tid)
    requires Inv(s) && s.pc[t].QClaim? && s.word == s.pc[t].seen
    ensures Inv(Claim(s, t))
  {
    var s' := Claim(s, t);
    var i := Position(s, t);
    assert ThreadOk(s, t);
    QueueNodes(s, 0, |s.queue| - 1);
    assert s.queue == [t];
    forall u ensures ThreadOk(s', u) { assert ThreadOk(s, u); }
    SlotsKept(s, s', t);
  }

  lemma SetLockedThread(s: State, t: Tid, u: Tid)
    requires Inv(s) && s.pc[t].QSetLocked?
    ensures ThreadOk(SetLocked(s, t, s.pc[t].next), u)
  {
    assert ThreadOk(s, t) && ThreadOk(s, u);
    var i := Position(s, t);
    if AtHead(s.pc[u]) { var j := Position(s, u); }
  }

  lemma SetLockedLinks(s: State, t: Tid)
    requires Inv(s) && s.pc[t].QSetLocked?
    ensures forall i :: LinkOk(SetLocked(s, t, s.pc[t].next), i)
  {
    var k := Position(s, t);
    forall i ensures LinkOk(SetLocked(s, t, s.pc[t].next), i) {
      assert LinkOk(s, i);
      QueueNodes(s, 0, i);
    }
  }

  lemma SetLockedStep(s: State, t: Tid)
    requires Inv(s) && s.pc[t].QSetLocked?
    ensures Inv(SetLocked(s, t, s.pc[t].next))
  {
    var s' := SetLocked(s, t, s.pc[t].next);
    var k := Position(s, t);
    forall u ensures ThreadOk(s', u) { SetLockedThread(s, t, u); }
    SetLockedLinks(s, t);
    SlotsKept(s, s', t);
    KeepWitness(s, s', t);
    assert s.queue == [t] + s.queue[1..];
  }

  lemma GotNextStep(s: State, t: Tid)
    requires Inv(s) && s.pc[t].QWaitNext? && s.next[s.nd[t]].Some?
    ensures Inv(Goto(s, t, QHand(s.next[s.nd[t]].value)))
  {
    var i := Position(s, t);
    assert ThreadOk(s, t);
    HeadStep(s, t, QHand(s.next[s.nd[t]].value));
  }

  /** The node handed to is the next in the queue. */
  lemma Successor(s: State, t: Tid)
    requires Inv(s) && s.pc[t].QHand?
    ensures |s.queue| >= 2 && s.queue[0] == t && s.pc[s.queue[1]] == QWait && s.pc[t].succ == s.nd[s.queue[1]]
  {
    var i := Position(s, t);
    assert ThreadOk(s, t);
    assert LinkOk(s, 1);
  }

  lemma HandNode(s: State, t: Tid, u: Tid)
    requires Inv(s) && s.pc[t].QHand?
    ensures NodeOk(HandOver(s, t, s.pc[t].succ), u)
  {
    Successor(s, t);
    assert ThreadOk(s, t) && ThreadOk(s, u);
    if HasNode(s.pc[u]) && !InQueue(s.pc[u]) { QueueOtherNode(s, u, 1); }
  }

  lemma HandThread(s: State, t: Tid, u: Tid)
    requires Inv(s) && s.pc[t].QHand?
    ensures ThreadOk(HandOver(s, t, s.pc[t].succ), u)
  {
    HandNode(s, t, u);
    Successor(s, t);
    assert ThreadOk(s, t) && ThreadOk(s, u);
    assert s.queue == [t] + s.queue[1..];
  }

  lemma HandLink(s: State, t: Tid, i: int)
    requires Inv(s) && s.pc[t].QHand?
    ensures LinkOk(HandOver(s, t, s.pc[t].succ), i)
  {
    Successor(s, t);
    assert LinkOk(s, i + 1);
    QueueNodes(s, 1, i + 1);
    QueueNodes(s, 0, i + 1);
    QueueNodes(s, 0, i);
  }

  lemma HandOverStep(s: State, t: Tid)
    requires Inv(s) && s.pc[t].QHand?
    ensures Inv(HandOver(s, t, s.pc[t].succ))
  {
    var s' := HandOver(s, t, s.pc[t].succ);
    Successor(s, t);
    forall u ensures ThreadOk(s', u) { HandThread(s, t, u); }
    forall i ensures LinkOk(s', i) { HandLink(s, t, i); }
    SlotsKept(s, s', t);
    QueueNodes(s, 0, 1);
    QueueNodes(s, 0, |s.queue| - 1);
    assert ThreadOk(s, t);
  }

  // ----- every step -----

  /** Nobody else can tell that a context is here. */
  predicate NoRole(p: Pc)
  {
    !Holds(p) && !Pends(p) && !HasNode(p) && !InQueue(p) && !Unlinked(p) && !Claims(p) && !AtHead(p)
  }

  lemma ArrivingRole(p: Pc)
    requires Arriving(p) || p.QEnter?
    ensures NoRole(p) && !p.UndoPending? && (Arriving(p) ==> !Committed(p))
  {
  }

  lemma NoRoleThread(s: State, t: Tid, p: Pc)
    requires s.Total() && t.level < 4 && NoRole(p) && s.owner != Some(t) && s.pender != Some(t) && t !in s.queue
    ensures ThreadOk(Goto(s, t, p), t)
  {
  }

  lemma NoRoleFacts(s: State, t: Tid)
    requires Inv(s) && NoRole(s.pc[t])
    ensures s.owner != Some(t) && s.pender != Some(t) && t !in s.queue
  {
    assert ThreadOk(s, t);
  }

  lemma ArriveStep(s: State, t: Tid, p: Pc)
    requires Inv(s) && t.level < 4 && Arriving(s.pc[t]) && (Arriving(p) || p.QEnter?)
    ensures Inv(Goto(s, t, p))
  {
    ArrivingRole(p);
    ArrivingRole(s.pc[t]);
    NoRoleFacts(s, t);
    NoRoleThread(s, t, p);
    QuietStep(s, t, p);
  }

  lemma SearchStep(s: State, t: Tid, p: Pc)
    requires Inv(s) && t.level < 4 && Unlinked(s.pc[t]) && Unlinked(p) && (p.QTryCas? ==> s.word == FREE)
    ensures Inv(Goto(s, t, p))
  {
    assert ThreadOk(s, t);
    SearchThread(s, t, p);
    QuietStep(s, t, p);
  }

  lemma SearchThread(s: State, t: Tid, p: Pc)
    requires s.Total() && ThreadOk(s, t) && Unlinked(s.pc[t]) && Unlinked(p)
    ensures ThreadOk(Goto(s, t, p), t) && SameRole(s.pc[t], p) && !s.pc[t].UndoPending?
    ensures Committed(s.pc[t]) ==> Committed(p) || p.QTryCas?
  {
  }

  lemma OwnerGoneStep(s: State, t: Tid)
    requires Inv(s) && t.level < 4 && s.pc[t].WaitOwner? && !s.word.locked
    ensures Inv(Goto(s, t, TakePending))
  {
    assert ThreadOk(s, t);
    QuietStep(s, t, TakePending);
  }

  lemma ArrivingKeepsInv(s: State, t: Tid, try: bool)
    requires Inv(s) && Fits(s, t) && Arriving(s.pc[t])
    ensures Inv(NextArriving(s, t, try))
  {
    if Grabs(s.word, s.pc[t], try) { GrabFree(s, t, Critical); }
    else if SetsPending(s.word, s.pc[t]) { SetPendingStep(s, t); }
    else { ArriveStep(s, t, ArrivePc(s.word, s.pc[t], try)); }
  }

  lemma PendingKeepsInv(s: State, t: Tid)
    requires Inv(s) && Fits(s, t) && Pends(s.pc[t])
    ensures Inv(NextPending(s, t))
  {
    match s.pc[t]
    case UndoPending => UndoPendingStep(s, t);
    case WaitOwner => if !s.word.locked { OwnerGoneStep(s, t); }
    case TakePending => TakePendingStep(s, t);
  }

  lemma NodeKeepsInv(s: State, t: Tid)
    requires Inv(s) && Fits(s, t) && Preparing(s.pc[t])
    ensures Inv(NextPreparing(s, t))
  {
    match s.pc[t]
    case QEnter => EnterStep(s, t);
    case QInitLocked => InitLockedStep(s, t);
    case QInitNext => InitNextStep(s, t);
  }

  lemma SearchingKeepsInv(s: State, t: Tid)
    requires Inv(s) && Fits(s, t) && Unlinked(s.pc[t])
    ensures Inv(NextUnlinked(s, t))
  {
    var p := s.pc[t];
    if p.QTryCas? && s.word == FREE { GrabFree(s, t, QRelease); }
    else if p.QCasTail? && s.word == p.seen { LandStep(s, t); }
    else { SearchStep(s, t, SearchPc(s.word, p)); }
  }

  lemma WaitingKeepsInv(s: State, t: Tid)
    requires Inv(s) && Fits(s, t) && Waiting(s.pc[t])
    ensures Inv(NextWaiting(s, t))
  {
    match s.pc[t]
    case QLink(prev) => LinkStep(s, t);
    case QWait => if s.woken[s.nd[t]] { WokenStep(s, t); }
    case QReadNext => ReadNextStep(s, t);
    case QHead(next) => if !s.word.locked && !s.word.pending { SeesFreeStep(s, t); }
  }

  lemma ClaimingKeepsInv(s: State, t: Tid)
    requires Inv(s) && Fits(s, t) && Claims(s.pc[t])
    ensures Inv(NextClaiming(s, t))
  {
    match s.pc[t]
    case QClaim(seen, next) => if s.word == seen { ClaimStep(s, t); } else { ClaimFailsStep(s, t); }
    case QSetLocked(next) => SetLockedStep(s, t);
  }

  lemma HandingKeepsInv(s: State, t: Tid)
    requires Inv(s) && Fits(s, t) && Handing(s.pc[t])
    ensures Inv(NextHanding(s, t))
  {
    match s.pc[t]
    case QWaitNext => if s.next[s.nd[t]].Some? { GotNextStep(s, t); }
    case QHand(succ) => HandOverStep(s, t);
  }

  lemma LeavingKeepsInv(s: State, t: Tid)
    requires Inv(s) && Fits(s, t) && Leaving(s.pc[t])
    ensures Inv(NextLeaving(s, t))
  {
    match s.pc[t]
    case QRelease => ReleaseStep(s, t);
    case Critical => UnlockStep(s, t);
  }

  lemma NextKeepsInv(s: State, t: Tid, try: bool)
    requires Inv(s) && Fits(s, t)
    ensures Inv(Next(s, t, try))
  {
    var p := s.pc[t];
    if Arriving(p) { ArrivingKeepsInv(s, t, try); }
    else if Pends(p) { PendingKeepsInv(s, t); }
    else if Preparing(p) { NodeKeepsInv(s, t); }
    else if Unlinked(p) { SearchingKeepsInv(s, t); }
    else if Waiting(p) { WaitingKeepsInv(s, t); }
    else if Claims(p) { ClaimingKeepsInv(s, t); }
    else if Handing(p) { HandingKeepsInv(s, t); }
    else { LeavingKeepsInv(s, t); }
  }

  // ----- the nodes in use -----

  /** Who is on a cpu's stack of nodes has that node. */
  ghost predicate UsedOk(s: State, c: nat, i: int)
    requires s.Total()
  {
    0 <= i < |s.held[c]| ==> HasNode(s.pc[s.held[c][i]]) && s.nd[s.held[c][i]] == Node(c, i)
  }

  /** With one lock only, every node in use is in use for it. */
  ghost predicate Whole(s: State) { Inv(s) && forall c: nat, i :: UsedOk(s, c, i) }

  lemma KeepsNode(s: State, t: Tid, try: bool)
    requires s.Total() && !s.pc[t].QEnter? && !s.pc[t].QRelease?
    ensures var s' := Next(s, t, try);
            && s'.held == s.held && s'.nd == s.nd && t in s'.pc
            && (HasNode(s.pc[t]) ==> HasNode(s'.pc[t]))
  {
    var p := s.pc[t];
    if Arriving(p) { ArrivingKeepsNode(s, t, try); }
    else if Pends(p) { PendingKeepsNode(s, t); }
    else if Unlinked(p) { UnlinkedKeepsNode(s, t); }
    else if Waiting(p) { WaitingKeepsNode(s, t); }
    else if Claims(p) { ClaimingKeepsNode(s, t); }
    else if Handing(p) { HandingKeepsNode(s, t); }
  }

  lemma ArrivingKeepsNode(s: State, t: Tid, try: bool)
    requires s.Total() && Arriving(s.pc[t])
    ensures var s' := NextArriving(s, t, try); s'.held == s.held && s'.nd == s.nd && t in s'.pc
  {
  }

  lemma PendingKeepsNode(s: State, t: Tid)
    requires s.Total() && Pends(s.pc[t])
    ensures var s' := NextPending(s, t); s'.held == s.held && s'.nd == s.nd && t in s'.pc
  {
  }

  lemma UnlinkedKeepsNode(s: State, t: Tid)
    requires s.Total() && Unlinked(s.pc[t])
    ensures var s' := NextUnlinked(s, t); s'.held == s.held && s'.nd == s.nd && t in s'.pc && HasNode(s'.pc[t])
  {
  }

  lemma WaitingKeepsNode(s: State, t: Tid)
    requires s.Total() && Waiting(s.pc[t])
    ensures var s' := NextWaiting(s, t); s'.held == s.held && s'.nd == s.nd && t in s'.pc && HasNode(s'.pc[t])
  {
  }

  lemma ClaimingKeepsNode(s: State, t: Tid)
    requires s.Total() && Claims(s.pc[t])
    ensures var s' := NextClaiming(s, t); s'.held == s.held && s'.nd == s.nd && t in s'.pc && HasNode(s'.pc[t])
  {
  }

  lemma HandingKeepsNode(s: State, t: Tid)
    requires s.Total() && Handing(s.pc[t])
    ensures var s' := NextHanding(s, t); s'.held == s.held && s'.nd == s.nd && t in s'.pc && HasNode(s'.pc[t])
  {
  }

  /** Contexts above the one that runs are idle, so that the last node taken is its own, or one of a context below it.
      */
  lemma RunsOnTop(s: State, t: Tid)
    requires Whole(s) && Enabled(s, t)
    ensures Fits(s, t)
  {
    var stack := s.held[t.cpu];
    assert ThreadOk(s, t);
    if stack != [] {
      var top := stack[|stack| - 1];
      assert SlotOk(s, t.cpu, |stack| - 1) && UsedOk(s, t.cpu, |stack| - 1);
      assert top == Tid(t.cpu, top.level);
      if HasNode(s.pc[t]) { LevelsGrow(s, t.cpu, s.nd[t].idx, |stack| - 1); }
    }
  }

  lemma GrabKeepsUsed(s: State, t: Tid, c: nat, i: int)
    requires Whole(s) && Fits(s, t) && s.pc[t].QEnter?
    ensures UsedOk(GrabNode(s, t), c, i)
  {
    assert UsedOk(s, c, i);
  }

  lemma ReleaseKeepsUsed(s: State, t: Tid, c: nat, i: int)
    requires Whole(s) && Fits(s, t) && s.pc[t].QRelease?
    ensures UsedOk(ReleaseNode(s, t), c, i)
  {
    assert ThreadOk(s, t) && UsedOk(s, c, i);
    TopOfStack(s, t);
  }

  lemma StepKeepsUsed(s: State, t: Tid, try: bool, s': State, c: nat, i: int)
    requires Whole(s) && Fits(s, t) && s' == Next(s, t, try) && s'.Total()
    ensures UsedOk(s', c, i)
  {
    if s.pc[t].QEnter? { GrabKeepsUsed(s, t, c, i); }
    else if s.pc[t].QRelease? { ReleaseKeepsUsed(s, t, c, i); }
    else {
      KeepsNode(s, t, try);
      assert UsedOk(s, c, i);
      if 0 <= i < |s.held[c]| && s.held[c][i] != t { OthersStay(s, t, try, s.held[c][i]); }
    }
  }

  lemma NextKeepsWhole(s: State, t: Tid, try: bool)
    requires Whole(s) && Enabled(s, t)
    ensures Whole(Next(s, t, try))
  {
    RunsOnTop(s, t);
    NextKeepsInv(s, t, try);
    forall c: nat, i ensures UsedOk(Next(s, t, try), c, i) { StepKeepsUsed(s, t, try, Next(s, t, try), c, i); }
  }

  // ----- whole runs -----

  datatype Move = Move(t: Tid, try: bool)

  /** `states` is a run: every next state is a step of some context that can run. */
  ghost predicate IsRun(states: seq<State>, moves: seq<Move>)
  {
    && |states| == |moves| + 1 && Initial(states[0])
    && forall k :: 0 <= k < |moves| ==> Follows(states[k], moves[k], states[k + 1])
  }

  ghost predicate Follows(s: State, m: Move, s': State) { s.Total() && Enabled(s, m.t) && s' == Next(s, m.t, m.try) }

  lemma {:induction false} RunsKeepInv(states: seq<State>, moves: seq<Move>, k: nat)
    requires IsRun(states, moves) && k < |states|
    ensures Whole(states[k])
  {
    if k == 0 {
      InitialInv(states[0]);
    } else {
      RunsKeepInv(states, moves, k - 1);
      StepOfRun(states[k - 1], moves[k - 1], states[k]);
    }
  }

  lemma StepOfRun(s: State, m: Move, s': State)
    requires Whole(s) && Follows(s, m, s')
    ensures Whole(s')
  {
    NextKeepsWhole(s, m.t, m.try);
  }

  lemma Exclusive(s: State)
    requires Inv(s)
    ensures forall t, u :: Holds(s.pc[t]) && Holds(s.pc[u]) ==> t == u
    ensures s.word.locked <==> exists t :: Holds(s.pc[t])
    ensures forall t, u :: Pends(s.pc[t]) && Pends(s.pc[u]) ==> t == u
    ensures s.word.pending <==> exists t :: Pends(s.pc[t])
  {
    forall t ensures Holds(s.pc[t]) <==> s.owner == Some(t) { assert ThreadOk(s, t); }
    forall t ensures Pends(s.pc[t]) <==> s.pender == Some(t) { assert ThreadOk(s, t); }
    if s.owner.Some? { assert Holds(s.pc[s.owner.value]); }
    if s.pender.Some? { assert Pends(s.pc[s.pender.value]); }
  }

  lemma StillWaiting(s: State, t: Tid)
    requires Inv(s)
    ensures s.taken <= s.landed && (t in s.landed[|s.taken|..] <==> InQueue(s.pc[t]) && !Holds(s.pc[t]))
  {
    var rest := if s.queue != [] && Holds(s.pc[s.queue[0]]) then s.queue[1..] else s.queue;
    assert s.landed[|s.taken|..] == rest;
    InRest(s, t, rest);
  }

  lemma InRest(s: State, t: Tid, rest: seq<Tid>)
    requires Inv(s) && rest == if s.queue != [] && Holds(s.pc[s.queue[0]]) then s.queue[1..] else s.queue
    ensures t in rest <==> InQueue(s.pc[t]) && !Holds(s.pc[t])
  {
    assert ThreadOk(s, t);
    if s.queue != [] {
      assert ThreadOk(s, s.queue[0]);
      assert s.queue == [s.queue[0]] + s.queue[1..];
    }
    if InQueue(s.pc[t]) { var i := Position(s, t); }
  }

  lemma TakesFromHead(s: State, t: Tid, try: bool)
    requires s.Total() && InQueue(s.pc[t]) && !Holds(s.pc[t]) && Holds(Next(s, t, try).pc[t])
    ensures AtHead(s.pc[t])
  {
  }

  lemma NextInLine(s: State, t: Tid)
    requires Inv(s) && AtHead(s.pc[t]) && !Holds(s.pc[t])
    ensures |s.taken| < |s.landed| && s.landed[|s.taken|] == t
  {
    var i := Position(s, t);
  }

  lemma ClaimHasCompany(s: State, t: Tid)
    requires Inv(s) && s.pc[t].QClaim? && s.word != s.pc[t].seen
    ensures (exists u :: u != t && InQueue(s.pc[u])) || exists u :: s.pc[u].UndoPending?
  {
    WhyClaimFails(s, t);
    if |s.queue| >= 2 {
      QueueNodes(s, 0, 1);
      assert ThreadOk(s, s.queue[1]);
      assert s.queue[1] != t && InQueue(s.pc[s.queue[1]]);
    } else {
      assert s.pc[s.pender.value].UndoPending?;
    }
  }

  lemma WaitsForSomebody(s: State, t: Tid)
    requires Inv(s) && s.pc[t] == QWaitNext && s.next[s.nd[t]].None?
    ensures exists u :: s.pc[u] == QLink(s.nd[t]) || Committed(s.pc[u])
  {
    var i := Position(s, t);
    if |s.queue| >= 2 {
      assert LinkOk(s, 1);
      assert s.pc[s.queue[1]] == QLink(s.nd[t]);
    }
  }

  lemma ArrivingAlone(s: State, t: Tid, try: bool, u: Tid)
    requires s.Total() && u != t && Arriving(s.pc[t])
    ensures u in NextArriving(s, t, try).pc && NextArriving(s, t, try).pc[u] == s.pc[u]
  {
  }

  lemma PendingAlone(s: State, t: Tid, u: Tid)
    requires s.Total() && u != t && Pends(s.pc[t])
    ensures u in NextPending(s, t).pc && NextPending(s, t).pc[u] == s.pc[u]
  {
  }

  lemma PreparingAlone(s: State, t: Tid, u: Tid)
    requires s.Total() && u != t && Preparing(s.pc[t])
    ensures u in NextPreparing(s, t).pc && NextPreparing(s, t).pc[u] == s.pc[u]
  {
  }

  lemma UnlinkedAlone(s: State, t: Tid, u: Tid)
    requires s.Total() && u != t && Unlinked(s.pc[t])
    ensures u in NextUnlinked(s, t).pc && NextUnlinked(s, t).pc[u] == s.pc[u]
  {
  }

  lemma WaitingAlone(s: State, t: Tid, u: Tid)
    requires s.Total() && u != t && Waiting(s.pc[t])
    ensures u in NextWaiting(s, t).pc && NextWaiting(s, t).pc[u] == s.pc[u]
  {
  }

  lemma ClaimingAlone(s: State, t: Tid, u: Tid)
    requires s.Total() && u != t && Claims(s.pc[t])
    ensures u in NextClaiming(s, t).pc && NextClaiming(s, t).pc[u] == s.pc[u]
  {
  }

  lemma HandingAlone(s: State, t: Tid, u: Tid)
    requires s.Total() && u != t && Handing(s.pc[t])
    ensures u in NextHanding(s, t).pc && NextHanding(s, t).pc[u] == s.pc[u]
  {
  }

  lemma LeavingAlone(s: State, t: Tid, u: Tid)
    requires s.Total() && u != t && Leaving(s.pc[t])
    ensures u in NextLeaving(s, t).pc && NextLeaving(s, t).pc[u] == s.pc[u]
  {
  }

  /** A step moves one context. */
  lemma OthersStay(s: State, t: Tid, try: bool, u: Tid)
    requires s.Total() && u != t
    ensures u in Next(s, t, try).pc && Next(s, t, try).pc[u] == s.pc[u]
  {
    var p := s.pc[t];
    if Arriving(p) { ArrivingAlone(s, t, try, u); }
    else if Pends(p) { PendingAlone(s, t, u); }
    else if Preparing(p) { PreparingAlone(s, t, u); }
    else if Unlinked(p) { UnlinkedAlone(s, t, u); }
    else if Waiting(p) { WaitingAlone(s, t, u); }
    else if Claims(p) { ClaimingAlone(s, t, u); }
    else if Handing(p) { HandingAlone(s, t, u); }
    else { LeavingAlone(s, t, u); }
  }

  lemma CommittedUnlinked(s: State, u: Tid)
    requires s.Total() && s.word != FREE && Unlinked(s.pc[u]) && !s.pc[u].QTryCas?
    ensures u in NextUnlinked(s, u).pc
    ensures Committed(NextUnlinked(s, u).pc[u]) || NextUnlinked(s, u).queue == s.queue + [u]
  {
  }

  lemma CommittedPrepares(s: State, u: Tid)
    requires s.Total() && Preparing(s.pc[u])
    ensures u in NextPreparing(s, u).pc && Committed(NextPreparing(s, u).pc[u])
  {
  }

  lemma CommittedUndoes(s: State, u: Tid)
    requires s.Total() && s.pc[u].UndoPending?
    ensures u in NextPending(s, u).pc && Committed(NextPending(s, u).pc[u])
  {
  }

  lemma CommittedMoves(s: State, u: Tid, try: bool)
    requires s.Total() && s.word != FREE && Committed(s.pc[u])
    ensures u in Next(s, u, try).pc
    ensures Committed(Next(s, u, try).pc[u]) || Next(s, u, try).queue == s.queue + [u]
  {
    if Unlinked(s.pc[u]) { CommittedUnlinked(s, u); }
    else if Preparing(s.pc[u]) { CommittedPrepares(s, u); }
    else { CommittedUndoes(s, u); }
  }

  /** A committed context stays committed, whoever moves, until it is the last of the queue. */
  lemma CommitmentHolds(s: State, u: Tid, t: Tid, try: bool)
    requires Inv(s) && s.queue != [] && Committed(s.pc[u])
    ensures u in Next(s, t, try).pc
    ensures Committed(Next(s, t, try).pc[u]) || (t == u && Next(s, t, try).queue == s.queue + [u])
  {
    if t == u { CommittedMoves(s, u, try); } else { OthersStay(s, t, try, u); }
  }

  /** A context that can only go round its wait loop. */
  ghost predicate Blocked(s: State, t: Tid)
    requires s.Total()
  {
    match s.pc[t]
    case WaitOwner => s.word.locked
    case QWait => !s.woken[s.nd[t]]
    case QHead(_) => s.word.locked || s.word.pending
    case QWaitNext => s.next[s.nd[t]].None?
    case _ => false
  }

  /** The wait loops are the only places where a context can fail to move. */
  lemma OnlyLoopsBlock(s: State, t: Tid)
    requires s.Total() && s.pc[t] != Idle
    ensures Next(s, t, false) == s <==> Blocked(s, t)
  {
    if Early(s.pc[t]) { EarlyMoves(s, t); } else { LateMoves(s, t); }
  }

  /** On the way to the queue. */
  predicate Early(p: Pc) { Arriving(p) || Pends(p) || Preparing(p) || Unlinked(p) }

  lemma ArrivingMoves(s: State, t: Tid)
    requires s.Total() && s.pc[t] != Idle && Arriving(s.pc[t])
    ensures t in NextArriving(s, t, false).pc && NextArriving(s, t, false).pc[t] != s.pc[t]
  {
  }

  lemma EarlyMoves(s: State, t: Tid)
    requires s.Total() && s.pc[t] != Idle && Early(s.pc[t])
    ensures if Blocked(s, t) then Next(s, t, false) == s
            else t in Next(s, t, false).pc && Next(s, t, false).pc[t] != s.pc[t]
  {
    if Arriving(s.pc[t]) { ArrivingMoves(s, t); }
  }

  lemma LateMoves(s: State, t: Tid)
    requires s.Total() && !Early(s.pc[t])
    ensures if Blocked(s, t) then Next(s, t, false) == s
            else t in Next(s, t, false).pc && Next(s, t, false).pc[t] != s.pc[t]
  {
  }
}

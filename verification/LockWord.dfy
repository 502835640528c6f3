/** The 32-bit lock word: bits 0-7 locked, 8-15 pending, 16-17 the tail's node index, 18-31 the tail's cpu plus one.
    A mask is written as a remainder, a shift as a quotient or a product, an `or` of disjoint fields as a sum. */
module LockWord {
  import opened Options
  import opened SpinLock
  import S = SpinLocks

  const U32 := 0x1_0000_0000
  const LOCKED_VAL := 1
  const PENDING_VAL := 0x100
  const TAIL_IDX := 0x1_0000
  const TAIL_CPU := 0x4_0000
  const MAX_CPUS := 16384

  /** The shift is on 32 bits: what it pushes out at the top is gone. */
  function EncodeTail(n: Node): int { (n.cpu + 1) * TAIL_CPU % U32 + n.idx * TAIL_IDX }

  /** The subtraction is on 32 bits too. */
  function DecodeTail(tail: nat): Node { Node((tail / TAIL_CPU - 1) % U32, tail % TAIL_CPU / TAIL_IDX) }

  predicate Encodable(n: Node) { n.cpu < MAX_CPUS - 1 && n.idx < 4 }

  /** The lock accepts configurations of up to MAX_CPUS cpus, and the code of the very last of them does not come back.
      */
  lemma TailRoundTrip(n: Node)
    requires n.cpu < MAX_CPUS && n.idx < 4
    ensures DecodeTail(EncodeTail(n)) == n <==> n.cpu < MAX_CPUS - 1
    ensures n.cpu < MAX_CPUS - 1 ==> TAIL_CPU <= EncodeTail(n) < U32 && EncodeTail(n) % TAIL_IDX == 0
  {
    if n.cpu < MAX_CPUS - 1 {
      TopFits(n.cpu + 1);
      Fields(n.cpu + 1, n.idx);
    }
  }

  lemma TopFits(c: nat)
    requires c < MAX_CPUS
    ensures c * TAIL_CPU % U32 == c * TAIL_CPU
  {
  }

  lemma Fields(c: nat, i: nat)
    requires i < 4
    ensures (c * TAIL_CPU + i * TAIL_IDX) / TAIL_CPU == c && (c * TAIL_CPU + i * TAIL_IDX) % TAIL_CPU == i * TAIL_IDX
    ensures (c * TAIL_CPU + i * TAIL_IDX) % TAIL_IDX == 0
  {
  }

  /** The last cpu's code for its first node is even the code of an empty queue. */
  lemma LastCpuCanVanish()
    ensures EncodeTail(Node(MAX_CPUS - 1, 0)) == 0
  {
  }

  predicate Packable(w: Word) { w.tail.Some? ==> Encodable(w.tail.value) }

  function TailCode(w: Word): int { if w.tail.Some? then EncodeTail(w.tail.value) else 0 }

  function Low(w: Word): int { (if w.locked then LOCKED_VAL else 0) + (if w.pending then PENDING_VAL else 0) }

  function Pack(w: Word): int { Low(w) + TailCode(w) }

  lemma Split(low: nat, tail: nat)
    requires low < TAIL_IDX && tail % TAIL_IDX == 0
    ensures (low + tail) % TAIL_IDX == low && (low + tail) - (low + tail) % TAIL_IDX == tail
    ensures (low + tail) % 0x100 == low % 0x100
  {
    var k := tail / TAIL_IDX;
    assert tail == TAIL_IDX * k;
    Remainder(low, k, TAIL_IDX);
    Remainder(low % 0x100, low / 0x100 + 0x100 * k, 0x100);
  }

  lemma Remainder(r: nat, k: nat, m: nat)
    requires r < m
    ensures (r + m * k) % m == r
  {
    Quotient(r + m * k, k, m);
  }

  lemma Quotient(x: nat, k: nat, m: nat)
    requires 0 < m && 0 <= x - m * k < m
    ensures x / m == k
  {
    if x / m < k {
      Times(m, x / m + 1, k);
    } else if k < x / m {
      Times(m, k + 1, x / m);
    }
  }

  lemma Times(m: nat, a: nat, b: nat)
    requires a <= b
    ensures m * a <= m * b
  {
  }

  /** The fields read back: what the code tests on the raw word is what the model tests on the record. */
  lemma PackedFields(w: Word)
    requires Packable(w)
    ensures 0 <= Pack(w) < U32
    ensures w.locked <==> Pack(w) % 0x100 != 0
    ensures w.pending <==> Pack(w) % TAIL_IDX / 0x100 != 0
    ensures Pack(w) - Pack(w) % TAIL_IDX == TailCode(w)
    ensures w.tail.Some? <==> TailCode(w) != 0
    ensures w.tail.Some? ==> DecodeTail(TailCode(w)) == w.tail.value
  {
    if w.tail.Some? { TailRoundTrip(w.tail.value); }
    Split(Low(w), TailCode(w));
  }

  /** Two words with the same bits are the same word, so that a compare-exchange on the bits is one on the record. */
  lemma PackIsInjective(w: Word, w': Word)
    requires Packable(w) && Packable(w')
    ensures Pack(w) == Pack(w') <==> w == w'
  {
    PackedFields(w);
    PackedFields(w');
  }

  /** Replacing the tail under the locked and pending bytes, as the tail exchange does. */
  lemma PackedExchange(w: Word, n: Node)
    requires Packable(w) && Encodable(n)
    ensures Pack(w) % TAIL_IDX + EncodeTail(n) == Pack(w.(tail := Some(n)))
  {
    PackedFields(w);
    if w.tail.Some? { TailRoundTrip(w.tail.value); }
    Split(Low(w), TailCode(w));
  }

  /** In a run on fewer than MAX_CPUS cpus the word of every lock always packs. */
  lemma RunsPack(states: seq<S.Locks>, moves: seq<S.Move>, k: nat, l: nat)
    requires S.IsRun(states, moves) && k < |states|
    requires forall j :: 0 <= j < |moves| ==> moves[j].t.cpu < MAX_CPUS - 1
    ensures S.Joined(states[k]) && Packable(states[k][l].word)
  {
    S.RunsKeepInv(states, moves, k, l);
    var s := states[k][l];
    if s.queue != [] {
      var u := s.queue[|s.queue| - 1];
      assert ThreadOk(s, u);
      assert SlotOk(s, u.cpu, s.nd[u].idx);
      OnlyMoversMove(states, moves, k, l, u);
    }
  }

  lemma {:induction false} OnlyMoversMove(states: seq<S.Locks>, moves: seq<S.Move>, k: nat, l: nat, u: Tid)
    requires S.IsRun(states, moves) && k < |states|
    ensures S.Joined(states[k]) && (states[k][l].pc[u] == Idle || exists j :: 0 <= j < k && moves[j].t == u)
    decreases k
  {
    S.RunsAreJoined(states, moves, k);
    if k == 0 {
      IdleAtFirst(states[0], l, u);
    } else {
      OnlyMoversMove(states, moves, k - 1, l, u);
      assert S.StepOk(states, moves, k - 1);
      OtherStays(states[k - 1], moves[k - 1], states[k], l, u);
    }
  }

  lemma IdleAtFirst(m: S.Locks, l: nat, u: Tid)
    requires S.InitialAll(m)
    ensures m[l].pc[u] == Idle
  {
    assert Initial(m[l]);
  }

  lemma OtherStays(m: S.Locks, v: S.Move, m': S.Locks, l: nat, u: Tid)
    requires S.Follows(m, v, m') && S.Joined(m')
    ensures u != v.t ==> m'[l].pc[u] == m[l].pc[u]
  {
    if l == v.lock && u != v.t { OthersStay(m[l], v.t, v.try, u); }
  }
}

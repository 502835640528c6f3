/** The word-level statements of the cmask code, on 64-bit words. Each is proved to compute the operation on sets of
    positions that the proofs about masks go on with. */
module Words64 {
  import Bits
  import opened CmaskWords

  type U64 = Bits.U64

  const ALL: U64 := 0xFFFF_FFFF_FFFF_FFFF

  /** The ones of a word. */
  function Ones(w: U64): Word { Bits.Ones(w) }

  /** The ones of every word of an array. */
  function Abs(bits: seq<U64>): (words: seq<Word>)
    ensures |words| == |bits| && forall k :: 0 <= k < |bits| ==> words[k] == Ones(bits[k])
  {
    seq(|bits|, k requires 0 <= k < |bits| => Ones(bits[k]))
  }

  predicate Is(w: U64, s: Word) { Ones(w) == s }

  /** Combining `d` and `s` as word `w` of the window [lo, hi) makes `d'`. */
  predicate Makes(op: Op, d: U64, s: U64, w: nat, lo: nat, hi: nat, d': Word)
    requires lo < hi
  {
    d' == OpResult(op, Ones(d), Ones(s), w, lo, hi)
  }

  lemma OnesFit(w: U64)
    ensures Ones(w) <= FULL
  {
  }

  /** The mask for word `w` of the cids [lo, hi), as the word loops build it. */
  method RangeMask(w: nat, lo: nat, hi: nat) returns (m: U64)
    requires lo < hi
    ensures Ones(m) == LoopMask(w, lo, hi)
  {
    m := ALL;
    Bits.OnesAll();
    if w == lo / 64 {
      var head := Bits.Genmask(63, lo % 64);
      m := AndU64(m, head);
    }
    if w == (hi - 1) / 64 {
      var tail := Bits.Genmask((hi - 1) % 64, 0);
      m := AndU64(m, tail);
    }
  }

  method AndU64(a: U64, b: U64) returns (r: U64)
    ensures Ones(r) == Ones(a) * Ones(b)
  {
    Bits.OnesAnd(a, b);
    r := a & b;
  }

  method OrU64(a: U64, b: U64) returns (r: U64)
    ensures Ones(r) == Ones(a) + Ones(b)
  {
    Bits.OnesOr(a, b);
    r := a | b;
  }

  method AndNotU64(a: U64, b: U64) returns (r: U64)
    ensures Ones(r) == Ones(a) - Ones(b)
  {
    Bits.OnesAndNot(a, b);
    r := a & !b;
  }

  /** BIT_U64. */
  method Single(i: nat) returns (r: U64)
    requires i < 64
    ensures Ones(r) == {i}
  {
    Bits.OnesSingle(i);
    r := 1 << Bits.Pos(i);
  }

  /** `(1 << n) - 1`. */
  method Below(n: nat) returns (r: U64)
    requires 0 < n < 64
    ensures Ones(r) == Genmask(n - 1, 0)
  {
    Bits.OnesBelow(n);
    r := (1 << Bits.Pos(n)) - 1;
  }

  /** `cmask_op_word`: the operation's bits under the mask, the destination's elsewhere. */
  method OpWordU64(op: Op, dv: U64, sv: U64, mask: U64) returns (r: U64)
    ensures Ones(r) == OpWord(op, Ones(dv), Ones(sv), Ones(mask))
  {
    var rv: U64;
    match op {
      case And => rv := AndU64(dv, sv);
      case Or => rv := OrU64(dv, sv);
      case AndNot => rv := AndNotU64(dv, sv);
      case Copy => rv := sv;
    }
    Bits.OnesMerge(dv, rv, mask);
    r := (dv & !mask) | (rv & mask);
  }

  /** `ctzll` of a word that is not zero, through the table. */
  method Ctzll(v: U64) returns (i: nat)
    requires v != 0
    ensures Ones(v) != {} && i == Lowest(Ones(v))
  {
    Bits.OnesZero(v);
    Bits.CtzIsLowest(v);
    i := Bits.Ctz(v);
  }

  method HasBit(v: U64, i: nat) returns (r: bool)
    requires i < 64
    ensures r <==> i in Ones(v)
  {
    r := (v >> Bits.Pos(i)) & 1 == 1;
  }

  lemma CountUpTo(ones: Word, i: nat)
    ensures |ones * Bits.Span(0, i)| == |ones * Bits.Span(0, i - 1)| + (if i in ones then 1 else 0)
  {
    var before, after := ones * Bits.Span(0, i - 1), ones * Bits.Span(0, i);
    assert after == if i in ones then before + {i} else before;
  }

  /** The number of ones, which `__builtin_popcountll` stands for. */
  method Popcount(v: U64) returns (n: nat)
    ensures n == |Ones(v)|
  {
    n := 0;
    ghost var ones := Ones(v);
    assert ones * Bits.Span(0, -1) == {};
    for i := 0 to 64
      invariant n == |ones * Bits.Span(0, i - 1)|
    {
      CountUpTo(ones, i);
      var one := HasBit(v, i);
      if one { n := n + 1; }
    }
    OnesFit(v);
    assert ones * FULL == ones;
  }

  /** One word of a range to set ... */
  method OrRange(u: U64, w: nat, lo: nat, hi: nat) returns (v: U64)
    requires lo < hi && lo / 64 <= w <= (hi - 1) / 64
    ensures Is(v, Ones(u) + RangeWord(w, lo, hi))
  {
    var mask := RangeMask(w, lo, hi);
    LoopMaskIsRange(w, lo, hi);
    v := OrU64(u, mask);
  }

  /** ... or to clear. */
  method AndNotRange(u: U64, w: nat, lo: nat, hi: nat) returns (v: U64)
    requires lo < hi && lo / 64 <= w <= (hi - 1) / 64
    ensures Is(v, Ones(u) - RangeWord(w, lo, hi))
  {
    var mask := RangeMask(w, lo, hi);
    LoopMaskIsRange(w, lo, hi);
    v := AndNotU64(u, mask);
  }

  /** One word of two masks to combine. */
  method CombineWord(op: Op, d: U64, s: U64, w: nat, lo: nat, hi: nat, ghost d': Word) returns (v: U64)
    requires lo < hi && lo / 64 <= w <= (hi - 1) / 64 && Makes(op, d, s, w, lo, hi, d')
    ensures Is(v, d')
  {
    var mask := RangeMask(w, lo, hi);
    v := OpWordU64(op, d, s, mask);
  }

  lemma AbsUpdate(raw: seq<U64>, k: nat, v: U64, s: Word)
    requires k < |raw| && Is(v, s)
    ensures Abs(raw[k := v]) == Abs(raw)[k := s]
  {
  }

  // ----- how far a word loop has come -----

  /** Words below `upto` and above `last` are as they should be in the end, words from `upto` on as they were. */
  ghost predicate Progress(cur: seq<U64>, raw: seq<U64>, target: seq<Word>, upto: int, last: int)
  {
    && |cur| == |raw| == |target|
    && (forall k :: 0 <= k < |cur| && (k < upto || k > last) ==> Is(cur[k], target[k]))
    && (forall k :: 0 <= k < |cur| && k >= upto ==> cur[k] == raw[k])
  }

  lemma ProgressStep(cur: seq<U64>, raw: seq<U64>, target: seq<Word>, upto: nat, last: nat, v: U64)
    requires Progress(cur, raw, target, upto, last) && upto <= last < |cur| && Is(v, target[upto])
    ensures Progress(cur[upto := v], raw, target, upto + 1, last)
  {
  }

  lemma ProgressDone(cur: seq<U64>, raw: seq<U64>, target: seq<Word>, last: nat)
    requires Progress(cur, raw, target, last + 1, last)
    ensures Abs(cur) == target
  {
    forall k | 0 <= k < |cur| ensures Abs(cur)[k] == target[k] { assert Is(cur[k], target[k]); }
  }

  /** Before a loop over the words of [lo, hi) starts, the words outside are as they should be. */
  lemma RangeTargets(raw: seq<U64>, wb: nat, lo: nat, hi: nat)
    requires lo < hi
    ensures Progress(raw, raw, PlusRange(Abs(raw), wb, lo, hi), lo / 64 - wb, (hi - 1) / 64 - wb)
    ensures Progress(raw, raw, MinusRange(Abs(raw), wb, lo, hi), lo / 64 - wb, (hi - 1) / 64 - wb)
  {
    RangeOutside(Abs(raw), wb, lo, hi);
  }

  predicate MakesAt(op: Op, raw: seq<U64>, db: nat, sraw: seq<U64>, sb: nat, lo: nat, hi: nat, target: seq<Word>,
                    w: nat)
    requires lo < hi && |target| == |raw|
  {
    db <= w < db + |raw| && sb <= w < sb + |sraw| ==> Makes(op, raw[w - db], sraw[w - sb], w, lo, hi, target[w - db])
  }

  lemma OpTargets(op: Op, raw: seq<U64>, db: nat, sraw: seq<U64>, sb: nat, lo: nat, hi: nat, target: seq<Word>)
    requires lo < hi && target == OpWords(op, Abs(raw), db, Abs(sraw), sb, lo, hi)
    ensures Progress(raw, raw, target, lo / 64 - db, (hi - 1) / 64 - db)
    ensures forall w :: MakesAt(op, raw, db, sraw, sb, lo, hi, target, w)
  {
    forall w: nat ensures MakesAt(op, raw, db, sraw, sb, lo, hi, target, w) {
      if db <= w < db + |raw| && sb <= w < sb + |sraw| {
        assert target[w - db] == OpResult(op, Abs(raw)[w - db], WordAt(Abs(sraw), w - sb), w, lo, hi);
      }
    }
    forall k | 0 <= k < |raw| && !(lo / 64 <= db + k <= (hi - 1) / 64) ensures Is(raw[k], target[k]) {
    }
  }
}

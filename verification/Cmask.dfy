/** A cmask and its operations on 64-bit words, as the code performs them; every contract speaks of the set of cids. */
module CmaskImpl {
  import opened CmaskWords
  import opened Words64
  import Bits

  class Cmask {
    var base: nat
    var nr: nat
    var bits: array<U64>

    /** The storage is large enough for the range. */
    ghost predicate Shaped()
      reads this
    {
      base + nr <= U32_MAX && StorageWords(nr) <= bits.Length <= MAX_WORDS && NrWords(base, nr) <= bits.Length
    }

    /** The sets that the words stand for. */
    ghost function Words(): (words: seq<Word>)
      reads this, bits
      ensures |words| == bits.Length && forall k :: 0 <= k < bits.Length ==> words[k] == Ones(bits[k])
    {
      Abs(bits[..])
    }

    /** ... and the bits outside of the range are zero. */
    ghost predicate Valid()
      reads this, bits
    {
      Shaped() && Padded(base, nr, Words())
    }

    ghost function Set(): set<nat>
      requires Shaped()
      reads this, bits
    {
      Members(base, nr, Words())
    }

    /** `__cmask_init`, for a range that the storage can hold. */
    constructor (base: nat, nr: nat, allocCids: nat)
      requires nr <= allocCids && base + nr <= U32_MAX && StorageWords(allocCids) <= MAX_WORDS
      ensures Valid() && fresh(bits) && Set() == {} && this.base == base && this.nr == nr
      ensures bits.Length == StorageWords(allocCids)
    {
      this.base, this.nr := base, nr;
      bits := new U64[StorageWords(allocCids)](k => 0);
      new;
      RangeFitsStorage(base, nr);
      forall k | 0 <= k < bits.Length ensures Ones(bits[k]) == {} { Bits.OnesZero(bits[k]); }
    }

    /** `cmask_reframe`: refused when the storage is too small. Members of the new range are left to the caller, except
        that the first and the last word are cleared, which is what keeps the padding clear. */
    method Reframe(newBase: nat, newNr: nat) returns (ok: bool)
      requires Shaped() && newBase + newNr <= U32_MAX
      modifies this, bits
      ensures bits == old(bits) && ok == (StorageWords(newNr) <= bits.Length)
      ensures ok ==> Valid() && base == newBase && nr == newNr
      ensures !ok ==> base == old(base) && nr == old(nr) && bits[..] == old(bits[..])
    {
      ok := StorageWords(newNr) <= bits.Length;
      if !ok { return; }
      if newNr != 0 {
        var last := (newBase % 64 + newNr - 1) / 64;
        bits[0] := 0;
        bits[last] := 0;
      }
      base, nr := newBase, newNr;
      RangeFitsStorage(base, nr);
      Bits.OnesZero(0);
      forall k | 0 < k < NrWords(base, nr) - 1 ensures Ones(bits[k]) <= RangeWord(base / 64 + k, base, base + nr) {
        InnerWord(base, nr, k);
        OnesFit(bits[k]);
      }
    }

    // ----- one cid -----

    method Test(cid: nat) returns (r: bool)
      requires Shaped()
      ensures r == (cid in Set())
    {
      if !(base <= cid < base + nr) { return false; }
      MemberWord(base, nr, Words(), cid);
      r := HasBit(bits[cid / 64 - base / 64], cid % 64);
    }

    /** `__cmask_test_and_set`: a cid out of range is ignored, and reported as clear. */
    method TestAndSet(cid: nat) returns (r: bool)
      requires Valid()
      modifies bits
      ensures Valid() && r == (cid in old(Set()))
      ensures Set() == old(Set()) + (if base <= cid < base + nr then {cid} else {})
    {
      if !(base <= cid < base + nr) { return false; }
      r := Test(cid);
      SetBit(cid);
    }

    method SetBit(cid: nat)
      requires Valid() && base <= cid < base + nr
      modifies bits
      ensures Valid() && Set() == old(Set()) + {cid}
    {
      ghost var raw := bits[..];
      SetOneMember(base, nr, Abs(raw), cid);
      var wi := cid / 64 - base / 64;
      var bit := Single(cid % 64);
      var v := OrU64(bits[wi], bit);
      AbsUpdate(raw, wi, v, Ones(raw[wi]) + {cid % 64});
      bits[wi] := v;
      assert bits[..] == raw[wi := v];
    }

    method TestAndClear(cid: nat) returns (r: bool)
      requires Valid()
      modifies bits
      ensures Valid() && r == (cid in old(Set())) && Set() == old(Set()) - {cid}
    {
      if !(base <= cid < base + nr) { return false; }
      r := Test(cid);
      ClearBit(cid);
    }

    method ClearBit(cid: nat)
      requires Valid() && base <= cid < base + nr
      modifies bits
      ensures Valid() && Set() == old(Set()) - {cid}
    {
      ghost var raw := bits[..];
      ClearOneMember(base, nr, Abs(raw), cid);
      var wi := cid / 64 - base / 64;
      var bit := Single(cid % 64);
      var v := AndNotU64(bits[wi], bit);
      AbsUpdate(raw, wi, v, Ones(raw[wi]) - {cid % 64});
      bits[wi] := v;
      assert bits[..] == raw[wi := v];
    }

    // ----- ranges -----

    /** The range [start, start + n), cut to the active one. */
    function Clamp(start: nat, n: nat): (nat, nat)
      reads this
    {
      (if start < base then base else start, if start + n > base + nr then base + nr else start + n)
    }

    lemma ClampIs(start: nat, n: nat)
      ensures Range(Clamp(start, n).0, Clamp(start, n).1) == Range(start, start + n) * Range(base, base + nr)
    {
    }

    /** Sets the bits of [lo, hi), word by word. */
    method OrWords(lo: nat, hi: nat)
      requires Shaped() && base <= lo < hi <= base + nr
      modifies bits
      ensures Words() == PlusRange(old(Words()), base / 64, lo, hi)
    {
      var wb := base / 64;
      var first, last := lo / 64 - wb, (hi - 1) / 64 - wb;
      ghost var raw := bits[..];
      ghost var target := PlusRange(Abs(raw), wb, lo, hi);
      RangeTargets(raw, wb, lo, hi);
      for i := 0 to MAX_WORDS
        invariant first + i <= last + 1 && Progress(bits[..], raw, target, first + i, last)
      {
        var wi := first + i;
        if wi > last { break; }
        var v := OrRange(bits[wi], wb + wi, lo, hi);
        ProgressStep(bits[..], raw, target, wi, last, v);
        bits[wi] := v;
      }
      ProgressDone(bits[..], raw, target, last);
    }

    method SetRange(start: nat, n: nat)
      requires Valid()
      modifies bits
      ensures Valid() && Set() == old(Set()) + Range(start, start + n) * Range(base, base + nr)
    {
      var (lo, hi) := Clamp(start, n);
      ClampIs(start, n);
      if lo >= hi { return; }
      ghost var words := Words();
      OrWords(lo, hi);
      SetRangeMembers(base, nr, words, Words(), lo, hi);
    }

    /** Clears the bits of [lo, hi), word by word. */
    method AndNotWords(lo: nat, hi: nat)
      requires Shaped() && base <= lo < hi <= base + nr
      modifies bits
      ensures Words() == MinusRange(old(Words()), base / 64, lo, hi)
    {
      var wb := base / 64;
      var first, last := lo / 64 - wb, (hi - 1) / 64 - wb;
      ghost var raw := bits[..];
      ghost var target := MinusRange(Abs(raw), wb, lo, hi);
      RangeTargets(raw, wb, lo, hi);
      for i := 0 to MAX_WORDS
        invariant first + i <= last + 1 && Progress(bits[..], raw, target, first + i, last)
      {
        var wi := first + i;
        if wi > last { break; }
        var v := AndNotRange(bits[wi], wb + wi, lo, hi);
        ProgressStep(bits[..], raw, target, wi, last, v);
        bits[wi] := v;
      }
      ProgressDone(bits[..], raw, target, last);
    }

    method ClearRange(start: nat, n: nat)
      requires Valid()
      modifies bits
      ensures Valid() && Set() == old(Set()) - Range(start, start + n)
    {
      var (lo, hi) := Clamp(start, n);
      ClampIs(start, n);
      if lo >= hi { return; }
      ghost var words := Words();
      AndNotWords(lo, hi);
      ClearRangeMembers(base, nr, words, Words(), lo, hi);
    }

    method Zero()
      requires Shaped()
      modifies bits
      ensures Valid() && Set() == {}
    {
      var n := StorageWords(nr);
      for i := 0 to MAX_WORDS
        invariant forall k :: 0 <= k < bits.Length && k < i && k < n ==> bits[k] == 0
      {
        if i >= n { break; }
        bits[i] := 0;
      }
      RangeFitsStorage(base, nr);
      Bits.OnesZero(0);
      forall c: nat | c in Set() ensures false { MemberWord(base, nr, Words(), c); }
    }

    method Fill()
      requires Shaped()
      modifies bits
      ensures Valid() && Set() == Range(base, base + nr)
    {
      if nr == 0 { return; }
      FillWords();
      forall k | 0 <= k < NrWords(base, nr) ensures Words()[k] == RangeWord(base / 64 + k, base, base + nr) {
        FilledWord(base, nr, k);
      }
      FilledMembers(base, nr, Words());
    }

    method FillWords()
      requires Shaped() && nr > 0
      modifies bits
      ensures forall k :: 0 <= k < NrWords(base, nr) ==> Ones(bits[k]) == CutWord(base, nr, k)
    {
      var n := (base + nr - 1) / 64 - base / 64 + 1;
      for i := 0 to MAX_WORDS
        invariant forall k :: 0 <= k < bits.Length && k < i && k < n ==> bits[k] == ALL
      {
        if i >= n { break; }
        bits[i] := ALL;
      }
      Bits.OnesAll();
      CutHead();
      CutTail(n);
    }

    /** Clears the bits of the first word below the base. */
    method CutHead()
      requires bits.Length > 0
      modifies bits
      ensures Ones(bits[0]) == if base % 64 != 0 then Ones(old(bits[0])) - Genmask(base % 64 - 1, 0)
              else Ones(old(bits[0]))
      ensures forall k :: 0 < k < bits.Length ==> bits[k] == old(bits[k])
    {
      var head := base % 64;
      if head != 0 {
        var below := Below(head);
        bits[0] := AndNotU64(bits[0], below);
      }
    }

    /** Clears the bits of the last word at or past the end. */
    method CutTail(n: nat)
      requires 0 < n <= bits.Length
      modifies bits
      ensures Ones(bits[n - 1]) == if (base + nr) % 64 != 0 then Ones(old(bits[n - 1])) * Genmask((base + nr) % 64 - 1,
              0)
                                   else Ones(old(bits[n - 1]))
      ensures forall k :: 0 <= k < bits.Length && k != n - 1 ==> bits[k] == old(bits[k])
    {
      var tail := (base + nr) % 64;
      if tail != 0 {
        var below := Below(tail);
        bits[n - 1] := AndU64(bits[n - 1], below);
      }
    }

    // ----- two masks -----

    /** and, or, copy, andnot: only the cids in both ranges are touched. */
    method Combine(src: Cmask, op: Op)
      requires Valid() && src.Shaped() && (src == this || src.bits != bits)
      modifies bits
      ensures Valid()
      ensures Set() == Windowed(op, old(Set()), old(src.Set()), Window(base, base + nr, src.base, src.base + src.nr))
    {
      var lo := if base > src.base then base else src.base;
      var hi := if base + nr < src.base + src.nr then base + nr else src.base + src.nr;
      CombineWindow(src, op, lo, hi);
    }

    method CombineWindow(src: Cmask, op: Op, lo: nat, hi: nat)
      requires Valid() && src.Shaped() && (src == this || src.bits != bits)
      requires base <= lo && hi <= base + nr && src.base <= lo && hi <= src.base + src.nr
      modifies bits
      ensures Valid() && Set() == Windowed(op, old(Set()), old(src.Set()), Range(lo, hi))
    {
      if lo >= hi {
        NoWindow(op, Set(), src.Set(), lo, hi);
        return;
      }
      ghost var words, swords := Words(), src.Words();
      CombineWords(src, op, lo, hi);
      OpMembers(op, base, nr, words, src.base, src.nr, swords, lo, hi);
    }

    method CombineWords(src: Cmask, op: Op, lo: nat, hi: nat)
      requires Shaped() && src.Shaped() && (src == this || src.bits != bits)
      requires base <= lo < hi <= base + nr && src.base <= lo && hi <= src.base + src.nr
      modifies bits
      ensures Words() == OpWords(op, old(Words()), base / 64, old(src.Words()), src.base / 64, lo, hi)
    {
      ghost var raw, sraw := bits[..], src.bits[..];
      ghost var target := OpWords(op, Abs(raw), base / 64, Abs(sraw), src.base / 64, lo, hi);
      OpTargets(op, raw, base / 64, sraw, src.base / 64, lo, hi, target);
      CombineLoop(src, op, lo, hi, raw, sraw, target);
    }

    /** The word loop, towards the words `target`. */
    method CombineLoop(src: Cmask, op: Op, lo: nat, hi: nat, ghost raw: seq<U64>, ghost sraw: seq<U64>,
                       ghost target: seq<Word>)
      requires Shaped() && src.Shaped() && (src == this || src.bits != bits) && raw == bits[..] && sraw == src.bits[..]
      requires base <= lo < hi <= base + nr && src.base <= lo && hi <= src.base + src.nr
      requires Progress(raw, raw, target, lo / 64 - base / 64, (hi - 1) / 64 - base / 64)
      requires forall w :: MakesAt(op, raw, base / 64, sraw, src.base / 64, lo, hi, target, w)
      modifies bits
      ensures Words() == target
    {
      var first, last := lo / 64 - base / 64, (hi - 1) / 64 - base / 64;
      for i := 0 to MAX_WORDS
        invariant src == this || src.bits[..] == sraw
        invariant first + i <= last + 1 && Progress(bits[..], raw, target, first + i, last)
      {
        var di := first + i;
        if di > last { break; }
        assert MakesAt(op, raw, base / 64, sraw, src.base / 64, lo, hi, target, base / 64 + di);
        CombineStep(src, op, lo, hi, di, last, raw, sraw, target);
      }
      ProgressDone(bits[..], raw, target, last);
    }

    method CombineStep(src: Cmask, op: Op, lo: nat, hi: nat, di: nat, ghost last: nat,
                       ghost raw: seq<U64>, ghost sraw: seq<U64>, ghost target: seq<Word>)
      requires lo < hi && lo / 64 <= base / 64 + di <= (hi - 1) / 64 && di <= last < bits.Length
      requires src.base / 64 <= base / 64 + di < src.base / 64 + src.bits.Length && |sraw| == src.bits.Length
      requires if src == this then sraw == raw else src.bits != bits && src.bits[..] == sraw
      requires Progress(bits[..], raw, target, di, last)
      requires MakesAt(op, raw, base / 64, sraw, src.base / 64, lo, hi, target, base / 64 + di)
      modifies bits
      ensures Progress(bits[..], raw, target, di + 1, last)
    {
      var dv, sv := bits[di], src.bits[base / 64 + di - src.base / 64];
      assert dv == raw[di] && sv == sraw[base / 64 + di - src.base / 64];
      var v := CombineWord(op, dv, sv, base / 64 + di, lo, hi, target[di]);
      ProgressStep(bits[..], raw, target, di, last, v);
      bits[di] := v;
    }
  }

  lemma InnerWord(base: nat, nr: nat, k: nat)
    requires 0 < k < NrWords(base, nr) - 1
    ensures FULL <= RangeWord(base / 64 + k, base, base + nr)
  {
    forall i | i in FULL ensures i in RangeWord(base / 64 + k, base, base + nr) {
      assert CidWithin(base / 64 + k, i, base, base + nr);
    }
  }

  /** A full word, cut below the range in the first word and above it in the last, as `cmask_fill` cuts it. */
  function CutWord(base: nat, nr: nat, k: nat): Word
  {
    var w := if k == 0 && base % 64 != 0 then FULL - Genmask(base % 64 - 1, 0) else FULL;
    if k + 1 == NrWords(base, nr) && (base + nr) % 64 != 0 then w * Genmask((base + nr) % 64 - 1, 0) else w
  }

  lemma FilledWord(base: nat, nr: nat, k: nat)
    requires k < NrWords(base, nr)
    ensures CutWord(base, nr, k) == RangeWord(base / 64 + k, base, base + nr)
  {
    LoopMaskIsRange(base / 64 + k, base, base + nr);
    assert FULL - (if base % 64 != 0 then Genmask(base % 64 - 1, 0) else {}) == Genmask(63, base % 64);
  }

  lemma FilledMembers(base: nat, nr: nat, words: seq<Word>)
    requires Covers(base, nr, words)
    requires forall k :: 0 <= k < NrWords(base, nr) ==> words[k] == RangeWord(base / 64 + k, base, base + nr)
    ensures Padded(base, nr, words) && Members(base, nr, words) == Range(base, base + nr)
  {
    forall c: nat ensures c in Members(base, nr, words) <==> c in Range(base, base + nr) {
      if base <= c < base + nr {
        MemberWord(base, nr, words, c);
        InRangeWord(c, base, base + nr);
      }
    }
  }
}

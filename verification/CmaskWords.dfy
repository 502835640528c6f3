/** The representation of a cmask: a range of cids [base, base + nr) over an array of 64-bit words, the first of which
    is the whole word that `base` falls in. A word is the set of the positions of its ones (module Bits shows that the
    machine's operations on words are the set operations). */
module CmaskWords {
  import Bits

  type Word = set<nat>

  const MAX_WORDS := 129
  const U32_MAX := 0xFFFF_FFFF

  const FULL: Word := Bits.Span(0, 63)

  /** CMASK_NR_WORDS: the storage for a range of `nr` cids, wherever it starts. */
  function StorageWords(nr: nat): nat { (nr + 63) / 64 + 1 }

  /** The words that a range spans. */
  function NrWords(base: nat, nr: nat): nat { if nr == 0 then 0 else (base + nr - 1) / 64 - base / 64 + 1 }

  lemma RangeFitsStorage(base: nat, nr: nat)
    ensures NrWords(base, nr) <= StorageWords(nr)
  {
  }

  function Genmask(h: nat, l: nat): Word { Bits.Span(l, h) }

  /** The mask that the word loops build for word `w` of the cids [lo, hi): ones all over, cut in the first and in the
      last word. */
  function LoopMask(w: nat, lo: nat, hi: nat): Word
    requires lo < hi
  {
    var m := FULL;
    var m := if w == lo / 64 then m * Genmask(63, lo % 64) else m;
    if w == (hi - 1) / 64 then m * Genmask((hi - 1) % 64, 0) else m
  }

  predicate Within(lo: int, c: int, hi: int) { lo <= c < hi }

  /** The positions of word `w` whose cids are in [lo, hi). */
  function RangeWord(w: nat, lo: nat, hi: nat): Word { set i: nat | i < 64 && CidWithin(w, i, lo, hi) }

  predicate CidWithin(w: nat, i: nat, lo: nat, hi: nat) { lo <= 64 * w + i < hi }

  lemma LoopMaskIsRange(w: nat, lo: nat, hi: nat)
    requires lo < hi && lo / 64 <= w <= (hi - 1) / 64
    ensures LoopMask(w, lo, hi) == RangeWord(w, lo, hi)
  {
    forall i: nat ensures i in LoopMask(w, lo, hi) <==> i in RangeWord(w, lo, hi) {
    }
  }

  lemma RangeWordOutside(w: nat, lo: nat, hi: nat)
    requires lo < hi && !(lo / 64 <= w <= (hi - 1) / 64)
    ensures RangeWord(w, lo, hi) == {}
  {
    forall i: nat ensures i !in RangeWord(w, lo, hi) {
    }
  }

  /** `c` is set, going by its word. */
  predicate Has(base: nat, words: seq<Word>, c: nat)
    requires base / 64 <= c / 64 < base / 64 + |words|
  {
    c % 64 in words[c / 64 - base / 64]
  }

  /** The storage covers the range. */
  predicate Covers(base: nat, nr: nat, words: seq<Word>) { NrWords(base, nr) <= |words| }

  /** The set of cids that the words stand for. */
  function Members(base: nat, nr: nat, words: seq<Word>): set<nat>
    requires Covers(base, nr, words)
  {
    set c: nat | base <= c < base + nr && Has(base, words, c)
  }

  /** Bits outside of the range are zero in every word that the range spans. */
  predicate Padded(base: nat, nr: nat, words: seq<Word>)
    requires Covers(base, nr, words)
  {
    forall k :: 0 <= k < NrWords(base, nr) ==> words[k] <= RangeWord(base / 64 + k, base, base + nr)
  }

  /** With clear padding, a one anywhere in the span is a member. */
  lemma OnesAreMembers(base: nat, nr: nat, words: seq<Word>, k: nat, i: nat)
    requires Covers(base, nr, words) && Padded(base, nr, words) && k < NrWords(base, nr) && i in words[k]
    ensures i < 64 && 64 * (base / 64 + k) + i in Members(base, nr, words)
  {
    var c := 64 * (base / 64 + k) + i;
    assert i in RangeWord(base / 64 + k, base, base + nr);
    assert c / 64 == base / 64 + k && c % 64 == i;
    assert Has(base, words, c);
  }

  /** The word of a member. */
  lemma MemberWord(base: nat, nr: nat, words: seq<Word>, c: nat)
    requires Covers(base, nr, words) && base <= c < base + nr
    ensures 0 <= c / 64 - base / 64 < NrWords(base, nr)
    ensures c in Members(base, nr, words) <==> c % 64 in words[c / 64 - base / 64]
  {
    assert c in Members(base, nr, words) <==> Has(base, words, c);
  }

  // ----- set, clear, combine -----

  /** Members after every word got the bits of the range [lo, hi). */
  lemma SetRangeMembers(base: nat, nr: nat, words: seq<Word>, words': seq<Word>, lo: nat, hi: nat)
    requires |words'| == |words| && Covers(base, nr, words) && Padded(base, nr, words) && base <= lo && hi <= base + nr
    requires forall k :: 0 <= k < NrWords(base, nr) ==> words'[k] == words[k] + RangeWord(base / 64 + k, lo, hi)
    ensures Padded(base, nr, words')
    ensures Members(base, nr, words') == Members(base, nr, words) + Range(lo, hi)
  {
    forall c: nat ensures c in Members(base, nr, words') <==> c in Members(base, nr, words) + Range(lo, hi) {
      if base <= c < base + nr {
        MemberWord(base, nr, words, c);
        MemberWord(base, nr, words', c);
        InRangeWord(c, lo, hi);
      }
    }
    forall k | 0 <= k < NrWords(base, nr) ensures words'[k] <= RangeWord(base / 64 + k, base, base + nr) {
      RangeWordMonotone(base / 64 + k, lo, hi, base, base + nr);
    }
  }

  /** The words with the bits of [lo, hi) added. */
  function PlusRange(words: seq<Word>, wb: nat, lo: nat, hi: nat): (words': seq<Word>)
    ensures |words'| == |words| && forall k :: 0 <= k < |words| ==> words'[k] == words[k] + RangeWord(wb + k, lo, hi)
  {
    seq(|words|, k requires 0 <= k < |words| => words[k] + RangeWord(wb + k, lo, hi))
  }

  /** The words with the bits of [lo, hi) removed. */
  function MinusRange(words: seq<Word>, wb: nat, lo: nat, hi: nat): (words': seq<Word>)
    ensures |words'| == |words| && forall k :: 0 <= k < |words| ==> words'[k] == words[k] - RangeWord(wb + k, lo, hi)
  {
    seq(|words|, k requires 0 <= k < |words| => words[k] - RangeWord(wb + k, lo, hi))
  }

  /** Words outside of the range stay as they are. */
  lemma RangeOutside(words: seq<Word>, wb: nat, lo: nat, hi: nat)
    requires lo < hi
    ensures forall k :: 0 <= k < |words| && !(lo / 64 <= wb + k <= (hi - 1) / 64) ==>
                          PlusRange(words, wb, lo, hi)[k] == words[k] && MinusRange(words, wb, lo, hi)[k] == words[k]
  {
    forall k | 0 <= k < |words| && !(lo / 64 <= wb + k <= (hi - 1) / 64)
      ensures PlusRange(words, wb, lo, hi)[k] == words[k] && MinusRange(words, wb, lo, hi)[k] == words[k]
    {
      RangeWordOutside(wb + k, lo, hi);
    }
  }

  function Range(lo: nat, hi: nat): set<nat> { set c: nat | c < hi && Within(lo, c, hi) }

  lemma InRangeWord(c: nat, lo: nat, hi: nat)
    ensures c % 64 in RangeWord(c / 64, lo, hi) <==> lo <= c < hi
  {
    assert 64 * (c / 64) + c % 64 == c;
  }

  lemma RangeWordMonotone(w: nat, lo: nat, hi: nat, lo': nat, hi': nat)
    requires lo' <= lo && hi <= hi'
    ensures RangeWord(w, lo, hi) <= RangeWord(w, lo', hi')
  {
    forall i | i in RangeWord(w, lo, hi) ensures i in RangeWord(w, lo', hi') {
      assert CidWithin(w, i, lo, hi) && CidWithin(w, i, lo', hi');
    }
  }

  lemma ClearRangeMembers(base: nat, nr: nat, words: seq<Word>, words': seq<Word>, lo: nat, hi: nat)
    requires |words'| == |words| && Covers(base, nr, words) && Padded(base, nr, words)
    requires forall k :: 0 <= k < NrWords(base, nr) ==> words'[k] == words[k] - RangeWord(base / 64 + k, lo, hi)
    ensures Padded(base, nr, words')
    ensures Members(base, nr, words') == Members(base, nr, words) - Range(lo, hi)
  {
    forall c: nat ensures c in Members(base, nr, words') <==> c in Members(base, nr, words) - Range(lo, hi) {
      if base <= c < base + nr {
        MemberWord(base, nr, words, c);
        MemberWord(base, nr, words', c);
        InRangeWord(c, lo, hi);
      }
    }
  }

  /** The range of a single cid is one bit of its word. */
  lemma OneCid(base: nat, cid: nat, k: nat)
    requires base <= cid
    ensures RangeWord(base / 64 + k, cid, cid + 1) == if k == cid / 64 - base / 64 then {cid % 64} else {}
  {
    var w := base / 64 + k;
    if k == cid / 64 - base / 64 {
      assert 64 * (cid / 64) + cid % 64 == cid;
      var r := RangeWord(w, cid, cid + 1);
      forall i | i in r ensures i == cid % 64 {
        assert CidWithin(w, i, cid, cid + 1);
      }
      assert CidWithin(w, cid % 64, cid, cid + 1);
    } else {
      RangeWordOutside(w, cid, cid + 1);
    }
  }

  /** Setting one bit of a word adds its cid. */
  lemma SetOneMember(base: nat, nr: nat, words: seq<Word>, cid: nat)
    requires Covers(base, nr, words) && Padded(base, nr, words) && base <= cid < base + nr
    ensures var k := cid / 64 - base / 64;
            var words' := words[k := words[k] + {cid % 64}];
            Padded(base, nr, words') && Members(base, nr, words') == Members(base, nr, words) + {cid}
  {
    var words' := words[cid / 64 - base / 64 := words[cid / 64 - base / 64] + {cid % 64}];
    forall k | 0 <= k < NrWords(base, nr) ensures words'[k] == words[k] + RangeWord(base / 64 + k, cid, cid + 1) {
      OneCid(base, cid, k);
    }
    SetRangeMembers(base, nr, words, words', cid, cid + 1);
    assert Range(cid, cid + 1) == {cid};
  }

  lemma ClearOneMember(base: nat, nr: nat, words: seq<Word>, cid: nat)
    requires Covers(base, nr, words) && Padded(base, nr, words) && base <= cid < base + nr
    ensures var k := cid / 64 - base / 64;
            var words' := words[k := words[k] - {cid % 64}];
            Padded(base, nr, words') && Members(base, nr, words') == Members(base, nr, words) - {cid}
  {
    var words' := words[cid / 64 - base / 64 := words[cid / 64 - base / 64] - {cid % 64}];
    forall k | 0 <= k < NrWords(base, nr) ensures words'[k] == words[k] - RangeWord(base / 64 + k, cid, cid + 1) {
      OneCid(base, cid, k);
    }
    ClearRangeMembers(base, nr, words, words', cid, cid + 1);
    assert Range(cid, cid + 1) == {cid};
  }

  datatype Op = And | Or | Copy | AndNot

  function Apply<T(==)>(op: Op, d: set<T>, s: set<T>): set<T>
  {
    match op
    case And => d * s
    case Or => d + s
    case AndNot => d - s
    case Copy => s
  }

  /** A word of the destination, combined under a mask. */
  function OpWord(op: Op, d: Word, s: Word, mask: Word): Word { (d - mask) + (Apply(op, d, s) * mask) }

  function WordAt(words: seq<Word>, k: int): Word { if 0 <= k < |words| then words[k] else {} }

  /** Word `w` of the destination after the operation on the window [lo, hi). */
  function OpResult(op: Op, d: Word, s: Word, w: nat, lo: nat, hi: nat): Word
    requires lo < hi
  {
    if lo / 64 <= w <= (hi - 1) / 64 then OpWord(op, d, s, LoopMask(w, lo, hi)) else d
  }

  /** All words of the destination, which start at word `db`, as those of the source start at word `sb`. */
  function OpWords(op: Op, words: seq<Word>, db: nat, swords: seq<Word>, sb: nat, lo: nat, hi: nat): (words': seq<Word>)
    requires lo < hi
    ensures |words'| == |words|
    ensures forall k :: 0 <= k < |words| ==>
            words'[k] == OpResult(op, words[k], WordAt(swords, db + k - sb), db + k, lo, hi)
  {
    seq(|words|, k requires 0 <= k < |words| => OpResult(op, words[k], WordAt(swords, db + k - sb), db + k, lo, hi))
  }

  /** One cid of a combined word. */
  lemma OpResultAt(op: Op, d: Word, s: Word, c: nat, lo: nat, hi: nat)
    requires lo < hi
    ensures c % 64 in OpResult(op, d, s, c / 64, lo, hi) <==>
            if lo <= c < hi then c % 64 in Apply(op, d, s) else c % 64 in d
  {
    InRangeWord(c, lo, hi);
    if lo / 64 <= c / 64 <= (hi - 1) / 64 { LoopMaskIsRange(c / 64, lo, hi); }
  }

  lemma OpResultPadded(op: Op, d: Word, s: Word, w: nat, lo: nat, hi: nat, base: nat, end: nat)
    requires base <= lo < hi <= end && d <= RangeWord(w, base, end)
    ensures OpResult(op, d, s, w, lo, hi) <= RangeWord(w, base, end)
  {
    if lo / 64 <= w <= (hi - 1) / 64 {
      LoopMaskIsRange(w, lo, hi);
      RangeWordMonotone(w, lo, hi, base, end);
    }
  }

  /** Members after the words of the window [lo, hi) were combined: inside the window the operation, outside nothing. */
  lemma OpMember(op: Op, base: nat, nr: nat, words: seq<Word>, sbase: nat, snr: nat, swords: seq<Word>, lo: nat,
                 hi: nat, c: nat)
    requires Covers(base, nr, words) && Covers(sbase, snr, swords)
    requires base <= lo < hi <= base + nr && sbase <= lo && hi <= sbase + snr
    ensures c in Members(base, nr, OpWords(op, words, base / 64, swords, sbase / 64, lo, hi)) <==>
            if lo <= c < hi then c in Apply(op, Members(base, nr, words), Members(sbase, snr, swords))
            else c in Members(base, nr, words)
  {
    var words' := OpWords(op, words, base / 64, swords, sbase / 64, lo, hi);
    if base <= c < base + nr {
      MemberWord(base, nr, words, c);
      MemberWord(base, nr, words', c);
      OpResultAt(op, words[c / 64 - base / 64], WordAt(swords, c / 64 - sbase / 64), c, lo, hi);
      if lo <= c < hi { MemberWord(sbase, snr, swords, c); }
    }
  }

  /** The operation inside a window, nothing outside. */
  function Windowed(op: Op, d: set<nat>, s: set<nat>, window: set<nat>): set<nat>
  {
    (d - window) + (Apply(op, d, s) * window)
  }

  lemma NoWindow(op: Op, d: set<nat>, s: set<nat>, lo: nat, hi: nat)
    requires hi <= lo
    ensures Windowed(op, d, s, Range(lo, hi)) == d
  {
  }

  /** The window that two ranges share. */
  function Window(a: nat, aEnd: nat, b: nat, bEnd: nat): set<nat>
  {
    Range(if a > b then a else b, if aEnd < bEnd then aEnd else bEnd)
  }

  lemma WindowIsShared(a: nat, aEnd: nat, b: nat, bEnd: nat)
    ensures Window(a, aEnd, b, bEnd) == Range(a, aEnd) * Range(b, bEnd)
  {
  }

  lemma OpMembers(op: Op, base: nat, nr: nat, words: seq<Word>, sbase: nat, snr: nat, swords: seq<Word>, lo: nat,
                  hi: nat)
    requires Covers(base, nr, words) && Padded(base, nr, words) && Covers(sbase, snr, swords)
    requires base <= lo < hi <= base + nr && sbase <= lo && hi <= sbase + snr
    ensures var words' := OpWords(op, words, base / 64, swords, sbase / 64, lo, hi);
            && Padded(base, nr, words')
            && Members(base, nr, words') ==
               Windowed(op, Members(base, nr, words), Members(sbase, snr, swords), Range(lo, hi))
  {
    var words' := OpWords(op, words, base / 64, swords, sbase / 64, lo, hi);
    forall c: nat { OpMember(op, base, nr, words, sbase, snr, swords, lo, hi, c); }
    forall k | 0 <= k < NrWords(base, nr) ensures words'[k] <= RangeWord(base / 64 + k, base, base + nr) {
      OpResultPadded(op, words[k], WordAt(swords, base / 64 + k - sbase / 64), base / 64 + k, lo, hi, base, base + nr);
    }
  }

  // ----- searching -----

  /** No element of `s` in [lo, hi). */
  predicate NoneIn(s: set<nat>, lo: nat, hi: nat) { forall c :: c in s ==> !(lo <= c < hi) }

  /** `r` is the first element from `start` on, or `end` when there is none below `end`. */
  predicate IsNext(s: set<nat>, start: nat, end: nat, r: nat)
  {
    (r in s && start <= r && NoneIn(s, start, r)) || (r == end && NoneIn(s, start, end))
  }

  /** What `ctzll` gives (`Bits.CtzIsLowest`). */
  function Lowest(w: Word): (i: nat)
    requires w != {}
    ensures i in w && forall j :: j in w ==> i <= j
  {
    LowestExists(w);
    var i :| i in w && forall j :: j in w ==> i <= j;
    i
  }

  lemma {:induction false} LowestExists(w: Word)
    requires w != {}
    ensures exists i :: i in w && forall j :: j in w ==> i <= j
  {
    var i :| i in w;
    if w != {i} {
      var rest := w - {i};
      LowestExists(rest);
      var k :| k in rest && forall j :: j in rest ==> k <= j;
      assert w == rest + {i};
      assert if i <= k then i in w && (forall j :: j in w ==> i <= j) else k in w && (forall j :: j in w ==> k <= j);
    }
  }

  /** The search looks at word `w`, cut below `start`: its ones are the elements from `start` on that the word holds. */
  predicate Shows(s: set<nat>, w: nat, start: nat, word: Word)
  {
    forall c :: c in s && c / 64 == w && start <= c ==> c % 64 in word
  }

  lemma EmptyWord(s: set<nat>, w: nat, start: nat, word: Word)
    requires Shows(s, w, start, word) && word == {} && NoneIn(s, start, 64 * w)
    ensures NoneIn(s, start, 64 * w + 64)
  {
  }

  lemma FoundInWord(s: set<nat>, w: nat, start: nat, word: Word)
    requires Shows(s, w, start, word) && word != {} && word <= FULL && NoneIn(s, start, 64 * w)
    ensures NoneIn(s, start, 64 * w + Lowest(word))
  {
    forall c | c in s && start <= c && 64 * w <= c ensures 64 * w + Lowest(word) <= c {
      if c / 64 == w { assert c % 64 in word; }
    }
  }

  // ----- counting -----

  /** The members in the first `k` words. */
  function MembersUpTo(base: nat, nr: nat, words: seq<Word>, k: nat): set<nat>
    requires Covers(base, nr, words)
  {
    set c | c in Members(base, nr, words) && c / 64 - base / 64 < k
  }

  function Shifted(w: Word, off: nat): set<nat> { set i | i in w :: off + i }

  lemma {:induction false} ShiftedSize(w: Word, off: nat)
    ensures |Shifted(w, off)| == |w|
    decreases |w|
  {
    if w != {} {
      var i :| i in w;
      ShiftedSize(w - {i}, off);
      forall c ensures c in Shifted(w, off) <==> c in Shifted(w - {i}, off) || c == off + i {
        if c in Shifted(w, off) && c != off + i {
          var j :| j in w && c == off + j;
          assert j in w - {i};
        }
      }
      assert Shifted(w, off) == Shifted(w - {i}, off) + {off + i};
    }
  }

  lemma CountWord(base: nat, nr: nat, words: seq<Word>, k: nat)
    requires Covers(base, nr, words) && Padded(base, nr, words) && k < NrWords(base, nr)
    ensures |MembersUpTo(base, nr, words, k + 1)| == |MembersUpTo(base, nr, words, k)| + |words[k]|
  {
    var off := 64 * (base / 64 + k);
    var more := Shifted(words[k], off);
    forall c: nat ensures c in more <==> c in Members(base, nr, words) && c / 64 - base / 64 == k {
      if c in more {
        var i :| i in words[k] && c == off + i;
        OnesAreMembers(base, nr, words, k, i);
      }
      if c in Members(base, nr, words) && c / 64 - base / 64 == k {
        MemberWord(base, nr, words, c);
        assert c == off + c % 64;
      }
    }
    assert MembersUpTo(base, nr, words, k + 1) == MembersUpTo(base, nr, words, k) + more;
    assert MembersUpTo(base, nr, words, k) !! more;
    ShiftedSize(words[k], off);
  }

  lemma CountedAll(base: nat, nr: nat, words: seq<Word>)
    requires Covers(base, nr, words)
    ensures MembersUpTo(base, nr, words, NrWords(base, nr)) == Members(base, nr, words)
    ensures MembersUpTo(base, nr, words, 0) == {}
  {
    forall c | c in Members(base, nr, words) ensures 0 <= c / 64 - base / 64 < NrWords(base, nr) {
      MemberWord(base, nr, words, c);
    }
  }
}

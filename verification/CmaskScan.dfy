/** What the code asks of cmasks: tests, counts and searches, word by word, against the sets of cids. */
module CmaskScan {
  import Bits
  import opened CmaskWords
  import opened Words64
  import opened CmaskImpl

  // ----- whole words against sets -----

  lemma WordWithin(base: nat, nr: nat, words: seq<Word>, lo: nat, hi: nat, k: nat)
    requires Covers(base, nr, words) && base <= lo < hi <= base + nr && lo / 64 <= base / 64 + k <= (hi - 1) / 64
    ensures k < NrWords(base, nr)
    ensures RangeWord(base / 64 + k, lo, hi) <= words[k] <==>
            forall c :: c in Range(lo, hi) && c / 64 == base / 64 + k ==> c in Members(base, nr, words)
  {
    if RangeWord(base / 64 + k, lo, hi) <= words[k] {
      forall c | c in Range(lo, hi) && c / 64 == base / 64 + k ensures c in Members(base, nr, words) {
        MemberWord(base, nr, words, c);
        InRangeWord(c, lo, hi);
      }
    } else {
      var i :| i in RangeWord(base / 64 + k, lo, hi) && i !in words[k];
      var c := 64 * (base / 64 + k) + i;
      assert CidWithin(base / 64 + k, i, lo, hi);
      assert c in Range(lo, hi) && c / 64 == base / 64 + k && c % 64 == i;
      MemberWord(base, nr, words, c);
    }
  }

  /** `(word & mask) == mask` for the mask of word `w` of [lo, hi). */
  method HoldsRange(u: U64, w: nat, lo: nat, hi: nat) returns (r: bool)
    requires lo < hi && lo / 64 <= w <= (hi - 1) / 64
    ensures r <==> RangeWord(w, lo, hi) <= Ones(u)
  {
    var mask := RangeMask(w, lo, hi);
    LoopMaskIsRange(w, lo, hi);
    var both := AndU64(u, mask);
    Bits.OnesInjective(both, mask);
    r := both == mask;
  }

  /** `cmask_full_range`: every cid of the range, cut to the active one, is set. */
  method FullRange(m: Cmask, start: nat, n: nat) returns (r: bool)
    requires m.Shaped()
    ensures r <==> Range(start, start + n) * Range(m.base, m.base + m.nr) <= m.Set()
  {
    var (lo, hi) := m.Clamp(start, n);
    m.ClampIs(start, n);
    if lo >= hi { return true; }
    var wb := m.base / 64;
    var first, last := lo / 64 - wb, (hi - 1) / 64 - wb;
    ghost var words := m.Words();
    for i := 0 to MAX_WORDS
      invariant forall c :: c in Range(lo, hi) && c / 64 < lo / 64 + i ==> c in m.Set()
    {
      var wi := first + i;
      if wi > last { break; }
      WordWithin(m.base, m.nr, words, lo, hi, wi);
      var full := HoldsRange(m.bits[wi], wb + wi, lo, hi);
      if !full { return false; }
    }
    r := true;
  }

  method Empty(m: Cmask) returns (r: bool)
    requires m.Valid()
    ensures r <==> m.Set() == {}
  {
    var n := NrWords(m.base, m.nr);
    ghost var words := m.Words();
    for i := 0 to MAX_WORDS
      invariant forall k :: 0 <= k < i && k < n ==> words[k] == {}
    {
      if i >= n { break; }
      Bits.OnesZero(m.bits[i]);
      if m.bits[i] != 0 {
        ghost var one :| one in words[i];
        OnesAreMembers(m.base, m.nr, words, i, one);
        return false;
      }
    }
    forall c | c in m.Set() ensures false { MemberWord(m.base, m.nr, words, c); }
    r := true;
  }

  /** With clear padding, the words are determined by the set. */
  lemma SameSetSameWord(base: nat, nr: nat, a: seq<Word>, b: seq<Word>, k: nat)
    requires Covers(base, nr, a) && Covers(base, nr, b) && Padded(base, nr, a) && k < NrWords(base, nr)
    requires Members(base, nr, a) <= Members(base, nr, b)
    ensures a[k] <= b[k]
  {
    forall i | i in a[k] ensures i in b[k] {
      OnesAreMembers(base, nr, a, k, i);
      var c := 64 * (base / 64 + k) + i;
      assert c / 64 == base / 64 + k && c % 64 == i;
      MemberWord(base, nr, b, c);
    }
  }

  lemma SameWordsSameSet(base: nat, nr: nat, a: seq<Word>, b: seq<Word>)
    requires Covers(base, nr, a) && Covers(base, nr, b)
    requires forall k :: 0 <= k < NrWords(base, nr) ==> a[k] == b[k]
    ensures Members(base, nr, a) == Members(base, nr, b)
  {
    forall c: nat ensures c in Members(base, nr, a) <==> c in Members(base, nr, b) {
      if base <= c < base + nr {
        MemberWord(base, nr, a, c);
        MemberWord(base, nr, b, c);
      }
    }
  }

  /** `cmask_equal`: masks of different shapes are never equal. */
  method Equal(a: Cmask, b: Cmask) returns (r: bool)
    requires a.Valid() && b.Valid()
    ensures r <==> a.base == b.base && a.nr == b.nr && a.Set() == b.Set()
  {
    if a.base != b.base || a.nr != b.nr { return false; }
    if a.nr == 0 { return true; }
    var n := (a.base + a.nr - 1) / 64 - a.base / 64 + 1;
    ghost var wa, wb := a.Words(), b.Words();
    for i := 0 to MAX_WORDS
      invariant forall k :: 0 <= k < i && k < n ==> wa[k] == wb[k]
    {
      if i >= n { break; }
      Bits.OnesInjective(a.bits[i], b.bits[i]);
      if a.bits[i] != b.bits[i] {
        if a.Set() == b.Set() {
          SameSetSameWord(a.base, a.nr, wa, wb, i);
          SameSetSameWord(a.base, a.nr, wb, wa, i);
        }
        return false;
      }
    }
    SameWordsSameSet(a.base, a.nr, wa, wb);
    r := true;
  }

  /** `cmask_weight` is the number of cids set. */
  method Weight(m: Cmask) returns (count: nat)
    requires m.Valid()
    ensures count == |m.Set()|
  {
    ghost var words := m.Words();
    CountedAll(m.base, m.nr, words);
    count := 0;
    if m.nr == 0 { return; }
    var n := (m.base + m.nr - 1) / 64 - m.base / 64 + 1;
    for i := 0 to MAX_WORDS
      invariant count == |MembersUpTo(m.base, m.nr, words, if i < n then i else n)|
    {
      if i >= n { break; }
      CountWord(m.base, m.nr, words, i);
      var ones := Popcount(m.bits[i]);
      count := count + ones;
    }
  }

  // ----- searching -----

  /** The first word of a search is cut below the start; what it shows are the members from there on. */
  function Cut(word: Word, i: nat, start: nat): Word { if i == 0 then word * Genmask(63, start % 64) else word }

  lemma CutShows(base: nat, nr: nat, words: seq<Word>, start: nat, i: nat)
    requires Covers(base, nr, words) && base <= start && start / 64 + i < base / 64 + NrWords(base, nr)
    ensures Shows(Members(base, nr, words), start / 64 + i, start, Cut(words[start / 64 + i - base / 64], i, start))
  {
    forall c | c in Members(base, nr, words) && c / 64 == start / 64 + i && start <= c
      ensures c % 64 in Cut(words[start / 64 + i - base / 64], i, start)
    {
      MemberWord(base, nr, words, c);
    }
  }

  lemma CutFound(base: nat, nr: nat, words: seq<Word>, start: nat, i: nat, b: nat)
    requires Covers(base, nr, words) && base <= start && start / 64 + i < base / 64 + NrWords(base, nr) && b < 64
    requires b in Cut(words[start / 64 + i - base / 64], i, start) && 64 * (start / 64 + i) + b < base + nr
    ensures start <= 64 * (start / 64 + i) + b && 64 * (start / 64 + i) + b in Members(base, nr, words)
  {
    var c := 64 * (start / 64 + i) + b;
    assert c / 64 == start / 64 + i && c % 64 == b;
    MemberWord(base, nr, words, c);
  }

  /** Below the base there is nothing to find. */
  lemma StartAtBase(base: nat, nr: nat, words: seq<Word>, cid: nat, end: nat, r: nat)
    requires Covers(base, nr, words) && end == base + nr
    requires IsNext(Members(base, nr, words), if cid < base then base else cid, end, r)
    ensures IsNext(Members(base, nr, words), cid, end, r)
  {
  }

  lemma NoneFromEnd(base: nat, nr: nat, words: seq<Word>, start: nat)
    requires Covers(base, nr, words) && base + nr <= start
    ensures IsNext(Members(base, nr, words), start, base + nr, base + nr)
  {
  }

  /** One word of a search: nothing here, or the first one that is. */
  lemma ScanStep(s: set<nat>, w: nat, start: nat, word: Word)
    requires Shows(s, w, start, word) && word <= FULL && NoneIn(s, start, 64 * w)
    ensures word == {} ==> NoneIn(s, start, 64 * (w + 1))
    ensures word != {} ==> NoneIn(s, start, 64 * w + Lowest(word))
  {
    if word == {} { EmptyWord(s, w, start, word); } else { FoundInWord(s, w, start, word); }
  }

  /** `cmask_next_set`: the first cid set from `cid` on, or the end. */
  method NextSet(m: Cmask, cid: nat) returns (r: nat)
    requires m.Shaped()
    ensures IsNext(m.Set(), cid, m.base + m.nr, r)
  {
    var end := m.base + m.nr;
    var start := if cid < m.base then m.base else cid;
    if start >= end {
      r := end;
      NoneFromEnd(m.base, m.nr, m.Words(), start);
    } else {
      r := NextSetFrom(m, start);
    }
    StartAtBase(m.base, m.nr, m.Words(), cid, end, r);
  }

  /** The first word of a search is cut below the start. */
  method CutU64(word: U64, i: nat, start: nat) returns (r: U64)
    ensures Ones(r) == Cut(Ones(word), i, start)
  {
    r := word;
    if i == 0 {
      var mask := Bits.Genmask(63, start % 64);
      r := AndU64(r, mask);
    }
  }

  lemma LookedAt(base: nat, nr: nat, words: seq<Word>, start: nat, i: nat, ones: Word)
    requires Covers(base, nr, words) && base <= start < base + nr && start / 64 + i < base / 64 + NrWords(base, nr)
    requires words[start / 64 + i - base / 64] <= FULL && NoneIn(Members(base, nr, words), start, 64 * (start / 64 + i))
    requires ones == Cut(words[start / 64 + i - base / 64], i, start)
    ensures Looked(Members(base, nr, words), start, start / 64 + i, base + nr, ones)
  {
    CutShows(base, nr, words, start, i);
    ScanStep(Members(base, nr, words), start / 64 + i, start, ones);
    if ones != {} && 64 * (start / 64 + i) + Lowest(ones) < base + nr {
      CutFound(base, nr, words, start, i, Lowest(ones));
    }
  }

  /** Looks at the `i`-th word from `start` on. */
  method WordFrom(m: Cmask, start: nat, i: nat, ghost s: set<nat>) returns (none: bool, found: nat)
    requires m.Shaped() && m.base <= start < m.base + m.nr && start / 64 + i < m.base / 64 + NrWords(m.base, m.nr)
    requires s == m.Set() && NoneIn(s, start, 64 * (start / 64 + i))
    ensures Sighted(s, start, start / 64 + i, m.base + m.nr, none, found)
  {
    var u := m.bits[start / 64 + i - m.base / 64];
    ghost var ones := Cut(Ones(u), i, start);
    OnesFit(u);
    LookedAt(m.base, m.nr, m.Words(), start, i, ones);
    var word := CutU64(u, i, start);
    none, found := FirstOne(word, start / 64 + i, ones);
    SightedAt(s, start, start / 64 + i, m.base + m.nr, ones, none, found);
  }

  lemma SightedAt(s: set<nat>, start: nat, w: nat, hi: nat, ones: Word, none: bool, found: nat)
    requires Looked(s, start, w, hi, ones) && if none then ones == {} else ones != {} && found == 64 * w + Lowest(ones)
    ensures Sighted(s, start, w, hi, none, found)
  {
  }

  /** `abs_wi * 64 + ctzll(word)`, unless the word is zero. */
  method FirstOne(word: U64, w: nat, ghost ones: Word) returns (none: bool, found: nat)
    requires Is(word, ones)
    ensures if none then ones == {} else ones != {} && found == 64 * w + Lowest(ones)
  {
    Bits.OnesZero(word);
    none, found := word == 0, 0;
    if !none {
      var bit := Ctzll(word);
      found := w * 64 + bit;
    }
  }

  /** What one word of a search tells: nothing here, or how far there is nothing and, below `hi`, the first one. */
  ghost predicate Sighted(s: set<nat>, start: nat, w: nat, hi: nat, none: bool, found: nat)
  {
    if none then NoneIn(s, start, 64 * (w + 1))
    else NoneIn(s, start, found) && (found < hi ==> start <= found && found in s)
  }

  ghost predicate Looked(s: set<nat>, start: nat, w: nat, hi: nat, ones: Word)
  {
    if ones == {} then Sighted(s, start, w, hi, true, 0) else Sighted(s, start, w, hi, false, 64 * w + Lowest(ones))
  }

  method NextSetFrom(m: Cmask, start: nat) returns (r: nat)
    requires m.Shaped() && m.base <= start < m.base + m.nr
    ensures IsNext(m.Set(), start, m.base + m.nr, r)
  {
    var end, lastWi := m.base + m.nr, (m.base + m.nr - 1) / 64;
    ghost var s := m.Set();
    r := end;
    for i := 0 to MAX_WORDS
      invariant NoneIn(s, start, 64 * (start / 64 + i))
    {
      var wi := start / 64 + i;
      if wi > lastWi { break; }
      var none, found := WordFrom(m, start, i, s);
      if none { continue; }
      if found >= end { break; }
      return found;
    }
    assert NoneIn(s, start, end);
  }

  /** The ones that two words share are the cids that the two masks share. */
  lemma BothShow(base: nat, nr: nat, words: seq<Word>, base': nat, nr': nat, words': seq<Word>, start: nat, i: nat)
    requires Covers(base, nr, words) && Covers(base', nr', words') && base <= start && base' <= start
    requires start / 64 + i < base / 64 + NrWords(base, nr) && start / 64 + i < base' / 64 + NrWords(base', nr')
    ensures Shows(Members(base, nr, words) * Members(base', nr', words'), start / 64 + i, start,
                  Cut(words[start / 64 + i - base / 64] * words'[start / 64 + i - base' / 64], i, start))
  {
    forall c | c in Members(base, nr, words) * Members(base', nr', words') && c / 64 == start / 64 + i && start <= c
      ensures c % 64 in Cut(words[start / 64 + i - base / 64] * words'[start / 64 + i - base' / 64], i, start)
    {
      MemberWord(base, nr, words, c);
      MemberWord(base', nr', words', c);
    }
  }

  lemma BothFound(base: nat, nr: nat, words: seq<Word>, base': nat, nr': nat, words': seq<Word>, start: nat, i: nat,
                  b: nat)
    requires Covers(base, nr, words) && Covers(base', nr', words') && base <= start && base' <= start && b < 64
    requires start / 64 + i < base / 64 + NrWords(base, nr) && start / 64 + i < base' / 64 + NrWords(base', nr')
    requires b in Cut(words[start / 64 + i - base / 64] * words'[start / 64 + i - base' / 64], i, start)
    requires 64 * (start / 64 + i) + b < base + nr && 64 * (start / 64 + i) + b < base' + nr'
    ensures var c := 64 * (start / 64 + i) + b;
            start <= c && c in Members(base, nr, words) * Members(base', nr', words')
  {
    CutFound(base, nr, words, start, i, b);
    CutFound(base', nr', words', start, i, b);
  }

  lemma NoneShared(a: Cmask, b: Cmask, start: nat, hi: nat)
    requires a.Shaped() && b.Shaped() && NoneIn(a.Set() * b.Set(), start, hi)
    requires a.base + a.nr <= hi || b.base + b.nr <= hi
    ensures NoneIn(a.Set() * b.Set(), start, a.base + a.nr)
  {
  }

  /** `cmask_next_and_set`: the first cid set in both from `start` on, or the end of the first mask. */
  method NextAndSet(a: Cmask, b: Cmask, start: nat) returns (r: nat)
    requires a.Shaped() && b.Shaped()
    ensures IsNext(a.Set() * b.Set(), start, a.base + a.nr, r)
  {
    var aEnd, bEnd := a.base + a.nr, b.base + b.nr;
    var lo := if a.base > b.base then a.base else b.base;
    var hi := if aEnd < bEnd then aEnd else bEnd;
    if lo >= hi { return aEnd; }
    var from := if start < lo then lo else start;
    if from >= hi { return aEnd; }
    r := NextAndSetFrom(a, b, from, hi);
    assert forall c :: c in a.Set() * b.Set() ==> lo <= c;
  }

  lemma LookedAtBoth(base: nat, nr: nat, words: seq<Word>, base': nat, nr': nat, words': seq<Word>,
                     start: nat, i: nat, hi: nat, s: set<nat>, ones: Word)
    requires Covers(base, nr, words) && Covers(base', nr', words') && base <= start && base' <= start
    requires start < hi <= base + nr && hi <= base' + nr' && start / 64 + i <= (hi - 1) / 64
    requires words[start / 64 + i - base / 64] <= FULL
    requires s == Members(base, nr, words) * Members(base', nr', words') && NoneIn(s, start, 64 * (start / 64 + i))
    requires ones == Cut(words[start / 64 + i - base / 64] * words'[start / 64 + i - base' / 64], i, start)
    ensures Looked(s, start, start / 64 + i, hi, ones)
  {
    BothShow(base, nr, words, base', nr', words', start, i);
    ScanStep(s, start / 64 + i, start, ones);
    if ones != {} && 64 * (start / 64 + i) + Lowest(ones) < hi {
      BothFound(base, nr, words, base', nr', words', start, i, Lowest(ones));
    }
  }

  method FirstOfBoth(u: U64, v: U64, start: nat, i: nat, ghost hi: nat, ghost s: set<nat>, ghost ones: Word)
    returns (none: bool, found: nat)
    requires ones == Cut(Ones(u) * Ones(v), i, start) && Looked(s, start, start / 64 + i, hi, ones)
    ensures Sighted(s, start, start / 64 + i, hi, none, found)
  {
    var both := AndU64(u, v);
    var word := CutU64(both, i, start);
    none, found := FirstOne(word, start / 64 + i, ones);
    SightedAt(s, start, start / 64 + i, hi, ones, none, found);
  }

  /** Looks at the `i`-th word of both masks from `start` on. */
  method WordOfBoth(a: Cmask, b: Cmask, start: nat, i: nat, ghost hi: nat, ghost s: set<nat>)
      returns (none: bool, found: nat)
    requires a.Shaped() && b.Shaped() && a.base <= start && b.base <= start && start < hi
             && start / 64 + i <= (hi - 1) / 64
    requires hi <= a.base + a.nr && hi <= b.base + b.nr && s == a.Set() * b.Set()
             && NoneIn(s, start, 64 * (start / 64 + i))
    ensures Sighted(s, start, start / 64 + i, hi, none, found)
  {
    var u, v := a.bits[start / 64 + i - a.base / 64], b.bits[start / 64 + i - b.base / 64];
    ghost var ones := Cut(Ones(u) * Ones(v), i, start);
    SeenInBoth(a, b, start, i, hi, s, ones);
    none, found := FirstOfBoth(u, v, start, i, hi, s, ones);
  }

  lemma SeenInBoth(a: Cmask, b: Cmask, start: nat, i: nat, hi: nat, s: set<nat>, ones: Word)
    requires a.Shaped() && b.Shaped() && a.base <= start && b.base <= start && start < hi
             && start / 64 + i <= (hi - 1) / 64
    requires hi <= a.base + a.nr && hi <= b.base + b.nr && s == a.Set() * b.Set()
             && NoneIn(s, start, 64 * (start / 64 + i))
    requires ones == Cut(Ones(a.bits[start / 64 + i - a.base / 64]) * Ones(b.bits[start / 64 + i - b.base / 64]), i,
             start)
    ensures Looked(s, start, start / 64 + i, hi, ones)
  {
    OnesFit(a.bits[start / 64 + i - a.base / 64]);
    LookedAtBoth(a.base, a.nr, a.Words(), b.base, b.nr, b.Words(), start, i, hi, s, ones);
  }

  method NextAndSetFrom(a: Cmask, b: Cmask, start: nat, hi: nat) returns (r: nat)
    requires a.Shaped() && b.Shaped() && a.base <= start && b.base <= start && start < hi
    requires hi <= a.base + a.nr && hi <= b.base + b.nr && (hi == a.base + a.nr || hi == b.base + b.nr)
    ensures IsNext(a.Set() * b.Set(), start, a.base + a.nr, r)
  {
    var aEnd, lastWi := a.base + a.nr, (hi - 1) / 64;
    ghost var s := a.Set() * b.Set();
    r := aEnd;
    for i := 0 to MAX_WORDS
      invariant NoneIn(s, start, 64 * (start / 64 + i))
    {
      var wi := start / 64 + i;
      if wi > lastWi { break; }
      var none, found := WordOfBoth(a, b, start, i, hi, s);
      if none { continue; }
      if found >= hi { break; }
      return found;
    }
    assert NoneIn(s, start, hi);
    NoneShared(a, b, start, hi);
  }

  // ----- subset and intersection -----

  /** `cmask_intersects`: on the window that the ranges share. */
  method Intersects(a: Cmask, b: Cmask) returns (r: bool)
    requires a.Shaped() && b.Shaped()
    ensures r <==> a.Set() * b.Set() != {}
  {
    var lo := if a.base > b.base then a.base else b.base;
    var hi := if a.base + a.nr < b.base + b.nr then a.base + a.nr else b.base + b.nr;
    ghost var s := a.Set() * b.Set();
    assert forall c :: c in s ==> lo <= c < hi;
    if lo >= hi { return false; }
    for i := 0 to MAX_WORDS
      invariant forall c :: c in s ==> lo / 64 + i <= c / 64
    {
      var w := lo / 64 + i;
      if w > (hi - 1) / 64 { break; }
      r := WordsMeet(a, b, lo, hi, w, s);
      if r { return true; }
    }
    r := false;
  }

  /** Word `w` of both masks, under the loop's mask: a one in both is a cid in both, and the other way round. */
  method WordsMeet(a: Cmask, b: Cmask, lo: nat, hi: nat, w: nat, ghost s: set<nat>) returns (r: bool)
    requires a.Shaped() && b.Shaped() && a.base <= lo < hi <= a.base + a.nr && b.base <= lo && hi <= b.base + b.nr
    requires lo / 64 <= w <= (hi - 1) / 64 && s == a.Set() * b.Set() && forall c :: c in s ==> lo <= c < hi
    ensures if r then s != {} else forall c :: c in s ==> c / 64 != w
  {
    var u, v := a.bits[w - a.base / 64], b.bits[w - b.base / 64];
    MeetInWord(a.base, a.nr, a.Words(), b.base, b.nr, b.Words(), lo, hi, w,
               (Ones(u) * LoopMask(w, lo, hi)) * (Ones(v) * LoopMask(w, lo, hi)));
    var mask := RangeMask(w, lo, hi);
    var av := AndU64(u, mask);
    var bv := AndU64(v, mask);
    var both := AndU64(av, bv);
    Bits.OnesZero(both);
    r := both != 0;
  }

  lemma MeetInWord(base: nat, nr: nat, words: seq<Word>, base': nat, nr': nat, words': seq<Word>, lo: nat, hi: nat,
                   w: nat, both: Word)
    requires Covers(base, nr, words) && Covers(base', nr', words')
    requires base <= lo < hi <= base + nr && base' <= lo && hi <= base' + nr' && lo / 64 <= w <= (hi - 1) / 64
    requires both == (words[w - base / 64] * LoopMask(w, lo, hi)) * (words'[w - base' / 64] * LoopMask(w, lo, hi))
    requires forall c :: c in Members(base, nr, words) * Members(base', nr', words') ==> lo <= c < hi
    ensures var s := Members(base, nr, words) * Members(base', nr', words');
            (both != {} ==> s != {}) && (both == {} ==> forall c :: c in s ==> c / 64 != w)
  {
    LoopMaskIsRange(w, lo, hi);
    if both != {} {
      var i :| i in both;
      OneInBoth(base, nr, words, base', nr', words', lo, hi, w, i);
    }
    forall c | c in Members(base, nr, words) * Members(base', nr', words') && c / 64 == w ensures c % 64 in both {
      CidInBoth(base, nr, words, base', nr', words', lo, hi, c);
    }
  }

  lemma OneInBoth(base: nat, nr: nat, words: seq<Word>, base': nat, nr': nat, words': seq<Word>, lo: nat, hi: nat,
                  w: nat, i: nat)
    requires Covers(base, nr, words) && Covers(base', nr', words')
    requires base <= lo < hi <= base + nr && base' <= lo && hi <= base' + nr'
    requires lo / 64 <= w <= (hi - 1) / 64 && i in RangeWord(w, lo, hi) && i in words[w - base / 64]
             && i in words'[w - base' / 64]
    ensures 64 * w + i in Members(base, nr, words) * Members(base', nr', words')
  {
    var c := 64 * w + i;
    assert CidWithin(w, i, lo, hi);
    assert c / 64 == w && c % 64 == i;
    MemberWord(base, nr, words, c);
    MemberWord(base', nr', words', c);
  }

  lemma CidInBoth(base: nat, nr: nat, words: seq<Word>, base': nat, nr': nat, words': seq<Word>, lo: nat, hi: nat,
                  c: nat)
    requires Covers(base, nr, words) && Covers(base', nr', words')
    requires c in Members(base, nr, words) * Members(base', nr', words') && lo <= c < hi
    ensures 0 <= c / 64 - base / 64 < |words| && 0 <= c / 64 - base' / 64 < |words'|
    ensures c % 64 in words[c / 64 - base / 64] && c % 64 in words'[c / 64 - base' / 64]
    ensures c % 64 in RangeWord(c / 64, lo, hi)
  {
    MemberWord(base, nr, words, c);
    MemberWord(base', nr', words', c);
    InRangeWord(c, lo, hi);
  }

  /** Word `w` of the first mask within that of the second: so are the cids it holds, as far as they are in range. */
  lemma WordHolds(base: nat, nr: nat, words: seq<Word>, base': nat, nr': nat, words': seq<Word>, w: nat)
    requires Covers(base, nr, words) && Covers(base', nr', words')
    requires base / 64 <= w < base / 64 + NrWords(base, nr) && base' / 64 <= w < base' / 64 + NrWords(base', nr')
    requires words[w - base / 64] <= words'[w - base' / 64]
    ensures forall c :: c in Members(base, nr, words) && c / 64 == w && base' <= c < base' + nr' ==>
            c in Members(base', nr', words')
  {
    forall c | c in Members(base, nr, words) && c / 64 == w && base' <= c < base' + nr'
        ensures c in Members(base', nr', words') {
      MemberWord(base, nr, words, c);
      MemberWord(base', nr', words', c);
    }
  }

  /** A one of the first word that the second lacks is a cid that the second mask lacks. */
  lemma WordMisses(base: nat, nr: nat, words: seq<Word>, base': nat, nr': nat, words': seq<Word>, w: nat, i: nat)
    requires Covers(base, nr, words) && Covers(base', nr', words') && Padded(base, nr, words)
    requires base / 64 <= w < base / 64 + NrWords(base, nr) && base' / 64 <= w < base' / 64 + NrWords(base', nr')
    requires i in words[w - base / 64] && i !in words'[w - base' / 64]
    ensures 64 * w + i in Members(base, nr, words) && 64 * w + i !in Members(base', nr', words')
  {
    OnesAreMembers(base, nr, words, w - base / 64, i);
    var c := 64 * w + i;
    assert c / 64 == w && c % 64 == i;
    if base' <= c < base' + nr' { MemberWord(base', nr', words', c); }
  }

  /** `a->bits[..] & ~b->bits[..]` is zero. */
  method WordWithinWord(a: Cmask, b: Cmask, w: nat) returns (r: bool)
    requires a.Valid() && b.Shaped() && a.base / 64 <= w < a.base / 64 + NrWords(a.base, a.nr)
    requires b.base / 64 <= w < b.base / 64 + NrWords(b.base, b.nr)
    ensures r ==> forall c :: c in a.Set() && c / 64 == w && b.base <= c < b.base + b.nr ==> c in b.Set()
    ensures !r ==> !(a.Set() <= b.Set())
  {
    ghost var wa, wb := a.Words(), b.Words();
    var u, v := a.bits[w - a.base / 64], b.bits[w - b.base / 64];
    if Ones(u) <= Ones(v) {
      WordHolds(a.base, a.nr, wa, b.base, b.nr, wb, w);
    } else {
      ghost var i :| i in Ones(u) && i !in Ones(v);
      WordMisses(a.base, a.nr, wa, b.base, b.nr, wb, w, i);
    }
    r := Within64(u, v);
  }

  method Within64(u: U64, v: U64) returns (r: bool)
    ensures r <==> Ones(u) <= Ones(v)
  {
    var rest := AndNotU64(u, v);
    Bits.OnesZero(rest);
    r := rest == 0;
    forall i | i in Ones(u) && r ensures i in Ones(v) { assert i !in Ones(rest); }
  }

  /** `cmask_subset`: the ranges need not nest, and a cid of the first outside the second's range is a miss. */
  method Subset(a: Cmask, b: Cmask) returns (r: bool)
    requires a.Valid() && b.Shaped()
    ensures r <==> a.Set() <= b.Set()
  {
    r := StaysInRange(a, b);
    if !r { return; }
    var aEnd, bEnd := a.base + a.nr, b.base + b.nr;
    var lo := if a.base > b.base then a.base else b.base;
    var hi := if aEnd < bEnd then aEnd else bEnd;
    if lo >= hi { return true; }
    for i := 0 to MAX_WORDS
      invariant forall c :: c in a.Set() && c / 64 < lo / 64 + i ==> c in b.Set()
    {
      var w := lo / 64 + i;
      if w > (hi - 1) / 64 { break; }
      r := WordWithinWord(a, b, w);
      if !r { return; }
    }
    r := true;
  }

  /** The two searches of `cmask_subset`: every cid of the first mask is in the second's range. */
  method StaysInRange(a: Cmask, b: Cmask) returns (r: bool)
    requires a.Shaped() && b.Shaped()
    ensures r <==> a.Set() <= Range(b.base, b.base + b.nr)
  {
    var aEnd, bEnd := a.base + a.nr, b.base + b.nr;
    if a.base < b.base {
      var below := NextSet(a, a.base);
      if below < (if b.base < aEnd then b.base else aEnd) { return false; }
    }
    if aEnd > bEnd {
      var above := NextSet(a, if a.base > bEnd then a.base else bEnd);
      if above < aEnd { return false; }
    }
    r := true;
  }
}

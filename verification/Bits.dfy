/** 64-bit words as the sets of the positions of their ones: the machine's operations on words are the set operations,
    and the table form of `ctzll` is the minimum. `Pos` is a position as a shift count, so that facts about words are
    proved on bit-vectors alone. */
module Bits {
  type U64 = bv64

  function Pos(i: nat): (k: U64)
    ensures (i < 1 ==> k < 1) && (i < 2 ==> k < 2) && (i < 4 ==> k < 4) && (i < 8 ==> k < 8)
    ensures (i < 16 ==> k < 16) && (i < 32 ==> k < 32) && (i < 64 ==> k < 64)
  {
    if i == 0 then 0 else 2 * Pos(i / 2) + (if i % 2 == 1 then 1 else 0)
  }

  predicate At(w: U64, k: U64)
    requires k < 64
  {
    (w >> k) & 1 == 1
  }

  /** The positions of the ones of a word. */
  function Ones(w: U64): set<nat> { set i | 0 <= i < 64 && At(w, Pos(i)) }

  predicate Between(l: nat, i: nat, h: int) { l <= i <= h }

  function Span(l: nat, h: int): set<nat> { set i: nat | i <= h && Between(l, i, h) }

  // ----- positions -----

  lemma {:induction false} PosOrder(i: nat, j: nat)
    requires i < 64 && j < 64
    ensures Pos(i) <= Pos(j) <==> i <= j
    decreases i + j
  {
    if i > 0 || j > 0 {
      PosOrder(i / 2, j / 2);
      PosOrder(j / 2, i / 2);
    }
  }

  lemma {:induction false} PosNext(i: nat)
    requires i < 63
    ensures Pos(i + 1) == Pos(i) + 1
  {
    if i % 2 == 1 {
      PosNext(i / 2);
      assert (i + 1) / 2 == i / 2 + 1 && (i + 1) % 2 == 0;
    } else {
      assert (i + 1) / 2 == i / 2 && (i + 1) % 2 == 1;
    }
  }

  // ----- the operations -----

  lemma AtAnd(a: U64, b: U64, k: U64)
    requires k < 64
    ensures At(a & b, k) <==> At(a, k) && At(b, k)
  {
  }

  lemma AtOr(a: U64, b: U64, k: U64)
    requires k < 64
    ensures At(a | b, k) <==> At(a, k) || At(b, k)
  {
  }

  lemma AtNot(a: U64, k: U64)
    requires k < 64
    ensures At(!a, k) <==> !At(a, k)
  {
  }

  lemma AtFrom(l: U64, k: U64)
    requires l < 64 && k < 64
    ensures At(0xFFFF_FFFF_FFFF_FFFF << l, k) <==> l <= k
  {
  }

  lemma AtUpTo(h: U64, k: U64)
    requires h < 64 && k < 64
    ensures At(0xFFFF_FFFF_FFFF_FFFF >> (63 - h), k) <==> k <= h
  {
  }

  lemma AtSingle(c: U64, k: U64)
    requires c < 64 && k < 64
    ensures At(1 << c, k) <==> k == c
  {
  }

  lemma OnesAnd(a: U64, b: U64)
    ensures Ones(a & b) == Ones(a) * Ones(b)
  {
    forall i | 0 <= i < 64 ensures i in Ones(a & b) <==> i in Ones(a) && i in Ones(b) { AtAnd(a, b, Pos(i)); }
  }

  lemma OnesOr(a: U64, b: U64)
    ensures Ones(a | b) == Ones(a) + Ones(b)
  {
    forall i | 0 <= i < 64 ensures i in Ones(a | b) <==> i in Ones(a) || i in Ones(b) { AtOr(a, b, Pos(i)); }
  }

  lemma OnesNot(a: U64)
    ensures Ones(!a) == Span(0, 63) - Ones(a)
  {
    forall i | 0 <= i < 64 ensures i in Ones(!a) <==> i !in Ones(a) { AtNot(a, Pos(i)); }
  }

  /** BIT_U64. */
  lemma OnesSingle(c: nat)
    requires c < 64
    ensures Ones(1 << Pos(c)) == {c}
  {
    var w := 1 << Pos(c);
    forall i | 0 <= i < 64 ensures i in Ones(w) <==> i == c {
      AtSingle(Pos(c), Pos(i));
      PosOrder(c, i);
      PosOrder(i, c);
    }
  }

  /** The lower factor of GENMASK_U64; with the upper one and `OnesAnd`, the ones of a mask run from `l` to `h`. */
  lemma OnesFrom(l: nat)
    requires l < 64
    ensures Ones(0xFFFF_FFFF_FFFF_FFFF << Pos(l)) == Span(l, 63)
  {
    var w := 0xFFFF_FFFF_FFFF_FFFF << Pos(l);
    forall i | 0 <= i < 64 ensures i in Ones(w) <==> l <= i {
      AtFrom(Pos(l), Pos(i));
      PosOrder(l, i);
    }
  }

  lemma OnesUpTo(h: nat)
    requires h < 64
    ensures Ones(0xFFFF_FFFF_FFFF_FFFF >> (63 - Pos(h))) == Span(0, h)
  {
    var w := 0xFFFF_FFFF_FFFF_FFFF >> (63 - Pos(h));
    forall i | 0 <= i < 64 ensures i in Ones(w) <==> i <= h {
      AtUpTo(Pos(h), Pos(i));
      PosOrder(i, h);
    }
  }

  /** Ones from `l` on and ones up to `h`, in one word. */
  lemma OnesOfBoth(x: U64, y: U64, l: nat, h: nat)
    requires Ones(x) == Span(l, 63) && Ones(y) == Span(0, h) && h < 64
    ensures Ones(x & y) == Span(l, h)
  {
    OnesAnd(x, y);
    assert Span(l, 63) * Span(0, h) == Span(l, h);
  }

  /** GENMASK_U64: the ones from bit `l` up to bit `h`. */
  function Genmask(h: nat, l: nat): (r: U64)
    requires h < 64 && l < 64
    ensures Ones(r) == Span(l, h)
  {
    var x := 0xFFFF_FFFF_FFFF_FFFF << Pos(l);
    var y := 0xFFFF_FFFF_FFFF_FFFF >> (63 - Pos(h));
    GenmaskFactors(h, l, x, y);
    x & y
  }

  lemma GenmaskFactors(h: nat, l: nat, x: U64, y: U64)
    requires h < 64 && l < 64 && x == 0xFFFF_FFFF_FFFF_FFFF << Pos(l) && y == 0xFFFF_FFFF_FFFF_FFFF >> (63 - Pos(h))
    ensures Ones(x & y) == Span(l, h)
  {
    OnesFrom(l);
    OnesUpTo(h);
    OnesOfBoth(x, y, l, h);
  }

  /** `(1 << n) - 1`: the ones below bit `n`. */
  lemma OnesBelow(n: nat)
    requires n < 64
    ensures Ones((1 << Pos(n)) - 1) == Span(0, n - 1)
  {
    var w := (1 << Pos(n)) - 1;
    forall i | 0 <= i < 64 ensures i in Ones(w) <==> i < n {
      AtBelow(Pos(n), Pos(i));
      PosOrder(n, i);
    }
  }

  lemma AtBelow(n: U64, k: U64)
    requires n < 64 && k < 64
    ensures At((1 << n) - 1, k) <==> k < n
  {
    BelowIsNotFrom(n);
    NotFrom(0xFFFF_FFFF_FFFF_FFFF << n, n, k);
  }

  lemma BelowIsNotFrom(n: U64)
    requires n < 64
    ensures (1 as U64 << n) - 1 == !(0xFFFF_FFFF_FFFF_FFFF as U64 << n)
  {
  }

  lemma NotFrom(x: U64, n: U64, k: U64)
    requires n < 64 && k < 64 && x == 0xFFFF_FFFF_FFFF_FFFF << n
    ensures At(!x, k) <==> k < n
  {
    AtFrom(n, k);
    AtNot(x, k);
  }

  lemma OnesAndNot(d: U64, m: U64)
    ensures Ones(d & !m) == Ones(d) - Ones(m)
  {
    OnesNot(m);
    OnesAnd(d, !m);
  }

  /** Taking the bits of `m` from `r` and the others from `d`. */
  lemma OnesMerge(d: U64, r: U64, m: U64)
    ensures Ones((d & !m) | (r & m)) == (Ones(d) - Ones(m)) + Ones(r) * Ones(m)
  {
    OnesAnd(r, m);
    OnesMergeInto(d, r & m, m);
  }

  lemma OnesMergeInto(d: U64, x: U64, m: U64)
    ensures Ones((d & !m) | x) == (Ones(d) - Ones(m)) + Ones(x)
  {
    OnesAndNot(d, m);
    OnesOr(d & !m, x);
  }

  lemma OnesAll()
    ensures Ones(0xFFFF_FFFF_FFFF_FFFF) == Span(0, 63)
  {
    assert (0xFFFF_FFFF_FFFF_FFFF as U64) << Pos(0) == 0xFFFF_FFFF_FFFF_FFFF;
    OnesFrom(0);
  }

  // ----- zero, equality, the lowest one -----

  /** No one below position `k`. */
  predicate NoneBelow(w: U64, k: U64)
    requires k < 64
  {
    w & ((1 << k) - 1) == 0
  }

  lemma NoneBelowNext(w: U64, k: U64)
    requires k < 63 && NoneBelow(w, k) && !At(w, k)
    ensures NoneBelow(w, k + 1)
  {
  }

  lemma NoneAtAll(w: U64)
    requires NoneBelow(w, 63) && !At(w, 63)
    ensures w == 0
  {
  }

  lemma PosAt63()
    ensures Pos(63) == 63
  {
    assert Pos(1) == 1 && Pos(3) == 3 && Pos(7) == 7 && Pos(15) == 15 && Pos(31) == 31;
  }

  predicate IsLowest(w: U64, c: int) { c in Ones(w) && forall j :: j in Ones(w) ==> c <= j }

  lemma {:induction false} FindLowest(w: U64, i: nat) returns (c: nat)
    requires i < 64 && NoneBelow(w, Pos(i)) && forall j :: j in Ones(w) ==> i <= j
    ensures w != 0 ==> c < 64 && NoneBelow(w, Pos(c)) && IsLowest(w, c)
    decreases 64 - i
  {
    if i in Ones(w) {
      c := i;
    } else if i == 63 {
      PosAt63();
      NoneAtAll(w);
      c := 0;
    } else {
      LowestGoesOn(w, i);
      c := FindLowest(w, i + 1);
    }
  }

  lemma LowestGoesOn(w: U64, i: nat)
    requires i < 63 && NoneBelow(w, Pos(i)) && !At(w, Pos(i))
    ensures NoneBelow(w, Pos(i + 1))
  {
    PosNext(i);
    PosOrder(62, i);
    PosAt63();
    PosNext(62);
    NoneBelowNext(w, Pos(i));
  }

  /** Zero is the word without ones. */
  lemma OnesZero(w: U64)
    ensures w == 0 <==> Ones(w) == {}
  {
    if w == 0 {
      forall i | 0 <= i < 64 ensures i !in Ones(w) { AtZero(Pos(i)); }
    } else {
      BelowFirst(w);
      var c := FindLowest(w, 0);
    }
  }

  lemma AtZero(k: U64)
    requires k < 64
    ensures !At(0, k)
  {
  }

  lemma BelowFirst(w: U64)
    ensures NoneBelow(w, Pos(0))
  {
  }

  /** Words with the same ones are the same word. */
  lemma OnesInjective(a: U64, b: U64)
    ensures a == b <==> Ones(a) == Ones(b)
  {
    if Ones(a) == Ones(b) {
      OnesDiffer(a, b);
      OnesDiffer(b, a);
      NoDifference(a, b);
    }
  }

  lemma OnesDiffer(a: U64, b: U64)
    requires Ones(a) == Ones(b)
    ensures a & !b == 0
  {
    OnesNot(b);
    NothingShared(a, !b);
  }

  lemma NothingShared(a: U64, b: U64)
    requires Ones(a) !! Ones(b)
    ensures a & b == 0
  {
    OnesAnd(a, b);
    OnesZero(a & b);
  }

  lemma NoDifference(a: U64, b: U64)
    requires a & !b == 0 && b & !a == 0
    ensures a == b
  {
  }

  // ----- the table form of ctzll -----

  /** The table; -1 outside of it. */
  function Lookup(i: int): int
  {
    match i
    case 0 => 0 case 1 => 1 case 2 => 48 case 3 => 2 case 4 => 57 case 5 => 49 case 6 => 28 case 7 => 3
    case 8 => 61 case 9 => 58 case 10 => 50 case 11 => 42 case 12 => 38 case 13 => 29 case 14 => 17 case 15 => 4
    case 16 => 62 case 17 => 55 case 18 => 59 case 19 => 36 case 20 => 53 case 21 => 51 case 22 => 43 case 23 => 22
    case 24 => 45 case 25 => 39 case 26 => 33 case 27 => 30 case 28 => 24 case 29 => 18 case 30 => 12 case 31 => 5
    case 32 => 63 case 33 => 47 case 34 => 56 case 35 => 27 case 36 => 60 case 37 => 41 case 38 => 37 case 39 => 16
    case 40 => 54 case 41 => 35 case 42 => 52 case 43 => 21 case 44 => 44 case 45 => 32 case 46 => 23 case 47 => 11
    case 48 => 46 case 49 => 26 case 50 => 40 case 51 => 15 case 52 => 34 case 53 => 20 case 54 => 31 case 55 => 10
    case 56 => 25 case 57 => 14 case 58 => 19 case 59 => 9 case 60 => 13 case 61 => 8 case 62 => 7 case 63 => 6
    case _ => -1
  }

  /** The top six bits of the product with the De Bruijn constant. */
  function Index(lowest: U64): int { (lowest * 0x03f7_9d71_b4cb_0a89 >> 58) as int }

  function Ctz(v: U64): int { if v == 0 then -1 else Lookup(Index(v & -v)) }

  /** `v & -v` keeps the lowest one. */
  lemma Isolate(v: U64, k: U64)
    requires k < 64 && At(v, k) && NoneBelow(v, k)
    ensures v != 0 && v & -v == 1 << k
  {
  }

  /** `f` sends eight successive single bits, from `bit` on, to the positions from `n` on. */
  predicate SendsRow(f: U64 -> int, bit: U64, n: int)
  {
    && f(bit) == n && f(bit << 1) == n + 1 && f(bit << 2) == n + 2 && f(bit << 3) == n + 3
    && f(bit << 4) == n + 4 && f(bit << 5) == n + 5 && f(bit << 6) == n + 6 && f(bit << 7) == n + 7
  }

  function Table(): U64 -> int { x => Lookup(Index(x)) }

  lemma TableRow0()
    ensures SendsRow(Table(), 0x1, 0)
  {
  }

  lemma TableRow1()
    ensures SendsRow(Table(), 0x100, 8)
  {
  }

  lemma TableRow2()
    ensures SendsRow(Table(), 0x10000, 16)
  {
  }

  lemma TableRow3()
    ensures SendsRow(Table(), 0x1000000, 24)
  {
  }

  lemma TableRow4()
    ensures SendsRow(Table(), 0x100000000, 32)
  {
  }

  lemma TableRow5()
    ensures SendsRow(Table(), 0x10000000000, 40)
  {
  }

  lemma TableRow6()
    ensures SendsRow(Table(), 0x1000000000000, 48)
  {
  }

  lemma TableRow7()
    ensures SendsRow(Table(), 0x100000000000000, 56)
  {
  }

  /** `f` sends `m` successive single bits, from `bit` on, to the positions from `n` on. */
  predicate Sends(f: U64 -> int, bit: U64, n: int, m: nat)
    decreases m
  {
    m == 0 || (f(bit) == n && Sends(f, bit << 1, n + 1, m - 1))
  }

  lemma RowFirst(f: U64 -> int, bit: U64, n: int, m: nat)
    requires SendsRow(f, bit, n) && Sends(f, bit << 8, n + 8, m)
    ensures Sends(f, bit, n, m + 8)
  {
    assert Sends(f, bit << 7, n + 7, m + 1);
    assert Sends(f, bit << 6, n + 6, m + 2);
    assert Sends(f, bit << 5, n + 5, m + 3);
    assert Sends(f, bit << 4, n + 4, m + 4);
    assert Sends(f, bit << 3, n + 3, m + 5);
    assert Sends(f, bit << 2, n + 2, m + 6);
    assert Sends(f, bit << 1, n + 1, m + 7);
  }

  /** The multiplication sends every single bit to a place of its own, where the table holds its position. */
  lemma TableSends()
    ensures Sends(Table(), 1, 0, 64)
  {
    TableRow7(); RowFirst(Table(), 0x100_0000_0000_0000, 56, 0);
    TableRow6(); RowFirst(Table(), 0x1_0000_0000_0000, 48, 8);
    TableRow5(); RowFirst(Table(), 0x100_0000_0000, 40, 16);
    TableRow4(); RowFirst(Table(), 0x1_0000_0000, 32, 24);
    TableRow3(); RowFirst(Table(), 0x100_0000, 24, 32);
    TableRow2(); RowFirst(Table(), 0x1_0000, 16, 40);
    TableRow1(); RowFirst(Table(), 0x100, 8, 48);
    TableRow0(); RowFirst(Table(), 0x1, 0, 56);
  }

  lemma OneMore(k: U64)
    requires k < 63
    ensures (1 as U64 << k) << 1 == 1 as U64 << (k + 1)
  {
  }

  lemma {:induction false} SentAt(f: U64 -> int, n: nat, c: nat)
    requires n <= c < 64 && Sends(f, 1 << Pos(n), n, 64 - n)
    ensures f(1 << Pos(c)) == c
    decreases c - n
  {
    if n < c {
      PosNext(n);
      PosOrder(63, n);
      PosAt63();
      OneMore(Pos(n));
      SentAt(f, n + 1, c);
    }
  }

  lemma LowestSent(f: U64 -> int, v: U64, c: nat)
    requires Sends(f, 1, 0, 64) && c < 64 && At(v, Pos(c)) && NoneBelow(v, Pos(c))
    ensures f(v & -v) == c
  {
    Isolate(v, Pos(c));
    SentAt(f, 0, c);
  }

  /** The table form finds the lowest one of every word but zero, for which it says -1. */
  lemma CtzIsLowest(v: U64)
    ensures if v == 0 then Ctz(v) == -1 else IsLowest(v, Ctz(v))
  {
    if v != 0 {
      BelowFirst(v);
      var c := FindLowest(v, 0);
      TableSends();
      LowestSent(Table(), v, c);
    }
  }
}

/** Searches that wrap around, and the rotor that spreads successive picks over a mask. */
module CmaskDistribute {
  import opened CmaskWords
  import opened CmaskImpl
  import opened CmaskScan

  function From(s: set<nat>, start: nat): set<nat> { set c | c in s && start <= c }

  /** The first element from `start` on, or else the first of all. */
  function CyclicNext(s: set<nat>, start: nat): (r: nat)
    requires s != {}
    ensures r in s
  {
    if From(s, start) != {} then Lowest(From(s, start)) else Lowest(s)
  }

  lemma NextIsFirst(s: set<nat>, start: nat, end: nat, r: nat)
    requires IsNext(s, start, end, r) && forall c :: c in s ==> c < end
    ensures From(s, start) == {} <==> r == end
    ensures From(s, start) != {} ==> r == Lowest(From(s, start))
  {
    if r != end { assert r in From(s, start); }
  }

  /** The first of the two searches is enough ... */
  lemma FoundAhead(s: set<nat>, base: nat, start: nat, end: nat, found: nat)
    requires IsNext(s, start, end, found) && (found < end || start <= base) && forall c :: c in s ==> base <= c < end
    ensures found == if s == {} then end else CyclicNext(s, start)
  {
    NextIsFirst(s, start, end, found);
    if start <= base { assert From(s, start) == s; }
  }

  /** ... or the second one, from the base, finds what is left. */
  lemma FoundAgain(s: set<nat>, base: nat, start: nat, end: nat, again: nat)
    requires IsNext(s, start, end, end) && IsNext(s, base, end, again) && forall c :: c in s ==> base <= c < end
    ensures (if again < start then again else end) == if s == {} then end else CyclicNext(s, start)
  {
    NextIsFirst(s, start, end, end);
    NextIsFirst(s, base, end, again);
    assert From(s, base) == s;
  }

  method NextSetWrap(m: Cmask, start: nat) returns (r: nat)
    requires m.Shaped()
    ensures r == if m.Set() == {} then m.base + m.nr else CyclicNext(m.Set(), start)
  {
    var end := m.base + m.nr;
    var found := NextSet(m, start);
    if found < end || start <= m.base {
      FoundAhead(m.Set(), m.base, start, end, found);
      return found;
    }
    var again := NextSet(m, m.base);
    FoundAgain(m.Set(), m.base, start, end, again);
    r := if again < start then again else end;
  }

  method NextAndSetWrap(a: Cmask, b: Cmask, start: nat) returns (r: nat)
    requires a.Shaped() && b.Shaped()
    ensures r == if a.Set() * b.Set() == {} then a.base + a.nr else CyclicNext(a.Set() * b.Set(), start)
  {
    var end := a.base + a.nr;
    ghost var s := a.Set() * b.Set();
    var found := NextAndSet(a, b, start);
    if found < end || start <= a.base {
      FoundAhead(s, a.base, start, end, found);
      return found;
    }
    var again := NextAndSet(a, b, a.base);
    FoundAgain(s, a.base, start, end, again);
    r := if again < start then again else end;
  }

  /** The per-cpu rotor: the last cid picked. */
  class Rotor {
    var last: nat

    ghost predicate Valid()
      reads this
    {
      last < U32_MAX
    }

    constructor ()
      ensures Valid() && last == 0
    {
      last := 0;
    }

    method AnyDistribute(m: Cmask) returns (pick: nat)
      requires Valid() && m.Shaped()
      modifies this
      ensures Valid()
      ensures m.Set() == {} ==> pick == m.base + m.nr && last == old(last)
      ensures m.Set() != {} ==> pick == CyclicNext(m.Set(), old(last) + 1) && last == pick
    {
      assert last + 1 <= U32_MAX;                // the sum does not wrap
      pick := NextSetWrap(m, last + 1);
      if pick < m.base + m.nr { last := pick; }
    }

    method AnyAndDistribute(a: Cmask, b: Cmask) returns (pick: nat)
      requires Valid() && a.Shaped() && b.Shaped()
      modifies this
      ensures Valid()
      ensures a.Set() * b.Set() == {} ==> pick == a.base + a.nr && last == old(last)
      ensures a.Set() * b.Set() != {} ==> pick == CyclicNext(a.Set() * b.Set(), old(last) + 1) && last == pick
    {
      assert last + 1 <= U32_MAX;
      pick := NextAndSetWrap(a, b, last + 1);
      if pick < a.base + a.nr { last := pick; }
    }
  }

  // ----- successive picks -----

  /** `k` successive picks on an unchanged mask. */
  function Picks(s: set<nat>, last: nat, k: nat): (ps: seq<nat>)
    requires s != {}
    ensures |ps| == k && forall j :: 0 <= j < k ==> ps[j] in s
    decreases k
  {
    if k == 0 then [] else
      var p := CyclicNext(s, last + 1);
      [p] + Picks(s, p, k - 1)
  }

  function Below(s: set<nat>, c: nat): set<nat> { set x | x in s && x < c }

  /** How many elements come before `c`. */
  function Rank(s: set<nat>, c: nat): nat { |Below(s, c)| }

  lemma {:induction false} SubsetSize(a: set<nat>, b: set<nat>)
    requires a <= b
    ensures |a| <= |b| && (|a| == |b| ==> a == b)
    decreases |a|
  {
    if a != {} {
      var x :| x in a;
      SubsetSize(a - {x}, b - {x});
      if |a| == |b| { assert a == (a - {x}) + {x} && b == (b - {x}) + {x}; }
    }
  }

  /** The rank of the pick after `last`: the next one, or 0 after the last one. */
  function Turn(s: set<nat>, last: nat): nat { if Rank(s, last + 1) == |s| then 0 else Rank(s, last + 1) }

  lemma PickRank(s: set<nat>, last: nat)
    requires s != {}
    ensures var p := CyclicNext(s, last + 1);
            Rank(s, p) == Turn(s, last) < |s| && Rank(s, p + 1) == Rank(s, p) + 1
  {
    var p := CyclicNext(s, last + 1);
    assert Below(s, p + 1) == Below(s, p) + {p};
    SubsetSize(Below(s, p + 1), s);
    var ahead := From(s, last + 1);
    forall x | x in s ensures x in Below(s, last + 1) || x in ahead {
    }
    if ahead != {} {
      forall x | x in s && x < p ensures x < last + 1 {
        assert x !in ahead;
      }
      assert Below(s, p) == Below(s, last + 1);
    } else {
      assert Below(s, last + 1) == s;
      assert Below(s, p) == {};
    }
  }

  /** Ranks of successive picks count up and wrap around. */
  lemma {:induction false} PickRanks(s: set<nat>, last: nat, k: nat, j: nat)
    requires s != {} && j < k && j < |s|
    ensures var t := Turn(s, last) + j;
            Rank(s, Picks(s, last, k)[j]) == if t < |s| then t else t - |s|
    decreases k
  {
    PickRank(s, last);
    if j > 0 {
      var p := CyclicNext(s, last + 1);
      PickRanks(s, p, k - 1, j - 1);
      PickRank(s, p);
    }
  }

  lemma PicksDiffer(s: set<nat>, last: nat, i: nat, j: nat)
    requires s != {} && i < j < |s|
    ensures Picks(s, last, |s|)[i] != Picks(s, last, |s|)[j]
  {
    PickRanks(s, last, |s|, i);
    PickRanks(s, last, |s|, j);
    PickRank(s, last);
  }

  function SetOf(ps: seq<nat>): set<nat> { set p | p in ps }

  /** On an unchanged mask of `k` cids, any `k` successive picks visit each of them exactly once. */
  lemma RoundRobin(s: set<nat>, last: nat)
    requires s != {}
    ensures forall i, j :: 0 <= i < j < |s| ==> Picks(s, last, |s|)[i] != Picks(s, last, |s|)[j]
    ensures SetOf(Picks(s, last, |s|)) == s
  {
    var ps := Picks(s, last, |s|);
    forall i, j | 0 <= i < j < |s| ensures ps[i] != ps[j] { PicksDiffer(s, last, i, j); }
    DistinctSize(ps);
    SubsetSize(SetOf(ps), s);
  }

  lemma {:induction false} DistinctSize(ps: seq<nat>)
    requires forall i, j :: 0 <= i < j < |ps| ==> ps[i] != ps[j]
    ensures |SetOf(ps)| == |ps|
  {
    if ps != [] {
      DistinctSize(ps[1..]);
      assert ps[0] !in ps[1..];
      assert SetOf(ps) == SetOf(ps[1..]) + {ps[0]};
    }
  }

  ghost predicate IsSet(m: Cmask, s: set<nat>)
    reads m, m.bits
  {
    m.Shaped() && m.Set() == s
  }

  /** `k` successive picks. */
  method Several(rotor: Rotor, m: Cmask, k: nat, ghost s: set<nat>) returns (picks: seq<nat>)
    requires rotor.Valid() && IsSet(m, s) && s != {}
    modifies rotor
    ensures rotor.Valid() && picks == Picks(s, old(rotor.last), k)
  {
    picks := [];
    ghost var all := Picks(s, rotor.last, k);
    for i := 0 to k
      invariant rotor.Valid() && IsSet(m, s) && StillToPick(s, picks, rotor.last, k - i, all)
    {
      ghost var last := rotor.last;
      var pick := PickFrom(rotor, m, s);
      PickedOne(s, picks, last, k - i, all, pick);
      picks := picks + [pick];
    }
  }

  /** `all` is what has been picked and what `k` more picks will pick. */
  ghost predicate StillToPick(s: set<nat>, picks: seq<nat>, last: nat, k: nat, all: seq<nat>)
  {
    s != {} && picks + Picks(s, last, k) == all
  }

  method PickFrom(rotor: Rotor, m: Cmask, ghost s: set<nat>) returns (pick: nat)
    requires rotor.Valid() && IsSet(m, s) && s != {}
    modifies rotor
    ensures rotor.Valid() && IsSet(m, s) && Picked(s, old(rotor.last), pick) && rotor.last == pick
  {
    pick := rotor.AnyDistribute(m);
  }

  predicate Picked(s: set<nat>, last: nat, pick: nat) { s != {} && pick == CyclicNext(s, last + 1) }

  lemma PickedOne(s: set<nat>, picks: seq<nat>, last: nat, k: nat, all: seq<nat>, p: nat)
    requires k > 0 && StillToPick(s, picks, last, k, all) && Picked(s, last, p)
    ensures StillToPick(s, picks + [p], p, k - 1, all)
  {
    assert picks + ([p] + Picks(s, p, k - 1)) == (picks + [p]) + Picks(s, p, k - 1);
  }

  /** One round of the rotor: as many picks as the mask has cids pick each of them once. */
  method Round(rotor: Rotor, m: Cmask) returns (picks: seq<nat>)
    requires rotor.Valid() && m.Valid()
    modifies rotor
    ensures rotor.Valid() && |picks| == |old(m.Set())| && SetOf(picks) == old(m.Set())
    ensures forall i, j :: 0 <= i < j < |picks| ==> picks[i] != picks[j]
  {
    ghost var s, start := m.Set(), rotor.last;
    var k := Weight(m);
    if k == 0 { return []; }
    RoundRobin(s, start);
    picks := Several(rotor, m, k, s);
  }
}

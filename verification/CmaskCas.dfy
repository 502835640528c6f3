/** The compare-and-swap loops on a shared word of a cmask: any number of threads set and clear bits of the same word,
    one access to memory at a time. */
module CmaskCas {
  import Bits
  import opened Words64

  /** Set or clear the bits of `mask`: `cmask_set`, `cmask_test_and_set`, `__cmask_word_or` and their clearing
      counterparts. */
  datatype Update = Update(set_: bool, mask: U64)

  datatype Thread =
    | Out                                    // not in an update
    | Reading(op: Update)
    | Swapping(op: Update, seen: U64)

  /** The shared word, and where every thread is. */
  datatype State = State(word: U64, at: imap<nat, Thread>)

  function Result(op: Update, w: U64): U64 { if op.set_ then w | op.mask else w & !op.mask }

  /** Bit by bit: an update writes its value to the bits of its mask and leaves the others. */
  lemma ResultBits(op: Update, w: U64, r: U64, i: nat)
    requires r == Result(op, w)
    ensures Has(r, i) <==> if Has(op.mask, i) then op.set_ else Has(w, i)
  {
    var m := op.mask;
    if op.set_ {
      OrBits(w, m, r, i);
    } else {
      AndNotBits(w, m, r, i);
    }
  }

  lemma OrBits(w: U64, m: U64, r: U64, i: nat)
    requires r == w | m
    ensures Has(r, i) <==> Has(w, i) || Has(m, i)
  {
    Bits.OnesOr(w, m);
  }

  lemma AndNotBits(w: U64, m: U64, r: U64, i: nat)
    requires r == w & !m
    ensures Has(r, i) <==> Has(w, i) && !Has(m, i)
  {
    Bits.OnesAndNot(w, m);
  }

  /** Bit `i` of a word is set. */
  predicate Has(w: U64, i: nat) { i in Ones(w) }

  /** `start` is the update that a thread outside begins. */
  ghost function Next(s: State, t: nat, start: Update): State
    requires t in s.at
  {
    match s.at[t]
    case Out => s.(at := s.at[t := Reading(start)])
    case Reading(op) =>
      if Result(op, s.word) == s.word then s.(at := s.at[t := Out])             // nothing to do
      else s.(at := s.at[t := Swapping(op, s.word)])
    case Swapping(op, seen) =>
      if s.word == seen then s.(word := Result(op, seen), at := s.at[t := Out])
      else s.(at := s.at[t := Reading(op)])                                      // lost the race: read again
  }

  datatype Move = Move(t: nat, start: Update)

  ghost predicate Follows(s: State, m: Move, s': State) { m.t in s.at && s' == Next(s, m.t, m.start) }

  ghost predicate IsRun(states: seq<State>, moves: seq<Move>)
  {
    && |states| == |moves| + 1 && (forall t: nat :: t in states[0].at)
    && forall k :: 0 <= k < |moves| ==> Follows(states[k], moves[k], states[k + 1])
  }

  /** Nobody is in an update. */
  ghost function Start(w: U64): (s: State)
    ensures IsRun([s], [])
  {
    State(w, imap t: nat {:trigger Move(t, Update(true, 0))} | true :: Out)
  }

  /** The step from `s` to `s'` completes update `op` of thread `t`: the call returns. */
  ghost predicate Completes(s: State, t: nat, s': State, op: Update)
  {
    t in s.at && t in s'.at && !s.at[t].Out? && s.at[t].op == op && s'.at[t] == Out
  }

  /** The step completes the update that the thread is in. */
  ghost predicate Returns(s: State, m: Move, s': State)
  {
    m.t in s.at && m.t in s'.at && !s.at[m.t].Out? && s'.at[m.t].Out?
  }

  /** An update takes effect in the one step that completes it, on the word as it is then, and at no other time. */
  lemma StepIsAtomic(s: State, m: Move, s': State)
    requires Follows(s, m, s')
    ensures if Returns(s, m, s') then s'.word == Result(s.at[m.t].op, s.word) else s'.word == s.word
  {
  }

  lemma StepOnBit(s: State, m: Move, s': State, i: nat)
    requires Follows(s, m, s')
    ensures Has(s'.word, i) <==>
            if Returns(s, m, s') && Has(s.at[m.t].op.mask, i) then s.at[m.t].op.set_ else Has(s.word, i)
  {
    StepIsAtomic(s, m, s');
    if Returns(s, m, s') { ResultBits(s.at[m.t].op, s.word, s'.word, i); }
  }

  /** Step `k` completes an update that touches bit `i`. */
  ghost predicate Touches(states: seq<State>, moves: seq<Move>, k: nat, i: nat)
    requires IsRun(states, moves) && k < |moves|
  {
    var t := moves[k].t;
    t in states[k].at && !states[k].at[t].Out? && Completes(states[k], t, states[k + 1], states[k].at[t].op)
    && Has(states[k].at[t].op.mask, i)
  }

  /** What the last completed update of bit `i` before state `k` left there; at first, what was there. */
  ghost function LastWritten(states: seq<State>, moves: seq<Move>, k: nat, i: nat): bool
    requires IsRun(states, moves) && k < |states|
  {
    if k == 0 then Has(states[0].word, i)
    else if Touches(states, moves, k - 1, i) then states[k - 1].at[moves[k - 1].t].op.set_
    else LastWritten(states, moves, k - 1, i)
  }

  /** In every interleaving every bit holds what the last completed update of that bit wrote: no completed update is
      lost to a concurrent update of another bit of the word, and an update that is still under way has had no effect.
      */
  lemma {:induction false} NoUpdateIsLost(states: seq<State>, moves: seq<Move>, k: nat, i: nat)
    requires IsRun(states, moves) && k < |states|
    ensures Has(states[k].word, i) <==> LastWritten(states, moves, k, i)
  {
    if k > 0 {
      NoUpdateIsLost(states, moves, k - 1, i);
      assert Follows(states[k - 1], moves[k - 1], states[k]);
      StepOnBit(states[k - 1], moves[k - 1], states[k], i);
    }
  }

  /** The update of `cmask_test_and_set`. */
  function SetOne(i: nat): Update
    requires i < 64
  {
    Update(true, 1 << Bits.Pos(i))
  }

  /** Step `k` completes a test-and-set of bit `i` that reports the bit as clear. */
  ghost predicate Wins(states: seq<State>, moves: seq<Move>, k: nat, i: nat)
    requires IsRun(states, moves) && k < |moves| && i < 64
  {
    Completes(states[k], moves[k].t, states[k + 1], SetOne(i)) && !Has(states[k].word, i)
  }

  /** Step `k` completes an update that clears bit `i`. */
  ghost predicate Clears(states: seq<State>, moves: seq<Move>, k: nat, i: nat)
    requires IsRun(states, moves) && k < |moves|
  {
    Touches(states, moves, k, i) && !states[k].at[moves[k].t].op.set_
  }

  lemma HasOne(i: nat)
    requires i < 64
    ensures Has(SetOne(i).mask, i)
  {
    Bits.OnesSingle(i);
  }

  lemma {:induction false} StaysSet(states: seq<State>, moves: seq<Move>, j: nat, k: nat, i: nat)
    requires IsRun(states, moves) && j <= k < |states| && Has(states[j].word, i)
    requires forall m :: j <= m < k ==> !Clears(states, moves, m, i)
    ensures Has(states[k].word, i)
    decreases k
  {
    if j < k {
      StaysSet(states, moves, j, k - 1, i);
      assert Follows(states[k - 1], moves[k - 1], states[k]);
      StepOnBit(states[k - 1], moves[k - 1], states[k], i);
      assert !Clears(states, moves, k - 1, i);
    }
  }

  /** Between two test-and-sets of a bit that both found it clear, somebody cleared it. */
  lemma OneWinner(states: seq<State>, moves: seq<Move>, j: nat, k: nat, i: nat)
    requires IsRun(states, moves) && j < k < |moves| && i < 64 && Wins(states, moves, j, i) && Wins(states, moves, k, i)
    ensures exists m :: j < m < k && Clears(states, moves, m, i)
  {
    assert Follows(states[j], moves[j], states[j + 1]);
    StepOnBit(states[j], moves[j], states[j + 1], i);
    HasOne(i);
    if forall m :: j < m < k ==> !Clears(states, moves, m, i) { StaysSet(states, moves, j + 1, k, i); }
  }
}

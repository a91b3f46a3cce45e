/** Xoshiro256+: a 256-bit state updated by a sequence of in-place xors, the sum of two of its
    words as output. */
module Xoshiro256Plus {
  import opened SwiftUInt64
  import opened Xoshiro256
  import SplitMix64

  /** The word `next()` returns for state `st` as written: `s.0 + s.3` with Swift's trapping `+`,
      read before the update. */
  function CheckedOutput(st: State): Checked<UInt64> {
    CheckedAdd(st.s0, st.s3)
  }

  /** The output of the reference generator: `s0 + s3` modulo 2^64. */
  function Output(st: State): UInt64 {
    Sum(st.s0, st.s3)
  }

  /** Where the output as written does not trap, it is the output of the reference generator. */
  lemma OutputAgrees(st: State)
    ensures CheckedOutput(st).Value? ==> CheckedOutput(st).value == Output(st)
  {
  }

  /** The state `next()` leaves behind. */
  function Transition(st: State): State {
    Advance(st.s0, st.s1, st.s2, st.s3)
  }

  /** The update of `next()` on the words, statement by statement; each statement reads the
      words as the statements before it left them: `t = s1 << 17`, `s2 ^= s0`, `s3 ^= s1`,
      `s1 ^= s2`, `s0 ^= s3`, `s2 ^= t`, `s3 = rotl(s3, 45)`. The rotation is written as
      `RotateLeft` (Shared.Rotl45) and the shift as the plain shift (the count is below 64). */
  function Advance(s0: UInt64, s1: UInt64, s2: UInt64, s3: UInt64): State {
    var t := s1 << 17;
    var s2 := s2 ^ s0;
    var s3 := s3 ^ s1;
    var s1 := s1 ^ s2;
    var s0 := s0 ^ s3;
    var s2 := s2 ^ t;
    var s3 := s3.RotateLeft(45);
    State(s0, s1, s2, s3)
  }

  /** The state `Transition` came from. */
  function Untransition(st: State): State {
    Retreat(st.s0, st.s1, st.s2, st.s3)
  }

  /** Undoes `Advance`: a rotation by 19 undoes the rotation by 45 and gives `x = s3 ^ s1`, and
      then `s0 = n0 ^ x`; `n1 ^ n2` is `y = s1 ^ (s1 << 17)`, from which
      `y ^ (y << 17) ^ (y << 34) ^ (y << 51)` recovers `s1`; the other two words follow. */
  function Retreat(n0: UInt64, n1: UInt64, n2: UInt64, n3: UInt64): State {
    var x := n3.RotateLeft(19);
    var s0 := n0 ^ x;
    var y := n1 ^ n2;
    var s1 := y ^ (y << 17) ^ (y << 34) ^ (y << 51);
    var s2 := n1 ^ s1 ^ s0;
    State(s0, s1, s2, x ^ s1)
  }

  // The words of Advance(a, b, c, d) and of Retreat(a, b, c, d), written out; each round trip
  // is then a matter of the bits of plain words.

  lemma AdvanceWords(a: UInt64, b: UInt64, c: UInt64, d: UInt64)
    ensures Advance(a, b, c, d) == State(a ^ d ^ b, b ^ c ^ a, c ^ a ^ (b << 17), (d ^ b).RotateLeft(45))
  {
  }

  lemma RetreatOfAdvanceWords(a: UInt64, b: UInt64, c: UInt64, d: UInt64)
    ensures Retreat(a ^ d ^ b, b ^ c ^ a, c ^ a ^ (b << 17), (d ^ b).RotateLeft(45)) == State(a, b, c, d)
  {
  }

  lemma RetreatWords(a: UInt64, b: UInt64, c: UInt64, d: UInt64)
    ensures Retreat(a, b, c, d)
         == State(a ^ d.RotateLeft(19),
                  (b ^ c) ^ ((b ^ c) << 17) ^ ((b ^ c) << 34) ^ ((b ^ c) << 51),
                  b ^ ((b ^ c) ^ ((b ^ c) << 17) ^ ((b ^ c) << 34) ^ ((b ^ c) << 51)) ^ a ^ d.RotateLeft(19),
                  d.RotateLeft(19) ^ ((b ^ c) ^ ((b ^ c) << 17) ^ ((b ^ c) << 34) ^ ((b ^ c) << 51)))
  {
  }

  lemma AdvanceOfRetreatWords(a: UInt64, b: UInt64, c: UInt64, d: UInt64)
    ensures Advance(a ^ d.RotateLeft(19),
                    (b ^ c) ^ ((b ^ c) << 17) ^ ((b ^ c) << 34) ^ ((b ^ c) << 51),
                    b ^ ((b ^ c) ^ ((b ^ c) << 17) ^ ((b ^ c) << 34) ^ ((b ^ c) << 51)) ^ a ^ d.RotateLeft(19),
                    d.RotateLeft(19) ^ ((b ^ c) ^ ((b ^ c) << 17) ^ ((b ^ c) << 34) ^ ((b ^ c) << 51)))
         == State(a, b, c, d)
  {
  }

  /** `Transition` is injective: `Untransition` recovers the state it started from. */
  lemma UntransitionTransition(st: State)
    ensures Untransition(Transition(st)) == st
  {
    AdvanceWords(st.s0, st.s1, st.s2, st.s3);
    RetreatOfAdvanceWords(st.s0, st.s1, st.s2, st.s3);
  }

  /** `Transition` is onto: every state is reached from its `Untransition`. */
  lemma TransitionUntransition(st: State)
    ensures Transition(Untransition(st)) == st
  {
    RetreatWords(st.s0, st.s1, st.s2, st.s3);
    AdvanceOfRetreatWords(st.s0, st.s1, st.s2, st.s3);
  }

  /** A state is everywhere zero after `next()` exactly when it was before. */
  lemma TransitionPreservesValidity(st: State)
    ensures IsValid(Transition(st)) <==> IsValid(st)
  {
    UntransitionTransition(st);
    assert Transition(InvalidState) == InvalidState;
  }

  /** A state that `init(state:)` accepts, whose second `next()` traps: the state
      `(0, UInt64.max, 0, 0)` passes the check, and one update makes both `s.0` and `s.3`
      equal to `UInt64.max`. */
  lemma SecondOutputTraps()
    ensures CheckedIsValid(State(0, Max, 0, 0)) == Value(true)
    ensures CheckedOutput(State(0, Max, 0, 0)).Value?
    ensures CheckedOutput(Transition(State(0, Max, 0, 0))).Trap?
  {
    assert CheckedAdd(0, Max) == Value(Max);
    AdvanceWords(0, Max, 0, 0);
    assert CheckedAdd(Max, Max).Trap?;
  }

  /** The loop of `init(seed:)`: draw four SplitMix64 words into a state until the state is
      valid. The first four words are never all zero, so the loop ends after one pass, provided
      the check on them does not trap. */
  method SeedState(seed: UInt64) returns (state: State)
    requires CheckedIsValid(SeededState(seed)).Value?
    ensures state == SeededState(seed)
  {
    SeededStateIsValid(seed);
    CheckedIsValidMeaning(SeededState(seed));
    var generator := new SplitMix64.Generator(seed);
    state := InvalidState;
    var again := true;
    while again
      invariant again ==> state == InvalidState && generator.s == seed
      invariant !again ==> state == SeededState(seed)
      decreases again
    {
      state := DrawState(generator);
      again := !CheckedIsValid(state).value;
    }
  }

  /** The generator: a 256-bit state replaced by `next()`. */
  class Generator {
    var s: State

    /** `init(state:)`: the precondition is `isValid(state:)` as written, which must neither
        trap nor fail; the state is kept as given. */
    constructor FromState(state: State)
      requires CheckedIsValid(state) == Value(true)
      ensures s == state && IsValid(s)
    {
      CheckedIsValidMeaning(state);
      s := state;
    }

    /** `init(seed:)`: the seeding loop, then `init(state:)` on its state, which is valid
        (SeededStateIsValid). The check on the drawn words must not trap (SeedZeroTraps shows a
        seed where it does). */
    constructor FromSeed(seed: UInt64)
      requires CheckedIsValid(SeededState(seed)).Value?
      ensures s == SeededState(seed)
    {
      var state := SeedState(seed);
      s := state;
    }

    /** `next()`: the result is read from the old state and must not trap, then the state is
        updated. Validity is kept. */
    method Next() returns (r: UInt64)
      requires CheckedOutput(s).Value?
      modifies this
      ensures r == CheckedOutput(old(s)).value && r == Output(old(s))
      ensures s == Transition(old(s))
      ensures IsValid(s) <==> IsValid(old(s))
    {
      TransitionPreservesValidity(s);
      OutputAgrees(s);
      r := CheckedOutput(s).value;
      s := Transition(s);
    }
  }
}

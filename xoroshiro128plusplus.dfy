/** Xoroshiro128++: the 128-bit state of Xoroshiro128+ with other update constants, and a
    scrambled output. */
module Xoroshiro128PlusPlus {
  import opened SwiftUInt64
  import opened Shared
  import opened Xoroshiro128
  import SplitMix64

  /** The word `next()` returns for state `st`: `rotl(s0 &+ s1, 17) &+ s0`, read before the
      update; both additions wrap. */
  function Output(st: State): UInt64 {
    Rotl(st.s0 + st.s1, 17) + st.s0
  }

  /** The state `next()` leaves behind. */
  function Transition(st: State): State {
    Advance(st.s0, st.s1)
  }

  /** The update of `next()` on the words `s0`, `s1`, statement by statement: first
      `s1 ^= s0`, then the new first word `rotl(s0, 49) ^ s1 ^ (s1 << 21)` and the new second
      word `rotl(s1, 28)`. The rotations are written as `RotateLeft` (Shared.Rotl49,
      Shared.Rotl28) and the shift by 21 as the plain shift (the count is below 64). */
  function Advance(s0: UInt64, s1: UInt64): State {
    var s1 := s1 ^ s0;
    State(s0.RotateLeft(49) ^ s1 ^ (s1 << 21), s1.RotateLeft(28))
  }

  /** The state `Transition` came from. */
  function Untransition(st: State): State {
    Retreat(st.s0, st.s1)
  }

  /** Undoes `Advance`: a rotation by 36 undoes the rotation by 28 and gives back `t = s1 ^ s0`;
      xoring `t` and `t << 21` out of the first word leaves `s0` rotated by 49, which a
      rotation by 15 undoes; and `s1 = t ^ s0`. */
  function Retreat(n0: UInt64, n1: UInt64): State {
    var t := n1.RotateLeft(36);
    var s0 := (n0 ^ t ^ (t << 21)).RotateLeft(15);
    State(s0, t ^ s0)
  }

  // The two words of Advance(a, b) and of Retreat(a, b), written out; each round trip is
  // then a matter of the bits of plain words.

  lemma AdvanceWords(a: UInt64, b: UInt64)
    ensures Advance(a, b) == State(a.RotateLeft(49) ^ b ^ a ^ ((b ^ a) << 21), (b ^ a).RotateLeft(28))
  {
  }

  lemma RetreatOfAdvanceWords(a: UInt64, b: UInt64)
    ensures Retreat(a.RotateLeft(49) ^ b ^ a ^ ((b ^ a) << 21), (b ^ a).RotateLeft(28)) == State(a, b)
  {
  }

  lemma RetreatWords(a: UInt64, b: UInt64)
    ensures Retreat(a, b) == State((a ^ b.RotateLeft(36) ^ (b.RotateLeft(36) << 21)).RotateLeft(15),
                                   b.RotateLeft(36) ^ (a ^ b.RotateLeft(36) ^ (b.RotateLeft(36) << 21)).RotateLeft(15))
  {
  }

  lemma AdvanceOfRetreatWords(a: UInt64, b: UInt64)
    ensures Advance((a ^ b.RotateLeft(36) ^ (b.RotateLeft(36) << 21)).RotateLeft(15),
                    b.RotateLeft(36) ^ (a ^ b.RotateLeft(36) ^ (b.RotateLeft(36) << 21)).RotateLeft(15)) == State(a, b)
  {
  }

  /** `Transition` is injective: `Untransition` recovers the state it started from. */
  lemma UntransitionTransition(st: State)
    ensures Untransition(Transition(st)) == st
  {
    AdvanceWords(st.s0, st.s1);
    RetreatOfAdvanceWords(st.s0, st.s1);
  }

  /** `Transition` is onto: every state is reached from its `Untransition`. */
  lemma TransitionUntransition(st: State)
    ensures Transition(Untransition(st)) == st
  {
    RetreatWords(st.s0, st.s1);
    AdvanceOfRetreatWords(st.s0, st.s1);
  }

  /** A state is valid after `next()` exactly when it was valid before: the all-zero state is
      a fixed point of `Transition`, and no other state is mapped onto it. */
  lemma TransitionPreservesValidity(st: State)
    ensures IsValid(Transition(st)) <==> IsValid(st)
  {
    UntransitionTransition(st);
    assert Transition(InvalidState) == InvalidState;
  }

  /** The generator: a 128-bit state replaced by `next()`. */
  class Generator {
    var s: State

    /** `init(state:)`: the precondition rejects the all-zero state; the state is kept as given. */
    constructor FromState(state: State)
      requires IsValid(state)
      ensures s == state
    {
      s := state;
    }

    /** `init(seed:)`: draw two SplitMix64 words into a state until the state is valid, then
        hand it to `init(state:)`. The first pair is always valid. */
    constructor FromSeed(seed: UInt64)
      ensures s == SeededState(seed) && IsValid(s)
    {
      var generator := new SplitMix64.Generator(seed);
      var state := InvalidState;
      var again := true;
      while again
        invariant again ==> state == InvalidState && generator.s == seed
        invariant !again ==> state == SeededState(seed)
        decreases again
      {
        var a := generator.Next();
        assert generator.s == SplitMix64.StateAfter(seed, 1);
        var b := generator.Next();
        assert generator.s == SplitMix64.StateAfter(seed, 2);
        state := State(a, b);
        SeededStateIsValid(seed);
        again := !IsValid(state);
      }
      s := state;
    }

    /** `next()`: the result is read from the old state, then the state is updated. Validity
        is kept. */
    method Next() returns (r: UInt64)
      modifies this
      ensures r == Output(old(s))
      ensures s == Transition(old(s))
      ensures IsValid(s) <==> IsValid(old(s))
    {
      TransitionPreservesValidity(s);
      r := Output(s);
      s := Transition(s);
    }
  }
}

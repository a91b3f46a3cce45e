/** Xoshiro512++: the state and update of Xoshiro512+, with a rotated sum as output. */
module Xoshiro512PlusPlus {
  import opened SwiftUInt64
  import opened Shared
  import opened Xoshiro512

  /** The word `next()` returns for state `st` as written: `rotl(s.0 + s.2, 17) + s.2`, where
      both additions are Swift's trapping `+`, read before the update. */
  function CheckedOutput(st: State): Checked<UInt64> {
    CheckedRotatedSum(st.s0, st.s2)
  }

  /** `rotl(a + b, 17) + b` with trapping additions. */
  function CheckedRotatedSum(a: UInt64, b: UInt64): Checked<UInt64> {
    match CheckedAdd(a, b)
    case Trap => Trap
    case Value(sum) => CheckedAdd(Rotl(sum, 17), b)
  }

  /** The output of the reference generator: `rotl(s0 + s2, 17) + s2` modulo 2^64. */
  function Output(st: State): UInt64 {
    Sum(Rotl(Sum(st.s0, st.s2), 17), st.s2)
  }

  /** Where `rotl(a + b, 17) + b` does not trap, it is its wrapping counterpart. */
  lemma CheckedRotatedSumAgrees(a: UInt64, b: UInt64)
    ensures CheckedRotatedSum(a, b).Value? ==> CheckedRotatedSum(a, b).value == Sum(Rotl(Sum(a, b), 17), b)
  {
  }

  /** Where the output as written does not trap, it is the output of the reference generator. */
  lemma OutputAgrees(st: State)
    ensures CheckedOutput(st).Value? ==> CheckedOutput(st).value == Output(st)
  {
    CheckedRotatedSumAgrees(st.s0, st.s2);
  }

  /** A state that `init(state:)` accepts, whose first `next()` traps: with `s.0 = 2^46` and
      `s.2 = 2^63`, the inner sum does not overflow, but its rotation by 17 has the top bit set
      and adding `s.2` again does. */
  lemma FirstOutputTraps()
    ensures CheckedIsValid(State(0x4000_0000_0000, 0, 0x8000_0000_0000_0000, 0, 0, 0, 0, 0)) == Value(true)
    ensures CheckedOutput(State(0x4000_0000_0000, 0, 0x8000_0000_0000_0000, 0, 0, 0, 0, 0)).Trap?
  {
    assert CheckedAdd(0x4000_0000_0000, 0x8000_0000_0000_0000) == Value(0x8000_4000_0000_0000);
    Rotl17(0x8000_4000_0000_0000);
    assert Rotl(0x8000_4000_0000_0000, 17) == 0x8000_0000_0001_0000;
  }

  /** The generator: a 512-bit state replaced by `next()`. */
  class Generator {
    var s: State

    /** `init(state:)`: the precondition is `isValid(state:)` as written, which must neither
        trap nor fail; the state is kept as given. */
    constructor FromState(state: State)
      requires CheckedIsValid(state) == Value(true)
      ensures s == state && IsValid(s)
    {
      CheckedIsValidAccepts(state);
      s := state;
    }

    /** `init(seed:)`: the seeding loop, then `init(state:)` on its state, which is valid
        (SeededStateIsValid). The check on the drawn words must not trap (SeedZeroTraps shows a
        seed where it does). */
    constructor FromSeed(seed: UInt64)
      requires CheckedIsValid(SeededState(seed)).Value?
      ensures s == SeededState(seed)
    {
      var state := SeedState(seed);
      s := state;
    }

    /** `next()`: the result is read from the old state and must not trap, then the state is
        updated. The result is also the output of the reference generator. Validity is kept. */
    method Next() returns (r: UInt64)
      requires CheckedOutput(s).Value?
      modifies this
      ensures r == CheckedOutput(old(s)).value && r == Output(old(s))
      ensures s == Transition(old(s))
      ensures IsValid(s) <==> IsValid(old(s))
    {
      TransitionPreservesValidity(s);
      OutputAgrees(s);
      r := CheckedOutput(s).value;
      s := Transition(s);
    }
  }
}

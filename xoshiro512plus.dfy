/** Xoshiro512+: a 512-bit state updated by a sequence of in-place xors, the wrapping sum of two
    of its words as output. */
module Xoshiro512Plus {
  import opened SwiftUInt64
  import opened Xoshiro512

  /** The word `next()` returns for state `st`: `s.0 &+ s.2`, read before the update. */
  function Output(st: State): UInt64 {
    st.s0 + st.s2
  }

  /** The generator: a 512-bit state replaced by `next()`. */
  class Generator {
    var s: State

    /** `init(state:)`: the precondition is `isValid(state:)` as written, which must neither
        trap nor fail; the state is kept as given. */
    constructor FromState(state: State)
      requires CheckedIsValid(state) == Value(true)
      ensures s == state && IsValid(s)
    {
      CheckedIsValidAccepts(state);
      s := state;
    }

    /** `init(seed:)`: the seeding loop, then `init(state:)` on its state, which is valid
        (SeededStateIsValid). The check on the drawn words must not trap (SeedZeroTraps shows a
        seed where it does). */
    constructor FromSeed(seed: UInt64)
      requires CheckedIsValid(SeededState(seed)).Value?
      ensures s == SeededState(seed)
    {
      var state := SeedState(seed);
      s := state;
    }

    /** `next()`: the result is read from the old state, then the state is updated. Validity is
        kept. */
    method Next() returns (r: UInt64)
      modifies this
      ensures r == Output(old(s))
      ensures s == Transition(old(s))
      ensures IsValid(s) <==> IsValid(old(s))
    {
      TransitionPreservesValidity(s);
      r := Output(s);
      s := Transition(s);
    }
  }
}

/** The state shared by the two 128-bit Xoroshiro generators, its validity check and the
    way both of them turn a seed into a state. */
module Xoroshiro128 {
  import opened SwiftUInt64
  import SplitMix64

  /** A 128-bit state: two words. */
  datatype State = State(s0: UInt64, s1: UInt64)

  /** `invalidState`: the all-zero state, from which the generators only ever produce zeros. */
  const InvalidState: State := State(0, 0)

  /** `isValid(state:)`: the state is not the all-zero state. */
  function IsValid(state: State): (valid: bool)
    ensures valid <==> state.s0 != 0 || state.s1 != 0
  {
    state != InvalidState
  }

  /** The state `init(seed:)` arrives at: the first two words drawn from a SplitMix64
      generator seeded with `seed`, in order. */
  function SeededState(seed: UInt64): State {
    State(SplitMix64.Draw(seed, 1), SplitMix64.Draw(seed, 2))
  }

  /** The first pair drawn is always valid, so the seeding loop of `init(seed:)` runs once. */
  lemma SeededStateIsValid(seed: UInt64)
    ensures IsValid(SeededState(seed))
  {
    SplitMix64.ConsecutiveDrawsNotBothZero(seed, 1);
  }
}

/** The state shared by the 256-bit Xoshiro generators and its validity check. */
module Xoshiro256 {
  import opened SwiftUInt64
  import SplitMix64

  /** A 256-bit state: four words. */
  datatype State = State(s0: UInt64, s1: UInt64, s2: UInt64, s3: UInt64)

  /** `invalidState`: the all-zero state. */
  const InvalidState: State := State(0, 0, 0, 0)

  /** `isValid(state:)` as written: `s.0 + s.1 + s.2 + s.3` with Swift's trapping `+`, evaluated
      left to right, then `sum > 0`. Each of the three additions traps when its exact result
      exceeds `Max`. */
  function CheckedIsValid(st: State): Checked<bool> {
    var sum01 := st.s0 as int + st.s1 as int;
    var sum012 := sum01 + st.s2 as int;
    var sum := sum012 + st.s3 as int;
    if sum01 > Max as int || sum012 > Max as int || sum > Max as int then Trap else Value(sum > 0)
  }

  /** The check the reference generator asks for: the state is not everywhere zero. */
  function IsValid(st: State): (valid: bool)
    ensures valid <==> st.s0 != 0 || st.s1 != 0 || st.s2 != 0 || st.s3 != 0
  {
    st != InvalidState
  }

  /** The check traps exactly when the sum of the four words exceeds `Max`; when it does not
      trap, it accepts exactly the states that are not everywhere zero. */
  lemma CheckedIsValidMeaning(st: State)
    ensures CheckedIsValid(st).Trap? <==> st.s0 as int + st.s1 as int + st.s2 as int + st.s3 as int > Max as int
    ensures CheckedIsValid(st).Value? ==> (CheckedIsValid(st).value <==> IsValid(st))
  {
    IntValueZero(st.s0);
    IntValueZero(st.s1);
    IntValueZero(st.s2);
    IntValueZero(st.s3);
  }

  /** `isValid(invalidState)` is false, without a trap. */
  lemma InvalidStateIsInvalid()
    ensures CheckedIsValid(InvalidState) == Value(false)
  {
  }

  /** The state `init(seed:)` arrives at: the first four words drawn from a SplitMix64
      generator seeded with `seed`, in order. */
  function SeededState(seed: UInt64): State {
    State(SplitMix64.Draw(seed, 1), SplitMix64.Draw(seed, 2), SplitMix64.Draw(seed, 3), SplitMix64.Draw(seed, 4))
  }

  /** The tuple `init(seed:)` builds on each pass: four calls of the SplitMix64 generator's
      `next()`, in order. */
  method DrawState(generator: SplitMix64.Generator) returns (state: State)
    modifies generator
    ensures state == SeededState(old(generator.s))
    ensures generator.s == SplitMix64.StateAfter(old(generator.s), 4)
  {
    ghost var seed := generator.s;
    var w0 := generator.Next();
    assert generator.s == SplitMix64.StateAfter(seed, 1);
    var w1 := generator.Next();
    assert generator.s == SplitMix64.StateAfter(seed, 2);
    var w2 := generator.Next();
    assert generator.s == SplitMix64.StateAfter(seed, 3);
    var w3 := generator.Next();
    assert generator.s == SplitMix64.StateAfter(seed, 4);
    state := State(w0, w1, w2, w3);
  }

  /** The first four words drawn are never all zero. */
  lemma SeededStateIsValid(seed: UInt64)
    ensures IsValid(SeededState(seed))
  {
    SplitMix64.ConsecutiveDrawsNotBothZero(seed, 1);
  }

  /** Seed 0: the first two words drawn already add up to more than `Max`, so the check of
      `init(seed:)` traps. */
  lemma SeedZeroTraps()
    ensures CheckedIsValid(SeededState(0)).Trap?
  {
    assert SplitMix64.StateAfter(0, 1) == 0x9e3779b97f4a7c15;
    assert SplitMix64.StateAfter(0, 2) == 0x3c6ef372fe94f82a;
    assert SplitMix64.Draw(0, 1) == 0xe220a8397b1dcdaf;
    assert SplitMix64.Draw(0, 2) == 0x6e789e6aa1b965f4;
  }

  /** Seed 20: the four words drawn add up to less than `UInt64.max`, so the check of
      `init(seed:)` does not trap there. */
  lemma Seed20Accepted()
    ensures CheckedIsValid(SeededState(20)) == Value(true)
  {
    assert SplitMix64.StateAfter(20, 1) == 0x9e3779b97f4a7c29;
    assert SplitMix64.Draw(20, 1) == 0x362259904816818c;
    assert SplitMix64.StateAfter(20, 2) == 0x3c6ef372fe94f83e;
    assert SplitMix64.Draw(20, 2) == 0x04f73460a7fd6485;
    assert SplitMix64.StateAfter(20, 3) == 0xdaa66d2c7ddf7453;
    assert SplitMix64.Draw(20, 3) == 0x4079d22ed225a1f7;
    assert SplitMix64.StateAfter(20, 4) == 0x78dde6e5fd29f068;
    assert SplitMix64.Draw(20, 4) == 0x5c83eea29361787c;
  }
}

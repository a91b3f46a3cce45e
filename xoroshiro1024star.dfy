/** Xoroshiro1024*: sixteen words and a pointer, one word of which, multiplied by a constant,
    is the output. */
module Xoroshiro1024Star {
  import opened SwiftUInt64
  import opened Xoroshiro1024
  import SplitMix64

  /** The odd multiplier of the output. */
  const Multiplier: UInt64 := 0x9e3779b97f4a7c13

  /** The word `next()` returns from pointer `p` and words `s`: `s0 &* 0x9e3779b97f4a7c13`,
      where `s0` is the word at the next pointer, read before the update. */
  function Output(p: int, s: seq<UInt64>): UInt64
    requires IsValidParam(p) && |s| == 16
  {
    Scramble(s[NextParam(p)])
  }

  /** `s0 &* 0x9e3779b97f4a7c13`. */
  function Scramble(s0: UInt64): UInt64 {
    s0 * Multiplier
  }

  /** The multiplier is odd, so the output is zero exactly when the word it is read from is. */
  lemma OutputZero(p: int, s: seq<UInt64>)
    requires IsValidParam(p) && |s| == 16
    ensures Output(p, s) == 0 <==> s[NextParam(p)] == 0
  {
    ScrambleZero(s[NextParam(p)]);
  }

  lemma ScrambleZero(w: UInt64)
    ensures Scramble(w) == 0 <==> w == 0
  {
  }

  /** The generator: sixteen words and a pointer, both replaced by `next()`. */
  class Generator {
    var p: int
    var s: seq<UInt64>

    /** What `init(param:state:)` establishes and every `next()` keeps. */
    predicate Valid()
      reads this
    {
      IsValidParam(p) && IsValid(s)
    }

    /** `init(param:state:)`: the pointer must lie in `0..<16` and the words must not be all
        zero; both are kept as given. The words must also number sixteen, which the source does
        not check (Xoroshiro1024.ShortStateAccepted). */
    constructor FromState(param: int, state: seq<UInt64>)
      requires IsValidParam(param) && IsValid(state)
      ensures p == param && s == state
      ensures Valid()
    {
      p := param;
      s := state;
    }

    /** `init(seed:)`: a SplitMix64 generator is seeded with `seed`; `randomElement(using:)`
        picks the pointer `param` while drawing `consumed` words; then the seeding loop draws the
        sixteen words. */
    constructor FromSeed(seed: UInt64, param: int, consumed: nat)
      requires IsValidParam(param)
      ensures p == param && s == SeededState(SplitMix64.StateAfter(seed, consumed))
      ensures Valid()
    {
      var generator := new SplitMix64.Generator(seed);
      Skip(generator, consumed);
      var state := SeedState(generator);
      SeededStateIsValid(SplitMix64.StateAfter(seed, consumed));
      p := param;
      s := state;
    }

    /** `next()`: the pointer and the words are copied out, the step runs on the copies
        statement by statement, and both are written back. The result is read before the
        update; validity is kept. */
    method Next() returns (r: UInt64)
      requires Valid()
      modifies this
      ensures p == NextParam(old(p))
      ensures s == Transition(old(p), old(s))
      ensures r == Output(old(p), old(s))
      ensures Valid()
    {
      TransitionPreservesValidity(p, s);
      var param, state := p, s;
      var q := param;
      param := NextParam(param);
      var s0 := state[param];
      var s15 := state[q];
      r := Scramble(s0);
      var next := Advance(s0, s15);
      state := state[q := next.0];
      state := state[param := next.1];
      p, s := param, state;
    }
  }
}

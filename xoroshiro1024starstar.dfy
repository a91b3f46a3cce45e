/** Xoroshiro1024**: the state and update of Xoroshiro1024*, with a multiply-rotate-multiply
    scrambler as output. */
module Xoroshiro1024StarStar {
  import opened SwiftUInt64
  import opened Shared
  import opened Xoroshiro1024
  import SplitMix64

  /** The scrambler as written: `rotl(s0 * 5, 7) * 9`, where both products are Swift's
      trapping `*`. */
  function CheckedScramble(s0: UInt64): Checked<UInt64> {
    match CheckedMul(s0, 5)
    case Trap => Trap
    case Value(product) => CheckedMul(Rotl(product, 7), 9)
  }

  /** The scrambler of the reference generator: `rotl(s0 * 5, 7) * 9` modulo 2^64. */
  function Scramble(s0: UInt64): UInt64 {
    Product(Rotl(Product(s0, 5), 7), 9)
  }

  /** Where the scrambler as written does not trap, it is the wrapping scrambler. */
  lemma CheckedScrambleAgrees(s0: UInt64)
    ensures CheckedScramble(s0).Value? ==> CheckedScramble(s0).value == Scramble(s0)
  {
  }

  /** Both factors are odd and the rotation is a bijection, so the wrapping scrambler maps only
      zero to zero. */
  lemma ScrambleZero(s0: UInt64)
    ensures Scramble(s0) == 0 <==> s0 == 0
  {
    Rotl7(Product(s0, 5));
  }

  /** The word `next()` returns as written: the scrambled word at the next pointer, read before
      the update. */
  function CheckedOutput(p: int, s: seq<UInt64>): Checked<UInt64>
    requires IsValidParam(p) && |s| == 16
  {
    CheckedScramble(s[NextParam(p)])
  }

  /** The output of the reference generator. */
  function Output(p: int, s: seq<UInt64>): UInt64
    requires IsValidParam(p) && |s| == 16
  {
    Scramble(s[NextParam(p)])
  }

  /** A state that `init(param:state:)` accepts, whose first `next()` traps: the word at the
      next pointer is 2^62, and `2^62 * 5` exceeds `UInt64.max`. */
  lemma FirstOutputTraps()
    ensures IsValidParam(15)
    ensures IsValid([0x4000_0000_0000_0000, 0, 0, 0, 0, 0, 0, 0, 0, 0, 0, 0, 0, 0, 0, 0])
    ensures CheckedOutput(15, [0x4000_0000_0000_0000, 0, 0, 0, 0, 0, 0, 0, 0, 0, 0, 0, 0, 0, 0, 0]).Trap?
  {
    assert [0x4000_0000_0000_0000, 0, 0, 0, 0, 0, 0, 0, 0, 0, 0, 0, 0, 0, 0, 0][0] != InvalidState[0];
    assert CheckedMul(0x4000_0000_0000_0000, 5).Trap?;
  }

  /** The generator: sixteen words and a pointer, both replaced by `next()`. */
  class Generator {
    var p: int
    var s: seq<UInt64>

    /** What `init(param:state:)` establishes and every `next()` keeps. */
    predicate Valid()
      reads this
    {
      IsValidParam(p) && IsValid(s)
    }

    /** `init(param:state:)`: the pointer must lie in `0..<16` and the words must not be all
        zero; both are kept as given. The words must also number sixteen, which the source does
        not check (Xoroshiro1024.ShortStateAccepted). */
    constructor FromState(param: int, state: seq<UInt64>)
      requires IsValidParam(param) && IsValid(state)
      ensures p == param && s == state
      ensures Valid()
    {
      p := param;
      s := state;
    }

    /** `init(seed:)`: a SplitMix64 generator is seeded with `seed`; `randomElement(using:)`
        picks the pointer `param` while drawing `consumed` words; then the seeding loop draws the
        sixteen words. */
    constructor FromSeed(seed: UInt64, param: int, consumed: nat)
      requires IsValidParam(param)
      ensures p == param && s == SeededState(SplitMix64.StateAfter(seed, consumed))
      ensures Valid()
    {
      var generator := new SplitMix64.Generator(seed);
      Skip(generator, consumed);
      var state := SeedState(generator);
      SeededStateIsValid(SplitMix64.StateAfter(seed, consumed));
      p := param;
      s := state;
    }

    /** `next()`: the pointer and the words are copied out, the step runs on the copies
        statement by statement, and both are written back. The result is read before the
        update and must not trap; where it does not, it is the wrapping scrambler. Validity is
        kept. */
    method Next() returns (r: UInt64)
      requires Valid() && CheckedOutput(p, s).Value?
      modifies this
      ensures p == NextParam(old(p))
      ensures s == Transition(old(p), old(s))
      ensures r == CheckedOutput(old(p), old(s)).value && r == Output(old(p), old(s))
      ensures Valid()
    {
      TransitionPreservesValidity(p, s);
      var param, state := p, s;
      var q := param;
      param := NextParam(param);
      var s0 := state[param];
      var s15 := state[q];
      CheckedScrambleAgrees(s0);
      r := CheckedScramble(s0).value;
      var next := Advance(s0, s15);
      state := state[q := next.0];
      state := state[param := next.1];
      p, s := param, state;
    }
  }
}

/** The state shared by the two 512-bit Xoshiro generators, its validity check, the seeding
    loop and the state update, which both generators run unchanged. */
module Xoshiro512 {
  import opened SwiftUInt64
  import SplitMix64

  /** A 512-bit state: eight words. */
  datatype State = State(s0: UInt64, s1: UInt64, s2: UInt64, s3: UInt64,
                         s4: UInt64, s5: UInt64, s6: UInt64, s7: UInt64)

  /** `invalidState`: the all-zero state. */
  const InvalidState: State := State(0, 0, 0, 0, 0, 0, 0, 0)

  /** `isValid(state:)` as written: `sum0 = s.0 + s.1 + s.2 + s.3`, then
      `sum1 = s.4 + s.5 + s.6 + s.7`, then `sum = sum0 + sum1`, all with Swift's trapping `+`
      evaluated left to right, and finally `sum > 0`. */
  function CheckedIsValid(st: State): Checked<bool> {
    CheckedSumPositive(st.s0 as int, st.s1 as int, st.s2 as int, st.s3 as int,
                       st.s4 as int, st.s5 as int, st.s6 as int, st.s7 as int)
  }

  /** The two sums of four and their total, on the words' values: each of the seven additions
      traps when its exact result exceeds `Max`. */
  function CheckedSumPositive(a: int, b: int, c: int, d: int, e: int, f: int, g: int, h: int): Checked<bool> {
    var sum0 := a + b + c + d;
    var sum1 := e + f + g + h;
    if a + b > Max as int || a + b + c > Max as int || sum0 > Max as int
       || e + f > Max as int || e + f + g > Max as int || sum1 > Max as int || sum0 + sum1 > Max as int
    then Trap
    else Value(sum0 + sum1 > 0)
  }

  /** On non-negative values, some partial sum exceeds `Max` exactly when the whole sum does,
      and the whole sum is positive exactly when some term is. */
  lemma CheckedSumPositiveMeaning(a: int, b: int, c: int, d: int, e: int, f: int, g: int, h: int)
    requires a >= 0 && b >= 0 && c >= 0 && d >= 0 && e >= 0 && f >= 0 && g >= 0 && h >= 0
    ensures CheckedSumPositive(a, b, c, d, e, f, g, h).Trap? <==> a + b + c + d + e + f + g + h > Max as int
    ensures CheckedSumPositive(a, b, c, d, e, f, g, h).Value?
        ==> (CheckedSumPositive(a, b, c, d, e, f, g, h).value
             <==> a > 0 || b > 0 || c > 0 || d > 0 || e > 0 || f > 0 || g > 0 || h > 0)
  {
  }

  /** The check the reference generator asks for: the state is not everywhere zero. */
  function IsValid(st: State): (valid: bool)
    ensures valid <==> st.s0 != 0 || st.s1 != 0 || st.s2 != 0 || st.s3 != 0
                       || st.s4 != 0 || st.s5 != 0 || st.s6 != 0 || st.s7 != 0
  {
    st != InvalidState
  }

  /** The check traps exactly when the sum of the eight words exceeds `Max`. */
  lemma CheckedIsValidTraps(st: State)
    ensures CheckedIsValid(st).Trap?
        <==> st.s0 as int + st.s1 as int + st.s2 as int + st.s3 as int
             + st.s4 as int + st.s5 as int + st.s6 as int + st.s7 as int > Max as int
  {
    CheckedSumPositiveMeaning(st.s0 as int, st.s1 as int, st.s2 as int, st.s3 as int,
                              st.s4 as int, st.s5 as int, st.s6 as int, st.s7 as int);
  }

  /** Some of eight words has a positive value exactly when some of them is not zero. */
  lemma SomePositive(a: UInt64, b: UInt64, c: UInt64, d: UInt64, e: UInt64, f: UInt64, g: UInt64, h: UInt64)
    ensures (a as int > 0 || b as int > 0 || c as int > 0 || d as int > 0
             || e as int > 0 || f as int > 0 || g as int > 0 || h as int > 0)
        <==> (a != 0 || b != 0 || c != 0 || d != 0 || e != 0 || f != 0 || g != 0 || h != 0)
  {
    IntValueZero(a);
    IntValueZero(b);
    IntValueZero(c);
    IntValueZero(d);
    IntValueZero(e);
    IntValueZero(f);
    IntValueZero(g);
    IntValueZero(h);
  }

  /** When the check does not trap, it accepts exactly the states that are not everywhere
      zero. */
  lemma CheckedIsValidAccepts(st: State)
    ensures CheckedIsValid(st).Value? ==> (CheckedIsValid(st).value <==> IsValid(st))
  {
    var a, b, c, d, e, f, g, h := st.s0 as int, st.s1 as int, st.s2 as int, st.s3 as int,
                                  st.s4 as int, st.s5 as int, st.s6 as int, st.s7 as int;
    CheckedSumPositiveMeaning(a, b, c, d, e, f, g, h);
    SomePositive(st.s0, st.s1, st.s2, st.s3, st.s4, st.s5, st.s6, st.s7);
    assert CheckedIsValid(st) == CheckedSumPositive(a, b, c, d, e, f, g, h);
  }

  /** `isValid(invalidState)` is false, without a trap. */
  lemma InvalidStateIsInvalid()
    ensures CheckedIsValid(InvalidState) == Value(false)
  {
  }

  /** The state `init(seed:)` arrives at: the first eight words drawn from a SplitMix64
      generator seeded with `seed`, in order. */
  function SeededState(seed: UInt64): State {
    State(SplitMix64.Draw(seed, 1), SplitMix64.Draw(seed, 2), SplitMix64.Draw(seed, 3), SplitMix64.Draw(seed, 4),
          SplitMix64.Draw(seed, 5), SplitMix64.Draw(seed, 6), SplitMix64.Draw(seed, 7), SplitMix64.Draw(seed, 8))
  }

  /** The tuple `init(seed:)` builds on each pass: eight calls of the SplitMix64 generator's
      `next()`, in order. */
  method DrawState(generator: SplitMix64.Generator) returns (state: State)
    modifies generator
    ensures state == SeededState(old(generator.s))
    ensures generator.s == SplitMix64.StateAfter(old(generator.s), 8)
  {
    ghost var seed := generator.s;
    var w0 := generator.Next();
    assert generator.s == SplitMix64.StateAfter(seed, 1);
    var w1 := generator.Next();
    assert generator.s == SplitMix64.StateAfter(seed, 2);
    var w2 := generator.Next();
    assert generator.s == SplitMix64.StateAfter(seed, 3);
    var w3 := generator.Next();
    assert generator.s == SplitMix64.StateAfter(seed, 4);
    var w4 := generator.Next();
    assert generator.s == SplitMix64.StateAfter(seed, 5);
    var w5 := generator.Next();
    assert generator.s == SplitMix64.StateAfter(seed, 6);
    var w6 := generator.Next();
    assert generator.s == SplitMix64.StateAfter(seed, 7);
    var w7 := generator.Next();
    assert generator.s == SplitMix64.StateAfter(seed, 8);
    state := State(w0, w1, w2, w3, w4, w5, w6, w7);
  }

  /** The first eight words drawn are never all zero. */
  lemma SeededStateIsValid(seed: UInt64)
    ensures IsValid(SeededState(seed))
  {
    SplitMix64.ConsecutiveDrawsNotBothZero(seed, 1);
  }

  /** The loop of `init(seed:)`, the same in both generators: draw eight SplitMix64 words into a
      state until the state is valid. The first eight words are never all zero, so the loop
      ends after one pass, provided the check on them does not trap. */
  method SeedState(seed: UInt64) returns (state: State)
    requires CheckedIsValid(SeededState(seed)).Value?
    ensures state == SeededState(seed)
  {
    SeededStateIsValid(seed);
    CheckedIsValidAccepts(SeededState(seed));
    var generator := new SplitMix64.Generator(seed);
    state := InvalidState;
    var again := true;
    while again
      invariant again ==> state == InvalidState && generator.s == seed
      invariant !again ==> state == SeededState(seed)
      decreases again
    {
      state := DrawState(generator);
      again := !CheckedIsValid(state).value;
    }
  }

  /** Seed 0: the first two words drawn already add up to more than `Max`, so the check of
      `init(seed:)` traps. */
  lemma SeedZeroTraps()
    ensures CheckedIsValid(SeededState(0)).Trap?
  {
    assert SplitMix64.StateAfter(0, 1) == 0x9e3779b97f4a7c15;
    assert SplitMix64.StateAfter(0, 2) == 0x3c6ef372fe94f82a;
    assert SplitMix64.Draw(0, 1) == 0xe220a8397b1dcdaf;
    assert SplitMix64.Draw(0, 2) == 0x6e789e6aa1b965f4;
  }

  /** Seed 7534: the eight words drawn add up to less than `UInt64.max`, so the check of
      `init(seed:)` does not trap there. */
  lemma Seed7534Accepted()
    ensures CheckedIsValid(SeededState(7534)) == Value(true)
  {
    assert SplitMix64.StateAfter(7534, 1) == 0x9e3779b97f4a9983;
    assert SplitMix64.Draw(7534, 1) == 0x0a88e0f2935e0733;
    assert SplitMix64.StateAfter(7534, 2) == 0x3c6ef372fe951598;
    assert SplitMix64.Draw(7534, 2) == 0x0ad02208ead2dd29;
    assert SplitMix64.StateAfter(7534, 3) == 0xdaa66d2c7ddf91ad;
    assert SplitMix64.Draw(7534, 3) == 0x1976698625bb21cf;
    assert SplitMix64.StateAfter(7534, 4) == 0x78dde6e5fd2a0dc2;
    assert SplitMix64.Draw(7534, 4) == 0x423a28d4767e411b;
    assert SplitMix64.StateAfter(7534, 5) == 0x1715609f7c7489d7;
    assert SplitMix64.Draw(7534, 5) == 0x12af8c528c4508f3;
    assert SplitMix64.StateAfter(7534, 6) == 0xb54cda58fbbf05ec;
    assert SplitMix64.Draw(7534, 6) == 0x4e88ffd6c8ec583b;
    assert SplitMix64.StateAfter(7534, 7) == 0x538454127b098201;
    assert SplitMix64.Draw(7534, 7) == 0x0c941fcdb9bdfe0e;
    assert SplitMix64.StateAfter(7534, 8) == 0xf1bbcdcbfa53fe16;
    assert SplitMix64.Draw(7534, 8) == 0x100f71321b6fdbb9;
  }

  /** The state `next()` leaves behind, in both generators. */
  function Transition(st: State): State {
    Advance(st.s0, st.s1, st.s2, st.s3, st.s4, st.s5, st.s6, st.s7)
  }

  /** The update of `next()` on the words, statement by statement; each statement reads the
      words as the statements before it left them: `t = s1 << 11`, `s2 ^= s0`, `s5 ^= s1`,
      `s1 ^= s2`, `s7 ^= s3`, `s3 ^= s4`, `s4 ^= s5`, `s0 ^= s6`, `s6 ^= s7`, `s6 ^= t`,
      `s7 = rotl(s7, 21)`. The rotation is written as `RotateLeft` (Shared.Rotl21) and the
      shift as the plain shift (the count is below 64). */
  function Advance(s0: UInt64, s1: UInt64, s2: UInt64, s3: UInt64,
                   s4: UInt64, s5: UInt64, s6: UInt64, s7: UInt64): State
  {
    var t := s1 << 11;
    var s2 := s2 ^ s0;
    var s5 := s5 ^ s1;
    var s1 := s1 ^ s2;
    var s7 := s7 ^ s3;
    var s3 := s3 ^ s4;
    var s4 := s4 ^ s5;
    var s0 := s0 ^ s6;
    var s6 := s6 ^ s7;
    var s6 := s6 ^ t;
    var s7 := s7.RotateLeft(21);
    State(s0, s1, s2, s3, s4, s5, s6, s7)
  }

  /** The state `Transition` came from. */
  function Untransition(st: State): State {
    Retreat(st.s0, st.s1, st.s2, st.s3, st.s4, st.s5, st.s6, st.s7)
  }

  /** Undoes `Advance`, one word at a time: a rotation by 43 undoes the rotation by 21 and
      gives `x = s7 ^ s3`; `n1 ^ n2` is `s1`; then `s6`, `s0`, `s2`, `s4 = n4 ^ n5`, `s3`, `s5` and
      `s7` follow. */
  function Retreat(n0: UInt64, n1: UInt64, n2: UInt64, n3: UInt64,
                   n4: UInt64, n5: UInt64, n6: UInt64, n7: UInt64): State
  {
    var x := n7.RotateLeft(43);
    var s1 := n1 ^ n2;
    var s6 := n6 ^ x ^ (s1 << 11);
    var s0 := n0 ^ s6;
    var s2 := n2 ^ s0;
    var s4 := n4 ^ n5;
    var s3 := n3 ^ s4;
    var s5 := n5 ^ s1;
    var s7 := x ^ s3;
    State(s0, s1, s2, s3, s4, s5, s6, s7)
  }

  // The words of Advance and of Retreat, written out; each round trip is then a matter of the
  // bits of plain words.

  lemma AdvanceWords(a0: UInt64, a1: UInt64, a2: UInt64, a3: UInt64, a4: UInt64, a5: UInt64, a6: UInt64, a7: UInt64)
    ensures Advance(a0, a1, a2, a3, a4, a5, a6, a7)
         == State(a0 ^ a6,
                  a1 ^ a2 ^ a0,
                  a2 ^ a0,
                  a3 ^ a4,
                  a4 ^ a5 ^ a1,
                  a5 ^ a1,
                  a6 ^ a7 ^ a3 ^ (a1 << 11),
                  (a7 ^ a3).RotateLeft(21))
  {
  }

  lemma RetreatOfAdvanceWords(a0: UInt64, a1: UInt64, a2: UInt64, a3: UInt64, a4: UInt64, a5: UInt64, a6: UInt64, a7: UInt64)
    ensures Retreat(a0 ^ a6,
                    a1 ^ a2 ^ a0,
                    a2 ^ a0,
                    a3 ^ a4,
                    a4 ^ a5 ^ a1,
                    a5 ^ a1,
                    a6 ^ a7 ^ a3 ^ (a1 << 11),
                    (a7 ^ a3).RotateLeft(21))
         == State(a0, a1, a2, a3, a4, a5, a6, a7)
  {
  }

  lemma RetreatWords(n0: UInt64, n1: UInt64, n2: UInt64, n3: UInt64, n4: UInt64, n5: UInt64, n6: UInt64, n7: UInt64)
    ensures Retreat(n0, n1, n2, n3, n4, n5, n6, n7)
         == State(n0 ^ (n6 ^ n7.RotateLeft(43) ^ ((n1 ^ n2) << 11)),
                  (n1 ^ n2),
                  n2 ^ n0 ^ (n6 ^ n7.RotateLeft(43) ^ ((n1 ^ n2) << 11)),
                  n3 ^ n4 ^ n5,
                  n4 ^ n5,
                  n5 ^ (n1 ^ n2),
                  (n6 ^ n7.RotateLeft(43) ^ ((n1 ^ n2) << 11)),
                  n7.RotateLeft(43) ^ n3 ^ n4 ^ n5)
  {
  }

  lemma AdvanceOfRetreatWords(n0: UInt64, n1: UInt64, n2: UInt64, n3: UInt64, n4: UInt64, n5: UInt64, n6: UInt64, n7: UInt64)
    ensures Advance(n0 ^ (n6 ^ n7.RotateLeft(43) ^ ((n1 ^ n2) << 11)),
                    (n1 ^ n2),
                    n2 ^ n0 ^ (n6 ^ n7.RotateLeft(43) ^ ((n1 ^ n2) << 11)),
                    n3 ^ n4 ^ n5,
                    n4 ^ n5,
                    n5 ^ (n1 ^ n2),
                    (n6 ^ n7.RotateLeft(43) ^ ((n1 ^ n2) << 11)),
                    n7.RotateLeft(43) ^ n3 ^ n4 ^ n5)
         == State(n0, n1, n2, n3, n4, n5, n6, n7)
  {
  }

  /** `Transition` is injective: `Untransition` recovers the state it started from. */
  lemma UntransitionTransition(st: State)
    ensures Untransition(Transition(st)) == st
  {
    AdvanceWords(st.s0, st.s1, st.s2, st.s3, st.s4, st.s5, st.s6, st.s7);
    RetreatOfAdvanceWords(st.s0, st.s1, st.s2, st.s3, st.s4, st.s5, st.s6, st.s7);
  }

  /** `Transition` is onto: every state is reached from its `Untransition`. */
  lemma TransitionUntransition(st: State)
    ensures Transition(Untransition(st)) == st
  {
    RetreatWords(st.s0, st.s1, st.s2, st.s3, st.s4, st.s5, st.s6, st.s7);
    AdvanceOfRetreatWords(st.s0, st.s1, st.s2, st.s3, st.s4, st.s5, st.s6, st.s7);
  }

  /** A state is everywhere zero after `next()` exactly when it was before. */
  lemma TransitionPreservesValidity(st: State)
    ensures IsValid(Transition(st)) <==> IsValid(st)
  {
    UntransitionTransition(st);
    assert Transition(InvalidState) == InvalidState;
  }
}

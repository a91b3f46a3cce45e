/** SplitMix64: a one-word generator, used to expand a 64-bit seed into the
    words of the larger generators' states. */
module SplitMix64 {
  import opened SwiftUInt64

  /** The increment added to the state on every draw. */
  const Gamma: UInt64 := 0x9e3779b97f4a7c15

  /** The output mix applied to the advanced state: two xor-shift / wrapping-multiply
      rounds and a final xor-shift. Each step maps only zero to zero, so a draw is
      zero exactly when the state it was mixed from is zero. */
  function Mix(z: UInt64): (r: UInt64)
    ensures r == 0 <==> z == 0
  {
    FinalRound(SecondRound(FirstRound(z)))
  }

  // The source shifts with `&>>`, which takes the count modulo 64; the counts 30, 27 and 31
  // are below 64, so each is the plain shift by that count.

  /** `(z ^ (z &>> 30)) &* 0xbf58476d1ce4e5b9`: an xor-shift keeps a non-zero word non-zero,
      and multiplying by an odd constant is invertible modulo 2^64. */
  function FirstRound(z: UInt64): (r: UInt64)
    ensures r == 0 <==> z == 0
  {
    (z ^ (z >> 30)) * 0xbf58476d1ce4e5b9
  }

  /** `(z ^ (z &>> 27)) &* 0x94d049bb133111eb`. */
  function SecondRound(z: UInt64): (r: UInt64)
    ensures r == 0 <==> z == 0
  {
    (z ^ (z >> 27)) * 0x94d049bb133111eb
  }

  /** `z ^ (z &>> 31)`. */
  function FinalRound(z: UInt64): (r: UInt64)
    ensures r == 0 <==> z == 0
  {
    z ^ (z >> 31)
  }

  /** The state after one more draw: `s &+ 0x9e3779b97f4a7c15`. */
  function Step(s: UInt64): UInt64 {
    s + Gamma
  }

  /** The state after `n` draws from state `seed`. */
  function StateAfter(seed: UInt64, n: nat): UInt64 {
    if n == 0 then seed else Step(StateAfter(seed, n - 1))
  }

  /** `m` draws followed by `n` draws are `m + n` draws. */
  lemma {:induction false} StateAfterSum(seed: UInt64, m: nat, n: nat)
    ensures StateAfter(StateAfter(seed, m), n) == StateAfter(seed, m + n)
  {
    if n > 0 {
      StateAfterSum(seed, m, n - 1);
    }
  }

  /** The `i`-th word drawn (counting from 1) by a generator created with state `seed`:
      the mix of the state after that draw. */
  function Draw(seed: UInt64, i: nat): UInt64 {
    Mix(StateAfter(seed, i))
  }

  /** The first `n` words drawn from state `seed`, in order. */
  function Draws(seed: UInt64, n: nat): (ws: seq<UInt64>)
    ensures |ws| == n
    ensures forall i :: 0 <= i < n ==> ws[i] == Draw(seed, i + 1)
  {
    seq(n, i requires 0 <= i < n => Draw(seed, i + 1))
  }

  /** The `i`-th word drawn after `m` draws is the `(m + i)`-th word drawn. */
  lemma DrawAfter(seed: UInt64, m: nat, i: nat)
    ensures Draw(StateAfter(seed, m), i) == Draw(seed, m + i)
  {
    StateAfterSum(seed, m, i);
  }

  /** `m + n` draws are the first `m` draws followed by the `n` draws of a generator that
      starts where those `m` left off. */
  lemma DrawsSplit(seed: UInt64, m: nat, n: nat)
    ensures Draws(seed, m + n) == Draws(seed, m) + Draws(StateAfter(seed, m), n)
  {
    var whole, front, back := Draws(seed, m + n), Draws(seed, m), Draws(StateAfter(seed, m), n);
    forall i | m <= i < m + n
      ensures whole[i] == back[i - m]
    {
      DrawAfter(seed, m, i - m + 1);
    }
    assert whole == front + back;
  }

  /** Two consecutive draws are never both zero: their states differ by `Gamma`, which is not zero. */
  lemma ConsecutiveDrawsNotBothZero(seed: UInt64, i: nat)
    ensures Draw(seed, i) != 0 || Draw(seed, i + 1) != 0
  {
    assert StateAfter(seed, i + 1) == Step(StateAfter(seed, i));
  }

  /** The SplitMix64 generator: one word of state, advanced in place by `Next`. */
  class Generator {
    var s: UInt64

    /** `init(state:)` keeps the given word as the state. */
    constructor (state: UInt64)
      ensures s == state
    {
      s := state;
    }

    /** `next()`: advance the state by `Gamma`, then return the mix of the new state. */
    method Next() returns (r: UInt64)
      modifies this
      ensures s == Step(old(s))
      ensures r == Mix(s)
    {
      s := s + Gamma;
      var z := s;
      z := FirstRound(z);
      z := SecondRound(z);
      r := FinalRound(z);
    }
  }

  /** A generator created with state 0 reaches state `Gamma` after one draw, and that draw is
      the word 0xe220a8397b1dcdaf. */
  method FirstDrawFromZero() returns (state: UInt64, word: UInt64)
    ensures state == 0x9e3779b97f4a7c15
    ensures word == 0xe220a8397b1dcdaf
  {
    var g := new Generator(0);
    word := g.Next();
    state := g.s;
  }
}

/** The state shared by the two 1024-bit Xoroshiro generators: sixteen words and a pointer
    `p` to one of them, their validity checks, the seeding loop and the state update, which
    both generators run unchanged. */
module Xoroshiro1024 {
  import opened SwiftUInt64
  import SplitMix64

  /** `invalidState`: sixteen zero words. */
  const InvalidState: seq<UInt64> := [0, 0, 0, 0, 0, 0, 0, 0, 0, 0, 0, 0, 0, 0, 0, 0]

  /** `isValid(param:)`: the pointer lies in `paramRange`, `0..<16`. */
  predicate IsValidParam(p: int) {
    0 <= p < 16
  }

  /** `isValid(state:)` as written: the array is not `invalidState`. Its length is not
      checked. */
  predicate IsValidAsWritten(s: seq<UInt64>) {
    s != InvalidState
  }

  /** The check `next()` needs: exactly sixteen words, not all of them zero. `next()` reads
      only indices 0 to 15, so a shorter array makes it index out of range, and a longer one
      is run on its first sixteen words alone (ShortStateAccepted, LongZeroStateAccepted). */
  predicate IsValid(s: seq<UInt64>) {
    |s| == 16 && s != InvalidState
  }

  /** A state of sixteen words is valid exactly when one of its words is not zero. */
  lemma IsValidMeaning(s: seq<UInt64>)
    requires |s| == 16
    ensures IsValid(s) <==> exists i :: 0 <= i < 16 && s[i] != 0
  {
    if forall i :: 0 <= i < 16 ==> s[i] == 0 {
      assert s == InvalidState;
    }
  }

  /** A one-word array passes `isValid(state:)` as written, yet `next()` from pointer 0 reads
      index 1 of it, which does not exist. */
  lemma ShortStateAccepted()
    ensures IsValidParam(0) && IsValidAsWritten([1])
    ensures !(NextParam(0) < |[1 as UInt64]|)
    ensures !IsValid([1])
  {
    assert |InvalidState| == 16;
  }

  /** Seventeen words, the first sixteen of them zero, pass `isValid(state:)` as written. The
      words `next()` reads and writes are then all zero, which `next()` keeps
      (TransitionOfInvalid), so the generator returns zero forever. */
  lemma LongZeroStateAccepted()
    ensures IsValidAsWritten(InvalidState + [1])
    ensures (InvalidState + [1])[..16] == InvalidState
    ensures !IsValid(InvalidState + [1])
  {
    assert |InvalidState + [1]| == 17;
  }

  /** The pointer after `next()`: `(p + 1) & 15`, which on `0..<16` is the successor modulo
      16 (the addition cannot overflow there, so `&+` and `+` agree). */
  function NextParam(p: int): (next: int)
    requires IsValidParam(p)
    ensures IsValidParam(next)
    ensures next != p
  {
    (p + 1) % 16
  }

  /** The pointer before `next()`: the one pointer in `0..<16` whose successor is `p`. */
  function PreviousParam(p: int): (previous: int)
    requires IsValidParam(p)
    ensures IsValidParam(previous)
    ensures NextParam(previous) == p
    ensures forall q :: IsValidParam(q) && NextParam(q) == p ==> q == previous
  {
    (p + 15) % 16
  }

  /** The two words `next()` writes, from `s0 = s[p']` and `s15 = s[q]`: after `s15 ^= s0`,
      `s[q]` becomes `rotl(s0, 25) ^ s15 ^ (s15 << 27)` and `s[p']` becomes `rotl(s15, 36)`.
      The rotations are written as `RotateLeft` (Shared.Rotl25, Shared.Rotl36) and the shift
      as the plain shift (the count is below 64). */
  function Advance(s0: UInt64, s15: UInt64): (UInt64, UInt64) {
    var s15 := s15 ^ s0;
    (s0.RotateLeft(25) ^ s15 ^ (s15 << 27), s15.RotateLeft(36))
  }

  /** Undoes `Advance`: from the new `s[q]` and `s[p']`, a rotation by 28 gives `t = s15 ^ s0`,
      a rotation by 39 of `s[q] ^ t ^ (t << 27)` gives `s0`, and then `s15 = t ^ s0`. */
  function Retreat(atQ: UInt64, atP: UInt64): (UInt64, UInt64) {
    var t := atP.RotateLeft(28);
    var s0 := (atQ ^ t ^ (t << 27)).RotateLeft(39);
    (s0, t ^ s0)
  }

  // The words of Advance and of Retreat, written out; each round trip is then a matter of the
  // bits of plain words.

  lemma AdvanceWords(a: UInt64, b: UInt64)
    ensures Advance(a, b) == (a.RotateLeft(25) ^ (b ^ a) ^ ((b ^ a) << 27), (b ^ a).RotateLeft(36))
  {
  }

  lemma RetreatOfAdvanceWords(a: UInt64, b: UInt64)
    ensures Retreat(a.RotateLeft(25) ^ (b ^ a) ^ ((b ^ a) << 27), (b ^ a).RotateLeft(36)) == (a, b)
  {
  }

  lemma RetreatWords(a: UInt64, b: UInt64)
    ensures Retreat(a, b) == ((a ^ b.RotateLeft(28) ^ (b.RotateLeft(28) << 27)).RotateLeft(39),
                              b.RotateLeft(28) ^ (a ^ b.RotateLeft(28) ^ (b.RotateLeft(28) << 27)).RotateLeft(39))
  {
  }

  lemma AdvanceOfRetreatWords(a: UInt64, b: UInt64)
    ensures Advance((a ^ b.RotateLeft(28) ^ (b.RotateLeft(28) << 27)).RotateLeft(39),
                    b.RotateLeft(28) ^ (a ^ b.RotateLeft(28) ^ (b.RotateLeft(28) << 27)).RotateLeft(39))
         == (a, b)
  {
  }

  lemma RetreatAdvance(a: UInt64, b: UInt64)
    ensures Retreat(Advance(a, b).0, Advance(a, b).1) == (a, b)
  {
    AdvanceWords(a, b);
    RetreatOfAdvanceWords(a, b);
  }

  lemma AdvanceRetreat(a: UInt64, b: UInt64)
    ensures Advance(Retreat(a, b).0, Retreat(a, b).1) == (a, b)
  {
    RetreatWords(a, b);
    AdvanceOfRetreatWords(a, b);
  }

  /** The words `next()` leaves behind when it starts from pointer `p`: only `s[p]` and
      `s[p']` change, where `p'` is the next pointer; every other word and the length stay. */
  function Transition(p: int, s: seq<UInt64>): (t: seq<UInt64>)
    requires IsValidParam(p) && |s| == 16
    ensures |t| == 16
    ensures forall i :: 0 <= i < 16 && i != p && i != NextParam(p) ==> t[i] == s[i]
  {
    var next := Advance(s[NextParam(p)], s[p]);
    s[p := next.0][NextParam(p) := next.1]
  }

  /** The words `Transition` started from, given the pointer it started from. */
  function Untransition(p: int, t: seq<UInt64>): (s: seq<UInt64>)
    requires IsValidParam(p) && |t| == 16
    ensures |s| == 16
    ensures forall i :: 0 <= i < 16 && i != p && i != NextParam(p) ==> s[i] == t[i]
  {
    var previous := Retreat(t[p], t[NextParam(p)]);
    t[p := previous.1][NextParam(p) := previous.0]
  }

  /** `Transition` from a given pointer is injective: `Untransition` recovers the words. */
  lemma UntransitionTransition(p: int, s: seq<UInt64>)
    requires IsValidParam(p) && |s| == 16
    ensures Untransition(p, Transition(p, s)) == s
  {
    RetreatAdvance(s[NextParam(p)], s[p]);
    var u := Untransition(p, Transition(p, s));
    assert forall i :: 0 <= i < 16 ==> u[i] == s[i];
  }

  /** `Transition` from a given pointer is onto: every array of sixteen words is reached. */
  lemma TransitionUntransition(p: int, t: seq<UInt64>)
    requires IsValidParam(p) && |t| == 16
    ensures Transition(p, Untransition(p, t)) == t
  {
    AdvanceRetreat(t[p], t[NextParam(p)]);
    var u := Transition(p, Untransition(p, t));
    assert forall i :: 0 <= i < 16 ==> u[i] == t[i];
  }

  /** From sixteen zero words, `next()` leaves sixteen zero words. */
  lemma TransitionOfInvalid(p: int)
    requires IsValidParam(p)
    ensures Transition(p, InvalidState) == InvalidState
  {
    assert Advance(0, 0) == (0, 0);
  }

  lemma UntransitionOfInvalid(p: int)
    requires IsValidParam(p)
    ensures Untransition(p, InvalidState) == InvalidState
  {
    assert Retreat(0, 0) == (0, 0);
  }

  /** The words are all zero after `next()` exactly when they were before. */
  lemma TransitionPreservesValidity(p: int, s: seq<UInt64>)
    requires IsValidParam(p) && |s| == 16
    ensures IsValid(Transition(p, s)) <==> IsValid(s)
  {
    TransitionOfInvalid(p);
    UntransitionOfInvalid(p);
    UntransitionTransition(p, s);
  }

  /** The words the seeding loop draws from a SplitMix64 generator in state `start`: its first
      sixteen words, in order. */
  function SeededState(start: UInt64): seq<UInt64> {
    SplitMix64.Draws(start, 16)
  }

  /** The first sixteen words drawn are never all zero. */
  lemma SeededStateIsValid(start: UInt64)
    ensures IsValid(SeededState(start))
  {
    SplitMix64.ConsecutiveDrawsNotBothZero(start, 1);
    IsValidMeaning(SeededState(start));
    if SplitMix64.Draw(start, 1) != 0 {
      assert SeededState(start)[0] != 0;
    } else {
      assert SeededState(start)[1] != 0;
    }
  }

  /** After `consumed` draws spent on the pointer, the sixteen words are the draws numbered
      `consumed + 1` to `consumed + 16` of the generator seeded with `seed`. */
  lemma SeededAfterSkip(seed: UInt64, consumed: nat, i: int)
    requires 0 <= i < 16
    ensures SeededState(SplitMix64.StateAfter(seed, consumed))[i] == SplitMix64.Draw(seed, consumed + i + 1)
  {
    SplitMix64.DrawAfter(seed, consumed, i + 1);
  }

  /** `(0..<16).map { _ in generator.next() }`: sixteen draws, in order. */
  method DrawWords(generator: SplitMix64.Generator) returns (words: seq<UInt64>)
    modifies generator
    ensures words == SeededState(old(generator.s))
    ensures generator.s == SplitMix64.StateAfter(old(generator.s), 16)
  {
    ghost var start := generator.s;
    words := [];
    var i := 0;
    while i < 16
      invariant 0 <= i <= 16
      invariant generator.s == SplitMix64.StateAfter(start, i)
      invariant |words| == i
      invariant forall j :: 0 <= j < i ==> words[j] == SplitMix64.Draw(start, j + 1)
    {
      var w := generator.Next();
      words := words + [w];
      i := i + 1;
    }
  }

  /** The draws `randomElement(using:)` makes while picking the pointer: `count` calls of
      `next()` whose words are not kept. */
  method Skip(generator: SplitMix64.Generator, count: nat)
    modifies generator
    ensures generator.s == SplitMix64.StateAfter(old(generator.s), count)
  {
    ghost var start := generator.s;
    var i := 0;
    while i < count
      invariant 0 <= i <= count
      invariant generator.s == SplitMix64.StateAfter(start, i)
    {
      var _ := generator.Next();
      i := i + 1;
    }
  }

  /** The loop of `init(seed:)`, the same in both generators: draw sixteen words until they
      pass `isValid(state:)`. The first sixteen are never all zero, so it ends after one pass. */
  method SeedState(generator: SplitMix64.Generator) returns (state: seq<UInt64>)
    modifies generator
    ensures state == SeededState(old(generator.s))
  {
    SeededStateIsValid(generator.s);
    ghost var start := generator.s;
    state := InvalidState;
    var again := true;
    while again
      invariant again ==> state == InvalidState && generator.s == start
      invariant !again ==> state == SeededState(start)
      decreases again
    {
      state := DrawWords(generator);
      again := !IsValidAsWritten(state);
    }
  }
}

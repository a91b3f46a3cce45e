# PseudoRandom in Dafny

A model of the Swift package PseudoRandom. It covers the seven non-cryptographic 64-bit
generators of Blackman and Vigna (Xoroshiro128+, Xoroshiro128++, Xoroshiro1024*,
Xoroshiro1024**, Xoshiro256+, Xoshiro512+ and Xoshiro512++) and the SplitMix64 generator that
expands a 64-bit seed into their states. It also covers the `rotl` helper, the `Stateful`
convention through which every `next()` updates a generator, and the tally half of the
`ShannonEntropy` analysis.

Modules, one per source file or family:

- `SwiftUInt64` (swift_uint64.dfy): Swift's `UInt64` operators.
  - The wrapping `&+` and `&*` are Dafny's `bv64` arithmetic, named `Sum` and `Product`.
  - The smart shifts `<<` and `>>` give 0 for a count of 64 or more.
  - The trapping `+` and `*` give a `Checked` value whose `Trap` stands for the stopped process.
- `Shared` (shared.dfy): `rotl`, and what it means for each rotation count the generators use.
- `SplitMix64` (splitmix64.dfy): the seed expander.
  - Its `Generator` class updates its word in place.
  - `StateAfter`, `Draw` and `Draws` are the state and the words after `n` calls.
- `Stateful` (stateful.dfy): the two `next(_:)` conventions. The plain one runs the step on `s`.
  The extended one copies `p` and `s` out, runs the step and writes both back.
- `Xoroshiro128`, `Xoshiro256`, `Xoshiro512`, `Xoroshiro1024`: the state of each family. Each has:
  - the all-zero `invalidState`;
  - `isValid(state:)`, both as written (`CheckedIsValid`, `IsValidAsWritten`) and as the check
    the algorithms need (`IsValid`);
  - the state `init(seed:)` arrives at (`SeededState`).

  Where a family's generators share their update (Xoshiro512, Xoroshiro1024), the family
  module also holds that update, `Transition`, and its inverse `Untransition`. The two
  Xoroshiro128 generators update their state with different constants, so each generator's
  module holds its own; the one Xoshiro256 generator holds its own too.
- One module per generator: its output, and a `Generator` class with
  - `FromState` for `init(state:)` or `init(param:state:)`;
  - `FromSeed` for `init(seed:)`;
  - `Next` for `next()`.
- `Entropy` (shannon_entropy.dfy): the `ShannonEntropy` class with its `observations`
  dictionary, `add(observation:)`, `add(observations:)` and the precondition of `entropy()`.

What is proved, in short:

- every update is a bijection on states, with an explicit inverse;
- the all-zero state is a fixed point of every update and no other state maps onto it, so
  `next()` keeps a valid state valid;
- `rotl` with the constants used is a rotation;
- SplitMix64's mix maps only zero to zero, so the first pass of every seeding loop already
  yields a valid state. The `repeat … while` loops therefore run once wherever their check does
  not trap; the Xoshiro checks do trap for some seeds, seed 0 among them (see Findings);
- the trapping arithmetic in three outputs and in two validity checks agrees with the wrapping
  reference whenever it does not trap, and concrete inputs are exhibited where it traps;
- the entropy tally counts each element's occurrences, and `entropy()`'s precondition holds
  exactly when no more distinct elements were observed than the domain holds.

Where the Swift code departs from Blackman and Vigna's reference C code, the model follows the
Swift code:

- The reference C code wraps every `+` and `*` on `uint64_t`. The Swift code uses the trapping
  `+` in `Xoshiro256.isValid`, `Xoshiro512.isValid`, `Xoshiro256Plus.next` and
  `Xoshiro512PlusPlus.next`, and the trapping `*` in `Xoroshiro1024StarStar.next`. The model
  keeps those traps (see Findings).
- In C a shift by 64 is undefined, so the reference `rotl` is meant for counts 1 to 63. Swift's
  smart shifts make `rotl(x, 0)` and `rotl(x, 64)` return `x`, and every count above 64
  return 0; `Shared.Rotl` and `Shared.RotlBeyondWidth` state this.

## Model

All source paths are under `Sources/PseudoRandom/`.

| member | source | states |
|---|---|---|
| Shared.Rotl | Sources/PseudoRandom/Shared.swift:7-9 | a rotation count of 0 or 64 returns the word unchanged, because the smart shifts of `x >> 64` and `x << 64` give 0 |
| Shared.RotlBeyondWidth | Sources/PseudoRandom/Shared.swift:7-9 | a count above 64 makes `64 &- k` wrap to 64 or more, so both shifts give 0 and `rotl` returns 0 |
| Shared.Rotl7 | Sources/PseudoRandom/Shared.swift:7-9 | `rotl(x, 7)` is the bit rotation left by 7; rotating the result by 57 gives `x` back; it is zero only for `x == 0` |
| Shared.RotlXor7 | Sources/PseudoRandom/Shared.swift:7-9 | `rotl(_, 7)` distributes over xor |
| Shared.Rotl17 | Sources/PseudoRandom/Shared.swift:7-9 | `rotl(x, 17)` is the rotation by 17, undone by 47, zero only on zero |
| Shared.RotlXor17 | Sources/PseudoRandom/Shared.swift:7-9 | `rotl(_, 17)` distributes over xor |
| Shared.Rotl21 | Sources/PseudoRandom/Shared.swift:7-9 | `rotl(x, 21)` is the rotation by 21, undone by 43, zero only on zero |
| Shared.RotlXor21 | Sources/PseudoRandom/Shared.swift:7-9 | `rotl(_, 21)` distributes over xor |
| Shared.Rotl24 | Sources/PseudoRandom/Shared.swift:7-9 | `rotl(x, 24)` is the rotation by 24, undone by 40, zero only on zero |
| Shared.RotlXor24 | Sources/PseudoRandom/Shared.swift:7-9 | `rotl(_, 24)` distributes over xor |
| Shared.Rotl25 | Sources/PseudoRandom/Shared.swift:7-9 | `rotl(x, 25)` is the rotation by 25, undone by 39, zero only on zero |
| Shared.RotlXor25 | Sources/PseudoRandom/Shared.swift:7-9 | `rotl(_, 25)` distributes over xor |
| Shared.Rotl28 | Sources/PseudoRandom/Shared.swift:7-9 | `rotl(x, 28)` is the rotation by 28, undone by 36, zero only on zero |
| Shared.RotlXor28 | Sources/PseudoRandom/Shared.swift:7-9 | `rotl(_, 28)` distributes over xor |
| Shared.Rotl36 | Sources/PseudoRandom/Shared.swift:7-9 | `rotl(x, 36)` is the rotation by 36, undone by 28, zero only on zero |
| Shared.RotlXor36 | Sources/PseudoRandom/Shared.swift:7-9 | `rotl(_, 36)` distributes over xor |
| Shared.Rotl37 | Sources/PseudoRandom/Shared.swift:7-9 | `rotl(x, 37)` is the rotation by 37, undone by 27, zero only on zero |
| Shared.RotlXor37 | Sources/PseudoRandom/Shared.swift:7-9 | `rotl(_, 37)` distributes over xor |
| Shared.Rotl45 | Sources/PseudoRandom/Shared.swift:7-9 | `rotl(x, 45)` is the rotation by 45, undone by 19, zero only on zero |
| Shared.RotlXor45 | Sources/PseudoRandom/Shared.swift:7-9 | `rotl(_, 45)` distributes over xor |
| Shared.Rotl49 | Sources/PseudoRandom/Shared.swift:7-9 | `rotl(x, 49)` is the rotation by 49, undone by 15, zero only on zero |
| Shared.RotlXor49 | Sources/PseudoRandom/Shared.swift:7-9 | `rotl(_, 49)` distributes over xor |
| SplitMix64.Mix | Sources/PseudoRandom/SplitMix64/SplitMix64.swift:32-35 | the output mix returns zero exactly when the advanced state is zero |
| SplitMix64.FirstRound | Sources/PseudoRandom/SplitMix64/SplitMix64.swift:33 | the first xor-shift/multiply round maps only zero to zero |
| SplitMix64.SecondRound | Sources/PseudoRandom/SplitMix64/SplitMix64.swift:34 | the second round maps only zero to zero |
| SplitMix64.FinalRound | Sources/PseudoRandom/SplitMix64/SplitMix64.swift:35 | the final xor-shift maps only zero to zero |
| SplitMix64.StateAfterSum | Sources/PseudoRandom/SplitMix64/SplitMix64.swift:31 | `m` calls of `next()` followed by `n` more leave the state that `m + n` calls leave |
| SplitMix64.DrawsSplit | Sources/PseudoRandom/SplitMix64/SplitMix64.swift:29-37 | `m + n` words drawn from a seed are the first `m` words followed by the `n` words a generator draws from the state those `m` calls leave |
| SplitMix64.DrawAfter | Sources/PseudoRandom/SplitMix64/SplitMix64.swift:29-37 | the `i`-th word drawn after `m` earlier calls is the `(m + i)`-th word drawn from the seed |
| SplitMix64.ConsecutiveDrawsNotBothZero | Sources/PseudoRandom/SplitMix64/SplitMix64.swift:31-35 | two consecutive words are never both zero, since their states differ by the odd increment |
| SplitMix64.Generator.constructor | Sources/PseudoRandom/SplitMix64/SplitMix64.swift:21-23 | `init(state:)` stores the seed verbatim |
| SplitMix64.Generator.Next | Sources/PseudoRandom/SplitMix64/SplitMix64.swift:29-37 | the state advances by `0x9e3779b97f4a7c15` modulo 2^64, and the word returned is the mix of the new state |
| SplitMix64.FirstDrawFromZero | Sources/PseudoRandom/SplitMix64/SplitMix64.swift:31-35 | from state 0, one call leaves state `0x9e3779b97f4a7c15` and returns `0xe220a8397b1dcdaf` |
| Stateful.Cell.Next | Sources/PseudoRandom/Stateful.swift:17-21 | the step runs on the generator's state; the state it leaves becomes the new state, and its word is returned |
| Stateful.ExtendedCell.Next | Sources/PseudoRandom/Stateful.swift:37-45 | `p` and `s` are copied out and the step runs on the copies; both copies are written back and the step's word is returned |
| Xoroshiro128.IsValid | Sources/PseudoRandom/Xoroshiro/Xoroshiro128/Xoroshiro128.swift:14-16 | a state is valid exactly when one of its two words is not zero |
| Xoroshiro128.SeededStateIsValid | Sources/PseudoRandom/Xoroshiro/Xoroshiro128/Xoroshiro128Plus.swift:59-64 | the first two SplitMix64 words always form a valid state, so the seeding loop runs once |
| Xoroshiro128Plus.UntransitionTransition | Sources/PseudoRandom/Xoroshiro/Xoroshiro128/Xoroshiro128Plus.swift:94-96 | the update is injective: the explicit inverse recovers every state |
| Xoroshiro128Plus.TransitionUntransition | Sources/PseudoRandom/Xoroshiro/Xoroshiro128/Xoroshiro128Plus.swift:94-96 | the update is onto: every state is the update of its inverse image |
| Xoroshiro128Plus.TransitionPreservesValidity | Sources/PseudoRandom/Xoroshiro/Xoroshiro128/Xoroshiro128Plus.swift:94-96 | a state is valid after the update exactly when it was valid before |
| Xoroshiro128Plus.Generator.FromState | Sources/PseudoRandom/Xoroshiro/Xoroshiro128/Xoroshiro128Plus.swift:75-81 | the precondition rejects the all-zero state; the state is kept as given |
| Xoroshiro128Plus.Generator.FromSeed | Sources/PseudoRandom/Xoroshiro/Xoroshiro128/Xoroshiro128Plus.swift:55-67 | the state is the first two SplitMix64 words of the seed, in order, and it is valid |
| Xoroshiro128Plus.Generator.Next | Sources/PseudoRandom/Xoroshiro/Xoroshiro128/Xoroshiro128Plus.swift:87-100 | returns `s0 &+ s1` of the old state; the new state is the update of the old one; validity is kept |
| Xoroshiro128PlusPlus.UntransitionTransition | Sources/PseudoRandom/Xoroshiro/Xoroshiro128/Xoroshiro128PlusPlus.swift:83-85 | the update is injective: the explicit inverse recovers every state |
| Xoroshiro128PlusPlus.TransitionUntransition | Sources/PseudoRandom/Xoroshiro/Xoroshiro128/Xoroshiro128PlusPlus.swift:83-85 | the update is onto |
| Xoroshiro128PlusPlus.TransitionPreservesValidity | Sources/PseudoRandom/Xoroshiro/Xoroshiro128/Xoroshiro128PlusPlus.swift:83-85 | a state is valid after the update exactly when it was valid before |
| Xoroshiro128PlusPlus.Generator.FromState | Sources/PseudoRandom/Xoroshiro/Xoroshiro128/Xoroshiro128PlusPlus.swift:65-71 | the precondition rejects the all-zero state; the state is kept as given |
| Xoroshiro128PlusPlus.Generator.FromSeed | Sources/PseudoRandom/Xoroshiro/Xoroshiro128/Xoroshiro128PlusPlus.swift:45-57 | the state is the first two SplitMix64 words of the seed, in order, and it is valid |
| Xoroshiro128PlusPlus.Generator.Next | Sources/PseudoRandom/Xoroshiro/Xoroshiro128/Xoroshiro128PlusPlus.swift:77-89 | returns `rotl(s0 &+ s1, 17) &+ s0` of the old state; the new state is the update of the old one; validity is kept |
| Xoroshiro1024.IsValidMeaning | Sources/PseudoRandom/Xoroshiro/Xoroshiro1024/Xoroshiro1024.swift:21-23 | sixteen words are valid exactly when one of them is not zero |
| Xoroshiro1024.ShortStateAccepted | Sources/PseudoRandom/Xoroshiro/Xoroshiro1024/Xoroshiro1024.swift:21-23 | a one-word array passes `isValid(state:)` as written, although `next()` from pointer 0 reads an index it does not have |
| Xoroshiro1024.LongZeroStateAccepted | Sources/PseudoRandom/Xoroshiro/Xoroshiro1024/Xoroshiro1024.swift:21-23 | seventeen words whose first sixteen are zero pass `isValid(state:)` as written, although the sixteen words `next()` uses are the all-zero state |
| Xoroshiro1024.NextParam | Sources/PseudoRandom/Xoroshiro/Xoroshiro1024/Xoroshiro1024Star.swift:96-97 | the pointer after `next()` stays in `0..<16` and differs from the old one |
| Xoroshiro1024.PreviousParam | Sources/PseudoRandom/Xoroshiro/Xoroshiro1024/Xoroshiro1024Star.swift:96-97 | every pointer in `0..<16` is the successor of one pointer in `0..<16`, and of no other |
| Xoroshiro1024.RetreatAdvance | Sources/PseudoRandom/Xoroshiro/Xoroshiro1024/Xoroshiro1024Star.swift:103-105 | the two words the update writes determine the two words it read |
| Xoroshiro1024.AdvanceRetreat | Sources/PseudoRandom/Xoroshiro/Xoroshiro1024/Xoroshiro1024Star.swift:103-105 | every pair of words is written by the update from some pair |
| Xoroshiro1024.Transition | Sources/PseudoRandom/Xoroshiro/Xoroshiro1024/Xoroshiro1024Star.swift:99-105 | the update keeps sixteen words and changes none but `s[q]` and `s[p]` |
| Xoroshiro1024.Untransition | Sources/PseudoRandom/Xoroshiro/Xoroshiro1024/Xoroshiro1024Star.swift:99-105 | the inverse keeps sixteen words and changes none but the two the update writes |
| Xoroshiro1024.UntransitionTransition | Sources/PseudoRandom/Xoroshiro/Xoroshiro1024/Xoroshiro1024Star.swift:99-105 | from a given pointer, the update is injective on the sixteen words |
| Xoroshiro1024.TransitionUntransition | Sources/PseudoRandom/Xoroshiro/Xoroshiro1024/Xoroshiro1024Star.swift:99-105 | from a given pointer, the update is onto the arrays of sixteen words |
| Xoroshiro1024.TransitionOfInvalid | Sources/PseudoRandom/Xoroshiro/Xoroshiro1024/Xoroshiro1024Star.swift:103-105 | the update leaves sixteen zero words as they are |
| Xoroshiro1024.UntransitionOfInvalid | Sources/PseudoRandom/Xoroshiro/Xoroshiro1024/Xoroshiro1024Star.swift:103-105 | the inverse leaves sixteen zero words as they are |
| Xoroshiro1024.TransitionPreservesValidity | Sources/PseudoRandom/Xoroshiro/Xoroshiro1024/Xoroshiro1024Star.swift:99-105 | the words are valid after the update exactly when they were before |
| Xoroshiro1024.SeededStateIsValid | Sources/PseudoRandom/Xoroshiro/Xoroshiro1024/Xoroshiro1024Star.swift:62-65 | the first sixteen SplitMix64 words are never all zero, so the seeding loop runs once |
| Xoroshiro1024.SeededAfterSkip | Sources/PseudoRandom/Xoroshiro/Xoroshiro1024/Xoroshiro1024Star.swift:57-64 | after the draws spent on the pointer, the sixteen words are the next sixteen words of the seed |
| Xoroshiro1024.DrawWords | Sources/PseudoRandom/Xoroshiro/Xoroshiro1024/Xoroshiro1024Star.swift:64 | `(0..<16).map { _ in generator.next() }` returns the next sixteen words in order and advances the expander by sixteen calls |
| Xoroshiro1024.Skip | Sources/PseudoRandom/Xoroshiro/Xoroshiro1024/Xoroshiro1024Star.swift:57-60 | the draws made while picking the pointer advance the expander by that many calls |
| Xoroshiro1024.SeedState | Sources/PseudoRandom/Xoroshiro/Xoroshiro1024/Xoroshiro1024Star.swift:62-65 | the seeding loop returns the next sixteen words of the expander |
| Xoroshiro1024Star.OutputZero | Sources/PseudoRandom/Xoroshiro/Xoroshiro1024/Xoroshiro1024Star.swift:99-101 | the output is zero exactly when the word at the new pointer is zero |
| Xoroshiro1024Star.ScrambleZero | Sources/PseudoRandom/Xoroshiro/Xoroshiro1024/Xoroshiro1024Star.swift:101 | multiplying by the odd constant maps only zero to zero |
| Xoroshiro1024Star.Generator.FromState | Sources/PseudoRandom/Xoroshiro/Xoroshiro1024/Xoroshiro1024Star.swift:76-87 | the pointer must lie in `0..<16` and the words must not be all zero; both are kept as given |
| Xoroshiro1024Star.Generator.FromSeed | Sources/PseudoRandom/Xoroshiro/Xoroshiro1024/Xoroshiro1024Star.swift:54-68 | the pointer is the one picked; the words are the sixteen SplitMix64 words after those spent picking it; the generator is valid |
| Xoroshiro1024Star.Generator.Next | Sources/PseudoRandom/Xoroshiro/Xoroshiro1024/Xoroshiro1024Star.swift:94-109 | the pointer advances modulo 16; the words are updated at the old and new pointer; the result is the scrambled old word at the new pointer; validity is kept |
| Xoroshiro1024StarStar.CheckedScrambleAgrees | Sources/PseudoRandom/Xoroshiro/Xoroshiro1024/Xoroshiro1024StarStar.swift:93 | where `rotl(s0 * 5, 7) * 9` does not trap, it equals the wrapping scrambler |
| Xoroshiro1024StarStar.ScrambleZero | Sources/PseudoRandom/Xoroshiro/Xoroshiro1024/Xoroshiro1024StarStar.swift:93 | the wrapping scrambler maps only zero to zero |
| Xoroshiro1024StarStar.FirstOutputTraps | Sources/PseudoRandom/Xoroshiro/Xoroshiro1024/Xoroshiro1024StarStar.swift:93 | a pointer and sixteen words accepted by `init(param:state:)` make the first `next()` trap |
| Xoroshiro1024StarStar.Generator.FromState | Sources/PseudoRandom/Xoroshiro/Xoroshiro1024/Xoroshiro1024StarStar.swift:69-80 | the pointer must lie in `0..<16` and the words must not be all zero; both are kept as given |
| Xoroshiro1024StarStar.Generator.FromSeed | Sources/PseudoRandom/Xoroshiro/Xoroshiro1024/Xoroshiro1024StarStar.swift:47-61 | the pointer is the one picked; the words are the sixteen SplitMix64 words after those spent picking it; the generator is valid |
| Xoroshiro1024StarStar.Generator.Next | Sources/PseudoRandom/Xoroshiro/Xoroshiro1024/Xoroshiro1024StarStar.swift:87-101 | when the scrambler does not trap, its value is returned and is the wrapping scrambler of the old word at the new pointer; the pointer and words advance as in Xoroshiro1024*; validity is kept |
| Xoshiro256.IsValid | Sources/PseudoRandom/Xoshiro/Xoshiro256/Xoshiro256.swift:14-17 | a state is valid exactly when one of its four words is not zero |
| Xoshiro256.CheckedIsValidMeaning | Sources/PseudoRandom/Xoshiro/Xoshiro256/Xoshiro256.swift:14-17 | `isValid` as written traps exactly when the four words add up to more than `UInt64.max`; otherwise it accepts exactly the valid states |
| Xoshiro256.InvalidStateIsInvalid | Sources/PseudoRandom/Xoshiro/Xoshiro256/Xoshiro256.swift:10-17 | `isValid(invalidState)` is false, without a trap |
| Xoshiro256.DrawState | Sources/PseudoRandom/Xoshiro/Xoshiro256/Xoshiro256Plus.swift:53-58 | the tuple built from four `next()` calls is the next four words in order, and the expander advances by four calls |
| Xoshiro256.SeededStateIsValid | Sources/PseudoRandom/Xoshiro/Xoshiro256/Xoshiro256Plus.swift:52-59 | the first four SplitMix64 words are never all zero |
| Xoshiro256.SeedZeroTraps | Sources/PseudoRandom/Xoshiro/Xoshiro256/Xoshiro256.swift:15 | for seed 0 the validity check in `init(seed:)` traps |
| Xoshiro256.Seed20Accepted | Sources/PseudoRandom/Xoshiro/Xoshiro256/Xoshiro256.swift:14-17 | for seed 20 the validity check in `init(seed:)` does not trap and accepts the drawn state |
| Xoshiro256Plus.UntransitionTransition | Sources/PseudoRandom/Xoshiro/Xoshiro256/Xoshiro256Plus.swift:86-95 | the update is injective: the explicit inverse recovers every state |
| Xoshiro256Plus.TransitionUntransition | Sources/PseudoRandom/Xoshiro/Xoshiro256/Xoshiro256Plus.swift:86-95 | the update is onto |
| Xoshiro256Plus.TransitionPreservesValidity | Sources/PseudoRandom/Xoshiro/Xoshiro256/Xoshiro256Plus.swift:86-95 | a state is valid after the update exactly when it was valid before |
| Xoshiro256Plus.OutputAgrees | Sources/PseudoRandom/Xoshiro/Xoshiro256/Xoshiro256Plus.swift:84 | where `s.0 + s.3` does not trap, it is the wrapping sum |
| Xoshiro256Plus.SecondOutputTraps | Sources/PseudoRandom/Xoshiro/Xoshiro256/Xoshiro256Plus.swift:84 | a state accepted by `init(state:)` whose first output does not trap but whose second does |
| Xoshiro256Plus.SeedState | Sources/PseudoRandom/Xoshiro/Xoshiro256/Xoshiro256Plus.swift:52-59 | where the check does not trap, the seeding loop returns the first four SplitMix64 words of the seed |
| Xoshiro256Plus.Generator.FromState | Sources/PseudoRandom/Xoshiro/Xoshiro256/Xoshiro256Plus.swift:70-76 | the precondition is `isValid` as written, which must not trap and must hold; the state is kept and is valid |
| Xoshiro256Plus.Generator.FromSeed | Sources/PseudoRandom/Xoshiro/Xoshiro256/Xoshiro256Plus.swift:48-62 | where the check does not trap, the state is the first four SplitMix64 words of the seed |
| Xoshiro256Plus.Generator.Next | Sources/PseudoRandom/Xoshiro/Xoshiro256/Xoshiro256Plus.swift:82-99 | when `s.0 + s.3` does not trap, its value is returned and equals the wrapping sum; the new state is the update of the old one; validity is kept |
| Xoshiro512.IsValid | Sources/PseudoRandom/Xoshiro/Xoshiro512/Xoshiro512.swift:18-23 | a state is valid exactly when one of its eight words is not zero |
| Xoshiro512.CheckedSumPositiveMeaning | Sources/PseudoRandom/Xoshiro/Xoshiro512/Xoshiro512.swift:19-22 | the two partial sums and their total trap exactly when the total exceeds `UInt64.max`; otherwise the total is positive exactly when some term is |
| Xoshiro512.CheckedIsValidTraps | Sources/PseudoRandom/Xoshiro/Xoshiro512/Xoshiro512.swift:19-21 | `isValid` as written traps exactly when the eight words add up to more than `UInt64.max` |
| Xoshiro512.CheckedIsValidAccepts | Sources/PseudoRandom/Xoshiro/Xoshiro512/Xoshiro512.swift:18-23 | where `isValid` as written does not trap, it accepts exactly the valid states |
| Xoshiro512.InvalidStateIsInvalid | Sources/PseudoRandom/Xoshiro/Xoshiro512/Xoshiro512.swift:11-23 | `isValid(invalidState)` is false, without a trap |
| Xoshiro512.DrawState | Sources/PseudoRandom/Xoshiro/Xoshiro512/Xoshiro512Plus.swift:53-62 | the tuple built from eight `next()` calls is the next eight words in order, and the expander advances by eight calls |
| Xoshiro512.SeededStateIsValid | Sources/PseudoRandom/Xoshiro/Xoshiro512/Xoshiro512Plus.swift:52-63 | the first eight SplitMix64 words are never all zero |
| Xoshiro512.SeedState | Sources/PseudoRandom/Xoshiro/Xoshiro512/Xoshiro512Plus.swift:52-63 | where the check does not trap, the seeding loop returns the first eight SplitMix64 words of the seed |
| Xoshiro512.SeedZeroTraps | Sources/PseudoRandom/Xoshiro/Xoshiro512/Xoshiro512.swift:19-21 | for seed 0 the validity check in `init(seed:)` traps |
| Xoshiro512.Seed7534Accepted | Sources/PseudoRandom/Xoshiro/Xoshiro512/Xoshiro512.swift:18-23 | for seed 7534 the validity check in `init(seed:)` does not trap and accepts the drawn state |
| Xoshiro512.UntransitionTransition | Sources/PseudoRandom/Xoshiro/Xoshiro512/Xoshiro512Plus.swift:90-103 | the update is injective: the explicit inverse recovers every state |
| Xoshiro512.TransitionUntransition | Sources/PseudoRandom/Xoshiro/Xoshiro512/Xoshiro512Plus.swift:90-103 | the update is onto |
| Xoshiro512.TransitionPreservesValidity | Sources/PseudoRandom/Xoshiro/Xoshiro512/Xoshiro512Plus.swift:90-103 | a state is valid after the update exactly when it was valid before |
| Xoshiro512Plus.Generator.FromState | Sources/PseudoRandom/Xoshiro/Xoshiro512/Xoshiro512Plus.swift:74-80 | the precondition is `isValid` as written, which must not trap and must hold; the state is kept and is valid |
| Xoshiro512Plus.Generator.FromSeed | Sources/PseudoRandom/Xoshiro/Xoshiro512/Xoshiro512Plus.swift:48-66 | where the check does not trap, the state is the first eight SplitMix64 words of the seed |
| Xoshiro512Plus.Generator.Next | Sources/PseudoRandom/Xoshiro/Xoshiro512/Xoshiro512Plus.swift:86-107 | returns `s.0 &+ s.2` of the old state; the new state is the update of the old one; validity is kept |
| Xoshiro512PlusPlus.CheckedRotatedSumAgrees | Sources/PseudoRandom/Xoshiro/Xoshiro512/Xoshiro512PlusPlus.swift:84 | where `rotl(a + b, 17) + b` does not trap, it equals its wrapping counterpart |
| Xoshiro512PlusPlus.OutputAgrees | Sources/PseudoRandom/Xoshiro/Xoshiro512/Xoshiro512PlusPlus.swift:84 | where the output as written does not trap, it is the wrapping output |
| Xoshiro512PlusPlus.FirstOutputTraps | Sources/PseudoRandom/Xoshiro/Xoshiro512/Xoshiro512PlusPlus.swift:84 | a state accepted by `init(state:)` makes the first `next()` trap |
| Xoshiro512PlusPlus.Generator.FromState | Sources/PseudoRandom/Xoshiro/Xoshiro512/Xoshiro512PlusPlus.swift:70-76 | the precondition is `isValid` as written, which must not trap and must hold; the state is kept and is valid |
| Xoshiro512PlusPlus.Generator.FromSeed | Sources/PseudoRandom/Xoshiro/Xoshiro512/Xoshiro512PlusPlus.swift:44-62 | where the check does not trap, the state is the first eight SplitMix64 words of the seed |
| Xoshiro512PlusPlus.Generator.Next | Sources/PseudoRandom/Xoshiro/Xoshiro512/Xoshiro512PlusPlus.swift:82-103 | when the output does not trap, its value is returned and equals the wrapping output; the new state is the update of the old one; validity is kept |
| Entropy.AddedAllCount | Sources/PseudoRandom/ShannonEntropy.swift:25-40 | after a sequence of observations, each element's count is its count before plus its number of occurrences |
| Entropy.AddedAllKeys | Sources/PseudoRandom/ShannonEntropy.swift:25-40 | after a sequence of observations, the stored elements are those stored before and those observed |
| Entropy.AddedAllPositive | Sources/PseudoRandom/ShannonEntropy.swift:25-40 | observations keep every stored count at least 1 |
| Entropy.DistinctCountAfter | Sources/PseudoRandom/ShannonEntropy.swift:45 | from no observations, the number of stored elements is the number of distinct elements observed |
| Entropy.ShannonEntropy.constructor | Sources/PseudoRandom/ShannonEntropy.swift:13-19 | the domain count must be positive; there are no observations and the observation count is 0 |
| Entropy.ShannonEntropy.AddObservation | Sources/PseudoRandom/ShannonEntropy.swift:38-40 | the element's count goes up by one, from 0 if it was never seen; every other count and both other fields stay |
| Entropy.ShannonEntropy.AddObservations | Sources/PseudoRandom/ShannonEntropy.swift:25-32 | the tally is the one observing each element in order; both other fields stay |
| Entropy.TallyOf | Sources/PseudoRandom/ShannonEntropy.swift:13-45 | a fresh tally fed a sequence meets `entropy()`'s precondition exactly when the sequence holds at most `domainCount` distinct elements, and each count is the number of occurrences |

## Left out

- The no-argument `init()` of every generator draws its seed from the system's random source; it is not modelled, since a seed parameter covers every outcome.
- `Range.randomElement(using:)` in the 1024-bit `init(seed:)` is a standard-library routine whose draw count and mapping are not visible. `FromSeed` takes the pointer it picks and the number of words it consumes as parameters.
- `entropy()` and `efficiency()` compute floating-point logarithms and are not modelled. Only their precondition (`EntropyDefined`) and the tally they read are.
- The test suite, the benchmarks and the statistical quality of the generators are outside the model.
- Shared.Rotl: facts about a general count are stated only for 0, 64 and above 64. The rotation facts are proved for the ten constant counts the generators use, because a symbolic shift count is beyond what the verifier proves in reasonable time.
- SplitMix64.StateAfterSum: the closed form "after `n` calls the state is `seed + n·0x9e3779b97f4a7c15` modulo 2^64" is not stated. Relating `n` to a 64-bit product needs an integer-to-word conversion that the verifier does not finish. The model states composition of calls instead.
- Xoroshiro128Plus.Generator.Next, Xoroshiro128PlusPlus.Generator.Next, Xoshiro256Plus.Generator.Next, Xoshiro512Plus.Generator.Next, Xoshiro512PlusPlus.Generator.Next: the in-place statements of the update are written as one state-to-state function whose local bindings follow the source's statement order; the model does not replay them field by field on the object.
- Xoshiro256Plus.Generator.FromSeed, Xoshiro512Plus.Generator.FromSeed, Xoshiro512PlusPlus.Generator.FromSeed: validity of the seeded state is stated by `SeededStateIsValid`, not in the constructor's own postcondition.
- Xoshiro256Plus.Generator.FromSeed, Xoshiro512Plus.Generator.FromSeed, Xoshiro512PlusPlus.Generator.FromSeed, Xoshiro256Plus.Generator.Next, Xoshiro512PlusPlus.Generator.Next, Xoroshiro1024StarStar.Generator.Next: a trap of Swift's `+` or `*` stops the process; the model states it as a precondition that the trapping expression has a value.
- Xoroshiro1024Star.Generator.FromState, Xoroshiro1024StarStar.Generator.FromState: these require exactly sixteen words, which `init(param:state:)` does not check (see Findings). A shorter array would trap on an out-of-range index in `next()`. A longer array is accepted by the source and `next()` runs on its first sixteen words only; the model does not cover it. When those sixteen words are all zero, the generator returns zero forever.
- Entropy.ShannonEntropy.AddObservation: Swift's `Int` counts trap on overflow past 2^63 - 1; the model's counts are unbounded.
- The `Stateful` classes state the calling convention on their own; the generators inline it (`Next` replaces the state with the step's result) rather than pass closures through `Stateful.Cell`.
- Swift's `precondition` calls (in every `init(state:)` and `init(param:state:)`) are modelled as `requires`. So are the two `assert` calls of `ShannonEntropy`, `domainCount > 0` in `init(domainCount:)` (ShannonEntropy.swift:14) and the distinct-count bound in `entropy()` (line 45). Those `assert` calls are checked only in debug builds; unlike `precondition`, they do not stop an optimised build, which the model does not capture. Runtime messages are not modelled.
- The `repeat … while` seeding loops need no general termination argument: the model proves that their first pass already yields a valid state.

## Findings

| source | as written | input that shows it | evidently intended | confidence | as-written member | corrected member |
|---|---|---|---|---|---|---|
| Sources/PseudoRandom/Xoshiro/Xoshiro256/Xoshiro256.swift:15 | `isValid` adds the four words with the trapping `+` | `Xoshiro256Plus(seed: 0)`: the first two SplitMix64 words, 0xe220a8397b1dcdaf and 0x6e789e6aa1b965f4, already overflow | a check that the state is not all zero, which never traps | not executed | Xoshiro256.SeedZeroTraps | Xoshiro256.IsValid |
| Sources/PseudoRandom/Xoshiro/Xoshiro512/Xoshiro512.swift:19-21 | `isValid` adds the eight words with the trapping `+` | `Xoshiro512Plus(seed: 0)` and `Xoshiro512PlusPlus(seed: 0)`: the same first two words overflow | a check that the state is not all zero, which never traps | not executed | Xoshiro512.SeedZeroTraps | Xoshiro512.IsValid |
| Sources/PseudoRandom/Xoshiro/Xoshiro256/Xoshiro256Plus.swift:84 | the output `s.0 + s.3` uses the trapping `+` | `init(state: (0, UInt64.max, 0, 0))`, then `next()` twice: the second call adds `UInt64.max` to itself | the reference `s[0] + s[3]` modulo 2^64 | not executed | Xoshiro256Plus.SecondOutputTraps | Xoshiro256Plus.OutputAgrees |
| Sources/PseudoRandom/Xoshiro/Xoshiro512/Xoshiro512PlusPlus.swift:84 | the output `rotl(s.0 + s.2, 17) + s.2` uses the trapping `+` twice | `init(state:)` with `s.0 = 2^46`, `s.2 = 2^63` and the other words 0, then `next()` | the reference `rotl(s[0] + s[2], 17) + s[2]` modulo 2^64 | not executed | Xoshiro512PlusPlus.FirstOutputTraps | Xoshiro512PlusPlus.OutputAgrees |
| Sources/PseudoRandom/Xoroshiro/Xoroshiro1024/Xoroshiro1024StarStar.swift:93 | the scrambler `rotl(s0 * 5, 7) * 9` uses the trapping `*` | `init(param: 15, state:)` with `s[0] = 2^62` and the other words 0, then `next()` | the reference `rotl(s0 * 5, 7) * 9` modulo 2^64 | not executed | Xoroshiro1024StarStar.FirstOutputTraps | Xoroshiro1024StarStar.CheckedScrambleAgrees |
| Sources/PseudoRandom/Xoroshiro/Xoroshiro1024/Xoroshiro1024.swift:21-23 | `isValid(state:)` compares with sixteen zeros and does not check the length | `init(param: 0, state: [1])`, then `next()` reads `s[1]` | sixteen words, not all zero | not executed | Xoroshiro1024.ShortStateAccepted | Xoroshiro1024.IsValidMeaning |
| Sources/PseudoRandom/Xoroshiro/Xoroshiro1024/Xoroshiro1024.swift:21-23 | `isValid(state:)` compares the whole array with sixteen zeros, so a longer array whose first sixteen words are zero is not equal to it | `init(param: 0, state:)` with sixteen zeros followed by a 1: it is accepted, and every `next()` returns 0 | sixteen words, not all zero | not executed | Xoroshiro1024.LongZeroStateAccepted | Xoroshiro1024.IsValidMeaning |

/** Swift's `UInt64` arithmetic as the generators use it.

    Swift has three kinds of operators on `UInt64`, and the generators mix them:
    - `&+`, `&*` wrap modulo 2^64; these are Dafny's `+` and `*` on `bv64`;
    - `<<`, `>>` are "smart" shifts: a count of 64 or more shifts every bit out;
    - `&>>` masks the count to its low six bits before shifting, so by a constant count below
      64 it is the plain shift `>>` of Dafny's `bv64`;
    - plain `+` and `*` trap (the process stops) when the exact result does not fit in 64 bits.
    The trapping operators are modelled by `Checked`, whose `Trap` stands for the stopped process.
 */
module SwiftUInt64 {

  /** A Swift `UInt64`. */
  type UInt64 = bv64

  /** `UInt64.max`. */
  const Max: UInt64 := 0xFFFF_FFFF_FFFF_FFFF

  /** The outcome of a trapping operator. */
  datatype Checked<T> = Value(value: T) | Trap

  /** `x << k` on `UInt64`. */
  function Shl(x: UInt64, k: UInt64): UInt64 {
    if k < 64 then x << k else 0
  }

  /** `x >> k` on `UInt64`. */
  function Shr(x: UInt64, k: UInt64): UInt64 {
    if k < 64 then x >> k else 0
  }

  /** `a + b`: traps exactly when the exact sum exceeds `Max`; otherwise it is the sum. */
  function CheckedAdd(a: UInt64, b: UInt64): Checked<UInt64> {
    if a as int + b as int > Max as int then Trap else Value(Sum(a, b))
  }

  /** `a &+ b`: the sum modulo 2^64, named for the same reason as `Product`. */
  function Sum(a: UInt64, b: UInt64): UInt64 {
    a + b
  }

  /** `a * b`: traps exactly when the exact product exceeds `Max`; otherwise it is the product. */
  function CheckedMul(a: UInt64, b: UInt64): Checked<UInt64> {
    if a as int * b as int > Max as int then Trap else Value(Product(a, b))
  }

  /** `a &* b`: the product modulo 2^64. Kept behind a name so that proofs about the trapping
      and the wrapping product match the two by name rather than by their bits. */
  function Product(a: UInt64, b: UInt64): UInt64 {
    a * b
  }

  /** A word is zero exactly when its integer value is. */
  lemma IntValueZero(x: UInt64)
    ensures x as int == 0 <==> x == 0
  {
  }
}

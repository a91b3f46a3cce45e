/** The rotation helper every generator's update uses. */
module Shared {
  import opened SwiftUInt64

  /** `rotl(x, k)`: `(x << k) | (x >> (64 &- k))` with Swift's smart shifts.
      For 0 < k < 64 it rotates `x` left by `k` bits. Because a shift by 64 or more
      gives 0, a count of 0 or 64 returns `x` unchanged. */
  function Rotl(x: UInt64, k: UInt64): (r: UInt64)
    ensures k == 0 ==> r == x
    ensures k == 64 ==> r == x
  {
    Shl(x, k) | Shr(x, 64 - k)
  }

  /** A count above 64 shifts every bit out of both halves: `64 &- k` wraps around to 64 or more. */
  lemma RotlBeyondWidth(x: UInt64, k: UInt64)
    requires k > 64
    ensures Rotl(x, k) == 0
  {
    assert Shl(x, k) == 0;
    assert 64 - k >= 64;
    assert Shr(x, 64 - k) == 0;
  }

  // The rotation counts the generators pass are the constants 7, 17, 21, 24, 25, 28, 36, 37,
  // 45 and 49. For each of them, two lemmas: RotlK says that rotl is Dafny's bit rotation
  // `RotateLeft`, that a rotation by 64 - K undoes it and that it is zero only on zero;
  // RotlXorK says that it distributes over exclusive or.

  lemma Rotl7(x: UInt64)
    ensures Rotl(x, 7) == x.RotateLeft(7)
    ensures Rotl(Rotl(x, 7), 57) == x
    ensures Rotl(x, 7) == 0 <==> x == 0
  {
  }

  lemma RotlXor7(x: UInt64, y: UInt64)
    ensures Rotl(x ^ y, 7) == Rotl(x, 7) ^ Rotl(y, 7)
  {
  }

  lemma Rotl17(x: UInt64)
    ensures Rotl(x, 17) == x.RotateLeft(17)
    ensures Rotl(Rotl(x, 17), 47) == x
    ensures Rotl(x, 17) == 0 <==> x == 0
  {
  }

  lemma RotlXor17(x: UInt64, y: UInt64)
    ensures Rotl(x ^ y, 17) == Rotl(x, 17) ^ Rotl(y, 17)
  {
  }

  lemma Rotl21(x: UInt64)
    ensures Rotl(x, 21) == x.RotateLeft(21)
    ensures Rotl(Rotl(x, 21), 43) == x
    ensures Rotl(x, 21) == 0 <==> x == 0
  {
  }

  lemma RotlXor21(x: UInt64, y: UInt64)
    ensures Rotl(x ^ y, 21) == Rotl(x, 21) ^ Rotl(y, 21)
  {
  }

  lemma Rotl24(x: UInt64)
    ensures Rotl(x, 24) == x.RotateLeft(24)
    ensures Rotl(Rotl(x, 24), 40) == x
    ensures Rotl(x, 24) == 0 <==> x == 0
  {
  }

  lemma RotlXor24(x: UInt64, y: UInt64)
    ensures Rotl(x ^ y, 24) == Rotl(x, 24) ^ Rotl(y, 24)
  {
  }

  lemma Rotl25(x: UInt64)
    ensures Rotl(x, 25) == x.RotateLeft(25)
    ensures Rotl(Rotl(x, 25), 39) == x
    ensures Rotl(x, 25) == 0 <==> x == 0
  {
  }

  lemma RotlXor25(x: UInt64, y: UInt64)
    ensures Rotl(x ^ y, 25) == Rotl(x, 25) ^ Rotl(y, 25)
  {
  }

  lemma Rotl28(x: UInt64)
    ensures Rotl(x, 28) == x.RotateLeft(28)
    ensures Rotl(Rotl(x, 28), 36) == x
    ensures Rotl(x, 28) == 0 <==> x == 0
  {
  }

  lemma RotlXor28(x: UInt64, y: UInt64)
    ensures Rotl(x ^ y, 28) == Rotl(x, 28) ^ Rotl(y, 28)
  {
  }

  lemma Rotl36(x: UInt64)
    ensures Rotl(x, 36) == x.RotateLeft(36)
    ensures Rotl(Rotl(x, 36), 28) == x
    ensures Rotl(x, 36) == 0 <==> x == 0
  {
  }

  lemma RotlXor36(x: UInt64, y: UInt64)
    ensures Rotl(x ^ y, 36) == Rotl(x, 36) ^ Rotl(y, 36)
  {
  }

  lemma Rotl37(x: UInt64)
    ensures Rotl(x, 37) == x.RotateLeft(37)
    ensures Rotl(Rotl(x, 37), 27) == x
    ensures Rotl(x, 37) == 0 <==> x == 0
  {
  }

  lemma RotlXor37(x: UInt64, y: UInt64)
    ensures Rotl(x ^ y, 37) == Rotl(x, 37) ^ Rotl(y, 37)
  {
  }

  lemma Rotl45(x: UInt64)
    ensures Rotl(x, 45) == x.RotateLeft(45)
    ensures Rotl(Rotl(x, 45), 19) == x
    ensures Rotl(x, 45) == 0 <==> x == 0
  {
  }

  lemma RotlXor45(x: UInt64, y: UInt64)
    ensures Rotl(x ^ y, 45) == Rotl(x, 45) ^ Rotl(y, 45)
  {
  }

  lemma Rotl49(x: UInt64)
    ensures Rotl(x, 49) == x.RotateLeft(49)
    ensures Rotl(Rotl(x, 49), 15) == x
    ensures Rotl(x, 49) == 0 <==> x == 0
  {
  }

  lemma RotlXor49(x: UInt64, y: UInt64)
    ensures Rotl(x ^ y, 49) == Rotl(x, 49) ^ Rotl(y, 49)
  {
  }
}

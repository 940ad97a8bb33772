/*
 * Single-bit masks and bit tests on 32-bit words, as used by the NEC
 * decoder's `value |= (1UL << bit)`.  Bit positions are themselves 32-bit
 * vectors so that no integer-to-vector conversion sits under a quantifier.
 */
module Bits32 {
  /** `1UL << k`: the word with only bit `k` set. */
  function Mask(k: bv32): (m: bv32)
    requires k < 32
    ensures m != 0
  {
    1 << k
  }

  /** Bit `b` of `v` is 1. */
  predicate Bit(v: bv32, b: bv32)
    requires b < 32
  {
    v & Mask(b) != 0
  }

  /** A word is determined by its 32 bits. */
  lemma Extensionality(x: bv32, y: bv32)
    requires Bit(x, 0) == Bit(y, 0) && Bit(x, 1) == Bit(y, 1) && Bit(x, 2) == Bit(y, 2) && Bit(x, 3) == Bit(y, 3)
    requires Bit(x, 4) == Bit(y, 4) && Bit(x, 5) == Bit(y, 5) && Bit(x, 6) == Bit(y, 6) && Bit(x, 7) == Bit(y, 7)
    requires Bit(x, 8) == Bit(y, 8) && Bit(x, 9) == Bit(y, 9) && Bit(x, 10) == Bit(y, 10) && Bit(x, 11) == Bit(y, 11)
    requires Bit(x, 12) == Bit(y, 12) && Bit(x, 13) == Bit(y, 13) && Bit(x, 14) == Bit(y, 14) && Bit(x, 15) == Bit(y, 15)
    requires Bit(x, 16) == Bit(y, 16) && Bit(x, 17) == Bit(y, 17) && Bit(x, 18) == Bit(y, 18) && Bit(x, 19) == Bit(y, 19)
    requires Bit(x, 20) == Bit(y, 20) && Bit(x, 21) == Bit(y, 21) && Bit(x, 22) == Bit(y, 22) && Bit(x, 23) == Bit(y, 23)
    requires Bit(x, 24) == Bit(y, 24) && Bit(x, 25) == Bit(y, 25) && Bit(x, 26) == Bit(y, 26) && Bit(x, 27) == Bit(y, 27)
    requires Bit(x, 28) == Bit(y, 28) && Bit(x, 29) == Bit(y, 29) && Bit(x, 30) == Bit(y, 30) && Bit(x, 31) == Bit(y, 31)
    ensures x == y
  {
  }
}

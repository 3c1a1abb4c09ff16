/**
 Single bits of 32-bit words: BIT(), flag_set(), flag_clear() and flag_test().
 */
module BitWords {

  type Word = bv32
  type BitNo = bv5

  predicate Bit(m: Word, i: BitNo) {
    (m >> i) & 1 == 1
  }

  function WithBit(m: Word, i: BitNo): Word {
    m | (1 << i)
  }

  function WithoutBit(m: Word, i: BitNo): Word {
    m & !(1 << i)
  }

  lemma {:induction false} SetBit(m: Word, i: BitNo, j: BitNo)
    ensures Bit(WithBit(m, i), j) == (i == j || Bit(m, j))
  {
  }

  lemma {:induction false} ClearBit(m: Word, i: BitNo, j: BitNo)
    ensures Bit(WithoutBit(m, i), j) == (i != j && Bit(m, j))
  {
  }

  /** The mask picks the same bit. */
  lemma {:induction false} TestIsBit(m: Word, i: BitNo)
    ensures (m & (1 << i) != 0) == Bit(m, i)
  {
  }
}

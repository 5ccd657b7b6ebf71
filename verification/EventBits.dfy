/** The operations on 32-bit masks that event_groups.c uses, and the laws its proofs need. The code keeps event
    bits, wanted bits and control bits in one 32-bit word and takes them apart with masks; what the proofs need
    to know of a word is only which of its bits another word has too. So the laws here are about three
    questions: whether two words have no bit in common, whether one has all the bits of the other, and what
    is left of one without the other. */
module EventBits {

  type Bits = bv32

  function Or(a: Bits, b: Bits): Bits { a | b }

  /** a & ~b. */
  function Without(a: Bits, b: Bits): Bits { a & !b }

  /** No bit in common. */
  predicate Misses(a: Bits, m: Bits) { a & m == 0 }

  /** Every bit of m. */
  predicate Covers(a: Bits, m: Bits) { a & m == m }

  lemma OrZero(a: Bits, b: Bits)
    ensures a | b == 0 <==> a == 0 && b == 0
  {
    if a == 0 && b == 0 {
      assert a | b == 0;
    }
  }

  lemma OrMisses(a: Bits, b: Bits, m: Bits)
    ensures Misses(Or(a, b), m) <==> Misses(a, m) && Misses(b, m)
  {
    assert (a | b) & m == (a & m) | (b & m);
    OrZero(a & m, b & m);
  }

  lemma OrCovers(a: Bits, b: Bits, m: Bits)
    requires Covers(a, m)
    ensures Covers(Or(a, b), m) && Covers(Or(b, a), m)
  {
  }

  lemma OrKeeps(a: Bits, b: Bits, m: Bits)
    requires Misses(b, m)
    ensures Or(a, b) & m == a & m
  {
    assert (a | b) & m == (a & m) | (b & m);
  }

  lemma WithoutKeeps(a: Bits, b: Bits, m: Bits)
    requires Misses(b, m)
    ensures Without(a, b) & m == a & m
  {
  }

  lemma WithoutAll(a: Bits, b: Bits, m: Bits)
    requires Covers(b, m)
    ensures Misses(Without(a, b), m)
  {
  }

  lemma WithoutMisses(a: Bits, b: Bits, m: Bits)
    requires Misses(a, m)
    ensures Misses(Without(a, b), m)
  {
  }

  lemma WithoutCovers(a: Bits, b: Bits, m: Bits)
    requires Covers(Without(a, b), m)
    ensures Covers(a, m)
  {
  }

  lemma Zero(m: Bits)
    ensures Misses(0, m) && (m != 0 ==> !Covers(0, m)) && Or(m, 0) == m && Or(0, m) == m && Without(m, m) == 0
  {
  }

  lemma OrLaws(a: Bits, b: Bits, c: Bits)
    ensures Or(a, b) == Or(b, a) && Or(Or(a, b), c) == Or(a, Or(b, c))
  {
  }
}

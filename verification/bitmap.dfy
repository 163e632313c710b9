/** The 32-bit run-queue bitmap of the scheduler. The word is kept as a natural number; the
    bit operations the scheduler applies to it are defined on its binary expansion. */
module Bitmap {

  const WORD_BITS := 32

  /** True iff bit `p` of `b` is set. */
  predicate Bit(b: nat, p: nat)
    decreases p
  {
    if p == 0 then b % 2 == 1 else Bit(b / 2, p - 1)
  }

  /** `b | (1 << p)` */
  function OrBit(b: nat, p: nat): nat
    decreases p
  {
    if p == 0 then b / 2 * 2 + 1 else OrBit(b / 2, p - 1) * 2 + b % 2
  }

  /** `b & ~(1 << p)` */
  function AndNotBit(b: nat, p: nat): nat
    decreases p
  {
    if p == 0 then b / 2 * 2 else AndNotBit(b / 2, p - 1) * 2 + b % 2
  }

  /** Number of significant bits of `b`. */
  function Width(b: nat): nat {
    if b == 0 then 0 else 1 + Width(b / 2)
  }

  /** `__builtin_clz(b)`: the number of leading zero bits of a non-zero 32-bit word. */
  function Clz(b: nat): nat
    requires Width(b) <= WORD_BITS
  {
    WORD_BITS - Width(b)
  }

  lemma {:induction false} OrBitSets(b: nat, p: nat, q: nat)
    ensures Bit(OrBit(b, p), q) <==> q == p || Bit(b, q)
    decreases q
  {
    if p > 0 && q > 0 { OrBitSets(b / 2, p - 1, q - 1); }
  }

  lemma {:induction false} AndNotBitClears(b: nat, p: nat, q: nat)
    ensures Bit(AndNotBit(b, p), q) <==> q != p && Bit(b, q)
    decreases q
  {
    if p > 0 && q > 0 { AndNotBitClears(b / 2, p - 1, q - 1); }
  }

  lemma {:induction false} TopBit(b: nat)
    requires b != 0
    ensures Bit(b, Width(b) - 1)
  {
    if b / 2 != 0 { TopBit(b / 2); }
  }

  lemma {:induction false} BitBelowWidth(b: nat, q: nat)
    requires Bit(b, q)
    ensures q < Width(b)
    decreases q
  {
    if q > 0 { BitBelowWidth(b / 2, q - 1); }
  }

  lemma {:induction false} ZeroHasNoBit(q: nat)
    ensures !Bit(0, q)
  {
    if q > 0 { ZeroHasNoBit(q - 1); }
  }

  /** Clearing a set bit makes the word smaller, so a scan that clears as it goes terminates. */
  lemma {:induction false} AndNotBitShrinks(b: nat, p: nat)
    requires Bit(b, p)
    ensures AndNotBit(b, p) < b
    decreases p
  {
    if p > 0 { AndNotBitShrinks(b / 2, p - 1); }
  }

  lemma {:induction false} WidthMonotone(a: nat, b: nat)
    requires a <= b
    ensures Width(a) <= Width(b)
  {
    if a != 0 { WidthMonotone(a / 2, b / 2); }
  }

  /** A word whose bits all lie below 32 is a 32-bit word. */
  lemma WidthFromBits(b: nat)
    requires forall q: nat :: Bit(b, q) ==> q < WORD_BITS
    ensures Width(b) <= WORD_BITS
  {
    if b != 0 { TopBit(b); }
  }

  /** For a non-zero 32-bit word, `31 - clz` is the highest set bit. */
  lemma HighestBit(b: nat)
    requires b != 0 && Width(b) <= WORD_BITS
    ensures var top := WORD_BITS - 1 - Clz(b);
      0 <= top < WORD_BITS && Bit(b, top) && forall q: nat :: Bit(b, q) ==> q <= top
  {
    TopBit(b);
    forall q: nat | Bit(b, q) ensures q <= WORD_BITS - 1 - Clz(b) {
      BitBelowWidth(b, q);
    }
  }
}

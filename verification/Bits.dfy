/** Single bits and packed fields of 32-bit registers, as the drivers read and write them. */
module Bits {

  /** `1 << n`. */
  function Bit(n: bv32): bv32
    requires n < 32
  {
    (1 as bv32) << n
  }

  /** Bit `n` of `r`. */
  predicate Has(r: bv32, n: bv32)
    requires n < 32
  {
    0 < (r >> n) & 1
  }

  /** Bit numbers count doublings: bit `n` of a word is the parity of the word halved `n` times. */
  lemma HasCounts(r: bv32, n: bv32)
    requires n < 31
    ensures Has(r, 0) <==> r % 2 == 1
    ensures Has(r, n + 1) <==> Has(r / 2, n)
    ensures Bit(0) == 1 && Bit(n + 1) == 2 * Bit(n)
  {
  }

  /** `r |= 1 << n`. */
  function Set(r: bv32, n: bv32): bv32
    requires n < 32
  {
    r | Bit(n)
  }

  /** `r &= ~(1 << n)`. */
  function Clear(r: bv32, n: bv32): bv32
    requires n < 32
  {
    r & !Bit(n)
  }

  lemma SetHas(r: bv32, n: bv32, m: bv32)
    requires n < 32 && m < 32
    ensures Has(Set(r, n), m) <==> m == n || Has(r, m)
  {
  }

  lemma ClearHas(r: bv32, n: bv32, m: bv32)
    requires n < 32 && m < 32
    ensures Has(Clear(r, n), m) <==> m != n && Has(r, m)
  {
  }

  /** Bit `n` set or cleared, as the drivers' `if` on an option does it. */
  function WithBit(r: bv32, n: bv32, b: bool): bv32
    requires n < 32
  {
    if b then Set(r, n) else Clear(r, n)
  }

  lemma WithBitHas(r: bv32, n: bv32, b: bool, m: bv32)
    requires n < 32 && m < 32
    ensures Has(WithBit(r, n, b), m) == if m == n then b else Has(r, m)
  {
    hide Set, Clear, Has;
    SetHas(r, n, m);
    ClearHas(r, n, m);
  }

  /** The drivers' test `(r & pos) == pos` with `pos = 1 << n`. */
  lemma MaskTest(r: bv32, n: bv32)
    requires n < 32
    ensures r & Bit(n) == Bit(n) <==> Has(r, n)
  {
  }

  // ---- Fields of four bits (GPIO modes, EXTI sources) ----

  /** The field of `r` at position `p`. */
  function Nibble(r: bv32, p: bv32): bv32
    requires p < 8
  {
    (r >> (4 * p)) & 0xF
  }

  /** `r &= ~(0xF << 4 * p)`. */
  function ClearNibble(r: bv32, p: bv32): bv32
    requires p < 8
  {
    r & !((0xF as bv32) << (4 * p))
  }

  /** `r |= v << 4 * p`. */
  function OrNibble(r: bv32, p: bv32, v: bv32): bv32
    requires p < 8
  {
    r | (v << (4 * p))
  }

  /** Clear the old field, then set the new one. */
  function PutNibble(r: bv32, p: bv32, v: bv32): bv32
    requires p < 8
  {
    OrNibble(ClearNibble(r, p), p, v)
  }

  lemma NibbleCounts(r: bv32, p: bv32)
    requires p < 7
    ensures Nibble(r, 0) == r % 16 && Nibble(r, p + 1) == Nibble(r / 16, p)
  {
  }

  lemma NibblePut(r: bv32, p: bv32, v: bv32)
    requires p < 8 && v <= 0xF
    ensures Nibble(PutNibble(r, p, v), p) == v
  {
  }

  lemma NibbleKept(r: bv32, p: bv32, v: bv32, q: bv32)
    requires p < 8 && q < 8 && p != q && v <= 0xF
    ensures Nibble(PutNibble(r, p, v), q) == Nibble(r, q)
  {
  }

  // ---- Fields of five bits (ADC channel numbers) ----

  function Five(r: bv32, p: bv32): bv32
    requires p < 6
  {
    (r >> (5 * p)) & 0x1F
  }

  /** `r &= ~(0x1F << 5 * p)`, then `r |= v << 5 * p`. */
  function PutFive(r: bv32, p: bv32, v: bv32): bv32
    requires p < 7
  {
    (r & !((0x1F as bv32) << (5 * p))) | (v << (5 * p))
  }

  lemma FiveCounts(r: bv32, p: bv32)
    requires p < 5
    ensures Five(r, 0) == r % 32 && Five(r, p + 1) == Five(r / 32, p)
  {
  }

  lemma FivePut(r: bv32, p: bv32, v: bv32)
    requires p < 6 && v <= 0x1F
    ensures Five(PutFive(r, p, v), p) == v
  {
  }

  lemma FiveKept(r: bv32, p: bv32, v: bv32, q: bv32)
    requires p < 7 && q < 6 && p != q && v <= 0x1F
    ensures Five(PutFive(r, p, v), q) == Five(r, q)
  {
  }

  // ---- Fields of three bits (ADC sample times) ----

  function Three(r: bv32, p: bv32): bv32
    requires p < 10
  {
    (r >> (3 * p)) & 7
  }

  /** `r &= ~(7 << 3 * p)`, then `r |= v << 3 * p`. */
  function PutThree(r: bv32, p: bv32, v: bv32): bv32
    requires p < 10
  {
    (r & !((7 as bv32) << (3 * p))) | (v << (3 * p))
  }

  lemma ThreeCounts(r: bv32, p: bv32)
    requires p < 9
    ensures Three(r, 0) == r % 8 && Three(r, p + 1) == Three(r / 8, p)
  {
  }

  lemma ThreePut(r: bv32, p: bv32, v: bv32)
    requires p < 10 && v <= 7
    ensures Three(PutThree(r, p, v), p) == v
  {
  }

  lemma ThreeKept(r: bv32, p: bv32, v: bv32, q: bv32)
    requires p < 10 && q < 10 && p != q && v <= 7
    ensures Three(PutThree(r, p, v), q) == Three(r, q)
  {
  }
}

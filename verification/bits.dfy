/**
 * Register words and the three things the drivers do to them: set the bits
 * of a mask (`|=`), clear them (`&= ~`), and replace a field (clear the mask,
 * then or in a value lying inside it). Every register is a 32-bit value;
 * the narrower C integer types the drivers take are subsets of it.
 */
module Bits {

  /** A 32-bit memory-mapped register, or any `uint32_t` the drivers compute. */
  type Reg = bv32

  /** A `uint8_t`, widened to a register word. */
  type U8 = b: Reg | b <= 0xFF

  /** A `uint16_t`, widened to a register word. */
  type U16 = h: Reg | h <= 0xFFFF

  /** `a` and `b` agree on every bit selected by `m`: no selected bit differs. */
  predicate Agree(a: Reg, b: Reg, m: Reg)
  {
    (a ^ b) & m == 0
  }

  /** Agreement under a mask means equal masked values. */
  lemma AgreeMasked(a: Reg, b: Reg, m: Reg)
    requires Agree(a, b, m)
    ensures a & m == b & m
  {
  }

  /**
   * Agreement chains: `a` agrees with `c` wherever both links agree, so on
   * any mask `m` lying inside both.
   */
  lemma AgreeChain(a: Reg, b: Reg, c: Reg, m1: Reg, m2: Reg, m: Reg)
    requires Agree(a, b, m1) && Agree(b, c, m2)
    requires m & !(m1 & m2) == 0
    ensures Agree(a, c, m)
  {
  }

  /** Agreement under a mask carries over to every mask inside it. */
  lemma AgreeOn(a: Reg, b: Reg, m: Reg, x: Reg)
    requires Agree(a, b, m) && x & !m == 0
    ensures a & x == b & x
  {
  }

  /** Or-ing in bits that lie outside `m` leaves the bits under `m` alone. */
  lemma AgreeOr(a: Reg, b: Reg, m: Reg)
    requires b & m == 0
    ensures Agree(a | b, a, m)
  {
  }

  /** The mask with only bit `n` set. */
  function Bit(n: nat): Reg
    requires n < 32
  {
    (1 as bv32) << n
  }

  /** Bit `n` of `r` is set. */
  predicate IsSet(r: Reg, n: nat)
    requires n < 32
  {
    r & Bit(n) != 0
  }

  /** `r |= m` */
  function Set(r: Reg, m: Reg): (s: Reg)
    ensures s & m == m
    ensures Agree(s, r, !m)
  {
    r | m
  }

  /** `r &= ~m` */
  function Clear(r: Reg, m: Reg): (s: Reg)
    ensures s & m == 0
    ensures Agree(s, r, !m)
  {
    r & !m
  }

  /** Set `m` when `on`, clear it otherwise. */
  function Assign(r: Reg, m: Reg, on: bool): (s: Reg)
    ensures s & m == (if on then m else 0)
    ensures Agree(s, r, !m)
  {
    if on then Set(r, m) else Clear(r, m)
  }

  /** `r = (r & ~m) | v` for a value `v` that lies inside the field `m`. */
  function Replace(r: Reg, m: Reg, v: Reg): (s: Reg)
    requires v & !m == 0
    ensures s & m == v
    ensures Agree(s, r, !m)
  {
    (r & !m) | v
  }

  /**
   * `r = (r & ~m) | v` with `v` taken as given: the field `m` is cleared and
   * `v` or-ed in unmasked, so bits of `v` outside `m` also end up set.
   */
  function Merge(r: Reg, m: Reg, v: Reg): (s: Reg)
    ensures Agree(s, v, m)
    ensures Agree(s, r | v, !m)
  {
    (r & !m) | v
  }

  /** The value of the field of `width`-mask `w` at bit `shift`. */
  function Field(r: Reg, shift: bv32, w: Reg): Reg
    requires shift < 32
  {
    (r >> shift) & w
  }
}

/** The 8-bit port values of the firmware and the C operators on them.

    The homing code only ever combines such values with `|`, `^`, `&` and
    `~`, which are the named functions below. Every fact about them is a
    named predicate, and the lemmas here relate a handful of them, so the
    rest of the model reasons about bits only through these names. */
module Bits {

  /** A `uint8_t`. */
  type Byte = bv8

  /** A `uint8_t` used as a counter: the firmware never combines it with
      bit operators, so its range is what matters. */
  newtype Counter8 = n: int | 0 <= n < 256

  /** The value 0. */
  const Zero: Byte := 0

  /** `a | b` */
  function BitOr(a: Byte, b: Byte): Byte {
    a | b
  }

  /** `a ^ b` */
  function BitXor(a: Byte, b: Byte): Byte {
    a ^ b
  }

  /** `a & b` */
  function BitAnd(a: Byte, b: Byte): Byte {
    a & b
  }

  /** `~a` */
  function BitNot(a: Byte): Byte {
    !a
  }

  /** `a` and `b` share no bit. */
  predicate Disjoint(a: Byte, b: Byte) {
    a & b == 0
  }

  /** Every bit of `b` is a bit of `mask`. */
  predicate Within(b: Byte, mask: Byte) {
    b & mask == b
  }

  /** The bits of `v` selected by `mask` are `w`. */
  predicate Masked(v: Byte, mask: Byte, w: Byte) {
    v & mask == w
  }

  /** `v` and `u` agree on the bits of `mask`. */
  predicate Agree(v: Byte, u: Byte, mask: Byte) {
    v & mask == u & mask
  }

  /** `if (on) v |= bit;` */
  function SetIf(v: Byte, bit: Byte, on: bool): Byte {
    if on then BitOr(v, bit) else v
  }

  lemma DisjointSymmetric(a: Byte, b: Byte)
    requires Disjoint(a, b)
    ensures Disjoint(b, a)
  {
  }

  lemma WithinDisjoint(b: Byte, mask: Byte, other: Byte)
    requires Within(b, mask)
    requires Disjoint(mask, other)
    ensures Disjoint(b, other)
  {
  }

  lemma MaskedZero(mask: Byte)
    ensures Masked(Zero, mask, Zero)
  {
  }

  lemma MaskedSelf(mask: Byte)
    ensures Masked(mask, mask, mask)
  {
  }

  lemma MaskedDisjoint(v: Byte, mask: Byte)
    requires Disjoint(mask, v)
    ensures Masked(v, mask, Zero)
  {
  }

  /** Setting `bit` leaves the bits of a disjoint `mask` alone. */
  lemma SetIfKeeps(v: Byte, bit: Byte, on: bool, mask: Byte, w: Byte)
    requires Disjoint(bit, mask)
    requires Masked(v, mask, w)
    ensures Masked(SetIf(v, bit, on), mask, w)
  {
  }

  /** Setting a clear `bit` makes it equal to `on`. */
  lemma SetIfSelf(v: Byte, bit: Byte, on: bool)
    requires Masked(v, bit, Zero)
    ensures Masked(SetIf(v, bit, on), bit, if on then bit else Zero)
  {
  }

  /** Toggling `bit` leaves the bits of a disjoint `mask` alone. */
  lemma ToggleKeeps(v: Byte, bit: Byte, mask: Byte, w: Byte)
    requires Disjoint(bit, mask)
    requires Masked(v, mask, w)
    ensures Masked(BitXor(v, bit), mask, w)
  {
  }

  /** Toggling a set `bit` clears it. */
  lemma ToggleSelf(v: Byte, bit: Byte)
    requires Masked(v, bit, bit)
    ensures Masked(BitXor(v, bit), bit, Zero)
  {
  }

  /** `(v ^ inv) & mask`, seen through a `bit` inside `mask`. */
  lemma InvertSelect(v: Byte, inv: Byte, mask: Byte, bit: Byte, w: Byte)
    requires Within(bit, mask)
    requires Masked(v, bit, w)
    ensures Masked(BitAnd(BitXor(v, inv), mask), bit, BitXor(w, BitAnd(inv, bit)))
  {
  }

  /** `v & mask` has no bit outside `mask`. */
  lemma SelectOutside(v: Byte, mask: Byte)
    ensures Masked(BitAnd(v, mask), BitNot(mask), Zero)
  {
  }

  /** `port |= v; port ^= v` clears every bit of `v` ... */
  lemma PulsePairClears(port: Byte, v: Byte)
    ensures Masked(BitXor(BitOr(port, v), v), v, Zero)
  {
  }

  /** ... and keeps every bit outside `v`. */
  lemma PulsePairKeeps(port: Byte, v: Byte, mask: Byte)
    requires Masked(v, mask, Zero)
    ensures Agree(BitXor(BitOr(port, v), v), port, mask)
  {
  }

  lemma AgreeTransitive(a: Byte, b: Byte, c: Byte, mask: Byte)
    requires Agree(a, b, mask)
    requires Agree(b, c, mask)
    ensures Agree(a, c, mask)
  {
  }

  /** XOR-ing with a `mask` that covers `bit` flips it: the bit of `v` is 0
      before exactly when it is 1 after. */
  lemma FlipWithin(v: Byte, mask: Byte, bit: Byte)
    requires Within(bit, mask)
    ensures Masked(BitXor(v, mask), bit, Zero) <==> Masked(v, bit, bit)
  {
  }

  /** The three parts of `((port & ~dm) | (out & dm)) ^ (inv & stm)` where
      `stm` is the union of the disjoint `sm` and `dm`. */
  lemma DirectionPart(port: Byte, out: Byte, inv: Byte, sm: Byte, dm: Byte, stm: Byte)
    requires stm == sm | dm
    ensures Masked(BitXor(BitOr(BitAnd(port, BitNot(dm)), BitAnd(out, dm)), BitAnd(inv, stm)), dm, (out ^ inv) & dm)
  {
  }

  lemma StepPart(port: Byte, out: Byte, inv: Byte, sm: Byte, dm: Byte, stm: Byte)
    requires Disjoint(sm, dm)
    requires stm == sm | dm
    ensures Masked(BitXor(BitOr(BitAnd(port, BitNot(dm)), BitAnd(out, dm)), BitAnd(inv, stm)), sm, (port ^ inv) & sm)
  {
  }

  lemma OtherPart(port: Byte, out: Byte, inv: Byte, sm: Byte, dm: Byte, stm: Byte)
    requires stm == sm | dm
    ensures Agree(BitXor(BitOr(BitAnd(port, BitNot(dm)), BitAnd(out, dm)), BitAnd(inv, stm)), port, BitNot(stm))
  {
  }

  /** `reg &= ~mask` clears the bits of `mask` and keeps the others. */
  lemma ClearMask(reg: Byte, mask: Byte)
    ensures Masked(BitAnd(reg, BitNot(mask)), mask, Zero)
  {
  }

  lemma ClearKeeps(reg: Byte, mask: Byte)
    ensures Agree(BitAnd(reg, BitNot(mask)), reg, BitNot(mask))
  {
  }

  /** `port |= v; port ^= v` on a line where `v` is 0: neither write
      touches it. */
  lemma PairOnClear(port: Byte, v: Byte, bit: Byte)
    requires Masked(v, bit, Zero)
    ensures Agree(BitOr(port, v), port, bit)
    ensures Agree(BitXor(BitOr(port, v), v), port, bit)
  {
  }

  /** `port |= v; port ^= v` on a line where `v` is 1: the first write
      raises it and the second lowers it. */
  lemma PairOnSet(port: Byte, v: Byte, bit: Byte)
    requires Masked(v, bit, bit)
    ensures Masked(BitOr(port, v), bit, bit)
    ensures Masked(BitXor(BitOr(port, v), v), bit, Zero)
  {
  }

  /** `port |= v; port ^= v` on a line whose bit of `v` is `f` XOR its
      invert bit: raised and lowered when that is 1, untouched when 0. */
  lemma PulseLine(port: Byte, v: Byte, bit: Byte, inv: Byte, f: bool)
    requires Masked(v, bit, BitXor(if f then bit else Zero, BitAnd(inv, bit)))
    ensures ((f && Masked(inv, bit, Zero)) || (!f && Masked(inv, bit, bit))) ==>
      Masked(BitOr(port, v), bit, bit) && Masked(BitXor(BitOr(port, v), v), bit, Zero)
    ensures ((f && Masked(inv, bit, bit)) || (!f && Masked(inv, bit, Zero))) ==>
      Agree(BitOr(port, v), port, bit) && Agree(BitXor(BitOr(port, v), v), port, bit)
  {
    var w := if f then bit else Zero;
    if Masked(inv, bit, Zero) {
      assert BitAnd(inv, bit) == Zero;
      assert BitXor(w, Zero) == w;
      if f { PairOnSet(port, v, bit); } else { PairOnClear(port, v, bit); }
    }
    if Masked(inv, bit, bit) {
      assert BitAnd(inv, bit) == bit;
      if f {
        assert BitXor(bit, bit) == Zero;
        PairOnClear(port, v, bit);
      } else {
        assert BitXor(Zero, bit) == bit;
        PairOnSet(port, v, bit);
      }
    }
  }

  /** Agreement on `mask` is agreement on every part of it. */
  lemma AgreeWithin(a: Byte, b: Byte, mask: Byte, sub: Byte)
    requires Agree(a, b, mask)
    requires Within(sub, mask)
    ensures Agree(a, b, sub)
  {
  }

  /** A mask disjoint from `a` lies outside `a`. */
  lemma DisjointOutside(a: Byte, b: Byte)
    requires Disjoint(a, b)
    ensures Within(b, BitNot(a))
  {
  }

  /** Outside a union is outside each of its parts. */
  lemma UnionOutside(sm: Byte, dm: Byte, stm: Byte)
    requires stm == sm | dm
    ensures Within(BitNot(stm), BitNot(sm))
  {
  }

  /** The bits of `mask` of `v ^ inv` depend only on the bits of `mask` of `v`. */
  lemma XorSelect(v: Byte, inv: Byte, mask: Byte, w: Byte)
    requires Masked(v, mask, w)
    ensures BitAnd(BitXor(v, inv), mask) == BitAnd(BitXor(w, inv), mask)
  {
  }
}

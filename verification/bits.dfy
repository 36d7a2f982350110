/** Unsigned fixed-width integers as the C++ source uses them.

    `Byte` is uint8_t and `Word` is uint16_t. Both are bounded integers, and
    every wrap-around the source gets from its types is written out
    explicitly (`Wrap8`, `Wrap16`). The bitwise operators on bytes are
    defined bit by bit, and their contract says what each result bit is.
 */
module Bits {

  type Byte = b: int | 0 <= b < 0x100
  type Word = w: int | 0 <= w < 0x1_0000

  /** Truncation of an integer expression stored back into a uint8_t. */
  function Wrap8(n: int): Byte {
    n % 0x100
  }

  /** Truncation of an integer expression stored back into a uint16_t. */
  function Wrap16(n: int): Word {
    n % 0x1_0000
  }

  function Pow2(n: nat): nat {
    if n == 0 then 1 else 2 * Pow2(n - 1)
  }

  /** Bit `k` of `a` (bit 0 is the least significant). */
  predicate BitAt(a: nat, k: nat)
    decreases k
  {
    if k == 0 then a % 2 == 1 else BitAt(a / 2, k - 1)
  }

  datatype BitOp = OrOp | AndOp | XorOp

  /** The truth table of `op` on one pair of bits. */
  predicate Combines(op: BitOp, p: bool, q: bool) {
    match op
    case OrOp => p || q
    case AndOp => p && q
    case XorOp => p != q
  }

  /** `op` applied to the low `width` bits of `a` and `b`. */
  function Bitwise(op: BitOp, a: nat, b: nat, width: nat): (r: nat)
    ensures r < Pow2(width)
    ensures forall k: nat :: k < width ==> (BitAt(r, k) <==> Combines(op, BitAt(a, k), BitAt(b, k)))
    decreases width
  {
    if width == 0 then 0
    else
      var low := if Combines(op, a % 2 == 1, b % 2 == 1) then 1 else 0;
      var high := Bitwise(op, a / 2, b / 2, width - 1);
      assert (low + 2 * high) / 2 == high;
      low + 2 * high
  }

  /** Two numbers below 2^width that agree on every bit below `width` are
      equal: a byte is nothing but its eight bits. */
  lemma {:induction false} BitsDetermine(a: nat, b: nat, width: nat)
    requires a < Pow2(width) && b < Pow2(width)
    requires forall k: nat :: k < width ==> (BitAt(a, k) <==> BitAt(b, k))
    ensures a == b
    decreases width
  {
    if width > 0 {
      assert BitAt(a, 0) <==> BitAt(b, 0);
      forall k: nat | k < width - 1
        ensures BitAt(a / 2, k) <==> BitAt(b / 2, k)
      {
        assert BitAt(a, k + 1) <==> BitAt(b, k + 1);
      }
      BitsDetermine(a / 2, b / 2, width - 1);
    }
  }

  /** uint8_t `a | b`. */
  function Or8(a: Byte, b: Byte): (r: Byte)
    ensures forall k: nat :: k < 8 ==> (BitAt(r, k) <==> BitAt(a, k) || BitAt(b, k))
  {
    Bitwise(OrOp, a, b, 8)
  }

  /** uint8_t `a & b`. */
  function And8(a: Byte, b: Byte): (r: Byte)
    ensures forall k: nat :: k < 8 ==> (BitAt(r, k) <==> BitAt(a, k) && BitAt(b, k))
  {
    Bitwise(AndOp, a, b, 8)
  }

  /** uint8_t `a ^ b`. */
  function Xor8(a: Byte, b: Byte): (r: Byte)
    ensures forall k: nat :: k < 8 ==> (BitAt(r, k) <==> BitAt(a, k) != BitAt(b, k))
  {
    Bitwise(XorOp, a, b, 8)
  }

  /** XOR with the same byte twice is the identity. */
  lemma XorTwice(a: Byte, b: Byte)
    ensures Xor8(Xor8(a, b), b) == a
  {
    BitsDetermine(Xor8(Xor8(a, b), b), a, 8);
  }

  /** OR and AND are idempotent in their second operand and leave a byte
      combined with itself unchanged. */
  lemma OrAndAbsorb(a: Byte, b: Byte)
    ensures Or8(Or8(a, b), b) == Or8(a, b)
    ensures And8(And8(a, b), b) == And8(a, b)
    ensures Or8(a, a) == a && And8(a, a) == a
    ensures Xor8(a, a) == 0
  {
    BitsDetermine(Or8(Or8(a, b), b), Or8(a, b), 8);
    BitsDetermine(And8(And8(a, b), b), And8(a, b), 8);
    BitsDetermine(Or8(a, a), a, 8);
    BitsDetermine(And8(a, a), a, 8);
    ZeroHasNoBits(8);
    BitsDetermine(Xor8(a, a), 0, 8);
  }

  lemma {:induction false} ZeroHasNoBits(width: nat)
    ensures forall k: nat :: k < width ==> !BitAt(0, k)
  {
    if width > 0 {
      ZeroHasNoBits(width - 1);
      forall k: nat | k < width ensures !BitAt(0, k) {
        if k > 0 {
          assert BitAt(0, k) == BitAt(0, k - 1);
        }
      }
    }
  }

  /** OR with zero keeps every bit of a number that fits in `width` bits. */
  lemma {:induction false} OrZero(a: nat, width: nat)
    requires a < Pow2(width)
    ensures Bitwise(OrOp, a, 0, width) == a
    decreases width
  {
    if width > 0 {
      OrZero(a / 2, width - 1);
    }
  }

  /** ORing a number shifted left by `n` with one below 2^n adds them:
      their set bits do not overlap. */
  lemma {:induction false} OrDisjoint(a: nat, b: nat, n: nat, m: nat)
    requires a < Pow2(m) && b < Pow2(n)
    ensures Bitwise(OrOp, Pow2(n) * a, b, n + m) == Pow2(n) * a + b
    decreases n
  {
    if n == 0 {
      OrZero(a, m);
    } else {
      var shifted := Pow2(n - 1) * a;
      assert Pow2(n) * a == 2 * shifted;
      OrDisjoint(a, b / 2, n - 1, m);
      assert Bitwise(OrOp, Pow2(n) * a, b, n + m)
          == b % 2 + 2 * Bitwise(OrOp, shifted, b / 2, n - 1 + m);
    }
  }
}

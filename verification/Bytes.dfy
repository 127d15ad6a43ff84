/** Bytes, and the exclusive-or that the frame checksum is built from. */
module Bytes {

  type Byte = b: int | 0 <= b < 256

  /** One byte on the bus names a node; 0 is "no address" and 255 is broadcast. */
  type Address = Byte

  const NULL_ADDR: Address := 0
  const BROADCAST: Address := 255

  /** Bitwise exclusive or, one binary digit at a time. */
  function Xor(a: nat, b: nat): (r: nat)
  {
    if a == 0 && b == 0 then 0 else 2 * Xor(a / 2, b / 2) + (a % 2 + b % 2) % 2
  }

  lemma {:induction false} XorBounded(a: nat, b: nat, n: nat)
    requires a < Pow2(n) && b < Pow2(n)
    ensures Xor(a, b) < Pow2(n)
  {
    if n > 0 && !(a == 0 && b == 0) {
      XorBounded(a / 2, b / 2, n - 1);
    }
  }

  function Pow2(n: nat): nat {
    if n == 0 then 1 else 2 * Pow2(n - 1)
  }

  /** The checksum update `checksum ^= b`. */
  function XorByte(a: Byte, b: Byte): (r: Byte)
  {
    assert Pow2(8) == 256 by { assert Pow2(4) == 16; }
    XorBounded(a, b, 8);
    Xor(a, b)
  }

  lemma {:induction false} XorZero(a: nat)
    ensures Xor(0, a) == a
  {
    if a != 0 { XorZero(a / 2); }
  }

  /** Equal bytes, and only equal bytes, cancel to zero. */
  lemma {:induction false} XorCancels(a: nat, b: nat)
    ensures Xor(a, b) == 0 <==> a == b
  {
    if !(a == 0 && b == 0) {
      XorCancels(a / 2, b / 2);
    }
  }

  /** Exclusive-or is injective in either argument, so one changed byte always changes the result. */
  lemma {:induction false} XorInjective(a: nat, b: nat, c: nat)
    ensures Xor(a, b) == Xor(a, c) ==> b == c
    decreases a + b + c
  {
    if a + b + c > 0 {
      XorInjective(a / 2, b / 2, c / 2);
    }
  }

  lemma {:induction false} XorCommutes(a: nat, b: nat)
    ensures Xor(a, b) == Xor(b, a)
  {
    if !(a == 0 && b == 0) {
      XorCommutes(a / 2, b / 2);
    }
  }
}

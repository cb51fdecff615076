/** Octets and the two nibble operations the CEC header is built from. */
module Bytes {

  type Byte = b: int | 0 <= b < 0x100

  /** `(b & 0xF0) >> 4` */
  function High(b: Byte): Byte { b / 0x10 }

  /** `b & 0x0F` */
  function Low(b: Byte): Byte { b % 0x10 }

  /** Bitwise or, bit by bit from the least significant end. */
  function Or(x: nat, y: nat): nat
    decreases x + y
  {
    if x == 0 && y == 0 then 0
    else (if x % 2 == 1 || y % 2 == 1 then 1 else 0) + 2 * Or(x / 2, y / 2)
  }

  /** One step of the or of an even number: the low bit comes from `y` alone. */
  lemma OrStep(a: nat, y: nat)
    ensures Or(2 * a, y) == y % 2 + 2 * Or(a, y / 2)
  {
    assert 2 * a / 2 == a && 2 * a % 2 == 0;
  }

  /** Or with a nibble below the set bits is addition. */
  lemma {:induction false} OrOfNibble(a: nat, y: nat)
    requires y < 0x10
    ensures Or(0x10 * a, y) == 0x10 * a + y
  {
    hide Or;
    var y1 := y / 2;
    var y2 := y1 / 2;
    var y3 := y2 / 2;
    OrStep(8 * a, y);
    OrStep(4 * a, y1);
    OrStep(2 * a, y2);
    OrStep(a, y3);
    OrWithZero(a);
    assert y3 / 2 == 0;
  }

  lemma {:induction false} OrWithZero(x: nat)
    ensures Or(x, 0) == x
  {
    if x != 0 {
      OrWithZero(x / 2);
    }
  }

  /** The header octet `from << 4 | to`, truncated to eight bits. */
  function Pack(from: Byte, to: Byte): Byte
  {
    Or(from * 0x10 % 0x100, to) % 0x100
  }

  /** Two four-bit addresses survive packing, the initiator in the high nibble. */
  lemma PackedNibbles(from: Byte, to: Byte)
    requires from < 0x10 && to < 0x10
    ensures Pack(from, to) == 0x10 * from + to
    ensures High(Pack(from, to)) == from && Low(Pack(from, to)) == to
  {
    hide Or;
    OrOfNibble(from, to);
  }

  /** An octet is the packing of its own nibbles. */
  lemma PackOfNibbles(b: Byte)
    ensures Pack(High(b), Low(b)) == b
  {
    PackedNibbles(High(b), Low(b));
  }
}

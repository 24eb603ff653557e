/** A one-byte CPU opcode and the bit fields the instruction decoder reads from it. */
module Opcode {
  import opened Bits

  datatype Opcode = Opcode(value: bv8) {

    /** Bits 3..5: the destination register (or bit number, or condition plus one bit). */
    function Xxx(): (r: bv8)
      ensures r < 8
      ensures forall j: bv8 :: j < 3 ==> GetBit(r, j) == GetBit(value, 3 + j)
    {
      GetBits(value, 3, 6)
    }

    /** Bits 0..2: the source register. */
    function Yyy(): (r: bv8)
      ensures r < 8
      ensures forall j: bv8 :: j < 3 ==> GetBit(r, j) == GetBit(value, j)
    {
      GetBits(value, 0, 3)
    }

    /** Bits 4..5: a register pair (BC, DE, HL, then SP or AF). */
    function Rr(): (r: bv8)
      ensures r < 4
      ensures forall j: bv8 :: j < 2 ==> GetBit(r, j) == GetBit(value, 4 + j)
    {
      GetBits(value, 4, 6)
    }

    /** Bits 3..4: the condition of a conditional JP, JR, CALL or RET. */
    function Ff(): (r: bv8)
      ensures r < 4
      ensures forall j: bv8 :: j < 2 ==> GetBit(r, j) == GetBit(value, 3 + j)
    {
      GetBits(value, 3, 5)
    }
  }

  /** The two top bits, `xxx` and `yyy` together make up the whole opcode. */
  lemma Decomposition(op: Opcode)
    ensures op.value == (op.value & 0xC0) | (op.Xxx() << 3) | op.Yyy()
  {
    assert op.Xxx() == (op.value >> 3) & 7;
    assert op.Yyy() == op.value & 7;
  }

  /** The pair selector is the top two bits of `xxx`, the condition selector its bottom two. */
  lemma FieldsOverlap(op: Opcode)
    ensures op.Rr() == op.Xxx() >> 1
    ensures op.Ff() == op.Xxx() & 3
  {
    assert op.Xxx() == (op.value >> 3) & 7;
    assert op.Rr() == (op.value >> 4) & 3;
    assert op.Ff() == (op.value >> 3) & 3;
  }
}

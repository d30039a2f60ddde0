/** The disassembler and the emulator's dispatch decode the 0x00-0x3F block
    independently. This module compares the instruction lengths they give:
    the disassembler follows the Z80 encodings, so it disagrees with the
    Game Boy dispatch on six opcodes. */
module Agreement {
  import opened Decoder
  import opened Disassembler

  /** The disassembler's length equals the number of bytes `Step` hands to
      the handler on every low-block opcode except six: 0x08 (`ex af, af'`
      against LD (nn), SP), 0x10 (djnz against STOP, which has no handler),
      and 0x22, 0x2A, 0x32, 0x3A (16-bit address loads and stores against
      the one-byte HL-increment and HL-decrement loads). */
  lemma {:induction false} LowBlockLengthsAgree(op: bv8, cb: bv8)
    requires op < 0x40
    ensures Width(Decode(op, cb)) == InstructionLength(op) <==>
      op !in {0x08, 0x10, 0x22, 0x2A, 0x32, 0x3A}
  {
    assert Decode(op, cb) == DecodeLow(op);
    LowBlockWidth(op);
    LengthByColumn(op);
    if op in {0x22, 0x2A, 0x32, 0x3A} {
      assert Width(DecodeLow(op)) == 1;
    }
  }
}

/** The stack discipline shared by PUSH/POP, CALL/RET/RST and the interrupt
    dispatch: a push decrements SP and stores the high byte, decrements it
    again and stores the low byte; a pop reads the low byte at SP and the
    high byte above it and moves SP up by two. All address arithmetic wraps
    at 16 bits, as the source's `uint16` SP does. */
module Stack {
  import opened Bits
  import opened RegisterFile
  import opened Memory
  import opened Cpu

  /** Two `regs[SP] -= 1; write(SP, byte)` steps, high byte first, then PC
      set to `next`. */
  function Push16(c: Cpu, v: bv16, next: bv16): (o: Cpu)
    ensures o.regs == c.regs.(sp := c.regs.sp - 2, pc := next)
    ensures Read(o.mem, c.regs.sp - 1) == Hi(v)
    ensures Read(o.mem, c.regs.sp - 2) == Lo(v)
    ensures forall a: bv16 :: a != c.regs.sp - 1 && a != c.regs.sp - 2 ==> Read(o.mem, a) == Read(c.mem, a)
    ensures o.ime == c.ime
  {
    c.(regs := c.regs.(sp := c.regs.sp - 2, pc := next),
       mem := Write(Write(c.mem, c.regs.sp - 1, Hi(v)), c.regs.sp - 2, Lo(v)))
  }

  /** The word a pop reads: low byte at SP, high byte at SP + 1. */
  function Top16(c: Cpu): (v: bv16)
    ensures Lo(v) == Read(c.mem, c.regs.sp)
    ensures Hi(v) == Read(c.mem, c.regs.sp + 1)
  {
    Join(Read(c.mem, c.regs.sp + 1), Read(c.mem, c.regs.sp))
  }

  /** A pop right after a push reads back the pushed word from the new SP,
      and moving SP up by two restores it. */
  lemma {:induction false} PopReadsPush(c: Cpu, v: bv16, next: bv16)
    ensures Top16(Push16(c, v, next)) == v
    ensures Push16(c, v, next).regs.sp + 2 == c.regs.sp
  {
    PoppedLowByte(c, v, next);
    PoppedHighByte(c, v, next);
    BytesDetermineWord(Top16(Push16(c, v, next)), v);
    StackOffsets(c.regs.sp);
  }

  /** The byte at the new SP is the pushed word's low byte. */
  lemma PoppedLowByte(c: Cpu, v: bv16, next: bv16)
    ensures Lo(Top16(Push16(c, v, next))) == Lo(v)
  {
    assert Push16(c, v, next).regs.sp == c.regs.sp - 2;
  }

  /** The byte above the new SP is the pushed word's high byte. */
  lemma PoppedHighByte(c: Cpu, v: bv16, next: bv16)
    ensures Hi(Top16(Push16(c, v, next))) == Hi(v)
  {
    StackOffsets(c.regs.sp);
    assert Push16(c, v, next).regs.sp + 1 == c.regs.sp - 1;
  }

  /** SP two below, plus one, is SP one below; plus two is SP again. */
  lemma StackOffsets(sp: bv16)
    ensures (sp - 2) + 1 == sp - 1
    ensures (sp - 2) + 2 == sp
  {
  }
}

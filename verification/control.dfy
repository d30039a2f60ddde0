/** The jump, call, return and restart handlers of opcodes.go:1467-1611. */
module Control {
  import opened Bits
  import opened RegisterFile
  import opened Memory
  import opened Cpu
  import opened Stack

  /** The condition field `ins[0] >> 3 & 0x03`: 0 = NZ, 1 = Z, 2 = NC, 3 = C. */
  function CondField(op: bv8): (cc: bv8)
    ensures cc < 4
  {
    (op >> 3) & 0x03
  }

  /** Whether the condition named by `op` holds for the current flags. */
  function CondHolds(c: Cpu, op: bv8): (taken: bool)
    ensures CondField(op) == 0 ==> (taken <==> !FlagSet(c.regs, ZFlag))
    ensures CondField(op) == 1 ==> (taken <==> FlagSet(c.regs, ZFlag))
    ensures CondField(op) == 2 ==> (taken <==> !FlagSet(c.regs, CFlag))
    ensures CondField(op) == 3 ==> (taken <==> FlagSet(c.regs, CFlag))
  {
    var z, cf := GetFlag(c.regs, ZFlag), GetFlag(c.regs, CFlag);
    var cc := CondField(op);
    (cc == 0 && z == 0) || (cc == 1 && z == 1) || (cc == 2 && cf == 0) || (cc == 3 && cf == 1)
  }

  /** PC set to `target`; nothing else changes. */
  function JumpTo(c: Cpu, target: bv16): (o: Cpu)
    ensures o.regs.pc == target
    ensures OnlyPcMoved(c, o)
  {
    c.(regs := c.regs.(pc := target))
  }

  /** JP nn (opcodes.go:1467-1471): PC = nn, 16 cycles. */
  function JpNn(c: Cpu, ins: seq<bv8>): (o: Outcome)
    requires |ins| >= 3
    ensures o.cpu.regs.pc == Join(ins[2], ins[1])
    ensures OnlyPcMoved(c, o.cpu)
    ensures o.cycles == 16
  {
    Outcome(JumpTo(c, Imm16(ins)), 16)
  }

  /** JP cc, nn (opcodes.go:1473-1489): to nn in 16 cycles when the condition
      holds, past the instruction in 12 otherwise. */
  function JpCcNn(c: Cpu, ins: seq<bv8>): (o: Outcome)
    requires |ins| >= 3
    ensures CondHolds(c, ins[0]) ==> o.cpu.regs.pc == Join(ins[2], ins[1]) && o.cycles == 16
    ensures !CondHolds(c, ins[0]) ==> o.cpu.regs.pc == c.regs.pc + Len16(ins) && o.cycles == 12
    ensures OnlyPcMoved(c, o.cpu)
  {
    if CondHolds(c, ins[0]) then Outcome(JumpTo(c, Imm16(ins)), 16)
    else Outcome(JumpTo(c, c.regs.pc + Len16(ins)), 12)
  }

  /** JR e (opcodes.go:1491-1497): PC moves past the instruction and then by
      the signed displacement e, wrapping at 16 bits. */
  function JrE(c: Cpu, ins: seq<bv8>): (o: Outcome)
    requires |ins| >= 2
    ensures o.cpu.regs.pc == c.regs.pc + Len16(ins) + SignExtend(ins[1])
    ensures OnlyPcMoved(c, o.cpu)
    ensures o.cycles == 12
  {
    Outcome(JumpTo(c, c.regs.pc + Len16(ins) + SignExtend(ins[1])), 12)
  }

  /** JR cc, e (opcodes.go:1499-1516): when taken, the displacement is added
      before the length (12 cycles); otherwise only the length (8 cycles). */
  function JrCcE(c: Cpu, ins: seq<bv8>): (o: Outcome)
    requires |ins| >= 2
    ensures CondHolds(c, ins[0]) ==> o.cpu.regs.pc == c.regs.pc + SignExtend(ins[1]) + Len16(ins) && o.cycles == 12
    ensures !CondHolds(c, ins[0]) ==> o.cpu.regs.pc == c.regs.pc + Len16(ins) && o.cycles == 8
    ensures OnlyPcMoved(c, o.cpu)
  {
    if CondHolds(c, ins[0]) then Outcome(JumpTo(c, c.regs.pc + SignExtend(ins[1]) + Len16(ins)), 12)
    else Outcome(JumpTo(c, c.regs.pc + Len16(ins)), 8)
  }

  /** A taken JR cc lands where JR with the same displacement lands. */
  lemma {:induction false} TakenJrCcIsJr(c: Cpu, ins: seq<bv8>)
    requires |ins| >= 2 && CondHolds(c, ins[0])
    ensures JrCcE(c, ins).cpu == JrE(c, ins).cpu
  {
    AddSwap(c.regs.pc, SignExtend(ins[1]), Len16(ins));
  }

  /** Word addition may take its two addends in either order. */
  lemma AddSwap(p: bv16, x: bv16, y: bv16)
    ensures p + x + y == p + y + x
  {
  }

  /** JP (HL) (opcodes.go:1518-1523): PC = HL, 4 cycles. */
  function JpHl(c: Cpu, ins: seq<bv8>): (o: Outcome)
    ensures o.cpu.regs.pc == Get16(c.regs, HL)
    ensures OnlyPcMoved(c, o.cpu)
    ensures o.cycles == 4
  {
    Outcome(JumpTo(c, Get16(c.regs, HL)), 4)
  }

  /** `o` is `c` after pushing `ret` (high byte at SP - 1, low byte at
      SP - 2, so that a pop reads it back) and jumping to `target`. */
  predicate Called(c: Cpu, o: Cpu, ret: bv16, target: bv16)
  {
    && Top16(o) == ret
    && o.mem == Write(Write(c.mem, c.regs.sp - 1, Hi(ret)), c.regs.sp - 2, Lo(ret))
    && o.regs == c.regs.(sp := c.regs.sp - 2, pc := target)
    && o.ime == c.ime
  }

  /** Pushes the return address `ret` and jumps to `target`. */
  function CallTo(c: Cpu, ret: bv16, target: bv16): (o: Cpu)
    ensures Called(c, o, ret, target)
  {
    PopReadsPush(c, ret, target);
    Push16(c, ret, target)
  }

  /** CALL nn (opcodes.go:1525-1534): the address of the next instruction
      is pushed (high byte first) and PC = nn; 24 cycles. */
  function CallNn(c: Cpu, ins: seq<bv8>): (o: Outcome)
    requires |ins| >= 3
    ensures Called(c, o.cpu, c.regs.pc + Len16(ins), Join(ins[2], ins[1]))
    ensures o.cycles == 24
  {
    Outcome(CallTo(c, c.regs.pc + Len16(ins), Imm16(ins)), 24)
  }

  /** CALL cc, nn (opcodes.go:1536-1556): a CALL nn when the condition holds,
      otherwise only the PC advance, in 12 cycles. */
  function CallCcNn(c: Cpu, ins: seq<bv8>): (o: Outcome)
    requires |ins| >= 3
    ensures CondHolds(c, ins[0]) ==> o == CallNn(c, ins)
    ensures !CondHolds(c, ins[0]) ==>
      o.cpu.regs.pc == c.regs.pc + Len16(ins) && OnlyPcMoved(c, o.cpu) && o.cycles == 12
  {
    if CondHolds(c, ins[0]) then CallNn(c, ins)
    else Outcome(JumpTo(c, c.regs.pc + Len16(ins)), 12)
  }

  /** Pops the word at SP into PC and sets IME to `ime`. */
  function ReturnTo(c: Cpu, ime: bool): (o: Cpu)
    ensures o.regs == c.regs.(sp := c.regs.sp + 2, pc := Top16(c))
    ensures o.mem == c.mem && o.ime == ime
  {
    c.(regs := c.regs.(sp := c.regs.sp + 2, pc := Top16(c)), ime := ime)
  }

  /** RET (opcodes.go:1558-1566): PC from the stack, low byte first; 16 cycles. */
  function Ret(c: Cpu, ins: seq<bv8>): (o: Outcome)
    ensures o.cpu.regs == c.regs.(sp := c.regs.sp + 2, pc := Top16(c))
    ensures o.cpu.mem == c.mem && o.cpu.ime == c.ime
    ensures o.cycles == 16
  {
    Outcome(ReturnTo(c, c.ime), 16)
  }

  /** RETI (opcodes.go:1568-1577): RET that also sets IME. */
  function Reti(c: Cpu, ins: seq<bv8>): (o: Outcome)
    ensures o.cpu.regs == c.regs.(sp := c.regs.sp + 2, pc := Top16(c))
    ensures o.cpu.mem == c.mem && o.cpu.ime
    ensures o.cycles == 16
  {
    Outcome(ReturnTo(c, true), 16)
  }

  /** RET cc (opcodes.go:1579-1598): a return in 20 cycles when the
      condition holds, otherwise only the PC advance, in 8. */
  function RetCc(c: Cpu, ins: seq<bv8>): (o: Outcome)
    requires |ins| >= 1
    ensures CondHolds(c, ins[0]) ==> o.cpu == Ret(c, ins).cpu && o.cycles == 20
    ensures !CondHolds(c, ins[0]) ==>
      o.cpu.regs.pc == c.regs.pc + Len16(ins) && OnlyPcMoved(c, o.cpu) && o.cycles == 8
  {
    if CondHolds(c, ins[0]) then Outcome(ReturnTo(c, c.ime), 20)
    else Outcome(JumpTo(c, c.regs.pc + Len16(ins)), 8)
  }

  /** The restart vector `0x0008 * t` for t in bits 3-5 of the opcode. */
  function RstVector(op: bv8): (v: bv16)
    ensures v as int == 8 * ((op >> 3) & 0x07) as int
    ensures Hi(v) == 0 && v & 0x07 == 0
  {
    0x0008 * ((op >> 3) & 0x07) as bv16
  }

  /** RST t (opcodes.go:1600-1611): pushes the address of the next
      instruction and jumps to 8 * t; 16 cycles. */
  function Rst(c: Cpu, ins: seq<bv8>): (o: Outcome)
    requires |ins| >= 1
    ensures Called(c, o.cpu, c.regs.pc + Len16(ins), RstVector(ins[0]))
    ensures o.cycles == 16
  {
    Outcome(CallTo(c, c.regs.pc + Len16(ins), RstVector(ins[0])), 16)
  }

  /** RET after CALL nn resumes at the instruction after the CALL with SP
      back where it was; only the two stack bytes in memory differ. */
  lemma {:induction false} RetUndoesCall(c: Cpu, call: seq<bv8>, ret: seq<bv8>)
    requires |call| >= 3
    ensures var back := Ret(CallNn(c, call).cpu, ret).cpu;
      back.regs == c.regs.(pc := c.regs.pc + Len16(call)) && back.ime == c.ime
  {
    StackOffsets(c.regs.sp);
  }

  /** RET after RST resumes after the RST, SP restored. */
  lemma {:induction false} RetUndoesRst(c: Cpu, rst: seq<bv8>, ret: seq<bv8>)
    requires |rst| >= 1
    ensures var back := Ret(Rst(c, rst).cpu, ret).cpu;
      back.regs == c.regs.(pc := c.regs.pc + Len16(rst)) && back.ime == c.ime
  {
    StackOffsets(c.regs.sp);
  }
}

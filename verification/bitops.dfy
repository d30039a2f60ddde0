/** The rotate, shift, swap and single-bit handlers of opcodes.go:1036-1465:
    RLCA, RLA, RRCA, RRA on A; the CB-prefixed RLC, RL, RRC, RR, SLA, SRA,
    SRL and SWAP on a register or on (HL); and BIT, SET and RES. */
module BitOps {
  import opened Bits
  import opened RegisterFile
  import opened Memory
  import opened Cpu
  import opened Alu
  import opened Loads
  import opened Arith8

  /** The eight CB-prefixed shift operations. */
  datatype ShiftOp = Rlc | Rl | Rrc | Rr | Sla | Sra | Srl | SwapNibbles

  /** The operations that move bits towards bit 7. */
  predicate Leftward(op: ShiftOp) {
    op == Rlc || op == Rl || op == Sla
  }

  /** The four that RLCA, RLA, RRCA and RRA apply to A. */
  predicate IsRotation(op: ShiftOp) {
    op == Rlc || op == Rl || op == Rrc || op == Rr
  }

  /** The operation's result and flags for value `v`, given the carry flag
      as 0 or 1 (only RL and RR read it). Whatever the operation, Z says
      whether the result is 0 and N and H are cleared; C is the bit moved
      out, except after SWAP, which clears it. */
  function Shift(op: ShiftOp, v: bv8, carry: bv8): (r: Result8)
    ensures r.z <==> r.out == 0
    ensures !r.n && !r.h
    ensures op == SwapNibbles ==> !r.c
    ensures op != SwapNibbles && Leftward(op) ==> (r.c <==> Bit(v, 7))
    ensures op != SwapNibbles && !Leftward(op) ==> (r.c <==> Bit(v, 0))
  {
    match op
    case Rlc => RotateWithC(v, 0, true, false)
    case Rl => RotateWithC(v, carry, true, true)
    case Rrc => RotateWithC(v, 0, false, false)
    case Rr => RotateWithC(v, carry, false, true)
    case Sla => ShiftLeft(v)
    case Sra => ShiftRightArithmetic(v)
    case Srl => ShiftRightLogical(v)
    case SwapNibbles => Swap(v)
  }

  /** The carry flag as the value `getFlag(C_FLAG)`. */
  function CarryFlag(c: Cpu): (v: bv8)
    ensures v == 0 || v == 1
    ensures v == 1 <==> FlagSet(c.regs, CFlag)
  {
    GetFlag(c.regs, CFlag)
  }

  /** RLCA, RLA, RRCA, RRA (opcodes.go:1036-1094): A rotated, C the bit
      rotated out. Z is computed from the result, not cleared. */
  function RotateA(c: Cpu, op: ShiftOp, ins: seq<bv8>): (o: Outcome)
    requires IsRotation(op)
    ensures var a, out := Get8(c.regs, A), Get8(o.cpu.regs, A);
      && out == Shift(op, a, CarryFlag(c)).out
      && AccResult(c, o.cpu, out, out == 0, false, false, if Leftward(op) then Bit(a, 7) else Bit(a, 0))
    ensures o.cpu.regs.pc == c.regs.pc + Len16(ins)
    ensures o.cycles == 4
  {
    Outcome(WriteAcc(c, Shift(op, Get8(c.regs, A), CarryFlag(c)), c.regs.pc + Len16(ins)), 4)
  }

  /** `set8Reg(id, out)` followed by the four flag writes on the register
      file as it is after that write, then the PC advance to `next`. */
  function WriteRegFlags(c: Cpu, id: Reg8Id, r: Result8, next: bv16): (o: Cpu)
    ensures id != F ==> Get8(o.regs, id) == r.out
    ensures FlagsAre(o.regs, r.z, r.n, r.h, r.c)
    ensures Get8(o.regs, F) & 0x0F == (if id == F then r.out else Get8(c.regs, F)) & 0x0F
    ensures forall j: Reg8Id :: j != id && j != F ==> Get8(o.regs, j) == Get8(c.regs, j)
    ensures o.regs.sp == c.regs.sp && o.regs.pc == next
    ensures o.mem == c.mem && o.ime == c.ime
  {
    var regs := Set8(c.regs, id, r.out);
    c.(regs := regs.(f := WithFlags(regs.f, r.z, r.n, r.h, r.c), pc := next))
  }

  /** RLC r, RL r, RRC r, RR r, SLA r, SRA r, SRL r, SWAP r
      (opcodes.go:1096-1392): the register is bits 3-5 of `ins[0]`. Step
      hands these handlers the prefix byte 0xCB there, so the register they
      act on is always C, whatever the second byte names. */
  function ShiftReg(c: Cpu, op: ShiftOp, ins: seq<bv8>): (o: Outcome)
    requires |ins| >= 1
    ensures var id, v := MidReg(ins[0]), Get8(c.regs, MidReg(ins[0]));
      var out := Shift(op, v, CarryFlag(c)).out;
      && (id != F ==> Get8(o.cpu.regs, id) == out)
      && FlagsAre(o.cpu.regs, out == 0, false, false,
                  op != SwapNibbles && if Leftward(op) then Bit(v, 7) else Bit(v, 0))
      && Get8(o.cpu.regs, F) & 0x0F == (if id == F then out else Get8(c.regs, F)) & 0x0F
      && (forall j: Reg8Id :: j != id && j != F ==> Get8(o.cpu.regs, j) == Get8(c.regs, j))
    ensures o.cpu.regs.sp == c.regs.sp && o.cpu.regs.pc == c.regs.pc + Len16(ins)
    ensures o.cpu.mem == c.mem && o.cpu.ime == c.ime
    ensures o.cycles == 8
  {
    Outcome(WriteRegFlags(c, MidReg(ins[0]), Shift(op, Get8(c.regs, MidReg(ins[0])), CarryFlag(c)),
                          c.regs.pc + Len16(ins)), 8)
  }

  /** Writes the memory byte at HL and the four flags, then moves PC. */
  function WriteHlFlags(c: Cpu, r: Result8, next: bv16): (o: Cpu)
    ensures Read(o.mem, Get16(c.regs, HL)) == r.out
    ensures forall a: bv16 :: a != Get16(c.regs, HL) ==> Read(o.mem, a) == Read(c.mem, a)
    ensures FlagsAre(o.regs, r.z, r.n, r.h, r.c)
    ensures o.regs.f & 0x0F == c.regs.f & 0x0F
    ensures o.regs == c.regs.(f := o.regs.f, pc := next) && o.ime == c.ime
  {
    c.(mem := Write(c.mem, Get16(c.regs, HL), r.out),
       regs := c.regs.(f := WithFlags(c.regs.f, r.z, r.n, r.h, r.c), pc := next))
  }

  /** RLC (HL) ... SWAP (HL) (opcodes.go:1110-1392): the same operations on
      the byte at HL. */
  function ShiftHl(c: Cpu, op: ShiftOp, ins: seq<bv8>): (o: Outcome)
    ensures var addr := Get16(c.regs, HL); var v := Read(c.mem, addr);
      var out := Shift(op, v, CarryFlag(c)).out;
      && Read(o.cpu.mem, addr) == out
      && (forall a: bv16 :: a != addr ==> Read(o.cpu.mem, a) == Read(c.mem, a))
      && FlagsAre(o.cpu.regs, out == 0, false, false,
                  op != SwapNibbles && if Leftward(op) then Bit(v, 7) else Bit(v, 0))
    ensures o.cpu.regs.f & 0x0F == c.regs.f & 0x0F
    ensures o.cpu.regs == c.regs.(f := o.cpu.regs.f, pc := c.regs.pc + Len16(ins)) && o.cpu.ime == c.ime
    ensures o.cycles == 16
  {
    Outcome(WriteHlFlags(c, Shift(op, Read(c.mem, Get16(c.regs, HL)), CarryFlag(c)), c.regs.pc + Len16(ins)), 16)
  }

  /** The bit number in bits 3-5 of the CB operand byte. */
  function BitIndex(op: bv8): (b: bv8)
    ensures b < 8
  {
    (op >> 3) & 0x07
  }

  /** Z from the tested bit, N cleared, H set, C kept; PC moved to `next`. */
  function WriteBitTest(c: Cpu, z: bool, next: bv16): (o: Cpu)
    ensures FlagsAre(o.regs, z, false, true, FlagSet(c.regs, CFlag))
    ensures o.regs.f & 0x0F == c.regs.f & 0x0F
    ensures o.regs == c.regs.(f := o.regs.f, pc := next)
    ensures o.mem == c.mem && o.ime == c.ime
  {
    c.(regs := c.regs.(f := WithFlags(c.regs.f, z, false, true, c.regs.f & 0x10 != 0), pc := next))
  }

  /** BIT b, r (opcodes.go:1394-1408): Z raised exactly when bit b of r is 0;
      nothing but F and PC changes. */
  function BitReg(c: Cpu, ins: seq<bv8>): (o: Outcome)
    requires |ins| >= 2
    ensures FlagsAre(o.cpu.regs, !Bit(Get8(c.regs, LowReg(ins[1])), BitIndex(ins[1])), false, true, FlagSet(c.regs, CFlag))
    ensures o.cpu.regs.f & 0x0F == c.regs.f & 0x0F
    ensures o.cpu.regs == c.regs.(f := o.cpu.regs.f, pc := c.regs.pc + Len16(ins))
    ensures o.cpu.mem == c.mem && o.cpu.ime == c.ime
    ensures o.cycles == 8
  {
    Outcome(WriteBitTest(c, TestBit(Get8(c.regs, LowReg(ins[1])), BitIndex(ins[1])), c.regs.pc + Len16(ins)), 8)
  }

  /** BIT b, (HL) (opcodes.go:1410-1424). */
  function BitHl(c: Cpu, ins: seq<bv8>): (o: Outcome)
    requires |ins| >= 2
    ensures FlagsAre(o.cpu.regs, !Bit(Read(c.mem, Get16(c.regs, HL)), BitIndex(ins[1])), false, true, FlagSet(c.regs, CFlag))
    ensures o.cpu.regs.f & 0x0F == c.regs.f & 0x0F
    ensures o.cpu.regs == c.regs.(f := o.cpu.regs.f, pc := c.regs.pc + Len16(ins))
    ensures o.cpu.mem == c.mem && o.cpu.ime == c.ime
    ensures o.cycles == 16
  {
    Outcome(WriteBitTest(c, TestBit(Read(c.mem, Get16(c.regs, HL)), BitIndex(ins[1])), c.regs.pc + Len16(ins)), 16)
  }

  /** SET b (`on`) or RES b: bit `b` becomes `on`, the other bits stay. */
  function PutBit(v: bv8, b: bv8, on: bool): (out: bv8)
    requires b < 8
    ensures Bit(out, b) == on
    ensures forall i: bv8 :: i < 8 && i != b ==> (Bit(out, i) <==> Bit(v, i))
  {
    if on then SetBit(v, b) else ResetBit(v, b)
  }

  /** SET b, r and RES b, r (opcodes.go:1426-1465, register forms): bit b of
      r becomes `on`, its other bits, the other registers and the flags
      stay. */
  function WriteBitReg(c: Cpu, ins: seq<bv8>, on: bool): (o: Outcome)
    requires |ins| >= 2
    ensures var id, b := LowReg(ins[1]), BitIndex(ins[1]);
      && Bit(Get8(o.cpu.regs, id), b) == on
      && (forall i: bv8 :: i < 8 && i != b ==> (Bit(Get8(o.cpu.regs, id), i) <==> Bit(Get8(c.regs, id), i)))
      && OtherBytesKept(c.regs, o.cpu.regs, id)
    ensures o.cpu.regs.sp == c.regs.sp && o.cpu.regs.pc == c.regs.pc + Len16(ins)
    ensures o.cpu.mem == c.mem && o.cpu.ime == c.ime
    ensures o.cycles == 8
  {
    var v := Get8(c.regs, LowReg(ins[1]));
    var b := BitIndex(ins[1]);
    Outcome(LoadReg(c, LowReg(ins[1]), PutBit(v, b, on), c.regs.pc + Len16(ins)), 8)
  }

  /** SET b, (HL) and RES b, (HL) (opcodes.go:1436-1465, memory forms). */
  function WriteBitHl(c: Cpu, ins: seq<bv8>, on: bool): (o: Outcome)
    requires |ins| >= 2
    ensures var addr, b := Get16(c.regs, HL), BitIndex(ins[1]);
      && Bit(Read(o.cpu.mem, addr), b) == on
      && (forall i: bv8 :: i < 8 && i != b ==> (Bit(Read(o.cpu.mem, addr), i) <==> Bit(Read(c.mem, addr), i)))
      && (forall a: bv16 :: a != addr ==> Read(o.cpu.mem, a) == Read(c.mem, a))
    ensures o.cpu.regs == c.regs.(pc := c.regs.pc + Len16(ins)) && o.cpu.ime == c.ime
    ensures o.cycles == 16
  {
    var v := Read(c.mem, Get16(c.regs, HL));
    var b := BitIndex(ins[1]);
    Outcome(Store(c, Get16(c.regs, HL), PutBit(v, b, on), c.regs.pc + Len16(ins)), 16)
  }
}

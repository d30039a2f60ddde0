/** The 8- and 16-bit load handlers and the stack pushes and pops of
    opcodes.go:8-261. Each takes the instruction bytes `ins` that Step hands
    it and returns the new state and the cycle count. */
module Loads {
  import opened Bits
  import opened RegisterFile
  import opened Memory
  import opened Cpu
  import opened Alu
  import opened Stack

  /** Writes byte register `id` and moves PC to `next`. */
  function LoadReg(c: Cpu, id: Reg8Id, v: bv8, next: bv16): (o: Cpu)
    ensures Get8(o.regs, id) == v
    ensures OtherBytesKept(c.regs, o.regs, id)
    ensures o.regs.sp == c.regs.sp && o.regs.pc == next
    ensures o.mem == c.mem && o.ime == c.ime
  {
    c.(regs := Set8(c.regs, id, v).(pc := next))
  }

  /** Writes one memory byte and moves PC to `next`. */
  function Store(c: Cpu, addr: bv16, v: bv8, next: bv16): (o: Cpu)
    ensures Read(o.mem, addr) == v
    ensures forall a: bv16 :: a != addr ==> Read(o.mem, a) == Read(c.mem, a)
    ensures o.regs == c.regs.(pc := next) && o.ime == c.ime
  {
    c.(mem := Write(c.mem, addr, v), regs := c.regs.(pc := next))
  }

  /** LD r1, r2 (opcodes.go:8-15): r1 from bits 3-5, r2 from bits 0-2. */
  function LdRR(c: Cpu, ins: seq<bv8>): (o: Outcome)
    requires |ins| >= 1
    ensures Get8(o.cpu.regs, MidReg(ins[0])) == Get8(c.regs, LowReg(ins[0]))
    ensures OtherBytesKept(c.regs, o.cpu.regs, MidReg(ins[0]))
    ensures o.cpu.regs.sp == c.regs.sp && o.cpu.regs.pc == c.regs.pc + Len16(ins)
    ensures o.cpu.mem == c.mem && o.cpu.ime == c.ime
    ensures o.cycles == 4
  {
    Outcome(LoadReg(c, MidReg(ins[0]), Get8(c.regs, LowReg(ins[0])), c.regs.pc + Len16(ins)), 4)
  }

  /** LD r, n (opcodes.go:17-24): the register is `ins[0] >> 3`, unmasked. */
  function LdRN(c: Cpu, ins: seq<bv8>): (o: Outcome)
    requires |ins| >= 2 && ins[0] < 0x40
    ensures Get8(o.cpu.regs, ins[0] >> 3) == ins[1]
    ensures OtherBytesKept(c.regs, o.cpu.regs, ins[0] >> 3)
    ensures o.cpu.regs.sp == c.regs.sp && o.cpu.regs.pc == c.regs.pc + Len16(ins)
    ensures o.cpu.mem == c.mem && o.cpu.ime == c.ime
    ensures o.cycles == 8
  {
    Outcome(LoadReg(c, ins[0] >> 3, ins[1], c.regs.pc + Len16(ins)), 8)
  }

  /** LD r, (HL) (opcodes.go:26-33). */
  function LdRHl(c: Cpu, ins: seq<bv8>): (o: Outcome)
    requires |ins| >= 1
    ensures Get8(o.cpu.regs, MidReg(ins[0])) == Read(c.mem, Get16(c.regs, HL))
    ensures OtherBytesKept(c.regs, o.cpu.regs, MidReg(ins[0]))
    ensures o.cpu.regs.sp == c.regs.sp && o.cpu.regs.pc == c.regs.pc + Len16(ins)
    ensures o.cpu.mem == c.mem && o.cpu.ime == c.ime
    ensures o.cycles == 8
  {
    Outcome(LoadReg(c, MidReg(ins[0]), Read(c.mem, Get16(c.regs, HL)), c.regs.pc + Len16(ins)), 8)
  }

  /** LD (HL), r (opcodes.go:35-42). */
  function LdHlR(c: Cpu, ins: seq<bv8>): (o: Outcome)
    requires |ins| >= 1
    ensures Read(o.cpu.mem, Get16(c.regs, HL)) == Get8(c.regs, LowReg(ins[0]))
    ensures forall a: bv16 :: a != Get16(c.regs, HL) ==> Read(o.cpu.mem, a) == Read(c.mem, a)
    ensures o.cpu.regs == c.regs.(pc := c.regs.pc + Len16(ins)) && o.cpu.ime == c.ime
    ensures o.cycles == 8
  {
    Outcome(Store(c, Get16(c.regs, HL), Get8(c.regs, LowReg(ins[0])), c.regs.pc + Len16(ins)), 8)
  }

  /** LD (HL), n (opcodes.go:44-51). */
  function LdHlN(c: Cpu, ins: seq<bv8>): (o: Outcome)
    requires |ins| >= 2
    ensures Read(o.cpu.mem, Get16(c.regs, HL)) == ins[1]
    ensures forall a: bv16 :: a != Get16(c.regs, HL) ==> Read(o.cpu.mem, a) == Read(c.mem, a)
    ensures o.cpu.regs == c.regs.(pc := c.regs.pc + Len16(ins)) && o.cpu.ime == c.ime
    ensures o.cycles == 12
  {
    Outcome(Store(c, Get16(c.regs, HL), ins[1], c.regs.pc + Len16(ins)), 12)
  }

  /** LD A, (BC) and LD A, (DE) (opcodes.go:53-67): `pair` is BC or DE. */
  function LdAPair(c: Cpu, pair: Reg16Id, ins: seq<bv8>): (o: Outcome)
    requires pair == BC || pair == DE
    ensures Get8(o.cpu.regs, A) == Read(c.mem, Get16(c.regs, pair))
    ensures OtherBytesKept(c.regs, o.cpu.regs, A)
    ensures o.cpu.regs.sp == c.regs.sp && o.cpu.regs.pc == c.regs.pc + Len16(ins)
    ensures o.cpu.mem == c.mem && o.cpu.ime == c.ime
    ensures o.cycles == 8
  {
    Outcome(LoadReg(c, A, Read(c.mem, Get16(c.regs, pair)), c.regs.pc + Len16(ins)), 8)
  }

  /** LD (BC), A and LD (DE), A (opcodes.go:114-128). */
  function LdPairA(c: Cpu, pair: Reg16Id, ins: seq<bv8>): (o: Outcome)
    requires pair == BC || pair == DE
    ensures Read(o.cpu.mem, Get16(c.regs, pair)) == Get8(c.regs, A)
    ensures forall a: bv16 :: a != Get16(c.regs, pair) ==> Read(o.cpu.mem, a) == Read(c.mem, a)
    ensures o.cpu.regs == c.regs.(pc := c.regs.pc + Len16(ins)) && o.cpu.ime == c.ime
    ensures o.cycles == 8
  {
    Outcome(Store(c, Get16(c.regs, pair), Get8(c.regs, A), c.regs.pc + Len16(ins)), 8)
  }

  /** The I/O page address `uint16(x) + 0xff00`. */
  function HighPage(x: bv8): (addr: bv16)
    ensures Hi(addr) == 0xFF && Lo(addr) == x
  {
    x as bv16 + 0xFF00
  }

  /** LD A, (0xFF00 + C) (opcodes.go:69-76). */
  function LdAC(c: Cpu, ins: seq<bv8>): (o: Outcome)
    ensures Get8(o.cpu.regs, A) == Read(c.mem, Join(0xFF, Get8(c.regs, C)))
    ensures OtherBytesKept(c.regs, o.cpu.regs, A)
    ensures o.cpu.regs.sp == c.regs.sp && o.cpu.regs.pc == c.regs.pc + Len16(ins)
    ensures o.cpu.mem == c.mem && o.cpu.ime == c.ime
    ensures o.cycles == 8
  {
    SplitJoin(HighPage(Get8(c.regs, C)));
    Outcome(LoadReg(c, A, Read(c.mem, HighPage(Get8(c.regs, C))), c.regs.pc + Len16(ins)), 8)
  }

  /** LD (0xFF00 + C), A (opcodes.go:78-85). */
  function LdCA(c: Cpu, ins: seq<bv8>): (o: Outcome)
    ensures Read(o.cpu.mem, Join(0xFF, Get8(c.regs, C))) == Get8(c.regs, A)
    ensures forall a: bv16 :: a != Join(0xFF, Get8(c.regs, C)) ==> Read(o.cpu.mem, a) == Read(c.mem, a)
    ensures o.cpu.regs == c.regs.(pc := c.regs.pc + Len16(ins)) && o.cpu.ime == c.ime
    ensures o.cycles == 8
  {
    SplitJoin(HighPage(Get8(c.regs, C)));
    Outcome(Store(c, HighPage(Get8(c.regs, C)), Get8(c.regs, A), c.regs.pc + Len16(ins)), 8)
  }

  /** LD A, (0xFF00 + n) (opcodes.go:87-94). */
  function LdAN(c: Cpu, ins: seq<bv8>): (o: Outcome)
    requires |ins| >= 2
    ensures Get8(o.cpu.regs, A) == Read(c.mem, Join(0xFF, ins[1]))
    ensures OtherBytesKept(c.regs, o.cpu.regs, A)
    ensures o.cpu.regs.sp == c.regs.sp && o.cpu.regs.pc == c.regs.pc + Len16(ins)
    ensures o.cpu.mem == c.mem && o.cpu.ime == c.ime
    ensures o.cycles == 12
  {
    SplitJoin(HighPage(ins[1]));
    Outcome(LoadReg(c, A, Read(c.mem, HighPage(ins[1])), c.regs.pc + Len16(ins)), 12)
  }

  /** LD (0xFF00 + n), A (opcodes.go:96-104). */
  function LdNA(c: Cpu, ins: seq<bv8>): (o: Outcome)
    requires |ins| >= 2
    ensures Read(o.cpu.mem, Join(0xFF, ins[1])) == Get8(c.regs, A)
    ensures forall a: bv16 :: a != Join(0xFF, ins[1]) ==> Read(o.cpu.mem, a) == Read(c.mem, a)
    ensures o.cpu.regs == c.regs.(pc := c.regs.pc + Len16(ins)) && o.cpu.ime == c.ime
    ensures o.cycles == 12
  {
    SplitJoin(HighPage(ins[1]));
    Outcome(Store(c, HighPage(ins[1]), Get8(c.regs, A), c.regs.pc + Len16(ins)), 12)
  }

  /** LD A, (nn) (opcodes.go:106-112): nn little-endian in `ins[1..3]`. */
  function LdANn(c: Cpu, ins: seq<bv8>): (o: Outcome)
    requires |ins| >= 3
    ensures Get8(o.cpu.regs, A) == Read(c.mem, Join(ins[2], ins[1]))
    ensures OtherBytesKept(c.regs, o.cpu.regs, A)
    ensures o.cpu.regs.sp == c.regs.sp && o.cpu.regs.pc == c.regs.pc + Len16(ins)
    ensures o.cpu.mem == c.mem && o.cpu.ime == c.ime
    ensures o.cycles == 16
  {
    Outcome(LoadReg(c, A, Read(c.mem, Imm16(ins)), c.regs.pc + Len16(ins)), 16)
  }

  /** LD (nn), A (opcodes.go:130-136). */
  function LdNnA(c: Cpu, ins: seq<bv8>): (o: Outcome)
    requires |ins| >= 3
    ensures Read(o.cpu.mem, Join(ins[2], ins[1])) == Get8(c.regs, A)
    ensures forall a: bv16 :: a != Join(ins[2], ins[1]) ==> Read(o.cpu.mem, a) == Read(c.mem, a)
    ensures o.cpu.regs == c.regs.(pc := c.regs.pc + Len16(ins)) && o.cpu.ime == c.ime
    ensures o.cycles == 16
  {
    Outcome(Store(c, Imm16(ins), Get8(c.regs, A), c.regs.pc + Len16(ins)), 16)
  }

  /** LD A, (HL+) and LD A, (HL-) (opcodes.go:138-156, the handlers Step
      calls LDI_a_hl and LDD_a_hl): A from (HL), then HL steps by one,
      wrapping. */
  function LdAHlStep(c: Cpu, up: bool, ins: seq<bv8>): (o: Outcome)
    ensures Get8(o.cpu.regs, A) == Read(c.mem, Get16(c.regs, HL))
    ensures Get16(o.cpu.regs, HL) == (if up then Get16(c.regs, HL) + 1 else Get16(c.regs, HL) - 1)
    ensures forall id: Reg16Id :: id != HL && id != AF && id != PC ==> Get16(o.cpu.regs, id) == Get16(c.regs, id)
    ensures Get8(o.cpu.regs, F) == Get8(c.regs, F)
    ensures o.cpu.regs.pc == c.regs.pc + Len16(ins)
    ensures o.cpu.mem == c.mem && o.cpu.ime == c.ime
    ensures o.cycles == 8
  {
    var address := Get16(c.regs, HL);
    var r := Set8(c.regs, A, Read(c.mem, address));
    var r' := Set16(r, HL, if up then address + 1 else address - 1);
    Outcome(c.(regs := r'.(pc := c.regs.pc + Len16(ins))), 8)
  }

  /** LD (HL+), A and LD (HL-), A (opcodes.go:158-176, Step's LDI_hl_a and
      LDD_hl_a): (HL) from A, then HL steps by one, wrapping. */
  function LdHlStepA(c: Cpu, up: bool, ins: seq<bv8>): (o: Outcome)
    ensures Read(o.cpu.mem, Get16(c.regs, HL)) == Get8(c.regs, A)
    ensures forall a: bv16 :: a != Get16(c.regs, HL) ==> Read(o.cpu.mem, a) == Read(c.mem, a)
    ensures Get16(o.cpu.regs, HL) == (if up then Get16(c.regs, HL) + 1 else Get16(c.regs, HL) - 1)
    ensures forall id: Reg16Id :: id != HL && id != PC ==> Get16(o.cpu.regs, id) == Get16(c.regs, id)
    ensures o.cpu.regs.pc == c.regs.pc + Len16(ins)
    ensures o.cpu.ime == c.ime
    ensures o.cycles == 8
  {
    var address := Get16(c.regs, HL);
    var r := Set16(c.regs, HL, if up then address + 1 else address - 1);
    Outcome(c.(mem := Write(c.mem, address, Get8(c.regs, A)), regs := r.(pc := c.regs.pc + Len16(ins))), 8)
  }

  /** LD dd, nn (opcodes.go:180-187): the pair is `ins[0] >> 4`, unmasked,
      so that opcodes 0x01, 0x11, 0x21, 0x31 load BC, DE, HL, SP. */
  function LdDdNn(c: Cpu, ins: seq<bv8>): (o: Outcome)
    requires |ins| >= 3 && ins[0] < 0x40
    ensures Get16(o.cpu.regs, ins[0] >> 4) == Join(ins[2], ins[1])
    ensures forall id: Reg16Id :: id != ins[0] >> 4 && id != PC ==> Get16(o.cpu.regs, id) == Get16(c.regs, id)
    ensures o.cpu.regs.pc == c.regs.pc + Len16(ins)
    ensures o.cpu.mem == c.mem && o.cpu.ime == c.ime
    ensures o.cycles == 12
  {
    Outcome(c.(regs := Set16(c.regs, ins[0] >> 4, Imm16(ins)).(pc := c.regs.pc + Len16(ins))), 12)
  }

  /** LD SP, HL (opcodes.go:189-194); it returns 12 cycles. */
  function LdSpHl(c: Cpu, ins: seq<bv8>): (o: Outcome)
    ensures Get16(o.cpu.regs, SP) == Get16(c.regs, HL)
    ensures o.cpu.regs == c.regs.(sp := Get16(c.regs, HL), pc := c.regs.pc + Len16(ins))
    ensures o.cpu.mem == c.mem && o.cpu.ime == c.ime
    ensures o.cycles == 12
  {
    Outcome(c.(regs := c.regs.(sp := Get16(c.regs, HL), pc := c.regs.pc + Len16(ins))), 12)
  }

  /** The pair PUSH and POP name in bits 4-5: BC, DE or HL, with AF taking
      the place of SP. */
  function StackPair(op: bv8): (id: Reg16Id)
    ensures id == BC || id == DE || id == HL || id == AF
    ensures PairField(op) != SP ==> id == PairField(op)
    ensures PairField(op) == SP ==> id == AF
  {
    if PairField(op) == SP then AF else PairField(op)
  }

  /** PUSH qq (opcodes.go:196-211): the pair's high byte goes to SP - 1, its
      low byte to SP - 2, SP ends two lower, and the pushed pair is the word
      a pop would read. */
  function PushQq(c: Cpu, ins: seq<bv8>): (o: Outcome)
    requires |ins| >= 1
    ensures Top16(o.cpu) == Get16(c.regs, StackPair(ins[0]))
    ensures var sp, v := c.regs.sp, Get16(c.regs, StackPair(ins[0]));
      o.cpu.mem == Write(Write(c.mem, sp - 1, Hi(v)), sp - 2, Lo(v))
    ensures o.cpu.regs == c.regs.(sp := c.regs.sp - 2, pc := c.regs.pc + Len16(ins))
    ensures o.cpu.ime == c.ime
    ensures o.cycles == 16
  {
    PopReadsPush(c, Get16(c.regs, StackPair(ins[0])), c.regs.pc + Len16(ins));
    Outcome(Push16(c, Get16(c.regs, StackPair(ins[0])), c.regs.pc + Len16(ins)), 16)
  }

  /** POP qq (opcodes.go:213-227): the pair gets the word at SP (low byte
      first), SP ends two higher, and PC moves by exactly 1. POP AF stores
      all eight bits of the popped low byte in F. */
  function PopQq(c: Cpu, ins: seq<bv8>): (o: Outcome)
    requires |ins| >= 1
    ensures Get16(o.cpu.regs, StackPair(ins[0])) == Top16(c)
    ensures forall id: Reg16Id :: id != StackPair(ins[0]) && id != SP && id != PC ==>
      Get16(o.cpu.regs, id) == Get16(c.regs, id)
    ensures o.cpu.regs.sp == c.regs.sp + 2 && o.cpu.regs.pc == c.regs.pc + 1
    ensures o.cpu.mem == c.mem && o.cpu.ime == c.ime
    ensures o.cycles == 12
  {
    Outcome(c.(regs := Set16(c.regs, StackPair(ins[0]), Top16(c)).(sp := c.regs.sp + 2, pc := c.regs.pc + 1)), 12)
  }

  /** POP qq after PUSH qq of the same pair gives back every register but
      PC: the pair holds its old value and SP is where it was. */
  lemma {:induction false} PopUndoesPush(c: Cpu, push: seq<bv8>, pop: seq<bv8>)
    requires |push| >= 1 && |pop| >= 1 && StackPair(push[0]) == StackPair(pop[0])
    ensures var pushed := PushQq(c, push).cpu;
      PopQq(pushed, pop).cpu.regs == c.regs.(pc := pushed.regs.pc + 1)
  {
    var q := StackPair(push[0]);
    var pushed := PushQq(c, push).cpu;
    var v := Get16(c.regs, q);
    assert Top16(pushed) == v;
    StackOffsets(c.regs.sp);
    assert pushed.regs == c.regs.(sp := c.regs.sp - 2, pc := pushed.regs.pc);
    Set16Unchanged(c.regs, q);
    SetPairIgnoresSpPc(c.regs, q, c.regs.sp - 2, pushed.regs.pc);
  }

  /** Writing BC, DE, HL or AF commutes with replacing SP and PC. */
  lemma SetPairIgnoresSpPc(r: Registers, q: Reg16Id, sp: bv16, pc: bv16)
    requires q != SP && q != PC
    ensures Set16(r.(sp := sp, pc := pc), q, Get16(r, q)) == Set16(r, q, Get16(r, q)).(sp := sp, pc := pc)
  {
  }

  /** Writes a 16-bit sum to HL with Z set to `z`, N cleared and H, C from
      the sum, then moves PC to `next`. */
  function WriteHl(c: Cpu, r: Result16, z: bool, next: bv16): (o: Cpu)
    ensures Get16(o.regs, HL) == r.out
    ensures FlagsAre(o.regs, z, false, r.h, r.c)
    ensures o.regs.f & 0x0F == c.regs.f & 0x0F
    ensures o.regs == c.regs.(h := o.regs.h, l := o.regs.l, f := o.regs.f, pc := next)
    ensures o.mem == c.mem && o.ime == c.ime
  {
    c.(regs := c.regs.(h := Hi(r.out), l := Lo(r.out), f := WithFlags(c.regs.f, z, false, r.h, r.c), pc := next))
  }

  /** HL = SP + e with e sign-extended; Z and N cleared, H and C the
      carries out of bits 11 and 15 of the 16-bit sum; PC moved to `next`. */
  function LoadHlSum(c: Cpu, e: bv8, next: bv16): (o: Cpu)
    ensures Get16(o.regs, HL) == c.regs.sp + SignExtend(e)
    ensures FlagsAre(o.regs, false, false, (c.regs.sp + SignExtend(e)) & 0x0FFF < c.regs.sp & 0x0FFF,
                     c.regs.sp + SignExtend(e) < c.regs.sp)
    ensures o.regs.f & 0x0F == c.regs.f & 0x0F
    ensures o.regs == c.regs.(h := o.regs.h, l := o.regs.l, f := o.regs.f, pc := next)
    ensures o.mem == c.mem && o.ime == c.ime
  {
    WriteHl(c, Add16(c.regs.sp, SignExtend(e)), false, next)
  }

  /** LDHL SP, e (opcodes.go:229-249). */
  function LdHlSpE(c: Cpu, ins: seq<bv8>): (o: Outcome)
    requires |ins| >= 2
    ensures Get16(o.cpu.regs, HL) == c.regs.sp + SignExtend(ins[1])
    ensures FlagsAre(o.cpu.regs, false, false, (c.regs.sp + SignExtend(ins[1])) & 0x0FFF < c.regs.sp & 0x0FFF,
                     c.regs.sp + SignExtend(ins[1]) < c.regs.sp)
    ensures o.cpu.regs.f & 0x0F == c.regs.f & 0x0F
    ensures o.cpu.regs == c.regs.(h := o.cpu.regs.h, l := o.cpu.regs.l, f := o.cpu.regs.f, pc := c.regs.pc + Len16(ins))
    ensures o.cpu.mem == c.mem && o.cpu.ime == c.ime
    ensures o.cycles == 12
  {
    Outcome(LoadHlSum(c, ins[1], c.regs.pc + Len16(ins)), 12)
  }

  /** LD (nn), SP (opcodes.go:251-261): SP's low byte at nn, its high byte at
      nn + 1 (wrapping at 0xFFFF). */
  function LdNnSp(c: Cpu, ins: seq<bv8>): (o: Outcome)
    requires |ins| >= 3
    ensures var nn := Imm16(ins);
      && Read(o.cpu.mem, nn) == Lo(c.regs.sp)
      && Read(o.cpu.mem, nn + 1) == Hi(c.regs.sp)
      && forall a: bv16 :: a != nn && a != nn + 1 ==> Read(o.cpu.mem, a) == Read(c.mem, a)
    ensures o.cpu.regs == c.regs.(pc := c.regs.pc + Len16(ins)) && o.cpu.ime == c.ime
    ensures o.cycles == 20
  {
    var nn := Imm16(ins);
    Outcome(c.(mem := Write(Write(c.mem, nn, Lo(c.regs.sp)), nn + 1, Hi(c.regs.sp)),
               regs := c.regs.(pc := c.regs.pc + Len16(ins))), 20)
  }
}

/** The 16-bit arithmetic handlers of opcodes.go:905-980: ADD HL,ss,
    ADD SP,e, INC ss and DEC ss. */
module Arith16 {
  import opened Bits
  import opened RegisterFile
  import opened Memory
  import opened Cpu
  import opened Alu
  import opened AluLaws
  import opened Loads

  /** HL = hl + v, where `hl` is the current HL; Z kept, N cleared, H and C
      the carries out of bits 11 and 15; PC moved to `next`. */
  function AddToHl(c: Cpu, hl: bv16, v: bv16, next: bv16): (o: Cpu)
    requires hl == Get16(c.regs, HL)
    ensures Get16(o.regs, HL) == hl + v
    ensures FlagsAre(o.regs, FlagSet(c.regs, ZFlag), false, (hl + v) & 0x0FFF < hl & 0x0FFF, hl + v < hl)
    ensures o.regs.f & 0x0F == c.regs.f & 0x0F
    ensures o.regs == c.regs.(h := o.regs.h, l := o.regs.l, f := o.regs.f, pc := next)
    ensures o.mem == c.mem && o.ime == c.ime
  {
    WriteHl(c, Add16(hl, v), FlagSet(c.regs, ZFlag), next)
  }

  /** ADD HL, ss (opcodes.go:907-927): ss from bits 4-5 (BC, DE, HL, SP);
      the Z flag is left as it was. */
  function AddHlSs(c: Cpu, ins: seq<bv8>): (o: Outcome)
    requires |ins| >= 1
    ensures Get16(o.cpu.regs, HL) == Get16(c.regs, HL) + Get16(c.regs, PairField(ins[0]))
    ensures FlagsAre(o.cpu.regs, FlagSet(c.regs, ZFlag), false,
                     (Get16(c.regs, HL) + Get16(c.regs, PairField(ins[0]))) & 0x0FFF < Get16(c.regs, HL) & 0x0FFF,
                     Get16(c.regs, HL) + Get16(c.regs, PairField(ins[0])) < Get16(c.regs, HL))
    ensures o.cpu.regs.f & 0x0F == c.regs.f & 0x0F
    ensures o.cpu.regs == c.regs.(h := o.cpu.regs.h, l := o.cpu.regs.l, f := o.cpu.regs.f, pc := c.regs.pc + Len16(ins))
    ensures o.cpu.mem == c.mem && o.cpu.ime == c.ime
    ensures o.cycles == 8
  {
    Outcome(AddToHl(c, Get16(c.regs, HL), Get16(c.regs, PairField(ins[0])), c.regs.pc + Len16(ins)), 8)
  }

  /** Writes a 16-bit sum to SP with Z and N cleared and H, C from the sum,
      then moves PC to `next`. */
  function WriteSp(c: Cpu, r: Result16, next: bv16): (o: Cpu)
    ensures o.regs.sp == r.out
    ensures FlagsAre(o.regs, false, false, r.h, r.c)
    ensures o.regs.f & 0x0F == c.regs.f & 0x0F
    ensures o.regs == c.regs.(sp := r.out, f := o.regs.f, pc := next)
    ensures o.mem == c.mem && o.ime == c.ime
  {
    c.(regs := c.regs.(sp := r.out, f := WithFlags(c.regs.f, false, false, r.h, r.c), pc := next))
  }

  /** SP = SP + e with e sign-extended; Z and N cleared, H and C the carries
      out of bits 11 and 15 of the 16-bit sum; PC moved to `next`. */
  function AddToSp(c: Cpu, e: bv8, next: bv16): (o: Cpu)
    ensures o.regs.sp == c.regs.sp + SignExtend(e)
    ensures FlagsAre(o.regs, false, false, (c.regs.sp + SignExtend(e)) & 0x0FFF < c.regs.sp & 0x0FFF,
                     c.regs.sp + SignExtend(e) < c.regs.sp)
    ensures o.regs.f & 0x0F == c.regs.f & 0x0F
    ensures o.regs == c.regs.(sp := o.regs.sp, f := o.regs.f, pc := next)
    ensures o.mem == c.mem && o.ime == c.ime
  {
    WriteSp(c, Add16(c.regs.sp, SignExtend(e)), next)
  }

  /** ADD SP, e (opcodes.go:929-949). */
  function AddSpE(c: Cpu, ins: seq<bv8>): (o: Outcome)
    requires |ins| >= 2
    ensures o.cpu.regs.sp == c.regs.sp + SignExtend(ins[1])
    ensures FlagsAre(o.cpu.regs, false, false, (c.regs.sp + SignExtend(ins[1])) & 0x0FFF < c.regs.sp & 0x0FFF,
                     c.regs.sp + SignExtend(ins[1]) < c.regs.sp)
    ensures o.cpu.regs.f & 0x0F == c.regs.f & 0x0F
    ensures o.cpu.regs == c.regs.(sp := o.cpu.regs.sp, f := o.cpu.regs.f, pc := c.regs.pc + Len16(ins))
    ensures o.cpu.mem == c.mem && o.cpu.ime == c.ime
    ensures o.cycles == 16
  {
    Outcome(AddToSp(c, ins[1], c.regs.pc + Len16(ins)), 16)
  }

  /** Replaces pair `ss` (BC, DE, HL or SP) and moves PC to `next`; the
      flags and every other pair are kept. */
  function SetPair(c: Cpu, ss: Reg16Id, v: bv16, next: bv16): (o: Cpu)
    requires ss <= SP
    ensures Get16(o.regs, ss) == v
    ensures forall id: Reg16Id :: id != ss && id != PC ==> Get16(o.regs, id) == Get16(c.regs, id)
    ensures o.regs.pc == next
    ensures o.mem == c.mem && o.ime == c.ime
  {
    c.(regs := Set16(c.regs, ss, v).(pc := next))
  }

  /** INC ss (opcodes.go:960-970): no flag changes. */
  function IncSs(c: Cpu, ins: seq<bv8>): (o: Outcome)
    requires |ins| >= 1
    ensures Get16(o.cpu.regs, PairField(ins[0])) == Get16(c.regs, PairField(ins[0])) + 1
    ensures forall id: Reg16Id :: id != PairField(ins[0]) && id != PC ==> Get16(o.cpu.regs, id) == Get16(c.regs, id)
    ensures o.cpu.regs.pc == c.regs.pc + Len16(ins)
    ensures o.cpu.mem == c.mem && o.cpu.ime == c.ime
    ensures o.cycles == 8
  {
    var ss := PairField(ins[0]);
    Outcome(SetPair(c, ss, Get16(c.regs, ss) + 1, c.regs.pc + Len16(ins)), 8)
  }

  /** DEC ss (opcodes.go:972-980): no flag changes. */
  function DecSs(c: Cpu, ins: seq<bv8>): (o: Outcome)
    requires |ins| >= 1
    ensures Get16(o.cpu.regs, PairField(ins[0])) == Get16(c.regs, PairField(ins[0])) - 1
    ensures forall id: Reg16Id :: id != PairField(ins[0]) && id != PC ==> Get16(o.cpu.regs, id) == Get16(c.regs, id)
    ensures o.cpu.regs.pc == c.regs.pc + Len16(ins)
    ensures o.cpu.mem == c.mem && o.cpu.ime == c.ime
    ensures o.cycles == 8
  {
    var ss := PairField(ins[0]);
    Outcome(SetPair(c, ss, Get16(c.regs, ss) - 1, c.regs.pc + Len16(ins)), 8)
  }

  /** DEC ss undoes INC ss, on the pair and on every other pair but PC. */
  lemma {:induction false} DecUndoesIncPair(c: Cpu, ins: seq<bv8>)
    requires |ins| >= 1
    ensures var o := DecSs(IncSs(c, ins).cpu, ins).cpu;
      forall id: Reg16Id :: id != PC ==> Get16(o.regs, id) == Get16(c.regs, id)
  {
    var ss := PairField(ins[0]);
    var i := IncSs(c, ins).cpu;
    var o := DecSs(i, ins).cpu;
    forall id: Reg16Id | id != PC
      ensures Get16(o.regs, id) == Get16(c.regs, id)
    {
      if id == ss {
        StepBack(Get16(c.regs, ss));
      }
    }
  }

  /** One up, one down. */
  lemma StepBack(v: bv16)
    ensures (v + 1) - 1 == v
  {
  }
}

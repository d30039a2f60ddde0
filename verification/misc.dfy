/** The one-byte miscellaneous handlers of opcodes.go:1613-1687: DAA, CPL,
    SCF, CCF, DI, EI and NOP. Each takes 4 cycles and moves PC past the
    instruction. */
module Misc {
  import opened Bits
  import opened RegisterFile
  import opened Memory
  import opened Cpu
  import opened Alu
  import opened AluLaws
  import opened Arith8

  /** DAA (opcodes.go:1613-1646): A is corrected by the N/H/C-directed
      amount of `Alu.Daa`; Z follows the result, H is cleared, N is kept and
      C is only ever set, never cleared. */
  function DaaA(c: Cpu, ins: seq<bv8>): (o: Outcome)
    ensures var r := Daa(c.regs.a, FlagSet(c.regs, NFlag), FlagSet(c.regs, HFlag), FlagSet(c.regs, CFlag));
      AccResult(c, o.cpu, r.out, r.out == 0, FlagSet(c.regs, NFlag), false, FlagSet(c.regs, CFlag) || r.setC)
    ensures o.cpu.regs.pc == c.regs.pc + Len16(ins)
    ensures o.cycles == 4
  {
    var r := Daa(c.regs.a, FlagSet(c.regs, NFlag), FlagSet(c.regs, HFlag), FlagSet(c.regs, CFlag));
    var res := Result8(r.out, r.out == 0, FlagSet(c.regs, NFlag), false, FlagSet(c.regs, CFlag) || r.setC);
    Outcome(WriteAcc(c, res, c.regs.pc + Len16(ins)), 4)
  }

  /** A valid BCD accumulator with N, H and C clear is left as it is by DAA,
      and the carry stays clear. */
  lemma {:induction false} DaaKeepsBcdAccumulator(c: Cpu, ins: seq<bv8>)
    requires IsBcd(c.regs.a)
    requires !FlagSet(c.regs, NFlag) && !FlagSet(c.regs, HFlag) && !FlagSet(c.regs, CFlag)
    ensures DaaA(c, ins).cpu.regs.a == c.regs.a
    ensures !FlagSet(DaaA(c, ins).cpu.regs, CFlag)
  {
    DaaKeepsBcd(c.regs.a);
  }

  /** A byte with only `f` changed to `on` among the four flags. */
  function FlagOp(c: Cpu, fl: Flag, on: bool, next: bv16): (o: Cpu)
    ensures FlagSet(o.regs, fl) == on
    ensures o.regs.f & !Mask(fl) == c.regs.f & !Mask(fl)
    ensures o.regs == c.regs.(f := o.regs.f, pc := next)
    ensures o.mem == c.mem && o.ime == c.ime
  {
    c.(regs := ModifyFlag(c.regs, fl, on).(pc := next))
  }

  /** CPL (opcodes.go:1648-1653): A is complemented; no flag changes. */
  function Cpl(c: Cpu, ins: seq<bv8>): (o: Outcome)
    ensures o.cpu.regs == c.regs.(a := !c.regs.a, pc := c.regs.pc + Len16(ins))
    ensures o.cpu.mem == c.mem && o.cpu.ime == c.ime
    ensures o.cycles == 4
  {
    Outcome(c.(regs := c.regs.(a := !c.regs.a, pc := c.regs.pc + Len16(ins))), 4)
  }

  /** CPL twice gives back the accumulator and the flags. */
  lemma {:induction false} CplTwice(c: Cpu, ins: seq<bv8>)
    ensures Cpl(Cpl(c, ins).cpu, ins).cpu.regs.a == c.regs.a
    ensures Cpl(Cpl(c, ins).cpu, ins).cpu.regs.f == c.regs.f
  {
  }

  /** SCF (opcodes.go:1655-1660): C set; Z, N, H and the low nibble kept. */
  function Scf(c: Cpu, ins: seq<bv8>): (o: Outcome)
    ensures FlagSet(o.cpu.regs, CFlag)
    ensures o.cpu.regs.f & !Mask(CFlag) == c.regs.f & !Mask(CFlag)
    ensures o.cpu.regs == c.regs.(f := o.cpu.regs.f, pc := c.regs.pc + Len16(ins))
    ensures o.cpu.mem == c.mem && o.cpu.ime == c.ime
    ensures o.cycles == 4
  {
    Outcome(FlagOp(c, CFlag, true, c.regs.pc + Len16(ins)), 4)
  }

  /** CCF (opcodes.go:1662-1667): C CLEARED whatever its value was; Z, N, H
      and the low nibble kept. */
  function Ccf(c: Cpu, ins: seq<bv8>): (o: Outcome)
    ensures !FlagSet(o.cpu.regs, CFlag)
    ensures o.cpu.regs.f & !Mask(CFlag) == c.regs.f & !Mask(CFlag)
    ensures o.cpu.regs == c.regs.(f := o.cpu.regs.f, pc := c.regs.pc + Len16(ins))
    ensures o.cpu.mem == c.mem && o.cpu.ime == c.ime
    ensures o.cycles == 4
  {
    Outcome(FlagOp(c, CFlag, false, c.regs.pc + Len16(ins)), 4)
  }

  /** SCF and CCF write the same flag byte except for the carry bit, and CCF
      after SCF does not restore a set carry to set: it always clears it. */
  lemma {:induction false} CcfAfterScfClears(c: Cpu, ins: seq<bv8>)
    ensures Scf(c, ins).cpu.regs.f & !Mask(CFlag) == Ccf(c, ins).cpu.regs.f & !Mask(CFlag)
    ensures !FlagSet(Ccf(Scf(c, ins).cpu, ins).cpu.regs, CFlag)
  {
  }

  /** DI (opcodes.go:1669-1674): interrupts disabled. */
  function Di(c: Cpu, ins: seq<bv8>): (o: Outcome)
    ensures o.cpu == c.(regs := c.regs.(pc := c.regs.pc + Len16(ins)), ime := false)
    ensures o.cycles == 4
  {
    Outcome(c.(regs := c.regs.(pc := c.regs.pc + Len16(ins)), ime := false), 4)
  }

  /** EI (opcodes.go:1676-1681): interrupts enabled at once, with no
      one-instruction delay. */
  function Ei(c: Cpu, ins: seq<bv8>): (o: Outcome)
    ensures o.cpu == c.(regs := c.regs.(pc := c.regs.pc + Len16(ins)), ime := true)
    ensures o.cycles == 4
  {
    Outcome(c.(regs := c.regs.(pc := c.regs.pc + Len16(ins)), ime := true), 4)
  }

  /** NOP (opcodes.go:1683-1687): only PC moves. */
  function Nop(c: Cpu, ins: seq<bv8>): (o: Outcome)
    ensures o.cpu.regs.pc == c.regs.pc + Len16(ins)
    ensures OnlyPcMoved(c, o.cpu)
    ensures o.cycles == 4
  {
    Outcome(c.(regs := c.regs.(pc := c.regs.pc + Len16(ins))), 4)
  }

  /** DI undoes EI: with interrupts disabled beforehand, EI then DI leaves
      IME, the memory and the flags as they were. */
  lemma {:induction false} DiUndoesEi(c: Cpu, ins: seq<bv8>)
    requires !c.ime
    ensures Di(Ei(c, ins).cpu, ins).cpu.ime == c.ime
    ensures Di(Ei(c, ins).cpu, ins).cpu.mem == c.mem
    ensures Di(Ei(c, ins).cpu, ins).cpu.regs.f == c.regs.f
  {
  }
}

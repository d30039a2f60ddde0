/** The CPU state the instruction handlers transform, and the small pieces
    every handler in opcodes.go shares: PC advance, flag writes, operand
    fields, and the predicates their contracts are stated with. */
module Cpu {
  import opened Bits
  import opened RegisterFile
  import opened Memory

  /** Registers, the memory bus and the interrupt-master-enable flag. */
  datatype Cpu = Cpu(regs: Registers, mem: Mem, ime: bool)

  /** What a handler returns: the new state and its cycle count. */
  datatype Outcome = Outcome(cpu: Cpu, cycles: nat)

  /** `checkAndSetZeroFlag` */
  function CheckAndSetZeroFlag(r: Registers, out: bv8): Registers {
    ModifyFlag(r, ZFlag, out == 0)
  }

  /** The register field in bits 3-5, `Reg8ID((ins[0] & 0x38) >> 3)` or
      equally `Reg8ID((ins[0] >> 3) & 0x07)`. */
  function MidReg(op: bv8): Reg8Id {
    (op & 0x38) >> 3
  }

  /** `Reg8ID(ins[0] & 0x07)`: register field in bits 0-2. */
  function LowReg(op: bv8): Reg8Id {
    op & 0x07
  }

  /** `Reg16ID((ins[0] >> 4) & 0x03)`: register-pair field in bits 4-5. */
  function PairField(op: bv8): Reg16Id {
    (op >> 4) & 0x03
  }

  /** `binary.LittleEndian.Uint16(ins[1:])` */
  function Imm16(ins: seq<bv8>): bv16
    requires |ins| >= 3
  {
    Join(ins[2], ins[1])
  }

  /** The four flags read back as the given booleans. */
  predicate FlagsAre(r: Registers, z: bool, n: bool, h: bool, c: bool) {
    && FlagSet(r, ZFlag) == z
    && FlagSet(r, NFlag) == n
    && FlagSet(r, HFlag) == h
    && FlagSet(r, CFlag) == c
  }

  /** BC, DE, HL and SP, the memory and IME are as before. */
  predicate KeepsOthers(before: Cpu, after: Cpu) {
    && after.regs.b == before.regs.b
    && after.regs.c == before.regs.c
    && after.regs.d == before.regs.d
    && after.regs.e == before.regs.e
    && after.regs.h == before.regs.h
    && after.regs.l == before.regs.l
    && after.regs.sp == before.regs.sp
    && after.mem == before.mem
    && after.ime == before.ime
  }

  /** Result of an accumulator operation: A holds `v`, the flags read back as
      given, bits 0-3 of F are untouched, nothing else but PC moved. */
  predicate AccResult(before: Cpu, after: Cpu, v: bv8, z: bool, n: bool, h: bool, c: bool) {
    && Get8(after.regs, A) == v
    && FlagsAre(after.regs, z, n, h, c)
    && Get8(after.regs, F) & 0x0F == Get8(before.regs, F) & 0x0F
    && KeepsOthers(before, after)
  }

  /** Every byte register other than `id` reads as before. */
  ghost predicate OtherBytesKept(before: Registers, after: Registers, id: Reg8Id) {
    forall j: Reg8Id :: j != id ==> Get8(after, j) == Get8(before, j)
  }

  /** Only PC moved: registers other than PC, memory and IME are as before. */
  predicate OnlyPcMoved(before: Cpu, after: Cpu) {
    after == before.(regs := before.regs.(pc := after.regs.pc))
  }
}

/** The 8-bit arithmetic and logic handlers of opcodes.go:262-903: ADD, ADC,
    SUB, SBC, AND, OR, XOR and CP on A, each in its register, immediate and
    (HL) form, and INC/DEC on a register or on (HL). */
module Arith8 {
  import opened Bits
  import opened RegisterFile
  import opened Memory
  import opened Cpu
  import opened Alu
  import opened AluLaws

  /** Where the second operand of an accumulator operation comes from:
      register `ins[0] & 0x07`, the byte `ins[1]`, or memory at HL. */
  datatype Source = FromReg | FromImm | FromHl

  /** The instruction is long enough for its operand form. */
  predicate Fits(src: Source, ins: seq<bv8>) {
    |ins| >= (if src == FromImm then 2 else 1)
  }

  /** The second operand `bVal`. */
  function Operand(c: Cpu, src: Source, ins: seq<bv8>): bv8
    requires Fits(src, ins)
  {
    match src
    case FromReg => Get8(c.regs, LowReg(ins[0]))
    case FromImm => ins[1]
    case FromHl => Read(c.mem, Get16(c.regs, HL))
  }

  /** The register forms take 4 cycles, the immediate and (HL) forms 8. */
  function SourceCycles(src: Source): (n: nat)
    ensures n == 4 || n == 8
    ensures n == 4 <==> src == FromReg
  {
    if src == FromReg then 4 else 8
  }

  /** `set8Reg(A, out)` followed by the handler's `modifyFlag` calls, then
      the PC advance to `next`. */
  function WriteAcc(c: Cpu, r: Result8, next: bv16): (o: Cpu)
    ensures AccResult(c, o, r.out, r.z, r.n, r.h, r.c)
    ensures o.regs.pc == next
  {
    c.(regs := c.regs.(a := r.out, f := WithFlags(c.regs.f, r.z, r.n, r.h, r.c), pc := next))
  }

  /** ADD A, r / n / (HL) (opcodes.go:262-340). */
  function AddA(c: Cpu, src: Source, ins: seq<bv8>): (o: Outcome)
    requires Fits(src, ins)
    ensures var a, b, out := Get8(c.regs, A), Operand(c, src, ins), Get8(o.cpu.regs, A);
      && out as int == (a as int + b as int) % 256
      && AccResult(c, o.cpu, out, out == 0, false, a as int % 16 + b as int % 16 > 15, a as int + b as int > 255)
    ensures o.cpu.regs.pc == c.regs.pc + Len16(ins)
    ensures o.cycles == SourceCycles(src)
  {
    var a, b := Get8(c.regs, A), Operand(c, src, ins);
    AddValue(a, b, 0); AddCarryValue(a, b, 0); AddHalfCarryValue(a, b, 0);
    Outcome(WriteAcc(c, Add8(a, b, 0), c.regs.pc + Len16(ins)),
            SourceCycles(src))
  }

  /** ADC A, r / n / (HL) (opcodes.go:342-422): the carry flag is added in,
      but H and C are computed from A and the operand alone. */
  function AdcA(c: Cpu, src: Source, ins: seq<bv8>): (o: Outcome)
    requires Fits(src, ins)
    ensures var a, b, cin, out := Get8(c.regs, A), Operand(c, src, ins), CarryIn(c.regs.f), Get8(o.cpu.regs, A);
      && out as int == (a as int + b as int + cin as int) % 256
      && AccResult(c, o.cpu, out, out == 0, false, a as int % 16 + b as int % 16 > 15, a as int + b as int > 255)
    ensures o.cpu.regs.pc == c.regs.pc + Len16(ins)
    ensures o.cycles == SourceCycles(src)
  {
    var a, b, cin := Get8(c.regs, A), Operand(c, src, ins), CarryIn(c.regs.f);
    AddValue(a, b, cin); AddCarryValue(a, b, cin); AddHalfCarryValue(a, b, cin);
    Outcome(WriteAcc(c, Add8(a, b, cin), c.regs.pc + Len16(ins)),
            SourceCycles(src))
  }

  /** SUB A, r / n / (HL) (opcodes.go:424-501): C and H record a borrow out
      of bit 7 and out of bit 3. */
  function SubA(c: Cpu, src: Source, ins: seq<bv8>): (o: Outcome)
    requires Fits(src, ins)
    ensures var a, b, out := Get8(c.regs, A), Operand(c, src, ins), Get8(o.cpu.regs, A);
      && out as int == (a as int - b as int) % 256
      && AccResult(c, o.cpu, out, out == 0, true, a as int % 16 < b as int % 16, a as int < b as int)
    ensures o.cpu.regs.pc == c.regs.pc + Len16(ins)
    ensures o.cycles == SourceCycles(src)
  {
    var a, b := Get8(c.regs, A), Operand(c, src, ins);
    SubValue(a, b); SubBorrowValue(a, b); SubHalfBorrowValue(a, b);
    Outcome(WriteAcc(c, Sub8(a, b), c.regs.pc + Len16(ins)),
            SourceCycles(src))
  }

  /** SBC A, r / n / (HL) (opcodes.go:503-583): the subtrahend is the
      operand plus the carry flag, wrapped to 8 bits before the subtraction. */
  function SbcA(c: Cpu, src: Source, ins: seq<bv8>): (o: Outcome)
    requires Fits(src, ins)
    ensures var a, s, out := Get8(c.regs, A), Operand(c, src, ins) + CarryIn(c.regs.f), Get8(o.cpu.regs, A);
      && out as int == (a as int - s as int) % 256
      && AccResult(c, o.cpu, out, out == 0, true, a as int % 16 < s as int % 16, a as int < s as int)
    ensures o.cpu.regs.pc == c.regs.pc + Len16(ins)
    ensures o.cycles == SourceCycles(src)
  {
    var a, s := Get8(c.regs, A), Operand(c, src, ins) + CarryIn(c.regs.f);
    SubValue(a, s); SubBorrowValue(a, s); SubHalfBorrowValue(a, s);
    Outcome(WriteAcc(c, Sub8(a, s), c.regs.pc + Len16(ins)),
            SourceCycles(src))
  }

  /** AND A, r / n / (HL) (opcodes.go:586-641): H is always set. */
  function AndA(c: Cpu, src: Source, ins: seq<bv8>): (o: Outcome)
    requires Fits(src, ins)
    ensures var a, b, out := Get8(c.regs, A), Operand(c, src, ins), Get8(o.cpu.regs, A);
      && out & a == out && out & b == out
      && AccResult(c, o.cpu, out, out == 0, false, true, false)
    ensures o.cpu.regs.pc == c.regs.pc + Len16(ins)
    ensures o.cycles == SourceCycles(src)
  {
    Outcome(WriteAcc(c, And8(Get8(c.regs, A), Operand(c, src, ins)), c.regs.pc + Len16(ins)),
            SourceCycles(src))
  }

  /** OR A, r / n / (HL) (opcodes.go:643-698). */
  function OrA(c: Cpu, src: Source, ins: seq<bv8>): (o: Outcome)
    requires Fits(src, ins)
    ensures var a, b, out := Get8(c.regs, A), Operand(c, src, ins), Get8(o.cpu.regs, A);
      && out & a == a && out & b == b
      && AccResult(c, o.cpu, out, out == 0, false, false, false)
    ensures o.cpu.regs.pc == c.regs.pc + Len16(ins)
    ensures o.cycles == SourceCycles(src)
  {
    Outcome(WriteAcc(c, Or8(Get8(c.regs, A), Operand(c, src, ins)), c.regs.pc + Len16(ins)),
            SourceCycles(src))
  }

  /** After AND, bit k of A is set exactly when it was set in both A and
      the operand: the handler stores `A & r`. */
  lemma AndAByBits(c: Cpu, src: Source, ins: seq<bv8>)
    requires Fits(src, ins)
    ensures forall k: bv8 :: k < 8 ==>
      (Bit(Get8(AndA(c, src, ins).cpu.regs, A), k) <==> Bit(Get8(c.regs, A), k) && Bit(Operand(c, src, ins), k))
  {
    var a, b := Get8(c.regs, A), Operand(c, src, ins);
    assert Get8(AndA(c, src, ins).cpu.regs, A) == And8(a, b).out;
    AndAllBits(a, b);
  }

  /** After OR, bit k of A is set exactly when it was set in A or in the
      operand: the handler stores `A | r`. */
  lemma OrAByBits(c: Cpu, src: Source, ins: seq<bv8>)
    requires Fits(src, ins)
    ensures forall k: bv8 :: k < 8 ==>
      (Bit(Get8(OrA(c, src, ins).cpu.regs, A), k) <==> Bit(Get8(c.regs, A), k) || Bit(Operand(c, src, ins), k))
  {
    var a, b := Get8(c.regs, A), Operand(c, src, ins);
    assert Get8(OrA(c, src, ins).cpu.regs, A) == Or8(a, b).out;
    OrAllBits(a, b);
  }

  /** XOR A, r / n / (HL) (opcodes.go:700-752). */
  function XorA(c: Cpu, src: Source, ins: seq<bv8>): (o: Outcome)
    requires Fits(src, ins)
    ensures var a, b, out := Get8(c.regs, A), Operand(c, src, ins), Get8(o.cpu.regs, A);
      && out ^ b == a
      && AccResult(c, o.cpu, out, out == 0, false, false, false)
    ensures o.cpu.regs.pc == c.regs.pc + Len16(ins)
    ensures o.cycles == SourceCycles(src)
  {
    Outcome(WriteAcc(c, Xor8(Get8(c.regs, A), Operand(c, src, ins)), c.regs.pc + Len16(ins)),
            SourceCycles(src))
  }

  /** CP A, r / n / (HL) (opcodes.go:754-819): A is not written; Z, H and C
      say whether A equals, exceeds or is below the operand. */
  function CpA(c: Cpu, src: Source, ins: seq<bv8>): (o: Outcome)
    requires Fits(src, ins)
    ensures var a, b := Get8(c.regs, A), Operand(c, src, ins);
      AccResult(c, o.cpu, a, a == b, true, a > b, a < b)
    ensures o.cpu.regs.pc == c.regs.pc + Len16(ins)
    ensures o.cycles == SourceCycles(src)
  {
    Outcome(WriteAcc(c, Compare(Get8(c.regs, A), Operand(c, src, ins)), c.regs.pc + Len16(ins)),
            SourceCycles(src))
  }

  /** `set8Reg(id, out)` followed by the Z, N and H writes of INC r / DEC r
      on the register file as it is after that write; C is rewritten with
      its own current value, so it stays. */
  function WriteIncDec(c: Cpu, id: Reg8Id, r: Result8, next: bv16): (o: Cpu)
    ensures id != F ==> Get8(o.regs, id) == r.out
    ensures id != F ==> FlagsAre(o.regs, r.z, r.n, r.h, FlagSet(c.regs, CFlag))
    ensures id == F ==> FlagsAre(o.regs, r.z, r.n, r.h, r.out & 0x10 != 0)
    ensures Get8(o.regs, F) & 0x0F == (if id == F then r.out else Get8(c.regs, F)) & 0x0F
    ensures forall j: Reg8Id :: j != id && j != F ==> Get8(o.regs, j) == Get8(c.regs, j)
    ensures o.regs.sp == c.regs.sp && o.regs.pc == next
    ensures o.mem == c.mem && o.ime == c.ime
  {
    var regs := Set8(c.regs, id, r.out);
    c.(regs := regs.(f := WithFlags(regs.f, r.z, r.n, r.h, regs.f & 0x10 != 0), pc := next))
  }

  /** INC r (opcodes.go:821-840): r from bits 3-5. C is left alone, except
      when r is F (Step sends opcode 0x34 here): the flag writes then land on
      the incremented F, whose C bit is the incremented value's. */
  function IncReg(c: Cpu, ins: seq<bv8>): (o: Outcome)
    requires |ins| >= 1
    ensures var id, v := MidReg(ins[0]), Get8(c.regs, MidReg(ins[0]));
      && (id != F ==> Get8(o.cpu.regs, id) as int == (v as int + 1) % 256)
      && (id != F ==> FlagsAre(o.cpu.regs, v == 0xFF, false, v as int % 16 == 15, FlagSet(c.regs, CFlag)))
      && (id == F ==> FlagsAre(o.cpu.regs, v == 0xFF, false, v as int % 16 == 15, (v + 1) & 0x10 != 0))
      && Get8(o.cpu.regs, F) & 0x0F == (if id == F then (v + 1) else Get8(c.regs, F)) & 0x0F
      && (forall j: Reg8Id :: j != id && j != F ==> Get8(o.cpu.regs, j) == Get8(c.regs, j))
    ensures o.cpu.regs.sp == c.regs.sp && o.cpu.regs.pc == c.regs.pc + Len16(ins)
    ensures o.cpu.mem == c.mem && o.cpu.ime == c.ime
    ensures o.cycles == 4
  {
    var v := Get8(c.regs, MidReg(ins[0]));
    IncValue(v);
    Outcome(WriteIncDec(c, MidReg(ins[0]), Inc8(v), c.regs.pc + Len16(ins)), 4)
  }

  /** DEC r (opcodes.go:863-882), the mirror image of INC r; Step sends
      opcode 0x35 here with r = F. */
  function DecReg(c: Cpu, ins: seq<bv8>): (o: Outcome)
    requires |ins| >= 1
    ensures var id, v := MidReg(ins[0]), Get8(c.regs, MidReg(ins[0]));
      && (id != F ==> Get8(o.cpu.regs, id) as int == (v as int - 1) % 256)
      && (id != F ==> FlagsAre(o.cpu.regs, v == 0x01, true, v as int % 16 == 0, FlagSet(c.regs, CFlag)))
      && (id == F ==> FlagsAre(o.cpu.regs, v == 0x01, true, v as int % 16 == 0, (v - 1) & 0x10 != 0))
      && Get8(o.cpu.regs, F) & 0x0F == (if id == F then (v - 1) else Get8(c.regs, F)) & 0x0F
      && (forall j: Reg8Id :: j != id && j != F ==> Get8(o.cpu.regs, j) == Get8(c.regs, j))
    ensures o.cpu.regs.sp == c.regs.sp && o.cpu.regs.pc == c.regs.pc + Len16(ins)
    ensures o.cpu.mem == c.mem && o.cpu.ime == c.ime
    ensures o.cycles == 4
  {
    var v := Get8(c.regs, MidReg(ins[0]));
    DecValue(v);
    Outcome(WriteIncDec(c, MidReg(ins[0]), Dec8(v), c.regs.pc + Len16(ins)), 4)
  }

  /** Writes the memory byte at HL and Z, N, H; C and the registers stay. */
  function WriteHlIncDec(c: Cpu, r: Result8, next: bv16): (o: Cpu)
    ensures Read(o.mem, Get16(c.regs, HL)) == r.out
    ensures forall a: bv16 :: a != Get16(c.regs, HL) ==> Read(o.mem, a) == Read(c.mem, a)
    ensures FlagsAre(o.regs, r.z, r.n, r.h, FlagSet(c.regs, CFlag))
    ensures o.regs.f & 0x0F == c.regs.f & 0x0F
    ensures o.regs == c.regs.(f := o.regs.f, pc := next) && o.ime == c.ime
  {
    c.(mem := Write(c.mem, Get16(c.regs, HL), r.out),
       regs := c.regs.(f := WithFlags(c.regs.f, r.z, r.n, r.h, c.regs.f & 0x10 != 0), pc := next))
  }

  /** INC (HL) (opcodes.go:842-861). */
  function IncHl(c: Cpu, ins: seq<bv8>): (o: Outcome)
    requires |ins| >= 1
    ensures var addr := Get16(c.regs, HL); var v := Read(c.mem, addr);
      && Read(o.cpu.mem, addr) as int == (v as int + 1) % 256
      && (forall a: bv16 :: a != addr ==> Read(o.cpu.mem, a) == Read(c.mem, a))
      && FlagsAre(o.cpu.regs, v == 0xFF, false, v as int % 16 == 15, FlagSet(c.regs, CFlag))
    ensures o.cpu.regs.f & 0x0F == c.regs.f & 0x0F
    ensures o.cpu.regs == c.regs.(f := o.cpu.regs.f, pc := c.regs.pc + Len16(ins)) && o.cpu.ime == c.ime
    ensures o.cycles == 12
  {
    var v := Read(c.mem, Get16(c.regs, HL));
    IncValue(v);
    Outcome(WriteHlIncDec(c, Inc8(v), c.regs.pc + Len16(ins)), 12)
  }

  /** DEC (HL) (opcodes.go:884-903). */
  function DecHl(c: Cpu, ins: seq<bv8>): (o: Outcome)
    requires |ins| >= 1
    ensures var addr := Get16(c.regs, HL); var v := Read(c.mem, addr);
      && Read(o.cpu.mem, addr) as int == (v as int - 1) % 256
      && (forall a: bv16 :: a != addr ==> Read(o.cpu.mem, a) == Read(c.mem, a))
      && FlagsAre(o.cpu.regs, v == 0x01, true, v as int % 16 == 0, FlagSet(c.regs, CFlag))
    ensures o.cpu.regs.f & 0x0F == c.regs.f & 0x0F
    ensures o.cpu.regs == c.regs.(f := o.cpu.regs.f, pc := c.regs.pc + Len16(ins)) && o.cpu.ime == c.ime
    ensures o.cycles == 12
  {
    var v := Read(c.mem, Get16(c.regs, HL));
    DecValue(v);
    Outcome(WriteHlIncDec(c, Dec8(v), c.regs.pc + Len16(ins)), 12)
  }

  /** SBC wraps `operand + carry` to 8 bits before subtracting: with the
      carry set and the operand 0xFF the subtrahend becomes 0, so A is left
      as it was and C comes out clear although the true difference borrows. */
  lemma {:induction false} SbcWrapsSubtrahend(c: Cpu, ins: seq<bv8>)
    requires |ins| >= 2 && ins[1] == 0xFF && FlagSet(c.regs, CFlag)
    ensures Get8(SbcA(c, FromImm, ins).cpu.regs, A) == Get8(c.regs, A)
    ensures !FlagSet(SbcA(c, FromImm, ins).cpu.regs, CFlag)
  {
    assert CarryIn(c.regs.f) == 1;
    assert Operand(c, FromImm, ins) + CarryIn(c.regs.f) == 0;
  }

  /** SUB n undoes ADD n on A, and borrows exactly when the addition
      carried. */
  lemma {:induction false} SubUndoesAddOnA(c: Cpu, ins: seq<bv8>)
    requires |ins| >= 2
    ensures var added := AddA(c, FromImm, ins).cpu;
      && Get8(SubA(added, FromImm, ins).cpu.regs, A) == Get8(c.regs, A)
      && FlagSet(SubA(added, FromImm, ins).cpu.regs, CFlag) == FlagSet(added.regs, CFlag)
  {
    SubUndoesAdd(Get8(c.regs, A), ins[1]);
  }

  /** DEC r undoes INC r on any register but F. */
  lemma {:induction false} DecUndoesInc(c: Cpu, ins: seq<bv8>)
    requires |ins| >= 1 && MidReg(ins[0]) != F
    ensures Get8(DecReg(IncReg(c, ins).cpu, ins).cpu.regs, MidReg(ins[0])) == Get8(c.regs, MidReg(ins[0]))
  {
    IncDecInverse(Get8(c.regs, MidReg(ins[0])));
  }
}

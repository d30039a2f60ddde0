/** One call of `Step` (emu.go:3-469): fetch the opcode at PC, dispatch it
    to its handler with the handler's encoded length of bytes, and add the
    returned cycle count to TSCStart. The pacing loop that follows
    (emu.go:470-477) waits on a clock and is not part of this model. */
module Emulator {
  import opened Bits
  import opened RegisterFile
  import opened Memory
  import opened Cpu
  import Alu
  import opened Arith8
  import L = Loads
  import Arith16
  import B = BitOps
  import Ctl = Control
  import M = Misc
  import opened Decoder

  /** The values of a Go `uint64`. */
  newtype U64 = x: int | 0 <= x < 0x1_0000_0000_0000_0000

  /** The CPU together with `TSCStart`, the 64-bit cycle counter `Step`
      advances. */
  datatype Machine = Machine(cpu: Cpu, tscStart: U64)

  /** The cycles between two readings of the counter, across at most one
      wrap-around. */
  function Elapsed(t: U64, t': U64): (d: nat)
    ensures d < 0x1_0000_0000_0000_0000
  {
    if t <= t' then (t' - t) as nat else (t' as int + 0x1_0000_0000_0000_0000 - t as int) as nat
  }

  /** `t += uint64(k)` for a cycle count `k` below 2^64: addition wrapping
      at 2^64, so that exactly `k` cycles have elapsed. */
  function AddCycles(t: U64, k: nat): (t': U64)
    requires k < 0x1_0000_0000_0000_0000
    ensures Elapsed(t, t') == k
    ensures t' as int == (t as int + k) % 0x1_0000_0000_0000_0000
  {
    if t as int + k < 0x1_0000_0000_0000_0000 then (t as int + k) as U64
    else (t as int + k - 0x1_0000_0000_0000_0000) as U64
  }

  /** The bytes a handler may be given: its encoded length, with the
      opcode fields the decoder guarantees. */
  predicate Fits(i: Instr, ins: seq<bv8>) {
    && |ins| == Width(i)
    && (i.LdRN? || i.LdDdNn? ==> ins[0] < 0x40)
    && (i.RotA? ==> B.IsRotation(i.rot))
  }

  /** The source operand of an accumulator instruction fits the bytes. */
  lemma AluFits(i: Instr, ins: seq<bv8>)
    requires i.Alu? && Fits(i, ins)
    ensures Arith8.Fits(i.src, ins)
  {
  }

  /** The accumulator handler for `k`. */
  function RunAlu(c: Cpu, k: AluOp, src: Source, ins: seq<bv8>): (o: Outcome)
    requires Arith8.Fits(src, ins)
    ensures o.cycles == SourceCycles(src)
    ensures o.cpu.regs.pc == c.regs.pc + Len16(ins)
  {
    match k
    case AddOp => AddA(c, src, ins)
    case AdcOp => AdcA(c, src, ins)
    case SubOp => SubA(c, src, ins)
    case SbcOp => SbcA(c, src, ins)
    case AndOp => AndA(c, src, ins)
    case XorOp => XorA(c, src, ins)
    case OrOp => OrA(c, src, ins)
    case CpOp => CpA(c, src, ins)
  }

  /** The 8-bit loads between registers and (HL), opcodes.go:13-67. */
  predicate IsRegisterLoad(i: Instr) {
    i.LdRN? || i.LdRHl? || i.LdHlR? || i.LdRR?
  }

  /** The 8-bit loads of A through BC, DE, HL+ and HL-, opcodes.go:106-176. */
  predicate IsIndirectLoad(i: Instr) {
    i.LdPairA? || i.LdHlStepA? || i.LdAPair? || i.LdAHlStep?
  }

  /** The 8-bit loads of A from and to the high page and absolute
      addresses, opcodes.go:69-104 and 116-137. */
  predicate IsAddressedLoad(i: Instr) {
    i.LdNA? || i.LdAN? || i.LdCA? || i.LdAC? || i.LdNnA? || i.LdANn?
  }

  /** The 16-bit loads and the stack transfers of opcodes.go:178-261. */
  predicate IsWordLoad(i: Instr) {
    i.LdNnSp? || i.LdDdNn? || i.LdHlSpE? || i.PopQq? || i.PushQq? || i.LdSpHl?
  }

  /** The arithmetic of opcodes.go:262-980 other than the rotates. */
  predicate IsArith(i: Instr) {
    i.Alu? || i.AddHlSs? || i.IncSs? || i.DecSs? || i.IncR? || i.DecR? || i.AddSpE?
  }

  /** The rotates and shifts of opcodes.go:982-1392. */
  predicate IsShift(i: Instr) {
    i.RotA? || i.ShiftR? || i.ShiftHl?
  }

  /** The single-bit operations of opcodes.go:1394-1465. */
  predicate IsBitOp(i: Instr) {
    i.BitR? || i.BitHl? || i.ResR? || i.ResHl? || i.SetR? || i.SetHl?
  }

  /** The jumps, calls and returns of opcodes.go:1467-1611. */
  predicate IsControl(i: Instr) {
    i.JrE? || i.JrCcE? || i.JpNn? || i.JpCcNn? || i.JpHl? || i.CallNn? || i.CallCcNn? || i.Ret? || i.Reti? || i.RetCc? || i.Rst?
  }

  /** The one-byte miscellany of opcodes.go:1613-1687. */
  predicate IsMisc(i: Instr) {
    i.Nop? || i.DaaA? || i.Cpl? || i.Scf? || i.Ccf? || i.Di? || i.Ei?
  }

  /** Every instruction but `NoHandler` belongs to exactly one group. */
  lemma {:induction false} GroupsPartition(i: Instr)
    ensures !i.NoHandler? <==>
      || IsRegisterLoad(i) || IsIndirectLoad(i) || IsAddressedLoad(i) || IsWordLoad(i)
      || IsArith(i) || IsShift(i) || IsBitOp(i) || IsControl(i) || IsMisc(i)
  {
  }

  function RunRegisterLoad(c: Cpu, i: Instr, ins: seq<bv8>): (o: Outcome)
    requires IsRegisterLoad(i) && Fits(i, ins)
    ensures o.cycles in {4, 8}
    ensures o.cpu.regs.pc == c.regs.pc + Len16(ins)
  {
    match i
    case LdRN => L.LdRN(c, ins)
    case LdRHl => L.LdRHl(c, ins)
    case LdHlR => L.LdHlR(c, ins)
    case LdRR => L.LdRR(c, ins)
  }

  function RunIndirectLoad(c: Cpu, i: Instr, ins: seq<bv8>): (o: Outcome)
    requires IsIndirectLoad(i) && Fits(i, ins)
    ensures o.cycles == 8
    ensures o.cpu.regs.pc == c.regs.pc + Len16(ins)
  {
    match i
    case LdPairA(viaDe) => L.LdPairA(c, if viaDe then DE else BC, ins)
    case LdHlStepA(up) => L.LdHlStepA(c, up, ins)
    case LdAPair(viaDe) => L.LdAPair(c, if viaDe then DE else BC, ins)
    case LdAHlStep(up) => L.LdAHlStep(c, up, ins)
  }

  function RunAddressedLoad(c: Cpu, i: Instr, ins: seq<bv8>): (o: Outcome)
    requires IsAddressedLoad(i) && Fits(i, ins)
    ensures o.cycles in {8, 12, 16}
    ensures o.cpu.regs.pc == c.regs.pc + Len16(ins)
  {
    match i
    case LdNA => L.LdNA(c, ins)
    case LdAN => L.LdAN(c, ins)
    case LdCA => L.LdCA(c, ins)
    case LdAC => L.LdAC(c, ins)
    case LdNnA => L.LdNnA(c, ins)
    case LdANn => L.LdANn(c, ins)
  }

  function RunWordLoad(c: Cpu, i: Instr, ins: seq<bv8>): (o: Outcome)
    requires IsWordLoad(i) && Fits(i, ins)
    ensures o.cycles in {12, 16, 20}
    ensures !i.PopQq? ==> o.cpu.regs.pc == c.regs.pc + Len16(ins)
  {
    match i
    case LdNnSp => L.LdNnSp(c, ins)
    case LdDdNn => L.LdDdNn(c, ins)
    case LdHlSpE => L.LdHlSpE(c, ins)
    case PopQq => L.PopQq(c, ins)
    case PushQq => L.PushQq(c, ins)
    case LdSpHl => L.LdSpHl(c, ins)
  }

  function RunArith(c: Cpu, i: Instr, ins: seq<bv8>): (o: Outcome)
    requires IsArith(i) && Fits(i, ins)
    ensures o.cycles in {4, 8, 12, 16}
    ensures o.cpu.regs.pc == c.regs.pc + Len16(ins)
  {
    match i
    case Alu(k, src) => RunAlu(c, k, src, ins)
    case AddHlSs => Arith16.AddHlSs(c, ins)
    case IncSs => Arith16.IncSs(c, ins)
    case DecSs => Arith16.DecSs(c, ins)
    case IncR => IncReg(c, ins)
    case DecR => DecReg(c, ins)
    case AddSpE => Arith16.AddSpE(c, ins)
  }

  function RunShift(c: Cpu, i: Instr, ins: seq<bv8>): (o: Outcome)
    requires IsShift(i) && Fits(i, ins)
    ensures o.cycles in {4, 8, 16}
    ensures o.cpu.regs.pc == c.regs.pc + Len16(ins)
  {
    match i
    case RotA(rot) => B.RotateA(c, rot, ins)
    case ShiftR(op) => B.ShiftReg(c, op, ins)
    case ShiftHl(op) => B.ShiftHl(c, op, ins)
  }

  function RunBitOp(c: Cpu, i: Instr, ins: seq<bv8>): (o: Outcome)
    requires IsBitOp(i) && Fits(i, ins)
    ensures o.cycles in {8, 16}
    ensures o.cpu.regs.pc == c.regs.pc + Len16(ins)
  {
    match i
    case BitR => B.BitReg(c, ins)
    case BitHl => B.BitHl(c, ins)
    case ResR => B.WriteBitReg(c, ins, false)
    case ResHl => B.WriteBitHl(c, ins, false)
    case SetR => B.WriteBitReg(c, ins, true)
    case SetHl => B.WriteBitHl(c, ins, true)
  }

  function RunControl(c: Cpu, i: Instr, ins: seq<bv8>): (o: Outcome)
    requires IsControl(i) && Fits(i, ins)
    ensures o.cycles in {4, 8, 12, 16, 20, 24}
  {
    match i
    case JrE => Ctl.JrE(c, ins)
    case JrCcE => Ctl.JrCcE(c, ins)
    case JpNn => Ctl.JpNn(c, ins)
    case JpCcNn => Ctl.JpCcNn(c, ins)
    case JpHl => Ctl.JpHl(c, ins)
    case CallNn => Ctl.CallNn(c, ins)
    case CallCcNn => Ctl.CallCcNn(c, ins)
    case Ret => Ctl.Ret(c, ins)
    case Reti => Ctl.Reti(c, ins)
    case RetCc => Ctl.RetCc(c, ins)
    case Rst => Ctl.Rst(c, ins)
  }

  function RunMisc(c: Cpu, i: Instr, ins: seq<bv8>): (o: Outcome)
    requires IsMisc(i)
    ensures o.cycles == 4
    ensures o.cpu.regs.pc == c.regs.pc + Len16(ins)
  {
    match i
    case Nop => M.Nop(c, ins)
    case DaaA => M.DaaA(c, ins)
    case Cpl => M.Cpl(c, ins)
    case Scf => M.Scf(c, ins)
    case Ccf => M.Ccf(c, ins)
    case Di => M.Di(c, ins)
    case Ei => M.Ei(c, ins)
  }

  /** Runs the handler `i` on the bytes `ins`. Without a handler nothing
      changes and no cycles pass; every handler returns one of six fixed
      cycle counts, and every handler that is not a jump, call, return or
      POP moves PC past the instruction. */
  function Execute(c: Cpu, i: Instr, ins: seq<bv8>): (o: Outcome)
    requires Fits(i, ins)
    ensures i.NoHandler? ==> o == Outcome(c, 0)
    ensures !i.NoHandler? ==> o.cycles in {4, 8, 12, 16, 20, 24}
    ensures !i.NoHandler? && !IsControl(i) && !i.PopQq? ==> o.cpu.regs.pc == c.regs.pc + Len16(ins)
  {
    GroupsPartition(i);
    if i.NoHandler? then Outcome(c, 0)
    else if IsRegisterLoad(i) then RunRegisterLoad(c, i, ins)
    else if IsIndirectLoad(i) then RunIndirectLoad(c, i, ins)
    else if IsAddressedLoad(i) then RunAddressedLoad(c, i, ins)
    else if IsWordLoad(i) then RunWordLoad(c, i, ins)
    else if IsArith(i) then RunArith(c, i, ins)
    else if IsShift(i) then RunShift(c, i, ins)
    else if IsBitOp(i) then RunBitOp(c, i, ins)
    else if IsControl(i) then RunControl(c, i, ins)
    else RunMisc(c, i, ins)
  }

  /** The handler for the opcode at PC and the bytes `Step` hands it. */
  datatype Fetched = Fetched(instr: Instr, bytes: seq<bv8>)

  /** Decodes the opcode at PC (and, for 0xCB, the byte after it) and
      reads `Width` bytes from PC on. */
  function Fetch(c: Cpu): (f: Fetched)
    ensures f.instr == Decode(Read(c.mem, c.regs.pc), Read(c.mem, c.regs.pc + 1))
    ensures |f.bytes| > 0 ==> f.bytes[0] == Read(c.mem, c.regs.pc)
    ensures Fits(f.instr, f.bytes)
  {
    var op := Read(c.mem, c.regs.pc);
    var i := Decode(op, Read(c.mem, c.regs.pc + 1));
    Fetched(i, ReadN(c.mem, c.regs.pc, Width(i)))
  }

  /** Runs the fetched handler on the machine and adds its cycle count to
      TSCStart, wrapping at 64 bits. */
  function Run(m: Machine, f: Fetched): (n: Machine)
    requires Fits(f.instr, f.bytes)
    ensures n.cpu == Execute(m.cpu, f.instr, f.bytes).cpu
    ensures Elapsed(m.tscStart, n.tscStart) == Execute(m.cpu, f.instr, f.bytes).cycles
    ensures f.instr.NoHandler? ==> n == m
    ensures !f.instr.NoHandler? ==>
      Elapsed(m.tscStart, n.tscStart) in {4, 8, 12, 16, 20, 24}
  {
    var o := Execute(m.cpu, f.instr, f.bytes);
    Machine(o.cpu, AddCycles(m.tscStart, o.cycles))
  }

  /** `Step` (emu.go:3-468): the CPU becomes what the handler for the
      opcode at PC leaves, and the counter moves by exactly that handler's
      cycles. Without a handler nothing changes; with one, the counter moves
      by one of six fixed cycle counts. */
  function Step(m: Machine): (n: Machine)
    ensures n.cpu == Execute(m.cpu, Fetch(m.cpu).instr, Fetch(m.cpu).bytes).cpu
    ensures Elapsed(m.tscStart, n.tscStart) == Execute(m.cpu, Fetch(m.cpu).instr, Fetch(m.cpu).bytes).cycles
    ensures Fetch(m.cpu).instr.NoHandler? ==> n == m
    ensures !Fetch(m.cpu).instr.NoHandler? ==> Elapsed(m.tscStart, n.tscStart) in {4, 8, 12, 16, 20, 24}
  {
    Run(m, Fetch(m.cpu))
  }

  /** On an unassigned opcode `Step` changes nothing at all: PC does not
      advance and the counter stands still. */
  lemma {:induction false} UnassignedStepIsIdle(m: Machine)
    requires Unassigned(Read(m.cpu.mem, m.cpu.regs.pc))
    ensures Step(m) == m
  {
    NoHandlerExactly(Read(m.cpu.mem, m.cpu.regs.pc), Read(m.cpu.mem, m.cpu.regs.pc + 1));
  }

  /** On every other opcode the counter moves by one of the six cycle
      counts. */
  lemma {:induction false} AssignedStepTakesCycles(m: Machine)
    requires !Unassigned(Read(m.cpu.mem, m.cpu.regs.pc))
    ensures Elapsed(m.tscStart, Step(m).tscStart) in {4, 8, 12, 16, 20, 24}
  {
    NoHandlerExactly(Read(m.cpu.mem, m.cpu.regs.pc), Read(m.cpu.mem, m.cpu.regs.pc + 1));
  }
}

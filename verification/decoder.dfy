/** The dispatch tree of `Step` (emu.go:3-466): which handler an opcode
    reaches and how many bytes from PC that handler is given. The tree
    branches on bits 6-7 of the opcode, then on bits 0-2, then on bits 3-5;
    for 0xCB it branches on the byte at PC + 1 instead. */
module Decoder {
  import opened BitOps
  import opened Arith8

  /** The eight accumulator operations, in the order of bits 3-5. */
  datatype AluOp = AddOp | AdcOp | SubOp | SbcOp | AndOp | XorOp | OrOp | CpOp

  /** The handler a byte pair dispatches to. `NoHandler` stands for STOP,
      HALT and the illegal encodings, for which `Step` runs nothing. */
  datatype Instr =
    | Nop | LdNnSp | JrE | JrCcE | LdDdNn | AddHlSs
    | LdPairA(viaDe: bool) | LdHlStepA(up: bool) | LdAPair(viaDe: bool) | LdAHlStep(up: bool)
    | IncSs | DecSs | IncR | DecR | LdRN | RotA(rot: ShiftOp)
    | DaaA | Cpl | Scf | Ccf
    | LdRHl | LdHlR | LdRR
    | Alu(aop: AluOp, src: Source)
    | RetCc | LdNA | AddSpE | LdAN | LdHlSpE | PopQq | Ret | Reti | JpHl | LdSpHl
    | JpCcNn | LdCA | LdNnA | LdAC | LdANn | JpNn
    | ShiftR(sop: ShiftOp) | ShiftHl(sop: ShiftOp)
    | BitR | BitHl | ResR | ResHl | SetR | SetHl
    | Di | Ei | CallCcNn | PushQq | CallNn | Rst
    | NoHandler

  /** The operation selected by bits 3-5. */
  function AluOpOf(op: bv8): (k: AluOp)
    ensures op & 0x38 == 0x00 <==> k == AddOp
    ensures op & 0x38 == 0x10 <==> k == SubOp
    ensures op & 0x38 == 0x18 <==> k == SbcOp
    ensures op & 0x38 == 0x38 <==> k == CpOp
  {
    var s := op & 0x38;
    if s == 0x00 then AddOp
    else if s == 0x08 then AdcOp
    else if s == 0x10 then SubOp
    else if s == 0x18 then SbcOp
    else if s == 0x20 then AndOp
    else if s == 0x28 then XorOp
    else if s == 0x30 then OrOp
    else CpOp
  }

  /** The CB-prefixed rotate or shift selected by bits 3-5 of the second byte. */
  function ShiftOpOf(cb: bv8): (s: ShiftOp)
    ensures cb & 0x38 == 0x30 <==> s == SwapNibbles
    ensures Leftward(s) <==> cb & 0x38 in {0x00, 0x10, 0x20}
  {
    var k := cb & 0x38;
    if k == 0x00 then Rlc
    else if k == 0x08 then Rrc
    else if k == 0x10 then Rl
    else if k == 0x18 then Rr
    else if k == 0x20 then Sla
    else if k == 0x28 then Sra
    else if k == 0x30 then SwapNibbles
    else Srl
  }

  /** Block 0x00-0x3F (emu.go:10-137). */
  function DecodeLow(op: bv8): (i: Instr)
    requires op & 0xC0 == 0x00
  {
    var lo, mid := op & 0x07, op & 0x38;
    if lo == 0x00 then
      if mid == 0x00 then Nop
      else if mid == 0x08 then LdNnSp
      else if mid == 0x10 then NoHandler
      else if mid == 0x18 then JrE
      else JrCcE
    else if lo == 0x01 then
      if op & 0x08 == 0x00 then LdDdNn else AddHlSs
    else if lo == 0x02 then
      var pair := op & 0x30;
      if op & 0x08 == 0x00 then
        if pair == 0x00 then LdPairA(false)
        else if pair == 0x10 then LdPairA(true)
        else LdHlStepA(pair == 0x20)
      else
        if pair == 0x00 then LdAPair(false)
        else if pair == 0x10 then LdAPair(true)
        else LdAHlStep(pair == 0x20)
    else if lo == 0x03 then
      if op & 0x08 == 0x00 then IncSs else DecSs
    else if lo == 0x04 then IncR
    else if lo == 0x05 then DecR
    else if lo == 0x06 then LdRN
    else
      if mid == 0x00 then RotA(Rlc)
      else if mid == 0x08 then RotA(Rrc)
      else if mid == 0x10 then RotA(Rl)
      else if mid == 0x18 then RotA(Rr)
      else if mid == 0x20 then DaaA
      else if mid == 0x28 then Cpl
      else if mid == 0x30 then Scf
      else Ccf
  }

  /** Block 0x40-0x7F (emu.go:138-157). */
  function DecodeLoads(op: bv8): (i: Instr)
  {
    if op & 0x07 == 0x06 then
      if op & 0x38 == 0x30 then NoHandler else LdRHl
    else
      if op & 0x38 == 0x30 then LdHlR else LdRR
  }

  /** Block 0x80-0xBF (emu.go:158-230). SBC A, r is routed to the SUB
      handler: only SBC A, (HL) reaches the SBC handler. */
  function DecodeAlu(op: bv8): (i: Instr)
  {
    var k := AluOpOf(op);
    if op & 0x07 == 0x06 then Alu(k, FromHl)
    else if k == SbcOp then Alu(SubOp, FromReg)
    else Alu(k, FromReg)
  }

  /** The byte after 0xCB (emu.go:306-392). */
  function DecodeCb(cb: bv8): (i: Instr)
  {
    var hl := cb & 0x07 == 0x06;
    var group := cb & 0xC0;
    if group == 0x00 then
      if hl then ShiftHl(ShiftOpOf(cb)) else ShiftR(ShiftOpOf(cb))
    else if group == 0x40 then
      if hl then BitHl else BitR
    else if group == 0x80 then
      if hl then ResHl else ResR
    else
      if hl then SetHl else SetR
  }

  /** Block 0xC0-0xFF (emu.go:231-465). */
  function DecodeHigh(op: bv8, cb: bv8): (i: Instr)
    requires op & 0xC0 == 0xC0
  {
    var lo, mid := op & 0x07, op & 0x38;
    if lo == 0x00 then
      if mid < 0x20 then RetCc
      else if mid == 0x20 then LdNA
      else if mid == 0x28 then AddSpE
      else if mid == 0x30 then LdAN
      else LdHlSpE
    else if lo == 0x01 then
      if op & 0x08 == 0x00 then PopQq
      else
        var k := op & 0x30;
        if k == 0x00 then Ret
        else if k == 0x10 then Reti
        else if k == 0x20 then JpHl
        else LdSpHl
    else if lo == 0x02 then
      if mid < 0x20 then JpCcNn
      else if mid == 0x20 then LdCA
      else if mid == 0x28 then LdNnA
      else if mid == 0x30 then LdAC
      else LdANn
    else if lo == 0x03 then
      if mid == 0x00 then JpNn
      else if mid == 0x08 then DecodeCb(cb)
      else if mid == 0x30 then Di
      else if mid == 0x38 then Ei
      else NoHandler
    else if lo == 0x04 then
      if mid < 0x20 then CallCcNn else NoHandler
    else if lo == 0x05 then
      if op & 0x08 == 0x00 then PushQq
      else if op & 0x30 == 0x00 then CallNn
      else NoHandler
    else if lo == 0x06 then Alu(AluOpOf(op), FromImm)
    else Rst
  }

  /** The handler `Step` dispatches to for opcode `op`, with `cb` the byte
      after it (consulted only when `op` is 0xCB). */
  function Decode(op: bv8, cb: bv8): (i: Instr)
    ensures i == LdRN || i == LdDdNn ==> op < 0x40
    ensures i.RotA? ==> IsRotation(i.rot)
    ensures i.Alu? ==> (i.src == FromImm <==> op & 0xC7 == 0xC6)
  {
    var block := op & 0xC0;
    if block == 0x00 then DecodeLow(op)
    else if block == 0x40 then DecodeLoads(op)
    else if block == 0x80 then DecodeAlu(op)
    else DecodeHigh(op, cb)
  }

  /** The number of bytes from PC that `Step` reads for the handler:
      3 for a 16-bit operand, 2 for an 8-bit operand or a CB prefix, 1
      otherwise, and none when no handler runs. */
  function Width(i: Instr): (n: nat)
    ensures n <= 3
    ensures i.NoHandler? <==> n == 0
  {
    match i
    case NoHandler => 0
    case LdNnSp | LdDdNn | JpCcNn | LdNnA | LdANn | JpNn | CallCcNn | CallNn => 3
    case JrE | JrCcE | LdRN | LdNA | AddSpE | LdAN | LdHlSpE => 2
    case ShiftR(_) | ShiftHl(_) | BitR | BitHl | ResR | ResHl | SetR | SetHl => 2
    case Alu(_, src) => if src == FromImm then 2 else 1
    case _ => 1
  }

  /** The thirteen encodings for which `Step` runs no handler: STOP
      (0x10), HALT (0x76) and the eleven illegal opcodes. */
  predicate Unassigned(op: bv8) {
    op in {0x10, 0x76, 0xD3, 0xDB, 0xDD, 0xE3, 0xE4, 0xEB, 0xEC, 0xED, 0xF4, 0xFC, 0xFD}
  }

  /** No handler runs exactly for the unassigned encodings. */
  lemma {:induction false} NoHandlerExactly(op: bv8, cb: bv8)
    ensures Decode(op, cb) == NoHandler <==> Unassigned(op)
  {
    var block := op & 0xC0;
    if block == 0x00 {
      LowBlockAssigned(op);
    } else if block == 0x40 {
      LoadBlockAssigned(op);
    } else if block == 0x80 {
      assert DecodeAlu(op).Alu?;
    } else {
      HighBlockAssigned(op, cb);
    }
  }

  lemma LowBlockAssigned(op: bv8)
    requires op & 0xC0 == 0x00
    ensures DecodeLow(op) == NoHandler <==> op == 0x10
  {
  }

  lemma LoadBlockAssigned(op: bv8)
    requires op & 0xC0 == 0x40
    ensures DecodeLoads(op) == NoHandler <==> op == 0x76
  {
  }

  lemma HighBlockAssigned(op: bv8, cb: bv8)
    requires op & 0xC0 == 0xC0
    ensures DecodeHigh(op, cb) == NoHandler <==>
      op in {0xD3, 0xDB, 0xDD, 0xE3, 0xE4, 0xEB, 0xEC, 0xED, 0xF4, 0xFC, 0xFD}
  {
    assert DecodeCb(cb) != NoHandler;
  }

  /** The register forms of SBC reach the SUB handler, 0x9F included. */
  lemma {:induction false} SbcRegisterIsSub(op: bv8, cb: bv8)
    requires 0x98 <= op <= 0x9F && op != 0x9E
    ensures Decode(op, cb) == Alu(SubOp, FromReg)
  {
    assert AluOpOf(op) == SbcOp;
  }

  /** 0x34, 0x35 and 0x36 reach the register forms of INC, DEC and LD r, n,
      with register field 6, which is F. */
  lemma {:induction false} HlFormsMisrouted(cb: bv8)
    ensures Decode(0x34, cb) == IncR && Decode(0x35, cb) == DecR && Decode(0x36, cb) == LdRN
  {
    assert DecodeLow(0x34) == IncR;
  }

  /** Each handler gets the encoded length of its instruction: three bytes
      exactly for the 16-bit immediates, two for the 8-bit immediates and
      the CB prefix. */
  lemma {:induction false} WidthByOpcode(op: bv8, cb: bv8)
    ensures Width(Decode(op, cb)) == 3 <==>
      op in {0x01, 0x08, 0x11, 0x21, 0x31, 0xC2, 0xC3, 0xC4, 0xCA, 0xCC, 0xCD, 0xD2, 0xD4, 0xDA, 0xDC, 0xEA, 0xFA}
    ensures Width(Decode(op, cb)) == 2 <==>
      (op < 0x40 && (op & 0x07 == 0x06 || op in {0x18, 0x20, 0x28, 0x30, 0x38}))
      || op & 0xC7 == 0xC6 || op in {0xCB, 0xE0, 0xE8, 0xF0, 0xF8}
  {
    var block := op & 0xC0;
    if block == 0x00 {
      LowBlockWidth(op);
    } else if block == 0x40 {
      assert Width(DecodeLoads(op)) <= 1;
    } else if block == 0x80 {
      assert Width(DecodeAlu(op)) == 1;
    } else {
      HighBlockWidth(op, cb);
    }
  }

  lemma LowBlockWidth(op: bv8)
    requires op & 0xC0 == 0x00
    ensures Width(DecodeLow(op)) == 3 <==> op in {0x01, 0x08, 0x11, 0x21, 0x31}
    ensures Width(DecodeLow(op)) == 2 <==> op & 0x07 == 0x06 || op in {0x18, 0x20, 0x28, 0x30, 0x38}
  {
  }

  lemma {:induction false} HighBlockWidth(op: bv8, cb: bv8)
    requires op & 0xC0 == 0xC0
    ensures Width(DecodeHigh(op, cb)) == 3 <==>
      op in {0xC2, 0xC3, 0xC4, 0xCA, 0xCC, 0xCD, 0xD2, 0xD4, 0xDA, 0xDC, 0xEA, 0xFA}
    ensures Width(DecodeHigh(op, cb)) == 2 <==> op & 0xC7 == 0xC6 || op in {0xCB, 0xE0, 0xE8, 0xF0, 0xF8}
  {
    var lo := op & 0x07;
    if lo <= 0x02 {
      HighBlockJumpsAndLoadsWidth(op);
    } else if lo == 0x03 {
      assert Width(DecodeCb(cb)) == 2;
      HighBlockMiscWidth(op, cb);
    } else {
      HighBlockCallsWidth(op);
    }
  }

  lemma HighBlockJumpsAndLoadsWidth(op: bv8)
    requires op & 0xC0 == 0xC0 && op & 0x07 <= 0x02
    ensures Width(DecodeHigh(op, 0)) == 3 <==> op in {0xC2, 0xCA, 0xD2, 0xDA, 0xEA, 0xFA}
    ensures Width(DecodeHigh(op, 0)) == 2 <==> op in {0xE0, 0xE8, 0xF0, 0xF8}
    ensures !(op in {0xC3, 0xC4, 0xCB, 0xCC, 0xCD, 0xD4, 0xDC}) && op & 0xC7 != 0xC6
  {
  }

  lemma HighBlockMiscWidth(op: bv8, cb: bv8)
    requires op & 0xC0 == 0xC0 && op & 0x07 == 0x03
    requires Width(DecodeCb(cb)) == 2
    ensures Width(DecodeHigh(op, cb)) == 3 <==> op == 0xC3
    ensures Width(DecodeHigh(op, cb)) == 2 <==> op == 0xCB
    ensures !(op in {0xC2, 0xC4, 0xCA, 0xCC, 0xCD, 0xD2, 0xD4, 0xDA, 0xDC, 0xEA, 0xFA, 0xE0, 0xE8, 0xF0, 0xF8})
    ensures op & 0xC7 != 0xC6
  {
  }

  lemma HighBlockCallsWidth(op: bv8)
    requires op & 0xC0 == 0xC0 && op & 0x07 >= 0x04
    ensures Width(DecodeHigh(op, 0)) == 3 <==> op in {0xC4, 0xCC, 0xCD, 0xD4, 0xDC}
    ensures Width(DecodeHigh(op, 0)) == 2 <==> op & 0xC7 == 0xC6
    ensures !(op in {0xC2, 0xC3, 0xCA, 0xD2, 0xDA, 0xEA, 0xFA, 0xCB, 0xE0, 0xE8, 0xF0, 0xF8})
  {
  }
}

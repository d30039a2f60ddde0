/** Interrupt dispatch, emu.go:480-522: with IME set, the lowest pending
    interrupt enabled in IE (0xFFFF) and requested in IF (0xFF0F) pushes PC,
    clears IME and jumps to its vector; its IF bit is then toggled off. */
module Interrupts {
  import opened Bits
  import opened RegisterFile
  import opened Memory
  import opened Cpu
  import opened Maybe
  import opened Stack
  import opened Control

  /** The interrupt-enable register. */
  const IeAddr: bv16 := 0xFFFF
  /** The interrupt-request register. */
  const IfAddr: bv16 := 0xFF0F

  /** `interrupts & -interrupts`: the lowest set bit of `i` on its own. */
  function LowestBit(i: bv8): (bit: bv8)
    ensures i == 0 <==> bit == 0
    ensures bit != 0 ==> bit & (bit - 1) == 0
    ensures bit & i == bit
    ensures i & (bit - 1) == 0
  {
    i & (0 - i)
  }

  /** The vector of each of the five interrupt bits; the other three bits
      have none. */
  function Vector(bit: bv8): (target: Option<bv16>)
    ensures target.Some? <==> bit in {0x01, 0x02, 0x04, 0x08, 0x10}
    ensures target.Some? ==> target.value & 0x07 == 0 && 0x40 <= target.value <= 0x60
  {
    match bit
    case 0x01 => Some(0x0040)
    case 0x02 => Some(0x0048)
    case 0x04 => Some(0x0050)
    case 0x08 => Some(0x0058)
    case 0x10 => Some(0x0060)
    case _ => None
  }

  /** interruptJumpHelper (emu.go:513-522): IME cleared, PC pushed high
      byte first, PC = target. */
  function JumpToVector(c: Cpu, target: bv16): (o: Cpu)
    ensures Called(c, o.(ime := c.ime), c.regs.pc, target)
    ensures !o.ime
  {
    CallTo(c, c.regs.pc, target).(ime := false)
  }

  /** The interrupts both enabled and requested: bit k is pending exactly
      when it is set in IE and in IF. */
  function Pending(m: Mem): (i: bv8)
    ensures i & Read(m, IeAddr) == i && i & Read(m, IfAddr) == i
    ensures forall k: bv8 :: k < 8 ==> (Bit(i, k) <==> Bit(Read(m, IeAddr), k) && Bit(Read(m, IfAddr), k))
  {
    Read(m, IeAddr) & Read(m, IfAddr)
  }

  /** Writes the new request byte back to IF. */
  function Acknowledge(c: Cpu, request: bv8): (o: Cpu)
    ensures Read(o.mem, IfAddr) == request
    ensures o.mem == Write(c.mem, IfAddr, request)
    ensures o.regs == c.regs && o.ime == c.ime
  {
    c.(mem := Write(c.mem, IfAddr, request))
  }

  /** Serving the pending interrupt `bit`, with `request` the IF byte read
      before the push: a jump through the vector when the bit has one, and
      in every case the request byte with `bit` toggled written to IF. */
  function Serve(c: Cpu, bit: bv8, request: bv8): (o: Cpu)
    ensures Read(o.mem, IfAddr) == request ^ bit
    ensures Vector(bit).None? ==> o.regs == c.regs && o.ime == c.ime && o.mem == Write(c.mem, IfAddr, request ^ bit)
    ensures Vector(bit).Some? ==> o.regs == c.regs.(sp := c.regs.sp - 2, pc := Vector(bit).value) && !o.ime
    ensures Vector(bit).Some? ==>
      o.mem == Write(Write(Write(c.mem, c.regs.sp - 1, Hi(c.regs.pc)), c.regs.sp - 2, Lo(c.regs.pc)), IfAddr, request ^ bit)
    ensures Vector(bit).Some? && c.regs.sp - 1 != IfAddr && c.regs.sp - 2 != IfAddr ==> Top16(o) == c.regs.pc
  {
    match Vector(bit)
    case Some(target) => Acknowledge(JumpToVector(c, target), request ^ bit)
    case None => Acknowledge(c, request ^ bit)
  }

  /** Serving an interrupt writes three bytes at most: the two pushed PC
      bytes and IF. Every other address reads as before. */
  lemma {:induction false} ServeFrame(c: Cpu, bit: bv8, request: bv8, a: bv16)
    requires a != c.regs.sp - 1 && a != c.regs.sp - 2 && a != IfAddr
    ensures Read(Serve(c, bit, request).mem, a) == Read(c.mem, a)
  {
    var o := Serve(c, bit, request);
    if Vector(bit).Some? {
      var m1 := Write(c.mem, c.regs.sp - 1, Hi(c.regs.pc));
      var m2 := Write(m1, c.regs.sp - 2, Lo(c.regs.pc));
      assert o.mem == Write(m2, IfAddr, request ^ bit);
      assert Read(m2, a) == Read(m1, a) == Read(c.mem, a);
    } else {
      assert o.mem == Write(c.mem, IfAddr, request ^ bit);
    }
  }

  /** handleInterrupt (emu.go:480-511). IF is read before the push and
      written after it; an interrupt bit without a vector (bits 5-7) is
      still acknowledged, with no jump and IME left set. */
  function HandleInterrupt(c: Cpu): (o: Cpu)
    ensures !c.ime || Pending(c.mem) == 0 ==> o == c
    ensures c.ime && Pending(c.mem) != 0 ==> o == Serve(c, LowestBit(Pending(c.mem)), Read(c.mem, IfAddr))
  {
    if !c.ime then c
    else
      var pending := Pending(c.mem);
      if pending == 0 then c
      else Serve(c, LowestBit(pending), Read(c.mem, IfAddr))
  }

  /** A taken interrupt clears its request bit and leaves the other IF bits
      as they were. */
  lemma {:induction false} AcknowledgesOnlyItsBit(c: Cpu)
    requires c.ime && Pending(c.mem) != 0
    ensures var bit := LowestBit(Pending(c.mem));
      && Read(HandleInterrupt(c).mem, IfAddr) & bit == 0
      && Read(HandleInterrupt(c).mem, IfAddr) & !bit == Read(c.mem, IfAddr) & !bit
  {
    var bit := LowestBit(Pending(c.mem));
    XorClearsSetBit(Read(c.mem, IfAddr), bit);
  }

  /** Toggling a bit known to be set clears it and nothing else. */
  lemma XorClearsSetBit(x: bv8, bit: bv8)
    requires x & bit == bit
    ensures (x ^ bit) & bit == 0
    ensures (x ^ bit) & !bit == x & !bit
  {
  }

  /** RETI after a vectored interrupt resumes the interrupted code: PC, SP
      and IME are restored, provided the two stack bytes are not the IF
      register itself. */
  lemma {:induction false} RetiResumes(c: Cpu, reti: seq<bv8>)
    requires c.ime && Pending(c.mem) != 0
    requires Vector(LowestBit(Pending(c.mem))).Some?
    requires c.regs.sp - 1 != IfAddr && c.regs.sp - 2 != IfAddr
    ensures Reti(HandleInterrupt(c), reti).cpu.regs == c.regs
    ensures Reti(HandleInterrupt(c), reti).cpu.ime
  {
    ServeResumes(c, LowestBit(Pending(c.mem)), Read(c.mem, IfAddr));
  }

  /** Popping PC after serving a vectored interrupt restores the registers. */
  lemma {:induction false} ServeResumes(c: Cpu, bit: bv8, request: bv8)
    requires Vector(bit).Some?
    requires c.regs.sp - 1 != IfAddr && c.regs.sp - 2 != IfAddr
    ensures var o := Serve(c, bit, request);
      o.regs.(sp := o.regs.sp + 2, pc := Top16(o)) == c.regs
  {
    var o := Serve(c, bit, request);
    PopRestores(c.regs, o.regs, Top16(o));
  }

  /** Moving SP back up by two and loading the pushed PC gives back the
      registers a push-and-jump started from. */
  lemma PopRestores(r: Registers, pushed: Registers, top: bv16)
    requires pushed == r.(sp := r.sp - 2, pc := pushed.pc)
    requires top == r.pc
    ensures pushed.(sp := pushed.sp + 2, pc := top) == r
  {
    StackOffsets(r.sp);
  }
}

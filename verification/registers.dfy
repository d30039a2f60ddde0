/** The register file of goboy.go. The source keeps six 16-bit slots (BC, DE,
    HL, SP, PC, AF) and derives the 8-bit registers from them; here the byte
    registers are stored and the pair view is derived, and `SlotViews` proves
    that the two views alias exactly as the source's `id / 2`, `id % 2` rule
    says. The four flags are bit masks inside F. */
module RegisterFile {
  import opened Bits

  /** 8-bit register identifiers, numbered as the source numbers them. They
      are decoded from instruction bit fields, so they are kept as bytes. */
  type Reg8Id = x: bv8 | x < 8

  /** 16-bit slot identifiers, numbered as the source numbers them. */
  type Reg16Id = x: bv8 | x < 6

  const B: Reg8Id := 0
  const C: Reg8Id := 1
  const D: Reg8Id := 2
  const E: Reg8Id := 3
  const H: Reg8Id := 4
  const L: Reg8Id := 5
  const F: Reg8Id := 6
  const A: Reg8Id := 7

  const BC: Reg16Id := 0
  const DE: Reg16Id := 1
  const HL: Reg16Id := 2
  const SP: Reg16Id := 3
  const PC: Reg16Id := 4
  const AF: Reg16Id := 5

  /** The four status flags. */
  datatype Flag = ZFlag | NFlag | HFlag | CFlag

  /** The bit of a flag inside F (the FlagId constants 0x80, 0x40, 0x20 and
      0x10, which sit in the low byte of AF). */
  function Mask(f: Flag): bv8 {
    match f
    case ZFlag => 0x80
    case NFlag => 0x40
    case HFlag => 0x20
    case CFlag => 0x10
  }

  datatype Registers = Registers(b: bv8, c: bv8, d: bv8, e: bv8, h: bv8, l: bv8,
                                 sp: bv16, pc: bv16, a: bv8, f: bv8)

  /** A zero-initialised register file, as `&Register{}` creates it. */
  const Zeroed: Registers := Registers(0, 0, 0, 0, 0, 0, 0, 0, 0, 0)

  /** `get16Reg`: the slot with index `id`. */
  function Get16(r: Registers, id: Reg16Id): bv16 {
    if id == BC then Join(r.b, r.c)
    else if id == DE then Join(r.d, r.e)
    else if id == HL then Join(r.h, r.l)
    else if id == SP then r.sp
    else if id == PC then r.pc
    else Join(r.a, r.f)
  }

  /** `set16Reg`: replaces slot `id`; every other slot reads as before. */
  function Set16(r: Registers, id: Reg16Id, v: bv16): (r': Registers)
    ensures Get16(r', id) == v
    ensures forall j: Reg16Id :: j != id ==> Get16(r', j) == Get16(r, j)
  {
    if id == BC then r.(b := Hi(v), c := Lo(v))
    else if id == DE then r.(d := Hi(v), e := Lo(v))
    else if id == HL then r.(h := Hi(v), l := Lo(v))
    else if id == SP then r.(sp := v)
    else if id == PC then r.(pc := v)
    else r.(a := Hi(v), f := Lo(v))
  }

  /** `get8Reg`. */
  function Get8(r: Registers, id: Reg8Id): bv8 {
    if id == B then r.b
    else if id == C then r.c
    else if id == D then r.d
    else if id == E then r.e
    else if id == H then r.h
    else if id == L then r.l
    else if id == F then r.f
    else r.a
  }

  /** `set8Reg`: replaces one byte register; every other byte register, SP
      and PC read as before. F is stored unmasked: its low nibble is
      whatever was written. */
  function Set8(r: Registers, id: Reg8Id, v: bv8): (r': Registers)
    ensures Get8(r', id) == v
    ensures forall j: Reg8Id :: j != id ==> Get8(r', j) == Get8(r, j)
    ensures r'.sp == r.sp && r'.pc == r.pc
  {
    if id == B then r.(b := v)
    else if id == C then r.(c := v)
    else if id == D then r.(d := v)
    else if id == E then r.(e := v)
    else if id == H then r.(h := v)
    else if id == L then r.(l := v)
    else if id == F then r.(f := v)
    else r.(a := v)
  }

  /** `getFlag(f) == 1`: the flag's bit of F is set. */
  predicate FlagSet(r: Registers, f: Flag) {
    r.f & Mask(f) != 0
  }

  /** The flag bit of a flag byte F set to `on`; every other bit of F kept. */
  function PutFlag(f: bv8, fl: Flag, on: bool): (f': bv8)
    ensures (f' & Mask(fl) != 0) == on
    ensures f' & !Mask(fl) == f & !Mask(fl)
  {
    (f & !Mask(fl)) | (if on then Mask(fl) else 0)
  }

  /** `modifyFlag(flag, SET)` when `on` holds, `modifyFlag(flag, CLEAR)`
      otherwise (the only two values the source passes): the flag reads back
      as `on`, no other bit of F and no other register moves. */
  function ModifyFlag(r: Registers, f: Flag, on: bool): (r': Registers)
    ensures FlagSet(r', f) == on
    ensures r'.f & !Mask(f) == r.f & !Mask(f)
    ensures r' == r.(f := r'.f)
  {
    r.(f := PutFlag(r.f, f, on))
  }

  /** The four flag bits of F read back as `z`, `n`, `h`, `c`. */
  predicate FlagBitsAre(f: bv8, z: bool, n: bool, h: bool, c: bool) {
    && (f & Mask(ZFlag) != 0) == z
    && (f & Mask(NFlag) != 0) == n
    && (f & Mask(HFlag) != 0) == h
    && (f & Mask(CFlag) != 0) == c
  }

  /** F after a handler's four `modifyFlag` calls: the flags read back as
      given, the low nibble of F is kept. A handler that leaves a flag alone
      passes that flag's current value. */
  function WithFlags(f: bv8, z: bool, n: bool, h: bool, c: bool): (f': bv8)
    ensures FlagBitsAre(f', z, n, h, c)
    ensures f' & 0x0F == f & 0x0F
  {
    PutFlag(PutFlag(PutFlag(PutFlag(f, ZFlag, z), NFlag, n), HFlag, h), CFlag, c)
  }

  /** `getFlag`: 1 when the flag's bit is set, 0 otherwise. */
  function GetFlag(r: Registers, f: Flag): (v: bv8)
    ensures v == 0 || v == 1
    ensures v == 1 <==> FlagSet(r, f)
  {
    if r.f & Mask(f) > 0 then 1 else 0
  }

  /** The source's aliasing rule: A and F are the high and low byte of AF,
      every other 8-bit identifier is byte `id % 2` (0 = high) of slot
      `id / 2`; so the byte and slot views agree. */
  lemma SlotViews(r: Registers, id: Reg8Id)
    ensures id == A ==> Get8(r, id) == Hi(Get16(r, AF))
    ensures id == F ==> Get8(r, id) == Lo(Get16(r, AF))
    ensures id < 6 && id % 2 == 0 ==> Get8(r, id) == Hi(Get16(r, id / 2))
    ensures id < 6 && id % 2 == 1 ==> Get8(r, id) == Lo(Get16(r, id / 2))
  {
  }

  /** Writing a slot and reading it back through its byte views gives the
      word's two halves; joining the halves gives the slot back. */
  lemma PairsAreByteViews(r: Registers)
    ensures Get16(r, BC) == Join(Get8(r, B), Get8(r, C))
    ensures Get16(r, DE) == Join(Get8(r, D), Get8(r, E))
    ensures Get16(r, HL) == Join(Get8(r, H), Get8(r, L))
    ensures Get16(r, AF) == Join(Get8(r, A), Get8(r, F))
  {
  }

  /** `modifyFlag` followed by `getFlag`: the written flag reads back 1 or 0,
      the other three flags, A and the low nibble of F are unchanged. */
  lemma ModifyFlagIsolated(r: Registers, f: Flag, g: Flag, on: bool)
    ensures GetFlag(ModifyFlag(r, f, on), f) == (if on then 1 else 0)
    ensures g != f ==> GetFlag(ModifyFlag(r, f, on), g) == GetFlag(r, g)
    ensures Get8(ModifyFlag(r, f, on), A) == Get8(r, A)
    ensures Get8(ModifyFlag(r, f, on), F) & 0x0F == Get8(r, F) & 0x0F
  {
  }

  /** `set8Reg(A, x)` changes the high byte of AF to `x` and keeps F;
      `set8Reg(F, x)` changes the low byte and keeps A; neither stores
      anything but `x` in its byte (F's low nibble is not masked). */
  lemma SetAccumulatorOrFlags(r: Registers, x: bv8)
    ensures Hi(Get16(Set8(r, A, x), AF)) == x
    ensures Lo(Get16(Set8(r, A, x), AF)) == Get8(r, F)
    ensures Get16(Set8(r, F, x), AF) == Join(Get8(r, A), x)
  {
  }

  /** `set8Reg` on one of B..L rewrites one half of its slot: the partner
      byte and the other five slots are kept. */
  lemma Set8KeepsPartnerAndSlots(r: Registers, id: Reg8Id, v: bv8, j: Reg16Id)
    requires id < 6
    ensures id % 2 == 0 ==> Lo(Get16(Set8(r, id, v), id / 2)) == Lo(Get16(r, id / 2))
    ensures id % 2 == 1 ==> Hi(Get16(Set8(r, id, v), id / 2)) == Hi(Get16(r, id / 2))
    ensures j != id / 2 ==> Get16(Set8(r, id, v), j) == Get16(r, j)
  {
  }

  /** Writing a slot with the value it already holds changes nothing. */
  lemma Set16Unchanged(r: Registers, id: Reg16Id)
    ensures Set16(r, id, Get16(r, id)) == r
  {
    SplitJoin(Get16(r, id));
  }
}

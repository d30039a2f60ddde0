/** The byte and word arithmetic the handlers of opcodes.go perform, separated
    from the register file: each function computes exactly what the handler
    computes (same expressions, same wrap-around), and its contract says what
    the result means. The handlers then write these results into A, F, HL,
    SP or memory. */
module Alu {
  import opened Bits

  /** An 8-bit result together with the four flag values the handler derives
      from it. */
  datatype Result8 = Result8(out: bv8, z: bool, n: bool, h: bool, c: bool)

  /** A 16-bit result with the half-carry (bit 11) and carry (bit 15) flags. */
  datatype Result16 = Result16(out: bv16, h: bool, c: bool)

  /** `get8Reg(F) & uint8(C_FLAG) >> 4`: the carry flag as the number 0 or 1. */
  function CarryIn(f: bv8): (cin: bv8)
    ensures cin == 0 || cin == 1
    ensures cin == 1 <==> f & 0x10 != 0
  {
    (f & 0x10) >> 4
  }

  /** `uint16(a) + uint16(b) > 0xFF`: the addition of two bytes carries out
      of bit 7 exactly when the wrapped sum is below `a`. */
  function Carry8(a: bv8, b: bv8): (c: bool)
    ensures c <==> a + b < a
  {
    a as bv16 + b as bv16 > 0xFF
  }

  /** `(a & 0xF) + (b & 0xF) > 0xF`: the addition carries out of bit 3
      exactly when the low nibble of the wrapped sum is below that of `a`. */
  function HalfCarry8(a: bv8, b: bv8): (h: bool)
    ensures h <==> (a + b) & 0x0F < a & 0x0F
  {
    (a & 0x0F) + (b & 0x0F) > 0x0F
  }

  /** ADD and ADC (opcodes.go:264-422): `out = a + b + cin`; H and C are
      computed from `a` and `b` alone, so the carry-in never raises them. */
  function Add8(a: bv8, b: bv8, cin: bv8): (r: Result8)
    ensures r.out == a + b + cin
    ensures r.z <==> r.out == 0
    ensures !r.n
    ensures r.h <==> (a + b) & 0x0F < a & 0x0F
    ensures r.c <==> a + b < a
  {
    var out := a + b + cin;
    Result8(out, out == 0, false, HalfCarry8(a, b), Carry8(a, b))
  }

  /** SUB and SBC (opcodes.go:425-583): `out = a - b`, where SBC passes
      the subtrahend `b + carry` already wrapped to 8 bits; C and H record a
      borrow out of bit 7 and out of bit 3. */
  function Sub8(a: bv8, b: bv8): (r: Result8)
    ensures r.out + b == a
    ensures r.z <==> r.out == 0
    ensures r.n
    ensures r.c <==> a < b
    ensures r.h <==> a & 0x0F < b & 0x0F
  {
    var out := a - b;
    Result8(out, out == 0, true, a & 0x0F < b & 0x0F, a < b)
  }

  /** CP (opcodes.go:754-819): flags from the ordering of `a` and `b` only;
      exactly one of Z, H, C is raised and N always is. The result byte is
      `a`, which CP never changes. */
  function Compare(a: bv8, b: bv8): (r: Result8)
    ensures r.out == a
    ensures r.z <==> a == b
    ensures r.h <==> b < a
    ensures r.c <==> a < b
    ensures r.n
    ensures (r.z && !r.h && !r.c) || (!r.z && r.h && !r.c) || (!r.z && !r.h && r.c)
  {
    if a > b then Result8(a, false, true, true, false)
    else if a < b then Result8(a, false, true, false, true)
    else Result8(a, true, true, false, false)
  }

  /** AND (opcodes.go:586-639): H forced to 1, N and C to 0. */
  function And8(a: bv8, b: bv8): (r: Result8)
    ensures r.out & a == r.out && r.out & b == r.out
    ensures r.z <==> r.out == 0
    ensures !r.n && r.h && !r.c
  {
    var out := a & b;
    Result8(out, out == 0, false, true, false)
  }

  /** OR (opcodes.go:642-695): N, H and C cleared. */
  function Or8(a: bv8, b: bv8): (r: Result8)
    ensures r.out & a == a && r.out & b == b
    ensures r.z <==> r.out == 0
    ensures !r.n && !r.h && !r.c
  {
    var out := a | b;
    Result8(out, out == 0, false, false, false)
  }

  /** XOR (opcodes.go:698-751): N, H and C cleared. */
  function Xor8(a: bv8, b: bv8): (r: Result8)
    ensures r.out ^ b == a
    ensures r.z <==> r.out == 0
    ensures !r.n && !r.h && !r.c
  {
    var out := a ^ b;
    Result8(out, out == 0, false, false, false)
  }

  /** INC r / INC (HL) (opcodes.go:822-861): H from a carry out of the low
      nibble, N cleared; C is not part of the result (the handler leaves it). */
  function Inc8(v: bv8): (r: Result8)
    ensures r.out - 1 == v
    ensures r.z <==> r.out == 0
    ensures !r.n
    ensures r.h <==> r.out & 0x0F == 0
  {
    var out := v + 1;
    Result8(out, out == 0, false, (v & 0x0F) + 0x01 > 0x0F, false)
  }

  /** DEC r / DEC (HL) (opcodes.go:864-903): H from a borrow out of the low
      nibble, N set; C is not part of the result. */
  function Dec8(v: bv8): (r: Result8)
    ensures r.out + 1 == v
    ensures r.z <==> r.out == 0
    ensures r.n
    ensures r.h <==> r.out & 0x0F == 0x0F
  {
    var out := v - 1;
    Result8(out, out == 0, true, v & 0x0F < 0x01, false)
  }

  /** The 16-bit additions of ADD HL,ss, ADD SP,e and LDHL SP,e
      (opcodes.go:230-249, 908-949): H is the carry out of bit 11, C the
      carry out of bit 15. */
  function Add16(a: bv16, b: bv16): (r: Result16)
    ensures r.out == a + b
    ensures r.c <==> r.out < a
    ensures r.h <==> r.out & 0x0FFF < a & 0x0FFF
  {
    Result16(a + b, (a & 0x0FFF) + (b & 0x0FFF) > 0x0FFF, a as bv32 + b as bv32 > 0xFFFF)
  }

  /** `bits.RotateLeft8(x, 1)` */
  function RotateLeft(x: bv8): bv8 {
    (x << 1) | (x >> 7)
  }

  /** `bits.RotateLeft8(x, -1)` */
  function RotateRight(x: bv8): bv8 {
    (x >> 1) | (x << 7)
  }

  /** `_rotateWithC` (opcodes.go:992-1034): rotates one place; the bit
      rotated out is the carry out; with `withC` the bit rotated in is bit 0
      of `cin` instead of the bit rotated out. */
  function RotateWithC(input: bv8, cin: bv8, left: bool, withC: bool): (r: Result8)
    ensures left ==> (r.c <==> Bit(input, 7))
    ensures !left ==> (r.c <==> Bit(input, 0))
    ensures left ==> r.out >> 1 == input & 0x7F
    ensures !left ==> r.out << 1 == input & 0xFE
    ensures left ==> (Bit(r.out, 0) <==> if withC then Bit(cin, 0) else Bit(input, 7))
    ensures !left ==> (Bit(r.out, 7) <==> if withC then Bit(cin, 0) else Bit(input, 0))
    ensures r.z <==> r.out == 0
    ensures !r.n && !r.h
  {
    var cOut := if left then input & 0x80 == 0x80 else input & 0x1 == 0x1;
    var out := if left then RotatedLeft(input, cin, withC) else RotatedRight(input, cin, withC);
    Result8(out, out == 0, false, false, cOut)
  }

  /** The left half of `_rotateWithC`: bit 0 is refilled from `cin` when
      `withC`, and keeps the bit rotated round otherwise. */
  function RotatedLeft(input: bv8, cin: bv8, withC: bool): (out: bv8)
    ensures out >> 1 == input & 0x7F
    ensures Bit(out, 0) <==> if withC then Bit(cin, 0) else Bit(input, 7)
  {
    var rotated := RotateLeft(input);
    if !withC then rotated
    else if cin & 0x1 == 0x1 then rotated | 0x1 else rotated & 0xFE
  }

  /** The right half of `_rotateWithC`: bit 7 is refilled from `cin` when
      `withC`, and keeps the bit rotated round otherwise. */
  function RotatedRight(input: bv8, cin: bv8, withC: bool): (out: bv8)
    ensures out << 1 == input & 0xFE
    ensures Bit(out, 7) <==> if withC then Bit(cin, 0) else Bit(input, 0)
  {
    var rotated := RotateRight(input);
    if !withC then rotated
    else if cin & 0x1 == 0x1 then rotated | 0x80 else rotated & 0x7F
  }

  /** SLA (opcodes.go:1209-1254): rotate left, then clear bit 0; C gets bit 7. */
  function ShiftLeft(v: bv8): (r: Result8)
    ensures r.out as int == (v as int * 2) % 256
    ensures r.c <==> Bit(v, 7)
    ensures r.z <==> r.out == 0
    ensures !r.n && !r.h
  {
    var out := RotateLeft(v) & 0xFE;
    Result8(out, out == 0, false, false, v & 0x80 == 0x80)
  }

  /** SRA (opcodes.go:1257-1310): rotate right, then put back the old bit 7;
      C gets bit 0. */
  function ShiftRightArithmetic(v: bv8): (r: Result8)
    ensures r.out & 0x80 == v & 0x80
    ensures r.out << 1 == v & 0xFE
    ensures r.c <==> Bit(v, 0)
    ensures r.z <==> r.out == 0
    ensures !r.n && !r.h
  {
    var rotated := RotateRight(v);
    var out := if v & 0x80 == 0x80 then rotated | 0x80 else rotated & 0x7F;
    Result8(out, out == 0, false, false, v & 0x1 == 0x1)
  }

  /** SRL (opcodes.go:1313-1358): rotate right, then clear bit 7; C gets bit 0. */
  function ShiftRightLogical(v: bv8): (r: Result8)
    ensures r.out as int == v as int / 2
    ensures r.c <==> Bit(v, 0)
    ensures r.z <==> r.out == 0
    ensures !r.n && !r.h
  {
    var out := RotateRight(v) & 0x7F;
    Result8(out, out == 0, false, false, v & 0x1 == 0x1)
  }

  /** SWAP (opcodes.go:1361-1392) as written: `(low << 4) & high`. The two
      operands have no bit in common, so the result is always 0, Z is always
      raised and C, H, N are cleared. */
  function Swap(v: bv8): (r: Result8)
    ensures r.out == 0
    ensures r.z && !r.n && !r.h && !r.c
  {
    var ln := v & 0x0F;
    var un := (v & 0xF0) >> 4;
    var out := (ln << 4) & un;
    Result8(out, out == 0, false, false, false)
  }

  /** BIT b (opcodes.go:1395-1424): `((^v) >> b) & 1`; Z is raised exactly
      when bit `b` of `v` is 0. H is set and N cleared. */
  function TestBit(v: bv8, b: bv8): (z: bool)
    requires b < 8
    ensures z <==> !Bit(v, b)
  {
    ((!v) >> b) & 0x01 == 1
  }

  /** SET b (opcodes.go:1427-1444): `v | (1 << b)`. */
  function SetBit(v: bv8, b: bv8): (out: bv8)
    requires b < 8
    ensures Bit(out, b)
    ensures forall i: bv8 :: i < 8 && i != b ==> (Bit(out, i) <==> Bit(v, i))
  {
    v | (0x01 << b)
  }

  /** RES b (opcodes.go:1447-1464): `v & ^(1 << b)`. */
  function ResetBit(v: bv8, b: bv8): (out: bv8)
    requires b < 8
    ensures !Bit(out, b)
    ensures forall i: bv8 :: i < 8 && i != b ==> (Bit(out, i) <==> Bit(v, i))
  {
    v & !(0x01 << b)
  }

  /** The result of DAA: the corrected accumulator and whether the handler
      raises C (it never lowers it). */
  datatype DaaResult = DaaResult(out: bv8, setC: bool)

  /** The condition under which DAA after an addition adds 0x60 and raises
      C: C was already set, or the high digit exceeds 9, or it is 9 with a
      low digit above 9 -- that is, the byte is above 0x99. */
  function DaaHighCarry(a: bv8, c: bool): (hi: bool)
    ensures hi <==> c || a > 0x99
  {
    var lsn := a & 0x0F;
    var msn := (a & 0xF0) >> 4;
    c || msn > 0x09 || (msn == 0x09 && lsn > 0x09)
  }

  /** DAA (opcodes.go:1613-1646): after an addition (N clear) add 0x06 when
      the low nibble overflowed or exceeds 9, and 0x60 (raising C) when the
      high part did; after a subtraction subtract 0x06 on H and 0x60 on C. */
  function Daa(a: bv8, n: bool, h: bool, c: bool): (r: DaaResult)
    ensures !n ==> (r.setC <==> c || a > 0x99)
    ensures n ==> (r.setC <==> c)
    ensures !n ==> r.out == a + (if h || a & 0x0F > 9 then 0x06 else 0) + (if r.setC then 0x60 else 0)
    ensures n ==> r.out == a - (if h then 0x06 else 0) - (if c then 0x60 else 0)
  {
    if !n then
      var lo: bv8 := if h || a & 0x0F > 0x09 then 0x06 else 0x00;
      var hiCarry := DaaHighCarry(a, c);
      var correction: bv8 := lo + (if hiCarry then 0x60 else 0x00);
      DaaResult(a + correction, hiCarry)
    else
      var lo: bv8 := 0x00 - (if h then 0x06 else 0x00);
      var correction: bv8 := lo - (if c then 0x60 else 0x00);
      DaaResult(a + correction, c)
  }
}

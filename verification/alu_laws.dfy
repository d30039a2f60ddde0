/** Properties relating the ALU functions to each other and to integer
    arithmetic: the references a reader checks the handlers against. */
module AluLaws {
  import opened Bits
  import opened Alu

  /** `n` is `lo` give or take at most one whole modulus. */
  lemma ModOfOneWrap(n: int, lo: int, k: int, m: int)
    requires m > 0 && 0 <= lo < m && (k == -m || k == 0 || k == m) && n == lo + k
    ensures n % m == lo
  {
  }

  /** ADD/ADC against integer arithmetic: the result is the sum of both
      operands and the carry-in, modulo 256. */
  lemma AddValue(a: bv8, b: bv8, cin: bv8)
    requires cin <= 1
    ensures Add8(a, b, cin).out as int == (a as int + b as int + cin as int) % 256
  {
    var w := a as bv16 + b as bv16 + cin as bv16;
    assert w as int == a as int + b as int + cin as int;
    assert Add8(a, b, cin).out == Lo(w);
    NineBitValue(w);
    ModOfOneWrap(w as int, Lo(w) as int, if w >= 0x100 then 256 else 0, 256);
  }

  /** ADD/ADC's C says the integer sum of the two operands exceeds 255 (the
      carry-in takes no part). */
  lemma AddCarryValue(a: bv8, b: bv8, cin: bv8)
    ensures Add8(a, b, cin).c <==> a as int + b as int > 255
  {
    var w := a as bv16 + b as bv16;
    assert w as int == a as int + b as int;
    assert Add8(a, b, cin).c <==> w >= 0x100;
    NineBitValue(w);
  }

  /** ADD/ADC's H says the low nibbles of the two operands sum past 15 (the
      carry-in takes no part). */
  lemma AddHalfCarryValue(a: bv8, b: bv8, cin: bv8)
    ensures Add8(a, b, cin).h <==> a as int % 16 + b as int % 16 > 15
  {
    NibbleValue(a);
    NibbleValue(b);
    var w := (a & 0x0F) + (b & 0x0F);
    assert w as int == (a & 0x0F) as int + (b & 0x0F) as int;
  }

  /** The integer value of a byte sum: the two values added, less 256 when
      they reach 256. */
  lemma ByteSumValue(x: bv8, y: bv8)
    ensures x as int + y as int == (x + y) as int + (if x as int + y as int >= 256 then 256 else 0)
  {
    var w := x as bv16 + y as bv16;
    assert w as int == x as int + y as int;
    assert x + y == Lo(w);
    NineBitValue(w);
  }

  /** The integer core of `ByteDifferenceValue`, free of bit-vectors. */
  lemma DifferenceOfSum(o: int, s: int, a: int, k: int)
    requires 0 <= o < 256 && 0 <= s < 256 && 0 <= a < 256
    requires o + s == a + k && k == (if o + s >= 256 then 256 else 0)
    ensures o == if a >= s then a - s else a - s + 256
  {
  }

  /** If `d + s == a` in bytes, then `d` is `a - s` as integers, plus 256
      when that is negative. */
  lemma ByteDifferenceValue(d: bv8, s: bv8, a: bv8)
    requires d + s == a
    ensures d as int == if a as int >= s as int then a as int - s as int else a as int - s as int + 256
  {
    ByteSumValue(d, s);
    assert (d + s) as int == a as int;
    DifferenceOfSum(d as int, s as int, a as int, if d as int + s as int >= 256 then 256 else 0);
  }

  /** A difference of two bytes, wrapped into 0..255, is its value modulo 256. */
  lemma WrappedIsMod(o: int, n: int)
    requires -256 < n < 256 && o == (if n >= 0 then n else n + 256)
    ensures o == n % 256
  {
  }

  /** SUB/SBC against integer arithmetic: the result is `a` minus the
      subtrahend, modulo 256. */
  lemma SubValue(a: bv8, b: bv8)
    ensures Sub8(a, b).out as int == (a as int - b as int) % 256
  {
    var d := Sub8(a, b).out;
    ByteDifferenceValue(d, b, a);
    WrappedIsMod(d as int, a as int - b as int);
  }

  /** Byte order agrees with integer order. */
  lemma ByteOrder(x: bv8, y: bv8)
    ensures x < y <==> x as int < y as int
  {
  }

  /** SUB/SBC's C says the subtrahend exceeds `a`. */
  lemma SubBorrowValue(a: bv8, b: bv8)
    ensures Sub8(a, b).c <==> a as int < b as int
  {
    assert Sub8(a, b).c == (a < b);
    ByteOrder(a, b);
  }

  /** SUB/SBC's H says the low nibble of the subtrahend exceeds that of `a`. */
  lemma SubHalfBorrowValue(a: bv8, b: bv8)
    ensures Sub8(a, b).h <==> a as int % 16 < b as int % 16
  {
    assert Sub8(a, b).h == (a & 0x0F < b & 0x0F);
    ByteOrder(a & 0x0F, b & 0x0F);
    NibbleValue(a);
    NibbleValue(b);
  }

  /** The 16-bit addition done as two byte additions, low byte first, the
      carry of the first fed into the second: the word add of ADD HL,ss,
      ADD SP,e and LDHL SP,e has the same result. */
  lemma Add16ByBytes(a: bv16, b: bv16)
    ensures Lo(Add16(a, b).out) == Add8(Lo(a), Lo(b), 0).out
    ensures Hi(Add16(a, b).out) == Add8(Hi(a), Hi(b), if Add8(Lo(a), Lo(b), 0).c then 1 else 0).out
  {
  }

  /** ... and its carry is the carry out of the high byte addition. */
  lemma Add16CarryByBytes(a: bv16, b: bv16)
    ensures Add16(a, b).c <==> Hi(a) as bv16 + Hi(b) as bv16 + (if Add8(Lo(a), Lo(b), 0).c then 1 else 0) > 0xFF
  {
  }

  /** SUB undoes ADD, and the subtraction borrows exactly when the addition
      carried. */
  lemma SubUndoesAdd(a: bv8, b: bv8)
    ensures Sub8(Add8(a, b, 0).out, b).out == a
    ensures Sub8(Add8(a, b, 0).out, b).c == Add8(a, b, 0).c
    ensures Sub8(Add8(a, b, 0).out, b).h == Add8(a, b, 0).h
  {
  }

  /** CP agrees with SUB on Z and C, but its H means "b < a", not a borrow
      out of bit 3: for 0x12 - 0x01 SUB lowers H while CP raises it. */
  lemma CompareAgainstSub(a: bv8, b: bv8)
    ensures Compare(a, b).z == Sub8(a, b).z
    ensures Compare(a, b).c == Sub8(a, b).c
    ensures Compare(0x12, 0x01).h && !Sub8(0x12, 0x01).h
  {
  }

  /** ADC's carry and half-carry ignore the carry-in: 0xFF + 0x00 + 1 wraps
      to 0 but C stays clear, and 0x0F + 0x00 + 1 crosses bit 3 but H stays
      clear. */
  lemma AddCarryIgnoresCarryIn(a: bv8, b: bv8)
    ensures Add8(a, b, 1).c == Add8(a, b, 0).c
    ensures Add8(a, b, 1).h == Add8(a, b, 0).h
    ensures Add8(0xFF, 0x00, 1).out == 0 && !Add8(0xFF, 0x00, 1).c
    ensures Add8(0x0F, 0x00, 1).out == 0x10 && !Add8(0x0F, 0x00, 1).h
  {
  }

  /** DEC undoes INC and INC undoes DEC. */
  lemma IncDecInverse(v: bv8)
    ensures Dec8(Inc8(v).out).out == v
    ensures Inc8(Dec8(v).out).out == v
  {
  }

  /** AND acts bit by bit. */
  lemma AndByBits(a: bv8, b: bv8, i: bv8)
    requires i < 8
    ensures Bit(And8(a, b).out, i) <==> Bit(a, i) && Bit(b, i)
  {
    assert And8(a, b).out == a & b;
  }

  /** OR acts bit by bit. */
  lemma OrByBits(a: bv8, b: bv8, i: bv8)
    requires i < 8
    ensures Bit(Or8(a, b).out, i) <==> Bit(a, i) || Bit(b, i)
  {
    assert Or8(a, b).out == a | b;
  }

  /** AND acts on all eight bits at once. */
  lemma AndAllBits(a: bv8, b: bv8)
    ensures forall k: bv8 :: k < 8 ==> (Bit(And8(a, b).out, k) <==> Bit(a, k) && Bit(b, k))
  {
    forall k: bv8 | k < 8
      ensures Bit(And8(a, b).out, k) <==> Bit(a, k) && Bit(b, k)
    {
      AndByBits(a, b, k);
    }
  }

  /** OR acts on all eight bits at once. */
  lemma OrAllBits(a: bv8, b: bv8)
    ensures forall k: bv8 :: k < 8 ==> (Bit(Or8(a, b).out, k) <==> Bit(a, k) || Bit(b, k))
  {
    forall k: bv8 | k < 8
      ensures Bit(Or8(a, b).out, k) <==> Bit(a, k) || Bit(b, k)
    {
      OrByBits(a, b, k);
    }
  }

  /** XOR acts bit by bit. */
  lemma XorByBits(a: bv8, b: bv8, i: bv8)
    requires i < 8
    ensures Bit(Xor8(a, b).out, i) <==> Bit(a, i) != Bit(b, i)
  {
    assert Xor8(a, b).out == a ^ b;
  }

  /** RRC undoes RLC and RLC undoes RRC. */
  lemma PlainRotationsInverse(x: bv8, cin: bv8)
    ensures RotateWithC(RotateWithC(x, cin, true, false).out, cin, false, false).out == x
    ensures RotateWithC(RotateWithC(x, cin, false, false).out, cin, true, false).out == x
  {
    assert RotateWithC(x, cin, true, false).out == RotateLeft(x);
    assert RotateWithC(RotateLeft(x), cin, false, false).out == RotateRight(RotateLeft(x));
    assert RotateWithC(x, cin, false, false).out == RotateRight(x);
    assert RotateWithC(RotateRight(x), cin, true, false).out == RotateLeft(RotateRight(x));
  }

  /** RR undoes RL, and RL undoes RR, when the carry out of the first
      rotation is fed back as the carry in of the second: the nine bits of
      A and C rotate as one ring. */
  lemma CarryRotationsInverse(x: bv8, cin: bv8)
    ensures var l := RotateWithC(x, cin, true, true);
            RotateWithC(l.out, if l.c then 1 else 0, false, true).out == x
    ensures var r := RotateWithC(x, cin, false, true);
            RotateWithC(r.out, if r.c then 1 else 0, true, true).out == x
  {
  }

  /** SRA halves the signed value, rounding towards minus infinity. */
  lemma ShiftRightArithmeticHalves(v: bv8)
    ensures Signed(ShiftRightArithmetic(v).out) == Signed(v) / 2
  {
  }

  /** BIT reads back what SET and RES wrote. */
  lemma TestAfterSetReset(v: bv8, b: bv8)
    requires b < 8
    ensures !TestBit(SetBit(v, b), b)
    ensures TestBit(ResetBit(v, b), b)
  {
  }

  /** SET and RES of one bit overwrite each other, and SET changes nothing
      exactly when the bit is already set. */
  lemma SetResetOverwrite(v: bv8, b: bv8)
    requires b < 8
    ensures ResetBit(SetBit(v, b), b) == ResetBit(v, b)
    ensures SetBit(ResetBit(v, b), b) == SetBit(v, b)
    ensures SetBit(v, b) == v <==> Bit(v, b)
  {
  }

  /** A byte holding two decimal digits. */
  predicate IsBcd(x: bv8) {
    x & 0x0F <= 9 && x >> 4 <= 9
  }

  /** DAA leaves a valid two-digit BCD byte alone when no flag asks for a
      correction, after an addition and after a subtraction alike. */
  lemma DaaKeepsBcd(x: bv8)
    requires IsBcd(x)
    ensures Daa(x, false, false, false) == DaaResult(x, false)
    ensures Daa(x, true, false, false) == DaaResult(x, false)
  {
  }

  /** After an addition, a low digit past 9 is carried into the high digit:
      DAA adds 6 and the result is valid BCD again. */
  lemma DaaCarriesLowDigit(x: bv8)
    requires x & 0x0F > 9 && x >> 4 <= 8
    ensures Daa(x, false, false, false).out == x + 0x06
    ensures IsBcd(Daa(x, false, false, false).out)
    ensures !Daa(x, false, false, false).setC
  {
  }

  /** The number two BCD digits stand for. */
  function BcdValue(x: bv8): (v: nat)
    requires IsBcd(x)
    ensures v < 100
  {
    10 * (x >> 4) as int + (x & 0x0F) as int
  }

  /** A byte is sixteen times its high nibble plus its low nibble. */
  lemma NibblesValue(x: bv8)
    ensures x as int == 16 * (x >> 4) as int + (x & 0x0F) as int
    ensures (x & 0x0F) as int < 16
  {
  }

  /** DAA after an addition against integer arithmetic: the byte plus 6
      when the low digit needs it and plus 0x60 when the high one does,
      modulo 256. */
  lemma {:induction false} DaaAddValue(a: bv8, h: bool, c: bool)
    ensures Daa(a, false, h, c).out as int
      == (a as int + (if h || a as int % 16 > 9 then 6 else 0) + (if c || a as int > 0x99 then 0x60 else 0)) % 256
  {
    var low := h || a as int % 16 > 9;
    var high := c || a as int > 0x99;
    var correction: bv8 := (if low then 0x06 else 0x00) + (if high then 0x60 else 0x00);
    DaaAddTests(a, h, c, low, high);
    DaaAddOut(a, h, c, low, high, correction);
    CorrectionValue(low, high, correction);
    ByteSumMod(a, correction);
  }

  /** DAA's two tests after an addition, read on the integer value. */
  lemma {:induction false} DaaAddTests(a: bv8, h: bool, c: bool, low: bool, high: bool)
    requires low <==> h || a as int % 16 > 9
    requires high <==> c || a as int > 0x99
    ensures low <==> h || a & 0x0F > 0x09
    ensures high <==> c || a > 0x99
  {
    NibbleValue(a);
  }

  /** DAA after an addition adds one correction byte. */
  lemma {:induction false} DaaAddOut(a: bv8, h: bool, c: bool, low: bool, high: bool, correction: bv8)
    requires low <==> h || a & 0x0F > 0x09
    requires high <==> c || a > 0x99
    requires correction == (if low then 0x06 else 0x00) + (if high then 0x60 else 0x00)
    ensures Daa(a, false, h, c).out == a + correction
  {
  }

  /** The value of DAA's correction byte after an addition. */
  lemma {:induction false} CorrectionValue(low: bool, high: bool, correction: bv8)
    requires correction == (if low then 0x06 else 0x00) + (if high then 0x60 else 0x00)
    ensures correction as int == (if low then 6 else 0) + (if high then 0x60 else 0)
  {
  }

  /** Byte addition is integer addition modulo 256. */
  lemma {:induction false} ByteSumMod(x: bv8, y: bv8)
    ensures (x + y) as int == (x as int + y as int) % 256
  {
    ByteSumValue(x, y);
    var k := if x as int + y as int >= 256 then 256 else 0;
    ModOfOneWrap(x as int + y as int, (x + y) as int, k, 256);
  }

  /** A number written with a hexadecimal digit `u` and the rest `q`. */
  lemma DigitSplit16(q: int, u: int)
    requires 0 <= u < 16
    ensures (16 * q + u) % 16 == u && (16 * q + u) / 16 == q
  {
  }

  /** A number written with a decimal digit `u` and the rest `q`. */
  lemma DigitSplit10(q: int, u: int)
    requires 0 <= u < 10
    ensures (10 * q + u) % 10 == u && (10 * q + u) / 10 == q
  {
  }

  /** The binary sum of two BCD bytes, `16 * tens + units`, wrapped to a
      byte: DAA's low correction is made exactly when the units reach 10. */
  lemma {:induction false} DecimalUnits(tens: int, units: int, a: int)
    requires 0 <= tens <= 18 && 0 <= units <= 18
    requires a == (16 * tens + units) % 256
    ensures (units > 15 || a % 16 > 9) <==> units >= 10
  {
    var sum := 16 * tens + units;
    var k := if sum >= 256 then 256 else 0;
    ModOfOneWrap(sum, sum - k, k, 256);
    var hi := if units >= 16 then tens - (k / 16) + 1 else tens - (k / 16);
    var lo := if units >= 16 then units - 16 else units;
    assert a == 16 * hi + lo;
    DigitSplit16(hi, lo);
  }

  /** DAA's high correction after adding two BCD bytes is made exactly when
      the binary sum passes 0x99. */
  lemma {:induction false} DecimalHigh(sum: int, a: int)
    requires 0 <= sum < 512 && a == sum % 256
    ensures (sum > 255 || a > 0x99) <==> sum > 0x99
  {
    if sum >= 256 { ModOfOneWrap(sum, sum - 256, 256, 256); } else { ModOfOneWrap(sum, sum, 0, 256); }
  }

  /** DAA's carry after an addition, as an integer comparison. */
  lemma {:induction false} DaaAddCarry(a: bv8, h: bool, c: bool)
    ensures Daa(a, false, h, c).setC <==> c || a as int > 0x99
  {
  }

  /** The digits of a BCD byte are at most 9 as integers. */
  lemma {:induction false} BcdDigits(x: bv8)
    requires IsBcd(x)
    ensures 0 <= (x >> 4) as int <= 9 && 0 <= (x & 0x0F) as int <= 9
    ensures BcdValue(x) == 10 * (x >> 4) as int + (x & 0x0F) as int
  {
  }

  /** A byte whose two nibbles are at most 9 as integers is BCD, and stands
      for ten times its high nibble plus its low one. */
  lemma {:induction false} BcdFromDigits(b: bv8)
    requires (b >> 4) as int <= 9 && (b & 0x0F) as int <= 9
    ensures IsBcd(b) && BcdValue(b) == 10 * (b >> 4) as int + (b & 0x0F) as int
  {
  }

  /** The binary sum `16 * tens + units` of two BCD bytes, wrapped to a
      byte, loses 256 exactly when it passes 255. */
  lemma {:induction false} DecimalWrap(tens: int, units: int, a: int)
    requires 0 <= tens <= 18 && 0 <= units <= 18 && a == (16 * tens + units) % 256
    ensures a == 16 * tens + units - (if 16 * tens + units >= 256 then 256 else 0)
  {
    var sum := 16 * tens + units;
    if sum >= 256 { ModOfOneWrap(sum, sum - 256, 256, 256); } else { ModOfOneWrap(sum, sum, 0, 256); }
  }

  /** DAA's corrections applied to the wrapped binary sum `a`: the low one
      carries ten units into the tens, the high one drops ten tens, and the
      byte that results holds the remaining tens and units as base-16 digits. */
  lemma {:induction false} DecimalCorrection(tens: int, units: int, a: int, low: bool, high: bool, r: int)
    requires 0 <= tens <= 18 && 0 <= units <= 18
    requires a == 16 * tens + units - (if 16 * tens + units >= 256 then 256 else 0)
    requires low <==> units >= 10
    requires high <==> 16 * tens + units > 0x99
    requires r == (a + (if low then 6 else 0) + (if high then 0x60 else 0)) % 256
    ensures high <==> 10 * tens + units >= 100
    ensures var u := if low then units - 10 else units;
      var t := (if low then tens + 1 else tens) - (if high then 10 else 0);
      && 0 <= u < 10 && 0 <= t < 10
      && r == 16 * t + u
      && 10 * t + u == 10 * tens + units - (if high then 100 else 0)
  {
    var u := if low then units - 10 else units;
    var t := (if low then tens + 1 else tens) - (if high then 10 else 0);
    var k := if 16 * tens + units >= 256 then 256 else 0;
    var n := a + (if low then 6 else 0) + (if high then 0x60 else 0);
    assert n == 16 * t + u + (if high then 256 else 0) - k;
    ModOfOneWrap(n, 16 * t + u, (if high then 256 else 0) - k, 256);
  }

  /** The integer core of decimal addition: two BCD numbers with tens
      `xh`, `yh` and units `xl`, `yl` added as a binary byte, then corrected
      as DAA does, give the digits of the decimal sum modulo 100, and the
      high correction is made exactly when the decimal sum reaches 100. */
  lemma {:induction false} DecimalAddCore(xh: int, xl: int, yh: int, yl: int)
    requires 0 <= xh <= 9 && 0 <= xl <= 9 && 0 <= yh <= 9 && 0 <= yl <= 9
    ensures var sum := 16 * (xh + yh) + xl + yl;
      var a := sum % 256;
      var low := xl + yl > 15 || a % 16 > 9;
      var high := sum > 255 || a > 0x99;
      var r := (a + (if low then 6 else 0) + (if high then 0x60 else 0)) % 256;
      var d := 10 * (xh + yh) + xl + yl;
      && r % 16 == d % 100 % 10
      && r / 16 == d % 100 / 10
      && (high <==> d >= 100)
  {
    var sum := 16 * (xh + yh) + xl + yl;
    var a := sum % 256;
    var d := 10 * (xh + yh) + xl + yl;
    DecimalUnits(xh + yh, xl + yl, a);
    DecimalHigh(sum, a);
    DecimalWrap(xh + yh, xl + yl, a);
    var low := xl + yl > 15 || a % 16 > 9;
    var high := sum > 255 || a > 0x99;
    var r := (a + (if low then 6 else 0) + (if high then 0x60 else 0)) % 256;
    DecimalCorrection(xh + yh, xl + yl, a, low, high, r);
    var u := if low then xl + yl - 10 else xl + yl;
    var t := (if low then xh + yh + 1 else xh + yh) - (if high then 10 else 0);
    DigitSplit16(t, u);
    ModOfOneWrap(d, 10 * t + u, if high then 100 else 0, 100);
    DigitSplit10(t, u);
  }

  /** ADD of two BCD bytes in terms of their digits: the byte sum, and H
      and C as integer comparisons. */
  lemma {:induction false} AddOfDigits(x: bv8, y: bv8, xh: int, xl: int, yh: int, yl: int)
    requires xh == (x >> 4) as int && xl == (x & 0x0F) as int
    requires yh == (y >> 4) as int && yl == (y & 0x0F) as int
    ensures Add8(x, y, 0).out as int == (16 * (xh + yh) + xl + yl) % 256
    ensures Add8(x, y, 0).h <==> xl + yl > 15
    ensures Add8(x, y, 0).c <==> 16 * (xh + yh) + xl + yl > 255
    ensures !Add8(x, y, 0).n
  {
    NibblesValue(x);
    NibblesValue(y);
    NibbleValue(x);
    NibbleValue(y);
    AddValue(x, y, 0);
    AddCarryValue(x, y, 0);
    AddHalfCarryValue(x, y, 0);
  }

  /** The two digits of a byte, as integer division and remainder by 16. */
  lemma {:induction false} DigitsOfByte(x: bv8)
    ensures (x & 0x0F) as int == x as int % 16
    ensures (x >> 4) as int == x as int / 16
  {
    NibblesValue(x);
    DigitSplit16((x >> 4) as int, (x & 0x0F) as int);
  }

  /** `DecimalAddCore` restated over the values ADD and DAA produce. */
  lemma {:induction false} DecimalResult(xh: int, xl: int, yh: int, yl: int, sv: int, h: bool, c: bool, rv: int, setC: bool)
    requires 0 <= xh <= 9 && 0 <= xl <= 9 && 0 <= yh <= 9 && 0 <= yl <= 9
    requires sv == (16 * (xh + yh) + xl + yl) % 256
    requires (h <==> xl + yl > 15) && (c <==> 16 * (xh + yh) + xl + yl > 255)
    requires rv == (sv + (if h || sv % 16 > 9 then 6 else 0) + (if c || sv > 0x99 then 0x60 else 0)) % 256
    requires setC <==> c || sv > 0x99
    ensures rv % 16 <= 9 && rv / 16 <= 9
    ensures 10 * (rv / 16) + rv % 16 == (10 * (xh + yh) + xl + yl) % 100
    ensures setC <==> 10 * (xh + yh) + xl + yl >= 100
  {
    DecimalAddCore(xh, xl, yh, yl);
    var d := 10 * (xh + yh) + xl + yl;
    DigitSplit10(d % 100 / 10, d % 100 % 10);
  }

  /** A byte whose value has decimal-sized digits in base 16 is BCD and
      stands for those two digits. */
  lemma {:induction false} ResultDigits(out: bv8, rv: int)
    requires rv == out as int && rv % 16 <= 9 && rv / 16 <= 9
    ensures IsBcd(out) && BcdValue(out) == 10 * (rv / 16) + rv % 16
  {
    DigitsOfByte(out);
    BcdFromDigits(out);
  }

  /** Decimal addition over the bytes and flags ADD and DAA produce, given
      as their integer descriptions: `sv` with flags `h`, `c` is the binary
      sum of BCD bytes `x` and `y`, and `out` (of value `rv`) with `setC` is
      what DAA's corrections make of it. */
  lemma {:induction false} DecimalAddBytes(x: bv8, y: bv8, xh: int, xl: int, yh: int, yl: int,
                                           sv: int, h: bool, c: bool, out: bv8, rv: int, setC: bool)
    requires IsBcd(x) && IsBcd(y)
    requires xh == (x >> 4) as int && xl == (x & 0x0F) as int
    requires yh == (y >> 4) as int && yl == (y & 0x0F) as int
    requires sv == (16 * (xh + yh) + xl + yl) % 256
    requires h <==> xl + yl > 15
    requires c <==> 16 * (xh + yh) + xl + yl > 255
    requires rv == out as int
    requires rv == (sv + (if h || sv % 16 > 9 then 6 else 0) + (if c || sv > 0x99 then 0x60 else 0)) % 256
    requires setC <==> c || sv > 0x99
    ensures IsBcd(out)
    ensures BcdValue(out) == (BcdValue(x) + BcdValue(y)) % 100
    ensures setC <==> BcdValue(x) + BcdValue(y) >= 100
  {
    BcdDigits(x);
    BcdDigits(y);
    DecimalResult(xh, xl, yh, yl, sv, h, c, rv, setC);
    ResultDigits(out, rv);
  }

  /** ADD then DAA is decimal addition: for two valid BCD bytes the result
      is the BCD byte of their decimal sum modulo 100, and C is set exactly
      when that sum reaches 100. */
  lemma {:induction false} DaaAfterAdd(x: bv8, y: bv8)
    requires IsBcd(x) && IsBcd(y)
    ensures var s := Add8(x, y, 0); var r := Daa(s.out, s.n, s.h, s.c);
      && IsBcd(r.out)
      && BcdValue(r.out) == (BcdValue(x) + BcdValue(y)) % 100
      && (r.setC <==> BcdValue(x) + BcdValue(y) >= 100)
  {
    var s := Add8(x, y, 0);
    var r := Daa(s.out, s.n, s.h, s.c);
    var xh, xl, yh, yl := (x >> 4) as int, (x & 0x0F) as int, (y >> 4) as int, (y & 0x0F) as int;
    AddOfDigits(x, y, xh, xl, yh, yl);
    DaaAddValue(s.out, s.h, s.c);
    DaaAddCarry(s.out, s.h, s.c);
    DecimalAddBytes(x, y, xh, xl, yh, yl, s.out as int, s.h, s.c, r.out, r.out as int, r.setC);
  }

  /** SUB of two BCD bytes in terms of their digits: the byte difference,
      and H and C as integer comparisons. */
  lemma {:induction false} SubOfDigits(x: bv8, y: bv8, xh: int, xl: int, yh: int, yl: int)
    requires xh == (x >> 4) as int && xl == (x & 0x0F) as int
    requires yh == (y >> 4) as int && yl == (y & 0x0F) as int
    ensures Sub8(x, y).out as int == (16 * (xh - yh) + xl - yl) % 256
    ensures Sub8(x, y).h <==> xl < yl
    ensures Sub8(x, y).c <==> 16 * (xh - yh) + xl - yl < 0
    ensures Sub8(x, y).n
  {
    NibblesValue(x);
    NibblesValue(y);
    NibbleValue(x);
    NibbleValue(y);
    SubValue(x, y);
    SubBorrowValue(x, y);
    SubHalfBorrowValue(x, y);
  }

  /** DAA after a subtraction takes one correction byte away. */
  lemma {:induction false} DaaSubOut(a: bv8, h: bool, c: bool, correction: bv8)
    requires correction == (if h then 0x06 else 0x00) + (if c then 0x60 else 0x00)
    ensures Daa(a, true, h, c).out + correction == a
    ensures Daa(a, true, h, c).setC == c
  {
  }

  /** DAA after a subtraction against integer arithmetic: the byte less 6
      when H is set and less 0x60 when C is set, modulo 256. */
  lemma {:induction false} DaaSubValue(a: bv8, h: bool, c: bool)
    ensures Daa(a, true, h, c).out as int == (a as int - (if h then 6 else 0) - (if c then 0x60 else 0)) % 256
  {
    var correction: bv8 := (if h then 0x06 else 0x00) + (if c then 0x60 else 0x00);
    var out := Daa(a, true, h, c).out;
    DaaSubOut(a, h, c, correction);
    CorrectionValue(h, c, correction);
    ByteDifferenceValue(out, correction, a);
    WrappedIsMod(out as int, a as int - correction as int);
  }

  /** The integer core of decimal subtraction: two BCD numbers with tens
      `xh`, `yh` and units `xl`, `yl` subtracted as a binary byte, then
      corrected as DAA does after a subtraction, give the digits of the
      decimal difference modulo 100, and C is set exactly when that
      difference is negative. */
  lemma {:induction false} DecimalSubCore(xh: int, xl: int, yh: int, yl: int, sv: int, h: bool, c: bool, rv: int)
    requires 0 <= xh <= 9 && 0 <= xl <= 9 && 0 <= yh <= 9 && 0 <= yl <= 9
    requires sv == (16 * (xh - yh) + xl - yl) % 256
    requires (h <==> xl < yl) && (c <==> 16 * (xh - yh) + xl - yl < 0)
    requires rv == (sv - (if h then 6 else 0) - (if c then 0x60 else 0)) % 256
    ensures rv % 16 <= 9 && rv / 16 <= 9
    ensures 10 * (rv / 16) + rv % 16 == (10 * (xh - yh) + xl - yl) % 100
    ensures c <==> 10 * (xh - yh) + xl - yl < 0
  {
    var v := 16 * (xh - yh) + xl - yl;
    if v < 0 { ModOfOneWrap(v, v + 256, -256, 256); } else { ModOfOneWrap(v, v, 0, 256); }
    var u := xl - yl + (if h then 10 else 0);
    var t := xh - yh - (if h then 1 else 0) + (if c then 10 else 0);
    assert c <==> xh - yh - (if h then 1 else 0) < 0;
    var n := sv - (if h then 6 else 0) - (if c then 0x60 else 0);
    assert n == 16 * t + u;
    ModOfOneWrap(n, n, 0, 256);
    DigitSplit16(t, u);
    var d := 10 * (xh - yh) + xl - yl;
    ModOfOneWrap(d, 10 * t + u, if c then -100 else 0, 100);
  }

  /** Decimal subtraction over the byte SUB and DAA produce: `out`, of
      value `rv`, holds in base-16 digits the decimal difference `d` of the
      BCD bytes `x` and `y` modulo 100, and `borrow` says `d` is negative. */
  lemma {:induction false} DecimalSubBytes(x: bv8, y: bv8, d: int, out: bv8, rv: int, borrow: bool)
    requires IsBcd(x) && IsBcd(y)
    requires d == 10 * ((x >> 4) as int - (y >> 4) as int) + (x & 0x0F) as int - (y & 0x0F) as int
    requires rv == out as int && rv % 16 <= 9 && rv / 16 <= 9
    requires 10 * (rv / 16) + rv % 16 == d % 100
    requires borrow <==> d < 0
    ensures IsBcd(out)
    ensures BcdValue(out) == (BcdValue(x) - BcdValue(y)) % 100
    ensures borrow <==> BcdValue(x) < BcdValue(y)
  {
    BcdDigits(x);
    BcdDigits(y);
    ResultDigits(out, rv);
  }

  /** SUB then DAA on two BCD bytes, as integers: the result's base-16
      digits are decimal digits spelling the difference modulo 100, and C
      says the difference is negative. */
  lemma {:induction false} SubDaaDigits(x: bv8, y: bv8, xh: int, xl: int, yh: int, yl: int, out: bv8, setC: bool)
    requires xh == (x >> 4) as int && xl == (x & 0x0F) as int
    requires yh == (y >> 4) as int && yl == (y & 0x0F) as int
    requires 0 <= xh <= 9 && 0 <= xl <= 9 && 0 <= yh <= 9 && 0 <= yl <= 9
    requires out == Daa(Sub8(x, y).out, true, Sub8(x, y).h, Sub8(x, y).c).out
    requires setC == Daa(Sub8(x, y).out, true, Sub8(x, y).h, Sub8(x, y).c).setC
    ensures out as int % 16 <= 9 && out as int / 16 <= 9
    ensures 10 * (out as int / 16) + out as int % 16 == (10 * (xh - yh) + xl - yl) % 100
    ensures setC <==> 10 * (xh - yh) + xl - yl < 0
  {
    var s := Sub8(x, y);
    SubOfDigits(x, y, xh, xl, yh, yl);
    DaaSubValue(s.out, s.h, s.c);
    DecimalSubCore(xh, xl, yh, yl, s.out as int, s.h, s.c, out as int);
  }

  /** SUB then DAA is decimal subtraction: for two valid BCD bytes the
      result is the BCD byte of their decimal difference modulo 100, and C
      is set exactly when the subtrahend is the larger. */
  lemma {:induction false} DaaAfterSub(x: bv8, y: bv8)
    requires IsBcd(x) && IsBcd(y)
    ensures var s := Sub8(x, y); var r := Daa(s.out, s.n, s.h, s.c);
      && IsBcd(r.out)
      && BcdValue(r.out) == (BcdValue(x) - BcdValue(y)) % 100
      && (r.setC <==> BcdValue(x) < BcdValue(y))
  {
    var s := Sub8(x, y);
    var r := Daa(s.out, true, s.h, s.c);
    assert Daa(s.out, s.n, s.h, s.c) == r;
    var xh, xl, yh, yl := (x >> 4) as int, (x & 0x0F) as int, (y >> 4) as int, (y & 0x0F) as int;
    BcdDigits(x);
    BcdDigits(y);
    SubDaaDigits(x, y, xh, xl, yh, yl, r.out, r.setC);
    DecimalSubBytes(x, y, 10 * (xh - yh) + xl - yl, r.out, r.out as int, r.setC);
  }

  /** ADC then DAA is not decimal addition with carry: 08 + 07 + 1 = 16,
      but the carry-in does not raise H, so DAA leaves 0x10. */
  lemma AdcDaaMissesCarry()
    ensures var s := Add8(0x08, 0x07, 1);
      && s.out == 0x10 && !s.h
      && Daa(s.out, s.n, s.h, s.c) == DaaResult(0x10, false)
  {
  }

  /** The decimal addition 45 + 38 = 83: ADD then DAA. */
  lemma DaaExample()
    ensures var s := Add8(0x45, 0x38, 0);
            Daa(s.out, s.n, s.h, s.c) == DaaResult(0x83, false)
  {
  }

  /** INC against integer arithmetic: the value plus one modulo 256, with H
      raised exactly when the low digit was 15. */
  lemma IncValue(v: bv8)
    ensures Inc8(v).out as int == (v as int + 1) % 256
    ensures Inc8(v).h <==> v as int % 16 == 15
  {
    assert Inc8(v).out == Add8(v, 1, 0).out;
    AddValue(v, 1, 0);
    assert Inc8(v).h == (v & 0x0F == 0x0F);
    NibbleValue(v);
  }

  /** DEC against integer arithmetic: the value minus one modulo 256, with H
      raised exactly when the low digit was 0. */
  lemma DecValue(v: bv8)
    ensures Dec8(v).out as int == (v as int - 1) % 256
    ensures Dec8(v).h <==> v as int % 16 == 0
  {
    assert Dec8(v).out == Sub8(v, 1).out;
    SubValue(v, 1);
    assert Dec8(v).h == (v & 0x0F == 0);
    NibbleValue(v);
  }
}

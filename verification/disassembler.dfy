/** The text disassembler of gobjdump.go: `decodeInstruction` reads one
    instruction from a byte stream and returns the bytes it consumed, a
    mnemonic and an operand text. Only the unprefixed 0x00-0x3F block is
    decoded; every other first byte comes back alone with empty texts. The
    stream is a byte sequence and the reader's position is the part of it
    still unread. */
module Disassembler {
  import opened Text
  import Bits

  /** gobjdump.go:11-20, indexed by bits 3-5. */
  const R8Names: seq<string> := ["b", "c", "d", "e", "h", "l", "[hl]", "a"]
  /** gobjdump.go:22-27, indexed by bits 4-5. */
  const R16SpNames: seq<string> := ["bc", "de", "hl", "sp"]
  /** gobjdump.go:29-34, indexed by bits 4-5. */
  const R16AfNames: seq<string> := ["bc", "de", "hl", "af"]
  /** gobjdump.go:36-45; `jr cc` uses the first four. */
  const Conditions: seq<string> := ["NZ", "Z", "NC", "C", "PO", "PE", "P", "M"]

  /** What one operand reader returns: the bytes it appended to the
      instruction, the text it appended to the operands, and the unread
      rest of the stream. */
  datatype Operand = Operand(bytes: seq<bv8>, text: string, rest: seq<bv8>)

  /** What `decodeInstruction` returns, with the unread rest of the stream. */
  datatype Decoded = Decoded(bytes: seq<bv8>, mnemonic: string, args: string, rest: seq<bv8>)

  /** `bytes` were taken from the front of `s` and `rest` is what is left
      unread: either the two make up `s`, or the stream is used up with one
      byte between them, the lone byte of a two-byte read that came up
      short. */
  ghost predicate Splits(s: seq<bv8>, bytes: seq<bv8>, rest: seq<bv8>) {
    && (|bytes| + |rest| == |s| || (rest == [] && |bytes| + 1 == |s|))
    && bytes == s[..|bytes|]
    && rest == s[|s| - |rest|..]
  }

  /** imm8 (gobjdump.go:48-55): one byte as `0x%02x`; nothing at the end of
      the stream. */
  function Imm8(s: seq<bv8>): (o: Operand)
    ensures Splits(s, o.bytes, o.rest)
    ensures |s| == 0 ==> o == Operand([], "", [])
    ensures |s| > 0 ==> o.bytes == [s[0]] && o.rest == s[1..] && o.text == Imm8Text(s[0])
  {
    if |s| == 0 then Operand([], "", []) else Operand([s[0]], Imm8Text(s[0]), s[1..])
  }

  /** imm8_s (gobjdump.go:57-65): one byte as signed decimal. */
  function Imm8Signed(s: seq<bv8>): (o: Operand)
    ensures Splits(s, o.bytes, o.rest)
    ensures |s| == 0 ==> o == Operand([], "", [])
    ensures |s| > 0 ==> o.bytes == [s[0]] && o.rest == s[1..] && o.text == SignedText(s[0])
    ensures |s| > 0 ==> ParseSigned(o.text) == Bits.Signed(s[0])
  {
    if |s| == 0 then Operand([], "", [])
    else
      SignedRoundTrip(s[0]);
      Operand([s[0]], SignedText(s[0]), s[1..])
  }

  /** imm16 (gobjdump.go:67-75): two bytes, little-endian, printed high
      byte first. `io.ReadFull` fails on a stream with fewer than two bytes
      and then nothing is appended, though a lone byte is still consumed. */
  function Imm16(s: seq<bv8>): (o: Operand)
    ensures Splits(s, o.bytes, o.rest)
    ensures |s| < 2 ==> o == Operand([], "", [])
    ensures |s| >= 2 ==> o.bytes == s[..2] && o.rest == s[2..] && o.text == Imm16Text(s[0], s[1])
  {
    if |s| < 2 then Operand([], "", []) else Operand(s[..2], Imm16Text(s[0], s[1]), s[2..])
  }

  /** imm16_addr (gobjdump.go:77-85): as imm16, inside brackets. */
  function Imm16Addr(s: seq<bv8>): (o: Operand)
    ensures Splits(s, o.bytes, o.rest)
    ensures |s| < 2 ==> o == Operand([], "", [])
    ensures |s| >= 2 ==> o.bytes == s[..2] && o.rest == s[2..] && o.text == Imm16AddrText(s[0], s[1])
  {
    if |s| < 2 then Operand([], "", []) else Operand(s[..2], Imm16AddrText(s[0], s[1]), s[2..])
  }

  /** Bits 4-5 of the opcode, the 16-bit register index. */
  function PairIndex(op: bv8): (k: nat)
    ensures k < 4
  {
    ((op & 0x30) >> 4) as nat
  }

  /** Bits 3-5 of the opcode, the 8-bit register index. */
  function RegIndex(op: bv8): (k: nat)
    ensures k < 8
  {
    ((op & 0x38) >> 3) as nat
  }

  /** r16_af_addr (gobjdump.go:87-90): `[name]` from the AF table. */
  function R16AfAddr(op: bv8): (t: string)
    ensures |t| == 4 && t[0] == '[' && t[3] == ']'
    ensures t[1..3] == R16AfNames[PairIndex(op)]
  {
    "[" + R16AfNames[PairIndex(op)] + "]"
  }

  /** r16_sp_addr (gobjdump.go:92-95): `[name]` from the SP table. */
  function R16SpAddr(op: bv8): (t: string)
    ensures |t| == 4 && t[0] == '[' && t[3] == ']'
    ensures t[1..3] == R16SpNames[PairIndex(op)]
  {
    "[" + R16SpNames[PairIndex(op)] + "]"
  }

  /** The two pair tables differ only in their last entry: `[af]` against
      `[sp]` for bits 4-5 equal to 3. */
  lemma {:induction false} AddrTablesDifferOnlyAtAf(op: bv8)
    ensures op & 0x30 != 0x30 <==> R16AfAddr(op) == R16SpAddr(op)
    ensures op & 0x30 == 0x30 ==> R16AfAddr(op) == "[af]" && R16SpAddr(op) == "[sp]"
  {
    if op & 0x30 == 0x30 {
      assert R16AfAddr(op)[1..3] != R16SpAddr(op)[1..3];
    }
  }

  /** Taking the opcode byte in front of a reader keeps the split. */
  lemma {:induction false} SplitsAfterOpcode(op: bv8, rest: seq<bv8>, bytes: seq<bv8>, left: seq<bv8>)
    requires Splits(rest, bytes, left)
    ensures Splits([op] + rest, [op] + bytes, left)
  {
    var s := [op] + rest;
    assert s[..|bytes| + 1] == [op] + rest[..|bytes|];
    assert s[|s| - |left|..] == rest[|rest| - |left|..];
  }

  /** An instruction whose operand comes from a reader, after a fixed
      operand prefix. */
  function WithOperand(op: bv8, mnemonic: string, prefix: string, rest: seq<bv8>, o: Operand): (d: Decoded)
    requires Splits(rest, o.bytes, o.rest)
    ensures Splits([op] + rest, d.bytes, d.rest)
    ensures d.bytes == [op] + o.bytes && d.rest == o.rest
    ensures d.mnemonic == mnemonic && d.args == prefix + o.text
  {
    SplitsAfterOpcode(op, rest, o.bytes, o.rest);
    Decoded([op] + o.bytes, mnemonic, prefix + o.text, o.rest)
  }

  /** An instruction with no operand bytes. */
  function Alone(op: bv8, mnemonic: string, args: string, rest: seq<bv8>): (d: Decoded)
    ensures Splits([op] + rest, d.bytes, d.rest)
    ensures d.bytes == [op] && d.rest == rest
    ensures d.mnemonic == mnemonic && d.args == args
  {
    assert ([op] + rest)[1..] == rest;
    Decoded([op], mnemonic, args, rest)
  }

  /** decodeJR_cond_E (gobjdump.go:109-114): the condition name is looked up
      at `((op & 0x38) >> 3) - 4` in 8-bit arithmetic, which lands in the
      table only for bits 3-5 of 4 to 7; the jump offset is printed by imm8,
      unsigned. */
  function DecodeJrCond(op: bv8, rest: seq<bv8>): (d: Decoded)
    requires op & 0x38 >= 0x20
    ensures Splits([op] + rest, d.bytes, d.rest)
    ensures d.mnemonic == "jr"
    ensures d.args == Conditions[RegIndex(op) - 4] + ", " + Imm8(rest).text
    ensures d.bytes == [op] + Imm8(rest).bytes && d.rest == Imm8(rest).rest
  {
    var k := (((op & 0x38) >> 3) - 4) as nat;
    WithOperand(op, "jr", Conditions[k] + ", ", rest, Imm8(rest))
  }

  /** Bits 0-2 equal to 0: nop, `ex af, af'`, djnz, jr and jr cc
      (gobjdump.go:235-261). */
  function DecodeColumn0(op: bv8, rest: seq<bv8>): (d: Decoded)
    requires op < 0x40 && op & 0x07 == 0
    ensures Splits([op] + rest, d.bytes, d.rest)
    ensures op < 0x10 ==> d.bytes == [op] && d.rest == rest
    ensures op >= 0x10 ==> d.bytes == [op] + Imm8(rest).bytes && d.rest == Imm8(rest).rest
    ensures d.mnemonic in {"nop", "ex", "djnz", "jr"}
    ensures op == 0x00 ==> d.mnemonic == "nop" && d.args == ""
    ensures op == 0x08 ==> d.mnemonic == "ex" && d.args == "af, af'"
    ensures op == 0x10 ==> d.mnemonic == "djnz" && d.args == Imm8Signed(rest).text
    ensures op == 0x18 ==> d.mnemonic == "jr" && d.args == Imm8(rest).text
    ensures op >= 0x20 ==> d.mnemonic == "jr"
  {
    match op & 0x38
    case 0x00 => Alone(op, "nop", "", rest)
    case 0x08 => Alone(op, "ex", "af, af'", rest)
    case 0x10 => WithOperand(op, "djnz", "", rest, Imm8Signed(rest))
    case 0x18 => WithOperand(op, "jr", "", rest, Imm8(rest))
    case _ => DecodeJrCond(op, rest)
  }

  /** Bits 0-2 equal to 1: `ld r16, nn` and `add hl, r16`
      (gobjdump.go:262-271). */
  function DecodeColumn1(op: bv8, rest: seq<bv8>): (d: Decoded)
    requires op < 0x40 && op & 0x07 == 1
    ensures Splits([op] + rest, d.bytes, d.rest)
    ensures op & 0x08 != 0 ==> d.bytes == [op] && d.rest == rest
    ensures op & 0x08 == 0 ==> d.bytes == [op] + Imm16(rest).bytes && d.rest == Imm16(rest).rest
    ensures d.mnemonic == (if op & 0x08 == 0 then "ld" else "add")
    ensures op & 0x08 == 0 ==> d.args == R16SpNames[PairIndex(op)] + ", " + Imm16(rest).text
    ensures op & 0x08 != 0 ==> d.args == "hl, " + R16SpNames[PairIndex(op)]
  {
    if op & 0x08 == 0 then WithOperand(op, "ld", R16SpNames[PairIndex(op)] + ", ", rest, Imm16(rest))
    else Alone(op, "add", "hl, " + R16SpNames[PairIndex(op)], rest)
  }

  /** Bits 0-2 equal to 2: the accumulator and HL stores and loads
      through BC, DE or an immediate address (gobjdump.go:272-307). */
  function DecodeColumn2(op: bv8, rest: seq<bv8>): (d: Decoded)
    requires op < 0x40 && op & 0x07 == 2
    ensures Splits([op] + rest, d.bytes, d.rest)
    ensures op < 0x20 ==> d.bytes == [op] && d.rest == rest
    ensures op >= 0x20 ==> d.bytes == [op] + Imm16Addr(rest).bytes && d.rest == Imm16Addr(rest).rest
    ensures d.mnemonic == "ld"
    ensures op == 0x02 ==> d.args == "[bc], a"
    ensures op == 0x12 ==> d.args == "[de], a"
    ensures op == 0x22 ==> d.args == Imm16Addr(rest).text + ", hl"
    ensures op == 0x32 ==> d.args == Imm16Addr(rest).text + ", a"
    ensures op == 0x0A ==> d.args == "a, [bc]"
    ensures op == 0x1A ==> d.args == "a, [de]"
    ensures op == 0x2A ==> d.args == "hl, " + Imm16Addr(rest).text
    ensures op == 0x3A ==> d.args == "a, " + Imm16Addr(rest).text
  {
    if op & 0x08 == 0 then
      match op & 0x30
      case 0x00 => Alone(op, "ld", "[bc], a", rest)
      case 0x10 => Alone(op, "ld", "[de], a", rest)
      case 0x20 => WithOperand(op, "ld", "", rest, Imm16Addr(rest)).(args := Imm16Addr(rest).text + ", hl")
      case _ => WithOperand(op, "ld", "", rest, Imm16Addr(rest)).(args := Imm16Addr(rest).text + ", a")
    else
      match op & 0x30
      case 0x00 => Alone(op, "ld", "a, [bc]", rest)
      case 0x10 => Alone(op, "ld", "a, [de]", rest)
      case 0x20 => WithOperand(op, "ld", "hl, ", rest, Imm16Addr(rest))
      case _ => WithOperand(op, "ld", "a, ", rest, Imm16Addr(rest))
  }

  /** The one-byte mnemonics of bits 0-2 equal to 7, by bits 3-5
      (gobjdump.go:327-354). */
  function AccumulatorMnemonic(op: bv8): (m: string)
    ensures m in {"rlca", "rrca", "rla", "rra", "daa", "cpl", "scf", "ccf"}
  {
    ["rlca", "rrca", "rla", "rra", "daa", "cpl", "scf", "ccf"][RegIndex(op)]
  }

  /** Bits 0-2 equal to 3, 4, 5 or 7: the one-byte instructions, 16-bit
      and 8-bit inc and dec and the accumulator group (gobjdump.go:308-354). */
  function DecodeOneByte(op: bv8, rest: seq<bv8>): (d: Decoded)
    requires op < 0x40 && op & 0x07 in {3, 4, 5, 7}
    ensures Splits([op] + rest, d.bytes, d.rest)
    ensures d.bytes == [op] && d.rest == rest
    ensures d.mnemonic != ""
    ensures op & 0x07 == 3 ==> d.mnemonic == (if op & 0x08 == 0 then "inc" else "dec") && d.args == R16SpNames[PairIndex(op)]
    ensures op & 0x07 == 4 ==> d.mnemonic == "inc" && d.args == R8Names[RegIndex(op)]
    ensures op & 0x07 == 5 ==> d.mnemonic == "dec" && d.args == R8Names[RegIndex(op)]
    ensures op & 0x07 == 7 ==> d.mnemonic == AccumulatorMnemonic(op) && d.args == ""
  {
    match op & 0x07
    case 0x03 => Alone(op, if op & 0x08 == 0 then "inc" else "dec", R16SpNames[PairIndex(op)], rest)
    case 0x04 => Alone(op, "inc", R8Names[RegIndex(op)], rest)
    case 0x05 => Alone(op, "dec", R8Names[RegIndex(op)], rest)
    case _ => Alone(op, AccumulatorMnemonic(op), "", rest)
  }

  /** The length `decodeInstruction` gives each first byte when enough bytes
      follow: two for djnz, jr, jr cc and `ld r8, n`; three for `ld r16, nn`
      and the four immediate-address loads and stores; one otherwise. */
  function InstructionLength(op: bv8): (n: nat)
    ensures 1 <= n <= 3
  {
    if op >= 0x40 then 1
    else if op in {0x10, 0x18, 0x20, 0x28, 0x30, 0x38} || op & 0x07 == 0x06 then 2
    else if op & 0x0F == 0x01 || op in {0x22, 0x2A, 0x32, 0x3A} then 3
    else 1
  }

  /** The 0x00-0x3F block, dispatched on bits 0-2 (gobjdump.go:233-355). */
  function DecodeUnprefixed(op: bv8, rest: seq<bv8>): (d: Decoded)
    requires op < 0x40
    ensures Splits([op] + rest, d.bytes, d.rest)
    ensures d.mnemonic != ""
  {
    match op & 0x07
    case 0x00 => DecodeColumn0(op, rest)
    case 0x01 => DecodeColumn1(op, rest)
    case 0x02 => DecodeColumn2(op, rest)
    case 0x06 => WithOperand(op, "ld", R8Names[RegIndex(op)] + ", ", rest, Imm8(rest))
    case _ => DecodeOneByte(op, rest)
  }

  /** `InstructionLength` column by column, by bits 0-2 of the opcode. */
  lemma LengthByColumn(op: bv8)
    requires op < 0x40
    ensures op & 0x07 == 0 ==> InstructionLength(op) == if op < 0x10 then 1 else 2
    ensures op & 0x07 == 1 ==> InstructionLength(op) == if op & 0x08 == 0 then 3 else 1
    ensures op & 0x07 == 2 ==> InstructionLength(op) == if op < 0x20 then 1 else 3
    ensures op & 0x07 == 6 ==> InstructionLength(op) == 2
    ensures op & 0x07 in {3, 4, 5, 7} ==> InstructionLength(op) == 1
  {
  }

  /** The unprefixed block consumes `InstructionLength` bytes when they are
      there, and only the opcode, with the stream then used up, when they
      are not. */
  lemma {:induction false} UnprefixedLength(op: bv8, rest: seq<bv8>)
    requires op < 0x40
    ensures var d := DecodeUnprefixed(op, rest);
      && (|rest| >= InstructionLength(op) - 1 ==> |d.bytes| == InstructionLength(op) && |d.bytes| + |d.rest| == 1 + |rest|)
      && (|rest| < InstructionLength(op) - 1 ==> d.bytes == [op] && d.rest == [])
  {
    LengthByColumn(op);
  }

  /** decodeInstruction (gobjdump.go:211-362). An empty stream gives no
      bytes and empty texts. A first byte outside 0x00-0x3F, the prefixes
      0xCC, 0xDD, 0xED and 0xFD included, comes back alone with empty texts
      and consumes nothing more. What is returned is always taken from the
      front of the stream; at most one byte (a lone byte of a two-byte
      immediate) is consumed without being returned. */
  function DecodeInstruction(s: seq<bv8>): (d: Decoded)
    ensures Splits(s, d.bytes, d.rest)
    ensures d.bytes == [] <==> s == []
    ensures d.mnemonic == "" <==> s == [] || s[0] >= 0x40
    ensures s != [] && s[0] >= 0x40 ==> d == Decoded([s[0]], "", "", s[1..])
  {
    if |s| == 0 then Decoded([], "", "", [])
    else
      var op, rest := s[0], s[1..];
      assert s == [op] + rest;
      if op in {0xCC, 0xDD, 0xED, 0xFD} then Alone(op, "", "", rest)
      else if op & 0xC0 != 0 then Alone(op, "", "", rest)
      else
        assert op < 0x40;
        DecodeUnprefixed(op, rest)
  }

  /** With enough bytes in the stream, exactly `InstructionLength` bytes
      are consumed and returned, and the stream splits into them and the
      rest. */
  lemma {:induction false} LengthWhenAvailable(s: seq<bv8>)
    requires |s| > 0 && |s| >= InstructionLength(s[0])
    ensures |DecodeInstruction(s).bytes| == InstructionLength(s[0])
    ensures s == DecodeInstruction(s).bytes + DecodeInstruction(s).rest
  {
    var d := DecodeInstruction(s);
    if s[0] < 0x40 {
      assert d == DecodeUnprefixed(s[0], s[1..]);
      UnprefixedLength(s[0], s[1..]);
    }
    SplitsExactly(s, d.bytes, d.rest);
  }

  /** A split that loses no byte puts the stream back together. */
  lemma {:induction false} SplitsExactly(s: seq<bv8>, bytes: seq<bv8>, rest: seq<bv8>)
    requires Splits(s, bytes, rest) && |bytes| + |rest| == |s|
    ensures s == bytes + rest
  {
    assert s == s[..|bytes|] + s[|bytes|..];
  }

  /** A stream too short for the operand gives back only the first byte,
      and the stream is then used up. */
  lemma {:induction false} ShortStream(s: seq<bv8>)
    requires 0 < |s| < InstructionLength(s[0])
    ensures DecodeInstruction(s).bytes == [s[0]]
    ensures DecodeInstruction(s).rest == []
  {
    UnprefixedLength(s[0], s[1..]);
  }

  /** `jr cc` names NZ, Z, NC and C for 0x20, 0x28, 0x30 and 0x38: the
      same order as the condition field, bits 3-4, of the opcode. */
  lemma {:induction false} JrConditionNames(s: seq<bv8>)
    requires |s| >= 2 && s[0] in {0x20, 0x28, 0x30, 0x38}
    ensures DecodeInstruction(s).mnemonic == "jr"
    ensures var name := ["NZ", "Z", "NC", "C"][((s[0] >> 3) & 3) as int];
      DecodeInstruction(s).args == name + ", " + Imm8Text(s[1])
  {
  }

  /** The 8-bit register forms name their operand by bits 3-5, with index 6
      printed as `[hl]`. */
  lemma {:induction false} RegisterOperandNames(s: seq<bv8>)
    requires |s| >= 1 && s[0] < 0x40 && s[0] & 0x07 in {0x04, 0x05}
    ensures DecodeInstruction(s).args == R8Names[RegIndex(s[0])]
    ensures DecodeInstruction(s).args == "[hl]" <==> s[0] & 0x38 == 0x30
  {
  }

  /** Column 0 outside `jr cc`: `nop`, `ex af, af'`, `djnz` with the offset
      printed as a signed number, and `jr` with the offset printed by imm8. */
  lemma {:induction false} RelativeJumpTexts(s: seq<bv8>)
    requires |s| >= 1 && s[0] in {0x00, 0x08, 0x10, 0x18}
    ensures var d := DecodeInstruction(s);
      && (s[0] == 0x00 ==> d.mnemonic == "nop" && d.args == "")
      && (s[0] == 0x08 ==> d.mnemonic == "ex" && d.args == "af, af'")
      && (s[0] == 0x10 && |s| >= 2 ==> d.mnemonic == "djnz" && d.args == SignedText(s[1]) && ParseSigned(d.args) == Bits.Signed(s[1]))
      && (s[0] == 0x18 && |s| >= 2 ==> d.mnemonic == "jr" && d.args == Imm8Text(s[1]))
  {
    assert DecodeInstruction(s) == DecodeColumn0(s[0], s[1..]);
  }

  /** The 16-bit register forms (`ld r16, nn`, `add hl, r16`, `inc r16`,
      `dec r16`) name their register from the SP table by bits 4-5. */
  lemma {:induction false} WordRegisterNames(s: seq<bv8>)
    requires |s| >= 1 && s[0] < 0x40 && s[0] & 0x07 in {0x01, 0x03}
    ensures var d, name := DecodeInstruction(s), R16SpNames[((s[0] & 0x30) >> 4) as int];
      && (s[0] & 0x0F == 0x01 && |s| >= 3 ==> d.mnemonic == "ld" && d.args == name + ", " + Imm16Text(s[1], s[2]))
      && (s[0] & 0x0F == 0x09 ==> d.mnemonic == "add" && d.args == "hl, " + name)
      && (s[0] & 0x0F == 0x03 ==> d.mnemonic == "inc" && d.args == name)
      && (s[0] & 0x0F == 0x0B ==> d.mnemonic == "dec" && d.args == name)
  {
    if s[0] & 0x07 == 0x01 {
      assert DecodeInstruction(s) == DecodeColumn1(s[0], s[1..]);
    } else {
      assert DecodeInstruction(s) == DecodeOneByte(s[0], s[1..]);
    }
  }

  /** `ld r8, n` names its register by bits 3-5 and prints the immediate
      after it. */
  lemma {:induction false} LoadImmediateNames(s: seq<bv8>)
    requires |s| >= 2 && s[0] < 0x40 && s[0] & 0x07 == 0x06
    ensures DecodeInstruction(s).mnemonic == "ld"
    ensures DecodeInstruction(s).args == R8Names[((s[0] & 0x38) >> 3) as int] + ", " + Imm8Text(s[1])
  {
    assert DecodeInstruction(s) == DecodeUnprefixed(s[0], s[1..]);
  }

  /** The loads and stores of column 2: through BC and DE, and through an
      immediate address for HL and A. */
  lemma {:induction false} IndirectLoadTexts(s: seq<bv8>)
    requires |s| >= 1 && s[0] < 0x40 && s[0] & 0x07 == 0x02
    ensures DecodeInstruction(s).mnemonic == "ld"
    ensures var d := DecodeInstruction(s);
      && (s[0] == 0x02 ==> d.args == "[bc], a")
      && (s[0] == 0x12 ==> d.args == "[de], a")
      && (s[0] == 0x0A ==> d.args == "a, [bc]")
      && (s[0] == 0x1A ==> d.args == "a, [de]")
      && (s[0] == 0x22 && |s| >= 3 ==> d.args == Imm16AddrText(s[1], s[2]) + ", hl")
      && (s[0] == 0x32 && |s| >= 3 ==> d.args == Imm16AddrText(s[1], s[2]) + ", a")
      && (s[0] == 0x2A && |s| >= 3 ==> d.args == "hl, " + Imm16AddrText(s[1], s[2]))
      && (s[0] == 0x3A && |s| >= 3 ==> d.args == "a, " + Imm16AddrText(s[1], s[2]))
  {
    assert DecodeInstruction(s) == DecodeColumn2(s[0], s[1..]);
  }

  /** Column 7 is the one-byte accumulator group, with no operand text. */
  lemma {:induction false} AccumulatorNames(s: seq<bv8>)
    requires |s| >= 1 && s[0] < 0x40 && s[0] & 0x07 == 0x07
    ensures var d := DecodeInstruction(s);
      && d.args == ""
      && (s[0] == 0x07 ==> d.mnemonic == "rlca")
      && (s[0] == 0x0F ==> d.mnemonic == "rrca")
      && (s[0] == 0x17 ==> d.mnemonic == "rla")
      && (s[0] == 0x1F ==> d.mnemonic == "rra")
      && (s[0] == 0x27 ==> d.mnemonic == "daa")
      && (s[0] == 0x2F ==> d.mnemonic == "cpl")
      && (s[0] == 0x37 ==> d.mnemonic == "scf")
      && (s[0] == 0x3F ==> d.mnemonic == "ccf")
  {
    assert DecodeInstruction(s) == DecodeOneByte(s[0], s[1..]);
  }

  /** The bytes of a run of decoded instructions, in order. */
  function Joined(ds: seq<Decoded>): (b: seq<bv8>)
    decreases |ds|
  {
    if |ds| == 0 then [] else ds[0].bytes + Joined(ds[1..])
  }

  /** The instructions disassemblerLoop (gobjdump.go:364-376) decodes one
      after another until `decodeInstruction` returns no bytes. Every entry
      holds at least one byte, and together they spell out the stream, less
      at most one trailing byte (a short final immediate). */
  function Listing(s: seq<bv8>): (ds: seq<Decoded>)
    ensures forall i :: 0 <= i < |ds| ==> |ds[i].bytes| >= 1
    ensures Joined(ds) <= s
    ensures |s| - 1 <= |Joined(ds)|
    decreases |s|
  {
    if |s| == 0 then []
    else
      var d := DecodeInstruction(s);
      var tail := Listing(d.rest);
      ListingStep(s, d, tail);
      [d] + tail
  }

  /** One step of the listing: the decoded instruction's bytes followed by
      the listing of what is left keep spelling out the stream. */
  lemma {:induction false} ListingStep(s: seq<bv8>, d: Decoded, tail: seq<Decoded>)
    requires Splits(s, d.bytes, d.rest)
    requires Joined(tail) <= d.rest
    requires |d.rest| - 1 <= |Joined(tail)|
    ensures Joined([d] + tail) <= s
    ensures |s| - 1 <= |Joined([d] + tail)|
  {
    assert ([d] + tail)[1..] == tail;
    var j := Joined([d] + tail);
    assert j == d.bytes + Joined(tail);
    if |d.bytes| + |d.rest| == |s| {
      assert s == d.bytes + d.rest;
    }
  }
}

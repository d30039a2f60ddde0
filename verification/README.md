# GoBoy CPU core in Dafny

This project models the CPU core of GoBoy, a Game Boy emulator written in Go,
and proves properties of the model. It covers these parts of the emulator:

- the register file (`goboy/goboy.go`): six 16-bit slots with byte views and
  four flag bits in F;
- every instruction handler (`goboy/opcodes.go`);
- the `Step` dispatch tree, the TSC cycle bookkeeping and interrupt dispatch
  (`goboy/emu.go`);
- the ROM-only cartridge (`goboy/GBROM.go`);
- the text disassembler of `src/gobjdump/gobjdump.go`.

The CPU state is an immutable value: registers, memory and IME. Each handler
is a pure function that returns the new state together with its cycle count.
All arithmetic is on bit-vectors, so Go's `uint8`/`uint16` wrap-around is
built in. The handlers follow the code as written, not the hardware manual:

- CP takes its flags from ordering alone;
- ADC's H and C ignore the carry-in;
- SWAP always yields 0;
- CCF clears C;
- the SBC register forms reach SUB;
- 0x34, 0x35 and 0x36 reach the register forms with register F;
- `LD SP, HL` returns 12 cycles;
- CPL and SCF do not touch N or H.

Each of these is stated in a contract.

Modules and files:

- `bits.dfy` (Bits): bytes and words, sign extension, `uint16(len(ins))`.
- `registers.dfy` (RegisterFile): `get/set8Reg`, `get/set16Reg`, `modifyFlag`, `getFlag`.
- `memory.dfy` (Memory): the bus, as a map with read-after-write.
- `cpu.dfy` (Cpu): the CPU state, the handler outcome, and shared predicates.
- `alu.dfy` (Alu) and `alu_laws.dfy` (AluLaws): the flag arithmetic of the handlers, and laws about it.
- `loads.dfy`, `stack.dfy`, `arith8.dfy`, `arith16.dfy`, `bitops.dfy`, `control.dfy`, `misc.dfy`: the handlers, grouped as the source groups them.
- `interrupts.dfy` (Interrupts): `handleInterrupt` and `interruptJumpHelper`.
- `decoder.dfy` (Decoder): which handler `Step` reaches for each opcode, and how many bytes it hands it.
- `emulator.dfy` (Emulator): `Step`, including the 64-bit TSC counter.
- `cartridge.dfy` (Cartridge): GBROM.
- `text.dfy` (Text): the disassembler's operand texts.
- `disassembler.dfy` (Disassembler): `decodeInstruction` and its helpers.
- `agreement.dfy` (Agreement): compares the disassembler's instruction lengths with the emulator's.
- `option.dfy` (Maybe): Option.

## Model

| member | source | states |
|---|---|---|
| RegisterFile.Set16 | goboy/goboy.go:75-77 | set16Reg: the written slot reads back the value and every other slot reads as before |
| RegisterFile.Set8 | goboy/goboy.go:94-113 | set8Reg: the written byte register reads back the value; every other byte register, SP and PC are unchanged; F is stored unmasked |
| RegisterFile.ModifyFlag | goboy/goboy.go:116-119 | modifyFlag with SET or CLEAR: the flag reads back as requested, every other bit of F and every other register is kept |
| RegisterFile.GetFlag | goboy/goboy.go:122-128 | getFlag returns 1 exactly when the flag's bit is set, otherwise 0 |
| RegisterFile.WithFlags | goboy/goboy.go:116-119 | four modifyFlag calls in a row: the four flags read back as given and the low nibble of F is kept |
| RegisterFile.SlotViews | goboy/goboy.go:79-92 | get8Reg aliasing: A and F are the high and low bytes of AF; other ids are byte id%2 (0 = high) of slot id/2 |
| RegisterFile.PairsAreByteViews | goboy/goboy.go:71-92 | get16Reg of BC, DE, HL and AF is the join of its two get8Reg bytes |
| RegisterFile.ModifyFlagIsolated | goboy/goboy.go:116-128 | after modifyFlag, getFlag of that flag reads 1 or 0 as written; other flags, A and F's low nibble are unchanged |
| RegisterFile.SetAccumulatorOrFlags | goboy/goboy.go:94-102 | set8Reg(A, x) makes the high byte of AF x and keeps F; set8Reg(F, x) makes the low byte x and keeps A |
| RegisterFile.Set8KeepsPartnerAndSlots | goboy/goboy.go:104-112 | set8Reg on B..L keeps the partner byte of its slot and every other slot |
| RegisterFile.Set16Unchanged | goboy/goboy.go:71-77 | writing a slot with its own value changes nothing |
| Alu.Add8 | goboy/opcodes.go:264-288 | ADD/ADC core: result a+b+cin wrapped; Z iff zero; N clear; H and C from a+b alone |
| Alu.Sub8 | goboy/opcodes.go:425-449 | SUB core: result plus b gives a back; Z iff zero; N set; C iff a<b; H iff low nibble of a < low nibble of b |
| Alu.Compare | goboy/opcodes.go:754-774 | CP flags by ordering: A unchanged, exactly one of Z (equal), H (a>b), C (a<b) set, N set |
| Alu.And8 | goboy/opcodes.go:586-602 | AND: result below both operands bitwise; H forced set, N and C clear |
| Alu.Or8 | goboy/opcodes.go:642-658 | OR: result covers both operands bitwise; N, H and C clear |
| Alu.Xor8 | goboy/opcodes.go:698-714 | XOR: xor with b again gives a; N, H and C clear |
| Alu.Inc8 | goboy/opcodes.go:822-840 | INC: result minus 1 is the input; H iff the low nibble wrapped to 0; N clear |
| Alu.Dec8 | goboy/opcodes.go:864-882 | DEC: result plus 1 is the input; H iff the low nibble wrapped to F; N set |
| Alu.Add16 | goboy/opcodes.go:908-927 | 16-bit add: C iff the sum wrapped, H iff the low 12 bits wrapped |
| Alu.RotateWithC | goboy/opcodes.go:992-1034 | _rotateWithC: C is the bit rotated out; the other seven bits move one place; the bit rotated in is the old carry (withC) or the bit rotated out |
| Alu.ShiftLeft | goboy/opcodes.go:1209-1230 | SLA: result is 2*v mod 256, C is bit 7 of v |
| Alu.ShiftRightArithmetic | goboy/opcodes.go:1257-1282 | SRA: bit 7 kept, the other bits shift right, C is bit 0 |
| Alu.ShiftRightLogical | goboy/opcodes.go:1313-1334 | SRL: result is v/2, C is bit 0 |
| Alu.Swap | goboy/opcodes.go:1361-1375 | SWAP as written, (low<<4) & high: always 0, so Z is always set, N, H and C clear |
| Alu.TestBit | goboy/opcodes.go:1395-1408 | BIT: Z iff bit b is 0 |
| Alu.SetBit | goboy/opcodes.go:1427-1434 | SET: bit b becomes 1, the other seven bits are kept |
| Alu.ResetBit | goboy/opcodes.go:1447-1454 | RES: bit b becomes 0, the other seven bits are kept |
| Alu.Daa | goboy/opcodes.go:1613-1646 | DAA correction: add (N clear) or subtract (N set) 0x06 and 0x60 as H, C and the digits direct; carry-out rule |
| AluLaws.AddValue | goboy/opcodes.go:264-288 | the ADD result is (a+b+cin) mod 256 as integers |
| AluLaws.AddCarryValue | goboy/opcodes.go:264-288 | ADD's C iff a+b > 255 |
| AluLaws.AddHalfCarryValue | goboy/opcodes.go:264-288 | ADD's H iff the low nibbles sum past 15 |
| AluLaws.AddCarryIgnoresCarryIn | goboy/opcodes.go:343-368 | ADC's H and C are those of ADD without the carry; 0xFF+0+1 gives 0 with C clear |
| AluLaws.SubValue | goboy/opcodes.go:425-449 | the SUB result is (a-b) mod 256 |
| AluLaws.SubBorrowValue | goboy/opcodes.go:425-449 | SUB's C iff a < b as integers |
| AluLaws.SubHalfBorrowValue | goboy/opcodes.go:425-449 | SUB's H iff a mod 16 < b mod 16 |
| AluLaws.SubUndoesAdd | goboy/opcodes.go:264-449 | SUB b after ADD b gives a back, with the same C and H |
| AluLaws.CompareAgainstSub | goboy/opcodes.go:754-774 | CP agrees with SUB on Z and C but not on H (0x12 vs 0x01) |
| AluLaws.IncDecInverse | goboy/opcodes.go:822-882 | INC and DEC undo each other |
| AluLaws.IncValue | goboy/opcodes.go:822-840 | INC's result is v+1 mod 256, H iff v mod 16 = 15 |
| AluLaws.DecValue | goboy/opcodes.go:864-882 | DEC's result is v-1 mod 256, H iff v mod 16 = 0 |
| AluLaws.Add16ByBytes | goboy/opcodes.go:908-927 | the 16-bit sum is the low-byte sum and the high-byte sum with its carry |
| AluLaws.AndByBits | goboy/opcodes.go:586-602 | AND bit by bit |
| AluLaws.OrByBits | goboy/opcodes.go:642-658 | OR bit by bit |
| AluLaws.AndAllBits | goboy/opcodes.go:586-602 | AND sets exactly the bits set in both operands, all eight at once |
| AluLaws.OrAllBits | goboy/opcodes.go:642-658 | OR sets exactly the bits set in either operand, all eight at once |
| AluLaws.XorByBits | goboy/opcodes.go:698-714 | XOR bit by bit |
| AluLaws.PlainRotationsInverse | goboy/opcodes.go:992-1034 | RLC and RRC undo each other |
| AluLaws.CarryRotationsInverse | goboy/opcodes.go:992-1034 | RL and RR through the carry undo each other |
| AluLaws.ShiftRightArithmeticHalves | goboy/opcodes.go:1257-1282 | SRA halves the signed value, rounding down |
| AluLaws.TestAfterSetReset | goboy/opcodes.go:1395-1454 | BIT after SET reports 1 (Z clear); BIT after RES reports 0 (Z set) |
| AluLaws.SetResetOverwrite | goboy/opcodes.go:1427-1454 | SET then RES equals RES; RES then SET equals SET; SET is a no-op iff the bit was set |
| AluLaws.DaaKeepsBcd | goboy/opcodes.go:1613-1646 | a BCD byte with H and C clear is left unchanged by DAA, without carry |
| AluLaws.DaaCarriesLowDigit | goboy/opcodes.go:1613-1646 | a low digit over 9 is corrected by +6 into a BCD byte |
| AluLaws.DaaExample | goboy/opcodes.go:1613-1646 | 0x45 + 0x38 then DAA gives 0x83 |
| AluLaws.DaaAfterAdd | goboy/opcodes.go:1613-1646 | ADD of two BCD bytes then DAA gives the BCD byte of their decimal sum modulo 100, and sets C exactly when that sum reaches 100 |
| AluLaws.DecimalAddCore | goboy/opcodes.go:1613-1646 | DAA's corrections to the binary sum of two-digit BCD numbers give the digits of the decimal sum modulo 100; the high correction is made iff the sum reaches 100 |
| AluLaws.DaaAfterSub | goboy/opcodes.go:1613-1646 | SUB of two BCD bytes then DAA gives the BCD byte of their decimal difference modulo 100, and sets C exactly when the subtrahend is the larger |
| AluLaws.DecimalSubCore | goboy/opcodes.go:1613-1646 | DAA's corrections after the binary difference of two-digit BCD numbers give the digits of the decimal difference modulo 100; C iff the difference is negative |
| AluLaws.AdcDaaMissesCarry | goboy/opcodes.go:343-368 | ADC 0x08 + 0x07 with carry-in gives 0x10 with H clear, so DAA leaves 0x10 rather than the decimal 16 |
| Loads.LdRR | goboy/opcodes.go:9-15 | LD r1, r2: r1 (bits 3-5) gets r2 (bits 0-2), every other byte register kept, 4 cycles |
| Loads.LdRN | goboy/opcodes.go:18-24 | LD r, n: register ins[0]>>3 gets ins[1], 8 cycles |
| Loads.LdRHl | goboy/opcodes.go:27-33 | LD r, (HL): r gets the byte at HL, 8 cycles |
| Loads.LdHlR | goboy/opcodes.go:36-42 | LD (HL), r: the byte at HL becomes r, no other address changes, 8 cycles |
| Loads.LdHlN | goboy/opcodes.go:45-51 | LD (HL), n: the byte at HL becomes n, 12 cycles |
| Loads.LdAPair | goboy/opcodes.go:54-67 | LD A, (BC/DE): A gets the byte at the pair, 8 cycles |
| Loads.LdPairA | goboy/opcodes.go:115-128 | LD (BC/DE), A: the byte at the pair becomes A, 8 cycles |
| Loads.LdAC | goboy/opcodes.go:70-76 | LD A, (0xFF00+C), 8 cycles |
| Loads.LdCA | goboy/opcodes.go:79-85 | LD (0xFF00+C), A, 8 cycles |
| Loads.LdAN | goboy/opcodes.go:88-94 | LD A, (0xFF00+n), 12 cycles |
| Loads.LdNA | goboy/opcodes.go:97-104 | LD (0xFF00+n), A, 12 cycles |
| Loads.LdANn | goboy/opcodes.go:107-112 | LD A, (nn) with nn little-endian, 16 cycles |
| Loads.LdNnA | goboy/opcodes.go:131-136 | LD (nn), A, 16 cycles |
| Loads.LdAHlStep | goboy/opcodes.go:139-156 | LD A, (HL+/-): A gets the byte at HL, HL moves by one, F kept, 8 cycles |
| Loads.LdHlStepA | goboy/opcodes.go:159-176 | LD (HL+/-), A: the byte at HL becomes A, HL moves by one, 8 cycles |
| Loads.LdDdNn | goboy/opcodes.go:181-187 | LD dd, nn: slot ins[0]>>4 gets nn, other slots kept, 12 cycles |
| Loads.LdSpHl | goboy/opcodes.go:190-194 | LD SP, HL: SP gets HL, 12 cycles as coded |
| Loads.PushQq | goboy/opcodes.go:197-211 | PUSH qq: high byte at SP-1, low byte at SP-2, SP down 2, the word on top of the stack is the pair, 16 cycles |
| Loads.PopQq | goboy/opcodes.go:214-227 | POP qq: the pair gets the word at SP, SP up 2, PC + 1, 12 cycles |
| Loads.StackPair | goboy/opcodes.go:197-227 | PUSH/POP pair index: BC, DE, HL as encoded, with SP's code meaning AF |
| Loads.PopUndoesPush | goboy/opcodes.go:197-227 | POP of the same pair after PUSH restores every register but PC |
| Loads.LdHlSpE | goboy/opcodes.go:230-249 | LDHL SP, e: HL = SP + sign-extended e; Z and N clear; H and C from bits 11 and 15; 12 cycles |
| Loads.LdNnSp | goboy/opcodes.go:252-261 | LD (nn), SP: SP's low byte at nn, high byte at nn+1, 20 cycles |
| Stack.Push16 | goboy/opcodes.go:197-211 | pushing a word: SP down by 2, high byte at SP-1, low byte at SP-2, nothing else written |
| Stack.PopReadsPush | goboy/opcodes.go:197-227 | the word pushed is the word on top of the stack, and SP comes back up by 2 |
| Arith8.AddA | goboy/opcodes.go:264-340 | ADD A: A = (a+b) mod 256; Z, N clear, H from nibbles, C iff a+b>255; 4 or 8 cycles |
| Arith8.AdcA | goboy/opcodes.go:343-422 | ADC A: A = (a+b+carry) mod 256, H and C computed without the carry |
| Arith8.SubA | goboy/opcodes.go:425-501 | SUB A: A = (a-b) mod 256; N set; C iff a<b; H iff a mod 16 < b mod 16 |
| Arith8.SbcA | goboy/opcodes.go:504-583 | SBC A: subtrahend b+carry wrapped to 8 bits first, then as SUB |
| Arith8.AndA | goboy/opcodes.go:586-639 | AND A: H set, N and C clear, Z iff result 0 |
| Arith8.OrA | goboy/opcodes.go:642-695 | OR A: N, H, C clear |
| Arith8.AndAByBits | goboy/opcodes.go:586-639 | AND A, r / n / (HL): bit k of the new A is set exactly when it was set in both the old A and the operand, so A becomes A & r |
| Arith8.OrAByBits | goboy/opcodes.go:642-695 | OR A, r / n / (HL): bit k of the new A is set exactly when it was set in the old A or in the operand, so A becomes A \| r |
| Arith8.XorA | goboy/opcodes.go:698-751 | XOR A: N, H, C clear |
| Arith8.CpA | goboy/opcodes.go:754-819 | CP A: A not written; Z iff equal, H iff a>b, C iff a<b, N set |
| Arith8.IncReg | goboy/opcodes.go:822-840 | INC r: r+1 wrapped; H from the nibble; N clear; C kept except on F; F's low nibble is kept, or is that of the written value when r is F |
| Arith8.DecReg | goboy/opcodes.go:864-882 | DEC r: r-1 wrapped; H from the nibble; N set; C kept except on F; F's low nibble is kept, or is that of the written value when r is F |
| Arith8.IncHl | goboy/opcodes.go:843-861 | INC (HL): the byte at HL +1 wrapped, C kept, 12 cycles |
| Arith8.DecHl | goboy/opcodes.go:885-903 | DEC (HL): the byte at HL -1 wrapped, C kept, 12 cycles |
| Arith8.SbcWrapsSubtrahend | goboy/opcodes.go:504-556 | SBC with operand 0xFF and carry set leaves A unchanged and clears C, as the subtrahend wraps to 0 |
| Arith8.SubUndoesAddOnA | goboy/opcodes.go:264-475 | SUB n after ADD n gives A back with the same carry |
| Arith8.DecUndoesInc | goboy/opcodes.go:822-882 | DEC r after INC r gives r back |
| Arith16.AddHlSs | goboy/opcodes.go:908-927 | ADD HL, ss: HL + ss wrapped; Z kept; N clear; H from bit 11, C from bit 15; 8 cycles |
| Arith16.AddSpE | goboy/opcodes.go:930-949 | ADD SP, e: SP + sign-extended e; Z and N clear; 16 cycles |
| Arith16.IncSs | goboy/opcodes.go:963-970 | INC ss: pair + 1, no flags, other slots kept, 8 cycles |
| Arith16.DecSs | goboy/opcodes.go:973-980 | DEC ss: pair - 1, no flags, 8 cycles |
| Arith16.DecUndoesIncPair | goboy/opcodes.go:963-980 | DEC ss after INC ss restores every slot but PC |
| BitOps.Shift | goboy/opcodes.go:992-1392 | the eight CB operations: Z iff result 0, N and H clear, C the bit shifted out (never for SWAP) |
| BitOps.RotateA | goboy/opcodes.go:1039-1094 | RLCA/RLA/RRCA/RRA: A rotated; C is the bit out; Z from the result as coded; 4 cycles |
| BitOps.ShiftReg | goboy/opcodes.go:1097-1375 | CB register forms on bits 3-5 of ins[0] as coded; other registers kept; F's low nibble kept unless F is the target; 8 cycles |
| BitOps.ShiftHl | goboy/opcodes.go:1111-1392 | CB (HL) forms: the byte at HL transformed, no other address, 16 cycles |
| BitOps.BitReg | goboy/opcodes.go:1395-1408 | BIT b, r: Z iff bit b is 0, N clear, H set, C kept, r unchanged |
| BitOps.BitHl | goboy/opcodes.go:1411-1424 | BIT b, (HL): same on the byte at HL, memory unchanged, 16 cycles |
| BitOps.WriteBitReg | goboy/opcodes.go:1427-1454 | SET/RES b, r: only bit b of r changes, no flags, 8 cycles |
| BitOps.WriteBitHl | goboy/opcodes.go:1437-1464 | SET/RES b, (HL): only bit b of the byte at HL changes, 16 cycles |
| Bits.Signed | src/gobjdump/gobjdump.go:57-65 | int8(b): a value from -128 to 127 that is b modulo 256 |
| Bits.SignExtend | goboy/opcodes.go:1492-1497 | int8 to uint16 conversion: the low byte is kept and the high byte is 0xFF exactly for negative bytes |
| Control.CondHolds | goboy/opcodes.go:1474-1489 | cc = (ins[0]>>3)&3 selects NZ, Z, NC, C in that order |
| Control.JpNn | goboy/opcodes.go:1467-1471 | JP nn: PC = nn without adding the length; only PC moves; 16 cycles |
| Control.JpCcNn | goboy/opcodes.go:1474-1489 | JP cc, nn: taken PC = nn and 16 cycles; else PC + 3 and 12 cycles |
| Control.JrE | goboy/opcodes.go:1492-1497 | JR e: PC + length + sign-extended e, 12 cycles |
| Control.JrCcE | goboy/opcodes.go:1500-1516 | JR cc, e: taken as JR (12 cycles); else PC + length, 8 cycles |
| Control.TakenJrCcIsJr | goboy/opcodes.go:1492-1516 | a taken JR cc leaves the same state as JR |
| Control.JpHl | goboy/opcodes.go:1519-1523 | JP (HL): PC = HL, 4 cycles |
| Control.CallNn | goboy/opcodes.go:1526-1534 | CALL nn: the return address PC+3 pushed high byte first, PC = nn, IME kept, 24 cycles |
| Control.CallCcNn | goboy/opcodes.go:1537-1556 | CALL cc, nn: taken exactly as CALL; otherwise PC + 3 and 12 cycles |
| Control.Ret | goboy/opcodes.go:1559-1566 | RET: PC = word at SP, SP + 2, 16 cycles |
| Control.Reti | goboy/opcodes.go:1569-1577 | RETI: as RET and IME set |
| Control.RetCc | goboy/opcodes.go:1580-1598 | RET cc: taken as RET with 20 cycles; else PC + 1, 8 cycles |
| Control.RstVector | goboy/opcodes.go:1601-1610 | RST target is 8 times bits 3-5 |
| Control.Rst | goboy/opcodes.go:1601-1610 | RST: pushes PC + 1 and jumps to the vector, 16 cycles |
| Control.RetUndoesCall | goboy/opcodes.go:1526-1566 | RET after CALL resumes after the call with SP and every register restored |
| Control.RetUndoesRst | goboy/opcodes.go:1559-1610 | RET after RST resumes after the RST |
| Misc.DaaA | goboy/opcodes.go:1613-1646 | DAA: A corrected; Z from the result; H clear; N kept; C only ever set |
| Misc.DaaKeepsBcdAccumulator | goboy/opcodes.go:1613-1646 | DAA after a BCD value with clear flags leaves A and C clear |
| Misc.Cpl | goboy/opcodes.go:1649-1653 | CPL: A complemented, no flag touched |
| Misc.CplTwice | goboy/opcodes.go:1649-1653 | CPL twice restores A and F |
| Misc.Scf | goboy/opcodes.go:1656-1660 | SCF: C set, every other bit of F kept |
| Misc.Ccf | goboy/opcodes.go:1663-1667 | CCF as coded: C cleared whatever it was |
| Misc.CcfAfterScfClears | goboy/opcodes.go:1656-1667 | SCF and CCF differ only in C, and CCF after SCF leaves C clear |
| Misc.Di | goboy/opcodes.go:1670-1674 | DI: IME cleared, only PC moves otherwise |
| Misc.Ei | goboy/opcodes.go:1677-1681 | EI: IME set at once |
| Misc.Nop | goboy/opcodes.go:1684-1687 | NOP: only PC moves, 4 cycles |
| Misc.DiUndoesEi | goboy/opcodes.go:1670-1681 | DI after EI restores IME, memory and flags |
| Interrupts.LowestBit | goboy/emu.go:489 | interrupts & -interrupts isolates the lowest set bit |
| Interrupts.Vector | goboy/emu.go:490-506 | the five interrupt bits map to 0x40, 0x48, 0x50, 0x58, 0x60; other bits have no vector |
| Interrupts.JumpToVector | goboy/emu.go:511-521 | interruptJumpHelper: IME cleared, PC pushed high byte first, PC = target |
| Interrupts.Pending | goboy/emu.go:484-486 | bit k is pending exactly when it is set in both IE and IF |
| Interrupts.Serve | goboy/emu.go:489-508 | serving a bit: IF gets request ^ bit; with a vector, the call to it, and memory is exactly the old memory with PC's high byte at SP-1, its low byte at SP-2 and the new IF written; without, registers and IME kept |
| Interrupts.ServeFrame | goboy/emu.go:489-521 | serving an interrupt leaves every byte other than SP-1, SP-2 and IF unchanged |
| Interrupts.HandleInterrupt | goboy/emu.go:480-509 | nothing happens without IME or a pending interrupt; otherwise the lowest pending bit is served |
| Interrupts.AcknowledgesOnlyItsBit | goboy/emu.go:507-508 | the served bit is cleared in IF and the other IF bits are kept |
| Interrupts.RetiResumes | goboy/emu.go:480-521 | RETI after a vectored interrupt restores every register and sets IME |
| Decoder.Decode | goboy/emu.go:3-466 | the handler each byte pair reaches |
| Decoder.Width | goboy/emu.go:3-466 | how many bytes readN hands the handler: 0 exactly when no handler runs |
| Decoder.NoHandlerExactly | goboy/emu.go:3-466 | no handler runs exactly for STOP, HALT and the eleven illegal opcodes |
| Decoder.SbcRegisterIsSub | goboy/emu.go:190-196 | SBC A, r (0x98-0x9F but 0x9E) dispatches to SUB_a_r |
| Decoder.HlFormsMisrouted | goboy/emu.go:100-108 | 0x34, 0x35 and 0x36 dispatch to INC_r, DEC_r and LD_r_n |
| Decoder.WidthByOpcode | goboy/emu.go:3-466 | three bytes exactly for the 16-bit immediates; two for 8-bit immediates and CB |
| Emulator.AddCycles | goboy/emu.go:468 | TSCStart += uint64(cycles): the counter moves by the cycles modulo 2^64 |
| Emulator.Execute | goboy/emu.go:3-466 | every handler costs 4 to 24 cycles; no handler means no change; straight-line handlers move PC past their bytes |
| Emulator.Fetch | goboy/emu.go:5-6 | the handler and bytes for the opcode at PC |
| Emulator.Step | goboy/emu.go:3-468 | the CPU after a step is the one the handler for the opcode at PC leaves, and TSCStart moves by that handler's cycles (4 to 24); a step with no handler changes nothing |
| Emulator.UnassignedStepIsIdle | goboy/emu.go:3-468 | Step on an unassigned opcode leaves the machine unchanged, PC included |
| Emulator.AssignedStepTakesCycles | goboy/emu.go:3-468 | Step on any other opcode advances TSCStart by one of 4, 8, 12, 16, 20, 24 |
| Cartridge.NewGbRom | goboy/GBROM.go:70-72 | a new cartridge reads 0 everywhere |
| Cartridge.ReadRom | goboy/GBROM.go:23-26 | readROM returns the ROM byte below 0x8000; past it the index is out of range |
| Cartridge.ReadRam | goboy/GBROM.go:28-34 | readRAM always 0 |
| Cartridge.WriteRom | goboy/GBROM.go:36-41 | writeROM is ignored: every read is as before |
| Cartridge.WriteRam | goboy/GBROM.go:43-49 | writeRAM is ignored |
| Cartridge.LoadRom | goboy/GBROM.go:51-54 | loadROM copies min(len, 0x8000) bytes over the start; the rest of the ROM is kept |
| Cartridge.ReadAfterLoad | goboy/GBROM.go:51-54 | after a load an address below the copied length reads the data, others read as before |
| Cartridge.LoadIsDeterministic | goboy/GBROM.go:51-54 | the loaded ROM is determined by the old ROM and the data |
| Cartridge.LoadTwiceIsLoadOnce | goboy/GBROM.go:51-54 | loading the same data twice equals loading it once |
| Cartridge.FullImageReplacesRom | goboy/GBROM.go:51-54 | data of 0x8000 bytes or more replaces the whole ROM |
| Text.Hex2 | src/gobjdump/gobjdump.go:54 | %02x: two lower-case hex digits whose value is the byte |
| Text.Hex2RoundTrip | src/gobjdump/gobjdump.go:54 | the two hex digits read back as the byte, and any two lower-case hex digits that read as b are exactly the text of b |
| Text.Imm8Text | src/gobjdump/gobjdump.go:54 | 0x%02x: "0x" and two lower-case hex digits reading back as the byte |
| Text.Imm16Text | src/gobjdump/gobjdump.go:74 | "0x", high byte, low byte, as four lower-case hex digits: reads back as hi*256+lo |
| Text.Imm16AddrText | src/gobjdump/gobjdump.go:84 | the imm16 text inside brackets |
| Text.Digits | src/gobjdump/gobjdump.go:64 | decimal digits, no leading zero |
| Text.DigitsRoundTrip | src/gobjdump/gobjdump.go:64 | the decimal text reads back as the number |
| Text.SignedText | src/gobjdump/gobjdump.go:64 | %d of int8(b): at most four characters, minus sign iff b >= 0x80, then plain decimal digits with no leading zero |
| Text.SignedRoundTrip | src/gobjdump/gobjdump.go:64 | the signed text reads back as int8(b) |
| Disassembler.Imm8 | src/gobjdump/gobjdump.go:48-55 | imm8: one byte and its hex text, or nothing at end of stream |
| Disassembler.Imm8Signed | src/gobjdump/gobjdump.go:57-65 | imm8_s: one byte and exactly the %d text of int8 of it, which reads back as int8 of the byte |
| Disassembler.Imm16 | src/gobjdump/gobjdump.go:67-75 | imm16: two bytes, or nothing (a lone byte is consumed) |
| Disassembler.Imm16Addr | src/gobjdump/gobjdump.go:77-85 | imm16_addr: as imm16, bracketed |
| Disassembler.R16AfAddr | src/gobjdump/gobjdump.go:87-90 | r16_af_addr: the AF-table name of bits 4-5 in brackets |
| Disassembler.R16SpAddr | src/gobjdump/gobjdump.go:92-95 | r16_sp_addr: the SP-table name of bits 4-5 in brackets |
| Disassembler.AddrTablesDifferOnlyAtAf | src/gobjdump/gobjdump.go:22-34 | the two pair tables agree except [af] against [sp] at index 3 |
| Disassembler.DecodeJrCond | src/gobjdump/gobjdump.go:109-114 | jr cc: mnemonic jr; condition name at ((b&0x38)>>3)-4, then the imm8 text |
| Disassembler.DecodeUnprefixed | src/gobjdump/gobjdump.go:233-355 | every 0x00-0x3F opcode gets a mnemonic, and its bytes come off the front of the stream |
| Disassembler.DecodeInstruction | src/gobjdump/gobjdump.go:211-362 | empty stream gives no bytes; mnemonic empty iff the first byte is 0x40 or more; the bytes are a prefix |
| Disassembler.UnprefixedLength | src/gobjdump/gobjdump.go:97-205 | the block's operands take InstructionLength bytes when present, and only the opcode otherwise |
| Disassembler.LengthWhenAvailable | src/gobjdump/gobjdump.go:97-205 | with enough bytes, 2 for djnz, jr, jr cc and ld r8,n, 3 for ld r16,nn and 0x22/2A/32/3A, 1 otherwise, and the stream splits exactly |
| Disassembler.ShortStream | src/gobjdump/gobjdump.go:48-85 | an immediate that cannot be read appends nothing and leaves the stream empty |
| Disassembler.JrConditionNames | src/gobjdump/gobjdump.go:109-114 | 0x20, 0x28, 0x30, 0x38 are jr with NZ, Z, NC, C, the condition-field order, and the imm8 text |
| Disassembler.RegisterOperandNames | src/gobjdump/gobjdump.go:188-198 | inc/dec r8 name the register by bits 3-5, with [hl] at index 6 |
| Disassembler.LengthByColumn | src/gobjdump/gobjdump.go:233-355 | the length of a 0x00-0x3F instruction by its low three bits: column 0 has 1 or 2, column 1 has 3 or 1, column 2 has 1 or 3, column 6 has 2, the others 1 |
| Disassembler.RelativeJumpTexts | src/gobjdump/gobjdump.go:236-261 | 0x00 is nop, 0x08 is ex af, af', 0x10 is djnz with the %d text of the signed displacement, 0x18 is jr with the hex displacement |
| Disassembler.WordRegisterNames | src/gobjdump/gobjdump.go:116-187 | ld r16, nn / add hl, r16 / inc r16 / dec r16 name the pair by bits 4-5 from the SP table; ld also prints the imm16 text |
| Disassembler.LoadImmediateNames | src/gobjdump/gobjdump.go:200-205 | ld r8, n names the register by bits 3-5 and prints the imm8 text |
| Disassembler.IndirectLoadTexts | src/gobjdump/gobjdump.go:130-175 | column 2 is ld: [bc], a / [de], a / a, [bc] / a, [de], and with two more bytes [nn], hl / [nn], a / hl, [nn] / a, [nn] with nn as the imm16_addr text |
| Disassembler.AccumulatorNames | src/gobjdump/gobjdump.go:327-354 | column 7 is rlca, rrca, rla, rra, daa, cpl, scf, ccf by bits 3-5, with no operands |
| Disassembler.ListingStep | src/gobjdump/gobjdump.go:364-376 | one decoded instruction in front of a listing of its rest still covers the stream, less at most one byte |
| Disassembler.Listing | src/gobjdump/gobjdump.go:364-376 | repeated decoding covers the stream, less at most one byte |
| Agreement.LowBlockLengthsAgree | src/gobjdump/gobjdump.go:233-355 | the disassembler's lengths match the emulator's except at 0x08, 0x10, 0x22, 0x2A, 0x32, 0x3A |

## Left out

- The memory bus (`goboy/memory.go`) is not part of this model. Memory is a total byte map with read-after-write. The real bus drops ROM writes, so facts about the stack hold for RAM addresses.
- The busy-wait pacing loop at the end of `Step` (goboy/emu.go:476-477) is left out. It is a timing loop on a second goroutine's counter.
- The LCDLoop and TSCLoop goroutines (goboy/emu.go:524-556) are left out. They are concurrent tickers over unsynchronised state.
- The window, rendering and debugger files are left out: goboy/gui.go, goboy/main.go, goboy/video.go and goboy/debug.go. They are I/O.
- `loadROMFromFile` and `reader` (goboy/GBROM.go:56-68) are left out: they are file and stream I/O.
- Cartridge.LoadRom: Go's `copy` returns no error, and `loadROM` always returns nil. The model returns only the new ROM.
- The printing in disassemblerLoop (src/gobjdump/gobjdump.go:370-374) and the gobjdump command-line wrappers are left out. The instruction sequence the loop walks is modelled as Disassembler.Listing. The loop's uint32 address is not modelled.
- The legacy `src/goboy` snapshot and `src/goboy.go` are left out. They are superseded, and they use a different register encoding.
- Loads.LdAHlStep and Loads.LdHlStepA: Step calls LDI_a_hl, LDD_a_hl, LDI_hl_a and LDD_hl_a (goboy/emu.go:68-87). The handlers defined in goboy/opcodes.go:139-176 are named LD_a_hli, LD_a_hld, LD_hli_a and LD_hld_a. The model assumes the calls reach those handlers.
- Loads.LdRN: requires the opcode to be below 0x40, which holds for every opcode Step sends to it. LdDdNn has the same requirement. With a larger opcode, `ins[0] >> 3` would name a register id the source does not define.
- Alu.Daa: the decimal meaning of DAA is proved for ADD (AluLaws.DaaAfterAdd) and SUB (AluLaws.DaaAfterSub). After SBC it is not stated. After ADC it does not hold as written, because ADC's H ignores the carry-in (AluLaws.AdcDaaMissesCarry).

Where the code and the documented behaviour disagree, the model follows the code:

- LD SP, HL returns 12 cycles (goboy/opcodes.go:190-194), although the test expects 8.
- SWAP yields 0.
- CP takes its flags from ordering.
- ADC ignores the carry-in for H and C.
- CCF clears C.
- RLCA and the other accumulator rotates set Z from the result.
- SBC wraps the subtrahend.
- 0x9F and the other SBC register forms dispatch to SUB.
- The 0xCB register forms name the register by bits 3-5 of the first byte.
- CPL and SCF leave N and H alone.

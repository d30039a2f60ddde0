/** The ROM-only cartridge of GBROM.go: one fixed 32 KiB bank, no RAM, and
    writes that are ignored. */
module Cartridge {
  import opened Maybe

  /** The size of the ROM array, 0x8000 bytes. */
  const RomSize: nat := 0x8000

  /** The cartridge's ROM contents: exactly `RomSize` bytes. */
  type Image = s: seq<bv8> | |s| == RomSize witness seq(RomSize, _ => 0 as bv8)

  datatype GbRom = GbRom(rom: Image)

  /** newGBROM (GBROM.go:70-72): a zeroed ROM. */
  function NewGbRom(): (r: GbRom)
    ensures forall i :: 0 <= i < RomSize ==> r.rom[i] == 0
  {
    GbRom(seq(RomSize, _ => 0 as bv8))
  }

  /** readROM (GBROM.go:23-26): the byte at `addr`. The array index is
      unchecked in the source, so an address at or past 0x8000 is a runtime
      fault there; here it is `None`. */
  function ReadRom(r: GbRom, addr: bv16): (b: Option<bv8>)
    ensures b.Some? <==> addr < 0x8000
    ensures b.Some? ==> b.value == r.rom[addr as int]
  {
    if addr < 0x8000 then Some(r.rom[addr as int]) else None
  }

  /** readRAM (GBROM.go:28-34): there is no RAM; every address reads 0. */
  function ReadRam(r: GbRom, addr: bv16): (b: bv8)
    ensures b == 0
  {
    0
  }

  /** writeROM (GBROM.go:36-41): ignored. */
  function WriteRom(r: GbRom, addr: bv16, data: bv8): (r': GbRom)
    ensures forall a: bv16 :: ReadRom(r', a) == ReadRom(r, a)
  {
    r
  }

  /** writeRAM (GBROM.go:43-49): ignored. */
  function WriteRam(r: GbRom, addr: bv16, data: bv8): (r': GbRom)
    ensures forall a: bv16 :: ReadRom(r', a) == ReadRom(r, a) && ReadRam(r', a) == 0
  {
    r
  }

  /** The number of bytes Go's `copy` moves into the ROM array. */
  function Copied(data: seq<bv8>): (n: nat)
    ensures n <= RomSize && n <= |data|
    ensures n == RomSize || n == |data|
  {
    if |data| < RomSize then |data| else RomSize
  }

  /** The ROM after `copy(r.rom[:], data)`: the first `Copied(data)` bytes
      come from `data`, the rest of the old contents stay. */
  ghost predicate LoadedFrom(old_rom: Image, data: seq<bv8>, rom: Image) {
    && (forall i :: 0 <= i < Copied(data) ==> rom[i] == data[i])
    && (forall i :: Copied(data) <= i < RomSize ==> rom[i] == old_rom[i])
  }

  /** loadROM (GBROM.go:51-54): copies the data over the start of the ROM,
      byte by byte, and always succeeds (the source returns nil). Bytes of
      `data` past 0x8000 are dropped; ROM bytes past the end of `data` keep
      their old value. */
  method LoadRom(r: GbRom, data: seq<bv8>) returns (r': GbRom)
    ensures LoadedFrom(r.rom, data, r'.rom)
  {
    var n := Copied(data);
    var rom: seq<bv8> := r.rom;
    var i := 0;
    while i < n
      invariant 0 <= i <= n
      invariant |rom| == RomSize
      invariant forall k :: 0 <= k < i ==> rom[k] == data[k]
      invariant forall k :: i <= k < RomSize ==> rom[k] == r.rom[k]
    {
      rom := rom[i := data[i]];
      i := i + 1;
    }
    r' := GbRom(rom);
  }

  /** After a load every address below the copied length reads the loaded
      byte, and every address past it reads what it read before. */
  lemma {:induction false} ReadAfterLoad(r: GbRom, data: seq<bv8>, r': GbRom, addr: bv16)
    requires LoadedFrom(r.rom, data, r'.rom)
    ensures (addr as int) < Copied(data) ==> ReadRom(r', addr) == Some(data[addr as int])
    ensures Copied(data) <= (addr as int) ==> ReadRom(r', addr) == ReadRom(r, addr)
  {
  }

  /** The loaded ROM is determined by the old ROM and the data: two loads of
      the same data into the same cartridge agree. */
  lemma {:induction false} LoadIsDeterministic(old_rom: Image, data: seq<bv8>, a: Image, b: Image)
    requires LoadedFrom(old_rom, data, a) && LoadedFrom(old_rom, data, b)
    ensures a == b
  {
    forall i | 0 <= i < RomSize
      ensures a[i] == b[i]
    {
      if i < Copied(data) {
        assert a[i] == data[i] == b[i];
      }
    }
  }

  /** Loading the same data twice gives what loading it once gives. */
  lemma {:induction false} LoadTwiceIsLoadOnce(r0: Image, data: seq<bv8>, r1: Image, r2: Image)
    requires LoadedFrom(r0, data, r1) && LoadedFrom(r1, data, r2)
    ensures LoadedFrom(r0, data, r2)
  {
  }

  /** An image of at least 0x8000 bytes replaces the whole ROM: what was
      there before no longer matters. */
  lemma {:induction false} FullImageReplacesRom(r: GbRom, data: seq<bv8>, r': GbRom)
    requires |data| >= RomSize
    requires LoadedFrom(r.rom, data, r'.rom)
    ensures r'.rom == data[..RomSize]
  {
    assert forall i :: 0 <= i < RomSize ==> r'.rom[i] == data[..RomSize][i];
  }
}

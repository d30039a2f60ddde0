/** The memory bus as the handlers see it. Its implementation (memory.go) is
    not part of this model; it is represented as the bytes written so far,
    keyed by address, with every other address reading 0. */
module Memory {

  /** A bus address; wrapped so that it can key a map. */
  datatype Addr = Addr(a: bv16)

  datatype Mem = Mem(cells: map<Addr, bv8>)

  /** A bus on which nothing has been written: every address reads 0. */
  const Blank: Mem := Mem(map[])

  /** `mainMemory.read(addr)` */
  function Read(m: Mem, addr: bv16): bv8 {
    if Addr(addr) in m.cells then m.cells[Addr(addr)] else 0
  }

  /** `mainMemory.write(addr, value)`: the written address reads back the
      value and every other address reads as before. */
  function Write(m: Mem, addr: bv16, value: bv8): (m': Mem)
    ensures Read(m', addr) == value
    ensures forall a :: a != addr ==> Read(m', a) == Read(m, a)
  {
    Mem(m.cells[Addr(addr) := value])
  }

  /** `mainMemory.readN(addr, n)`: `n` consecutive bytes starting at `addr`,
      addresses wrapping modulo 2^16. */
  function ReadN(m: Mem, addr: bv16, n: nat): (s: seq<bv8>)
    ensures |s| == n
    ensures n > 0 ==> s[0] == Read(m, addr)
    ensures n > 1 ==> s[1] == Read(m, addr + 1)
    ensures n > 2 ==> s[2] == Read(m, addr + 2)
    decreases n
  {
    if n == 0 then [] else [Read(m, addr)] + ReadN(m, addr + 1, n - 1)
  }
}

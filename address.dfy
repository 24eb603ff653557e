/** Bus addresses: the source's `u16`, as integers 0..0xFFFF; the only arithmetic on them wraps explicitly. */
module Address {
  type Address = a: int | 0 <= a < 0x10000

  /** `addr + 1`, wrapping at 0x10000 (a release build wraps there; a debug build panics). */
  function Next(addr: Address): (r: Address)
    ensures r != addr
    ensures addr < 0xFFFF ==> r == addr + 1
    ensures addr == 0xFFFF ==> r == 0
  {
    (addr + 1) % 0x10000
  }
}

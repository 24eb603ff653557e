/**
 * The bus as the CPU sees it: 64 KiB of byte-addressable memory. The two interrupt registers
 * are decoded as on the real bus, IF at 0xFF0F and IE at 0xFFFF, so that an interrupt request
 * and its acknowledgement are visible to both the CPU and the program it runs. Every other
 * address is a plain memory cell; the region decoding of the real bus is modelled separately.
 */
module CpuBus {
  import opened Registers
  import I = Interrupts

  const MemorySize: nat := 0x10000
  const InterruptFlagAddress: bv16 := 0xFF0F
  const InterruptEnableAddress: bv16 := 0xFFFF

  /** The memory cell an address selects. */
  function Cell(addr: bv16): (i: nat)
    ensures i < MemorySize
    ensures i as bv16 == addr
  {
    addr as int
  }

  /** Distinct addresses select distinct cells. */
  lemma CellInjective(x: bv16, y: bv16)
    ensures Cell(x) == Cell(y) ==> x == y
  {
  }

  /** The bus as a value: the memory cells and the two interrupt registers. */
  datatype BusState = BusState(memory: seq<bv8>, flag: bv8, enable: bv8)

  predicate WellSized(b: BusState) {
    |b.memory| == MemorySize
  }

  /** `read8`: IF and IE from the interrupt controller, every other address from memory. */
  function Load(b: BusState, addr: bv16): (v: bv8)
    requires WellSized(b)
    ensures addr == InterruptFlagAddress ==> v == b.flag
    ensures addr == InterruptEnableAddress ==> v == b.enable
    ensures addr != InterruptFlagAddress && addr != InterruptEnableAddress ==> v == b.memory[Cell(addr)]
  {
    if addr == InterruptFlagAddress then b.flag
    else if addr == InterruptEnableAddress then b.enable
    else b.memory[Cell(addr)]
  }

  /** `write8`: the byte lands where `Load` reads it from. */
  function Store(b: BusState, addr: bv16, v: bv8): (r: BusState)
    requires WellSized(b)
    ensures WellSized(r)
    ensures addr == InterruptFlagAddress ==> r == b.(flag := v)
    ensures addr == InterruptEnableAddress ==> r == b.(enable := v)
    ensures addr != InterruptFlagAddress && addr != InterruptEnableAddress ==>
              r == b.(memory := b.memory[Cell(addr) := v])
  {
    if addr == InterruptFlagAddress then b.(flag := v)
    else if addr == InterruptEnableAddress then b.(enable := v)
    else b.(memory := b.memory[Cell(addr) := v])
  }

  /** A store is read back at its own address and seen nowhere else. */
  lemma LoadAfterStore(b: BusState, addr: bv16, v: bv8, other: bv16)
    requires WellSized(b)
    ensures Load(Store(b, addr, v), addr) == v
    ensures other != addr ==> Load(Store(b, addr, v), other) == Load(b, other)
  {
    if other != addr && other != InterruptFlagAddress && other != InterruptEnableAddress
       && addr != InterruptFlagAddress && addr != InterruptEnableAddress {
      CellInjective(addr, other);
    }
  }

  /** `read16`: little-endian, the high byte from the next address, which wraps after 0xFFFF. */
  function Load16(b: BusState, addr: bv16): (v: bv16)
    requires WellSized(b)
  {
    FromBeBytes(Load(b, addr + 1), Load(b, addr))
  }

  /** `write16`: the low byte first, then the high byte at the next address. */
  function Store16(b: BusState, addr: bv16, v: bv16): (r: BusState)
    requires WellSized(b)
    ensures WellSized(r)
  {
    Store(Store(b, addr, LowByte(v)), addr + 1, HighByte(v))
  }

  /** A word stored is read back whole, and the cells outside its two bytes keep their contents. */
  lemma Load16AfterStore16(b: BusState, addr: bv16, v: bv16, other: bv16)
    requires WellSized(b)
    ensures Load16(Store16(b, addr, v), addr) == v
    ensures other != addr && other != addr + 1 ==> Load(Store16(b, addr, v), other) == Load(b, other)
  {
    Store16Bytes(b, addr, v, other);
    BytesRoundTrip(v, 0, 0);
  }

  /** The two bytes of a stored word sit at its address and the next, low byte first. */
  lemma Store16Bytes(b: BusState, addr: bv16, v: bv16, other: bv16)
    requires WellSized(b)
    ensures Load(Store16(b, addr, v), addr) == LowByte(v)
    ensures Load(Store16(b, addr, v), addr + 1) == HighByte(v)
    ensures other != addr && other != addr + 1 ==> Load(Store16(b, addr, v), other) == Load(b, other)
  {
    var once := Store(b, addr, LowByte(v));
    LoadAfterStore(b, addr, LowByte(v), other);
    LoadAfterStore(once, addr + 1, HighByte(v), other);
    LoadAfterStore(once, addr + 1, HighByte(v), addr);
    LoadAfterStore(b, addr, LowByte(v), addr);
  }

  class FlatBus {
    const memory: array<bv8>
    const interrupts: I.Interrupts

    predicate Valid()
      reads this
    {
      memory.Length == MemorySize
    }

    function State(): (b: BusState)
      reads this, memory, interrupts
      requires Valid()
      ensures WellSized(b)
    {
      BusState(memory[..], interrupts.flag, interrupts.enable)
    }

    /** A bus over the given memory image, with the interrupt controller in its power-on state. */
    constructor (image: seq<bv8>)
      requires |image| == MemorySize
      ensures Valid() && fresh(memory) && fresh(interrupts)
      ensures State() == BusState(image, 0xE1, 0)
    {
      memory := new bv8[MemorySize](i requires 0 <= i < MemorySize => image[i]);
      interrupts := new I.Interrupts();
    }

    method Read8(addr: bv16) returns (v: bv8)
      requires Valid()
      ensures v == Load(State(), addr)
    {
      if addr == InterruptFlagAddress {
        v := interrupts.flag;
      } else if addr == InterruptEnableAddress {
        v := interrupts.enable;
      } else {
        v := memory[Cell(addr)];
      }
    }

    method Write8(addr: bv16, v: bv8)
      requires Valid()
      modifies memory, interrupts
      ensures State() == Store(old(State()), addr, v)
    {
      if addr == InterruptFlagAddress {
        interrupts.flag := v;
      } else if addr == InterruptEnableAddress {
        interrupts.enable := v;
      } else {
        memory[Cell(addr)] := v;
      }
    }

    method Read16(addr: bv16) returns (v: bv16)
      requires Valid()
      ensures v == Load16(State(), addr)
    {
      var lo := Read8(addr);
      var hi := Read8(addr + 1);
      v := FromBeBytes(hi, lo);
    }

    method Write16(addr: bv16, v: bv16)
      requires Valid()
      modifies memory, interrupts
      ensures State() == Store16(old(State()), addr, v)
    {
      Write8(addr, LowByte(v));
      Write8(addr + 1, HighByte(v));
    }
  }
}

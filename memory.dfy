/**
 * The older memory model, kept beside the bus: the same decoder, but the OAM DMA register is
 * a stub that reads 0 and ignores writes, and there is no transfer to count down.
 */
module Memory {
  import opened Address
  import opened Registers
  import opened MemoryMap
  import B = Bus
  import R = RomOnly

  /** `read8`: 0xFF46 reads 0; everything else is decoded. */
  function Read(m: MapState, addr: Address): bv8
    requires WellSized(m) && !InExternalRam(addr)
  {
    if addr == DmaRegister then 0 else Peek(m, addr)
  }

  /** `write8`: a write to 0xFF46 is dropped; everything else is decoded. */
  function Write(m: MapState, addr: Address, value: bv8): (r: MapState)
    requires WellSized(m)
    ensures WellSized(r)
  {
    if addr == DmaRegister then m else Poke(m, addr, value)
  }

  /** `read16`: little endian, the high byte at the next address. */
  function ReadWord(m: MapState, addr: Address): (r: bv16)
    requires WellSized(m) && !InExternalRam(addr) && !InExternalRam(Next(addr))
    ensures LowByte(r) == Read(m, addr) && HighByte(r) == Read(m, Next(addr))
  {
    BytesRoundTrip(0, Read(m, Next(addr)), Read(m, addr));
    FromBeBytes(Read(m, Next(addr)), Read(m, addr))
  }

  /** `write16`: the low byte first, then the high byte at the next address. */
  function WriteWord(m: MapState, addr: Address, value: bv16): (r: MapState)
    requires WellSized(m)
    ensures WellSized(r)
  {
    Write(Write(m, addr, LowByte(value)), Next(addr), HighByte(value))
  }

  /** The DMA register is inert here: it reads 0 and a write to it changes nothing. */
  lemma DmaRegisterInert(m: MapState, value: bv8)
    requires WellSized(m)
    ensures Read(m, DmaRegister) == 0 && Write(m, DmaRegister, value) == m
  {
  }

  /** Away from 0xFF46 the older model and the bus read and write alike, whatever the bus's DMA fields hold. */
  lemma AgreesWithBus(b: B.BusState, addr: Address, value: bv8)
    requires WellSized(b.devices) && !InExternalRam(addr) && addr != DmaRegister
    ensures Read(b.devices, addr) == B.Read(b, addr)
    ensures B.Write(b, addr, value) == b.(devices := Write(b.devices, addr, value))
  {
  }

  /** A 16-bit value written to two storing addresses reads back whole. */
  lemma ReadWordAfterWriteWord(m: MapState, addr: Address, value: bv16)
    requires WellSized(m) && Stores(addr) && Stores(Next(addr))
    ensures ReadWord(WriteWord(m, addr, value), addr) == value
  {
    var m1 := Write(m, addr, LowByte(value));
    var m2 := Write(m1, Next(addr), HighByte(value));
    ReadBack(m, addr, LowByte(value));
    ReadBack(m1, Next(addr), HighByte(value));
    NextIsAnotherCell(addr);
    assert Read(m2, addr) == LowByte(value) by {
      if Next(addr) != 0xFF00 {
        PokeFrame(m1, Next(addr), HighByte(value), addr);
      }
    }
    BytesRoundTrip(value, 0, 0);
  }

  class Memory {
    var devices: Devices

    predicate Valid()
      reads this, devices, devices.mbc, devices.gpu, devices.gpu.vram, devices.gpu.oam, devices.joypad
    {
      devices.Valid()
    }

    function State(): (r: MapState)
      reads this, devices, devices.mbc, devices.mbc.rom, devices.gpu, devices.gpu.vram
      reads devices.gpu.vram.data, devices.gpu.oam, devices.gpu.oam.data, devices.timer
      reads devices.interrupts, devices.serial, devices.joypad, devices.joypad.buttons
      reads devices.wram, devices.hram
      requires Valid()
      ensures WellSized(r)
    {
      devices.State()
    }

    constructor (mbc: R.RomOnly)
      requires mbc.Valid()
      ensures Valid() && fresh(devices) && State() == PowerOn(mbc.rom[..])
    {
      devices := new Devices(mbc);
    }

    /** The timer and the serial port advance; nothing else happens here. */
    method Update(cycles: nat, clockSpeed: nat)
      requires Valid()
      modifies devices.timer, devices.interrupts, devices.serial
      ensures Valid() && State() == Advance(old(State()), cycles, clockSpeed)
    {
      devices.Update(cycles, clockSpeed);
    }

    method Read8(addr: Address) returns (v: bv8)
      requires Valid() && !InExternalRam(addr)
      ensures v == Read(State(), addr)
    {
      if addr == DmaRegister {
        v := 0;
      } else {
        v := devices.Read8(addr);
      }
    }

    method Read16(addr: Address) returns (v: bv16)
      requires Valid() && !InExternalRam(addr) && !InExternalRam(Next(addr))
      ensures v == ReadWord(State(), addr)
    {
      var lsb := Read8(addr);
      var msb := Read8(Next(addr));
      v := FromBeBytes(msb, lsb);
    }

    method Write8(addr: Address, value: bv8)
      requires Valid()
      modifies devices.gpu, devices.gpu.vram.data, devices.gpu.oam.data, devices.timer
      modifies devices.interrupts, devices.serial, devices.joypad, devices.wram, devices.hram
      ensures Valid() && State() == Write(old(State()), addr, value)
      ensures devices.gpu.vram == old(devices.gpu.vram) && devices.gpu.oam == old(devices.gpu.oam)
    {
      if addr != DmaRegister {
        devices.Write8(addr, value);
      }
    }

    method Write16(addr: Address, value: bv16)
      requires Valid()
      modifies devices.gpu, devices.gpu.vram.data, devices.gpu.oam.data, devices.timer
      modifies devices.interrupts, devices.serial, devices.joypad, devices.wram, devices.hram
      ensures Valid() && State() == WriteWord(old(State()), addr, value)
    {
      Write8(addr, LowByte(value));
      Write8(Next(addr), HighByte(value));
    }
  }
}

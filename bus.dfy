/**
 * The memory bus the CPU talks to: the shared decoder plus the OAM DMA register at 0xFF46.
 * A write to 0xFF46 latches a source page and starts a 640-cycle countdown; when it runs out,
 * the 160 bytes at page * 0x100 are copied into the sprite attribute table.
 */
module Bus {
  import opened Address
  import opened Registers
  import opened MemoryMap
  import opened Oam
  import R = RomOnly

  const OamTransferPeriod: nat := 640

  /** The bus as values: the decoder's state plus the three DMA fields. */
  datatype BusState = BusState(devices: MapState, oamTransferSource: bv8,
                               pendingOamTransfer: bool, oamTransferClock: nat)

  /** Addresses the bus reads without a panic: all but external RAM, which overruns the ROM-only controller. */
  predicate BusReadable(addr: Address) {
    !InExternalRam(addr)
  }

  /** `read8`: the DMA register reads back the latched source page; everything else is decoded. */
  function Read(b: BusState, addr: Address): bv8
    requires WellSized(b.devices) && BusReadable(addr)
  {
    if addr == DmaRegister then b.oamTransferSource else Peek(b.devices, addr)
  }

  /** `write8`: a write to the DMA register latches the page and restarts the countdown. */
  function Write(b: BusState, addr: Address, value: bv8): (r: BusState)
    requires WellSized(b.devices)
    ensures WellSized(r.devices)
  {
    if addr == DmaRegister then b.(oamTransferSource := value, pendingOamTransfer := true, oamTransferClock := 0)
    else b.(devices := Poke(b.devices, addr, value))
  }

  /** `read16`: little endian, the high byte at the next address (wrapping at 0xFFFF). */
  function ReadWord(b: BusState, addr: Address): (r: bv16)
    requires WellSized(b.devices) && BusReadable(addr) && BusReadable(Next(addr))
    ensures LowByte(r) == Read(b, addr) && HighByte(r) == Read(b, Next(addr))
  {
    BytesRoundTrip(0, Read(b, Next(addr)), Read(b, addr));
    FromBeBytes(Read(b, Next(addr)), Read(b, addr))
  }

  /** `write16`: the low byte first, then the high byte at the next address. */
  function WriteWord(b: BusState, addr: Address, value: bv16): (r: BusState)
    requires WellSized(b.devices)
    ensures WellSized(r.devices)
  {
    Write(Write(b, addr, LowByte(value)), Next(addr), HighByte(value))
  }

  /** Addresses that read back the last byte written, the DMA register among them. */
  predicate BusStores(addr: Address) {
    Stores(addr) || addr == DmaRegister
  }

  /** Off the DMA register, the bus is the decoder. */
  lemma ReadIsDecoded(b: BusState, addr: Address)
    requires WellSized(b.devices) && BusReadable(addr) && addr != DmaRegister
    ensures Read(b, addr) == Peek(b.devices, addr)
  {
  }

  /** Writing the DMA register leaves every other address as it was and arms a fresh transfer. */
  lemma DmaWrite(b: BusState, value: bv8, other: Address)
    requires WellSized(b.devices) && BusReadable(other) && other != DmaRegister
    ensures Read(Write(b, DmaRegister, value), DmaRegister) == value
    ensures Read(Write(b, DmaRegister, value), other) == Read(b, other)
    ensures Write(b, DmaRegister, value).pendingOamTransfer
    ensures Write(b, DmaRegister, value).oamTransferClock == 0
  {
  }

  /** A byte written to a storing address reads back. */
  lemma BusReadBack(b: BusState, addr: Address, value: bv8)
    requires WellSized(b.devices) && BusStores(addr)
    ensures Read(Write(b, addr, value), addr) == value
  {
    if addr != DmaRegister {
      ReadBack(b.devices, addr, value);
    }
  }

  /** A write leaves every address that does not share its cell as it was. */
  lemma BusFrame(b: BusState, addr: Address, value: bv8, other: Address)
    requires WellSized(b.devices) && BusReadable(other) && other != 0xFF00
    requires !SameCell(addr, other)
    ensures Read(Write(b, addr, value), other) == Read(b, other)
  {
    if addr != DmaRegister && other != DmaRegister {
      PokeFrame(b.devices, addr, value, other);
    }
  }

  /** A 16-bit value written to two storing addresses reads back whole. */
  lemma Read16AfterWrite16(b: BusState, addr: Address, value: bv16)
    requires WellSized(b.devices) && BusStores(addr) && BusStores(Next(addr))
    ensures ReadWord(WriteWord(b, addr, value), addr) == value
  {
    var b1 := Write(b, addr, LowByte(value));
    var b2 := Write(b1, Next(addr), HighByte(value));
    BusReadBack(b, addr, LowByte(value));
    BusReadBack(b1, Next(addr), HighByte(value));
    NextIsAnotherCell(addr);
    assert Read(b2, addr) == LowByte(value) by {
      if Next(addr) != 0xFF00 {
        BusFrame(b1, Next(addr), HighByte(value), addr);
      }
    }
    BytesRoundTrip(value, 0, 0);
  }

  /** The address the transfer reads for OAM byte `offset`. */
  function DmaAddress(source: bv8, offset: nat): (r: Address)
    requires offset < OamSize
    ensures r == source as int * 0x100 + offset
  {
    source as int * 0x100 + offset
  }

  /** A source page the transfer can read: any page outside external RAM. */
  predicate DmaSourceReadable(source: bv8) {
    !InExternalRam(source as int * 0x100)
  }

  /** What the transfer copies into the sprite attribute table. */
  function TransferredOam(b: BusState): (r: seq<bv8>)
    requires WellSized(b.devices) && DmaSourceReadable(b.oamTransferSource)
    ensures |r| == OamSize
    ensures forall i :: 0 <= i < OamSize ==> r[i] == Read(b, DmaAddress(b.oamTransferSource, i))
  {
    seq(OamSize, i requires 0 <= i < OamSize => Read(b, DmaAddress(b.oamTransferSource, i)))
  }

  /** A transfer is due once the clock of a pending one reaches 640 cycles. */
  predicate TransferDue(b: BusState, cycles: nat) {
    b.pendingOamTransfer && b.oamTransferClock + cycles >= OamTransferPeriod
  }

  /** `update_oam_transfer`: counts a pending transfer down and performs it when due. */
  function OamTransferTick(b: BusState, cycles: nat): (r: BusState)
    requires WellSized(b.devices)
    requires TransferDue(b, cycles) ==> DmaSourceReadable(b.oamTransferSource)
    ensures WellSized(r.devices)
    ensures !b.pendingOamTransfer ==> r == b
    ensures b.pendingOamTransfer && !TransferDue(b, cycles) ==>
              r == b.(oamTransferClock := b.oamTransferClock + cycles)
    ensures TransferDue(b, cycles) ==>
              !r.pendingOamTransfer && r.oamTransferSource == b.oamTransferSource
              && r.oamTransferClock == b.oamTransferClock + cycles
              && r.devices.(oam := b.devices.oam) == b.devices
  {
    if !b.pendingOamTransfer then b
    else
      var counted := b.(oamTransferClock := b.oamTransferClock + cycles);
      if counted.oamTransferClock >= OamTransferPeriod then
        counted.(devices := counted.devices.(oam := TransferredOam(counted)), pendingOamTransfer := false)
      else counted
  }

  /**
   * A due transfer shows the source page in OAM: afterwards the 160 OAM addresses read what the
   * 160 source addresses read before, and no transfer is pending.
   */
  lemma TransferCopiesPage(b: BusState, cycles: nat, i: nat)
    requires WellSized(b.devices) && TransferDue(b, cycles) && DmaSourceReadable(b.oamTransferSource)
    requires i < OamSize
    ensures Read(OamTransferTick(b, cycles), OamStart + i) == Read(b, DmaAddress(b.oamTransferSource, i))
    ensures !OamTransferTick(b, cycles).pendingOamTransfer
  {
  }

  /** Before the period is over nothing is copied, and the transfer stays pending. */
  lemma TransferWaits(b: BusState, cycles: nat)
    requires WellSized(b.devices) && b.pendingOamTransfer && b.oamTransferClock + cycles < OamTransferPeriod
    ensures OamTransferTick(b, cycles).devices == b.devices
    ensures OamTransferTick(b, cycles).pendingOamTransfer
    ensures OamTransferTick(b, cycles).oamTransferClock == b.oamTransferClock + cycles
  {
  }

  /** A transfer happens once: with none pending, updates leave the bus alone. */
  lemma IdleTransferIsStable(b: BusState, cycles: nat)
    requires WellSized(b.devices) && !b.pendingOamTransfer
    ensures OamTransferTick(b, cycles) == b
  {
  }

  /** Writing a page to 0xFF46 and letting 640 cycles pass copies that page. */
  lemma DmaCopiesAfterPeriod(b: BusState, source: bv8, i: nat)
    requires WellSized(b.devices) && DmaSourceReadable(source) && i < OamSize
    ensures var armed := Write(b, DmaRegister, source);
            Read(OamTransferTick(armed, OamTransferPeriod), OamStart + i) == Read(armed, DmaAddress(source, i))
  {
    TransferCopiesPage(Write(b, DmaRegister, source), OamTransferPeriod, i);
  }

  /**
   * `update`: the timer and serial port advance, then a pending transfer counts down. The
   * transfer reads the components as the timer left them.
   */
  function Tick(b: BusState, cycles: nat, clockSpeed: nat): (r: BusState)
    requires WellSized(b.devices)
    requires TransferDue(b, cycles) ==> DmaSourceReadable(b.oamTransferSource)
    ensures WellSized(r.devices)
    ensures r.devices.(oam := b.devices.oam) == Advance(b.devices, cycles, clockSpeed)
    ensures !TransferDue(b, cycles) ==> r.devices.oam == b.devices.oam
    ensures r.pendingOamTransfer == (b.pendingOamTransfer && !TransferDue(b, cycles))
    ensures r.oamTransferSource == b.oamTransferSource
    ensures TransferDue(b, cycles) ==>
              r.devices.oam == TransferredOam(b.(devices := Advance(b.devices, cycles, clockSpeed)))
    ensures r.oamTransferClock == (if b.pendingOamTransfer then b.oamTransferClock + cycles else b.oamTransferClock)
  {
    OamTransferTick(b.(devices := Advance(b.devices, cycles, clockSpeed)), cycles)
  }

  /**
   * While the transfer runs, OAM bytes past the one being copied still hold their old values,
   * so each read sees what it would have seen before the transfer began.
   */
  lemma ReadDuringTransfer(b: BusState, oam: seq<bv8>, i: nat)
    requires WellSized(b.devices) && DmaSourceReadable(b.oamTransferSource)
    requires |oam| == OamSize && i < OamSize && oam[i] == b.devices.oam[i]
    ensures Read(b.(devices := b.devices.(oam := oam)), DmaAddress(b.oamTransferSource, i))
            == Read(b, DmaAddress(b.oamTransferSource, i))
  {
    var addr := DmaAddress(b.oamTransferSource, i);
    if addr != DmaRegister {
      PeekMemoryFrame(b.devices, b.devices.(oam := oam), addr);
    }
  }

  /** The bus part-way through a transfer: OAM holds the first `offset` copied bytes, then its old ones. */
  ghost function PartlyTransferred(b: BusState, offset: nat): (r: BusState)
    requires WellSized(b.devices) && DmaSourceReadable(b.oamTransferSource) && offset <= OamSize
    ensures WellSized(r.devices)
  {
    b.(devices := b.devices.(oam := TransferredOam(b)[..offset] + b.devices.oam[offset..]))
  }

  /** Storing the byte read at `offset` into a part-way transfer's OAM moves the transfer on by one byte. */
  lemma CopyStep(before: BusState, offset: nat)
    requires WellSized(before.devices) && DmaSourceReadable(before.oamTransferSource) && offset < OamSize
    ensures var partial := PartlyTransferred(before, offset);
            var value := Read(partial, DmaAddress(before.oamTransferSource, offset));
            partial.(devices := partial.devices.(oam := partial.devices.oam[offset := value]))
              == PartlyTransferred(before, offset + 1)
  {
    var copied := TransferredOam(before);
    var partial := PartlyTransferred(before, offset);
    ReadDuringTransfer(before, partial.devices.oam, offset);
    SpliceStep(copied, before.devices.oam, offset);
  }

  /** Copying element `i` moves the boundary between the copied prefix and the old suffix one step on. */
  lemma SpliceStep(copied: seq<bv8>, rest: seq<bv8>, i: nat)
    requires |copied| == |rest| && i < |copied|
    ensures (copied[..i] + rest[i..])[i := copied[i]] == copied[..i + 1] + rest[i + 1..]
  {
    assert copied[..i + 1] == copied[..i] + [copied[i]];
  }

  class MemoryBus {
    var devices: Devices
    var oamTransferSource: bv8
    var pendingOamTransfer: bool
    var oamTransferClock: nat

    predicate Valid()
      reads this, devices, devices.mbc, devices.gpu, devices.gpu.vram, devices.gpu.oam, devices.joypad
    {
      devices.Valid()
    }

    function State(): (r: BusState)
      reads this, devices, devices.mbc, devices.mbc.rom, devices.gpu, devices.gpu.vram
      reads devices.gpu.vram.data, devices.gpu.oam, devices.gpu.oam.data, devices.timer
      reads devices.interrupts, devices.serial, devices.joypad, devices.joypad.buttons
      reads devices.wram, devices.hram
      requires Valid()
      ensures WellSized(r.devices)
    {
      BusState(devices.State(), oamTransferSource, pendingOamTransfer, oamTransferClock)
    }

    /** A bus around a ROM-only controller: fresh components, no transfer pending. */
    constructor (mbc: R.RomOnly)
      requires mbc.Valid()
      ensures Valid() && fresh(devices)
      ensures State() == BusState(PowerOn(mbc.rom[..]), 0, false, 0)
    {
      devices := new Devices(mbc);
      oamTransferSource, pendingOamTransfer, oamTransferClock := 0, false, 0;
    }

    method Read8(addr: Address) returns (v: bv8)
      requires Valid() && BusReadable(addr)
      ensures v == Read(State(), addr)
    {
      if addr == DmaRegister {
        v := oamTransferSource;
      } else {
        v := devices.Read8(addr);
      }
    }

    method Read16(addr: Address) returns (v: bv16)
      requires Valid() && BusReadable(addr) && BusReadable(Next(addr))
      ensures v == ReadWord(State(), addr)
    {
      var lsb := Read8(addr);
      var msb := Read8(Next(addr));
      v := FromBeBytes(msb, lsb);
    }

    method Write8(addr: Address, value: bv8)
      requires Valid()
      modifies this`oamTransferSource, this`pendingOamTransfer, this`oamTransferClock
      modifies devices.gpu, devices.gpu.vram.data, devices.gpu.oam.data, devices.timer
      modifies devices.interrupts, devices.serial, devices.joypad, devices.wram, devices.hram
      ensures Valid() && State() == Write(old(State()), addr, value)
      ensures devices.gpu.vram == old(devices.gpu.vram) && devices.gpu.oam == old(devices.gpu.oam)
    {
      if addr == DmaRegister {
        oamTransferSource := value;
        pendingOamTransfer := true;
        oamTransferClock := 0;
      } else {
        devices.Write8(addr, value);
      }
    }

    method Write16(addr: Address, value: bv16)
      requires Valid()
      modifies this`oamTransferSource, this`pendingOamTransfer, this`oamTransferClock
      modifies devices.gpu, devices.gpu.vram.data, devices.gpu.oam.data, devices.timer
      modifies devices.interrupts, devices.serial, devices.joypad, devices.wram, devices.hram
      ensures Valid() && State() == WriteWord(old(State()), addr, value)
    {
      Write8(addr, LowByte(value));
      Write8(Next(addr), HighByte(value));
    }

    /** The timer and serial port advance, then a pending transfer counts down. */
    method Update(cycles: nat, clockSpeed: nat)
      requires Valid() && (TransferDue(State(), cycles) ==> DmaSourceReadable(oamTransferSource))
      modifies this`pendingOamTransfer, this`oamTransferClock, devices.gpu.oam.data
      modifies devices.timer, devices.interrupts, devices.serial
      ensures Valid() && State() == Tick(old(State()), cycles, clockSpeed)
    {
      devices.Update(cycles, clockSpeed);
      UpdateOamTransfer(cycles);
    }

    method UpdateOamTransfer(cycles: nat)
      requires Valid() && (TransferDue(State(), cycles) ==> DmaSourceReadable(oamTransferSource))
      modifies this`pendingOamTransfer, this`oamTransferClock, devices.gpu.oam.data
      ensures Valid() && State() == OamTransferTick(old(State()), cycles)
    {
      if pendingOamTransfer {
        oamTransferClock := oamTransferClock + cycles;
        if oamTransferClock >= OamTransferPeriod {
          PerformOamTransfer();
          pendingOamTransfer := false;
        }
      }
    }

    /** Copies the 160 bytes of the source page into OAM, one read and one write per byte. */
    method PerformOamTransfer()
      requires Valid() && DmaSourceReadable(oamTransferSource)
      modifies devices.gpu.oam.data
      ensures Valid()
      ensures State() == old(State()).(devices := old(State()).devices.(oam := TransferredOam(old(State()))))
    {
      ghost var before := State();
      assert before == PartlyTransferred(before, 0) by {
        assert TransferredOam(before)[..0] + before.devices.oam[0..] == before.devices.oam;
      }
      var offset := 0;
      while offset < OamSize
        invariant 0 <= offset <= OamSize && Valid()
        invariant State() == PartlyTransferred(before, offset)
      {
        CopyOamByte(offset, before);
        offset := offset + 1;
      }
      assert TransferredOam(before)[..OamSize] + before.devices.oam[OamSize..] == TransferredOam(before);
    }

    /** One step of the transfer: OAM byte `offset` gets what the source address read before the transfer began. */
    method CopyOamByte(offset: nat, ghost before: BusState)
      requires Valid() && offset < OamSize
      requires WellSized(before.devices) && DmaSourceReadable(before.oamTransferSource)
      requires State() == PartlyTransferred(before, offset)
      modifies devices.gpu.oam.data
      ensures Valid() && State() == PartlyTransferred(before, offset + 1)
    {
      ghost var partial := State();
      var value := Read8(DmaAddress(oamTransferSource, offset));
      devices.gpu.oam.Write8(OamStart + offset, value);
      assert State() == partial.(devices := partial.devices.(oam := devices.gpu.oam.data[..]));
      assert devices.gpu.oam.data[..] == partial.devices.oam[offset := value];
      CopyStep(before, offset);
    }
  }
}

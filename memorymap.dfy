/**
 * The address decoder the memory bus and the older memory model share: which device or RAM
 * answers each address. The two differ only at 0xFF46 (the OAM DMA register), which each of
 * them handles itself; everything else is decoded here.
 */
module MemoryMap {
  import opened Address
  import opened Bits
  import opened Wrappers
  import opened Joypad
  import opened Serial
  import opened Timer
  import opened Gpu
  import opened Vram
  import opened Oam
  import R = RomOnly
  import I = Interrupts
  import J = Joypad
  import T = Timer
  import G = Gpu

  const WramStart: int := 0xC000
  const WramEnd: int := 0xDFFF
  const WramSize: nat := 0x2000
  const EchoRamStart: int := 0xE000
  const EchoRamEnd: int := 0xFDFF
  const HramStart: int := 0xFF80
  const HramEnd: int := 0xFFFE
  const HramSize: nat := 0x7F
  const DmaRegister: int := 0xFF46

  /** Every byte the decoder can reach, as values. */
  datatype MapState = MapState(
    rom: seq<bv8>, vram: seq<bv8>, wram: seq<bv8>, oam: seq<bv8>, hram: seq<bv8>,
    joypadSelected: SelectedButtons, buttons: seq<bool>, serial: SerialState, timer: TimerState,
    interruptFlag: bv8, interruptEnable: bv8, gpu: seq<bv8>)

  predicate WellSized(s: MapState) {
    |s.rom| == R.RomSize && |s.vram| == VramSize && |s.wram| == WramSize && |s.oam| == OamSize
    && |s.hram| == HramSize && |s.buttons| == ButtonCount && |s.gpu| == RegisterCount
  }

  /** The state of freshly built components around a ROM image: zeroed RAMs, no buttons, power-on registers. */
  function PowerOn(rom: seq<bv8>): (r: MapState)
    requires |rom| == R.RomSize
    ensures WellSized(r)
    ensures r.rom == rom && r.gpu == PowerOnRegisters
    ensures r.interruptFlag == 0xE1 && r.interruptEnable == 0
    ensures r.timer == DefaultTimer && r.serial == SerialState(0, 0x7E, None)
    ensures r.joypadSelected == NoButtons && forall i :: 0 <= i < |r.buttons| ==> !r.buttons[i]
    ensures forall i :: 0 <= i < |r.vram| ==> r.vram[i] == 0
    ensures forall i :: 0 <= i < |r.wram| ==> r.wram[i] == 0
    ensures forall i :: 0 <= i < |r.oam| ==> r.oam[i] == 0
    ensures forall i :: 0 <= i < |r.hram| ==> r.hram[i] == 0
  {
    MapState(rom, seq(VramSize, _ => 0), seq(WramSize, _ => 0), seq(OamSize, _ => 0),
             seq(HramSize, _ => 0), NoButtons, seq(ButtonCount, _ => false),
             SerialState(0, 0x7E, None), DefaultTimer, 0xE1, 0, PowerOnRegisters)
  }

  /**
   * What `update` does to the components, apart from the scanline machine: the timer advances by
   * `cycles` and a counter overflow sets the Timer bit of IF, then the serial port is updated.
   */
  function Advance(s: MapState, cycles: nat, clockSpeed: nat): (r: MapState)
    requires WellSized(s)
    ensures WellSized(r)
    ensures r.timer == Step(s.timer, cycles, clockSpeed).0
    ensures r.serial == Updated(s.serial)
    ensures Step(s.timer, cycles, clockSpeed).1 ==> r.interruptFlag == s.interruptFlag | 0x04
    ensures !Step(s.timer, cycles, clockSpeed).1 ==> r.interruptFlag == s.interruptFlag
    ensures r.(timer := s.timer, serial := s.serial, interruptFlag := s.interruptFlag) == s
  {
    var timerStep := Step(s.timer, cycles, clockSpeed);
    s.(timer := timerStep.0,
       interruptFlag := if timerStep.1 then ModifyBit(s.interruptFlag, I.Interrupt.Timer.Bit(), true)
                        else s.interruptFlag,
       serial := Updated(s.serial))
  }

  predicate InWram(addr: int) { WramStart <= addr <= WramEnd }
  predicate InEchoRam(addr: int) { EchoRamStart <= addr <= EchoRamEnd }
  predicate InHram(addr: int) { HramStart <= addr <= HramEnd }
  predicate InProhibited(addr: int) { 0xFEA0 <= addr <= 0xFEFF }
  predicate InAudio(addr: int) { 0xFF10 <= addr <= 0xFF3F }
  predicate InExternalRam(addr: int) { 0xA000 <= addr <= 0xBFFF }

  /** The I/O addresses 0xFF00..0xFF7F with no register behind them. */
  predicate Unmapped(addr: int) {
    addr == 0xFF03 || (0xFF08 <= addr <= 0xFF0E) || (0xFF4C <= addr <= 0xFF7F)
  }

  /** The work RAM byte behind a work RAM or echo RAM address: echo RAM mirrors work RAM 0x2000 bytes lower. */
  function WramOffset(addr: int): (r: nat)
    requires InWram(addr) || InEchoRam(addr)
    ensures r < WramSize
    ensures InEchoRam(addr) ==> r == WramOffset(addr - 0x2000)
  {
    if addr <= WramEnd then addr - WramStart else addr - EchoRamStart
  }

  function HramOffset(addr: int): (r: nat)
    requires InHram(addr)
    ensures r < HramSize
  {
    addr - HramStart
  }

  /**
   * Addresses a read can reach without a panic. External RAM goes to the ROM-only controller,
   * whose 32 KiB array it overruns; 0xFF46 is left to the caller.
   */
  predicate Readable(addr: Address) {
    !InExternalRam(addr) && addr != DmaRegister
  }

  /** The byte a read of `addr` returns. */
  function Peek(s: MapState, addr: Address): bv8
    requires WellSized(s) && Readable(addr)
  {
    if addr <= 0x7FFF then s.rom[addr]
    else if addr <= VramEnd then s.vram[VramOffset(addr)]
    else if addr <= EchoRamEnd then s.wram[WramOffset(addr)]
    else if addr <= OamEnd then s.oam[OamOffset(addr)]
    else if addr <= 0xFEFF then 0xFF
    else if addr == 0xFFFF then s.interruptEnable
    else if addr >= HramStart then s.hram[HramOffset(addr)]
    else PeekIo(s, addr)
  }

  /** Reads of the I/O registers 0xFF00..0xFF7F; audio and unmapped ones read as 0. */
  function PeekIo(s: MapState, addr: Address): bv8
    requires WellSized(s) && 0xFF00 <= addr < 0xFF80 && addr != DmaRegister
  {
    if 0xFF04 <= addr <= 0xFF07 then PeekTimer(s.timer, addr)
    else if 0xFF40 <= addr <= 0xFF4B then s.gpu[RegisterIndex(addr)]
    else if addr == 0xFF00 then JoypadByte(s.joypadSelected, s.buttons)
    else if addr == 0xFF01 then s.serial.data
    else if addr == 0xFF02 then s.serial.control
    else if addr == 0xFF0F then s.interruptFlag
    else 0
  }

  /** DIV, TIMA, TMA and TAC. */
  function PeekTimer(t: TimerState, addr: Address): bv8
    requires 0xFF04 <= addr <= 0xFF07
  {
    match addr
    case 0xFF04 => t.divider
    case 0xFF05 => t.counter
    case 0xFF06 => t.modulo
    case 0xFF07 => t.control
  }

  /**
   * The state after a write of `value` to `addr`. ROM and external RAM writes go to the
   * ROM-only controller, which drops them.
   */
  function Poke(s: MapState, addr: Address, value: bv8): (r: MapState)
    requires WellSized(s) && addr != DmaRegister
    ensures WellSized(r)
  {
    if addr <= 0x7FFF then s
    else if addr <= VramEnd then s.(vram := s.vram[VramOffset(addr) := value])
    else if addr <= 0xBFFF then s
    else if addr <= EchoRamEnd then s.(wram := s.wram[WramOffset(addr) := value])
    else if addr <= OamEnd then s.(oam := s.oam[OamOffset(addr) := value])
    else if addr <= 0xFEFF then s
    else if addr == 0xFFFF then s.(interruptEnable := value)
    else if addr >= HramStart then s.(hram := s.hram[HramOffset(addr) := value])
    else PokeIo(s, addr, value)
  }

  /** Writes of the I/O registers; LY, audio and unmapped addresses drop the write. */
  function PokeIo(s: MapState, addr: Address, value: bv8): (r: MapState)
    requires WellSized(s) && 0xFF00 <= addr < 0xFF80 && addr != DmaRegister
    ensures WellSized(r)
  {
    if 0xFF04 <= addr <= 0xFF07 then s.(timer := PokeTimer(s.timer, addr, value))
    else if 0xFF40 <= addr <= 0xFF4B then s.(gpu := PokeLcd(s.gpu, addr, value))
    else if addr == 0xFF00 then s.(joypadSelected := Selection(value))
    else if addr == 0xFF01 then s.(serial := s.serial.(data := value))
    else if addr == 0xFF02 then s.(serial := s.serial.(control := value))
    else if addr == 0xFF0F then s.(interruptFlag := value)
    else s
  }

  function PokeTimer(t: TimerState, addr: Address, value: bv8): TimerState
    requires 0xFF04 <= addr <= 0xFF07
  {
    match addr
    case 0xFF04 => t.(divider := value)
    case 0xFF05 => t.(counter := value)
    case 0xFF06 => t.(modulo := value)
    case 0xFF07 => t.(control := value)
  }

  /** LY (0xFF44) is read-only: a write to it is dropped. */
  function PokeLcd(g: seq<bv8>, addr: Address, value: bv8): (r: seq<bv8>)
    requires |g| == RegisterCount && 0xFF40 <= addr <= 0xFF4B && addr != DmaRegister
    ensures |r| == RegisterCount
    ensures addr == 0xFF44 ==> r == g
    ensures addr != 0xFF44 ==> r[RegisterIndex(addr)] == value
    ensures forall i :: 0 <= i < RegisterCount && i != RegisterIndex(addr) ==> r[i] == g[i]
  {
    if addr == 0xFF44 then g else g[RegisterIndex(addr) := value]
  }

  /** Two addresses name the same byte of storage: they are equal, or echo RAM mirrors one onto the other. */
  predicate SameCell(a: Address, b: Address) {
    a == b || ((InWram(a) || InEchoRam(a)) && (InWram(b) || InEchoRam(b)) && WramOffset(a) == WramOffset(b))
  }

  /** The I/O registers that hold whatever was last written to them. */
  predicate PlainRegister(addr: Address) {
    addr == 0xFF01 || addr == 0xFF02 || (0xFF04 <= addr <= 0xFF07) || addr == 0xFF0F
    || (0xFF40 <= addr <= 0xFF4B && addr != 0xFF44 && addr != DmaRegister)
  }

  /** Addresses that read back the last byte written: the RAMs, the plain registers and IE. */
  predicate Stores(addr: Address) {
    InVram(addr) || InWram(addr) || InEchoRam(addr) || InOam(addr) || InHram(addr)
    || PlainRegister(addr) || addr == 0xFFFF
  }

  /** Addresses whose writes are dropped: ROM, external RAM, the prohibited area, audio, unmapped I/O and LY. */
  predicate Ignored(addr: Address) {
    addr <= 0x7FFF || InExternalRam(addr) || InProhibited(addr) || InAudio(addr) || Unmapped(addr)
    || addr == 0xFF44
  }

  /** Two neighbouring addresses never share a cell, the mirror included. */
  lemma NextIsAnotherCell(addr: Address)
    ensures !SameCell(addr, Next(addr))
  {
  }

  /** Apart from the joypad register and the DMA register, every address either stores or ignores a write, never both. */
  lemma AddressClasses(addr: Address)
    requires addr != 0xFF00 && addr != DmaRegister
    ensures Stores(addr) != Ignored(addr)
  {
  }

  /** Echo RAM reads and writes work RAM 0x2000 bytes lower. */
  lemma EchoMirrorsWram(s: MapState, addr: Address, value: bv8)
    requires WellSized(s) && InEchoRam(addr)
    ensures Peek(s, addr) == Peek(s, addr - 0x2000)
    ensures Poke(s, addr, value) == Poke(s, addr - 0x2000, value)
  {
  }

  /** A storing address reads back what was written to it. */
  lemma ReadBack(s: MapState, addr: Address, value: bv8)
    requires WellSized(s) && Stores(addr)
    ensures Peek(Poke(s, addr, value), addr) == value
  {
    if PlainRegister(addr) {
      ReadBackIo(s, addr, value);
    }
  }

  lemma ReadBackIo(s: MapState, addr: Address, value: bv8)
    requires WellSized(s) && PlainRegister(addr)
    ensures Peek(Poke(s, addr, value), addr) == value
  {
    assert Peek(Poke(s, addr, value), addr) == PeekIo(PokeIo(s, addr, value), addr);
  }

  /** A write to an ignoring address leaves every byte as it was. */
  lemma WriteIgnored(s: MapState, addr: Address, value: bv8)
    requires WellSized(s) && Ignored(addr)
    ensures Poke(s, addr, value) == s
  {
  }

  /** Writing the joypad register selects a button group; reading it back shows that group's buttons. */
  lemma JoypadSelect(s: MapState, value: bv8)
    requires WellSized(s)
    ensures Peek(Poke(s, 0xFF00, value), 0xFF00) == JoypadByte(Selection(value), s.buttons)
  {
  }

  /** The prohibited area reads 0xFF; audio and unmapped registers read 0. */
  lemma FixedReads(s: MapState, addr: Address)
    requires WellSized(s)
    ensures InProhibited(addr) ==> Peek(s, addr) == 0xFF
    ensures (InAudio(addr) || Unmapped(addr)) ==> Peek(s, addr) == 0
  {
  }

  /** A write changes what no other cell reads. */
  lemma PokeFrame(s: MapState, addr: Address, value: bv8, other: Address)
    requires WellSized(s) && addr != DmaRegister && Readable(other)
    requires !SameCell(addr, other) && other != 0xFF00
    ensures Peek(Poke(s, addr, value), other) == Peek(s, other)
  {
    if Ignored(addr) {
      WriteIgnored(s, addr, value);
    } else if 0xFF00 <= addr < 0xFF80 {
      PokeIoFrame(s, addr, value, other);
    } else {
      var t := Poke(s, addr, value);
      assert t.(vram := s.vram, wram := s.wram, oam := s.oam, hram := s.hram, interruptEnable := s.interruptEnable) == s;
      PeekMemoryFrame(s, t, other);
    }
  }

  /** Reads of a cell depend only on that cell: the RAM arrays at the cell's own offset, or one register. */
  lemma PeekMemoryFrame(s: MapState, t: MapState, other: Address)
    requires WellSized(s) && WellSized(t) && Readable(other)
    requires t.(vram := s.vram, wram := s.wram, oam := s.oam, hram := s.hram, interruptEnable := s.interruptEnable) == s
    requires InVram(other) ==> t.vram[VramOffset(other)] == s.vram[VramOffset(other)]
    requires InWram(other) || InEchoRam(other) ==> t.wram[WramOffset(other)] == s.wram[WramOffset(other)]
    requires InOam(other) ==> t.oam[OamOffset(other)] == s.oam[OamOffset(other)]
    requires InHram(other) ==> t.hram[HramOffset(other)] == s.hram[HramOffset(other)]
    requires other == 0xFFFF ==> t.interruptEnable == s.interruptEnable
    ensures Peek(t, other) == Peek(s, other)
  {
    if 0xFF00 <= other < 0xFF80 {
      assert Peek(t, other) == PeekIo(t, other) && Peek(s, other) == PeekIo(s, other);
    }
  }

  /** An I/O write changes no other cell. */
  lemma PokeIoFrame(s: MapState, addr: Address, value: bv8, other: Address)
    requires WellSized(s) && 0xFF00 <= addr < 0xFF80 && addr != DmaRegister && Readable(other)
    requires addr != other && other != 0xFF00
    ensures Peek(Poke(s, addr, value), other) == Peek(s, other)
  {
    var t := PokeIo(s, addr, value);
    assert Poke(s, addr, value) == t;
    if 0xFF00 <= other < 0xFF80 {
      assert Peek(t, other) == PeekIo(t, other) && Peek(s, other) == PeekIo(s, other);
      PeekIoFrame(s, addr, value, other);
    } else {
      assert t.(timer := s.timer, gpu := s.gpu, joypadSelected := s.joypadSelected,
                serial := s.serial, interruptFlag := s.interruptFlag) == s;
    }
  }

  /** Among the I/O registers, a write changes only the register written. */
  lemma PeekIoFrame(s: MapState, addr: Address, value: bv8, other: Address)
    requires WellSized(s) && 0xFF00 <= addr < 0xFF80 && addr != DmaRegister
    requires 0xFF00 < other < 0xFF80 && other != DmaRegister && addr != other
    ensures PeekIo(PokeIo(s, addr, value), other) == PeekIo(s, other)
  {
    if 0xFF04 <= addr <= 0xFF07 && 0xFF04 <= other <= 0xFF07 {
      TimerRegisterFrame(s.timer, addr, value, other);
    }
  }

  lemma TimerRegisterFrame(t: TimerState, addr: Address, value: bv8, other: Address)
    requires 0xFF04 <= addr <= 0xFF07 && 0xFF04 <= other <= 0xFF07 && addr != other
    ensures PeekTimer(PokeTimer(t, addr, value), other) == PeekTimer(t, other)
  {
  }

  /**
   * The components behind the decoder, which the memory bus and the older memory model both
   * own: the cartridge controller, the video unit, timer, interrupt registers, serial port,
   * joypad, and the two RAM arrays.
   */
  class Devices {
    var mbc: R.RomOnly
    var gpu: G.Gpu
    var timer: T.Timer
    var interrupts: I.Interrupts
    var serial: SerialTransfer
    var joypad: J.Joypad
    var wram: array<bv8>
    var hram: array<bv8>

    predicate Valid()
      reads this, mbc, gpu, gpu.vram, gpu.oam, joypad
    {
      mbc.Valid() && gpu.Valid() && joypad.Valid()
      && wram.Length == WramSize && hram.Length == HramSize
      && wram != hram && wram != gpu.vram.data && wram != gpu.oam.data && wram != mbc.rom
      && hram != gpu.vram.data && hram != gpu.oam.data && hram != mbc.rom
      && gpu.vram.data != mbc.rom && gpu.oam.data != mbc.rom
    }

    /** Every byte the decoder can reach, read out of the components. */
    function State(): (r: MapState)
      reads this, mbc, mbc.rom, gpu, gpu.vram, gpu.vram.data, gpu.oam, gpu.oam.data
      reads timer, interrupts, serial, joypad, joypad.buttons, wram, hram
      requires Valid()
      ensures WellSized(r)
    {
      MapState(mbc.rom[..], gpu.vram.data[..], wram[..], gpu.oam.data[..], hram[..],
               joypad.selected, joypad.buttons[..], serial.State(), timer.State(),
               interrupts.flag, interrupts.enable, gpu.Registers())
    }

    /** Fresh components around a ROM-only controller; both RAMs are zero-filled. */
    constructor (mbc: R.RomOnly)
      requires mbc.Valid()
      ensures Valid() && this.mbc == mbc
      ensures State() == PowerOn(mbc.rom[..])
    {
      var g := new G.Gpu();
      var p := new J.Joypad();
      var w := new bv8[WramSize](_ => 0);
      var h := new bv8[HramSize](_ => 0);
      assert w[..] == seq(WramSize, _ => 0) && h[..] == seq(HramSize, _ => 0);
      this.mbc, gpu, joypad, wram, hram := mbc, g, p, w, h;
      timer := new T.Timer();
      interrupts := new I.Interrupts();
      serial := new SerialTransfer();
    }

    /** The timer and the serial port advance; the scanline machine is not part of this model. */
    method Update(cycles: nat, clockSpeed: nat)
      requires Valid()
      modifies timer, interrupts`flag, serial
      ensures Valid() && State() == Advance(old(State()), cycles, clockSpeed)
    {
      timer.Update(interrupts, cycles, clockSpeed);
      serial.Update();
    }

    /** The read side of the decoder: returns what `Peek` says the address holds. */
    method Read8(addr: Address) returns (v: bv8)
      requires Valid() && Readable(addr)
      ensures v == Peek(State(), addr)
    {
      if addr <= 0x7FFF {
        v := mbc.Read8(addr);
      } else if addr <= VramEnd {
        v := gpu.vram.Read8(addr);
      } else if addr <= EchoRamEnd {
        v := wram[WramOffset(addr)];
      } else if addr <= OamEnd {
        v := gpu.oam.Read8(addr);
      } else if addr <= 0xFEFF {
        v := 0xFF;
      } else if addr == 0xFFFF {
        v := interrupts.enable;
      } else if addr >= HramStart {
        v := hram[HramOffset(addr)];
      } else if addr == 0xFF00 {
        v := joypad.GetByte();
      } else {
        v := ReadIo(addr);
      }
    }

    /** The I/O registers other than the joypad's. */
    function ReadIo(addr: Address): (v: bv8)
      reads this, gpu, gpu.vram, gpu.oam, mbc, mbc.rom, gpu.vram.data, gpu.oam.data
      reads timer, interrupts, serial, joypad, joypad.buttons, wram, hram
      requires Valid() && 0xFF00 < addr < 0xFF80 && addr != DmaRegister
      ensures v == PeekIo(State(), addr)
    {
      if 0xFF04 <= addr <= 0xFF07 then PeekTimer(timer.State(), addr)
      else if 0xFF40 <= addr <= 0xFF4B then gpu.Registers()[RegisterIndex(addr)]
      else if addr == 0xFF01 then serial.data
      else if addr == 0xFF02 then serial.control
      else if addr == 0xFF0F then interrupts.flag
      else 0
    }

    /** The write side of the decoder: the components end up as `Poke` says. */
    method Write8(addr: Address, value: bv8)
      requires Valid() && addr != DmaRegister
      modifies gpu, gpu.vram.data, gpu.oam.data, timer, interrupts, serial, joypad, wram, hram
      ensures Valid() && State() == Poke(old(State()), addr, value)
      ensures gpu.vram == old(gpu.vram) && gpu.oam == old(gpu.oam)
    {
      if addr <= 0x7FFF {
        mbc.Write8(addr, value);
      } else if addr <= VramEnd {
        gpu.vram.Write8(addr, value);
      } else if addr <= 0xBFFF {
        mbc.Write8(addr, value);
      } else if addr <= EchoRamEnd {
        WriteRam(wram, WramOffset(addr), value);
      } else if addr <= OamEnd {
        gpu.oam.Write8(addr, value);
      } else if addr <= 0xFEFF {
      } else if addr == 0xFFFF {
        interrupts.enable := value;
      } else if addr >= HramStart {
        WriteRam(hram, HramOffset(addr), value);
      } else {
        WriteIo(addr, value);
      }
    }

    /** One byte of work RAM or high RAM. */
    method WriteRam(ram: array<bv8>, offset: nat, value: bv8)
      requires Valid() && (ram == wram || ram == hram) && offset < ram.Length
      modifies ram
      ensures Valid()
      ensures ram == wram ==> State() == old(State()).(wram := old(State()).wram[offset := value])
      ensures ram == hram ==> State() == old(State()).(hram := old(State()).hram[offset := value])
    {
      ram[offset] := value;
    }

    /** The I/O registers 0xFF00..0xFF7F other than the DMA register. */
    method WriteIo(addr: Address, value: bv8)
      requires Valid() && 0xFF00 <= addr < 0xFF80 && addr != DmaRegister
      modifies gpu, timer, interrupts, serial, joypad
      ensures Valid() && State() == PokeIo(old(State()), addr, value)
      ensures gpu.vram == old(gpu.vram) && gpu.oam == old(gpu.oam)
    {
      if addr == 0xFF00 {
        joypad.SetByte(value);
      } else if addr == 0xFF01 {
        serial.data := value;
      } else if addr == 0xFF02 {
        serial.control := value;
      } else if 0xFF04 <= addr <= 0xFF07 {
        WriteTimer(addr, value);
      } else if addr == 0xFF0F {
        interrupts.flag := value;
      } else if 0xFF40 <= addr <= 0xFF4B {
        WriteGpu(addr, value);
      }
    }
  
    /** DIV, TIMA, TMA and TAC are stored as written. */
    method WriteTimer(addr: Address, value: bv8)
      requires 0xFF04 <= addr <= 0xFF07
      modifies timer
      ensures timer.State() == PokeTimer(old(timer.State()), addr, value)
    {
      match addr {
        case 0xFF04 => timer.divider := value;
        case 0xFF05 => timer.counter := value;
        case 0xFF06 => timer.modulo := value;
        case 0xFF07 => timer.control := value;
      }
    }

    /** The LCD registers; a write to LY is dropped. */
    method WriteGpu(addr: Address, value: bv8)
      requires 0xFF40 <= addr <= 0xFF4B && addr != DmaRegister
      modifies gpu
      ensures gpu.Registers() == PokeLcd(old(gpu.Registers()), addr, value)
      ensures gpu.vram == old(gpu.vram) && gpu.oam == old(gpu.oam)
    {
      match addr {
        case 0xFF40 => gpu.lcdControl := value;
        case 0xFF41 => gpu.lcdStatus := value;
        case 0xFF42 => gpu.viewportY := value;
        case 0xFF43 => gpu.viewportX := value;
        case 0xFF44 =>
        case 0xFF45 => gpu.lyCompare := value;
        case 0xFF47 => gpu.bgPaletteData := value;
        case 0xFF48 => gpu.objPalette0Data := value;
        case 0xFF49 => gpu.objPalette1Data := value;
        case 0xFF4A => gpu.windowY := value;
        case 0xFF4B => gpu.windowX := value;
      }
    }
  }
}

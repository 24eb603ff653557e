/**
 * Choosing the memory bank controller for a cartridge. Only two kinds exist in the emulator:
 * the ROM-only controller and MBC1, whose constructor and accessors are all unimplemented.
 */
module Mbc {
  import opened Wrappers
  import opened Cartridge
  import R = RomOnly

  /** The controller `from_cartridge` picks, with the settings it forwards to it. */
  datatype ControllerKind = RomOnlyController | Mbc1Controller(ram: bool, battery: bool)

  /**
   * The choice made by `from_cartridge`. The MBC3 arm is unimplemented in the source and
   * panics, so it is excluded; an unsupported type yields no controller.
   */
  function ControllerFor(t: CartridgeType): (r: Option<ControllerKind>)
    requires !t.MBC3?
    ensures t == RomOnly <==> r == Some(RomOnlyController)
    ensures t.MBC1? <==> r.Some? && r.value.Mbc1Controller?
    ensures t.MBC1? ==> r == Some(Mbc1Controller(t.ram, t.battery))
    ensures t.Unsupported? <==> r == None
  {
    match t
    case RomOnly => Some(RomOnlyController)
    case MBC1(ram, battery) => Some(Mbc1Controller(ram, battery))
    case Unsupported(_) => None
  }

  /**
   * `from_cartridge` for the cartridges the emulator can run: a ROM-only image becomes a
   * ROM-only controller holding the image, an unsupported type gives none. Building an MBC1
   * panics in the source, so an MBC1 cartridge is excluded here as well.
   */
  method FromCartridge(cart: Cartridge) returns (mbc: Option<R.RomOnly>)
    requires |cart.data| > 0x147
    requires cart.CartType() == RomOnly || cart.CartType().Unsupported?
    requires cart.CartType() == RomOnly ==> |cart.data| <= R.RomSize
    ensures mbc.Some? <==> ControllerFor(cart.CartType()) == Some(RomOnlyController)
    ensures mbc.Some? ==> fresh(mbc.value) && fresh(mbc.value.rom) && mbc.value.Valid()
    ensures mbc.Some? ==> mbc.value.rom[..] == cart.data + seq(R.RomSize - |cart.data|, _ => 0)
  {
    match cart.CartType() {
      case RomOnly =>
        var controller := new R.RomOnly(cart.data);
        mbc := Some(controller);
      case Unsupported(_) =>
        mbc := None;
    }
  }
}

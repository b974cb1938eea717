/** The cartridge without a memory bank controller
    (rust/src/cartridge/mbc/mbc0.rs): a flat ROM read at the address itself,
    no registers and no RAM. A ROM index past the end of the image panics in
    the source; that is `None` here. */
module Mbc0 {
  import opened Bits

  datatype Mbc0 = Mbc0(rom: seq<u8>)

  /** `read_rom`: the byte at `addr` of the image. */
  function ReadRom(m: Mbc0, addr: u16): (v: Option<u8>)
    ensures v.Some? <==> addr < |m.rom|
    ensures v.Some? ==> v.value == m.rom[addr]
  {
    if addr < |m.rom| then Some(m.rom[addr]) else None
  }

  /** `write_rom`: there is no register to write, so no ROM read changes. */
  function WriteRom(m: Mbc0, addr: u16, value: u8): (r: Mbc0)
    ensures forall a: u16 :: ReadRom(r, a) == ReadRom(m, a)
  {
    m
  }

  /** `read_ram`: there is no RAM, the bus floats high. */
  function ReadRam(m: Mbc0, addr: u16): (v: u8)
    ensures v == 0xFF
  {
    0xFF
  }

  /** `write_ram`: there is no RAM, so no ROM read changes. */
  function WriteRam(m: Mbc0, addr: u16, value: u8): (r: Mbc0)
    ensures forall a: u16 :: ReadRom(r, a) == ReadRom(m, a)
  {
    m
  }

  /** Any sequence of writes, to either area, leaves every read as it was:
      ROM reads give the image and RAM reads 0xFF. */
  lemma {:induction false} WritesChangeNothing(m: Mbc0, writes: seq<(bool, u16, u8)>, addr: u16)
    ensures var m' := ApplyWrites(m, writes);
      ReadRom(m', addr) == ReadRom(m, addr) && ReadRam(m', addr) == 0xFF
  {
    if writes != [] {
      WritesChangeNothing(m, writes[..|writes| - 1], addr);
    }
  }

  /** Writes in order; `true` selects `write_rom`, `false` `write_ram`. */
  function ApplyWrites(m: Mbc0, writes: seq<(bool, u16, u8)>): Mbc0
  {
    if writes == [] then m
    else
      var w := writes[|writes| - 1];
      var before := ApplyWrites(m, writes[..|writes| - 1]);
      if w.0 then WriteRom(before, w.1, w.2) else WriteRam(before, w.1, w.2)
  }
}

/** The older flat cartridge (src/cartridge.rs): the ROM image read and
    written at the address itself, with no banking and no write protection,
    and 8 KiB of external RAM at A000-BFFF. An index past the end of the ROM
    vector panics in the source; that is `None` or `false` here. */
module FlatCartridge {
  import opened Bits

  predicate CartAddress(addr: u16)
  {
    addr < 0x8000 || 0xA000 <= addr < 0xC000
  }

  class Cartridge {
    var romData: seq<u8>
    var externalRam: array<u8>

    predicate Valid()
      reads this
    {
      externalRam.Length == 0x2000
    }

    constructor (rom: seq<u8>)
      ensures Valid() && fresh(externalRam) && romData == rom
      ensures forall i :: 0 <= i < 0x2000 ==> externalRam[i] == 0
    {
      romData := rom;
      externalRam := new u8[0x2000](_ => 0);
    }

    /** `read`: ROM at the address itself, RAM at `addr - 0xA000`. */
    function Read(addr: u16): (v: Option<u8>)
      requires Valid() && CartAddress(addr)
      reads this, externalRam
      ensures addr < 0x8000 ==> (v.Some? <==> addr < |romData|) && (v.Some? ==> v.value == romData[addr])
      ensures addr >= 0xA000 ==> v == Some(externalRam[addr - 0xA000])
    {
      if addr < 0x8000 then
        if addr < |romData| then Some(romData[addr]) else None
      else Some(externalRam[addr - 0xA000])
    }

    /** `write`: overwrites the ROM image or the RAM; `false` is the panic on
        a ROM index past the image, which changes nothing. A successful write
        reads back and leaves every other address as it was. */
    method Write(addr: u16, value: u8) returns (ok: bool)
      requires Valid() && CartAddress(addr)
      modifies this`romData, externalRam
      ensures Valid()
      ensures ok <==> addr >= 0xA000 || addr < |old(romData)|
      ensures ok ==> Read(addr) == Some(value)
      ensures forall a: u16 :: CartAddress(a) && a != addr ==> Read(a) == old(Read(a))
    {
      ok := true;
      if addr < 0x8000 {
        if addr < |romData| {
          romData := romData[addr := value];
        } else {
          ok := false;
        }
      } else {
        externalRam[addr - 0xA000] := value;
      }
    }
  }
}

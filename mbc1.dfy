/** The MBC1 memory bank controller (src/cartridge/mbc/mbc1.rs). Four write
    ranges in the ROM area set the controller's registers: RAM enable, a
    5-bit ROM bank register that never holds 0, a 2-bit upper/RAM bank
    register, and the banking mode. In the simple mode 0000-3FFF shows bank 0
    and RAM bank 0 is used; the advanced mode lets the 2-bit register select
    them too. Bank numbers are reduced modulo the number of banks. */
module Mbc1 {
  import opened Bits

  /** The controller's registers. */
  datatype Mbc1Regs = Mbc1Regs(ramEnabled: bool, bankReg1: u8, bankReg2: u8, advancedMode: bool)

  /** Registers as the source keeps them: a 5-bit bank in 1..31 and a 2-bit one. */
  predicate RegsOk(r: Mbc1Regs)
  {
    1 <= r.bankReg1 < 32 && r.bankReg2 < 4
  }

  /** The registers `new` sets. */
  const InitialRegs := Mbc1Regs(false, 0x01, 0x00, false)

  /** `0b1 << (rom[0x148] + 1)` as a `usize`. The `+ 1` on the header byte
      overflows at 0xFF and the shift overflows from 64 on; both panic, which
      is `None`. */
  function RomBankCount(code: u8): (n: Option<nat>)
    ensures n.Some? <==> code < 63
    ensures n.Some? ==> n.value == Pow2(code + 1) && n.value >= 2
  {
    if code < 63 then Some(Pow2(code + 1)) else None
  }

  /** The RAM size code at 0x149: 0 banks, 1, 4, 16 or 8 banks of 8 KiB; any
      other code panics (`None`). */
  function RamBankCount(code: u8): (n: Option<nat>)
    ensures n.Some? <==> code in {0, 2, 3, 4, 5}
    ensures n.Some? ==> n.value <= 16
  {
    match code
    case 0x00 => Some(0)
    case 0x02 => Some(1)
    case 0x03 => Some(4)
    case 0x04 => Some(16)
    case 0x05 => Some(8)
    case _ => None
  }

  /** `Mbc1::new`'s header decoding: both counts, or `None` where it panics
      (an image too short to hold 0x149 included). */
  function Geometry(rom: seq<u8>): (g: Option<(nat, nat)>)
    ensures g.Some? <==> |rom| > 0x149 && RomBankCount(rom[0x148]).Some? && RamBankCount(rom[0x149]).Some?
    ensures g.Some? ==> g.value == (RomBankCount(rom[0x148]).value, RamBankCount(rom[0x149]).value)
  {
    if |rom| <= 0x149 then None
    else
      match (RomBankCount(rom[0x148]), RamBankCount(rom[0x149]))
      case (Some(r), Some(a)) => Some((r, a))
      case _ => None
  }

  /** The ROM bank `read_rom` uses at `addr`: for 0000-3FFF bank 0, or
      `(reg2 << 5) mod banks` in advanced mode; for 4000-7FFF
      `((reg2 << 5) | reg1) mod banks`. */
  function RomBank(r: Mbc1Regs, romBanks: nat, addr: u16): (bank: nat)
    requires RegsOk(r) && romBanks > 0 && addr < 0x8000
    ensures bank < romBanks
    ensures addr < 0x4000 && !r.advancedMode ==> bank == 0
    ensures addr < 0x4000 && r.advancedMode ==> bank == r.bankReg2 * 32 % romBanks
    ensures addr >= 0x4000 ==> bank == (r.bankReg2 * 32 + r.bankReg1) % romBanks
  {
    var upper: u8 := r.bankReg2 * 32;
    if addr < 0x4000 then
      (if r.advancedMode then upper % romBanks else 0)
    else
      assert Pow2(5) == 32;
      OrDisjoint(r.bankReg2, r.bankReg1, 5);
      Or8(upper, r.bankReg1) % romBanks
  }

  /** The index into the ROM image: bank * 0x4000 plus the offset within
      the 16 KiB window. */
  function RomIndex(r: Mbc1Regs, romBanks: nat, addr: u16): (i: nat)
    requires RegsOk(r) && romBanks > 0 && addr < 0x8000
    ensures i / 0x4000 == RomBank(r, romBanks, addr) && i % 0x4000 == addr % 0x4000
    ensures i < romBanks * 0x4000
  {
    var bank := RomBank(r, romBanks, addr);
    var offset := if addr < 0x4000 then addr as int else addr - 0x4000;
    DivUnique(addr, 0x4000, if addr < 0x4000 then 0 else 1, offset);
    DivUnique(bank * 0x4000 + offset, 0x4000, bank, offset);
    bank * 0x4000 + offset
  }

  /** `write_rom`: 0000-1FFF enables RAM iff the low nibble is 0xA; 2000-3FFF
      sets the 5-bit bank, 0 meaning 1; 4000-5FFF sets the 2-bit bank;
      6000-7FFF sets the mode from bit 0. */
  function WriteRegs(r: Mbc1Regs, addr: u16, value: u8): (r': Mbc1Regs)
    requires addr < 0x8000
    ensures RegsOk(r) ==> RegsOk(r')
    ensures addr < 0x2000 ==> r' == r.(ramEnabled := value % 0x10 == 0x0A)
    ensures 0x2000 <= addr < 0x4000 ==> r' == r.(bankReg1 := if value % 0x20 == 0 then 1 else value % 0x20)
    ensures 0x4000 <= addr < 0x6000 ==> r' == r.(bankReg2 := value % 4)
    ensures 0x6000 <= addr ==> r' == r.(advancedMode := value % 2 != 0)
  {
    if addr < 0x2000 then r.(ramEnabled := value % 0x10 == 0x0A)
    else if addr < 0x4000 then r.(bankReg1 := if value % 0x20 == 0 then 0x01 else value % 0x20)
    else if addr < 0x6000 then r.(bankReg2 := value % 4)
    else r.(advancedMode := value % 2 != 0)
  }

  /** The index into RAM `read_ram` and `write_ram` use, or `None` when RAM
      is disabled or the cartridge has none: bank `reg2 mod banks` in the
      advanced mode, else 0, then the offset within the 8 KiB window. */
  function RamIndex(r: Mbc1Regs, ramBanks: nat, addr: u16): (i: Option<nat>)
    requires 0xA000 <= addr < 0xC000
    ensures i.Some? <==> r.ramEnabled && ramBanks > 0
    ensures i.Some? ==> i.value < ramBanks * 0x2000 && i.value % 0x2000 == addr - 0xA000
    ensures i.Some? && !r.advancedMode ==> i.value == addr - 0xA000
  {
    if !r.ramEnabled || ramBanks == 0 then None
    else
      var bank := if r.advancedMode then r.bankReg2 % ramBanks else 0;
      DivUnique(bank * 0x2000 + (addr - 0xA000), 0x2000, bank, addr - 0xA000);
      Some(bank * 0x2000 + (addr - 0xA000))
  }

  /** Selecting a ROM bank through 2000-3FFF in the simple mode makes
      4000-7FFF show that bank (0 read as 1), reduced modulo the bank count,
      while 0000-3FFF keeps showing bank 0. */
  lemma SelectRomBank(r: Mbc1Regs, romBanks: nat, value: u8, addr: u16)
    requires RegsOk(r) && romBanks > 0 && !r.advancedMode && r.bankReg2 == 0
    ensures var r' := WriteRegs(r, 0x2000, value);
      RomBank(r', romBanks, 0x4000 + addr % 0x4000) == (if value % 0x20 == 0 then 1 else value % 0x20) % romBanks
      && RomBank(r', romBanks, addr % 0x4000) == 0
  {
  }

  /** In the advanced mode the 2-bit register picks the RAM bank (modulo the
      bank count) and the upper bits of both ROM banks. */
  lemma AdvancedModeBanks(r: Mbc1Regs, romBanks: nat, ramBanks: nat, addr: u16)
    requires RegsOk(r) && romBanks > 0 && r.advancedMode && r.ramEnabled && ramBanks > 0
    requires 0xA000 <= addr < 0xC000
    ensures RomBank(r, romBanks, 0) == r.bankReg2 * 32 % romBanks
    ensures RamIndex(r, ramBanks, addr).value / 0x2000 == r.bankReg2 % ramBanks
  {
    var bank := r.bankReg2 % ramBanks;
    DivUnique(bank * 0x2000 + (addr - 0xA000), 0x2000, bank, addr - 0xA000);
  }

  /** The controller as `new` builds it, over a ROM image. */
  class Mbc1 {
    const rom: seq<u8>
    const numOfRomBanks: nat
    const ram: array<u8>
    const numOfRamBanks: nat
    var ramEnabled: bool
    var bankReg1: u8
    var bankReg2: u8
    var advancedMode: bool
    const ramPersistent: bool

    function Regs(): Mbc1Regs
      reads this
    {
      Mbc1Regs(ramEnabled, bankReg1, bankReg2, advancedMode)
    }

    predicate Valid()
      reads this
    {
      RegsOk(Regs()) && numOfRomBanks > 0 && ram.Length == numOfRamBanks * 0x2000
    }

    /** `Mbc1::new` on an image whose header it accepts (the cartridge
        reports the others as a failed load). */
    constructor (romData: seq<u8>, persistent: bool)
      requires Geometry(romData).Some?
      ensures Valid() && fresh(ram)
      ensures rom == romData && ramPersistent == persistent
      ensures (numOfRomBanks, numOfRamBanks) == Geometry(romData).value
      ensures Regs() == InitialRegs
      ensures forall i :: 0 <= i < ram.Length ==> ram[i] == 0
    {
      var (romBanks, ramBanks) := Geometry(romData).value;
      rom := romData;
      numOfRomBanks := romBanks;
      ram := new u8[ramBanks * 0x2000](_ => 0);
      numOfRamBanks := ramBanks;
      ramEnabled, bankReg1, bankReg2, advancedMode := false, 0x01, 0x00, false;
      ramPersistent := persistent;
    }

    /** `read_rom`: the byte at `RomIndex`; an index past the end of the
        image panics (`None`). */
    function ReadRom(addr: u16): (v: Option<u8>)
      requires Valid() && addr < 0x8000
      reads this
      ensures var i := RomIndex(Regs(), numOfRomBanks, addr);
        (v.Some? <==> i < |rom|) && (v.Some? ==> v.value == rom[i])
    {
      var i := RomIndex(Regs(), numOfRomBanks, addr);
      if i < |rom| then Some(rom[i]) else None
    }

    method WriteRom(addr: u16, value: u8)
      requires Valid() && addr < 0x8000
      modifies this`ramEnabled, this`bankReg1, this`bankReg2, this`advancedMode
      ensures Valid()
      ensures Regs() == WriteRegs(old(Regs()), addr, value)
    {
      if addr < 0x2000 {
        ramEnabled := value % 0x10 == 0x0A;
      } else if addr < 0x4000 {
        bankReg1 := if value % 0x20 == 0 then 0x01 else value % 0x20;
      } else if addr < 0x6000 {
        bankReg2 := value % 4;
      } else {
        advancedMode := value % 2 != 0;
      }
    }

    /** `read_ram`: 0xFF while RAM is disabled or absent. */
    function ReadRam(addr: u16): (v: u8)
      requires Valid() && 0xA000 <= addr < 0xC000
      reads this, ram
      ensures var i := RamIndex(Regs(), numOfRamBanks, addr);
        v == if i.Some? then ram[i.value] else 0xFF
    {
      var i := RamIndex(Regs(), numOfRamBanks, addr);
      if i.Some? then ram[i.value] else 0xFF
    }

    /** `write_ram`: dropped while RAM is disabled or absent. Afterwards the
        same address under the same banking reads back the value. */
    method WriteRam(addr: u16, value: u8)
      requires Valid() && 0xA000 <= addr < 0xC000
      modifies ram
      ensures Valid()
      ensures var i := RamIndex(Regs(), numOfRamBanks, addr);
        ram[..] == if i.Some? then old(ram[..])[i.value := value] else old(ram[..])
      ensures RamIndex(Regs(), numOfRamBanks, addr).Some? ==> ReadRam(addr) == value
    {
      if !ramEnabled || numOfRamBanks == 0 {
        return;
      }
      var bank := if advancedMode then bankReg2 % numOfRamBanks else 0;
      ram[bank * 0x2000 + (addr - 0xA000)] := value;
    }
  }
}

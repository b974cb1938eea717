/** The cartridge of the src/ tree (src/cartridge/mod.rs): header byte 0x147
    chooses the memory bank controller, and the bus's ROM (0000-7FFF) and
    external RAM (A000-BFFF) accesses are routed to it. The MBC0 controller
    of rust/src/cartridge/mbc/mbc0.rs stands in for the src/ one, which is
    not part of this model. */
module Cartridge {
  import opened Bits
  import M0 = Mbc0
  import M1 = Mbc1

  /** The controllers `new` can build. */
  datatype MbcKind = NoMbc | WithMbc1(persistent: bool)

  /** `new`'s match on header byte 0x147: 0x00 is MBC0, 0x01 and 0x02 a
      non-persistent MBC1, 0x03 a battery-backed MBC1; 0x08, 0x09 and every
      other type panic (`None`). */
  function SelectMbc(cartType: u8): (k: Option<MbcKind>)
    ensures k.Some? <==> cartType <= 3
    ensures cartType == 0 ==> k == Some(NoMbc)
    ensures cartType == 1 || cartType == 2 ==> k == Some(WithMbc1(false))
    ensures cartType == 3 ==> k == Some(WithMbc1(true))
  {
    match cartType
    case 0x00 => Some(NoMbc)
    case 0x01 => Some(WithMbc1(false))
    case 0x02 => Some(WithMbc1(false))
    case 0x03 => Some(WithMbc1(true))
    case _ => None
  }

  /** Whether `new` accepts an image: it must reach byte 0x147 and name a
      supported controller, and an MBC1 header must also decode. */
  predicate Loads(rom: seq<u8>)
  {
    |rom| > 0x147 && SelectMbc(rom[0x147]).Some?
    && (SelectMbc(rom[0x147]).value.WithMbc1? ==> M1.Geometry(rom).Some?)
  }

  /** The two windows the bus sends to the cartridge. */
  predicate CartAddress(addr: u16)
  {
    addr < 0x8000 || 0xA000 <= addr < 0xC000
  }

  /** The cartridge as a value: the controller and the image, bank counts
      and MBC0 fixed at load time, and what writes change, MBC1's registers
      and RAM. Without MBC1 the registers stay the initial ones and RAM is
      empty. */
  datatype CartState = CartState(kind: MbcKind, mbc0: M0.Mbc0, rom: seq<u8>, romBanks: nat, ramBanks: nat,
                                 regs: M1.Mbc1Regs, ram: seq<u8>)

  predicate CartOk(s: CartState)
  {
    s.kind.WithMbc1? ==> M1.RegsOk(s.regs) && s.romBanks > 0 && |s.ram| == s.ramBanks * 0x2000
  }

  /** `read` on values: MBC0 reads the image and 0xFF; MBC1 reads the image
      at the banked index (`None` past its end) and RAM at the banked index,
      0xFF while RAM is disabled or absent. */
  function CartRead(s: CartState, addr: u16): (v: Option<u8>)
    requires CartOk(s) && CartAddress(addr)
    ensures addr >= 0xA000 ==> v.Some?
    ensures s.kind == NoMbc ==> v == if addr < 0x8000 then M0.ReadRom(s.mbc0, addr) else Some(0xFF)
  {
    if s.kind == NoMbc then
      if addr < 0x8000 then M0.ReadRom(s.mbc0, addr) else Some(M0.ReadRam(s.mbc0, addr))
    else if addr < 0x8000 then
      var i := M1.RomIndex(s.regs, s.romBanks, addr);
      if i < |s.rom| then Some(s.rom[i]) else None
    else
      var i := M1.RamIndex(s.regs, s.ramBanks, addr);
      if i.Some? then Some(s.ram[i.value]) else Some(0xFF)
  }

  /** `write` on values: only MBC1's registers (ROM addresses) and RAM (RAM
      addresses) change. */
  function CartWrite(s: CartState, addr: u16, value: u8): (r: CartState)
    requires CartOk(s) && CartAddress(addr)
    ensures CartOk(r)
    ensures r.(regs := s.regs, ram := s.ram) == s
    ensures s.kind == NoMbc ==> r == s
    ensures addr < 0x8000 ==> r.ram == s.ram
    ensures addr >= 0xA000 ==> r.regs == s.regs
    ensures s.kind.WithMbc1? && addr < 0x8000 ==> r.regs == M1.WriteRegs(s.regs, addr, value)
  {
    if s.kind == NoMbc then
      s.(mbc0 := if addr < 0x8000 then M0.WriteRom(s.mbc0, addr, value) else M0.WriteRam(s.mbc0, addr, value))
    else if addr < 0x8000 then
      s.(regs := M1.WriteRegs(s.regs, addr, value))
    else
      var i := M1.RamIndex(s.regs, s.ramBanks, addr);
      if i.Some? then s.(ram := s.ram[i.value := value]) else s
  }

  /** A RAM write reads back wherever the controller maps it, and leaves
      every ROM read as it was; without a controller no write changes any
      read. */
  lemma CartWriteThenRead(s: CartState, addr: u16, value: u8, other: u16)
    requires CartOk(s) && CartAddress(addr) && CartAddress(other)
    ensures s.kind.WithMbc1? && addr >= 0xA000 && M1.RamIndex(s.regs, s.ramBanks, addr).Some? ==>
      CartRead(CartWrite(s, addr, value), addr) == Some(value)
    ensures addr >= 0xA000 && other < 0x8000 ==> CartRead(CartWrite(s, addr, value), other) == CartRead(s, other)
    ensures s.kind == NoMbc ==> CartRead(CartWrite(s, addr, value), other) == CartRead(s, other)
  {
  }

  class Cartridge {
    const kind: MbcKind
    var mbc0: M0.Mbc0
    const mbc1: M1.Mbc1?

    ghost predicate Valid()
      reads this, mbc1
    {
      (kind.WithMbc1? <==> mbc1 != null) && (mbc1 != null ==> mbc1.Valid())
    }

    /** The cartridge as a value. */
    ghost function State(): (s: CartState)
      reads this, mbc1, if mbc1 != null then {mbc1.ram} else {}
      ensures Valid() ==> CartOk(s)
    {
      if mbc1 == null then CartState(kind, mbc0, [], 1, 0, M1.InitialRegs, [])
      else CartState(kind, mbc0, mbc1.rom, mbc1.numOfRomBanks, mbc1.numOfRamBanks, mbc1.Regs(), mbc1.ram[..])
    }

    constructor Flat(rom: seq<u8>)
      ensures Valid() && kind == NoMbc && mbc0 == M0.Mbc0(rom)
    {
      kind := NoMbc;
      mbc0 := M0.Mbc0(rom);
      mbc1 := null;
    }

    constructor Banked(m: M1.Mbc1, persistent: bool)
      requires m.Valid()
      ensures Valid() && kind == WithMbc1(persistent) && mbc1 == m
    {
      kind := WithMbc1(persistent);
      mbc0 := M0.Mbc0([]);
      mbc1 := m;
    }

    /** `read`: ROM addresses go to `read_rom`, RAM addresses to `read_ram`;
        a ROM index past the image is `None`. */
    function Read(addr: u16): (v: Option<u8>)
      requires Valid() && CartAddress(addr)
      reads this, mbc1, if mbc1 != null then {mbc1.ram} else {}
      ensures kind == NoMbc ==> v == if addr < 0x8000 then M0.ReadRom(mbc0, addr) else Some(M0.ReadRam(mbc0, addr))
      ensures kind.WithMbc1? ==> v == if addr < 0x8000 then mbc1.ReadRom(addr) else Some(mbc1.ReadRam(addr))
      ensures v == CartRead(State(), addr)
    {
      if mbc1 == null then
        if addr < 0x8000 then M0.ReadRom(mbc0, addr) else Some(M0.ReadRam(mbc0, addr))
      else
        if addr < 0x8000 then mbc1.ReadRom(addr) else Some(mbc1.ReadRam(addr))
    }

    /** `write`: ROM addresses go to `write_rom`, RAM addresses to `write_ram`. */
    method Write(addr: u16, value: u8)
      requires Valid() && CartAddress(addr)
      modifies this`mbc0, mbc1, if mbc1 != null then {mbc1.ram} else {}
      ensures Valid()
      ensures kind == NoMbc ==> mbc0 == old(mbc0)
      ensures mbc1 != null && addr < 0x8000 ==>
        mbc1.Regs() == M1.WriteRegs(old(mbc1.Regs()), addr, value) && mbc1.ram[..] == old(mbc1.ram[..])
      ensures mbc1 != null && addr >= 0xA000 ==>
        mbc1.Regs() == old(mbc1.Regs())
        && var i := M1.RamIndex(mbc1.Regs(), mbc1.numOfRamBanks, addr);
        mbc1.ram[..] == if i.Some? then old(mbc1.ram[..])[i.value := value] else old(mbc1.ram[..])
      ensures State() == CartWrite(old(State()), addr, value)
    {
      if mbc1 == null {
        if addr < 0x8000 {
          mbc0 := M0.WriteRom(mbc0, addr, value);
        } else {
          mbc0 := M0.WriteRam(mbc0, addr, value);
        }
      } else if addr < 0x8000 {
        mbc1.WriteRom(addr, value);
      } else {
        mbc1.WriteRam(addr, value);
      }
    }
  }

  /** `Cartridge::new`: `None` where it panics. */
  method New(rom: seq<u8>) returns (c: Option<Cartridge>)
    ensures c.Some? <==> Loads(rom)
    ensures c.Some? ==> fresh(c.value) && c.value.Valid() && Some(c.value.kind) == SelectMbc(rom[0x147])
    ensures c.Some? && c.value.kind.WithMbc1? ==>
      fresh(c.value.mbc1) && c.value.mbc1.rom == rom && c.value.mbc1.Regs() == M1.InitialRegs
    ensures c.Some? && c.value.kind == NoMbc ==> c.value.mbc0 == M0.Mbc0(rom)
  {
    if |rom| <= 0x147 {
      return None;
    }
    var kind := SelectMbc(rom[0x147]);
    if kind.None? {
      c := None;
    } else if kind.value == NoMbc {
      var cart := new Cartridge.Flat(rom);
      c := Some(cart);
    } else if M1.Geometry(rom).None? {
      c := None;
    } else {
      var m := new M1.Mbc1(rom, kind.value.persistent);
      var cart := new Cartridge.Banked(m, kind.value.persistent);
      c := Some(cart);
    }
  }
}

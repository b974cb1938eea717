/** The bus as the CPU uses it (src/mmu.rs:58-106): `read`, `write`,
    `read_u16`, `write_u16` and `tick`, seen as a flat 64 KiB memory in which
    every address reads back the last byte written to it, IF is the byte at
    FF0F and IE the byte at FFFF. Every access is one machine cycle, counted in
    the ghost `cycles`. The address map behind it, the devices a tick steps and
    the panics of unmapped IO are the Mmu module's. */
module BusView {
  import opened Bits

  /** `read_u16`'s value: the low byte at `addr`, the high one at `addr + 1`
      (wrapping). */
  function LoadWord(m: seq<u8>, addr: u16): u16
    requires |m| == 0x1_0000
  {
    Word(m[WrapAdd16(addr, 1)], m[addr])
  }

  /** The memory after `write_u16`: the low byte at `addr`, the high byte at
      `addr + 1`, whichever of the two is written first. */
  function StoreWord(m: seq<u8>, addr: u16, w: u16): (m': seq<u8>)
    requires |m| == 0x1_0000
    ensures |m'| == 0x1_0000
    ensures forall i :: 0 <= i < 0x1_0000 && i != addr && i != WrapAdd16(addr, 1) ==> m'[i] == m[i]
  {
    m[addr := Lo(w)][WrapAdd16(addr, 1) := Hi(w)]
  }

  /** A word stored at `addr` loads back unchanged. */
  lemma LoadStoreWord(m: seq<u8>, addr: u16, w: u16)
    requires |m| == 0x1_0000
    ensures LoadWord(StoreWord(m, addr, w), addr) == w
  {
    WordOfHalves(w);
  }

  /** `interrupt_enable & interrupt_flag & 0x1F`: the requests both raised and
      enabled among the five sources (VBlank, STAT, timer, serial, joypad). */
  function PendingMask(ie: u8, iflag: u8): (p: u8)
    ensures p < 0x20
    ensures forall i :: 0 <= i < 5 ==> (Bit(p, i) <==> Bit(ie, i) && Bit(iflag, i))
  {
    assert Bit(0x1F, 0) && Bit(0x1F, 1) && Bit(0x1F, 2) && Bit(0x1F, 3) && Bit(0x1F, 4) by {
      assert Bit(0x1F, 4) == Bit(0x0F, 3) == Bit(0x07, 2) == Bit(0x03, 1) == Bit(0x01, 0);
    }
    And8(And8(ie, iflag), 0x1F)
  }

  class Memory {
    var bytes: seq<u8>
    ghost var cycles: nat

    predicate Valid()
      reads this`bytes
    {
      |bytes| == 0x1_0000
    }

    constructor (image: seq<u8>)
      requires |image| == 0x1_0000
      ensures Valid() && bytes == image && cycles == 0
    {
      bytes := image;
      cycles := 0;
    }

    function InterruptFlag(): u8
      requires Valid()
      reads this`bytes
    {
      bytes[0xFF0F]
    }

    function InterruptEnable(): u8
      requires Valid()
      reads this`bytes
    {
      bytes[0xFFFF]
    }

    /** The pending requests `step` and HALT look at. */
    function Pending(): (p: u8)
      requires Valid()
      reads this`bytes
      ensures p == PendingMask(InterruptEnable(), InterruptFlag())
    {
      PendingMask(bytes[0xFFFF], bytes[0xFF0F])
    }

    /** `tick`: one machine cycle passes. */
    method Tick()
      modifies this`cycles
      ensures cycles == old(cycles) + 1
    {
      cycles := cycles + 1;
    }

    /** `read`: the byte at `addr`, then a tick. */
    method Read(addr: u16) returns (v: u8)
      requires Valid()
      modifies this`cycles
      ensures v == bytes[addr] && cycles == old(cycles) + 1
    {
      v := bytes[addr];
      Tick();
    }

    /** `write`: the byte at `addr` replaced, then a tick; it reads back. */
    method Write(addr: u16, v: u8)
      requires Valid()
      modifies this`bytes, this`cycles
      ensures Valid() && cycles == old(cycles) + 1
      ensures bytes == old(bytes)[addr := v]
      ensures bytes[addr] == v
    {
      bytes := bytes[addr := v];
      Tick();
    }

    /** `read_u16`: two reads, low byte first. */
    method ReadU16(addr: u16) returns (v: u16)
      requires Valid()
      modifies this`cycles
      ensures v == LoadWord(bytes, addr) && cycles == old(cycles) + 2
      ensures Lo(v) == bytes[addr] && Hi(v) == bytes[WrapAdd16(addr, 1)]
    {
      var lo := Read(addr);
      var hi := Read(WrapAdd16(addr, 1));
      v := Word(hi, lo);
    }

    /** `write_u16`: `le` writes the low byte first (LD (nn),SP), otherwise the
        high byte goes first (the stack); either way the low byte ends at
        `addr` and the high byte at `addr + 1`, and the word loads back. */
    method WriteU16(addr: u16, value: u16, le: bool)
      requires Valid()
      modifies this`bytes, this`cycles
      ensures Valid() && cycles == old(cycles) + 2
      ensures bytes == StoreWord(old(bytes), addr, value)
      ensures LoadWord(bytes, addr) == value
    {
      var next := WrapAdd16(addr, 1);
      if le {
        Write(addr, Lo(value));
        Write(next, Hi(value));
      } else {
        Write(next, Hi(value));
        Write(addr, Lo(value));
        assert bytes == old(bytes)[addr := Lo(value)][next := Hi(value)];
      }
      LoadStoreWord(old(bytes), addr, value);
    }

    /** `interrupt_flag &= !(1 << bit)`: request `bit` acknowledged. */
    method ClearFlag(bit: nat)
      requires Valid() && bit < 8
      modifies this`bytes
      ensures Valid()
      ensures bytes == old(bytes)[0xFF0F := ResBit(old(InterruptFlag()), bit)]
      ensures !Bit(InterruptFlag(), bit)
      ensures forall i :: 0 <= i < 8 && i != bit ==> Bit(InterruptFlag(), i) == Bit(old(InterruptFlag()), i)
    {
      bytes := bytes[0xFF0F := ResBit(bytes[0xFF0F], bit)];
    }
  }
}

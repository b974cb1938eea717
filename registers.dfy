/** The SM83 register file of the src/ tree (src/cpu/registers.rs): eight 8-bit
    registers, the flag register F kept unpacked as four booleans, and the
    16-bit pairs AF, BC, DE and HL read and written as (high, low) halves. */
module Registers {
  import opened Bits

  /** F unpacked: Z (bit 7), N (bit 6), H (bit 5), C (bit 4). */
  datatype Flags = Flags(zero: bool, subtract: bool, halfCarry: bool, carry: bool)

  /** `From<FlagsRegister> for u8`: the flags go to bits 7-4 (bit k of `b` is
      `b / 2^k % 2`), bits 3-0 stay 0. */
  function FlagsToByte(f: Flags): (b: u8)
    ensures b % 0x10 == 0
    ensures (b / 0x80 % 2 == 1) == f.zero && (b / 0x40 % 2 == 1) == f.subtract
    ensures (b / 0x20 % 2 == 1) == f.halfCarry && (b / 0x10 % 2 == 1) == f.carry
  {
    BoolBit(f.zero) * 0x80 + BoolBit(f.subtract) * 0x40
      + BoolBit(f.halfCarry) * 0x20 + BoolBit(f.carry) * 0x10
  }

  /** `From<u8> for FlagsRegister`: reads bits 7-4 (`byte & 0b1000_0000 != 0`
      and so on, here as the bits of the upper nibble `t`) and ignores bits
      3-0, so packing the result again gives back `byte & 0xF0`. */
  function ByteToFlags(b: u8): (f: Flags)
    ensures FlagsToByte(f) == b - b % 0x10
  {
    var t := b / 0x10;
    var f := Flags(t >= 8, t % 8 >= 4, t % 4 >= 2, t % 2 == 1);
    assert FlagsToByte(f) == 0x10 * (BoolBit(f.zero) * 8 + BoolBit(f.subtract) * 4
      + BoolBit(f.halfCarry) * 2 + BoolBit(f.carry));
    assert BoolBit(f.zero) * 8 + BoolBit(f.subtract) * 4 + BoolBit(f.halfCarry) * 2 + BoolBit(f.carry) == t by {
      if t < 8 { assert t % 8 == t; } else { assert t % 8 == t - 8; }
      if t % 8 < 4 { assert t % 4 == t % 8; } else { assert t % 4 == t % 8 - 4; }
    }
    f
  }

  /** Unpacking after packing gives back the same four flags. */
  lemma UnpackPack(f: Flags)
    ensures ByteToFlags(FlagsToByte(f)) == f
  {
  }

  /** `get_af`'s value for a given A and F: F packed into the low byte. */
  function PackAf(a: u8, f: Flags): (v: u16)
    ensures Hi(v) == a && v % 0x10 == 0
  {
    Word(a, FlagsToByte(f))
  }

  /** `set_af` then `get_af` yields the written word with its low nibble
      cleared (`value & 0xFFF0`). */
  lemma AfRoundTrip(v: u16)
    ensures PackAf(Hi(v), ByteToFlags(Lo(v) - Lo(v) % 0x10)) == v - v % 0x10
  {
    var x := Lo(v) - Lo(v) % 0x10;
    assert x % 0x10 == 0 by { DivUnique(x, 0x10, Lo(v) / 0x10, 0); }
    assert FlagsToByte(ByteToFlags(x)) == x;
    WordParts(v);
  }

  /** The register file. `f` is the unpacked flag register. */
  class Registers {
    var a: u8
    var f: Flags
    var b: u8
    var c: u8
    var d: u8
    var e: u8
    var h: u8
    var l: u8

    /** `Registers::new()` is `Default::default()`: every register and flag zero. */
    constructor ()
      ensures a == 0 && b == 0 && c == 0 && d == 0 && e == 0 && h == 0 && l == 0
      ensures f == Flags(false, false, false, false)
    {
      a, b, c, d, e, h, l := 0, 0, 0, 0, 0, 0, 0;
      f := Flags(false, false, false, false);
    }

    function GetAf(): (v: u16)
      reads this
    {
      PackAf(a, f)
    }

    /** `set_af` keeps bits 7-4 of the low byte as the flags. */
    method SetAf(v: u16)
      modifies this`a, this`f
      ensures a == Hi(v) && f == ByteToFlags(Lo(v) - Lo(v) % 0x10)
      ensures GetAf() == v - v % 0x10
    {
      a := Hi(v);
      f := ByteToFlags(Lo(v) - Lo(v) % 0x10);
      AfRoundTrip(v);
    }

    function GetBc(): (w: u16)
      reads this
      ensures Hi(w) == b && Lo(w) == c
    {
      Word(b, c)
    }

    method SetBc(v: u16)
      modifies this`b, this`c
      ensures b == Hi(v) && c == Lo(v)
      ensures GetBc() == v
    {
      b := Hi(v);
      c := Lo(v);
    }

    function GetDe(): (w: u16)
      reads this
      ensures Hi(w) == d && Lo(w) == e
    {
      Word(d, e)
    }

    method SetDe(v: u16)
      modifies this`d, this`e
      ensures d == Hi(v) && e == Lo(v)
      ensures GetDe() == v
    {
      d := Hi(v);
      e := Lo(v);
    }

    function GetHl(): (w: u16)
      reads this
      ensures Hi(w) == h && Lo(w) == l
    {
      Word(h, l)
    }

    method SetHl(v: u16)
      modifies this`h, this`l
      ensures h == Hi(v) && l == Lo(v)
      ensures GetHl() == v
    {
      h := Hi(v);
      l := Lo(v);
    }
  }
}

/** The register file of the rust/ tree (rust/src/cpu/registers.rs). It packs
    and unpacks F exactly as the src/ tree does, builds every pair with
    `u16::from_le_bytes([low, high])`, splits it with `to_le_bytes`, and starts
    from the values the DMG boot ROM leaves behind instead of zeroes. */
module RustRegisters {
  import opened Bits
  import R = Registers

  /** `u16::from_le_bytes([lo, hi])`. */
  function FromLeBytes(lo: u8, hi: u8): (w: u16)
    ensures Lo(w) == lo && Hi(w) == hi
  {
    Word(hi, lo)
  }

  /** `u16::to_le_bytes`: (low byte, high byte). */
  function ToLeBytes(v: u16): (bytes: (u8, u8))
    ensures FromLeBytes(bytes.0, bytes.1) == v
  {
    (Lo(v), Hi(v))
  }

  /** 0xB0, the F value `new` loads, unpacks to Z, H and C set and N clear. */
  lemma BootFlags()
    ensures R.ByteToFlags(0xB0) == R.Flags(true, false, true, true)
  {
  }

  class Registers {
    var a: u8
    var f: R.Flags
    var b: u8
    var c: u8
    var d: u8
    var e: u8
    var h: u8
    var l: u8

    /** `Registers::new()`: the post-boot register values. */
    constructor ()
      ensures a == 0x01 && f == R.ByteToFlags(0xB0)
      ensures b == 0x00 && c == 0x13 && d == 0x00 && e == 0xD8 && h == 0x01 && l == 0x4D
    {
      a := 0x01;
      f := R.ByteToFlags(0xB0);
      b, c, d, e, h, l := 0x00, 0x13, 0x00, 0xD8, 0x01, 0x4D;
    }

    function GetAf(): (v: u16)
      reads this
      ensures Hi(v) == a && Lo(v) % 0x10 == 0
    {
      FromLeBytes(R.FlagsToByte(f), a)
    }

    /** The low byte goes through `u8 -> FlagsRegister`, which drops bits 3-0. */
    method SetAf(v: u16)
      modifies this`a, this`f
      ensures a == Hi(v) && f == R.ByteToFlags(Lo(v))
      ensures GetAf() == v - v % 0x10
    {
      var (flags, hi) := ToLeBytes(v);
      a := hi;
      f := R.ByteToFlags(flags);
      WordParts(v);
    }

    function GetBc(): (w: u16)
      reads this
      ensures Hi(w) == b && Lo(w) == c
    {
      FromLeBytes(c, b)
    }

    method SetBc(v: u16)
      modifies this`b, this`c
      ensures b == Hi(v) && c == Lo(v)
      ensures GetBc() == v
    {
      var (lo, hi) := ToLeBytes(v);
      b := hi;
      c := lo;
    }

    function GetDe(): (w: u16)
      reads this
      ensures Hi(w) == d && Lo(w) == e
    {
      FromLeBytes(e, d)
    }

    method SetDe(v: u16)
      modifies this`d, this`e
      ensures d == Hi(v) && e == Lo(v)
      ensures GetDe() == v
    {
      var (lo, hi) := ToLeBytes(v);
      d := hi;
      e := lo;
    }

    function GetHl(): (w: u16)
      reads this
      ensures Hi(w) == h && Lo(w) == l
    {
      FromLeBytes(l, h)
    }

    method SetHl(v: u16)
      modifies this`h, this`l
      ensures h == Hi(v) && l == Lo(v)
      ensures GetHl() == v
    {
      var (lo, hi) := ToLeBytes(v);
      h := hi;
      l := lo;
    }
  }
}

/** The picture processing unit of the rust/ tree (rust/src/io/ppu/mod.rs).
    Its mode machine runs OAM scan for 80 dots and then enters a drawing
    mode whose body is still empty, so it never leaves it; the blank modes
    are written out but are only reachable from a hand-built state. It never
    raises an interrupt. VRAM and OAM are indexed through address masks, and
    the registers behave like the src/ tree's except that a STAT read adds
    no mode bits. */
module RustPpu {
  import opened Bits
  import opened Ppu

  /** The fields `step` works on. */
  datatype RustLine = RustLine(mode: Mode, dots: nat, ly: u8, lx: u32, tileRow: u32)

  /** LY stays at most 153, and below 144 outside VBlank. */
  predicate RustLyOk(s: RustLine)
  {
    s.ly <= 153 && (s.mode != VerticalBlank ==> s.ly < 144)
  }

  /** One iteration of the loop in `step`: the dot counter goes up, OAM scan
      starts drawing exactly at dot 80 (at x = 0, on tile row LY % 8),
      drawing does nothing, and a blank line ends once 456 dots are reached,
      carrying the excess over and moving LY on (into VBlank at 144, back to
      0 after 153). */
  function RustDot(s: RustLine): (r: RustLine)
    requires RustLyOk(s)
    ensures RustLyOk(r)
    ensures s.mode == DrawingPixels ==> r == s.(dots := s.dots + 1)
    ensures s.mode == OAMScan ==> r.ly == s.ly && (r.mode == DrawingPixels <==> s.dots + 1 == 80)
    ensures Blank(s.mode) && s.dots + 1 < 456 ==> r == s.(dots := s.dots + 1)
    ensures Blank(s.mode) && s.dots + 1 >= 456 ==> r.dots == s.dots + 1 - 456 && r.ly == (s.ly + 1) % 154
  {
    var d := s.dots + 1;
    match s.mode
    case OAMScan =>
      if d == 80 then s.(dots := d, lx := 0, tileRow := s.ly as int % 8, mode := DrawingPixels)
      else s.(dots := d)
    case DrawingPixels => s.(dots := d)
    case HorizontalBlank =>
      if d >= 456 then
        var ly := s.ly + 1;
        s.(dots := d - 456, ly := ly, mode := if ly >= 144 then VerticalBlank else OAMScan)
      else s.(dots := d)
    case VerticalBlank =>
      if d >= 456 then
        var ly := s.ly + 1;
        if ly >= 154 then s.(dots := d - 456, ly := ly - 154, mode := OAMScan)
        else s.(dots := d - 456, ly := ly)
      else s.(dots := d)
  }

  /** n dots. */
  function RunDots(s: RustLine, n: nat): (r: RustLine)
    requires RustLyOk(s)
    ensures RustLyOk(r)
  {
    if n == 0 then s else RustDot(RunDots(s, n - 1))
  }

  /** Running a + b dots is running a, then b more. */
  lemma {:induction false} RunDotsAdds(s: RustLine, a: nat, b: nat)
    requires RustLyOk(s)
    ensures RunDots(s, a + b) == RunDots(RunDots(s, a), b)
  {
    if b > 0 {
      RunDotsAdds(s, a, b - 1);
    }
  }

  /** The stretches in which nothing but the dot counter moves: drawing
      (for ever), OAM scan before dot 80, and a blank line before dot 456. */
  predicate Quiet(s: RustLine, n: nat)
  {
    s.mode == DrawingPixels
    || (s.mode == OAMScan && s.dots + n < 80)
    || (Blank(s.mode) && s.dots + n < 456)
  }

  lemma {:induction false} QuietRun(s: RustLine, n: nat)
    requires RustLyOk(s) && Quiet(s, n)
    ensures RunDots(s, n) == s.(dots := s.dots + n)
  {
    if n > 0 {
      QuietRun(s, n - 1);
    }
  }

  /** Drawing is never left: every later dot only counts, so the rust/ tree
      never reaches HBlank or VBlank from power-on. */
  lemma DrawingNeverEnds(s: RustLine, n: nat)
    requires RustLyOk(s) && s.mode == DrawingPixels
    ensures RunDots(s, n).mode == DrawingPixels && RunDots(s, n).ly == s.ly
  {
    QuietRun(s, n);
  }

  /** OAM scan from its first dot hands over to drawing exactly 80 dots later,
      with LX = 0 and the tile row LY % 8. */
  lemma OamScanLasts80Dots(s: RustLine)
    requires RustLyOk(s) && s.mode == OAMScan && s.dots == 0
    ensures RunDots(s, 80) == RustLine(DrawingPixels, 80, s.ly, 0, s.ly as int % 8)
  {
    QuietRun(s, 79);
  }

  /** A line that starts scanning OAM at dot 0 draws from dot 80 on, and only
      the dot counter moves after that. */
  lemma ScanThenDrawForEver(s: RustLine, n: nat)
    requires RustLyOk(s) && s.mode == OAMScan && s.dots == 0 && n >= 80
    ensures RunDots(s, n) == RustLine(DrawingPixels, n, s.ly, 0, s.ly as int % 8)
  {
    OamScanLasts80Dots(s);
    RunDotsAdds(s, 80, n - 80);
    QuietRun(RunDots(s, 80), n - 80);
  }

  /** From power-on the PPU scans OAM for 80 dots and then draws line 0 for
      ever. */
  lemma StuckOnLineZero(n: nat)
    requires n >= 80
    ensures RunDots(RustLine(OAMScan, 0, 0, 0, 0), n) == RustLine(DrawingPixels, n, 0, 0, 0)
  {
    ScanThenDrawForEver(RustLine(OAMScan, 0, 0, 0, 0), n);
  }

  /** A blank line lasts 456 dots from its start and then advances LY once:
      HBlank goes to OAM scan on the next line or to VBlank at line 144, and
      VBlank goes on to the next line or from line 153 to OAM scan on line 0. */
  lemma BlankLine(s: RustLine)
    requires RustLyOk(s) && Blank(s.mode) && s.dots == 0
    ensures var r := RunDots(s, 456);
      r.dots == 0 && r.lx == s.lx && r.tileRow == s.tileRow
      && (s.mode == HorizontalBlank && s.ly < 143 ==> r.mode == OAMScan && r.ly == s.ly + 1)
      && (s.mode == HorizontalBlank && s.ly == 143 ==> r.mode == VerticalBlank && r.ly == 144)
      && (s.mode == VerticalBlank && s.ly < 153 ==> r.mode == VerticalBlank && r.ly == s.ly + 1)
      && (s.mode == VerticalBlank && s.ly == 153 ==> r.mode == OAMScan && r.ly == 0)
  {
    QuietRun(s, 455);
  }

  /** From its first dot on line 144 + k, VBlank runs (10 - k) lines of 456
      dots and then hands over to OAM scan on line 0. */
  lemma {:induction false} VBlankLines(k: nat, lx: u32, row: u32)
    requires k < 10
    ensures RunDots(RustLine(VerticalBlank, 0, 144 + k, lx, row), 456 * (10 - k)) == RustLine(OAMScan, 0, 0, lx, row)
    decreases 10 - k
  {
    var s := RustLine(VerticalBlank, 0, 144 + k, lx, row);
    BlankLine(s);
    if k < 9 {
      RunDotsAdds(s, 456, 456 * (9 - k));
      assert RunDots(s, 456) == RustLine(VerticalBlank, 0, 144 + k + 1, lx, row);
      VBlankLines(k + 1, lx, row);
    }
  }

  /** `r_stat | 0x80`: STAT with bit 7 forced on and no mode bits. */
  function RustStat(stat: u8): (r: u8)
    ensures r / 0x80 == 1 && r % 0x80 == stat % 0x80
  {
    if stat >= 0x80 then stat else stat + 0x80
  }

  /** `read_register` of the rust/ tree. */
  function RustRead(r: LcdRegs, addr: u16): (v: u8)
    ensures addr == 0xFF41 ==> v == RustStat(r.stat)
    ensures addr != 0xFF41 ==> v == LcdRead(r, HorizontalBlank, addr)
  {
    match addr
    case 0xFF40 => r.lcdc
    case 0xFF41 => RustStat(r.stat)
    case 0xFF42 => r.scy
    case 0xFF43 => r.scx
    case 0xFF44 => r.ly
    case 0xFF45 => r.lyc
    case 0xFF47 => r.bgp
    case 0xFF48 => r.obp0
    case 0xFF49 => r.obp1
    case 0xFF4A => r.wy
    case 0xFF4B => r.wx
    case _ => 0xFF
  }

  /** A STAT write followed by a read returns bits 6-3 of the value written,
      bit 7 set, and the register's own bits 2-0. */
  lemma StatWriteThenRead(r: LcdRegs, value: u8)
    ensures var v := RustRead(LcdWrite(r, 0xFF41, value), 0xFF41);
      v / 0x80 == 1 && v % 8 == r.stat % 8 && v % 0x80 / 8 == value % 0x80 / 8
  {
    var s := StatWrite(r.stat, value);
    var v := RustStat(s);
    Bits6To3(v);
    Bits6To3(s);
    Bits6To3(value);
    assert v % 8 == s % 8 by { DivUnique(v, 8, v / 8, v % 8); ModOfMod(v, 8, 0x10); ModOfMod(s, 8, 0x10); }
  }

  /** Where `addr & 0x1FFF` and `addr & 0xFF` send an address. */
  function VramIndex(addr: u16): (i: nat)
    ensures i < 0x2000
    ensures 0x8000 <= addr < 0xA000 ==> i == addr - 0x8000
  {
    addr % 0x2000
  }

  function OamIndex(addr: u16): (i: nat)
    ensures i < 0x100
    ensures 0xFE00 <= addr < 0xFEA0 ==> i == addr - 0xFE00 && i < 160
  {
    addr % 0x100
  }

  class RustPpu {
    const vram: array<u8>
    const oam: array<u8>
    var lcdc: u8
    var stat: u8
    var scy: u8
    var scx: u8
    var ly: u8
    var lyc: u8
    var bgp: u8
    var obp0: u8
    var obp1: u8
    var wy: u8
    var wx: u8
    var mode: Mode
    var dots: nat
    var lx: u32
    var tileRow: u32
    var tileMapRowAddr: u32

    function Regs(): LcdRegs
      reads this
    {
      LcdRegs(lcdc, stat, scy, scx, ly, lyc, bgp, obp0, obp1, wy, wx)
    }

    function Line(): RustLine
      reads this
    {
      RustLine(mode, dots, ly, lx, tileRow)
    }

    ghost predicate Valid()
      reads this
    {
      vram.Length == 0x2000 && oam.Length == 160 && vram != oam && RustLyOk(Line())
    }

    /** `Ppu::new`: the post-boot register values, OAM scan on line 0. */
    constructor ()
      ensures Valid() && fresh(vram) && fresh(oam)
      ensures Regs() == LcdRegs(0x91, 0x85, 0, 0, 0, 0, 0xFC, 0xFF, 0xFF, 0, 0)
      ensures Line() == RustLine(OAMScan, 0, 0, 0, 0) && tileMapRowAddr == 0
    {
      vram := new u8[0x2000](_ => 0);
      oam := new u8[160](_ => 0);
      lcdc, stat, scy, scx, ly, lyc := 0x91, 0x85, 0, 0, 0, 0;
      bgp, obp0, obp1, wy, wx := 0xFC, 0xFF, 0xFF, 0, 0;
      mode, dots, lx, tileRow, tileMapRowAddr := OAMScan, 0, 0, 0, 0;
    }

    /** `step(t_cycles)`: `RustDot` t times; neither interrupt is ever reported. */
    method Step(tCycles: u32) returns (vblankIrq: bool, statIrq: bool)
      requires Valid()
      modifies this`mode, this`dots, this`ly, this`lx, this`tileRow
      ensures Valid()
      ensures Line() == RunDots(old(Line()), tCycles)
      ensures !vblankIrq && !statIrq
    {
      vblankIrq, statIrq := false, false;
      for i := 0 to tCycles
        invariant Valid()
        invariant Line() == RunDots(old(Line()), i)
      {
        dots := dots + 1;
        match mode {
          case OAMScan =>
            if dots == 80 {
              lx := 0;
              tileRow := ly as int % 8;
              mode := DrawingPixels;
            }
          case DrawingPixels =>
          case HorizontalBlank =>
            if dots >= 456 {
              dots := dots - 456;
              ly := ly + 1;
              if ly >= 144 {
                mode := VerticalBlank;
              } else {
                mode := OAMScan;
              }
            }
          case VerticalBlank =>
            if dots >= 456 {
              dots := dots - 456;
              ly := ly + 1;
              if ly >= 154 {
                ly := ly - 154;
                mode := OAMScan;
              }
            }
        }
      }
    }

    function ReadVram(addr: u16): (v: u8)
      requires Valid()
      reads this, vram
      ensures v == vram[VramIndex(addr)]
    {
      vram[addr % 0x2000]
    }

    method WriteVram(addr: u16, value: u8)
      requires Valid()
      modifies vram
      ensures vram[..] == old(vram[..])[VramIndex(addr) := value]
      ensures ReadVram(addr) == value
    {
      vram[addr % 0x2000] := value;
    }

    /** `read_oam`: indexing a 160-byte array with `addr & 0xFF` panics for
        an index of 160 or more; that is `None` here. */
    function ReadOam(addr: u16): (v: Option<u8>)
      requires Valid()
      reads this, oam
      ensures v.None? <==> OamIndex(addr) >= 160
      ensures v.Some? ==> v.value == oam[OamIndex(addr)]
    {
      var i := addr % 0x100;
      if i < 160 then Some(oam[i]) else None
    }

    /** `write_oam`: `false` is the panic, which changes nothing. */
    method WriteOam(addr: u16, value: u8) returns (ok: bool)
      requires Valid()
      modifies oam
      ensures ok <==> OamIndex(addr) < 160
      ensures ok ==> oam[..] == old(oam[..])[OamIndex(addr) := value] && ReadOam(addr) == Some(value)
      ensures !ok ==> oam[..] == old(oam[..])
    {
      var i := addr % 0x100;
      ok := i < 160;
      if ok {
        oam[i] := value;
      }
    }

    function ReadRegister(addr: u16): (v: u8)
      reads this
      ensures v == RustRead(Regs(), addr)
    {
      RustRead(Regs(), addr)
    }

    /** `write_register` is the src/ tree's, field for field. */
    method WriteRegister(addr: u16, value: u8)
      modifies this`lcdc, this`stat, this`scy, this`scx, this`lyc, this`bgp, this`obp0, this`obp1, this`wy, this`wx
      ensures Regs() == LcdWrite(old(Regs()), addr, value)
    {
      match addr {
        case 0xFF40 => lcdc := value;
        case 0xFF41 => stat := StatWrite(stat, value);
        case 0xFF42 => scy := value;
        case 0xFF43 => scx := value;
        case 0xFF44 =>
        case 0xFF45 => lyc := value;
        case 0xFF47 => bgp := value;
        case 0xFF48 => obp0 := value;
        case 0xFF49 => obp1 := value;
        case 0xFF4A => wy := value;
        case 0xFF4B => wx := value;
        case _ =>
      }
    }
  }
}

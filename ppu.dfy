/** The pixel-FIFO PPU of the src/ tree. src/io/ppu.rs and src/io/ppu/mod.rs
    hold the same `Ppu` code; this module models it once. The background
    fetcher is the one written inline in src/io/ppu.rs (the fetcher module
    that src/io/ppu/mod.rs imports is not part of this model), and the pixel
    FIFO is `PixelFifo` (pixel.rs and the inline copy are the same code).

    Per dot the PPU updates the LY=LYC flag and the STAT interrupt line, then
    runs the scanline mode machine OAMScan -> DrawingPixels -> HBlank, with
    VBlank after line 143. */
module Ppu {
  import opened Bits
  import opened PixelFifo

  // ------------------------------------------------------------ modes, STAT

  datatype Mode = HorizontalBlank | VerticalBlank | OAMScan | DrawingPixels

  /** `mode as u8`: the enum's discriminant, which is the mode number STAT
      bits 1-0 report. */
  function ModeBits(m: Mode): (b: u8)
    ensures b < 4
  {
    match m
    case HorizontalBlank => 0
    case VerticalBlank => 1
    case OAMScan => 2
    case DrawingPixels => 3
  }

  /** STAT bit 2 is set iff LY == LYC (`r_stat |= 0b100` / `r_stat &= !0b100`);
      nothing else changes. */
  function StatCompare(stat: u8, ly: u8, lyc: u8): (r: u8)
    ensures (r / 4 % 2 == 1) <==> ly == lyc
    ensures r % 4 == stat % 4 && r / 8 == stat / 8
  {
    var r := stat - stat / 4 % 2 * 4 + BoolBit(ly == lyc) * 4;
    DivUnique(stat, 8, stat / 8, stat % 8);
    DivUnique(stat % 8, 4, stat / 4 % 2, stat % 4);
    DivUnique(r, 8, stat / 8, BoolBit(ly == lyc) * 4 + stat % 4);
    DivUnique(r, 4, stat / 8 * 2 + BoolBit(ly == lyc), stat % 4);
    r
  }

  /** The combined STAT interrupt line: the LYC=LY source (bit 6) or the
      source of the current mode (bit 5 OAM scan, bit 4 VBlank, bit 3 HBlank). */
  predicate StatSignal(stat: u8, ly: u8, lyc: u8, mode: Mode)
  {
    (stat / 0x40 % 2 == 1 && ly == lyc)
    || (stat / 0x20 % 2 == 1 && mode == OAMScan)
    || (stat / 0x10 % 2 == 1 && mode == VerticalBlank)
    || (stat / 0x08 % 2 == 1 && mode == HorizontalBlank)
  }

  /** A STAT write: `(r_stat & 0b111) | (value & 0b1111_1000)`. */
  function StatWrite(stat: u8, value: u8): (r: u8)
    ensures r % 8 == stat % 8 && r / 8 == value / 8
  {
    var r := value / 8 * 8 + stat % 8;
    DivUnique(r, 8, value / 8, stat % 8);
    r
  }

  /** A STAT read as written: `0b1000_0000 | r_stat | (mode as u8)`. Bits
      1-0 are the OR of the stored bits and the mode. */
  function ReadStatAsWritten(stat: u8, mode: Mode): (r: u8)
    ensures Bit(r, 7)
    ensures forall i :: 2 <= i < 7 ==> Bit(r, i) == Bit(stat, i)
    ensures forall i :: 0 <= i < 2 ==> Bit(r, i) == (Bit(stat, i) || Bit(ModeBits(mode), i))
  {
    assert Bit(0x80, 7) && forall i :: 0 <= i < 7 ==> !Bit(0x80, i) by {
      PowBit(7, 7);
      forall i | 0 <= i < 7 ensures !Bit(0x80, i) { PowBit(7, i); }
    }
    forall i | 2 <= i < 8 ensures !Bit(ModeBits(mode), i) {
      BitIsDivMod(ModeBits(mode), i);
      PowMonotone(2, i);
    }
    Or8(Or8(0x80, stat), ModeBits(mode))
  }

  /** 2^i grows with i. */
  lemma {:induction false} PowMonotone(i: nat, j: nat)
    requires i <= j
    ensures Pow2(i) <= Pow2(j)
    decreases j
  {
    if i < j {
      PowMonotone(i, j - 1);
    }
  }

  /** A STAT read with bits 1-0 taken from the mode alone:
      `0b1000_0000 | (r_stat & 0b0111_1100) | (mode as u8)`. */
  function ReadStat(stat: u8, mode: Mode): (r: u8)
    ensures r / 0x80 == 1
    ensures r % 4 == ModeBits(mode)
    ensures r % 0x80 / 4 == stat % 0x80 / 4
  {
    var h := stat % 0x80 / 4;
    var r := 0x80 + h * 4 + ModeBits(mode);
    DivUnique(r, 4, 0x20 + h, ModeBits(mode));
    DivUnique(r, 0x80, 1, h * 4 + ModeBits(mode));
    DivUnique(h * 4 + ModeBits(mode), 4, h, ModeBits(mode));
    r
  }

  /** Bits 6-3 of x, two ways. */
  lemma Bits6To3(x: u8)
    ensures x % 0x80 / 8 == x / 8 % 0x10
    ensures x % 0x80 / 8 == x % 0x80 / 4 / 2
  {
    var q, m := x / 0x80, x % 0x80;
    DivUnique(x, 8, q * 0x10 + m / 8, m % 8);
    DivUnique(x / 8, 0x10, q, m / 8);
    DivUnique(m, 8, m / 4 / 2, m / 4 % 2 * 4 + m % 4);
  }

  /** `new()` stores STAT as 0x85, and neither a compare update nor a STAT
      write ever changes bits 1-0. So bit 0 is set for good, and the as-written
      read reports HBlank (0) as VBlank (1) and OAM scan (2) as drawing (3). */
  lemma StatModeBitsStuck(stat: u8, ly: u8, lyc: u8, v: u8)
    requires stat % 4 == 0x85 % 4
    ensures StatCompare(stat, ly, lyc) % 4 == 1 && StatWrite(stat, v) % 4 == 1
    ensures Bit(ReadStatAsWritten(stat, HorizontalBlank), 0) && ModeBits(HorizontalBlank) % 2 == 0
    ensures Bit(ReadStatAsWritten(stat, OAMScan), 0) && ModeBits(OAMScan) % 2 == 0
    ensures ReadStat(stat, HorizontalBlank) % 4 == 0 && ReadStat(stat, OAMScan) % 4 == 2
  {
    DivUnique(stat % 8, 4, stat / 4 % 2, stat % 4);
    DivUnique(stat, 2, stat / 4 * 2, 1);
    assert Bit(stat, 0);
  }

  // ---------------------------------------------------------------- palette

  /** `PALETTE`: white, light grey, dark grey, black as 0xAARRGGBB. */
  const Palette: seq<u32> := [0xFFFF_FFFF, 0xFFAA_AAAA, 0xFF55_5555, 0xFF00_0000]

  /** `(palette_reg >> (color * 2)) & 0b11`: the shade a palette gives colour
      `color`, from its bits 2c+1 (high) and 2c (low). */
  function Shade(palette: u8, color: nat): (s: nat)
    requires color < 4
    ensures s < 4
    ensures s == 2 * BoolBit(Bit(palette, 2 * color + 1)) + BoolBit(Bit(palette, 2 * color))
  {
    TwoBits(palette, 2 * color);
    Shr(palette, 2 * color) % 4
  }

  /** The low two bits of `x >> n` are bits n+1 and n of x. */
  lemma TwoBits(x: nat, n: nat)
    ensures Shr(x, n) % 4 == 2 * BoolBit(Bit(x, n + 1)) + BoolBit(Bit(x, n))
  {
    var y := Shr(x, n);
    BitIsDivMod(x, n);
    BitOfHigh(x, n, 1);
    DivDiv(y, 2);
    DivUnique(y, 4, y / 2 / 2, 2 * (y / 2 % 2) + y % 2);
  }

  /** `resolve_pixel_color`: the pixel's palette register (0 BGP, 1 OBP0,
      2 OBP1; any other number is `unreachable!()`) picks the palette, whose
      shade for the pixel's colour picks the ARGB value. */
  function ResolvePixelColor(bgp: u8, obp0: u8, obp1: u8, pixel: Pixel): (argb: u32)
    requires pixel.paletteRegister < 3 && pixel.color < 4
    ensures argb == Palette[Shade([bgp, obp0, obp1][pixel.paletteRegister], pixel.color)]
  {
    var paletteReg := match pixel.paletteRegister
      case 0 => bgp
      case 1 => obp0
      case _ => obp1;
    Palette[Shade(paletteReg, pixel.color)]
  }

  /** The power-on BGP 0xFC maps colour 0 to white and colours 1-3 to black. */
  lemma BootPalette()
    ensures Shade(0xFC, 0) == 0 && Shade(0xFC, 1) == 3 && Shade(0xFC, 2) == 3 && Shade(0xFC, 3) == 3
  {
    assert Pow2(2) == 4 && Pow2(4) == 16 && Pow2(6) == 64;
  }

  // ------------------------------------------------------- tile addressing

  /** `get_bg_map_address`, as an index into VRAM: the 32x32 map at 0x9C00 or
      0x9800 (LCDC bit 6 for the window, bit 3 for the background) plus
      `map_y * 32 + map_x`. */
  function BgMapAddress(mapX: u8, mapY: u8, lcdc: u8, fetchingWindow: bool): (a: nat)
    ensures a == (if (fetchingWindow && lcdc / 0x40 % 2 == 1) || (!fetchingWindow && lcdc / 8 % 2 == 1)
                  then 0x1C00 else 0x1800) + mapY * 32 + mapX
    ensures mapX < 32 && mapY < 32 ==> 0x1800 <= a < 0x2000
  {
    var bit := if fetchingWindow then lcdc / 0x40 % 2 else lcdc / 8 % 2;
    var base := if bit != 0 then 0x9C00 else 0x9800;
    base + mapY * 32 + mapX - 0x8000
  }

  /** `get_tile_data_address`, as an index into VRAM: with LCDC bit 4 set,
      tiles 0-255 from 0x8000; otherwise the tile number is signed and counts
      from 0x9000. Each tile is 16 bytes, two per row. */
  function TileDataAddress(tile: u8, row: u8, lcdc: u8): (a: nat)
    ensures lcdc / 0x10 % 2 == 1 ==> a == tile * 16 + row * 2
    ensures lcdc / 0x10 % 2 == 0 ==> a == 0x1000 + Signed(tile) * 16 + row * 2
    ensures row < 8 ==> a + 1 < 0x1800
  {
    if lcdc / 0x10 % 2 != 0 then 0x8000 + tile * 16 + row * 2 - 0x8000
    else WrapAdd16(0x9000, Signed(tile) * 16) + row * 2 - 0x8000
  }

  /** The row within a tile for the background, `(r_ly + r_scy) % 8` as
      written: a plain u8 addition, which overflows (a panic in a debug
      build) once LY + SCY exceeds 255. */
  function TileRowAsWritten(ly: u8, scy: u8): (row: Option<u8>)
    ensures row.Some? <==> ly + scy < 0x100
    ensures row.Some? ==> row.value == (ly + scy) % 8
  {
    if ly + scy >= 0x100 then None else Some((ly + scy) % 8)
  }

  /** The same row with the wrapping addition the map row already uses. */
  function TileRow(ly: u8, scy: u8): (row: u8)
    ensures row == (ly + scy) % 8
  {
    ModOfMod(ly + scy, 8, 32);
    WrapAdd8(ly, scy) % 8
  }

  /** The two rows agree wherever the as-written one is defined, and it is
      undefined at LY 100, SCY 200. */
  lemma TileRowOverflow(ly: u8, scy: u8)
    ensures TileRowAsWritten(ly, scy).Some? ==> TileRowAsWritten(ly, scy).value == TileRow(ly, scy)
    ensures TileRowAsWritten(100, 200).None?
  {
  }

  // ------------------------------------------------------------ the fetcher

  datatype FetcherState = GetTile | GetDataLow | GetDataHigh | Push

  /** The colour number of pixel i of a tile row: bit i of the high byte
      over bit i of the low byte. */
  function ColorOf(hi: u8, lo: u8, i: nat): (c: u8)
    requires i < 8
    ensures c < 4
  {
    hi / Pow2(i) % 2 * 2 + lo / Pow2(i) % 2
  }

  /** Colour c of pixel i takes its high bit from `hi` and its low bit from `lo`. */
  lemma ColorBits(hi: u8, lo: u8, i: nat)
    requires i < 8
    ensures ColorOf(hi, lo, i) == 2 * BoolBit(Bit(hi, i)) + BoolBit(Bit(lo, i))
  {
    BitIsDivMod(hi, i);
    BitIsDivMod(lo, i);
  }

  /** A background pixel of colour c (palette BGP). */
  function BgPixel(c: u8): Pixel { Pixel(c, 0, false, false) }

  /** What the background fetcher pushes: palette BGP, a colour below 4. */
  predicate IsBgPixel(p: Pixel) { p.paletteRegister == 0 && p.color < 4 }

  /** The pixels for bits n - 1, ..., 1, 0 of a tile row, in that order. */
  function RowBits(hi: u8, lo: u8, n: nat): (ps: seq<Pixel>)
    requires n <= 8
    ensures |ps| == n
  {
    if n == 0 then [] else [BgPixel(ColorOf(hi, lo, n - 1))] + RowBits(hi, lo, n - 1)
  }

  /** The eight pixels of a tile row, leftmost (bit 7) first. */
  function RowPixels(hi: u8, lo: u8): (ps: seq<Pixel>)
    ensures |ps| == 8
    ensures forall p :: p in ps ==> IsBgPixel(p)
  {
    var ps := RowBits(hi, lo, 8);
    forall p | p in ps ensures IsBgPixel(p) {
      var k :| 0 <= k < 8 && ps[k] == p;
      RowBitsOrder(hi, lo, 8, k);
    }
    ps
  }

  /** Pixel k of a row (counting from the left) has the colour of bit 7 - k. */
  lemma {:induction false} RowBitsOrder(hi: u8, lo: u8, n: nat, k: nat)
    requires n <= 8 && k < n
    ensures RowBits(hi, lo, n)[k] == BgPixel(ColorOf(hi, lo, n - 1 - k))
  {
    if k > 0 {
      RowBitsOrder(hi, lo, n - 1, k - 1);
    }
  }

  /** The pixels for bits lo, lo + 1, ..., hi - 1, in that order: what
      `for i in lo..hi` pushes. Empty when lo >= hi. */
  function RangePixels(dataHi: u8, dataLo: u8, lo: nat, hi: nat): (ps: seq<Pixel>)
    requires hi <= 8
    ensures |ps| == if lo < hi then hi - lo else 0
    decreases hi - lo
  {
    if lo >= hi then [] else [BgPixel(ColorOf(dataHi, dataLo, lo))] + RangePixels(dataHi, dataLo, lo + 1, hi)
  }

  /** The fetcher's registers. */
  datatype FetcherRegs = FetcherRegs(
    state: FetcherState, cycles: u8, tileIndex: u8, dataLo: u8, dataHi: u8,
    mapX: u8, windowLineCounter: u8, fetchingWindow: bool)

  predicate FetcherOk(f: FetcherRegs) { f.cycles < 2 && f.mapX < 32 }

  /** `Fetcher::tick` as written: it acts on every second call, reading the
      tile number, the low and the high data byte from VRAM in turn, and then,
      once the FIFO holds fewer than 8 pixels, runs the push loop `for i in
      8..0`, which pushes nothing, and moves one tile on. The background tile
      row `(r_ly + r_scy) % 8` overflows (`None`) once LY + SCY passes 255. It
      returns the new registers and the pixels pushed. */
  function FetcherTick(f: FetcherRegs, queued: nat, vram: seq<u8>, lcdc: u8, scy: u8, ly: u8): (r: Option<(FetcherRegs, seq<Pixel>)>)
    requires FetcherOk(f) && |vram| == 0x2000
    ensures r.None? <==> f.cycles == 1 && (f.state == GetDataLow || f.state == GetDataHigh) && !f.fetchingWindow && ly + scy >= 0x100
    ensures r.Some? ==> FetcherOk(r.value.0) && r.value.1 == []
    ensures f.cycles == 0 ==> r == Some((f.(cycles := 1), []))
    ensures f.cycles == 1 && f.state == Push ==>
      r == Some((if queued >= 8 then f.(cycles := 0) else f.(cycles := 0, mapX := (f.mapX + 1) % 32, state := GetTile), []))
  {
    if f.cycles + 1 < 2 then Some((f.(cycles := f.cycles + 1), []))
    else
      var g := f.(cycles := 0);
      match g.state
      case GetTile =>
        var mapY := if g.fetchingWindow then g.windowLineCounter / 8 else WrapAdd8(ly, scy) / 8 % 32;
        Some((g.(tileIndex := vram[BgMapAddress(g.mapX, mapY, lcdc, g.fetchingWindow)], state := GetDataLow), []))
      case GetDataLow =>
        var row := if g.fetchingWindow then Some(g.windowLineCounter % 8) else TileRowAsWritten(ly, scy);
        if row.None? then None
        else Some((g.(dataLo := vram[TileDataAddress(g.tileIndex, row.value, lcdc)], state := GetDataHigh), []))
      case GetDataHigh =>
        var row := if g.fetchingWindow then Some(g.windowLineCounter % 8) else TileRowAsWritten(ly, scy);
        if row.None? then None
        else Some((g.(dataHi := vram[TileDataAddress(g.tileIndex, row.value, lcdc) + 1], state := Push), []))
      case Push =>
        if queued >= 8 then Some((g, []))
        else Some((g.(mapX := (g.mapX + 1) % 32, state := GetTile), RangePixels(g.dataHi, g.dataLo, 8, 0)))
  }

  /** `Fetcher::tick` as evidently intended: the push loop pushes the tile
      row's eight pixels left to right (`PushRow`) and the tile row wraps like
      the map row (`TileRow`), so it never fails. */
  function FetcherTickIntended(f: FetcherRegs, queued: nat, vram: seq<u8>, lcdc: u8, scy: u8, ly: u8): (r: (FetcherRegs, seq<Pixel>))
    requires FetcherOk(f) && |vram| == 0x2000
    ensures FetcherOk(r.0)
    ensures f.cycles == 0 ==> r == (f.(cycles := 1), [])
    ensures f.cycles == 1 ==> r.0.cycles == 0
    ensures r.1 != [] <==> f.cycles == 1 && f.state == Push && queued < 8
    ensures r.1 != [] ==> r.1 == RowPixels(f.dataHi, f.dataLo) && r.0.mapX == (f.mapX + 1) % 32
    ensures f.cycles == 1 && f.state == Push && queued >= 8 ==> r.0 == f.(cycles := 0)
  {
    if f.cycles + 1 < 2 then (f.(cycles := f.cycles + 1), [])
    else
      var g := f.(cycles := 0);
      match g.state
      case GetTile =>
        var mapY := if g.fetchingWindow then g.windowLineCounter / 8 else WrapAdd8(ly, scy) / 8 % 32;
        (g.(tileIndex := vram[BgMapAddress(g.mapX, mapY, lcdc, g.fetchingWindow)], state := GetDataLow), [])
      case GetDataLow =>
        var row := if g.fetchingWindow then g.windowLineCounter % 8 else TileRow(ly, scy);
        (g.(dataLo := vram[TileDataAddress(g.tileIndex, row, lcdc)], state := GetDataHigh), [])
      case GetDataHigh =>
        var row := if g.fetchingWindow then g.windowLineCounter % 8 else TileRow(ly, scy);
        (g.(dataHi := vram[TileDataAddress(g.tileIndex, row, lcdc) + 1], state := Push), [])
      case Push =>
        if queued >= 8 then (g, [])
        else (g.(mapX := (g.mapX + 1) % 32, state := GetTile), RowPixels(g.dataHi, g.dataLo))
  }

  /** Where the fetcher as written does not panic, it moves exactly as the
      intended one does; the two differ only in the pixels pushed. */
  lemma FetcherTickAgrees(f: FetcherRegs, queued: nat, vram: seq<u8>, lcdc: u8, scy: u8, ly: u8)
    requires FetcherOk(f) && |vram| == 0x2000
    ensures var r := FetcherTick(f, queued, vram, lcdc, scy, ly);
      r.Some? ==> r.value.0 == FetcherTickIntended(f, queued, vram, lcdc, scy, ly).0
  {
  }

  /** The state the fetcher moves to after acting in a state. */
  function NextState(s: FetcherState): FetcherState
  {
    match s
    case GetTile => GetDataLow
    case GetDataLow => GetDataHigh
    case GetDataHigh => Push
    case Push => GetTile
  }

  /** On every second call the fetcher moves one step round the cycle
      GetTile -> GetDataLow -> GetDataHigh -> Push -> GetTile, except that
      Push waits while the FIFO holds 8 pixels or more; the calls in between
      only count. */
  lemma FetcherCycle(f: FetcherRegs, queued: nat, vram: seq<u8>, lcdc: u8, scy: u8, ly: u8)
    requires FetcherOk(f) && |vram| == 0x2000
    ensures var r := FetcherTick(f, queued, vram, lcdc, scy, ly);
      r.Some? ==> r.value.0.state == if f.cycles == 0 || (f.state == Push && queued >= 8) then f.state else NextState(f.state)
    ensures var r := FetcherTickIntended(f, queued, vram, lcdc, scy, ly).0;
      r.state == if f.cycles == 0 || (f.state == Push && queued >= 8) then f.state else NextState(f.state)
  {
  }

  /** As written, eight calls from GetTile with room in the FIFO (and a tile
      row that does not overflow) go once round the cycle and move one tile to
      the right, but push no pixel. */
  lemma FetcherTileAfterEightCalls(f: FetcherRegs, queued: nat, vram: seq<u8>, lcdc: u8, scy: u8, ly: u8)
    requires FetcherOk(f) && |vram| == 0x2000 && f.state == GetTile && f.cycles == 0 && queued < 8
    requires f.fetchingWindow || ly + scy < 0x100
    ensures var r1 := FetcherTick(f, queued, vram, lcdc, scy, ly);
      r1.Some? && var r2 := FetcherTick(r1.value.0, queued, vram, lcdc, scy, ly);
      r2.Some? && var r3 := FetcherTick(r2.value.0, queued, vram, lcdc, scy, ly);
      r3.Some? && var r4 := FetcherTick(r3.value.0, queued, vram, lcdc, scy, ly);
      r4.Some? && var r5 := FetcherTick(r4.value.0, queued, vram, lcdc, scy, ly);
      r5.Some? && var r6 := FetcherTick(r5.value.0, queued, vram, lcdc, scy, ly);
      r6.Some? && var r7 := FetcherTick(r6.value.0, queued, vram, lcdc, scy, ly);
      r7.Some? && var r8 := FetcherTick(r7.value.0, queued, vram, lcdc, scy, ly);
      r8.Some? && r8.value.1 == [] && r8.value.0.state == GetTile && r8.value.0.cycles == 0
      && r8.value.0.mapX == (f.mapX + 1) % 32
  {
  }

  /** With the intended push loop, four acting calls from GetTile with room
      in the FIFO push one row and move one tile to the right. */
  lemma FetcherRowAfterEightCalls(f: FetcherRegs, vram: seq<u8>, lcdc: u8, scy: u8, ly: u8)
    requires FetcherOk(f) && |vram| == 0x2000 && f.state == GetTile && f.cycles == 0
    ensures var f1 := FetcherTickIntended(f, 0, vram, lcdc, scy, ly).0;
      var f2 := FetcherTickIntended(f1, 0, vram, lcdc, scy, ly).0;
      var f3 := FetcherTickIntended(f2, 0, vram, lcdc, scy, ly).0;
      var f4 := FetcherTickIntended(f3, 0, vram, lcdc, scy, ly).0;
      var f5 := FetcherTickIntended(f4, 0, vram, lcdc, scy, ly).0;
      var f6 := FetcherTickIntended(f5, 0, vram, lcdc, scy, ly).0;
      var f7 := FetcherTickIntended(f6, 0, vram, lcdc, scy, ly).0;
      var r := FetcherTickIntended(f7, 0, vram, lcdc, scy, ly);
      r.1 == RowPixels(f6.dataHi, f6.dataLo) && r.0.state == GetTile && r.0.mapX == (f.mapX + 1) % 32
  {
  }

  lemma AppendAssoc(a: seq<Pixel>, b: seq<Pixel>, c: seq<Pixel>)
    ensures a + (b + c) == (a + b) + c
  {
  }

  class Fetcher {
    var state: FetcherState
    var cycles: u8
    var tileIndex: u8
    var dataLo: u8
    var dataHi: u8
    var mapX: u8
    var windowLineCounter: u8
    var fetchingWindow: bool

    function Regs(): FetcherRegs
      reads this
    {
      FetcherRegs(state, cycles, tileIndex, dataLo, dataHi, mapX, windowLineCounter, fetchingWindow)
    }

    constructor ()
      ensures Regs() == FetcherRegs(GetTile, 0, 0, 0, 0, 0, 0, false)
    {
      state, cycles, tileIndex, dataLo, dataHi := GetTile, 0, 0, 0, 0;
      mapX, windowLineCounter, fetchingWindow := 0, 0, false;
    }

    /** `start_fetching_window`: restart the fetch at the window's left edge. */
    method StartFetchingWindow(windowLine: u8)
      modifies this
      ensures Regs() == old(Regs()).(fetchingWindow := true, state := GetTile, mapX := 0, windowLineCounter := windowLine)
    {
      fetchingWindow := true;
      state := GetTile;
      mapX := 0;
      windowLineCounter := windowLine;
    }

    /** `for i in lo..hi`, pushing the pixel of bit i each time (the push
      result is ignored, as in the source). */
    method PushRange(queue: PixelQueue, lo: nat, hi: nat)
      requires queue.Valid() && hi <= 8
      requires |queue.contents| + (if lo < hi then hi - lo else 0) <= Capacity
      modifies queue, queue.data
      ensures queue.Valid() && queue.data == old(queue.data)
      ensures queue.contents == old(queue.contents) + RangePixels(dataHi, dataLo, lo, hi)
    {
      var i := lo;
      ghost var top := if lo < hi then hi else lo;
      while i < hi
        invariant lo <= i <= top
        invariant queue.Valid() && queue.data == old(queue.data)
        invariant |queue.contents| + (top - i) <= Capacity
        invariant queue.contents + RangePixels(dataHi, dataLo, i, hi) == old(queue.contents) + RangePixels(dataHi, dataLo, lo, hi)
        decreases hi - i
      {
        var p := BgPixel(ColorOf(dataHi, dataLo, i));
        ghost var rest := RangePixels(dataHi, dataLo, i + 1, hi);
        assert RangePixels(dataHi, dataLo, i, hi) == [p] + rest;
        ghost var before := queue.contents;
        var _ := queue.Push(p);
        assert queue.contents == before + [p];
        AppendAssoc(before, [p], rest);
        i := i + 1;
      }
    }

    /** The push loop as written, `for i in 8..0`: the range is empty, so no
      pixel is pushed. */
    method PushRowAsWritten(queue: PixelQueue)
      requires queue.Valid()
      modifies queue, queue.data
      ensures queue.Valid() && queue.data == old(queue.data)
      ensures queue.contents == old(queue.contents)
    {
      PushRange(queue, 8, 0);
    }

    /** The push loop as `for i in (0..8).rev()`: the row's eight pixels,
      bit 7 first. */
    method PushRow(queue: PixelQueue)
      requires queue.Valid() && |queue.contents| < 8
      modifies queue, queue.data
      ensures queue.Valid() && queue.data == old(queue.data)
      ensures queue.contents == old(queue.contents) + RowPixels(dataHi, dataLo)
    {
      var hi, lo := dataHi, dataLo;
      ghost var start, all := queue.contents, RowPixels(hi, lo);
      var i := 8;
      while i > 0
        invariant 0 <= i <= 8
        invariant queue.Valid() && queue.data == old(queue.data)
        invariant queue.contents == start + all[..8 - i]
      {
        i := i - 1;
        var p := BgPixel(ColorOf(hi, lo, i));
        RowBitsOrder(hi, lo, 8, 7 - i);
        assert all[..8 - i] == all[..7 - i] + [p];
        var _ := queue.Push(p);
        assert (start + all[..7 - i]) + [p] == start + (all[..7 - i] + [p]);
      }
      assert all[..8] == all;
    }

    /** `tick` as written: the push loop is `PushRowAsWritten` and the
        background tile row may overflow; `ok` is false for that panic. */
    method Tick(queue: PixelQueue, vram: array<u8>, lcdc: u8, scy: u8, ly: u8) returns (ok: bool)
      requires FetcherOk(Regs()) && queue.Valid() && vram.Length == 0x2000
      modifies this, queue, queue.data
      ensures FetcherOk(Regs()) && queue.Valid() && queue.data == old(queue.data)
      ensures var r := FetcherTick(old(Regs()), |old(queue.contents)|, vram[..], lcdc, scy, ly);
        (ok <==> r.Some?) && (ok ==> Regs() == r.value.0 && queue.contents == old(queue.contents) + r.value.1)
      ensures queue.contents == old(queue.contents)
    {
      ok := true;
      cycles := cycles + 1;
      if cycles < 2 {
        return;
      } else {
        cycles := 0;
      }
      match state {
        case GetTile =>
          var mapY := if fetchingWindow then windowLineCounter / 8 else WrapAdd8(ly, scy) / 8 % 32;
          tileIndex := vram[BgMapAddress(mapX, mapY, lcdc, fetchingWindow)];
          state := GetDataLow;
        case GetDataLow =>
          var row := if fetchingWindow then Some(windowLineCounter % 8) else TileRowAsWritten(ly, scy);
          if row.None? {
            return false;
          }
          dataLo := vram[TileDataAddress(tileIndex, row.value, lcdc)];
          state := GetDataHigh;
        case GetDataHigh =>
          var row := if fetchingWindow then Some(windowLineCounter % 8) else TileRowAsWritten(ly, scy);
          if row.None? {
            return false;
          }
          dataHi := vram[TileDataAddress(tileIndex, row.value, lcdc) + 1];
          state := Push;
        case Push =>
          if queue.Len() >= 8 {
            return;
          }
          PushRowAsWritten(queue);
          mapX := (mapX + 1) % 32;
          state := GetTile;
      }
    }
  }

  // --------------------------------------------------------- line timing

  /** The fields the scanline timing works on. */
  datatype Timing = Timing(mode: Mode, dots: nat, ly: u8, windowLine: u8)

  predicate Blank(m: Mode) { m == HorizontalBlank || m == VerticalBlank }

  /** LY stays below 144 outside VBlank and at most 153 in it. */
  predicate LyInRange(t: Timing)
  {
    t.ly <= 153 && (t.mode != VerticalBlank ==> t.ly < 144)
  }

  /** The end-of-line check of HBlank and VBlank: once the dot counter
      reaches 456 the line ends and LY goes up by one. HBlank then goes to
      OAM scan, or to VBlank (reporting the VBlank interrupt and resetting the
      window line counter) when LY reaches 144; VBlank wraps LY to 0 and goes
      to OAM scan after line 153. */
  function EndOfLine(t: Timing): (r: (Timing, bool))
    requires Blank(t.mode) && LyInRange(t)
    ensures LyInRange(r.0)
    ensures r.1 <==> t.mode == HorizontalBlank && t.dots >= 456 && t.ly == 143
    ensures r.1 ==> r.0 == Timing(VerticalBlank, 0, 144, 0)
    ensures t.dots < 456 ==> r.0 == t
    ensures t.dots >= 456 ==> r.0.dots == 0 && r.0.ly == (t.ly + 1) % 154
    ensures !r.1 ==> r.0.windowLine == t.windowLine
    ensures r.0.mode == OAMScan ==> t.dots >= 456 && (t.ly == 153 || t.mode == HorizontalBlank)
  {
    if t.dots < 456 then (t, false)
    else if t.mode == HorizontalBlank then
      var ly := t.ly + 1;
      if ly == 144 then (Timing(VerticalBlank, 0, ly, 0), true)
      else (Timing(OAMScan, 0, ly, t.windowLine), false)
    else
      var ly := t.ly + 1;
      if ly > 153 then (Timing(OAMScan, 0, 0, t.windowLine), false)
      else (Timing(VerticalBlank, 0, ly, t.windowLine), false)
  }

  /** One dot of HBlank or VBlank: the dot counter goes up, then the line may end. */
  function BlankStep(t: Timing): (r: (Timing, bool))
    requires Blank(t.mode) && LyInRange(t)
    ensures LyInRange(r.0)
  {
    EndOfLine(t.(dots := t.dots + 1))
  }

  /** n dots of HBlank or VBlank, stopping once the mode leaves them. */
  function BlankRun(t: Timing, n: nat): (r: Timing)
    requires Blank(t.mode) && LyInRange(t)
    ensures LyInRange(r)
  {
    if n == 0 then t
    else
      var r := BlankRun(t, n - 1);
      if Blank(r.mode) then BlankStep(r).0 else r
  }

  /** Within a line nothing but the dot counter moves. */
  lemma {:induction false} WithinLine(t: Timing, n: nat)
    requires Blank(t.mode) && LyInRange(t) && t.dots + n < 456
    ensures BlankRun(t, n) == t.(dots := t.dots + n)
  {
    if n > 0 {
      WithinLine(t, n - 1);
    }
  }

  /** A blank line lasts 456 dots from its start and then advances LY once:
      to OAM scan on the next line, into VBlank at line 144, and from
      line 153 back to line 0. */
  lemma OneBlankLine(t: Timing)
    requires Blank(t.mode) && LyInRange(t) && t.dots == 0
    ensures var r := BlankRun(t, 456);
      r.dots == 0
      && (t.mode == HorizontalBlank && t.ly < 143 ==> r == Timing(OAMScan, 0, t.ly + 1, t.windowLine))
      && (t.mode == HorizontalBlank && t.ly == 143 ==> r == Timing(VerticalBlank, 0, 144, 0))
      && (t.mode == VerticalBlank && t.ly < 153 ==> r == t.(ly := t.ly + 1))
      && (t.mode == VerticalBlank && t.ly == 153 ==> r == Timing(OAMScan, 0, 0, t.windowLine))
  {
    WithinLine(t, 455);
  }

  /** Running a + b dots is running a, then b more (while still blank). */
  lemma {:induction false} BlankRunAdds(t: Timing, a: nat, b: nat)
    requires Blank(t.mode) && LyInRange(t) && Blank(BlankRun(t, a).mode)
    ensures BlankRun(t, a + b) == BlankRun(BlankRun(t, a), b)
  {
    if b > 0 {
      BlankRunAdds(t, a, b - 1);
      assert BlankRun(t, a + b) == (var r := BlankRun(t, a + b - 1); if Blank(r.mode) then BlankStep(r).0 else r);
    }
  }

  /** From its first dot on line 144 + k, VBlank runs (10 - k) whole lines of
      456 dots and then hands over to OAM scan on line 0. */
  lemma {:induction false} VBlankLines(k: nat, w: u8)
    requires k < 10
    ensures BlankRun(Timing(VerticalBlank, 0, 144 + k, w), 456 * (10 - k)) == Timing(OAMScan, 0, 0, w)
    decreases 10 - k
  {
    var t := Timing(VerticalBlank, 0, 144 + k, w);
    OneBlankLine(t);
    if k < 9 {
      BlankRunAdds(t, 456, 456 * (9 - k));
      VBlankLines(k + 1, w);
    }
  }

  /** VBlank lasts ten lines: 4560 dots from entering it to OAM scan on line 0. */
  lemma VBlankLastsTenLines(w: u8)
    ensures BlankRun(Timing(VerticalBlank, 0, 144, w), 4560) == Timing(OAMScan, 0, 0, w)
  {
    VBlankLines(0, w);
  }

  // ----------------------------------------------------------- registers

  /** The LCD registers FF40-FF4B (FF46, the DMA register, is not here). */
  datatype LcdRegs = LcdRegs(lcdc: u8, stat: u8, scy: u8, scx: u8, ly: u8, lyc: u8,
                             bgp: u8, obp0: u8, obp1: u8, wy: u8, wx: u8)

  /** `read_register`, with STAT read as written (`ReadStatAsWritten`); an
      address with no register reads 0xFF. */
  function LcdRead(r: LcdRegs, mode: Mode, addr: u16): (v: u8)
    ensures addr == 0xFF41 ==> v == ReadStatAsWritten(r.stat, mode)
    ensures addr == 0xFF44 ==> v == r.ly
    ensures !(0xFF40 <= addr <= 0xFF4B) || addr == 0xFF46 ==> v == 0xFF
  {
    match addr
    case 0xFF40 => r.lcdc
    case 0xFF41 => ReadStatAsWritten(r.stat, mode)
    case 0xFF42 => r.scy
    case 0xFF43 => r.scx
    case 0xFF44 => r.ly
    case 0xFF45 => r.lyc
    case 0xFF47 => r.bgp
    case 0xFF48 => r.obp0
    case 0xFF49 => r.obp1
    case 0xFF4A => r.wy
    case 0xFF4B => r.wx
    case _ => 0xFF
  }

  /** `write_register`: STAT keeps its bits 2-0, LY is read-only, and writes
      to addresses with no register are dropped. */
  function LcdWrite(r: LcdRegs, addr: u16, value: u8): (r': LcdRegs)
    ensures addr == 0xFF41 ==> r' == r.(stat := StatWrite(r.stat, value))
    ensures addr == 0xFF44 || addr == 0xFF46 || !(0xFF40 <= addr <= 0xFF4B) ==> r' == r
    ensures r'.ly == r.ly
  {
    match addr
    case 0xFF40 => r.(lcdc := value)
    case 0xFF41 => r.(stat := StatWrite(r.stat, value))
    case 0xFF42 => r.(scy := value)
    case 0xFF43 => r.(scx := value)
    case 0xFF44 => r
    case 0xFF45 => r.(lyc := value)
    case 0xFF47 => r.(bgp := value)
    case 0xFF48 => r.(obp0 := value)
    case 0xFF49 => r.(obp1 := value)
    case 0xFF4A => r.(wy := value)
    case 0xFF4B => r.(wx := value)
    case _ => r
  }

  /** Every register but STAT and LY reads back what was written; STAT reads
      back bits 7-3 of it (with bit 7 forced to 1 and bits 2-0 its own). */
  lemma RegisterRoundTrip(r: LcdRegs, mode: Mode, addr: u16, value: u8)
    requires 0xFF40 <= addr <= 0xFF4B && addr != 0xFF41 && addr != 0xFF44 && addr != 0xFF46
    ensures LcdRead(LcdWrite(r, addr, value), mode, addr) == value
    ensures forall i :: 3 <= i < 7 ==> Bit(LcdRead(LcdWrite(r, 0xFF41, value), mode, 0xFF41), i) == Bit(value, i)
  {
    var s := StatWrite(r.stat, value);
    assert Pow2(3) == 8;
    forall i | 3 <= i < 7 ensures Bit(s, i) == Bit(value, i) {
      BitOfHigh(s, 3, i - 3);
      BitOfHigh(value, 3, i - 3);
    }
  }

  // ------------------------------------------------------------- the PPU

  const ScreenWidth := 160
  const ScreenSize := 160 * 144

  /** The window line counter never passes the line being drawn, so its
      `+= 1` cannot overflow: at most LY during OAM scan and drawing, LY + 1
      in HBlank, and 0 throughout VBlank. */
  predicate WindowLineBound(t: Timing)
  {
    (t.mode == VerticalBlank ==> t.windowLine == 0)
    && (t.mode == HorizontalBlank ==> t.windowLine <= t.ly + 1)
    && (t.mode == OAMScan || t.mode == DrawingPixels ==> t.windowLine <= t.ly)
  }

  // ------------------------------------------------------ a dot, as a value

  /** What a dot reads and changes: the LCD registers, the line timing, LX,
      the scroll pixels still to drop, the fetcher, the FIFO's pixels, the
      STAT interrupt line and the back buffer. */
  datatype PpuState = PpuState(regs: LcdRegs, line: Timing, lx: u8, discarded: u8, fetcher: FetcherRegs,
                               queue: seq<Pixel>, signal: bool, frame: seq<u32>)

  /** LY agrees between the registers and the timing, which stays in range;
      the fetcher and the FIFO are well formed and the frame is full size. */
  predicate PartsOk(s: PpuState)
  {
    s.regs.ly == s.line.ly && LyInRange(s.line) && WindowLineBound(s.line) && s.lx <= ScreenWidth
    && FetcherOk(s.fetcher) && |s.queue| <= Capacity && (forall p :: p in s.queue ==> IsBgPixel(p))
    && |s.frame| == ScreenSize
  }

  /** Between dots, moreover, a line being drawn has pixels left to draw. */
  predicate PpuOk(s: PpuState)
  {
    PartsOk(s) && (s.line.mode == DrawingPixels ==> s.lx < ScreenWidth)
  }

  /** The start of a dot: the dot counter advances, then the LY=LYC flag and
      the STAT interrupt line are updated; a rising edge of the line is a
      STAT request. */
  function DotStart(s: PpuState): (r: (PpuState, bool))
    requires PpuOk(s)
    ensures PpuOk(r.0)
  {
    var stat := StatCompare(s.regs.stat, s.regs.ly, s.regs.lyc);
    var signal := StatSignal(stat, s.regs.ly, s.regs.lyc, s.line.mode);
    (s.(regs := s.regs.(stat := stat), line := s.line.(dots := s.line.dots + 1), signal := signal), signal && !s.signal)
  }

  /** OAM scan: at dot 80 drawing starts at x = 0 with an empty FIFO, the
      fetcher at tile SCX / 8 and the first SCX % 8 pixels to be dropped. */
  function OamScanStep(s: PpuState): (r: PpuState)
    requires PpuOk(s) && s.line.mode == OAMScan
    ensures PpuOk(r)
  {
    if s.line.dots >= 80 then
      s.(fetcher := s.fetcher.(mapX := s.regs.scx / 8, cycles := 0, state := GetTile, fetchingWindow := false),
         queue := [], discarded := s.regs.scx % 8, lx := 0, line := s.line.(mode := DrawingPixels))
    else s
  }

  /** The window check of a drawing dot: the fetcher switches to the window
      once LCDC bit 5 is set, LY >= WY and LX + 7 >= WX. */
  function WindowCheck(s: PpuState): (f: FetcherRegs)
    requires FetcherOk(s.fetcher)
    ensures FetcherOk(f)
  {
    if s.regs.lcdc / 0x20 % 2 == 1 && s.regs.ly >= s.regs.wy && s.lx as int + 7 >= s.regs.wx
    then s.fetcher.(fetchingWindow := true, state := GetTile, mapX := 0, windowLineCounter := s.line.windowLine)
    else s.fetcher
  }

  /** The pixel shift of a drawing dot: the oldest FIFO pixel is dropped
      while scrolling, else resolved through its palette and written to the
      back buffer at (LX, LY), and LX advances. */
  function ShiftStep(s: PpuState): (r: PpuState)
    requires PpuOk(s) && s.line.mode == DrawingPixels
    ensures PartsOk(r) && r.line == s.line && r.regs == s.regs && r.fetcher == s.fetcher
    ensures r.queue == Popped(s.queue).0
    ensures r.lx == s.lx + (if s.queue != [] && s.discarded == 0 then 1 else 0)
    ensures s.queue == [] ==> r == s
  {
    match Popped(s.queue)
    case (_, None) => s
    case (rest, Some(p)) =>
      assert p == s.queue[0] && s.queue[0] in s.queue;
      if s.discarded > 0 then s.(queue := rest, discarded := s.discarded - 1)
      else
        var index := s.regs.ly as nat * ScreenWidth + s.lx as nat;
        var color := ResolvePixelColor(s.regs.bgp, s.regs.obp0, s.regs.obp1, p);
        s.(queue := rest, frame := if index < |s.frame| then s.frame[index := color] else s.frame, lx := s.lx + 1)
  }

  /** The end of a drawing dot: after 160 pixels the line goes to HBlank,
      and a line that showed the window moves the window line counter on. */
  function EndDrawingStep(s: PpuState): (r: PpuState)
    requires PartsOk(s) && s.line.mode == DrawingPixels
    ensures PpuOk(r)
    ensures r.line.mode == (if s.lx >= ScreenWidth then HorizontalBlank else DrawingPixels)
  {
    if s.lx >= ScreenWidth then
      s.(line := s.line.(mode := HorizontalBlank, windowLine := s.line.windowLine + (if s.fetcher.fetchingWindow then 1 else 0)))
    else s
  }

  /** A drawing dot: window check, fetcher, pixel shift, end of line. `None`
      is the fetcher's overflow panic. */
  function DrawingStep(s: PpuState, vram: seq<u8>): (r: Option<PpuState>)
    requires PpuOk(s) && s.line.mode == DrawingPixels && |vram| == 0x2000
    ensures r.Some? ==> PpuOk(r.value)
    ensures r.Some? ==> r.value.regs == s.regs && r.value.line.ly == s.line.ly
  {
    match FetcherTick(WindowCheck(s), |s.queue|, vram, s.regs.lcdc, s.regs.scy, s.regs.ly)
    case None => None
    case Some((g, pushed)) => Some(EndDrawingStep(ShiftStep(s.(fetcher := g, queue := s.queue + pushed))))
  }

  /** A drawing dot fails exactly when the fetcher does; otherwise the
      fetcher is the fetcher's tick after the window check, the FIFO loses
      its oldest pixel (as written the fetcher pushes nothing), LX advances
      by the pixel drawn, and the line goes to HBlank exactly at LX 160. */
  lemma DrawingStepFacts(s: PpuState, vram: seq<u8>)
    requires PpuOk(s) && s.line.mode == DrawingPixels && |vram| == 0x2000
    ensures var f := FetcherTick(WindowCheck(s), |s.queue|, vram, s.regs.lcdc, s.regs.scy, s.regs.ly);
      var r := DrawingStep(s, vram);
      (r.None? <==> f.None?) && (r.Some? ==> r.value.fetcher == f.value.0)
    ensures var r := DrawingStep(s, vram);
      r.Some? ==>
        r.value.regs == s.regs && r.value.queue == Popped(s.queue).0
        && r.value.lx == s.lx + (if s.queue != [] && s.discarded == 0 then 1 else 0)
        && (r.value.line.mode == HorizontalBlank <==> r.value.lx == ScreenWidth)
        && (r.value.line.mode == HorizontalBlank || r.value.line.mode == DrawingPixels)
  {
  }

  /** The end-of-line check of HBlank and VBlank, on the whole state. */
  function BlankLineStep(s: PpuState): (r: (PpuState, bool))
    requires PpuOk(s) && Blank(s.line.mode)
    ensures PpuOk(r.0)
    ensures (r.0.line, r.1) == EndOfLine(s.line)
    ensures r.0 == s.(line := r.0.line, regs := s.regs.(ly := r.0.line.ly))
  {
    var (t, vblank) := EndOfLine(s.line);
    (s.(line := t, regs := s.regs.(ly := t.ly)), vblank)
  }

  /** The mode-specific part of a dot, after the dot counter and STAT. */
  function ModeStep(s: PpuState, vram: seq<u8>): (r: Option<(PpuState, bool)>)
    requires PpuOk(s) && |vram| == 0x2000
    ensures r.Some? ==> PpuOk(r.value.0)
    ensures r.None? ==> s.line.mode == DrawingPixels
    ensures r.Some? && r.value.1 ==> Blank(s.line.mode)
  {
    match s.line.mode
    case OAMScan => Some((OamScanStep(s), false))
    case DrawingPixels =>
      (match DrawingStep(s, vram)
       case None => None
       case Some(t) => Some((t, false)))
    case _ => Some(BlankLineStep(s))
  }

  /** One dot: `None` is a panic; otherwise the new state and whether the
      dot raised the VBlank and the STAT requests. */
  function PpuDot(s: PpuState, vram: seq<u8>): (r: Option<(PpuState, bool, bool)>)
    requires PpuOk(s) && |vram| == 0x2000
    ensures r.Some? ==> PpuOk(r.value.0)
    ensures r.None? ==> s.line.mode == DrawingPixels
    ensures r.Some? && r.value.1 ==> Blank(s.line.mode)
  {
    var (t, statIrq) := DotStart(s);
    match ModeStep(t, vram)
    case None => None
    case Some((u, vblankIrq)) => Some((u, vblankIrq, statIrq))
  }

  /** What one dot does: only a drawing dot can panic, and only once LY +
      SCY passes 255; of the registers only STAT (the LY=LYC flag) and LY
      change; the STAT request is the rising edge of the STAT line; HBlank
      and VBlank follow `BlankStep`, the other modes keep LY and count the
      dot; OAM scan hands over to drawing at dot 80, and drawing to HBlank
      exactly at LX 160. */
  lemma DotFacts(s: PpuState, vram: seq<u8>)
    requires PpuOk(s) && |vram| == 0x2000
    ensures var r := PpuDot(s, vram);
      r.None? ==> s.line.mode == DrawingPixels && s.regs.ly + s.regs.scy >= 0x100
    ensures var r := PpuDot(s, vram);
      r.Some? ==>
        r.value.0.regs == s.regs.(stat := StatCompare(s.regs.stat, s.regs.ly, s.regs.lyc), ly := r.value.0.line.ly)
        && r.value.0.signal == StatSignal(r.value.0.regs.stat, s.regs.ly, s.regs.lyc, s.line.mode)
        && (r.value.2 <==> r.value.0.signal && !s.signal)
    ensures var r := PpuDot(s, vram);
      r.Some? && Blank(s.line.mode) ==> (r.value.0.line, r.value.1) == BlankStep(s.line)
    ensures var r := PpuDot(s, vram);
      r.Some? && !Blank(s.line.mode) ==> !r.value.1 && r.value.0.line.dots == s.line.dots + 1 && r.value.0.line.ly == s.line.ly
    ensures var r := PpuDot(s, vram);
      s.line.mode == OAMScan ==> r.Some? && r.value.0.line.mode == (if s.line.dots + 1 >= 80 then DrawingPixels else OAMScan)
    ensures var r := PpuDot(s, vram);
      r.Some? && s.line.mode == DrawingPixels ==>
        (r.value.0.line.mode == HorizontalBlank || r.value.0.line.mode == DrawingPixels)
        && (r.value.0.line.mode == HorizontalBlank <==> r.value.0.lx == ScreenWidth)
  {
    var (t, _) := DotStart(s);
    if s.line.mode == DrawingPixels {
      DrawingStepFacts(t, vram);
    }
  }

  /** `step(n)`: n dots. `None` if one of them panics; otherwise the state
      and whether any dot raised the VBlank or the STAT request. */
  function PpuRun(s: PpuState, vram: seq<u8>, n: nat): (r: Option<(PpuState, bool, bool)>)
    requires PpuOk(s) && |vram| == 0x2000
    ensures r.Some? ==> PpuOk(r.value.0)
  {
    if n == 0 then Some((s, false, false))
    else
      match PpuRun(s, vram, n - 1)
      case None => None
      case Some((t, v, st)) =>
        match PpuDot(t, vram)
        case None => None
        case Some((u, v', st')) => Some((u, v || v', st || st'))
  }

  /** Of the registers, n dots change only STAT and LY. */
  lemma {:induction false} RunDotsKeepsRegisters(s: PpuState, vram: seq<u8>, n: nat)
    requires PpuOk(s) && |vram| == 0x2000
    ensures var r := PpuRun(s, vram, n);
      r.Some? ==> r.value.0.regs == s.regs.(stat := r.value.0.regs.stat, ly := r.value.0.regs.ly)
  {
    if n > 0 {
      RunDotsKeepsRegisters(s, vram, n - 1);
      var t := PpuRun(s, vram, n - 1);
      if t.Some? {
        DotFacts(t.value.0, vram);
      }
    }
  }

  /** One more dot after n of them. */
  lemma RunDotsNext(s: PpuState, vram: seq<u8>, n: nat, t: PpuState, v: bool, st: bool)
    requires PpuOk(s) && |vram| == 0x2000 && PpuRun(s, vram, n) == Some((t, v, st))
    ensures PpuOk(t)
    ensures PpuDot(t, vram).None? ==> PpuRun(s, vram, n + 1).None?
    ensures PpuDot(t, vram).Some? ==> var d := PpuDot(t, vram).value;
      PpuRun(s, vram, n + 1) == Some((d.0, v || d.1, st || d.2))
  {
  }

  /** Once a dot has panicked, later dots do not run. */
  lemma {:induction false} RunDotsFails(s: PpuState, vram: seq<u8>, i: nat, n: nat)
    requires PpuOk(s) && |vram| == 0x2000 && i <= n && PpuRun(s, vram, i).None?
    ensures PpuRun(s, vram, n).None?
  {
    if i < n {
      RunDotsFails(s, vram, i, n - 1);
    }
  }

  /** A drawing line on LY 0 with an empty FIFO at LX 0, as written: the
      fetcher cannot overflow there and pushes nothing, so no pixel is
      shifted, LX stays 0, the back buffer is not written and drawing never
      ends. */
  predicate StuckDrawing(s: PpuState, frame: seq<u32>)
  {
    PpuOk(s) && s.line.mode == DrawingPixels && s.line.ly == 0 && s.lx == 0 && s.queue == [] && s.frame == frame
  }

  lemma StuckDot(s: PpuState, frame: seq<u32>, vram: seq<u8>)
    requires StuckDrawing(s, frame) && |vram| == 0x2000
    ensures PpuDot(s, vram).Some?
    ensures StuckDrawing(PpuDot(s, vram).value.0, frame) && !PpuDot(s, vram).value.1
  {
    var (t, _) := DotStart(s);
    var f := FetcherTick(WindowCheck(t), 0, vram, t.regs.lcdc, t.regs.scy, t.regs.ly);
    assert f.Some?;
    var u := t.(fetcher := f.value.0, queue := t.queue + f.value.1);
    assert u.queue == [];
    assert ShiftStep(u) == u;
  }

  /** OAM scan before dot 80 only counts dots. */
  lemma {:induction false} OamScanRun(s: PpuState, vram: seq<u8>, n: nat)
    requires PpuOk(s) && |vram| == 0x2000 && s.line.mode == OAMScan && s.line.dots + n < 80
    ensures PpuRun(s, vram, n).Some?
    ensures var r := PpuRun(s, vram, n).value;
      r.0.line == s.line.(dots := s.line.dots + n) && r.0.lx == s.lx && r.0.queue == s.queue
      && r.0.frame == s.frame && !r.1
  {
    if n > 0 {
      OamScanRun(s, vram, n - 1);
    }
  }

  /** As written, the PPU never leaves line 0: from the start of OAM scan on
      LY 0 it scans for 80 dots and then draws for ever, with LX at 0, an
      empty FIFO, an unwritten back buffer and no VBlank request. */
  lemma {:induction false} StuckOnLineZero(s: PpuState, vram: seq<u8>, n: nat)
    requires PpuOk(s) && |vram| == 0x2000 && s.line.mode == OAMScan && s.line.dots == 0 && s.line.ly == 0
    requires n >= 80
    ensures PpuRun(s, vram, n).Some?
    ensures StuckDrawing(PpuRun(s, vram, n).value.0, s.frame) && !PpuRun(s, vram, n).value.1
  {
    if n == 80 {
      OamScanEnds(s, vram);
    } else {
      StuckOnLineZero(s, vram, n - 1);
      StuckRunStep(s, vram, n - 1);
    }
  }

  /** One more dot of a run that is stuck drawing leaves it stuck. */
  lemma StuckRunStep(s: PpuState, vram: seq<u8>, n: nat)
    requires PpuOk(s) && |vram| == 0x2000 && PpuRun(s, vram, n).Some?
    requires StuckDrawing(PpuRun(s, vram, n).value.0, s.frame) && !PpuRun(s, vram, n).value.1
    ensures PpuRun(s, vram, n + 1).Some?
    ensures StuckDrawing(PpuRun(s, vram, n + 1).value.0, s.frame) && !PpuRun(s, vram, n + 1).value.1
  {
    StuckDot(PpuRun(s, vram, n).value.0, s.frame, vram);
  }

  /** Dot 80 of LY 0 ends the OAM scan with an empty FIFO at LX 0. */
  lemma OamScanEnds(s: PpuState, vram: seq<u8>)
    requires PpuOk(s) && |vram| == 0x2000 && s.line.mode == OAMScan && s.line.dots == 0 && s.line.ly == 0
    ensures PpuRun(s, vram, 80).Some? && StuckDrawing(PpuRun(s, vram, 80).value.0, s.frame) && !PpuRun(s, vram, 80).value.1
  {
    OamScanRun(s, vram, 79);
  }

  class Ppu {
    const vram: array<u8>
    const oam: array<u8>
    var lcdc: u8
    var stat: u8
    var scy: u8
    var scx: u8
    var ly: u8
    var lyc: u8
    var bgp: u8
    var obp0: u8
    var obp1: u8
    var wy: u8
    var wx: u8
    var dots: nat
    var mode: Mode
    var lx: u8
    const bgQueue: PixelQueue
    const fetcher: Fetcher
    var discardedPixels: u8
    var windowLineCounter: u8
    var lcdInterruptSignal: bool
    var backBuffer: array<u32>
    var frontBuffer: array<u32>

    function Regs(): LcdRegs
      reads this
    {
      LcdRegs(lcdc, stat, scy, scx, ly, lyc, bgp, obp0, obp1, wy, wx)
    }

    function Line(): Timing
      reads this
    {
      Timing(mode, dots, ly, windowLineCounter)
    }

    /** The buffers have the sizes the source allocates. */
    ghost predicate Shape()
      reads this
    {
      vram.Length == 0x2000 && oam.Length == 160
      && backBuffer.Length == ScreenSize && frontBuffer.Length == ScreenSize && backBuffer != frontBuffer
    }

    /** Everything a dot reads and changes, as a value. */
    ghost function State(): PpuState
      reads this, fetcher, bgQueue, backBuffer
    {
      PpuState(Regs(), Line(), lx, discardedPixels, fetcher.Regs(), bgQueue.contents, lcdInterruptSignal, backBuffer[..])
    }

    ghost predicate Valid()
      reads this, bgQueue, bgQueue.data, fetcher, backBuffer
    {
      Shape() && bgQueue.Valid() && PpuOk(State())
    }

    /** `Ppu::new()`: the post-boot LCD registers (LCDC 0x91, STAT 0x85,
        BGP 0xFC, OBP0 and OBP1 0xFF), OAM scan on line 0, memories zeroed. */
    constructor ()
      ensures Valid() && fresh(vram) && fresh(oam) && fresh(backBuffer) && fresh(frontBuffer)
      ensures fresh(bgQueue) && fresh(bgQueue.data) && fresh(fetcher)
      ensures Regs() == LcdRegs(0x91, 0x85, 0, 0, 0, 0, 0xFC, 0xFF, 0xFF, 0, 0)
      ensures Line() == Timing(OAMScan, 0, 0, 0) && lx == 0 && !lcdInterruptSignal
      ensures bgQueue.contents == [] && fetcher.Regs() == FetcherRegs(GetTile, 0, 0, 0, 0, 0, 0, false)
      ensures forall i :: 0 <= i < 0x2000 ==> vram[i] == 0
    {
      vram := new u8[0x2000](_ => 0);
      oam := new u8[160](_ => 0);
      lcdc, stat, scy, scx, ly, lyc := 0x91, 0x85, 0, 0, 0, 0;
      bgp, obp0, obp1, wy, wx := 0xFC, 0xFF, 0xFF, 0, 0;
      dots, mode, lx := 0, OAMScan, 0;
      bgQueue := new PixelQueue();
      fetcher := new Fetcher();
      discardedPixels, windowLineCounter, lcdInterruptSignal := 0, 0, false;
      backBuffer := new u32[ScreenSize](_ => 0);
      frontBuffer := new u32[ScreenSize](_ => 0);
    }

    /** The start of a dot (`DotStart`). */
    method BeginDot() returns (statIrq: bool)
      requires Valid()
      modifies this`dots, this`stat, this`lcdInterruptSignal
      ensures Valid()
      ensures (State(), statIrq) == DotStart(old(State()))
    {
      dots := dots + 1;
      stat := StatCompare(stat, ly, lyc);
      var signal := StatSignal(stat, ly, lyc, mode);
      statIrq := signal && !lcdInterruptSignal;
      lcdInterruptSignal := signal;
    }

    /** OAM scan (`OamScanStep`). */
    method OamScanDot()
      requires Valid() && mode == OAMScan
      modifies this`mode, this`lx, this`discardedPixels, fetcher, bgQueue
      ensures Valid() && bgQueue.data == old(bgQueue.data)
      ensures State() == OamScanStep(old(State()))
    {
      if dots >= 80 {
        ghost var f := fetcher.Regs().(mapX := scx / 8, cycles := 0, state := GetTile, fetchingWindow := false);
        fetcher.mapX := scx / 8;
        fetcher.cycles := 0;
        fetcher.state := GetTile;
        fetcher.fetchingWindow := false;
        assert fetcher.Regs() == f;
        bgQueue.Clear();
        discardedPixels := scx % 8;
        lx := 0;
        mode := DrawingPixels;
      }
    }

    /** Drawing, first part: the window check (`WindowCheck`). */
    method EnterWindow()
      requires FetcherOk(fetcher.Regs())
      modifies fetcher
      ensures fetcher.Regs() == WindowCheck(old(State()))
    {
      var windowEnable := lcdc / 0x20 % 2 == 1;
      var insideWindowY := ly >= wy;
      var insideWindowX := lx as int + 7 >= wx;
      if windowEnable && insideWindowY && insideWindowX {
        fetcher.StartFetchingWindow(windowLineCounter);
      }
    }

    /** Drawing, second part: the fetcher runs one dot; `ok` is false when it
        panics. As written it pushes nothing into the FIFO. */
    method FetchDot() returns (ok: bool)
      requires Shape() && bgQueue.Valid() && FetcherOk(fetcher.Regs())
      modifies fetcher, bgQueue, bgQueue.data
      ensures bgQueue.Valid() && FetcherOk(fetcher.Regs()) && bgQueue.data == old(bgQueue.data)
      ensures var r := FetcherTick(old(fetcher.Regs()), |old(bgQueue.contents)|, vram[..], lcdc, scy, ly);
        (ok <==> r.Some?) && (ok ==> fetcher.Regs() == r.value.0)
      ensures bgQueue.contents == old(bgQueue.contents)
    {
      ok := fetcher.Tick(bgQueue, vram, lcdc, scy, ly);
    }

    /** Drawing, third part: the pixel shift (`ShiftStep`). */
    method ShiftPixel()
      requires Shape() && bgQueue.Valid() && PpuOk(State()) && mode == DrawingPixels
      modifies this`lx, this`discardedPixels, bgQueue, backBuffer
      ensures bgQueue.Valid() && bgQueue.data == old(bgQueue.data)
      ensures State() == ShiftStep(old(State()))
    {
      ghost var before := bgQueue.contents;
      var pixel := bgQueue.Pop();
      if pixel.Some? {
        assert pixel.value == before[0] && before[0] in before;
        if discardedPixels > 0 {
          discardedPixels := discardedPixels - 1;
        } else {
          DrawPixel(pixel.value);
        }
      }
    }

    /** A shifted pixel that is not discarded: its colour goes into the back
        buffer at (LX, LY) and LX moves on. */
    method DrawPixel(pixel: Pixel)
      requires lx < ScreenWidth && pixel.paletteRegister < 3 && pixel.color < 4
      modifies this`lx, backBuffer
      ensures var index := ly as nat * ScreenWidth + old(lx) as nat;
        var color := ResolvePixelColor(bgp, obp0, obp1, pixel);
        backBuffer[..] == (if index < backBuffer.Length then old(backBuffer[..])[index := color] else old(backBuffer[..]))
      ensures lx == old(lx) + 1
    {
      var color := ResolvePixelColor(bgp, obp0, obp1, pixel);
      var index := ly as nat * ScreenWidth + lx as nat;
      if index < backBuffer.Length {
        backBuffer[index] := color;
      }
      lx := lx + 1;
    }

    /** Drawing, last part: the end of the line (`EndDrawingStep`). */
    method EndDrawing()
      requires PartsOk(State()) && mode == DrawingPixels
      modifies this`mode, this`windowLineCounter
      ensures State() == EndDrawingStep(old(State()))
    {
      if lx >= ScreenWidth {
        if fetcher.fetchingWindow {
          windowLineCounter := windowLineCounter + 1;
        }
        mode := HorizontalBlank;
      }
    }

    /** One drawing dot (`DrawingStep`); `ok` is false when the fetcher
        panics, and the dot stops there. */
    method DrawingDot() returns (ok: bool)
      requires Valid() && mode == DrawingPixels
      modifies this`mode, this`lx, this`discardedPixels, this`windowLineCounter, fetcher, bgQueue, bgQueue.data, backBuffer
      ensures Valid() && bgQueue.data == old(bgQueue.data)
      ensures var r := DrawingStep(old(State()), vram[..]);
        (ok <==> r.Some?) && (ok ==> State() == r.value)
    {
      ghost var s, w, vr := State(), WindowCheck(State()), vram[..];
      EnterWindow();
      ok := FetchDot();
      assert vram[..] == vr;
      ghost var f := FetcherTick(w, |s.queue|, vr, s.regs.lcdc, s.regs.scy, s.regs.ly);
      if !ok {
        assert f.None?;
        return;
      }
      ghost var s1 := s.(fetcher := f.value.0, queue := s.queue + f.value.1);
      assert s.queue + f.value.1 == s.queue;
      assert State() == s1;
      FinishDrawing();
      assert vram[..] == vr;
      assert DrawingStep(s, vr) == Some(EndDrawingStep(ShiftStep(s1)));
    }

    /** Drawing after the fetcher's dot: the pixel shift, then the end of
        the line. */
    method FinishDrawing()
      requires Shape() && bgQueue.Valid() && PpuOk(State()) && mode == DrawingPixels
      modifies this`mode, this`lx, this`discardedPixels, this`windowLineCounter, bgQueue, backBuffer
      ensures bgQueue.Valid() && bgQueue.data == old(bgQueue.data)
      ensures State() == EndDrawingStep(ShiftStep(old(State())))
    {
      ShiftPixel();
      EndDrawing();
    }

    /** HBlank and VBlank: the end-of-line check (`BlankLineStep`). */
    method BlankDot() returns (vblankIrq: bool)
      requires Valid() && Blank(mode)
      modifies this`mode, this`dots, this`ly, this`windowLineCounter
      ensures Valid()
      ensures (State(), vblankIrq) == BlankLineStep(old(State()))
    {
      ghost var s := State();
      vblankIrq := false;
      if dots >= 456 {
        dots := 0;
        ly := ly + 1;
        if mode == HorizontalBlank {
          if ly == 144 {
            vblankIrq := true;
            windowLineCounter := 0;
            mode := VerticalBlank;
          } else {
            mode := OAMScan;
          }
        } else if ly > 153 {
          ly := 0;
          mode := OAMScan;
        }
      }
      assert (Line(), vblankIrq) == EndOfLine(s.line);
      assert State() == s.(line := Line(), regs := s.regs.(ly := ly));
    }

    /** The mode-specific part of a dot (`ModeStep`). */
    method ModeDot() returns (ok: bool, vblankIrq: bool)
      requires Valid()
      modifies this`mode, this`lx, this`discardedPixels, this`windowLineCounter, this`dots, this`ly
      modifies fetcher, bgQueue, bgQueue.data, backBuffer
      ensures Valid() && bgQueue.data == old(bgQueue.data)
      ensures var r := ModeStep(old(State()), vram[..]);
        (ok <==> r.Some?) && (ok ==> (State(), vblankIrq) == r.value)
    {
      ok, vblankIrq := true, false;
      match mode {
        case OAMScan => OamScanDot();
        case DrawingPixels => ok := DrawingDot();
        case _ => vblankIrq := BlankDot();
      }
    }

    /** One dot (one iteration of the loop in `step`), as `PpuDot`. */
    method Dot() returns (ok: bool, vblankIrq: bool, statIrq: bool)
      requires Valid()
      modifies this, fetcher, bgQueue, bgQueue.data, backBuffer
      ensures Valid() && vram[..] == old(vram[..])
      ensures backBuffer == old(backBuffer) && frontBuffer == old(frontBuffer)
      ensures bgQueue.data == old(bgQueue.data)
      ensures var r := PpuDot(old(State()), vram[..]);
        (ok <==> r.Some?) && (ok ==> (State(), vblankIrq, statIrq) == r.value)
    {
      statIrq := BeginDot();
      ok, vblankIrq := ModeDot();
    }

    /** The dot after n dots of a run of `total` dots from s0: the run
        goes on, or stops at this dot's panic. */
    method NextDot(ghost s0: PpuState, ghost vr: seq<u8>, ghost n: nat, ghost total: nat, vblankIn: bool, statIn: bool)
      returns (ok: bool, vblankIrq: bool, statIrq: bool)
      requires Valid() && vram[..] == vr && PpuOk(s0) && |vr| == 0x2000 && n < total
      requires PpuRun(s0, vr, n) == Some((State(), vblankIn, statIn))
      modifies this, fetcher, bgQueue, bgQueue.data, backBuffer
      ensures Valid() && vram[..] == vr
      ensures backBuffer == old(backBuffer) && frontBuffer == old(frontBuffer) && bgQueue.data == old(bgQueue.data)
      ensures ok ==> PpuRun(s0, vr, n + 1) == Some((State(), vblankIrq, statIrq))
      ensures !ok ==> PpuRun(s0, vr, total).None?
    {
      RunDotsNext(s0, vr, n, State(), vblankIn, statIn);
      var v, s;
      ok, v, s := Dot();
      vblankIrq, statIrq := vblankIn || v, statIn || s;
      if !ok {
        RunDotsFails(s0, vr, n + 1, total);
      }
    }

    /** `step(t_cycles)`: t dots, as `PpuRun`; `ok` is false when a dot
        panics, and no further dot runs. */
    method Step(tCycles: u32) returns (ok: bool, vblankIrq: bool, lcdStatIrq: bool)
      requires Valid()
      modifies this, fetcher, bgQueue, bgQueue.data, backBuffer
      ensures Valid()
      ensures backBuffer == old(backBuffer) && frontBuffer == old(frontBuffer) && bgQueue.data == old(bgQueue.data)
      ensures var r := PpuRun(old(State()), vram[..], tCycles as nat);
        (ok <==> r.Some?) && (ok ==> (State(), vblankIrq, lcdStatIrq) == r.value)
    {
      ghost var s0, vr := State(), vram[..];
      ok, vblankIrq, lcdStatIrq := true, false, false;
      var i: u32 := 0;
      while ok && i < tCycles
        invariant i <= tCycles
        invariant Valid() && vram[..] == vr
        invariant backBuffer == old(backBuffer) && frontBuffer == old(frontBuffer)
        invariant bgQueue.data == old(bgQueue.data)
        invariant ok ==> PpuRun(s0, vr, i as nat) == Some((State(), vblankIrq, lcdStatIrq))
        invariant !ok ==> PpuRun(s0, vr, tCycles as nat).None?
      {
        ok, vblankIrq, lcdStatIrq := NextDot(s0, vr, i as nat, tCycles as nat, vblankIrq, lcdStatIrq);
        i := i + 1;
      }
    }

    /** `update_front_buffer`: swap the finished frame in. */
    method UpdateFrontBuffer()
      requires Valid()
      modifies this`backBuffer, this`frontBuffer
      ensures backBuffer == old(frontBuffer) && frontBuffer == old(backBuffer)
      ensures Valid() && State() == old(State()).(frame := old(frontBuffer[..]))
    {
      backBuffer, frontBuffer := frontBuffer, backBuffer;
    }

    /** `read_vram`: the bus sends 8000-9FFF here. */
    function ReadVram(addr: u16): (v: u8)
      requires Valid() && 0x8000 <= addr < 0xA000
      reads this, bgQueue, bgQueue.data, fetcher, backBuffer, vram
      ensures v == vram[addr - 0x8000]
    {
      vram[addr - 0x8000]
    }

    method WriteVram(addr: u16, value: u8)
      requires Valid() && 0x8000 <= addr < 0xA000
      modifies vram
      ensures Valid()
      ensures vram[..] == old(vram[..])[addr - 0x8000 := value]
      ensures ReadVram(addr) == value
    {
      vram[addr - 0x8000] := value;
    }

    /** `read_oam`: the bus sends FE00-FE9F here. */
    function ReadOam(addr: u16): (v: u8)
      requires Valid() && 0xFE00 <= addr < 0xFEA0
      reads this, bgQueue, bgQueue.data, fetcher, backBuffer, oam
      ensures v == oam[addr - 0xFE00]
    {
      oam[addr - 0xFE00]
    }

    method WriteOam(addr: u16, value: u8)
      requires Valid() && 0xFE00 <= addr < 0xFEA0
      modifies oam
      ensures Valid()
      ensures oam[..] == old(oam[..])[addr - 0xFE00 := value]
      ensures ReadOam(addr) == value
    {
      oam[addr - 0xFE00] := value;
    }

    function ReadRegister(addr: u16): (v: u8)
      reads this
      ensures v == LcdRead(Regs(), mode, addr)
    {
      LcdRead(Regs(), mode, addr)
    }

    method WriteRegister(addr: u16, value: u8)
      modifies this`lcdc, this`stat, this`scy, this`scx, this`lyc, this`bgp, this`obp0, this`obp1, this`wy, this`wx
      ensures Regs() == LcdWrite(old(Regs()), addr, value)
    {
      match addr {
        case 0xFF40 => lcdc := value;
        case 0xFF41 => stat := StatWrite(stat, value);
        case 0xFF42 => scy := value;
        case 0xFF43 => scx := value;
        case 0xFF44 =>
        case 0xFF45 => lyc := value;
        case 0xFF47 => bgp := value;
        case 0xFF48 => obp0 := value;
        case 0xFF49 => obp1 := value;
        case 0xFF4A => wy := value;
        case 0xFF4B => wx := value;
        case _ =>
      }
    }
  }
}

/** The memory bus of the src/ tree (src/mmu.rs): the DMG address map over
    the cartridge, the PPU's VRAM and OAM, 8 KiB of work RAM with its echo,
    the IO registers, 127 bytes of high RAM and the interrupt-enable
    register; and `tick`, which steps the PPU, timer and serial port by one
    machine cycle, collects their interrupt requests into IF and counts
    frames. The `async` yield at the end of a frame is left out: `read` and
    `write` are a raw access followed by a synchronous `tick`. A panic of the
    source (an unmapped IO register, a ROM index past the image) is `None`
    for a read and `false` for a write. */
module Mmu {
  import opened Bits
  import C = Cartridge
  import P = Ppu
  import T = Timer
  import S = Serial
  import J = Joypad

  // ------------------------------------------------------------ address map

  /** The regions of the address map; RAM regions carry their array index. */
  datatype Region =
    | CartRom | VideoRam | CartRam | WorkRam(index: nat) | ObjectRam
    | Unusable | IoRegisters | HighRam(index: nat) | InterruptEnable

  /** `raw_read`/`raw_write`'s match: work RAM at `addr - 0xC000`, its echo
      at `addr - 0x2000 - 0xC000`, high RAM at `addr - 0xFF80`. */
  function Decode(addr: u16): (r: Region)
    ensures r == CartRom <==> addr < 0x8000
    ensures r == VideoRam <==> 0x8000 <= addr < 0xA000
    ensures r == CartRam <==> 0xA000 <= addr < 0xC000
    ensures r.WorkRam? <==> 0xC000 <= addr < 0xFE00
    ensures r.WorkRam? ==> r.index < 0x2000 && r.index == (addr - 0xC000) % 0x2000
    ensures r == ObjectRam <==> 0xFE00 <= addr < 0xFEA0
    ensures r == Unusable <==> 0xFEA0 <= addr < 0xFF00
    ensures r == IoRegisters <==> 0xFF00 <= addr < 0xFF80
    ensures r.HighRam? <==> 0xFF80 <= addr < 0xFFFF
    ensures r.HighRam? ==> r.index < 127 && r.index == addr - 0xFF80
    ensures r == InterruptEnable <==> addr == 0xFFFF
  {
    if addr < 0x8000 then CartRom
    else if addr < 0xA000 then VideoRam
    else if addr < 0xC000 then CartRam
    else if addr < 0xE000 then WorkRam(addr - 0xC000)
    else if addr < 0xFE00 then WorkRam(addr - 0x2000 - 0xC000)
    else if addr < 0xFEA0 then ObjectRam
    else if addr < 0xFF00 then Unusable
    else if addr < 0xFF80 then IoRegisters
    else if addr < 0xFFFF then HighRam(addr - 0xFF80)
    else InterruptEnable
  }

  /** Echo RAM E000-FDFF is the same memory as C000-DDFF. */
  lemma EchoMirrorsWorkRam(addr: u16)
    requires 0xE000 <= addr < 0xFE00
    ensures Decode(addr) == Decode(addr - 0x2000)
  {
    assert Decode(addr).index == Decode(addr - 0x2000).index;
  }

  /** Two work-RAM addresses share a byte exactly when they are equal or
      0x2000 apart. */
  lemma WorkRamAliases(a: u16, b: u16)
    requires Decode(a).WorkRam? && Decode(b).WorkRam?
    ensures Decode(a) == Decode(b) <==> a == b || a == b + 0x2000 || b == a + 0x2000
  {
    assert Decode(a).index == (a - 0xC000) % 0x2000 && Decode(b).index == (b - 0xC000) % 0x2000;
    if a < 0xE000 {
      DivUnique(a - 0xC000, 0x2000, 0, a - 0xC000);
    } else {
      DivUnique(a - 0xC000, 0x2000, 1, a - 0xE000);
    }
    if b < 0xE000 {
      DivUnique(b - 0xC000, 0x2000, 0, b - 0xC000);
    } else {
      DivUnique(b - 0xC000, 0x2000, 1, b - 0xE000);
    }
  }

  /** The devices behind FF00-FF7F. */
  datatype IoPort = JoypadPort | SerialPort | TimerPort | InterruptFlag | LcdPort | Unmapped

  /** `read_io`/`write_io`'s match; everything else, the sound registers
      included, is `unimplemented!()`. */
  function DecodeIo(addr: u16): (p: IoPort)
    ensures p == JoypadPort <==> addr == 0xFF00
    ensures p == SerialPort <==> addr == 0xFF01 || addr == 0xFF02
    ensures p == TimerPort <==> 0xFF04 <= addr <= 0xFF07
    ensures p == InterruptFlag <==> addr == 0xFF0F
    ensures p == LcdPort <==> 0xFF40 <= addr <= 0xFF4B
  {
    if addr == 0xFF00 then JoypadPort
    else if addr == 0xFF01 || addr == 0xFF02 then SerialPort
    else if 0xFF04 <= addr <= 0xFF07 then TimerPort
    else if addr == 0xFF0F then InterruptFlag
    else if 0xFF40 <= addr <= 0xFF4B then LcdPort
    else Unmapped
  }

  // --------------------------------------------------------- tick and frames

  /** Machine cycles per frame: 4194304 / 59.7 / 4, rounded. */
  const TicksPerFrame: u32 := 17556

  /** The frame counter of `tick`: one more cycle, and at 17556 it restarts
      from 0 and the frame is signalled. */
  function FrameTick(count: u32): (r: (u32, bool))
    requires count < TicksPerFrame
    ensures r.0 < TicksPerFrame
    ensures r.1 <==> count == TicksPerFrame - 1
    ensures r.0 == if r.1 then 0 else count + 1
  {
    if count + 1 >= TicksPerFrame then (0, true) else (count + 1, false)
  }

  /** n ticks from `count`: the count reached and the frames signalled. */
  function FrameRun(count: u32, n: nat): (r: (u32, nat))
    requires count < TicksPerFrame
    ensures r.0 < TicksPerFrame
  {
    if n == 0 then (count, 0)
    else
      var (c, k) := FrameRun(count, n - 1);
      var (c', done) := FrameTick(c);
      (c', k + if done then 1 else 0)
  }

  lemma {:induction false} FrameRunAdds(count: u32, a: nat, b: nat)
    requires count < TicksPerFrame
    ensures FrameRun(count, a + b) == (FrameRun(FrameRun(count, a).0, b).0, FrameRun(count, a).1 + FrameRun(FrameRun(count, a).0, b).1)
  {
    if b > 0 {
      FrameRunAdds(count, a, b - 1);
    }
  }

  /** Below the end of a frame the counter only counts. */
  lemma {:induction false} WithinFrame(count: u32, n: nat)
    requires count + n < TicksPerFrame
    ensures FrameRun(count, n) == (count + n, 0)
  {
    if n > 0 {
      WithinFrame(count, n - 1);
    }
  }

  /** From a fresh counter, every 17556 ticks signal exactly one frame and
      bring the counter back to 0. */
  lemma {:induction false} FramesEvery17556Ticks(k: nat)
    ensures FrameRun(0, TicksPerFrame * k) == (0, k)
  {
    if k > 0 {
      FramesEvery17556Ticks(k - 1);
      WithinFrame(0, TicksPerFrame - 1);
      FrameRunAdds(0, TicksPerFrame * (k - 1), TicksPerFrame);
      assert FrameRun(0, TicksPerFrame) == (0, 1) by {
        assert FrameRun(0, TicksPerFrame) == (var (c, n) := FrameRun(0, TicksPerFrame - 1); var (c', d) := FrameTick(c); (c', n + if d then 1 else 0));
      }
    }
  }

  /** IF after `tick`: bit 2 ORed in on a timer request and bit 3 on a
      serial request; the PPU's requests are dropped. */
  function TickFlags(flag: u8, timerIrq: bool, serialIrq: bool): (r: u8)
    ensures forall i :: 0 <= i < 8 && i != 2 && i != 3 ==> Bit(r, i) == Bit(flag, i)
    ensures Bit(r, 2) == (Bit(flag, 2) || timerIrq)
    ensures Bit(r, 3) == (Bit(flag, 3) || serialIrq)
  {
    var f := if timerIrq then SetBit(flag, 2) else flag;
    if serialIrq then SetBit(f, 3) else f
  }

  /** The regions backed by the bus's own memory: work RAM with its echo,
      high RAM and IE. `tick` leaves them alone. */
  predicate Owned(r: Region)
  {
    r.WorkRam? || r.HighRam? || r == InterruptEnable
  }

  predicate BusMemory(addr: u16)
  {
    Owned(Decode(addr))
  }

  /** The bus's own memory as values. */
  datatype OwnedMemory = OwnedMemory(wram: seq<u8>, hram: seq<u8>, ie: u8)

  predicate MemoryOk(m: OwnedMemory)
  {
    |m.wram| == 0x2000 && |m.hram| == 127
  }

  predicate InBounds(r: Region)
  {
    (r.WorkRam? ==> r.index < 0x2000) && (r.HighRam? ==> r.index < 127)
  }

  /** The byte an owned region holds. */
  function Load(m: OwnedMemory, r: Region): u8
    requires MemoryOk(m) && Owned(r) && InBounds(r)
  {
    match r
    case WorkRam(i) => m.wram[i]
    case HighRam(i) => m.hram[i]
    case InterruptEnable => m.ie
  }

  /** `raw_write` on the bus's own memory; a write to any other region
      leaves it as it was. */
  function Store(m: OwnedMemory, r: Region, v: u8): (m': OwnedMemory)
    requires MemoryOk(m) && InBounds(r)
    ensures MemoryOk(m')
    ensures !Owned(r) ==> m' == m
  {
    match r
    case WorkRam(i) => m.(wram := m.wram[i := v])
    case HighRam(i) => m.(hram := m.hram[i := v])
    case InterruptEnable => m.(ie := v)
    case _ => m
  }

  /** A store is read back at its own region and is invisible at every
      other one. */
  lemma LoadStore(m: OwnedMemory, r: Region, v: u8, r': Region)
    requires MemoryOk(m) && InBounds(r) && Owned(r') && InBounds(r')
    ensures Load(Store(m, r, v), r') == if r == r' then v else Load(m, r')
  {
  }

  /** `addr` and `addr + 1` never share a byte of the bus's own memory. */
  lemma DistinctCells(addr: u16, next: u16)
    requires next == WrapAdd16(addr, 1) && BusMemory(addr) && BusMemory(next)
    ensures Decode(addr) != Decode(next)
  {
    if Decode(addr).WorkRam? && Decode(next).WorkRam? {
      WorkRamAliases(addr, next);
    }
  }

  /** The bus's own memory after `write_u16`'s two stores, in the order
      `le` picks: low byte at `addr` first, or high byte at `addr + 1`
      first. */
  function WordStore(m: OwnedMemory, addr: u16, value: u16, le: bool): (m': OwnedMemory)
    requires MemoryOk(m)
    ensures MemoryOk(m')
  {
    var (a1, v1, a2, v2) := WordOrder(addr, value, le);
    Store(Store(m, Decode(a1), v1), Decode(a2), v2)
  }

  /** `write_u16`'s two byte writes in the order they happen: with `le`
      the low byte to `addr` first, otherwise the high byte to `addr + 1`
      first. */
  function WordOrder(addr: u16, value: u16, le: bool): (w: (u16, u8, u16, u8))
    ensures {w.0, w.2} == {addr, WrapAdd16(addr, 1)} && w.0 != w.2
    ensures w.0 == addr ==> w.1 == Lo(value) && w.3 == Hi(value)
    ensures w.2 == addr ==> w.3 == Lo(value) && w.1 == Hi(value)
  {
    var next := WrapAdd16(addr, 1);
    if le then (addr, Lo(value), next, Hi(value)) else (next, Hi(value), addr, Lo(value))
  }

  /** The two stores never hit the same byte, so their order is invisible
      in the bus's own memory. */
  lemma WordStoreOrder(m: OwnedMemory, addr: u16, value: u16)
    requires MemoryOk(m)
    ensures WordStore(m, addr, value, true) == WordStore(m, addr, value, false)
  {
    var next := WrapAdd16(addr, 1);
    if BusMemory(addr) && BusMemory(next) {
      DistinctCells(addr, next);
    }
  }

  /** Two stores to different cells commute. */
  lemma UpdatesCommute(s: seq<u8>, i: int, j: int, x: u8, y: u8)
    requires 0 <= i < |s| && 0 <= j < |s| && i != j
    ensures s[i := x][j := y] == s[j := y][i := x]
  {
  }

  /** After either order the word reads back, low byte at `addr`. */
  lemma WordStoreReads(m: OwnedMemory, addr: u16, value: u16, le: bool)
    requires MemoryOk(m) && BusMemory(addr) && BusMemory(WrapAdd16(addr, 1))
    ensures Load(WordStore(m, addr, value, le), Decode(addr)) == Lo(value)
    ensures Load(WordStore(m, addr, value, le), Decode(WrapAdd16(addr, 1))) == Hi(value)
  {
    var r, q := Decode(addr), Decode(WrapAdd16(addr, 1));
    DistinctCells(addr, WrapAdd16(addr, 1));
    if le {
      LoadStore(Store(m, r, Lo(value)), q, Hi(value), r);
      LoadStore(m, r, Lo(value), r);
    } else {
      LoadStore(Store(m, q, Hi(value)), r, Lo(value), q);
      LoadStore(m, q, Hi(value), q);
    }
  }

  // ------------------------------------------------- the devices as values

  /** What the bus's devices hold, as values: the PPU (`Ppu.PpuState`, its
      back buffer included) with its VRAM, OAM and front buffer, the timer,
      the serial port, the joypad's buttons and select lines, IF, and the
      frame counter with its signal. */
  datatype DeviceState = DeviceState(ppu: P.PpuState, vram: seq<u8>, oam: seq<u8>, front: seq<u32>,
                                     timer: T.TimerState, serial: S.SerialState,
                                     pressed: u8, selectAction: bool, selectDpad: bool,
                                     flag: u8, count: u32, frameReady: bool)

  predicate DevicesOk(d: DeviceState)
  {
    P.PpuOk(d.ppu) && |d.vram| == 0x2000 && |d.oam| == 160 && |d.front| == P.ScreenSize && d.count < TicksPerFrame
  }

  /** `read_io` on values: each port reads its own device; an unmapped
      register panics (`None`). */
  function IoRead(d: DeviceState, addr: u16): (v: Option<u8>)
    ensures v.None? <==> DecodeIo(addr) == Unmapped
    ensures DecodeIo(addr) == InterruptFlag ==> v == Some(d.flag)
    ensures DecodeIo(addr) == TimerPort ==> v == Some(T.ReadTimer(d.timer, addr))
    ensures DecodeIo(addr) == SerialPort ==> v == Some(S.ReadSerial(d.serial, addr))
    ensures DecodeIo(addr) == JoypadPort ==> v == Some(J.P1(d.pressed, d.selectAction, d.selectDpad))
    ensures DecodeIo(addr) == LcdPort ==> v == Some(P.LcdRead(d.ppu.regs, d.ppu.line.mode, addr))
  {
    match DecodeIo(addr)
    case JoypadPort => Some(J.P1(d.pressed, d.selectAction, d.selectDpad))
    case SerialPort => Some(S.ReadSerial(d.serial, addr))
    case TimerPort => Some(T.ReadTimer(d.timer, addr))
    case InterruptFlag => Some(d.flag)
    case LcdPort => Some(P.LcdRead(d.ppu.regs, d.ppu.line.mode, addr))
    case Unmapped => None
  }

  /** `write_io` on values: `None` where it panics, an unmapped register or
      the timer's `unreachable!()`. Only the IO registers change, and of the
      PPU only its LCD registers. */
  function IoWrite(d: DeviceState, addr: u16, value: u8): (r: Option<DeviceState>)
    requires DevicesOk(d)
    ensures r.None? <==> DecodeIo(addr) == Unmapped || (DecodeIo(addr) == TimerPort && T.WriteTimer(d.timer, addr, value).None?)
    ensures r.Some? ==> DevicesOk(r.value)
    ensures r.Some? ==> r.value.(ppu := d.ppu, timer := d.timer, serial := d.serial, selectAction := d.selectAction,
                                 selectDpad := d.selectDpad, flag := d.flag) == d
    ensures r.Some? ==> r.value.ppu == d.ppu.(regs := r.value.ppu.regs)
  {
    match DecodeIo(addr)
    case JoypadPort => Some(d.(selectAction := value / 0x20 % 2 == 1, selectDpad := value / 0x10 % 2 == 1))
    case SerialPort => Some(d.(serial := S.WriteSerial(d.serial, addr, value)))
    case TimerPort =>
      var t := T.WriteTimer(d.timer, addr, value);
      if t.None? then None else Some(d.(timer := t.value))
    case InterruptFlag => Some(d.(flag := value))
    case LcdPort => Some(d.(ppu := d.ppu.(regs := P.LcdWrite(d.ppu.regs, addr, value))))
    case Unmapped => None
  }

  /** A write to one port leaves every register of the other ports reading
      as before; IF and the LCD registers other than STAT and LY read back
      what was written, and P1 echoes the written select bits. */
  lemma IoWriteThenRead(d: DeviceState, addr: u16, value: u8, other: u16)
    requires DevicesOk(d) && IoWrite(d, addr, value).Some?
    ensures DecodeIo(other) != DecodeIo(addr) ==> IoRead(IoWrite(d, addr, value).value, other) == IoRead(d, other)
    ensures DecodeIo(addr) == InterruptFlag ==> IoRead(IoWrite(d, addr, value).value, addr) == Some(value)
    ensures DecodeIo(addr) == LcdPort && addr != 0xFF41 && addr != 0xFF44 && addr != 0xFF46 ==>
      IoRead(IoWrite(d, addr, value).value, addr) == Some(value)
    ensures DecodeIo(addr) == JoypadPort ==>
      var v := IoRead(IoWrite(d, addr, value).value, addr).value;
      (v / 0x20 % 2 == 1) == (value / 0x20 % 2 == 1) && (v / 0x10 % 2 == 1) == (value / 0x10 % 2 == 1)
  {
    var d' := IoWrite(d, addr, value).value;
    if DecodeIo(addr) == LcdPort && addr != 0xFF41 && addr != 0xFF44 && addr != 0xFF46 {
      P.RegisterRoundTrip(d.ppu.regs, d.ppu.line.mode, addr, value);
    }
  }

  /** `raw_write`'s effect on the devices: VRAM and OAM store the byte and
      the IO registers go through `write_io`; a write anywhere else leaves
      the devices as they were. */
  function DeviceWrite(d: DeviceState, addr: u16, value: u8): (r: Option<DeviceState>)
    requires DevicesOk(d)
    ensures r.None? <==> Decode(addr) == IoRegisters && IoWrite(d, addr, value).None?
    ensures r.Some? ==> DevicesOk(r.value)
    ensures Decode(addr) == VideoRam ==> r == Some(d.(vram := d.vram[addr - 0x8000 := value]))
    ensures Decode(addr) == ObjectRam ==> r == Some(d.(oam := d.oam[addr - 0xFE00 := value]))
    ensures !(Decode(addr) in {VideoRam, ObjectRam, IoRegisters}) ==> r == Some(d)
  {
    match Decode(addr)
    case VideoRam => Some(d.(vram := d.vram[addr - 0x8000 := value]))
    case ObjectRam => Some(d.(oam := d.oam[addr - 0xFE00 := value]))
    case IoRegisters => IoWrite(d, addr, value)
    case _ => Some(d)
  }

  /** `tick` on the devices: the PPU runs 4 dots over VRAM and the timer
      and serial port 4 cycles; the timer's and serial port's requests are
      ORed into IF; the frame counter advances, and at a frame's end the
      two frame buffers swap and the frame is signalled. `None` where the
      PPU or the timer panics. VRAM, OAM and the joypad are left alone, and
      no IF bit is ever cleared. */
  function TickDevices(d: DeviceState): (r: Option<DeviceState>)
    requires DevicesOk(d)
    ensures r.Some? <==> P.PpuRun(d.ppu, d.vram, 4).Some? && T.StepTimer(d.timer, 4).Some?
    ensures r.Some? ==> DevicesOk(r.value)
    ensures r.Some? ==> (r.value.vram == d.vram && r.value.oam == d.oam && r.value.pressed == d.pressed
                         && r.value.selectAction == d.selectAction && r.value.selectDpad == d.selectDpad)
    ensures r.Some? ==> forall i :: 0 <= i < 8 && Bit(d.flag, i) ==> Bit(r.value.flag, i)
    ensures r.Some? ==> r.value.timer == T.StepTimer(d.timer, 4).value.0 && r.value.serial == S.StepSerial(d.serial, 4).0
    ensures r.Some? ==> (r.value.count, r.value.frameReady) == (FrameTick(d.count).0, d.frameReady || FrameTick(d.count).1)
    ensures r.Some? ==> var p := P.PpuRun(d.ppu, d.vram, 4).value.0;
      r.value.ppu.(frame := p.frame) == p
      && (r.value.ppu.frame, r.value.front) == if FrameTick(d.count).1 then (d.front, p.frame) else (p.frame, d.front)
  {
    var s := StepParts(d);
    if s.None? then None else Some(CountFrame(s.value))
  }

  /** The devices' part of `tick`: the PPU, timer and serial port each run
      4 dots and the timer's and serial port's requests are ORed into IF;
      `None` where the PPU or the timer panics. */
  function StepParts(d: DeviceState): (r: Option<DeviceState>)
    requires DevicesOk(d)
    ensures r.Some? <==> P.PpuRun(d.ppu, d.vram, 4).Some? && T.StepTimer(d.timer, 4).Some?
    ensures r.Some? ==> DevicesOk(r.value) && r.value.count == d.count && r.value.front == d.front
  {
    var p := P.PpuRun(d.ppu, d.vram, 4);
    var t := T.StepTimer(d.timer, 4);
    if p.None? || t.None? then None
    else
      var (sr, serialIrq) := S.StepSerial(d.serial, 4);
      Some(d.(ppu := p.value.0, timer := t.value.0, serial := sr, flag := TickFlags(d.flag, t.value.1, serialIrq)))
  }

  /** The frame counter of `tick`: at a frame's end the two frame buffers
      swap and the frame is signalled. */
  function CountFrame(d: DeviceState): (r: DeviceState)
    requires DevicesOk(d)
    ensures DevicesOk(r) && r.count == FrameTick(d.count).0
  {
    var (count, done) := FrameTick(d.count);
    d.(ppu := if done then d.ppu.(frame := d.front) else d.ppu, front := if done then d.ppu.frame else d.front,
       count := count, frameReady := d.frameReady || done)
  }

  /** n ticks, stopping at the first panic. The frame counter is
      `FrameRun`'s: after 17556 k ticks from a fresh counter exactly k frames
      have ended (`FramesEvery17556Ticks`); VRAM and OAM are as they were. */
  function TickRun(d: DeviceState, n: nat): (r: Option<DeviceState>)
    requires DevicesOk(d)
    ensures r.Some? ==> DevicesOk(r.value)
    ensures r.Some? ==> r.value.count == FrameRun(d.count, n).0
    ensures r.Some? ==> r.value.frameReady == (d.frameReady || FrameRun(d.count, n).1 > 0)
    ensures r.Some? ==> r.value.vram == d.vram && r.value.oam == d.oam
  {
    if n == 0 then Some(d)
    else
      var r := TickRun(d, n - 1);
      if r.None? then None else TickDevices(r.value)
  }

  /** `write`'s effect on the devices: the raw write, then a tick. */
  function WriteTick(d: DeviceState, addr: u16, value: u8): (r: Option<DeviceState>)
    requires DevicesOk(d)
    ensures r.Some? ==> DevicesOk(r.value)
  {
    var w := DeviceWrite(d, addr, value);
    if w.None? then None else TickDevices(w.value)
  }

  /** `write_u16`'s effect on the devices: two writes, in the order `le`
      picks. */
  function WordWriteTick(d: DeviceState, addr: u16, value: u16, le: bool): (r: Option<DeviceState>)
    requires DevicesOk(d)
    ensures r.Some? ==> DevicesOk(r.value)
  {
    var (a1, v1, a2, v2) := WordOrder(addr, value, le);
    var w := WriteTick(d, a1, v1);
    if w.None? then None else WriteTick(w.value, a2, v2)
  }

  /** `raw_write`'s effect on the cartridge. */
  function CartStore(c: C.CartState, addr: u16, value: u8): (r: C.CartState)
    requires C.CartOk(c)
    ensures C.CartOk(r)
  {
    if C.CartAddress(addr) then C.CartWrite(c, addr, value) else c
  }

  /** `write_u16`'s effect on the cartridge. */
  function CartWordStore(c: C.CartState, addr: u16, value: u16, le: bool): (r: C.CartState)
    requires C.CartOk(c)
    ensures C.CartOk(r)
  {
    var (a1, v1, a2, v2) := WordOrder(addr, value, le);
    CartStore(CartStore(c, a1, v1), a2, v2)
  }

  // ------------------------------------------------------------------- bus

  class Bus {
    const cartridge: C.Cartridge
    const ppu: P.Ppu
    const wram: array<u8>
    const hram: array<u8>
    const timer: T.Timer
    const joypad: J.Joypad
    const serial: S.Serial
    var interruptFlag: u8
    var interruptEnable: u8
    var accumulatedCycles: u32
    var frameReady: bool
    /** Machine cycles elapsed: one per `tick`. */
    ghost var cycles: nat
    /** The PPU's pixel queue storage and its two frame buffers, which a
        `tick` may write or swap. */
    ghost const frameMemory: set<object>

    ghost predicate Valid()
      reads this`accumulatedCycles, cartridge, cartridge.mbc1, ppu, ppu.bgQueue, ppu.bgQueue.data, ppu.fetcher, ppu.backBuffer
    {
      wram.Length == 0x2000 && hram.Length == 127 && wram != hram
      && cartridge.Valid() && ppu.Valid() && accumulatedCycles < TicksPerFrame
      && frameMemory == {ppu.bgQueue.data as object, ppu.backBuffer, ppu.frontBuffer}
      && wram != ppu.vram && wram != ppu.oam && hram != ppu.vram && hram != ppu.oam && ppu.vram != ppu.oam
      && (cartridge.mbc1 != null ==>
            cartridge.mbc1.ram != wram && cartridge.mbc1.ram != hram
            && cartridge.mbc1.ram != ppu.vram && cartridge.mbc1.ram != ppu.oam)
    }

    /** The bus's own memory. */
    ghost function Memory(): (m: OwnedMemory)
      reads this`interruptEnable, wram, hram
      ensures wram.Length == 0x2000 && hram.Length == 127 ==> MemoryOk(m)
    {
      OwnedMemory(wram[..], hram[..], interruptEnable)
    }

    /** The devices as values. */
    ghost function Devices(): (d: DeviceState)
      reads this`interruptFlag, this`accumulatedCycles, this`frameReady, ppu, ppu.bgQueue, ppu.bgQueue.data, ppu.fetcher, ppu.backBuffer
      reads ppu.frontBuffer, ppu.vram, ppu.oam, timer, serial, joypad
      ensures ppu.Valid() && accumulatedCycles < TicksPerFrame ==> DevicesOk(d)
    {
      DeviceState(ppu.State(), ppu.vram[..], ppu.oam[..], ppu.frontBuffer[..], timer.State(), serial.State(),
                  joypad.pressed, joypad.inverseSelectAction, joypad.inverseSelectDpad,
                  interruptFlag, accumulatedCycles, frameReady)
    }

    /** `Bus::new` over a loaded cartridge: fresh PPU, timer, serial port
        and joypad, zeroed RAM, IF and IE 0, the frame counter at 0. */
    constructor (cart: C.Cartridge)
      requires cart.Valid()
      ensures Valid() && cartridge == cart
      ensures interruptFlag == 0 && interruptEnable == 0 && accumulatedCycles == 0 && !frameReady
      ensures timer.State() == T.Initial && serial.State() == S.Initial && joypad.Read() == 0xFF
      ensures forall i :: 0 <= i < 0x2000 ==> wram[i] == 0
      ensures forall i :: 0 <= i < 127 ==> hram[i] == 0
      ensures fresh(ppu) && fresh(wram) && fresh(hram) && fresh(timer) && fresh(serial) && fresh(joypad)
    {
      cartridge := cart;
      var p, t, j, s := NewDevices();
      ppu, timer, joypad, serial := p, t, j, s;
      frameMemory := {p.bgQueue.data as object, p.backBuffer, p.frontBuffer};
      wram := new u8[0x2000](_ => 0);
      hram := new u8[127](_ => 0);
      interruptFlag, interruptEnable := 0, 0;
      accumulatedCycles, frameReady, cycles := 0, false, 0;
    }

    /** `read_io`. */
    function ReadIo(addr: u16): (v: Option<u8>)
      requires Decode(addr) == IoRegisters
      reads this, ppu, ppu.bgQueue, ppu.bgQueue.data, ppu.fetcher, ppu.backBuffer
      reads ppu.frontBuffer, ppu.vram, ppu.oam, timer, serial, joypad
      ensures v == IoRead(Devices(), addr)
    {
      match DecodeIo(addr)
      case JoypadPort => Some(joypad.Read())
      case SerialPort => Some(serial.Read(addr))
      case TimerPort => Some(timer.Read(addr))
      case InterruptFlag => Some(interruptFlag)
      case LcdPort => Some(ppu.ReadRegister(addr))
      case Unmapped => None
    }

    /** `raw_read`. */
    function RawRead(addr: u16): (v: Option<u8>)
      requires Valid()
      reads this, cartridge, cartridge.mbc1, if cartridge.mbc1 != null then {cartridge.mbc1.ram} else {}
      reads ppu, ppu.bgQueue, ppu.bgQueue.data, ppu.fetcher, ppu.backBuffer, ppu.frontBuffer, ppu.vram, ppu.oam
      reads wram, hram, timer, joypad, serial
      ensures BusMemory(addr) ==> v == Some(Load(Memory(), Decode(addr)))
      ensures Decode(addr) == Unusable ==> v == Some(0xFF)
      ensures Decode(addr) == VideoRam ==> v == Some(ppu.vram[addr - 0x8000])
      ensures Decode(addr) == ObjectRam ==> v == Some(ppu.oam[addr - 0xFE00])
      ensures Decode(addr) == IoRegisters ==> v == ReadIo(addr)
      ensures Decode(addr) == CartRom || Decode(addr) == CartRam ==> v == C.CartRead(cartridge.State(), addr)
    {
      match Decode(addr)
      case CartRom => cartridge.Read(addr)
      case VideoRam => Some(ppu.ReadVram(addr))
      case CartRam => cartridge.Read(addr)
      case WorkRam(i) => Some(wram[i])
      case ObjectRam => Some(ppu.ReadOam(addr))
      case Unusable => Some(0xFF)
      case IoRegisters => ReadIo(addr)
      case HighRam(i) => Some(hram[i])
      case InterruptEnable => Some(interruptEnable)
    }

    /** Where `write_io` panics: an unmapped IO register
        (`unimplemented!()`), or a DIV or TAC write while TAC, before or
        after, selects 2 or 3 (`unreachable!()` in the timer). */
    predicate WriteFails(addr: u16, value: u8)
      reads this, timer
    {
      Decode(addr) == IoRegisters
      && (DecodeIo(addr) == Unmapped || (DecodeIo(addr) == TimerPort && T.WriteTimer(timer.State(), addr, value).None?))
    }

    /** `write_io`; `false` is a panic (`WriteFails`). */
    method WriteIo(addr: u16, value: u8) returns (ok: bool)
      requires Valid() && Decode(addr) == IoRegisters
      modifies this`interruptFlag, ppu, timer, joypad, serial
      ensures cycles == old(cycles) && Memory() == old(Memory())
      ensures Valid()
      ensures ok <==> !old(WriteFails(addr, value)) && IoWrite(old(Devices()), addr, value).Some?
      ensures ok ==> Devices() == IoWrite(old(Devices()), addr, value).value
      ensures cartridge.State() == old(cartridge.State())
    {
      ok := true;
      match DecodeIo(addr) {
        case JoypadPort => WriteJoypad(addr, value);
        case SerialPort => WriteSerialPort(addr, value);
        case TimerPort => ok := WriteTimerPort(addr, value);
        case InterruptFlag => WriteFlag(addr, value);
        case LcdPort => WriteLcd(addr, value);
        case Unmapped => ok := false;
      }
    }

    /** `write_io`'s joypad arm: the select lines. */
    method WriteJoypad(addr: u16, value: u8)
      requires Valid() && DecodeIo(addr) == JoypadPort
      modifies joypad
      ensures cycles == old(cycles) && Memory() == old(Memory())
      ensures Valid() && Devices() == IoWrite(old(Devices()), addr, value).value
      ensures cartridge.State() == old(cartridge.State())
    {
      joypad.Write(value);
    }

    /** `write_io`'s serial arm. */
    method WriteSerialPort(addr: u16, value: u8)
      requires Valid() && DecodeIo(addr) == SerialPort
      modifies serial
      ensures cycles == old(cycles) && Memory() == old(Memory())
      ensures Valid() && Devices() == IoWrite(old(Devices()), addr, value).value
      ensures cartridge.State() == old(cartridge.State())
    {
      serial.Write(addr, value);
    }

    /** `write_io`'s timer arm; `false` is the timer's panic. */
    method WriteTimerPort(addr: u16, value: u8) returns (ok: bool)
      requires Valid() && Decode(addr) == IoRegisters && DecodeIo(addr) == TimerPort
      modifies timer
      ensures cycles == old(cycles) && Memory() == old(Memory())
      ensures Valid()
      ensures ok <==> !old(WriteFails(addr, value)) && IoWrite(old(Devices()), addr, value).Some?
      ensures ok ==> Devices() == IoWrite(old(Devices()), addr, value).value
      ensures cartridge.State() == old(cartridge.State())
    {
      ok := timer.Write(addr, value);
    }

    /** `write_io`'s IF arm. */
    method WriteFlag(addr: u16, value: u8)
      requires Valid() && DecodeIo(addr) == InterruptFlag
      modifies this`interruptFlag
      ensures cycles == old(cycles) && Memory() == old(Memory())
      ensures Valid() && Devices() == IoWrite(old(Devices()), addr, value).value
      ensures cartridge.State() == old(cartridge.State())
    {
      interruptFlag := value;
    }

    /** `write_io`'s LCD arm: only the LCD registers change. */
    method WriteLcd(addr: u16, value: u8)
      requires Valid() && DecodeIo(addr) == LcdPort
      modifies ppu`lcdc, ppu`stat, ppu`scy, ppu`scx, ppu`lyc, ppu`bgp, ppu`obp0, ppu`obp1, ppu`wy, ppu`wx
      ensures cycles == old(cycles) && Memory() == old(Memory())
      ensures Valid() && Devices() == IoWrite(old(Devices()), addr, value).value
      ensures cartridge.State() == old(cartridge.State())
    {
      ghost var d := Devices();
      ppu.WriteRegister(addr, value);
      ghost var s := d.ppu.(regs := P.LcdWrite(d.ppu.regs, addr, value));
      assert ppu.State() == s;
      assert P.PpuOk(s);
      assert Devices() == d.(ppu := s);
    }

    /** `raw_write`'s work-RAM arms: an echo address is written through
        `addr - 0x2000`, recursively. */
    method WriteWorkRam(addr: u16, value: u8)
      requires Valid() && Decode(addr).WorkRam?
      modifies wram
      ensures wram[..] == old(wram[..])[Decode(addr).index := value]
      ensures Valid() && cycles == old(cycles)
      ensures Devices() == old(Devices()) && cartridge.State() == old(cartridge.State())
      decreases addr
    {
      if addr < 0xE000 {
        wram[addr - 0xC000] := value;
      } else {
        EchoMirrorsWorkRam(addr);
        WriteWorkRam(addr - 0x2000, value);
      }
    }

    /** `raw_write`'s arms for the bus's own memory: work RAM and its echo,
        the unusable range (dropped), high RAM and IE. */
    method WriteInternal(addr: u16, value: u8)
      requires Valid() && (Decode(addr).WorkRam? || Decode(addr) == Unusable || Decode(addr).HighRam? || Decode(addr) == InterruptEnable)
      modifies wram, hram, this`interruptEnable
      ensures cycles == old(cycles)
      ensures Valid() && Memory() == Store(old(Memory()), Decode(addr), value)
      ensures !old(WriteFails(addr, value)) && DeviceWrite(old(Devices()), addr, value) == Some(old(Devices()))
      ensures Devices() == old(Devices()) && cartridge.State() == old(cartridge.State())
      ensures Decode(addr) != Unusable ==> RawRead(addr) == Some(value)
    {
      match Decode(addr) {
        case WorkRam(_) => WriteWorkRam(addr, value);
        case HighRam(i) => hram[i] := value;
        case InterruptEnable => interruptEnable := value;
        case Unusable =>
      }
    }

    /** `raw_write`'s arms for the devices: the cartridge, VRAM, OAM and
        the IO registers. */
    method WriteDevice(addr: u16, value: u8) returns (ok: bool)
      requires Valid()
      requires Decode(addr) in {CartRom, VideoRam, CartRam, ObjectRam, IoRegisters}
      modifies this`interruptFlag, ppu, ppu.vram, ppu.oam, timer, joypad, serial
      modifies cartridge, cartridge.mbc1, if cartridge.mbc1 != null then {cartridge.mbc1.ram} else {}
      ensures cycles == old(cycles)
      ensures Valid()
      ensures ok <==> !old(WriteFails(addr, value)) && DeviceWrite(old(Devices()), addr, value).Some?
      ensures ok ==> Devices() == DeviceWrite(old(Devices()), addr, value).value
      ensures cartridge.State() == CartStore(old(cartridge.State()), addr, value)
      ensures Memory() == old(Memory())
    {
      ok := true;
      match Decode(addr) {
        case CartRom | CartRam => WriteCart(addr, value);
        case VideoRam => WriteVideo(addr, value);
        case ObjectRam => WriteObject(addr, value);
        case IoRegisters => ok := WriteIo(addr, value);
      }
    }

    /** `raw_write`'s cartridge arms: the devices are left alone. */
    method WriteCart(addr: u16, value: u8)
      requires Valid() && Decode(addr) in {CartRom, CartRam}
      modifies cartridge, cartridge.mbc1, if cartridge.mbc1 != null then {cartridge.mbc1.ram} else {}
      ensures cycles == old(cycles) && Memory() == old(Memory())
      ensures Valid() && !old(WriteFails(addr, value))
      ensures Devices() == DeviceWrite(old(Devices()), addr, value).value
      ensures cartridge.State() == CartStore(old(cartridge.State()), addr, value)
    {
      ghost var d := Devices();
      assert DeviceWrite(d, addr, value) == Some(d);
      cartridge.Write(addr, value);
      assert Devices() == d;
    }

    /** `raw_write`'s VRAM arm. */
    method WriteVideo(addr: u16, value: u8)
      requires Valid() && Decode(addr) == VideoRam
      modifies ppu.vram
      ensures cycles == old(cycles) && Memory() == old(Memory())
      ensures Valid() && !old(WriteFails(addr, value))
      ensures Devices() == DeviceWrite(old(Devices()), addr, value).value
      ensures cartridge.State() == old(cartridge.State())
    {
      ppu.WriteVram(addr, value);
    }

    /** `raw_write`'s OAM arm. */
    method WriteObject(addr: u16, value: u8)
      requires Valid() && Decode(addr) == ObjectRam
      modifies ppu.oam
      ensures cycles == old(cycles) && Memory() == old(Memory())
      ensures Valid() && !old(WriteFails(addr, value))
      ensures Devices() == DeviceWrite(old(Devices()), addr, value).value
      ensures cartridge.State() == old(cartridge.State())
    {
      ppu.WriteOam(addr, value);
    }

    /** `raw_write`. Work RAM, its echo, high RAM and IE store the value so
        that it reads back; FEA0-FEFF drops it; the bus's own memory is left
        alone by a write elsewhere. */
    method RawWrite(addr: u16, value: u8) returns (ok: bool)
      requires Valid()
      modifies this`interruptFlag, this`interruptEnable, ppu, ppu.vram, ppu.oam, wram, hram, timer, joypad, serial
      modifies cartridge, cartridge.mbc1, if cartridge.mbc1 != null then {cartridge.mbc1.ram} else {}
      ensures Valid() && cycles == old(cycles)
      ensures ok <==> !old(WriteFails(addr, value)) && DeviceWrite(old(Devices()), addr, value).Some?
      ensures Memory() == Store(old(Memory()), Decode(addr), value)
      ensures ok ==> Devices() == DeviceWrite(old(Devices()), addr, value).value
      ensures cartridge.State() == CartStore(old(cartridge.State()), addr, value)
      ensures Decode(addr).WorkRam? || Decode(addr).HighRam? || Decode(addr) == InterruptEnable ==>
        RawRead(addr) == Some(value)
    {
      ghost var d, m, c := Devices(), Memory(), cartridge.State();
      var r := Decode(addr);
      if r.WorkRam? || r == Unusable || r.HighRam? || r == InterruptEnable {
        WriteInternal(addr, value);
        ok := true;
        assert CartStore(c, addr, value) == c;
      } else {
        ok := WriteDevice(addr, value);
        assert Store(m, r, value) == m;
      }
    }

    /** The frame counter of `tick`; at the end of a frame the PPU's
        buffers are swapped and the frame is signalled. */
    method CountCycle()
      requires Valid()
      modifies this`accumulatedCycles, this`frameReady, this`cycles, ppu`backBuffer, ppu`frontBuffer
      ensures Valid()
      ensures cycles == old(cycles) + 1
      ensures accumulatedCycles == FrameTick(old(accumulatedCycles)).0
      ensures frameReady == (old(frameReady) || FrameTick(old(accumulatedCycles)).1)
      ensures FrameTick(old(accumulatedCycles)).1 ==> ppu.frontBuffer == old(ppu.backBuffer) && ppu.backBuffer == old(ppu.frontBuffer)
      ensures !FrameTick(old(accumulatedCycles)).1 ==> ppu.frontBuffer == old(ppu.frontBuffer) && ppu.backBuffer == old(ppu.backBuffer)
      ensures Memory() == old(Memory()) && cartridge.State() == old(cartridge.State())
      ensures ppu.vram[..] == old(ppu.vram[..]) && ppu.oam[..] == old(ppu.oam[..])
      ensures Devices() == CountFrame(old(Devices()))
    {
      cycles := cycles + 1;
      accumulatedCycles := accumulatedCycles + 1;
      if accumulatedCycles >= TicksPerFrame {
        accumulatedCycles := 0;
        ppu.UpdateFrontBuffer();
        frameReady := true;
      }
    }

    /** The devices' part of `tick`: the PPU, timer and serial port each
        run 4 dots, and the timer's and serial port's requests are ORed into
        IF (the PPU's are dropped). `false` is a panic of the PPU or the
        timer; the state after a panic is left unspecified. */
    method StepDevices() returns (ok: bool)
      requires Valid()
      modifies this`interruptFlag, ppu, ppu.bgQueue, ppu.fetcher, frameMemory, timer, serial
      ensures Valid()
      ensures ok <==> StepParts(old(Devices())).Some?
      ensures ok ==> Devices() == StepParts(old(Devices())).value
      ensures accumulatedCycles == old(accumulatedCycles) && frameReady == old(frameReady) && cycles == old(cycles)
      ensures ppu.backBuffer == old(ppu.backBuffer) && ppu.frontBuffer == old(ppu.frontBuffer)
      ensures ppu.frontBuffer[..] == old(ppu.frontBuffer[..])
      ensures ppu.vram[..] == old(ppu.vram[..]) && ppu.oam[..] == old(ppu.oam[..])
      ensures Memory() == old(Memory()) && cartridge.State() == old(cartridge.State())
    {
      var ppuOk := StepPpu();
      var timerOk := StepTimers();
      ok := ppuOk && timerOk;
    }

    /** The PPU's 4 dots; its interrupt requests are dropped. */
    method StepPpu() returns (ok: bool)
      requires Valid()
      modifies ppu, ppu.bgQueue, ppu.fetcher, ppu.bgQueue.data, ppu.backBuffer
      ensures Valid()
      ensures ok <==> P.PpuRun(old(ppu.State()), old(ppu.vram[..]), 4).Some?
      ensures ok ==> Devices() == old(Devices()).(ppu := P.PpuRun(old(ppu.State()), old(ppu.vram[..]), 4).value.0)
      ensures ppu.backBuffer == old(ppu.backBuffer) && ppu.frontBuffer == old(ppu.frontBuffer)
      ensures ppu.frontBuffer[..] == old(ppu.frontBuffer[..])
      ensures ppu.vram[..] == old(ppu.vram[..]) && ppu.oam[..] == old(ppu.oam[..])
      ensures Memory() == old(Memory()) && cartridge.State() == old(cartridge.State())
    {
      var vblankIrq, statIrq;
      ok, vblankIrq, statIrq := ppu.Step(4);
    }

    /** The timer's and serial port's 4 cycles, their requests ORed into
        IF. */
    method StepTimers() returns (ok: bool)
      modifies this`interruptFlag, timer, serial
      ensures ok <==> T.StepTimer(old(timer.State()), 4).Some?
      ensures serial.State() == S.StepSerial(old(serial.State()), 4).0
      ensures ok ==> Devices() == old(Devices()).(timer := T.StepTimer(old(timer.State()), 4).value.0,
                                                 serial := S.StepSerial(old(serial.State()), 4).0,
                                                 flag := TickFlags(old(interruptFlag), T.StepTimer(old(timer.State()), 4).value.1,
                                                                   S.StepSerial(old(serial.State()), 4).1))
      ensures Memory() == old(Memory()) && cartridge.State() == old(cartridge.State())
    {
      ghost var d := Devices();
      var timerIrq;
      ok, timerIrq := timer.Step(4);
      var serialIrq := serial.Step(4);
      interruptFlag := TickFlags(interruptFlag, timerIrq, serialIrq);
      assert ppu.State() == d.ppu && ppu.frontBuffer[..] == d.front;
    }

    /** `tick`: the devices run one machine cycle, then the frame counter
        advances. */
    method Tick() returns (ok: bool)
      requires Valid()
      modifies this`interruptFlag, this`accumulatedCycles, this`frameReady, this`cycles
      modifies ppu, ppu.bgQueue, ppu.fetcher, frameMemory, timer, serial
      ensures Valid()
      ensures ok <==> TickDevices(old(Devices())).Some?
      ensures ok ==> Devices() == TickDevices(old(Devices())).value && cycles == old(cycles) + 1
      ensures Memory() == old(Memory()) && ppu.vram[..] == old(ppu.vram[..]) && ppu.oam[..] == old(ppu.oam[..])
      ensures cartridge.State() == old(cartridge.State())
    {
      ghost var d := Devices();
      ok := StepDevices();
      ghost var stepped := StepParts(d);
      CountCycle();
      assert ok ==> Devices() == CountFrame(stepped.value);
    }

    /** Outside the IO registers a read sees only the cartridge, VRAM, OAM
        and the bus's own memory, none of which a `tick` changes. */
    twostate lemma TickKeepsReads(addr: u16)
      requires old(Valid()) && Valid()
      requires cartridge.State() == old(cartridge.State()) && Memory() == old(Memory())
      requires ppu.vram[..] == old(ppu.vram[..]) && ppu.oam[..] == old(ppu.oam[..])
      ensures Decode(addr) != IoRegisters ==> RawRead(addr) == old(RawRead(addr))
      ensures RawRead(addr).Some? == old(RawRead(addr)).Some?
    {
      match Decode(addr) {
        case VideoRam =>
          assert ppu.vram[addr - 0x8000] == ppu.vram[..][addr - 0x8000];
        case ObjectRam =>
          assert ppu.oam[addr - 0xFE00] == ppu.oam[..][addr - 0xFE00];
        case _ =>
      }
    }

    /** `read`: the raw read, then one `tick`. `None` is a panic of either.
        Memory the bus owns still holds the value afterwards. */
    method Read(addr: u16) returns (v: Option<u8>)
      requires Valid()
      modifies this`interruptFlag, this`accumulatedCycles, this`frameReady, this`cycles
      modifies ppu, ppu.bgQueue, ppu.fetcher, frameMemory, timer, serial
      ensures Valid()
      ensures v.Some? <==> old(RawRead(addr)).Some? && TickDevices(old(Devices())).Some?
      ensures v.Some? ==> v == old(RawRead(addr)) && cycles == old(cycles) + 1
      ensures TickDevices(old(Devices())).Some? ==> Devices() == TickDevices(old(Devices())).value
      ensures Memory() == old(Memory()) && cartridge.State() == old(cartridge.State())
      ensures ppu.vram[..] == old(ppu.vram[..]) && ppu.oam[..] == old(ppu.oam[..])
      ensures v.Some? && Decode(addr) != IoRegisters ==> RawRead(addr) == v
    {
      v := RawRead(addr);
      var ok := Tick();
      TickKeepsReads(addr);
      v := if ok then v else None;
    }

    /** `write`: the raw write, then one `tick`; `false` is a panic of
        either. */
    method Write(addr: u16, value: u8) returns (ok: bool)
      requires Valid()
      modifies this`interruptFlag, this`interruptEnable, this`accumulatedCycles, this`frameReady, this`cycles
      modifies ppu, ppu.bgQueue, ppu.fetcher, frameMemory, ppu.vram, ppu.oam
      modifies wram, hram, timer, joypad, serial
      modifies cartridge, cartridge.mbc1, if cartridge.mbc1 != null then {cartridge.mbc1.ram} else {}
      ensures Valid()
      ensures ok <==> WriteTick(old(Devices()), addr, value).Some?
      ensures ok ==> Devices() == WriteTick(old(Devices()), addr, value).value && cycles == old(cycles) + 1
      ensures Memory() == Store(old(Memory()), Decode(addr), value)
      ensures cartridge.State() == CartStore(old(cartridge.State()), addr, value)
      ensures Decode(addr) == VideoRam ==> ppu.vram[..] == old(ppu.vram[..])[addr - 0x8000 := value]
      ensures Decode(addr) == ObjectRam ==> ppu.oam[..] == old(ppu.oam[..])[addr - 0xFE00 := value]
    {
      ghost var d := Devices();
      ok := RawWrite(addr, value);
      ghost var w := DeviceWrite(d, addr, value);
      assert ok ==> w.Some? && Devices() == w.value;
      var ticked := Tick();
      assert ok && ticked ==> Devices() == WriteTick(d, addr, value).value;
      ok := ok && ticked;
    }

    /** `read_u16`: two reads, low byte first, the second at `addr + 1`
        wrapping. The low byte is what `addr` read; outside the IO
        registers the high byte is what `addr + 1` read before the first
        `tick`. */
    method ReadU16(addr: u16) returns (v: Option<u16>)
      requires Valid()
      modifies this`interruptFlag, this`accumulatedCycles, this`frameReady, this`cycles
      modifies ppu, ppu.bgQueue, ppu.fetcher, frameMemory, timer, serial
      ensures Valid()
      ensures var t := TickDevices(old(Devices()));
        v.Some? <==> old(RawRead(addr)).Some? && old(RawRead(WrapAdd16(addr, 1))).Some? && t.Some? && TickDevices(t.value).Some?
      ensures v.Some? ==> Devices() == TickDevices(TickDevices(old(Devices())).value).value
      ensures v.Some? ==> cycles == old(cycles) + 2 && Memory() == old(Memory())
      ensures v.Some? ==> old(RawRead(addr)).Some? && Lo(v.value) == old(RawRead(addr)).value
      ensures v.Some? && Decode(WrapAdd16(addr, 1)) != IoRegisters ==>
        old(RawRead(WrapAdd16(addr, 1))).Some? && Hi(v.value) == old(RawRead(WrapAdd16(addr, 1))).value
    {
      var next := WrapAdd16(addr, 1);
      var lo := Read(addr);
      TickKeepsReads(next);
      var hi := Read(next);
      v := if lo.Some? && hi.Some? then Some(Word(hi.value, lo.value)) else None;
    }

    /** `write_u16`: with `le` (LD (nn),SP) the low byte goes to `addr`
        first; otherwise (stack pushes) the high byte goes to `addr + 1`
        first. `false` is a panic of either write, after which the state is
        left unspecified. On the bus's
        own memory the two bytes then read back as the word, low byte at
        `addr`. */
    method WriteU16(addr: u16, value: u16, le: bool) returns (ok: bool)
      requires Valid()
      modifies this`interruptFlag, this`interruptEnable, this`accumulatedCycles, this`frameReady, this`cycles
      modifies ppu, ppu.bgQueue, ppu.fetcher, frameMemory, ppu.vram, ppu.oam
      modifies wram, hram, timer, joypad, serial
      modifies cartridge, cartridge.mbc1, if cartridge.mbc1 != null then {cartridge.mbc1.ram} else {}
      ensures Valid()
      ensures ok <==> WordWriteTick(old(Devices()), addr, value, le).Some?
      ensures ok ==> Devices() == WordWriteTick(old(Devices()), addr, value, le).value && cycles == old(cycles) + 2
      ensures cartridge.State() == CartWordStore(old(cartridge.State()), addr, value, le)
      ensures ok ==> Memory() == WordStore(old(Memory()), addr, value, le)
      ensures ok && Decode(addr) == VideoRam && Decode(WrapAdd16(addr, 1)) == VideoRam ==>
        ppu.vram[..] == old(ppu.vram[..])[addr - 0x8000 := Lo(value)][WrapAdd16(addr, 1) - 0x8000 := Hi(value)]
      ensures ok && BusMemory(addr) && BusMemory(WrapAdd16(addr, 1)) ==>
        Word(RawRead(WrapAdd16(addr, 1)).value, RawRead(addr).value) == value
    {
      var next := WrapAdd16(addr, 1);
      ghost var m := Memory();
      if le {
        ok := WriteTwice(addr, Lo(value), next, Hi(value));
      } else {
        ok := WriteTwice(next, Hi(value), addr, Lo(value));
      }
      if ok && BusMemory(addr) && BusMemory(next) {
        WordStoreReads(m, addr, value, le);
        WordOfHalves(value);
      }
    }

    /** Two `write`s, `a1` first; `false` is a panic of either. */
    method WriteTwice(a1: u16, v1: u8, a2: u16, v2: u8) returns (ok: bool)
      requires Valid()
      modifies this`interruptFlag, this`interruptEnable, this`accumulatedCycles, this`frameReady, this`cycles
      modifies ppu, ppu.bgQueue, ppu.fetcher, frameMemory, ppu.vram, ppu.oam
      modifies wram, hram, timer, joypad, serial
      modifies cartridge, cartridge.mbc1, if cartridge.mbc1 != null then {cartridge.mbc1.ram} else {}
      ensures Valid()
      ensures var w := WriteTick(old(Devices()), a1, v1);
        ok <==> w.Some? && WriteTick(w.value, a2, v2).Some?
      ensures ok ==> Devices() == WriteTick(WriteTick(old(Devices()), a1, v1).value, a2, v2).value
      ensures ok ==> cycles == old(cycles) + 2
      ensures cartridge.State() == CartStore(CartStore(old(cartridge.State()), a1, v1), a2, v2)
      ensures Memory() == Store(Store(old(Memory()), Decode(a1), v1), Decode(a2), v2)
      ensures Decode(a1) == VideoRam && Decode(a2) == VideoRam ==>
        ppu.vram[..] == old(ppu.vram[..])[a1 - 0x8000 := v1][a2 - 0x8000 := v2]
      ensures a1 != a2 && Decode(a1) == VideoRam && Decode(a2) == VideoRam ==>
        ppu.vram[..] == old(ppu.vram[..])[a2 - 0x8000 := v2][a1 - 0x8000 := v1]
    {
      ghost var d := Devices();
      ghost var vram := ppu.vram[..];
      if a1 != a2 && Decode(a1) == VideoRam && Decode(a2) == VideoRam {
        UpdatesCommute(vram, a1 as int - 0x8000, a2 as int - 0x8000, v1, v2);
      }
      var first := Write(a1, v1);
      ghost var w := WriteTick(d, a1, v1);
      assert first ==> w.Some? && Devices() == w.value;
      var second := Write(a2, v2);
      ok := first && second;
    }
  }

  /** The devices `Bus::new` builds: a PPU, timer, joypad and serial port
      in their power-on states. */
  method NewDevices() returns (p: P.Ppu, t: T.Timer, j: J.Joypad, s: S.Serial)
    ensures fresh(p) && fresh(p.vram) && fresh(p.oam) && fresh(p.backBuffer) && fresh(p.frontBuffer)
    ensures fresh(p.bgQueue) && fresh(p.bgQueue.data) && fresh(p.fetcher)
    ensures fresh(t) && fresh(j) && fresh(s)
    ensures p.Valid() && p.vram != p.oam
    ensures t.State() == T.Initial && s.State() == S.Initial && j.Read() == 0xFF
  {
    p := new P.Ppu();
    t := new T.Timer();
    j := new J.Joypad();
    s := new S.Serial();
  }

  /** `Bus::new(rom_data, ...)`: `None` where `Cartridge::new` panics. */
  method New(rom: seq<u8>) returns (b: Option<Bus>)
    ensures b.Some? <==> C.Loads(rom)
    ensures b.Some? ==> b.value.Valid() && b.value.interruptFlag == 0 && b.value.interruptEnable == 0
  {
    var cart := C.New(rom);
    if cart.None? {
      return None;
    }
    var bus := new Bus(cart.value);
    b := Some(bus);
  }
}

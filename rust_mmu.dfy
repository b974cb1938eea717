/** The memory bus of the rust/ tree (rust/src/mmu.rs). It has the src/ tree's
    address map (`Mmu.Decode`) and adds OAM DMA: a write to FF46 starts a
    transfer of 160 bytes from `base * 0x100` into OAM, one byte per machine
    cycle after a two-cycle delay, and while it runs the CPU sees only high
    RAM (FF80-FFFE). `tick` ORs every device's interrupt request into IF;
    IF reads back with bits 7-5 set; the CGB registers read 0 and ignore
    writes, and every other unmapped IO register reads 0xFF. The cartridge,
    timer, serial port and joypad of this tree are not part of this model;
    the src/ tree's models stand in for them. The sound unit is not modelled:
    a read of FF10-FF26 is `None` and a write there changes nothing. */
module RustMmu {
  import opened Bits
  import M = Mmu
  import C = Cartridge
  import R = RustPpu
  import P = Ppu
  import T = Timer
  import S = Serial
  import J = Joypad

  // --------------------------------------------------------------- IO ports

  /** The Game Boy Color registers `read_io`/`write_io` recognise. */
  predicate CgbRegister(addr: u16)
  {
    addr == 0xFF4C || addr == 0xFF4D || addr == 0xFF4F || 0xFF51 <= addr <= 0xFF55
    || addr == 0xFF56 || 0xFF68 <= addr <= 0xFF6B || addr == 0xFF6C || addr == 0xFF70
  }

  datatype IoPort =
    | JoypadPort | SerialPort | TimerPort | InterruptFlag | AudioPort
    | DmaPort | LcdPort | CgbPort | Unmapped

  /** `read_io`/`write_io`'s match, in the source's order: the FF46 arm
      comes before FF40-FF4B and so wins over it. */
  function DecodeIo(addr: u16): (p: IoPort)
    ensures p == JoypadPort <==> addr == 0xFF00
    ensures p == SerialPort <==> addr == 0xFF01 || addr == 0xFF02
    ensures p == TimerPort <==> 0xFF04 <= addr <= 0xFF07
    ensures p == InterruptFlag <==> addr == 0xFF0F
    ensures p == AudioPort <==> 0xFF10 <= addr <= 0xFF26
    ensures p == DmaPort <==> addr == 0xFF46
    ensures p == LcdPort <==> 0xFF40 <= addr <= 0xFF4B && addr != 0xFF46
    ensures p == CgbPort <==> CgbRegister(addr)
  {
    if addr == 0xFF00 then JoypadPort
    else if addr == 0xFF01 || addr == 0xFF02 then SerialPort
    else if 0xFF04 <= addr <= 0xFF07 then TimerPort
    else if addr == 0xFF0F then InterruptFlag
    else if 0xFF10 <= addr <= 0xFF26 then AudioPort
    else if addr == 0xFF46 then DmaPort
    else if 0xFF40 <= addr <= 0xFF4B then LcdPort
    else if CgbRegister(addr) then CgbPort
    else Unmapped
  }

  // -------------------------------------------------------------------- DMA

  /** The transfer's registers: running, source page, next byte, delay. */
  datatype Dma = Dma(active: bool, base: u8, byte: u8, delay: u8)

  /** A running transfer is within its 160 bytes and its 2-cycle delay. */
  predicate DmaOk(d: Dma)
  {
    d.active ==> d.byte < 160 && d.delay <= 2
  }

  /** A write of `value` to FF46. */
  function DmaStart(value: u8): (d: Dma)
    ensures DmaOk(d) && d.active && d.base == value && d.byte == 0 && d.delay == 2
  {
    Dma(true, value, 0, 2)
  }

  /** One byte moved by the transfer: read at `source`, stored in OAM slot `slot`. */
  datatype DmaCopy = DmaCopy(source: u16, slot: nat)

  /** `tick`'s DMA part: an idle transfer does nothing; a delay counts down
      first; then byte i of page `base` is copied to OAM slot i and i
      advances, and the transfer ends once 160 bytes are copied. */
  function DmaStep(d: Dma): (r: (Dma, Option<DmaCopy>))
    requires DmaOk(d)
    ensures DmaOk(r.0) && r.0.base == d.base
    ensures !d.active ==> r == (d, None)
    ensures d.active && d.delay > 0 ==> r.1.None? && r.0.active && r.0.delay == d.delay - 1 && r.0.byte == d.byte
    ensures d.active && d.delay == 0 ==>
      r.1 == Some(DmaCopy(d.base * 0x100 + d.byte, d.byte)) && r.0.byte == d.byte + 1
      && (r.0.active <==> d.byte + 1 < 160) && r.0.delay == 0
  {
    if !d.active then (d, None)
    else if d.delay > 0 then (d.(delay := d.delay - 1), None)
    else
      var source := d.base * 0x100 + d.byte;
      var next := WrapAdd8(d.byte, 1);
      (d.(byte := next, active := next < 160), Some(DmaCopy(source, d.byte)))
  }

  /** n ticks of the transfer: the state reached and the copies made, in order. */
  function DmaRun(d: Dma, n: nat): (r: (Dma, seq<DmaCopy>))
    requires DmaOk(d)
    ensures DmaOk(r.0) && r.0.base == d.base
    decreases n
  {
    if n == 0 then (d, [])
    else
      var (d1, c) := DmaStep(d);
      var (d2, cs) := DmaRun(d1, n - 1);
      (d2, (if c.Some? then [c.value] else []) + cs)
  }

  /** From byte k with the delay spent, the remaining 160 - k ticks copy
      bytes k..159 of the page to the same OAM slots, in order, and end the
      transfer. */
  lemma {:induction false} CopyPhase(b: u8, k: nat)
    requires k <= 160
    ensures var (d, cs) := DmaRun(Dma(k < 160, b, k, 0), 160 - k);
      d == Dma(false, b, 160, 0) && |cs| == 160 - k
      && forall i :: 0 <= i < |cs| ==> cs[i] == DmaCopy(b * 0x100 + k + i, k + i)
    decreases 160 - k
  {
    if k < 160 {
      var d := Dma(true, b, k, 0);
      assert DmaStep(d) == (Dma(k + 1 < 160, b, k + 1, 0), Some(DmaCopy(b * 0x100 + k, k)));
      CopyPhase(b, k + 1);
      var (d2, cs) := DmaRun(Dma(k + 1 < 160, b, k + 1, 0), 160 - (k + 1));
      assert DmaRun(d, 160 - k) == (d2, [DmaCopy(b * 0x100 + k, k)] + cs);
    }
  }

  /** A write of `b` to FF46 copies page `b`'s 160 bytes to OAM slots
      0..159 in order: nothing for the first two ticks, one byte per tick
      after that, and the transfer is over after 162 ticks. */
  lemma DmaTransfer(b: u8)
    ensures var (d, cs) := DmaRun(DmaStart(b), 162);
      !d.active && d.base == b && |cs| == 160
      && forall i :: 0 <= i < 160 ==> cs[i] == DmaCopy(b * 0x100 + i, i)
  {
    CopyPhase(b, 0);
    var (d2, cs) := DmaRun(Dma(true, b, 0, 0), 160);
    assert DmaStep(Dma(true, b, 0, 1)) == (Dma(true, b, 0, 0), None);
    assert [] + cs == cs;
    assert DmaRun(Dma(true, b, 0, 1), 161) == (d2, cs);
    assert DmaStep(DmaStart(b)) == (Dma(true, b, 0, 1), None);
  }

  /** The transfer keeps running, and so keeps the bus blocked, for all of
      its first 161 ticks. */
  lemma {:induction false} DmaBusy(b: u8, n: nat)
    requires n < 162
    ensures DmaRun(DmaStart(b), n).0.active
  {
    if n >= 2 {
      BusyFrom(b, 0, n - 2);
      assert DmaStep(DmaStart(b)) == (Dma(true, b, 0, 1), None);
      assert DmaStep(Dma(true, b, 0, 1)) == (Dma(true, b, 0, 0), None);
      assert DmaRun(Dma(true, b, 0, 1), n - 1).0 == DmaRun(Dma(true, b, 0, 0), n - 2).0;
    }
  }

  /** Fewer than 160 - k ticks from byte k leave the transfer running. */
  lemma {:induction false} BusyFrom(b: u8, k: nat, n: nat)
    requires k + n < 160
    ensures DmaRun(Dma(true, b, k, 0), n).0.active
    decreases n
  {
    if n > 0 {
      assert DmaStep(Dma(true, b, k, 0)).0 == Dma(true, b, k + 1, 0);
      BusyFrom(b, k + 1, n - 1);
    }
  }

  // ---------------------------------------------------------- interrupts

  /** IF after `tick`: bit 0 ORed in on VBlank, bit 1 on STAT, bit 2 on the
      timer and bit 3 on the serial port; no bit is ever cleared. */
  function RaiseFlags(flag: u8, vblank: bool, stat: bool, timerIrq: bool, serialIrq: bool): (r: u8)
    ensures Bit(r, 0) == (Bit(flag, 0) || vblank)
    ensures Bit(r, 1) == (Bit(flag, 1) || stat)
    ensures Bit(r, 2) == (Bit(flag, 2) || timerIrq)
    ensures Bit(r, 3) == (Bit(flag, 3) || serialIrq)
    ensures forall i :: 4 <= i < 8 ==> Bit(r, i) == Bit(flag, i)
    ensures forall i :: 0 <= i < 8 && Bit(flag, i) ==> Bit(r, i)
  {
    var f0 := if vblank then SetBit(flag, 0) else flag;
    var f1 := if stat then SetBit(f0, 1) else f0;
    var f2 := if timerIrq then SetBit(f1, 2) else f1;
    if serialIrq then SetBit(f2, 3) else f2
  }

  // -------------------------------------------------- the bus as values

  /** What the bus's devices hold, as values: the PPU's LCD registers and
      line state with its VRAM and OAM, the transfer, the timer, the serial
      port, the joypad's buttons and select lines, IF and the frame signal. */
  datatype DeviceState = DeviceState(regs: P.LcdRegs, line: R.RustLine, vram: seq<u8>, oam: seq<u8>, dma: Dma,
                                     timer: T.TimerState, serial: S.SerialState,
                                     pressed: u8, selectAction: bool, selectDpad: bool,
                                     flag: u8, frameReady: bool)

  /** The PPU holds LY once, so its registers and its line agree on it. */
  predicate DevicesOk(d: DeviceState)
  {
    d.regs.ly == d.line.ly && R.RustLyOk(d.line) && |d.vram| == 0x2000 && |d.oam| == 160 && DmaOk(d.dma)
  }

  /** The whole bus as a value: the cartridge, the bus's own memory and the
      devices. A transfer reads through all three. */
  datatype BusState = BusState(cart: C.CartState, memory: M.OwnedMemory, devices: DeviceState)

  predicate BusOk(b: BusState)
  {
    C.CartOk(b.cart) && M.MemoryOk(b.memory) && DevicesOk(b.devices)
  }

  /** Whether a running transfer hides `addr` from the CPU: everything but
      high RAM, IE included. */
  predicate Blocks(dma: Dma, addr: u16)
  {
    dma.active && (addr < 0xFF80 || addr > 0xFFFE)
  }

  /** `read_io` on values; the sound registers are `None`. */
  function IoRead(d: DeviceState, addr: u16): (v: Option<u8>)
    ensures v.None? <==> DecodeIo(addr) == AudioPort
    ensures DecodeIo(addr) == CgbPort ==> v == Some(0)
    ensures DecodeIo(addr) == Unmapped ==> v == Some(0xFF)
    ensures DecodeIo(addr) == JoypadPort ==> v == Some(J.P1(d.pressed, d.selectAction, d.selectDpad))
  {
    match DecodeIo(addr)
    case JoypadPort => Some(J.P1(d.pressed, d.selectAction, d.selectDpad))
    case SerialPort => Some(S.ReadSerial(d.serial, addr))
    case TimerPort => Some(T.ReadTimer(d.timer, addr))
    case InterruptFlag => Some(Or8(d.flag, 0xE0))
    case AudioPort => None
    case DmaPort => Some(d.dma.base)
    case LcdPort => Some(R.RustRead(d.regs, addr))
    case CgbPort => Some(0x00)
    case Unmapped => Some(0xFF)
  }

  /** `write_io` on values: `None` is the timer's `unreachable!()`. Each
      port changes only its own device; FF46 starts a transfer; a write to
      the sound, CGB or unmapped registers changes nothing. */
  function IoWrite(d: DeviceState, addr: u16, value: u8): (r: Option<DeviceState>)
    requires DevicesOk(d)
    ensures r.None? <==> DecodeIo(addr) == TimerPort && T.WriteTimer(d.timer, addr, value).None?
    ensures r.Some? ==> DevicesOk(r.value)
    ensures r.Some? ==> r.value.(regs := d.regs, dma := d.dma, timer := d.timer, serial := d.serial,
                                 selectAction := d.selectAction, selectDpad := d.selectDpad, flag := d.flag) == d
    ensures r.Some? ==> r.value.dma == if DecodeIo(addr) == DmaPort then DmaStart(value) else d.dma
    ensures DecodeIo(addr) in {AudioPort, CgbPort, Unmapped} ==> r == Some(d)
  {
    match DecodeIo(addr)
    case JoypadPort => Some(d.(selectAction := value / 0x20 % 2 == 1, selectDpad := value / 0x10 % 2 == 1))
    case SerialPort => Some(d.(serial := S.WriteSerial(d.serial, addr, value)))
    case TimerPort =>
      var t := T.WriteTimer(d.timer, addr, value);
      if t.None? then None else Some(d.(timer := t.value))
    case InterruptFlag => Some(d.(flag := value))
    case DmaPort => Some(d.(dma := DmaStart(value)))
    case LcdPort => Some(d.(regs := P.LcdWrite(d.regs, addr, value)))
    case AudioPort => Some(d)
    case CgbPort => Some(d)
    case Unmapped => Some(d)
  }

  /** A write to one port leaves every register of the other ports reading
      as before; IF reads back what was written with bits 7-5 set, FF46 and
      the LCD registers other than STAT and LY read back what was written,
      and P1 echoes the written select bits. */
  lemma IoWriteThenRead(d: DeviceState, addr: u16, value: u8, other: u16)
    requires DevicesOk(d) && IoWrite(d, addr, value).Some?
    ensures DecodeIo(other) != DecodeIo(addr) ==> IoRead(IoWrite(d, addr, value).value, other) == IoRead(d, other)
    ensures DecodeIo(addr) == InterruptFlag ==> IoRead(IoWrite(d, addr, value).value, addr) == Some(Or8(value, 0xE0))
    ensures DecodeIo(addr) == DmaPort ==> IoRead(IoWrite(d, addr, value).value, addr) == Some(value)
    ensures DecodeIo(addr) == LcdPort && addr != 0xFF41 && addr != 0xFF44 ==>
      IoRead(IoWrite(d, addr, value).value, addr) == Some(value)
    ensures DecodeIo(addr) == JoypadPort ==>
      var v := IoRead(IoWrite(d, addr, value).value, addr).value;
      (v / 0x20 % 2 == 1) == (value / 0x20 % 2 == 1) && (v / 0x10 % 2 == 1) == (value / 0x10 % 2 == 1)
  {
    if DecodeIo(addr) == LcdPort && addr != 0xFF41 && addr != 0xFF44 {
      P.RegisterRoundTrip(d.regs, P.HorizontalBlank, addr, value);
    }
  }

  /** `raw_write`'s effect on the devices, with no transfer in the way:
      VRAM and OAM store the byte and the IO registers go through
      `write_io`; a write anywhere else leaves the devices as they were. */
  function DeviceWrite(d: DeviceState, addr: u16, value: u8): (r: Option<DeviceState>)
    requires DevicesOk(d)
    ensures r.None? <==> M.Decode(addr) == M.IoRegisters && IoWrite(d, addr, value).None?
    ensures r.Some? ==> DevicesOk(r.value)
    ensures r.Some? && addr != 0xFF46 ==> r.value.dma == d.dma
    ensures M.Decode(addr) == M.VideoRam ==> r == Some(d.(vram := d.vram[addr - 0x8000 := value]))
    ensures M.Decode(addr) == M.ObjectRam ==> r == Some(d.(oam := d.oam[addr - 0xFE00 := value]))
    ensures !(M.Decode(addr) in {M.VideoRam, M.ObjectRam, M.IoRegisters}) ==> r == Some(d)
  {
    match M.Decode(addr)
    case VideoRam => Some(d.(vram := d.vram[addr - 0x8000 := value]))
    case ObjectRam => Some(d.(oam := d.oam[addr - 0xFE00 := value]))
    case IoRegisters => IoWrite(d, addr, value)
    case _ => Some(d)
  }

  /** `unblocked_raw_read` on values: the address map without DMA blocking.
      `None` is a read the model cannot make: a sound register, or a ROM
      index past the image (a panic). */
  function UnblockedLoad(b: BusState, addr: u16): (v: Option<u8>)
    requires BusOk(b)
    ensures M.BusMemory(addr) ==> v == Some(M.Load(b.memory, M.Decode(addr)))
    ensures M.Decode(addr) == M.Unusable ==> v == Some(0xFF)
    ensures M.Decode(addr) == M.VideoRam ==> v == Some(b.devices.vram[addr - 0x8000])
    ensures M.Decode(addr) == M.ObjectRam ==> v == Some(b.devices.oam[addr - 0xFE00])
    ensures M.Decode(addr) == M.IoRegisters ==> v == IoRead(b.devices, addr)
    ensures C.CartAddress(addr) ==> v == C.CartRead(b.cart, addr)
  {
    match M.Decode(addr)
    case CartRom => C.CartRead(b.cart, addr)
    case VideoRam => Some(b.devices.vram[addr - 0x8000])
    case CartRam => C.CartRead(b.cart, addr)
    case ObjectRam => Some(b.devices.oam[addr - 0xFE00])
    case Unusable => Some(0xFF)
    case IoRegisters => IoRead(b.devices, addr)
    case _ => Some(M.Load(b.memory, M.Decode(addr)))
  }

  /** `raw_read` on values: 0xFF where a running transfer blocks the
      address, high RAM always. */
  function BusLoad(b: BusState, addr: u16): (v: Option<u8>)
    requires BusOk(b)
    ensures Blocks(b.devices.dma, addr) ==> v == Some(0xFF)
    ensures 0xFF80 <= addr <= 0xFFFE ==> v == Some(b.memory.hram[addr - 0xFF80])
    ensures !b.devices.dma.active ==> v == UnblockedLoad(b, addr)
  {
    if Blocks(b.devices.dma, addr) then Some(0xFF) else UnblockedLoad(b, addr)
  }

  /** `raw_write` on values: dropped while a transfer blocks `addr`;
      otherwise the cartridge, the bus's own memory and the devices each
      take their part of the write. `None` is the timer's panic. */
  function BusStore(b: BusState, addr: u16, value: u8): (r: Option<BusState>)
    requires BusOk(b)
    ensures r.None? <==> !Blocks(b.devices.dma, addr) && DeviceWrite(b.devices, addr, value).None?
    ensures r.Some? ==> BusOk(r.value)
    ensures Blocks(b.devices.dma, addr) ==> r == Some(b)
    ensures r.Some? && !Blocks(b.devices.dma, addr) ==>
      r.value.memory == M.Store(b.memory, M.Decode(addr), value) && r.value.cart == M.CartStore(b.cart, addr, value)
      && r.value.devices == DeviceWrite(b.devices, addr, value).value
  {
    if Blocks(b.devices.dma, addr) then Some(b)
    else
      var d := DeviceWrite(b.devices, addr, value);
      if d.None? then None
      else Some(BusState(M.CartStore(b.cart, addr, value), M.Store(b.memory, M.Decode(addr), value), d.value))
  }

  /** With no transfer in the way, a store to the bus's own memory, VRAM or
      OAM reads back; and a store to the bus's own memory, other than FF46,
      leaves every other cell of it reading as before. */
  lemma StoreThenLoad(b: BusState, addr: u16, value: u8, other: u16)
    requires BusOk(b) && !Blocks(b.devices.dma, addr) && BusStore(b, addr, value).Some?
    ensures M.BusMemory(addr) || M.Decode(addr) == M.VideoRam || M.Decode(addr) == M.ObjectRam ==>
      BusLoad(BusStore(b, addr, value).value, addr) == Some(value)
    ensures addr != 0xFF46 && M.BusMemory(other) && M.Decode(other) != M.Decode(addr) ==>
      BusLoad(BusStore(b, addr, value).value, other) == BusLoad(b, other)
  {
    var r := BusStore(b, addr, value).value;
    if M.BusMemory(addr) {
      M.LoadStore(b.memory, M.Decode(addr), value, M.Decode(addr));
    }
    if addr != 0xFF46 && M.BusMemory(other) && M.Decode(other) != M.Decode(addr) {
      M.LoadStore(b.memory, M.Decode(addr), value, M.Decode(other));
    }
  }

  /** `tick`'s DMA part on values: the transfer advances by `DmaStep`, and a
      byte it copies is read from the bus without blocking and lands in its
      OAM slot. `None` where that read is one the model cannot make. */
  function DmaCopyStep(b: BusState): (r: Option<BusState>)
    requires BusOk(b)
    ensures r.Some? ==> BusOk(r.value) && r.value.cart == b.cart && r.value.memory == b.memory
    ensures r.Some? ==> r.value.devices.(dma := b.devices.dma, oam := b.devices.oam) == b.devices
    ensures r.Some? ==> r.value.devices.dma == DmaStep(b.devices.dma).0
    ensures !b.devices.dma.active ==> r == Some(b)
    ensures var c := DmaStep(b.devices.dma).1;
      r.None? <==> c.Some? && UnblockedLoad(b, c.value.source).None?
    ensures var c := DmaStep(b.devices.dma).1;
      r.Some? ==> r.value.devices.oam == if c.None? then b.devices.oam
                                          else b.devices.oam[c.value.slot := UnblockedLoad(b, c.value.source).value]
  {
    var (dma, copy) := DmaStep(b.devices.dma);
    if copy.None? then Some(b.(devices := b.devices.(dma := dma)))
    else
      var v := UnblockedLoad(b, copy.value.source);
      if v.None? then None
      else Some(b.(devices := b.devices.(dma := dma, oam := b.devices.oam[copy.value.slot := v.value])))
  }

  /** The devices' part of `tick`: the PPU runs 4 dots, the timer and serial
      port 4 cycles, and their requests are ORed into IF. The PPU never
      requests an interrupt, so IF bits 0 and 1 and the frame signal stay
      as they were. `None` is the timer's panic. */
  function StepParts(d: DeviceState): (r: Option<DeviceState>)
    requires DevicesOk(d)
    ensures r.Some? <==> T.StepTimer(d.timer, 4).Some?
    ensures r.Some? ==> DevicesOk(r.value)
    ensures r.Some? ==> r.value.line == R.RunDots(d.line, 4) && r.value.regs == d.regs.(ly := r.value.line.ly)
    ensures r.Some? ==> r.value.timer == T.StepTimer(d.timer, 4).value.0 && r.value.serial == S.StepSerial(d.serial, 4).0
    ensures r.Some? ==> Bit(r.value.flag, 0) == Bit(d.flag, 0) && Bit(r.value.flag, 1) == Bit(d.flag, 1)
    ensures r.Some? ==> forall i :: 0 <= i < 8 && Bit(d.flag, i) ==> Bit(r.value.flag, i)
    ensures r.Some? ==> r.value.(line := d.line, regs := d.regs, timer := d.timer, serial := d.serial, flag := d.flag) == d
  {
    var t := T.StepTimer(d.timer, 4);
    if t.None? then None
    else
      var (sr, serialIrq) := S.StepSerial(d.serial, 4);
      var line := R.RunDots(d.line, 4);
      Some(d.(line := line, regs := d.regs.(ly := line.ly), timer := t.value.0, serial := sr,
              flag := RaiseFlags(d.flag, false, false, t.value.1, serialIrq)))
  }

  /** `tick` on values: the DMA step, then the devices. The cartridge and
      the bus's own memory are left alone, and so are VRAM and, with no
      transfer running, OAM and the transfer. */
  function TickState(b: BusState): (r: Option<BusState>)
    requires BusOk(b)
    ensures r.Some? ==> BusOk(r.value) && r.value.cart == b.cart && r.value.memory == b.memory
    ensures r.Some? ==> r.value.devices.vram == b.devices.vram && r.value.devices.frameReady == b.devices.frameReady
    ensures !b.devices.dma.active ==> (r.Some? <==> T.StepTimer(b.devices.timer, 4).Some?)
    ensures !b.devices.dma.active && r.Some? ==> r.value.devices.oam == b.devices.oam && r.value.devices.dma == b.devices.dma
  {
    var c := DmaCopyStep(b);
    if c.None? then None
    else
      var d := StepParts(c.value.devices);
      if d.None? then None else Some(c.value.(devices := d.value))
  }

  /** With no transfer running, a `tick` changes nothing a read outside the
      IO registers can see. */
  lemma TickKeepsLoads(b: BusState, addr: u16)
    requires BusOk(b) && !b.devices.dma.active && TickState(b).Some?
    ensures M.Decode(addr) != M.IoRegisters ==> BusLoad(TickState(b).value, addr) == BusLoad(b, addr)
  {
  }

  /** `write` on values: the raw write, then a tick. */
  function WriteTick(b: BusState, addr: u16, value: u8): (r: Option<BusState>)
    requires BusOk(b)
    ensures r.Some? ==> BusOk(r.value)
  {
    var w := BusStore(b, addr, value);
    if w.None? then None else TickState(w.value)
  }

  /** `write_u16` on values: two writes, in the order `le` picks. */
  function WordWriteTick(b: BusState, addr: u16, value: u16, le: bool): (r: Option<BusState>)
    requires BusOk(b)
    ensures r.Some? ==> BusOk(r.value)
  {
    var (a1, v1, a2, v2) := M.WordOrder(addr, value, le);
    var w := WriteTick(b, a1, v1);
    if w.None? then None else WriteTick(w.value, a2, v2)
  }

  /** With no transfer running and FF46 not among the two addresses, a
      word write stores both bytes: the bus's own memory and the cartridge
      end as `WordStore` and `CartWordStore` say, no transfer starts, and
      on the bus's own memory the two bytes read back as the word. */
  lemma WordWriteStores(b: BusState, addr: u16, value: u16, le: bool)
    requires BusOk(b) && !b.devices.dma.active && addr != 0xFF46 && WrapAdd16(addr, 1) != 0xFF46
    requires WordWriteTick(b, addr, value, le).Some?
    ensures var r := WordWriteTick(b, addr, value, le).value;
      r.memory == M.WordStore(b.memory, addr, value, le) && r.cart == M.CartWordStore(b.cart, addr, value, le)
      && !r.devices.dma.active
    ensures M.BusMemory(addr) && M.BusMemory(WrapAdd16(addr, 1)) ==>
      var r := WordWriteTick(b, addr, value, le).value;
      BusLoad(r, addr) == Some(Lo(value)) && BusLoad(r, WrapAdd16(addr, 1)) == Some(Hi(value))
  {
    var (a1, v1, a2, v2) := M.WordOrder(addr, value, le);
    var w1 := BusStore(b, a1, v1).value;
    var t1 := TickState(w1).value;
    var w2 := BusStore(t1, a2, v2).value;
    assert WordWriteTick(b, addr, value, le) == TickState(w2);
    if M.BusMemory(addr) && M.BusMemory(WrapAdd16(addr, 1)) {
      M.WordStoreReads(b.memory, addr, value, le);
    }
  }

  // ------------------------------------------------------------------- bus

  class Bus {
    const cartridge: C.Cartridge
    const ppu: R.RustPpu
    const wram: array<u8>
    const hram: array<u8>
    const timer: T.Timer
    const joypad: J.Joypad
    const serial: S.Serial
    var dmaActive: bool
    var dmaBase: u8
    var dmaByte: u8
    var dmaDelay: u8
    var interruptFlag: u8
    var interruptEnable: u8
    /** The frame signal `tick` sets on VBlank. */
    var frameReady: bool
    /** Machine cycles elapsed: one per `tick`. */
    ghost var cycles: nat

    function DmaState(): Dma
      reads this`dmaActive, this`dmaBase, this`dmaByte, this`dmaDelay
    {
      Dma(dmaActive, dmaBase, dmaByte, dmaDelay)
    }

    ghost predicate Valid()
      reads this`dmaActive, this`dmaBase, this`dmaByte, this`dmaDelay, cartridge, cartridge.mbc1, ppu
    {
      wram.Length == 0x2000 && hram.Length == 127 && wram != hram
      && cartridge.Valid() && ppu.Valid() && DmaOk(DmaState())
      && {wram, hram} !! {ppu.vram, ppu.oam}
      && (cartridge.mbc1 != null ==> cartridge.mbc1.ram !in {wram, hram, ppu.vram, ppu.oam})
    }

    /** The bus's own memory. */
    ghost function Memory(): (m: M.OwnedMemory)
      reads this`interruptEnable, wram, hram
      ensures wram.Length == 0x2000 && hram.Length == 127 ==> M.MemoryOk(m)
    {
      M.OwnedMemory(wram[..], hram[..], interruptEnable)
    }

    /** The devices as values. */
    ghost function Devices(): (d: DeviceState)
      reads this`dmaActive, this`dmaBase, this`dmaByte, this`dmaDelay, this`interruptFlag, this`frameReady, ppu, ppu.vram, ppu.oam, timer, serial, joypad
      ensures ppu.Valid() && DmaOk(DmaState()) ==> DevicesOk(d)
    {
      DeviceState(ppu.Regs(), ppu.Line(), ppu.vram[..], ppu.oam[..], DmaState(), timer.State(), serial.State(),
                  joypad.pressed, joypad.inverseSelectAction, joypad.inverseSelectDpad, interruptFlag, frameReady)
    }

    /** The whole bus as a value. */
    ghost function State(): (b: BusState)
      reads this`dmaActive, this`dmaBase, this`dmaByte, this`dmaDelay, this`interruptFlag, this`frameReady, this`interruptEnable
      reads cartridge, cartridge.mbc1, if cartridge.mbc1 != null then {cartridge.mbc1.ram} else {}
      reads ppu, ppu.vram, ppu.oam, wram, hram, timer, joypad, serial
      ensures Valid() ==> BusOk(b)
    {
      BusState(cartridge.State(), Memory(), Devices())
    }

    /** `Bus::new` over a loaded cartridge: fresh devices, zeroed RAM, IF
        and IE 0, no transfer running. */
    constructor (cart: C.Cartridge)
      requires cart.Valid()
      ensures Valid() && cartridge == cart
      ensures interruptFlag == 0 && interruptEnable == 0 && !frameReady
      ensures DmaState() == Dma(false, 0, 0, 0)
      ensures timer.State() == T.Initial && serial.State() == S.Initial && joypad.Read() == 0xFF
      ensures forall i :: 0 <= i < 0x2000 ==> wram[i] == 0
      ensures forall i :: 0 <= i < 127 ==> hram[i] == 0
      ensures fresh(ppu) && fresh(wram) && fresh(hram) && fresh(timer) && fresh(serial) && fresh(joypad)
    {
      cartridge := cart;
      var p, t, j, s := NewDevices();
      ppu, timer, joypad, serial := p, t, j, s;
      dmaActive, dmaBase, dmaByte, dmaDelay := false, 0, 0, 0;
      interruptFlag, interruptEnable, frameReady, cycles := 0, 0, false, 0;
      wram := new u8[0x2000](_ => 0);
      hram := new u8[127](_ => 0);
    }

    /** `read_io`. */
    function ReadIo(addr: u16): (v: Option<u8>)
      requires M.Decode(addr) == M.IoRegisters
      reads this, ppu, ppu.vram, ppu.oam, timer, joypad, serial
      ensures v == IoRead(Devices(), addr)
    {
      match DecodeIo(addr)
      case JoypadPort => Some(joypad.Read())
      case SerialPort => Some(serial.Read(addr))
      case TimerPort => Some(timer.Read(addr))
      case InterruptFlag => Some(Or8(interruptFlag, 0xE0))
      case AudioPort => None
      case DmaPort => Some(dmaBase)
      case LcdPort => Some(ppu.ReadRegister(addr))
      case CgbPort => Some(0x00)
      case Unmapped => Some(0xFF)
    }

    /** `unblocked_raw_read`: the address map without DMA blocking. */
    function UnblockedRead(addr: u16): (v: Option<u8>)
      requires Valid()
      reads this, cartridge, cartridge.mbc1, if cartridge.mbc1 != null then {cartridge.mbc1.ram} else {}
      reads ppu, ppu.vram, ppu.oam, wram, hram, timer, joypad, serial
      ensures v == UnblockedLoad(State(), addr)
    {
      match M.Decode(addr)
      case CartRom => cartridge.Read(addr)
      case VideoRam => Some(ppu.ReadVram(addr))
      case CartRam => cartridge.Read(addr)
      case WorkRam(i) => Some(wram[i])
      case ObjectRam => ppu.ReadOam(addr)
      case Unusable => Some(0xFF)
      case IoRegisters => ReadIo(addr)
      case HighRam(i) => Some(hram[i])
      case InterruptEnable => Some(interruptEnable)
    }

    /** Whether a running transfer hides `addr` from the CPU. */
    predicate Blocked(addr: u16)
      reads this
    {
      Blocks(DmaState(), addr)
    }

    /** `raw_read`. */
    function RawRead(addr: u16): (v: Option<u8>)
      requires Valid()
      reads this, cartridge, cartridge.mbc1, if cartridge.mbc1 != null then {cartridge.mbc1.ram} else {}
      reads ppu, ppu.vram, ppu.oam, wram, hram, timer, joypad, serial
      ensures v == BusLoad(State(), addr)
    {
      if Blocked(addr) then Some(0xFF) else UnblockedRead(addr)
    }

    /** `write_io`; writes to the sound, CGB and unmapped registers change
        nothing here. `false` is the timer's panic. */
    method WriteIo(addr: u16, value: u8) returns (ok: bool)
      requires Valid() && M.Decode(addr) == M.IoRegisters
      modifies this`interruptFlag, this`dmaActive, this`dmaBase, this`dmaByte, this`dmaDelay
      modifies ppu, timer, joypad, serial
      ensures Valid() && cycles == old(cycles)
      ensures ok <==> IoWrite(old(Devices()), addr, value).Some?
      ensures ok ==> Devices() == IoWrite(old(Devices()), addr, value).value
      ensures Memory() == old(Memory()) && cartridge.State() == old(cartridge.State())
    {
      ok := true;
      match DecodeIo(addr) {
        case JoypadPort => WriteJoypad(addr, value);
        case SerialPort => WriteSerialPort(addr, value);
        case TimerPort => ok := WriteTimerPort(addr, value);
        case InterruptFlag => WriteFlag(addr, value);
        case AudioPort =>
        case DmaPort => StartDma(addr, value);
        case LcdPort => WriteLcd(addr, value);
        case CgbPort =>
        case Unmapped =>
      }
    }

    /** `write_io`'s joypad arm: the select lines. */
    method WriteJoypad(addr: u16, value: u8)
      requires Valid() && DecodeIo(addr) == JoypadPort
      modifies joypad
      ensures Valid() && cycles == old(cycles) && Memory() == old(Memory())
      ensures Devices() == IoWrite(old(Devices()), addr, value).value
      ensures cartridge.State() == old(cartridge.State())
    {
      joypad.Write(value);
    }

    /** `write_io`'s serial arm. */
    method WriteSerialPort(addr: u16, value: u8)
      requires Valid() && DecodeIo(addr) == SerialPort
      modifies serial
      ensures Valid() && cycles == old(cycles) && Memory() == old(Memory())
      ensures Devices() == IoWrite(old(Devices()), addr, value).value
      ensures cartridge.State() == old(cartridge.State())
    {
      serial.Write(addr, value);
    }

    /** `write_io`'s timer arm; `false` is the timer's panic. */
    method WriteTimerPort(addr: u16, value: u8) returns (ok: bool)
      requires Valid() && DecodeIo(addr) == TimerPort
      modifies timer
      ensures Valid() && cycles == old(cycles) && Memory() == old(Memory())
      ensures ok <==> IoWrite(old(Devices()), addr, value).Some?
      ensures ok ==> Devices() == IoWrite(old(Devices()), addr, value).value
      ensures cartridge.State() == old(cartridge.State())
    {
      ok := timer.Write(addr, value);
    }

    /** `write_io`'s IF arm. */
    method WriteFlag(addr: u16, value: u8)
      requires Valid() && DecodeIo(addr) == InterruptFlag
      modifies this`interruptFlag
      ensures Valid() && cycles == old(cycles) && Memory() == old(Memory())
      ensures Devices() == IoWrite(old(Devices()), addr, value).value
      ensures cartridge.State() == old(cartridge.State())
    {
      interruptFlag := value;
    }

    /** `write_io`'s FF46 arm: a transfer of page `value` starts. */
    method StartDma(addr: u16, value: u8)
      requires Valid() && DecodeIo(addr) == DmaPort
      modifies this`dmaActive, this`dmaBase, this`dmaByte, this`dmaDelay
      ensures Valid() && cycles == old(cycles) && Memory() == old(Memory())
      ensures Devices() == IoWrite(old(Devices()), addr, value).value
      ensures cartridge.State() == old(cartridge.State())
    {
      dmaActive, dmaBase, dmaByte, dmaDelay := true, value, 0, 2;
    }

    /** `write_io`'s LCD arm: only the LCD registers change. */
    method WriteLcd(addr: u16, value: u8)
      requires Valid() && DecodeIo(addr) == LcdPort
      modifies ppu`lcdc, ppu`stat, ppu`scy, ppu`scx, ppu`lyc, ppu`bgp, ppu`obp0, ppu`obp1, ppu`wy, ppu`wx
      ensures Valid() && cycles == old(cycles) && Memory() == old(Memory())
      ensures Devices() == IoWrite(old(Devices()), addr, value).value
      ensures cartridge.State() == old(cartridge.State())
    {
      ghost var d := Devices();
      ppu.WriteRegister(addr, value);
      assert Devices() == d.(regs := P.LcdWrite(d.regs, addr, value));
    }

    /** `raw_write`'s work-RAM arms: an echo address is written through
        `addr - 0x2000`, recursively. */
    method WriteWorkRam(addr: u16, value: u8)
      requires Valid() && M.Decode(addr).WorkRam?
      modifies wram
      ensures wram[..] == old(wram[..])[M.Decode(addr).index := value]
      ensures Valid() && cycles == old(cycles)
      ensures Devices() == old(Devices()) && cartridge.State() == old(cartridge.State())
      decreases addr
    {
      if addr < 0xE000 {
        wram[addr - 0xC000] := value;
      } else {
        M.EchoMirrorsWorkRam(addr);
        WriteWorkRam(addr - 0x2000, value);
      }
    }

    /** `raw_write`'s arms for the bus's own memory and the unusable range. */
    method WriteInternal(addr: u16, value: u8)
      requires Valid()
      requires M.Decode(addr).WorkRam? || M.Decode(addr) == M.Unusable || M.Decode(addr).HighRam? || M.Decode(addr) == M.InterruptEnable
      modifies wram, hram, this`interruptEnable
      ensures Valid() && cycles == old(cycles)
      ensures Memory() == M.Store(old(Memory()), M.Decode(addr), value)
      ensures Devices() == old(Devices()) && cartridge.State() == old(cartridge.State())
    {
      match M.Decode(addr) {
        case WorkRam(_) => WriteWorkRam(addr, value);
        case HighRam(i) => hram[i] := value;
        case InterruptEnable => interruptEnable := value;
        case Unusable =>
      }
    }

    /** `raw_write`'s arms for the cartridge, VRAM, OAM and the IO registers. */
    method WriteDevice(addr: u16, value: u8) returns (ok: bool)
      requires Valid()
      requires M.Decode(addr) in {M.CartRom, M.VideoRam, M.CartRam, M.ObjectRam, M.IoRegisters}
      modifies this`interruptFlag, this`dmaActive, this`dmaBase, this`dmaByte, this`dmaDelay
      modifies ppu, ppu.vram, ppu.oam, timer, joypad, serial
      modifies cartridge, cartridge.mbc1, if cartridge.mbc1 != null then {cartridge.mbc1.ram} else {}
      ensures Valid() && cycles == old(cycles)
      ensures ok <==> DeviceWrite(old(Devices()), addr, value).Some?
      ensures ok ==> Devices() == DeviceWrite(old(Devices()), addr, value).value
      ensures cartridge.State() == M.CartStore(old(cartridge.State()), addr, value)
      ensures Memory() == old(Memory())
    {
      ok := true;
      match M.Decode(addr) {
        case CartRom | CartRam => WriteCart(addr, value);
        case VideoRam => WriteVideo(addr, value);
        case ObjectRam => WriteObject(addr, value);
        case IoRegisters => ok := WriteIo(addr, value);
      }
    }

    /** `raw_write`'s cartridge arms: the devices are left alone. */
    method WriteCart(addr: u16, value: u8)
      requires Valid() && M.Decode(addr) in {M.CartRom, M.CartRam}
      modifies cartridge, cartridge.mbc1, if cartridge.mbc1 != null then {cartridge.mbc1.ram} else {}
      ensures Valid() && cycles == old(cycles) && Memory() == old(Memory())
      ensures Devices() == DeviceWrite(old(Devices()), addr, value).value
      ensures cartridge.State() == M.CartStore(old(cartridge.State()), addr, value)
    {
      ghost var d := Devices();
      assert DeviceWrite(d, addr, value) == Some(d);
      cartridge.Write(addr, value);
      assert Devices() == d;
    }

    /** `raw_write`'s VRAM arm. */
    method WriteVideo(addr: u16, value: u8)
      requires Valid() && M.Decode(addr) == M.VideoRam
      modifies ppu.vram
      ensures Valid() && cycles == old(cycles) && Memory() == old(Memory())
      ensures Devices() == DeviceWrite(old(Devices()), addr, value).value
      ensures cartridge.State() == old(cartridge.State())
    {
      ppu.WriteVram(addr, value);
    }

    /** `raw_write`'s OAM arm; every address of the region is a slot. */
    method WriteObject(addr: u16, value: u8)
      requires Valid() && M.Decode(addr) == M.ObjectRam
      modifies ppu.oam
      ensures Valid() && cycles == old(cycles) && Memory() == old(Memory())
      ensures Devices() == DeviceWrite(old(Devices()), addr, value).value
      ensures cartridge.State() == old(cartridge.State())
    {
      var _ := ppu.WriteOam(addr, value);
    }

    /** `raw_write`: `BusStore`. While a transfer runs, a write outside high
        RAM is dropped. `false` is the timer's panic. */
    method RawWrite(addr: u16, value: u8) returns (ok: bool)
      requires Valid()
      modifies this`interruptFlag, this`interruptEnable, this`dmaActive, this`dmaBase, this`dmaByte, this`dmaDelay
      modifies ppu, ppu.vram, ppu.oam, wram, hram, timer, joypad, serial
      modifies cartridge, cartridge.mbc1, if cartridge.mbc1 != null then {cartridge.mbc1.ram} else {}
      ensures Valid() && cycles == old(cycles)
      ensures ok <==> BusStore(old(State()), addr, value).Some?
      ensures ok ==> State() == BusStore(old(State()), addr, value).value
    {
      ok := true;
      if Blocked(addr) {
        return;
      }
      var r := M.Decode(addr);
      if r.WorkRam? || r == M.Unusable || r.HighRam? || r == M.InterruptEnable {
        WriteInternal(addr, value);
      } else {
        ok := WriteDevice(addr, value);
      }
    }

    /** One DMA copy: byte `dmaByte` of page `dmaBase`, read without
        blocking, lands in OAM slot `dmaByte`; `false` where the model
        cannot make the read. */
    method CopyDmaByte() returns (ok: bool)
      requires Valid() && dmaActive && dmaDelay == 0
      modifies ppu.oam
      ensures Valid()
      ensures var b := old(UnblockedRead(dmaBase * 0x100 + dmaByte));
        (ok <==> b.Some?) && (ok ==> ppu.oam[..] == old(ppu.oam[..])[dmaByte := b.value])
    {
      var b := UnblockedRead(dmaBase * 0x100 + dmaByte);
      ok := b.Some?;
      if ok {
        var _ := ppu.WriteOam(0xFE00 + dmaByte, b.value);
      }
    }

    /** The DMA part of `tick`: `DmaCopyStep`. */
    method DmaTick() returns (ok: bool)
      requires Valid()
      modifies this`dmaActive, this`dmaByte, this`dmaDelay, ppu.oam
      ensures Valid() && cycles == old(cycles)
      ensures ok <==> DmaCopyStep(old(State())).Some?
      ensures ok ==> Devices() == DmaCopyStep(old(State())).value.devices
      ensures Memory() == old(Memory()) && cartridge.State() == old(cartridge.State())
    {
      ok := true;
      if !dmaActive {
        return;
      }
      if dmaDelay > 0 {
        dmaDelay := dmaDelay - 1;
        return;
      }
      ok := CopyStep();
    }

    /** A transfer step past the delay: one byte copied, the next byte
        chosen, and the transfer over after byte 159. */
    method CopyStep() returns (ok: bool)
      requires Valid() && dmaActive && dmaDelay == 0
      modifies this`dmaActive, this`dmaByte, ppu.oam
      ensures Valid() && cycles == old(cycles)
      ensures ok <==> DmaCopyStep(old(State())).Some?
      ensures ok ==> Devices() == DmaCopyStep(old(State())).value.devices
      ensures Memory() == old(Memory()) && cartridge.State() == old(cartridge.State())
    {
      ok := CopyDmaByte();
      dmaByte := WrapAdd8(dmaByte, 1);
      if dmaByte >= 160 {
        dmaActive := false;
      }
    }

    /** The devices' part of `tick`: `StepParts`, which ends the machine
        cycle. `false` is a panic of the timer (TAC selecting 2 or 3); the
        state after a panic is left unspecified. */
    method StepDevices() returns (ok: bool)
      requires Valid()
      modifies this`interruptFlag, this`frameReady, this`cycles, ppu`mode, ppu`dots, ppu`ly, ppu`lx, ppu`tileRow, timer, serial
      ensures Valid() && cycles == old(cycles) + 1
      ensures ok <==> StepParts(old(Devices())).Some?
      ensures ok ==> Devices() == StepParts(old(Devices())).value
      ensures Memory() == old(Memory()) && cartridge.State() == old(cartridge.State())
    {
      var vblank, stat := StepPpu();
      ok := StepTimers(vblank, stat);
      cycles := cycles + 1;
    }

    /** The PPU's 4 dots; it never reports an interrupt. */
    method StepPpu() returns (vblank: bool, stat: bool)
      requires Valid()
      modifies ppu`mode, ppu`dots, ppu`ly, ppu`lx, ppu`tileRow
      ensures Valid() && cycles == old(cycles) && !vblank && !stat
      ensures var line := R.RunDots(old(ppu.Line()), 4);
        Devices() == old(Devices()).(line := line, regs := old(ppu.Regs()).(ly := line.ly))
      ensures Memory() == old(Memory()) && cartridge.State() == old(cartridge.State())
    {
      vblank, stat := ppu.Step(4);
    }

    /** The timer's and serial port's 4 cycles; their requests and the
        PPU's are ORed into IF, and VBlank signals a frame. */
    method StepTimers(vblank: bool, stat: bool) returns (ok: bool)
      modifies this`interruptFlag, this`frameReady, timer, serial
      ensures ok <==> T.StepTimer(old(timer.State()), 4).Some?
      ensures serial.State() == S.StepSerial(old(serial.State()), 4).0
      ensures ok ==> var t := T.StepTimer(old(timer.State()), 4).value;
        timer.State() == t.0 && interruptFlag == RaiseFlags(old(interruptFlag), vblank, stat, t.1, S.StepSerial(old(serial.State()), 4).1)
      ensures frameReady == (old(frameReady) || vblank)
    {
      var timerIrq;
      ok, timerIrq := timer.Step(4);
      var serialIrq := serial.Step(4);
      interruptFlag := RaiseFlags(interruptFlag, vblank, stat, timerIrq, serialIrq);
      frameReady := frameReady || vblank;
    }

    /** `tick`: `TickState`, one DMA step and then the devices; `false` is a
        panic. */
    method Tick() returns (ok: bool)
      requires Valid()
      modifies this`interruptFlag, this`frameReady, this`dmaActive, this`dmaByte, this`dmaDelay, this`cycles
      modifies ppu, ppu.oam, timer, serial
      ensures Valid() && cycles == old(cycles) + 1
      ensures ok <==> TickState(old(State())).Some?
      ensures ok ==> State() == TickState(old(State())).value
    {
      var copied := DmaTick();
      var stepped := StepDevices();
      ok := copied && stepped;
    }

    /** `read`: the raw read, then one `tick`; `None` is a panic of either. */
    method Read(addr: u16) returns (v: Option<u8>)
      requires Valid()
      modifies this`interruptFlag, this`frameReady, this`dmaActive, this`dmaByte, this`dmaDelay, this`cycles
      modifies ppu, ppu.oam, timer, serial
      ensures Valid() && cycles == old(cycles) + 1
      ensures v.Some? <==> BusLoad(old(State()), addr).Some? && TickState(old(State())).Some?
      ensures v.Some? ==> v == BusLoad(old(State()), addr)
      ensures TickState(old(State())).Some? ==> State() == TickState(old(State())).value
    {
      v := RawRead(addr);
      var ok := Tick();
      v := if ok then v else None;
    }

    /** `write`: the raw write, then one `tick`; `false` is a panic of
        either. */
    method Write(addr: u16, value: u8) returns (ok: bool)
      requires Valid()
      modifies this`interruptFlag, this`interruptEnable, this`frameReady, this`cycles
      modifies this`dmaActive, this`dmaBase, this`dmaByte, this`dmaDelay
      modifies ppu, ppu.vram, ppu.oam, wram, hram, timer, joypad, serial
      modifies cartridge, cartridge.mbc1, if cartridge.mbc1 != null then {cartridge.mbc1.ram} else {}
      ensures Valid() && cycles == old(cycles) + 1
      ensures ok <==> WriteTick(old(State()), addr, value).Some?
      ensures ok ==> State() == WriteTick(old(State()), addr, value).value
    {
      ok := RawWrite(addr, value);
      var ticked := Tick();
      ok := ok && ticked;
    }

    /** `read_u16`: two reads, low byte first, the second at `addr + 1`
        wrapping and one `tick` later. With no transfer running, outside the
        IO registers, the high byte is also what `addr + 1` read before the
        first `tick`. */
    method ReadU16(addr: u16) returns (v: Option<u16>)
      requires Valid()
      modifies this`interruptFlag, this`frameReady, this`dmaActive, this`dmaByte, this`dmaDelay, this`cycles
      modifies ppu, ppu.oam, timer, serial
      ensures Valid() && cycles == old(cycles) + 2
      ensures var b, next := old(State()), WrapAdd16(addr, 1);
        var t := TickState(b);
        v.Some? <==> BusLoad(b, addr).Some? && t.Some? && BusLoad(t.value, next).Some? && TickState(t.value).Some?
      ensures var b, next := old(State()), WrapAdd16(addr, 1);
        v.Some? ==>
          State() == TickState(TickState(b).value).value
          && BusLoad(b, addr) == Some(Lo(v.value)) && BusLoad(TickState(b).value, next) == Some(Hi(v.value))
      ensures v.Some? && !old(dmaActive) && M.Decode(WrapAdd16(addr, 1)) != M.IoRegisters ==>
        old(RawRead(WrapAdd16(addr, 1))) == Some(Hi(v.value))
    {
      ghost var b := State();
      var next := WrapAdd16(addr, 1);
      var lo := Read(addr);
      if !b.devices.dma.active && lo.Some? {
        TickKeepsLoads(b, next);
      }
      var hi := Read(next);
      v := if lo.Some? && hi.Some? then Some(Word(hi.value, lo.value)) else None;
    }

    /** `write_u16`: with `le` the low byte goes to `addr` first, otherwise
        the high byte goes to `addr + 1` first. With no transfer running and
        FF46 not among the two addresses, both stores land as
        `WordWriteStores` says, and on the bus's own memory the two bytes
        read back as the word. */
    method WriteU16(addr: u16, value: u16, le: bool) returns (ok: bool)
      requires Valid()
      modifies this`interruptFlag, this`interruptEnable, this`frameReady, this`cycles
      modifies this`dmaActive, this`dmaBase, this`dmaByte, this`dmaDelay
      modifies ppu, ppu.vram, ppu.oam, wram, hram, timer, joypad, serial
      modifies cartridge, cartridge.mbc1, if cartridge.mbc1 != null then {cartridge.mbc1.ram} else {}
      ensures Valid() && cycles == old(cycles) + 2
      ensures ok <==> WordWriteTick(old(State()), addr, value, le).Some?
      ensures ok ==> State() == WordWriteTick(old(State()), addr, value, le).value
      ensures ok && !old(dmaActive) && addr != 0xFF46 && WrapAdd16(addr, 1) != 0xFF46 ==>
        Memory() == M.WordStore(old(Memory()), addr, value, le)
      ensures ok && !old(dmaActive) && M.BusMemory(addr) && M.BusMemory(WrapAdd16(addr, 1)) ==>
        RawRead(addr) == Some(Lo(value)) && RawRead(WrapAdd16(addr, 1)) == Some(Hi(value))
    {
      ghost var b := State();
      var next := WrapAdd16(addr, 1);
      if le {
        ok := WriteTwice(addr, Lo(value), next, Hi(value));
      } else {
        ok := WriteTwice(next, Hi(value), addr, Lo(value));
      }
      if ok && !b.devices.dma.active && addr != 0xFF46 && next != 0xFF46 {
        WordWriteStores(b, addr, value, le);
      }
    }

    /** Two `write`s, `a1` first; `false` is a panic of either. */
    method WriteTwice(a1: u16, v1: u8, a2: u16, v2: u8) returns (ok: bool)
      requires Valid()
      modifies this`interruptFlag, this`interruptEnable, this`frameReady, this`cycles
      modifies this`dmaActive, this`dmaBase, this`dmaByte, this`dmaDelay
      modifies ppu, ppu.vram, ppu.oam, wram, hram, timer, joypad, serial
      modifies cartridge, cartridge.mbc1, if cartridge.mbc1 != null then {cartridge.mbc1.ram} else {}
      ensures Valid() && cycles == old(cycles) + 2
      ensures var w := WriteTick(old(State()), a1, v1);
        ok <==> w.Some? && WriteTick(w.value, a2, v2).Some?
      ensures ok ==> State() == WriteTick(WriteTick(old(State()), a1, v1).value, a2, v2).value
    {
      var first := Write(a1, v1);
      var second := Write(a2, v2);
      ok := first && second;
    }
  }

  /** The devices `Bus::new` builds, in their power-on states. */
  method NewDevices() returns (p: R.RustPpu, t: T.Timer, j: J.Joypad, s: S.Serial)
    ensures fresh(p) && fresh(p.vram) && fresh(p.oam) && fresh(t) && fresh(j) && fresh(s)
    ensures p.Valid()
    ensures t.State() == T.Initial && s.State() == S.Initial && j.Read() == 0xFF
  {
    p := new R.RustPpu();
    t := new T.Timer();
    j := new J.Joypad();
    s := new S.Serial();
  }

  /** `Bus::new(rom_data, ...)`: `None` where `Cartridge::new` panics. */
  method New(rom: seq<u8>) returns (b: Option<Bus>)
    ensures b.Some? <==> C.Loads(rom)
    ensures b.Some? ==> fresh(b.value) && b.value.Valid() && !b.value.dmaActive && b.value.interruptFlag == 0
  {
    var cart := C.New(rom);
    if cart.None? {
      return None;
    }
    var bus := new Bus(cart.value);
    b := Some(bus);
  }
}

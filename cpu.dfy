/** The SM83 CPU of the src/ tree (src/cpu/mod.rs and src/cpu/executor.rs):
    the interrupt master enable with its EI delay, HALT and the halt bug,
    interrupt dispatch, the opcode and CB dispatch, and every `run_*`
    executor, over the bus view of the BusView module. Values computed by the
    ALU come from the Alu module; the opcode table is the Decoder module's. */
module Cpu {
  import opened Bits
  import opened Registers
  import opened Instructions
  import opened Alu
  import opened Decoder
  import opened BusView

  // ------------------------------------------------------- the register file

  /** The register file as a value: A, the unpacked F, and B, C, D, E, H, L. */
  datatype RegFile = RegFile(a: u8, f: Flags, b: u8, c: u8, d: u8, e: u8, h: u8, l: u8)

  function Bc(r: RegFile): u16 { Word(r.b, r.c) }
  function De(r: RegFile): u16 { Word(r.d, r.e) }
  function Hl(r: RegFile): u16 { Word(r.h, r.l) }

  /** `set_hl`: H takes the high byte and L the low one. */
  function WithHl(r: RegFile, v: u16): (r': RegFile)
    ensures Hl(r') == v
  {
    WordOfHalves(v);
    r.(h := Hi(v), l := Lo(v))
  }

  // ---------------------------------------------------------- byte operands

  /** The sources `resolve_byte_source` reads through the bus. */
  predicate Indirect(s: ByteSource)
  {
    s.IndBC? || s.IndDE? || s.IndHL? || s.IndHLI? || s.IndHLD? || s.FF00PlusC? || s.Address?
  }

  /** The bus cycles an operand access costs: one for an indirect operand. */
  function Accesses(s: ByteSource): nat
  {
    if Indirect(s) then 1 else 0
  }

  /** The address an indirect operand uses: BC, DE, HL (also for (HL+) and
      (HL-), which use HL before stepping it), 0xFF00 + C, or the address
      the instruction carries. */
  function SourceAddress(r: RegFile, s: ByteSource): (addr: u16)
    requires Indirect(s)
  {
    match s
    case IndBC => Bc(r)
    case IndDE => De(r)
    case FF00PlusC => Word(0xFF, r.c)
    case Address(w) => w
    case _ => Hl(r)
  }

  /** `resolve_byte_source`'s value. */
  function SourceValue(r: RegFile, m: seq<u8>, s: ByteSource): u8
    requires |m| == 0x1_0000
  {
    match s
    case A => r.a
    case B => r.b
    case C => r.c
    case D => r.d
    case E => r.e
    case H => r.h
    case L => r.l
    case Immediate(x) => x
    case _ => m[SourceAddress(r, s)]
  }

  /** The registers after an access through `s`: (HL+) steps HL up and (HL-)
      down, wrapping; every other operand leaves the registers alone. */
  function AfterAccess(r: RegFile, s: ByteSource): RegFile
  {
    match s
    case IndHLI => WithHl(r, WrapAdd16(Hl(r), 1))
    case IndHLD => WithHl(r, WrapAdd16(Hl(r), 0xFFFF))
    case _ => r
  }

  /** The registers after `write_byte_dest(d, v)`. */
  function DestFile(r: RegFile, d: ByteDest, v: u8): RegFile
  {
    match d
    case A => r.(a := v)
    case B => r.(b := v)
    case C => r.(c := v)
    case D => r.(d := v)
    case E => r.(e := v)
    case H => r.(h := v)
    case L => r.(l := v)
    case _ => AfterAccess(r, SourceOfDest(d))
  }

  /** The memory after `write_byte_dest(d, v)`. */
  function DestMemory(r: RegFile, m: seq<u8>, d: ByteDest, v: u8): (m': seq<u8>)
    requires |m| == 0x1_0000
    ensures |m'| == 0x1_0000
  {
    var s := SourceOfDest(d);
    if Indirect(s) then m[SourceAddress(r, s) := v] else m
  }

  /** Of the eight operand locations only (HL) touches the bus. */
  lemma RegisterOperand(r: RegFile, m: seq<u8>, loc: ByteLocation)
    requires |m| == 0x1_0000
    ensures Accesses(LocationSource(loc)) == if loc == ByteLocation.IndHL then 1 else 0
    ensures loc != ByteLocation.IndHL ==> forall v :: DestMemory(r, m, LocationDest(loc), v) == m
  {
  }

  /** (HL+) and (HL-) access the byte at HL and then move HL by one, wrapping,
      touching no other register. */
  lemma IndexedAccess(r: RegFile, m: seq<u8>)
    requires |m| == 0x1_0000
    ensures SourceValue(r, m, ByteSource.IndHLI) == m[Hl(r)] && SourceValue(r, m, ByteSource.IndHLD) == m[Hl(r)]
    ensures Hl(AfterAccess(r, ByteSource.IndHLI)) == WrapAdd16(Hl(r), 1)
    ensures Hl(AfterAccess(r, ByteSource.IndHLD)) == WrapAdd16(Hl(r), 0xFFFF)
    ensures AfterAccess(r, ByteSource.IndHLI).(h := r.h, l := r.l) == r
    ensures AfterAccess(r, ByteSource.IndHLD).(h := r.h, l := r.l) == r
  {
  }

  /** One (HL+) step and one (HL-) step, in either order, give back the
      registers they started from. */
  lemma IndexedStepsCancel(r: RegFile)
    ensures AfterAccess(AfterAccess(r, ByteSource.IndHLI), ByteSource.IndHLD) == r
    ensures AfterAccess(AfterAccess(r, ByteSource.IndHLD), ByteSource.IndHLI) == r
  {
    var x := Hl(r);
    WrapStepsCancel(x);
    assert Hi(x) == r.h && Lo(x) == r.l;
  }

  /** A byte written to a destination is what the same-named source reads
      next, unless the destination stepped HL away; (HL+) and (HL-) leave it
      at the old HL. Nothing else in memory changes. */
  lemma WriteThenRead(r: RegFile, m: seq<u8>, d: ByteDest, v: u8)
    requires |m| == 0x1_0000
    ensures !d.IndHLI? && !d.IndHLD? ==>
      SourceValue(DestFile(r, d, v), DestMemory(r, m, d, v), SourceOfDest(d)) == v
    ensures d.IndHLI? || d.IndHLD? ==> DestMemory(r, m, d, v)[Hl(r)] == v
    ensures Indirect(SourceOfDest(d)) ==>
      forall i :: 0 <= i < 0x1_0000 && i != SourceAddress(r, SourceOfDest(d)) ==> DestMemory(r, m, d, v)[i] == m[i]
    ensures !Indirect(SourceOfDest(d)) ==> DestMemory(r, m, d, v) == m
  {
  }

  // ---------------------------------------------------------- word operands

  /** `resolve_word_source`: AF packs F into the low byte. */
  function WordValue(r: RegFile, sp: u16, s: WordSource): u16
  {
    match s
    case AF => PackAf(r.a, r.f)
    case BC => Bc(r)
    case DE => De(r)
    case HL => Hl(r)
    case SP => sp
    case Immediate(w) => w
  }

  /** The registers after `write_word_dest` to a register pair: the high byte
      goes to the first-named register. AF is written with `value & 0xFFF0`,
      which leaves A and the flag bits 7-4 as they are in `value` (`AfMask`). SP and memory destinations leave the
      register file alone. */
  function WordDestFile(r: RegFile, d: WordDest, w: u16): RegFile
  {
    match d
    case AF => r.(a := Hi(w), f := ByteToFlags(Lo(w) - Lo(w) % 0x10))
    case BC => r.(b := Hi(w), c := Lo(w))
    case DE => r.(d := Hi(w), e := Lo(w))
    case HL => r.(h := Hi(w), l := Lo(w))
    case _ => r
  }

  /** The word source with the same name as a register-pair destination. */
  function PairSource(d: WordDest): WordSource
    requires !d.Address?
  {
    match d
    case AF => WordSource.AF
    case BC => WordSource.BC
    case DE => WordSource.DE
    case HL => WordSource.HL
    case SP => WordSource.SP
  }

  /** Masking with 0xFFF0 keeps the high byte and the low byte's bits 7-4. */
  lemma AfMask(w: u16, x: u16)
    requires x == w - w % 0x10
    ensures Hi(x) == Hi(w) && Lo(x) - Lo(x) % 0x10 == Lo(w) - Lo(w) % 0x10
  {
    WordParts(w);
    assert Hi(x) == Hi(w) && Lo(x) == Lo(w) - Lo(w) % 0x10 by {
      DivUnique(x, 0x100, Hi(w), Lo(w) - Lo(w) % 0x10);
    }
    DivUnique(Lo(x), 0x10, Lo(w) / 0x10, 0);
  }

  /** Writing AF from the masked word or from the word itself gives the same
      register file: F keeps only the high nibble either way. */
  lemma AfMaskFile(r: RegFile, w: u16, x: u16)
    requires x == w - w % 0x10
    ensures WordDestFile(r, WordDest.AF, x) == WordDestFile(r, WordDest.AF, w)
  {
    AfMask(w, x);
    var fx: u8, fw: u8 := Lo(x) - Lo(x) % 0x10, Lo(w) - Lo(w) % 0x10;
    assert ByteToFlags(fx) == ByteToFlags(fw);
  }

  /** A pair written reads back the word, except AF, whose low nibble reads
      back as 0 (`get_af` after `set_af(v)` is `v & 0xFFF0`). */
  lemma WordWriteThenRead(r: RegFile, sp: u16, d: WordDest, w: u16)
    requires !d.Address? && !d.SP?
    ensures d.AF? ==> WordValue(WordDestFile(r, d, w), sp, PairSource(d)) == w - w % 0x10
    ensures !d.AF? ==> WordValue(WordDestFile(r, d, w), sp, PairSource(d)) == w
  {
    WordOfHalves(w);
    if d.AF? {
      AfRoundTrip(w);
    }
  }

  /** Writing a pair's own value back to it changes no register: this is what
      makes POP rr undo PUSH rr, for AF too, whose packed low nibble is 0. */
  lemma WordWriteOwnValue(r: RegFile, sp: u16, d: WordDest)
    requires !d.Address? && !d.SP?
    ensures WordDestFile(r, d, WordValue(r, sp, PairSource(d))) == r
  {
    var w := WordValue(r, sp, PairSource(d));
    WordParts(w);
    if d.AF? {
      assert w % 0x10 == 0;
      assert Lo(w) == FlagsToByte(r.f) && Hi(w) == r.a;
      assert Lo(w) % 0x10 == 0;
      UnpackPack(r.f);
    }
  }

  // ------------------------------------------------------------------ stack

  /** `wrapping_sub(2)` on the stack pointer. */
  function Below(sp: u16): u16 { WrapAdd16(sp, 0xFFFE) }

  /** The places `step` stores a word through `write_u16`: CALL, RST and
      PUSH push onto the stack, `LD (nn),SP` stores SP at an absolute
      address, and interrupt dispatch pushes PC. */
  datatype WordWriteSite = CallSite | RestartSite | PushSite | StoreSpSite | DispatchSite

  predicate StackPush(site: WordWriteSite)
  {
    !site.StoreSpSite?
  }

  /** The `le` argument each site passes as written: dispatch passes
      `false`; the executor's three sites and `write_word_dest` call
      `write_u16` with an address and a value only, against its three
      parameters, so they name no order (and the crate does not compile). */
  function WrittenOrder(site: WordWriteSite): (le: Option<bool>)
    ensures le.None? <==> !site.DispatchSite?
    ensures le.Some? ==> le == Some(false)
  {
    if site.DispatchSite? then Some(false) else None
  }

  /** The order each site evidently means, as the definition's own comments
      assign them: low byte first for `LD (nn),SP`, high byte first for
      every stack push. */
  function IntendedOrder(site: WordWriteSite): (le: bool)
    ensures le <==> !StackPush(site)
  {
    site.StoreSpSite?
  }

  /** The intended orders agree with the one order the source gives. */
  lemma IntendedOrderExtendsWritten(site: WordWriteSite)
    ensures WrittenOrder(site).Some? ==> WrittenOrder(site) == Some(IntendedOrder(site))
  {
  }

  /** A word pushed (SP -= 2, then `write_u16(sp, ..)`) is popped back
      (`read_u16(sp)`, then SP += 2) with SP restored; CALL/RET and RST/RET
      use the same two halves for the return address. */
  lemma StackRoundTrip(m: seq<u8>, sp: u16, w: u16)
    requires |m| == 0x1_0000
    ensures LoadWord(StoreWord(m, Below(sp), w), Below(sp)) == w
    ensures WrapAdd16(Below(sp), 2) == sp
  {
    LoadStoreWord(m, Below(sp), w);
    if sp >= 2 {
      assert Below(sp) == sp - 2;
    } else {
      assert Below(sp) == sp + 0xFFFE;
    }
  }

  /** PUSH rr then POP rr, as the two executors below specify them, restore
      every register, SP, and leave the word in the two bytes below the old SP. */
  lemma PushPopRestores(r: RegFile, sp: u16, m: seq<u8>, k: u8)
    requires |m| == 0x1_0000 && k < 4
    ensures var w := WordValue(r, sp, StackPair(k));
      var m' := StoreWord(m, Below(sp), w);
      WordDestFile(r, StackPairDest(k), LoadWord(m', Below(sp))) == r
      && WrapAdd16(Below(sp), 2) == sp
      && m'[Below(sp)] == Lo(w) && m'[WrapAdd16(Below(sp), 1)] == Hi(w)
  {
    var w := WordValue(r, sp, StackPair(k));
    StackRoundTrip(m, sp, w);
    assert PairSource(StackPairDest(k)) == StackPair(k);
    WordWriteOwnValue(r, sp, StackPairDest(k));
  }

  // ----------------------------------------------------- EI and interrupts

  /** The start of `step`: a running EI countdown is decremented, and IME is
      set when it reaches 0. */
  function EiTick(ime: bool, countdown: u8): (r: (bool, u8))
    ensures r.1 == if countdown == 0 then 0 else countdown - 1
    ensures r.0 <==> ime || countdown == 1
  {
    if countdown == 0 then (ime, 0)
    else if countdown == 1 then (true, 0)
    else (ime, countdown - 1)
  }

  /** `n` steps' worth of `EiTick`. */
  function EiRun(ime: bool, countdown: u8, n: nat): (bool, u8)
    decreases n
  {
    if n == 0 then (ime, countdown) else EiRun(EiTick(ime, countdown).0, EiTick(ime, countdown).1, n - 1)
  }

  /** After EI (countdown 2), the step that runs the next instruction still
      sees the old IME; from the second step on IME is set and stays set
      (absent DI or an interrupt). */
  lemma {:induction false} EiTiming(ime: bool, n: nat)
    ensures EiRun(ime, 2, n) == if n == 0 then (ime, 2) else if n == 1 then (ime, 1) else (true, 0)
  {
    if n >= 2 {
      assert EiRun(ime, 2, n) == EiRun(ime, 1, n - 1) == EiRun(true, 0, n - 2);
      EiSettled(true, n - 2);
    }
  }

  /** With no countdown running, IME is left as it is: after DI (IME off,
      countdown 0) it stays off. */
  lemma {:induction false} EiSettled(ime: bool, n: nat)
    ensures EiRun(ime, 0, n) == (ime, 0)
  {
    if n > 0 {
      EiSettled(ime, n - 1);
    }
  }

  /** The first bit from `from` on that `handle_interrupt`'s loop finds set in
      `p`, or 5 when none of bits from..4 is set. */
  function LowestSet(p: u8, from: nat): (i: nat)
    requires from <= 5
    ensures from <= i <= 5
    ensures i < 5 ==> Bit(p, i)
    ensures forall j :: from <= j < i ==> !Bit(p, j)
    decreases 5 - from
  {
    if from == 5 then 5 else if Bit(p, from) then from else LowestSet(p, from + 1)
  }

  /** `1 << bit` as a byte. */
  function BitMask(bit: nat): (m: u8)
    requires bit < 8
    ensures m == Pow2(bit)
  {
    PowByte(bit);
    Pow2(bit)
  }

  /** `pending & (1 << bit) != 0` tests bit `bit`. */
  lemma MaskTest(p: u8, bit: nat)
    requires bit < 8
    ensures And8(p, BitMask(bit)) != 0 <==> Bit(p, bit)
  {
    PowBit(bit, bit);
    if !Bit(p, bit) {
      forall i | 0 <= i < 8 ensures Bit(And8(p, BitMask(bit)), i) == Bit(0, i) {
        PowBit(bit, i);
        ZeroHasNoBits(i);
      }
      assert Pow2(8) == 0x100;
      BitsDetermine(And8(p, BitMask(bit)), 0, 8);
    } else {
      ZeroHasNoBits(bit);
    }
  }

  /** A nonzero pending mask has a lowest set bit among the five sources,
      and that source is both enabled and requested. */
  lemma PendingHasLowest(ie: u8, iflag: u8)
    requires PendingMask(ie, iflag) != 0
    ensures LowestSet(PendingMask(ie, iflag), 0) < 5
    ensures var i := LowestSet(PendingMask(ie, iflag), 0); Bit(ie, i) && Bit(iflag, i)
  {
    var p := PendingMask(ie, iflag);
    if LowestSet(p, 0) == 5 {
      assert Pow2(5) == 0x20;
      forall i | 0 <= i < 5 ensures Bit(p, i) == Bit(0, i) {
        ZeroHasNoBits(i);
      }
      BitsDetermine(p, 0, 5);
      assert false;
    }
  }

  /** The interrupt vector of source `bit`: `0x40 + 0x08 * bit`. */
  function Vector(bit: nat): (v: u16)
    requires bit < 5
    ensures 0x40 <= v <= 0x60 && v % 8 == 0
  {
    0x40 + 8 * bit
  }

  /** The arms `ExecuteData` handles: loads, the stack and 16-bit arithmetic. */
  predicate DataInstr(i: Instr)
  {
    i.Load? || i.LoadImmediate? || i.StoreHigh? || i.LoadHigh? || i.StoreAbsolute? || i.LoadAbsolute?
    || i.LoadWordImmediate? || i.LoadSpHl? || i.StoreSp? || i.LoadHlSpOffset? || i.Push? || i.Pop?
    || i.IncWord? || i.DecWord? || i.AddHlWord? || i.AddSpOffset?
  }

  /** The arms `ExecuteBranch` handles: jumps, calls, returns and restarts. */
  predicate BranchInstr(i: Instr)
  {
    i.JumpRelative? || i.Jump? || i.JumpHl? || i.Call? || i.Return? || i.ReturnEnable? || i.Restart?
  }

  // -------------------------------------------------------------- the CPU

  /** Everything a step can change in the CPU. */
  datatype CpuState = CpuState(regs: RegFile, pc: u16, sp: u16, ime: bool, imeCountdown: u8,
                               halted: bool, haltBugActive: bool)

  /** `Cpu::new`: the boot ROM skipped, execution starts at 0x0100 with SP at
      0xFFFE, the zeroed register file of `Registers::new`, IME off, neither
      halted nor in the halt bug. */
  const PowerOn := CpuState(RegFile(0, Flags(false, false, false, false), 0, 0, 0, 0, 0, 0),
                            0x0100, 0xFFFE, false, 0, false, false)

  /** `handle_interrupt` on values: IME cleared, PC pushed below SP (high
      byte first), then the lowest pending source among bits 0-4 has its IF
      bit cleared and PC jumps to its vector. */
  function Dispatch(s: CpuState, m: seq<u8>, pending: u8): (r: (CpuState, seq<u8>))
    requires |m| == 0x1_0000
    ensures |r.1| == 0x1_0000
    ensures r.0 == s.(ime := false, sp := Below(s.sp), pc := r.0.pc)
    ensures var bit := LowestSet(pending, 0);
      bit < 5 ==> r.0.pc == Vector(bit) && !Bit(r.1[0xFF0F], bit)
    ensures LowestSet(pending, 0) == 5 ==> r.0.pc == s.pc && r.1 == StoreWord(m, Below(s.sp), s.pc)
  {
    var sp := Below(s.sp);
    var pushed := StoreWord(m, sp, s.pc);
    var bit := LowestSet(pending, 0);
    if bit < 5 then (s.(ime := false, sp := sp, pc := Vector(bit)), pushed[0xFF0F := ResBit(pushed[0xFF0F], bit)])
    else (s.(ime := false, sp := sp), pushed)
  }

  /** The interrupted PC is on the stack: it pops back from the new SP
      unless the push overlapped IF at FF0F, whose bit was then cleared.
      The other IF bits and the rest of memory outside the pushed word are
      as they were. */
  lemma DispatchPushes(s: CpuState, m: seq<u8>, pending: u8)
    requires |m| == 0x1_0000
    ensures var (t, m') := Dispatch(s, m, pending);
      t.sp != 0xFF0F && WrapAdd16(t.sp, 1) != 0xFF0F ==> LoadWord(m', t.sp) == s.pc
    ensures var (t, m') := Dispatch(s, m, pending);
      forall i :: 0 <= i < 0x1_0000 && i != t.sp && i != WrapAdd16(t.sp, 1) && i != 0xFF0F ==> m'[i] == m[i]
    ensures var (t, m') := Dispatch(s, m, pending);
      t.sp != 0xFF0F && WrapAdd16(t.sp, 1) != 0xFF0F ==>
        forall i :: 0 <= i < 8 && i != LowestSet(pending, 0) ==> Bit(m'[0xFF0F], i) == Bit(m[0xFF0F], i)
  {
    LoadStoreWord(m, Below(s.sp), s.pc);
  }

  /** The part of `step` before the opcode fetch, on values: the EI
      countdown runs; a running CPU dispatches a pending interrupt only with
      IME set; a halted CPU spends a cycle, then with nothing pending stays
      halted and fetches nothing, otherwise leaves HALT and dispatches only
      with IME set. The result is the state, the memory, the cycles spent
      and whether an opcode is fetched next. */
  function BeforeFetch(s: CpuState, m: seq<u8>): (r: (CpuState, seq<u8>, nat, bool))
    requires |m| == 0x1_0000
    ensures |r.1| == 0x1_0000
  {
    var (ime, countdown) := EiTick(s.ime, s.imeCountdown);
    var t := s.(ime := ime, imeCountdown := countdown);
    var pending := PendingMask(m[0xFFFF], m[0xFF0F]);
    if !s.halted then
      if pending != 0 && ime then (Dispatch(t, m, pending).0, Dispatch(t, m, pending).1, 5, true)
      else (t, m, 0, true)
    else if pending == 0 then (t, m, 1, false)
    else if ime then (Dispatch(t.(halted := false), m, pending).0, Dispatch(t.(halted := false), m, pending).1, 6, true)
    else (t.(halted := false), m, 1, true)
  }

  /** A pending interrupt, with IME set once the EI countdown has run,
      is dispatched whether or not the CPU was halted: IME off, SP two
      lower, PC at the lowest pending source's vector with that IF bit
      cleared, five cycles (six from HALT), not halted, and the opcode at the
      vector is fetched next. */
  lemma DispatchWhenEnabled(s: CpuState, m: seq<u8>)
    requires |m| == 0x1_0000
    requires PendingMask(m[0xFFFF], m[0xFF0F]) != 0 && EiTick(s.ime, s.imeCountdown).0
    ensures var (t, m', c, fetch) := BeforeFetch(s, m);
      var bit := LowestSet(PendingMask(m[0xFFFF], m[0xFF0F]), 0);
      fetch && bit < 5 && !t.ime && !t.halted && t.sp == Below(s.sp) && t.pc == Vector(bit)
      && !Bit(m'[0xFF0F], bit) && t.regs == s.regs && c == if s.halted then 6 else 5
  {
    PendingHasLowest(m[0xFFFF], m[0xFF0F]);
  }

  /** With IME off after the countdown, a pending interrupt only wakes a
      halted CPU: HALT is left, nothing is pushed and the next opcode is
      fetched at PC. A running CPU just goes on. */
  lemma NoDispatchWhenDisabled(s: CpuState, m: seq<u8>)
    requires |m| == 0x1_0000
    requires !EiTick(s.ime, s.imeCountdown).0
    ensures var (t, m', c, fetch) := BeforeFetch(s, m);
      var (ime, countdown) := EiTick(s.ime, s.imeCountdown);
      m' == m && t.pc == s.pc && t.sp == s.sp && !t.ime && t.imeCountdown == countdown
      && (PendingMask(m[0xFFFF], m[0xFF0F]) != 0 || !s.halted ==> fetch && !t.halted)
      && (PendingMask(m[0xFFFF], m[0xFF0F]) == 0 && s.halted ==> !fetch && t.halted && c == 1)
  {
  }

  /** EI's delay within a step: right after EI (countdown 2) with IME off, a
      pending interrupt is not dispatched before the next instruction; one
      step later (countdown 1) it is. */
  lemma EiDelaysDispatch(s: CpuState, m: seq<u8>)
    requires |m| == 0x1_0000 && !s.halted && PendingMask(m[0xFFFF], m[0xFF0F]) != 0
    ensures s.imeCountdown == 2 && !s.ime ==> BeforeFetch(s, m).0.pc == s.pc && BeforeFetch(s, m).1 == m
    ensures s.imeCountdown == 1 ==> var bit := LowestSet(PendingMask(m[0xFFFF], m[0xFF0F]), 0);
      bit < 5 && BeforeFetch(s, m).0.pc == Vector(bit)
  {
    if s.imeCountdown == 1 {
      DispatchWhenEnabled(s, m);
    }
  }

  class Cpu {
    const registers: Registers
    var pc: u16
    var sp: u16
    var ime: bool
    var imeCountdown: u8
    var halted: bool
    var haltBugActive: bool

    function File(): RegFile
      reads registers
    {
      RegFile(registers.a, registers.f, registers.b, registers.c, registers.d, registers.e, registers.h, registers.l)
    }

    function State(): CpuState
      reads this, registers
    {
      CpuState(File(), pc, sp, ime, imeCountdown, halted, haltBugActive)
    }

    constructor ()
      ensures State() == PowerOn && fresh(registers)
    {
      registers := new Registers();
      pc := 0x0100;
      sp := 0xFFFE;
      ime := false;
      imeCountdown := 0;
      halted := false;
      haltBugActive := false;
    }

    // ------------------------------------------------------------ fetching

    /** `fetch_byte`: the byte at PC; PC moves on by one, wrapping. */
    method FetchByte(bus: Memory) returns (b: u8)
      requires bus.Valid()
      modifies this`pc, bus`cycles
      ensures b == bus.bytes[old(pc)] && pc == WrapAdd16(old(pc), 1)
      ensures bus.cycles == old(bus.cycles) + 1
    {
      b := bus.Read(pc);
      pc := WrapAdd16(pc, 1);
    }

    /** `fetch_word`: two fetches, the low byte first. */
    method FetchWord(bus: Memory) returns (w: u16)
      requires bus.Valid()
      modifies this`pc, bus`cycles
      ensures w == LoadWord(bus.bytes, old(pc)) && pc == WrapAdd16(old(pc), 2)
      ensures Lo(w) == bus.bytes[old(pc)] && Hi(w) == bus.bytes[WrapAdd16(old(pc), 1)]
      ensures bus.cycles == old(bus.cycles) + 2
    {
      var lo := FetchByte(bus);
      var hi := FetchByte(bus);
      w := Word(hi, lo);
      WordParts(w);
    }

    // ------------------------------------------------------------ operands

    /** `resolve_byte_source`: registers and immediates cost nothing, an
        indirect operand one bus read; (HL+) and (HL-) read at the old HL. */
    method ReadByteSource(bus: Memory, s: ByteSource) returns (v: u8)
      requires bus.Valid()
      modifies registers`h, registers`l, bus`cycles
      ensures v == SourceValue(old(File()), bus.bytes, s)
      ensures File() == AfterAccess(old(File()), s)
      ensures bus.cycles == old(bus.cycles) + Accesses(s)
    {
      match s
      case A => v := registers.a;
      case B => v := registers.b;
      case C => v := registers.c;
      case D => v := registers.d;
      case E => v := registers.e;
      case H => v := registers.h;
      case L => v := registers.l;
      case IndBC => v := bus.Read(registers.GetBc());
      case IndDE => v := bus.Read(registers.GetDe());
      case IndHL => v := bus.Read(registers.GetHl());
      case IndHLI =>
        var addr := registers.GetHl();
        registers.SetHl(WrapAdd16(addr, 1));
        v := bus.Read(addr);
      case IndHLD =>
        var addr := registers.GetHl();
        registers.SetHl(WrapAdd16(addr, 0xFFFF));
        v := bus.Read(addr);
      case FF00PlusC => v := bus.Read(Word(0xFF, registers.c));
      case Address(w) => v := bus.Read(w);
      case Immediate(x) => v := x;
    }

    /** `write_byte_dest`. */
    method WriteByteDest(bus: Memory, d: ByteDest, v: u8)
      requires bus.Valid()
      modifies registers, bus`bytes, bus`cycles
      ensures bus.Valid()
      ensures File() == DestFile(old(File()), d, v)
      ensures bus.bytes == DestMemory(old(File()), old(bus.bytes), d, v)
      ensures bus.cycles == old(bus.cycles) + Accesses(SourceOfDest(d))
    {
      match d
      case A => registers.a := v;
      case B => registers.b := v;
      case C => registers.c := v;
      case D => registers.d := v;
      case E => registers.e := v;
      case H => registers.h := v;
      case L => registers.l := v;
      case IndBC => bus.Write(registers.GetBc(), v);
      case IndDE => bus.Write(registers.GetDe(), v);
      case IndHL => bus.Write(registers.GetHl(), v);
      case IndHLI =>
        var addr := registers.GetHl();
        registers.SetHl(WrapAdd16(addr, 1));
        bus.Write(addr, v);
      case IndHLD =>
        var addr := registers.GetHl();
        registers.SetHl(WrapAdd16(addr, 0xFFFF));
        bus.Write(addr, v);
      case FF00PlusC => bus.Write(Word(0xFF, registers.c), v);
      case Address(w) => bus.Write(w, v);
    }

    /** `write_word_dest` to AF: `set_af(value & 0xFFF0)`. */
    method WriteAf(w: u16)
      modifies registers`a, registers`f
      ensures File() == WordDestFile(old(File()), WordDest.AF, w)
    {
      var x := w - w % 0x10;
      registers.SetAf(x);
      AfMaskFile(old(File()), w, x);
    }

    /** `write_word_dest` to a register pair or SP: AF takes
        `value & 0xFFF0`. */
    method WritePair(d: WordDest, w: u16)
      requires !d.Address?
      modifies registers, this`sp
      ensures File() == WordDestFile(old(File()), d, w)
      ensures sp == if d.SP? then w else old(sp)
    {
      match d
      case AF => WriteAf(w);
      case BC =>
        registers.SetBc(w);
        assert File() == old(File()).(b := Hi(w), c := Lo(w)) == WordDestFile(old(File()), WordDest.BC, w);
      case DE =>
        registers.SetDe(w);
        assert File() == old(File()).(d := Hi(w), e := Lo(w)) == WordDestFile(old(File()), WordDest.DE, w);
      case HL =>
        registers.SetHl(w);
        assert File() == old(File()).(h := Hi(w), l := Lo(w)) == WordDestFile(old(File()), WordDest.HL, w);
      case SP => sp := w;
    }

    /** `write_word_dest`: an address destination is a two-byte bus write,
        low byte first. */
    method WriteWordDest(bus: Memory, d: WordDest, w: u16)
      requires bus.Valid()
      modifies registers, this`sp, bus`bytes, bus`cycles
      ensures bus.Valid()
      ensures File() == WordDestFile(old(File()), d, w)
      ensures sp == if d.SP? then w else old(sp)
      ensures bus.bytes == if d.Address? then StoreWord(old(bus.bytes), d.addr, w) else old(bus.bytes)
      ensures bus.cycles == old(bus.cycles) + (if d.Address? then 2 else 0)
    {
      if d.Address? {
        bus.WriteU16(d.addr, w, IntendedOrder(StoreSpSite));
      } else {
        WritePair(d, w);
      }
    }

    // ----------------------------------------------------------- loads

    /** `run_ld8`: the source is read first (stepping HL for (HL+)/(HL-)),
        then the value written to the destination. */
    method RunLd8(bus: Memory, d: ByteDest, s: ByteSource)
      requires bus.Valid()
      modifies registers, bus`bytes, bus`cycles
      ensures bus.Valid()
      ensures var r := AfterAccess(old(File()), s);
        var v := SourceValue(old(File()), old(bus.bytes), s);
        File() == DestFile(r, d, v) && bus.bytes == DestMemory(r, old(bus.bytes), d, v)
      ensures bus.cycles == old(bus.cycles) + Accesses(s) + Accesses(SourceOfDest(d))
    {
      var v := ReadByteSource(bus, s);
      WriteByteDest(bus, d, v);
    }

    /** `run_ld16`. */
    method RunLd16(bus: Memory, d: WordDest, s: WordSource)
      requires bus.Valid()
      modifies registers, this`sp, bus`bytes, bus`cycles
      ensures bus.Valid()
      ensures var w := WordValue(old(File()), old(sp), s);
        File() == WordDestFile(old(File()), d, w)
        && sp == (if d.SP? then w else old(sp))
        && bus.bytes == if d.Address? then StoreWord(old(bus.bytes), d.addr, w) else old(bus.bytes)
      ensures bus.cycles == old(bus.cycles) + (if d.Address? then 2 else 0)
    {
      var w := WordValue(File(), sp, s);
      WriteWordDest(bus, d, w);
    }

    /** `run_ldhl`: HL := SP + e (signed), with ADD SP,e's flags. */
    method RunLdhl(e: u8)
      modifies registers
      ensures var out := SpPlusOffset(old(sp), e);
        File() == old(File()).(f := out.flags, h := Hi(out.value), l := Lo(out.value))
      ensures Hl(File()) == (old(sp) + Signed(e)) % 0x1_0000
    {
      var out := SpPlusOffset(sp, e);
      registers.f := out.flags;
      registers.SetHl(out.value);
      SignExtendAdds(sp, e);
    }

    // ----------------------------------------------------------- stack

    /** `run_push`: an internal cycle, SP -= 2, then the word written high
        byte first; the registers are left alone. */
    method RunPush(bus: Memory, s: WordSource)
      requires bus.Valid()
      modifies this`sp, bus`bytes, bus`cycles
      ensures bus.Valid()
      ensures sp == Below(old(sp))
      ensures bus.bytes == StoreWord(old(bus.bytes), sp, WordValue(File(), old(sp), s))
      ensures LoadWord(bus.bytes, sp) == WordValue(File(), old(sp), s)
      ensures bus.cycles == old(bus.cycles) + 3
    {
      var value := WordValue(File(), sp, s);
      bus.Tick();
      sp := Below(sp);
      bus.WriteU16(sp, value, IntendedOrder(PushSite));
    }

    /** `run_pop`: the word at SP, SP += 2, then the word written to the
        destination (AF keeping only bits 15-4). */
    method RunPop(bus: Memory, d: WordDest)
      requires bus.Valid() && !d.Address?
      modifies registers, this`sp, bus`cycles
      ensures var w := LoadWord(bus.bytes, old(sp));
        File() == WordDestFile(old(File()), d, w)
        && sp == if d.SP? then w else WrapAdd16(old(sp), 2)
      ensures bus.cycles == old(bus.cycles) + 2
    {
      var value := bus.ReadU16(sp);
      sp := WrapAdd16(sp, 2);
      WritePair(d, value);
    }

    // ------------------------------------------------------------ 8-bit ALU

    /** `run_add` ... `run_cp`: the operand is resolved, then A and F take
        the ALU's result (CP's result is A itself). */
    method RunArith(bus: Memory, op: AluOp, s: ByteSource)
      requires bus.Valid()
      modifies registers, bus`cycles
      ensures var r := old(File());
        var out := RunAlu(op, r.a, SourceValue(r, bus.bytes, s), r.f);
        File() == AfterAccess(r, s).(a := out.value, f := out.flags)
      ensures bus.cycles == old(bus.cycles) + Accesses(s)
    {
      var v := ReadByteSource(bus, s);
      var out := RunAlu(op, registers.a, v, registers.f);
      registers.f := out.flags;
      registers.a := out.value;
    }

    /** `run_inc8`: the location plus one, wrapping; C kept. An (HL) operand
        is read and written back, two bus cycles. */
    method RunInc8(bus: Memory, loc: ByteLocation)
      requires bus.Valid()
      modifies registers, bus`bytes, bus`cycles
      ensures bus.Valid()
      ensures var r := old(File());
        var out := Inc8(SourceValue(r, old(bus.bytes), LocationSource(loc)), r.f);
        File() == DestFile(r.(f := out.flags), LocationDest(loc), out.value)
        && bus.bytes == DestMemory(r, old(bus.bytes), LocationDest(loc), out.value)
      ensures registers.f.carry == old(registers.f.carry)
      ensures bus.cycles == old(bus.cycles) + 2 * Accesses(LocationSource(loc))
    {
      var v := ReadByteSource(bus, LocationSource(loc));
      var out := Inc8(v, registers.f);
      registers.f := out.flags;
      WriteByteDest(bus, LocationDest(loc), out.value);
    }

    /** `run_dec8`: the location minus one, wrapping; C kept. */
    method RunDec8(bus: Memory, loc: ByteLocation)
      requires bus.Valid()
      modifies registers, bus`bytes, bus`cycles
      ensures bus.Valid()
      ensures var r := old(File());
        var out := Dec8(SourceValue(r, old(bus.bytes), LocationSource(loc)), r.f);
        File() == DestFile(r.(f := out.flags), LocationDest(loc), out.value)
        && bus.bytes == DestMemory(r, old(bus.bytes), LocationDest(loc), out.value)
      ensures registers.f.carry == old(registers.f.carry)
      ensures bus.cycles == old(bus.cycles) + 2 * Accesses(LocationSource(loc))
    {
      var v := ReadByteSource(bus, LocationSource(loc));
      var out := Dec8(v, registers.f);
      registers.f := out.flags;
      WriteByteDest(bus, LocationDest(loc), out.value);
    }

    /** `run_daa`. */
    method RunDaa()
      modifies registers`a, registers`f
      ensures var out := Daa(old(registers.a), old(registers.f));
        registers.a == out.value && registers.f == out.flags
    {
      var out := Daa(registers.a, registers.f);
      registers.f := out.flags;
      registers.a := out.value;
    }

    /** `run_scf` as written: N, H and C all cleared, Z kept (`Alu.Scf`;
        `Alu.ScfIntended` is the instruction as defined, which sets C). */
    method RunScf()
      modifies registers`f
      ensures registers.f == Scf(old(registers.f)) && !registers.f.carry
      ensures registers.f.zero == old(registers.f.zero) && !registers.f.subtract && !registers.f.halfCarry
    {
      registers.f := Scf(registers.f);
    }

    /** `run_cpl`. */
    method RunCpl()
      modifies registers`a, registers`f
      ensures var out := Cpl(old(registers.a), old(registers.f));
        registers.a == out.value && registers.f == out.flags
    {
      var out := Cpl(registers.a, registers.f);
      registers.f := out.flags;
      registers.a := out.value;
    }

    /** `run_ccf`. */
    method RunCcf()
      modifies registers`f
      ensures registers.f == Ccf(old(registers.f)) && registers.f.carry != old(registers.f.carry)
    {
      registers.f := Ccf(registers.f);
    }

    // ----------------------------------------------------------- 16-bit ALU

    /** `run_inc16` and `run_dec16`: the pair plus or minus one, wrapping,
        after an internal cycle; no flag changes. */
    method RunIncDec16(bus: Memory, loc: WordLocation, up: bool)
      requires bus.Valid()
      modifies registers, this`sp, bus`cycles
      ensures var w := WordValue(old(File()), old(sp), WordLocationSource(loc));
        var w' := WrapAdd16(w, if up then 1 else 0xFFFF);
        File() == WordDestFile(old(File()), WordLocationDest(loc), w')
        && sp == (if loc.SP? then w' else old(sp))
      ensures registers.f == old(registers.f)
      ensures bus.cycles == old(bus.cycles) + 1
    {
      var value := WordValue(File(), sp, WordLocationSource(loc));
      bus.Tick();
      WritePair(WordLocationDest(loc), WrapAdd16(value, if up then 1 else 0xFFFF));
    }

    /** `run_addhl`: HL += rr after an internal cycle; Z kept. */
    method RunAddHl(bus: Memory, s: WordSource)
      requires bus.Valid()
      modifies registers, bus`cycles
      ensures var out := AddHl(Hl(old(File())), WordValue(old(File()), sp, s), old(registers.f));
        File() == old(File()).(f := out.flags, h := Hi(out.value), l := Lo(out.value))
      ensures bus.cycles == old(bus.cycles) + 1
    {
      var value := WordValue(File(), sp, s);
      bus.Tick();
      var out := AddHl(registers.GetHl(), value, registers.f);
      registers.f := out.flags;
      registers.SetHl(out.value);
    }

    /** `run_addsp`: SP += e (signed), Z and N cleared. */
    method RunAddSp(e: u8)
      modifies registers`f, this`sp
      ensures registers.f == SpPlusOffset(old(sp), e).flags
      ensures sp == (old(sp) + Signed(e)) % 0x1_0000
    {
      var out := SpPlusOffset(sp, e);
      registers.f := out.flags;
      SignExtendAdds(sp, e);
      sp := out.value;
    }

    // -------------------------------------------------- rotates, shifts, bits

    /** `run_rlc` ... `run_srl` through `modify_loc`: the location is read,
        the flags set from the old value and old carry, the result written back. */
    method RunRotateShift(bus: Memory, op: ShiftOp, loc: ByteLocation)
      requires bus.Valid()
      modifies registers, bus`bytes, bus`cycles
      ensures bus.Valid()
      ensures var r := old(File());
        var out := RunShift(op, SourceValue(r, old(bus.bytes), LocationSource(loc)), r.f);
        File() == DestFile(r.(f := out.flags), LocationDest(loc), out.value)
        && bus.bytes == DestMemory(r, old(bus.bytes), LocationDest(loc), out.value)
      ensures bus.cycles == old(bus.cycles) + 2 * Accesses(LocationSource(loc))
    {
      var v := ReadByteSource(bus, LocationSource(loc));
      var out := RunShift(op, v, registers.f);
      registers.f := out.flags;
      WriteByteDest(bus, LocationDest(loc), out.value);
    }

    /** `run_rlca`, `run_rrca`, `run_rla`, `run_rra`: the CB form on A, then
        Z cleared. */
    method RunRotateA(bus: Memory, op: ShiftOp)
      requires bus.Valid()
      modifies registers, bus`bytes, bus`cycles
      ensures bus.Valid()
      ensures var out := AccumulatorForm(RunShift(op, old(registers.a), old(registers.f)));
        File() == old(File()).(a := out.value, f := out.flags) && !registers.f.zero
      ensures bus.bytes == old(bus.bytes) && bus.cycles == old(bus.cycles)
    {
      RunRotateShift(bus, op, ByteLocation.A);
      registers.f := Update(registers.f, Some(false), None, None, None);
    }

    /** `run_bit`: reads the location (one bus read for (HL)) and sets Z
        from bit `n`; the operand is not written. */
    method RunBit(bus: Memory, n: nat, loc: ByteLocation)
      requires bus.Valid() && n < 8
      modifies registers`f, bus`cycles
      ensures var v := SourceValue(old(File()), bus.bytes, LocationSource(loc));
        registers.f == BitTest(v, n, old(registers.f)) && (registers.f.zero <==> !Bit(v, n))
      ensures bus.cycles == old(bus.cycles) + Accesses(LocationSource(loc))
    {
      var v;
      if loc == ByteLocation.IndHL {
        v := bus.Read(registers.GetHl());
      } else {
        v := match loc
          case A => registers.a
          case B => registers.b
          case C => registers.c
          case D => registers.d
          case E => registers.e
          case H => registers.h
          case L => registers.l;
      }
      registers.f := BitTest(v, n, registers.f);
    }

    /** `run_res` and `run_set` through `modify_loc`: only bit `n` changes;
        no flag changes. */
    method RunResSet(bus: Memory, n: nat, loc: ByteLocation, toOne: bool)
      requires bus.Valid() && n < 8
      modifies registers, bus`bytes, bus`cycles
      ensures bus.Valid()
      ensures var r := old(File());
        var v := SourceValue(r, old(bus.bytes), LocationSource(loc));
        var v' := if toOne then SetBit(v, n) else ResBit(v, n);
        File() == DestFile(r, LocationDest(loc), v')
        && bus.bytes == DestMemory(r, old(bus.bytes), LocationDest(loc), v')
      ensures registers.f == old(registers.f)
      ensures bus.cycles == old(bus.cycles) + 2 * Accesses(LocationSource(loc))
    {
      var v := ReadByteSource(bus, LocationSource(loc));
      var v' := if toOne then SetBit(v, n) else ResBit(v, n);
      WriteByteDest(bus, LocationDest(loc), v');
    }

    // ----------------------------------------------------------- branches

    /** `run_jr`: the signed offset is fetched; when the condition holds, one
        more cycle and PC += offset (wrapping) from the next instruction. */
    method RunJr(bus: Memory, cond: JumpCondition)
      requires bus.Valid()
      modifies this`pc, bus`cycles
      ensures var next := WrapAdd16(old(pc), 1);
        var e := bus.bytes[old(pc)];
        pc == if ConditionHolds(cond, registers.f) then (next + Signed(e)) % 0x1_0000 else next
      ensures bus.cycles == old(bus.cycles) + (if ConditionHolds(cond, registers.f) then 2 else 1)
    {
      var e := FetchByte(bus);
      SignExtendAdds(pc, e);
      if ConditionHolds(cond, registers.f) {
        bus.Tick();
        pc := WrapAdd16(pc, SignExtend(e));
      }
    }

    /** `run_jp`: the target word is fetched; when the condition holds, one
        more cycle and PC := target. */
    method RunJp(bus: Memory, cond: JumpCondition)
      requires bus.Valid()
      modifies this`pc, bus`cycles
      ensures pc == if ConditionHolds(cond, registers.f) then LoadWord(bus.bytes, old(pc)) else WrapAdd16(old(pc), 2)
      ensures bus.cycles == old(bus.cycles) + (if ConditionHolds(cond, registers.f) then 3 else 2)
    {
      var target := FetchWord(bus);
      if ConditionHolds(cond, registers.f) {
        bus.Tick();
        pc := target;
      }
    }

    /** `run_jp_hl`: PC := HL, no extra cycle. */
    method RunJpHl()
      modifies this`pc
      ensures pc == Hl(File())
    {
      pc := registers.GetHl();
    }

    /** `run_call`: the target is fetched; when the condition holds, an
        internal cycle, the address of the next instruction pushed, and
        PC := target. */
    method RunCall(bus: Memory, cond: JumpCondition)
      requires bus.Valid()
      modifies this`pc, this`sp, bus`bytes, bus`cycles
      ensures bus.Valid()
      ensures var target := LoadWord(old(bus.bytes), old(pc));
        var next := WrapAdd16(old(pc), 2);
        if ConditionHolds(cond, registers.f) then
          pc == target && sp == Below(old(sp)) && bus.bytes == StoreWord(old(bus.bytes), sp, next)
          && bus.cycles == old(bus.cycles) + 5
        else
          pc == next && sp == old(sp) && bus.bytes == old(bus.bytes) && bus.cycles == old(bus.cycles) + 2
    {
      var target := FetchWord(bus);
      if ConditionHolds(cond, registers.f) {
        bus.Tick();
        sp := Below(sp);
        bus.WriteU16(sp, pc, IntendedOrder(CallSite));
        pc := target;
      }
    }

    /** `run_ret`: RET pops PC after two reads and an internal cycle; RET cc
        spends a cycle on the condition, then pops only when it holds. */
    method RunRet(bus: Memory, cond: JumpCondition)
      requires bus.Valid()
      modifies this`pc, this`sp, bus`cycles
      ensures ConditionHolds(cond, registers.f) ==>
        pc == LoadWord(bus.bytes, old(sp)) && sp == WrapAdd16(old(sp), 2)
      ensures !ConditionHolds(cond, registers.f) ==> pc == old(pc) && sp == old(sp)
      ensures bus.cycles == old(bus.cycles) +
        (if cond.Always? then 3 else if ConditionHolds(cond, registers.f) then 4 else 1)
    {
      if cond.Always? {
        var value := bus.ReadU16(sp);
        sp := WrapAdd16(sp, 2);
        bus.Tick();
        pc := value;
      } else {
        bus.Tick();
        if ConditionHolds(cond, registers.f) {
          var value := bus.ReadU16(sp);
          sp := WrapAdd16(sp, 2);
          bus.Tick();
          pc := value;
        }
      }
    }

    /** `run_reti`: RET, then IME set at once (no EI delay). */
    method RunReti(bus: Memory)
      requires bus.Valid()
      modifies this`pc, this`sp, this`ime, bus`cycles
      ensures pc == LoadWord(bus.bytes, old(sp)) && sp == WrapAdd16(old(sp), 2) && ime
      ensures bus.cycles == old(bus.cycles) + 3
    {
      var value := bus.ReadU16(sp);
      sp := WrapAdd16(sp, 2);
      bus.Tick();
      pc := value;
      ime := true;
    }

    /** `run_rst`: an internal cycle, PC pushed, PC := the vector. */
    method RunRst(bus: Memory, target: u16)
      requires bus.Valid()
      modifies this`pc, this`sp, bus`bytes, bus`cycles
      ensures bus.Valid()
      ensures pc == target && sp == Below(old(sp))
      ensures bus.bytes == StoreWord(old(bus.bytes), sp, old(pc))
      ensures bus.cycles == old(bus.cycles) + 3
    {
      bus.Tick();
      sp := Below(sp);
      bus.WriteU16(sp, pc, IntendedOrder(RestartSite));
      pc := target;
    }

    // ----------------------------------------------------------- interrupts

    /** `handle_interrupt`: two internal cycles, IME cleared, PC pushed, one
        more cycle; then the lowest pending source among bits 0-4 has its IF
        bit cleared and PC jumps to its vector. The IF byte is cleared after
        the push, so a push over FF0F is seen by it. */
    method HandleInterrupt(bus: Memory, pending: u8)
      requires bus.Valid()
      modifies this`ime, this`sp, this`pc, bus`bytes, bus`cycles
      ensures bus.Valid()
      ensures (State(), bus.bytes) == Dispatch(old(State()), old(bus.bytes), pending)
      ensures bus.cycles == old(bus.cycles) + 5
    {
      bus.Tick();
      bus.Tick();
      ime := false;
      sp := Below(sp);
      bus.WriteU16(sp, pc, IntendedOrder(DispatchSite));
      bus.Tick();
      var bit := 0;
      while bit < 5
        invariant 0 <= bit <= 5
        invariant LowestSet(pending, 0) == LowestSet(pending, bit)
        invariant bus.Valid() && !ime && sp == Below(old(sp)) && bus.cycles == old(bus.cycles) + 5
        invariant pc == old(pc) && bus.bytes == StoreWord(old(bus.bytes), sp, old(pc))
      {
        MaskTest(pending, bit);
        if And8(pending, BitMask(bit)) != 0 {
          bus.ClearFlag(bit);
          pc := Vector(bit);
          return;
        }
        bit := bit + 1;
      }
    }

    // ---------------------------------------------------------------- step

    /** The opcode fetch of `step`: the byte at PC, PC advanced; with the
        halt bug active PC is put back, so the byte is read again, and the
        bug is cleared. */
    method FetchOpcode(bus: Memory) returns (op: u8)
      requires bus.Valid()
      modifies this`pc, this`haltBugActive, bus`cycles
      ensures op == bus.bytes[old(pc)]
      ensures pc == if old(haltBugActive) then old(pc) else WrapAdd16(old(pc), 1)
      ensures !haltBugActive
      ensures bus.cycles == old(bus.cycles) + 1
    {
      op := bus.Read(pc);
      pc := WrapAdd16(pc, 1);
      if haltBugActive {
        pc := WrapAdd16(pc, 0xFFFF);
        haltBugActive := false;
      }
    }

    /** The CB-prefixed match. An (HL) operand (low three bits 6) costs a
        read and a write, one read only for BIT (0x40-0x7F); a register
        operand leaves memory alone, and BIT changes only F. */
    method ExecuteCb(bus: Memory, cb: u8)
      requires bus.Valid()
      modifies registers, bus`bytes, bus`cycles
      ensures bus.Valid()
      ensures bus.cycles == old(bus.cycles) + if Low(cb) != 6 then 0 else if 0x40 <= cb < 0x80 then 1 else 2
      ensures Low(cb) != 6 || 0x40 <= cb < 0x80 ==> bus.bytes == old(bus.bytes)
      ensures 0x40 <= cb < 0x80 ==> File() == old(File()).(f := registers.f)
    {
      var i := DecodeCb(cb);
      assert i.loc == ByteLocation.IndHL <==> Low(cb) == 6;
      assert i.TestBit? <==> 0x40 <= cb < 0x80;
      RegisterOperand(File(), bus.bytes, i.loc);
      match i
      case Shift(op, loc) => RunRotateShift(bus, op, loc);
      case TestBit(n, loc) => RunBit(bus, n, loc);
      case ResetBit(n, loc) => RunResSet(bus, n, loc, false);
      case SetBitTo(n, loc) => RunResSet(bus, n, loc, true);
    }

    /** The loads, the stack and the 16-bit arithmetic arms of the opcode
        match. PUSH leaves its operand on top of the stack; LD between a
        register and (BC), (DE), (HL) or a register carries no operand byte,
        so PC stays put. */
    method ExecuteData(bus: Memory, i: Instr)
      requires bus.Valid()
      modifies this, registers, bus
      ensures bus.Valid()
      ensures i.Push? ==> sp == Below(old(sp)) && LoadWord(bus.bytes, sp) == WordValue(old(File()), old(sp), i.wsrc)
      ensures i.Pop? && !i.wdest.Address? ==> bus.bytes == old(bus.bytes) && bus.cycles == old(bus.cycles) + 2
      ensures i.Load? ==> pc == old(pc) && sp == old(sp)
    {
      match i
      case Load(d, s) => RunLd8(bus, d, s);
      case LoadImmediate(d) =>
        var v := FetchByte(bus);
        RunLd8(bus, d, ByteSource.Immediate(v));
      case StoreHigh =>
        var n := FetchByte(bus);
        RunLd8(bus, ByteDest.Address(Word(0xFF, n)), ByteSource.A);
      case LoadHigh =>
        var n := FetchByte(bus);
        RunLd8(bus, ByteDest.A, ByteSource.Address(Word(0xFF, n)));
      case StoreAbsolute =>
        var addr := FetchWord(bus);
        RunLd8(bus, ByteDest.Address(addr), ByteSource.A);
      case LoadAbsolute =>
        var addr := FetchWord(bus);
        RunLd8(bus, ByteDest.A, ByteSource.Address(addr));
      case LoadWordImmediate(d) =>
        var w := FetchWord(bus);
        RunLd16(bus, d, WordSource.Immediate(w));
      case LoadSpHl =>
        bus.Tick();
        RunLd16(bus, WordDest.SP, WordSource.HL);
      case StoreSp =>
        var addr := FetchWord(bus);
        RunLd16(bus, WordDest.Address(addr), WordSource.SP);
      case LoadHlSpOffset =>
        var e := FetchByte(bus);
        bus.Tick();
        RunLdhl(e);
      case Push(s) => RunPush(bus, s);
      case Pop(d) =>
        if !d.Address? {
          RunPop(bus, d);
        }
      case IncWord(loc) => RunIncDec16(bus, loc, true);
      case DecWord(loc) => RunIncDec16(bus, loc, false);
      case AddHlWord(s) => RunAddHl(bus, s);
      case AddSpOffset =>
        var e := FetchByte(bus);
        bus.Tick();
        bus.Tick();
        RunAddSp(e);
      case _ =>
    }

    /** The 8-bit arithmetic, rotate and CB-prefix arms of the opcode match.
        Only the prefix and the immediate operand move PC; none of them
        moves SP. */
    method ExecuteOther(bus: Memory, i: Instr)
      requires bus.Valid()
      modifies this, registers, bus
      ensures bus.Valid()
      ensures sp == old(sp)
      ensures !(i.ArithImmediate? || i.Prefixed?) ==> pc == old(pc)
      ensures i.ArithImmediate? || i.Prefixed? ==> pc == WrapAdd16(old(pc), 1)
    {
      match i
      case IncByte(loc) => RunInc8(bus, loc);
      case DecByte(loc) => RunDec8(bus, loc);
      case Arith(op, loc) => RunArith(bus, op, LocationSource(loc));
      case ArithImmediate(op) =>
        var v := FetchByte(bus);
        RunArith(bus, op, ByteSource.Immediate(v));
      case DecimalAdjust => RunDaa();
      case SetCarry => RunScf();
      case Complement => RunCpl();
      case FlipCarry => RunCcf();
      case RotateA(op) => RunRotateA(bus, op);
      case Prefixed =>
        var cb := FetchByte(bus);
        ExecuteCb(bus, cb);
      case _ =>
    }

    /** The branch arms of the opcode match. CALL and RST leave the return
        address on top of the stack; RET and RETI take it back off. */
    method ExecuteBranch(bus: Memory, i: Instr)
      requires bus.Valid()
      modifies this, registers, bus
      ensures bus.Valid()
      ensures File() == old(File())
      ensures i.JumpHl? ==> pc == Hl(old(File())) && sp == old(sp)
      ensures i.Restart? ==> pc == i.target && sp == Below(old(sp)) && LoadWord(bus.bytes, sp) == old(pc)
      ensures i.Call? && i.cond.Always? ==>
        pc == LoadWord(old(bus.bytes), old(pc)) && sp == Below(old(sp))
        && LoadWord(bus.bytes, sp) == WrapAdd16(old(pc), 2)
      ensures i.Return? && i.cond.Always? ==>
        pc == LoadWord(old(bus.bytes), old(sp)) && sp == WrapAdd16(old(sp), 2)
      ensures i.ReturnEnable? ==> ime && pc == LoadWord(old(bus.bytes), old(sp)) && sp == WrapAdd16(old(sp), 2)
    {
      match i
      case JumpRelative(cond) => RunJr(bus, cond);
      case Jump(cond) => RunJp(bus, cond);
      case JumpHl => RunJpHl();
      case Call(cond) =>
        RunCall(bus, cond);
        if cond.Always? { LoadStoreWord(old(bus.bytes), sp, WrapAdd16(old(pc), 2)); }
      case Return(cond) => RunRet(bus, cond);
      case ReturnEnable => RunReti(bus);
      case Restart(target) =>
        RunRst(bus, target);
        LoadStoreWord(old(bus.bytes), sp, old(pc));
      case _ =>
    }

    /** The opcode match of `step`. NOP, STOP, HALT, DI and EI are handled
        here, the rest by the executors; `false` for the eleven opcodes that
        panic, which change nothing. */
    method Execute(bus: Memory, op: u8) returns (ok: bool)
      requires bus.Valid()
      modifies this, registers, bus
      ensures bus.Valid()
      ensures ok <==> op !in IllegalOpcodes
      ensures !ok || op == 0x00 ==>
        State() == old(State()) && bus.bytes == old(bus.bytes) && bus.cycles == old(bus.cycles)
      ensures op == 0x76 ==>
        if !old(ime) && old(bus.Pending()) != 0
        then State() == old(State()).(haltBugActive := true) && bus.cycles == old(bus.cycles)
        else State() == old(State()).(halted := true) && bus.cycles == old(bus.cycles)
      ensures op == 0xF3 ==> State() == old(State()).(ime := false, imeCountdown := 0)
      ensures op == 0xFB ==> State() == old(State()).(imeCountdown := 2)
      ensures op in {0x76, 0xF3, 0xFB} ==> bus.bytes == old(bus.bytes) && bus.cycles == old(bus.cycles)
    {
      var i := Decode(op);
      if i.None? {
        return false;
      }
      ok := true;
      if op == 0x00 {
      } else if op == 0x10 {
        if bus.Pending() == 0 {
          var _ := FetchByte(bus);
        }
      } else if op == 0x76 {
        if !ime && bus.Pending() != 0 {
          haltBugActive := true;
        } else {
          halted := true;
        }
      } else if op == 0xF3 {
        ime := false;
        imeCountdown := 0;
      } else if op == 0xFB {
        imeCountdown := 2;
      } else if DataInstr(i.value) {
        ExecuteData(bus, i.value);
      } else if BranchInstr(i.value) {
        ExecuteBranch(bus, i.value);
      } else {
        ExecuteOther(bus, i.value);
      }
    }

    /** The part of `step` before the opcode fetch (`BeforeFetch`):
        returns whether an opcode is fetched next. */
    method BeginStep(bus: Memory) returns (fetch: bool)
      requires bus.Valid()
      modifies this`ime, this`imeCountdown, this`halted, this`sp, this`pc, bus`bytes, bus`cycles
      ensures bus.Valid()
      ensures var (t, m, c, f) := BeforeFetch(old(State()), old(bus.bytes));
        State() == t && bus.bytes == m && bus.cycles == old(bus.cycles) + c && fetch == f
    {
      fetch := true;
      if imeCountdown > 0 {
        imeCountdown := imeCountdown - 1;
        if imeCountdown == 0 {
          ime := true;
        }
      }
      if !halted {
        var pending := bus.Pending();
        if pending != 0 && ime {
          HandleInterrupt(bus, pending);
        }
      } else {
        bus.Tick();
        var pending := bus.Pending();
        if pending != 0 {
          halted := false;
          if ime {
            HandleInterrupt(bus, pending);
          }
        } else {
          fetch := false;
        }
      }
    }

    /** `step`: `BeginStep`, then, unless a halted CPU had nothing pending,
        one instruction is fetched at the resulting PC and executed. `false`
        where `step` panics on an illegal opcode. */
    method Step(bus: Memory) returns (ok: bool)
      requires bus.Valid()
      modifies this, registers, bus
      ensures bus.Valid()
      ensures var (t, m, c, fetch) := BeforeFetch(old(State()), old(bus.bytes));
        !fetch ==> ok && State() == t && bus.bytes == m && bus.cycles == old(bus.cycles) + c
      ensures var (t, m, c, fetch) := BeforeFetch(old(State()), old(bus.bytes));
        fetch ==> (ok <==> m[t.pc] !in IllegalOpcodes)
      ensures var (t, m, c, fetch) := BeforeFetch(old(State()), old(bus.bytes));
        fetch && m[t.pc] == 0x00 ==>
          State() == t.(pc := if t.haltBugActive then t.pc else WrapAdd16(t.pc, 1), haltBugActive := false)
          && bus.bytes == m && bus.cycles == old(bus.cycles) + c + 1
      ensures var (t, m, c, fetch) := BeforeFetch(old(State()), old(bus.bytes));
        var next := t.(pc := if t.haltBugActive then t.pc else WrapAdd16(t.pc, 1), haltBugActive := false);
        fetch && m[t.pc] in {0x76, 0xF3, 0xFB} ==>
          bus.bytes == m && bus.cycles == old(bus.cycles) + c + 1
          && (m[t.pc] == 0xF3 ==> State() == next.(ime := false, imeCountdown := 0))
          && (m[t.pc] == 0xFB ==> State() == next.(imeCountdown := 2))
          && (m[t.pc] == 0x76 ==>
                State() == if !t.ime && PendingMask(m[0xFFFF], m[0xFF0F]) != 0 then next.(haltBugActive := true) else next.(halted := true))
    {
      var fetch := BeginStep(bus);
      if fetch {
        var opcode := FetchOpcode(bus);
        ok := Execute(bus, opcode);
      } else {
        ok := true;
      }
    }
  }
}

/** The DIV/TIMA timer (src/io/timer.rs). A 16-bit counter runs at the CPU
    clock and DIV is its high byte. TIMA counts falling edges of one counter
    bit, chosen by TAC bits 1-0 and gated by the TAC enable bit 2. An overflow
    leaves TIMA at 0 for four cycles, then loads TMA and requests the timer
    interrupt. The value-level rules come first, then the `Timer` object that
    applies them to its fields. */
module Timer {
  import opened Bits

  // -------------------------------------------------------- clock selection

  /** The `match timer_control & 0b11` of `get_timer_signal` as written: its
      last two arms are the hex numbers 0x10 and 0x11, which `tac & 3` never
      equals, so clock selects 2 and 3 fall through to `unreachable!()` (None). */
  function TacBitIndexAsWritten(sel: nat): (idx: Option<nat>)
    ensures idx.Some? <==> sel == 0x00 || sel == 0x01 || sel == 0x10 || sel == 0x11
  {
    match sel
    case 0x00 => Some(9)
    case 0x01 => Some(3)
    case 0x10 => Some(5)
    case 0x11 => Some(7)
    case _ => None
  }

  /** The counter bit each clock select watches, with the arms read as the
      binary numbers 0b10 and 0b11 they stand for. Bit `idx` falls once every
      `2^(idx+1)` cycles: 1024, 16, 64 and 256 cycles (4096, 262144, 65536 and
      16384 Hz at 4.19 MHz). */
  function TacBitIndex(sel: nat): (idx: nat)
    requires sel < 4
    ensures Pow2(idx + 1) == [1024, 16, 64, 256][sel]
  {
    assert Pow2(4) == 16 && Pow2(6) == 64 && Pow2(8) == 256 && Pow2(10) == 1024;
    match sel
    case 0 => 9
    case 1 => 3
    case 2 => 5
    case _ => 7
  }

  /** TAC bit 2 turns the timer on. */
  predicate Enabled(tac: u8) { tac / 4 % 2 == 1 }

  /** A bit of `x` is set exactly in the upper half of each run of twice
      its place value. */
  lemma UpperHalf(x: nat, p: nat)
    requires p >= 1
    ensures (x / p % 2 == 1) <==> x % (2 * p) >= p
  {
    DivIsNat(x, 2 * p);
    var q: nat, r: nat := x / (2 * p), x % (2 * p);
    if r >= p {
      assert x == (2 * q + 1) * p + (r - p);
      DivUnique(x, p, 2 * q + 1, r - p);
      DivUnique(2 * q + 1, 2, q, 1);
    } else {
      assert x == (2 * q) * p + r;
      DivUnique(x, p, 2 * q, r);
      DivUnique(2 * q, 2, q, 0);
    }
  }

  /** The timer signal with the binary clock select: the selected counter
      bit AND the enable bit. With the period of the select (1024, 16, 64
      or 256 cycles), it is high exactly in the second half of each period
      of the counter, and only while the timer is on. */
  function Signal(counter: u16, tac: u8): (high: bool)
    ensures high <==> Enabled(tac) && counter % [1024, 16, 64, 256][tac % 4] >= [1024, 16, 64, 256][tac % 4] / 2
  {
    var idx := TacBitIndex(tac % 4);
    UpperHalf(counter, Pow2(idx));
    counter / Pow2(idx) % 2 == 1 && Enabled(tac)
  }

  /** `get_timer_signal` as written: `None` (the `unreachable!()` panic) for
      clock selects 2 and 3, whether or not the timer is enabled; for selects
      0 and 1 it is the signal above. */
  function SignalAsWritten(counter: u16, tac: u8): (b: Option<bool>)
    ensures b.Some? <==> tac % 4 < 2
    ensures b.Some? ==> (b.value <==> Signal(counter, tac))
    ensures b.Some? && !Enabled(tac) ==> !b.value
  {
    match TacBitIndexAsWritten(tac % 4)
    case None => None
    case Some(idx) => Some(counter / Pow2(idx) % 2 == 1 && Enabled(tac))
  }

  /** TIMA increments when the signal goes from 1 to 0: a falling edge is
      neither a rise nor a level. */
  function Falls(before: bool, after: bool): (edge: bool)
    ensures edge ==> before != after
    ensures edge <==> before && before != after
  {
    before && !after
  }

  // --------------------------------------------------------------- the state

  /** The timer's fields. */
  datatype TimerState = TimerState(
    tima: u8,       // timer_counter, FF05
    tma: u8,        // timer_modulo, FF06
    tac: u8,        // timer_control, FF07
    counter: u16,   // internal_counter; DIV (FF04) is its high byte
    request: bool,  // interrupt_request
    reloadIn: u32)  // cycles_until_tima_reload

  /** `Timer::new()`. */
  const Initial := TimerState(0, 0, 0, 0, false, 0)

  /** `inc_timer_counter`: TIMA + 1; on overflow TIMA holds 0 and the TMA
      reload is scheduled 4 cycles ahead. */
  function IncTima(s: TimerState): (r: TimerState)
    ensures r.tima + Weight(s.tima == 0xFF, 0x100) == s.tima + 1
    ensures r.reloadIn == if s.tima == 0xFF then 4 else s.reloadIn
    ensures r.(tima := s.tima, reloadIn := s.reloadIn) == s
  {
    if s.tima == 0xFF then s.(tima := 0, reloadIn := 4) else s.(tima := s.tima + 1)
  }

  /** The delayed reload at the start of `step`: once the t-cycles reach the
      countdown, TIMA takes TMA and the interrupt is requested; otherwise the
      countdown goes down by t. */
  function Reload(s: TimerState, t: u32): (r: TimerState)
    ensures s.reloadIn == 0 ==> r == s
    ensures s.reloadIn > 0 && t >= s.reloadIn ==> r == s.(tima := s.tma, request := true, reloadIn := 0)
    ensures s.reloadIn > t ==> r == s.(reloadIn := s.reloadIn - t)
  {
    if s.reloadIn > 0 then
      if t >= s.reloadIn then s.(reloadIn := 0, tima := s.tma, request := true)
      else s.(reloadIn := s.reloadIn - t)
    else s
  }

  /** Adding `t as u16` with wrap-around is adding t modulo 2^16. */
  lemma AddTruncated(c: nat, t: nat)
    ensures (c + t % 0x1_0000) % 0x1_0000 == (c + t) % 0x1_0000
  {
    DivIsNat(t, 0x1_0000);
    var q: nat, rem := t / 0x1_0000, t % 0x1_0000;
    DivIsNat(c + rem, 0x1_0000);
    var k: nat, low := (c + rem) / 0x1_0000, (c + rem) % 0x1_0000;
    assert c + t == (q + k) * 0x1_0000 + low;
    DivUnique(c + t, 0x1_0000, q + k, low);
  }

  /** A change that may move the signal (a step of the counter, a DIV or a
      TAC write): TIMA ticks if the as-written signal fell from 1 to 0.
      `None` where reading the signal before or after panics. */
  function TickIfFell(before: TimerState, after: TimerState): (r: Option<TimerState>)
    ensures r.Some? <==> before.tac % 4 < 2 && after.tac % 4 < 2
    ensures r.Some? ==> r.value == if Falls(Signal(before.counter, before.tac), Signal(after.counter, after.tac)) then IncTima(after) else after
  {
    match (SignalAsWritten(before.counter, before.tac), SignalAsWritten(after.counter, after.tac))
    case (Some(b), Some(a)) => Some(if Falls(b, a) then IncTima(after) else after)
    case _ => None
  }

  /** `step(t_cycles)`: the reload, then the counter advanced by `t_cycles as
      u16` with wrap-around and TIMA ticked on a falling edge of the signal;
      it returns the interrupt request and clears it. `None` for clock
      selects 2 and 3, where reading the signal panics. */
  function StepTimer(s: TimerState, t: u32): (r: Option<(TimerState, bool)>)
    ensures r.Some? <==> s.tac % 4 < 2
    ensures r.Some? ==> r.value.0.counter == (s.counter + t) % 0x1_0000 && !r.value.0.request
    ensures r.Some? ==> r.value.1 == (s.request || (s.reloadIn > 0 && t >= s.reloadIn))
    ensures r.Some? ==> r.value.0.tma == s.tma && r.value.0.tac == s.tac
    ensures r.Some? ==> var s2 := Reload(s, t).(counter := (s.counter + t) % 0x1_0000);
      r.value.0 == (if Falls(Signal(s.counter, s.tac), Signal(s2.counter, s.tac)) then IncTima(s2) else s2).(request := false)
  {
    var s1 := Reload(s, t);
    var s2 := s1.(counter := WrapAdd16(s1.counter, t % 0x1_0000));
    AddTruncated(s.counter, t);
    match TickIfFell(s1, s2)
    case None => None
    case Some(s3) => Some((s3.(request := false), s3.request))
  }

  /** `read`. The bus routes only FF04-FF07 here (the `unreachable!()` arm). */
  function ReadTimer(s: TimerState, addr: u16): (v: u8)
    requires 0xFF04 <= addr <= 0xFF07
    ensures addr == 0xFF04 ==> v * 0x100 <= s.counter < (v + 1) * 0x100
    ensures addr == 0xFF07 ==> v / 8 == 0x1F && v % 8 == s.tac % 8
  {
    match addr
    case 0xFF04 => Hi(s.counter)
    case 0xFF05 => s.tima
    case 0xFF06 => s.tma
    case _ => 0xF8 + s.tac % 8   // timer_control | 0xF8
  }

  /** `write`. A DIV write zeroes the whole counter and a TAC write replaces
      the control byte; either ticks TIMA if it makes the signal fall, and
      either panics (`None`) when the select before or after is 2 or 3. A
      TIMA write cancels a pending reload. */
  function WriteTimer(s: TimerState, addr: u16, v: u8): (r: Option<TimerState>)
    requires 0xFF04 <= addr <= 0xFF07
    ensures r.None? <==> (addr == 0xFF04 && s.tac % 4 >= 2) || (addr == 0xFF07 && (s.tac % 4 >= 2 || v % 4 >= 2))
    ensures addr == 0xFF04 && r.Some? ==> r.value.counter == 0 && r.value.tac == s.tac
    ensures addr == 0xFF05 ==> r == Some(s.(tima := v, reloadIn := 0))
    ensures addr == 0xFF06 ==> r == Some(s.(tma := v))
    ensures addr == 0xFF07 && r.Some? ==> r.value.tac == v && r.value.counter == s.counter
  {
    match addr
    case 0xFF04 => TickIfFell(s, s.(counter := 0))
    case 0xFF05 => Some(s.(tima := v, reloadIn := 0))
    case 0xFF06 => Some(s.(tma := v))
    case _ => TickIfFell(s, s.(tac := v))
  }

  // ----------------------------------------------------------------- lemmas

  /** Bit `p` (a power of two) of x is set exactly when x mod 2p is at least p. */
  lemma BitAsRemainder(x: nat, p: nat)
    requires p >= 1
    ensures (x / p % 2 == 1) == (x % (2 * p) >= p)
  {
    DivIsNat(x, p);
    var a: nat, r: nat := x / p, x % p;
    var b, c := a / 2, a % 2;
    assert x == a * p + r;
    assert a * p == b * (2 * p) + c * p;
    assert c * p + r < 2 * p;
    DivUnique(x, 2 * p, b, c * p + r);
  }

  /** Adding t (at most half the modulus 2p) to a number with remainder r
      modulo 2p gives remainder r + t, or r + t - 2p when that wraps. */
  lemma AddRemainder(c: nat, t: nat, p: nat)
    requires p >= 1 && t <= p
    ensures var r := c % (2 * p);
      (c + t) % (2 * p) == if r + t < 2 * p then r + t else r + t - 2 * p
  {
    var n := 2 * p;
    DivIsNat(c, n);
    var q: nat, r: nat := c / n, c % n;
    if r + t < n {
      DivUnique(c + t, n, q, r + t);
    } else {
      assert (q + 1) * n == q * n + n;
      DivUnique(c + t, n, q + 1, r + t - n);
    }
  }

  /** With a step no longer than half a period, the watched bit falls exactly
      when the counter passes a multiple of the period, so an enabled timer
      ticks TIMA once per period whatever the step size. This holds for all
      four selects with the binary reading; as written, the signal exists only
      for selects 0 and 1, where the same holds. */
  lemma FallsOncePerPeriod(c: u16, tac: u8, t: nat)
    requires Enabled(tac)
    requires t <= Pow2(TacBitIndex(tac % 4))
    ensures Falls(Signal(c, tac), Signal(WrapAdd16(c, t), tac))
        <==> (c + t) % Pow2(TacBitIndex(tac % 4) + 1) < t
    ensures SignalAsWritten(c, tac).Some? <==> tac % 4 < 2
    ensures tac % 4 < 2 ==>
      (Falls(SignalAsWritten(c, tac).value, SignalAsWritten(WrapAdd16(c, t), tac).value) <==>
       (c + t) % Pow2(TacBitIndex(tac % 4) + 1) < t)
  {
    var p := Pow2(TacBitIndex(tac % 4));
    assert Pow2(TacBitIndex(tac % 4) + 1) == 2 * p;
    var m := 0x1_0000 / (2 * p);
    assert m * (2 * p) == 0x1_0000 by {
      assert p == 8 || p == 32 || p == 128 || p == 512;
    }
    var d := WrapAdd16(c, t);
    assert d == (c + t) % (m * (2 * p));
    ModOfMod(c + t, 2 * p, m);
    BitAsRemainder(c, p);
    BitAsRemainder(d, p);
    AddRemainder(c, t, p);
  }

  /** A `step` of an enabled timer on select 0 or 1, no longer than half a
      period, ticks TIMA exactly when the counter passes a multiple of the
      period (1024 or 16 cycles); on select 2 or 3 it panics. */
  lemma StepTicksOncePerPeriod(s: TimerState, t: u32)
    requires Enabled(s.tac)
    requires t <= Pow2(TacBitIndex(s.tac % 4))
    ensures StepTimer(s, t).Some? <==> s.tac % 4 < 2
    ensures StepTimer(s, t).Some? ==>
      var s2 := Reload(s, t).(counter := (s.counter + t) % 0x1_0000);
      StepTimer(s, t).value.0 == if (s.counter + t) % Pow2(TacBitIndex(s.tac % 4) + 1) < t
        then IncTima(s2).(request := false) else s2.(request := false)
  {
    FallsOncePerPeriod(s.counter, s.tac, t);
    AddTruncated(s.counter, t);
    assert WrapAdd16(s.counter, t) == (s.counter + t) % 0x1_0000 by {
      ModOfMod(t, 0x1_0000, 1);
    }
  }

  /** A disabled timer never ticks TIMA through the counter: its signal is 0
      on selects 0 and 1, and reading it panics on selects 2 and 3. */
  lemma DisabledNeverFalls(c: u16, d: u16, tac: u8)
    requires !Enabled(tac)
    ensures !Falls(Signal(c, tac), Signal(d, tac))
    ensures SignalAsWritten(c, tac) == if tac % 4 < 2 then Some(false) else None
  {
  }

  /** Writing DIV drops the signal, so it ticks TIMA exactly when the watched
      bit was set and the timer enabled (a falling edge the program caused);
      on select 2 or 3 the write panics. */
  lemma DivWriteTicksOnSetBit(s: TimerState, v: u8)
    ensures WriteTimer(s, 0xFF04, v) == if s.tac % 4 >= 2 then None
      else Some(if Signal(s.counter, s.tac) then IncTima(s.(counter := 0)) else s.(counter := 0))
  {
    ZeroDivided(Pow2(TacBitIndex(s.tac % 4)));
  }

  lemma ZeroDivided(p: nat)
    requires p >= 1
    ensures 0 / p == 0
  {
  }

  /** Disabling the timer while its watched bit is set ticks TIMA once; the
      write panics if the old or the new select is 2 or 3. */
  lemma DisablingTicks(s: TimerState, v: u8)
    requires !Enabled(v)
    ensures WriteTimer(s, 0xFF07, v) == if s.tac % 4 >= 2 || v % 4 >= 2 then None
      else Some(if Signal(s.counter, s.tac) then IncTima(s.(tac := v)) else s.(tac := v))
  {
  }

  /** An overflow of TIMA does not request the interrupt at once: TIMA reads 0
      and the reload is 4 cycles away. */
  lemma OverflowDelaysReload(s: TimerState, t: u32)
    requires s.tima == 0xFF && s.reloadIn == 0 && !s.request
    requires Falls(Signal(s.counter, s.tac), Signal(WrapAdd16(s.counter, t % 0x1_0000), s.tac))
    ensures StepTimer(s, t).Some? <==> s.tac % 4 < 2
    ensures StepTimer(s, t).Some? ==>
      StepTimer(s, t).value.0.tima == 0 && StepTimer(s, t).value.0.reloadIn == 4 && !StepTimer(s, t).value.1
  {
    AddTruncated(s.counter, t);
  }

  /** Four cycles after the overflow, TMA is loaded and the interrupt is
      reported: TIMA is TMA, or TMA + 1 (wrapping) if the same step ticks it;
      a TIMA write in between cancels both. */
  lemma ReloadAfterFourCycles(s: TimerState, v: u8)
    requires s.reloadIn == 4 && !s.request
    ensures StepTimer(s, 4).Some? <==> s.tac % 4 < 2
    ensures StepTimer(s, 4).Some? ==> StepTimer(s, 4).value.1
    ensures StepTimer(s, 4).Some? ==>
      StepTimer(s, 4).value.0.tima ==
        if Falls(Signal(s.counter, s.tac), Signal(WrapAdd16(s.counter, 4), s.tac))
        then (if s.tma == 0xFF then 0 else s.tma + 1) else s.tma
    ensures StepTimer(WriteTimer(s, 0xFF05, v).value, 4).Some? ==> !StepTimer(WriteTimer(s, 0xFF05, v).value, 4).value.1
  {
  }

  /** Reading DIV after writing it gives 0; reading TIMA, TMA or TAC gives
      back what was written (TAC with its unused bits 7-3 set). The DIV and
      TAC writes panic where the select before or after is 2 or 3. */
  lemma WriteThenRead(s: TimerState, v: u8)
    ensures WriteTimer(s, 0xFF04, v).Some? <==> s.tac % 4 < 2
    ensures WriteTimer(s, 0xFF04, v).Some? ==> ReadTimer(WriteTimer(s, 0xFF04, v).value, 0xFF04) == 0
    ensures ReadTimer(WriteTimer(s, 0xFF05, v).value, 0xFF05) == v
    ensures ReadTimer(WriteTimer(s, 0xFF06, v).value, 0xFF06) == v
    ensures WriteTimer(s, 0xFF07, v).Some? <==> s.tac % 4 < 2 && v % 4 < 2
    ensures WriteTimer(s, 0xFF07, v).Some? ==> ReadTimer(WriteTimer(s, 0xFF07, v).value, 0xFF07) % 8 == v % 8
  {
  }

  /** The as-written clock selection panics for clock selects 2 and 3, where
      the binary reading selects bits 5 and 7. */
  lemma HexTacArms(tac: u8)
    ensures TacBitIndexAsWritten(tac % 4).Some? <==> tac % 4 < 2
    ensures tac % 4 < 2 ==> TacBitIndexAsWritten(tac % 4) == Some(TacBitIndex(tac % 4))
    ensures TacBitIndexAsWritten(2).None? && TacBitIndex(2) == 5
    ensures TacBitIndexAsWritten(3).None? && TacBitIndex(3) == 7
  {
  }

  // ------------------------------------------------------------- the object

  class Timer {
    var timerCounter: u8
    var timerModulo: u8
    var timerControl: u8
    var internalCounter: u16
    var interruptRequest: bool
    var cyclesUntilTimaReload: u32

    function State(): TimerState
      reads this
    {
      TimerState(timerCounter, timerModulo, timerControl, internalCounter, interruptRequest, cyclesUntilTimaReload)
    }

    constructor ()
      ensures State() == Initial
    {
      timerCounter, timerModulo, timerControl := 0, 0, 0;
      internalCounter, interruptRequest, cyclesUntilTimaReload := 0, false, 0;
    }

    /** `get_timer_signal`: `None` is the `unreachable!()` panic. */
    function GetTimerSignal(): (b: Option<bool>)
      reads this
      ensures b.Some? <==> timerControl % 4 < 2
      ensures b == SignalAsWritten(internalCounter, timerControl)
    {
      var enable := timerControl / 4 % 2 == 1;
      match TacBitIndexAsWritten(timerControl % 4)
      case None => None
      case Some(idx) => Some(internalCounter / Pow2(idx) % 2 == 1 && enable)
    }

    method IncTimerCounter()
      modifies this`timerCounter, this`cyclesUntilTimaReload
      ensures State() == IncTima(old(State()))
    {
      if timerCounter == 0xFF {
        timerCounter := 0x00;
        cyclesUntilTimaReload := 4;
      } else {
        timerCounter := timerCounter + 1;
      }
    }

    /** `step`; `ok` is false where reading the signal panics. */
    method Step(tCycles: u32) returns (ok: bool, interruptRequested: bool)
      modifies this
      ensures ok <==> old(timerControl) % 4 < 2
      ensures ok ==> StepTimer(old(State()), tCycles) == Some((State(), interruptRequested))
    {
      if cyclesUntilTimaReload > 0 {
        if tCycles >= cyclesUntilTimaReload {
          cyclesUntilTimaReload := 0;
          timerCounter := timerModulo;
          interruptRequest := true;
        } else {
          cyclesUntilTimaReload := cyclesUntilTimaReload - tCycles;
        }
      }
      var signalBefore := GetTimerSignal();
      if signalBefore.None? {
        return false, false;
      }
      internalCounter := WrapAdd16(internalCounter, tCycles % 0x1_0000);
      var signalAfter := GetTimerSignal();
      if signalAfter.None? {
        return false, false;
      }
      if signalBefore.value && !signalAfter.value {
        IncTimerCounter();
      }
      ok := true;
      interruptRequested := interruptRequest;
      interruptRequest := false;
    }

    function Read(addr: u16): (v: u8)
      requires 0xFF04 <= addr <= 0xFF07
      reads this
      ensures v == ReadTimer(State(), addr)
    {
      match addr
      case 0xFF04 => Hi(internalCounter)
      case 0xFF05 => timerCounter
      case 0xFF06 => timerModulo
      case _ => 0xF8 + timerControl % 8
    }

    /** `write`; `ok` is false where reading the signal panics. */
    method Write(addr: u16, value: u8) returns (ok: bool)
      requires 0xFF04 <= addr <= 0xFF07
      modifies this
      ensures ok <==> WriteTimer(old(State()), addr, value).Some?
      ensures ok ==> State() == WriteTimer(old(State()), addr, value).value
    {
      ok := true;
      match addr
      case 0xFF04 =>
        var signalBefore := GetTimerSignal();
        if signalBefore.None? {
          return false;
        }
        internalCounter := 0;
        var signalAfter := GetTimerSignal();
        if signalAfter.None? {
          return false;
        }
        if signalBefore.value && !signalAfter.value {
          IncTimerCounter();
        }
      case 0xFF05 =>
        timerCounter := value;
        cyclesUntilTimaReload := 0;
      case 0xFF06 =>
        timerModulo := value;
      case _ =>
        var signalBefore := GetTimerSignal();
        if signalBefore.None? {
          return false;
        }
        timerControl := value;
        var signalAfter := GetTimerSignal();
        if signalAfter.None? {
          return false;
        }
        if signalBefore.value && !signalAfter.value {
          IncTimerCounter();
        }
    }
  }
}

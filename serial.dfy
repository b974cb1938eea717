/** The serial port (src/io/serial.rs): SB (FF01) is an 8-bit shift register
    and SC (FF02) its control byte. A transfer started with SC bits 7 and 0
    set shifts SB left once every 512 cycles (8192 Hz), feeding a 1 in from
    the unconnected line; after the eighth shift SC bit 7 clears and the
    serial interrupt is reported. The value-level rules come first, then the
    `Serial` object that applies them to its fields. */
module Serial {
  import opened Bits

  /** Cycles per shifted bit: 4194304 / 8192. */
  const BitPeriod: u32 := 512

  datatype SerialState = SerialState(
    sb: u8,
    sc: u8,
    timer: u32,        // cycles until the next shift
    shiftCount: u8,    // bits shifted in this transfer
    currentChar: u8)   // SB latched when the transfer started

  const Initial := SerialState(0, 0, 0, 0, 0)

  /** SC bit 7: a transfer is in progress. */
  predicate Active(s: SerialState) { s.sc / 0x80 == 1 }

  /** One shift: `(sb << 1) | 1`; the top bit leaves the 8-bit register. */
  function ShiftIn(sb: u8): (r: u8)
    ensures r % 2 == 1 && r / 2 == sb % 0x80
  {
    sb % 0x80 * 2 + 1
  }

  /** `read`. The bus routes only FF01 and FF02 here (the `unreachable!()` arm).
      SC reads as `sc | 0x7E`: bits 7 and 0 as stored, bits 6-1 set. */
  function ReadSerial(s: SerialState, addr: u16): (v: u8)
    requires addr == 0xFF01 || addr == 0xFF02
    ensures addr == 0xFF01 ==> v == s.sb
    ensures addr == 0xFF02 ==> v / 0x80 == s.sc / 0x80 && v % 2 == s.sc % 2 && v / 2 % 0x40 == 0x3F
  {
    if addr == 0xFF01 then s.sb else s.sc / 0x80 * 0x80 + 0x7E + s.sc % 2
  }

  /** `write`. An SC write with bits 7 and 0 both set (`value & 0x81 == 0x81`:
      start, internal clock) latches SB and restarts the countdown and the bit
      count; any other SC write only stores the byte. */
  function WriteSerial(s: SerialState, addr: u16, v: u8): (r: SerialState)
    requires addr == 0xFF01 || addr == 0xFF02
    ensures addr == 0xFF01 ==> r == s.(sb := v)
    ensures addr == 0xFF02 && v / 0x80 == 1 && v % 2 == 1 ==>
      r == s.(sc := v, currentChar := s.sb, timer := BitPeriod, shiftCount := 0)
    ensures addr == 0xFF02 && !(v / 0x80 == 1 && v % 2 == 1) ==> r == s.(sc := v)
  {
    if addr == 0xFF01 then s.(sb := v)
    else if v / 0x80 == 1 && v % 2 == 1 then
      s.(sc := v, currentChar := s.sb, timer := BitPeriod, shiftCount := 0)
    else s.(sc := v)
  }

  /** `step(t_cycles)`: nothing happens unless a transfer is active. The
      countdown goes down by t, stopping at 0 (`saturating_sub`). When it
      reaches 0 one bit is shifted; the eighth bit ends the transfer and
      reports the interrupt, any earlier one restarts the countdown. The bit
      count is a `u8` that wraps (see README). */
  function StepSerial(s: SerialState, t: u32): (r: (SerialState, bool))
    ensures !Active(s) ==> r == (s, false)
    ensures Active(s) && s.timer > t ==> r == (s.(timer := s.timer - t), false)
    ensures r.1 <==> Active(s) && s.timer <= t && s.shiftCount == 7
    ensures r.1 ==> r.0 == s.(sb := ShiftIn(s.sb), shiftCount := 8, timer := 0, sc := s.sc % 0x80) && !Active(r.0)
    ensures Active(s) && s.timer <= t && s.shiftCount != 7 ==>
      r.0 == s.(sb := ShiftIn(s.sb), shiftCount := (s.shiftCount + 1) % 0x100, timer := BitPeriod)
  {
    if !Active(s) then (s, false)
    else
      var timer := if s.timer >= t then s.timer - t else 0;
      if timer == 0 then
        var count := (s.shiftCount + 1) % 0x100;
        if count == 8 then (s.(sb := ShiftIn(s.sb), shiftCount := count, timer := timer, sc := s.sc % 0x80), true)
        else (s.(sb := ShiftIn(s.sb), shiftCount := count, timer := BitPeriod), false)
      else (s.(timer := timer), false)
  }

  /** The state after n steps of t cycles each. */
  function After(s: SerialState, t: u32, n: nat): SerialState
  {
    if n == 0 then s else StepSerial(After(s, t, n - 1), t).0
  }

  /** `sb` after k shifts. */
  function Shifted(sb: u8, k: nat): u8
  {
    if k == 0 then sb else ShiftIn(Shifted(sb, k - 1))
  }

  // ----------------------------------------------------------------- lemmas

  /** A shift keeps a run of ones at the bottom and lengthens it by one. */
  lemma ShiftInKeepsOnes(y: u8, p: nat, m: nat)
    requires p >= 1 && m >= 1 && m * (2 * p) == 0x100
    requires y % p == p - 1
    ensures ShiftIn(y) % (2 * p) == 2 * p - 1
  {
    DivIsNat(y, p);
    var q: nat := y / p;
    assert y == q * p + (p - 1);
    var z := y % 0x80 * 2;
    assert z == 2 * y % 0x100 by {
      DivUnique(2 * y, 0x100, y / 0x80, z);
    }
    assert 2 * y == q * (2 * p) + (2 * p - 2);
    DivUnique(2 * y, 2 * p, q, 2 * p - 2);
    ModOfMod(2 * y, 2 * p, m);
    DivIsNat(z, 2 * p);
    var q2: nat := z / (2 * p);
    assert z == q2 * (2 * p) + (2 * p - 2);
    DivUnique(z + 1, 2 * p, q2, 2 * p - 1);
  }

  /** Eight shifts fill SB with the ones fed in: a completed transfer with
      nothing connected leaves SB = 0xFF whatever it held. */
  lemma EightShiftsGiveFF(sb: u8)
    ensures Shifted(sb, 8) == 0xFF
  {
    ShiftInKeepsOnes(Shifted(sb, 1), 2, 64);
    ShiftInKeepsOnes(Shifted(sb, 2), 4, 32);
    ShiftInKeepsOnes(Shifted(sb, 3), 8, 16);
    ShiftInKeepsOnes(Shifted(sb, 4), 16, 8);
    ShiftInKeepsOnes(Shifted(sb, 5), 32, 4);
    ShiftInKeepsOnes(Shifted(sb, 6), 64, 2);
    ShiftInKeepsOnes(Shifted(sb, 7), 128, 1);
  }

  /** While a transfer started with bit count 0 runs with steps of at least
      512 cycles, each step shifts one bit and none of the first seven
      reports the interrupt. */
  lemma {:induction false} InFlight(s: SerialState, t: u32, k: nat)
    requires Active(s) && s.shiftCount == 0 && s.timer == BitPeriod && t >= BitPeriod
    requires k <= 7
    ensures After(s, t, k) == s.(sb := Shifted(s.sb, k), shiftCount := k)
    ensures k >= 1 ==> !StepSerial(After(s, t, k - 1), t).1
  {
    if k > 0 {
      InFlight(s, t, k - 1);
      var x := After(s, t, k - 1);
      assert x.shiftCount == k - 1 && x.timer == BitPeriod && Active(x);
      var y := StepSerial(x, t).0;
      assert y == x.(sb := ShiftIn(x.sb), shiftCount := k, timer := BitPeriod);
    }
  }

  /** Starting a transfer (an SC write with bits 7 and 0 set) and stepping at
      least 512 cycles at a time: the eighth step reports the interrupt, SB
      then holds 0xFF, SC bit 7 is clear, and the byte sent was the SB value
      at the start. */
  lemma TransferCompletes(s: SerialState, v: u8, t: u32)
    requires v / 0x80 == 1 && v % 2 == 1 && t >= BitPeriod
    ensures var s0 := WriteSerial(s, 0xFF02, v);
      var r := StepSerial(After(s0, t, 7), t);
      r.1 && r.0.sb == 0xFF && !Active(r.0) && r.0.sc == v % 0x80 && r.0.currentChar == s.sb
  {
    var s0 := WriteSerial(s, 0xFF02, v);
    InFlight(s0, t, 7);
    EightShiftsGiveFF(s.sb);
  }

  /** With the bus's 4-cycle steps, a countdown of 4j cycles takes j - 1
      quiet steps; the j-th step shifts. */
  lemma {:induction false} Countdown(s: SerialState, j: nat)
    requires Active(s) && j >= 1 && s.timer == 4 * j
    ensures After(s, 4, j - 1) == s.(timer := 4)
    ensures StepSerial(After(s, 4, j - 1), 4).0.sb == ShiftIn(s.sb)
    decreases j
  {
    if j > 1 {
      var s' := s.(timer := 4 * (j - 1));
      assert StepSerial(s, 4).0 == s';
      Countdown(s', j - 1);
      AfterFirst(s, 4, j - 2);
    }
  }

  /** Stepping n + 1 times is one step followed by n. */
  lemma {:induction false} AfterFirst(s: SerialState, t: u32, n: nat)
    ensures After(s, t, n + 1) == After(StepSerial(s, t).0, t, n)
  {
    if n > 0 {
      AfterFirst(s, t, n - 1);
    }
  }

  /** Reading back: SB returns what was written, SC its bits 7 and 0. */
  lemma WriteThenRead(s: SerialState, v: u8)
    ensures ReadSerial(WriteSerial(s, 0xFF01, v), 0xFF01) == v
    ensures ReadSerial(WriteSerial(s, 0xFF02, v), 0xFF02) % 2 == v % 2
    ensures ReadSerial(WriteSerial(s, 0xFF02, v), 0xFF02) / 0x80 == v / 0x80
  {
  }

  // ------------------------------------------------------------- the object

  class Serial {
    var sb: u8
    var sc: u8
    var timer: u32
    var shiftCount: u8
    var currentChar: u8

    function State(): SerialState
      reads this
    {
      SerialState(sb, sc, timer, shiftCount, currentChar)
    }

    constructor ()
      ensures State() == Initial
    {
      sb, sc, timer, shiftCount, currentChar := 0, 0, 0, 0, 0;
    }

    function Read(addr: u16): (v: u8)
      requires addr == 0xFF01 || addr == 0xFF02
      reads this
      ensures v == ReadSerial(State(), addr)
    {
      if addr == 0xFF01 then sb else sc / 0x80 * 0x80 + 0x7E + sc % 2
    }

    method Write(addr: u16, value: u8)
      requires addr == 0xFF01 || addr == 0xFF02
      modifies this
      ensures State() == WriteSerial(old(State()), addr, value)
    {
      if addr == 0xFF01 {
        sb := value;
      } else {
        sc := value;
        if value / 0x80 == 1 && value % 2 == 1 {
          currentChar := sb;
          timer := BitPeriod;
          shiftCount := 0;
        }
      }
    }

    method Step(tCycles: u32) returns (done: bool)
      modifies this
      ensures (State(), done) == StepSerial(old(State()), tCycles)
    {
      if sc / 0x80 == 0 {
        return false;
      }
      timer := if timer >= tCycles then timer - tCycles else 0;
      if timer == 0 {
        sb := ShiftIn(sb);
        shiftCount := (shiftCount + 1) % 0x100;
        if shiftCount == 8 {
          sc := sc % 0x80;
          return true;
        } else {
          timer := BitPeriod;
        }
      }
      return false;
    }
  }
}

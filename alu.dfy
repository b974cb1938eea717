/** The value-level half of the instruction executor (src/cpu/executor.rs):
    what each arithmetic, logic, rotate and bit instruction computes from its
    operands and the current flags. `update_flags(z, n, h, c)` leaves a flag
    alone when it is passed `None`; `Update` below is that rule, and each
    instruction is written with it so the flags it keeps are visible. The
    Cpu class (cpu.dfy) applies these results to its registers and the bus. */
module Alu {
  import opened Bits
  import opened Registers
  import opened Instructions

  /** An 8-bit result and the flags after it. */
  datatype Out = Out(value: u8, flags: Flags)

  /** A 16-bit result and the flags after it. */
  datatype Out16 = Out16(value: u16, flags: Flags)

  /** `update_flags`: each `Some` replaces its flag, each `None` keeps it. */
  function Update(f: Flags, z: Option<bool>, n: Option<bool>, h: Option<bool>, c: Option<bool>): (g: Flags)
    ensures z.None? ==> g.zero == f.zero
    ensures n.None? ==> g.subtract == f.subtract
    ensures h.None? ==> g.halfCarry == f.halfCarry
    ensures c.None? ==> g.carry == f.carry
  {
    Flags(if z.Some? then z.value else f.zero,
          if n.Some? then n.value else f.subtract,
          if h.Some? then h.value else f.halfCarry,
          if c.Some? then c.value else f.carry)
  }

  /** The carry flag as the number 0 or 1. */
  function CarryIn(f: Flags): u8 { BoolBit(f.carry) }

  // ---------------------------------------------------------------- 8-bit ALU

  /** ADD: `overflowing_add`. C and the result are the 9-bit sum; H and the low
      nibble of the result are the 5-bit sum of the low nibbles. */
  function Add(a: u8, v: u8): (r: Out)
    ensures r.value + Weight(r.flags.carry, 0x100) == a + v
    ensures r.value % 0x10 + Weight(r.flags.halfCarry, 0x10) == a % 0x10 + v % 0x10
    ensures r.flags.zero == (r.value == 0) && !r.flags.subtract
  {
    var sum := a + v;
    var x := sum % 0x100;
    Out(x, Flags(x == 0, false, a % 0x10 + v % 0x10 > 0x0F, sum > 0xFF))
  }

  /** ADC: the sum computed in 16 bits with the old carry as a carry-in. */
  function Adc(a: u8, v: u8, f: Flags): (r: Out)
    ensures r.value + Weight(r.flags.carry, 0x100) == a + v + CarryIn(f)
    ensures r.value % 0x10 + Weight(r.flags.halfCarry, 0x10) == a % 0x10 + v % 0x10 + CarryIn(f)
    ensures r.flags.zero == (r.value == 0) && !r.flags.subtract
  {
    var c := CarryIn(f);
    var word := a + v + c;
    var byte := word % 0x100;
    var nibbles := a % 0x10 + v % 0x10 + c;
    NibbleOfSum(a, v, c);
    assert byte == if word > 0xFF then word - 0x100 else word;
    assert byte % 0x10 == if nibbles > 0x0F then nibbles - 0x10 else nibbles;
    Out(byte, Flags(byte == 0, false, nibbles > 0x0F, word > 0xFF))
  }

  /** The low nibble of a byte sum is the low nibble of the nibbles' sum. */
  lemma NibbleOfSum(a: u8, v: u8, c: nat)
    ensures (a + v + c) % 0x100 % 0x10 == (a % 0x10 + v % 0x10 + c) % 0x10
  {
    var word := a + v + c;
    var s := a % 0x10 + v % 0x10 + c;
    ModOfMod(word, 0x10, 0x10);
    DivIsNat(s, 0x10);
    assert word == (a / 0x10 + v / 0x10) * 0x10 + s;
    DivUnique(word, 0x10, a / 0x10 + v / 0x10 + s / 0x10, s % 0x10);
  }

  /** SUB: `overflowing_sub`. Adding the operand back to the result gives A,
      plus 0x100 exactly when C (the borrow) is set; the nibbles likewise with H. */
  function Sub(a: u8, v: u8): (r: Out)
    ensures r.value + v == a + Weight(r.flags.carry, 0x100)
    ensures r.value % 0x10 + v % 0x10 == a % 0x10 + Weight(r.flags.halfCarry, 0x10)
    ensures r.flags.zero == (a == v) && r.flags.subtract
  {
    var x := (a - v) % 0x100;
    Out(x, Flags(x == 0, true, a % 0x10 < v % 0x10, a < v))
  }

  /** SBC: the difference computed as an `i16` with the old carry as a
      borrow-in; `as u8` keeps its low byte and a negative word sets C. */
  function Sbc(a: u8, v: u8, f: Flags): (r: Out)
    ensures r.value + v + CarryIn(f) == a + Weight(r.flags.carry, 0x100)
    ensures r.value % 0x10 + v % 0x10 + CarryIn(f) == a % 0x10 + Weight(r.flags.halfCarry, 0x10)
    ensures r.flags.zero == (r.value == 0) && r.flags.subtract
  {
    var c := CarryIn(f);
    var word := a - v - c;
    var byte := word % 0x100;
    assert byte == if word < 0 then word + 0x100 else word;
    Out(byte, Flags(byte == 0, true, a % 0x10 - v % 0x10 - c < 0, word < 0))
  }

  /** AND: bitwise conjunction; H is always set, N and C cleared. */
  function And(a: u8, v: u8): (r: Out)
    ensures forall i :: Bit(r.value, i) == (Bit(a, i) && Bit(v, i))
    ensures r.flags == Flags(r.value == 0, false, true, false)
  {
    var x := And8(a, v);
    Out(x, Flags(x == 0, false, true, false))
  }

  /** XOR: bitwise exclusive or; N, H and C cleared. */
  function Xor(a: u8, v: u8): (r: Out)
    ensures forall i :: Bit(r.value, i) == (Bit(a, i) != Bit(v, i))
    ensures r.flags == Flags(r.value == 0, false, false, false)
  {
    var x := Xor8(a, v);
    Out(x, Flags(x == 0, false, false, false))
  }

  /** OR: bitwise disjunction; N, H and C cleared. */
  function Or(a: u8, v: u8): (r: Out)
    ensures forall i :: Bit(r.value, i) == (Bit(a, i) || Bit(v, i))
    ensures r.flags == Flags(r.value == 0, false, false, false)
  {
    var x := Or8(a, v);
    Out(x, Flags(x == 0, false, false, false))
  }

  /** CP: the flags of a subtraction whose result is thrown away. */
  function Cp(a: u8, v: u8): (r: Out)
    ensures r.value == a
    ensures r.flags.zero == (a == v) && r.flags.carry == (a < v) && r.flags.subtract
    ensures r.flags.halfCarry == (a % 0x10 < v % 0x10)
  {
    var x := (a - v) % 0x100;
    Out(a, Flags(x == 0, true, a % 0x10 < v % 0x10, a < v))
  }

  /** The eight ALU operations of opcodes 0x80-0xBF and 0xC6-0xFE. */
  datatype AluOp = AddOp | AdcOp | SubOp | SbcOp | AndOp | XorOp | OrOp | CpOp

  /** Bits 5-3 of the opcode select the operation: 0x80..=0x87 is ADD,
      0x88..=0x8F ADC, and so on up to 0xB8..=0xBF for CP. */
  function AluOpOf(bits: u8): (op: AluOp)
    requires bits < 8
    ensures AluOpBits(op) == bits
  {
    match bits
    case 0 => AddOp
    case 1 => AdcOp
    case 2 => SubOp
    case 3 => SbcOp
    case 4 => AndOp
    case 5 => XorOp
    case 6 => OrOp
    case _ => CpOp
  }

  function AluOpBits(op: AluOp): (bits: u8)
    ensures bits < 8
  {
    match op
    case AddOp => 0
    case AdcOp => 1
    case SubOp => 2
    case SbcOp => 3
    case AndOp => 4
    case XorOp => 5
    case OrOp => 6
    case CpOp => 7
  }

  /** The result of an ALU operation on A and an operand. */
  function RunAlu(op: AluOp, a: u8, v: u8, f: Flags): (r: Out)
    ensures op.CpOp? ==> r.value == a
  {
    match op
    case AddOp => Add(a, v)
    case AdcOp => Adc(a, v, f)
    case SubOp => Sub(a, v)
    case SbcOp => Sbc(a, v, f)
    case AndOp => And(a, v)
    case XorOp => Xor(a, v)
    case OrOp => Or(a, v)
    case CpOp => Cp(a, v)
  }

  /** INC r: `wrapping_add(1)`; H says the low nibble was 0xF; C is kept. */
  function Inc8(x: u8, f: Flags): (r: Out)
    ensures r.value == if x == 0xFF then 0 else x + 1
    ensures r.flags.halfCarry == (r.value % 0x10 == 0) && r.flags.carry == f.carry
    ensures r.flags.zero == (x == 0xFF) && !r.flags.subtract
  {
    var y := (x + 1) % 0x100;
    Out(y, Update(f, Some(y == 0), Some(false), Some(x % 0x10 == 0x0F), None))
  }

  /** DEC r: `wrapping_sub(1)`; H says the low nibble was 0; C is kept. */
  function Dec8(x: u8, f: Flags): (r: Out)
    ensures r.value == if x == 0 then 0xFF else x - 1
    ensures r.flags.halfCarry == (r.value % 0x10 == 0x0F) && r.flags.carry == f.carry
    ensures r.flags.zero == (x == 1) && r.flags.subtract
  {
    var y := (x - 1) % 0x100;
    Out(y, Update(f, Some(y == 0), Some(true), Some(x % 0x10 == 0x00), None))
  }

  /** DAA, with the adjustment rule the source uses: add (or, after a
      subtraction, take away) 0x06 when H is set or the low digit is over 9,
      and 0x60 (setting C) when C is set or A is over 0x99. */
  function Daa(a: u8, f: Flags): (r: Out)
    ensures r.flags.subtract == f.subtract && !r.flags.halfCarry
    ensures r.flags.carry == (f.carry || (!f.subtract && a > 0x99))
    ensures r.flags.zero == (r.value == 0)
  {
    var low := f.halfCarry || (!f.subtract && a % 0x10 > 0x09);
    var high := f.carry || (!f.subtract && a > 0x99);
    var adjust := (if low then 0x06 else 0x00) + (if high then 0x60 else 0x00);
    var x := if f.subtract then (a - adjust) % 0x100 else (a + adjust) % 0x100;
    Out(x, Update(f, Some(x == 0), None, Some(false), Some(high)))
  }

  /** SCF as written: `update_flags(None, Some(false), Some(false), Some(false))`
      CLEARS the carry it is named for setting. */
  function Scf(f: Flags): (g: Flags)
    ensures g.zero == f.zero && !g.subtract && !g.halfCarry && !g.carry
  {
    Update(f, None, Some(false), Some(false), Some(false))
  }

  /** SCF as the instruction is defined: C set, N and H cleared, Z kept. */
  function ScfIntended(f: Flags): (g: Flags)
    ensures g.zero == f.zero && !g.subtract && !g.halfCarry && g.carry
  {
    Update(f, None, Some(false), Some(false), Some(true))
  }

  /** CPL: every bit of A flipped (`!a`); N and H set. */
  function Cpl(a: u8, f: Flags): (r: Out)
    ensures forall i :: 0 <= i < 8 ==> Bit(r.value, i) != Bit(a, i)
    ensures r.flags == Flags(f.zero, true, true, f.carry)
  {
    Out(Not8(a), Update(f, None, Some(true), Some(true), None))
  }

  /** CCF: C flipped; N and H cleared. */
  function Ccf(f: Flags): (g: Flags)
    ensures g.carry != f.carry && g.zero == f.zero && !g.subtract && !g.halfCarry
  {
    Update(f, None, Some(false), Some(false), Some(!f.carry))
  }

  // --------------------------------------------------------------- 16-bit ALU

  /** ADD HL,rr: C and H are the carries out of bits 15 and 11; Z is kept. */
  function AddHl(hl: u16, v: u16, f: Flags): (r: Out16)
    ensures r.value + Weight(r.flags.carry, 0x1_0000) == hl + v
    ensures r.value % 0x1000 + Weight(r.flags.halfCarry, 0x1000) == hl % 0x1000 + v % 0x1000
    ensures r.flags.zero == f.zero && !r.flags.subtract
  {
    var sum := hl + v;
    Out16(sum % 0x1_0000, Update(f, None, Some(false), Some(hl % 0x1000 + v % 0x1000 > 0x0FFF), Some(sum > 0xFFFF)))
  }

  /** SP + e for ADD SP,e and LD HL,SP+e: `wrapping_add_signed(e as i16)`,
      which is adding the 16-bit sign extension of e with wrap-around. H and C
      are the carries of adding e UNSIGNED to the low byte of SP; Z and N clear. */
  function SpPlusOffset(sp: u16, e: u8): (r: Out16)
    ensures r.value == WrapAdd16(sp, SignExtend(e))
    ensures r.flags.halfCarry == (sp % 0x10 + e % 0x10 > 0x0F)
    ensures r.flags.carry == (sp % 0x100 + e > 0xFF)
    ensures !r.flags.zero && !r.flags.subtract
  {
    SignExtendAdds(sp, e);
    var half := sp % 0x10 + e % 0x10 > 0x0F;
    var carry := sp % 0x100 + e > 0xFF;
    Out16((sp + Signed(e)) % 0x1_0000, Flags(false, false, half, carry))
  }

  // ------------------------------------------------------ rotates and shifts
  // For a byte x, `x % 0x80` is bits 6-0, `x / 0x80` bit 7, `x / 2` bits 7-1
  // and `x % 2` bit 0.

  /** RLC: bits 6-0 move up one, bit 7 goes round to bit 0 and into C. */
  function Rlc(x: u8): (r: Out)
    ensures r.value / 2 == x % 0x80 && r.value % 2 == x / 0x80
    ensures r.flags == Flags(x == 0, false, false, x >= 0x80)
  {
    var b7 := x / 0x80;
    var y := (x * 2) % 0x100 + b7;
    Out(y, Flags(y == 0, false, false, b7 == 1))
  }

  /** RRC: bits 7-1 move down one, bit 0 goes round to bit 7 and into C. */
  function Rrc(x: u8): (r: Out)
    ensures r.value % 0x80 == x / 2 && r.value / 0x80 == x % 2
    ensures r.flags == Flags(x == 0, false, false, x % 2 == 1)
  {
    var b0 := x % 2;
    var y := x / 2 + b0 * 0x80;
    Out(y, Flags(y == 0, false, false, b0 == 1))
  }

  /** RL: a 9-bit rotation through C: the old C enters bit 0, bit 7 leaves into C. */
  function Rl(x: u8, f: Flags): (r: Out)
    ensures r.value / 2 == x % 0x80 && r.value % 2 == CarryIn(f)
    ensures r.flags == Flags(r.value == 0, false, false, x >= 0x80)
  {
    var b7 := x / 0x80;
    var y := (x * 2) % 0x100 + CarryIn(f);
    Out(y, Flags(y == 0, false, false, b7 == 1))
  }

  /** RR: a 9-bit rotation through C the other way. */
  function Rr(x: u8, f: Flags): (r: Out)
    ensures r.value % 0x80 == x / 2 && r.value / 0x80 == CarryIn(f)
    ensures r.flags == Flags(r.value == 0, false, false, x % 2 == 1)
  {
    var b0 := x % 2;
    var y := x / 2 + CarryIn(f) * 0x80;
    Out(y, Flags(y == 0, false, false, b0 == 1))
  }

  /** SLA: shift left, bit 7 into C, 0 into bit 0. */
  function Sla(x: u8): (r: Out)
    ensures r.value / 2 == x % 0x80 && r.value % 2 == 0
    ensures r.flags == Flags(x % 0x80 == 0, false, false, x >= 0x80)
  {
    var b7 := x / 0x80;
    var y := (x * 2) % 0x100;
    Out(y, Flags(y == 0, false, false, b7 == 1))
  }

  /** SRA: arithmetic shift right, bit 7 kept, bit 0 into C. */
  function Sra(x: u8): (r: Out)
    ensures r.value % 0x80 == x / 2 && r.value / 0x80 == x / 0x80
    ensures r.flags == Flags(x < 2, false, false, x % 2 == 1)
  {
    var b0 := x % 2;
    var b7 := x / 0x80;
    var y := x / 2 + b7 * 0x80;
    Out(y, Flags(y == 0, false, false, b0 == 1))
  }

  /** SWAP: the two nibbles exchanged; C cleared. */
  function Swap(x: u8): (r: Out)
    ensures r.value % 0x10 == x / 0x10 && r.value / 0x10 == x % 0x10
    ensures r.flags == Flags(x == 0, false, false, false)
  {
    var lo := x % 0x10;
    var hi := (x - x % 0x10) / 0x10;
    var y := lo * 0x10 + hi;
    Out(y, Flags(y == 0, false, false, false))
  }

  /** SRL: logical shift right, 0 into bit 7, bit 0 into C. */
  function Srl(x: u8): (r: Out)
    ensures r.value % 0x80 == x / 2 && r.value / 0x80 == 0
    ensures r.flags == Flags(x < 2, false, false, x % 2 == 1)
  {
    var b0 := x % 2;
    var y := x / 2;
    Out(y, Flags(y == 0, false, false, b0 == 1))
  }

  /** The CB-prefixed shift group 0x00-0x3F, selected by bits 5-3. */
  datatype ShiftOp = RlcOp | RrcOp | RlOp | RrOp | SlaOp | SraOp | SwapOp | SrlOp

  function ShiftOpOf(bits: u8): (op: ShiftOp)
    requires bits < 8
    ensures ShiftOpBits(op) == bits
  {
    match bits
    case 0 => RlcOp
    case 1 => RrcOp
    case 2 => RlOp
    case 3 => RrOp
    case 4 => SlaOp
    case 5 => SraOp
    case 6 => SwapOp
    case _ => SrlOp
  }

  function ShiftOpBits(op: ShiftOp): (bits: u8)
    ensures bits < 8
  {
    match op
    case RlcOp => 0
    case RrcOp => 1
    case RlOp => 2
    case RrOp => 3
    case SlaOp => 4
    case SraOp => 5
    case SwapOp => 6
    case SrlOp => 7
  }

  /** The result of a CB shift or rotate; each of them clears N and H. */
  function RunShift(op: ShiftOp, x: u8, f: Flags): (r: Out)
    ensures !r.flags.subtract && !r.flags.halfCarry
  {
    match op
    case RlcOp => Rlc(x)
    case RrcOp => Rrc(x)
    case RlOp => Rl(x, f)
    case RrOp => Rr(x, f)
    case SlaOp => Sla(x)
    case SraOp => Sra(x)
    case SwapOp => Swap(x)
    case SrlOp => Srl(x)
  }

  /** RLCA, RRCA, RLA and RRA run the CB form on A and then clear Z. */
  function AccumulatorForm(r: Out): (s: Out)
    ensures s.value == r.value && !s.flags.zero
    ensures s.flags.subtract == r.flags.subtract && s.flags.halfCarry == r.flags.halfCarry
    ensures s.flags.carry == r.flags.carry
  {
    Out(r.value, Update(r.flags, Some(false), None, None, None))
  }

  // ------------------------------------------------------------ bit opcodes

  /** BIT n: `(x >> n) & 1`; Z is the complement of bit n, N cleared, H set,
      C kept. */
  function BitTest(x: u8, n: nat, f: Flags): (g: Flags)
    requires n < 8
    ensures g.zero == !Bit(x, n) && !g.subtract && g.halfCarry && g.carry == f.carry
  {
    BitIsDivMod(x, n);
    var target := (x / Pow2(n)) % 2;
    Update(f, Some(target == 0), Some(false), Some(true), None)
  }

  // --------------------------------------------------- operand and condition

  /** `decode_bits_to_location`: the 3-bit register field of an opcode. The
      `unreachable!()` arm is excluded: every caller masks with 0b111. */
  function DecodeLocation(bits: u8): (loc: ByteLocation)
    requires bits < 8
    ensures LocationBits(loc) == bits
  {
    match bits
    case 0 => ByteLocation.B
    case 1 => ByteLocation.C
    case 2 => ByteLocation.D
    case 3 => ByteLocation.E
    case 4 => ByteLocation.H
    case 5 => ByteLocation.L
    case 6 => ByteLocation.IndHL
    case _ => ByteLocation.A
  }

  /** The register field that encodes a location (the opcode table's order). */
  function LocationBits(loc: ByteLocation): (bits: u8)
    ensures bits < 8
  {
    match loc
    case B => 0
    case C => 1
    case D => 2
    case E => 3
    case H => 4
    case L => 5
    case IndHL => 6
    case A => 7
  }

  /** `jump_condition_reached`. */
  function ConditionHolds(cond: JumpCondition, f: Flags): (taken: bool)
    ensures cond == Always ==> taken
    ensures cond == Zero || cond == NotZero ==> (taken <==> f.zero == (cond == Zero))
    ensures cond == Carry || cond == NoCarry ==> (taken <==> f.carry == (cond == Carry))
  {
    match cond
    case NotZero => !f.zero
    case Zero => f.zero
    case NoCarry => !f.carry
    case Carry => f.carry
    case Always => true
  }

  // ------------------------------------------------------------------ lemmas

  /** Each encoding round-trips in both directions. */
  lemma DecodingsAreBijections(loc: ByteLocation, op: AluOp, sop: ShiftOp)
    ensures DecodeLocation(LocationBits(loc)) == loc
    ensures AluOpOf(AluOpBits(op)) == op
    ensures ShiftOpOf(ShiftOpBits(sop)) == sop
  {
  }

  /** The paired conditions are complements, and `Always` always holds. */
  lemma ConditionsComplement(f: Flags)
    ensures ConditionHolds(NotZero, f) != ConditionHolds(Zero, f)
    ensures ConditionHolds(NoCarry, f) != ConditionHolds(Carry, f)
    ensures ConditionHolds(Always, f)
  {
  }

  /** SUB undoes ADD, and SUB borrows exactly when ADD carried. */
  lemma SubUndoesAdd(a: u8, v: u8)
    ensures Sub(Add(a, v).value, v).value == a
    ensures Sub(Add(a, v).value, v).flags.carry == Add(a, v).flags.carry
    ensures Sub(Add(a, v).value, v).flags.halfCarry == Add(a, v).flags.halfCarry
  {
  }

  /** With C clear, ADC is ADD and SBC is SUB. */
  lemma CarryFreeFormsAgree(a: u8, v: u8, f: Flags)
    requires !f.carry
    ensures Adc(a, v, f) == Add(a, v)
    ensures Sbc(a, v, f) == Sub(a, v)
  {
  }

  /** CP sets exactly the flags SUB would, and leaves A alone. */
  lemma CpIsSubWithoutStore(a: u8, v: u8)
    ensures Cp(a, v).flags == Sub(a, v).flags
    ensures Cp(a, v).value == a
  {
  }

  /** XOR A clears A and sets Z; OR A and AND A keep A. */
  lemma SelfOperations(a: u8)
    ensures Xor(a, a) == Out(0, Flags(true, false, false, false))
    ensures Or(a, a).value == a && And(a, a).value == a
  {
    BitsDetermine(Xor(a, a).value, 0, 8);
    BitsDetermine(Or(a, a).value, a, 8);
    BitsDetermine(And(a, a).value, a, 8);
  }

  /** DEC undoes INC and INC undoes DEC. */
  lemma DecUndoesInc(x: u8, f: Flags)
    ensures Dec8(Inc8(x, f).value, f).value == x
    ensures Inc8(Dec8(x, f).value, f).value == x
  {
  }

  /** RRC undoes RLC and RLC undoes RRC. */
  lemma CircularRotationsInverse(x: u8)
    ensures Rrc(Rlc(x).value).value == x
    ensures Rlc(Rrc(x).value).value == x
  {
  }

  /** RR undoes RL, giving back the old carry too, and RL undoes RR. */
  lemma RotationsThroughCarryInverse(x: u8, f: Flags)
    ensures Rr(Rl(x, f).value, Rl(x, f).flags).value == x
    ensures Rr(Rl(x, f).value, Rl(x, f).flags).flags.carry == f.carry
    ensures Rl(Rr(x, f).value, Rr(x, f).flags).value == x
    ensures Rl(Rr(x, f).value, Rr(x, f).flags).flags.carry == f.carry
  {
  }

  /** SWAP is an involution; SRL after SLA loses only bit 7. */
  lemma SwapInvolutionAndShifts(x: u8)
    ensures Swap(Swap(x).value).value == x
    ensures Srl(Sla(x).value).value == x % 0x80
  {
  }

  /** CPL and CCF are involutions. */
  lemma ComplementsInvolutive(a: u8, f: Flags)
    ensures Cpl(Cpl(a, f).value, f).value == a
    ensures Ccf(Ccf(f)).carry == f.carry
  {
    BitsDetermine(Cpl(Cpl(a, f).value, f).value, a, 8);
  }

  /** BIT after SET reports the bit set, after RES reports it clear. */
  lemma BitAfterSetAndRes(x: u8, n: nat, f: Flags)
    requires n < 8
    ensures !BitTest(SetBit(x, n), n, f).zero
    ensures BitTest(ResBit(x, n), n, f).zero
  {
  }

  /** SET and RES of the same bit undo each other when the bit was already in
      the state they undo to. */
  lemma SetResRoundTrip(x: u8, n: nat)
    requires n < 8
    ensures !Bit(x, n) ==> ResBit(SetBit(x, n), n) == x
    ensures Bit(x, n) ==> SetBit(ResBit(x, n), n) == x
  {
    if !Bit(x, n) {
      BitsDetermine(ResBit(SetBit(x, n), n), x, 8);
    } else {
      BitsDetermine(SetBit(ResBit(x, n), n), x, 8);
    }
  }

  /** ADD SP,e and LD HL,SP+e set H and C as an 8-bit ADD of e to the low
      byte of SP, and the low byte of the result is that sum. */
  lemma SpOffsetIsLowByteAdd(sp: u16, e: u8)
    ensures SpPlusOffset(sp, e).flags.carry == Add(Lo(sp), e).flags.carry
    ensures SpPlusOffset(sp, e).flags.halfCarry == Add(Lo(sp), e).flags.halfCarry
    ensures Lo(SpPlusOffset(sp, e).value) == Add(Lo(sp), e).value
  {
    WordParts(sp);
    LowByteOfSum(sp, SignExtend(e));
  }

  /** ADD HL,rr sets C and H as an ADC of the high bytes after an ADD of the
      low ones (the 16-bit add done as two 8-bit ones). */
  lemma AddHlIsAddThenAdc(hl: u16, v: u16, f: Flags)
    ensures AddHl(hl, v, f).flags.carry == Adc(Hi(hl), Hi(v), Add(Lo(hl), Lo(v)).flags).flags.carry
    ensures AddHl(hl, v, f).flags.halfCarry == Adc(Hi(hl), Hi(v), Add(Lo(hl), Lo(v)).flags).flags.halfCarry
  {
    WordParts(hl);
    WordParts(v);
    Word12(hl);
    Word12(v);
  }

  /** The SCF as written leaves C clear whatever the flags were, so `SCF`
      followed by a carry-conditional jump never takes it; the intended SCF
      makes that jump always taken. */
  lemma ScfClearsCarry(f: Flags)
    ensures !ConditionHolds(Carry, Scf(f))
    ensures ConditionHolds(Carry, ScfIntended(f))
  {
  }

  // -------------------------------------------------------------- BCD (DAA)

  /** Both nibbles of a packed BCD byte are decimal digits. */
  predicate IsBcd(x: u8) { x % 0x10 <= 9 && x / 0x10 <= 9 }

  /** The number 0-99 a packed BCD byte stands for. */
  function Decimal(x: u8): nat { x / 0x10 * 10 + x % 0x10 }

  /** The byte with decimal digits `hi` and `lo`. */
  lemma BcdDigits(hi: nat, lo: nat)
    requires hi <= 9 && lo <= 9
    ensures IsBcd(hi * 0x10 + lo) && Decimal(hi * 0x10 + lo) == hi * 10 + lo
  {
    DivUnique(hi * 0x10 + lo, 0x10, hi, lo);
  }

  // DAA after ADD of two BCD bytes, by the digit sums t (tens) and l (ones):
  // the byte ADD leaves, with its H and C, is first pinned down, then DAA's
  // adjustment. One lemma per case keeps each proof small.

  /** After an addition, DAA with neither H nor C and both digits decimal
      leaves A alone. */
  lemma DaaKeeps(x: u8, f: Flags)
    requires !f.subtract && !f.halfCarry && !f.carry && x % 0x10 <= 9 && x <= 0x99
    ensures Daa(x, f).value == x && !Daa(x, f).flags.carry
  {
  }

  /** After an addition, a low digit over 9 (or H) alone adds 0x06. */
  lemma DaaAddsSix(x: u8, f: Flags)
    requires !f.subtract && (f.halfCarry || x % 0x10 > 9) && !f.carry && x <= 0x99
    ensures Daa(x, f).value == x + 6 && !Daa(x, f).flags.carry
  {
  }

  /** After an addition, A over 0x99 (or C) alone adds 0x60 and sets C. */
  lemma DaaAddsSixty(x: u8, f: Flags)
    requires !f.subtract && !f.halfCarry && x % 0x10 <= 9 && (f.carry || x > 0x99)
    ensures Daa(x, f).value == (x + 0x60) % 0x100 && Daa(x, f).flags.carry
  {
  }

  /** After an addition, both conditions add 0x66 and set C. */
  lemma DaaAddsBoth(x: u8, f: Flags)
    requires !f.subtract && (f.halfCarry || x % 0x10 > 9) && (f.carry || x > 0x99)
    ensures Daa(x, f).value == (x + 0x66) % 0x100 && Daa(x, f).flags.carry
  {
  }

  /** Ones digit sum at most 9: no low adjustment. */
  lemma DaaAddOnesNoCarry(a: u8, b: u8, t: nat, l: nat)
    requires IsBcd(a) && IsBcd(b)
    requires t == a / 0x10 + b / 0x10 && l == a % 0x10 + b % 0x10 && l <= 9
    ensures var r := Daa(Add(a, b).value, Add(a, b).flags);
      if t <= 9 then r.value == t * 0x10 + l && !r.flags.carry
      else r.value == (t - 10) * 0x10 + l && r.flags.carry
  {
    var sum := a + b;
    assert sum == t * 0x10 + l;
    var s := Add(a, b);
    if t < 16 {
      DivUnique(sum, 0x10, t, l);
      assert s.value == sum && !s.flags.carry && !s.flags.halfCarry;
      if t <= 9 { DaaKeeps(sum, s.flags); } else { DaaAddsSixty(sum, s.flags); }
    } else {
      DivUnique(sum - 0x100, 0x10, t - 16, l);
      assert s.value == sum - 0x100 && s.flags.carry && !s.flags.halfCarry;
      DaaAddsSixty(sum - 0x100, s.flags);
    }
  }

  /** Ones digit sum 10 to 15: the nibble holds it and DAA adds 6. */
  lemma DaaAddOnesOverNine(a: u8, b: u8, t: nat, l: nat)
    requires IsBcd(a) && IsBcd(b)
    requires t == a / 0x10 + b / 0x10 && l == a % 0x10 + b % 0x10 && 10 <= l <= 15
    ensures var r := Daa(Add(a, b).value, Add(a, b).flags);
      if t <= 8 then r.value == (t + 1) * 0x10 + (l - 10) && !r.flags.carry
      else r.value == (t - 9) * 0x10 + (l - 10) && r.flags.carry
  {
    var sum := a + b;
    assert sum == t * 0x10 + l;
    var s := Add(a, b);
    if t < 16 {
      DivUnique(sum, 0x10, t, l);
      assert s.value == sum && !s.flags.carry && !s.flags.halfCarry;
      if t <= 8 { DaaAddsSix(sum, s.flags); } else { DaaAddsBoth(sum, s.flags); }
    } else {
      DivUnique(sum - 0x100, 0x10, t - 16, l);
      assert s.value == sum - 0x100 && s.flags.carry && !s.flags.halfCarry;
      DaaAddsBoth(sum - 0x100, s.flags);
    }
  }

  /** Ones digit sum 16 to 18: the nibble carried out (H set) and DAA adds 6. */
  lemma DaaAddOnesHalfCarry(a: u8, b: u8, t: nat, l: nat)
    requires IsBcd(a) && IsBcd(b)
    requires t == a / 0x10 + b / 0x10 && l == a % 0x10 + b % 0x10 && 16 <= l
    ensures var r := Daa(Add(a, b).value, Add(a, b).flags);
      if t <= 8 then r.value == (t + 1) * 0x10 + (l - 10) && !r.flags.carry
      else r.value == (t - 9) * 0x10 + (l - 10) && r.flags.carry
  {
    var sum := a + b;
    assert sum == (t + 1) * 0x10 + (l - 16);
    var s := Add(a, b);
    if t < 15 {
      DivUnique(sum, 0x10, t + 1, l - 16);
      assert s.value == sum && !s.flags.carry && s.flags.halfCarry;
      if t <= 8 { DaaAddsSix(sum, s.flags); } else { DaaAddsBoth(sum, s.flags); }
    } else {
      DivUnique(sum - 0x100, 0x10, t - 15, l - 16);
      assert s.value == sum - 0x100 && s.flags.carry && s.flags.halfCarry;
      DaaAddsBoth(sum - 0x100, s.flags);
    }
  }

  /** ADD of two BCD bytes followed by DAA yields their decimal sum: a BCD
      byte holding the last two digits in A and the hundred in C. */
  lemma DaaAfterAdd(a: u8, b: u8)
    requires IsBcd(a) && IsBcd(b)
    ensures IsBcd(Daa(Add(a, b).value, Add(a, b).flags).value)
    ensures Decimal(Daa(Add(a, b).value, Add(a, b).flags).value)
      + Weight(Daa(Add(a, b).value, Add(a, b).flags).flags.carry, 100) == Decimal(a) + Decimal(b)
  {
    var t, l := a / 0x10 + b / 0x10, a % 0x10 + b % 0x10;
    if l <= 9 {
      DaaAddOnesNoCarry(a, b, t, l);
      if t <= 9 { BcdDigits(t, l); } else { BcdDigits(t - 10, l); }
    } else {
      if l <= 15 { DaaAddOnesOverNine(a, b, t, l); } else { DaaAddOnesHalfCarry(a, b, t, l); }
      if t <= 8 { BcdDigits(t + 1, l - 10); } else { BcdDigits(t - 9, l - 10); }
    }
  }

  // DAA after SUB of two BCD bytes, by the digit differences t (tens) and
  // l (ones), one lemma for each sign of l.

  /** No borrow from the ones digit: no low adjustment. */
  lemma DaaSubOnesNoBorrow(a: u8, b: u8, t: int, l: int)
    requires IsBcd(a) && IsBcd(b)
    requires t == a / 0x10 - b / 0x10 && l == a % 0x10 - b % 0x10 && l >= 0
    ensures var r := Daa(Sub(a, b).value, Sub(a, b).flags);
      if t >= 0 then r.value == t * 0x10 + l && !r.flags.carry
      else r.value == (t + 10) * 0x10 + l && r.flags.carry
  {
    assert a - b == t * 0x10 + l;
  }

  /** A borrow from the ones digit (H set): DAA takes away 6. */
  lemma DaaSubOnesBorrow(a: u8, b: u8, t: int, l: int)
    requires IsBcd(a) && IsBcd(b)
    requires t == a / 0x10 - b / 0x10 && l == a % 0x10 - b % 0x10 && l < 0
    ensures var r := Daa(Sub(a, b).value, Sub(a, b).flags);
      if t > 0 then r.value == (t - 1) * 0x10 + (l + 10) && !r.flags.carry
      else r.value == (t + 9) * 0x10 + (l + 10) && r.flags.carry
  {
    assert a - b == t * 0x10 + l;
  }

  /** SUB of two BCD bytes followed by DAA yields their decimal difference:
      a BCD byte in A, and C set when a hundred was borrowed. */
  lemma DaaAfterSub(a: u8, b: u8)
    requires IsBcd(a) && IsBcd(b)
    ensures IsBcd(Daa(Sub(a, b).value, Sub(a, b).flags).value)
    ensures Decimal(Daa(Sub(a, b).value, Sub(a, b).flags).value)
      == Decimal(a) - Decimal(b) + Weight(Daa(Sub(a, b).value, Sub(a, b).flags).flags.carry, 100)
  {
    var t, l := a / 0x10 - b / 0x10, a % 0x10 - b % 0x10;
    if l >= 0 {
      DaaSubOnesNoBorrow(a, b, t, l);
      if t >= 0 { BcdDigits(t, l); } else { BcdDigits(t + 10, l); }
    } else {
      DaaSubOnesBorrow(a, b, t, l);
      if t > 0 { BcdDigits(t - 1, l + 10); } else { BcdDigits(t + 9, l + 10); }
    }
  }
}

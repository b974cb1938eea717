/** The opcode table of `Cpu::step` (src/cpu/mod.rs:93-409) as a pure
    function: which instruction each of the 256 opcodes selects, with the
    operand fields the match arms extract. The arms are tried in source order,
    so HALT (0x76) wins over the LD r,r' range it sits in. The CB-prefixed
    table is `DecodeCb`. Executing an instruction is the Cpu class's job. */
module Decoder {
  import opened Bits
  import opened Instructions
  import opened Alu

  /** One arm (or family of arms) of the opcode match. */
  datatype Instr =
    | Nop
    | Stop
    | Halt
    | DisableInterrupts
    | EnableInterrupts
    | Load(dest: ByteDest, src: ByteSource)     // LD without operand bytes
    | LoadImmediate(dest: ByteDest)              // LD r,n and LD (HL),n
    | StoreHigh                                  // LDH (n),A
    | LoadHigh                                   // LDH A,(n)
    | StoreAbsolute                              // LD (nn),A
    | LoadAbsolute                               // LD A,(nn)
    | LoadWordImmediate(wdest: WordDest)         // LD rr,nn
    | LoadSpHl                                   // LD SP,HL
    | StoreSp                                    // LD (nn),SP
    | LoadHlSpOffset                             // LD HL,SP+e
    | Push(wsrc: WordSource)
    | Pop(wdest: WordDest)
    | IncByte(loc: ByteLocation)
    | DecByte(loc: ByteLocation)
    | Arith(op: AluOp, loc: ByteLocation)        // 0x80-0xBF
    | ArithImmediate(op: AluOp)                  // 0xC6, 0xCE, ..., 0xFE
    | DecimalAdjust
    | SetCarry
    | Complement
    | FlipCarry
    | IncWord(wloc: WordLocation)
    | DecWord(wloc: WordLocation)
    | AddHlWord(wsrc: WordSource)
    | AddSpOffset
    | JumpRelative(cond: JumpCondition)
    | Jump(cond: JumpCondition)
    | JumpHl
    | Call(cond: JumpCondition)
    | Return(cond: JumpCondition)
    | ReturnEnable                               // RETI
    | Restart(target: u16)                       // RST
    | Prefixed                                   // 0xCB: a second opcode byte follows
    | RotateA(sop: ShiftOp)                      // RLCA, RRCA, RLA, RRA

  /** The opcodes with no arm but the panicking one. */
  const IllegalOpcodes: set<u8> := {0xD3, 0xE3, 0xE4, 0xF4, 0xDB, 0xEB, 0xEC, 0xFC, 0xDD, 0xED, 0xFD}

  /** Bits 5-3 of an opcode: `(opcode >> 3) & 0b111`. */
  function Mid(op: u8): (bits: u8)
    ensures bits < 8
  {
    op / 8 % 8
  }

  /** Bits 2-0 of an opcode: `opcode & 0b111`. */
  function Low(op: u8): (bits: u8)
    ensures bits < 8
  {
    op % 8
  }

  /** The pair a PUSH or POP at 0xC1 + 0x10*k names: BC, DE, HL, AF. */
  function StackPair(k: u8): WordSource
    requires k < 4
  {
    match k
    case 0 => WordSource.BC
    case 1 => WordSource.DE
    case 2 => WordSource.HL
    case _ => WordSource.AF
  }

  /** The pair destination with the same name as a stack pair. */
  function StackPairDest(k: u8): WordDest
    requires k < 4
  {
    match k
    case 0 => WordDest.BC
    case 1 => WordDest.DE
    case 2 => WordDest.HL
    case _ => WordDest.AF
  }

  /** The pair INC16, DEC16 and LD rr,nn at 0x?3, 0x?B and 0x?1 name. */
  function WordPair(k: u8): WordLocation
    requires k < 4
  {
    match k
    case 0 => WordLocation.BC
    case 1 => WordLocation.DE
    case 2 => WordLocation.HL
    case _ => WordLocation.SP
  }

  /** The condition of the JR/JP/CALL/RET arms: bits 4-3 for the
      conditional forms (NZ, Z, NC, C). */
  function CondOf(k: u8): JumpCondition
    requires k < 4
  {
    match k
    case 0 => NotZero
    case 1 => Zero
    case 2 => NoCarry
    case _ => Carry
  }

  /** The control-flow block 0xC0-0xFF, except RST, the ALU immediates and the
      illegal opcodes, which `Decode` handles before calling this. */
  function DecodeHigh(op: u8): Option<Instr>
    requires op >= 0xC0 && op % 8 != 7 && op % 8 != 6
  {
    var k := Mid(op) % 4;
    if op == 0xC9 then Some(Return(Always))
    else if op == 0xD9 then Some(ReturnEnable)
    else if op == 0xC3 then Some(Jump(Always))
    else if op == 0xCD then Some(Call(Always))
    else if op == 0xCB then Some(Prefixed)
    else if op == 0xE9 then Some(JumpHl)
    else if op == 0xE0 then Some(StoreHigh)
    else if op == 0xF0 then Some(LoadHigh)
    else if op == 0xE2 then Some(Load(ByteDest.FF00PlusC, ByteSource.A))
    else if op == 0xF2 then Some(Load(ByteDest.A, ByteSource.FF00PlusC))
    else if op == 0xEA then Some(StoreAbsolute)
    else if op == 0xFA then Some(LoadAbsolute)
    else if op == 0xE8 then Some(AddSpOffset)
    else if op == 0xF8 then Some(LoadHlSpOffset)
    else if op == 0xF9 then Some(LoadSpHl)
    else if op == 0xF3 then Some(DisableInterrupts)
    else if op == 0xFB then Some(EnableInterrupts)
    else if op in IllegalOpcodes then None
    else if op % 16 == 5 then Some(Push(StackPair(Mid(op) / 2 % 4)))
    else if op % 16 == 1 then Some(Pop(StackPairDest(Mid(op) / 2 % 4)))
    // What is left is RET cc, JP cc and CALL cc in 0xC0-0xDF.
    else if op % 8 == 0 then Some(Return(CondOf(k)))
    else if op % 8 == 2 then Some(Jump(CondOf(k)))
    else Some(Call(CondOf(k)))
  }

  /** The block 0x00-0x3F: loads of immediates and through BC/DE/HL±, 16-bit
      arithmetic, INC/DEC r, the accumulator rotates, JR and the one-byte
      flag instructions. */
  function DecodeLow(op: u8): Instr
    requires op < 0x40
  {
    var k := Mid(op) / 2;
    if op == 0x00 then Nop
    else if op == 0x10 then Stop
    else if op == 0x08 then StoreSp
    else if op == 0x18 then JumpRelative(Always)
    else if op == 0x27 then DecimalAdjust
    else if op == 0x37 then SetCarry
    else if op == 0x2F then Complement
    else if op == 0x3F then FlipCarry
    else if op == 0x02 then Load(ByteDest.IndBC, ByteSource.A)
    else if op == 0x12 then Load(ByteDest.IndDE, ByteSource.A)
    else if op == 0x22 then Load(ByteDest.IndHLI, ByteSource.A)
    else if op == 0x32 then Load(ByteDest.IndHLD, ByteSource.A)
    else if op == 0x0A then Load(ByteDest.A, ByteSource.IndBC)
    else if op == 0x1A then Load(ByteDest.A, ByteSource.IndDE)
    else if op == 0x2A then Load(ByteDest.A, ByteSource.IndHLI)
    else if op == 0x3A then Load(ByteDest.A, ByteSource.IndHLD)
    else if op % 8 == 0 then JumpRelative(CondOf(Mid(op) - 4))
    else if op % 16 == 1 then LoadWordImmediate(WordLocationDest(WordPair(k)))
    else if op % 16 == 3 then IncWord(WordPair(k))
    else if op % 16 == 9 then AddHlWord(WordLocationSource(WordPair(k)))
    else if op % 16 == 0x0B then DecWord(WordPair(k))
    else if op % 8 == 4 then IncByte(DecodeLocation(Mid(op)))
    else if op % 8 == 5 then DecByte(DecodeLocation(Mid(op)))
    else if op % 8 == 6 then LoadImmediate(LocationDest(DecodeLocation(Mid(op))))
    else RotateA(ShiftOpOf(Mid(op)))
  }

  /** The opcode match of `step`: `None` for the eleven opcodes that panic. */
  function Decode(op: u8): (i: Option<Instr>)
    ensures i.None? <==> op in IllegalOpcodes
  {
    if op < 0x40 then Some(DecodeLow(op))
    else if op == 0x76 then Some(Halt)
    else if op < 0x80 then Some(Load(LocationDest(DecodeLocation(Mid(op))), LocationSource(DecodeLocation(Low(op)))))
    else if op < 0xC0 then Some(Arith(AluOpOf(Mid(op)), DecodeLocation(Low(op))))
    else if op % 8 == 7 then Some(Restart(op - 0xC7))
    else if op % 8 == 6 then Some(ArithImmediate(AluOpOf(Mid(op))))
    else DecodeHigh(op)
  }

  /** The second byte of a CB-prefixed instruction. */
  datatype CbInstr =
    | Shift(sop: ShiftOp, loc: ByteLocation)
    | TestBit(n: nat, loc: ByteLocation)
    | ResetBit(n: nat, loc: ByteLocation)
    | SetBitTo(n: nat, loc: ByteLocation)

  /** The CB match: the location from bits 2-0, the bit index (or the shift)
      from bits 5-3, the group from bits 7-6. */
  function DecodeCb(cb: u8): (i: CbInstr)
    ensures i.loc == DecodeLocation(Low(cb))
    ensures !i.Shift? ==> i.n == Mid(cb) as nat
  {
    var loc := DecodeLocation(Low(cb));
    if cb < 0x40 then Shift(ShiftOpOf(Mid(cb)), loc)
    else if cb < 0x80 then TestBit(Mid(cb), loc)
    else if cb < 0xC0 then ResetBit(Mid(cb), loc)
    else SetBitTo(Mid(cb), loc)
  }

  // ------------------------------------------------------------ encodings

  /** The opcode of LD d,s in 0x40-0x7F: bits 5-3 the destination, 2-0 the source. */
  function LoadOpcode(d: ByteLocation, s: ByteLocation): (op: u8)
    ensures 0x40 <= op < 0x80
  {
    0x40 + 8 * LocationBits(d) + LocationBits(s)
  }

  lemma FieldsOf(op: u8, hi: u8, lo: u8)
    requires hi < 8 && lo < 8 && op % 0x40 == 8 * hi + lo
    ensures Mid(op) == hi && Low(op) == lo
  {
    DivIsNat(op, 0x40);
    var q: nat := op / 0x40;
    assert op == (8 * q + hi) * 8 + lo;
    DivUnique(op, 8, 8 * q + hi, lo);
    DivUnique(8 * q + hi, 8, q, hi);
  }

  /** The LD r,r' block decodes bits 5-3 as the destination and bits 2-0 as
      the source, for every pair except (HL),(HL), whose opcode 0x76 is HALT. */
  lemma LoadFields(d: ByteLocation, s: ByteLocation)
    ensures d == ByteLocation.IndHL && s == ByteLocation.IndHL ==> LoadOpcode(d, s) == 0x76
    ensures LoadOpcode(d, s) == 0x76 ==> Decode(0x76) == Some(Halt)
    ensures !(d == ByteLocation.IndHL && s == ByteLocation.IndHL) ==>
      Decode(LoadOpcode(d, s)) == Some(Load(LocationDest(d), LocationSource(s)))
  {
    var op := LoadOpcode(d, s);
    FieldsOf(op, LocationBits(d), LocationBits(s));
    DecodingsAreBijections(d, AddOp, RlcOp);
    DecodingsAreBijections(s, AddOp, RlcOp);
  }

  /** Every opcode of 0x40-0x7F but 0x76 is an LD between the locations its
      two fields name, and the fields are recovered from the decoded operands. */
  lemma LoadBlockDecodes(op: u8)
    requires 0x40 <= op < 0x80 && op != 0x76
    ensures Decode(op).Some? && Decode(op).value.Load?
    ensures DestLocation(Decode(op).value.dest) == Some(DecodeLocation(Mid(op)))
    ensures SourceLocation(Decode(op).value.src) == Some(DecodeLocation(Low(op)))
    ensures LoadOpcode(DecodeLocation(Mid(op)), DecodeLocation(Low(op))) == op
  {
    FieldsOf(op, Mid(op), Low(op));
  }

  /** ALU block: 0x80 + 8*op + loc runs `op` on A and `loc`; the immediate
      form 0xC6 + 8*op runs it on the next byte. */
  lemma ArithEncoding(op: AluOp, loc: ByteLocation)
    ensures Decode(0x80 + 8 * AluOpBits(op) + LocationBits(loc)) == Some(Arith(op, loc))
    ensures Decode(0xC6 + 8 * AluOpBits(op)) == Some(ArithImmediate(op))
  {
    FieldsOf(0x80 + 8 * AluOpBits(op) + LocationBits(loc), AluOpBits(op), LocationBits(loc));
    FieldsOf(0xC6 + 8 * AluOpBits(op), AluOpBits(op), 6);
    DecodingsAreBijections(loc, op, RlcOp);
  }

  /** RST opcodes are 0xC7 + 8*k and jump to `opcode & 0x38` = 8*k. */
  lemma RestartTargets(op: u8)
    requires op >= 0xC0 && op % 8 == 7
    ensures Decode(op) == Some(Restart(8 * Mid(op)))
    ensures Decode(op).value.target < 0x40 && Decode(op).value.target % 8 == 0
  {
    FieldsOf(op, Mid(op), 7);
  }

  /** CB shift group: 8*op + loc applies shift `op` to `loc`. */
  lemma CbShiftEncoding(sop: ShiftOp, loc: ByteLocation)
    ensures DecodeCb(8 * ShiftOpBits(sop) + LocationBits(loc)) == Shift(sop, loc)
  {
    DecodingsAreBijections(loc, AddOp, sop);
    FieldsOf(8 * ShiftOpBits(sop) + LocationBits(loc), ShiftOpBits(sop), LocationBits(loc));
  }

  /** CB bit groups: BIT, RES and SET n are 0x40, 0x80 and 0xC0 plus 8*n + loc. */
  lemma CbBitEncoding(n: nat, loc: ByteLocation)
    requires n < 8
    ensures DecodeCb(0x40 + 8 * n + LocationBits(loc)) == TestBit(n, loc)
    ensures DecodeCb(0x80 + 8 * n + LocationBits(loc)) == ResetBit(n, loc)
    ensures DecodeCb(0xC0 + 8 * n + LocationBits(loc)) == SetBitTo(n, loc)
  {
    DecodingsAreBijections(loc, AddOp, RlcOp);
    FieldsOf(0x40 + 8 * n + LocationBits(loc), n, LocationBits(loc));
    FieldsOf(0x80 + 8 * n + LocationBits(loc), n, LocationBits(loc));
    FieldsOf(0xC0 + 8 * n + LocationBits(loc), n, LocationBits(loc));
  }

  /** PUSH at 0xC5 + 0x10*k names BC, DE, HL, AF. */
  lemma PushEncoding(k: u8)
    requires k < 4
    ensures Decode(0xC5 + 0x10 * k) == Some(Push(StackPair(k)))
  {
    if k == 0 {
      assert Decode(0xC5) == Some(Push(StackPair(0)));
    } else if k == 1 {
      assert Decode(0xD5) == Some(Push(StackPair(1)));
    } else if k == 2 {
      assert Decode(0xE5) == Some(Push(StackPair(2)));
    } else {
      assert k == 3;
      assert Decode(0xF5) == Some(Push(StackPair(3)));
    }
  }

  /** POP at 0xC1 + 0x10*k names BC, DE, HL, AF. */
  lemma PopEncoding(k: u8)
    requires k < 4
    ensures Decode(0xC1 + 0x10 * k) == Some(Pop(StackPairDest(k)))
  {
    if k == 0 {
      assert Decode(0xC1) == Some(Pop(StackPairDest(0)));
    } else if k == 1 {
      assert Decode(0xD1) == Some(Pop(StackPairDest(1)));
    } else if k == 2 {
      assert Decode(0xE1) == Some(Pop(StackPairDest(2)));
    } else {
      assert k == 3;
      assert Decode(0xF1) == Some(Pop(StackPairDest(3)));
    }
  }

  /** INC rr at 0x03 + 0x10*k names BC, DE, HL, SP. */
  lemma IncWordEncoding(k: u8)
    requires k < 4
    ensures Decode(0x03 + 0x10 * k) == Some(IncWord(WordPair(k)))
  {
    if k == 0 {
      assert Decode(0x03) == Some(IncWord(WordPair(0)));
    } else if k == 1 {
      assert Decode(0x13) == Some(IncWord(WordPair(1)));
    } else if k == 2 {
      assert Decode(0x23) == Some(IncWord(WordPair(2)));
    } else {
      assert k == 3;
      assert Decode(0x33) == Some(IncWord(WordPair(3)));
    }
  }

  /** DEC rr at 0x0B + 0x10*k names BC, DE, HL, SP. */
  lemma DecWordEncoding(k: u8)
    requires k < 4
    ensures Decode(0x0B + 0x10 * k) == Some(DecWord(WordPair(k)))
  {
    if k == 0 {
      assert Decode(0x0B) == Some(DecWord(WordPair(0)));
    } else if k == 1 {
      assert Decode(0x1B) == Some(DecWord(WordPair(1)));
    } else if k == 2 {
      assert Decode(0x2B) == Some(DecWord(WordPair(2)));
    } else {
      assert k == 3;
      assert Decode(0x3B) == Some(DecWord(WordPair(3)));
    }
  }

  /** LD rr,nn at 0x01 + 0x10*k names BC, DE, HL, SP. */
  lemma LoadWordEncoding(k: u8)
    requires k < 4
    ensures Decode(0x01 + 0x10 * k) == Some(LoadWordImmediate(WordLocationDest(WordPair(k))))
  {
    if k == 0 {
      assert Decode(0x01) == Some(LoadWordImmediate(WordLocationDest(WordPair(0))));
    } else if k == 1 {
      assert Decode(0x11) == Some(LoadWordImmediate(WordLocationDest(WordPair(1))));
    } else if k == 2 {
      assert Decode(0x21) == Some(LoadWordImmediate(WordLocationDest(WordPair(2))));
    } else {
      assert k == 3;
      assert Decode(0x31) == Some(LoadWordImmediate(WordLocationDest(WordPair(3))));
    }
  }

  /** JR cc at 0x20 + 8*k: the condition is bits 4-3, in the order NZ, Z, NC, C. */
  lemma JrEncoding(k: u8)
    requires k < 4
    ensures Decode(0x20 + 8 * k) == Some(JumpRelative(CondOf(k)))
  {
    if k == 0 {
      assert Decode(0x20) == Some(JumpRelative(NotZero));
    } else if k == 1 {
      assert Decode(0x28) == Some(JumpRelative(Zero));
    } else if k == 2 {
      assert Decode(0x30) == Some(JumpRelative(NoCarry));
    } else {
      assert k == 3;
      assert Decode(0x38) == Some(JumpRelative(Carry));
    }
  }

  /** JP cc at 0xC2 + 8*k, with the same condition field. */
  lemma JpEncoding(k: u8)
    requires k < 4
    ensures Decode(0xC2 + 8 * k) == Some(Jump(CondOf(k)))
  {
    if k == 0 {
      assert Decode(0xC2) == Some(Jump(NotZero));
    } else if k == 1 {
      assert Decode(0xCA) == Some(Jump(Zero));
    } else if k == 2 {
      assert Decode(0xD2) == Some(Jump(NoCarry));
    } else {
      assert k == 3;
      assert Decode(0xDA) == Some(Jump(Carry));
    }
  }

  /** CALL cc at 0xC4 + 8*k, with the same condition field. */
  lemma CallEncoding(k: u8)
    requires k < 4
    ensures Decode(0xC4 + 8 * k) == Some(Call(CondOf(k)))
  {
    if k == 0 {
      assert Decode(0xC4) == Some(Call(NotZero));
    } else if k == 1 {
      assert Decode(0xCC) == Some(Call(Zero));
    } else if k == 2 {
      assert Decode(0xD4) == Some(Call(NoCarry));
    } else {
      assert k == 3;
      assert Decode(0xDC) == Some(Call(Carry));
    }
  }

  /** RET cc at 0xC0 + 8*k, with the same condition field. */
  lemma RetEncoding(k: u8)
    requires k < 4
    ensures Decode(0xC0 + 8 * k) == Some(Return(CondOf(k)))
  {
    if k == 0 {
      assert Decode(0xC0) == Some(Return(NotZero));
    } else if k == 1 {
      assert Decode(0xC8) == Some(Return(Zero));
    } else if k == 2 {
      assert Decode(0xD0) == Some(Return(NoCarry));
    } else {
      assert k == 3;
      assert Decode(0xD8) == Some(Return(Carry));
    }
  }

  /** The unconditional branches: JR 0x18, JP 0xC3, CALL 0xCD, RET 0xC9. */
  lemma UnconditionalEncoding()
    ensures Decode(0x18) == Some(JumpRelative(Always)) && Decode(0xC3) == Some(Jump(Always))
    ensures Decode(0xCD) == Some(Call(Always)) && Decode(0xC9) == Some(Return(Always))
  {
  }
}

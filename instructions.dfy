/** Operand descriptors of the SM83 instruction set (src/cpu/instructions.rs):
    where an 8- or 16-bit operand is read from or written to, the register
    and (HL) locations shared by the two, and the branch conditions. */
module Instructions {
  import opened Bits

  /** An 8-bit operand that can be read. */
  datatype ByteSource =
    | A | B | C | D | E | H | L
    | IndBC | IndDE | IndHL
    | IndHLI      // (HL+): read at HL, then HL := HL + 1
    | IndHLD      // (HL-): read at HL, then HL := HL - 1
    | FF00PlusC   // (0xFF00 + C)
    | Address(addr: u16)
    | Immediate(byte: u8)

  /** An 8-bit operand that can be written: every source except an immediate. */
  datatype ByteDest =
    | A | B | C | D | E | H | L
    | IndBC | IndDE | IndHL | IndHLI | IndHLD
    | FF00PlusC
    | Address(addr: u16)

  datatype WordSource = AF | BC | DE | HL | SP | Immediate(word: u16)

  datatype WordDest = AF | BC | DE | HL | SP | Address(addr: u16)

  /** The eight operands an opcode encodes in three bits: seven registers and (HL). */
  datatype ByteLocation = A | B | C | D | E | H | L | IndHL

  datatype WordLocation = BC | DE | HL | SP

  datatype JumpCondition = NotZero | Zero | NoCarry | Carry | Always

  /** `From<ByteLocation> for ByteSource`: each location becomes the same-named source. */
  function LocationSource(loc: ByteLocation): (s: ByteSource)
    ensures SourceLocation(s) == Some(loc)
  {
    match loc
    case A => ByteSource.A
    case B => ByteSource.B
    case C => ByteSource.C
    case D => ByteSource.D
    case E => ByteSource.E
    case H => ByteSource.H
    case L => ByteSource.L
    case IndHL => ByteSource.IndHL
  }

  /** `From<ByteLocation> for ByteDest`: each location becomes the same-named destination. */
  function LocationDest(loc: ByteLocation): (d: ByteDest)
    ensures DestLocation(d) == Some(loc)
  {
    match loc
    case A => ByteDest.A
    case B => ByteDest.B
    case C => ByteDest.C
    case D => ByteDest.D
    case E => ByteDest.E
    case H => ByteDest.H
    case L => ByteDest.L
    case IndHL => ByteDest.IndHL
  }

  /** `From<WordLocation> for WordSource`. */
  function WordLocationSource(loc: WordLocation): (s: WordSource)
    ensures WordSourceLocation(s) == Some(loc)
  {
    match loc
    case BC => WordSource.BC
    case DE => WordSource.DE
    case HL => WordSource.HL
    case SP => WordSource.SP
  }

  /** `From<WordLocation> for WordDest`. */
  function WordLocationDest(loc: WordLocation): (d: WordDest)
    ensures WordDestLocation(d) == Some(loc)
  {
    match loc
    case BC => WordDest.BC
    case DE => WordDest.DE
    case HL => WordDest.HL
    case SP => WordDest.SP
  }

  // Reading a source or destination back as a location, by name. These are the
  // independent partners the four conversions are checked against.

  function SourceLocation(s: ByteSource): Option<ByteLocation>
  {
    match s
    case A => Some(ByteLocation.A)
    case B => Some(ByteLocation.B)
    case C => Some(ByteLocation.C)
    case D => Some(ByteLocation.D)
    case E => Some(ByteLocation.E)
    case H => Some(ByteLocation.H)
    case L => Some(ByteLocation.L)
    case IndHL => Some(ByteLocation.IndHL)
    case _ => None
  }

  function DestLocation(d: ByteDest): Option<ByteLocation>
  {
    match d
    case A => Some(ByteLocation.A)
    case B => Some(ByteLocation.B)
    case C => Some(ByteLocation.C)
    case D => Some(ByteLocation.D)
    case E => Some(ByteLocation.E)
    case H => Some(ByteLocation.H)
    case L => Some(ByteLocation.L)
    case IndHL => Some(ByteLocation.IndHL)
    case _ => None
  }

  function WordSourceLocation(s: WordSource): Option<WordLocation>
  {
    match s
    case BC => Some(WordLocation.BC)
    case DE => Some(WordLocation.DE)
    case HL => Some(WordLocation.HL)
    case SP => Some(WordLocation.SP)
    case _ => None
  }

  function WordDestLocation(d: WordDest): Option<WordLocation>
  {
    match d
    case BC => Some(WordLocation.BC)
    case DE => Some(WordLocation.DE)
    case HL => Some(WordLocation.HL)
    case SP => Some(WordLocation.SP)
    case _ => None
  }

  /** The four conversions never map two locations to one operand. */
  lemma ConversionsInjective(l1: ByteLocation, l2: ByteLocation, w1: WordLocation, w2: WordLocation)
    ensures LocationSource(l1) == LocationSource(l2) ==> l1 == l2
    ensures LocationDest(l1) == LocationDest(l2) ==> l1 == l2
    ensures WordLocationSource(w1) == WordLocationSource(w2) ==> w1 == w2
    ensures WordLocationDest(w1) == WordLocationDest(w2) ==> w1 == w2
  {
  }

  /** A register location converts to a source and a destination naming the same register. */
  lemma LocationSourceAndDestAgree(loc: ByteLocation)
    ensures SourceOfDest(LocationDest(loc)) == LocationSource(loc)
  {
  }

  /** The source that reads what a destination writes (same-named variant). */
  function SourceOfDest(d: ByteDest): (s: ByteSource)
    ensures !s.Immediate?
  {
    match d
    case A => ByteSource.A
    case B => ByteSource.B
    case C => ByteSource.C
    case D => ByteSource.D
    case E => ByteSource.E
    case H => ByteSource.H
    case L => ByteSource.L
    case IndBC => ByteSource.IndBC
    case IndDE => ByteSource.IndDE
    case IndHL => ByteSource.IndHL
    case IndHLI => ByteSource.IndHLI
    case IndHLD => ByteSource.IndHLD
    case FF00PlusC => ByteSource.FF00PlusC
    case Address(w) => ByteSource.Address(w)
  }

  /** Immediates exist only as sources: every other byte source is what some
      destination writes, and no destination writes an immediate. */
  lemma OnlyImmediatesLackADest(s: ByteSource)
    ensures s.Immediate? <==> forall d: ByteDest :: SourceOfDest(d) != s
  {
    if !s.Immediate? {
      var d: ByteDest :=
        match s
        case A => ByteDest.A
        case B => ByteDest.B
        case C => ByteDest.C
        case D => ByteDest.D
        case E => ByteDest.E
        case H => ByteDest.H
        case L => ByteDest.L
        case IndBC => ByteDest.IndBC
        case IndDE => ByteDest.IndDE
        case IndHL => ByteDest.IndHL
        case IndHLI => ByteDest.IndHLI
        case IndHLD => ByteDest.IndHLD
        case FF00PlusC => ByteDest.FF00PlusC
        case Address(w) => ByteDest.Address(w);
      assert SourceOfDest(d) == s;
    }
  }
}

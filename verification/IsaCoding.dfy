/** The instruction formats of the ISA manual (section 2.2 and the RV32I listing of volume I), as an assembler for the decoder. */
module IsaCoding {
  import opened Errors
  import opened Isa

  datatype Format = R | I | Shift | S | B | U | J | System

  function FormatOf(op: Op): Option<Format> {
    match op
    case Lui | Auipc => Some(U)
    case Jal => Some(J)
    case Beq | Bne | Blt | Bge | Bltu | Bgeu => Some(B)
    case Jalr | Lb | Lh | Lw | Lbu | Lhu | Addi | Slti | Sltiu | Xori | Ori | Andi => Some(I)
    case Slli | Srli | Srai => Some(Shift)
    case Sb | Sh | Sw => Some(S)
    case Add | Sub | Sll | Slt | Sltu | Xor | Srl | Sra | Or | And => Some(R)
    case Ecall | Ebreak => Some(System)
    case Fence | Quantum => None
  }

  function OpcodeOf(op: Op): Word {
    match op
    case Lui => 0x37
    case Auipc => 0x17
    case Jal => 0x6f
    case Jalr => 0x67
    case Beq | Bne | Blt | Bge | Bltu | Bgeu => 0x63
    case Lb | Lh | Lw | Lbu | Lhu => 0x03
    case Sb | Sh | Sw => 0x23
    case Addi | Slti | Sltiu | Xori | Ori | Andi | Slli | Srli | Srai => 0x13
    case Add | Sub | Sll | Slt | Sltu | Xor | Srl | Sra | Or | And => 0x33
    case Ecall | Ebreak => 0x73
    case Fence => 0x0f
    case Quantum => CONTROL_OPCODE
  }

  function Funct3Of(op: Op): Word {
    match op
    case Beq | Lb | Sb | Addi | Add | Sub | Jalr => 0
    case Bne | Lh | Sh | Slli | Sll => 1
    case Lw | Sw | Slti | Slt => 2
    case Sltiu | Sltu => 3
    case Blt | Lbu | Xori | Xor => 4
    case Bge | Lhu | Srli | Srai | Srl | Sra => 5
    case Bltu | Ori | Or => 6
    case Bgeu | Andi | And => 7
    case _ => 0
  }

  function Funct7Of(op: Op): Word {
    match op
    case Sub | Sra | Srai => 32
    case _ => 0
  }

  predicate FitsI(imm: Word) { SignExtend(imm, 12) == imm }
  predicate FitsB(imm: Word) { SignExtend(imm, 13) == imm && imm & 1 == 0 }
  predicate FitsU(imm: Word) { imm & 0xfff == 0 }
  predicate FitsJ(imm: Word) { SignExtend(imm, 21) == imm && imm & 1 == 0 }

  /** The immediates that an instruction of this format can hold. */
  predicate Holds(format: Format, imm: Word) {
    match format
    case R => imm == 0
    case I => FitsI(imm)
    case Shift => Five(imm) == imm
    case S => FitsI(imm)
    case B => FitsB(imm)
    case U => FitsU(imm)
    case J => FitsJ(imm)
    case System => imm == 0
  }

  function Three(x: Word): Word { x & 7 }
  function Five(x: Word): Word { x & 31 }
  function Seven(x: Word): Word { x & 127 }

  function EncodeR(opcode: Word, rd: Word, f3: Word, rs1: Word, rs2: Word, f7: Word): Word {
    Seven(opcode) | (Five(rd) << 7) | (Three(f3) << 12) | (Five(rs1) << 15) | (Five(rs2) << 20) | (Seven(f7) << 25)
  }

  function EncodeI(opcode: Word, rd: Word, f3: Word, rs1: Word, imm: Word): Word {
    Seven(opcode) | (Five(rd) << 7) | (Three(f3) << 12) | (Five(rs1) << 15) | (imm << 20)
  }

  function EncodeS(opcode: Word, f3: Word, rs1: Word, rs2: Word, imm: Word): Word {
    Seven(opcode) | ((imm & 31) << 7) | (Three(f3) << 12) | (Five(rs1) << 15) | (Five(rs2) << 20) | (((imm >> 5) & 127) << 25)
  }

  function EncodeB(opcode: Word, f3: Word, rs1: Word, rs2: Word, imm: Word): Word {
    Seven(opcode) | (((imm >> 11) & 1) << 7) | (((imm >> 1) & 15) << 8) | (Three(f3) << 12) | (Five(rs1) << 15) | (Five(rs2) << 20)
    | (((imm >> 5) & 63) << 25) | (((imm >> 12) & 1) << 31)
  }

  function EncodeJ(opcode: Word, rd: Word, imm: Word): Word {
    Seven(opcode) | (Five(rd) << 7) | (imm & 0xff000) | (((imm >> 11) & 1) << 20) | (((imm >> 1) & 1023) << 21) | (((imm >> 20) & 1) << 31)
  }

  function EncodeU(opcode: Word, rd: Word, imm: Word): Word { Seven(opcode) | (Five(rd) << 7) | (imm & 0xfffff000) }

  function Assemble(op: Op, rd: Word, rs1: Word, rs2: Word, imm: Word): Option<Word> {
    var opcode, f3, f7 := OpcodeOf(op), Funct3Of(op), Funct7Of(op);
    match FormatOf(op)
    case None => None
    case Some(R) => Some(EncodeR(opcode, rd, f3, rs1, rs2, f7))
    case Some(I) => Some(EncodeI(opcode, rd, f3, rs1, imm))
    case Some(Shift) => Some(EncodeR(opcode, rd, f3, rs1, imm, f7))
    case Some(S) => Some(EncodeS(opcode, f3, rs1, rs2, imm))
    case Some(B) => Some(EncodeB(opcode, f3, rs1, rs2, imm))
    case Some(U) => Some(EncodeU(opcode, rd, imm))
    case Some(J) => Some(EncodeJ(opcode, rd, imm))
    case Some(System) => Some(if op == Ecall then 0x73 else 0x100073)
  }

  // ---- What each format holds ----

  lemma FieldsOfR(opcode: Word, rd: Word, f3: Word, rs1: Word, rs2: Word, f7: Word)
    ensures
      var w := EncodeR(opcode, rd, f3, rs1, rs2, f7);
      && Opcode(w) == Seven(opcode) && Funct3(w) == Three(f3) && Funct7(w) == Seven(f7)
      && RdField(w) == Five(rd) && Rs1Field(w) == Five(rs1) && Rs2Field(w) == Five(rs2)
  {
  }

  lemma FieldsOfI(opcode: Word, rd: Word, f3: Word, rs1: Word, imm: Word)
    requires FitsI(imm)
    ensures
      var w := EncodeI(opcode, rd, f3, rs1, imm);
      Opcode(w) == Seven(opcode) && Funct3(w) == Three(f3) && RdField(w) == Five(rd) && Rs1Field(w) == Five(rs1) && ImmediateI(w) == imm
  {
  }

  lemma FieldsOfS(opcode: Word, f3: Word, rs1: Word, rs2: Word, imm: Word)
    requires FitsI(imm)
    ensures
      var w := EncodeS(opcode, f3, rs1, rs2, imm);
      Opcode(w) == Seven(opcode) && Funct3(w) == Three(f3) && Rs1Field(w) == Five(rs1) && Rs2Field(w) == Five(rs2) && ImmediateS(w) == imm
  {
  }

  lemma FieldsOfB(opcode: Word, f3: Word, rs1: Word, rs2: Word, imm: Word)
    requires FitsB(imm)
    ensures
      var w := EncodeB(opcode, f3, rs1, rs2, imm);
      Opcode(w) == Seven(opcode) && Funct3(w) == Three(f3) && Rs1Field(w) == Five(rs1) && Rs2Field(w) == Five(rs2) && ImmediateB(w) == imm
  {
  }

  lemma FieldsOfU(opcode: Word, rd: Word, imm: Word)
    requires FitsU(imm)
    ensures
      var w := EncodeU(opcode, rd, imm);
      Opcode(w) == Seven(opcode) && RdField(w) == Five(rd) && ImmediateU(w) == imm
  {
  }

  lemma FieldsOfJ(opcode: Word, rd: Word, imm: Word)
    requires FitsJ(imm)
    ensures
      var w := EncodeJ(opcode, rd, imm);
      Opcode(w) == Seven(opcode) && RdField(w) == Five(rd) && ImmediateJ(w) == imm
  {
  }

  lemma WordIsItsR(w: Word)
    ensures w == EncodeR(Opcode(w), RdField(w), Funct3(w), Rs1Field(w), Rs2Field(w), Funct7(w)) && Five(Rs2Field(w)) == Rs2Field(w)
  {
  }

  lemma WordIsItsI(w: Word)
    ensures w == EncodeI(Opcode(w), RdField(w), Funct3(w), Rs1Field(w), ImmediateI(w))
  {
    ShiftedOut(w >> 20);
  }

  lemma ShiftedOut(x: Word)
    requires x <= 0xfff
    ensures SignExtend(x, 12) << 20 == x << 20 && SignExtend(SignExtend(x, 12), 12) == SignExtend(x, 12)
  {
  }

  lemma ImmediateIHolds(w: Word)
    ensures FitsI(ImmediateI(w))
  {
    ShiftedOut(w >> 20);
    hide SignExtend;
  }

  lemma WordIsItsU(w: Word)
    ensures w == EncodeU(Opcode(w), RdField(w), ImmediateU(w)) && FitsU(ImmediateU(w))
  {
  }

  lemma WordIsItsS(w: Word)
    ensures w == EncodeS(Opcode(w), Funct3(w), Rs1Field(w), Rs2Field(w), ImmediateS(w)) && FitsI(ImmediateS(w))
  {
  }

  /** The 13 bits of a branch offset, as the word scatters them. */
  function BranchBits(w: Word): Word { ((w >> 31) << 12) | (((w >> 7) & 1) << 11) | (((w >> 25) & 63) << 5) | (((w >> 8) & 15) << 1) }

  lemma ExtendedBranch(x: Word)
    requires x <= 0x1fff && x & 1 == 0
    ensures SignExtend(x, 13) & 0x1fff == x && SignExtend(SignExtend(x, 13), 13) == SignExtend(x, 13) && SignExtend(x, 13) & 1 == 0
  {
  }

  lemma BranchBitsFit(w: Word)
    ensures BranchBits(w) <= 0x1fff && BranchBits(w) & 1 == 0
    ensures w == EncodeB(Opcode(w), Funct3(w), Rs1Field(w), Rs2Field(w), BranchBits(w))
  {
  }

  lemma LowBranchBits(imm: Word)
    ensures
      var low := imm & 0x1fff;
      && (imm >> 11) & 1 == (low >> 11) & 1 && (imm >> 1) & 15 == (low >> 1) & 15
      && (imm >> 5) & 63 == (low >> 5) & 63 && (imm >> 12) & 1 == (low >> 12) & 1
  {
  }

  lemma LowBranchEncodes(opcode: Word, f3: Word, rs1: Word, rs2: Word, imm: Word)
    ensures EncodeB(opcode, f3, rs1, rs2, imm) == EncodeB(opcode, f3, rs1, rs2, imm & 0x1fff)
  {
    LowBranchBits(imm);
  }

  lemma BranchIsBits(w: Word)
    ensures ImmediateB(w) == SignExtend(BranchBits(w), 13)
  {
    hide SignExtend;
  }

  lemma WordIsItsB(w: Word)
    ensures w == EncodeB(Opcode(w), Funct3(w), Rs1Field(w), Rs2Field(w), ImmediateB(w))
    ensures FitsB(ImmediateB(w))
  {
    hide SignExtend, EncodeB, Opcode, Funct3, Rs1Field, Rs2Field, BranchBits, ImmediateB;
    BranchBitsFit(w);
    ExtendedBranch(BranchBits(w));
    BranchIsBits(w);
    LowBranchEncodes(Opcode(w), Funct3(w), Rs1Field(w), Rs2Field(w), ImmediateB(w));
  }

  /** The 21 bits of a jump offset, as the word scatters them. */
  function JumpBits(w: Word): Word { ((w >> 31) << 20) | (w & 0xff000) | (((w >> 20) & 1) << 11) | (((w >> 21) & 1023) << 1) }

  lemma ExtendedJump(x: Word)
    requires x <= 0x1f_ffff && x & 1 == 0
    ensures SignExtend(x, 21) & 0x1f_ffff == x && SignExtend(SignExtend(x, 21), 21) == SignExtend(x, 21) && SignExtend(x, 21) & 1 == 0
  {
  }

  lemma JumpBitsFit(w: Word)
    ensures JumpBits(w) <= 0x1f_ffff && JumpBits(w) & 1 == 0 && w == EncodeJ(Opcode(w), RdField(w), JumpBits(w))
  {
  }

  lemma LowBits(imm: Word)
    ensures
      var low := imm & 0x1f_ffff;
      && imm & 0xff000 == low & 0xff000 && (imm >> 11) & 1 == (low >> 11) & 1
      && (imm >> 1) & 1023 == (low >> 1) & 1023 && (imm >> 20) & 1 == (low >> 20) & 1
  {
  }

  lemma LowBitsEncode(opcode: Word, rd: Word, imm: Word)
    ensures EncodeJ(opcode, rd, imm) == EncodeJ(opcode, rd, imm & 0x1f_ffff)
  {
    LowBits(imm);
  }

  lemma WordIsItsJ(w: Word)
    ensures w == EncodeJ(Opcode(w), RdField(w), ImmediateJ(w))
    ensures FitsJ(ImmediateJ(w))
  {
    hide SignExtend, EncodeJ, Opcode, RdField, JumpBits;
    JumpBitsFit(w);
    ExtendedJump(JumpBits(w));
    JumpIsBits(w);
    LowBitsEncode(Opcode(w), RdField(w), ImmediateJ(w));
  }

  lemma JumpIsBits(w: Word)
    ensures ImmediateJ(w) == SignExtend(JumpBits(w), 21)
  {
    hide SignExtend;
  }

  lemma SystemOpcodes()
    ensures Opcode(0x73) == 0x73 && Opcode(0x100073) == 0x73
  {
  }

  // ---- The operation tables ----

  lemma BranchShape(f3: Word)
    ensures var op := BranchOp(f3); op.Some? ==> FormatOf(op.value) == Some(B) && OpcodeOf(op.value) == 0x63 && Funct3Of(op.value) == f3
  {
  }

  lemma LoadShape(f3: Word)
    ensures var op := LoadOp(f3); op.Some? ==> FormatOf(op.value) == Some(I) && OpcodeOf(op.value) == 0x03 && Funct3Of(op.value) == f3
  {
  }

  lemma StoreShape(f3: Word)
    ensures var op := StoreOp(f3); op.Some? ==> FormatOf(op.value) == Some(S) && OpcodeOf(op.value) == 0x23 && Funct3Of(op.value) == f3
  {
  }

  lemma ImmediateShape(f3: Word, f7: Word)
    requires f3 <= 7
    ensures
      var op := ImmediateOp(f3, f7);
      op.Some? ==> && OpcodeOf(op.value) == 0x13 && Funct3Of(op.value) == f3
                   && (if f3 == 1 || f3 == 5 then FormatOf(op.value) == Some(Shift) && Funct7Of(op.value) == f7 else FormatOf(op.value) == Some(I))
  {
  }

  lemma RegisterShape(f3: Word, f7: Word)
    requires f3 <= 7
    ensures
      var op := RegisterOp(f3, f7);
      op.Some? ==> FormatOf(op.value) == Some(R) && OpcodeOf(op.value) == 0x33 && Funct3Of(op.value) == f3 && Funct7Of(op.value) == f7
  {
    RegisterFunct3(f3, f7);
    RegisterFunct7(f3, f7);
    hide Funct3Of, Funct7Of;
  }

  lemma RegisterFunct3(f3: Word, f7: Word)
    requires f3 <= 7
    ensures RegisterOp(f3, f7).Some? ==> Funct3Of(RegisterOp(f3, f7).value) == f3
  {
  }

  lemma RegisterFunct7(f3: Word, f7: Word)
    requires f3 <= 7
    ensures RegisterOp(f3, f7).Some? ==> Funct7Of(RegisterOp(f3, f7).value) == f7
  {
  }

  lemma PlainShapes()
    ensures FormatOf(Lui) == FormatOf(Auipc) == Some(U) && FormatOf(Jal) == Some(J) && FormatOf(Jalr) == Some(I)
    ensures FormatOf(Ecall) == FormatOf(Ebreak) == Some(System) && FormatOf(Fence).None? && FormatOf(Quantum).None?
  {
  }

  lemma PlainOpcodes()
    ensures OpcodeOf(Lui) == 0x37 && OpcodeOf(Auipc) == 0x17 && OpcodeOf(Jal) == 0x6f && OpcodeOf(Jalr) == 0x67 && Funct3Of(Jalr) == 0
  {
  }

  lemma Funct3Fits(w: Word)
    ensures Funct3(w) <= 7
  {
  }

  function ImmediateOf(format: Format, w: Word): Word {
    match format
    case R | System => 0
    case I => ImmediateI(w)
    case Shift => Rs2Field(w)
    case S => ImmediateS(w)
    case B => ImmediateB(w)
    case U => ImmediateU(w)
    case J => ImmediateJ(w)
  }

  /** The word's opcode, and its function fields where the format has them, are the operation's. */
  predicate Matches(op: Op, format: Format, w: Word) {
    && (format != System ==> Opcode(w) == OpcodeOf(op))
    && (format != U && format != J && format != System ==> Funct3(w) == Funct3Of(op))
    && (format == R || format == Shift ==> Funct7(w) == Funct7Of(op))
    && (format == System ==> w == if op == Ecall then 0x73 else 0x100073)
  }

  /** The opcode and the function fields of a word are those of the operation it decodes to. */
  lemma DecodedShape(w: Word)
    requires Decode(w).Ok? && FormatOf(Decode(w).value.op).Some?
    ensures
      var op, format := Decode(w).value.op, FormatOf(Decode(w).value.op).value;
      Matches(op, format, w)
  {
    hide ImmediateI, ImmediateS, ImmediateB, ImmediateU, ImmediateJ, Register, RdField, Rs1Field, Rs2Field, Opcode,
      Funct3, Funct7, ControlWord, BranchOp, LoadOp, StoreOp, ImmediateOp, RegisterOp, FormatOf, OpcodeOf,
      Funct3Of, Funct7Of;
    var f3, f7 := Funct3(w), Funct7(w);
    Funct3Fits(w);
    PlainShapes();
    PlainOpcodes();
    if Opcode(w) == 0x63 {
      BranchShape(f3);
    } else if Opcode(w) == 0x03 {
      LoadShape(f3);
    } else if Opcode(w) == 0x23 {
      StoreShape(f3);
    } else if Opcode(w) == 0x13 {
      ImmediateShape(f3, f7);
    } else if Opcode(w) == 0x33 {
      RegisterShape(f3, f7);
    }
  }

  lemma DecodedImmediate(w: Word)
    requires Decode(w).Ok? && FormatOf(Decode(w).value.op).Some?
    ensures
      var op, format := Decode(w).value.op, FormatOf(Decode(w).value.op).value;
      Decode(w).value.immediate == ImmediateOf(format, w)
  {
    hide ImmediateI, ImmediateS, ImmediateB, ImmediateU, ImmediateJ, Register, RdField, Rs1Field, Rs2Field, Opcode,
      Funct3, Funct7, ControlWord, BranchOp, LoadOp, StoreOp, ImmediateOp, RegisterOp, FormatOf, OpcodeOf,
      Funct3Of, Funct7Of;
    var f3, f7 := Funct3(w), Funct7(w);
    Funct3Fits(w);
    PlainShapes();
    PlainOpcodes();
    if Opcode(w) == 0x63 {
      BranchShape(f3);
    } else if Opcode(w) == 0x03 {
      LoadShape(f3);
    } else if Opcode(w) == 0x23 {
      StoreShape(f3);
    } else if Opcode(w) == 0x13 {
      ImmediateShape(f3, f7);
    } else if Opcode(w) == 0x33 {
      RegisterShape(f3, f7);
    }
  }

  lemma BranchesInvert(op: Op)
    requires FormatOf(op) == Some(B)
    ensures BranchOp(Funct3Of(op)) == Some(op) && OpcodeOf(op) == 0x63
  {
  }

  lemma StoresInvert(op: Op)
    requires FormatOf(op) == Some(S)
    ensures StoreOp(Funct3Of(op)) == Some(op) && OpcodeOf(op) == 0x23
  {
  }

  lemma RegistersInvert(op: Op)
    requires FormatOf(op) == Some(R)
    ensures RegisterOp(Funct3Of(op), Funct7Of(op)) == Some(op) && OpcodeOf(op) == 0x33
  {
  }

  lemma ShiftsInvert(op: Op)
    requires FormatOf(op) == Some(Shift)
    ensures ImmediateOp(Funct3Of(op), Funct7Of(op)) == Some(op) && OpcodeOf(op) == 0x13 && (Funct3Of(op) == 1 || Funct3Of(op) == 5)
  {
  }

  lemma LongInvert(op: Op)
    ensures FormatOf(op) == Some(U) ==> (op == Lui && OpcodeOf(op) == 0x37) || (op == Auipc && OpcodeOf(op) == 0x17)
    ensures FormatOf(op) == Some(J) ==> op == Jal && OpcodeOf(op) == 0x6f
    ensures FormatOf(op) == Some(System) ==> op == Ecall || op == Ebreak
  {
  }

  lemma TablesInvert(op: Op)
    ensures FormatOf(op) == Some(B) ==> BranchOp(Funct3Of(op)) == Some(op) && OpcodeOf(op) == 0x63
    ensures FormatOf(op) == Some(S) ==> StoreOp(Funct3Of(op)) == Some(op) && OpcodeOf(op) == 0x23
    ensures FormatOf(op) == Some(R) ==> RegisterOp(Funct3Of(op), Funct7Of(op)) == Some(op) && OpcodeOf(op) == 0x33
    ensures FormatOf(op) == Some(Shift) ==>
              ImmediateOp(Funct3Of(op), Funct7Of(op)) == Some(op) && OpcodeOf(op) == 0x13 && (Funct3Of(op) == 1 || Funct3Of(op) == 5)
    ensures FormatOf(op) == Some(U) ==> (op == Lui && OpcodeOf(op) == 0x37) || (op == Auipc && OpcodeOf(op) == 0x17)
    ensures FormatOf(op) == Some(J) ==> op == Jal && OpcodeOf(op) == 0x6f
    ensures FormatOf(op) == Some(System) ==> op == Ecall || op == Ebreak
  {
    hide FormatOf, OpcodeOf, Funct3Of, Funct7Of, BranchOp, StoreOp, RegisterOp, ImmediateOp;
    LongInvert(op);
    match FormatOf(op) {
      case Some(B) => BranchesInvert(op);
      case Some(S) => StoresInvert(op);
      case Some(R) => RegistersInvert(op);
      case Some(Shift) => ShiftsInvert(op);
      case _ =>
    }
  }

  /** The operations in I format: a jump, the loads, and arithmetic on immediates. */
  lemma TableInvertsI(op: Op, f7: Word)
    requires FormatOf(op) == Some(I)
    ensures
      || (op == Jalr && OpcodeOf(op) == 0x67 && Funct3Of(op) == 0)
      || (LoadOp(Funct3Of(op)) == Some(op) && OpcodeOf(op) == 0x03)
      || (ImmediateOp(Funct3Of(op), f7) == Some(op) && OpcodeOf(op) == 0x13 && Funct3Of(op) != 1 && Funct3Of(op) != 5)
  {
  }

  predicate Writes(format: Format) { format != S && format != B && format != System }

  /** A word that matches an operation of the listing decodes to it. */
  lemma MatchingDecodes(op: Op, w: Word)
    requires FormatOf(op).Some? && Matches(op, FormatOf(op).value, w)
    ensures
      var format := FormatOf(op).value;
      CodingOf(w) == Some(Coding(op, ImmediateOf(format, w), Writes(format)))
  {
    hide ImmediateI, ImmediateS, ImmediateB, ImmediateU, ImmediateJ, Register, RdField, Rs1Field, Rs2Field, Opcode,
      Funct3, Funct7, ControlWord, BranchOp, LoadOp, StoreOp, ImmediateOp, RegisterOp, OpcodeOf, Funct3Of,
      Funct7Of, FormatOf;
    TablesInvert(op);
    SystemOpcodes();
    if FormatOf(op) == Some(I) {
      TableInvertsI(op, Funct7(w));
    }
  }

  /** The registers that the format stores are those in the word. */
  predicate Stored(format: Format, w: Word, rd: Word, rs1: Word, rs2: Word) {
    && (Writes(format) ==> RdField(w) == rd)
    && (format != U && format != J && format != System ==> Rs1Field(w) == rs1)
    && (format == R || format == S || format == B ==> Rs2Field(w) == rs2)
  }

  /** The assembled word holds the instruction, field by field. */
  predicate Assembled(op: Op, format: Format, rd: Word, rs1: Word, rs2: Word, imm: Word) {
    var w := Assemble(op, rd, rs1, rs2, imm);
    w.Some? && Matches(op, format, w.value) && ImmediateOf(format, w.value) == imm && Stored(format, w.value, rd, rs1, rs2)
  }

  lemma AssembledR(op: Op, rd: Word, rs1: Word, rs2: Word, imm: Word)
    requires FormatOf(op) == Some(R) && Holds(R, imm) && Five(rd) == rd && Five(rs1) == rs1 && Five(rs2) == rs2
    ensures Assembled(op, R, rd, rs1, rs2, imm)
  {
    hide EncodeR, EncodeI, EncodeS, EncodeB, EncodeU, EncodeJ, ImmediateI, ImmediateS, ImmediateB, ImmediateU,
      ImmediateJ, RdField, Rs1Field, Rs2Field, SignExtend, Opcode, Funct3, Funct7, OpcodeOf, Funct3Of, Funct7Of,
      FormatOf, Three, Five, Seven, FitsI, FitsB, FitsU, FitsJ;
    SmallFields(op);
    FieldsOfR(OpcodeOf(op), rd, Funct3Of(op), rs1, rs2, Funct7Of(op));
    assert Assemble(op, rd, rs1, rs2, imm) == Some(EncodeR(OpcodeOf(op), rd, Funct3Of(op), rs1, rs2, Funct7Of(op)));
  }

  lemma AssembledI(op: Op, rd: Word, rs1: Word, rs2: Word, imm: Word)
    requires FormatOf(op) == Some(I) && Holds(I, imm) && Five(rd) == rd && Five(rs1) == rs1 && Five(rs2) == rs2
    ensures Assembled(op, I, rd, rs1, rs2, imm)
  {
    hide EncodeR, EncodeI, EncodeS, EncodeB, EncodeU, EncodeJ, ImmediateI, ImmediateS, ImmediateB, ImmediateU,
      ImmediateJ, RdField, Rs1Field, Rs2Field, SignExtend, Opcode, Funct3, Funct7, OpcodeOf, Funct3Of, Funct7Of,
      FormatOf, Three, Five, Seven, FitsI, FitsB, FitsU, FitsJ;
    SmallFields(op);
    FieldsOfI(OpcodeOf(op), rd, Funct3Of(op), rs1, imm);
    assert Assemble(op, rd, rs1, rs2, imm) == Some(EncodeI(OpcodeOf(op), rd, Funct3Of(op), rs1, imm));
  }

  lemma AssembledShift(op: Op, rd: Word, rs1: Word, rs2: Word, imm: Word)
    requires FormatOf(op) == Some(Shift) && Holds(Shift, imm) && Five(rd) == rd && Five(rs1) == rs1 && Five(rs2) == rs2
    ensures Assembled(op, Shift, rd, rs1, rs2, imm)
  {
    hide EncodeR, EncodeI, EncodeS, EncodeB, EncodeU, EncodeJ, ImmediateI, ImmediateS, ImmediateB, ImmediateU,
      ImmediateJ, RdField, Rs1Field, Rs2Field, SignExtend, Opcode, Funct3, Funct7, OpcodeOf, Funct3Of, Funct7Of,
      FormatOf, Three, Five, Seven, FitsI, FitsB, FitsU, FitsJ;
    SmallFields(op);
    FieldsOfR(OpcodeOf(op), rd, Funct3Of(op), rs1, imm, Funct7Of(op));
    assert Assemble(op, rd, rs1, rs2, imm) == Some(EncodeR(OpcodeOf(op), rd, Funct3Of(op), rs1, imm, Funct7Of(op)));
  }

  lemma AssembledS(op: Op, rd: Word, rs1: Word, rs2: Word, imm: Word)
    requires FormatOf(op) == Some(S) && Holds(S, imm) && Five(rd) == rd && Five(rs1) == rs1 && Five(rs2) == rs2
    ensures Assembled(op, S, rd, rs1, rs2, imm)
  {
    hide EncodeR, EncodeI, EncodeS, EncodeB, EncodeU, EncodeJ, ImmediateI, ImmediateS, ImmediateB, ImmediateU,
      ImmediateJ, RdField, Rs1Field, Rs2Field, SignExtend, Opcode, Funct3, Funct7, OpcodeOf, Funct3Of, Funct7Of,
      FormatOf, Three, Five, Seven, FitsI, FitsB, FitsU, FitsJ;
    SmallFields(op);
    FieldsOfS(OpcodeOf(op), Funct3Of(op), rs1, rs2, imm);
    assert Assemble(op, rd, rs1, rs2, imm) == Some(EncodeS(OpcodeOf(op), Funct3Of(op), rs1, rs2, imm));
  }

  lemma AssembledB(op: Op, rd: Word, rs1: Word, rs2: Word, imm: Word)
    requires FormatOf(op) == Some(B) && Holds(B, imm) && Five(rd) == rd && Five(rs1) == rs1 && Five(rs2) == rs2
    ensures Assembled(op, B, rd, rs1, rs2, imm)
  {
    hide EncodeR, EncodeI, EncodeS, EncodeB, EncodeU, EncodeJ, ImmediateI, ImmediateS, ImmediateB, ImmediateU,
      ImmediateJ, RdField, Rs1Field, Rs2Field, SignExtend, Opcode, Funct3, Funct7, OpcodeOf, Funct3Of, Funct7Of,
      FormatOf, Three, Five, Seven, FitsI, FitsB, FitsU, FitsJ;
    SmallFields(op);
    FieldsOfB(OpcodeOf(op), Funct3Of(op), rs1, rs2, imm);
    assert Assemble(op, rd, rs1, rs2, imm) == Some(EncodeB(OpcodeOf(op), Funct3Of(op), rs1, rs2, imm));
  }

  lemma AssembledU(op: Op, rd: Word, rs1: Word, rs2: Word, imm: Word)
    requires FormatOf(op) == Some(U) && Holds(U, imm) && Five(rd) == rd && Five(rs1) == rs1 && Five(rs2) == rs2
    ensures Assembled(op, U, rd, rs1, rs2, imm)
  {
    hide EncodeR, EncodeI, EncodeS, EncodeB, EncodeU, EncodeJ, ImmediateI, ImmediateS, ImmediateB, ImmediateU,
      ImmediateJ, RdField, Rs1Field, Rs2Field, SignExtend, Opcode, Funct3, Funct7, OpcodeOf, Funct3Of, Funct7Of,
      FormatOf, Three, Five, Seven, FitsI, FitsB, FitsU, FitsJ;
    SmallFields(op);
    FieldsOfU(OpcodeOf(op), rd, imm);
    assert Assemble(op, rd, rs1, rs2, imm) == Some(EncodeU(OpcodeOf(op), rd, imm));
  }

  lemma AssembledJ(op: Op, rd: Word, rs1: Word, rs2: Word, imm: Word)
    requires FormatOf(op) == Some(J) && Holds(J, imm) && Five(rd) == rd && Five(rs1) == rs1 && Five(rs2) == rs2
    ensures Assembled(op, J, rd, rs1, rs2, imm)
  {
    hide EncodeR, EncodeI, EncodeS, EncodeB, EncodeU, EncodeJ, ImmediateI, ImmediateS, ImmediateB, ImmediateU,
      ImmediateJ, RdField, Rs1Field, Rs2Field, SignExtend, Opcode, Funct3, Funct7, OpcodeOf, Funct3Of, Funct7Of,
      FormatOf, Three, Five, Seven, FitsI, FitsB, FitsU, FitsJ;
    SmallFields(op);
    FieldsOfJ(OpcodeOf(op), rd, imm);
    assert Assemble(op, rd, rs1, rs2, imm) == Some(EncodeJ(OpcodeOf(op), rd, imm));
  }

  lemma AssembledSystem(op: Op, rd: Word, rs1: Word, rs2: Word, imm: Word)
    requires FormatOf(op) == Some(System) && Holds(System, imm)
    ensures Assembled(op, System, rd, rs1, rs2, imm)
  {
  }

  lemma AssembledMatches(op: Op, rd: Word, rs1: Word, rs2: Word, imm: Word)
    requires FormatOf(op).Some? && Holds(FormatOf(op).value, imm) && Five(rd) == rd && Five(rs1) == rs1 && Five(rs2) == rs2
    ensures Assembled(op, FormatOf(op).value, rd, rs1, rs2, imm)
  {
    hide FormatOf, Assembled, Holds;
    match FormatOf(op).value {
      case R => AssembledR(op, rd, rs1, rs2, imm);
      case I => AssembledI(op, rd, rs1, rs2, imm);
      case Shift => AssembledShift(op, rd, rs1, rs2, imm);
      case S => AssembledS(op, rd, rs1, rs2, imm);
      case B => AssembledB(op, rd, rs1, rs2, imm);
      case U => AssembledU(op, rd, rs1, rs2, imm);
      case J => AssembledJ(op, rd, rs1, rs2, imm);
      case System => AssembledSystem(op, rd, rs1, rs2, imm);
    }
  }

  /**
   * Every instruction of the listing decodes to itself: its operation, its immediate, the registers that its format
   * stores, and whether it writes one.
   */
  lemma AssembledDecodes(op: Op, rd: Word, rs1: Word, rs2: Word, imm: Word)
    requires FormatOf(op).Some? && Holds(FormatOf(op).value, imm) && Five(rd) == rd && Five(rs1) == rs1 && Five(rs2) == rs2
    ensures
      var format, w := FormatOf(op).value, Assemble(op, rd, rs1, rs2, imm);
      && w.Some? && Stored(format, w.value, rd, rs1, rs2)
      && Decode(w.value)
         == Ok(Decoded(op, w.value, imm, Register(RdField(w.value)), Register(Rs1Field(w.value)), Register(Rs2Field(w.value)), Writes(format)))
  {
    hide Assemble, Holds, Matches, ImmediateOf, Stored, Writes, CodingOf, FormatOf, Register, RdField, Rs1Field,
      Rs2Field;
    AssembledMatches(op, rd, rs1, rs2, imm);
    MatchingDecodes(op, Assemble(op, rd, rs1, rs2, imm).value);
  }

  lemma SmallFields(op: Op)
    ensures Seven(OpcodeOf(op)) == OpcodeOf(op) && Three(Funct3Of(op)) == Funct3Of(op) && Seven(Funct7Of(op)) == Funct7Of(op)
  {
  }

  /** Every word that decodes to an instruction of the listing is the assembly of what it decodes to. */
  lemma DecodedAssembles(w: Word)
    requires Decode(w).Ok? && FormatOf(Decode(w).value.op).Some?
    ensures
      var d := Decode(w).value;
      && Holds(FormatOf(d.op).value, d.immediate)
      && Assemble(d.op, RdField(w), Rs1Field(w), Rs2Field(w), d.immediate) == Some(w)
  {
    hide EncodeR, EncodeI, EncodeS, EncodeB, EncodeU, EncodeJ, ImmediateI, ImmediateS, ImmediateB, ImmediateU,
      ImmediateJ, RdField, Rs1Field, Rs2Field, SignExtend, Opcode, Funct3, Funct7, Decode, FormatOf, OpcodeOf,
      Funct3Of, Funct7Of;
    DecodedShape(w);
    DecodedImmediate(w);
    match FormatOf(Decode(w).value.op).value {
      case R => WordIsItsR(w);
      case I =>
        WordIsItsI(w);
        ImmediateIHolds(w);
      case Shift => WordIsItsR(w);
      case S => WordIsItsS(w);
      case B => WordIsItsB(w);
      case U => WordIsItsU(w);
      case J => WordIsItsJ(w);
      case System =>
    }
  }
}

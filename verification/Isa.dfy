/** RV32I decoding and evaluation, with the control operations in custom opcodes (sections 2.2 to 2.8 of the ISA manual, volume I). */
module Isa {
  import opened Errors

  type Word = bv32

  datatype Op =
    | Lui | Auipc | Jal | Jalr
    | Beq | Bne | Blt | Bge | Bltu | Bgeu
    | Lb | Lh | Lw | Lbu | Lhu | Sb | Sh | Sw
    | Addi | Slti | Sltiu | Xori | Ori | Andi | Slli | Srli | Srai
    | Add | Sub | Sll | Slt | Sltu | Xor | Srl | Sra | Or | And
    | Fence | Ecall | Ebreak | Quantum

  type RegisterId = r: nat | r < 32

  datatype Decoded = Decoded(op: Op, word: Word, immediate: Word, rd: RegisterId, rs1: RegisterId, rs2: RegisterId, writesRd: bool)

  datatype MemoryKind = NoAccess | Load | Store

  datatype Effect = Effect(
    nextPc: Word, value: Word, address: Word, storeValue: Word, branchTaken: bool, signExtendLoad: bool,
    memory: MemoryKind, width: nat)

  const CONTROL_OPCODE: Word := 0x0b
  const BUNDLE_OPCODE: Word := 0x2b

  // ---- Fields and immediates ----

  function LowMask(bits: nat): Word
    requires bits < 32
  {
    ((1 as Word) << bits) - 1
  }

  function SignMask(bits: nat): Word
    requires 0 < bits <= 32
  {
    (1 as Word) << (bits - 1)
  }

  function Masked(x: Word, mask: Word): Word { x & mask }

  function Minus(a: Word, b: Word): Word { a - b }

  function Flipped(x: Word, sign: Word): Word { x ^ sign }

  function FromSign(low: Word, sign: Word): Word { Minus(Flipped(low, sign), sign) }

  function SignExtend(value: Word, bits: nat): Word
    requires 0 < bits <= 32
  {
    if bits == 32 then value else FromSign(Masked(value, LowMask(bits)), SignMask(bits))
  }

  function Opcode(w: Word): Word { w & 127 }
  function Funct3(w: Word): Word { (w >> 12) & 7 }
  function Funct7(w: Word): Word { w >> 25 }
  function RdField(w: Word): Word { (w >> 7) & 31 }
  function Rs1Field(w: Word): Word { (w >> 15) & 31 }
  function Rs2Field(w: Word): Word { (w >> 20) & 31 }

  function ImmediateI(w: Word): Word { SignExtend(w >> 20, 12) }
  function ImmediateS(w: Word): Word { SignExtend(((w >> 25) << 5) | ((w >> 7) & 31), 12) }
  function ImmediateU(w: Word): Word { w & 0xfffff000 }

  function ImmediateB(w: Word): Word {
    SignExtend(((w >> 31) << 12) | (((w >> 7) & 1) << 11) | (((w >> 25) & 63) << 5) | (((w >> 8) & 15) << 1), 13)
  }

  function ImmediateJ(w: Word): Word {
    SignExtend(((w >> 31) << 20) | (w & 0xff000) | (((w >> 20) & 1) << 11) | (((w >> 21) & 1023) << 1), 21)
  }

  /** A five-bit field as a register number. */
  function Register(field: Word): RegisterId {
    var f := field & 31;
    FiveBits(f);
    f as nat
  }

  lemma FiveBits(f: Word)
    requires f == f & 31
    ensures f as nat < 32
  {
    assert f <= 31;
  }

  // ---- Decoding ----

  function ControlWord(w: Word): bool {
    var mode := Funct7(w);
    var f3 := Funct3(w);
    if f3 == 0 then mode <= 3 && RdField(w) == 0
    else if f3 == 1 then mode == 0 && RdField(w) == 0 && Rs2Field(w) == 0
    else if f3 == 2 || f3 == 6 then RdField(w) == 0
    else if f3 == 3 then mode == 0 && Rs2Field(w) == 0
    else false
  }

  function BranchOp(f3: Word): Option<Op> {
    if f3 == 0 then Some(Beq) else if f3 == 1 then Some(Bne) else if f3 == 4 then Some(Blt)
    else if f3 == 5 then Some(Bge) else if f3 == 6 then Some(Bltu) else if f3 == 7 then Some(Bgeu) else None
  }

  function LoadOp(f3: Word): Option<Op> {
    if f3 == 0 then Some(Lb) else if f3 == 1 then Some(Lh) else if f3 == 2 then Some(Lw)
    else if f3 == 4 then Some(Lbu) else if f3 == 5 then Some(Lhu) else None
  }

  function StoreOp(f3: Word): Option<Op> {
    if f3 == 0 then Some(Sb) else if f3 == 1 then Some(Sh) else if f3 == 2 then Some(Sw) else None
  }

  function ImmediateOp(f3: Word, f7: Word): Option<Op> {
    if f3 == 0 then Some(Addi) else if f3 == 2 then Some(Slti) else if f3 == 3 then Some(Sltiu)
    else if f3 == 4 then Some(Xori) else if f3 == 6 then Some(Ori) else if f3 == 7 then Some(Andi)
    else if f3 == 1 then (if f7 == 0 then Some(Slli) else None)
    else if f7 == 0 then Some(Srli) else if f7 == 32 then Some(Srai) else None
  }

  function RegisterOp(f3: Word, f7: Word): Option<Op> {
    if f7 != 0 && !((f3 == 0 || f3 == 5) && f7 == 32) then None
    else if f3 == 0 then Some(if f7 == 0 then Add else Sub)
    else if f3 == 1 then Some(Sll) else if f3 == 2 then Some(Slt) else if f3 == 3 then Some(Sltu)
    else if f3 == 4 then Some(Xor) else if f3 == 5 then Some(if f7 == 0 then Srl else Sra)
    else if f3 == 6 then Some(Or) else Some(And)
  }

  /** The operation a word encodes, its immediate, and whether it writes a register. */
  datatype Coding = Coding(op: Op, immediate: Word, writesRd: bool)

  function CodingOf(w: Word): Option<Coding> {
    var opcode, f3, f7 := Opcode(w), Funct3(w), Funct7(w);
    if opcode == 0x37 then Some(Coding(Lui, ImmediateU(w), true))
    else if opcode == 0x17 then Some(Coding(Auipc, ImmediateU(w), true))
    else if opcode == 0x6f then Some(Coding(Jal, ImmediateJ(w), true))
    else if opcode == 0x67 then (if f3 == 0 then Some(Coding(Jalr, ImmediateI(w), true)) else None)
    else if opcode == 0x63 then
      (if BranchOp(f3).Some? then Some(Coding(BranchOp(f3).value, ImmediateB(w), false)) else None)
    else if opcode == 0x03 then
      (if LoadOp(f3).Some? then Some(Coding(LoadOp(f3).value, ImmediateI(w), true)) else None)
    else if opcode == 0x23 then
      (if StoreOp(f3).Some? then Some(Coding(StoreOp(f3).value, ImmediateS(w), false)) else None)
    else if opcode == 0x13 then
      (if ImmediateOp(f3, f7).Some?
       then Some(Coding(ImmediateOp(f3, f7).value, if f3 == 1 || f3 == 5 then Rs2Field(w) else ImmediateI(w), true)) else None)
    else if opcode == 0x33 then
      (if RegisterOp(f3, f7).Some? then Some(Coding(RegisterOp(f3, f7).value, 0, true)) else None)
    else if opcode == 0x0f then (if f3 == 0 then Some(Coding(Fence, 0, false)) else None)
    else if opcode == 0x73 then
      (if w == 0x73 then Some(Coding(Ecall, 0, false)) else if w == 0x100073 then Some(Coding(Ebreak, 0, false)) else None)
    else if opcode == CONTROL_OPCODE then
      (if ControlWord(w) then Some(Coding(Quantum, 0, f3 == 3)) else None)
    else None
  }

  function Decode(w: Word): Result<Decoded> {
    var c := CodingOf(w);
    if c.None? then Err(IllegalInstruction)
    else Ok(Decoded(c.value.op, w, c.value.immediate, Register(RdField(w)), Register(Rs1Field(w)), Register(Rs2Field(w)), c.value.writesRd))
  }

  // ---- Evaluation ----

  const SIGN: Word := 0x8000_0000

  predicate Less(a: Word, b: Word) { a < b }

  function SignedLess(a: Word, b: Word): bool { Less(Flipped(a, SIGN), Flipped(b, SIGN)) }

  function Plus(a: Word, b: Word): Word { a + b }

  function Complement(x: Word): Word { !x }

  function ShiftLeft(x: Word, amount: Word): Word { x << (amount & 31) }

  function ShiftRight(x: Word, amount: Word): Word { x >> (amount & 31) }

  function ShiftRightArithmetic(x: Word, amount: Word): Word {
    if x & SIGN != 0 then Complement(ShiftRight(Complement(x), amount)) else ShiftRight(x, amount)
  }

  function AsWord(b: bool): Word { if b then 1 else 0 }

  function Taken(op: Op, a: Word, b: Word): bool {
    match op
    case Jal => true
    case Jalr => true
    case Beq => a == b
    case Bne => a != b
    case Blt => SignedLess(a, b)
    case Bge => !SignedLess(a, b)
    case Bltu => Less(a, b)
    case Bgeu => !Less(a, b)
    case _ => false
  }

  function EvenPart(x: Word): Word { x & 0xffff_fffe }

  predicate Aligned(address: Word) { address & 3 == 0 }

  function Target(d: Decoded, pc: Word, a: Word): Word {
    if d.op == Jalr then EvenPart(Plus(a, d.immediate)) else Plus(pc, d.immediate)
  }

  function Computed(op: Op, a: Word, b: Word): Word {
    match op
    case Add => Plus(a, b)
    case Sub => Minus(a, b)
    case Sll => ShiftLeft(a, b)
    case Slt => AsWord(SignedLess(a, b))
    case Sltu => AsWord(Less(a, b))
    case Xor => a ^ b
    case Srl => ShiftRight(a, b)
    case Sra => ShiftRightArithmetic(a, b)
    case Or => a | b
    case And => a & b
    case _ => 0
  }

  /** The register form of an operation on an immediate. */
  function RegisterForm(op: Op): Option<Op> {
    match op
    case Addi => Some(Add)
    case Slti => Some(Slt)
    case Sltiu => Some(Sltu)
    case Xori => Some(Xor)
    case Ori => Some(Or)
    case Andi => Some(And)
    case Slli => Some(Sll)
    case Srli => Some(Srl)
    case Srai => Some(Sra)
    case _ => None
  }

  function Value(d: Decoded, pc: Word, a: Word, b: Word): Word {
    if d.op == Lui then d.immediate
    else if d.op == Auipc then Plus(pc, d.immediate)
    else if d.op == Jal || d.op == Jalr then Plus(pc, 4)
    else if RegisterForm(d.op).Some? then Computed(RegisterForm(d.op).value, a, d.immediate)
    else Computed(d.op, a, b)
  }

  function KindOf(op: Op): MemoryKind {
    if op == Lb || op == Lh || op == Lw || op == Lbu || op == Lhu then Load
    else if op == Sb || op == Sh || op == Sw then Store else NoAccess
  }

  function WidthOf(op: Op): nat {
    if op == Lb || op == Lbu || op == Sb then 1
    else if op == Lh || op == Lhu || op == Sh then 2
    else if op == Lw || op == Sw then 4 else 0
  }

  function Evaluate(d: Decoded, pc: Word, a: Word, b: Word): Result<Effect> {
    if !Aligned(pc) then Err(InstructionMisaligned)
    else if d.op == Ecall then Err(EnvironmentCall)
    else if d.op == Ebreak then Err(Breakpoint)
    else
      var taken := Taken(d.op, a, b);
      var next := if taken then Target(d, pc, a) else Plus(pc, 4);
      if !Aligned(next) then Err(InstructionMisaligned)
      else
        Ok(Effect(next, Value(d, pc, a, b), Plus(a, d.immediate), b, taken, d.op == Lb || d.op == Lh, KindOf(d.op), WidthOf(d.op)))
  }

  // ---- Control operations ----

  datatype Command = Wait(cycles: Word) | Codeword(port: Word, codeword: Word) | FetchMeasurement(qubit: Word) | Halt | Synchronize(target: Word)

  /** The control operation of a decoded word, with the registers it reads. */
  function AdaptQuantum(d: Decoded, lhs: Word, rhs: Word): Result<Command> {
    var f3 := Funct3(d.word);
    if d.op != Quantum then Err(Protocol)
    else if f3 == 0 then
      Ok(Codeword(if Funct7(d.word) & 1 != 0 then Rs1Field(d.word) else lhs, if Funct7(d.word) & 2 != 0 then Rs2Field(d.word) else rhs))
    else if f3 == 1 then Ok(Wait(lhs))
    else if f3 == 2 then Ok(Wait(d.word >> 15))
    else if f3 == 3 then Ok(FetchMeasurement(Rs1Field(d.word)))
    else if f3 == 6 then Ok(Synchronize(d.word >> 15))
    else Err(IllegalInstruction)
  }

  // ---- Bundles: two codewords in one word ----

  /** The port, codeword and mode fields of a lane. */
  function Slot(w: Word, lane: nat): Word
    requires lane < 2
  {
    if lane == 0 then (w >> 7) & 0xfff else (w >> 19) & 0xfff
  }

  /** The scalar codeword operation that a lane stands for. */
  function ScalarWord(slot: Word): Word {
    CONTROL_OPCODE | ((slot & 31) << 15) | (((slot >> 5) & 31) << 20) | ((slot >> 10) << 25)
  }

  function LaneCommand(w: Word, lane: nat, registers: seq<Word>): Result<Command>
    requires lane < 2 && |registers| == 32
  {
    var slot := Slot(w, lane);
    var d := Decode(ScalarWord(slot));
    if d.Err? then Err(d.error) else AdaptQuantum(d.value, registers[Register(slot)], registers[Register(SecondField(slot))])
  }

  function DecodeBundle(w: Word, registers: seq<Word>): Result<seq<Command>>
    requires |registers| == 32
  {
    if w & 0x8000_007f != BUNDLE_OPCODE then Err(IllegalInstruction)
    else
      var first :- LaneCommand(w, 0, registers);
      var second :- LaneCommand(w, 1, registers);
      Ok([first, second])
  }

  /** The scalar word of a slot is a valid codeword operation with the slot's fields. */
  lemma ScalarWordFields(slot: Word)
    requires slot & 0xfff == slot
    ensures
      var w := ScalarWord(slot);
      && Opcode(w) == CONTROL_OPCODE && Funct3(w) == 0 && ControlWord(w)
      && Rs1Field(w) == slot & 31 && Rs2Field(w) == SecondField(slot) & 31 && Funct7(w) == Modes(slot)
  {
  }

  lemma SlotIsTwelveBits(w: Word, lane: nat)
    requires lane < 2
    ensures Slot(w, lane) & 0xfff == Slot(w, lane)
  {
  }

  function Modes(slot: Word): Word { slot >> 10 }

  function SecondField(slot: Word): Word { slot >> 5 }

  /** A lane's operand is its own field, or the register the field names. */
  function LaneOperand(mode: Word, bit: Word, field: Word, register: Word): Word {
    if mode & bit != 0 then field & 31 else register
  }

  function LaneCodeword(slot: Word, registers: seq<Word>): Command
    requires |registers| == 32
  {
    SlotCodeword(slot, registers[Register(slot)], registers[Register(SecondField(slot))])
  }

  function SlotCodeword(slot: Word, lhs: Word, rhs: Word): Command {
    Codeword(LaneOperand(Modes(slot), 1, slot, lhs), LaneOperand(Modes(slot), 2, SecondField(slot), rhs))
  }

  lemma AdaptedCodeword(d: Decoded, slot: Word, lhs: Word, rhs: Word)
    requires d.op == Quantum && Funct3(d.word) == 0 && Funct7(d.word) == Modes(slot)
    requires Rs1Field(d.word) == slot & 31 && Rs2Field(d.word) == SecondField(slot) & 31
    ensures AdaptQuantum(d, lhs, rhs) == Ok(SlotCodeword(slot, lhs, rhs))
  {
    hide Funct3, Funct7, Rs1Field, Rs2Field, Modes, SecondField;
  }

  lemma ScalarAdapts(slot: Word, lhs: Word, rhs: Word)
    requires slot & 0xfff == slot
    ensures Decode(ScalarWord(slot)).Ok?
    ensures AdaptQuantum(Decode(ScalarWord(slot)).value, lhs, rhs) == Ok(SlotCodeword(slot, lhs, rhs))
  {
    hide *;
    ScalarWordFields(slot);
    ControlDecodes(ScalarWord(slot));
    AdaptedCodeword(Decode(ScalarWord(slot)).value, slot, lhs, rhs);
  }

  lemma LaneIsCodeword(w: Word, lane: nat, registers: seq<Word>)
    requires lane < 2 && |registers| == 32
    ensures LaneCommand(w, lane, registers) == Ok(LaneCodeword(Slot(w, lane), registers))
  {
    hide Slot, ScalarWord, Register, Decode, AdaptQuantum, SlotCodeword, SecondField;
    var slot := Slot(w, lane);
    SlotIsTwelveBits(w, lane);
    ScalarAdapts(slot, registers[Register(slot)], registers[Register(SecondField(slot))]);
  }

  lemma ControlDecodes(w: Word)
    requires Opcode(w) == CONTROL_OPCODE && ControlWord(w)
    ensures Decode(w).Ok? && Decode(w).value.op == Quantum && Decode(w).value.word == w
  {
    hide Register, ControlWord;
  }

  /** A bundle is exactly two codeword operations; it is illegal exactly when its fixed bits differ. */
  lemma BundleIsTwoCodewords(w: Word, registers: seq<Word>)
    requires |registers| == 32
    ensures
      var b := DecodeBundle(w, registers);
      if w & 0x8000_007f == BUNDLE_OPCODE
      then b == Ok([LaneCodeword(Slot(w, 0), registers), LaneCodeword(Slot(w, 1), registers)])
      else b == Err(IllegalInstruction)
  {
    LaneIsCodeword(w, 0, registers);
    LaneIsCodeword(w, 1, registers);
    hide LaneCommand, LaneCodeword, Slot;
  }

  // ---- What the pipeline needs of evaluation ----

  /** Only taken branches and jumps leave the fall-through path. */
  lemma FallsThrough(d: Decoded, pc: Word, a: Word, b: Word)
    requires Evaluate(d, pc, a, b).Ok? && !Evaluate(d, pc, a, b).value.branchTaken
    ensures Evaluate(d, pc, a, b).value.nextPc == pc + 4
  {
  }

  lemma AccessNeverBranches(op: Op, a: Word, b: Word)
    requires KindOf(op) != NoAccess
    ensures !Taken(op, a, b)
  {
    hide SignedLess, Less;
  }

  /** Memory operations never branch. */
  lemma AccessFallsThrough(d: Decoded, pc: Word, a: Word, b: Word)
    requires Evaluate(d, pc, a, b).Ok? && Evaluate(d, pc, a, b).value.memory != NoAccess
    ensures !Evaluate(d, pc, a, b).value.branchTaken && Evaluate(d, pc, a, b).value.nextPc == pc + 4
  {
    hide Taken, KindOf, Target, Value, Aligned;
    AccessNeverBranches(d.op, a, b);
  }
}

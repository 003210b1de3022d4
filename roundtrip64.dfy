/**
 * The RV64I half of the encoder/decoder round trip, decoded with the
 * 64-bit register width. The register shifts share their words with the
 * RV32I ones and come back as the RV32I variants; the 6-bit shift
 * immediates keep shamt bit 5 in the lowest bit of funct7, which the
 * 64-bit decoder ignores when it matches funct7.
 */
module RoundTrip64 {
  import opened Wrappers
  import opened RiscvImm
  import opened Isa
  import opened Asm
  import opened Instr
  import opened Decode32
  import opened Encode32
  import opened RoundTrip32

  /** Every register operand is a register number (below 32). */
  predicate Regs64(i: Asm.RV64I) {
    match i
    case Lwu(x) => RegI(x)
    case Ld(x) => RegI(x)
    case Sd(s) => RegS(s)
    case Sll(r) => RegR(r)
    case Srl(r) => RegR(r)
    case Sra(r) => RegR(r)
    case Slli(x) => RegI(x)
    case Srli(x) => RegI(x)
    case Srai(x) => RegI(x)
    case Addiw(x) => RegI(x)
    case Slliw(x) => RegI(x)
    case Srliw(x) => RegI(x)
    case Sraiw(x) => RegI(x)
    case Addw(r) => RegR(r)
    case Subw(r) => RegR(r)
    case Sllw(r) => RegR(r)
    case Srlw(r) => RegR(r)
    case Sraw(r) => RegR(r)
  }

  /** A 6-bit shift amount with the funct7 code above it. */
  function CanonShift64(x: IType, funct3: bv8, high: bv32): IType {
    IType(x.rd, x.rs1, funct3, Imm((x.imm.bits & 0x3F) | high, 12))
  }

  /** The word `BuildShiftImm64` builds decodes to its operands, with the funct7 base above the shift amount. */
  lemma Shift64Decodes(funct7Base: bv8, funct3: bv8, x: IType)
    requires funct7Base & 1 == 0 && funct7Base < 0x80 && IFits(OPCODE_OP_IMM, x.rd, funct3, x.rs1)
    ensures Opcode(ShiftImm64Word(funct7Base, funct3, x.rd, x.rs1, x.imm.LowU32() & 0x3F)) == OPCODE_OP_IMM
    ensures Funct3(ShiftImm64Word(funct7Base, funct3, x.rd, x.rs1, x.imm.LowU32() & 0x3F)) == funct3
    ensures Funct7(ShiftImm64Word(funct7Base, funct3, x.rd, x.rs1, x.imm.LowU32() & 0x3F)) & 0x7E == funct7Base
    ensures IOf(ShiftImm64Word(funct7Base, funct3, x.rd, x.rs1, x.imm.LowU32() & 0x3F))
         == CanonShift64(x, funct3, (funct7Base as bv32) << 5)
  {
  }

  /** What the 64-bit decoder returns for the encoding of `i`. */
  function Decoded64(i: Asm.RV64I): Option<Instruction> {
    match i
    case Lwu(x) => Some(RV64I(Lwu(CanonI(x, FUNCT3_LOAD_LWU))))
    case Ld(x) => Some(RV64I(Ld(CanonI(x, FUNCT3_LOAD_LD))))
    case Sd(s) => Some(RV64I(Sd(CanonS(s, FUNCT3_STORE_SD))))
    case Sll(r) => Some(RV32I(RV32I.Sll(CanonR(r, FUNCT3_OP_SLL, 0))))
    case Srl(r) => Some(RV32I(RV32I.Srl(CanonR(r, FUNCT3_OP_SRL_SRA, 0))))
    case Sra(r) => Some(RV32I(RV32I.Sra(CanonR(r, FUNCT3_OP_SRL_SRA, FUNCT7_OP_SRA))))
    case Slli(x) => Some(RV64I(RV64I.Slli(CanonShift64(x, FUNCT3_OP_SLL, 0))))
    case Srli(x) => Some(RV64I(RV64I.Srli(CanonShift64(x, FUNCT3_OP_SRL_SRA, 0))))
    case Srai(x) => Some(RV64I(RV64I.Srai(CanonShift64(x, FUNCT3_OP_SRL_SRA, 0x400))))
    case Addiw(x) => Some(RV64I(Addiw(CanonI(x, FUNCT3_OP_ADD_SUB))))
    case Slliw(x) => Some(RV64I(Slliw(CanonShift(x, FUNCT3_OP_SLL, 0))))
    case Srliw(x) => Some(RV64I(Srliw(CanonShift(x, FUNCT3_OP_SRL_SRA, 0))))
    case Sraiw(x) => Some(RV64I(Sraiw(CanonShift(x, FUNCT3_OP_SRL_SRA, 0x400))))
    case Addw(r) => Some(RV64I(Addw(CanonR(r, FUNCT3_OP_ADD_SUB, FUNCT7_OP_ADD))))
    case Subw(r) => Some(RV64I(Subw(CanonR(r, FUNCT3_OP_ADD_SUB, FUNCT7_OP_SUB))))
    case Sllw(r) => Some(RV64I(Sllw(CanonR(r, FUNCT3_OP_SLL, 0))))
    case Srlw(r) => Some(RV64I(Srlw(CanonR(r, FUNCT3_OP_SRL_SRA, 0))))
    case Sraw(r) => Some(RV64I(Sraw(CanonR(r, FUNCT3_OP_SRL_SRA, FUNCT7_OP_SRA))))
  }

  // The double-word and unsigned-word memory accesses.

  lemma LwuDecodes(x: IType)
    requires RegI(x)
    ensures Resolve32(IWord(OPCODE_LOAD, x.rd, FUNCT3_LOAD_LWU, x.rs1, x.imm.LowU32()), X64)
         == Some(RV64I(Lwu(CanonI(x, FUNCT3_LOAD_LWU))))
  {
    IDecodes(OPCODE_LOAD, FUNCT3_LOAD_LWU, x);
  }

  lemma LdDecodes(x: IType)
    requires RegI(x)
    ensures Resolve32(IWord(OPCODE_LOAD, x.rd, FUNCT3_LOAD_LD, x.rs1, x.imm.LowU32()), X64)
         == Some(RV64I(Ld(CanonI(x, FUNCT3_LOAD_LD))))
  {
    IDecodes(OPCODE_LOAD, FUNCT3_LOAD_LD, x);
  }

  lemma SdDecodes(s: SType)
    requires RegS(s)
    ensures Resolve32(SWord(OPCODE_STORE, FUNCT3_STORE_SD, s.rs1, s.rs2, s.imm.LowU32()), X64)
         == Some(RV64I(Sd(CanonS(s, FUNCT3_STORE_SD))))
  {
    SDecodes(OPCODE_STORE, FUNCT3_STORE_SD, s);
  }

  /** Round trip for the double-word and unsigned-word memory accesses. */
  lemma RoundTripMemory(i: Asm.RV64I)
    requires i.Lwu? || i.Ld? || i.Sd?
    requires Regs64(i)
    ensures EncodeRv64i(i).Ok? && Resolve32(EncodeRv64i(i).value, X64) == Decoded64(i)
  {
    match i
    case Lwu(x) => LwuDecodes(x);
    case Ld(x) => LdDecodes(x);
    case Sd(s) => SdDecodes(s);
  }

  // The register shifts, which decode as their RV32I namesakes.

  lemma SllDecodes(r: RType)
    requires RegR(r)
    ensures Resolve32(RWord(OPCODE_OP, r.rd, FUNCT3_OP_SLL, r.rs1, r.rs2, 0), X64)
         == Some(RV32I(RV32I.Sll(CanonR(r, FUNCT3_OP_SLL, 0))))
  {
    RDecodes(OPCODE_OP, FUNCT3_OP_SLL, 0, r);
  }

  lemma SrlDecodes(r: RType)
    requires RegR(r)
    ensures Resolve32(RWord(OPCODE_OP, r.rd, FUNCT3_OP_SRL_SRA, r.rs1, r.rs2, 0), X64)
         == Some(RV32I(RV32I.Srl(CanonR(r, FUNCT3_OP_SRL_SRA, 0))))
  {
    RDecodes(OPCODE_OP, FUNCT3_OP_SRL_SRA, 0, r);
  }

  lemma SraDecodes(r: RType)
    requires RegR(r)
    ensures Resolve32(RWord(OPCODE_OP, r.rd, FUNCT3_OP_SRL_SRA, r.rs1, r.rs2, FUNCT7_OP_SRA), X64)
         == Some(RV32I(RV32I.Sra(CanonR(r, FUNCT3_OP_SRL_SRA, FUNCT7_OP_SRA))))
  {
    RDecodes(OPCODE_OP, FUNCT3_OP_SRL_SRA, FUNCT7_OP_SRA, r);
  }

  /** Round trip for the register shifts, which decode as their RV32I namesakes. */
  lemma RoundTripShifts(i: Asm.RV64I)
    requires i.Sll? || i.Srl? || i.Sra?
    requires Regs64(i)
    ensures EncodeRv64i(i).Ok? && Resolve32(EncodeRv64i(i).value, X64) == Decoded64(i)
  {
    match i
    case Sll(r) => SllDecodes(r);
    case Srl(r) => SrlDecodes(r);
    case Sra(r) => SraDecodes(r);
  }

  // The 6-bit shifts by an immediate.

  lemma SlliDecodes(x: IType)
    requires RegI(x)
    ensures Resolve32(ShiftImm64Word(0, FUNCT3_OP_SLL, x.rd, x.rs1, x.imm.LowU32() & 0x3F), X64)
         == Some(RV64I(RV64I.Slli(CanonShift64(x, FUNCT3_OP_SLL, 0))))
  {
    Shift64Decodes(0, FUNCT3_OP_SLL, x);
  }

  lemma SrliDecodes(x: IType)
    requires RegI(x)
    ensures Resolve32(ShiftImm64Word(FUNCT7_OP_SRL, FUNCT3_OP_SRL_SRA, x.rd, x.rs1, x.imm.LowU32() & 0x3F), X64)
         == Some(RV64I(RV64I.Srli(CanonShift64(x, FUNCT3_OP_SRL_SRA, 0))))
  {
    Shift64Decodes(FUNCT7_OP_SRL, FUNCT3_OP_SRL_SRA, x);
  }

  lemma SraiDecodes(x: IType)
    requires RegI(x)
    ensures Resolve32(ShiftImm64Word(FUNCT7_OP_SRA, FUNCT3_OP_SRL_SRA, x.rd, x.rs1, x.imm.LowU32() & 0x3F), X64)
         == Some(RV64I(RV64I.Srai(CanonShift64(x, FUNCT3_OP_SRL_SRA, 0x400))))
  {
    Shift64Decodes(FUNCT7_OP_SRA, FUNCT3_OP_SRL_SRA, x);
  }

  /** Round trip for the 6-bit shifts by an immediate. */
  lemma RoundTripShiftImm(i: Asm.RV64I)
    requires i.Slli? || i.Srli? || i.Srai?
    requires Regs64(i)
    ensures EncodeRv64i(i).Ok? && Resolve32(EncodeRv64i(i).value, X64) == Decoded64(i)
  {
    match i
    case Slli(x) => SlliDecodes(x);
    case Srli(x) => SrliDecodes(x);
    case Srai(x) => SraiDecodes(x);
  }

  // The word-sized register-immediate operations.

  lemma AddiwDecodes(x: IType)
    requires RegI(x)
    ensures Resolve32(IWord(OPCODE_OP_IMM32, x.rd, FUNCT3_OP_ADD_SUB, x.rs1, x.imm.LowU32()), X64)
         == Some(RV64I(Addiw(CanonI(x, FUNCT3_OP_ADD_SUB))))
  {
    IDecodes(OPCODE_OP_IMM32, FUNCT3_OP_ADD_SUB, x);
  }

  lemma SlliwDecodes(x: IType)
    requires RegI(x)
    ensures Resolve32(IWord(OPCODE_OP_IMM32, x.rd, FUNCT3_OP_SLL, x.rs1, x.imm.LowU32() & 0x1F), X64)
         == Some(RV64I(Slliw(CanonShift(x, FUNCT3_OP_SLL, 0))))
  {
    ShiftDecodes(OPCODE_OP_IMM32, FUNCT3_OP_SLL, 0, x);
  }

  lemma SrliwDecodes(x: IType)
    requires RegI(x)
    ensures Resolve32(IWord(OPCODE_OP_IMM32, x.rd, FUNCT3_OP_SRL_SRA, x.rs1, (x.imm.LowU32() & 0x1F) | ((FUNCT7_OP_SRL as bv32) << 5)), X64)
         == Some(RV64I(Srliw(CanonShift(x, FUNCT3_OP_SRL_SRA, 0))))
  {
    ShiftDecodes(OPCODE_OP_IMM32, FUNCT3_OP_SRL_SRA, FUNCT7_OP_SRL, x);
  }

  lemma SraiwDecodes(x: IType)
    requires RegI(x)
    ensures Resolve32(IWord(OPCODE_OP_IMM32, x.rd, FUNCT3_OP_SRL_SRA, x.rs1, (x.imm.LowU32() & 0x1F) | ((FUNCT7_OP_SRA as bv32) << 5)), X64)
         == Some(RV64I(Sraiw(CanonShift(x, FUNCT3_OP_SRL_SRA, 0x400))))
  {
    ShiftDecodes(OPCODE_OP_IMM32, FUNCT3_OP_SRL_SRA, FUNCT7_OP_SRA, x);
  }

  /** Round trip for the word-sized register-immediate operations. */
  lemma RoundTripWordImm(i: Asm.RV64I)
    requires i.Addiw? || i.Slliw? || i.Srliw? || i.Sraiw?
    requires Regs64(i)
    ensures EncodeRv64i(i).Ok? && Resolve32(EncodeRv64i(i).value, X64) == Decoded64(i)
  {
    match i
    case Addiw(x) => AddiwDecodes(x);
    case Slliw(x) => SlliwDecodes(x);
    case Srliw(x) => SrliwDecodes(x);
    case Sraiw(x) => SraiwDecodes(x);
  }

  // The word-sized register-register operations.

  lemma AddwDecodes(r: RType)
    requires RegR(r)
    ensures Resolve32(RWord(OPCODE_OP_32, r.rd, FUNCT3_OP_ADD_SUB, r.rs1, r.rs2, FUNCT7_OP_ADD), X64)
         == Some(RV64I(Addw(CanonR(r, FUNCT3_OP_ADD_SUB, FUNCT7_OP_ADD))))
  {
    RDecodes(OPCODE_OP_32, FUNCT3_OP_ADD_SUB, FUNCT7_OP_ADD, r);
  }

  lemma SubwDecodes(r: RType)
    requires RegR(r)
    ensures Resolve32(RWord(OPCODE_OP_32, r.rd, FUNCT3_OP_ADD_SUB, r.rs1, r.rs2, FUNCT7_OP_SUB), X64)
         == Some(RV64I(Subw(CanonR(r, FUNCT3_OP_ADD_SUB, FUNCT7_OP_SUB))))
  {
    RDecodes(OPCODE_OP_32, FUNCT3_OP_ADD_SUB, FUNCT7_OP_SUB, r);
  }

  lemma SllwDecodes(r: RType)
    requires RegR(r)
    ensures Resolve32(RWord(OPCODE_OP_32, r.rd, FUNCT3_OP_SLL, r.rs1, r.rs2, 0), X64)
         == Some(RV64I(Sllw(CanonR(r, FUNCT3_OP_SLL, 0))))
  {
    RDecodes(OPCODE_OP_32, FUNCT3_OP_SLL, 0, r);
  }

  lemma SrlwDecodes(r: RType)
    requires RegR(r)
    ensures Resolve32(RWord(OPCODE_OP_32, r.rd, FUNCT3_OP_SRL_SRA, r.rs1, r.rs2, 0), X64)
         == Some(RV64I(Srlw(CanonR(r, FUNCT3_OP_SRL_SRA, 0))))
  {
    RDecodes(OPCODE_OP_32, FUNCT3_OP_SRL_SRA, 0, r);
  }

  lemma SrawDecodes(r: RType)
    requires RegR(r)
    ensures Resolve32(RWord(OPCODE_OP_32, r.rd, FUNCT3_OP_SRL_SRA, r.rs1, r.rs2, FUNCT7_OP_SRA), X64)
         == Some(RV64I(Sraw(CanonR(r, FUNCT3_OP_SRL_SRA, FUNCT7_OP_SRA))))
  {
    RDecodes(OPCODE_OP_32, FUNCT3_OP_SRL_SRA, FUNCT7_OP_SRA, r);
  }

  /** Round trip for the word-sized register-register operations. */
  lemma RoundTripWordOp(i: Asm.RV64I)
    requires i.Addw? || i.Subw? || i.Sllw? || i.Srlw? || i.Sraw?
    requires Regs64(i)
    ensures EncodeRv64i(i).Ok? && Resolve32(EncodeRv64i(i).value, X64) == Decoded64(i)
  {
    match i
    case Addw(r) => AddwDecodes(r);
    case Subw(r) => SubwDecodes(r);
    case Sllw(r) => SllwDecodes(r);
    case Srlw(r) => SrlwDecodes(r);
    case Sraw(r) => SrawDecodes(r);
  }

  /** `addw a0, a0, a1`, from the assembler's own examples. */
  lemma KnownWords64()
    ensures EncodeRv64i(Addw(RType(10, 10, 11, FUNCT3_OP_ADD_SUB, FUNCT7_OP_ADD))) == Ok(0x00B5_053B)
  {
  }

  /**
   * Every RV64I instruction whose registers fit their fields encodes, and
   * the 64-bit decoder reads the encoding back as `Decoded64`.
   */
  lemma RoundTripRv64i(i: Asm.RV64I)
    requires Regs64(i)
    ensures EncodeRv64i(i).Ok? && Resolve32(EncodeRv64i(i).value, X64) == Decoded64(i)
  {
    if i.Lwu? || i.Ld? || i.Sd? {
      RoundTripMemory(i);
    } else if i.Sll? || i.Srl? || i.Sra? {
      RoundTripShifts(i);
    } else if i.Slli? || i.Srli? || i.Srai? {
      RoundTripShiftImm(i);
    } else if i.Addiw? || i.Slliw? || i.Srliw? || i.Sraiw? {
      RoundTripWordImm(i);
    } else {
      RoundTripWordOp(i);
    }
  }
}

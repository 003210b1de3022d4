/**
 * Encoding and decoding 32-bit words are inverse bit permutations. The
 * decoder rebuilds each operand record from the word: funct3 and funct7
 * are the constants the encoder chose for the variant, and an immediate
 * comes back as the bits the encoder kept, with the width the decoder
 * declares. `Decoded32`, `Decoded64` and `DecodedZicsr` write that
 * canonical form out per variant; the lemmas below show the decoder
 * returns it for every encoder output whose registers fit their fields.
 */
module RoundTrip32 {
  import opened Wrappers
  import opened RiscvImm
  import opened Isa
  import opened Asm
  import opened Instr
  import opened Decode32
  import opened Encode32

  // Every register operand of the record is a register number (below 32).
  predicate RegU(u: UType) { u.rd < 32 }
  predicate RegJ(j: JType) { j.rd < 32 }
  predicate RegI(x: IType) { x.rd < 32 && x.rs1 < 32 }
  predicate RegB(b: BType) { b.rs1 < 32 && b.rs2 < 32 }
  predicate RegS(s: SType) { s.rs1 < 32 && s.rs2 < 32 }
  predicate RegR(r: RType) { r.rd < 32 && r.rs1 < 32 && r.rs2 < 32 }

  /** Every register operand is a register number (below 32). */
  predicate Regs32(i: Asm.RV32I) {
    match i
    case Lui(x) => RegU(x)
    case Auipc(x) => RegU(x)
    case Jal(x) => RegJ(x)
    case Jalr(x) => RegI(x)
    case Lb(x) => RegI(x)
    case Lh(x) => RegI(x)
    case Lw(x) => RegI(x)
    case Lbu(x) => RegI(x)
    case Lhu(x) => RegI(x)
    case Addi(x) => RegI(x)
    case Slti(x) => RegI(x)
    case Sltiu(x) => RegI(x)
    case Xori(x) => RegI(x)
    case Ori(x) => RegI(x)
    case Andi(x) => RegI(x)
    case Slli(x) => RegI(x)
    case Srli(x) => RegI(x)
    case Srai(x) => RegI(x)
    case Beq(x) => RegB(x)
    case Bne(x) => RegB(x)
    case Blt(x) => RegB(x)
    case Bge(x) => RegB(x)
    case Bltu(x) => RegB(x)
    case Bgeu(x) => RegB(x)
    case Sb(x) => RegS(x)
    case Sh(x) => RegS(x)
    case Sw(x) => RegS(x)
    case Add(x) => RegR(x)
    case Sub(x) => RegR(x)
    case Sll(x) => RegR(x)
    case Slt(x) => RegR(x)
    case Sltu(x) => RegR(x)
    case Xor(x) => RegR(x)
    case Srl(x) => RegR(x)
    case Sra(x) => RegR(x)
    case Or(x) => RegR(x)
    case And(x) => RegR(x)
    case Mul(x) => RegR(x)
    case Mulh(x) => RegR(x)
    case Mulhsu(x) => RegR(x)
    case Mulhu(x) => RegR(x)
    case Div(x) => RegR(x)
    case Divu(x) => RegR(x)
    case Rem(x) => RegR(x)
    case Remu(x) => RegR(x)
    case Fence | FenceI | Ecall | Ebreak => true
  }

  function CanonU(u: UType): UType { UType(u.rd, Imm(u.imm.bits & 0xFFFFF000, 32)) }
  function CanonJ(j: JType): JType { JType(j.rd, Imm(j.imm.bits & 0x1FFFFE, 12)) }
  function CanonI(x: IType, funct3: bv8): IType { IType(x.rd, x.rs1, funct3, Imm(x.imm.bits & 0xFFF, 12)) }
  function CanonS(s: SType, funct3: bv8): SType { SType(s.rs1, s.rs2, funct3, Imm(s.imm.bits & 0xFFF, 12)) }
  function CanonB(b: BType, funct3: bv8): BType { BType(b.rs1, b.rs2, funct3, Imm(b.imm.bits & 0x1FFE, 12)) }
  function CanonR(r: RType, funct3: bv8, funct7: bv8): RType { RType(r.rd, r.rs1, r.rs2, funct3, funct7) }
  /** A 5-bit shift immediate with the funct7 code the decoder reads above it. */
  function CanonShift(x: IType, funct3: bv8, high: bv32): IType {
    IType(x.rd, x.rs1, funct3, Imm((x.imm.bits & 0x1F) | high, 12))
  }

  // Each field helper's output decodes to the canonical record of its operands.

  lemma UDecodes(opcode: bv32, u: UType)
    requires opcode < 0x80 && u.rd < 32
    ensures Opcode(UWord(opcode, u.rd, u.imm.LowU32())) == opcode
    ensures UOf(UWord(opcode, u.rd, u.imm.LowU32())) == CanonU(u)
  {
  }

  lemma JDecodes(opcode: bv32, j: JType)
    requires opcode < 0x80 && j.rd < 32
    ensures Opcode(JWord(opcode, j.rd, j.imm.LowU32())) == opcode
    ensures JOf(JWord(opcode, j.rd, j.imm.LowU32())) == CanonJ(j)
  {
  }

  lemma IDecodes(opcode: bv32, funct3: bv8, x: IType)
    requires IFits(opcode, x.rd, funct3, x.rs1)
    ensures Opcode(IWord(opcode, x.rd, funct3, x.rs1, x.imm.LowU32())) == opcode
    ensures Funct3(IWord(opcode, x.rd, funct3, x.rs1, x.imm.LowU32())) == funct3
    ensures IOf(IWord(opcode, x.rd, funct3, x.rs1, x.imm.LowU32())) == CanonI(x, funct3)
  {
  }

  lemma SDecodes(opcode: bv32, funct3: bv8, s: SType)
    requires opcode < 0x80 && funct3 < 8 && s.rs1 < 32 && s.rs2 < 32
    ensures Opcode(SWord(opcode, funct3, s.rs1, s.rs2, s.imm.LowU32())) == opcode
    ensures Funct3(SWord(opcode, funct3, s.rs1, s.rs2, s.imm.LowU32())) == funct3
    ensures SOf(SWord(opcode, funct3, s.rs1, s.rs2, s.imm.LowU32())) == CanonS(s, funct3)
  {
  }

  lemma BDecodes(opcode: bv32, funct3: bv8, b: BType)
    requires opcode < 0x80 && funct3 < 8 && b.rs1 < 32 && b.rs2 < 32
    ensures Opcode(BWord(opcode, funct3, b.rs1, b.rs2, b.imm.LowU32())) == opcode
    ensures Funct3(BWord(opcode, funct3, b.rs1, b.rs2, b.imm.LowU32())) == funct3
    ensures BOf(BWord(opcode, funct3, b.rs1, b.rs2, b.imm.LowU32())) == CanonB(b, funct3)
  {
  }

  lemma RDecodes(opcode: bv32, funct3: bv8, funct7: bv8, r: RType)
    requires RFits(opcode, r.rd, funct3, r.rs1, r.rs2, funct7)
    ensures Opcode(RWord(opcode, r.rd, funct3, r.rs1, r.rs2, funct7)) == opcode
    ensures Funct3(RWord(opcode, r.rd, funct3, r.rs1, r.rs2, funct7)) == funct3
    ensures Funct7(RWord(opcode, r.rd, funct3, r.rs1, r.rs2, funct7)) == funct7
    ensures ROf(RWord(opcode, r.rd, funct3, r.rs1, r.rs2, funct7)) == CanonR(r, funct3, funct7)
  {
  }

  /** A 5-bit shift amount with a funct7 code above it. */
  lemma ShiftDecodes(opcode: bv32, funct3: bv8, funct7: bv8, x: IType)
    requires IFits(opcode, x.rd, funct3, x.rs1) && funct7 < 0x80
    ensures Opcode(IWord(opcode, x.rd, funct3, x.rs1, (x.imm.LowU32() & 0x1F) | ((funct7 as bv32) << 5))) == opcode
    ensures Funct3(IWord(opcode, x.rd, funct3, x.rs1, (x.imm.LowU32() & 0x1F) | ((funct7 as bv32) << 5))) == funct3
    ensures Funct7(IWord(opcode, x.rd, funct3, x.rs1, (x.imm.LowU32() & 0x1F) | ((funct7 as bv32) << 5))) == funct7
    ensures IOf(IWord(opcode, x.rd, funct3, x.rs1, (x.imm.LowU32() & 0x1F) | ((funct7 as bv32) << 5)))
         == CanonShift(x, funct3, (funct7 as bv32) << 5)
  {
    IWordFunct7(opcode, x.rd, funct3, x.rs1, (x.imm.LowU32() & 0x1F) | ((funct7 as bv32) << 5));
  }

  /**
   * What the RV32 decoder returns for the encoding of `i`: the same variant
   * with canonical operands, except that `mulhu` is encoded with a funct3
   * the decoder has no M-extension arm for, and `remu` shares `rem`'s word.
   */
  function Decoded32(i: Asm.RV32I): Option<Instruction> {
    match i
    case Lui(u) => Some(RV32I(Lui(CanonU(u))))
    case Auipc(u) => Some(RV32I(Auipc(CanonU(u))))
    case Jal(j) => Some(RV32I(Jal(CanonJ(j))))
    case Jalr(x) => Some(RV32I(Jalr(CanonI(x, 0))))
    case Beq(b) => Some(RV32I(Beq(CanonB(b, FUNCT3_BRANCH_BEQ))))
    case Bne(b) => Some(RV32I(Bne(CanonB(b, FUNCT3_BRANCH_BNE))))
    case Blt(b) => Some(RV32I(Blt(CanonB(b, FUNCT3_BRANCH_BLT))))
    case Bge(b) => Some(RV32I(Bge(CanonB(b, FUNCT3_BRANCH_BGE))))
    case Bltu(b) => Some(RV32I(Bltu(CanonB(b, FUNCT3_BRANCH_BLTU))))
    case Bgeu(b) => Some(RV32I(Bgeu(CanonB(b, FUNCT3_BRANCH_BGEU))))
    case Lb(x) => Some(RV32I(Lb(CanonI(x, FUNCT3_LOAD_LB))))
    case Lh(x) => Some(RV32I(Lh(CanonI(x, FUNCT3_LOAD_LH))))
    case Lw(x) => Some(RV32I(Lw(CanonI(x, FUNCT3_LOAD_LW))))
    case Lbu(x) => Some(RV32I(Lbu(CanonI(x, FUNCT3_LOAD_LBU))))
    case Lhu(x) => Some(RV32I(Lhu(CanonI(x, FUNCT3_LOAD_LHU))))
    case Sb(s) => Some(RV32I(Sb(CanonS(s, FUNCT3_STORE_SB))))
    case Sh(s) => Some(RV32I(Sh(CanonS(s, FUNCT3_STORE_SH))))
    case Sw(s) => Some(RV32I(Sw(CanonS(s, FUNCT3_STORE_SW))))
    case Addi(x) => Some(RV32I(Addi(CanonI(x, FUNCT3_OP_ADD_SUB))))
    case Slti(x) => Some(RV32I(Slti(CanonI(x, FUNCT3_OP_SLT))))
    case Sltiu(x) => Some(RV32I(Sltiu(CanonI(x, FUNCT3_OP_SLTU))))
    case Xori(x) => Some(RV32I(Xori(CanonI(x, FUNCT3_OP_XOR))))
    case Ori(x) => Some(RV32I(Ori(CanonI(x, FUNCT3_OP_OR))))
    case Andi(x) => Some(RV32I(Andi(CanonI(x, FUNCT3_OP_AND))))
    case Slli(x) => Some(RV32I(RV32I.Slli(CanonShift(x, FUNCT3_OP_SLL, 0))))
    case Srli(x) => Some(RV32I(RV32I.Srli(CanonShift(x, FUNCT3_OP_SRL_SRA, 0))))
    case Srai(x) => Some(RV32I(RV32I.Srai(CanonShift(x, FUNCT3_OP_SRL_SRA, 0x400))))
    case Add(r) => Some(RV32I(Add(CanonR(r, FUNCT3_OP_ADD_SUB, FUNCT7_OP_ADD))))
    case Sub(r) => Some(RV32I(Sub(CanonR(r, FUNCT3_OP_ADD_SUB, FUNCT7_OP_SUB))))
    case Sll(r) => Some(RV32I(RV32I.Sll(CanonR(r, FUNCT3_OP_SLL, 0))))
    case Slt(r) => Some(RV32I(Slt(CanonR(r, FUNCT3_OP_SLT, 0))))
    case Sltu(r) => Some(RV32I(Sltu(CanonR(r, FUNCT3_OP_SLTU, 0))))
    case Xor(r) => Some(RV32I(Xor(CanonR(r, FUNCT3_OP_XOR, 0))))
    case Srl(r) => Some(RV32I(RV32I.Srl(CanonR(r, FUNCT3_OP_SRL_SRA, 0))))
    case Sra(r) => Some(RV32I(RV32I.Sra(CanonR(r, FUNCT3_OP_SRL_SRA, FUNCT7_OP_SRA))))
    case Or(r) => Some(RV32I(Or(CanonR(r, FUNCT3_OP_OR, 0))))
    case And(r) => Some(RV32I(And(CanonR(r, FUNCT3_OP_AND, 0))))
    case Mul(r) => Some(RV32I(Mul(CanonR(r, FUNCT3_OP_ADD_SUB, 1))))
    case Mulh(r) => Some(RV32I(Mulh(CanonR(r, FUNCT3_OP_SLL, 1))))
    case Mulhsu(r) => Some(RV32I(Mulhsu(CanonR(r, FUNCT3_OP_XOR, 1))))
    case Mulhu(r) => None
    case Div(r) => Some(RV32I(Div(CanonR(r, FUNCT3_OP_SRL_SRA, 1))))
    case Divu(r) => Some(RV32I(Divu(CanonR(r, FUNCT3_OP_OR, 1))))
    case Rem(r) => Some(RV32I(Rem(CanonR(r, FUNCT3_OP_AND, 1))))
    case Remu(r) => Some(RV32I(Rem(CanonR(r, FUNCT3_OP_AND, 1))))
    case Fence => Some(RV32I(Fence))
    case FenceI => Some(RV32I(FenceI))
    case Ecall => Some(RV32I(Ecall))
    case Ebreak => Some(RV32I(Ebreak))
  }

  // The upper-immediate and jump instructions.

  lemma LuiDecodes(u: UType)
    requires RegU(u)
    ensures Resolve32(UWord(OPCODE_LUI, u.rd, u.imm.LowU32()), X32)
         == Some(RV32I(Lui(CanonU(u))))
  {
    UDecodes(OPCODE_LUI, u);
  }

  lemma AuipcDecodes(u: UType)
    requires RegU(u)
    ensures Resolve32(UWord(OPCODE_AUIPC, u.rd, u.imm.LowU32()), X32)
         == Some(RV32I(Auipc(CanonU(u))))
  {
    UDecodes(OPCODE_AUIPC, u);
  }

  lemma JalDecodes(j: JType)
    requires RegJ(j)
    ensures Resolve32(JWord(OPCODE_JAL, j.rd, j.imm.LowU32()), X32)
         == Some(RV32I(Jal(CanonJ(j))))
  {
    JDecodes(OPCODE_JAL, j);
  }

  lemma JalrDecodes(x: IType)
    requires RegI(x)
    ensures Resolve32(IWord(OPCODE_JALR, x.rd, 0, x.rs1, x.imm.LowU32()), X32)
         == Some(RV32I(Jalr(CanonI(x, 0))))
  {
    IDecodes(OPCODE_JALR, 0, x);
  }

  /** Round trip for the upper-immediate and jump instructions. */
  lemma RoundTripUpperAndJumps(i: Asm.RV32I)
    requires i.Lui? || i.Auipc? || i.Jal? || i.Jalr?
    requires Regs32(i)
    ensures EncodeRv32i(i).Ok? && Resolve32(EncodeRv32i(i).value, X32) == Decoded32(i)
  {
    match i
    case Lui(u) => LuiDecodes(u);
    case Auipc(u) => AuipcDecodes(u);
    case Jal(j) => JalDecodes(j);
    case Jalr(x) => JalrDecodes(x);
  }

  // The conditional branches.

  lemma BeqDecodes(b: BType)
    requires RegB(b)
    ensures Resolve32(BWord(OPCODE_BRANCH, FUNCT3_BRANCH_BEQ, b.rs1, b.rs2, b.imm.LowU32()), X32)
         == Some(RV32I(Beq(CanonB(b, FUNCT3_BRANCH_BEQ))))
  {
    BDecodes(OPCODE_BRANCH, FUNCT3_BRANCH_BEQ, b);
  }

  lemma BneDecodes(b: BType)
    requires RegB(b)
    ensures Resolve32(BWord(OPCODE_BRANCH, FUNCT3_BRANCH_BNE, b.rs1, b.rs2, b.imm.LowU32()), X32)
         == Some(RV32I(Bne(CanonB(b, FUNCT3_BRANCH_BNE))))
  {
    BDecodes(OPCODE_BRANCH, FUNCT3_BRANCH_BNE, b);
  }

  lemma BltDecodes(b: BType)
    requires RegB(b)
    ensures Resolve32(BWord(OPCODE_BRANCH, FUNCT3_BRANCH_BLT, b.rs1, b.rs2, b.imm.LowU32()), X32)
         == Some(RV32I(Blt(CanonB(b, FUNCT3_BRANCH_BLT))))
  {
    BDecodes(OPCODE_BRANCH, FUNCT3_BRANCH_BLT, b);
  }

  lemma BgeDecodes(b: BType)
    requires RegB(b)
    ensures Resolve32(BWord(OPCODE_BRANCH, FUNCT3_BRANCH_BGE, b.rs1, b.rs2, b.imm.LowU32()), X32)
         == Some(RV32I(Bge(CanonB(b, FUNCT3_BRANCH_BGE))))
  {
    BDecodes(OPCODE_BRANCH, FUNCT3_BRANCH_BGE, b);
  }

  lemma BltuDecodes(b: BType)
    requires RegB(b)
    ensures Resolve32(BWord(OPCODE_BRANCH, FUNCT3_BRANCH_BLTU, b.rs1, b.rs2, b.imm.LowU32()), X32)
         == Some(RV32I(Bltu(CanonB(b, FUNCT3_BRANCH_BLTU))))
  {
    BDecodes(OPCODE_BRANCH, FUNCT3_BRANCH_BLTU, b);
  }

  lemma BgeuDecodes(b: BType)
    requires RegB(b)
    ensures Resolve32(BWord(OPCODE_BRANCH, FUNCT3_BRANCH_BGEU, b.rs1, b.rs2, b.imm.LowU32()), X32)
         == Some(RV32I(Bgeu(CanonB(b, FUNCT3_BRANCH_BGEU))))
  {
    BDecodes(OPCODE_BRANCH, FUNCT3_BRANCH_BGEU, b);
  }

  /** Round trip for the conditional branches. */
  lemma RoundTripBranches(i: Asm.RV32I)
    requires i.Beq? || i.Bne? || i.Blt? || i.Bge? || i.Bltu? || i.Bgeu?
    requires Regs32(i)
    ensures EncodeRv32i(i).Ok? && Resolve32(EncodeRv32i(i).value, X32) == Decoded32(i)
  {
    match i
    case Beq(b) => BeqDecodes(b);
    case Bne(b) => BneDecodes(b);
    case Blt(b) => BltDecodes(b);
    case Bge(b) => BgeDecodes(b);
    case Bltu(b) => BltuDecodes(b);
    case Bgeu(b) => BgeuDecodes(b);
  }

  // The loads.

  lemma LbDecodes(x: IType)
    requires RegI(x)
    ensures Resolve32(IWord(OPCODE_LOAD, x.rd, FUNCT3_LOAD_LB, x.rs1, x.imm.LowU32()), X32)
         == Some(RV32I(Lb(CanonI(x, FUNCT3_LOAD_LB))))
  {
    IDecodes(OPCODE_LOAD, FUNCT3_LOAD_LB, x);
  }

  lemma LhDecodes(x: IType)
    requires RegI(x)
    ensures Resolve32(IWord(OPCODE_LOAD, x.rd, FUNCT3_LOAD_LH, x.rs1, x.imm.LowU32()), X32)
         == Some(RV32I(Lh(CanonI(x, FUNCT3_LOAD_LH))))
  {
    IDecodes(OPCODE_LOAD, FUNCT3_LOAD_LH, x);
  }

  lemma LwDecodes(x: IType)
    requires RegI(x)
    ensures Resolve32(IWord(OPCODE_LOAD, x.rd, FUNCT3_LOAD_LW, x.rs1, x.imm.LowU32()), X32)
         == Some(RV32I(Lw(CanonI(x, FUNCT3_LOAD_LW))))
  {
    IDecodes(OPCODE_LOAD, FUNCT3_LOAD_LW, x);
  }

  lemma LbuDecodes(x: IType)
    requires RegI(x)
    ensures Resolve32(IWord(OPCODE_LOAD, x.rd, FUNCT3_LOAD_LBU, x.rs1, x.imm.LowU32()), X32)
         == Some(RV32I(Lbu(CanonI(x, FUNCT3_LOAD_LBU))))
  {
    IDecodes(OPCODE_LOAD, FUNCT3_LOAD_LBU, x);
  }

  lemma LhuDecodes(x: IType)
    requires RegI(x)
    ensures Resolve32(IWord(OPCODE_LOAD, x.rd, FUNCT3_LOAD_LHU, x.rs1, x.imm.LowU32()), X32)
         == Some(RV32I(Lhu(CanonI(x, FUNCT3_LOAD_LHU))))
  {
    IDecodes(OPCODE_LOAD, FUNCT3_LOAD_LHU, x);
  }

  /** Round trip for the loads. */
  lemma RoundTripLoads(i: Asm.RV32I)
    requires i.Lb? || i.Lh? || i.Lw? || i.Lbu? || i.Lhu?
    requires Regs32(i)
    ensures EncodeRv32i(i).Ok? && Resolve32(EncodeRv32i(i).value, X32) == Decoded32(i)
  {
    match i
    case Lb(x) => LbDecodes(x);
    case Lh(x) => LhDecodes(x);
    case Lw(x) => LwDecodes(x);
    case Lbu(x) => LbuDecodes(x);
    case Lhu(x) => LhuDecodes(x);
  }

  // The stores.

  lemma SbDecodes(s: SType)
    requires RegS(s)
    ensures Resolve32(SWord(OPCODE_STORE, FUNCT3_STORE_SB, s.rs1, s.rs2, s.imm.LowU32()), X32)
         == Some(RV32I(Sb(CanonS(s, FUNCT3_STORE_SB))))
  {
    SDecodes(OPCODE_STORE, FUNCT3_STORE_SB, s);
  }

  lemma ShDecodes(s: SType)
    requires RegS(s)
    ensures Resolve32(SWord(OPCODE_STORE, FUNCT3_STORE_SH, s.rs1, s.rs2, s.imm.LowU32()), X32)
         == Some(RV32I(Sh(CanonS(s, FUNCT3_STORE_SH))))
  {
    SDecodes(OPCODE_STORE, FUNCT3_STORE_SH, s);
  }

  lemma SwDecodes(s: SType)
    requires RegS(s)
    ensures Resolve32(SWord(OPCODE_STORE, FUNCT3_STORE_SW, s.rs1, s.rs2, s.imm.LowU32()), X32)
         == Some(RV32I(Sw(CanonS(s, FUNCT3_STORE_SW))))
  {
    SDecodes(OPCODE_STORE, FUNCT3_STORE_SW, s);
  }

  /** Round trip for the stores. */
  lemma RoundTripStores(i: Asm.RV32I)
    requires i.Sb? || i.Sh? || i.Sw?
    requires Regs32(i)
    ensures EncodeRv32i(i).Ok? && Resolve32(EncodeRv32i(i).value, X32) == Decoded32(i)
  {
    match i
    case Sb(s) => SbDecodes(s);
    case Sh(s) => ShDecodes(s);
    case Sw(s) => SwDecodes(s);
  }

  // The register-immediate operations.

  lemma AddiDecodes(x: IType)
    requires RegI(x)
    ensures Resolve32(IWord(OPCODE_OP_IMM, x.rd, FUNCT3_OP_ADD_SUB, x.rs1, x.imm.LowU32()), X32)
         == Some(RV32I(Addi(CanonI(x, FUNCT3_OP_ADD_SUB))))
  {
    IDecodes(OPCODE_OP_IMM, FUNCT3_OP_ADD_SUB, x);
  }

  lemma SltiDecodes(x: IType)
    requires RegI(x)
    ensures Resolve32(IWord(OPCODE_OP_IMM, x.rd, FUNCT3_OP_SLT, x.rs1, x.imm.LowU32()), X32)
         == Some(RV32I(Slti(CanonI(x, FUNCT3_OP_SLT))))
  {
    IDecodes(OPCODE_OP_IMM, FUNCT3_OP_SLT, x);
  }

  lemma SltiuDecodes(x: IType)
    requires RegI(x)
    ensures Resolve32(IWord(OPCODE_OP_IMM, x.rd, FUNCT3_OP_SLTU, x.rs1, x.imm.LowU32()), X32)
         == Some(RV32I(Sltiu(CanonI(x, FUNCT3_OP_SLTU))))
  {
    IDecodes(OPCODE_OP_IMM, FUNCT3_OP_SLTU, x);
  }

  lemma XoriDecodes(x: IType)
    requires RegI(x)
    ensures Resolve32(IWord(OPCODE_OP_IMM, x.rd, FUNCT3_OP_XOR, x.rs1, x.imm.LowU32()), X32)
         == Some(RV32I(Xori(CanonI(x, FUNCT3_OP_XOR))))
  {
    IDecodes(OPCODE_OP_IMM, FUNCT3_OP_XOR, x);
  }

  lemma OriDecodes(x: IType)
    requires RegI(x)
    ensures Resolve32(IWord(OPCODE_OP_IMM, x.rd, FUNCT3_OP_OR, x.rs1, x.imm.LowU32()), X32)
         == Some(RV32I(Ori(CanonI(x, FUNCT3_OP_OR))))
  {
    IDecodes(OPCODE_OP_IMM, FUNCT3_OP_OR, x);
  }

  lemma AndiDecodes(x: IType)
    requires RegI(x)
    ensures Resolve32(IWord(OPCODE_OP_IMM, x.rd, FUNCT3_OP_AND, x.rs1, x.imm.LowU32()), X32)
         == Some(RV32I(Andi(CanonI(x, FUNCT3_OP_AND))))
  {
    IDecodes(OPCODE_OP_IMM, FUNCT3_OP_AND, x);
  }

  /** Round trip for the register-immediate operations. */
  lemma RoundTripOpImm(i: Asm.RV32I)
    requires i.Addi? || i.Slti? || i.Sltiu? || i.Xori? || i.Ori? || i.Andi?
    requires Regs32(i)
    ensures EncodeRv32i(i).Ok? && Resolve32(EncodeRv32i(i).value, X32) == Decoded32(i)
  {
    match i
    case Addi(x) => AddiDecodes(x);
    case Slti(x) => SltiDecodes(x);
    case Sltiu(x) => SltiuDecodes(x);
    case Xori(x) => XoriDecodes(x);
    case Ori(x) => OriDecodes(x);
    case Andi(x) => AndiDecodes(x);
  }

  // The shifts by an immediate.

  lemma SlliDecodes(x: IType)
    requires RegI(x)
    ensures Resolve32(IWord(OPCODE_OP_IMM, x.rd, FUNCT3_OP_SLL, x.rs1, x.imm.LowU32() & 0x1F), X32)
         == Some(RV32I(RV32I.Slli(CanonShift(x, FUNCT3_OP_SLL, 0))))
  {
    ShiftDecodes(OPCODE_OP_IMM, FUNCT3_OP_SLL, 0, x);
  }

  lemma SrliDecodes(x: IType)
    requires RegI(x)
    ensures Resolve32(IWord(OPCODE_OP_IMM, x.rd, FUNCT3_OP_SRL_SRA, x.rs1, (x.imm.LowU32() & 0x1F) | ((FUNCT7_OP_SRL as bv32) << 5)), X32)
         == Some(RV32I(RV32I.Srli(CanonShift(x, FUNCT3_OP_SRL_SRA, 0))))
  {
    ShiftDecodes(OPCODE_OP_IMM, FUNCT3_OP_SRL_SRA, FUNCT7_OP_SRL, x);
  }

  lemma SraiDecodes(x: IType)
    requires RegI(x)
    ensures Resolve32(IWord(OPCODE_OP_IMM, x.rd, FUNCT3_OP_SRL_SRA, x.rs1, (x.imm.LowU32() & 0x1F) | ((FUNCT7_OP_SRA as bv32) << 5)), X32)
         == Some(RV32I(RV32I.Srai(CanonShift(x, FUNCT3_OP_SRL_SRA, 0x400))))
  {
    ShiftDecodes(OPCODE_OP_IMM, FUNCT3_OP_SRL_SRA, FUNCT7_OP_SRA, x);
  }

  /** Round trip for the shifts by an immediate. */
  lemma RoundTripShiftImm(i: Asm.RV32I)
    requires i.Slli? || i.Srli? || i.Srai?
    requires Regs32(i)
    ensures EncodeRv32i(i).Ok? && Resolve32(EncodeRv32i(i).value, X32) == Decoded32(i)
  {
    match i
    case Slli(x) => SlliDecodes(x);
    case Srli(x) => SrliDecodes(x);
    case Srai(x) => SraiDecodes(x);
  }

  // The register-register arithmetic and comparisons.

  lemma AddDecodes(r: RType)
    requires RegR(r)
    ensures Resolve32(RWord(OPCODE_OP, r.rd, FUNCT3_OP_ADD_SUB, r.rs1, r.rs2, FUNCT7_OP_ADD), X32)
         == Some(RV32I(Add(CanonR(r, FUNCT3_OP_ADD_SUB, FUNCT7_OP_ADD))))
  {
    RDecodes(OPCODE_OP, FUNCT3_OP_ADD_SUB, FUNCT7_OP_ADD, r);
  }

  lemma SubDecodes(r: RType)
    requires RegR(r)
    ensures Resolve32(RWord(OPCODE_OP, r.rd, FUNCT3_OP_ADD_SUB, r.rs1, r.rs2, FUNCT7_OP_SUB), X32)
         == Some(RV32I(Sub(CanonR(r, FUNCT3_OP_ADD_SUB, FUNCT7_OP_SUB))))
  {
    RDecodes(OPCODE_OP, FUNCT3_OP_ADD_SUB, FUNCT7_OP_SUB, r);
  }

  lemma SllDecodes(r: RType)
    requires RegR(r)
    ensures Resolve32(RWord(OPCODE_OP, r.rd, FUNCT3_OP_SLL, r.rs1, r.rs2, 0), X32)
         == Some(RV32I(RV32I.Sll(CanonR(r, FUNCT3_OP_SLL, 0))))
  {
    RDecodes(OPCODE_OP, FUNCT3_OP_SLL, 0, r);
  }

  lemma SltDecodes(r: RType)
    requires RegR(r)
    ensures Resolve32(RWord(OPCODE_OP, r.rd, FUNCT3_OP_SLT, r.rs1, r.rs2, 0), X32)
         == Some(RV32I(Slt(CanonR(r, FUNCT3_OP_SLT, 0))))
  {
    RDecodes(OPCODE_OP, FUNCT3_OP_SLT, 0, r);
  }

  lemma SltuDecodes(r: RType)
    requires RegR(r)
    ensures Resolve32(RWord(OPCODE_OP, r.rd, FUNCT3_OP_SLTU, r.rs1, r.rs2, 0), X32)
         == Some(RV32I(Sltu(CanonR(r, FUNCT3_OP_SLTU, 0))))
  {
    RDecodes(OPCODE_OP, FUNCT3_OP_SLTU, 0, r);
  }

  /** Round trip for the register-register arithmetic and comparisons. */
  lemma RoundTripArith(i: Asm.RV32I)
    requires i.Add? || i.Sub? || i.Sll? || i.Slt? || i.Sltu?
    requires Regs32(i)
    ensures EncodeRv32i(i).Ok? && Resolve32(EncodeRv32i(i).value, X32) == Decoded32(i)
  {
    match i
    case Add(r) => AddDecodes(r);
    case Sub(r) => SubDecodes(r);
    case Sll(r) => SllDecodes(r);
    case Slt(r) => SltDecodes(r);
    case Sltu(r) => SltuDecodes(r);
  }

  // The register-register logic and right shifts.

  lemma XorDecodes(r: RType)
    requires RegR(r)
    ensures Resolve32(RWord(OPCODE_OP, r.rd, FUNCT3_OP_XOR, r.rs1, r.rs2, 0), X32)
         == Some(RV32I(Xor(CanonR(r, FUNCT3_OP_XOR, 0))))
  {
    RDecodes(OPCODE_OP, FUNCT3_OP_XOR, 0, r);
  }

  lemma SrlDecodes(r: RType)
    requires RegR(r)
    ensures Resolve32(RWord(OPCODE_OP, r.rd, FUNCT3_OP_SRL_SRA, r.rs1, r.rs2, 0), X32)
         == Some(RV32I(RV32I.Srl(CanonR(r, FUNCT3_OP_SRL_SRA, 0))))
  {
    RDecodes(OPCODE_OP, FUNCT3_OP_SRL_SRA, 0, r);
  }

  lemma SraDecodes(r: RType)
    requires RegR(r)
    ensures Resolve32(RWord(OPCODE_OP, r.rd, FUNCT3_OP_SRL_SRA, r.rs1, r.rs2, FUNCT7_OP_SRA), X32)
         == Some(RV32I(RV32I.Sra(CanonR(r, FUNCT3_OP_SRL_SRA, FUNCT7_OP_SRA))))
  {
    RDecodes(OPCODE_OP, FUNCT3_OP_SRL_SRA, FUNCT7_OP_SRA, r);
  }

  lemma OrDecodes(r: RType)
    requires RegR(r)
    ensures Resolve32(RWord(OPCODE_OP, r.rd, FUNCT3_OP_OR, r.rs1, r.rs2, 0), X32)
         == Some(RV32I(Or(CanonR(r, FUNCT3_OP_OR, 0))))
  {
    RDecodes(OPCODE_OP, FUNCT3_OP_OR, 0, r);
  }

  lemma AndDecodes(r: RType)
    requires RegR(r)
    ensures Resolve32(RWord(OPCODE_OP, r.rd, FUNCT3_OP_AND, r.rs1, r.rs2, 0), X32)
         == Some(RV32I(And(CanonR(r, FUNCT3_OP_AND, 0))))
  {
    RDecodes(OPCODE_OP, FUNCT3_OP_AND, 0, r);
  }

  /** Round trip for the register-register logic and right shifts. */
  lemma RoundTripLogic(i: Asm.RV32I)
    requires i.Xor? || i.Srl? || i.Sra? || i.Or? || i.And?
    requires Regs32(i)
    ensures EncodeRv32i(i).Ok? && Resolve32(EncodeRv32i(i).value, X32) == Decoded32(i)
  {
    match i
    case Xor(r) => XorDecodes(r);
    case Srl(r) => SrlDecodes(r);
    case Sra(r) => SraDecodes(r);
    case Or(r) => OrDecodes(r);
    case And(r) => AndDecodes(r);
  }

  // The multiplications.

  lemma MulDecodes(r: RType)
    requires RegR(r)
    ensures Resolve32(RWord(OPCODE_OP, r.rd, FUNCT3_OP_ADD_SUB, r.rs1, r.rs2, 1), X32)
         == Some(RV32I(Mul(CanonR(r, FUNCT3_OP_ADD_SUB, 1))))
  {
    RDecodes(OPCODE_OP, FUNCT3_OP_ADD_SUB, 1, r);
  }

  lemma MulhDecodes(r: RType)
    requires RegR(r)
    ensures Resolve32(RWord(OPCODE_OP, r.rd, FUNCT3_OP_SLL, r.rs1, r.rs2, 1), X32)
         == Some(RV32I(Mulh(CanonR(r, FUNCT3_OP_SLL, 1))))
  {
    RDecodes(OPCODE_OP, FUNCT3_OP_SLL, 1, r);
  }

  lemma MulhsuDecodes(r: RType)
    requires RegR(r)
    ensures Resolve32(RWord(OPCODE_OP, r.rd, FUNCT3_OP_XOR, r.rs1, r.rs2, 1), X32)
         == Some(RV32I(Mulhsu(CanonR(r, FUNCT3_OP_XOR, 1))))
  {
    RDecodes(OPCODE_OP, FUNCT3_OP_XOR, 1, r);
  }

  lemma MulhuDecodes(r: RType)
    requires RegR(r)
    ensures Resolve32(RWord(OPCODE_OP, r.rd, FUNCT3_OP_SLTU, r.rs1, r.rs2, 1), X32)
         == None
  {
    RDecodes(OPCODE_OP, FUNCT3_OP_SLTU, 1, r);
  }

  /** Round trip for the multiplications. */
  lemma RoundTripMul(i: Asm.RV32I)
    requires i.Mul? || i.Mulh? || i.Mulhsu? || i.Mulhu?
    requires Regs32(i)
    ensures EncodeRv32i(i).Ok? && Resolve32(EncodeRv32i(i).value, X32) == Decoded32(i)
  {
    match i
    case Mul(r) => MulDecodes(r);
    case Mulh(r) => MulhDecodes(r);
    case Mulhsu(r) => MulhsuDecodes(r);
    case Mulhu(r) => MulhuDecodes(r);
  }

  // The divisions and remainders.

  lemma DivDecodes(r: RType)
    requires RegR(r)
    ensures Resolve32(RWord(OPCODE_OP, r.rd, FUNCT3_OP_SRL_SRA, r.rs1, r.rs2, 1), X32)
         == Some(RV32I(Div(CanonR(r, FUNCT3_OP_SRL_SRA, 1))))
  {
    RDecodes(OPCODE_OP, FUNCT3_OP_SRL_SRA, 1, r);
  }

  lemma DivuDecodes(r: RType)
    requires RegR(r)
    ensures Resolve32(RWord(OPCODE_OP, r.rd, FUNCT3_OP_OR, r.rs1, r.rs2, 1), X32)
         == Some(RV32I(Divu(CanonR(r, FUNCT3_OP_OR, 1))))
  {
    RDecodes(OPCODE_OP, FUNCT3_OP_OR, 1, r);
  }

  lemma RemDecodes(r: RType)
    requires RegR(r)
    ensures Resolve32(RWord(OPCODE_OP, r.rd, FUNCT3_OP_AND, r.rs1, r.rs2, 1), X32)
         == Some(RV32I(Rem(CanonR(r, FUNCT3_OP_AND, 1))))
  {
    RDecodes(OPCODE_OP, FUNCT3_OP_AND, 1, r);
  }

  lemma RemuDecodes(r: RType)
    requires RegR(r)
    ensures Resolve32(RWord(OPCODE_OP, r.rd, FUNCT3_OP_AND, r.rs1, r.rs2, 1), X32)
         == Some(RV32I(Rem(CanonR(r, FUNCT3_OP_AND, 1))))
  {
    RDecodes(OPCODE_OP, FUNCT3_OP_AND, 1, r);
  }

  /** Round trip for the divisions and remainders. */
  lemma RoundTripDiv(i: Asm.RV32I)
    requires i.Div? || i.Divu? || i.Rem? || i.Remu?
    requires Regs32(i)
    ensures EncodeRv32i(i).Ok? && Resolve32(EncodeRv32i(i).value, X32) == Decoded32(i)
  {
    match i
    case Div(r) => DivDecodes(r);
    case Divu(r) => DivuDecodes(r);
    case Rem(r) => RemDecodes(r);
    case Remu(r) => RemuDecodes(r);
  }

  // The fence and environment instructions have no operands: each encodes to one constant word.

  lemma FenceDecodes()
    ensures EncodeRv32i(Fence) == Ok(0x0000_000F)
    ensures Resolve32(0x0000_000F, X32) == Some(RV32I(Fence))
  {
  }

  lemma FenceIDecodes()
    ensures EncodeRv32i(FenceI) == Ok(0x0000_100F)
    ensures Resolve32(0x0000_100F, X32) == Some(RV32I(FenceI))
  {
  }

  lemma EcallDecodes()
    ensures EncodeRv32i(Ecall) == Ok(0x0000_0073)
    ensures Resolve32(0x0000_0073, X32) == Some(RV32I(Ecall))
  {
  }

  lemma EbreakDecodes()
    ensures EncodeRv32i(Ebreak) == Ok(0x0010_0073)
    ensures Resolve32(0x0010_0073, X32) == Some(RV32I(Ebreak))
  {
  }

  /** Two words the assembler's own examples give: `addi x1, x2, 10` and `lui x3, 0x12345`. */
  lemma KnownWords32()
    ensures EncodeRv32i(Addi(IType(1, 2, FUNCT3_OP_ADD_SUB, Imm(10, 12)))) == Ok(0x00A1_0093)
    ensures EncodeRv32i(Lui(UType(3, Imm(0x1234_5000, 32)))) == Ok(0x1234_51B7)
  {
  }

  /**
   * Every RV32I instruction whose registers fit their fields encodes, and
   * the RV32 decoder reads the encoding back as `Decoded32`.
   */
  lemma RoundTripRv32i(i: Asm.RV32I)
    requires Regs32(i)
    ensures EncodeRv32i(i).Ok? && Resolve32(EncodeRv32i(i).value, X32) == Decoded32(i)
  {
    if i.Lui? || i.Auipc? || i.Jal? || i.Jalr? {
      RoundTripUpperAndJumps(i);
    } else if i.Beq? || i.Bne? || i.Blt? || i.Bge? || i.Bltu? || i.Bgeu? {
      RoundTripBranches(i);
    } else if i.Lb? || i.Lh? || i.Lw? || i.Lbu? || i.Lhu? {
      RoundTripLoads(i);
    } else if i.Sb? || i.Sh? || i.Sw? {
      RoundTripStores(i);
    } else if i.Addi? || i.Slti? || i.Sltiu? || i.Xori? || i.Ori? || i.Andi? {
      RoundTripOpImm(i);
    } else if i.Slli? || i.Srli? || i.Srai? {
      RoundTripShiftImm(i);
    } else if i.Add? || i.Sub? || i.Sll? || i.Slt? || i.Sltu? {
      RoundTripArith(i);
    } else if i.Xor? || i.Srl? || i.Sra? || i.Or? || i.And? {
      RoundTripLogic(i);
    } else if i.Mul? || i.Mulh? || i.Mulhsu? || i.Mulhu? {
      RoundTripMul(i);
    } else if i.Div? || i.Divu? || i.Rem? || i.Remu? {
      RoundTripDiv(i);
    } else if i.Fence? {
      FenceDecodes();
    } else if i.FenceI? {
      FenceIDecodes();
    } else if i.Ecall? {
      EcallDecodes();
    } else {
      EbreakDecodes();
    }
  }
}

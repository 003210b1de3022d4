/**
 * `encode_u32`: packing an instruction record into a 32-bit word. The
 * field helpers place each operand at the position the decoder reads it
 * from (RISC-V Unprivileged ISA 20191213, sections 2.2 and 2.3); their
 * contracts say so through the decoder's own slice functions, for
 * operands that fit their fields.
 */
module Encode32 {
  import opened Wrappers
  import opened RiscvImm
  import opened Isa
  import opened Asm
  import opened Instr
  import opened Decode32
  import RustStr

  /** The encoder's error strings. */
  datatype EncodeError =
    | ShamtOutOfRange(shamt: bv32, maxBits: bv32)
    | RvcUnsupported
    | RvfUnsupported
    | AtomicUnsupported

  function Describe(e: EncodeError): (s: string)
    ensures s != []
  {
    match e
    case ShamtOutOfRange(shamt, maxBits) =>
      "shamt " + RustStr.Decimal(shamt as nat) + " out of range for " + RustStr.Decimal(maxBits as nat) + "-bit"
    case RvcUnsupported => "RVC (compressed) encoding is not yet supported"
    case RvfUnsupported => "RVF encoding is not yet supported"
    case AtomicUnsupported => "A-extension encoding is not yet supported"
  }

  /** Operands that fit the R-type fields. */
  predicate RFits(opcode: bv32, rd: bv8, funct3: bv8, rs1: bv8, rs2: bv8, funct7: bv8) {
    opcode < 0x80 && rd < 32 && funct3 < 8 && rs1 < 32 && rs2 < 32 && funct7 < 0x80
  }

  /** `r_type`: the decoder reads every operand back from its field. */
  function RWord(opcode: bv32, rd: bv8, funct3: bv8, rs1: bv8, rs2: bv8, funct7: bv8): (w: bv32)
    ensures w & 3 == opcode & 3
    ensures RFits(opcode, rd, funct3, rs1, rs2, funct7) ==>
      Opcode(w) == opcode && Rd(w) == rd && Funct3(w) == funct3
      && Rs1(w) == rs1 && Rs2(w) == rs2 && Funct7(w) == funct7
  {
    ((funct7 as bv32) << 25) | ((rs2 as bv32) << 20) | ((rs1 as bv32) << 15)
    | ((funct3 as bv32) << 12) | ((rd as bv32) << 7) | opcode
  }

  /** Operands other than the immediate that fit the I-type fields. */
  predicate IFits(opcode: bv32, rd: bv8, funct3: bv8, rs1: bv8) {
    opcode < 0x80 && rd < 32 && funct3 < 8 && rs1 < 32
  }

  /** `i_type`: only the low 12 bits of the immediate are kept, in bits 31:20. */
  function IWord(opcode: bv32, rd: bv8, funct3: bv8, rs1: bv8, imm12: bv32): (w: bv32)
    ensures w & 3 == opcode & 3
    ensures IFits(opcode, rd, funct3, rs1) ==>
      Opcode(w) == opcode && Rd(w) == rd && Funct3(w) == funct3 && Rs1(w) == rs1
      && ImmI(w) == imm12 & 0xFFF
  {
    ((imm12 & 0xFFF) << 20) | ((rs1 as bv32) << 15) | ((funct3 as bv32) << 12) | ((rd as bv32) << 7) | opcode
  }

  /** The I-type immediate is also what the decoder reads as funct12 and as the CSR number. */
  lemma IWordFunct12(opcode: bv32, rd: bv8, funct3: bv8, rs1: bv8, imm12: bv32)
    requires IFits(opcode, rd, funct3, rs1)
    ensures Funct12(IWord(opcode, rd, funct3, rs1, imm12)) == imm12 & 0xFFF
    ensures Csr(IWord(opcode, rd, funct3, rs1, imm12)) == ((imm12 & 0xFFF) as bv16)
  {
  }

  /** The upper seven bits of the I-type immediate are what the decoder reads as funct7. */
  lemma IWordFunct7(opcode: bv32, rd: bv8, funct3: bv8, rs1: bv8, imm12: bv32)
    requires IFits(opcode, rd, funct3, rs1)
    ensures Funct7(IWord(opcode, rd, funct3, rs1, imm12)) == ((imm12 >> 5) & 0x7F) as bv8
  {
  }

  /** `s_type`: the 12-bit immediate is split over bits 31:25 and 11:7. */
  function SWord(opcode: bv32, funct3: bv8, rs1: bv8, rs2: bv8, imm12: bv32): (w: bv32)
    ensures w & 3 == opcode & 3
    ensures opcode < 0x80 && funct3 < 8 && rs1 < 32 && rs2 < 32 ==>
      Opcode(w) == opcode && Funct3(w) == funct3 && Rs1(w) == rs1 && Rs2(w) == rs2
      && ImmS(w) == imm12 & 0xFFF
  {
    var immLow := imm12 & 0x1F;
    var immHigh := (imm12 >> 5) & 0x7F;
    (immHigh << 25) | ((rs2 as bv32) << 20) | ((rs1 as bv32) << 15) | ((funct3 as bv32) << 12) | (immLow << 7) | opcode
  }

  /** `b_type`: offset bits 12:1 are scattered; bit 0 and bits above 12 are dropped. */
  function BWord(opcode: bv32, funct3: bv8, rs1: bv8, rs2: bv8, imm: bv32): (w: bv32)
    ensures w & 3 == opcode & 3
    ensures opcode < 0x80 && funct3 < 8 && rs1 < 32 && rs2 < 32 ==>
      Opcode(w) == opcode && Funct3(w) == funct3 && Rs1(w) == rs1 && Rs2(w) == rs2
      && ImmB(w) == imm & 0x1FFE
  {
    var bit11 := (imm >> 11) & 0x1;
    var bits4to1 := (imm >> 1) & 0xF;
    var bits10to5 := (imm >> 5) & 0x3F;
    var bit12 := (imm >> 12) & 0x1;
    (bit12 << 31) | (bits10to5 << 25) | ((rs2 as bv32) << 20) | ((rs1 as bv32) << 15)
    | ((funct3 as bv32) << 12) | (bits4to1 << 8) | (bit11 << 7) | opcode
  }

  /** `u_type`: the upper 20 bits of the immediate stay where they are. */
  function UWord(opcode: bv32, rd: bv8, immHi20: bv32): (w: bv32)
    ensures w & 3 == opcode & 3
    ensures opcode < 0x80 && rd < 32 ==>
      Opcode(w) == opcode && Rd(w) == rd && ImmU(w) == immHi20 & 0xFFFFF000
  {
    (immHi20 & 0xFFFFF000) | ((rd as bv32) << 7) | opcode
  }

  /** `j_type`: offset bits 20:1 are scattered; bit 0 and bits above 20 are dropped. */
  function JWord(opcode: bv32, rd: bv8, imm: bv32): (w: bv32)
    ensures w & 3 == opcode & 3
    ensures opcode < 0x80 && rd < 32 ==>
      Opcode(w) == opcode && Rd(w) == rd && ImmJ(w) == imm & 0x1FFFFE
  {
    var bit20 := (imm >> 20) & 0x1;
    var bits10to1 := (imm >> 1) & 0x3FF;
    var bit11 := (imm >> 11) & 0x1;
    var bits19to12 := (imm >> 12) & 0xFF;
    (bit20 << 31) | (bits19to12 << 12) | (bit11 << 20) | (bits10to1 << 21) | ((rd as bv32) << 7) | opcode
  }

  /** The field helpers lose nothing: every word is the packing of the fields the decoder reads from it. */
  lemma RWordOfFields(w: bv32)
    ensures w == RWord(Opcode(w), Rd(w), Funct3(w), Rs1(w), Rs2(w), Funct7(w))
  {
  }

  lemma IWordOfFields(w: bv32)
    ensures w == IWord(Opcode(w), Rd(w), Funct3(w), Rs1(w), ImmI(w))
  {
  }

  lemma SWordOfFields(w: bv32)
    ensures w == SWord(Opcode(w), Funct3(w), Rs1(w), Rs2(w), ImmS(w))
  {
  }

  lemma BWordOfFields(w: bv32)
    ensures w == BWord(Opcode(w), Funct3(w), Rs1(w), Rs2(w), ImmB(w))
  {
  }

  lemma UWordOfFields(w: bv32)
    ensures w == UWord(Opcode(w), Rd(w), ImmU(w))
  {
  }

  lemma JWordOfFields(w: bv32)
    ensures w == JWord(Opcode(w), Rd(w), ImmJ(w))
  {
  }

  /** `validate_shamt`: a shift amount must be below 2^maxBits, that is, have no bit set from maxBits up. */
  function ValidateShamt(shamt: bv32, maxBits: bv32): (r: Result<(), EncodeError>)
    requires maxBits < 32
    ensures r.Ok? <==> shamt >> maxBits == 0
    ensures r.Err? ==> r.error == ShamtOutOfRange(shamt, maxBits)
  {
    if shamt < (1 as bv32) << maxBits then Ok(()) else Err(ShamtOutOfRange(shamt, maxBits))
  }

  /**
   * The RV64I shift-immediate arms build the word field by field in a
   * local, starting from zero: funct7 (its base with shamt bit 5 in its
   * lowest bit), shamt bits 4:0, rs1, funct3, rd, the opcode.
   */
  method BuildShiftImm64(funct7Base: bv8, funct3: bv8, rd: bv8, rs1: bv8, shamt: bv32) returns (ins: bv32)
    requires shamt < 64
    ensures ins == ShiftImm64Word(funct7Base, funct3, rd, rs1, shamt)
  {
    var immLow5 := shamt & 0x1F;
    var funct7 := funct7Base | (((shamt >> 5) as bv8) & 0x1);
    ins := 0;
    ins := ins | ((funct7 as bv32) << 25);
    ins := ins | (immLow5 << 20);
    ins := ins | ((rs1 as bv32) << 15);
    ins := ins | ((funct3 as bv32) << 12);
    ins := ins | ((rd as bv32) << 7);
    ins := ins | OPCODE_OP_IMM;
  }

  /**
   * The word `BuildShiftImm64` builds: shamt bits 4:0 where the decoder
   * reads rs2, shamt bit 5 as the lowest bit of funct7, the funct7 base
   * in the six bits above it.
   */
  function ShiftImm64Word(funct7Base: bv8, funct3: bv8, rd: bv8, rs1: bv8, shamt: bv32): (w: bv32)
    requires shamt < 64
    ensures w & 3 == OPCODE_OP_IMM & 3
    ensures funct7Base & 1 == 0 && funct7Base < 0x80 && IFits(OPCODE_OP_IMM, rd, funct3, rs1) ==>
      Opcode(w) == OPCODE_OP_IMM && Rd(w) == rd && Rs1(w) == rs1 && Funct3(w) == funct3
      && Funct7(w) & 0x7E == funct7Base && ImmI(w) == ((funct7Base as bv32) << 5) | shamt
  {
    var funct7 := funct7Base | (((shamt >> 5) as bv8) & 0x1);
    ((funct7 as bv32) << 25) | ((shamt & 0x1F) << 20) | ((rs1 as bv32) << 15)
    | ((funct3 as bv32) << 12) | ((rd as bv32) << 7) | OPCODE_OP_IMM
  }

  /** The shape of every RV32I arm: a field helper or a checked shift. */
  function EncodeRv32i(i: Asm.RV32I): (r: Result<bv32, EncodeError>)
    ensures r.Ok? ==> r.value & 3 == 3
  {
    match i
    case Lui(u) => Ok(UWord(OPCODE_LUI, u.rd, u.imm.LowU32()))
    case Auipc(u) => Ok(UWord(OPCODE_AUIPC, u.rd, u.imm.LowU32()))
    case Jal(j) => Ok(JWord(OPCODE_JAL, j.rd, j.imm.LowU32()))
    case Jalr(x) => Ok(IWord(OPCODE_JALR, x.rd, 0, x.rs1, x.imm.LowU32()))
    case Beq(b) => Ok(BWord(OPCODE_BRANCH, FUNCT3_BRANCH_BEQ, b.rs1, b.rs2, b.imm.LowU32()))
    case Bne(b) => Ok(BWord(OPCODE_BRANCH, FUNCT3_BRANCH_BNE, b.rs1, b.rs2, b.imm.LowU32()))
    case Blt(b) => Ok(BWord(OPCODE_BRANCH, FUNCT3_BRANCH_BLT, b.rs1, b.rs2, b.imm.LowU32()))
    case Bge(b) => Ok(BWord(OPCODE_BRANCH, FUNCT3_BRANCH_BGE, b.rs1, b.rs2, b.imm.LowU32()))
    case Bltu(b) => Ok(BWord(OPCODE_BRANCH, FUNCT3_BRANCH_BLTU, b.rs1, b.rs2, b.imm.LowU32()))
    case Bgeu(b) => Ok(BWord(OPCODE_BRANCH, FUNCT3_BRANCH_BGEU, b.rs1, b.rs2, b.imm.LowU32()))
    case Lb(x) => Ok(IWord(OPCODE_LOAD, x.rd, FUNCT3_LOAD_LB, x.rs1, x.imm.LowU32()))
    case Lh(x) => Ok(IWord(OPCODE_LOAD, x.rd, FUNCT3_LOAD_LH, x.rs1, x.imm.LowU32()))
    case Lw(x) => Ok(IWord(OPCODE_LOAD, x.rd, FUNCT3_LOAD_LW, x.rs1, x.imm.LowU32()))
    case Lbu(x) => Ok(IWord(OPCODE_LOAD, x.rd, FUNCT3_LOAD_LBU, x.rs1, x.imm.LowU32()))
    case Lhu(x) => Ok(IWord(OPCODE_LOAD, x.rd, FUNCT3_LOAD_LHU, x.rs1, x.imm.LowU32()))
    case Sb(s) => Ok(SWord(OPCODE_STORE, FUNCT3_STORE_SB, s.rs1, s.rs2, s.imm.LowU32()))
    case Sh(s) => Ok(SWord(OPCODE_STORE, FUNCT3_STORE_SH, s.rs1, s.rs2, s.imm.LowU32()))
    case Sw(s) => Ok(SWord(OPCODE_STORE, FUNCT3_STORE_SW, s.rs1, s.rs2, s.imm.LowU32()))
    case Addi(x) => Ok(IWord(OPCODE_OP_IMM, x.rd, FUNCT3_OP_ADD_SUB, x.rs1, x.imm.LowU32()))
    case Slti(x) => Ok(IWord(OPCODE_OP_IMM, x.rd, FUNCT3_OP_SLT, x.rs1, x.imm.LowU32()))
    case Sltiu(x) => Ok(IWord(OPCODE_OP_IMM, x.rd, FUNCT3_OP_SLTU, x.rs1, x.imm.LowU32()))
    case Xori(x) => Ok(IWord(OPCODE_OP_IMM, x.rd, FUNCT3_OP_XOR, x.rs1, x.imm.LowU32()))
    case Ori(x) => Ok(IWord(OPCODE_OP_IMM, x.rd, FUNCT3_OP_OR, x.rs1, x.imm.LowU32()))
    case Andi(x) => Ok(IWord(OPCODE_OP_IMM, x.rd, FUNCT3_OP_AND, x.rs1, x.imm.LowU32()))
    case Slli(x) =>
      var shamt := x.imm.LowU32() & 0x1F;
      (match ValidateShamt(shamt, 5)
       case Err(e) => Err(e)
       case Ok(_) => Ok(IWord(OPCODE_OP_IMM, x.rd, FUNCT3_OP_SLL, x.rs1, shamt)))
    case Srli(x) =>
      var shamt := x.imm.LowU32() & 0x1F;
      (match ValidateShamt(shamt, 5)
       case Err(e) => Err(e)
       case Ok(_) => Ok(IWord(OPCODE_OP_IMM, x.rd, FUNCT3_OP_SRL_SRA, x.rs1, shamt | ((FUNCT7_OP_SRL as bv32) << 5))))
    case Srai(x) =>
      var shamt := x.imm.LowU32() & 0x1F;
      (match ValidateShamt(shamt, 5)
       case Err(e) => Err(e)
       case Ok(_) => Ok(IWord(OPCODE_OP_IMM, x.rd, FUNCT3_OP_SRL_SRA, x.rs1, shamt | ((FUNCT7_OP_SRA as bv32) << 5))))
    case Add(r) => Ok(RWord(OPCODE_OP, r.rd, FUNCT3_OP_ADD_SUB, r.rs1, r.rs2, FUNCT7_OP_ADD))
    case Sub(r) => Ok(RWord(OPCODE_OP, r.rd, FUNCT3_OP_ADD_SUB, r.rs1, r.rs2, FUNCT7_OP_SUB))
    case Sll(r) => Ok(RWord(OPCODE_OP, r.rd, FUNCT3_OP_SLL, r.rs1, r.rs2, 0))
    case Slt(r) => Ok(RWord(OPCODE_OP, r.rd, FUNCT3_OP_SLT, r.rs1, r.rs2, 0))
    case Sltu(r) => Ok(RWord(OPCODE_OP, r.rd, FUNCT3_OP_SLTU, r.rs1, r.rs2, 0))
    case Xor(r) => Ok(RWord(OPCODE_OP, r.rd, FUNCT3_OP_XOR, r.rs1, r.rs2, 0))
    case Srl(r) => Ok(RWord(OPCODE_OP, r.rd, FUNCT3_OP_SRL_SRA, r.rs1, r.rs2, 0))
    case Sra(r) => Ok(RWord(OPCODE_OP, r.rd, FUNCT3_OP_SRL_SRA, r.rs1, r.rs2, FUNCT7_OP_SRA))
    case Or(r) => Ok(RWord(OPCODE_OP, r.rd, FUNCT3_OP_OR, r.rs1, r.rs2, 0))
    case And(r) => Ok(RWord(OPCODE_OP, r.rd, FUNCT3_OP_AND, r.rs1, r.rs2, 0))
    case Mul(r) => Ok(RWord(OPCODE_OP, r.rd, FUNCT3_OP_ADD_SUB, r.rs1, r.rs2, 1))
    case Mulh(r) => Ok(RWord(OPCODE_OP, r.rd, FUNCT3_OP_SLL, r.rs1, r.rs2, 1))
    case Mulhsu(r) => Ok(RWord(OPCODE_OP, r.rd, FUNCT3_OP_XOR, r.rs1, r.rs2, 1))
    case Mulhu(r) => Ok(RWord(OPCODE_OP, r.rd, FUNCT3_OP_SLTU, r.rs1, r.rs2, 1))
    case Div(r) => Ok(RWord(OPCODE_OP, r.rd, FUNCT3_OP_SRL_SRA, r.rs1, r.rs2, 1))
    case Divu(r) => Ok(RWord(OPCODE_OP, r.rd, FUNCT3_OP_OR, r.rs1, r.rs2, 1))
    case Rem(r) => Ok(RWord(OPCODE_OP, r.rd, FUNCT3_OP_AND, r.rs1, r.rs2, 1))
    case Remu(r) => Ok(RWord(OPCODE_OP, r.rd, FUNCT3_OP_AND, r.rs1, r.rs2, 1))
    case Fence => Ok(IWord(OPCODE_MISC_MEM, 0, FUNCT3_MISC_MEM_FENCE, 0, 0))
    case FenceI => Ok(IWord(OPCODE_MISC_MEM, 0, FUNCT3_MISC_MEM_FENCE_I, 0, 0))
    case Ecall => Ok(IWord(OPCODE_SYSTEM, 0, FUNCT3_SYSTEM_PRIV, 0, FUNCT12_SYSTEM_ECALL))
    case Ebreak => Ok(IWord(OPCODE_SYSTEM, 0, FUNCT3_SYSTEM_PRIV, 0, FUNCT12_SYSTEM_EBREAK))
  }

  /** The RV64I arms; the 6-bit shift-immediates use the word `BuildShiftImm64` builds. */
  function EncodeRv64i(i: Asm.RV64I): (r: Result<bv32, EncodeError>)
    ensures r.Ok? ==> r.value & 3 == 3
  {
    match i
    case Lwu(x) => Ok(IWord(OPCODE_LOAD, x.rd, FUNCT3_LOAD_LWU, x.rs1, x.imm.LowU32()))
    case Ld(x) => Ok(IWord(OPCODE_LOAD, x.rd, FUNCT3_LOAD_LD, x.rs1, x.imm.LowU32()))
    case Sd(s) => Ok(SWord(OPCODE_STORE, FUNCT3_STORE_SD, s.rs1, s.rs2, s.imm.LowU32()))
    case Sll(r) => Ok(RWord(OPCODE_OP, r.rd, FUNCT3_OP_SLL, r.rs1, r.rs2, 0))
    case Srl(r) => Ok(RWord(OPCODE_OP, r.rd, FUNCT3_OP_SRL_SRA, r.rs1, r.rs2, 0))
    case Sra(r) => Ok(RWord(OPCODE_OP, r.rd, FUNCT3_OP_SRL_SRA, r.rs1, r.rs2, FUNCT7_OP_SRA))
    case Slli(x) =>
      var shamt := x.imm.LowU32() & 0x3F;
      (match ValidateShamt(shamt, 6)
       case Err(e) => Err(e)
       case Ok(_) => Ok(ShiftImm64Word(0, FUNCT3_OP_SLL, x.rd, x.rs1, shamt)))
    case Srli(x) =>
      var shamt := x.imm.LowU32() & 0x3F;
      (match ValidateShamt(shamt, 6)
       case Err(e) => Err(e)
       case Ok(_) => Ok(ShiftImm64Word(FUNCT7_OP_SRL, FUNCT3_OP_SRL_SRA, x.rd, x.rs1, shamt)))
    case Srai(x) =>
      var shamt := x.imm.LowU32() & 0x3F;
      (match ValidateShamt(shamt, 6)
       case Err(e) => Err(e)
       case Ok(_) => Ok(ShiftImm64Word(FUNCT7_OP_SRA, FUNCT3_OP_SRL_SRA, x.rd, x.rs1, shamt)))
    case Addiw(x) => Ok(IWord(OPCODE_OP_IMM32, x.rd, FUNCT3_OP_ADD_SUB, x.rs1, x.imm.LowU32()))
    case Slliw(x) =>
      var shamt := x.imm.LowU32() & 0x1F;
      (match ValidateShamt(shamt, 5)
       case Err(e) => Err(e)
       case Ok(_) => Ok(IWord(OPCODE_OP_IMM32, x.rd, FUNCT3_OP_SLL, x.rs1, shamt)))
    case Srliw(x) =>
      var shamt := x.imm.LowU32() & 0x1F;
      (match ValidateShamt(shamt, 5)
       case Err(e) => Err(e)
       case Ok(_) => Ok(IWord(OPCODE_OP_IMM32, x.rd, FUNCT3_OP_SRL_SRA, x.rs1, shamt | ((FUNCT7_OP_SRL as bv32) << 5))))
    case Sraiw(x) =>
      var shamt := x.imm.LowU32() & 0x1F;
      (match ValidateShamt(shamt, 5)
       case Err(e) => Err(e)
       case Ok(_) => Ok(IWord(OPCODE_OP_IMM32, x.rd, FUNCT3_OP_SRL_SRA, x.rs1, shamt | ((FUNCT7_OP_SRA as bv32) << 5))))
    case Addw(r) => Ok(RWord(OPCODE_OP_32, r.rd, FUNCT3_OP_ADD_SUB, r.rs1, r.rs2, FUNCT7_OP_ADD))
    case Subw(r) => Ok(RWord(OPCODE_OP_32, r.rd, FUNCT3_OP_ADD_SUB, r.rs1, r.rs2, FUNCT7_OP_SUB))
    case Sllw(r) => Ok(RWord(OPCODE_OP_32, r.rd, FUNCT3_OP_SLL, r.rs1, r.rs2, 0))
    case Srlw(r) => Ok(RWord(OPCODE_OP_32, r.rd, FUNCT3_OP_SRL_SRA, r.rs1, r.rs2, 0))
    case Sraw(r) => Ok(RWord(OPCODE_OP_32, r.rd, FUNCT3_OP_SRL_SRA, r.rs1, r.rs2, FUNCT7_OP_SRA))
  }

  /** The immediate forms put the unsigned immediate, cut to a byte, in the rs1 field. */
  function UimmField(u: Uimm): bv8 {
    (u.Low32() & 0xFF) as bv8
  }

  function EncodeZicsr(z: RVZicsr): (r: Result<bv32, EncodeError>)
    ensures r.Ok? ==> r.value & 3 == 3
  {
    match z
    case Csrrw(c) => Ok(IWord(OPCODE_SYSTEM, c.rd, FUNCT3_SYSTEM_CSRRW, c.rs1, c.csr as bv32))
    case Csrrs(c) => Ok(IWord(OPCODE_SYSTEM, c.rd, FUNCT3_SYSTEM_CSRRS, c.rs1, c.csr as bv32))
    case Csrrc(c) => Ok(IWord(OPCODE_SYSTEM, c.rd, FUNCT3_SYSTEM_CSRRC, c.rs1, c.csr as bv32))
    case Csrrwi(c) => Ok(IWord(OPCODE_SYSTEM, c.rd, FUNCT3_SYSTEM_CSRRWI, UimmField(c.uimm), c.csr as bv32))
    case Csrrsi(c) => Ok(IWord(OPCODE_SYSTEM, c.rd, FUNCT3_SYSTEM_CSRRSI, UimmField(c.uimm), c.csr as bv32))
    case Csrrci(c) => Ok(IWord(OPCODE_SYSTEM, c.rd, FUNCT3_SYSTEM_CSRRCI, UimmField(c.uimm), c.csr as bv32))
  }

  /** `encode_u32`: the register width is not consulted; compressed, float and atomic instructions are refused. */
  function EncodeU32(inst: Instruction, xlen: Xlen): (r: Result<bv32, EncodeError>)
    ensures r.Ok? <==> inst.RV32I? || inst.RV64I? || inst.RVZicsr?
    ensures r.Ok? ==> r.value & 3 == 3
    ensures inst.RVC? ==> r == Err(RvcUnsupported)
    ensures inst.RVF? ==> r == Err(RvfUnsupported)
    ensures IsAtomic(inst) ==> r == Err(AtomicUnsupported)
    ensures inst.RV32I? ==> r == EncodeRv32i(inst.i32)
    ensures inst.RV64I? ==> r == EncodeRv64i(inst.i64)
    ensures inst.RVZicsr? ==> r == EncodeZicsr(inst.z)
  {
    match inst
    case RV32I(i) => EncodeRv32i(i)
    case RV64I(i) => EncodeRv64i(i)
    case RVZicsr(z) => EncodeZicsr(z)
    case RVC(_) => Err(RvcUnsupported)
    case RVF(_) => Err(RvfUnsupported)
    case _ => Err(AtomicUnsupported)
  }

  /** `encode_u32` ignores the register width: every width gives the same answer. */
  lemma EncodeU32WidthFree(inst: Instruction)
    ensures EncodeU32(inst, X32) == EncodeU32(inst, X64) == EncodeU32(inst, X128)
  {
  }
}

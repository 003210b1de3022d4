/**
 * Opcode and function-field constants shared by the encoders and the
 * decoder, with the facts about them that the rest of the model relies
 * on: every 32-bit opcode has low bits 0b11 and every compressed opcode
 * does not (RISC-V Unprivileged ISA 20191213, section 1.5), and every
 * function code fits its field.
 */
module Isa {
  // 32-bit instruction opcodes
  const OPCODE_LOAD: bv32 := 0x03
  const OPCODE_LOAD_FP: bv32 := 0x07
  const OPCODE_MISC_MEM: bv32 := 0x0F
  const OPCODE_OP_IMM: bv32 := 0x13
  const OPCODE_AUIPC: bv32 := 0x17
  const OPCODE_OP_IMM32: bv32 := 0x1B
  const OPCODE_STORE: bv32 := 0x23
  const OPCODE_STORE_FP: bv32 := 0x27
  const OPCODE_OP: bv32 := 0x33
  const OPCODE_LUI: bv32 := 0x37
  const OPCODE_OP_32: bv32 := 0x3B
  const OPCODE_FMADD: bv32 := 0x43
  const OPCODE_FMSUB: bv32 := 0x47
  const OPCODE_FNMSUB: bv32 := 0x4B
  const OPCODE_FNMADD: bv32 := 0x4F
  const OPCODE_FP: bv32 := 0x53
  const OPCODE_BRANCH: bv32 := 0x63
  const OPCODE_JALR: bv32 := 0x67
  const OPCODE_JAL: bv32 := 0x6F
  const OPCODE_SYSTEM: bv32 := 0x73
  const OPCODE_A: bv32 := 0x2F

  // funct3 of LOAD
  const FUNCT3_LOAD_LB: bv8 := 0
  const FUNCT3_LOAD_LH: bv8 := 1
  const FUNCT3_LOAD_LW: bv8 := 2
  const FUNCT3_LOAD_LD: bv8 := 3
  const FUNCT3_LOAD_LBU: bv8 := 4
  const FUNCT3_LOAD_LHU: bv8 := 5
  const FUNCT3_LOAD_LWU: bv8 := 6

  // funct3 of STORE
  const FUNCT3_STORE_SB: bv8 := 0
  const FUNCT3_STORE_SH: bv8 := 1
  const FUNCT3_STORE_SW: bv8 := 2
  const FUNCT3_STORE_SD: bv8 := 3

  // funct3 of BRANCH
  const FUNCT3_BRANCH_BEQ: bv8 := 0
  const FUNCT3_BRANCH_BNE: bv8 := 1
  const FUNCT3_BRANCH_BLT: bv8 := 4
  const FUNCT3_BRANCH_BGE: bv8 := 5
  const FUNCT3_BRANCH_BLTU: bv8 := 6
  const FUNCT3_BRANCH_BGEU: bv8 := 7

  // funct3 of OP and OP-IMM
  const FUNCT3_OP_ADD_SUB: bv8 := 0
  const FUNCT3_OP_SLL: bv8 := 1
  const FUNCT3_OP_SLT: bv8 := 2
  const FUNCT3_OP_SLTU: bv8 := 3
  const FUNCT3_OP_XOR: bv8 := 4
  const FUNCT3_OP_SRL_SRA: bv8 := 5
  const FUNCT3_OP_OR: bv8 := 6
  const FUNCT3_OP_AND: bv8 := 7

  // funct7
  const FUNCT7_OP_SRL: bv8 := 0x00
  const FUNCT7_OP_SRA: bv8 := 0x20
  const FUNCT7_OP_ADD: bv8 := 0x00
  const FUNCT7_OP_SUB: bv8 := 0x20

  // funct3 of SYSTEM
  const FUNCT3_SYSTEM_PRIV: bv8 := 0
  const FUNCT3_SYSTEM_CSRRW: bv8 := 1
  const FUNCT3_SYSTEM_CSRRS: bv8 := 2
  const FUNCT3_SYSTEM_CSRRC: bv8 := 3
  const FUNCT3_SYSTEM_CSRRWI: bv8 := 5
  const FUNCT3_SYSTEM_CSRRSI: bv8 := 6
  const FUNCT3_SYSTEM_CSRRCI: bv8 := 7

  // funct12 of SYSTEM/PRIV
  const FUNCT12_SYSTEM_ECALL: bv32 := 0
  const FUNCT12_SYSTEM_EBREAK: bv32 := 1

  // funct3 of MISC-MEM
  const FUNCT3_MISC_MEM_FENCE: bv8 := 0
  const FUNCT3_MISC_MEM_FENCE_I: bv8 := 1

  // width field of FLW/FSW
  const FUNCT3_WIDTH_W: bv8 := 2

  // floating point (single precision)
  const FUNCT2_FMT_S: bv8 := 0
  const FUNCT_RS3_FP_ADD: bv8 := 0x00
  const FUNCT_RS3_FP_SUB: bv8 := 0x01
  const FUNCT_RS3_FP_MUL: bv8 := 0x02
  const FUNCT_RS3_FP_DIV: bv8 := 0x03
  const FUNCT_RS3_FP_SGNJ: bv8 := 0x04
  const FUNCT_RS3_FP_MIN_MAX: bv8 := 0x05
  const FUNCT_RS3_FP_SQRT: bv8 := 0x0B
  const FUNCT_RS3_FP_CMP: bv8 := 0x14
  const FUNCT_RS3_FP_FCVTX: bv8 := 0x18
  const FUNCT_RS3_FP_XCVTF: bv8 := 0x1A
  const FUNCT_RS3_FP_FMVX_CLASS: bv8 := 0x1C
  const FUNCT_RS3_FP_XMVF: bv8 := 0x1E
  const FUNCT3_FP_MIN: bv8 := 0
  const FUNCT3_FP_MAX: bv8 := 1
  const FUNCT3_FP_SGNJ: bv8 := 0
  const FUNCT3_FP_SGNJN: bv8 := 1
  const FUNCT3_FP_SGNJX: bv8 := 2
  const FUNCT3_FP_EQ: bv8 := 2
  const FUNCT3_FP_LT: bv8 := 1
  const FUNCT3_FP_LE: bv8 := 0
  const FUNCT_RS2_CVT_W: bv8 := 0
  const FUNCT_RS2_CVT_WU: bv8 := 1
  const FUNCT_RS2_CVT_L: bv8 := 2
  const FUNCT_RS2_CVT_LU: bv8 := 3

  // funct5 of the A extension
  const FUNCT5_A_AMOADD: bv8 := 0x00
  const FUNCT5_A_AMOSWAP: bv8 := 0x01
  const FUNCT5_A_LR: bv8 := 0x02
  const FUNCT5_A_SC: bv8 := 0x03
  const FUNCT5_A_AMOXOR: bv8 := 0x04
  const FUNCT5_A_AMOOR: bv8 := 0x08
  const FUNCT5_A_AMOAND: bv8 := 0x0C
  const FUNCT5_A_AMOMIN: bv8 := 0x10
  const FUNCT5_A_AMOMAX: bv8 := 0x14
  const FUNCT5_A_AMOMINU: bv8 := 0x18
  const FUNCT5_A_AMOMAXU: bv8 := 0x1C

  // width field of the RV128A quad-word forms
  const FUNCT3_A_WIDTH_Q: bv8 := 4

  // compressed (16-bit) opcodes
  const OPCODE_C0: bv16 := 0
  const OPCODE_C1: bv16 := 1
  const OPCODE_C2: bv16 := 2

  /** The 32-bit opcodes, in declaration order. */
  const Opcodes32: seq<bv32> := [
    OPCODE_LOAD, OPCODE_LOAD_FP, OPCODE_MISC_MEM, OPCODE_OP_IMM, OPCODE_AUIPC, OPCODE_OP_IMM32,
    OPCODE_STORE, OPCODE_STORE_FP, OPCODE_OP, OPCODE_LUI, OPCODE_OP_32, OPCODE_FMADD, OPCODE_FMSUB,
    OPCODE_FNMSUB, OPCODE_FNMADD, OPCODE_FP, OPCODE_BRANCH, OPCODE_JALR, OPCODE_JAL, OPCODE_SYSTEM, OPCODE_A]

  /** The A-extension funct5 codes, in declaration order. */
  const AmoFunct5: seq<bv8> := [
    FUNCT5_A_AMOADD, FUNCT5_A_AMOSWAP, FUNCT5_A_LR, FUNCT5_A_SC, FUNCT5_A_AMOXOR, FUNCT5_A_AMOOR,
    FUNCT5_A_AMOAND, FUNCT5_A_AMOMIN, FUNCT5_A_AMOMAX, FUNCT5_A_AMOMINU, FUNCT5_A_AMOMAXU]

  /** The funct3 codes of every group. */
  const Funct3Codes: seq<bv8> := [
    FUNCT3_LOAD_LB, FUNCT3_LOAD_LH, FUNCT3_LOAD_LW, FUNCT3_LOAD_LD, FUNCT3_LOAD_LBU, FUNCT3_LOAD_LHU,
    FUNCT3_LOAD_LWU, FUNCT3_STORE_SB, FUNCT3_STORE_SH, FUNCT3_STORE_SW, FUNCT3_STORE_SD,
    FUNCT3_BRANCH_BEQ, FUNCT3_BRANCH_BNE, FUNCT3_BRANCH_BLT, FUNCT3_BRANCH_BGE, FUNCT3_BRANCH_BLTU,
    FUNCT3_BRANCH_BGEU, FUNCT3_OP_ADD_SUB, FUNCT3_OP_SLL, FUNCT3_OP_SLT, FUNCT3_OP_SLTU, FUNCT3_OP_XOR,
    FUNCT3_OP_SRL_SRA, FUNCT3_OP_OR, FUNCT3_OP_AND, FUNCT3_SYSTEM_PRIV, FUNCT3_SYSTEM_CSRRW,
    FUNCT3_SYSTEM_CSRRS, FUNCT3_SYSTEM_CSRRC, FUNCT3_SYSTEM_CSRRWI, FUNCT3_SYSTEM_CSRRSI,
    FUNCT3_SYSTEM_CSRRCI, FUNCT3_MISC_MEM_FENCE, FUNCT3_MISC_MEM_FENCE_I, FUNCT3_WIDTH_W,
    FUNCT3_FP_MIN, FUNCT3_FP_MAX, FUNCT3_FP_SGNJ, FUNCT3_FP_SGNJN, FUNCT3_FP_SGNJX, FUNCT3_FP_EQ,
    FUNCT3_FP_LT, FUNCT3_FP_LE, FUNCT3_A_WIDTH_Q]

  /** The five-bit codes: A-extension funct5, the rs3-position FP codes and the rs2 conversion codes. */
  const Funct5Codes: seq<bv8> := AmoFunct5 + [
    FUNCT_RS3_FP_ADD, FUNCT_RS3_FP_SUB, FUNCT_RS3_FP_MUL, FUNCT_RS3_FP_DIV, FUNCT_RS3_FP_SGNJ,
    FUNCT_RS3_FP_MIN_MAX, FUNCT_RS3_FP_SQRT, FUNCT_RS3_FP_CMP, FUNCT_RS3_FP_FCVTX, FUNCT_RS3_FP_XCVTF,
    FUNCT_RS3_FP_FMVX_CLASS, FUNCT_RS3_FP_XMVF, FUNCT_RS2_CVT_W, FUNCT_RS2_CVT_WU, FUNCT_RS2_CVT_L,
    FUNCT_RS2_CVT_LU]

  /** The funct7 codes. */
  const Funct7Codes: seq<bv8> := [FUNCT7_OP_SRL, FUNCT7_OP_SRA, FUNCT7_OP_ADD, FUNCT7_OP_SUB]

  /** Every 32-bit opcode has low two bits 0b11, so its words classify as 32-bit. */
  lemma Opcodes32AreWide()
    ensures forall c <- Opcodes32 :: c & 3 == 3 && c < 0x80
  {
  }

  /** The compressed opcodes are 0, 1 and 2, none of them 0b11. */
  lemma CompressedOpcodesNarrow()
    ensures OPCODE_C0 == 0 && OPCODE_C1 == 1 && OPCODE_C2 == 2
    ensures OPCODE_C0 & 3 != 3 && OPCODE_C1 & 3 != 3 && OPCODE_C2 & 3 != 3
  {
  }

  /** Every funct3 code fits its three-bit field. */
  lemma Funct3CodesFit()
    ensures forall c <- Funct3Codes :: c < 8
  {
  }

  /** Every five-bit code fits its field, every funct7 code its seven-bit field and funct12 its twelve bits. */
  lemma WideFunctCodesFit()
    ensures forall c <- Funct5Codes :: c < 32
    ensures forall c <- Funct7Codes :: c < 128
    ensures FUNCT12_SYSTEM_ECALL < 0x1000 && FUNCT12_SYSTEM_EBREAK < 0x1000
  {
  }

  /** The eleven A-extension funct5 codes are pairwise distinct. */
  lemma AmoFunct5Distinct()
    ensures |AmoFunct5| == 11
    ensures forall i, j :: 0 <= i < j < |AmoFunct5| ==> AmoFunct5[i] != AmoFunct5[j]
  {
  }
}

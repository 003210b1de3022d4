/**
 * The immediate and register-width types the instruction records use.
 * Their defining module is not part of this model; an immediate is kept
 * as the raw low 32 bits it was built from together with its declared
 * width, and reading it back returns those bits.
 */
module RiscvImm {
  /** The base integer register width an instruction is assembled or decoded for. */
  datatype Xlen = X32 | X64 | X128

  /** A signed immediate: its two's-complement bits and its declared width. */
  datatype Imm = Imm(bits: bv32, width: nat)
  {
    /** `low_u32`: the stored bits. */
    function LowU32(): bv32 {
      bits
    }
  }

  /** An unsigned immediate: its bits and its declared width. */
  datatype Uimm = Uimm(bits: bv32, width: nat)
  {
    /** `low32`: the stored bits. */
    function Low32(): bv32 {
      bits
    }
  }
}

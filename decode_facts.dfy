/**
 * What the 32-bit decoder accepts and rejects, stated over all words:
 * opcodes it has no arm for, the arms gated by the register width, the
 * environment-call checks, the shift-immediate encodings per width and
 * the A-extension width codes.
 */
module DecodeFacts {
  import opened Wrappers
  import opened RiscvImm
  import opened Isa
  import opened Asm
  import opened Rva
  import opened Instr
  import opened Decode32

  /** A word whose opcode is none of the listed ones is rejected at every width. */
  lemma UnlistedOpcodeRejected(ins: bv32, xlen: Xlen)
    requires Opcode(ins) !in Opcodes32
    ensures Resolve32(ins, xlen) == None
  {
  }

  /** The word-sized opcodes decode on the 64-bit width only; RV32 and RV128 reject them. */
  lemma WordOpcodesOnlyOnX64(ins: bv32, xlen: Xlen)
    requires Opcode(ins) == OPCODE_OP_IMM32 || Opcode(ins) == OPCODE_OP_32
    ensures Resolve32(ins, xlen).Some? ==> xlen == X64
    ensures Resolve32(ins, xlen).Some? ==> Resolve32(ins, xlen).value.RV64I?
  {
  }

  /** On RV32 nothing decodes as an RV64I instruction. */
  lemma NoRv64iOnX32(ins: bv32)
    ensures Resolve32(ins, X32).Some? ==> !Resolve32(ins, X32).value.RV64I?
  {
  }

  /** `ld`, `lwu` and `sd` decode exactly when the width is not 32. */
  lemma WideMemoryNeedsWideXlen(ins: bv32, xlen: Xlen)
    ensures Opcode(ins) == OPCODE_LOAD && Funct3(ins) == FUNCT3_LOAD_LD ==>
      Resolve32(ins, xlen) == (if xlen == X32 then None else Some(RV64I(Ld(IOf(ins)))))
    ensures Opcode(ins) == OPCODE_LOAD && Funct3(ins) == FUNCT3_LOAD_LWU ==>
      Resolve32(ins, xlen) == (if xlen == X32 then None else Some(RV64I(Lwu(IOf(ins)))))
    ensures Opcode(ins) == OPCODE_STORE && Funct3(ins) == FUNCT3_STORE_SD ==>
      Resolve32(ins, xlen) == (if xlen == X32 then None else Some(RV64I(Sd(SOf(ins)))))
  {
  }

  /**
   * Under the SYSTEM opcode with funct3 0 only `ecall` (funct12 0) and
   * `ebreak` (funct12 1) decode, and only with rs1 and rd both zero.
   */
  lemma EnvironmentCallChecks(ins: bv32, xlen: Xlen)
    requires Opcode(ins) == OPCODE_SYSTEM && Funct3(ins) == FUNCT3_SYSTEM_PRIV
    ensures Resolve32(ins, xlen).Some? <==>
      (Funct12(ins) == FUNCT12_SYSTEM_ECALL || Funct12(ins) == FUNCT12_SYSTEM_EBREAK) && Rs1(ins) == 0 && Rd(ins) == 0
    ensures Resolve32(ins, xlen).Some? ==>
      Resolve32(ins, xlen) == Some(RV32I(if Funct12(ins) == FUNCT12_SYSTEM_ECALL then Ecall else Ebreak))
  {
  }

  /**
   * A left shift by an immediate: on RV32 funct7 must be zero and the
   * result is the RV32I `slli`; on RV64 funct7 bit 0 (shamt bit 5) may be
   * set and the result is the RV64I `slli`; RV128 rejects it.
   */
  lemma ShiftLeftImmediateByXlen(ins: bv32, xlen: Xlen)
    requires Opcode(ins) == OPCODE_OP_IMM && Funct3(ins) == FUNCT3_OP_SLL
    ensures xlen == X32 ==>
      Resolve32(ins, xlen) == (if Funct7(ins) == 0 then Some(RV32I(RV32I.Slli(IOf(ins)))) else None)
    ensures xlen == X64 ==>
      Resolve32(ins, xlen) == (if Funct7(ins) & 0x7E == 0 then Some(RV64I(RV64I.Slli(IOf(ins)))) else None)
    ensures xlen == X128 ==> Resolve32(ins, xlen) == None
  {
  }

  /** The right shifts by an immediate follow the same rule, with funct7 0 (logical) or 0x20 (arithmetic). */
  lemma ShiftRightImmediateByXlen(ins: bv32, xlen: Xlen)
    requires Opcode(ins) == OPCODE_OP_IMM && Funct3(ins) == FUNCT3_OP_SRL_SRA
    ensures xlen == X32 ==> (Resolve32(ins, xlen).Some? <==> Funct7(ins) == 0 || Funct7(ins) == 0x20)
    ensures xlen == X64 ==> (Resolve32(ins, xlen).Some? <==> Funct7(ins) & 0x7E == 0 || Funct7(ins) & 0x7E == 0x20)
    ensures xlen == X128 ==> Resolve32(ins, xlen) == None
  {
  }

  /**
   * Register-register M-extension words: `mulhu`'s funct3 with funct7 1
   * has no arm, and funct3 AND with funct7 1 is `rem` on RV32, `remu` on
   * RV64 and rejected on RV128.
   */
  lemma MulDivQuirks(ins: bv32, xlen: Xlen)
    requires Opcode(ins) == OPCODE_OP && Funct7(ins) == 1
    ensures Funct3(ins) == FUNCT3_OP_SLTU ==> Resolve32(ins, xlen) == None
    ensures Funct3(ins) == FUNCT3_OP_AND ==>
      Resolve32(ins, xlen) == (match xlen
                               case X32 => Some(RV32I(Rem(ROf(ins))))
                               case X64 => Some(RV32I(Remu(ROf(ins))))
                               case X128 => None)
  {
  }

  /** The funct5 code of each A-extension operation. */
  function AmoCode(op: AmoOp): (c: bv8)
    ensures c in AmoFunct5
  {
    match op
    case Lr => FUNCT5_A_LR
    case Sc => FUNCT5_A_SC
    case Swap => FUNCT5_A_AMOSWAP
    case AddOp => FUNCT5_A_AMOADD
    case XorOp => FUNCT5_A_AMOXOR
    case AndOp => FUNCT5_A_AMOAND
    case OrOp => FUNCT5_A_AMOOR
    case MinOp => FUNCT5_A_AMOMIN
    case MaxOp => FUNCT5_A_AMOMAX
    case MinuOp => FUNCT5_A_AMOMINU
    case MaxuOp => FUNCT5_A_AMOMAXU
  }

  /** The decoder's funct5 table is exactly the inverse of `AmoCode`: eleven codes, one operation each. */
  lemma AmoOpOfInvertsCode(op: AmoOp, funct5: bv8)
    ensures AmoOpOf(AmoCode(op)) == Some(op)
    ensures AmoOpOf(funct5) == Some(op) <==> funct5 == AmoCode(op)
    ensures AmoOpOf(funct5).Some? <==> funct5 in AmoFunct5
  {
  }

  /**
   * A-extension words: funct3 010 is the word form, 011 the double-word
   * form at every width, 100 the quad-word form on RV128 only; any other
   * funct3 or a funct5 outside the eleven codes is rejected.
   */
  lemma AtomicWidths(ins: bv32, xlen: Xlen)
    requires Opcode(ins) == OPCODE_A
    ensures Resolve32(ins, xlen).Some? <==>
      Funct5(ins) in AmoFunct5
      && (Funct3(ins) == FUNCT3_LOAD_LW || Funct3(ins) == FUNCT3_LOAD_LD || (Funct3(ins) == FUNCT3_A_WIDTH_Q && xlen == X128))
    ensures Resolve32(ins, xlen).Some? && Funct3(ins) == FUNCT3_LOAD_LW ==> Resolve32(ins, xlen).value.RV32A?
    ensures Resolve32(ins, xlen).Some? && Funct3(ins) == FUNCT3_LOAD_LD ==> Resolve32(ins, xlen).value.RV64A?
    ensures Resolve32(ins, xlen).Some? && Funct3(ins) == FUNCT3_A_WIDTH_Q ==> Resolve32(ins, xlen).value.RV128A?
  {
    AmoOpOfInvertsCode(Lr, Funct5(ins));
  }

  /** `003130af` is `amoadd.d ra, gp, (sp)` even on RV32: the double-word arm is not gated by the width. */
  lemma AmoaddDoubleOnX32()
    ensures Resolve32(0x0031_30AF, X32) == Some(RV64A(Amoaddd(RType(1, 2, 3, 3, 0))))
  {
  }
}

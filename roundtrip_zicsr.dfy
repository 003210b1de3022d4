/**
 * The Zicsr half of the encoder/decoder round trip. The CSR instructions
 * sit under the SYSTEM opcode, which the decoder reaches before any arm
 * that depends on the register width, so the round trip holds for every
 * width. The CSR number keeps its low 12 bits; the immediate forms carry
 * a 5-bit unsigned immediate in the rs1 field.
 */
module RoundTripZicsr {
  import opened Wrappers
  import opened RiscvImm
  import opened Isa
  import opened Asm
  import opened Instr
  import opened Decode32
  import opened Encode32

  predicate RegCsr(c: CsrRType) { c.rd < 32 && c.rs1 < 32 }

  /** The immediate forms also need the immediate to fit the 5-bit rs1 field. */
  predicate RegCsrI(c: CsrIType) { c.rd < 32 && c.uimm.bits < 32 }

  predicate RegsZicsr(z: RVZicsr) {
    match z
    case Csrrw(c) => RegCsr(c)
    case Csrrs(c) => RegCsr(c)
    case Csrrc(c) => RegCsr(c)
    case Csrrwi(c) => RegCsrI(c)
    case Csrrsi(c) => RegCsrI(c)
    case Csrrci(c) => RegCsrI(c)
  }

  function CanonCsr(c: CsrRType, funct3: bv8): CsrRType { CsrRType(c.rd, c.rs1, funct3, c.csr & 0xFFF) }
  function CanonCsrI(c: CsrIType, funct3: bv8): CsrIType { CsrIType(c.rd, Uimm(c.uimm.bits, 5), funct3, c.csr & 0xFFF) }

  lemma CsrDecodes(funct3: bv8, c: CsrRType)
    requires funct3 < 8 && RegCsr(c)
    ensures Opcode(IWord(OPCODE_SYSTEM, c.rd, funct3, c.rs1, c.csr as bv32)) == OPCODE_SYSTEM
    ensures Funct3(IWord(OPCODE_SYSTEM, c.rd, funct3, c.rs1, c.csr as bv32)) == funct3
    ensures CsrROf(IWord(OPCODE_SYSTEM, c.rd, funct3, c.rs1, c.csr as bv32)) == CanonCsr(c, funct3)
  {
    IWordFunct12(OPCODE_SYSTEM, c.rd, funct3, c.rs1, c.csr as bv32);
  }

  lemma CsrIDecodes(funct3: bv8, c: CsrIType)
    requires funct3 < 8 && RegCsrI(c)
    ensures Opcode(IWord(OPCODE_SYSTEM, c.rd, funct3, UimmField(c.uimm), c.csr as bv32)) == OPCODE_SYSTEM
    ensures Funct3(IWord(OPCODE_SYSTEM, c.rd, funct3, UimmField(c.uimm), c.csr as bv32)) == funct3
    ensures CsrIOf(IWord(OPCODE_SYSTEM, c.rd, funct3, UimmField(c.uimm), c.csr as bv32)) == CanonCsrI(c, funct3)
  {
    IWordFunct12(OPCODE_SYSTEM, c.rd, funct3, UimmField(c.uimm), c.csr as bv32);
  }

  /** What the decoder returns, at any width, for the encoding of `z`. */
  function DecodedZicsr(z: RVZicsr): Option<Instruction> {
    match z
    case Csrrw(c) => Some(RVZicsr(Csrrw(CanonCsr(c, FUNCT3_SYSTEM_CSRRW))))
    case Csrrs(c) => Some(RVZicsr(Csrrs(CanonCsr(c, FUNCT3_SYSTEM_CSRRS))))
    case Csrrc(c) => Some(RVZicsr(Csrrc(CanonCsr(c, FUNCT3_SYSTEM_CSRRC))))
    case Csrrwi(c) => Some(RVZicsr(Csrrwi(CanonCsrI(c, FUNCT3_SYSTEM_CSRRWI))))
    case Csrrsi(c) => Some(RVZicsr(Csrrsi(CanonCsrI(c, FUNCT3_SYSTEM_CSRRSI))))
    case Csrrci(c) => Some(RVZicsr(Csrrci(CanonCsrI(c, FUNCT3_SYSTEM_CSRRCI))))
  }

  lemma CsrrwDecodes(c: CsrRType, xlen: Xlen)
    requires RegCsr(c)
    ensures Resolve32(IWord(OPCODE_SYSTEM, c.rd, FUNCT3_SYSTEM_CSRRW, c.rs1, c.csr as bv32), xlen)
         == Some(RVZicsr(Csrrw(CanonCsr(c, FUNCT3_SYSTEM_CSRRW))))
  {
    CsrDecodes(FUNCT3_SYSTEM_CSRRW, c);
  }

  lemma CsrrsDecodes(c: CsrRType, xlen: Xlen)
    requires RegCsr(c)
    ensures Resolve32(IWord(OPCODE_SYSTEM, c.rd, FUNCT3_SYSTEM_CSRRS, c.rs1, c.csr as bv32), xlen)
         == Some(RVZicsr(Csrrs(CanonCsr(c, FUNCT3_SYSTEM_CSRRS))))
  {
    CsrDecodes(FUNCT3_SYSTEM_CSRRS, c);
  }

  lemma CsrrcDecodes(c: CsrRType, xlen: Xlen)
    requires RegCsr(c)
    ensures Resolve32(IWord(OPCODE_SYSTEM, c.rd, FUNCT3_SYSTEM_CSRRC, c.rs1, c.csr as bv32), xlen)
         == Some(RVZicsr(Csrrc(CanonCsr(c, FUNCT3_SYSTEM_CSRRC))))
  {
    CsrDecodes(FUNCT3_SYSTEM_CSRRC, c);
  }

  lemma CsrrwiDecodes(c: CsrIType, xlen: Xlen)
    requires RegCsrI(c)
    ensures Resolve32(IWord(OPCODE_SYSTEM, c.rd, FUNCT3_SYSTEM_CSRRWI, UimmField(c.uimm), c.csr as bv32), xlen)
         == Some(RVZicsr(Csrrwi(CanonCsrI(c, FUNCT3_SYSTEM_CSRRWI))))
  {
    CsrIDecodes(FUNCT3_SYSTEM_CSRRWI, c);
  }

  lemma CsrrsiDecodes(c: CsrIType, xlen: Xlen)
    requires RegCsrI(c)
    ensures Resolve32(IWord(OPCODE_SYSTEM, c.rd, FUNCT3_SYSTEM_CSRRSI, UimmField(c.uimm), c.csr as bv32), xlen)
         == Some(RVZicsr(Csrrsi(CanonCsrI(c, FUNCT3_SYSTEM_CSRRSI))))
  {
    CsrIDecodes(FUNCT3_SYSTEM_CSRRSI, c);
  }

  lemma CsrrciDecodes(c: CsrIType, xlen: Xlen)
    requires RegCsrI(c)
    ensures Resolve32(IWord(OPCODE_SYSTEM, c.rd, FUNCT3_SYSTEM_CSRRCI, UimmField(c.uimm), c.csr as bv32), xlen)
         == Some(RVZicsr(Csrrci(CanonCsrI(c, FUNCT3_SYSTEM_CSRRCI))))
  {
    CsrIDecodes(FUNCT3_SYSTEM_CSRRCI, c);
  }

  /**
   * Every CSR instruction whose registers and immediate fit their fields
   * encodes, and the decoder reads the encoding back at any width.
   */
  lemma RoundTripCsr(z: RVZicsr, xlen: Xlen)
    requires RegsZicsr(z)
    ensures EncodeZicsr(z).Ok? && Resolve32(EncodeZicsr(z).value, xlen) == DecodedZicsr(z)
  {
    match z
    case Csrrw(c) => CsrrwDecodes(c, xlen);
    case Csrrs(c) => CsrrsDecodes(c, xlen);
    case Csrrc(c) => CsrrcDecodes(c, xlen);
    case Csrrwi(c) => CsrrwiDecodes(c, xlen);
    case Csrrsi(c) => CsrrsiDecodes(c, xlen);
    case Csrrci(c) => CsrrciDecodes(c, xlen);
  }
}

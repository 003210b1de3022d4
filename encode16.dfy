/**
 * `encode_u16`: packing a compressed instruction into a 16-bit word. Each
 * `encode_c*` helper starts from zero and writes one field at a time with
 * `SetBits`; its contract ties the result to the word function of its
 * format, and the lemmas read the immediates back with the layouts of
 * section 16.2 of the RISC-V Unprivileged ISA 20191213 ("Compressed
 * Instruction Formats"). Where the source's layout differs from those,
 * the word function keeps the source's layout and a corrected one stands
 * beside it.
 */
module Encode16 {
  import opened Wrappers
  import opened RiscvImm
  import opened Isa
  import opened Asm
  import opened Instr
  import RustStr

  /**
   * `set_bits`: clears the `width`-bit field at `pos` of `val` (with a mask
   * built in 32 bits and truncated) and writes the low `width` bits of
   * `field` there.
   */
  function SetBits(val: bv16, pos: bv8, width: bv8, field: bv16): bv16
    requires pos < 16 && width < 16
  {
    var mask := (((1 as bv32) << width) - 1) as bv16 << pos;
    (val & !mask) | ((field & (((1 as bv16) << width) - 1)) << pos)
  }

  /** The low `width` bits set: the part of a field `set_bits` keeps. */
  function FieldMask(width: bv8): bv16
    requires width < 16
  {
    ((1 as bv16) << width) - 1
  }

  /*
   * What `set_bits` promises, for each field width the encoder passes (1 to
   * 5) and every position the field fits at: the field reads back from its
   * place, and every bit outside the place is kept.
   */
  lemma SetBitsWidth1(v: bv16, pos: bv8, field: bv16)
    requires pos as int + 1 <= 16
    ensures (SetBits(v, pos, 1, field) >> pos) & FieldMask(1) == field & FieldMask(1)
    ensures SetBits(v, pos, 1, field) & !(FieldMask(1) << pos) == v & !(FieldMask(1) << pos)
  {
  }

  lemma SetBitsWidth2(v: bv16, pos: bv8, field: bv16)
    requires pos as int + 2 <= 16
    ensures (SetBits(v, pos, 2, field) >> pos) & FieldMask(2) == field & FieldMask(2)
    ensures SetBits(v, pos, 2, field) & !(FieldMask(2) << pos) == v & !(FieldMask(2) << pos)
  {
  }

  lemma SetBitsWidth3(v: bv16, pos: bv8, field: bv16)
    requires pos as int + 3 <= 16
    ensures (SetBits(v, pos, 3, field) >> pos) & FieldMask(3) == field & FieldMask(3)
    ensures SetBits(v, pos, 3, field) & !(FieldMask(3) << pos) == v & !(FieldMask(3) << pos)
  {
  }

  lemma SetBitsWidth4(v: bv16, pos: bv8, field: bv16)
    requires pos as int + 4 <= 16
    ensures (SetBits(v, pos, 4, field) >> pos) & FieldMask(4) == field & FieldMask(4)
    ensures SetBits(v, pos, 4, field) & !(FieldMask(4) << pos) == v & !(FieldMask(4) << pos)
  {
  }

  lemma SetBitsWidth5(v: bv16, pos: bv8, field: bv16)
    requires pos as int + 5 <= 16
    ensures (SetBits(v, pos, 5, field) >> pos) & FieldMask(5) == field & FieldMask(5)
    ensures SetBits(v, pos, 5, field) & !(FieldMask(5) << pos) == v & !(FieldMask(5) << pos)
  {
  }

  /** The compressed encoder's errors. */
  datatype CError =
    | Misaligned(align: bv32)
    | OddOffset(format: string)
    | Addi16spZero
    | Addi4spnZero
    | Addi4spnTooWide
    | ZeroDestination(mnemonic: string)
    | ZeroShamt
    | ShamtHighOnRv32
    | WideOnRv32
    | CrZeroRegister
    | NotCompressedRegister(reg: bv8)
    | OffsetTooLarge(mnemonic: string, limit: nat)
    | OffsetTooLargeUnbounded(mnemonic: string)
    | RvcNotImplemented
    | NotCompressed

  function Describe(e: CError): string {
    match e
    case Misaligned(align) => "immediate is not aligned to " + RustStr.Decimal(align as nat) + " bytes"
    case OddOffset(format) => format + " immediate must be 2-byte aligned (LSB=0)"
    case Addi16spZero => "c.addi16sp immediate must not be 0"
    case Addi4spnZero => "c.addi4spn uimm must not be 0"
    case Addi4spnTooWide => "c.addi4spn uimm exceeds 10 bits"
    case ZeroDestination(mnemonic) => mnemonic + " destination register must not be x0"
    case ZeroShamt => "c.srli/srai shamt must not be 0"
    case ShamtHighOnRv32 => "c.srli/srai on RV32 require shamt bit 5 to be 0"
    case WideOnRv32 => "this width variant is only available on RV64/128"
    case CrZeroRegister => "CR group requires rdrs1 != x0"
    case NotCompressedRegister(reg) =>
      "register " + RustStr.Decimal(reg as nat) + " is not a compressed register (x8..x15)"
    case OffsetTooLarge(mnemonic, limit) => mnemonic + " offset too large (must be < " + RustStr.Decimal(limit) + ")"
    case OffsetTooLargeUnbounded(mnemonic) => mnemonic + " offset too large"
    case RvcNotImplemented => "encoding of this RVC instruction is not implemented yet"
    case NotCompressed => "not a compressed instruction, cannot use 16-bit encoding"
  }

  /** Registers x8..x15, the ones a three-bit field can name. */
  predicate CReg(reg: bv8) {
    8 <= reg <= 15
  }

  /** `c_reg_index`: x8..x15 map to 0..7; any other register is an error naming it. */
  function CRegIndex(reg: bv8): (r: Result<bv16, CError>)
    ensures r.Ok? <==> CReg(reg)
    ensures r.Ok? ==> r.value < 8 && r.value as bv8 + 8 == reg
    ensures r.Err? ==> r.error == NotCompressedRegister(reg)
  {
    if 8 <= reg <= 15 then Ok((reg - 8) as bv16) else Err(NotCompressedRegister(reg))
  }

  /** `ensure_align`: for a power-of-two alignment, the immediate is a multiple of it. */
  function EnsureAlign(imm: bv32, align: bv32): (r: Result<(), CError>)
    requires align != 0
    ensures align == 2 ==> (r.Ok? <==> imm % 2 == 0)
    ensures align == 4 ==> (r.Ok? <==> imm % 4 == 0)
    ensures align == 8 ==> (r.Ok? <==> imm % 8 == 0)
    ensures r.Err? ==> r.error == Misaligned(align)
  {
    if imm & (align - 1) == 0 then Ok(()) else Err(Misaligned(align))
  }

  // The fixed fields of a compressed word.

  function Quadrant(w: bv16): bv16 { w & 3 }
  function Funct3C(w: bv16): bv16 { (w >> 13) & 7 }
  /** The five-bit register field at bits 11:7 (rd or rs1). */
  function RegHigh(w: bv16): bv16 { (w >> 7) & 0x1F }
  /** The five-bit register field at bits 6:2 (rs2). */
  function RegLow(w: bv16): bv16 { (w >> 2) & 0x1F }
  /** The three-bit register field at bits 9:7 (rs1' or rd'). */
  function CRegHigh(w: bv16): bv16 { (w >> 7) & 7 }
  /** The three-bit register field at bits 4:2 (rd' or rs2'). */
  function CRegLow(w: bv16): bv16 { (w >> 2) & 7 }

  /** Bits lo..lo+n-1 of a word, as an immediate piece. */
  function Take(w: bv16, lo: bv8, mask: bv16): bv32
    requires lo < 16
  {
    ((w >> lo) & mask) as bv32
  }

  /** The source's `((imm >> lo) & mask) as u16`. */
  function Slice(imm: bv32, lo: bv8, mask: bv32): bv16
    requires lo < 32 && mask <= 0xFFFF
  {
    ((imm >> lo) & mask) as bv16
  }

  // The immediate layouts of the ISA, read from a word.

  /** CJ: offset[11|4|9:8|10|6|7|3:1|5] in bits 12:2. */
  function CjOffset(w: bv16): bv32 {
    (Take(w, 12, 1) << 11) | (Take(w, 11, 1) << 4) | (Take(w, 9, 3) << 8) | (Take(w, 8, 1) << 10)
    | (Take(w, 7, 1) << 6) | (Take(w, 6, 1) << 7) | (Take(w, 3, 7) << 1) | (Take(w, 2, 1) << 5)
  }

  /** CB: offset[8|4:3] in bits 12:10, offset[7:6|2:1|5] in bits 6:2. */
  function CbOffset(w: bv16): bv32 {
    (Take(w, 12, 1) << 8) | (Take(w, 10, 3) << 3) | (Take(w, 5, 3) << 6) | (Take(w, 3, 3) << 1) | (Take(w, 2, 1) << 5)
  }

  /** CI of `c.addi16sp`: nzimm[9] in bit 12, nzimm[4|6|8:7|5] in bits 6:2. */
  function Addi16spImm(w: bv16): bv32 {
    (Take(w, 12, 1) << 9) | (Take(w, 6, 1) << 4) | (Take(w, 5, 1) << 6) | (Take(w, 3, 3) << 7) | (Take(w, 2, 1) << 5)
  }

  /** CI: imm[5] in bit 12, imm[4:0] in bits 6:2. */
  function CiImm(w: bv16): bv32 {
    (Take(w, 12, 1) << 5) | Take(w, 2, 0x1F)
  }

  /** CIW of `c.addi4spn`: nzuimm[5:4|9:6|2|3] in bits 12:5. */
  function Addi4spnImm(w: bv16): bv32 {
    (Take(w, 11, 3) << 4) | (Take(w, 7, 0xF) << 6) | (Take(w, 6, 1) << 2) | (Take(w, 5, 1) << 3)
  }

  /** CL/CS word access: offset[5:3] in bits 12:10, offset[2|6] in bits 6:5. */
  function ClWordOffset(w: bv16): bv32 {
    (Take(w, 10, 7) << 3) | (Take(w, 6, 1) << 2) | (Take(w, 5, 1) << 6)
  }

  /** CL/CS double-word access: offset[5:3] in bits 12:10, offset[7:6] in bits 6:5. */
  function ClDoubleOffset(w: bv16): bv32 {
    (Take(w, 10, 7) << 3) | (Take(w, 5, 3) << 6)
  }

  /** CI of `c.lwsp`: offset[5] in bit 12, offset[4:2|7:6] in bits 6:2. */
  function LwspOffset(w: bv16): bv32 {
    (Take(w, 12, 1) << 5) | (Take(w, 4, 7) << 2) | (Take(w, 2, 3) << 6)
  }

  /** CSS of `c.swsp`: offset[5:2|7:6] in bits 12:7. */
  function SwspOffset(w: bv16): bv32 {
    (Take(w, 9, 0xF) << 2) | (Take(w, 7, 3) << 6)
  }

  /** CI of `c.ldsp`: offset[5] in bit 12, offset[4:3|8:6] in bits 6:2. */
  function LdspOffset(w: bv16): bv32 {
    (Take(w, 12, 1) << 5) | (Take(w, 5, 3) << 3) | (Take(w, 2, 7) << 6)
  }

  /** CSS of `c.sdsp`: offset[5:3|8:6] in bits 12:7. */
  function SdspOffset(w: bv16): bv32 {
    (Take(w, 10, 7) << 3) | (Take(w, 7, 7) << 6)
  }

  // The words the helpers build, field by field as the source writes them.

  function CjWord(imm12: bv32, funct3: bv16): (w: bv16)
    ensures Funct3C(w) == funct3 & 7 && Quadrant(w) == OPCODE_C1
  {
    var imm := imm12 & 0x0FFF;
    ((funct3 & 7) << 13) | (Slice(imm, 11, 1) << 12) | (Slice(imm, 4, 1) << 11) | (Slice(imm, 9, 1) << 10)
    | (Slice(imm, 8, 1) << 9) | (Slice(imm, 10, 1) << 8) | (Slice(imm, 6, 1) << 7) | (Slice(imm, 7, 1) << 6)
    | (Slice(imm, 3, 1) << 5) | (Slice(imm, 2, 1) << 4) | (Slice(imm, 1, 1) << 3) | (Slice(imm, 5, 1) << 2)
    | OPCODE_C1
  }

  function CbWord(rs1c: bv16, off9: bv32, funct3: bv16): (w: bv16)
    ensures Funct3C(w) == funct3 & 7 && CRegHigh(w) == rs1c & 7 && Quadrant(w) == OPCODE_C1
  {
    var imm := off9 & 0x01FF;
    ((funct3 & 7) << 13) | (Slice(imm, 8, 1) << 12) | (Slice(imm, 3, 3) << 10) | ((rs1c & 7) << 7)
    | (Slice(imm, 6, 3) << 5) | (Slice(imm, 1, 3) << 3) | (Slice(imm, 5, 1) << 2) | OPCODE_C1
  }

  function Addi16spWord(imm10: bv32): (w: bv16)
    ensures Funct3C(w) == 3 && RegHigh(w) == 2 && Quadrant(w) == OPCODE_C1
  {
    (0x3 << 13) | (Slice(imm10, 9, 1) << 12) | (2 << 7) | (Slice(imm10, 4, 1) << 6) | (Slice(imm10, 6, 1) << 5)
    | (Slice(imm10, 7, 3) << 3) | (Slice(imm10, 5, 1) << 2) | OPCODE_C1
  }

  /** The CI word of `c.addi`, `c.li`, `c.nop`, `c.addiw` and `c.slli`: funct3, imm[5], rd, imm[4:0], quadrant. */
  function CiWord(funct3: bv16, rd: bv8, imm6: bv32, quadrant: bv16): (w: bv16)
    ensures Funct3C(w) == funct3 & 7 && RegHigh(w) == (rd as bv16) & 0x1F && Quadrant(w) == quadrant & 3
  {
    var imm := imm6 & 0x3F;
    ((funct3 & 7) << 13) | (Slice(imm, 5, 1) << 12) | (((rd as bv16) & 0x1F) << 7) | ((imm & 0x1F) as bv16 << 2)
    | (quadrant & 3)
  }

  /** `c.srli`, `c.srai`, `c.andi`: funct3 100, the selector in bits 11:10, rd' in bits 9:7. */
  function ShiftLikeWord(sel: bv16, rdc: bv16, sh: bv32): (w: bv16)
    ensures Funct3C(w) == 4 && (w >> 10) & 3 == sel & 3 && CRegHigh(w) == rdc & 7 && Quadrant(w) == OPCODE_C1
  {
    (0x4 << 13) | (Slice(sh, 5, 1) << 12) | ((sel & 3) << 10) | ((rdc & 7) << 7) | ((sh & 0x1F) as bv16 << 2) | OPCODE_C1
  }

  /** CA: funct6 100x11 with the width bit in bit 12, funct2 in bits 6:5. */
  function CaWord(rdc: bv16, rs2c: bv16, funct2: bv16, wide: bool): (w: bv16)
    ensures Funct3C(w) == 4 && (w >> 10) & 7 == (if wide then 7 else 3) && (w >> 5) & 3 == funct2 & 3
    ensures CRegHigh(w) == rdc & 7 && CRegLow(w) == rs2c & 7 && Quadrant(w) == OPCODE_C1
  {
    (0x4 << 13) | ((if wide then 1 else 0) << 12) | (0x3 << 10) | ((rdc & 7) << 7) | ((funct2 & 3) << 5)
    | ((rs2c & 7) << 2) | OPCODE_C1
  }

  /** CR: funct4 100x with the link bit in bit 12. */
  function CrWord(rdrs1: bv8, rs2: bv8, link: bool): (w: bv16)
    ensures Funct3C(w) == 4 && (w >> 12) & 1 == (if link then 1 else 0) && Quadrant(w) == OPCODE_C2
    ensures RegHigh(w) == (rdrs1 as bv16) & 0x1F && RegLow(w) == (rs2 as bv16) & 0x1F
  {
    (0x4 << 13) | ((if link then 1 else 0) << 12) | (((rdrs1 as bv16) & 0x1F) << 7) | (((rs2 as bv16) & 0x1F) << 2)
    | OPCODE_C2
  }

  function Addi4spnWord(rdc: bv16, uimm: bv32): (w: bv16)
    ensures Funct3C(w) == 0 && CRegLow(w) == rdc & 7 && Quadrant(w) == OPCODE_C0
  {
    (Slice(uimm, 4, 3) << 11) | (Slice(uimm, 6, 0xF) << 7) | (Slice(uimm, 3, 1) << 5) | (Slice(uimm, 2, 1) << 6)
    | ((rdc & 7) << 2) | OPCODE_C0
  }

  /**
   * `c.lw` and `c.sw` as the source builds them: funct3 is written first
   * and imm[5:3] then goes to bits 13:11, so bit 13 (the low bit of
   * funct3) ends up holding imm[5].
   */
  function ClwWord(rdc: bv16, rs1c: bv16, imm: bv32): (w: bv16)
    ensures Funct3C(w) >> 1 == 1 && Funct3C(w) & 1 == Slice(imm, 5, 1) && Quadrant(w) == OPCODE_C0
    ensures CRegHigh(w) == rs1c & 7 && CRegLow(w) == rdc & 7
  {
    (0x1 << 14) | (Slice(imm, 3, 7) << 11) | ((rs1c & 7) << 7) | (Slice(imm, 6, 1) << 5) | (Slice(imm, 2, 1) << 6)
    | ((rdc & 7) << 2) | OPCODE_C0
  }

  function CswWord(rs2c: bv16, rs1c: bv16, imm: bv32): (w: bv16)
    ensures Funct3C(w) >> 1 == 3 && Funct3C(w) & 1 == Slice(imm, 5, 1) && Quadrant(w) == OPCODE_C0
    ensures CRegHigh(w) == rs1c & 7 && CRegLow(w) == rs2c & 7
  {
    (0x3 << 14) | (Slice(imm, 3, 7) << 11) | ((rs1c & 7) << 7) | (Slice(imm, 6, 1) << 5) | (Slice(imm, 2, 1) << 6)
    | ((rs2c & 7) << 2) | OPCODE_C0
  }

  function ClwspWord(rd: bv8, imm: bv32): (w: bv16)
    ensures Funct3C(w) == 2 && RegHigh(w) == (rd as bv16) & 0x1F && Quadrant(w) == OPCODE_C2
  {
    (0x2 << 13) | (Slice(imm, 5, 1) << 12) | (((rd as bv16) & 0x1F) << 7) | (Slice(imm, 2, 7) << 4)
    | (Slice(imm, 6, 3) << 2) | OPCODE_C2
  }

  /** `c.swsp` as the source builds it: bits 12:9 take imm[6:3]. */
  function CswspWord(rs2: bv8, imm: bv32): (w: bv16)
    ensures Funct3C(w) == 6 && RegLow(w) == (rs2 as bv16) & 0x1F && Quadrant(w) == OPCODE_C2
  {
    (0x6 << 13) | (Slice(imm, 3, 0xF) << 9) | (Slice(imm, 6, 3) << 7) | (((rs2 as bv16) & 0x1F) << 2) | OPCODE_C2
  }

  function CldWord(rdc: bv16, rs1c: bv16, imm: bv32): (w: bv16)
    ensures Funct3C(w) == 3 && CRegHigh(w) == rs1c & 7 && CRegLow(w) == rdc & 7 && Quadrant(w) == OPCODE_C0
  {
    (0x3 << 13) | (Slice(imm, 3, 7) << 10) | ((rs1c & 7) << 7) | (Slice(imm, 6, 3) << 5) | ((rdc & 7) << 2) | OPCODE_C0
  }

  function CsdWord(rs2c: bv16, rs1c: bv16, imm: bv32): (w: bv16)
    ensures Funct3C(w) == 7 && CRegHigh(w) == rs1c & 7 && CRegLow(w) == rs2c & 7 && Quadrant(w) == OPCODE_C0
  {
    (0x7 << 13) | (Slice(imm, 3, 7) << 10) | ((rs1c & 7) << 7) | (Slice(imm, 6, 3) << 5) | ((rs2c & 7) << 2) | OPCODE_C0
  }

  /** `c.ldsp` as the source builds it: imm[7:6] in bits 6:5, imm[4:3] in bits 4:3. */
  function CldspWord(rd: bv8, imm: bv32): (w: bv16)
    ensures Funct3C(w) == 3 && RegHigh(w) == (rd as bv16) & 0x1F && Quadrant(w) == OPCODE_C2
  {
    (0x3 << 13) | (Slice(imm, 5, 1) << 12) | (((rd as bv16) & 0x1F) << 7) | (Slice(imm, 6, 3) << 5)
    | (Slice(imm, 3, 3) << 3) | OPCODE_C2
  }

  function CsdspWord(rs2: bv8, imm: bv32): (w: bv16)
    ensures Funct3C(w) == 7 && RegLow(w) == (rs2 as bv16) & 0x1F && Quadrant(w) == OPCODE_C2
  {
    (0x7 << 13) | (Slice(imm, 3, 7) << 10) | (Slice(imm, 6, 7) << 7) | (((rs2 as bv16) & 0x1F) << 2) | OPCODE_C2
  }

  // The helpers, field by field.

  /** `encode_cj`: an odd offset is refused; the rest packs offset bits 11:1 in the CJ order. */
  method EncodeCj(imm12: bv32, funct3: bv16) returns (r: Result<bv16, CError>)
    ensures imm12 & 1 != 0 ==> r == Err(OddOffset("CJ"))
    ensures imm12 & 1 == 0 ==> r == Ok(CjWord(imm12, funct3))
    ensures r == CjOutcome(imm12, funct3)
  {
    if imm12 & 0x1 != 0 {
      return Err(OddOffset("CJ"));
    }
    var imm := imm12 & 0x0FFF;
    var ins: bv16 := 0;
    ins := SetBits(ins, 13, 3, funct3);
    ins := SetBits(ins, 12, 1, Slice(imm, 11, 1));
    ins := SetBits(ins, 11, 1, Slice(imm, 4, 1));
    ins := SetBits(ins, 10, 1, Slice(imm, 9, 1));
    ins := SetBits(ins, 9, 1, Slice(imm, 8, 1));
    ins := SetBits(ins, 8, 1, Slice(imm, 10, 1));
    ins := SetBits(ins, 7, 1, Slice(imm, 6, 1));
    ins := SetBits(ins, 6, 1, Slice(imm, 7, 1));
    ins := SetBits(ins, 5, 1, Slice(imm, 3, 1));
    ins := SetBits(ins, 4, 1, Slice(imm, 2, 1));
    ins := SetBits(ins, 3, 1, Slice(imm, 1, 1));
    ins := SetBits(ins, 2, 1, Slice(imm, 5, 1));
    ins := SetBits(ins, 0, 2, OPCODE_C1);
    return Ok(ins);
  }

  /** `encode_cb`: an odd offset, then a register outside x8..x15, is refused. */
  method EncodeCb(rs1: bv8, off9: bv32, funct3: bv16) returns (r: Result<bv16, CError>)
    ensures off9 & 1 != 0 ==> r == Err(OddOffset("CB"))
    ensures off9 & 1 == 0 && !CReg(rs1) ==> r == Err(NotCompressedRegister(rs1))
    ensures off9 & 1 == 0 && CReg(rs1) ==> r == Ok(CbWord((rs1 - 8) as bv16, off9, funct3))
    ensures r == CbOutcome(rs1, off9, funct3)
  {
    if off9 & 0x1 != 0 {
      return Err(OddOffset("CB"));
    }
    var rs1c;
    match CRegIndex(rs1) {
      case Err(e) => return Err(e);
      case Ok(v) => rs1c := v;
    }
    var imm := off9 & 0x01FF;
    var ins: bv16 := 0;
    ins := SetBits(ins, 13, 3, funct3);
    ins := SetBits(ins, 12, 1, Slice(imm, 8, 1));
    ins := SetBits(ins, 10, 2, Slice(imm, 3, 3));
    ins := SetBits(ins, 7, 3, rs1c);
    ins := SetBits(ins, 5, 2, Slice(imm, 6, 3));
    ins := SetBits(ins, 3, 2, Slice(imm, 1, 3));
    ins := SetBits(ins, 2, 1, Slice(imm, 5, 1));
    ins := SetBits(ins, 0, 2, OPCODE_C1);
    return Ok(ins);
  }

  /** `encode_ci_addi16sp`: a zero immediate is refused; rd is always sp (x2). */
  method EncodeAddi16sp(imm10: bv32) returns (r: Result<bv16, CError>)
    ensures imm10 == 0 ==> r == Err(Addi16spZero)
    ensures imm10 != 0 ==> r == Ok(Addi16spWord(imm10))
    ensures r == Addi16spOutcome(imm10)
  {
    if imm10 == 0 {
      return Err(Addi16spZero);
    }
    var ins: bv16 := 0;
    ins := SetBits(ins, 13, 3, 0x3);
    ins := SetBits(ins, 7, 5, 2);
    ins := SetBits(ins, 12, 1, Slice(imm10, 9, 1));
    ins := SetBits(ins, 6, 1, Slice(imm10, 4, 1));
    ins := SetBits(ins, 5, 1, Slice(imm10, 6, 1));
    ins := SetBits(ins, 3, 2, Slice(imm10, 7, 3));
    ins := SetBits(ins, 2, 1, Slice(imm10, 5, 1));
    ins := SetBits(ins, 0, 2, OPCODE_C1);
    return Ok(ins);
  }

  /**
   * The CI packing shared by `encode_ci_addiw`, `encode_ci_slli` and
   * `encode_ci_addi_like`: funct3, imm[5], rd, imm[4:0], the quadrant.
   */
  method BuildCi(funct3: bv16, rd: bv8, imm6: bv32, quadrant: bv16) returns (ins: bv16)
    ensures ins == CiWord(funct3, rd, imm6, quadrant)
  {
    var imm := imm6 & 0x3F;
    ins := 0;
    ins := SetBits(ins, 13, 3, funct3);
    ins := SetBits(ins, 12, 1, Slice(imm, 5, 1));
    ins := SetBits(ins, 7, 5, rd as bv16);
    ins := SetBits(ins, 2, 5, (imm & 0x1F) as bv16);
    ins := SetBits(ins, 0, 2, quadrant);
  }

  /** `encode_ci_addiw`: rd = x0 is refused. */
  method EncodeAddiw(rd: bv8, imm6: bv32) returns (r: Result<bv16, CError>)
    ensures rd == 0 ==> r == Err(ZeroDestination("c.addiw"))
    ensures rd != 0 ==> r == Ok(CiWord(0x1, rd, imm6, OPCODE_C1))
    ensures r == AddiwOutcome(rd, imm6)
  {
    if rd == 0 {
      return Err(ZeroDestination("c.addiw"));
    }
    var ins := BuildCi(0x1, rd, imm6, OPCODE_C1);
    return Ok(ins);
  }

  /** `encode_ci_slli`: rd = x0 is refused; the shift amount is masked to six bits, never checked. */
  method EncodeSlli(rd: bv8, shamt: bv32) returns (r: Result<bv16, CError>)
    ensures rd == 0 ==> r == Err(ZeroDestination("c.slli"))
    ensures rd != 0 ==> r == Ok(CiWord(0x0, rd, shamt, OPCODE_C2))
    ensures r == SlliOutcome(rd, shamt)
  {
    if rd == 0 {
      return Err(ZeroDestination("c.slli"));
    }
    var ins := BuildCi(0x0, rd, shamt, OPCODE_C2);
    return Ok(ins);
  }

  /** `encode_ci_addi_like` (`c.addi`, `c.li`, `c.nop`): never fails. */
  method EncodeAddiLike(rd: bv8, imm6: bv32, funct3: bv16) returns (r: Result<bv16, CError>)
    ensures r == Ok(CiWord(funct3, rd, imm6, OPCODE_C1))
  {
    var ins := BuildCi(funct3, rd, imm6, OPCODE_C1);
    return Ok(ins);
  }

  /** The `kind` argument of `encode_ci_srli_like`. */
  datatype ShiftKind = SrliKind | SraiKind | AndiKind

  /** The selector written to bits 11:10. */
  function Selector(kind: ShiftKind): bv16 {
    match kind
    case SrliKind => 0x0
    case SraiKind => 0x1
    case AndiKind => 0x2
  }

  /**
   * `encode_ci_srli_like`: a register outside x8..x15 is refused first;
   * for the two shifts, then, a zero shift amount and, on RV32, a shift
   * amount with bit 5 set. `c.andi` takes any six-bit immediate.
   */
  method EncodeShiftLike(rd: bv8, shamt: bv32, kind: ShiftKind, xlen: Xlen) returns (r: Result<bv16, CError>)
    ensures !CReg(rd) ==> r == Err(NotCompressedRegister(rd))
    ensures CReg(rd) && !kind.AndiKind? && shamt & 0x3F == 0 ==> r == Err(ZeroShamt)
    ensures CReg(rd) && !kind.AndiKind? && shamt & 0x3F != 0 && xlen == X32 && shamt & 0x20 != 0
      ==> r == Err(ShamtHighOnRv32)
    ensures CReg(rd) && (kind.AndiKind? || (shamt & 0x3F != 0 && (xlen != X32 || shamt & 0x20 == 0)))
      ==> r == Ok(ShiftLikeWord(Selector(kind), (rd - 8) as bv16, shamt & 0x3F))
    ensures r == ShiftLikeOutcome(rd, shamt, kind, xlen)
  {
    var rdc;
    match CRegIndex(rd) {
      case Err(e) => return Err(e);
      case Ok(v) => rdc := v;
    }
    var sh := shamt & 0x3F;
    if (kind.SrliKind? || kind.SraiKind?) && sh == 0 {
      return Err(ZeroShamt);
    }
    if xlen.X32? && (kind.SrliKind? || kind.SraiKind?) && (sh >> 5) & 0x1 == 1 {
      return Err(ShamtHighOnRv32);
    }
    var ins := BuildShiftLike(Selector(kind), rdc, sh);
    return Ok(ins);
  }

  /** The packing half of `encode_ci_srli_like`, once the checks have passed. */
  method BuildShiftLike(sel: bv16, rdc: bv16, sh: bv32) returns (ins: bv16)
    ensures ins == ShiftLikeWord(sel, rdc, sh)
  {
    ins := 0;
    ins := SetBits(ins, 13, 3, 0x4);
    ins := SetBits(ins, 10, 2, sel);
    ins := SetBits(ins, 12, 1, Slice(sh, 5, 1));
    ins := SetBits(ins, 2, 5, (sh & 0x1F) as bv16);
    ins := SetBits(ins, 7, 3, rdc);
    ins := SetBits(ins, 0, 2, OPCODE_C1);
  }

  /**
   * `encode_ca_logic`: both registers must be in x8..x15 (rd first); a
   * wide (word) variant is then refused on RV32.
   */
  method EncodeCaLogic(rdrs1: bv8, rs2: bv8, funct2: bv16, wide: bool, xlen: Xlen) returns (r: Result<bv16, CError>)
    ensures !CReg(rdrs1) ==> r == Err(NotCompressedRegister(rdrs1))
    ensures CReg(rdrs1) && !CReg(rs2) ==> r == Err(NotCompressedRegister(rs2))
    ensures CReg(rdrs1) && CReg(rs2) && wide && xlen == X32 ==> r == Err(WideOnRv32)
    ensures CReg(rdrs1) && CReg(rs2) && (!wide || xlen != X32)
      ==> r == Ok(CaWord((rdrs1 - 8) as bv16, (rs2 - 8) as bv16, funct2, wide))
    ensures r == CaLogicOutcome(rdrs1, rs2, funct2, wide, xlen)
  {
    var rdc, rs2c;
    match CRegIndex(rdrs1) {
      case Err(e) => return Err(e);
      case Ok(v) => rdc := v;
    }
    match CRegIndex(rs2) {
      case Err(e) => return Err(e);
      case Ok(v) => rs2c := v;
    }
    if wide && !(xlen.X64? || xlen.X128?) {
      return Err(WideOnRv32);
    }
    var ins: bv16 := 0;
    ins := SetBits(ins, 13, 3, 0x4);
    ins := SetBits(ins, 10, 2, 0x3);
    var wideBit: bv16 := if wide then 1 else 0;
    ins := SetBits(ins, 12, 1, wideBit);
    ins := SetBits(ins, 5, 2, funct2);
    ins := SetBits(ins, 7, 3, rdc);
    ins := SetBits(ins, 2, 3, rs2c);
    CaLogicFields(rdc, rs2c, funct2, wide);
    ins := SetBits(ins, 0, 2, OPCODE_C1);
    return Ok(ins);
  }

  /** The seven `set_bits` calls of `encode_ca_logic` build `CaWord`. */
  lemma CaLogicFields(rdc: bv16, rs2c: bv16, funct2: bv16, wide: bool)
    ensures var ins := SetBits(SetBits(SetBits(0, 13, 3, 0x4), 10, 2, 0x3), 12, 1, if wide then 1 else 0);
      SetBits(SetBits(SetBits(SetBits(ins, 5, 2, funct2), 7, 3, rdc), 2, 3, rs2c), 0, 2, OPCODE_C1)
      == CaWord(rdc, rs2c, funct2, wide)
  {
  }

  /** `encode_cr`: rdrs1 = x0 is refused. */
  method EncodeCr(rdrs1: bv8, rs2: bv8, link: bool) returns (r: Result<bv16, CError>)
    ensures rdrs1 == 0 ==> r == Err(CrZeroRegister)
    ensures rdrs1 != 0 ==> r == Ok(CrWord(rdrs1, rs2, link))
    ensures r == CrOutcome(rdrs1, rs2, link)
  {
    if rdrs1 == 0 {
      return Err(CrZeroRegister);
    }
    var ins: bv16 := 0;
    ins := SetBits(ins, 13, 3, 0x4);
    var linkBit: bv16 := if link then 1 else 0;
    ins := SetBits(ins, 12, 1, linkBit);
    ins := SetBits(ins, 7, 5, rdrs1 as bv16);
    ins := SetBits(ins, 2, 5, rs2 as bv16);
    ins := SetBits(ins, 0, 2, OPCODE_C2);
    return Ok(ins);
  }

  /** `encode_ciw_addi4spn`: uimm = 0, then uimm >= 2^10, then rd outside x8..x15 is refused. */
  method EncodeAddi4spn(rd: bv8, uimm: bv32) returns (r: Result<bv16, CError>)
    ensures uimm == 0 ==> r == Err(Addi4spnZero)
    ensures uimm != 0 && uimm >= 0x400 ==> r == Err(Addi4spnTooWide)
    ensures 0 < uimm < 0x400 && !CReg(rd) ==> r == Err(NotCompressedRegister(rd))
    ensures 0 < uimm < 0x400 && CReg(rd) ==> r == Ok(Addi4spnWord((rd - 8) as bv16, uimm))
    ensures r == Addi4spnOutcome(rd, uimm)
  {
    if uimm == 0 {
      return Err(Addi4spnZero);
    }
    if uimm >= 1 << 10 {
      return Err(Addi4spnTooWide);
    }
    var rdc;
    match CRegIndex(rd) {
      case Err(e) => return Err(e);
      case Ok(v) => rdc := v;
    }
    var ins: bv16 := 0;
    ins := SetBits(ins, 13, 3, 0x0);
    ins := SetBits(ins, 11, 2, Slice(uimm, 4, 3));
    ins := SetBits(ins, 7, 4, Slice(uimm, 6, 0xF));
    ins := SetBits(ins, 5, 1, Slice(uimm, 3, 1));
    ins := SetBits(ins, 6, 1, Slice(uimm, 2, 1));
    ins := SetBits(ins, 2, 3, rdc);
    ins := SetBits(ins, 0, 2, OPCODE_C0);
    return Ok(ins);
  }

  /**
   * `encode_clw`: an offset of 128 or more, then a misaligned offset,
   * then rd and then rs1 outside x8..x15 is refused.
   */
  method EncodeClw(rd: bv8, rs1: bv8, imm: bv32) returns (r: Result<bv16, CError>)
    ensures imm >= 128 ==> r == Err(OffsetTooLarge("c.lw", 128))
    ensures imm < 128 && imm % 4 != 0 ==> r == Err(Misaligned(4))
    ensures imm < 128 && imm % 4 == 0 && !CReg(rd) ==> r == Err(NotCompressedRegister(rd))
    ensures imm < 128 && imm % 4 == 0 && CReg(rd) && !CReg(rs1) ==> r == Err(NotCompressedRegister(rs1))
    ensures imm < 128 && imm % 4 == 0 && CReg(rd) && CReg(rs1)
      ==> r == Ok(ClwWord((rd - 8) as bv16, (rs1 - 8) as bv16, imm))
    ensures r == ClwOutcome(rd, rs1, imm)
  {
    if imm >= 128 {
      return Err(OffsetTooLarge("c.lw", 128));
    }
    var rdc, rs1c;
    match EnsureAlign(imm, 4) {
      case Err(e) => return Err(e);
      case Ok(_) =>
    }
    match CRegIndex(rd) {
      case Err(e) => return Err(e);
      case Ok(v) => rdc := v;
    }
    match CRegIndex(rs1) {
      case Err(e) => return Err(e);
      case Ok(v) => rs1c := v;
    }
    var ins: bv16 := 0;
    ins := SetBits(ins, 13, 3, 0x2);
    ins := SetBits(ins, 11, 3, Slice(imm, 3, 7));
    ins := SetBits(ins, 7, 3, rs1c);
    ins := SetBits(ins, 5, 1, Slice(imm, 6, 1));
    ins := SetBits(ins, 6, 1, Slice(imm, 2, 1));
    ins := SetBits(ins, 2, 3, rdc);
    ins := SetBits(ins, 0, 2, OPCODE_C0);
    return Ok(ins);
  }

  /** `encode_csw`: as `encode_clw`, with rs2 in place of rd. */
  method EncodeCsw(rs2: bv8, rs1: bv8, imm: bv32) returns (r: Result<bv16, CError>)
    ensures imm >= 128 ==> r == Err(OffsetTooLarge("c.sw", 128))
    ensures imm < 128 && imm % 4 != 0 ==> r == Err(Misaligned(4))
    ensures imm < 128 && imm % 4 == 0 && !CReg(rs2) ==> r == Err(NotCompressedRegister(rs2))
    ensures imm < 128 && imm % 4 == 0 && CReg(rs2) && !CReg(rs1) ==> r == Err(NotCompressedRegister(rs1))
    ensures imm < 128 && imm % 4 == 0 && CReg(rs2) && CReg(rs1)
      ==> r == Ok(CswWord((rs2 - 8) as bv16, (rs1 - 8) as bv16, imm))
    ensures r == CswOutcome(rs2, rs1, imm)
  {
    if imm >= 128 {
      return Err(OffsetTooLarge("c.sw", 128));
    }
    var rs2c, rs1c;
    match EnsureAlign(imm, 4) {
      case Err(e) => return Err(e);
      case Ok(_) =>
    }
    match CRegIndex(rs2) {
      case Err(e) => return Err(e);
      case Ok(v) => rs2c := v;
    }
    match CRegIndex(rs1) {
      case Err(e) => return Err(e);
      case Ok(v) => rs1c := v;
    }
    var ins: bv16 := 0;
    ins := SetBits(ins, 13, 3, 0x6);
    ins := SetBits(ins, 11, 3, Slice(imm, 3, 7));
    ins := SetBits(ins, 7, 3, rs1c);
    ins := SetBits(ins, 5, 1, Slice(imm, 6, 1));
    ins := SetBits(ins, 6, 1, Slice(imm, 2, 1));
    ins := SetBits(ins, 2, 3, rs2c);
    ins := SetBits(ins, 0, 2, OPCODE_C0);
    return Ok(ins);
  }

  /** `encode_clwsp`: rd = x0, then an offset of 256 or more, then a misaligned offset is refused. */
  method EncodeClwsp(rd: bv8, imm: bv32) returns (r: Result<bv16, CError>)
    ensures rd == 0 ==> r == Err(ZeroDestination("c.lwsp"))
    ensures rd != 0 && imm >= 256 ==> r == Err(OffsetTooLarge("c.lwsp", 256))
    ensures rd != 0 && imm < 256 && imm % 4 != 0 ==> r == Err(Misaligned(4))
    ensures rd != 0 && imm < 256 && imm % 4 == 0 ==> r == Ok(ClwspWord(rd, imm))
    ensures r == ClwspOutcome(rd, imm)
  {
    if rd == 0 {
      return Err(ZeroDestination("c.lwsp"));
    }
    if imm >= 256 {
      return Err(OffsetTooLarge("c.lwsp", 256));
    }
    match EnsureAlign(imm, 4) {
      case Err(e) => return Err(e);
      case Ok(_) =>
    }
    var ins: bv16 := 0;
    ins := SetBits(ins, 13, 3, 0x2);
    ins := SetBits(ins, 12, 1, Slice(imm, 5, 1));
    ins := SetBits(ins, 7, 5, rd as bv16);
    ins := SetBits(ins, 4, 3, Slice(imm, 2, 7));
    ins := SetBits(ins, 2, 2, Slice(imm, 6, 3));
    ins := SetBits(ins, 0, 2, OPCODE_C2);
    return Ok(ins);
  }

  /** `encode_cswsp`: an offset of 256 or more, then a misaligned offset is refused. */
  method EncodeCswsp(rs2: bv8, imm: bv32) returns (r: Result<bv16, CError>)
    ensures imm >= 256 ==> r == Err(OffsetTooLarge("c.swsp", 256))
    ensures imm < 256 && imm % 4 != 0 ==> r == Err(Misaligned(4))
    ensures imm < 256 && imm % 4 == 0 ==> r == Ok(CswspWord(rs2, imm))
    ensures r == CswspOutcome(rs2, imm)
  {
    if imm >= 256 {
      return Err(OffsetTooLarge("c.swsp", 256));
    }
    match EnsureAlign(imm, 4) {
      case Err(e) => return Err(e);
      case Ok(_) =>
    }
    var ins: bv16 := 0;
    ins := SetBits(ins, 13, 3, 0x6);
    ins := SetBits(ins, 9, 4, Slice(imm, 3, 0xF));
    ins := SetBits(ins, 7, 2, Slice(imm, 6, 3));
    ins := SetBits(ins, 2, 5, rs2 as bv16);
    ins := SetBits(ins, 0, 2, OPCODE_C2);
    return Ok(ins);
  }

  /** `encode_cld`: an offset of 256 or more, then a misaligned offset, then rd and rs1 outside x8..x15 is refused. */
  method EncodeCld(rd: bv8, rs1: bv8, imm: bv32) returns (r: Result<bv16, CError>)
    ensures imm >= 256 ==> r == Err(OffsetTooLarge("c.ld", 256))
    ensures imm < 256 && imm % 8 != 0 ==> r == Err(Misaligned(8))
    ensures imm < 256 && imm % 8 == 0 && !CReg(rd) ==> r == Err(NotCompressedRegister(rd))
    ensures imm < 256 && imm % 8 == 0 && CReg(rd) && !CReg(rs1) ==> r == Err(NotCompressedRegister(rs1))
    ensures imm < 256 && imm % 8 == 0 && CReg(rd) && CReg(rs1)
      ==> r == Ok(CldWord((rd - 8) as bv16, (rs1 - 8) as bv16, imm))
    ensures r == CldOutcome(rd, rs1, imm)
  {
    if imm >= 256 {
      return Err(OffsetTooLarge("c.ld", 256));
    }
    var rdc, rs1c;
    match EnsureAlign(imm, 8) {
      case Err(e) => return Err(e);
      case Ok(_) =>
    }
    match CRegIndex(rd) {
      case Err(e) => return Err(e);
      case Ok(v) => rdc := v;
    }
    match CRegIndex(rs1) {
      case Err(e) => return Err(e);
      case Ok(v) => rs1c := v;
    }
    var ins: bv16 := 0;
    ins := SetBits(ins, 13, 3, 0x3);
    ins := SetBits(ins, 10, 3, Slice(imm, 3, 7));
    ins := SetBits(ins, 7, 3, rs1c);
    ins := SetBits(ins, 5, 2, Slice(imm, 6, 3));
    ins := SetBits(ins, 2, 3, rdc);
    ins := SetBits(ins, 0, 2, OPCODE_C0);
    return Ok(ins);
  }

  /** `encode_csd`: as `encode_cld`, with rs2 in place of rd. */
  method EncodeCsd(rs2: bv8, rs1: bv8, imm: bv32) returns (r: Result<bv16, CError>)
    ensures imm >= 256 ==> r == Err(OffsetTooLarge("c.sd", 256))
    ensures imm < 256 && imm % 8 != 0 ==> r == Err(Misaligned(8))
    ensures imm < 256 && imm % 8 == 0 && !CReg(rs2) ==> r == Err(NotCompressedRegister(rs2))
    ensures imm < 256 && imm % 8 == 0 && CReg(rs2) && !CReg(rs1) ==> r == Err(NotCompressedRegister(rs1))
    ensures imm < 256 && imm % 8 == 0 && CReg(rs2) && CReg(rs1)
      ==> r == Ok(CsdWord((rs2 - 8) as bv16, (rs1 - 8) as bv16, imm))
    ensures r == CsdOutcome(rs2, rs1, imm)
  {
    if imm >= 256 {
      return Err(OffsetTooLarge("c.sd", 256));
    }
    var rs2c, rs1c;
    match EnsureAlign(imm, 8) {
      case Err(e) => return Err(e);
      case Ok(_) =>
    }
    match CRegIndex(rs2) {
      case Err(e) => return Err(e);
      case Ok(v) => rs2c := v;
    }
    match CRegIndex(rs1) {
      case Err(e) => return Err(e);
      case Ok(v) => rs1c := v;
    }
    var ins: bv16 := 0;
    ins := SetBits(ins, 13, 3, 0x7);
    ins := SetBits(ins, 10, 3, Slice(imm, 3, 7));
    ins := SetBits(ins, 7, 3, rs1c);
    ins := SetBits(ins, 5, 2, Slice(imm, 6, 3));
    ins := SetBits(ins, 2, 3, rs2c);
    ins := SetBits(ins, 0, 2, OPCODE_C0);
    return Ok(ins);
  }

  /** `encode_cldsp`: rd = x0, then an offset of 512 or more, then a misaligned offset is refused. */
  method EncodeCldsp(rd: bv8, imm: bv32) returns (r: Result<bv16, CError>)
    ensures rd == 0 ==> r == Err(ZeroDestination("c.ldsp"))
    ensures rd != 0 && imm >= 512 ==> r == Err(OffsetTooLargeUnbounded("c.ldsp"))
    ensures rd != 0 && imm < 512 && imm % 8 != 0 ==> r == Err(Misaligned(8))
    ensures rd != 0 && imm < 512 && imm % 8 == 0 ==> r == Ok(CldspWord(rd, imm))
    ensures r == CldspOutcome(rd, imm)
  {
    if rd == 0 {
      return Err(ZeroDestination("c.ldsp"));
    }
    if imm >= 512 {
      return Err(OffsetTooLargeUnbounded("c.ldsp"));
    }
    match EnsureAlign(imm, 8) {
      case Err(e) => return Err(e);
      case Ok(_) =>
    }
    var ins: bv16 := 0;
    ins := SetBits(ins, 13, 3, 0x3);
    ins := SetBits(ins, 12, 1, Slice(imm, 5, 1));
    ins := SetBits(ins, 7, 5, rd as bv16);
    ins := SetBits(ins, 5, 2, Slice(imm, 6, 3));
    ins := SetBits(ins, 3, 2, Slice(imm, 3, 3));
    ins := SetBits(ins, 0, 2, OPCODE_C2);
    return Ok(ins);
  }

  /** `encode_csdsp`: an offset of 512 or more, then a misaligned offset is refused. */
  method EncodeCsdsp(rs2: bv8, imm: bv32) returns (r: Result<bv16, CError>)
    ensures imm >= 512 ==> r == Err(OffsetTooLargeUnbounded("c.sdsp"))
    ensures imm < 512 && imm % 8 != 0 ==> r == Err(Misaligned(8))
    ensures imm < 512 && imm % 8 == 0 ==> r == Ok(CsdspWord(rs2, imm))
    ensures r == CsdspOutcome(rs2, imm)
  {
    if imm >= 512 {
      return Err(OffsetTooLargeUnbounded("c.sdsp"));
    }
    match EnsureAlign(imm, 8) {
      case Err(e) => return Err(e);
      case Ok(_) =>
    }
    var ins: bv16 := 0;
    ins := SetBits(ins, 13, 3, 0x7);
    ins := SetBits(ins, 10, 3, Slice(imm, 3, 7));
    ins := SetBits(ins, 7, 3, Slice(imm, 6, 7));
    ins := SetBits(ins, 2, 5, rs2 as bv16);
    ins := SetBits(ins, 0, 2, OPCODE_C2);
    return Ok(ins);
  }

  // Reading the immediates back with the layouts of the ISA.

  lemma CjOffsetRoundTrip(imm12: bv32, funct3: bv16)
    ensures CjOffset(CjWord(imm12, funct3)) == imm12 & 0xFFE
  {
  }

  lemma CbOffsetRoundTrip(rs1c: bv16, off9: bv32, funct3: bv16)
    ensures CbOffset(CbWord(rs1c, off9, funct3)) == off9 & 0x1FE
  {
  }

  lemma Addi16spRoundTrip(imm10: bv32)
    ensures Addi16spImm(Addi16spWord(imm10)) == imm10 & 0x3F0
  {
  }

  lemma CiImmRoundTrip(funct3: bv16, rd: bv8, imm6: bv32, quadrant: bv16)
    ensures CiImm(CiWord(funct3, rd, imm6, quadrant)) == imm6 & 0x3F
  {
  }

  lemma ShiftLikeRoundTrip(sel: bv16, rdc: bv16, sh: bv32)
    ensures CiImm(ShiftLikeWord(sel, rdc, sh)) == sh & 0x3F
  {
  }

  lemma Addi4spnRoundTrip(rdc: bv16, uimm: bv32)
    ensures Addi4spnImm(Addi4spnWord(rdc, uimm)) == uimm & 0x3FC
  {
  }

  lemma ClwspRoundTrip(rd: bv8, imm: bv32)
    ensures LwspOffset(ClwspWord(rd, imm)) == imm & 0xFC
  {
  }

  lemma CldRoundTrip(rdc: bv16, rs1c: bv16, imm: bv32)
    ensures ClDoubleOffset(CldWord(rdc, rs1c, imm)) == imm & 0xF8
  {
  }

  lemma CsdRoundTrip(rs2c: bv16, rs1c: bv16, imm: bv32)
    ensures ClDoubleOffset(CsdWord(rs2c, rs1c, imm)) == imm & 0xF8
  {
  }

  lemma CsdspRoundTrip(rs2: bv8, imm: bv32)
    ensures SdspOffset(CsdspWord(rs2, imm)) == imm & 0x1F8
  {
  }

  // Where the source's layout differs from the ISA's: what it builds, and the intended word.

  /**
   * `c.lw x8, 32(x8)`: imm[5] lands in bit 13, so the word carries funct3
   * 011 (that of `c.ld`) and the ISA reads an offset of 0 from it.
   */
  lemma ClwOffset32Misencoded()
    ensures Funct3C(ClwWord(0, 0, 32)) == 3
    ensures ClWordOffset(ClwWord(0, 0, 32)) == 0
  {
  }

  /** `c.sw x8, 32(x8)`: the word carries funct3 111, that of `c.sd`. */
  lemma CswOffset32Misencoded()
    ensures Funct3C(CswWord(0, 0, 32)) == 7
    ensures ClWordOffset(CswWord(0, 0, 32)) == 0
  {
  }

  /** `c.swsp x8, 4(sp)`: imm[2] is dropped and the ISA reads an offset of 0. */
  lemma CswspOffset4Misencoded()
    ensures SwspOffset(CswspWord(8, 4)) == 0
  {
  }

  /** `c.ldsp x8, 8(sp)`: imm[3] lands where the ISA keeps imm[7], so it reads 128. */
  lemma CldspOffset8Misencoded()
    ensures LdspOffset(CldspWord(8, 8)) == 128
  {
  }

  /** `c.lw` with imm[5:3] in bits 12:10, as the ISA lays it out. */
  function ClwWordIsa(rdc: bv16, rs1c: bv16, imm: bv32): (w: bv16)
    ensures Funct3C(w) == 2 && Quadrant(w) == OPCODE_C0
    ensures CRegHigh(w) == rs1c & 7 && CRegLow(w) == rdc & 7
  {
    (0x2 << 13) | (Slice(imm, 3, 7) << 10) | ((rs1c & 7) << 7) | (Slice(imm, 2, 1) << 6) | (Slice(imm, 6, 1) << 5)
    | ((rdc & 7) << 2) | OPCODE_C0
  }

  /** `c.sw` with imm[5:3] in bits 12:10. */
  function CswWordIsa(rs2c: bv16, rs1c: bv16, imm: bv32): (w: bv16)
    ensures Funct3C(w) == 6 && Quadrant(w) == OPCODE_C0
    ensures CRegHigh(w) == rs1c & 7 && CRegLow(w) == rs2c & 7
  {
    (0x6 << 13) | (Slice(imm, 3, 7) << 10) | ((rs1c & 7) << 7) | (Slice(imm, 2, 1) << 6) | (Slice(imm, 6, 1) << 5)
    | ((rs2c & 7) << 2) | OPCODE_C0
  }

  /** `c.swsp` with imm[5:2] in bits 12:9. */
  function CswspWordIsa(rs2: bv8, imm: bv32): (w: bv16)
    ensures Funct3C(w) == 6 && RegLow(w) == (rs2 as bv16) & 0x1F && Quadrant(w) == OPCODE_C2
  {
    (0x6 << 13) | (Slice(imm, 2, 0xF) << 9) | (Slice(imm, 6, 3) << 7) | (((rs2 as bv16) & 0x1F) << 2) | OPCODE_C2
  }

  /** `c.ldsp` with imm[4:3] in bits 6:5 and imm[8:6] in bits 4:2. */
  function CldspWordIsa(rd: bv8, imm: bv32): (w: bv16)
    ensures Funct3C(w) == 3 && RegHigh(w) == (rd as bv16) & 0x1F && Quadrant(w) == OPCODE_C2
  {
    (0x3 << 13) | (Slice(imm, 5, 1) << 12) | (((rd as bv16) & 0x1F) << 7) | (Slice(imm, 3, 3) << 5)
    | (Slice(imm, 6, 7) << 2) | OPCODE_C2
  }

  lemma ClwIsaRoundTrip(rdc: bv16, rs1c: bv16, imm: bv32)
    ensures ClWordOffset(ClwWordIsa(rdc, rs1c, imm)) == imm & 0x7C
  {
  }

  lemma CswIsaRoundTrip(rs2c: bv16, rs1c: bv16, imm: bv32)
    ensures ClWordOffset(CswWordIsa(rs2c, rs1c, imm)) == imm & 0x7C
  {
  }

  lemma CswspIsaRoundTrip(rs2: bv8, imm: bv32)
    ensures SwspOffset(CswspWordIsa(rs2, imm)) == imm & 0xFC
  {
  }

  lemma CldspIsaRoundTrip(rd: bv8, imm: bv32)
    ensures LdspOffset(CldspWordIsa(rd, imm)) == imm & 0x1F8
  {
  }

  /**
   * An accepted offset fits the intended layout: for every offset the
   * as-written encoder accepts, the corrected word reads back the offset
   * itself.
   */
  lemma ClwIsaKeepsAcceptedOffset(rdc: bv16, rs1c: bv16, imm: bv32)
    requires imm < 128 && imm % 4 == 0
    ensures ClWordOffset(ClwWordIsa(rdc, rs1c, imm)) == imm
  {
    ClwIsaRoundTrip(rdc, rs1c, imm);
  }

  lemma CswIsaKeepsAcceptedOffset(rs2c: bv16, rs1c: bv16, imm: bv32)
    requires imm < 128 && imm % 4 == 0
    ensures ClWordOffset(CswWordIsa(rs2c, rs1c, imm)) == imm
  {
    CswIsaRoundTrip(rs2c, rs1c, imm);
  }

  lemma CswspIsaKeepsAcceptedOffset(rs2: bv8, imm: bv32)
    requires imm < 256 && imm % 4 == 0
    ensures SwspOffset(CswspWordIsa(rs2, imm)) == imm
  {
    CswspIsaRoundTrip(rs2, imm);
  }

  lemma CldspIsaKeepsAcceptedOffset(rd: bv8, imm: bv32)
    requires imm < 512 && imm % 8 == 0
    ensures LdspOffset(CldspWordIsa(rd, imm)) == imm
  {
    CldspIsaRoundTrip(rd, imm);
  }

  // The dispatch.

  /** The funct3 of each compressed instruction in the opcode map of section 16.8 of the ISA. */
  function RvcFunct3(c: RVC): bv16 {
    match c
    case Caddi4spn(_) => 0 case Cnop(_) => 0 case Caddi(_) => 0 case Cli(_) => 2
    case Caddi16sp(_) => 3 case Caddiw(_) => 1
    case Clw(_) => 2 case Csw(_) => 6 case Clwsp(_) => 2 case Cswsp(_) => 6
    case Cld(_) => 3 case Csd(_) => 7 case Cldsp(_) => 3 case Csdsp(_) => 7
    case Cslli(_) => 0 case Csrli(_) => 4 case Csrai(_) => 4 case Candi(_) => 4
    case Csub(_) => 4 case Cxor(_) => 4 case Cor(_) => 4 case Cand(_) => 4 case Csubw(_) => 4 case Caddw(_) => 4
    case Cjr(_) => 4 case Cmv(_) => 4 case Cjalr(_) => 4 case Cadd(_) => 4
    case Cj(_) => 5 case Cjal(_) => 1 case Cbeqz(_) => 6 case Cbnez(_) => 7
  }

  /** The quadrant (low two bits) of each compressed instruction in that map. */
  function RvcQuadrant(c: RVC): bv16 {
    match c
    case Caddi4spn(_) => OPCODE_C0 case Clw(_) => OPCODE_C0 case Csw(_) => OPCODE_C0
    case Cld(_) => OPCODE_C0 case Csd(_) => OPCODE_C0
    case Clwsp(_) => OPCODE_C2 case Cswsp(_) => OPCODE_C2 case Cldsp(_) => OPCODE_C2 case Csdsp(_) => OPCODE_C2
    case Cslli(_) => OPCODE_C2
    case Cjr(_) => OPCODE_C2 case Cmv(_) => OPCODE_C2 case Cjalr(_) => OPCODE_C2 case Cadd(_) => OPCODE_C2
    case _ => OPCODE_C1
  }

  /** The double-word loads and stores, which the dispatch encodes only on RV64 and RV128. */
  predicate DoubleWordAccess(c: RVC) {
    c.Cld? || c.Csd? || c.Cldsp? || c.Csdsp?
  }

  /**
   * A word fits a compressed instruction when it is in the instruction's
   * quadrant (so its low bits are never 11) and carries its funct3, except
   * that `c.lw` and `c.sw` keep only funct3's upper two bits (bit 13 holds
   * imm[5]).
   */
  predicate FitsMap(rvc: RVC, w: bv16) {
    Quadrant(w) == RvcQuadrant(rvc) && Quadrant(w) != 3
    && if rvc.Clw? || rvc.Csw? then Funct3C(w) >> 1 == RvcFunct3(rvc) >> 1 else Funct3C(w) == RvcFunct3(rvc)
  }

  // What each helper returns, as a value: the specification each helper above is proved against.

  function CjOutcome(imm12: bv32, funct3: bv16): Result<bv16, CError> {
    if imm12 & 1 != 0 then Err(OddOffset("CJ")) else Ok(CjWord(imm12, funct3))
  }

  function CbOutcome(rs1: bv8, off9: bv32, funct3: bv16): Result<bv16, CError> {
    if off9 & 1 != 0 then Err(OddOffset("CB"))
    else if !CReg(rs1) then Err(NotCompressedRegister(rs1))
    else Ok(CbWord((rs1 - 8) as bv16, off9, funct3))
  }

  function Addi16spOutcome(imm10: bv32): Result<bv16, CError> {
    if imm10 == 0 then Err(Addi16spZero) else Ok(Addi16spWord(imm10))
  }

  function AddiwOutcome(rd: bv8, imm6: bv32): Result<bv16, CError> {
    if rd == 0 then Err(ZeroDestination("c.addiw")) else Ok(CiWord(0x1, rd, imm6, OPCODE_C1))
  }

  function SlliOutcome(rd: bv8, shamt: bv32): Result<bv16, CError> {
    if rd == 0 then Err(ZeroDestination("c.slli")) else Ok(CiWord(0x0, rd, shamt, OPCODE_C2))
  }

  function ShiftLikeOutcome(rd: bv8, shamt: bv32, kind: ShiftKind, xlen: Xlen): Result<bv16, CError> {
    if !CReg(rd) then Err(NotCompressedRegister(rd))
    else if !kind.AndiKind? && shamt & 0x3F == 0 then Err(ZeroShamt)
    else if !kind.AndiKind? && xlen == X32 && shamt & 0x20 != 0 then Err(ShamtHighOnRv32)
    else Ok(ShiftLikeWord(Selector(kind), (rd - 8) as bv16, shamt & 0x3F))
  }

  function CaLogicOutcome(rdrs1: bv8, rs2: bv8, funct2: bv16, wide: bool, xlen: Xlen): Result<bv16, CError> {
    if !CReg(rdrs1) then Err(NotCompressedRegister(rdrs1))
    else if !CReg(rs2) then Err(NotCompressedRegister(rs2))
    else if wide && xlen == X32 then Err(WideOnRv32)
    else Ok(CaWord((rdrs1 - 8) as bv16, (rs2 - 8) as bv16, funct2, wide))
  }

  function CrOutcome(rdrs1: bv8, rs2: bv8, link: bool): Result<bv16, CError> {
    if rdrs1 == 0 then Err(CrZeroRegister) else Ok(CrWord(rdrs1, rs2, link))
  }

  function Addi4spnOutcome(rd: bv8, uimm: bv32): Result<bv16, CError> {
    if uimm == 0 then Err(Addi4spnZero)
    else if uimm >= 0x400 then Err(Addi4spnTooWide)
    else if !CReg(rd) then Err(NotCompressedRegister(rd))
    else Ok(Addi4spnWord((rd - 8) as bv16, uimm))
  }

  function ClwOutcome(rd: bv8, rs1: bv8, imm: bv32): Result<bv16, CError> {
    if imm >= 128 then Err(OffsetTooLarge("c.lw", 128))
    else if imm % 4 != 0 then Err(Misaligned(4))
    else if !CReg(rd) then Err(NotCompressedRegister(rd))
    else if !CReg(rs1) then Err(NotCompressedRegister(rs1))
    else Ok(ClwWord((rd - 8) as bv16, (rs1 - 8) as bv16, imm))
  }

  function CswOutcome(rs2: bv8, rs1: bv8, imm: bv32): Result<bv16, CError> {
    if imm >= 128 then Err(OffsetTooLarge("c.sw", 128))
    else if imm % 4 != 0 then Err(Misaligned(4))
    else if !CReg(rs2) then Err(NotCompressedRegister(rs2))
    else if !CReg(rs1) then Err(NotCompressedRegister(rs1))
    else Ok(CswWord((rs2 - 8) as bv16, (rs1 - 8) as bv16, imm))
  }

  function ClwspOutcome(rd: bv8, imm: bv32): Result<bv16, CError> {
    if rd == 0 then Err(ZeroDestination("c.lwsp"))
    else if imm >= 256 then Err(OffsetTooLarge("c.lwsp", 256))
    else if imm % 4 != 0 then Err(Misaligned(4))
    else Ok(ClwspWord(rd, imm))
  }

  function CswspOutcome(rs2: bv8, imm: bv32): Result<bv16, CError> {
    if imm >= 256 then Err(OffsetTooLarge("c.swsp", 256))
    else if imm % 4 != 0 then Err(Misaligned(4))
    else Ok(CswspWord(rs2, imm))
  }

  function CldOutcome(rd: bv8, rs1: bv8, imm: bv32): Result<bv16, CError> {
    if imm >= 256 then Err(OffsetTooLarge("c.ld", 256))
    else if imm % 8 != 0 then Err(Misaligned(8))
    else if !CReg(rd) then Err(NotCompressedRegister(rd))
    else if !CReg(rs1) then Err(NotCompressedRegister(rs1))
    else Ok(CldWord((rd - 8) as bv16, (rs1 - 8) as bv16, imm))
  }

  function CsdOutcome(rs2: bv8, rs1: bv8, imm: bv32): Result<bv16, CError> {
    if imm >= 256 then Err(OffsetTooLarge("c.sd", 256))
    else if imm % 8 != 0 then Err(Misaligned(8))
    else if !CReg(rs2) then Err(NotCompressedRegister(rs2))
    else if !CReg(rs1) then Err(NotCompressedRegister(rs1))
    else Ok(CsdWord((rs2 - 8) as bv16, (rs1 - 8) as bv16, imm))
  }

  function CldspOutcome(rd: bv8, imm: bv32): Result<bv16, CError> {
    if rd == 0 then Err(ZeroDestination("c.ldsp"))
    else if imm >= 512 then Err(OffsetTooLargeUnbounded("c.ldsp"))
    else if imm % 8 != 0 then Err(Misaligned(8))
    else Ok(CldspWord(rd, imm))
  }

  function CsdspOutcome(rs2: bv8, imm: bv32): Result<bv16, CError> {
    if imm >= 512 then Err(OffsetTooLargeUnbounded("c.sdsp"))
    else if imm % 8 != 0 then Err(Misaligned(8))
    else Ok(CsdspWord(rs2, imm))
  }

  /**
   * What `encode_rvc` returns for each compressed instruction: the helper
   * of its arm on its fields, with the double-word accesses refused on
   * RV32 and `c.jal` off RV32 as not implemented.
   */
  function RvcEncoding(rvc: RVC, xlen: Xlen): Result<bv16, CError> {
    match rvc
    case Caddi4spn(ciw) => Addi4spnOutcome(ciw.rd, ciw.uimm.Low32())
    case Cnop(ci) => Ok(CiWord(0x0, ci.rdrs1, ci.imm.LowU32(), OPCODE_C1))
    case Caddi(ci) => Ok(CiWord(0x0, ci.rdrs1, ci.imm.LowU32(), OPCODE_C1))
    case Cli(ci) => Ok(CiWord(0x2, ci.rdrs1, ci.imm.LowU32(), OPCODE_C1))
    case Caddi16sp(ci) => Addi16spOutcome(ci.imm.LowU32())
    case Caddiw(ci) => AddiwOutcome(ci.rdrs1, ci.imm.LowU32())
    case Clw(cl) => ClwOutcome(cl.rd, cl.rs1, cl.imm.LowU32())
    case Csw(cs) => CswOutcome(cs.rs2, cs.rs1, cs.imm.LowU32())
    case Clwsp(ci) => ClwspOutcome(ci.rdrs1, ci.imm.LowU32())
    case Cswsp(css) => CswspOutcome(css.rs2, css.imm.LowU32())
    case Cld(cl) => if xlen == X32 then Err(RvcNotImplemented) else CldOutcome(cl.rd, cl.rs1, cl.imm.LowU32())
    case Csd(cs) => if xlen == X32 then Err(RvcNotImplemented) else CsdOutcome(cs.rs2, cs.rs1, cs.imm.LowU32())
    case Cldsp(ci) => if xlen == X32 then Err(RvcNotImplemented) else CldspOutcome(ci.rdrs1, ci.imm.LowU32())
    case Csdsp(css) => if xlen == X32 then Err(RvcNotImplemented) else CsdspOutcome(css.rs2, css.imm.LowU32())
    case Cslli(ci) => SlliOutcome(ci.rdrs1, ci.imm.LowU32())
    case Csrli(ci) => ShiftLikeOutcome(ci.rdrs1, ci.imm.LowU32(), SrliKind, xlen)
    case Csrai(ci) => ShiftLikeOutcome(ci.rdrs1, ci.imm.LowU32(), SraiKind, xlen)
    case Candi(ci) => ShiftLikeOutcome(ci.rdrs1, ci.imm.LowU32(), AndiKind, xlen)
    case Csub(ca) => CaLogicOutcome(ca.rdrs1, ca.rs2, 0x0, false, xlen)
    case Cxor(ca) => CaLogicOutcome(ca.rdrs1, ca.rs2, 0x1, false, xlen)
    case Cor(ca) => CaLogicOutcome(ca.rdrs1, ca.rs2, 0x2, false, xlen)
    case Cand(ca) => CaLogicOutcome(ca.rdrs1, ca.rs2, 0x3, false, xlen)
    case Csubw(ca) => CaLogicOutcome(ca.rdrs1, ca.rs2, 0x0, true, xlen)
    case Caddw(ca) => CaLogicOutcome(ca.rdrs1, ca.rs2, 0x1, true, xlen)
    case Cjr(cr) => CrOutcome(cr.rdrs1, 0, false)
    case Cmv(cr) => CrOutcome(cr.rdrs1, cr.rs2, false)
    case Cjalr(cr) => CrOutcome(cr.rdrs1, 0, true)
    case Cadd(cr) => CrOutcome(cr.rdrs1, cr.rs2, true)
    case Cj(cj) => CjOutcome(cj.target.LowU32(), 0x5)
    case Cjal(cj) => if xlen == X32 then CjOutcome(cj.target.LowU32(), 0x1) else Err(RvcNotImplemented)
    case Cbeqz(cb) => CbOutcome(cb.rs1, cb.off.LowU32(), 0x6)
    case Cbnez(cb) => CbOutcome(cb.rs1, cb.off.LowU32(), 0x7)
  }

  /** Every word `encode_rvc` produces fits the opcode map. */
  lemma RvcEncodingFitsMap(rvc: RVC, xlen: Xlen)
    ensures RvcEncoding(rvc, xlen).Ok? ==> FitsMap(rvc, RvcEncoding(rvc, xlen).value)
  {
    if RvcQuadrant(rvc) == OPCODE_C0 {
      QuadrantZeroFitsMap(rvc, xlen);
    } else if RvcQuadrant(rvc) == OPCODE_C2 {
      QuadrantTwoFitsMap(rvc, xlen);
    } else {
      QuadrantOneFitsMap(rvc, xlen);
    }
  }

  lemma QuadrantZeroFitsMap(rvc: RVC, xlen: Xlen)
    requires RvcQuadrant(rvc) == OPCODE_C0
    ensures RvcEncoding(rvc, xlen).Ok? ==> FitsMap(rvc, RvcEncoding(rvc, xlen).value)
  {
  }

  lemma QuadrantOneFitsMap(rvc: RVC, xlen: Xlen)
    requires RvcQuadrant(rvc) == OPCODE_C1
    ensures RvcEncoding(rvc, xlen).Ok? ==> FitsMap(rvc, RvcEncoding(rvc, xlen).value)
  {
  }

  lemma QuadrantTwoFitsMap(rvc: RVC, xlen: Xlen)
    requires RvcQuadrant(rvc) == OPCODE_C2
    ensures RvcEncoding(rvc, xlen).Ok? ==> FitsMap(rvc, RvcEncoding(rvc, xlen).value)
  {
  }

  /** A register of x8..x15 survives its three-bit field. */
  lemma CRegField(reg: bv8)
    requires CReg(reg)
    ensures (((reg - 8) as bv16) & 7) as bv8 + 8 == reg
  {
  }

  lemma CaOutcomeReadsBack(rdrs1: bv8, rs2: bv8, funct2: bv16, wide: bool, xlen: Xlen)
    requires funct2 < 4 && CaLogicOutcome(rdrs1, rs2, funct2, wide, xlen).Ok?
    ensures var w := CaLogicOutcome(rdrs1, rs2, funct2, wide, xlen).value;
      (w >> 5) & 3 == funct2 && (w >> 12) & 1 == (if wide then 1 else 0)
      && CRegHigh(w) as bv8 + 8 == rdrs1 && CRegLow(w) as bv8 + 8 == rs2
  {
    CRegField(rdrs1);
    CRegField(rs2);
  }

  lemma ShiftLikeOutcomeReadsBack(rd: bv8, shamt: bv32, kind: ShiftKind, xlen: Xlen)
    requires ShiftLikeOutcome(rd, shamt, kind, xlen).Ok?
    ensures var w := ShiftLikeOutcome(rd, shamt, kind, xlen).value;
      CiImm(w) == shamt & 0x3F && CRegHigh(w) as bv8 + 8 == rd && (w >> 10) & 3 == Selector(kind)
  {
    ShiftLikeRoundTrip(Selector(kind), (rd - 8) as bv16, shamt & 0x3F);
    CRegField(rd);
  }

  lemma Addi4spnOutcomeReadsBack(rd: bv8, uimm: bv32)
    requires Addi4spnOutcome(rd, uimm).Ok?
    ensures var w := Addi4spnOutcome(rd, uimm).value;
      Addi4spnImm(w) == uimm & 0x3FC && CRegLow(w) as bv8 + 8 == rd
  {
    Addi4spnRoundTrip((rd - 8) as bv16, uimm);
    CRegField(rd);
  }

  lemma CbOutcomeReadsBack(rs1: bv8, off9: bv32, funct3: bv16)
    requires CbOutcome(rs1, off9, funct3).Ok?
    ensures var w := CbOutcome(rs1, off9, funct3).value;
      CbOffset(w) == off9 & 0x1FF && CRegHigh(w) as bv8 + 8 == rs1
  {
    CbOffsetRoundTrip((rs1 - 8) as bv16, off9, funct3);
    CRegField(rs1);
  }

  lemma CjOutcomeReadsBack(imm12: bv32, funct3: bv16)
    requires CjOutcome(imm12, funct3).Ok?
    ensures CjOffset(CjOutcome(imm12, funct3).value) == imm12 & 0xFFF
  {
    CjOffsetRoundTrip(imm12, funct3);
  }

  lemma ClwspOutcomeReadsBack(rd: bv8, imm: bv32)
    requires ClwspOutcome(rd, imm).Ok?
    ensures LwspOffset(ClwspOutcome(rd, imm).value) == imm
  {
    ClwspRoundTrip(rd, imm);
  }

  lemma CldOutcomeReadsBack(rd: bv8, rs1: bv8, imm: bv32)
    requires CldOutcome(rd, rs1, imm).Ok?
    ensures var w := CldOutcome(rd, rs1, imm).value;
      ClDoubleOffset(w) == imm && CRegLow(w) as bv8 + 8 == rd && CRegHigh(w) as bv8 + 8 == rs1
  {
    CldRoundTrip((rd - 8) as bv16, (rs1 - 8) as bv16, imm);
    CRegField(rd);
    CRegField(rs1);
  }

  lemma CsdOutcomeReadsBack(rs2: bv8, rs1: bv8, imm: bv32)
    requires CsdOutcome(rs2, rs1, imm).Ok?
    ensures var w := CsdOutcome(rs2, rs1, imm).value;
      ClDoubleOffset(w) == imm && CRegLow(w) as bv8 + 8 == rs2 && CRegHigh(w) as bv8 + 8 == rs1
  {
    CsdRoundTrip((rs2 - 8) as bv16, (rs1 - 8) as bv16, imm);
    CRegField(rs2);
    CRegField(rs1);
  }

  lemma CsdspOutcomeReadsBack(rs2: bv8, imm: bv32)
    requires CsdspOutcome(rs2, imm).Ok?
    ensures SdspOffset(CsdspOutcome(rs2, imm).value) == imm
  {
    CsdspRoundTrip(rs2, imm);
  }

  /**
   * The CI arms with a five-bit register: the word read with the ISA's
   * layouts gives back the immediate (as far as the format holds it) and
   * the register.
   */
  lemma RvcImmediateReadsBack(rvc: RVC, xlen: Xlen)
    requires RvcEncoding(rvc, xlen).Ok?
    ensures var w := RvcEncoding(rvc, xlen).value;
      && (rvc.Cnop? || rvc.Caddi? || rvc.Cli? || rvc.Caddiw? || rvc.Cslli?
          ==> CiImm(w) == rvc.ci.imm.LowU32() & 0x3F && RegHigh(w) == (rvc.ci.rdrs1 as bv16) & 0x1F)
  {
    match rvc
    case Cnop(ci) => CiImmRoundTrip(0x0, ci.rdrs1, ci.imm.LowU32(), OPCODE_C1);
    case Caddi(ci) => CiImmRoundTrip(0x0, ci.rdrs1, ci.imm.LowU32(), OPCODE_C1);
    case Cli(ci) => CiImmRoundTrip(0x2, ci.rdrs1, ci.imm.LowU32(), OPCODE_C1);
    case Caddiw(ci) => CiImmRoundTrip(0x1, ci.rdrs1, ci.imm.LowU32(), OPCODE_C1);
    case Cslli(ci) => CiImmRoundTrip(0x0, ci.rdrs1, ci.imm.LowU32(), OPCODE_C2);
    case _ =>
  }

  /** `c.addi16sp`: the scaled immediate reads back, and rd is sp. */
  lemma RvcAddi16spReadsBack(rvc: RVC, xlen: Xlen)
    requires rvc.Caddi16sp? && RvcEncoding(rvc, xlen).Ok?
    ensures var w := RvcEncoding(rvc, xlen).value;
      Addi16spImm(w) == rvc.ci.imm.LowU32() & 0x3F0 && RegHigh(w) == 2
  {
    Addi16spRoundTrip(rvc.ci.imm.LowU32());
  }

  /**
   * The immediate arms with a three-bit register (`c.addi4spn`, `c.srli`,
   * `c.srai`, `c.andi`): the immediate, the register and the selector of
   * bits 11:10 read back.
   */
  lemma RvcNarrowImmediateReadsBack(rvc: RVC, xlen: Xlen)
    requires RvcEncoding(rvc, xlen).Ok?
    ensures var w := RvcEncoding(rvc, xlen).value;
      && (rvc.Caddi4spn? ==> Addi4spnImm(w) == rvc.ciw.uimm.Low32() & 0x3FC && CRegLow(w) as bv8 + 8 == rvc.ciw.rd)
      && (rvc.Csrli? || rvc.Csrai? || rvc.Candi?
          ==> CiImm(w) == rvc.ci.imm.LowU32() & 0x3F && CRegHigh(w) as bv8 + 8 == rvc.ci.rdrs1
              && (w >> 10) & 3 == (if rvc.Csrli? then 0 else if rvc.Csrai? then 1 else 2))
  {
    match rvc
    case Caddi4spn(ciw) => Addi4spnOutcomeReadsBack(ciw.rd, ciw.uimm.Low32());
    case Csrli(ci) => ShiftLikeOutcomeReadsBack(ci.rdrs1, ci.imm.LowU32(), SrliKind, xlen);
    case Csrai(ci) => ShiftLikeOutcomeReadsBack(ci.rdrs1, ci.imm.LowU32(), SraiKind, xlen);
    case Candi(ci) => ShiftLikeOutcomeReadsBack(ci.rdrs1, ci.imm.LowU32(), AndiKind, xlen);
    case _ =>
  }

  /**
   * The jumps and branches: every accepted offset reads back whole from
   * the CJ and CB layouts (an odd one is refused), with the branch register.
   */
  lemma RvcControlReadsBack(rvc: RVC, xlen: Xlen)
    requires RvcEncoding(rvc, xlen).Ok?
    ensures var w := RvcEncoding(rvc, xlen).value;
      && (rvc.Cj? || rvc.Cjal? ==> CjOffset(w) == rvc.cj.target.LowU32() & 0xFFF)
      && (rvc.Cbeqz? || rvc.Cbnez? ==> CbOffset(w) == rvc.cb.off.LowU32() & 0x1FF && CRegHigh(w) as bv8 + 8 == rvc.cb.rs1)
  {
    match rvc
    case Cj(cj) => CjOutcomeReadsBack(cj.target.LowU32(), 0x5);
    case Cjal(cj) => CjOutcomeReadsBack(cj.target.LowU32(), 0x1);
    case Cbeqz(cb) => CbOutcomeReadsBack(cb.rs1, cb.off.LowU32(), 0x6);
    case Cbnez(cb) => CbOutcomeReadsBack(cb.rs1, cb.off.LowU32(), 0x7);
    case _ =>
  }

  /**
   * The loads and stores whose layout follows the ISA: the offset reads
   * back exactly, with the registers.
   */
  lemma RvcAccessReadsBack(rvc: RVC, xlen: Xlen)
    requires RvcEncoding(rvc, xlen).Ok?
    ensures var w := RvcEncoding(rvc, xlen).value;
      && (rvc.Clwsp? ==> LwspOffset(w) == rvc.ci.imm.LowU32() && RegHigh(w) == (rvc.ci.rdrs1 as bv16) & 0x1F)
      && (rvc.Cld? ==>
            ClDoubleOffset(w) == rvc.cl.imm.LowU32() && CRegLow(w) as bv8 + 8 == rvc.cl.rd && CRegHigh(w) as bv8 + 8 == rvc.cl.rs1)
      && (rvc.Csd? ==>
            ClDoubleOffset(w) == rvc.cs.imm.LowU32() && CRegLow(w) as bv8 + 8 == rvc.cs.rs2 && CRegHigh(w) as bv8 + 8 == rvc.cs.rs1)
      && (rvc.Csdsp? ==> SdspOffset(w) == rvc.css.imm.LowU32() && RegLow(w) == (rvc.css.rs2 as bv16) & 0x1F)
  {
    match rvc
    case Clwsp(ci) => ClwspOutcomeReadsBack(ci.rdrs1, ci.imm.LowU32());
    case Cld(cl) => CldOutcomeReadsBack(cl.rd, cl.rs1, cl.imm.LowU32());
    case Csd(cs) => CsdOutcomeReadsBack(cs.rs2, cs.rs1, cs.imm.LowU32());
    case Csdsp(css) => CsdspOutcomeReadsBack(css.rs2, css.imm.LowU32());
    case _ =>
  }

  /**
   * `c.lw x8, 32(x8)` through the dispatch: `encode_rvc` accepts it and
   * returns the word whose funct3 is that of `c.ld`.
   */
  lemma RvcClwOffset32Misencoded()
    ensures RvcEncoding(Clw(CLType(8, 8, 2, Imm(32, 7))), X32) == Ok(ClwWord(0, 0, 32))
    ensures Funct3C(RvcEncoding(Clw(CLType(8, 8, 2, Imm(32, 7))), X32).value) == 3
  {
    ClwOffset32Misencoded();
  }

  predicate CaGroup(c: RVC) {
    c.Csub? || c.Cxor? || c.Cor? || c.Cand? || c.Csubw? || c.Caddw?
  }

  /** The funct2 (bits 6:5) and the word-form bit (bit 12) of each CA instruction in the ISA's opcode map. */
  function CaCode(c: RVC): (bv16, bv16)
    requires CaGroup(c)
  {
    match c
    case Csub(_) => (0, 0) case Cxor(_) => (1, 0) case Cor(_) => (2, 0) case Cand(_) => (3, 0)
    case Csubw(_) => (0, 1) case Caddw(_) => (1, 1)
  }

  /** The CA arms: the word carries the ISA's funct2 and word bit for its instruction, and both registers. */
  lemma RvcArithReadsBack(rvc: RVC, xlen: Xlen)
    requires CaGroup(rvc) && RvcEncoding(rvc, xlen).Ok?
    ensures var w := RvcEncoding(rvc, xlen).value;
      (w >> 5) & 3 == CaCode(rvc).0 && (w >> 12) & 1 == CaCode(rvc).1
      && CRegHigh(w) as bv8 + 8 == rvc.ca.rdrs1 && CRegLow(w) as bv8 + 8 == rvc.ca.rs2
  {
    if rvc.Csubw? || rvc.Caddw? {
      RvcWordArithReadsBack(rvc, xlen);
    } else {
      RvcLogicReadsBack(rvc, xlen);
    }
  }

  lemma RvcLogicReadsBack(rvc: RVC, xlen: Xlen)
    requires (rvc.Csub? || rvc.Cxor? || rvc.Cor? || rvc.Cand?) && RvcEncoding(rvc, xlen).Ok?
    ensures var w := RvcEncoding(rvc, xlen).value;
      (w >> 5) & 3 == CaCode(rvc).0 && (w >> 12) & 1 == CaCode(rvc).1
      && CRegHigh(w) as bv8 + 8 == rvc.ca.rdrs1 && CRegLow(w) as bv8 + 8 == rvc.ca.rs2
  {
    var ca := rvc.ca;
    match rvc
    case Csub(_) => CaOutcomeReadsBack(ca.rdrs1, ca.rs2, 0x0, false, xlen);
    case Cxor(_) => CaOutcomeReadsBack(ca.rdrs1, ca.rs2, 0x1, false, xlen);
    case Cor(_) => CaOutcomeReadsBack(ca.rdrs1, ca.rs2, 0x2, false, xlen);
    case Cand(_) => CaOutcomeReadsBack(ca.rdrs1, ca.rs2, 0x3, false, xlen);
  }

  lemma RvcWordArithReadsBack(rvc: RVC, xlen: Xlen)
    requires (rvc.Csubw? || rvc.Caddw?) && RvcEncoding(rvc, xlen).Ok?
    ensures var w := RvcEncoding(rvc, xlen).value;
      (w >> 5) & 3 == CaCode(rvc).0 && (w >> 12) & 1 == CaCode(rvc).1
      && CRegHigh(w) as bv8 + 8 == rvc.ca.rdrs1 && CRegLow(w) as bv8 + 8 == rvc.ca.rs2
  {
    var ca := rvc.ca;
    match rvc
    case Csubw(_) => CaOutcomeReadsBack(ca.rdrs1, ca.rs2, 0x0, true, xlen);
    case Caddw(_) => CaOutcomeReadsBack(ca.rdrs1, ca.rs2, 0x1, true, xlen);
  }

  /** No two CA instructions share a word: the word fixes the operation and both registers. */
  lemma RvcArithInjective(a: RVC, b: RVC, xlen: Xlen)
    requires CaGroup(a) && CaGroup(b)
    requires RvcEncoding(a, xlen).Ok? && RvcEncoding(a, xlen) == RvcEncoding(b, xlen)
    ensures a.Csub? == b.Csub? && a.Cxor? == b.Cxor? && a.Cor? == b.Cor? && a.Cand? == b.Cand?
      && a.Csubw? == b.Csubw? && a.Caddw? == b.Caddw?
    ensures a.ca.rdrs1 == b.ca.rdrs1 && a.ca.rs2 == b.ca.rs2
  {
    RvcArithReadsBack(a, xlen);
    RvcArithReadsBack(b, xlen);
  }

  /**
   * The CR arms: bit 12 is the link bit of `c.jalr` and `c.add`, bits 11:7
   * hold rd/rs1, and bits 6:2 hold rs2 for `c.mv` and `c.add` and zero for
   * the jumps.
   */
  lemma RvcRegisterReadsBack(rvc: RVC, xlen: Xlen)
    requires (rvc.Cjr? || rvc.Cmv? || rvc.Cjalr? || rvc.Cadd?) && RvcEncoding(rvc, xlen).Ok?
    ensures var w := RvcEncoding(rvc, xlen).value;
      (w >> 12) & 1 == (if rvc.Cjalr? || rvc.Cadd? then 1 else 0)
      && RegHigh(w) == (rvc.cr.rdrs1 as bv16) & 0x1F
      && RegLow(w) == (if rvc.Cjr? || rvc.Cjalr? then 0 else (rvc.cr.rs2 as bv16) & 0x1F)
  {
  }

  /** `c.mv rd, x0` gets the word of `c.jr rd`, which is where the ISA puts `c.jr`. */
  lemma RvcMoveFromZeroIsJump(rd: bv8, f: bv8, rs2: bv8, f': bv8, xlen: Xlen)
    ensures RvcEncoding(Cmv(CRType(rd, 0, f)), xlen) == RvcEncoding(Cjr(CRType(rd, rs2, f')), xlen)
  {
  }

  /** `encode_rvc`: each instruction gets the outcome of its arm. */
  method EncodeRvc(rvc: RVC, xlen: Xlen) returns (r: Result<bv16, CError>)
    ensures r == RvcEncoding(rvc, xlen)
    ensures DoubleWordAccess(rvc) && xlen == X32 ==> r == Err(RvcNotImplemented)
    ensures rvc.Cjal? && xlen != X32 ==> r == Err(RvcNotImplemented)
    ensures r.Ok? ==> FitsMap(rvc, r.value)
  {
    if rvc.Clw? || rvc.Csw? || rvc.Clwsp? || rvc.Cswsp? {
      r := EncodeRvcWordAccess(rvc, xlen);
    } else if DoubleWordAccess(rvc) {
      r := EncodeRvcDoubleAccess(rvc, xlen);
    } else if rvc.Csub? || rvc.Cxor? || rvc.Cor? || rvc.Cand? || rvc.Csubw? || rvc.Caddw? {
      r := EncodeRvcArith(rvc, xlen);
    } else if rvc.Cjr? || rvc.Cmv? || rvc.Cjalr? || rvc.Cadd? {
      r := EncodeRvcRegister(rvc, xlen);
    } else if rvc.Cj? || rvc.Cjal? || rvc.Cbeqz? || rvc.Cbnez? {
      r := EncodeRvcControl(rvc, xlen);
    } else {
      r := EncodeRvcImmediate(rvc, xlen);
    }
  }

  /** The `encode_rvc` arms of the word loads and stores, which do not look at the register width. */
  method EncodeRvcWordAccess(rvc: RVC, xlen: Xlen) returns (r: Result<bv16, CError>)
    requires rvc.Clw? || rvc.Csw? || rvc.Clwsp? || rvc.Cswsp?
    ensures r == RvcEncoding(rvc, xlen)
    ensures r.Ok? ==> FitsMap(rvc, r.value)
  {
    match rvc {
      case Clw(cl) => r := EncodeClw(cl.rd, cl.rs1, cl.imm.LowU32());
      case Csw(cs) => r := EncodeCsw(cs.rs2, cs.rs1, cs.imm.LowU32());
      case Clwsp(ci) => r := EncodeClwsp(ci.rdrs1, ci.imm.LowU32());
      case Cswsp(css) => r := EncodeCswsp(css.rs2, css.imm.LowU32());
    }
    RvcEncodingFitsMap(rvc, xlen);
  }

  /** The `encode_rvc` arms of the double-word loads and stores, guarded by the register width. */
  method EncodeRvcDoubleAccess(rvc: RVC, xlen: Xlen) returns (r: Result<bv16, CError>)
    requires DoubleWordAccess(rvc)
    ensures r == RvcEncoding(rvc, xlen)
    ensures xlen == X32 ==> r == Err(RvcNotImplemented)
    ensures r.Ok? ==> FitsMap(rvc, r.value)
  {
    if !(xlen.X64? || xlen.X128?) {
      return Err(RvcNotImplemented);
    }
    match rvc {
      case Cld(cl) => r := EncodeCld(cl.rd, cl.rs1, cl.imm.LowU32());
      case Csd(cs) => r := EncodeCsd(cs.rs2, cs.rs1, cs.imm.LowU32());
      case Cldsp(ci) => r := EncodeCldsp(ci.rdrs1, ci.imm.LowU32());
      case Csdsp(css) => r := EncodeCsdsp(css.rs2, css.imm.LowU32());
    }
    RvcEncodingFitsMap(rvc, xlen);
  }

  /** The `encode_rvc` arms of the CA register-register arithmetic. */
  method EncodeRvcArith(rvc: RVC, xlen: Xlen) returns (r: Result<bv16, CError>)
    requires rvc.Csub? || rvc.Cxor? || rvc.Cor? || rvc.Cand? || rvc.Csubw? || rvc.Caddw?
    ensures r == RvcEncoding(rvc, xlen)
    ensures r.Ok? ==> FitsMap(rvc, r.value)
  {
    match rvc {
      case Csub(ca) => r := EncodeCaLogic(ca.rdrs1, ca.rs2, 0x0, false, xlen);
      case Cxor(ca) => r := EncodeCaLogic(ca.rdrs1, ca.rs2, 0x1, false, xlen);
      case Cor(ca) => r := EncodeCaLogic(ca.rdrs1, ca.rs2, 0x2, false, xlen);
      case Cand(ca) => r := EncodeCaLogic(ca.rdrs1, ca.rs2, 0x3, false, xlen);
      case Csubw(ca) => r := EncodeCaLogic(ca.rdrs1, ca.rs2, 0x0, true, xlen);
      case Caddw(ca) => r := EncodeCaLogic(ca.rdrs1, ca.rs2, 0x1, true, xlen);
    }
    RvcEncodingFitsMap(rvc, xlen);
  }

  /** The `encode_rvc` arms of the CR forms, which do not look at the register width. */
  method EncodeRvcRegister(rvc: RVC, xlen: Xlen) returns (r: Result<bv16, CError>)
    requires rvc.Cjr? || rvc.Cmv? || rvc.Cjalr? || rvc.Cadd?
    ensures r == RvcEncoding(rvc, xlen)
    ensures r.Ok? ==> FitsMap(rvc, r.value)
  {
    match rvc {
      case Cjr(cr) => r := EncodeCr(cr.rdrs1, 0, false);
      case Cmv(cr) => r := EncodeCr(cr.rdrs1, cr.rs2, false);
      case Cjalr(cr) => r := EncodeCr(cr.rdrs1, 0, true);
      case Cadd(cr) => r := EncodeCr(cr.rdrs1, cr.rs2, true);
    }
    RvcEncodingFitsMap(rvc, xlen);
  }

  /** The `encode_rvc` arms of the jumps and branches. */
  method EncodeRvcControl(rvc: RVC, xlen: Xlen) returns (r: Result<bv16, CError>)
    requires rvc.Cj? || rvc.Cjal? || rvc.Cbeqz? || rvc.Cbnez?
    ensures r == RvcEncoding(rvc, xlen)
    ensures rvc.Cjal? && xlen != X32 ==> r == Err(RvcNotImplemented)
    ensures r.Ok? ==> FitsMap(rvc, r.value)
  {
    match rvc {
      case Cj(cj) => r := EncodeCj(cj.target.LowU32(), 0x5);
      case Cjal(cj) =>
        if xlen.X32? {
          r := EncodeCj(cj.target.LowU32(), 0x1);
        } else {
          r := Err(RvcNotImplemented);
        }
      case Cbeqz(cb) => r := EncodeCb(cb.rs1, cb.off.LowU32(), 0x6);
      case Cbnez(cb) => r := EncodeCb(cb.rs1, cb.off.LowU32(), 0x7);
    }
    RvcEncodingFitsMap(rvc, xlen);
  }

  /** The `encode_rvc` arms of the CI and CIW immediate forms. */
  method EncodeRvcImmediate(rvc: RVC, xlen: Xlen) returns (r: Result<bv16, CError>)
    requires rvc.Caddi4spn? || rvc.Cnop? || rvc.Caddi? || rvc.Cli? || rvc.Caddi16sp? || rvc.Caddiw?
      || rvc.Cslli? || rvc.Csrli? || rvc.Csrai? || rvc.Candi?
    ensures r == RvcEncoding(rvc, xlen)
    ensures r.Ok? ==> FitsMap(rvc, r.value)
  {
    match rvc {
      case Caddi4spn(ciw) => r := EncodeAddi4spn(ciw.rd, ciw.uimm.Low32());
      case Cnop(ci) => r := EncodeAddiLike(ci.rdrs1, ci.imm.LowU32(), 0x0);
      case Caddi(ci) => r := EncodeAddiLike(ci.rdrs1, ci.imm.LowU32(), 0x0);
      case Cli(ci) => r := EncodeAddiLike(ci.rdrs1, ci.imm.LowU32(), 0x2);
      case Caddi16sp(ci) => r := EncodeAddi16sp(ci.imm.LowU32());
      case Caddiw(ci) => r := EncodeAddiw(ci.rdrs1, ci.imm.LowU32());
      case Cslli(ci) => r := EncodeSlli(ci.rdrs1, ci.imm.LowU32());
      case Csrli(ci) => r := EncodeShiftLike(ci.rdrs1, ci.imm.LowU32(), SrliKind, xlen);
      case Csrai(ci) => r := EncodeShiftLike(ci.rdrs1, ci.imm.LowU32(), SraiKind, xlen);
      case Candi(ci) => r := EncodeShiftLike(ci.rdrs1, ci.imm.LowU32(), AndiKind, xlen);
    }
    RvcEncodingFitsMap(rvc, xlen);
  }

  /** `encode_u16`: only a compressed instruction has a 16-bit encoding, and it is `encode_rvc`'s. */
  method EncodeU16(inst: Instruction, xlen: Xlen) returns (r: Result<bv16, CError>)
    ensures !inst.RVC? ==> r == Err(NotCompressed)
    ensures inst.RVC? ==> r == RvcEncoding(inst.c, xlen)
    ensures inst.RVC? && DoubleWordAccess(inst.c) && xlen == X32 ==> r == Err(RvcNotImplemented)
    ensures inst.RVC? && inst.c.Cjal? && xlen != X32 ==> r == Err(RvcNotImplemented)
    ensures r.Ok? ==> inst.RVC? && FitsMap(inst.c, r.value)
  {
    if inst.RVC? {
      r := EncodeRvc(inst.c, xlen);
    } else {
      r := Err(NotCompressed);
    }
  }
}

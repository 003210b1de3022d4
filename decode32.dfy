/**
 * `resolve_u32`: the 32-bit decoder. The fields are fixed bit slices of
 * the word (RISC-V Unprivileged ISA 20191213, section 2.2); the immediates
 * are reassembled from their scattered pieces without sign extension
 * (section 2.3); dispatch is on the opcode, then funct3, funct7, funct5 or
 * the rs3/rs2 positions, with some arms gated by the register width.
 * `Err(())` is `None`.
 */
module Decode32 {
  import opened Wrappers
  import opened RiscvImm
  import opened Isa
  import opened Asm
  import opened Rva
  import opened Instr

  // The field slices of a 32-bit word.
  function Opcode(ins: bv32): bv32 { ins & 0x7F }
  function Rd(ins: bv32): bv8 { ((ins >> 7) & 0x1F) as bv8 }
  function Rs1(ins: bv32): bv8 { ((ins >> 15) & 0x1F) as bv8 }
  function Rs2(ins: bv32): bv8 { ((ins >> 20) & 0x1F) as bv8 }
  function Funct3(ins: bv32): bv8 { ((ins >> 12) & 0x7) as bv8 }
  function Funct5(ins: bv32): bv8 { ((ins >> 27) & 0x1F) as bv8 }
  function Funct7(ins: bv32): bv8 { ((ins >> 25) & 0x7F) as bv8 }
  function Funct12(ins: bv32): bv32 { (ins >> 20) & 0xFFF }
  function Rs3(ins: bv32): bv8 { ((ins >> 27) & 0x1F) as bv8 }
  function Funct2(ins: bv32): bv8 { ((ins >> 25) & 0x3) as bv8 }

  // The raw immediates.
  function ImmI(ins: bv32): bv32 { (ins >> 20) & 0xFFF }
  function ImmS(ins: bv32): bv32 { ((ins >> 7) & 0x1F) | (((ins >> 25) & 0x7F) << 5) }
  function ImmB(ins: bv32): bv32 {
    (((ins >> 7) & 1) << 11) | (((ins >> 8) & 0xF) << 1) | (((ins >> 25) & 0x3F) << 5) | (((ins >> 31) & 1) << 12)
  }
  function ImmU(ins: bv32): bv32 { ins & 0xFFFFF000 }
  function ImmJ(ins: bv32): bv32 {
    (((ins & 0x8000_0000) >> 31) << 20) | (((ins & 0x7FE0_0000) >> 21) << 1)
    | (((ins & 0x0010_0000) >> 20) << 11) | (((ins & 0x000F_F000) >> 12) << 12)
  }
  function Csr(ins: bv32): bv16 { ((ins >> 20) & 0xFFF) as bv16 }

  // The operand records the arms wrap.
  function UOf(ins: bv32): UType { UType(Rd(ins), Imm(ImmU(ins), 32)) }
  function JOf(ins: bv32): JType { JType(Rd(ins), Imm(ImmJ(ins), 12)) }
  function IOf(ins: bv32): IType { IType(Rd(ins), Rs1(ins), Funct3(ins), Imm(ImmI(ins), 12)) }
  function SOf(ins: bv32): SType { SType(Rs1(ins), Rs2(ins), Funct3(ins), Imm(ImmS(ins), 12)) }
  function BOf(ins: bv32): BType { BType(Rs1(ins), Rs2(ins), Funct3(ins), Imm(ImmB(ins), 12)) }
  function ROf(ins: bv32): RType { RType(Rd(ins), Rs1(ins), Rs2(ins), Funct3(ins), Funct7(ins)) }
  function CsrROf(ins: bv32): CsrRType { CsrRType(Rd(ins), Rs1(ins), Funct3(ins), Csr(ins)) }
  function CsrIOf(ins: bv32): CsrIType { CsrIType(Rd(ins), Uimm((ins >> 15) & 0x1F, 5), Funct3(ins), Csr(ins)) }
  function R4Of(ins: bv32): R4Type { R4Type(Rd(ins), Rs1(ins), Rs2(ins), Rs3(ins), Funct3(ins), Funct2(ins)) }

  function DecodeBranch(ins: bv32): Option<Instruction> {
    var f3 := Funct3(ins);
    var b := BOf(ins);
    if f3 == FUNCT3_BRANCH_BEQ then Some(RV32I(Beq(b)))
    else if f3 == FUNCT3_BRANCH_BNE then Some(RV32I(Bne(b)))
    else if f3 == FUNCT3_BRANCH_BLT then Some(RV32I(Blt(b)))
    else if f3 == FUNCT3_BRANCH_BGE then Some(RV32I(Bge(b)))
    else if f3 == FUNCT3_BRANCH_BLTU then Some(RV32I(Bltu(b)))
    else if f3 == FUNCT3_BRANCH_BGEU then Some(RV32I(Bgeu(b)))
    else None
  }

  function DecodeLoad(ins: bv32, xlen: Xlen): Option<Instruction> {
    var f3 := Funct3(ins);
    var i := IOf(ins);
    if f3 == FUNCT3_LOAD_LB then Some(RV32I(Lb(i)))
    else if f3 == FUNCT3_LOAD_LH then Some(RV32I(Lh(i)))
    else if f3 == FUNCT3_LOAD_LW then Some(RV32I(Lw(i)))
    else if f3 == FUNCT3_LOAD_LD && xlen != X32 then Some(RV64I(Ld(i)))
    else if f3 == FUNCT3_LOAD_LBU then Some(RV32I(Lbu(i)))
    else if f3 == FUNCT3_LOAD_LHU then Some(RV32I(Lhu(i)))
    else if f3 == FUNCT3_LOAD_LWU && xlen != X32 then Some(RV64I(Lwu(i)))
    else None
  }

  function DecodeStore(ins: bv32, xlen: Xlen): Option<Instruction> {
    var f3 := Funct3(ins);
    var s := SOf(ins);
    if f3 == FUNCT3_STORE_SB then Some(RV32I(Sb(s)))
    else if f3 == FUNCT3_STORE_SH then Some(RV32I(Sh(s)))
    else if f3 == FUNCT3_STORE_SW then Some(RV32I(Sw(s)))
    else if f3 == FUNCT3_STORE_SD && xlen != X32 then Some(RV64I(Sd(s)))
    else None
  }

  function DecodeMiscMem(ins: bv32): Option<Instruction> {
    var f3 := Funct3(ins);
    if f3 == FUNCT3_MISC_MEM_FENCE then Some(RV32I(Fence))
    else if f3 == FUNCT3_MISC_MEM_FENCE_I then Some(RV32I(FenceI))
    else None
  }

  function DecodeSystem(ins: bv32): Option<Instruction> {
    var f3 := Funct3(ins);
    if f3 == FUNCT3_SYSTEM_PRIV then
      (if Funct12(ins) == FUNCT12_SYSTEM_ECALL && Rs1(ins) == 0 && Rd(ins) == 0 then Some(RV32I(Ecall))
       else if Funct12(ins) == FUNCT12_SYSTEM_EBREAK && Rs1(ins) == 0 && Rd(ins) == 0 then Some(RV32I(Ebreak))
       else None)
    else if f3 == FUNCT3_SYSTEM_CSRRW then Some(RVZicsr(Csrrw(CsrROf(ins))))
    else if f3 == FUNCT3_SYSTEM_CSRRS then Some(RVZicsr(Csrrs(CsrROf(ins))))
    else if f3 == FUNCT3_SYSTEM_CSRRC then Some(RVZicsr(Csrrc(CsrROf(ins))))
    else if f3 == FUNCT3_SYSTEM_CSRRWI then Some(RVZicsr(Csrrwi(CsrIOf(ins))))
    else if f3 == FUNCT3_SYSTEM_CSRRSI then Some(RVZicsr(Csrrsi(CsrIOf(ins))))
    else if f3 == FUNCT3_SYSTEM_CSRRCI then Some(RVZicsr(Csrrci(CsrIOf(ins))))
    else None
  }

  function DecodeOpImm(ins: bv32, xlen: Xlen): Option<Instruction> {
    var f3 := Funct3(ins);
    var f7 := Funct7(ins);
    var i := IOf(ins);
    if f3 == FUNCT3_OP_ADD_SUB then Some(RV32I(Addi(i)))
    else if f3 == FUNCT3_OP_SLT then Some(RV32I(Slti(i)))
    else if f3 == FUNCT3_OP_SLTU then Some(RV32I(Sltiu(i)))
    else if f3 == FUNCT3_OP_XOR then Some(RV32I(Xori(i)))
    else if f3 == FUNCT3_OP_OR then Some(RV32I(Ori(i)))
    else if f3 == FUNCT3_OP_AND then Some(RV32I(Andi(i)))
    else if f3 == FUNCT3_OP_SLL && f7 == 0 && xlen == X32 then Some(RV32I(RV32I.Slli(i)))
    else if f3 == FUNCT3_OP_SLL && f7 & 0x7E == 0 && xlen == X64 then Some(RV64I(RV64I.Slli(i)))
    else if f3 == FUNCT3_OP_SRL_SRA then
      (if f7 == FUNCT7_OP_SRL && xlen == X32 then Some(RV32I(RV32I.Srli(i)))
       else if f7 == FUNCT7_OP_SRA && xlen == X32 then Some(RV32I(RV32I.Srai(i)))
       else if f7 & 0x7E == FUNCT7_OP_SRL && xlen == X64 then Some(RV64I(RV64I.Srli(i)))
       else if f7 & 0x7E == FUNCT7_OP_SRA && xlen == X64 then Some(RV64I(RV64I.Srai(i)))
       else None)
    else None
  }

  function DecodeOp(ins: bv32, xlen: Xlen): Option<Instruction> {
    var f3 := Funct3(ins);
    var f7 := Funct7(ins);
    var r := ROf(ins);
    if f3 == FUNCT3_OP_ADD_SUB then
      (if f7 == FUNCT7_OP_ADD then Some(RV32I(Add(r)))
       else if f7 == FUNCT7_OP_SUB then Some(RV32I(Sub(r)))
       else if f7 == 1 then Some(RV32I(Mul(r)))
       else None)
    else if f3 == FUNCT3_OP_SLL then
      (if f7 == 0 then Some(RV32I(RV32I.Sll(r))) else if f7 == 1 then Some(RV32I(Mulh(r))) else None)
    else if f3 == FUNCT3_OP_SLT && f7 == 0 then Some(RV32I(Slt(r)))
    else if f3 == FUNCT3_OP_SLTU && f7 == 0 then Some(RV32I(Sltu(r)))
    else if f3 == FUNCT3_OP_XOR then
      (if f7 == 0 then Some(RV32I(Xor(r))) else if f7 == 1 then Some(RV32I(Mulhsu(r))) else None)
    else if f3 == FUNCT3_OP_SRL_SRA then
      (if f7 == 0 then Some(RV32I(RV32I.Srl(r)))
       else if f7 == 0x20 then Some(RV32I(RV32I.Sra(r)))
       else if f7 == 1 then Some(RV32I(Div(r)))
       else None)
    else if f3 == FUNCT3_OP_OR then
      (if f7 == 0 then Some(RV32I(Or(r))) else if f7 == 1 then Some(RV32I(Divu(r))) else None)
    else if f3 == FUNCT3_OP_AND then
      (if f7 == 0 then Some(RV32I(And(r)))
       else if f7 == 1 && xlen == X32 then Some(RV32I(Rem(r)))
       else if f7 == 1 && xlen == X64 then Some(RV32I(Remu(r)))
       else None)
    else None
  }

  function DecodeOpImm32(ins: bv32): Option<Instruction> {
    var f3 := Funct3(ins);
    var f7 := Funct7(ins);
    var i := IOf(ins);
    if f3 == FUNCT3_OP_ADD_SUB then Some(RV64I(Addiw(i)))
    else if f3 == FUNCT3_OP_SLL && f7 == 0 then Some(RV64I(Slliw(i)))
    else if f3 == FUNCT3_OP_SRL_SRA then
      (if f7 == FUNCT7_OP_SRL then Some(RV64I(Srliw(i)))
       else if f7 == FUNCT7_OP_SRA then Some(RV64I(Sraiw(i)))
       else None)
    else None
  }

  function DecodeOp32(ins: bv32): Option<Instruction> {
    var f3 := Funct3(ins);
    var f7 := Funct7(ins);
    var r := ROf(ins);
    if f3 == FUNCT3_OP_ADD_SUB then
      (if f7 == FUNCT7_OP_ADD then Some(RV64I(Addw(r)))
       else if f7 == FUNCT7_OP_SUB then Some(RV64I(Subw(r)))
       else None)
    else if f3 == FUNCT3_OP_SLL && f7 == 0 then Some(RV64I(Sllw(r)))
    else if f3 == FUNCT3_OP_SRL_SRA then
      (if f7 == FUNCT7_OP_SRL then Some(RV64I(Srlw(r)))
       else if f7 == FUNCT7_OP_SRA then Some(RV64I(Sraw(r)))
       else None)
    else None
  }

  /** The OP-FP arms: selected by the rs3 position, then funct3 or rs2; every arm wants funct2 = 0 (single). */
  function DecodeFp(ins: bv32, xlen: Xlen): Option<Instruction> {
    var f3 := Funct3(ins);
    var rs2 := Rs2(ins);
    var sel := Rs3(ins);
    var r := ROf(ins);
    var single := Funct2(ins) == FUNCT2_FMT_S;
    var f :=
      if sel == FUNCT_RS3_FP_ADD then Some(Fadds(r))
      else if sel == FUNCT_RS3_FP_SUB then Some(Fsubs(r))
      else if sel == FUNCT_RS3_FP_MUL then Some(Fmuls(r))
      else if sel == FUNCT_RS3_FP_DIV then Some(Fdivs(r))
      else if sel == FUNCT_RS3_FP_SQRT && rs2 == 0 then Some(Fsqrts(r))
      else if sel == FUNCT_RS3_FP_MIN_MAX then
        (if f3 == FUNCT3_FP_MIN then Some(Fmins(r)) else if f3 == FUNCT3_FP_MAX then Some(Fmaxs(r)) else None)
      else if sel == FUNCT_RS3_FP_SGNJ then
        (if f3 == FUNCT3_FP_SGNJ then Some(Fsgnjs(r))
         else if f3 == FUNCT3_FP_SGNJN then Some(Fsgnjns(r))
         else if f3 == FUNCT3_FP_SGNJX then Some(Fsgnjxs(r))
         else None)
      else if sel == FUNCT_RS3_FP_CMP then
        (if f3 == FUNCT3_FP_EQ then Some(Feqs(r))
         else if f3 == FUNCT3_FP_LT then Some(Flts(r))
         else if f3 == FUNCT3_FP_LE then Some(Fles(r))
         else None)
      else if sel == FUNCT_RS3_FP_FCVTX then
        (if rs2 == FUNCT_RS2_CVT_W then Some(Fcvtws(r))
         else if rs2 == FUNCT_RS2_CVT_WU then Some(Fcvtwus(r))
         else if rs2 == FUNCT_RS2_CVT_L && xlen != X32 then Some(Fcvtls(r))
         else if rs2 == FUNCT_RS2_CVT_LU && xlen != X32 then Some(Fcvtlus(r))
         else None)
      else if sel == FUNCT_RS3_FP_XCVTF then
        (if rs2 == FUNCT_RS2_CVT_W then Some(Fcvtsw(r))
         else if rs2 == FUNCT_RS2_CVT_WU then Some(Fcvtswu(r))
         else if rs2 == FUNCT_RS2_CVT_L && xlen != X32 then Some(Fcvtsl(r))
         else if rs2 == FUNCT_RS2_CVT_LU && xlen != X32 then Some(Fcvtslu(r))
         else None)
      else if sel == FUNCT_RS3_FP_FMVX_CLASS && rs2 == 0 && f3 == 0 then Some(Fmvxw(r))
      else if sel == FUNCT_RS3_FP_FMVX_CLASS && rs2 == 0 && f3 == 1 then Some(Fclasss(r))
      else if sel == FUNCT_RS3_FP_XMVF && rs2 == 0 && f3 == 0 then Some(Fmvwx(r))
      else None;
    if f.Some? && single then Some(RVF(f.value)) else None
  }

  /** The operation an A-extension funct5 code names, if any. */
  function AmoOpOf(funct5: bv8): Option<AmoOp> {
    if funct5 == FUNCT5_A_LR then Some(Lr)
    else if funct5 == FUNCT5_A_SC then Some(Sc)
    else if funct5 == FUNCT5_A_AMOSWAP then Some(Swap)
    else if funct5 == FUNCT5_A_AMOADD then Some(AddOp)
    else if funct5 == FUNCT5_A_AMOXOR then Some(XorOp)
    else if funct5 == FUNCT5_A_AMOAND then Some(AndOp)
    else if funct5 == FUNCT5_A_AMOOR then Some(OrOp)
    else if funct5 == FUNCT5_A_AMOMIN then Some(MinOp)
    else if funct5 == FUNCT5_A_AMOMAX then Some(MaxOp)
    else if funct5 == FUNCT5_A_AMOMINU then Some(MinuOp)
    else if funct5 == FUNCT5_A_AMOMAXU then Some(MaxuOp)
    else None
  }

  function Word32A(op: AmoOp, r: RType): RV32A {
    match op
    case Lr => Lrw(r) case Sc => Scw(r) case Swap => Amoswapw(r) case AddOp => Amoaddw(r)
    case XorOp => Amoxorw(r) case AndOp => Amoandw(r) case OrOp => Amoorw(r) case MinOp => Amominw(r)
    case MaxOp => Amomaxw(r) case MinuOp => Amominuw(r) case MaxuOp => Amomaxuw(r)
  }

  function Double64A(op: AmoOp, r: RType): RV64A {
    match op
    case Lr => Lrd(r) case Sc => Scd(r) case Swap => Amoswapd(r) case AddOp => Amoaddd(r)
    case XorOp => Amoxord(r) case AndOp => Amoandd(r) case OrOp => Amoord(r) case MinOp => Amomind(r)
    case MaxOp => Amomaxd(r) case MinuOp => Amominud(r) case MaxuOp => Amomaxud(r)
  }

  function Quad128A(op: AmoOp, r: RType): RV128A {
    match op
    case Lr => Lrq(r) case Sc => Scq(r) case Swap => Amoswapq(r) case AddOp => Amoaddq(r)
    case XorOp => Amoxorq(r) case AndOp => Amoandq(r) case OrOp => Amoorq(r) case MinOp => Amominq(r)
    case MaxOp => Amomaxq(r) case MinuOp => Amominuq(r) case MaxuOp => Amomaxuq(r)
  }

  /** The A arms: funct3 010 is the word form, 011 the double-word form, 100 on RV128 the quad-word form. */
  function DecodeAtomic(ins: bv32, xlen: Xlen): Option<Instruction> {
    var f3 := Funct3(ins);
    var op := AmoOpOf(Funct5(ins));
    var r := ROf(ins);
    if op.None? then None
    else if f3 == FUNCT3_LOAD_LW then Some(RV32A(Word32A(op.value, r)))
    else if f3 == FUNCT3_LOAD_LD then Some(RV64A(Double64A(op.value, r)))
    else if f3 == FUNCT3_A_WIDTH_Q && xlen == X128 then Some(RV128A(Quad128A(op.value, r)))
    else None
  }

  /** `resolve_u32`. */
  function Resolve32(ins: bv32, xlen: Xlen): Option<Instruction> {
    var opcode := Opcode(ins);
    if opcode == OPCODE_LUI then Some(RV32I(Lui(UOf(ins))))
    else if opcode == OPCODE_AUIPC then Some(RV32I(Auipc(UOf(ins))))
    else if opcode == OPCODE_JAL then Some(RV32I(Jal(JOf(ins))))
    else if opcode == OPCODE_JALR then Some(RV32I(Jalr(IOf(ins))))
    else if opcode == OPCODE_BRANCH then DecodeBranch(ins)
    else if opcode == OPCODE_LOAD then DecodeLoad(ins, xlen)
    else if opcode == OPCODE_STORE then DecodeStore(ins, xlen)
    else if opcode == OPCODE_MISC_MEM then DecodeMiscMem(ins)
    else if opcode == OPCODE_SYSTEM then DecodeSystem(ins)
    else if opcode == OPCODE_OP_IMM then DecodeOpImm(ins, xlen)
    else if opcode == OPCODE_OP then DecodeOp(ins, xlen)
    else if opcode == OPCODE_OP_IMM32 && xlen == X64 then DecodeOpImm32(ins)
    else if opcode == OPCODE_OP_32 && xlen == X64 then DecodeOp32(ins)
    else if opcode == OPCODE_LOAD_FP then (if Funct3(ins) == FUNCT3_WIDTH_W then Some(RVF(Flw(IOf(ins)))) else None)
    else if opcode == OPCODE_STORE_FP then (if Funct3(ins) == FUNCT3_WIDTH_W then Some(RVF(Fsw(SOf(ins)))) else None)
    else if opcode == OPCODE_FMADD then (if Funct2(ins) == FUNCT2_FMT_S then Some(RVF(Fmadds(R4Of(ins)))) else None)
    else if opcode == OPCODE_FMSUB then (if Funct2(ins) == FUNCT2_FMT_S then Some(RVF(Fmsubs(R4Of(ins)))) else None)
    else if opcode == OPCODE_FNMSUB then (if Funct2(ins) == FUNCT2_FMT_S then Some(RVF(Fnmsubs(R4Of(ins)))) else None)
    else if opcode == OPCODE_FNMADD then (if Funct2(ins) == FUNCT2_FMT_S then Some(RVF(Fnmadds(R4Of(ins)))) else None)
    else if opcode == OPCODE_FP then DecodeFp(ins, xlen)
    else if opcode == OPCODE_A then DecodeAtomic(ins, xlen)
    else None
  }
}

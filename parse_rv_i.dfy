/**
 * The RV32I/RV64I mnemonics of the assembler: operand counts, operand
 * parsing in order, immediate ranges and the register-width gates.
 */
module ParseRvI {
  import opened Wrappers
  import opened RiscvImm
  import Asm
  import opened Instr
  import opened ParseCommon

  datatype UpperOp = Lui | Auipc
  datatype BranchOp = Beq | Bne | Blt | Bge | Bltu | Bgeu
  datatype LoadOp = Lb | Lh | Lw | Lbu | Lhu | Lwu | Ld
  datatype StoreOp = Sb | Sh | Sw | Sd
  datatype OpImmOp = Addi | Slti | Sltiu | Xori | Ori | Andi
  datatype ShiftOp = Slli | Srli | Srai
  datatype RegOp = Add | Sub | Sll | Slt | Sltu | Xor | Srl | Sra | Or | And
  datatype WideImmOp = Addiw | Slliw | Srliw | Sraiw
  datatype WideRegOp = Addw | Subw | Sllw | Srlw | Sraw

  /** The mnemonics `rv_i::try_parse` has an arm for, grouped by arm. */
  datatype Op =
    | UpperArm(u: UpperOp)
    | JalArm
    | JalrArm
    | BranchArm(b: BranchOp)
    | LoadArm(l: LoadOp)
    | StoreArm(s: StoreOp)
    | OpImmArm(i: OpImmOp)
    | ShiftArm(sh: ShiftOp)
    | RegArm(r: RegOp)
    | WideImmArm(wi: WideImmOp)
    | WideRegArm(wr: WideRegOp)
  {
    /** The mnemonics that exist on RV64/RV128 only. */
    predicate Rv64Only() {
      (LoadArm? && (l.Lwu? || l.Ld?)) || (StoreArm? && s.Sd?) || WideImmArm? || WideRegArm?
    }

    /** The mnemonic of the arm, as the assembler spells it. */
    function Name(): string {
      match this
      case UpperArm(u) => (match u case Lui => "lui" case Auipc => "auipc")
      case JalArm => "jal"
      case JalrArm => "jalr"
      case BranchArm(b) =>
        (match b case Beq => "beq" case Bne => "bne" case Blt => "blt" case Bge => "bge"
           case Bltu => "bltu" case Bgeu => "bgeu")
      case LoadArm(l) =>
        (match l case Lb => "lb" case Lh => "lh" case Lw => "lw" case Lbu => "lbu" case Lhu => "lhu"
           case Lwu => "lwu" case Ld => "ld")
      case StoreArm(s) => (match s case Sb => "sb" case Sh => "sh" case Sw => "sw" case Sd => "sd")
      case OpImmArm(i) =>
        (match i case Addi => "addi" case Slti => "slti" case Sltiu => "sltiu" case Xori => "xori"
           case Ori => "ori" case Andi => "andi")
      case ShiftArm(sh) => (match sh case Slli => "slli" case Srli => "srli" case Srai => "srai")
      case RegArm(r) =>
        (match r case Add => "add" case Sub => "sub" case Sll => "sll" case Slt => "slt" case Sltu => "sltu"
           case Xor => "xor" case Srl => "srl" case Sra => "sra" case Or => "or" case And => "and")
      case WideImmArm(wi) =>
        (match wi case Addiw => "addiw" case Slliw => "slliw" case Srliw => "srliw" case Sraiw => "sraiw")
      case WideRegArm(wr) =>
        (match wr case Addw => "addw" case Subw => "subw" case Sllw => "sllw" case Srlw => "srlw"
           case Sraw => "sraw")
    }
  }

  /** The arm of `rv_i::try_parse` that builds an instruction, for the instructions it builds. */
  function ArmOf(inst: Instruction): Option<Op> {
    match inst
    case RV32I(i) =>
      (match i
       case Lui(_) => Some(UpperArm(Lui)) case Auipc(_) => Some(UpperArm(Auipc))
       case Jal(_) => Some(JalArm) case Jalr(_) => Some(JalrArm)
       case Beq(_) => Some(BranchArm(Beq)) case Bne(_) => Some(BranchArm(Bne)) case Blt(_) => Some(BranchArm(Blt))
       case Bge(_) => Some(BranchArm(Bge)) case Bltu(_) => Some(BranchArm(Bltu)) case Bgeu(_) => Some(BranchArm(Bgeu))
       case Lb(_) => Some(LoadArm(Lb)) case Lh(_) => Some(LoadArm(Lh)) case Lw(_) => Some(LoadArm(Lw))
       case Lbu(_) => Some(LoadArm(Lbu)) case Lhu(_) => Some(LoadArm(Lhu))
       case Sb(_) => Some(StoreArm(Sb)) case Sh(_) => Some(StoreArm(Sh)) case Sw(_) => Some(StoreArm(Sw))
       case Addi(_) => Some(OpImmArm(Addi)) case Slti(_) => Some(OpImmArm(Slti)) case Sltiu(_) => Some(OpImmArm(Sltiu))
       case Xori(_) => Some(OpImmArm(Xori)) case Ori(_) => Some(OpImmArm(Ori)) case Andi(_) => Some(OpImmArm(Andi))
       case Slli(_) => Some(ShiftArm(Slli)) case Srli(_) => Some(ShiftArm(Srli)) case Srai(_) => Some(ShiftArm(Srai))
       case Add(_) => Some(RegArm(Add)) case Sub(_) => Some(RegArm(Sub)) case Sll(_) => Some(RegArm(Sll))
       case Slt(_) => Some(RegArm(Slt)) case Sltu(_) => Some(RegArm(Sltu)) case Xor(_) => Some(RegArm(Xor))
       case Srl(_) => Some(RegArm(Srl)) case Sra(_) => Some(RegArm(Sra)) case Or(_) => Some(RegArm(Or))
       case And(_) => Some(RegArm(And))
       case _ => None)
    case RV64I(i) =>
      (match i
       case Lwu(_) => Some(LoadArm(Lwu)) case Ld(_) => Some(LoadArm(Ld)) case Sd(_) => Some(StoreArm(Sd))
       case Slli(_) => Some(ShiftArm(Slli)) case Srli(_) => Some(ShiftArm(Srli)) case Srai(_) => Some(ShiftArm(Srai))
       case Addiw(_) => Some(WideImmArm(Addiw)) case Slliw(_) => Some(WideImmArm(Slliw))
       case Srliw(_) => Some(WideImmArm(Srliw)) case Sraiw(_) => Some(WideImmArm(Sraiw))
       case Addw(_) => Some(WideRegArm(Addw)) case Subw(_) => Some(WideRegArm(Subw)) case Sllw(_) => Some(WideRegArm(Sllw))
       case Srlw(_) => Some(WideRegArm(Srlw)) case Sraw(_) => Some(WideRegArm(Sraw))
       case _ => None)
    case _ => None
  }

  /** The branch mnemonics, the arm `"beq" | "bne" | ..` of `rv_i::try_parse`. */
  function BranchOf(m: string): (r: Option<BranchOp>)
    ensures r.Some? ==> BranchArm(r.value).Name() == m
  {
    if m == "beq" then Some(Beq) else if m == "bne" then Some(Bne) else if m == "blt" then Some(Blt)
    else if m == "bge" then Some(Bge) else if m == "bltu" then Some(Bltu) else if m == "bgeu" then Some(Bgeu)
    else None
  }

  /** The load mnemonics. */
  function LoadOf(m: string): (r: Option<LoadOp>)
    ensures r.Some? ==> LoadArm(r.value).Name() == m
  {
    if m == "lb" then Some(Lb) else if m == "lh" then Some(Lh) else if m == "lw" then Some(Lw)
    else if m == "lbu" then Some(Lbu) else if m == "lhu" then Some(Lhu) else if m == "lwu" then Some(Lwu)
    else if m == "ld" then Some(Ld)
    else None
  }

  /** The store mnemonics. */
  function StoreOf(m: string): (r: Option<StoreOp>)
    ensures r.Some? ==> StoreArm(r.value).Name() == m
  {
    if m == "sb" then Some(Sb) else if m == "sh" then Some(Sh) else if m == "sw" then Some(Sw)
    else if m == "sd" then Some(Sd)
    else None
  }

  /** The OP-IMM mnemonics. */
  function OpImmOf(m: string): (r: Option<OpImmOp>)
    ensures r.Some? ==> OpImmArm(r.value).Name() == m
  {
    if m == "addi" then Some(Addi) else if m == "slti" then Some(Slti) else if m == "sltiu" then Some(Sltiu)
    else if m == "xori" then Some(Xori) else if m == "ori" then Some(Ori) else if m == "andi" then Some(Andi)
    else None
  }

  /** The shift-immediate mnemonics. */
  function ShiftOf(m: string): (r: Option<ShiftOp>)
    ensures r.Some? ==> ShiftArm(r.value).Name() == m
  {
    if m == "slli" then Some(Slli) else if m == "srli" then Some(Srli) else if m == "srai" then Some(Srai)
    else None
  }

  /** The OP (register-register) mnemonics. */
  function RegOf(m: string): (r: Option<RegOp>)
    ensures r.Some? ==> RegArm(r.value).Name() == m
  {
    if m == "add" then Some(Add) else if m == "sub" then Some(Sub) else if m == "sll" then Some(Sll)
    else if m == "slt" then Some(Slt) else if m == "sltu" then Some(Sltu) else if m == "xor" then Some(Xor)
    else if m == "srl" then Some(Srl) else if m == "sra" then Some(Sra) else if m == "or" then Some(Or)
    else if m == "and" then Some(And)
    else None
  }

  /** The `*iw` mnemonics. */
  function WideImmOf(m: string): (r: Option<WideImmOp>)
    ensures r.Some? ==> WideImmArm(r.value).Name() == m
  {
    if m == "addiw" then Some(Addiw) else if m == "slliw" then Some(Slliw)
    else if m == "srliw" then Some(Srliw) else if m == "sraiw" then Some(Sraiw)
    else None
  }

  /** The `*w` register mnemonics. */
  function WideRegOf(m: string): (r: Option<WideRegOp>)
    ensures r.Some? ==> WideRegArm(r.value).Name() == m
  {
    if m == "addw" then Some(Addw) else if m == "subw" then Some(Subw) else if m == "sllw" then Some(Sllw)
    else if m == "srlw" then Some(Srlw) else if m == "sraw" then Some(Sraw)
    else None
  }

  /** The arm a (lower-cased) mnemonic selects, if any, tried in the order of the source's arms. */
  function OpOf(m: string): (r: Option<Op>)
    ensures r.Some? ==> r.value.Name() == m
  {
    if m == "lui" then Some(UpperArm(Lui)) else if m == "auipc" then Some(UpperArm(Auipc))
    else if m == "jal" then Some(JalArm) else if m == "jalr" then Some(JalrArm)
    else if BranchOf(m).Some? then Some(BranchArm(BranchOf(m).value))
    else if LoadOf(m).Some? then Some(LoadArm(LoadOf(m).value))
    else if StoreOf(m).Some? then Some(StoreArm(StoreOf(m).value))
    else if OpImmOf(m).Some? then Some(OpImmArm(OpImmOf(m).value))
    else if ShiftOf(m).Some? then Some(ShiftArm(ShiftOf(m).value))
    else if RegOf(m).Some? then Some(RegArm(RegOf(m).value))
    else if WideImmOf(m).Some? then Some(WideImmArm(WideImmOf(m).value))
    else if WideRegOf(m).Some? then Some(WideRegArm(WideRegOf(m).value))
    else None
  }

  /**
   * `OpOf` and `Op.Name` are inverse: every arm is selected by its own
   * mnemonic, and a mnemonic selects only the arm of that name.
   */
  lemma OpOfName(op: Op, m: string)
    ensures OpOf(op.Name()) == Some(op)
    ensures OpOf(m) == Some(op) <==> op.Name() == m
  {
    match op
    case UpperArm(u) =>
    case JalArm =>
    case JalrArm =>
    case BranchArm(b) => NameSelectsBranch(b);
    case LoadArm(l) => NameSelectsLoad(l);
    case StoreArm(x) => NameSelectsStore(x);
    case OpImmArm(i) => NameSelectsOpImm(i);
    case ShiftArm(sh) => NameSelectsShift(sh);
    case RegArm(x) => NameSelectsReg(x);
    case WideImmArm(wi) => NameSelectsWideImm(wi);
    case WideRegArm(wr) => NameSelectsWideReg(wr);
  }

  lemma NameSelectsBranch(b: BranchOp)
    ensures OpOf(BranchArm(b).Name()) == Some(BranchArm(b))
  {
  }

  lemma NameSelectsLoad(l: LoadOp)
    ensures OpOf(LoadArm(l).Name()) == Some(LoadArm(l))
  {
  }

  lemma NameSelectsStore(x: StoreOp)
    ensures OpOf(StoreArm(x).Name()) == Some(StoreArm(x))
  {
  }

  lemma NameSelectsOpImm(i: OpImmOp)
    ensures OpOf(OpImmArm(i).Name()) == Some(OpImmArm(i))
  {
  }

  lemma NameSelectsShift(sh: ShiftOp)
    ensures OpOf(ShiftArm(sh).Name()) == Some(ShiftArm(sh))
  {
  }

  lemma NameSelectsReg(x: RegOp)
    ensures OpOf(RegArm(x).Name()) == Some(RegArm(x))
  {
    RegNameMissesControl(x);
    RegNameMissesArith(x);
    assert RegOf(RegArm(x).Name()) == Some(x);
  }

  lemma RegNameMissesControl(x: RegOp)
    ensures var n := RegArm(x).Name();
      n != "lui" && n != "auipc" && n != "jal" && n != "jalr" && BranchOf(n).None? && LoadOf(n).None? && StoreOf(n).None?
  {
  }

  lemma RegNameMissesArith(x: RegOp)
    ensures var n := RegArm(x).Name(); OpImmOf(n).None? && ShiftOf(n).None?
  {
  }

  lemma NameSelectsWideImm(wi: WideImmOp)
    ensures OpOf(WideImmArm(wi).Name()) == Some(WideImmArm(wi))
  {
  }

  lemma NameSelectsWideReg(wr: WideRegOp)
    ensures OpOf(WideRegArm(wr).Name()) == Some(WideRegArm(wr))
  {
    WideRegNameMissesControl(wr);
    WideRegNameMissesArith(wr);
    assert WideRegOf(WideRegArm(wr).Name()) == Some(wr);
  }

  lemma WideRegNameMissesControl(wr: WideRegOp)
    ensures var n := WideRegArm(wr).Name();
      n != "lui" && n != "auipc" && n != "jal" && n != "jalr" && BranchOf(n).None? && LoadOf(n).None? && StoreOf(n).None?
  {
  }

  lemma WideRegNameMissesArith(wr: WideRegOp)
    ensures var n := WideRegArm(wr).Name(); OpImmOf(n).None? && ShiftOf(n).None? && RegOf(n).None? && WideImmOf(n).None?
  {
  }

  /** `((imm as i64) as u32) << 12`: the immediate wrapped to 32 bits and shifted into the upper 20. */
  function UpperBits(imm: int): (b: bv32)
    ensures b & 0xFFF == 0
  {
    ((imm % 0x1_0000_0000) as bv32) << 12
  }

  /** `lui`/`auipc rd, imm20`: no range check on the immediate. */
  function ParseUpper(u: UpperOp, ops: seq<string>): (r: Result<Instruction, ParseError>)
    requires OperandsSafe(ops)
    ensures |ops| != 2 ==> r == Err(Usage(if u.Lui? then "lui rd, imm20" else "auipc rd, imm20"))
    ensures r.Ok? <==> (|ops| == 2 && ParseRegister(ops[0]).Ok? && ParseInt(ops[1]).Ok?)
    ensures (|ops| == 2 && ParseRegister(ops[0]).Err?) ==> r == Err(UnknownRegister(ops[0]))
    ensures r.Ok? ==> (r.value.RV32I? && (r.value.i32.Lui? <==> u.Lui?) && (r.value.i32.Auipc? <==> u.Auipc?))
    ensures r.Ok? ==> ArmOf(r.value) == Some(UpperArm(u))
    ensures r.Ok? ==> r.value.i32.u == Asm.UType(ParseRegister(ops[0]).value, Imm(UpperBits(ParseInt(ops[1]).value), 32))
  {
    if |ops| != 2 then Err(Usage(if u.Lui? then "lui rd, imm20" else "auipc rd, imm20"))
    else
      match ParseRegister(ops[0])
      case Err(e) => Err(e)
      case Ok(rd) =>
        match ParseInt(ops[1])
        case Err(e) => Err(e)
        case Ok(imm) =>
          var x := Asm.UType(rd, Imm(UpperBits(imm), 32));
          Ok(Instruction.RV32I(if u.Lui? then Asm.Lui(x) else Asm.Auipc(x)))
  }

  /** `jal rd, imm`: a signed 21-bit offset, stored with the declared width 12. */
  function ParseJal(ops: seq<string>): (r: Result<Instruction, ParseError>)
    requires OperandsSafe(ops)
    ensures |ops| != 2 ==> r == Err(Usage("jal rd, imm"))
    ensures r.Ok? <==> (|ops| == 2 && ParseRegister(ops[0]).Ok? && ParseInt(ops[1]).Ok?
      && ImmSignedBits(ParseInt(ops[1]).value, 21).Ok?)
    ensures r.Ok? ==> r.value == Instruction.RV32I(Asm.Jal(Asm.JType(ParseRegister(ops[0]).value,
      Imm(TwosComplement(ParseInt(ops[1]).value, 21), 12))))
    ensures r.Ok? ==> ArmOf(r.value) == Some(JalArm)
  {
    JalArmOf();
    if |ops| != 2 then Err(Usage("jal rd, imm"))
    else
      match ParseRegister(ops[0])
      case Err(e) => Err(e)
      case Ok(rd) =>
        match ParseInt(ops[1])
        case Err(e) => Err(e)
        case Ok(imm) =>
          match ImmSignedBits(imm, 21)
          case Err(e) => Err(e)
          case Ok(_) => Ok(Instruction.RV32I(Asm.Jal(Asm.JType(rd, Imm(TwosComplement(imm, 21), 12)))))
  }

  /** `jalr rd, imm(rs1)`. */
  function ParseJalrMem(ops: seq<string>): (r: Result<Instruction, ParseError>)
    requires |ops| == 2 && OperandsSafe(ops)
    ensures r.Ok? <==> (ParseRegister(ops[0]).Ok? && ParseMemOperand(ops[1]).Ok?)
    ensures r.Ok? ==> r.value == Instruction.RV32I(Asm.Jalr(Asm.IType(ParseRegister(ops[0]).value,
      ParseMemOperand(ops[1]).value.1, 0, Imm(ParseMemOperand(ops[1]).value.0 as bv32, 12))))
  {
    match ParseRegister(ops[0])
    case Err(e) => Err(e)
    case Ok(rd) =>
      match ParseMemOperand(ops[1])
      case Err(e) => Err(e)
      case Ok((bits, rs1)) => Ok(Instruction.RV32I(Asm.Jalr(Asm.IType(rd, rs1, 0, Imm(bits as bv32, 12)))))
  }

  lemma JalArmOf()
    ensures forall j :: ArmOf(Instruction.RV32I(Asm.Jal(j))) == Some(JalArm)
  {
  }

  lemma JalrArmOf()
    ensures forall i :: ArmOf(Instruction.RV32I(Asm.Jalr(i))) == Some(JalrArm)
  {
  }

  /** `jalr rd, imm(rs1)` or `jalr rd, rs1, imm`; any other operand count is a usage error. */
  function ParseJalr(ops: seq<string>): (r: Result<Instruction, ParseError>)
    requires OperandsSafe(ops)
    ensures (|ops| != 2 && |ops| != 3) ==> r == Err(Usage("jalr rd, imm(rs1) or jalr rd, rs1, imm"))
    ensures |ops| == 2 ==> r == ParseJalrMem(ops)
    ensures |ops| == 3 ==> (r.Ok? <==> ParseRegRegImm("", ops).Ok?)
    ensures (|ops| == 3 && r.Ok?) ==> r.value == Instruction.RV32I(Asm.Jalr(ParseRegRegImm("", ops).value))
    ensures r.Ok? ==> r.value.RV32I? && ArmOf(r.value) == Some(JalrArm)
  {
    JalrArmOf();
    if |ops| == 2 then ParseJalrMem(ops)
    else if |ops| == 3 then
      match ParseRegRegImm("", ops)
      case Err(e) => Err(e)
      case Ok(i) => Ok(Instruction.RV32I(Asm.Jalr(i)))
    else Err(Usage("jalr rd, imm(rs1) or jalr rd, rs1, imm"))
  }

  function BranchVariant(op: BranchOp, b: Asm.BType): (v: Asm.RV32I)
    ensures ArmOf(Instruction.RV32I(v)) == Some(BranchArm(op))
  {
    match op
    case Beq => Asm.Beq(b)
    case Bne => Asm.Bne(b)
    case Blt => Asm.Blt(b)
    case Bge => Asm.Bge(b)
    case Bltu => Asm.Bltu(b)
    case Bgeu => Asm.Bgeu(b)
  }

  /**
   * `beq`..`bgeu rs1, rs2, imm`: an odd offset is rejected before the
   * signed 13-bit range check; the offset is stored with width 12.
   */
  function ParseBranch(op: BranchOp, ops: seq<string>): (r: Result<Instruction, ParseError>)
    requires OperandsSafe(ops)
    ensures |ops| != 3 ==> r == Err(Usage("beq rs1, rs2, imm"))
    ensures r.Ok? <==> (|ops| == 3 && ParseRegister(ops[0]).Ok? && ParseRegister(ops[1]).Ok? && ParseInt(ops[2]).Ok?
      && ParseInt(ops[2]).value % 2 == 0 && ImmSignedBits(ParseInt(ops[2]).value, 13).Ok?)
    ensures (|ops| == 3 && ParseRegister(ops[0]).Ok? && ParseRegister(ops[1]).Ok? && ParseInt(ops[2]).Ok?
      && ParseInt(ops[2]).value % 2 != 0) ==> r == Err(OddBranchOffset)
    ensures r.Ok? ==> r.value == Instruction.RV32I(BranchVariant(op,
      Asm.BType(ParseRegister(ops[0]).value, ParseRegister(ops[1]).value, 0,
        Imm(TwosComplement(ParseInt(ops[2]).value, 13), 12))))
    ensures r.Ok? ==> ArmOf(r.value) == Some(BranchArm(op))
  {
    if |ops| != 3 then Err(Usage("beq rs1, rs2, imm"))
    else
      match ParseRegister(ops[0])
      case Err(e) => Err(e)
      case Ok(rs1) =>
        match ParseRegister(ops[1])
        case Err(e) => Err(e)
        case Ok(rs2) =>
          match ParseInt(ops[2])
          case Err(e) => Err(e)
          case Ok(imm) =>
            if imm % 2 != 0 then Err(OddBranchOffset)
            else
              match ImmSignedBits(imm, 13)
              case Err(e) => Err(e)
              case Ok(_) => Ok(Instruction.RV32I(BranchVariant(op, Asm.BType(rs1, rs2, 0, Imm(TwosComplement(imm, 13), 12)))))
  }

  function LoadVariant(op: LoadOp, i: Asm.IType): (inst: Instruction)
    ensures inst.RV64I? <==> (op.Lwu? || op.Ld?)
    ensures inst.RV32I? <==> !(op.Lwu? || op.Ld?)
    ensures ArmOf(inst) == Some(LoadArm(op))
  {
    match op
    case Lb => Instruction.RV32I(Asm.Lb(i))
    case Lh => Instruction.RV32I(Asm.Lh(i))
    case Lw => Instruction.RV32I(Asm.Lw(i))
    case Lbu => Instruction.RV32I(Asm.Lbu(i))
    case Lhu => Instruction.RV32I(Asm.Lhu(i))
    case Lwu => Instruction.RV64I(Asm.Lwu(i))
    case Ld => Instruction.RV64I(Asm.Ld(i))
  }

  /** `lb`..`ld rd, imm(rs1)`: `lwu` and `ld` need RV64/RV128, checked after the operands parse. */
  function ParseLoad(op: LoadOp, ops: seq<string>, xlen: Xlen): (r: Result<Instruction, ParseError>)
    requires OperandsSafe(ops)
    ensures |ops| != 2 ==> r == Err(Usage("lw rd, imm(rs1)"))
    ensures r.Ok? <==> (|ops| == 2 && ParseRegister(ops[0]).Ok? && ParseMemOperand(ops[1]).Ok?
      && ((op.Lwu? || op.Ld?) ==> xlen != X32))
    ensures (|ops| == 2 && ParseRegister(ops[0]).Ok? && ParseMemOperand(ops[1]).Ok? && (op.Lwu? || op.Ld?) && xlen == X32)
      ==> r == Err(NeedsRv64(if op.Lwu? then "lwu" else "ld"))
    ensures r.Ok? ==> r.value == LoadVariant(op, Asm.IType(ParseRegister(ops[0]).value, ParseMemOperand(ops[1]).value.1, 0,
      Imm(ParseMemOperand(ops[1]).value.0 as bv32, 12)))
    ensures r.Ok? ==> ArmOf(r.value) == Some(LoadArm(op))
  {
    if |ops| != 2 then Err(Usage("lw rd, imm(rs1)"))
    else
      match ParseRegister(ops[0])
      case Err(e) => Err(e)
      case Ok(rd) =>
        match ParseMemOperand(ops[1])
        case Err(e) => Err(e)
        case Ok((bits, rs1)) =>
          if (op.Lwu? || op.Ld?) && xlen == X32 then Err(NeedsRv64(if op.Lwu? then "lwu" else "ld"))
          else Ok(LoadVariant(op, Asm.IType(rd, rs1, 0, Imm(bits as bv32, 12))))
  }

  function StoreVariant(op: StoreOp, s: Asm.SType): (inst: Instruction)
    ensures inst.RV64I? <==> op.Sd?
    ensures inst.RV32I? <==> !op.Sd?
    ensures ArmOf(inst) == Some(StoreArm(op))
  {
    match op
    case Sb => Instruction.RV32I(Asm.Sb(s))
    case Sh => Instruction.RV32I(Asm.Sh(s))
    case Sw => Instruction.RV32I(Asm.Sw(s))
    case Sd => Instruction.RV64I(Asm.Sd(s))
  }

  /** `sb`..`sd rs2, imm(rs1)`: `sd` needs RV64/RV128, checked after the operands parse. */
  function ParseStore(op: StoreOp, ops: seq<string>, xlen: Xlen): (r: Result<Instruction, ParseError>)
    requires OperandsSafe(ops)
    ensures |ops| != 2 ==> r == Err(Usage("sw rs2, imm(rs1)"))
    ensures r.Ok? <==> (|ops| == 2 && ParseRegister(ops[0]).Ok? && ParseMemOperand(ops[1]).Ok?
      && (op.Sd? ==> xlen != X32))
    ensures (|ops| == 2 && ParseRegister(ops[0]).Ok? && ParseMemOperand(ops[1]).Ok? && op.Sd? && xlen == X32)
      ==> r == Err(NeedsRv64("sd"))
    ensures r.Ok? ==> r.value == StoreVariant(op, Asm.SType(ParseMemOperand(ops[1]).value.1, ParseRegister(ops[0]).value, 0,
      Imm(ParseMemOperand(ops[1]).value.0 as bv32, 12)))
    ensures r.Ok? ==> ArmOf(r.value) == Some(StoreArm(op))
  {
    if |ops| != 2 then Err(Usage("sw rs2, imm(rs1)"))
    else
      match ParseRegister(ops[0])
      case Err(e) => Err(e)
      case Ok(rs2) =>
        match ParseMemOperand(ops[1])
        case Err(e) => Err(e)
        case Ok((bits, rs1)) =>
          if op.Sd? && xlen == X32 then Err(NeedsRv64("sd"))
          else Ok(StoreVariant(op, Asm.SType(rs1, rs2, 0, Imm(bits as bv32, 12))))
  }

  /** The `rd, rs1, imm` operands with a signed 12-bit immediate, shared by `jalr`, OP-IMM and the `*iw` forms. */
  function ParseRegRegImm(form: string, ops: seq<string>): (r: Result<Asm.IType, ParseError>)
    requires OperandsSafe(ops)
    ensures |ops| != 3 ==> r == Err(Usage(form))
    ensures r.Ok? <==> (|ops| == 3 && ParseRegister(ops[0]).Ok? && ParseRegister(ops[1]).Ok?
      && ParseInt(ops[2]).Ok? && ImmSignedBits(ParseInt(ops[2]).value, 12).Ok?)
    ensures (|ops| == 3 && ParseRegister(ops[0]).Err?) ==> r == Err(UnknownRegister(ops[0]))
    ensures r.Ok? ==> r.value == Asm.IType(ParseRegister(ops[0]).value, ParseRegister(ops[1]).value, 0,
      Imm(TwosComplement(ParseInt(ops[2]).value, 12), 12))
  {
    if |ops| != 3 then Err(Usage(form))
    else
      match ParseRegister(ops[0])
      case Err(e) => Err(e)
      case Ok(rd) =>
        match ParseRegister(ops[1])
        case Err(e) => Err(e)
        case Ok(rs1) =>
          match ParseInt(ops[2])
          case Err(e) => Err(e)
          case Ok(imm) =>
            match ImmSignedBits(imm, 12)
            case Err(e) => Err(e)
            case Ok(_) => Ok(Asm.IType(rd, rs1, 0, Imm(TwosComplement(imm, 12), 12)))
  }

  /** The `rd, rs1, rs2` operands, shared by OP and the `*w` register forms. */
  function ParseRegRegReg(form: string, ops: seq<string>): (r: Result<Asm.RType, ParseError>)
    ensures |ops| != 3 ==> r == Err(Usage(form))
    ensures r.Ok? <==> (|ops| == 3 && ParseRegister(ops[0]).Ok? && ParseRegister(ops[1]).Ok? && ParseRegister(ops[2]).Ok?)
    ensures r.Ok? ==> r.value == Asm.RType(ParseRegister(ops[0]).value, ParseRegister(ops[1]).value,
      ParseRegister(ops[2]).value, 0, 0)
  {
    if |ops| != 3 then Err(Usage(form))
    else
      match ParseRegister(ops[0])
      case Err(e) => Err(e)
      case Ok(rd) =>
        match ParseRegister(ops[1])
        case Err(e) => Err(e)
        case Ok(rs1) =>
          match ParseRegister(ops[2])
          case Err(e) => Err(e)
          case Ok(rs2) => Ok(Asm.RType(rd, rs1, rs2, 0, 0))
  }

  function OpImmVariant(op: OpImmOp, i: Asm.IType): (v: Asm.RV32I)
    ensures ArmOf(Instruction.RV32I(v)) == Some(OpImmArm(op))
  {
    match op
    case Addi => Asm.Addi(i)
    case Slti => Asm.Slti(i)
    case Sltiu => Asm.Sltiu(i)
    case Xori => Asm.Xori(i)
    case Ori => Asm.Ori(i)
    case Andi => Asm.Andi(i)
  }

  /** `addi`..`andi rd, rs1, imm`. */
  function ParseOpImm(op: OpImmOp, ops: seq<string>): (r: Result<Instruction, ParseError>)
    requires OperandsSafe(ops)
    ensures r.Ok? <==> ParseRegRegImm("addi rd, rs1, imm", ops).Ok?
    ensures r.Ok? ==> r.value == Instruction.RV32I(OpImmVariant(op, ParseRegRegImm("addi rd, rs1, imm", ops).value))
    ensures r.Ok? ==> ArmOf(r.value) == Some(OpImmArm(op))
  {
    match ParseRegRegImm("addi rd, rs1, imm", ops)
    case Err(e) => Err(e)
    case Ok(i) => Ok(Instruction.RV32I(OpImmVariant(op, i)))
  }

  /** The operands of a shift-immediate instruction of either width. */
  function ShiftOperands(inst: Instruction): Asm.IType {
    match inst
    case RV32I(Slli(i)) => i
    case RV32I(Srli(i)) => i
    case RV32I(Srai(i)) => i
    case RV64I(Slli(i)) => i
    case RV64I(Srli(i)) => i
    case RV64I(Srai(i)) => i
    case _ => Asm.IType(0, 0, 0, Imm(0, 0))
  }

  function ShiftVariant(op: ShiftOp, xlen: Xlen, i: Asm.IType): (inst: Instruction)
    ensures (inst.RV32I? <==> xlen == X32) && (inst.RV64I? <==> xlen != X32)
    ensures ShiftOperands(inst) == i
    ensures ArmOf(inst) == Some(ShiftArm(op))
  {
    match (op, xlen)
    case (Slli, X32) => Instruction.RV32I(Asm.RV32I.Slli(i))
    case (Srli, X32) => Instruction.RV32I(Asm.RV32I.Srli(i))
    case (Srai, X32) => Instruction.RV32I(Asm.RV32I.Srai(i))
    case (Slli, _) => Instruction.RV64I(Asm.RV64I.Slli(i))
    case (Srli, _) => Instruction.RV64I(Asm.RV64I.Srli(i))
    case (Srai, _) => Instruction.RV64I(Asm.RV64I.Srai(i))
  }

  /**
   * `slli`/`srli`/`srai rd, rs1, shamt`: the shift amount is the parsed
   * value truncated to `u32`, below 2^5 on RV32 and 2^6 otherwise; RV32
   * yields the RV32I variants, the wider registers the RV64I ones.
   */
  function ParseShift(op: ShiftOp, ops: seq<string>, xlen: Xlen): (r: Result<Instruction, ParseError>)
    requires OperandsSafe(ops)
    ensures |ops| != 3 ==> r == Err(Usage("slli rd, rs1, shamt"))
    ensures r.Ok? <==> (|ops| == 3 && ParseRegister(ops[0]).Ok? && ParseRegister(ops[1]).Ok? && ParseInt(ops[2]).Ok?
      && ParseInt(ops[2]).value % 0x1_0000_0000 < (if xlen == X32 then 32 else 64))
    ensures r.Ok? ==> (r.value.RV32I? <==> xlen == X32) && (r.value.RV64I? <==> xlen != X32)
    ensures r.Ok? ==> (var i := ShiftOperands(r.value);
      i.rd == ParseRegister(ops[0]).value && i.rs1 == ParseRegister(ops[1]).value && i.funct3 == 0
      && i.imm.width == (if xlen == X32 then 5 else 6)
      && i.imm.bits as int == ParseInt(ops[2]).value % 0x1_0000_0000)
    ensures r.Ok? ==> ArmOf(r.value) == Some(ShiftArm(op))
  {
    if |ops| != 3 then Err(Usage("slli rd, rs1, shamt"))
    else
      match ParseRegister(ops[0])
      case Err(e) => Err(e)
      case Ok(rd) =>
        match ParseRegister(ops[1])
        case Err(e) => Err(e)
        case Ok(rs1) =>
          match ParseInt(ops[2])
          case Err(e) => Err(e)
          case Ok(v) =>
            var shamt := v % 0x1_0000_0000;
            var bits: nat := if xlen == X32 then 5 else 6;
            if shamt >= (if xlen == X32 then 32 else 64) then Err(ShamtOutOfRange(shamt, bits))
            else Ok(ShiftVariant(op, xlen, Asm.IType(rd, rs1, 0, Imm(SmallBits(shamt), bits))))
  }

  function RegVariant(op: RegOp, x: Asm.RType): (v: Asm.RV32I)
    ensures ArmOf(Instruction.RV32I(v)) == Some(RegArm(op))
  {
    match op
    case Add => Asm.Add(x)
    case Sub => Asm.Sub(x)
    case Sll => Asm.RV32I.Sll(x)
    case Slt => Asm.Slt(x)
    case Sltu => Asm.Sltu(x)
    case Xor => Asm.Xor(x)
    case Srl => Asm.RV32I.Srl(x)
    case Sra => Asm.RV32I.Sra(x)
    case Or => Asm.Or(x)
    case And => Asm.And(x)
  }

  /** `add`..`and rd, rs1, rs2`. */
  function ParseReg(op: RegOp, ops: seq<string>): (r: Result<Instruction, ParseError>)
    ensures r.Ok? <==> ParseRegRegReg("add rd, rs1, rs2", ops).Ok?
    ensures r.Ok? ==> r.value == Instruction.RV32I(RegVariant(op, ParseRegRegReg("add rd, rs1, rs2", ops).value))
    ensures r.Ok? ==> ArmOf(r.value) == Some(RegArm(op))
  {
    match ParseRegRegReg("add rd, rs1, rs2", ops)
    case Err(e) => Err(e)
    case Ok(x) => Ok(Instruction.RV32I(RegVariant(op, x)))
  }

  function WideImmVariant(op: WideImmOp, i: Asm.IType): (v: Asm.RV64I)
    ensures ArmOf(Instruction.RV64I(v)) == Some(WideImmArm(op))
  {
    match op
    case Addiw => Asm.Addiw(i)
    case Slliw => Asm.Slliw(i)
    case Srliw => Asm.Srliw(i)
    case Sraiw => Asm.Sraiw(i)
  }

  function WideRegVariant(op: WideRegOp, x: Asm.RType): (v: Asm.RV64I)
    ensures ArmOf(Instruction.RV64I(v)) == Some(WideRegArm(op))
  {
    match op
    case Addw => Asm.Addw(x)
    case Subw => Asm.Subw(x)
    case Sllw => Asm.Sllw(x)
    case Srlw => Asm.Srlw(x)
    case Sraw => Asm.Sraw(x)
  }

  /** `addiw`..`sraiw rd, rs1, imm`: the register width is checked before the operand count. */
  function ParseWideImm(op: WideImmOp, ops: seq<string>, xlen: Xlen): (r: Result<Instruction, ParseError>)
    requires OperandsSafe(ops)
    ensures xlen == X32 ==> r == Err(NeedsRv64("this instruction"))
    ensures xlen != X32 ==> (r.Ok? <==> ParseRegRegImm("addiw rd, rs1, imm", ops).Ok?)
    ensures r.Ok? ==> r.value == Instruction.RV64I(WideImmVariant(op, ParseRegRegImm("addiw rd, rs1, imm", ops).value))
    ensures r.Ok? ==> ArmOf(r.value) == Some(WideImmArm(op))
  {
    if xlen == X32 then Err(NeedsRv64("this instruction"))
    else
      match ParseRegRegImm("addiw rd, rs1, imm", ops)
      case Err(e) => Err(e)
      case Ok(i) => Ok(Instruction.RV64I(WideImmVariant(op, i)))
  }

  /** `addw`..`sraw rd, rs1, rs2`: the register width is checked before the operand count. */
  function ParseWideReg(op: WideRegOp, ops: seq<string>, xlen: Xlen): (r: Result<Instruction, ParseError>)
    ensures xlen == X32 ==> r == Err(NeedsRv64("this instruction"))
    ensures xlen != X32 ==> (r.Ok? <==> ParseRegRegReg("addw rd, rs1, rs2", ops).Ok?)
    ensures r.Ok? ==> r.value == Instruction.RV64I(WideRegVariant(op, ParseRegRegReg("addw rd, rs1, rs2", ops).value))
    ensures r.Ok? ==> ArmOf(r.value) == Some(WideRegArm(op))
  {
    if xlen == X32 then Err(NeedsRv64("this instruction"))
    else
      match ParseRegRegReg("addw rd, rs1, rs2", ops)
      case Err(e) => Err(e)
      case Ok(x) => Ok(Instruction.RV64I(WideRegVariant(op, x)))
  }

  /** The arms of `lui`, `auipc`, `jal`, `jalr` and the branches: RV32I results on every register width. */
  function ParseControl(op: Op, ops: seq<string>): (r: Result<Instruction, ParseError>)
    requires (op.UpperArm? || op.JalArm? || op.JalrArm? || op.BranchArm?) && OperandsSafe(ops)
    ensures r.Ok? ==> r.value.RV32I?
    ensures r.Ok? ==> ArmOf(r.value) == Some(op)
    ensures op.UpperArm? ==> r == ParseUpper(op.u, ops)
    ensures op.JalArm? ==> r == ParseJal(ops)
    ensures op.JalrArm? ==> r == ParseJalr(ops)
    ensures op.BranchArm? ==> r == ParseBranch(op.b, ops)
  {
    match op
    case UpperArm(u) => ParseUpper(u, ops)
    case JalArm => ParseJal(ops)
    case JalrArm => ParseJalr(ops)
    case BranchArm(b) => ParseBranch(b, ops)
  }

  /** The arms of the loads and stores. */
  function ParseMemory(op: Op, ops: seq<string>, xlen: Xlen): (r: Result<Instruction, ParseError>)
    requires (op.LoadArm? || op.StoreArm?) && OperandsSafe(ops)
    ensures r.Ok? ==> ((r.value.RV32I? <==> !op.Rv64Only()) && (r.value.RV64I? <==> op.Rv64Only()))
    ensures (op.Rv64Only() && xlen == X32) ==> r.Err?
    ensures r.Ok? ==> ArmOf(r.value) == Some(op)
    ensures op.LoadArm? ==> r == ParseLoad(op.l, ops, xlen)
    ensures op.StoreArm? ==> r == ParseStore(op.s, ops, xlen)
  {
    match op
    case LoadArm(l) => ParseLoad(l, ops, xlen)
    case StoreArm(s) => ParseStore(s, ops, xlen)
  }

  /** The arms of OP-IMM, the shifts, OP and the `*w` forms. */
  function ParseArith(op: Op, ops: seq<string>, xlen: Xlen): (r: Result<Instruction, ParseError>)
    requires (op.OpImmArm? || op.ShiftArm? || op.RegArm? || op.WideImmArm? || op.WideRegArm?) && OperandsSafe(ops)
    ensures r.Ok? ==> (r.value.RV32I? || r.value.RV64I?)
    ensures (r.Ok? && r.value.RV64I?) ==> xlen != X32
    ensures (op.Rv64Only() && xlen == X32) ==> r.Err?
    ensures r.Ok? ==> ArmOf(r.value) == Some(op)
    ensures op.OpImmArm? ==> r == ParseOpImm(op.i, ops)
    ensures op.ShiftArm? ==> r == ParseShift(op.sh, ops, xlen)
    ensures op.RegArm? ==> r == ParseReg(op.r, ops)
    ensures op.WideImmArm? ==> r == ParseWideImm(op.wi, ops, xlen)
    ensures op.WideRegArm? ==> r == ParseWideReg(op.wr, ops, xlen)
  {
    match op
    case OpImmArm(i) => ParseOpImm(i, ops)
    case ShiftArm(sh) => ParseShift(sh, ops, xlen)
    case RegArm(x) => ParseReg(x, ops)
    case WideImmArm(wi) => ParseWideImm(wi, ops, xlen)
    case WideRegArm(wr) => ParseWideReg(wr, ops, xlen)
  }

  /** The arm of a known mnemonic. */
  function ParseOp(op: Op, ops: seq<string>, xlen: Xlen): (r: Result<Instruction, ParseError>)
    requires OperandsSafe(ops)
    ensures r.Ok? ==> (r.value.RV32I? || r.value.RV64I?)
    ensures (r.Ok? && r.value.RV64I?) ==> xlen != X32
    ensures (op.Rv64Only() && xlen == X32) ==> r.Err?
    ensures r.Ok? ==> ArmOf(r.value) == Some(op)
    ensures (op.UpperArm? || op.JalArm? || op.JalrArm? || op.BranchArm?) ==> r == ParseControl(op, ops)
    ensures (op.LoadArm? || op.StoreArm?) ==> r == ParseMemory(op, ops, xlen)
    ensures (op.OpImmArm? || op.ShiftArm? || op.RegArm? || op.WideImmArm? || op.WideRegArm?)
      ==> r == ParseArith(op, ops, xlen)
  {
    if op.UpperArm? || op.JalArm? || op.JalrArm? || op.BranchArm? then ParseControl(op, ops)
    else if op.LoadArm? || op.StoreArm? then ParseMemory(op, ops, xlen)
    else ParseArith(op, ops, xlen)
  }

  /**
   * `rv_i::try_parse`: `None` for a mnemonic it has no arm for, otherwise
   * that arm's result.
   */
  function TryParse(mnem: string, ops: seq<string>, xlen: Xlen): (r: Option<Result<Instruction, ParseError>>)
    requires OperandsSafe(ops)
    ensures r.None? <==> OpOf(mnem).None?
    ensures (r.Some? && r.value.Ok?) ==> (r.value.value.RV32I? || r.value.value.RV64I?)
    ensures (xlen == X32 && r.Some? && r.value.Ok?) ==> r.value.value.RV32I?
    ensures OpOf(mnem).Some? ==> r == Some(ParseOp(OpOf(mnem).value, ops, xlen))
    ensures (r.Some? && r.value.Ok?) ==> Mnemonic(r.value.value) == Some(mnem)
  {
    match OpOf(mnem)
    case None => None
    case Some(op) =>
      var r := ParseOp(op, ops, xlen);
      if r.Ok? then ArmName(r.value, op); Some(r) else Some(r)
  }

  /** An instruction built by an arm is known by that arm's mnemonic. */
  lemma ArmName(inst: Instruction, op: Op)
    requires ArmOf(inst) == Some(op)
    ensures Mnemonic(inst) == Some(op.Name())
  {
    if inst.RV32I? {
      ArmName32(inst.i32, op);
    } else {
      ArmName64(inst.i64, op);
    }
  }

  lemma ArmName32(i: Asm.RV32I, op: Op)
    requires ArmOf(Instruction.RV32I(i)) == Some(op)
    ensures i.Mnemonic() == op.Name()
  {
  }

  lemma ArmName64(i: Asm.RV64I, op: Op)
    requires ArmOf(Instruction.RV64I(i)) == Some(op)
    ensures i.Mnemonic() == op.Name()
  {
  }
}

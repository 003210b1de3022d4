/**
 * The compressed (`c.*`) mnemonics of the assembler. Their immediates are
 * checked here only as far as the source checks them; alignment and the
 * exact ranges are the compressed encoder's business.
 */
module ParseRvc {
  import opened Wrappers
  import opened RiscvImm
  import Asm
  import opened Instr
  import opened ParseCommon

  /** The memory forms: a register and an `imm(base)` operand. */
  datatype MemOp = Lw | Sw | Lwsp | Swsp | Ld | Sd | Ldsp | Sdsp
  {
    /** `c.ld`, `c.sd`, `c.ldsp` and `c.sdsp` exist on RV64/RV128 only. */
    predicate Rv64Only() { Ld? || Sd? || Ldsp? || Sdsp? }

    /** The forms whose base must be sp (x2); `c.sdsp` does not check its base. */
    predicate NeedsSp() { Lwsp? || Swsp? || Ldsp? }

    function Name(): string {
      match this
      case Lw => "c.lw" case Sw => "c.sw" case Lwsp => "c.lwsp" case Swsp => "c.swsp"
      case Ld => "c.ld" case Sd => "c.sd" case Ldsp => "c.ldsp" case Sdsp => "c.sdsp"
    }

    /** The usage message of a wrong operand count. */
    function Form(): string {
      match this
      case Lw => "c.lw rd, imm(rs1)" case Sw => "c.sw rs2, imm(rs1)"
      case Lwsp => "c.lwsp rd, imm(sp)" case Swsp => "c.swsp rs2, imm(sp)"
      case Ld => "c.ld rd, imm(rs1)" case Sd => "c.sd rs2, imm(rs1)"
      case Ldsp => "c.ldsp rd, imm(sp)" case Sdsp => "c.sdsp rs2, imm(sp)"
    }

    /** The width the immediate is declared with. */
    function Width(): nat {
      match this
      case Lw => 7 case Sw => 7
      case Lwsp => 8 case Swsp => 8 case Ld => 8 case Sd => 8
      case Ldsp => 9 case Sdsp => 9
    }
  }

  /** The mnemonics `rvc::try_parse` has an arm for. */
  datatype CompressedOp = Addi4spn | Addi | Li | Nop | Mem(m: MemOp)
  {
    /** The mnemonic of the arm, as the assembler spells it. */
    function Name(): string {
      match this
      case Addi4spn => "c.addi4spn" case Addi => "c.addi" case Li => "c.li" case Nop => "c.nop"
      case Mem(m) => m.Name()
    }
  }

  /** The arm a (lower-cased) mnemonic selects, if any. */
  function OpOf(mnem: string): (r: Option<CompressedOp>)
    ensures r.Some? ==> r.value.Name() == mnem
  {
    if mnem == "c.addi4spn" then Some(Addi4spn)
    else if mnem == "c.addi" then Some(Addi)
    else if mnem == "c.li" then Some(Li)
    else if mnem == "c.nop" then Some(Nop)
    else if mnem == "c.lw" then Some(Mem(Lw))
    else if mnem == "c.sw" then Some(Mem(Sw))
    else if mnem == "c.lwsp" then Some(Mem(Lwsp))
    else if mnem == "c.swsp" then Some(Mem(Swsp))
    else if mnem == "c.ld" then Some(Mem(Ld))
    else if mnem == "c.sd" then Some(Mem(Sd))
    else if mnem == "c.ldsp" then Some(Mem(Ldsp))
    else if mnem == "c.sdsp" then Some(Mem(Sdsp))
    else None
  }

  /**
   * `OpOf` and `CompressedOp.Name` are inverse: every arm is selected by
   * its own mnemonic, and a mnemonic selects only the arm of that name.
   */
  lemma OpOfName(op: CompressedOp, m: string)
    ensures OpOf(op.Name()) == Some(op)
    ensures OpOf(m) == Some(op) <==> op.Name() == m
  {
    match op
    case Addi4spn =>
    case Addi =>
    case Li =>
    case Nop =>
    case Mem(x) => MemNameSelects(x);
  }

  /** Every compressed mnemonic starts with `c.`. */
  lemma OpOfPrefix(m: string)
    ensures OpOf(m).Some? ==> |m| > 2 && m[..2] == "c."
  {
    if OpOf(m).Some? {
      var op := OpOf(m).value;
      if op.Mem? {
        match op.m
        case Lw => case Sw => case Lwsp => case Swsp => case Ld => case Sd => case Ldsp => case Sdsp =>
      }
    }
  }

  lemma MemNameSelects(x: MemOp)
    ensures OpOf(x.Name()) == Some(Mem(x))
  {
  }

  lemma Addi4spnName()
    ensures forall ciw :: Mnemonic(Instruction.RVC(Asm.Caddi4spn(ciw))) == Some(Addi4spn.Name())
  {
  }

  /**
   * `c.addi4spn rd, uimm`: a value of zero or below is refused, then the
   * value is truncated to `u32` and must be a multiple of 4 below 2^10.
   */
  function ParseAddi4spn(ops: seq<string>): (r: Result<Instruction, ParseError>)
    requires OperandsSafe(ops)
    ensures |ops| != 2 ==> r == Err(Usage("c.addi4spn rd, uimm"))
    ensures r.Ok? <==> (|ops| == 2 && ParseRegister(ops[0]).Ok? && ParseInt(ops[1]).Ok?
      && ParseInt(ops[1]).value > 0
      && ParseInt(ops[1]).value % 0x1_0000_0000 % 4 == 0 && ParseInt(ops[1]).value % 0x1_0000_0000 < 1024)
    ensures (|ops| == 2 && ParseRegister(ops[0]).Ok? && ParseInt(ops[1]).Ok? && ParseInt(ops[1]).value <= 0)
      ==> r == Err(Addi4spnNotPositive)
    ensures r.Ok? ==> r.value == Instruction.RVC(Asm.Caddi4spn(Asm.CIWType(ParseRegister(ops[0]).value, 0,
      Uimm((ParseInt(ops[1]).value % 0x1_0000_0000) as bv32, 10))))
    ensures r.Ok? ==> Mnemonic(r.value) == Some(Addi4spn.Name())
  {
    Addi4spnName();
    if |ops| != 2 then Err(Usage("c.addi4spn rd, uimm"))
    else
      match ParseRegister(ops[0])
      case Err(e) => Err(e)
      case Ok(rd) =>
        match ParseInt(ops[1])
        case Err(e) => Err(e)
        case Ok(v) =>
          if v <= 0 then Err(Addi4spnNotPositive)
          else
            var u := v % 0x1_0000_0000;
            if u % 4 != 0 then Err(Addi4spnMisaligned)
            else if u >= 1024 then Err(Addi4spnTooWide)
            else Ok(Instruction.RVC(Asm.Caddi4spn(Asm.CIWType(rd, 0, Uimm(u as bv32, 10)))))
  }

  function CiVariant(op: CompressedOp, ci: Asm.CIType): (v: Asm.RVC)
    requires op.Addi? || op.Li?
    ensures v.Mnemonic() == op.Name()
  {
    if op.Addi? then Asm.Caddi(ci) else Asm.Cli(ci)
  }

  /** `c.addi rd, imm` and `c.li rd, imm`: a signed 6-bit immediate. */
  function ParseCi(op: CompressedOp, ops: seq<string>): (r: Result<Instruction, ParseError>)
    requires (op.Addi? || op.Li?) && OperandsSafe(ops)
    ensures |ops| != 2 ==> r == Err(Usage(if op.Addi? then "c.addi rd, imm" else "c.li rd, imm"))
    ensures r.Ok? <==> (|ops| == 2 && ParseRegister(ops[0]).Ok? && ParseInt(ops[1]).Ok?
      && ImmSignedBits(ParseInt(ops[1]).value, 6).Ok?)
    ensures r.Ok? ==> (var ci := Asm.CIType(ParseRegister(ops[0]).value, 0,
      Imm(TwosComplement(ParseInt(ops[1]).value, 6), 6));
      r.value == Instruction.RVC(CiVariant(op, ci)))
    ensures r.Ok? ==> Mnemonic(r.value) == Some(op.Name())
  {
    if |ops| != 2 then Err(Usage(if op.Addi? then "c.addi rd, imm" else "c.li rd, imm"))
    else
      match ParseRegister(ops[0])
      case Err(e) => Err(e)
      case Ok(rd) =>
        match ParseInt(ops[1])
        case Err(e) => Err(e)
        case Ok(v) =>
          match ImmSignedBits(v, 6)
          case Err(e) => Err(e)
          case Ok(_) =>
            var ci := Asm.CIType(rd, 0, Imm(TwosComplement(v, 6), 6));
            Ok(Instruction.RVC(CiVariant(op, ci)))
  }

  /** The instruction a memory form builds from its register, offset bits and base. */
  function MemInstruction(op: MemOp, reg: bv8, bits: nat, base: bv8): (inst: Instruction)
    requires bits < 4096
    ensures inst.RVC?
    ensures Mnemonic(inst) == Some(op.Name())
  {
    var imm := Imm(bits as bv32, op.Width());
    match op
    case Lw => Instruction.RVC(Asm.Clw(Asm.CLType(reg, base, 0, imm)))
    case Sw => Instruction.RVC(Asm.Csw(Asm.CSType(base, reg, 0, imm)))
    case Lwsp => Instruction.RVC(Asm.Clwsp(Asm.CIType(reg, 0, imm)))
    case Swsp => Instruction.RVC(Asm.Cswsp(Asm.CSSType(reg, 0, imm)))
    case Ld => Instruction.RVC(Asm.Cld(Asm.CLType(reg, base, 0, imm)))
    case Sd => Instruction.RVC(Asm.Csd(Asm.CSType(base, reg, 0, imm)))
    case Ldsp => Instruction.RVC(Asm.Cldsp(Asm.CIType(reg, 0, imm)))
    case Sdsp => Instruction.RVC(Asm.Csdsp(Asm.CSSType(reg, 0, imm)))
  }

  /**
   * The memory forms: the operand count, then (for the RV64-only forms)
   * the register width, then the register, the memory operand and (for
   * the sp forms) the base.
   */
  function ParseMem(op: MemOp, ops: seq<string>, xlen: Xlen): (r: Result<Instruction, ParseError>)
    requires OperandsSafe(ops)
    ensures |ops| != 2 ==> r == Err(Usage(op.Form()))
    ensures (|ops| == 2 && op.Rv64Only() && xlen == X32) ==> r == Err(NeedsRv64(op.Name()))
    ensures r.Ok? <==> (|ops| == 2 && (op.Rv64Only() ==> xlen != X32)
      && ParseRegister(ops[0]).Ok? && ParseMemOperand(ops[1]).Ok?
      && (op.NeedsSp() ==> ParseMemOperand(ops[1]).value.1 == 2))
    ensures (|ops| == 2 && (op.Rv64Only() ==> xlen != X32) && ParseRegister(ops[0]).Ok? && ParseMemOperand(ops[1]).Ok?
      && op.NeedsSp() && ParseMemOperand(ops[1]).value.1 != 2) ==> r == Err(BaseNotSp(op.Name()))
    ensures r.Ok? ==> r.value == MemInstruction(op, ParseRegister(ops[0]).value,
      ParseMemOperand(ops[1]).value.0, ParseMemOperand(ops[1]).value.1)
    ensures r.Ok? ==> Mnemonic(r.value) == Some(op.Name())
  {
    if |ops| != 2 then Err(Usage(op.Form()))
    else if op.Rv64Only() && xlen == X32 then Err(NeedsRv64(op.Name()))
    else
      match ParseRegister(ops[0])
      case Err(e) => Err(e)
      case Ok(reg) =>
        match ParseMemOperand(ops[1])
        case Err(e) => Err(e)
        case Ok((bits, base)) =>
          if op.NeedsSp() && base != 2 then Err(BaseNotSp(op.Name()))
          else Ok(MemInstruction(op, reg, bits, base))
  }

  /**
   * `rvc::try_parse`: `None` for a mnemonic it has no arm for; `c.nop`
   * ignores its operands; every result is a compressed instruction.
   */
  function TryParse(mnem: string, ops: seq<string>, xlen: Xlen): (r: Option<Result<Instruction, ParseError>>)
    requires OperandsSafe(ops)
    ensures r.None? <==> OpOf(mnem).None?
    ensures (r.Some? && r.value.Ok?) ==> r.value.value.RVC?
    ensures OpOf(mnem) == Some(Nop) ==> r == Some(Ok(Instruction.RVC(Asm.Cnop(Asm.CIType(0, 0, Imm(0, 6))))))
    ensures (OpOf(mnem).Some? && OpOf(mnem).value.Mem? && OpOf(mnem).value.m.Rv64Only() && xlen == X32)
      ==> (r.Some? && r.value.Err?)
    ensures OpOf(mnem) == Some(Addi4spn) ==> r == Some(ParseAddi4spn(ops))
    ensures OpOf(mnem) == Some(Addi) ==> r == Some(ParseCi(Addi, ops))
    ensures OpOf(mnem) == Some(Li) ==> r == Some(ParseCi(Li, ops))
    ensures (OpOf(mnem).Some? && OpOf(mnem).value.Mem?) ==> r == Some(ParseMem(OpOf(mnem).value.m, ops, xlen))
    ensures (r.Some? && r.value.Ok?) ==> Mnemonic(r.value.value) == Some(mnem)
  {
    match OpOf(mnem)
    case None => None
    case Some(op) =>
      match op
      case Addi4spn => Some(ParseAddi4spn(ops))
      case Addi => Some(ParseCi(op, ops))
      case Li => Some(ParseCi(op, ops))
      case Nop => Some(Ok(Instruction.RVC(Asm.Cnop(Asm.CIType(0, 0, Imm(0, 6))))))
      case Mem(m) => Some(ParseMem(m, ops, xlen))
  }
}

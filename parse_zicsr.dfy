/** The Zicsr mnemonics of the assembler. */
module ParseZicsr {
  import opened Wrappers
  import opened RiscvImm
  import Asm
  import opened Instr
  import opened ParseCommon

  datatype CsrOp = Rw | Rs | Rc

  /** The mnemonic of a CSR operation with a register (`false`) or immediate (`true`) source. */
  function Name(op: CsrOp, imm: bool): string {
    match op
    case Rw => if imm then "csrrwi" else "csrrw"
    case Rs => if imm then "csrrsi" else "csrrs"
    case Rc => if imm then "csrrci" else "csrrc"
  }

  /** The arm a (lower-cased) mnemonic selects: the CSR operation and whether its source is an immediate. */
  function OpOf(mnem: string): (r: Option<(CsrOp, bool)>)
    ensures r.Some? ==> Name(r.value.0, r.value.1) == mnem
  {
    if mnem == "csrrw" then Some((Rw, false))
    else if mnem == "csrrs" then Some((Rs, false))
    else if mnem == "csrrc" then Some((Rc, false))
    else if mnem == "csrrwi" then Some((Rw, true))
    else if mnem == "csrrsi" then Some((Rs, true))
    else if mnem == "csrrci" then Some((Rc, true))
    else None
  }

  /**
   * `OpOf` and `Name` are inverse: every operation and source kind is
   * selected by its own mnemonic, and a mnemonic selects only that one.
   */
  lemma OpOfName(op: CsrOp, imm: bool, m: string)
    ensures OpOf(Name(op, imm)) == Some((op, imm))
    ensures OpOf(m) == Some((op, imm)) <==> Name(op, imm) == m
  {
  }

  /** Every CSR mnemonic starts with `csrr`. */
  lemma OpOfPrefix(m: string)
    ensures OpOf(m).Some? ==> |m| > 4 && m[..4] == "csrr"
  {
  }

  /** A CSR number is accepted from 0 to 0xFFF. */
  predicate CsrInRange(v: int) { 0 <= v <= 0xFFF }

  function RegVariant(op: CsrOp, c: Asm.CsrRType): (v: Asm.RVZicsr)
    ensures v.Mnemonic() == Name(op, false)
  {
    match op
    case Rw => Asm.Csrrw(c)
    case Rs => Asm.Csrrs(c)
    case Rc => Asm.Csrrc(c)
  }

  function ImmVariant(op: CsrOp, c: Asm.CsrIType): (v: Asm.RVZicsr)
    ensures v.Mnemonic() == Name(op, true)
  {
    match op
    case Rw => Asm.Csrrwi(c)
    case Rs => Asm.Csrrsi(c)
    case Rc => Asm.Csrrci(c)
  }

  /**
   * `csrrw`/`csrrs`/`csrrc rd, csr, rs1`: the CSR number is range-checked
   * before the source register is read.
   */
  function ParseCsrReg(op: CsrOp, ops: seq<string>): (r: Result<Instruction, ParseError>)
    requires OperandsSafe(ops)
    ensures |ops| != 3 ==> r == Err(Usage("csrr{w|s|c} rd, csr, rs1"))
    ensures r.Ok? <==> (|ops| == 3 && ParseRegister(ops[0]).Ok? && ParseInt(ops[1]).Ok?
      && CsrInRange(ParseInt(ops[1]).value) && ParseRegister(ops[2]).Ok?)
    ensures (|ops| == 3 && ParseRegister(ops[0]).Ok? && ParseInt(ops[1]).Ok? && !CsrInRange(ParseInt(ops[1]).value))
      ==> r == Err(CsrOutOfRange)
    ensures r.Ok? ==> (var c := Asm.CsrRType(ParseRegister(ops[0]).value, ParseRegister(ops[2]).value, 0,
      ParseInt(ops[1]).value as bv16);
      r.value == Instruction.RVZicsr(RegVariant(op, c)))
  {
    if |ops| != 3 then Err(Usage("csrr{w|s|c} rd, csr, rs1"))
    else
      match ParseRegister(ops[0])
      case Err(e) => Err(e)
      case Ok(rd) =>
        match ParseInt(ops[1])
        case Err(e) => Err(e)
        case Ok(csr) =>
          if !CsrInRange(csr) then Err(CsrOutOfRange)
          else
            match ParseRegister(ops[2])
            case Err(e) => Err(e)
            case Ok(rs1) =>
              var c := Asm.CsrRType(rd, rs1, 0, csr as bv16);
              Ok(Instruction.RVZicsr(RegVariant(op, c)))
  }

  /**
   * `csrrwi`/`csrrsi`/`csrrci rd, csr, uimm`: the CSR number is checked,
   * then the immediate must lie in 0..31.
   */
  function ParseCsrImm(op: CsrOp, ops: seq<string>): (r: Result<Instruction, ParseError>)
    requires OperandsSafe(ops)
    ensures |ops| != 3 ==> r == Err(Usage("csrr{x}i rd, csr, uimm"))
    ensures r.Ok? <==> (|ops| == 3 && ParseRegister(ops[0]).Ok? && ParseInt(ops[1]).Ok?
      && CsrInRange(ParseInt(ops[1]).value) && ParseInt(ops[2]).Ok? && 0 <= ParseInt(ops[2]).value <= 31)
    ensures (|ops| == 3 && ParseRegister(ops[0]).Ok? && ParseInt(ops[1]).Ok? && !CsrInRange(ParseInt(ops[1]).value))
      ==> r == Err(CsrOutOfRange)
    ensures (|ops| == 3 && ParseRegister(ops[0]).Ok? && ParseInt(ops[1]).Ok? && CsrInRange(ParseInt(ops[1]).value)
      && ParseInt(ops[2]).Ok? && !(0 <= ParseInt(ops[2]).value <= 31)) ==> r == Err(UimmOutOfRange)
    ensures r.Ok? ==> (var c := Asm.CsrIType(ParseRegister(ops[0]).value, Uimm(SmallBits(ParseInt(ops[2]).value), 5), 0,
      ParseInt(ops[1]).value as bv16);
      r.value == Instruction.RVZicsr(ImmVariant(op, c)))
  {
    if |ops| != 3 then Err(Usage("csrr{x}i rd, csr, uimm"))
    else
      match ParseRegister(ops[0])
      case Err(e) => Err(e)
      case Ok(rd) =>
        match ParseInt(ops[1])
        case Err(e) => Err(e)
        case Ok(csr) =>
          if !CsrInRange(csr) then Err(CsrOutOfRange)
          else
            match ParseInt(ops[2])
            case Err(e) => Err(e)
            case Ok(u) =>
              if u < 0 || u > 31 then Err(UimmOutOfRange)
              else
                var c := Asm.CsrIType(rd, Uimm(SmallBits(u), 5), 0, csr as bv16);
                Ok(Instruction.RVZicsr(ImmVariant(op, c)))
  }

  /** `zicsr::try_parse`: `None` for any other mnemonic; the register width plays no part. */
  function TryParse(mnem: string, ops: seq<string>): (r: Option<Result<Instruction, ParseError>>)
    requires OperandsSafe(ops)
    ensures r.None? <==> OpOf(mnem).None?
    ensures (r.Some? && r.value.Ok?) ==> r.value.value.RVZicsr?
    ensures OpOf(mnem).Some? ==> r == Some(if OpOf(mnem).value.1 then ParseCsrImm(OpOf(mnem).value.0, ops)
      else ParseCsrReg(OpOf(mnem).value.0, ops))
    ensures (r.Some? && r.value.Ok?) ==> Mnemonic(r.value.value) == Some(mnem)
  {
    match OpOf(mnem)
    case None => None
    case Some((op, imm)) => Some(if imm then ParseCsrImm(op, ops) else ParseCsrReg(op, ops))
  }
}

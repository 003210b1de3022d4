/**
 * The operand records of the instruction families, the families the
 * assembler, encoders and decoder use, and the register-name tables.
 * Register and function fields are the source's `u8`, a CSR number its
 * `u16`.
 */
module Asm {
  import opened Wrappers
  import opened Chars
  import opened Text
  import opened RiscvImm
  import RustStr

  datatype UType = UType(rd: bv8, imm: Imm)
  datatype JType = JType(rd: bv8, imm: Imm)
  datatype IType = IType(rd: bv8, rs1: bv8, funct3: bv8, imm: Imm)
  datatype SType = SType(rs1: bv8, rs2: bv8, funct3: bv8, imm: Imm)
  datatype BType = BType(rs1: bv8, rs2: bv8, funct3: bv8, imm: Imm)
  datatype RType = RType(rd: bv8, rs1: bv8, rs2: bv8, funct3: bv8, funct7: bv8)
  datatype CRType = CRType(rdrs1: bv8, rs2: bv8, funct4: bv8)
  datatype CIType = CIType(rdrs1: bv8, funct3: bv8, imm: Imm)
  datatype CSSType = CSSType(rs2: bv8, funct3: bv8, imm: Imm)
  datatype CIWType = CIWType(rd: bv8, funct3: bv8, uimm: Uimm)
  datatype CLType = CLType(rd: bv8, rs1: bv8, funct3: bv8, imm: Imm)
  datatype CSType = CSType(rs1: bv8, rs2: bv8, funct3: bv8, imm: Imm)
  datatype CAType = CAType(rdrs1: bv8, rs2: bv8, funct2: bv8, funct6: bv8)
  datatype CBType = CBType(rs1: bv8, funct3: bv8, off: Imm)
  datatype CJType = CJType(funct3: bv8, target: Imm)
  datatype CsrRType = CsrRType(rd: bv8, rs1: bv8, funct3: bv8, csr: bv16)
  datatype CsrIType = CsrIType(rd: bv8, uimm: Uimm, funct3: bv8, csr: bv16)
  datatype R4Type = R4Type(rd: bv8, rs1: bv8, rs2: bv8, rs3: bv8, funct3: bv8, funct2: bv8)

  /** The RV32I base instructions with the M extension, as the encoder matches them. */
  datatype RV32I =
    | Lui(u: UType) | Auipc(u: UType) | Jal(j: JType) | Jalr(i: IType)
    | Beq(b: BType) | Bne(b: BType) | Blt(b: BType) | Bge(b: BType) | Bltu(b: BType) | Bgeu(b: BType)
    | Lb(i: IType) | Lh(i: IType) | Lw(i: IType) | Lbu(i: IType) | Lhu(i: IType)
    | Sb(s: SType) | Sh(s: SType) | Sw(s: SType)
    | Addi(i: IType) | Slti(i: IType) | Sltiu(i: IType) | Xori(i: IType) | Ori(i: IType) | Andi(i: IType)
    | Slli(i: IType) | Srli(i: IType) | Srai(i: IType)
    | Add(r: RType) | Sub(r: RType) | Sll(r: RType) | Slt(r: RType) | Sltu(r: RType)
    | Xor(r: RType) | Srl(r: RType) | Sra(r: RType) | Or(r: RType) | And(r: RType)
    | Mul(r: RType) | Mulh(r: RType) | Mulhsu(r: RType) | Mulhu(r: RType)
    | Div(r: RType) | Divu(r: RType) | Rem(r: RType) | Remu(r: RType)
    | Fence | FenceI | Ecall | Ebreak
  {
    /** The assembler mnemonic of the instruction. */
    function Mnemonic(): string {
      match this
      case Lui(_) => "lui" case Auipc(_) => "auipc" case Jal(_) => "jal" case Jalr(_) => "jalr"
      case Beq(_) => "beq" case Bne(_) => "bne" case Blt(_) => "blt" case Bge(_) => "bge"
      case Bltu(_) => "bltu" case Bgeu(_) => "bgeu"
      case Lb(_) => "lb" case Lh(_) => "lh" case Lw(_) => "lw" case Lbu(_) => "lbu" case Lhu(_) => "lhu"
      case Sb(_) => "sb" case Sh(_) => "sh" case Sw(_) => "sw"
      case Addi(_) => "addi" case Slti(_) => "slti" case Sltiu(_) => "sltiu" case Xori(_) => "xori"
      case Ori(_) => "ori" case Andi(_) => "andi"
      case Slli(_) => "slli" case Srli(_) => "srli" case Srai(_) => "srai"
      case Add(_) => "add" case Sub(_) => "sub" case Sll(_) => "sll" case Slt(_) => "slt" case Sltu(_) => "sltu"
      case Xor(_) => "xor" case Srl(_) => "srl" case Sra(_) => "sra" case Or(_) => "or" case And(_) => "and"
      case Mul(_) => "mul" case Mulh(_) => "mulh" case Mulhsu(_) => "mulhsu" case Mulhu(_) => "mulhu"
      case Div(_) => "div" case Divu(_) => "divu" case Rem(_) => "rem" case Remu(_) => "remu"
      case Fence => "fence" case FenceI => "fence.i" case Ecall => "ecall" case Ebreak => "ebreak"
    }
  }

  /** The RV64I additions. */
  datatype RV64I =
    | Lwu(i: IType) | Ld(i: IType) | Sd(s: SType)
    | Sll(r: RType) | Srl(r: RType) | Sra(r: RType)
    | Slli(i: IType) | Srli(i: IType) | Srai(i: IType)
    | Addiw(i: IType) | Slliw(i: IType) | Srliw(i: IType) | Sraiw(i: IType)
    | Addw(r: RType) | Subw(r: RType) | Sllw(r: RType) | Srlw(r: RType) | Sraw(r: RType)
  {
    /** The assembler mnemonic of the instruction. */
    function Mnemonic(): string {
      match this
      case Lwu(_) => "lwu" case Ld(_) => "ld" case Sd(_) => "sd"
      case Sll(_) => "sll" case Srl(_) => "srl" case Sra(_) => "sra"
      case Slli(_) => "slli" case Srli(_) => "srli" case Srai(_) => "srai"
      case Addiw(_) => "addiw" case Slliw(_) => "slliw" case Srliw(_) => "srliw" case Sraiw(_) => "sraiw"
      case Addw(_) => "addw" case Subw(_) => "subw" case Sllw(_) => "sllw" case Srlw(_) => "srlw" case Sraw(_) => "sraw"
    }
  }

  /** The compressed instructions the parser and the 16-bit encoder handle. */
  datatype RVC =
    | Caddi4spn(ciw: CIWType)
    | Cnop(ci: CIType) | Caddi(ci: CIType) | Cli(ci: CIType) | Caddi16sp(ci: CIType) | Caddiw(ci: CIType)
    | Clw(cl: CLType) | Csw(cs: CSType) | Clwsp(ci: CIType) | Cswsp(css: CSSType)
    | Cld(cl: CLType) | Csd(cs: CSType) | Cldsp(ci: CIType) | Csdsp(css: CSSType)
    | Cslli(ci: CIType) | Csrli(ci: CIType) | Csrai(ci: CIType) | Candi(ci: CIType)
    | Csub(ca: CAType) | Cxor(ca: CAType) | Cor(ca: CAType) | Cand(ca: CAType)
    | Csubw(ca: CAType) | Caddw(ca: CAType)
    | Cjr(cr: CRType) | Cmv(cr: CRType) | Cjalr(cr: CRType) | Cadd(cr: CRType)
    | Cj(cj: CJType) | Cjal(cj: CJType) | Cbeqz(cb: CBType) | Cbnez(cb: CBType)
  {
    /** The assembler mnemonic of the instruction. */
    function Mnemonic(): string {
      match this
      case Caddi4spn(_) => "c.addi4spn"
      case Cnop(_) => "c.nop" case Caddi(_) => "c.addi" case Cli(_) => "c.li"
      case Caddi16sp(_) => "c.addi16sp" case Caddiw(_) => "c.addiw"
      case Clw(_) => "c.lw" case Csw(_) => "c.sw" case Clwsp(_) => "c.lwsp" case Cswsp(_) => "c.swsp"
      case Cld(_) => "c.ld" case Csd(_) => "c.sd" case Cldsp(_) => "c.ldsp" case Csdsp(_) => "c.sdsp"
      case Cslli(_) => "c.slli" case Csrli(_) => "c.srli" case Csrai(_) => "c.srai" case Candi(_) => "c.andi"
      case Csub(_) => "c.sub" case Cxor(_) => "c.xor" case Cor(_) => "c.or" case Cand(_) => "c.and"
      case Csubw(_) => "c.subw" case Caddw(_) => "c.addw"
      case Cjr(_) => "c.jr" case Cmv(_) => "c.mv" case Cjalr(_) => "c.jalr" case Cadd(_) => "c.add"
      case Cj(_) => "c.j" case Cjal(_) => "c.jal" case Cbeqz(_) => "c.beqz" case Cbnez(_) => "c.bnez"
    }
  }

  /** The Zicsr instructions. */
  datatype RVZicsr =
    | Csrrw(c: CsrRType) | Csrrs(c: CsrRType) | Csrrc(c: CsrRType)
    | Csrrwi(ci: CsrIType) | Csrrsi(ci: CsrIType) | Csrrci(ci: CsrIType)
  {
    /** The assembler mnemonic of the instruction. */
    function Mnemonic(): string {
      match this
      case Csrrw(_) => "csrrw" case Csrrs(_) => "csrrs" case Csrrc(_) => "csrrc"
      case Csrrwi(_) => "csrrwi" case Csrrsi(_) => "csrrsi" case Csrrci(_) => "csrrci"
    }
  }

  /** The single-precision floating-point instructions the decoder recognises. */
  datatype RVF =
    | Flw(i: IType) | Fsw(s: SType)
    | Fmadds(r4: R4Type) | Fmsubs(r4: R4Type) | Fnmsubs(r4: R4Type) | Fnmadds(r4: R4Type)
    | Fadds(r: RType) | Fsubs(r: RType) | Fmuls(r: RType) | Fdivs(r: RType) | Fsqrts(r: RType)
    | Fmins(r: RType) | Fmaxs(r: RType) | Fsgnjs(r: RType) | Fsgnjns(r: RType) | Fsgnjxs(r: RType)
    | Feqs(r: RType) | Flts(r: RType) | Fles(r: RType)
    | Fcvtws(r: RType) | Fcvtwus(r: RType) | Fcvtls(r: RType) | Fcvtlus(r: RType)
    | Fcvtsw(r: RType) | Fcvtswu(r: RType) | Fcvtsl(r: RType) | Fcvtslu(r: RType)
    | Fmvxw(r: RType) | Fclasss(r: RType) | Fmvwx(r: RType)

  /** `to_register`: the ABI name of a register number, "unknown" from 32 up. */
  function ToRegister(n: bv8): (name: string)
    ensures n < 32 ==> 2 <= |name| <= 4
  {
    if n == 0 then "zero"
    else if n == 1 then "ra"
    else if n == 2 then "sp"
    else if n == 3 then "gp"
    else if n == 4 then "tp"
    else if n == 5 then "t0"
    else if n == 6 then "t1"
    else if n == 7 then "t2"
    else if n == 8 then "s0"
    else if n == 9 then "s1"
    else if n == 10 then "a0"
    else if n == 11 then "a1"
    else if n == 12 then "a2"
    else if n == 13 then "a3"
    else if n == 14 then "a4"
    else if n == 15 then "a5"
    else if n == 16 then "a6"
    else if n == 17 then "a7"
    else if n == 18 then "s2"
    else if n == 19 then "s3"
    else if n == 20 then "s4"
    else if n == 21 then "s5"
    else if n == 22 then "s6"
    else if n == 23 then "s7"
    else if n == 24 then "s8"
    else if n == 25 then "s9"
    else if n == 26 then "s10"
    else if n == 27 then "s11"
    else if n == 28 then "t3"
    else if n == 29 then "t4"
    else if n == 30 then "t5"
    else if n == 31 then "t6"
    else "unknown"
  }

  /** The ABI-name table of `from_register`, with `fp` as a second name of x8. */
  function AbiRegister(s: string): (r: Option<bv8>)
    ensures r.Some? ==> r.value < 32
  {
    if s == "zero" then Some(0) else if s == "ra" then Some(1) else if s == "sp" then Some(2)
    else if s == "gp" then Some(3) else if s == "tp" then Some(4) else if s == "t0" then Some(5)
    else if s == "t1" then Some(6) else if s == "t2" then Some(7)
    else if s == "s0" || s == "fp" then Some(8) else if s == "s1" then Some(9)
    else if s == "a0" then Some(10) else if s == "a1" then Some(11) else if s == "a2" then Some(12)
    else if s == "a3" then Some(13) else if s == "a4" then Some(14) else if s == "a5" then Some(15)
    else if s == "a6" then Some(16) else if s == "a7" then Some(17) else if s == "s2" then Some(18)
    else if s == "s3" then Some(19) else if s == "s4" then Some(20) else if s == "s5" then Some(21)
    else if s == "s6" then Some(22) else if s == "s7" then Some(23) else if s == "s8" then Some(24)
    else if s == "s9" then Some(25) else if s == "s10" then Some(26) else if s == "s11" then Some(27)
    else if s == "t3" then Some(28) else if s == "t4" then Some(29) else if s == "t5" then Some(30)
    else if s == "t6" then Some(31) else None
  }

  /** `x<n>` with `n` a `u8` no greater than 31. */
  function NumberedRegister(digits: string): (r: Option<bv8>)
    ensures r.Some? <==> RustStr.FromStrRadix(digits, 10, 0, 255).Ok? && RustStr.FromStrRadix(digits, 10, 0, 255).value <= 31
    ensures r.Some? ==> r.value as int == RustStr.FromStrRadix(digits, 10, 0, 255).value
  {
    match RustStr.FromStrRadix(digits, 10, 0, 255)
    case Ok(n) => if 0 <= n <= 31 then Some(n as bv8) else None
    case Err(_) => None
  }

  /** `from_register`: trim, lower-case, then `x<n>` or an ABI name. */
  function FromRegister(name: string): (r: Option<bv8>)
    ensures r.Some? ==> r.value < 32
  {
    var s := RustStr.ToLowercase(RustStr.Trim(name));
    if s != [] && s[0] == 'x' && NumberedRegister(s[1..]).Some? then NumberedRegister(s[1..])
    else AbiRegister(s)
  }

  /** A clean name (no surrounding white space, no capitals, not `x<n>`) is looked up in the ABI table. */
  lemma ReadsBack(name: string, n: bv8)
    requires name != [] && name[0] != 'x'
    requires !RustStr.IsWhitespace(name[0]) && !RustStr.IsWhitespace(name[|name| - 1])
    requires forall k :: 0 <= k < |name| ==> !('A' <= name[k] <= 'Z')
    requires AbiRegister(name) == Some(n)
    ensures FromRegister(name) == Some(n)
  {
    RustStr.TrimClean(name);
    LowerAsciiNoCapitals(name);
  }

  // One lemma per ABI name keeps each unfolding of `from_register` on a single literal.

  lemma ReadsBackX0()
    ensures FromRegister("zero") == Some(0)
  {
    ReadsBack("zero", 0);
  }

  lemma ReadsBackX1()
    ensures FromRegister("ra") == Some(1)
  {
    ReadsBack("ra", 1);
  }

  lemma ReadsBackX2()
    ensures FromRegister("sp") == Some(2)
  {
    ReadsBack("sp", 2);
  }

  lemma ReadsBackX3()
    ensures FromRegister("gp") == Some(3)
  {
    ReadsBack("gp", 3);
  }

  lemma ReadsBackX4()
    ensures FromRegister("tp") == Some(4)
  {
    ReadsBack("tp", 4);
  }

  lemma ReadsBackX5()
    ensures FromRegister("t0") == Some(5)
  {
    ReadsBack("t0", 5);
  }

  lemma ReadsBackX6()
    ensures FromRegister("t1") == Some(6)
  {
    ReadsBack("t1", 6);
  }

  lemma ReadsBackX7()
    ensures FromRegister("t2") == Some(7)
  {
    ReadsBack("t2", 7);
  }

  lemma ReadsBackX8()
    ensures FromRegister("s0") == Some(8)
  {
    ReadsBack("s0", 8);
  }

  lemma ReadsBackX9()
    ensures FromRegister("s1") == Some(9)
  {
    ReadsBack("s1", 9);
  }

  lemma ReadsBackX10()
    ensures FromRegister("a0") == Some(10)
  {
    ReadsBack("a0", 10);
  }

  lemma ReadsBackX11()
    ensures FromRegister("a1") == Some(11)
  {
    ReadsBack("a1", 11);
  }

  lemma ReadsBackX12()
    ensures FromRegister("a2") == Some(12)
  {
    ReadsBack("a2", 12);
  }

  lemma ReadsBackX13()
    ensures FromRegister("a3") == Some(13)
  {
    ReadsBack("a3", 13);
  }

  lemma ReadsBackX14()
    ensures FromRegister("a4") == Some(14)
  {
    ReadsBack("a4", 14);
  }

  lemma ReadsBackX15()
    ensures FromRegister("a5") == Some(15)
  {
    ReadsBack("a5", 15);
  }

  lemma ReadsBackX16()
    ensures FromRegister("a6") == Some(16)
  {
    ReadsBack("a6", 16);
  }

  lemma ReadsBackX17()
    ensures FromRegister("a7") == Some(17)
  {
    ReadsBack("a7", 17);
  }

  lemma ReadsBackX18()
    ensures FromRegister("s2") == Some(18)
  {
    ReadsBack("s2", 18);
  }

  lemma ReadsBackX19()
    ensures FromRegister("s3") == Some(19)
  {
    ReadsBack("s3", 19);
  }

  lemma ReadsBackX20()
    ensures FromRegister("s4") == Some(20)
  {
    ReadsBack("s4", 20);
  }

  lemma ReadsBackX21()
    ensures FromRegister("s5") == Some(21)
  {
    ReadsBack("s5", 21);
  }

  lemma ReadsBackX22()
    ensures FromRegister("s6") == Some(22)
  {
    ReadsBack("s6", 22);
  }

  lemma ReadsBackX23()
    ensures FromRegister("s7") == Some(23)
  {
    ReadsBack("s7", 23);
  }

  lemma ReadsBackX24()
    ensures FromRegister("s8") == Some(24)
  {
    ReadsBack("s8", 24);
  }

  lemma ReadsBackX25()
    ensures FromRegister("s9") == Some(25)
  {
    ReadsBack("s9", 25);
  }

  lemma ReadsBackX26()
    ensures FromRegister("s10") == Some(26)
  {
    ReadsBack("s10", 26);
  }

  lemma ReadsBackX27()
    ensures FromRegister("s11") == Some(27)
  {
    ReadsBack("s11", 27);
  }

  lemma ReadsBackX28()
    ensures FromRegister("t3") == Some(28)
  {
    ReadsBack("t3", 28);
  }

  lemma ReadsBackX29()
    ensures FromRegister("t4") == Some(29)
  {
    ReadsBack("t4", 29);
  }

  lemma ReadsBackX30()
    ensures FromRegister("t5") == Some(30)
  {
    ReadsBack("t5", 30);
  }

  lemma ReadsBackX31()
    ensures FromRegister("t6") == Some(31)
  {
    ReadsBack("t6", 31);
  }

  /** Reading back a register's ABI name gives the register. */
  lemma FromToRegister(n: bv8)
    requires n < 32
    ensures FromRegister(ToRegister(n)) == Some(n)
  {
    if n == 0 { ReadsBackX0(); assert ToRegister(n) == "zero"; }
    else if n == 1 { ReadsBackX1(); assert ToRegister(n) == "ra"; }
    else if n == 2 { ReadsBackX2(); assert ToRegister(n) == "sp"; }
    else if n == 3 { ReadsBackX3(); assert ToRegister(n) == "gp"; }
    else if n == 4 { ReadsBackX4(); assert ToRegister(n) == "tp"; }
    else if n == 5 { ReadsBackX5(); assert ToRegister(n) == "t0"; }
    else if n == 6 { ReadsBackX6(); assert ToRegister(n) == "t1"; }
    else if n == 7 { ReadsBackX7(); assert ToRegister(n) == "t2"; }
    else if n == 8 { ReadsBackX8(); assert ToRegister(n) == "s0"; }
    else if n == 9 { ReadsBackX9(); assert ToRegister(n) == "s1"; }
    else if n == 10 { ReadsBackX10(); assert ToRegister(n) == "a0"; }
    else if n == 11 { ReadsBackX11(); assert ToRegister(n) == "a1"; }
    else if n == 12 { ReadsBackX12(); assert ToRegister(n) == "a2"; }
    else if n == 13 { ReadsBackX13(); assert ToRegister(n) == "a3"; }
    else if n == 14 { ReadsBackX14(); assert ToRegister(n) == "a4"; }
    else if n == 15 { ReadsBackX15(); assert ToRegister(n) == "a5"; }
    else if n == 16 { ReadsBackX16(); assert ToRegister(n) == "a6"; }
    else if n == 17 { ReadsBackX17(); assert ToRegister(n) == "a7"; }
    else if n == 18 { ReadsBackX18(); assert ToRegister(n) == "s2"; }
    else if n == 19 { ReadsBackX19(); assert ToRegister(n) == "s3"; }
    else if n == 20 { ReadsBackX20(); assert ToRegister(n) == "s4"; }
    else if n == 21 { ReadsBackX21(); assert ToRegister(n) == "s5"; }
    else if n == 22 { ReadsBackX22(); assert ToRegister(n) == "s6"; }
    else if n == 23 { ReadsBackX23(); assert ToRegister(n) == "s7"; }
    else if n == 24 { ReadsBackX24(); assert ToRegister(n) == "s8"; }
    else if n == 25 { ReadsBackX25(); assert ToRegister(n) == "s9"; }
    else if n == 26 { ReadsBackX26(); assert ToRegister(n) == "s10"; }
    else if n == 27 { ReadsBackX27(); assert ToRegister(n) == "s11"; }
    else if n == 28 { ReadsBackX28(); assert ToRegister(n) == "t3"; }
    else if n == 29 { ReadsBackX29(); assert ToRegister(n) == "t4"; }
    else if n == 30 { ReadsBackX30(); assert ToRegister(n) == "t5"; }
    else { ReadsBackX31(); assert ToRegister(n) == "t6"; }

  }

  /** `to_register` gives the 32 registers 32 different names, and "unknown" exactly from 32 up. */
  lemma ToRegisterDistinct(m: bv8, n: bv8)
    ensures m < 32 && n < 32 && m != n ==> ToRegister(m) != ToRegister(n)
    ensures ToRegister(m) == "unknown" <==> m >= 32
  {
    if m < 32 && n < 32 && ToRegister(m) == ToRegister(n) {
      FromToRegister(m);
      FromToRegister(n);
    }
  }

  /** A numbered name `x<n>`, in any case and with surrounding white space, is register n. */
  lemma FromNumberedRegister(name: string, digits: string)
    requires RustStr.Trim(name) == ['x'] + digits || RustStr.Trim(name) == ['X'] + digits
    requires digits != [] && AllDecimal(digits) && RustStr.Value(digits, 10) <= 31
    ensures FromRegister(name) == Some(RustStr.Value(digits, 10) as bv8)
  {
    var t := RustStr.Trim(name);
    var s := RustStr.ToLowercase(t);
    assert s[1..] == digits;
    RustStr.FromStrRadixDenotes(digits, 10, 0, 255);
  }

  predicate AllDecimal(s: string) {
    forall i :: 0 <= i < |s| ==> IsDecDigit(s[i])
  }
}

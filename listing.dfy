/**
 * The assembler read against the listing syntax: a line that spells an
 * instruction the way an assembly listing does (`x<n>` registers, decimal
 * immediates, `mnemonic op1, op2, …`) assembles back to that instruction,
 * and what becomes of a compressed line.
 */
module Listing {
  import opened Wrappers
  import opened Text
  import opened RiscvImm
  import opened Instr
  import Asm
  import RustStr
  import ParseCommon
  import ParseRvI
  import ParseRvc
  import Parse
  import Encode16
  import Lib

  /** A register as a listing names it: `x` and its number in decimal. */
  function XName(n: nat): string {
    ['x'] + RustStr.Decimal(n)
  }

  /** A listing's register name is one operand token that `parse_reg` reads back as the register. */
  lemma XNameReads(n: nat)
    requires n <= 31
    ensures Parse.Token(XName(n))
    ensures ParseCommon.ParseIntSafe(XName(n)) && ParseCommon.MemOperandSafe(XName(n))
    ensures ParseCommon.ParseRegister(XName(n)) == Ok(n as bv8)
  {
    var ds := RustStr.Decimal(n);
    var s := XName(n);
    RustStr.DecimalValue(n);
    ParseCommon.DigitsNoParens(ds);
    assert forall i :: 1 <= i < |s| ==> s[i] == ds[i - 1];
    assert forall i :: 0 <= i < |s| ==> s[i] == 'x' || RustStr.IsDigitOf(s[i], 10);
    RustStr.TrimClean(s);
    assert '(' !in s;
    Asm.FromNumberedRegister(s, ds);
  }

  /** A decimal immediate is one operand token that `parse_int` reads back as its value. */
  lemma OffsetTextReads(v: int)
    requires -ParseCommon.I64_MAX <= v <= ParseCommon.I64_MAX
    ensures Parse.Token(ParseCommon.OffsetText(v))
    ensures ParseCommon.ParseIntSafe(ParseCommon.OffsetText(v)) && ParseCommon.MemOperandSafe(ParseCommon.OffsetText(v))
    ensures ParseCommon.ParseInt(ParseCommon.OffsetText(v)) == Ok(v)
  {
    ParseCommon.OffsetTextReadsBack(v);
    var ds := RustStr.Decimal(if v >= 0 then v else -v);
    var s := ParseCommon.OffsetText(v);
    assert forall i :: 0 <= i < |s| ==> s[i] == '-' || RustStr.IsDigitOf(s[i], 10) by {
      if v < 0 {
        assert forall i :: 1 <= i < |s| ==> s[i] == ds[i - 1];
      }
    }
  }

  /** The operands `rd, rs1, imm` as a listing writes them. */
  function RegRegImmText(rd: nat, rs1: nat, imm: int): seq<string> {
    [XName(rd), XName(rs1), ParseCommon.OffsetText(imm)]
  }

  /** `rd, rs1, imm` as a listing writes them are operand tokens the parser handles without panicking. */
  lemma RegRegImmTokens(rd: nat, rs1: nat, imm: int)
    requires rd <= 31 && rs1 <= 31 && -2048 <= imm <= 2047
    ensures Parse.Tokens(RegRegImmText(rd, rs1, imm)) && ParseCommon.OperandsSafe(RegRegImmText(rd, rs1, imm))
  {
    var ops := RegRegImmText(rd, rs1, imm);
    XNameReads(rd);
    XNameReads(rs1);
    OffsetTextReads(imm);
    assert ops[0] == XName(rd) && ops[1] == XName(rs1) && ops[2] == ParseCommon.OffsetText(imm);
  }

  /**
   * `rd, rs1, imm` with an immediate in the signed 12-bit range reads back
   * as the I-type fields: both registers and the immediate's
   * two's-complement pattern.
   */
  lemma RegRegImmReads(form: string, rd: nat, rs1: nat, imm: int)
    requires rd <= 31 && rs1 <= 31 && ParseCommon.ImmSignedBits(imm, 12).Ok?
    ensures Parse.Tokens(RegRegImmText(rd, rs1, imm)) && ParseCommon.OperandsSafe(RegRegImmText(rd, rs1, imm))
    ensures ParseRvI.ParseRegRegImm(form, RegRegImmText(rd, rs1, imm))
      == Ok(Asm.IType(rd as bv8, rs1 as bv8, 0, Imm(ParseCommon.TwosComplement(imm, 12), 12)))
  {
    assert RustStr.Pow(2, 11) == 2048;
    RegRegImmTokens(rd, rs1, imm);
    XNameReads(rd);
    XNameReads(rs1);
    OffsetTextReads(imm);
  }

  /**
   * An immediate-arithmetic instruction written as a listing writes it
   * (`addi x1, x2, 10`) parses back to that instruction, at every width.
   */
  lemma OpImmLine(op: ParseRvI.OpImmOp, rd: nat, rs1: nat, imm: int, xlen: Xlen)
    requires rd <= 31 && rs1 <= 31 && ParseCommon.ImmSignedBits(imm, 12).Ok?
    ensures Parse.LineSafe(Parse.LineOf(ParseRvI.OpImmArm(op).Name(), RegRegImmText(rd, rs1, imm)))
    ensures Parse.ParseLine(Parse.LineOf(ParseRvI.OpImmArm(op).Name(), RegRegImmText(rd, rs1, imm)), xlen)
      == Ok(RV32I(ParseRvI.OpImmVariant(op, Asm.IType(rd as bv8, rs1 as bv8, 0, Imm(ParseCommon.TwosComplement(imm, 12), 12)))))
  {
    var ops := RegRegImmText(rd, rs1, imm);
    RegRegImmReads("addi rd, rs1, imm", rd, rs1, imm);
    Parse.RvILine(ParseRvI.OpImmArm(op), ops, xlen);
  }

  /**
   * A compressed line as the assembler is written: whatever its operands,
   * `assemble_with_xlen` prints an error for it, because the instruction
   * it parses to goes to `encode_u32`, which refuses every compressed one.
   */
  lemma CompressedLineRefused(op: ParseRvc.CompressedOp, ops: seq<string>, xlen: Xlen)
    requires Parse.Tokens(ops) && ParseCommon.OperandsSafe(ops)
    ensures Parse.LineSafe(Parse.LineOf(op.Name(), ops))
    ensures StartsWith(Lib.AssembleLine(Parse.LineOf(op.Name(), ops), xlen), "Error: ")
  {
    Parse.RvcLine(op, ops, xlen);
  }

  /**
   * A compressed line with compressed instructions handed to `encode_u16`:
   * when it parses and the 16-bit encoder takes it, the output is a `0x`
   * word that reads back as the 16-bit encoding, with low bits other than
   * `11`.
   */
  lemma CompressedLineEncoded(op: ParseRvc.CompressedOp, ops: seq<string>, xlen: Xlen)
    requires Parse.Tokens(ops) && ParseCommon.OperandsSafe(ops)
    ensures Parse.LineSafe(Parse.LineOf(op.Name(), ops))
    ensures var p := Parse.ParseLine(Parse.LineOf(op.Name(), ops), xlen);
      var out := Lib.AssembleLineRvc(Parse.LineOf(op.Name(), ops), xlen);
      p.Ok? ==> (p.value.RVC? && (Lib.IsHexWord(out) <==> Encode16.RvcEncoding(p.value.c, xlen).Ok?)
        && (Lib.IsHexWord(out) ==> (Lib.InputToU32(out) == Ok(Encode16.RvcEncoding(p.value.c, xlen).value as int)
          && Encode16.Quadrant(Encode16.RvcEncoding(p.value.c, xlen).value) != 3)))
  {
    Parse.RvcLine(op, ops, xlen);
  }
}

/**
 * The assembler's shared operand parsing: comment stripping, operand
 * splitting, registers, integers, two's-complement range checks and
 * `imm(reg)` memory operands.
 */
module ParseCommon {
  import opened Wrappers
  import opened Chars
  import opened Text
  import RustStr
  import Asm

  const I64_MIN: int := -0x8000_0000_0000_0000
  const I64_MAX: int := 0x7FFF_FFFF_FFFF_FFFF

  /** The parser's errors. */
  datatype ParseError =
    | MissingImmediate
    | BadImmediate(kind: RustStr.IntErrorKind)
    | RegisterForImmediate(text: string)
    | UnknownRegister(text: string)
    | ImmOutOfRange(value: int, bits: nat)
    | BadMemOperand(text: string)
    | EmptyLine
    | MissingMnemonic
    | Unsupported(mnemonic: string)
    | Usage(form: string)
    | NeedsRv64(what: string)
    | OddBranchOffset
    | ShamtOutOfRange(shamt: nat, bits: nat)
    | CsrOutOfRange
    | UimmOutOfRange
    | Addi4spnNotPositive
    | Addi4spnMisaligned
    | Addi4spnTooWide
    | BaseNotSp(mnemonic: string)

  function Signed(v: int): string {
    if v < 0 then "-" + RustStr.Decimal(-v) else RustStr.Decimal(v)
  }

  function Describe(e: ParseError): (s: string)
    ensures s != []
  {
    match e
    case MissingImmediate => "missing immediate"
    case BadImmediate(kind) => "cannot parse immediate: " + RustStr.IntErrorText(kind)
    case RegisterForImmediate(text) =>
      "expected an immediate but got a register: " + text
      + ". For instructions such as addi the third operand must be an immediate."
    case UnknownRegister(text) => "unknown register: " + text
    case ImmOutOfRange(value, bits) => "immediate out of range: " + Signed(value) + " (" + RustStr.Decimal(bits) + " bits)"
    case BadMemOperand(text) => "malformed memory operand: " + text
    case EmptyLine => "empty line"
    case MissingMnemonic => "missing mnemonic"
    case Unsupported(mnemonic) => "unsupported instruction: " + mnemonic
    case Usage(form) => "usage: " + form
    case NeedsRv64(what) => what + " is only available on RV64/128"
    case OddBranchOffset => "branch offset must be 2-byte aligned"
    case ShamtOutOfRange(shamt, bits) =>
      "shamt " + RustStr.Decimal(shamt) + " out of range (" + RustStr.Decimal(bits) + " bits)"
    case CsrOutOfRange => "csr number must be 0..0xFFF"
    case UimmOutOfRange => "uimm must be 0..31"
    case Addi4spnNotPositive => "c.addi4spn uimm must be positive and non-zero"
    case Addi4spnMisaligned => "c.addi4spn uimm must be 4-byte aligned"
    case Addi4spnTooWide => "c.addi4spn uimm exceeds 10 bits"
    case BaseNotSp(mnemonic) => mnemonic + " base register must be sp"
  }

  /**
   * `trim_comment`: the part of the line before its first `//` or `#`,
   * or the whole line when it has neither.
   */
  function TrimComment(s: string): (r: string)
    ensures |r| <= |s| && r == s[..|r|]
    ensures '#' !in r
    ensures forall i :: 0 <= i < |r| && i + 1 < |s| ==> !(s[i] == '/' && s[i + 1] == '/')
    ensures |r| == |s| || s[|r|] == '#' || (s[|r|] == '/' && |r| + 1 < |s| && s[|r| + 1] == '/')
  {
    var k := Find(s, "//");
    var a := s[..k];
    var r := a[..IndexOf(a, '#')];
    assert forall i :: 0 <= i < |r| && i + 1 < |s| ==> !(s[i] == '/' && s[i + 1] == '/') by {
      forall i | 0 <= i < |r| && i + 1 < |s|
        ensures !(s[i] == '/' && s[i + 1] == '/')
      {
        assert !Occurs(s, "//", i);
        assert s[i..i + 2] == [s[i], s[i + 1]];
      }
    }
    r
  }

  /** An operand as `split_operands` yields it: not empty and without surrounding whitespace. */
  predicate Trimmed(op: string) {
    op != [] && !RustStr.IsWhitespace(op[0]) && !RustStr.IsWhitespace(op[|op| - 1])
  }

  /** A text without surrounding whitespace is its own trim. */
  lemma TrimClean(s: string)
    requires s == [] || Trimmed(s)
    ensures RustStr.Trim(s) == s
  {
    RustStr.TrimClean(s);
  }

  /** The trimmed, non-empty pieces, in order. */
  function Clean(pieces: seq<string>): (r: seq<string>)
    ensures |r| <= |pieces|
    ensures forall k :: 0 <= k < |r| ==> Trimmed(r[k])
  {
    if pieces == [] then []
    else
      var t := RustStr.Trim(pieces[0]);
      if t == [] then Clean(pieces[1..]) else [t] + Clean(pieces[1..])
  }

  /** Every piece left by `Clean` of comma-free pieces is comma free. */
  lemma {:induction false} CleanCommaFree(pieces: seq<string>)
    requires forall k :: 0 <= k < |pieces| ==> ',' !in pieces[k]
    ensures forall k :: 0 <= k < |Clean(pieces)| ==> ',' !in Clean(pieces)[k]
  {
    if pieces != [] {
      RustStr.TrimKeepsOut(pieces[0], ',');
      CleanCommaFree(pieces[1..]);
    }
  }

  /** `split_operands`: the comma-separated pieces, trimmed, the empty ones dropped. */
  function SplitOperands(s: string): (r: seq<string>)
    ensures forall k :: 0 <= k < |r| ==> Trimmed(r[k]) && ',' !in r[k]
  {
    CleanCommaFree(SplitOn(s, ','));
    Clean(SplitOn(s, ','))
  }

  /** Operands joined by commas split back into themselves. */
  lemma SplitOperandsJoin(ops: seq<string>)
    requires |ops| >= 1
    requires forall k :: 0 <= k < |ops| ==> Trimmed(ops[k]) && ',' !in ops[k]
    ensures SplitOperands(Join(ops, [','])) == ops
  {
    SplitOnJoin(ops, ',');
    CleanKeeps(ops);
  }

  lemma {:induction false} CleanKeeps(ops: seq<string>)
    requires forall k :: 0 <= k < |ops| ==> Trimmed(ops[k]) && ',' !in ops[k]
    ensures Clean(ops) == ops
  {
    if ops != [] {
      TrimClean(ops[0]);
      CleanKeeps(ops[1..]);
      assert Clean(ops) == [ops[0]] + Clean(ops[1..]);
    }
  }

  /** `parse_register`: whatever `from_register` accepts, else an error naming the text. */
  function ParseRegister(s: string): (r: Result<bv8, ParseError>)
    ensures r.Ok? <==> Asm.FromRegister(s).Some?
    ensures r.Ok? ==> r.value == Asm.FromRegister(s).value && r.value < 32
    ensures r.Err? ==> r.error == UnknownRegister(s)
  {
    match Asm.FromRegister(s)
    case Some(v) => Ok(v)
    case None => Err(UnknownRegister(s))
  }

  /** The sign `parse_int` strips: one leading `-` or `+`. */
  function SignOf(t: string): int {
    if t != [] && t[0] == '-' then -1 else 1
  }

  function BodyOf(t: string): string {
    if t != [] && (t[0] == '-' || t[0] == '+') then t[1..] else t
  }

  predicate HexBody(b: string) {
    |b| >= 2 && b[0] == '0' && (b[1] == 'x' || b[1] == 'X')
  }

  /** The `i64` the body after the sign parses to: hexadecimal after `0x`, else decimal. */
  function Magnitude(b: string): Result<int, RustStr.IntErrorKind> {
    if HexBody(b) then RustStr.FromStrRadix(b[2..], 16, I64_MIN, I64_MAX)
    else RustStr.FromStrRadix(b, 10, I64_MIN, I64_MAX)
  }

  lemma MagnitudeRange(b: string)
    ensures Magnitude(b).Ok? ==> I64_MIN <= Magnitude(b).value <= I64_MAX
  {
    if HexBody(b) {
      RustStr.FromStrRadixDenotes(b[2..], 16, I64_MIN, I64_MAX);
    } else {
      RustStr.FromStrRadixDenotes(b, 10, I64_MIN, I64_MAX);
    }
  }

  /** `sign * v` does not overflow `i64`: only `-` applied to a body that is itself `i64::MIN` does. */
  predicate ParseIntSafe(s: string) {
    var t := RustStr.Trim(s);
    !(SignOf(t) == -1 && Magnitude(BodyOf(t)) == Ok(I64_MIN))
  }

  /**
   * `parse_int`: an empty text is `MissingImmediate`; otherwise the sign
   * times the body's value, and a body that is not a number is reported
   * as a register when it names one.
   */
  function ParseInt(s: string): (r: Result<int, ParseError>)
    requires ParseIntSafe(s)
    ensures r == Err(MissingImmediate) <==> RustStr.Trim(s) == []
    ensures r.Ok? ==> I64_MIN <= r.value <= I64_MAX
  {
    var t := RustStr.Trim(s);
    if t == [] then Err(MissingImmediate)
    else
      var b := BodyOf(t);
      MagnitudeRange(b);
      match Magnitude(b)
      case Ok(v) => Ok(SignOf(t) * v)
      case Err(e) =>
        if !HexBody(b) && Asm.FromRegister(t).Some? then Err(RegisterForImmediate(t)) else Err(BadImmediate(e))
  }

  /** A string of decimal digits is its own trim, has no sign and no `0x`. */
  lemma DigitsClean(ds: string)
    requires ds != [] && RustStr.AllDigits(ds, 10)
    ensures Trimmed(ds) && RustStr.Trim(ds) == ds
    ensures SignOf(ds) == 1 && BodyOf(ds) == ds && !HexBody(ds)
  {
    assert RustStr.IsDigitOf(ds[0], 10) && RustStr.IsDigitOf(ds[|ds| - 1], 10);
    if |ds| >= 2 {
      assert RustStr.IsDigitOf(ds[1], 10);
    }
    TrimClean(ds);
  }

  /** The digit loop reads a digit string back as its value. */
  lemma DigitsRadix(ds: string, radix: nat)
    requires RustStr.ValidRadix(radix) && ds != [] && RustStr.AllDigits(ds, radix)
    requires RustStr.Value(ds, radix) <= I64_MAX
    ensures RustStr.FromStrRadix(ds, radix, I64_MIN, I64_MAX) == Ok(RustStr.Value(ds, radix))
  {
    assert RustStr.IsDigitOf(ds[0], radix);
    assert RustStr.Denotation(ds, radix, true) == Some(RustStr.Value(ds, radix) as int);
    RustStr.FromStrRadixDenotes(ds, radix, I64_MIN, I64_MAX);
  }

  /** A decimal digit string is a decimal body worth its value. */
  lemma MagnitudeDigits(ds: string)
    requires ds != [] && RustStr.AllDigits(ds, 10) && RustStr.Value(ds, 10) <= I64_MAX
    ensures Magnitude(ds) == Ok(RustStr.Value(ds, 10) as int)
  {
    DigitsClean(ds);
    DigitsRadix(ds, 10);
  }

  /** `0x` and a hexadecimal digit string is a hexadecimal body worth the digits' value. */
  lemma MagnitudeHexDigits(hs: string)
    requires hs != [] && RustStr.AllDigits(hs, 16) && RustStr.Value(hs, 16) <= I64_MAX
    ensures Magnitude("0x" + hs) == Ok(RustStr.Value(hs, 16) as int)
  {
    var b := "0x" + hs;
    assert HexBody(b) && b[2..] == hs;
    DigitsRadix(hs, 16);
  }

  /** `parse_int` reads a decimal digit string as its value. */
  lemma ParseIntDigits(ds: string)
    requires ds != [] && RustStr.AllDigits(ds, 10) && RustStr.Value(ds, 10) <= I64_MAX
    ensures ParseIntSafe(ds)
    ensures ParseInt(ds) == Ok(RustStr.Value(ds, 10) as int)
  {
    DigitsClean(ds);
    MagnitudeDigits(ds);
  }

  /** `-` and a decimal digit string is trimmed already. */
  lemma MinusTrimmed(ds: string)
    requires ds != [] && RustStr.AllDigits(ds, 10)
    ensures RustStr.Trim("-" + ds) == "-" + ds
  {
    var s := "-" + ds;
    assert RustStr.IsDigitOf(ds[|ds| - 1], 10);
    assert s[|s| - 1] == ds[|ds| - 1];
    TrimClean(s);
  }

  /** `-` and a decimal digit string: negative, with the digits as body. */
  lemma MinusShape(ds: string)
    requires ds != [] && RustStr.AllDigits(ds, 10)
    ensures RustStr.Trim("-" + ds) == "-" + ds
    ensures SignOf("-" + ds) == -1 && BodyOf("-" + ds) == ds
  {
    MinusTrimmed(ds);
    assert ("-" + ds)[1..] == ds;
  }

  /** `parse_int` reads `-` and a decimal digit string as the negated value. */
  lemma ParseIntMinusDigits(ds: string)
    requires ds != [] && RustStr.AllDigits(ds, 10) && RustStr.Value(ds, 10) <= I64_MAX
    ensures ParseIntSafe("-" + ds)
    ensures ParseInt("-" + ds) == Ok(-(RustStr.Value(ds, 10) as int))
  {
    MinusShape(ds);
    MagnitudeDigits(ds);
  }

  /** `0x` and a hexadecimal digit string is trimmed already. */
  lemma HexTrimmed(hs: string)
    requires hs != [] && RustStr.AllDigits(hs, 16)
    ensures RustStr.Trim("0x" + hs) == "0x" + hs
  {
    var s := "0x" + hs;
    assert RustStr.IsDigitOf(hs[|hs| - 1], 16);
    assert s[|s| - 1] == hs[|hs| - 1];
    TrimClean(s);
  }

  /** `0x` and a hexadecimal digit string: positive, and its own body. */
  lemma HexShape(hs: string)
    requires hs != [] && RustStr.AllDigits(hs, 16)
    ensures RustStr.Trim("0x" + hs) == "0x" + hs
    ensures SignOf("0x" + hs) == 1 && BodyOf("0x" + hs) == "0x" + hs
  {
    HexTrimmed(hs);
  }

  /** `parse_int` reads `0x` and a hexadecimal digit string as its value. */
  lemma ParseIntHexDigits(hs: string)
    requires hs != [] && RustStr.AllDigits(hs, 16) && RustStr.Value(hs, 16) <= I64_MAX
    ensures ParseIntSafe("0x" + hs)
    ensures ParseInt("0x" + hs) == Ok(RustStr.Value(hs, 16) as int)
  {
    HexShape(hs);
    MagnitudeHexDigits(hs);
  }

  /** `parse_int` reads back a printed non-negative number. */
  lemma ParseIntDecimal(n: nat)
    requires n <= I64_MAX
    ensures ParseIntSafe(RustStr.Decimal(n))
    ensures ParseInt(RustStr.Decimal(n)) == Ok(n)
  {
    RustStr.DecimalValue(n);
    ParseIntDigits(RustStr.Decimal(n));
  }

  /** `parse_int` reads back a printed negative number. */
  lemma ParseIntNegative(n: nat)
    requires n <= I64_MAX
    ensures ParseIntSafe("-" + RustStr.Decimal(n))
    ensures ParseInt("-" + RustStr.Decimal(n)) == Ok(-(n as int))
  {
    RustStr.DecimalValue(n);
    ParseIntMinusDigits(RustStr.Decimal(n));
  }

  /** `parse_int` reads back a number printed as `0x` and fixed-width hex digits. */
  lemma ParseIntHex(n: nat, k: nat)
    requires 1 <= k && n < RustStr.Pow(16, k) && n <= I64_MAX
    ensures ParseIntSafe("0x" + RustStr.HexFixed(n, k))
    ensures ParseInt("0x" + RustStr.HexFixed(n, k)) == Ok(n)
  {
    RustStr.HexFixedValue(n, k);
    ParseIntHexDigits(RustStr.HexFixed(n, k));
  }

  /**
   * `imm_signed_bits`: a value in the signed range of `bits` bits becomes
   * its two's-complement pattern (the value modulo 2^bits); any other value
   * is an error.
   */
  function ImmSignedBits(value: int, bits: nat): (r: Result<nat, ParseError>)
    requires 1 <= bits <= 32
    ensures r.Ok? <==> -(RustStr.Pow(2, bits - 1) as int) <= value < RustStr.Pow(2, bits - 1)
    ensures r.Ok? ==> r.value < RustStr.Pow(2, bits) && (r.value - value) % RustStr.Pow(2, bits) == 0
    ensures r.Err? ==> r.error == ImmOutOfRange(value, bits)
  {
    var half := RustStr.Pow(2, bits - 1);
    var full := RustStr.Pow(2, bits);
    assert full == 2 * half;
    var min: int := -(half as int);
    var max: int := half - 1;
    if value < min || value > max then Err(ImmOutOfRange(value, bits))
    else if value >= 0 then assert (value - value) % full == 0; Ok(value)
    else assert (full + value - value) % full == 0; Ok(full + value)
  }

  /** Reading a `bits`-bit pattern as a two's-complement number. */
  function SignExtend(u: nat, bits: nat): int
    requires bits >= 1
  {
    if u >= RustStr.Pow(2, bits - 1) then u - RustStr.Pow(2, bits) else u
  }

  /** `imm_signed_bits` is undone by sign extension. */
  lemma ImmSignedBitsInverse(value: int, bits: nat)
    requires 1 <= bits <= 32
    requires ImmSignedBits(value, bits).Ok?
    ensures SignExtend(ImmSignedBits(value, bits).value, bits) == value
  {
  }

  /**
   * `parse_mem_operand` slices between `(` and `)`; a `)` before the `(`
   * makes that slice panic, and the offset is read with `parse_int`.
   */
  predicate MemOperandSafe(s: string) {
    var open := IndexOf(s, '(');
    var close := IndexOf(s, ')');
    open < |s| && close < |s| ==> open < close && ParseIntSafe(RustStr.Trim(s[..open]))
  }

  /**
   * `parse_mem_operand`: `imm(reg)` without a `(` or without a `)` is
   * malformed; then the offset, the register and the 12-bit range are
   * checked in that order.
   */
  function ParseMemOperand(s: string): (r: Result<(nat, bv8), ParseError>)
    requires MemOperandSafe(s)
    ensures '(' !in s || ')' !in s ==> r == Err(BadMemOperand(s))
    ensures r.Ok? ==> r.value.0 < 4096 && r.value.1 < 32
    ensures '(' in s && ')' in s ==>
      var open := IndexOf(s, '(');
      var close := IndexOf(s, ')');
      var off := ParseInt(RustStr.Trim(s[..open]));
      var reg := ParseRegister(s[open + 1..close]);
      && (off.Err? ==> r == Err(off.error))
      && (off.Ok? && reg.Err? ==> r == Err(reg.error))
      && (off.Ok? && reg.Ok? && !(-2048 <= off.value <= 2047) ==> r == Err(ImmOutOfRange(off.value, 12)))
      && (off.Ok? && reg.Ok? && -2048 <= off.value <= 2047
          ==> r.Ok? && r.value.1 == reg.value && SignExtend(r.value.0, 12) == off.value)
  {
    var open := IndexOf(s, '(');
    var close := IndexOf(s, ')');
    if open == |s| || close == |s| then Err(BadMemOperand(s))
    else
      var immText := RustStr.Trim(s[..open]);
      var regText := s[open + 1..close];
      match ParseInt(immText)
      case Err(e) => Err(e)
      case Ok(imm) =>
        match ParseRegister(regText)
        case Err(e) => Err(e)
        case Ok(rs) =>
          Pow2Table();
          match ImmSignedBits(imm, 12)
          case Err(e) => Err(e)
          case Ok(bits) => ImmSignedBitsInverse(imm, 12); Ok((bits, rs))
  }

  /** The powers of two the assembler's range checks use. */
  lemma Pow2Table()
    ensures RustStr.Pow(2, 4) == 16 && RustStr.Pow(2, 5) == 32 && RustStr.Pow(2, 6) == 64
    ensures RustStr.Pow(2, 11) == 2048 && RustStr.Pow(2, 12) == 4096 && RustStr.Pow(2, 13) == 8192
    ensures RustStr.Pow(2, 20) == 0x10_0000 && RustStr.Pow(2, 21) == 0x20_0000
  {
    assert RustStr.Pow(2, 0) == 1;
    assert RustStr.Pow(2, 1) == 2;
    assert RustStr.Pow(2, 2) == 4;
    assert RustStr.Pow(2, 3) == 8;
    assert RustStr.Pow(2, 4) == 16;
    assert RustStr.Pow(2, 5) == 32;
    assert RustStr.Pow(2, 6) == 64;
    assert RustStr.Pow(2, 7) == 128;
    assert RustStr.Pow(2, 8) == 256;
    assert RustStr.Pow(2, 9) == 512;
    assert RustStr.Pow(2, 10) == 1024;
    assert RustStr.Pow(2, 11) == 2048;
    assert RustStr.Pow(2, 12) == 4096;
    assert RustStr.Pow(2, 13) == 8192;
    assert RustStr.Pow(2, 14) == 0x4000;
    assert RustStr.Pow(2, 15) == 0x8000;
    assert RustStr.Pow(2, 16) == 0x1_0000;
    assert RustStr.Pow(2, 17) == 0x2_0000;
    assert RustStr.Pow(2, 18) == 0x4_0000;
    assert RustStr.Pow(2, 19) == 0x8_0000;
    assert RustStr.Pow(2, 20) == 0x10_0000;
  }

  /** No power of two up to the 32nd exceeds 2^32. */
  lemma {:induction false} Pow2Bound(k: nat)
    requires k <= 32
    ensures RustStr.Pow(2, k) <= RustStr.Pow(2, 32) == 0x1_0000_0000
    decreases 32 - k
  {
    if k < 32 {
      Pow2Bound(k + 1);
    }
    Pow2Upper();
  }

  lemma Pow2Upper()
    ensures RustStr.Pow(2, 32) == 0x1_0000_0000
  {
    Pow2Table();
    assert RustStr.Pow(2, 24) == 0x100_0000;
    assert RustStr.Pow(2, 28) == 0x1000_0000;
  }

  /**
   * `Imm::new(imm_signed_bits(value, bits)?, _)`'s bit pattern: the
   * two's-complement encoding of a value in range.
   */
  function TwosComplement(value: int, bits: nat): bv32
    requires 1 <= bits <= 32 && ImmSignedBits(value, bits).Ok?
  {
    Pow2Bound(bits);
    ImmSignedBits(value, bits).value as bv32
  }

  /** A value below 64 as a 32-bit pattern, built bit by bit. */
  function SmallBits(n: nat): (b: bv32)
    requires n < 64
    ensures b as int == n && b < 64
  {
    if n == 0 then 0
    else
      var h := SmallBits(n / 2);
      (h << 1) | (if n % 2 == 1 then 1 else 0)
  }

  /** Every operand can be given to `parse_int` and `parse_mem_operand` without a panic. */
  predicate OperandsSafe(ops: seq<string>) {
    forall k :: 0 <= k < |ops| ==> ParseIntSafe(ops[k]) && MemOperandSafe(ops[k])
  }

  /** A decimal digit string holds no parenthesis. */
  lemma DigitsNoParens(ds: string)
    requires RustStr.AllDigits(ds, 10)
    ensures '(' !in ds && ')' !in ds
  {
    forall i | 0 <= i < |ds| ensures ds[i] != '(' && ds[i] != ')' {
      assert RustStr.IsDigitOf(ds[i], 10);
    }
  }

  /** Where the parentheses of `offset(name)` are, and what lies around them. */
  lemma MemShape(p: string, name: string)
    requires '(' !in p && ')' !in p
    requires '(' !in name && ')' !in name
    ensures var s := p + "(" + name + ")";
      IndexOf(s, '(') == |p| && IndexOf(s, ')') == |s| - 1
      && s[..|p|] == p && s[|p| + 1..|s| - 1] == name
  {
    var s := p + "(" + name + ")";
    assert IndexOf(s, '(') == |p| by {
      assert s[|p|] == '(';
      assert forall i :: 0 <= i < |p| ==> s[i] == p[i];
    }
    assert IndexOf(s, ')') == |s| - 1 by {
      assert s[|s| - 1] == ')';
      assert forall i :: 0 <= i < |s| - 1 ==> s[i] != ')' by {
        forall i | 0 <= i < |s| - 1 ensures s[i] != ')' {
          if i < |p| {
            assert s[i] == p[i];
          } else if i > |p| {
            assert s[i] == name[i - |p| - 1];
          }
        }
      }
    }
    assert s[..|p|] == p;
    assert s[|p| + 1..|s| - 1] == name;
  }

  /** An offset as an assembly listing writes it: decimal digits, after `-` when negative. */
  function OffsetText(off: int): string {
    if off >= 0 then RustStr.Decimal(off) else "-" + RustStr.Decimal(-off)
  }

  /** A written offset is trimmed, holds no parenthesis, and `parse_int` reads it back. */
  lemma OffsetTextReadsBack(off: int)
    requires -I64_MAX <= off <= I64_MAX
    ensures '(' !in OffsetText(off) && ')' !in OffsetText(off)
    ensures RustStr.Trim(OffsetText(off)) == OffsetText(off)
    ensures ParseIntSafe(OffsetText(off)) && ParseInt(OffsetText(off)) == Ok(off)
  {
    if off >= 0 {
      RustStr.DecimalValue(off);
      DigitsNoParens(RustStr.Decimal(off));
      DigitsClean(RustStr.Decimal(off));
      ParseIntDecimal(off);
    } else {
      RustStr.DecimalValue(-off);
      DigitsNoParens(RustStr.Decimal(-off));
      MinusTrimmed(RustStr.Decimal(-off));
      ParseIntNegative(-off);
    }
  }

  /**
   * `offset(reg)`, with the offset written in decimal (negative ones after
   * `-`): an offset in the signed 12-bit range reads back as its
   * two's-complement pattern and the register; any other is out of range.
   */
  lemma ParseMemOperandOf(off: int, name: string, n: bv8)
    requires -I64_MAX <= off <= I64_MAX
    requires Asm.FromRegister(name) == Some(n)
    requires '(' !in name && ')' !in name
    ensures MemOperandSafe(OffsetText(off) + "(" + name + ")")
    ensures -2048 <= off <= 2047 ==> (ImmSignedBits(off, 12).Ok?
      && ParseMemOperand(OffsetText(off) + "(" + name + ")") == Ok((ImmSignedBits(off, 12).value, n))
      && SignExtend(ImmSignedBits(off, 12).value, 12) == off)
    ensures !(-2048 <= off <= 2047) ==> ParseMemOperand(OffsetText(off) + "(" + name + ")") == Err(ImmOutOfRange(off, 12))
  {
    OffsetTextReadsBack(off);
    MemShape(OffsetText(off), name);
    Pow2Table();
    if -2048 <= off <= 2047 {
      ImmSignedBitsInverse(off, 12);
    }
  }
}

/**
 * The library's entry points: reading a hexadecimal word, the width rule
 * that tells 16-bit from 32-bit instructions, disassembly at a fixed or an
 * automatically chosen register width, and the two assembly loops over the
 * lines of a text.
 */
module Lib {
  import opened Wrappers
  import opened Chars
  import opened Text
  import RustStr
  import opened RiscvImm
  import opened Instr
  import Decode32
  import Encode32
  import Encode16
  import ParseCommon
  import Parse

  const U32_LIMIT: nat := 0x1_0000_0000

  /** `is_16_bit_instruction`: the low two bits of the value are not both set. */
  predicate IsSixteenBit(value: int) {
    value % 4 != 3
  }

  /** The text `input_to_u32` hands to the parser: one leading `0x` or `0X` removed. */
  function StripHexPrefix(s: string): (r: string)
    ensures HasHexPrefix(s) ==> s == "0" + [s[1]] + r
    ensures !HasHexPrefix(s) ==> r == s
  {
    if HasHexPrefix(s) then s[2..] else s
  }

  predicate HasHexPrefix(s: string) {
    |s| >= 2 && s[0] == '0' && (s[1] == 'x' || s[1] == 'X')
  }

  /**
   * `input_to_u32`: after the prefix, `u32::from_str_radix(_, 16)`. It
   * succeeds exactly on the texts that spell (with an optional `+`) a
   * number below 2^32, and yields that number; nothing after the prefix is
   * the `Empty` error.
   */
  function InputToU32(s: string): (r: Result<int, RustStr.IntErrorKind>)
    ensures var d := RustStr.Denotation(StripHexPrefix(s), 16, false);
      r.Ok? <==> d.Some? && d.value < U32_LIMIT
    ensures r.Ok? ==> RustStr.Denotation(StripHexPrefix(s), 16, false) == Some(r.value) && 0 <= r.value < U32_LIMIT
    ensures r == Err(RustStr.Empty) <==> StripHexPrefix(s) == []
  {
    var t := StripHexPrefix(s);
    RustStr.FromStrRadixDenotes(t, 16, 0, U32_LIMIT - 1);
    RustStr.FromStrRadix(t, 16, 0, U32_LIMIT - 1)
  }

  /** `to_hex_u32`: `0x` and eight lower-case hex digits. */
  function ToHexU32(v: nat): (s: string)
    requires v < U32_LIMIT
    ensures |s| == 10 && s[..2] == "0x" && AllLowerHex(s[2..])
  {
    "0x" + RustStr.HexFixed(v, 8)
  }

  /** Reading back what `to_hex_u32` prints gives the number printed. */
  lemma HexRoundTrip(v: nat)
    requires v < U32_LIMIT
    ensures InputToU32(ToHexU32(v)) == Ok(v)
  {
    var digits := RustStr.HexFixed(v, 8);
    assert StripHexPrefix(ToHexU32(v)) == digits;
    assert RustStr.Pow(16, 8) == U32_LIMIT;
    RustStr.HexFixedValue(v, 8);
    assert IsHexDigit(digits[0]);
  }

  /** The register widths the `xlen_bits` argument may name. */
  function XlenOf(bits: nat): (x: Option<Xlen>)
    ensures x.Some? <==> bits == 32 || bits == 64 || bits == 128
    ensures x == Some(X32) <==> bits == 32
    ensures x == Some(X64) <==> bits == 64
  {
    if bits == 32 then Some(X32) else if bits == 64 then Some(X64) else if bits == 128 then Some(X128) else None
  }

  function InvalidXlen(bits: nat): string {
    "Error: invalid xlen " + RustStr.Decimal(bits) + ", must be 32, 64, or 128"
  }

  function InvalidInput(e: RustStr.IntErrorKind): string {
    "Error: invalid input: " + RustStr.IntErrorText(e)
  }

  const INVALID_16: string := "Error: invalid 16-bit instruction"
  const UNSUPPORTED_16: string := "Error: unsupported 16-bit instruction"
  const UNSUPPORTED_32: string := "Error: unsupported 32-bit instruction"

  /** A value the decoders accept as input: a `u32`, and at most 16 bits when the width rule says 16-bit. */
  predicate Decodable(value: int) {
    0 <= value < U32_LIMIT && (IsSixteenBit(value) ==> value <= 0xFFFF)
  }

  /**
   * The instruction a value decodes to at one register width: `resolve_u16`
   * of its low 16 bits when the width rule says 16-bit, `resolve_u32`
   * otherwise.
   */
  function Decoded(value: int, xlen: Xlen, c: Collaborators): Option<Instruction>
    requires Decodable(value)
  {
    if IsSixteenBit(value) then c.resolveU16((value % 0x10000) as bv16, xlen)
    else Decode32.Resolve32(value as bv32, xlen)
  }

  /** The input is a word the decoders accept and it decodes at this register width. */
  predicate DecodesAt(input: string, xlen: Xlen, c: Collaborators) {
    var v := InputToU32(input);
    v.Ok? && Decodable(v.value) && Decoded(v.value, xlen, c).Some?
  }

  /** The message of a value the decoder refuses, by the width rule. */
  function Unsupported(value: int): string {
    if IsSixteenBit(value) then UNSUPPORTED_16 else UNSUPPORTED_32
  }

  /**
   * The answer of the disassembly entry points once the register width is
   * known: an unreadable input, a 16-bit value above 0xFFFF, and a value
   * the decoder refuses are errors; otherwise the decoded instruction is
   * printed.
   */
  function DisassembleAt(input: string, xlen: Xlen, c: Collaborators): (r: string)
    ensures InputToU32(input).Err? ==> r == InvalidInput(InputToU32(input).error)
    ensures InputToU32(input).Ok? && !Decodable(InputToU32(input).value) ==> r == INVALID_16
    ensures DecodesAt(input, xlen, c) ==> r == Disassembly(Decoded(InputToU32(input).value, xlen, c).value, c)
    ensures (InputToU32(input).Ok? && Decodable(InputToU32(input).value) && !DecodesAt(input, xlen, c))
      ==> r == Unsupported(InputToU32(input).value)
  {
    match InputToU32(input)
    case Err(e) => InvalidInput(e)
    case Ok(value) =>
      if IsSixteenBit(value) && value > 0xFFFF then INVALID_16
      else
        match Decoded(value, xlen, c)
        case Some(inst) => Disassembly(inst, c)
        case None => Unsupported(value)
  }

  /** `disassemble_with_xlen`: a width other than 32, 64 and 128 is refused before the input is read. */
  function DisassembleWithXlen(input: string, xlenBits: nat, c: Collaborators): (r: string)
    ensures XlenOf(xlenBits).None? ==> r == InvalidXlen(xlenBits)
    ensures XlenOf(xlenBits).Some? ==> r == DisassembleAt(input, XlenOf(xlenBits).value, c)
  {
    match XlenOf(xlenBits)
    case None => InvalidXlen(xlenBits)
    case Some(xlen) => DisassembleAt(input, xlen, c)
  }

  /** `disassemble`: the answers of `disassemble_with_xlen` at 32 bits. */
  function Disassemble(input: string, c: Collaborators): (r: string)
    ensures r == DisassembleWithXlen(input, 32, c)
  {
    DisassembleAt(input, X32, c)
  }

  /** `try_all`: the first of the three register widths, in the order 32, 64, 128, at which `f` succeeds. */
  function TryAll(f: Xlen -> Option<string>): (r: Option<string>)
    ensures r.Some? <==> f(X32).Some? || f(X64).Some? || f(X128).Some?
    ensures f(X32).Some? ==> r == f(X32)
    ensures f(X32).None? && f(X64).Some? ==> r == f(X64)
    ensures f(X32).None? && f(X64).None? ==> r == f(X128)
  {
    if f(X32).Some? then f(X32) else if f(X64).Some? then f(X64) else f(X128)
  }

  /** The printed form of a decoded instruction, if there is one. */
  function Printed(inst: Option<Instruction>, c: Collaborators): (r: Option<string>)
    ensures r.Some? <==> inst.Some?
    ensures inst.Some? ==> r.value == Disassembly(inst.value, c)
  {
    match inst
    case Some(i) => Some(Disassembly(i, c))
    case None => None
  }

  /**
   * `disassemble_auto`: the answer of `disassemble_with_xlen` at the first
   * of 32, 64 and 128 bits at which the input decodes; when it decodes at
   * none of them, the answer at 32 bits (the errors do not depend on the
   * width).
   */
  function DisassembleAuto(input: string, c: Collaborators): (r: string)
    ensures DecodesAt(input, X32, c) ==> r == DisassembleWithXlen(input, 32, c)
    ensures !DecodesAt(input, X32, c) && DecodesAt(input, X64, c) ==> r == DisassembleWithXlen(input, 64, c)
    ensures !DecodesAt(input, X32, c) && !DecodesAt(input, X64, c) && DecodesAt(input, X128, c)
      ==> r == DisassembleWithXlen(input, 128, c)
    ensures !DecodesAt(input, X32, c) && !DecodesAt(input, X64, c) && !DecodesAt(input, X128, c)
      ==> r == DisassembleWithXlen(input, 32, c)
  {
    match InputToU32(input)
    case Err(e) => InvalidInput(e)
    case Ok(value) =>
      if IsSixteenBit(value) && value > 0xFFFF then INVALID_16
      else
        match TryAll((xlen: Xlen) => Printed(Decoded(value, xlen, c), c))
        case Some(s) => s
        case None => Unsupported(value)
  }

  /** The rendering of an encoder error in the messages of `try_one`. */
  function XlenName(xlen: Xlen): string {
    match xlen
    case X32 => "X32"
    case X64 => "X64"
    case X128 => "X128"
  }

  /** `0x` and eight lower-case hex digits: the form of every word the assembly loops print. */
  predicate IsHexWord(s: string) {
    |s| == 10 && s[..2] == "0x" && AllLowerHex(s[2..])
  }

  /** The line `assemble_with_xlen` prints for an error message. */
  function ErrorLine(message: string): (out: string)
    ensures StartsWith(out, "Error: ") && !IsHexWord(out)
  {
    var out := "Error: " + message;
    assert out[..2] == "Er";
    out
  }

  /** What `assemble_with_xlen` prints for the encoder's answer: the word in hex, which reads back as the word. */
  function EncodedOutput(encoded: Result<bv32, Encode32.EncodeError>): (out: string)
    ensures IsHexWord(out) <==> encoded.Ok?
    ensures !IsHexWord(out) ==> StartsWith(out, "Error: ")
    ensures IsHexWord(out) ==> InputToU32(out) == Ok(encoded.value as int)
  {
    match encoded
    case Ok(bits) => HexRoundTrip(bits as nat); ToHexU32(bits as nat)
    case Err(e) => ErrorLine(Encode32.Describe(e))
  }

  /** What `assemble_with_xlen` makes of a parse result: the encoded word in hex, or `Error: ` and the message. */
  function LineOutput(parsed: Result<Instruction, ParseCommon.ParseError>, xlen: Xlen): (out: string)
    ensures IsHexWord(out) <==> parsed.Ok? && Encode32.EncodeU32(parsed.value, xlen).Ok?
    ensures !IsHexWord(out) ==> StartsWith(out, "Error: ")
    ensures IsHexWord(out) ==> InputToU32(out) == Ok(Encode32.EncodeU32(parsed.value, xlen).value as int)
  {
    match parsed
    case Err(e) => ErrorLine(ParseCommon.Describe(e))
    case Ok(inst) => EncodedOutput(Encode32.EncodeU32(inst, xlen))
  }

  /**
   * What the assembly loops evidently mean to print for a compressed
   * instruction: its `encode_u16` word in the same `0x` form, which reads
   * back as that word, whose low two bits are never `11` (so the width rule
   * takes it for a 16-bit instruction). Every other parse result is printed
   * as `LineOutput` prints it.
   */
  function LineOutputRvc(parsed: Result<Instruction, ParseCommon.ParseError>, xlen: Xlen): (out: string)
    ensures !(parsed.Ok? && parsed.value.RVC?) ==> out == LineOutput(parsed, xlen)
    ensures (parsed.Ok? && parsed.value.RVC?) ==> (IsHexWord(out) <==> Encode16.RvcEncoding(parsed.value.c, xlen).Ok?)
    ensures (parsed.Ok? && parsed.value.RVC? && IsHexWord(out)) ==>
      (InputToU32(out) == Ok(Encode16.RvcEncoding(parsed.value.c, xlen).value as int) && Encode16.Quadrant(Encode16.RvcEncoding(parsed.value.c, xlen).value) != 3)
    ensures !IsHexWord(out) ==> StartsWith(out, "Error: ")
  {
    if parsed.Ok? && parsed.value.RVC? then
      match Encode16.RvcEncoding(parsed.value.c, xlen)
      case Ok(w) =>
        Encode16.RvcEncodingFitsMap(parsed.value.c, xlen);
        HexRoundTrip(w as nat);
        ToHexU32(w as nat)
      case Err(e) => ErrorLine(Encode16.Describe(e))
    else LineOutput(parsed, xlen)
  }

  /** The output of one trimmed line at one register width. */
  function AssembleLine(line: string, xlen: Xlen): string
    requires Parse.LineSafe(line)
  {
    LineOutput(Parse.ParseLine(line, xlen), xlen)
  }

  /** The output of one trimmed line with compressed instructions handed to `encode_u16`. */
  function AssembleLineRvc(line: string, xlen: Xlen): string
    requires Parse.LineSafe(line)
  {
    LineOutputRvc(Parse.ParseLine(line, xlen), xlen)
  }

  /** The per-line translation of `assemble_with_xlen`, as a value. */
  function AssemblerAt(xlen: Xlen): string --> string {
    (t: string) requires Parse.LineSafe(t) => AssembleLine(t, xlen)
  }

  /** The trimmed lines that are not empty, in order. */
  function Trimmed(lines: seq<string>): (r: seq<string>)
    ensures |r| <= |lines|
    ensures forall k :: 0 <= k < |r| ==> r[k] != []
  {
    if lines == [] then []
    else
      var t := RustStr.Trim(lines[|lines| - 1]);
      Trimmed(lines[..|lines| - 1]) + (if t == [] then [] else [t])
  }

  /** `f` is defined on every non-empty trimmed line. */
  ghost predicate DefinedOnLines(lines: seq<string>, f: string --> string) {
    forall line <- lines :: RustStr.Trim(line) != [] ==> f.requires(RustStr.Trim(line))
  }

  /** `f` of each non-empty trimmed line, in order, as the loops over `lines()` collect them. */
  function MapNonBlank(lines: seq<string>, f: string --> string): seq<string>
    requires DefinedOnLines(lines, f)
  {
    if lines == [] then []
    else
      var t := RustStr.Trim(lines[|lines| - 1]);
      MapNonBlank(lines[..|lines| - 1], f) + (if t == [] then [] else [f(t)])
  }

  /** One output per non-empty trimmed line, in order: the `k`-th output is `f` of the `k`-th such line. */
  lemma {:induction false} MapNonBlankIndexed(lines: seq<string>, f: string --> string)
    requires DefinedOnLines(lines, f)
    ensures |MapNonBlank(lines, f)| == |Trimmed(lines)|
    ensures forall k :: 0 <= k < |Trimmed(lines)| ==>
      f.requires(Trimmed(lines)[k]) && MapNonBlank(lines, f)[k] == f(Trimmed(lines)[k])
  {
    if lines != [] {
      var init := lines[..|lines| - 1];
      assert forall line <- init :: line in lines;
      MapNonBlankIndexed(init, f);
    }
  }

  /** A text whose non-empty trimmed lines are free of the operands that make the parser panic. */
  predicate InputSafe(input: string) {
    forall line <- RustStr.Lines(input) :: RustStr.Trim(line) != [] ==> Parse.LineSafe(RustStr.Trim(line))
  }

  /**
   * The loop both assembly entry points run over `input.lines()`: each line
   * is trimmed, an empty one is skipped, and `f` of the rest is collected.
   */
  method CollectNonBlank(lines: seq<string>, f: string --> string) returns (outputs: seq<string>)
    requires DefinedOnLines(lines, f)
    ensures outputs == MapNonBlank(lines, f)
  {
    outputs := [];
    for i := 0 to |lines|
      invariant DefinedOnLines(lines[..i], f)
      invariant outputs == MapNonBlank(lines[..i], f)
    {
      assert lines[..i + 1][..i] == lines[..i];
      assert forall line <- lines[..i + 1] :: line in lines;
      var trimmed := RustStr.Trim(lines[i]);
      if trimmed == [] {
        continue;
      }
      outputs := outputs + [f(trimmed)];
    }
    assert lines[..|lines|] == lines;
  }

  /**
   * `assemble_with_xlen`: a width other than 32, 64 and 128 is refused;
   * otherwise the output of each non-empty trimmed line, in order, joined
   * by newlines.
   */
  method AssembleWithXlen(input: string, xlenBits: nat) returns (out: string)
    requires InputSafe(input)
    ensures XlenOf(xlenBits).None? ==> out == InvalidXlen(xlenBits)
    ensures XlenOf(xlenBits).Some? ==>
      out == Join(MapNonBlank(RustStr.Lines(input), AssemblerAt(XlenOf(xlenBits).value)), "\n")
  {
    var xlen;
    match XlenOf(xlenBits) {
      case None => return InvalidXlen(xlenBits);
      case Some(x) => xlen := x;
    }
    var outputs := CollectNonBlank(RustStr.Lines(input), AssemblerAt(xlen));
    return Join(outputs, "\n");
  }

  /** One attempt of `try_one` at a register width: the encoded word, or the message `last_err` takes. */
  function Attempt(line: string, xlen: Xlen): (r: Result<bv32, string>)
    requires Parse.LineSafe(line)
    ensures r.Err? ==> r.error != []
  {
    match Parse.ParseLine(line, xlen)
    case Err(e) => Err(ParseCommon.Describe(e))
    case Ok(inst) =>
      match Encode32.EncodeU32(inst, xlen)
      case Ok(bits) => Ok(bits)
      case Err(e) => Err("encoding failed (" + XlenName(xlen) + "): " + Encode32.Describe(e))
  }

  /** The widths `try_one` tries, in order. */
  const AUTO_ORDER: seq<Xlen> := [X32, X64, X128]

  /** The attempts of `try_one` at each width of `AUTO_ORDER`. */
  function Attempts(line: string): (r: seq<Result<bv32, string>>)
    requires Parse.LineSafe(line)
    ensures |r| == |AUTO_ORDER|
  {
    seq(|AUTO_ORDER|, k requires 0 <= k < |AUTO_ORDER| => Attempt(line, AUTO_ORDER[k]))
  }

  /** The message `try_one` ends with when no attempt succeeds. */
  function Failure(lastErr: string): string {
    if lastErr == [] then "Error: unsupported or invalid instruction" else "Error: " + lastErr
  }

  /** The rest of `try_one` once `rs` are the attempts left and `lastErr` is the latest message. */
  function AutoOver(rs: seq<Result<bv32, string>>, lastErr: string): string {
    if rs == [] then Failure(lastErr)
    else
      match rs[0]
      case Ok(bits) => ToHexU32(bits as nat)
      case Err(e) => AutoOver(rs[1..], e)
  }

  /** `try_one`: the widths are tried in order; the first word encoded is the answer, else the last error. */
  method TryOne(line: string) returns (out: string)
    requires Parse.LineSafe(line)
    ensures out == AutoOver(Attempts(line), "")
  {
    ghost var rs := Attempts(line);
    var lastErr := "";
    for i := 0 to |AUTO_ORDER|
      invariant AutoOver(rs[i..], lastErr) == AutoOver(rs, "")
    {
      var x := AUTO_ORDER[i];
      assert rs[i] == Attempt(line, x);
      AutoOverStep(rs, i, lastErr);
      match Attempt(line, x) {
        case Ok(bits) => return ToHexU32(bits as nat);
        case Err(e) => lastErr := e;
      }
    }
    assert rs[|AUTO_ORDER|..] == [];
    if lastErr == [] {
      out := "Error: unsupported or invalid instruction";
    } else {
      out := "Error: " + lastErr;
    }
  }

  /** One step of `AutoOver` from attempt i: its word if it succeeded, else the rest with its message. */
  lemma AutoOverStep(rs: seq<Result<bv32, string>>, i: nat, lastErr: string)
    requires i < |rs|
    ensures rs[i].Ok? ==> AutoOver(rs[i..], lastErr) == ToHexU32(rs[i].value as nat)
    ensures rs[i].Err? ==> AutoOver(rs[i..], lastErr) == AutoOver(rs[i + 1..], rs[i].error)
  {
    assert rs[i..][0] == rs[i];
    assert rs[i..][1..] == rs[i + 1..];
  }

  /**
   * Over three attempts with non-empty messages, `try_one` answers with the
   * word of the first that succeeds, and otherwise with the message of the
   * last.
   */
  lemma AutoOverFirstSuccess(rs: seq<Result<bv32, string>>)
    requires |rs| == 3 && forall k :: 0 <= k < 3 && rs[k].Err? ==> rs[k].error != []
    ensures rs[0].Ok? ==> AutoOver(rs, "") == ToHexU32(rs[0].value as nat)
    ensures rs[0].Err? && rs[1].Ok? ==> AutoOver(rs, "") == ToHexU32(rs[1].value as nat)
    ensures rs[0].Err? && rs[1].Err? && rs[2].Ok? ==> AutoOver(rs, "") == ToHexU32(rs[2].value as nat)
    ensures rs[0].Err? && rs[1].Err? && rs[2].Err? ==> AutoOver(rs, "") == "Error: " + rs[2].error
  {
    var r1 := rs[1..];
    var r2 := r1[1..];
    assert r2[1..] == [];
    if rs[0].Err? {
      assert AutoOver(rs, "") == AutoOver(r1, rs[0].error);
      if r1[0].Err? {
        assert AutoOver(r1, rs[0].error) == AutoOver(r2, r1[0].error);
        if r2[0].Err? {
          assert AutoOver(r2, r1[0].error) == Failure(r2[0].error);
        }
      }
    }
  }

  /**
   * `try_one` on a line: the word of the first width, in the order 32, 64,
   * 128, at which the line parses and encodes; otherwise the error of the
   * 128-bit attempt.
   */
  lemma TryOneFirstSuccess(line: string)
    requires Parse.LineSafe(line)
    ensures var rs := Attempts(line);
      (rs[0].Ok? ==> AutoOver(rs, "") == ToHexU32(rs[0].value as nat))
      && (rs[0].Err? && rs[1].Ok? ==> AutoOver(rs, "") == ToHexU32(rs[1].value as nat))
      && (rs[0].Err? && rs[1].Err? && rs[2].Ok? ==> AutoOver(rs, "") == ToHexU32(rs[2].value as nat))
      && (rs[0].Err? && rs[1].Err? && rs[2].Err? ==> AutoOver(rs, "") == "Error: " + rs[2].error)
  {
    AutoOverFirstSuccess(Attempts(line));
  }

  /** The per-line translation of `assemble_auto`, as a value. */
  function AutoAssembler(): string --> string {
    (t: string) requires Parse.LineSafe(t) => AutoOver(Attempts(t), "")
  }

  /** `assemble_auto`: `try_one` of every non-empty trimmed line, in order, joined by newlines. */
  method AssembleAuto(input: string) returns (out: string)
    requires InputSafe(input)
    ensures out == Join(MapNonBlank(RustStr.Lines(input), AutoAssembler()), "\n")
  {
    var outputs := CollectNonBlank(RustStr.Lines(input), AutoAssembler());
    return Join(outputs, "\n");
  }
}

/**
 * The conversion half of the browser front end: the normaliser that pads
 * one hex word by its width, `processSingleInstruction`, which hands the
 * normalised word to the disassembler, and the conversion loop of
 * `handleConversion`, which disassembles every non-blank line on its own
 * under its `isProcessing` guard.
 */
module Converter {
  import opened Wrappers
  import opened Chars
  import opened Text
  import RustStr
  import Lib
  import Instr
  import opened Frontend

  /** 2^53: below it every integer is a JavaScript number exactly. */
  const SAFE_LIMIT: nat := 0x20_0000_0000_0000

  predicate EndsWith(s: string, p: string) {
    |p| <= |s| && s[|s| - |p|..] == p
  }

  /** `'0' + hexValue` when the length is odd: the text with an even number of characters. */
  function EvenPadded(d: string): (r: string)
    ensures |r| % 2 == 0 && (r == d || r == "0" + d)
  {
    if |d| % 2 != 0 then "0" + d else d
  }

  /** `parseInt` skipping the white space in front of the number. */
  function SkipSpace(s: string): string {
    if s != [] && JsSpace(s[0]) then SkipSpace(s[1..]) else s
  }

  /** The value of the run of hex digits at the start of `s`, continuing from `acc`. */
  function HexRun(s: string, acc: nat): nat {
    if s != [] && IsHexDigit(s[0]) then HexRun(s[1..], acc * 16 + HexValue(s[0])) else acc
  }

  /**
   * `parseInt(s, 16)`: leading white space skipped, one optional sign, one
   * optional `0x`/`0X`, then the longest run of hex digits; no digit at all
   * is `NaN` (`None`). A negative zero is zero.
   */
  function ParseIntHex(s: string): Option<int> {
    var t := SkipSpace(s);
    var negative := t != [] && t[0] == '-';
    var u := if t != [] && (t[0] == '+' || t[0] == '-') then t[1..] else t;
    var z := if |u| >= 2 && u[0] == '0' && (u[1] == 'x' || u[1] == 'X') then u[2..] else u;
    if z == [] || !IsHexDigit(z[0]) then None
    else
      var m: int := HexRun(z, 0);
      Some(if negative then -m else m)
  }

  /** `Number.prototype.toString(2)` of a non-negative integer. */
  function Binary(n: nat): (s: string)
    ensures s != []
  {
    if n < 2 then (if n == 0 then "0" else "1")
    else Binary(n / 2) + (if n % 2 == 0 then "0" else "1")
  }

  /**
   * The magnitude a JavaScript number keeps: exact below 2^53; above it the
   * nearest double is even, which is all the width test can see.
   */
  function AsDouble(m: nat): (d: nat)
    ensures m < SAFE_LIMIT ==> d == m
    ensures m >= SAFE_LIMIT ==> d % 2 == 0
  {
    if m < SAFE_LIMIT then m else m - m % 2
  }

  /** `toString(2)` of the number `parseInt` returned: `NaN`, or an optional `-` and binary digits. */
  function NumberToBinary(v: Option<int>): string {
    match v
    case None => "NaN"
    case Some(x) => if x < 0 then "-" + Binary(AsDouble(-x)) else Binary(AsDouble(x))
  }

  /** `binaryStr.endsWith('11')` after `padStart(32, '0')`: the front end's test for a 32-bit word. */
  predicate MarksWord32(v: Option<int>) {
    EndsWith(PadStart(NumberToBinary(v), 32, '0'), "11")
  }

  /**
   * The word `processSingleInstruction` hands to the disassembler: prefix
   * removed, padded to an even length, then to eight digits when the value
   * is marked 32-bit and to four otherwise, under a lower-case `0x`.
   */
  function Formatted(hexValue: string): string {
    var d := EvenPadded(Lib.StripHexPrefix(hexValue));
    if MarksWord32(ParseIntHex(d)) then "0x" + PadStart(d, 8, '0') else "0x" + PadStart(d, 4, '0')
  }

  lemma BinaryLast(n: nat)
    ensures Binary(n)[|Binary(n)| - 1] == if n % 2 == 0 then '0' else '1'
  {
  }

  /** The binary text ends in `11` exactly when the low two bits are set. */
  lemma BinaryEndsEleven(n: nat)
    ensures EndsWith(Binary(n), "11") <==> n % 4 == 3
  {
    if n >= 2 {
      var b := Binary(n / 2);
      var c := if n % 2 == 0 then '0' else '1';
      BinaryLast(n / 2);
      assert Binary(n) == b + [c];
      assert (b + [c])[|b + [c]| - 2..] == [b[|b| - 1], c];
      LowBits(n);
    }
  }

  lemma LowBits(n: nat)
    ensures n % 4 == 3 <==> n % 2 == 1 && (n / 2) % 2 == 1
  {
    var q, r := n / 4, n % 4;
    assert n == 4 * q + r;
    assert n / 2 == 2 * q + r / 2;
  }

  /** Zeros padded in front do not change whether a text ends in `11`. */
  lemma PaddedEndsEleven(s: string)
    ensures EndsWith(PadStart(s, 32, '0'), "11") <==> EndsWith(s, "11")
  {
    var p := PadStart(s, 32, '0');
    if |s| >= 2 {
      assert p[|p| - 2..] == p[|p| - |s|..][|s| - 2..];
    } else {
      assert p[|p| - 2] == '0';
    }
  }

  /** A sign in front does not change whether a text ends in `11`. */
  lemma SignedEndsEleven(s: string)
    requires s != []
    ensures EndsWith("-" + s, "11") <==> EndsWith(s, "11")
  {
    if |s| >= 2 {
      assert ("-" + s)[|s| - 1..] == s[|s| - 2..];
    } else {
      assert ("-" + s)[0] == '-';
    }
  }

  function Abs(x: int): nat {
    if x < 0 then -x else x
  }

  /**
   * The front end's 32-bit test holds exactly for a number (not `NaN`)
   * below 2^53 in magnitude whose low two bits are set; a larger number is
   * an even double and never passes.
   */
  lemma MarksWord32Iff(v: Option<int>)
    ensures MarksWord32(v) <==> v.Some? && Abs(v.value) < SAFE_LIMIT && Abs(v.value) % 4 == 3
  {
    PaddedEndsEleven(NumberToBinary(v));
    if v.Some? {
      var m := AsDouble(Abs(v.value));
      BinaryEndsEleven(m);
      if v.value < 0 {
        SignedEndsEleven(Binary(m));
      }
    } else {
      assert !EndsWith("NaN", "11");
    }
  }

  /** `parseInt` of a text of hex digits is its value, and `NaN` when it is empty. */
  lemma ParseIntHexDigits(d: string)
    requires AllHex(d)
    ensures d == [] ==> ParseIntHex(d) == None
    ensures d != [] ==> RustStr.AllDigits(d, 16) && ParseIntHex(d) == Some(RustStr.Value(d, 16) as int)
  {
    if d != [] {
      assert !JsSpace(d[0]);
      assert d[0] != '+' && d[0] != '-' && d[1..] != [] ==> d[1] != 'x' && d[1] != 'X';
      HexRunHorner(d, 0);
    }
  }

  lemma {:induction false} HexRunHorner(d: string, acc: nat)
    requires AllHex(d)
    ensures RustStr.AllDigits(d, 16) && HexRun(d, acc) == RustStr.Horner(d, 16, acc)
  {
    if d != [] {
      assert AllHex(d[1..]);
      HexRunHorner(d[1..], acc * 16 + HexValue(d[0]));
    }
  }

  /** Leading zeros do not change a hex value. */
  lemma {:induction false} ValueLeadingZeros(k: nat, d: string)
    requires RustStr.AllDigits(d, 16)
    ensures RustStr.AllDigits(Repeat('0', k) + d, 16)
    ensures RustStr.Value(Repeat('0', k) + d, 16) == RustStr.Value(d, 16)
  {
    if k > 0 {
      ValueLeadingZeros(k - 1, d);
      var t := Repeat('0', k - 1) + d;
      assert Repeat('0', k) + d == "0" + t;
      assert ("0" + t)[1..] == t;
      assert ("0" + t)[0] == '0' && RustStr.DigitOf('0', 16) == 0;
      assert RustStr.AllDigits("0" + t, 16) by {
        assert forall i :: 1 <= i < |"0" + t| ==> ("0" + t)[i] == t[i - 1];
      }
      assert RustStr.Horner("0" + t, 16, 0) == RustStr.Horner(t, 16, 0);
    } else {
      assert Repeat('0', k) + d == d;
    }
  }

  /** Padding hex digits with zeros in front keeps them hex digits of the same value. */
  lemma PadStartValue(d: string, n: nat)
    requires AllHex(d)
    ensures AllHex(PadStart(d, n, '0'))
    ensures d != [] ==> ParseIntHex(PadStart(d, n, '0')) == ParseIntHex(d)
    ensures d == [] && n > 0 ==> ParseIntHex(PadStart(d, n, '0')) == Some(0)
  {
    var p := PadStart(d, n, '0');
    assert AllHex(p) by {
      forall i | 0 <= i < |p|
        ensures IsHexDigit(p[i])
      {
        if i >= |p| - |d| {
          assert p[i] == p[|p| - |d|..][i - (|p| - |d|)];
        }
      }
    }
    ParseIntHexDigits(p);
    ParseIntHexDigits(d);
    if |d| < n {
      assert RustStr.AllDigits(d, 16);
      ValueLeadingZeros(n - |d|, d);
      if d == [] {
        assert p == Repeat('0', n) + [];
      }
    }
  }

  /** `d` with zeros in front of it: the shape of a padded word's digits. */
  predicate ZeroPadded(p: string, d: string) {
    |p| >= |d| && p[|p| - |d|..] == d && forall i :: 0 <= i < |p| - |d| ==> p[i] == '0'
  }

  lemma PadStartZeroPadded(d: string, e: string, n: nat)
    requires e == d || e == "0" + d
    ensures ZeroPadded(PadStart(e, n, '0'), d) && |PadStart(e, n, '0')| >= n
    ensures |e| % 2 == 0 && n % 2 == 0 ==> |PadStart(e, n, '0')| % 2 == 0
  {
    var p := PadStart(e, n, '0');
    if e != d {
      assert p[|p| - |d|..] == p[|p| - |e|..][1..];
      assert p[|p| - |e|] == '0';
    }
  }

  /**
   * `processSingleInstruction` never truncates and keeps the digits' case:
   * its word is `0x`, zeros, then the text after the prefix; the digit part
   * has even length, at least eight digits when the value is marked 32-bit
   * and at least four otherwise.
   */
  lemma FormattedShape(hexValue: string)
    ensures var d := Lib.StripHexPrefix(hexValue); var r := Formatted(hexValue);
      |r| >= 2 && r[..2] == "0x" && ZeroPadded(r[2..], d) && |r[2..]| % 2 == 0
      && |r[2..]| >= (if MarksWord32(ParseIntHex(EvenPadded(d))) then 8 else 4)
  {
    var d := Lib.StripHexPrefix(hexValue);
    var e := EvenPadded(d);
    var n := if MarksWord32(ParseIntHex(e)) then 8 else 4;
    PadStartZeroPadded(d, e, n);
    assert Formatted(hexValue)[2..] == PadStart(e, n, '0');
  }

  lemma EvenPaddedValue(d: string)
    requires AllHex(d)
    ensures AllHex(EvenPadded(d))
    ensures d != [] ==> ParseIntHex(EvenPadded(d)) == ParseIntHex(d)
  {
    if EvenPadded(d) != d {
      assert EvenPadded(d) == Repeat('0', 1) + d;
      assert AllHex(EvenPadded(d)) by {
        assert forall i :: 1 <= i < |EvenPadded(d)| ==> EvenPadded(d)[i] == d[i - 1];
      }
      ParseIntHexDigits(d);
      ParseIntHexDigits(EvenPadded(d));
      ValueLeadingZeros(1, d);
    }
  }

  /** A word of an even number of hex digits under `0x` is padded by the value it spells. */
  lemma FormattedOfDigits(p: string)
    requires AllHex(p) && |p| % 2 == 0
    ensures Formatted("0x" + p) == "0x" + PadStart(p, if MarksWord32(ParseIntHex(p)) then 8 else 4, '0')
  {
    assert Lib.StripHexPrefix("0x" + p) == p;
  }

  /** The digit part of the word `processSingleInstruction` builds. */
  function PaddedDigits(hexValue: string): string {
    var e := EvenPadded(Lib.StripHexPrefix(hexValue));
    PadStart(e, if MarksWord32(ParseIntHex(e)) then 8 else 4, '0')
  }

  lemma FormattedIsPadded(hexValue: string)
    ensures Formatted(hexValue) == "0x" + PaddedDigits(hexValue)
  {
  }

  /**
   * The digits are hex digits of even length, at least the width the value
   * calls for, and they parse as the line's digits do; an empty line gives
   * `0000`, which parses as zero.
   */
  lemma PaddedDigitsFacts(hexValue: string)
    requires AllHex(Lib.StripHexPrefix(hexValue))
    ensures var d := Lib.StripHexPrefix(hexValue); var p := PaddedDigits(hexValue);
      AllHex(p) && |p| % 2 == 0 && p != []
      && (d != [] ==> ParseIntHex(p) == ParseIntHex(d))
      && (d == [] ==> ParseIntHex(p) == Some(0) && !MarksWord32(ParseIntHex(d)))
      && |p| >= (if MarksWord32(ParseIntHex(d)) then 8 else 4)
  {
    var d := Lib.StripHexPrefix(hexValue);
    var e := EvenPadded(d);
    EvenPaddedValue(d);
    var n := if MarksWord32(ParseIntHex(e)) then 8 else 4;
    PadFacts(d, e, n);
    if d == [] {
      ParseIntHexDigits(d);
      MarksWord32Iff(None);
    }
  }

  lemma PadFacts(d: string, e: string, n: nat)
    requires AllHex(d) && AllHex(e) && (e == d || e == "0" + d) && |e| % 2 == 0 && n % 2 == 0 && n > 0
    requires d != [] ==> ParseIntHex(e) == ParseIntHex(d)
    ensures var p := PadStart(e, n, '0');
      AllHex(p) && |p| % 2 == 0 && |p| >= n
      && (d != [] ==> ParseIntHex(p) == ParseIntHex(d))
      && (d == [] ==> ParseIntHex(p) == Some(0))
  {
    PadStartZeroPadded(d, e, n);
    PadStartValue(e, n);
  }

  /** Normalising an already padded word changes nothing. */
  lemma FormattedOfPadded(p: string, v: Option<int>)
    requires AllHex(p) && |p| % 2 == 0 && ParseIntHex(p) == v
    requires |p| >= (if MarksWord32(v) then 8 else 4)
    ensures Formatted("0x" + p) == "0x" + p
  {
    FormattedOfDigits(p);
  }

  /**
   * `processSingleInstruction` is idempotent on the lines that pass the hex
   * check: normalising its own word again gives that word back.
   */
  lemma FormattedIdempotent(hexValue: string)
    requires AllHex(Lib.StripHexPrefix(hexValue))
    ensures Formatted(Formatted(hexValue)) == Formatted(hexValue)
  {
    var d := Lib.StripHexPrefix(hexValue);
    var p := PaddedDigits(hexValue);
    FormattedIsPadded(hexValue);
    PaddedDigitsFacts(hexValue);
    if d == [] {
      MarksWord32Iff(Some(0));
    }
    FormattedOfPadded(p, ParseIntHex(p));
  }

  /** Every word the byte-stream splitter emits is already in the form `processSingleInstruction` gives. */
  lemma FormattedFixesStreamWord(w: string)
    requires IsStreamWord(w)
    ensures Formatted(w) == w
  {
    var d := w[2..];
    assert w == "0x" + d;
    assert AllHex(d);
    StreamDigitsMarked(d, w[|w| - 1]);
    FormattedOfPadded(d, ParseIntHex(d));
  }

  lemma StreamDigitsMarked(d: string, last: char)
    requires (|d| == 8 || |d| == 4) && AllLowerHex(d) && d[|d| - 1] == last
    requires IsHexDigit(last) && (|d| == 8 <==> HexValue(last) % 4 == 3)
    ensures AllHex(d) && (MarksWord32(ParseIntHex(d)) <==> |d| == 8)
  {
    assert AllHex(d);
    assert RustStr.AllDigits(d, 16);
    ParseIntHexDigits(d);
    RustStr.ValueBound(d, 16);
    RustStr.LastHexDigitMod4(d);
    assert RustStr.Pow(16, 4) == 0x10000;
    assert RustStr.Pow(16, 8) == Lib.U32_LIMIT;
    MarksWord32Iff(ParseIntHex(d));
  }

  /** The library reads `0x` and hex digits as the value the digits spell. */
  lemma InputToU32OfDigits(p: string)
    requires AllHex(p) && p != [] && RustStr.AllDigits(p, 16) && RustStr.Value(p, 16) < Lib.U32_LIMIT
    ensures Lib.InputToU32("0x" + p) == Ok(RustStr.Value(p, 16) as int)
  {
    assert Lib.StripHexPrefix("0x" + p) == p;
    assert p[0] != '+' && p[0] != '-';
  }

  /**
   * For every hex line whose value fits in 32 bits, the library reads the
   * word `processSingleInstruction` hands it as that value, and the front
   * end's 32-bit test agrees with the library's width rule.
   */
  lemma FormattedAgreesWithLib(hexValue: string)
    requires AllHex(Lib.StripHexPrefix(hexValue)) && Lib.StripHexPrefix(hexValue) != []
    requires RustStr.AllDigits(Lib.StripHexPrefix(hexValue), 16)
    requires RustStr.Value(Lib.StripHexPrefix(hexValue), 16) < Lib.U32_LIMIT
    ensures var v := RustStr.Value(Lib.StripHexPrefix(hexValue), 16);
      Lib.InputToU32(Formatted(hexValue)) == Ok(v as int)
      && (MarksWord32(ParseIntHex(Lib.StripHexPrefix(hexValue))) <==> !Lib.IsSixteenBit(v))
  {
    var d := Lib.StripHexPrefix(hexValue);
    var p := PaddedDigits(hexValue);
    FormattedIsPadded(hexValue);
    PaddedDigitsFacts(hexValue);
    ParseIntHexDigits(d);
    ParseIntHexDigits(p);
    InputToU32OfDigits(p);
    MarksWord32Iff(ParseIntHex(d));
  }

  /** `processSingleInstruction`, with the disassembler as a parameter whose `Err` is a thrown error. */
  method ProcessSingleInstruction(hexValue: string, disassemble: string -> Result<string, string>)
    returns (formatted: string, result: Result<string, string>)
    ensures formatted == Formatted(hexValue) && result == disassemble(formatted)
  {
    var h := hexValue;
    if StartsWith(h, "0x") || StartsWith(h, "0X") {
      h := h[2..];
    }
    assert h == Lib.StripHexPrefix(hexValue);
    if |h| % 2 != 0 {
      h := "0" + h;
    }
    var binaryStr := PadStart(NumberToBinary(ParseIntHex(h)), 32, '0');
    if EndsWith(binaryStr, "11") {
      h := PadStart(h, 8, '0');
      formatted := "0x" + h;
    } else {
      h := PadStart(h, 4, '0');
      formatted := "0x" + h;
    }
    result := disassemble(formatted);
  }

  // ---------------------------------------------------------------------
  // handleConversion
  // ---------------------------------------------------------------------

  /** Why a conversion stops before the line loop, as the error banner shows it. */
  datatype Notice =
    | Refused(validation: Validation)
    | StreamFailed(error: StreamError)

  /**
   * The text the line loop works on: the trimmed input when it holds hex
   * lines, the splitter's words one per line when it is a byte stream; an
   * input the validation refuses, or a stream that does not split, stops
   * with a notice.
   */
  function ConversionText(raw: string): Result<string, Notice> {
    var trimmed := JsTrim(raw);
    var validation := ValidateHexInput(trimmed);
    if !IsValid(validation) then Err(Refused(validation))
    else if validation == ByteStream then
      match SplitTokens(Tokens(trimmed))
      case Ok(words) => Ok(Join(words, "\n"))
      case Err(e) => Err(StreamFailed(e))
    else Ok(trimmed)
  }

  lemma ConversionRefused(raw: string)
    requires !IsValid(ValidateHexInput(JsTrim(raw)))
    ensures ConversionText(raw) == Err(Refused(ValidateHexInput(JsTrim(raw))))
  {
  }

  lemma ConversionStream(raw: string, split: Result<seq<string>, StreamError>)
    requires ValidateHexInput(JsTrim(raw)) == ByteStream && split == SplitTokens(Tokens(JsTrim(raw)))
    ensures split.Err? ==> ConversionText(raw) == Err(StreamFailed(split.error))
    ensures split.Ok? ==> ConversionText(raw) == Ok(Join(split.value, "\n"))
  {
  }

  lemma ConversionHex(raw: string)
    requires IsValid(ValidateHexInput(JsTrim(raw))) && ValidateHexInput(JsTrim(raw)) != ByteStream
    ensures ConversionText(raw) == Ok(JsTrim(raw))
  {
  }

  /** The input-side row of one line: the normalised word, or the trimmed line when disassembly threw. */
  function RowInput(line: string, disassemble: string -> Result<string, string>): string {
    var word := Formatted(JsTrim(line));
    if disassemble(word).Ok? then word else JsTrim(line)
  }

  /** The output-side row of one line: the disassembly, or `Error: ` and the thrown message. */
  function RowResult(line: string, disassemble: string -> Result<string, string>): string {
    match disassemble(Formatted(JsTrim(line)))
    case Ok(text) => text
    case Err(message) => "Error: " + message
  }

  function RowInputs(lines: seq<string>, disassemble: string -> Result<string, string>): (r: seq<string>)
    ensures |r| == |lines|
  {
    if lines == [] then [] else RowInputs(lines[..|lines| - 1], disassemble) + [RowInput(lines[|lines| - 1], disassemble)]
  }

  function RowResults(lines: seq<string>, disassemble: string -> Result<string, string>): (r: seq<string>)
    ensures |r| == |lines|
  {
    if lines == [] then [] else RowResults(lines[..|lines| - 1], disassemble) + [RowResult(lines[|lines| - 1], disassemble)]
  }

  /** Row `k` of the columns comes from line `k` alone. */
  lemma {:induction false} RowsAt(lines: seq<string>, disassemble: string -> Result<string, string>, k: nat)
    requires k < |lines|
    ensures RowInputs(lines, disassemble)[k] == RowInput(lines[k], disassemble)
    ensures RowResults(lines, disassemble)[k] == RowResult(lines[k], disassemble)
  {
    if k < |lines| - 1 {
      RowsAt(lines[..|lines| - 1], disassemble, k);
    }
  }

  lemma RowsStep(lines: seq<string>, disassemble: string -> Result<string, string>, k: nat)
    requires k < |lines|
    ensures RowInputs(lines[..k + 1], disassemble) == RowInputs(lines[..k], disassemble) + [RowInput(lines[k], disassemble)]
    ensures RowResults(lines[..k + 1], disassemble) == RowResults(lines[..k], disassemble) + [RowResult(lines[k], disassemble)]
  {
    assert lines[..k + 1][..k] == lines[..k];
  }

  /** One step of the line loop: the row `processSingleInstruction` gives for the line. */
  lemma RowOfLine(line: string, disassemble: string -> Result<string, string>, formatted: string, result: Result<string, string>)
    requires formatted == Formatted(JsTrim(line)) && result == disassemble(formatted)
    ensures RowInput(line, disassemble) == if result.Ok? then formatted else JsTrim(line)
    ensures RowResult(line, disassemble) == if result.Ok? then result.value else "Error: " + result.error
  {
  }

  /**
   * The line loop of `handleConversion`: one row per line, in order; a line
   * whose disassembly throws records its trimmed text and the error without
   * stopping the others.
   */
  method ConvertLines(lines: seq<string>, disassemble: string -> Result<string, string>)
    returns (inputs: seq<string>, results: seq<string>)
    ensures inputs == RowInputs(lines, disassemble) && results == RowResults(lines, disassemble)
  {
    inputs, results := [], [];
    for k := 0 to |lines|
      invariant inputs == RowInputs(lines[..k], disassemble)
      invariant results == RowResults(lines[..k], disassemble)
    {
      var cleanLine := JsTrim(lines[k]);
      var formatted, result := ProcessSingleInstruction(cleanLine, disassemble);
      RowOfLine(lines[k], disassemble, formatted, result);
      RowsStep(lines, disassemble, k);
      match result {
        case Ok(text) =>
          inputs := inputs + [formatted];
          results := results + [text];
        case Err(message) =>
          inputs := inputs + [cleanLine];
          results := results + ["Error: " + message];
      }
    }
    assert lines[..|lines|] == lines;
  }

  /** The part of `handleConversion` before the line loop: trim, validate, and split a byte stream. */
  method PrepareText(raw: string) returns (r: Result<string, Notice>)
    ensures r == ConversionText(raw)
  {
    var inputValue := JsTrim(raw);
    var validation := ValidateHexInput(inputValue);
    if !IsValid(validation) {
      ConversionRefused(raw);
      return Err(Refused(validation));
    }
    if validation == ByteStream {
      var instructions := ParseByteStream(inputValue);
      ConversionStream(raw, instructions);
      if instructions.Err? {
        return Err(StreamFailed(instructions.error));
      }
      inputValue := Join(instructions.value, "\n");
    } else {
      ConversionHex(raw);
    }
    r := Ok(inputValue);
  }

  /**
   * The banner and the two columns after a conversion whose text to convert
   * is `text`, from the given ones: a notice and the old columns when it
   * stopped early, otherwise the old banner and one row per non-blank line.
   */
  function AfterConversion(text: Result<string, Notice>, disassemble: string -> Result<string, string>,
                           notice: Option<Notice>, inputs: seq<string>, results: seq<string>)
    : (Option<Notice>, seq<string>, seq<string>)
  {
    match text
    case Err(n) => (Some(n), inputs, results)
    case Ok(t) => (notice, RowInputs(NonBlankLines(t), disassemble), RowResults(NonBlankLines(t), disassemble))
  }

  // ---------------------------------------------------------------------
  // What a conversion shows, end to end
  // ---------------------------------------------------------------------

  /** A word the byte-stream splitter emits is one clean line that normalisation leaves alone. */
  lemma StreamWordClean(w: string)
    requires IsStreamWord(w)
    ensures JsTrim(w) == w && '\n' !in w && Formatted(w) == w
  {
    StreamWordTrimmed(w);
    StreamWordOneLine(w);
    FormattedFixesStreamWord(w);
  }

  lemma StreamWordTrimmed(w: string)
    requires IsStreamWord(w)
    ensures JsTrim(w) == w
  {
    assert w[0] == w[..2][0] == '0';
    TrimByClean(w, JsSpace);
  }

  lemma StreamWordOneLine(w: string)
    requires IsStreamWord(w)
    ensures '\n' !in w
  {
    forall i | 0 <= i < |w|
      ensures w[i] != '\n'
    {
      if i >= 2 {
        assert w[i] == w[2..][i - 2];
      } else {
        assert w[i] == w[..2][i];
      }
    }
  }

  /** Lines none of which is blank all survive the blank-line filter. */
  lemma {:induction false} NonBlankKeepsAll(lines: seq<string>, p: char -> bool)
    requires forall k :: 0 <= k < |lines| ==> TrimBy(lines[k], p) != []
    ensures NonBlank(lines, p) == lines
  {
    if lines != [] {
      NonBlankKeepsAll(lines[1..], p);
    }
  }

  /** Joining the emitted words with line breaks and splitting the text into non-blank lines gives the words back. */
  lemma StreamLines(ws: seq<string>)
    requires AllStreamWords(ws)
    ensures NonBlankLines(Join(ws, "\n")) == ws
  {
    forall k | 0 <= k < |ws|
      ensures '\n' !in ws[k] && JsTrim(ws[k]) != []
    {
      StreamWordClean(ws[k]);
    }
    if ws == [] {
      assert SplitOn([], '\n') == [[]];
    } else {
      SplitOnJoin(ws, '\n');
      NonBlankKeepsAll(ws, JsSpace);
    }
  }

  /** Every row of a byte stream shows the emitted word itself, whatever the disassembler does with it. */
  lemma StreamRowInputs(ws: seq<string>, disassemble: string -> Result<string, string>)
    requires AllStreamWords(ws)
    ensures RowInputs(ws, disassemble) == ws
    ensures forall k :: 0 <= k < |ws| ==>
      RowResults(ws, disassemble)[k] == (match disassemble(ws[k]) case Ok(t) => t case Err(m) => "Error: " + m)
  {
    forall k | 0 <= k < |ws|
      ensures RowInputs(ws, disassemble)[k] == ws[k]
      ensures RowResults(ws, disassemble)[k] == (match disassemble(ws[k]) case Ok(t) => t case Err(m) => "Error: " + m)
    {
      RowsAt(ws, disassemble, k);
      StreamWordClean(ws[k]);
    }
  }

  /**
   * A byte stream the splitter accepts: the banner is kept, the input
   * column lists the emitted words, one row each, and those words give
   * back the typed bytes in order, lower-cased.
   */
  lemma StreamConversion(raw: string, disassemble: string -> Result<string, string>,
                         notice: Option<Notice>, inputs: seq<string>, results: seq<string>)
    requires ValidateHexInput(JsTrim(raw)) == ByteStream
    requires SplitTokens(Tokens(JsTrim(raw))).Ok?
    ensures var ws := SplitTokens(Tokens(JsTrim(raw))).value;
      var after := AfterConversion(ConversionText(raw), disassemble, notice, inputs, results);
      after.0 == notice && after.1 == ws && |after.2| == |ws|
      && AllStreamWords(ws) && TokensOf(ws) == Lowered(Tokens(JsTrim(raw)))
  {
    var split := SplitTokens(Tokens(JsTrim(raw)));
    ConversionStream(raw, split);
    SplitTokensCases(Tokens(JsTrim(raw)));
    StreamLines(split.value);
    StreamRowInputs(split.value, disassemble);
  }

  /** A byte stream the splitter refuses: only the banner changes, and it carries the splitter's error. */
  lemma StreamFailure(raw: string, disassemble: string -> Result<string, string>,
                      notice: Option<Notice>, inputs: seq<string>, results: seq<string>)
    requires ValidateHexInput(JsTrim(raw)) == ByteStream
    requires SplitTokens(Tokens(JsTrim(raw))).Err?
    ensures AfterConversion(ConversionText(raw), disassemble, notice, inputs, results)
      == (Some(StreamFailed(SplitTokens(Tokens(JsTrim(raw))).error)), inputs, results)
  {
    ConversionStream(raw, SplitTokens(Tokens(JsTrim(raw))));
  }

  /** Input the validation refuses: only the banner changes, and it carries the validation's verdict. */
  lemma RefusedConversion(raw: string, disassemble: string -> Result<string, string>,
                          notice: Option<Notice>, inputs: seq<string>, results: seq<string>)
    requires !IsValid(ValidateHexInput(JsTrim(raw)))
    ensures AfterConversion(ConversionText(raw), disassemble, notice, inputs, results)
      == (Some(Refused(ValidateHexInput(JsTrim(raw)))), inputs, results)
  {
    ConversionRefused(raw);
  }

  /** Hex lines: the banner is kept and both columns have one row per line the validation counted. */
  lemma HexConversion(raw: string, disassemble: string -> Result<string, string>,
                      notice: Option<Notice>, inputs: seq<string>, results: seq<string>)
    requires ValidateHexInput(JsTrim(raw)).HexLines?
    ensures var after := AfterConversion(ConversionText(raw), disassemble, notice, inputs, results);
      after.0 == notice
      && |after.1| == ValidateHexInput(JsTrim(raw)).count && |after.2| == ValidateHexInput(JsTrim(raw)).count
  {
    ConversionHex(raw);
  }

  /** The page's disassembler: the library's `disassemble`, which answers every input with a text and never throws. */
  function LibDisassembler(c: Instr.Collaborators): string -> Result<string, string> {
    s => Ok(Lib.Disassemble(s, c))
  }

  /**
   * With the library as disassembler, a line holding a hex number below
   * 2^32 shows the normalised word, which the library reads as that very
   * number, and the library's disassembly of it; no row is an error row.
   */
  lemma LibRow(line: string, c: Instr.Collaborators)
    requires AllHex(Lib.StripHexPrefix(JsTrim(line))) && Lib.StripHexPrefix(JsTrim(line)) != []
    requires RustStr.AllDigits(Lib.StripHexPrefix(JsTrim(line)), 16)
    requires RustStr.Value(Lib.StripHexPrefix(JsTrim(line)), 16) < Lib.U32_LIMIT
    ensures var input := RowInput(line, LibDisassembler(c));
      Lib.InputToU32(input) == Ok(RustStr.Value(Lib.StripHexPrefix(JsTrim(line)), 16) as int)
      && RowResult(line, LibDisassembler(c)) == Lib.Disassemble(input, c)
  {
    FormattedAgreesWithLib(JsTrim(line));
  }

  /** The page state `handleConversion` works on: the guard flag, the two displayed columns and the error banner. */
  class Converter {
    var isProcessing: bool
    var inputs: seq<string>
    var results: seq<string>
    var notice: Option<Notice>

    constructor ()
      ensures !isProcessing && inputs == [] && results == [] && notice == None
    {
      isProcessing := false;
      inputs := [];
      results := [];
      notice := None;
    }

    /**
     * `handleConversion`: does nothing while a conversion is running;
     * otherwise the banner and the two columns become what
     * `AfterConversion` says for the text to convert.
     */
    method HandleConversion(raw: string, disassemble: string -> Result<string, string>)
      modifies this
      ensures old(isProcessing) ==> isProcessing && inputs == old(inputs) && results == old(results) && notice == old(notice)
      ensures !old(isProcessing) ==>
        !isProcessing
        && (notice, inputs, results) == AfterConversion(ConversionText(raw), disassemble, old(notice), old(inputs), old(results))
    {
      if isProcessing {
        return;
      }
      var text := PrepareText(raw);
      ShowConversion(text, disassemble);
    }

    /**
     * The rest of `handleConversion` once the text is prepared: the banner
     * when it stopped early; otherwise the flag is raised, the line loop
     * fills the columns, and the flag is released at once (the page
     * releases it after a delay).
     */
    method ShowConversion(text: Result<string, Notice>, disassemble: string -> Result<string, string>)
      requires !isProcessing
      modifies this
      ensures !isProcessing
      ensures (notice, inputs, results) == AfterConversion(text, disassemble, old(notice), old(inputs), old(results))
    {
      if text.Err? {
        notice := Some(text.error);
        return;
      }
      isProcessing := true;
      var lines := NonBlankLines(text.value);
      var shownInputs, shownResults := ConvertLines(lines, disassemble);
      inputs, results := shownInputs, shownResults;
      isProcessing := false;
    }
  }
}

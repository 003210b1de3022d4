/**
 * The input half of the browser front end (`www/index.js`) without its
 * page: the check that tells a byte dump from hex lines, and the splitter
 * that turns little-endian byte tokens into 16- and 32-bit words.
 */
module Frontend {
  import opened Wrappers
  import opened Chars
  import opened Text
  import RustStr
  import Lib
  import opened Instr

  /** JavaScript `\s`: the characters `trim` removes and `split(/\s+/)` splits at. */
  predicate JsSpace(c: char) {
    '\t' <= c <= '\r' || c == ' ' || c == '\U{00A0}' || c == '\U{1680}' || '\U{2000}' <= c <= '\U{200A}'
    || c == '\U{2028}' || c == '\U{2029}' || c == '\U{202F}' || c == '\U{205F}' || c == '\U{3000}'
    || c == '\U{FEFF}'
  }

  /** The characters of the class `[\r\n]`. */
  predicate IsLineBreak(c: char) {
    c == '\r' || c == '\n'
  }

  /** `String.prototype.trim`. */
  function JsTrim(s: string): string {
    TrimBy(s, JsSpace)
  }

  /** `s.padStart(n, c)`: `c` repeated in front up to length `n`; a longer `s` is kept whole. */
  function PadStart(s: string, n: nat, c: char): (r: string)
    ensures |r| == if |s| >= n then |s| else n
    ensures r[|r| - |s|..] == s
    ensures forall i :: 0 <= i < |r| - |s| ==> r[i] == c
  {
    if |s| >= n then s else Repeat(c, n - |s|) + s
  }

  /** Every word of `ws` is a non-empty run of hex digits of even length. */
  predicate EvenHexWords(ws: seq<string>) {
    forall k :: 0 <= k < |ws| ==> |ws[k]| % 2 == 0 && AllHex(ws[k])
  }

  // ---------------------------------------------------------------------
  // validateHexInput
  // ---------------------------------------------------------------------

  /** The verdict of `validateHexInput`; the message texts shown with it are not modelled. */
  datatype Validation =
    | EmptyInput
    | ByteStream
    | HexLines(count: nat)
    | BadHexLine

  predicate IsValid(v: Validation) {
    v.ByteStream? || v.HexLines?
  }

  /**
   * `/^([0-9a-fA-F]{2}[\s\r\n]*)+$/` with `sp` for the whitespace class:
   * one or more hex-digit pairs, each followed by any whitespace.
   */
  predicate PairsMatch(s: string, sp: char -> bool)
    decreases |s|
  {
    |s| >= 2 && IsHexDigit(s[0]) && IsHexDigit(s[1])
    && var rest := DropWhile(s[2..], sp);
       rest == [] || PairsMatch(rest, sp)
  }

  /** `/^(0x|0X)?[0-9a-fA-F]+$/`. */
  predicate HexLine(s: string) {
    (|s| > 2 && s[0] == '0' && (s[1] == 'x' || s[1] == 'X') && AllHex(s[2..]))
    || (s != [] && AllHex(s))
  }

  /** The text the byte-stream pattern is tried on: line-break runs, then whitespace runs, each made one space. */
  function Collapsed(s: string): string {
    ReplaceRuns(ReplaceRuns(s, IsLineBreak, ' '), JsSpace, ' ')
  }

  /** The lines `split('\n').filter(line => line.trim())` keeps. */
  function NonBlankLines(s: string): (r: seq<string>)
    ensures forall k :: 0 <= k < |r| ==> JsTrim(r[k]) != [] && '\n' !in r[k]
  {
    NonBlank(SplitOn(s, '\n'), JsSpace)
  }

  /**
   * `validateHexInput`: a text of whitespace only is empty; one whose
   * collapsed form is a run of hex pairs is a byte stream; otherwise it is
   * valid exactly when every non-blank line is a hex word, and then counts
   * those lines.
   */
  function ValidateHexInput(value: string): (r: Validation)
    ensures r == EmptyInput <==> AllSatisfy(value, JsSpace)
    ensures r == ByteStream <==> !AllSatisfy(value, JsSpace) && EvenHexWords(Words(value, JsSpace))
    ensures r.HexLines? ==>
      (r.count == |NonBlankLines(value)| && forall k :: 0 <= k < r.count ==> HexLine(JsTrim(NonBlankLines(value)[k])))
    ensures r == BadHexLine ==>
      exists k :: 0 <= k < |NonBlankLines(value)| && !HexLine(JsTrim(NonBlankLines(value)[k]))
  {
    var trimmed := JsTrim(value);
    TrimmedEmpty(value);
    if trimmed == [] then EmptyInput
    else
      ByteStreamWords(value);
      if PairsMatch(Collapsed(trimmed), JsSpace) then ByteStream
      else
        var lines := NonBlankLines(value);
        if forall k :: 0 <= k < |lines| ==> HexLine(JsTrim(lines[k])) then HexLines(|lines|) else BadHexLine
  }

  /** The byte-stream pattern accepts a text with something in it exactly when its words are hex runs of even length. */
  lemma ByteStreamWords(value: string)
    requires JsTrim(value) != []
    ensures PairsMatch(Collapsed(JsTrim(value)), JsSpace) <==> EvenHexWords(Words(value, JsSpace))
  {
    CollapsedTrimmed(value);
    PairsMatchJs(Collapsed(JsTrim(value)));
  }

  /** Trimming and collapsing keep the words and leave a first character that is not whitespace. */
  lemma CollapsedTrimmed(value: string)
    requires JsTrim(value) != []
    ensures Words(Collapsed(JsTrim(value)), JsSpace) == Words(value, JsSpace)
    ensures Collapsed(JsTrim(value)) != [] && !JsSpace(Collapsed(JsTrim(value))[0])
  {
    var trimmed := JsTrim(value);
    CollapsedWords(trimmed);
    TrimmedWords(value);
  }

  lemma PairsMatchJs(c: string)
    requires c != [] && !JsSpace(c[0])
    ensures PairsMatch(c, JsSpace) <==> EvenHexWords(Words(c, JsSpace))
  {
    assert HexNotSpace(JsSpace);
    PairsMatchWords(c, JsSpace);
  }

  /** A text trims to nothing exactly when it is all whitespace. */
  lemma TrimmedEmpty(s: string)
    ensures JsTrim(s) == [] <==> AllSatisfy(s, JsSpace)
  {
    var r := JsTrim(s);
    var i, j :| 0 <= i <= j <= |s| && r == s[i..j] && AllSatisfy(s[..i], JsSpace) && AllSatisfy(s[j..], JsSpace);
    if r == [] {
      forall k | 0 <= k < |s| ensures JsSpace(s[k]) {
        if k < i {
          assert s[..i][k] == s[k];
        } else {
          assert s[j..][k - j] == s[k];
        }
      }
    }
  }

  /** Trimming does not change the words. */
  lemma TrimmedWords(s: string)
    ensures Words(JsTrim(s), JsSpace) == Words(s, JsSpace)
  {
    var t := DropWhile(s, JsSpace);
    WordsDropWhile(s, JsSpace, JsSpace);
    WordsDropWhileEnd(t, JsSpace);
  }

  /** Collapsing whitespace runs does not change the words, nor a first character that is not whitespace. */
  lemma CollapsedWords(s: string)
    ensures Words(Collapsed(s), JsSpace) == Words(s, JsSpace)
    ensures s != [] && !JsSpace(s[0]) ==> Collapsed(s) != [] && Collapsed(s)[0] == s[0]
  {
    WordsReplaceRuns(s, JsSpace, IsLineBreak, ' ');
    WordsReplaceRuns(ReplaceRuns(s, IsLineBreak, ' '), JsSpace, JsSpace, ' ');
  }

  /** No hex digit is a separator. */
  predicate HexNotSpace(sp: char -> bool) {
    forall c :: IsHexDigit(c) ==> !sp(c)
  }

  /** A first character followed by a separator or by nothing is a word of its own. */
  lemma WordsSingle(t: string, sp: char -> bool)
    requires t != [] && !sp(t[0]) && (t[1..] == [] || sp(t[1]))
    ensures Words(t, sp) == [[t[0]]] + Words(t[1..], sp)
  {
    WordsCons(t, sp);
  }

  /** A first character followed by a non-separator starts the first word of the rest. */
  lemma WordsJoined(t: string, sp: char -> bool)
    requires |t| >= 2 && !sp(t[0]) && !sp(t[1])
    ensures Words(t[1..], sp) != []
    ensures Words(t, sp) == [[t[0]] + Words(t[1..], sp)[0]] + Words(t[1..], sp)[1..]
  {
    WordsCons(t, sp);
  }

  lemma ConsFirst(a: char, b: char, x: seq<string>, w: seq<string>)
    requires x == [[b]] + w
    ensures [[a] + x[0]] + x[1..] == [[a, b]] + w
  {
    assert x[0] == [b];
    assert [a] + [b] == [a, b];
    assert x[1..] == w;
  }

  lemma ConsFirstJoined(a: char, b: char, x: seq<string>, w: seq<string>)
    requires w != [] && x == [[b] + w[0]] + w[1..]
    ensures [[a] + x[0]] + x[1..] == [[a, b] + w[0]] + w[1..]
  {
    assert x[0] == [b] + w[0];
    assert [a] + ([b] + w[0]) == [a, b] + w[0];
    assert x[1..] == w[1..];
  }

  /** The second character of `s` alone, when a separator or nothing follows it. */
  lemma WordsSecondSingle(s: string, sp: char -> bool)
    requires |s| >= 2 && !sp(s[1]) && (s[2..] == [] || sp(s[2]))
    ensures Words(s[1..], sp) == [[s[1]]] + Words(s[2..], sp)
  {
    var s1 := s[1..];
    assert s1[1..] == s[2..];
    WordsCons(s1, sp);
  }

  /** The second character of `s` begins the first word of the rest, when a non-separator follows it. */
  lemma WordsSecondJoined(s: string, sp: char -> bool)
    requires |s| >= 3 && !sp(s[1]) && !sp(s[2])
    ensures Words(s[2..], sp) != []
    ensures Words(s[1..], sp) == [[s[1]] + Words(s[2..], sp)[0]] + Words(s[2..], sp)[1..]
  {
    var s1 := s[1..];
    assert s1[1..] == s[2..];
    WordsCons(s1, sp);
  }

  /** Two non-separators followed by a separator or by nothing: a two-character word, then the words of the rest. */
  lemma WordsPairAlone(s: string, sp: char -> bool)
    requires |s| >= 2 && !sp(s[0]) && !sp(s[1]) && (s[2..] == [] || sp(s[2]))
    ensures Words(s, sp) == [[s[0], s[1]]] + Words(s[2..], sp)
  {
    WordsSecondSingle(s, sp);
    WordsJoined(s, sp);
    ConsFirst(s[0], s[1], Words(s[1..], sp), Words(s[2..], sp));
  }

  /** Two non-separators followed by a third: they begin the first word of the rest. */
  lemma WordsPairJoined(s: string, sp: char -> bool)
    requires |s| >= 3 && !sp(s[0]) && !sp(s[1]) && !sp(s[2])
    ensures Words(s[2..], sp) != []
    ensures Words(s, sp) == [[s[0], s[1]] + Words(s[2..], sp)[0]] + Words(s[2..], sp)[1..]
  {
    WordsSecondJoined(s, sp);
    WordsJoined(s, sp);
    ConsFirstJoined(s[0], s[1], Words(s[1..], sp), Words(s[2..], sp));
  }

  /** One step of the pattern: a hex pair, then the pattern again on what follows the whitespace, if anything. */
  lemma PairsMatchStep(s: string, sp: char -> bool)
    requires |s| >= 2
    ensures PairsMatch(s, sp) <==>
      IsHexDigit(s[0]) && IsHexDigit(s[1]) && (DropWhile(s[2..], sp) == [] || PairsMatch(DropWhile(s[2..], sp), sp))
  {
  }

  lemma PairsMatchAloneFrom(s: string, sp: char -> bool, w: seq<string>, ws: seq<string>, wr: seq<string>, rest: string)
    requires |s| >= 2
    requires w == [[s[0], s[1]]] + ws && wr == ws
    requires EvenHexWords(w) <==> IsHexDigit(s[0]) && IsHexDigit(s[1]) && EvenHexWords(ws)
    requires rest == [] ==> wr == []
    requires rest != [] ==> (PairsMatch(rest, sp) <==> EvenHexWords(wr))
    requires PairsMatch(s, sp) <==> IsHexDigit(s[0]) && IsHexDigit(s[1]) && (rest == [] || PairsMatch(rest, sp))
    ensures PairsMatch(s, sp) <==> EvenHexWords(w)
  {
  }

  /** The pattern on a text that opens with a hex pair standing alone, given the pattern on what follows. */
  lemma PairsMatchAlone(s: string, sp: char -> bool)
    requires HexNotSpace(sp)
    requires |s| >= 2 && !sp(s[0]) && !sp(s[1]) && (s[2..] == [] || sp(s[2]))
    requires var rest := DropWhile(s[2..], sp);
      rest != [] ==> !sp(rest[0]) && (PairsMatch(rest, sp) <==> EvenHexWords(Words(rest, sp)))
    ensures PairsMatch(s, sp) <==> EvenHexWords(Words(s, sp))
  {
    var rest := DropWhile(s[2..], sp);
    WordsPairAlone(s, sp);
    WordsDropWhile(s[2..], sp, sp);
    EvenHexPair(s[0], s[1], Words(s[2..], sp));
    PairsMatchStep(s, sp);
    WordsOfEmpty(rest, sp);
    PairsMatchAloneFrom(s, sp, Words(s, sp), Words(s[2..], sp), Words(rest, sp), rest);
  }

  lemma WordsOfEmpty(s: string, sp: char -> bool)
    ensures s == [] ==> Words(s, sp) == []
  {
  }

  /** The pattern on a text whose first hex pair runs on into more characters, given the pattern from the third on. */
  lemma PairsMatchRun(s: string, sp: char -> bool)
    requires HexNotSpace(sp)
    requires |s| >= 3 && !sp(s[0]) && !sp(s[1]) && !sp(s[2])
    requires PairsMatch(s[2..], sp) <==> EvenHexWords(Words(s[2..], sp))
    ensures PairsMatch(s, sp) <==> EvenHexWords(Words(s, sp))
  {
    WordsPairJoined(s, sp);
    EvenHexPairJoined(s[0], s[1], Words(s[2..], sp));
    assert DropWhile(s[2..], sp) == s[2..];
  }

  /**
   * The byte-stream pattern holds of a text that starts with a non-space
   * exactly when its words are hex runs of even length.
   */
  lemma {:induction false} PairsMatchWords(s: string, sp: char -> bool)
    requires HexNotSpace(sp)
    requires s != [] && !sp(s[0])
    ensures PairsMatch(s, sp) <==> EvenHexWords(Words(s, sp))
    decreases |s|
  {
    if |s| == 1 || sp(s[1]) {
      WordsSingle(s, sp);
      assert Words(s, sp)[0] == [s[0]];
    } else if |s| == 2 || sp(s[2]) {
      var rest := DropWhile(s[2..], sp);
      if rest != [] {
        PairsMatchWords(rest, sp);
      }
      PairsMatchAlone(s, sp);
    } else {
      PairsMatchWords(s[2..], sp);
      PairsMatchRun(s, sp);
    }
  }

  lemma EvenHexPair(a: char, b: char, ws: seq<string>)
    ensures EvenHexWords([[a, b]] + ws) <==> IsHexDigit(a) && IsHexDigit(b) && EvenHexWords(ws)
  {
    EvenHexCons([a, b], ws);
    assert AllHex([a, b]) <==> IsHexDigit(a) && IsHexDigit(b) by {
      assert [a, b][0] == a && [a, b][1] == b;
    }
  }

  lemma EvenHexPairJoined(a: char, b: char, ws: seq<string>)
    requires ws != []
    ensures EvenHexWords([[a, b] + ws[0]] + ws[1..]) <==> IsHexDigit(a) && IsHexDigit(b) && EvenHexWords(ws)
  {
    var w := [a, b] + ws[0];
    EvenHexCons(w, ws[1..]);
    EvenHexCons(ws[0], ws[1..]);
    assert [ws[0]] + ws[1..] == ws;
    assert w[0] == a && w[1] == b;
    assert AllHex(w) <==> IsHexDigit(a) && IsHexDigit(b) && AllHex(ws[0]) by {
      assert forall i :: 0 <= i < |ws[0]| ==> w[i + 2] == ws[0][i];
      if IsHexDigit(a) && IsHexDigit(b) && AllHex(ws[0]) {
        forall i | 0 <= i < |w| ensures IsHexDigit(w[i]) {
          if i >= 2 {
            assert w[i] == ws[0][i - 2];
          }
        }
      }
    }
  }

  lemma EvenHexCons(w: string, ws: seq<string>)
    ensures EvenHexWords([w] + ws) <==> |w| % 2 == 0 && AllHex(w) && EvenHexWords(ws)
  {
    var all := [w] + ws;
    assert all[0] == w;
    assert forall k :: 0 <= k < |ws| ==> all[k + 1] == ws[k];
    if |w| % 2 == 0 && AllHex(w) && EvenHexWords(ws) {
      forall k | 0 <= k < |all| ensures |all[k]| % 2 == 0 && AllHex(all[k]) {
        if k > 0 {
          assert all[k] == ws[k - 1];
        }
      }
    }
  }

  // ---------------------------------------------------------------------
  // parseByteStream
  // ---------------------------------------------------------------------

  /** Why `parseByteStream` throws: a token that is not two hex digits, or too few bytes left for a word. */
  datatype StreamError = IllegalToken(token: string) | Incomplete

  /** `/^[0-9a-fA-F]{2}$/`. */
  predicate IsByteToken(t: string) {
    |t| == 2 && IsHexDigit(t[0]) && IsHexDigit(t[1])
  }

  /** Byte tokens already lower-cased, as the splitting loop reads them. */
  predicate LowerBytes(bs: seq<string>) {
    forall k :: 0 <= k < |bs| ==> IsByteToken(bs[k]) && AllLowerHex(bs[k])
  }

  /** `parseInt(t, 16)` of a byte token. */
  function ByteValue(t: string): (v: nat)
    requires IsByteToken(t)
    ensures v < 256
  {
    HexValue(t[0]) * 16 + HexValue(t[1])
  }

  /**
   * `(parseInt(b0, 16) | (parseInt(b1, 16) << 8)) & 0x3) === 0x3`; the
   * bitwise or of a byte and a multiple of 256 is their sum.
   */
  predicate MarksWide(b0: string, b1: string)
    requires IsByteToken(b0) && IsByteToken(b1)
  {
    (ByteValue(b0) + ByteValue(b1) * 256) % 4 == 3
  }

  /** The instruction-length rule reads the low two bits of the first byte, that is, of its second hex digit. */
  lemma MarksWideDigit(b0: string, b1: string)
    requires IsByteToken(b0) && IsByteToken(b1)
    ensures MarksWide(b0, b1) <==> HexValue(b0[1]) % 4 == 3
  {
    var v := ByteValue(b0) + ByteValue(b1) * 256;
    assert v == 4 * (HexValue(b0[0]) * 4 + ByteValue(b1) * 64) + HexValue(b0[1]);
  }

  /** The result of the rest of the loop, with `w` emitted in front of it. */
  function Prepend(ws: seq<string>, r: Result<seq<string>, StreamError>): Result<seq<string>, StreamError> {
    match r
    case Ok(rest) => Ok(ws + rest)
    case Err(e) => Err(e)
  }

  /**
   * The words the splitting loop emits for lower-case byte tokens, read
   * from the front: a first byte whose two low bits are set starts a
   * 32-bit word of four bytes, any other a 16-bit word of two; each word is
   * written most significant byte first.
   */
  function Segments(bs: seq<string>): (r: Result<seq<string>, StreamError>)
    requires LowerBytes(bs)
    ensures r.Err? ==> r.error == Incomplete
    decreases |bs|
  {
    if bs == [] then Ok([])
    else if |bs| < 2 then Err(Incomplete)
    else if MarksWide(bs[0], bs[1]) then
      if |bs| < 4 then Err(Incomplete)
      else Prepend([Wide(bs[0], bs[1], bs[2], bs[3])], Segments(bs[4..]))
    else Prepend([Narrow(bs[0], bs[1])], Segments(bs[2..]))
  }

  /** The 32-bit word of four little-endian bytes, as the loop writes it. */
  function Wide(b0: string, b1: string, b2: string, b3: string): string {
    "0x" + PadStart(LowerAscii(b3 + b2 + b1 + b0), 8, '0')
  }

  /** The 16-bit word of two little-endian bytes, as the loop writes it. */
  function Narrow(b0: string, b1: string): string {
    "0x" + PadStart(LowerAscii(b1 + b0), 4, '0')
  }

  /** One step of the loop at position `i`: the word there, or `Incomplete` when too few bytes are left. */
  lemma SegmentsStep(bs: seq<string>, i: nat)
    requires LowerBytes(bs) && i + 1 < |bs|
    ensures LowerBytes(bs[i..])
    ensures MarksWide(bs[i], bs[i + 1]) && i + 3 >= |bs| ==> Segments(bs[i..]) == Err(Incomplete)
    ensures MarksWide(bs[i], bs[i + 1]) && i + 3 < |bs| ==>
      LowerBytes(bs[i + 4..]) && Segments(bs[i..]) == Prepend([Wide(bs[i], bs[i + 1], bs[i + 2], bs[i + 3])], Segments(bs[i + 4..]))
    ensures !MarksWide(bs[i], bs[i + 1]) ==>
      LowerBytes(bs[i + 2..]) && Segments(bs[i..]) == Prepend([Narrow(bs[i], bs[i + 1])], Segments(bs[i + 2..]))
  {
    var t := bs[i..];
    assert t[0] == bs[i] && t[1] == bs[i + 1];
    if i + 3 < |bs| {
      assert t[2] == bs[i + 2] && t[3] == bs[i + 3];
      assert t[4..] == bs[i + 4..];
    }
    assert t[2..] == bs[i + 2..];
  }

  /** The first token that is not a byte, or the number of tokens when all are bytes. */
  function FirstIllegal(ts: seq<string>): (k: nat)
    ensures k <= |ts|
    ensures forall j :: 0 <= j < k ==> IsByteToken(ts[j])
    ensures k < |ts| ==> !IsByteToken(ts[k])
  {
    if ts == [] || !IsByteToken(ts[0]) then 0 else 1 + FirstIllegal(ts[1..])
  }

  /** `tokens.map(t => t.toLowerCase())`. */
  function Lowered(ts: seq<string>): (r: seq<string>)
    ensures |r| == |ts|
    ensures forall k :: 0 <= k < |ts| ==> r[k] == LowerAscii(ts[k])
  {
    seq(|ts|, k requires 0 <= k < |ts| => LowerAscii(ts[k]))
  }

  /** Lower-casing byte tokens gives lower-case byte tokens of the same value. */
  lemma LoweredBytes(ts: seq<string>)
    requires forall k :: 0 <= k < |ts| ==> IsByteToken(ts[k])
    ensures LowerBytes(Lowered(ts))
    ensures forall k :: 0 <= k < |ts| ==> ByteValue(Lowered(ts)[k]) == ByteValue(ts[k])
  {
    forall k | 0 <= k < |ts|
      ensures IsByteToken(Lowered(ts)[k]) && AllLowerHex(Lowered(ts)[k]) && ByteValue(Lowered(ts)[k]) == ByteValue(ts[k])
    {
      LowerHexDigit(ts[k][0]);
      LowerHexDigit(ts[k][1]);
    }
  }

  /**
   * What `parseByteStream` returns or throws for its tokens: no tokens give
   * no words; the first token that is not two hex digits is reported;
   * otherwise the words of the lower-cased tokens.
   */
  function SplitTokens(tokens: seq<string>): Result<seq<string>, StreamError> {
    if tokens == [] then Ok([])
    else
      var k := FirstIllegal(tokens);
      if k < |tokens| then Err(IllegalToken(tokens[k]))
      else
        LoweredBytes(tokens);
        Segments(Lowered(tokens))
  }

  /** The tokens of `parseByteStream`: `value.replace(/\r\n/g, '\n').split(/\s+/).filter(Boolean)`. */
  function Tokens(value: string): seq<string> {
    Words(value, JsSpace)
  }

  /** `parseByteStream`. */
  method ParseByteStream(value: string) returns (r: Result<seq<string>, StreamError>)
    ensures r == SplitTokens(Tokens(value))
  {
    var tokens := Words(value, JsSpace);
    r := SplitTokensLoop(tokens);
  }

  /** The body of `parseByteStream` once the text is split into tokens. */
  method SplitTokensLoop(tokens: seq<string>) returns (r: Result<seq<string>, StreamError>)
    ensures r == SplitTokens(tokens)
  {
    if |tokens| == 0 {
      return Ok([]);
    }
    for k := 0 to |tokens|
      invariant forall j :: 0 <= j < k ==> IsByteToken(tokens[j])
    {
      if !IsByteToken(tokens[k]) {
        return Err(IllegalToken(tokens[k]));
      }
    }
    LoweredBytes(tokens);
    r := SplitBytes(Lowered(tokens));
  }

  /** The splitting loop of `parseByteStream`, over the lower-cased tokens. */
  method SplitBytes(lower: seq<string>) returns (r: Result<seq<string>, StreamError>)
    requires LowerBytes(lower)
    ensures r == Segments(lower)
  {
    var instructions: seq<string> := [];
    var i := 0;
    assert lower[0..] == lower;
    assert Prepend([], Segments(lower)) == Segments(lower) by {
      if Segments(lower).Ok? {
        assert [] + Segments(lower).value == Segments(lower).value;
      }
    }
    while i < |lower|
      invariant 0 <= i <= |lower|
      invariant Segments(lower) == Prepend(instructions, Segments(lower[i..]))
      decreases |lower| - i
    {
      if i + 1 >= |lower| {
        return Err(Incomplete);
      }
      SegmentsStep(lower, i);
      var b0, b1 := lower[i], lower[i + 1];
      if MarksWide(b0, b1) {
        if i + 3 >= |lower| {
          return Err(Incomplete);
        }
        var b2, b3 := lower[i + 2], lower[i + 3];
        var hexBE := LowerAscii(b3 + b2 + b1 + b0);
        PrependTwice(instructions, Wide(b0, b1, b2, b3), Segments(lower[i + 4..]));
        instructions := instructions + ["0x" + PadStart(hexBE, 8, '0')];
        i := i + 4;
      } else {
        var hexBE := LowerAscii(b1 + b0);
        PrependTwice(instructions, Narrow(b0, b1), Segments(lower[i + 2..]));
        instructions := instructions + ["0x" + PadStart(hexBE, 4, '0')];
        i := i + 2;
      }
    }
    assert lower[i..] == [];
    assert instructions + [] == instructions;
    return Ok(instructions);
  }

  lemma PrependTwice(ws: seq<string>, w: string, r: Result<seq<string>, StreamError>)
    ensures Prepend(ws, Prepend([w], r)) == Prepend(ws + [w], r)
  {
    if r.Ok? {
      assert ws + ([w] + r.value) == (ws + [w]) + r.value;
    }
  }

  /**
   * The form of every word the splitter emits: `0x` and eight or four
   * lower-case hex digits, eight exactly when the low two bits of the last
   * digit (the first byte's) are set.
   */
  predicate IsStreamWord(w: string) {
    (|w| == 10 || |w| == 6) && w[..2] == "0x" && AllLowerHex(w[2..])
    && IsHexDigit(w[|w| - 1]) && (|w| == 10 <==> HexValue(w[|w| - 1]) % 4 == 3)
  }

  predicate AllStreamWords(ws: seq<string>) {
    forall k :: 0 <= k < |ws| ==> IsStreamWord(ws[k])
  }

  /** A hex text split into byte tokens from its end: the least significant byte first. */
  function LittleEndian(d: string): (r: seq<string>)
    decreases |d|
  {
    if |d| < 2 then [] else [d[|d| - 2..]] + LittleEndian(d[..|d| - 2])
  }

  /** The byte tokens the words stand for, in stream order. */
  function TokensOf(ws: seq<string>): seq<string>
    requires AllStreamWords(ws)
  {
    if ws == [] then [] else LittleEndian(ws[0][2..]) + TokensOf(ws[1..])
  }

  /** How many bytes the words hold: four for a 32-bit word, two for a 16-bit one. */
  function ByteCount(ws: seq<string>): nat
    requires AllStreamWords(ws)
  {
    if ws == [] then 0 else (|ws[0]| - 2) / 2 + ByteCount(ws[1..])
  }

  /** Splitting from the end peels off the last two digits first. */
  lemma LittleEndianSnoc(d: string, b: string)
    requires |b| == 2
    ensures LittleEndian(d + b) == [b] + LittleEndian(d)
  {
    assert (d + b)[|d + b| - 2..] == b;
    assert (d + b)[..|d + b| - 2] == d;
  }

  lemma AllLowerHexConcat(a: string, b: string)
    requires AllLowerHex(a) && AllLowerHex(b)
    ensures AllLowerHex(a + b)
  {
    assert forall i :: |a| <= i < |a + b| ==> (a + b)[i] == b[i - |a|];
  }

  /** Lower-case hex already at the padded width comes out as it went in. */
  lemma PaddedLowerHex(d: string, n: nat)
    requires AllLowerHex(d) && |d| == n
    ensures PadStart(LowerAscii(d), n, '0') == d
  {
    LowerAsciiOfLowerHex(d);
  }

  lemma WideText(b0: string, b1: string, b2: string, b3: string)
    requires IsByteToken(b0) && IsByteToken(b1) && IsByteToken(b2) && IsByteToken(b3)
    requires AllLowerHex(b0) && AllLowerHex(b1) && AllLowerHex(b2) && AllLowerHex(b3)
    ensures Wide(b0, b1, b2, b3) == "0x" + (b3 + b2 + b1 + b0)
    ensures LittleEndian(b3 + b2 + b1 + b0) == [b0, b1, b2, b3]
  {
    AllLowerHexConcat(b3, b2);
    AllLowerHexConcat(b3 + b2, b1);
    AllLowerHexConcat(b3 + b2 + b1, b0);
    PaddedLowerHex(b3 + b2 + b1 + b0, 8);
    LittleEndianSnoc(b3 + b2 + b1, b0);
    LittleEndianSnoc(b3 + b2, b1);
    LittleEndianSnoc(b3, b2);
    LittleEndianSnoc([], b3);
    assert [] + b3 == b3;
  }

  lemma NarrowText(b0: string, b1: string)
    requires IsByteToken(b0) && IsByteToken(b1) && AllLowerHex(b0) && AllLowerHex(b1)
    ensures Narrow(b0, b1) == "0x" + (b1 + b0)
    ensures LittleEndian(b1 + b0) == [b0, b1]
  {
    AllLowerHexConcat(b1, b0);
    PaddedLowerHex(b1 + b0, 4);
    LittleEndianSnoc(b1, b0);
    LittleEndianSnoc([], b1);
    assert [] + b1 == b1;
  }

  /** A 32-bit word is a stream word that gives back its four bytes. */
  lemma WideWord(b0: string, b1: string, b2: string, b3: string)
    requires IsByteToken(b0) && IsByteToken(b1) && IsByteToken(b2) && IsByteToken(b3)
    requires AllLowerHex(b0) && AllLowerHex(b1) && AllLowerHex(b2) && AllLowerHex(b3)
    requires MarksWide(b0, b1)
    ensures var w := Wide(b0, b1, b2, b3);
      IsStreamWord(w) && |w| == 10 && LittleEndian(w[2..]) == [b0, b1, b2, b3]
  {
    WideText(b0, b1, b2, b3);
    MarksWideDigit(b0, b1);
    var w := Wide(b0, b1, b2, b3);
    assert w[2..] == b3 + b2 + b1 + b0;
    assert w[9] == b0[1];
  }

  /** A 16-bit word is a stream word that gives back its two bytes. */
  lemma NarrowWord(b0: string, b1: string)
    requires IsByteToken(b0) && IsByteToken(b1) && AllLowerHex(b0) && AllLowerHex(b1)
    requires !MarksWide(b0, b1)
    ensures var w := Narrow(b0, b1);
      IsStreamWord(w) && |w| == 6 && LittleEndian(w[2..]) == [b0, b1]
  {
    NarrowText(b0, b1);
    MarksWideDigit(b0, b1);
    var w := Narrow(b0, b1);
    assert w[2..] == b1 + b0;
    assert w[5] == b0[1];
  }

  /** Joins a first word and the rest of the result. */
  lemma PrependOk(bs: seq<string>, w: string, r: Result<seq<string>, StreamError>)
    requires LowerBytes(bs) && Segments(bs) == Prepend([w], r) && Segments(bs).Ok?
    ensures r.Ok? && Segments(bs).value == [w] + r.value
  {
  }

  /** What the first step of the splitter gives: a stream word for the first `n` bytes, then the rest. */
  predicate HeadStep(bs: seq<string>, w: string, n: nat)
    requires LowerBytes(bs) && Segments(bs).Ok?
  {
    n <= |bs| && LowerBytes(bs[n..]) && Segments(bs[n..]).Ok?
    && Segments(bs).value == [w] + Segments(bs[n..]).value
    && IsStreamWord(w) && LittleEndian(w[2..]) == bs[..n] && (|w| - 2) / 2 == n
  }

  /** The splitter's first step, with the word it emits left abstract. */
  lemma HeadStepFrom(bs: seq<string>, w: string, n: nat)
    requires LowerBytes(bs) && Segments(bs).Ok? && n <= |bs|
    requires LowerBytes(bs[n..]) && Segments(bs[n..]).Ok? && Segments(bs).value == [w] + Segments(bs[n..]).value
    requires IsStreamWord(w) && LittleEndian(w[2..]) == bs[..n] && (|w| - 2) / 2 == n
    ensures HeadStep(bs, w, n)
  {
  }

  lemma WideUnfold(bs: seq<string>)
    requires LowerBytes(bs) && Segments(bs).Ok? && |bs| >= 2 && MarksWide(bs[0], bs[1])
    ensures |bs| >= 4 && LowerBytes(bs[4..]) && Segments(bs[4..]).Ok?
    ensures Segments(bs).value == [Wide(bs[0], bs[1], bs[2], bs[3])] + Segments(bs[4..]).value
  {
    SegmentsStep(bs, 0);
    assert bs[0..] == bs;
    PrependOk(bs, Wide(bs[0], bs[1], bs[2], bs[3]), Segments(bs[4..]));
  }

  lemma WideBytes(bs: seq<string>)
    requires LowerBytes(bs) && |bs| >= 4 && MarksWide(bs[0], bs[1])
    ensures var w := Wide(bs[0], bs[1], bs[2], bs[3]);
      IsStreamWord(w) && LittleEndian(w[2..]) == bs[..4] && (|w| - 2) / 2 == 4
  {
    WideWord(bs[0], bs[1], bs[2], bs[3]);
    assert bs[..4] == [bs[0], bs[1], bs[2], bs[3]];
  }

  lemma NarrowUnfold(bs: seq<string>)
    requires LowerBytes(bs) && Segments(bs).Ok? && |bs| >= 2 && !MarksWide(bs[0], bs[1])
    ensures LowerBytes(bs[2..]) && Segments(bs[2..]).Ok?
    ensures Segments(bs).value == [Narrow(bs[0], bs[1])] + Segments(bs[2..]).value
  {
    SegmentsStep(bs, 0);
    assert bs[0..] == bs;
    PrependOk(bs, Narrow(bs[0], bs[1]), Segments(bs[2..]));
  }

  lemma NarrowBytes(bs: seq<string>)
    requires LowerBytes(bs) && |bs| >= 2 && !MarksWide(bs[0], bs[1])
    ensures var w := Narrow(bs[0], bs[1]);
      IsStreamWord(w) && LittleEndian(w[2..]) == bs[..2] && (|w| - 2) / 2 == 2
  {
    NarrowWord(bs[0], bs[1]);
    assert bs[..2] == [bs[0], bs[1]];
  }

  /** The first word the splitter emits, and how many bytes it took. */
  lemma SegmentsHead(bs: seq<string>) returns (w: string, n: nat)
    requires LowerBytes(bs) && Segments(bs).Ok? && bs != []
    ensures HeadStep(bs, w, n)
  {
    assert |bs| >= 2;
    if MarksWide(bs[0], bs[1]) {
      WideUnfold(bs);
      WideBytes(bs);
      w, n := Wide(bs[0], bs[1], bs[2], bs[3]), 4;
    } else {
      NarrowUnfold(bs);
      NarrowBytes(bs);
      w, n := Narrow(bs[0], bs[1]), 2;
    }
    HeadStepFrom(bs, w, n);
  }

  /**
   * The words the splitter emits all have the stream-word form, hold every
   * byte once, and give back the byte tokens in order.
   */
  lemma {:induction false} SegmentsRoundTrip(bs: seq<string>)
    requires LowerBytes(bs) && Segments(bs).Ok?
    ensures AllStreamWords(Segments(bs).value)
    ensures TokensOf(Segments(bs).value) == bs && ByteCount(Segments(bs).value) == |bs|
    decreases |bs|
  {
    if bs != [] {
      var w, n := SegmentsHead(bs);
      SegmentsRoundTrip(bs[n..]);
      StreamWordsCons(w, Segments(bs[n..]).value, bs, n);
    }
  }

  lemma StreamWordsCons(w: string, rest: seq<string>, bs: seq<string>, n: nat)
    requires IsStreamWord(w) && n <= |bs| && AllStreamWords(rest)
    requires LittleEndian(w[2..]) == bs[..n] && (|w| - 2) / 2 == n
    requires TokensOf(rest) == bs[n..] && ByteCount(rest) == |bs| - n
    ensures AllStreamWords([w] + rest)
    ensures TokensOf([w] + rest) == bs && ByteCount([w] + rest) == |bs|
  {
    assert ([w] + rest)[1..] == rest;
    assert bs[..n] + bs[n..] == bs;
  }

  /**
   * The library reads every stream word as the value it spells, and its
   * width rule agrees with the word's length: eight digits exactly for a
   * 32-bit value, and a four-digit word fits in 16 bits.
   */
  lemma StreamWordDecodable(w: string)
    requires IsStreamWord(w)
    ensures Lib.InputToU32(w).Ok?
    ensures |w| == 10 <==> !Lib.IsSixteenBit(Lib.InputToU32(w).value)
    ensures Lib.Decodable(Lib.InputToU32(w).value)
  {
    var d := w[2..];
    assert Lib.StripHexPrefix(w) == d;
    assert RustStr.AllDigits(d, 16);
    assert d[0] != '+' && d[0] != '-';
    RustStr.ValueBound(d, 16);
    RustStr.LastHexDigitMod4(d);
    assert d[|d| - 1] == w[|w| - 1];
    assert RustStr.Pow(16, 4) == 0x10000;
    assert RustStr.Pow(16, 8) == Lib.U32_LIMIT;
  }

  /**
   * The error cases of `parseByteStream`: it reports a token exactly when
   * some token is not two hex digits, and then the first such; otherwise it
   * splits the lower-cased tokens, and what it emits gives them back in
   * order.
   */
  lemma SplitTokensCases(tokens: seq<string>)
    ensures SplitTokens(tokens).Err? && SplitTokens(tokens).error.IllegalToken? <==>
      exists k :: 0 <= k < |tokens| && !IsByteToken(tokens[k])
    ensures SplitTokens(tokens).Err? && SplitTokens(tokens).error.IllegalToken? ==>
      var k := FirstIllegal(tokens);
      k < |tokens| && SplitTokens(tokens).error.token == tokens[k] && forall j :: 0 <= j < k ==> IsByteToken(tokens[j])
    ensures tokens == [] ==> SplitTokens(tokens) == Ok([])
    ensures SplitTokens(tokens).Ok? ==>
      (forall k :: 0 <= k < |tokens| ==> IsByteToken(tokens[k]))
      && AllStreamWords(SplitTokens(tokens).value) && TokensOf(SplitTokens(tokens).value) == Lowered(tokens)
  {
    if tokens != [] && FirstIllegal(tokens) == |tokens| {
      LoweredBytes(tokens);
      if Segments(Lowered(tokens)).Ok? {
        SegmentsRoundTrip(Lowered(tokens));
      }
    }
  }

  /** When every token is a nonempty even run of hex digits, the only token the splitter can refuse is a longer such run. */
  lemma EvenTokensIllegal(tokens: seq<string>)
    requires EvenHexWords(tokens)
    requires forall k :: 0 <= k < |tokens| ==> tokens[k] != []
    ensures SplitTokens(tokens).Err? && SplitTokens(tokens).error.IllegalToken? ==>
      var t := SplitTokens(tokens).error.token;
      |t| >= 4 && |t| % 2 == 0 && AllHex(t)
  {
    if SplitTokens(tokens).Err? && SplitTokens(tokens).error.IllegalToken? {
      var k := FirstIllegal(tokens);
      assert k < |tokens|;
      var t := tokens[k];
      assert |t| % 2 == 0 && AllHex(t) && t != [];
    }
  }

  /**
   * A text the validation calls a byte stream can still be refused by the
   * splitter, but only for a token that is a longer even run of hex digits
   * (such as `00100513`, which has no spaces between its bytes).
   */
  lemma ByteStreamIllegalTokens(value: string)
    requires ValidateHexInput(value) == ByteStream
    ensures SplitTokens(Tokens(value)).Err? && SplitTokens(Tokens(value)).error.IllegalToken? ==>
      var t := SplitTokens(Tokens(value)).error.token;
      |t| >= 4 && |t| % 2 == 0 && AllHex(t)
  {
    EvenTokensIllegal(Tokens(value));
  }
}

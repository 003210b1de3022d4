/**
 * `parse_line`: one line of assembly text to an instruction. The comment
 * is cut off, the mnemonic is the first whitespace-separated word (lower
 * cased), the operands are the rest split at commas, and the mnemonic is
 * offered to the compressed, Zicsr, system and base parsers in that order.
 */
module Parse {
  import opened Wrappers
  import opened Text
  import RustStr
  import Chars
  import opened RiscvImm
  import opened Instr
  import opened ParseCommon
  import ParseRvI
  import ParseRvc
  import ParseZicsr
  import ParseSystem

  /** The line without its comment and surrounding whitespace. */
  function Content(line: string): string {
    RustStr.Trim(TrimComment(line))
  }

  /** The whitespace-separated words of the content. */
  function Words(line: string): seq<string> {
    RustStr.SplitWhitespace(Content(line))
  }

  /** The words after the mnemonic, joined by single spaces and split at commas. */
  function Operands(line: string): seq<string> {
    var words := Words(line);
    var rest := if |words| <= 1 then [] else Join(words[1..], " ");
    if rest == [] then [] else SplitOperands(rest)
  }

  /** The operands of the line are free of the inputs that make the source panic. */
  predicate LineSafe(line: string) {
    OperandsSafe(Operands(line))
  }

  /** The parsers in the order `parse_line` tries them; the first that knows the mnemonic decides. */
  function Dispatch(mnem: string, ops: seq<string>, xlen: Xlen): (r: Result<Instruction, ParseError>)
    requires OperandsSafe(ops)
    ensures ParseRvc.OpOf(mnem).Some? ==> Some(r) == ParseRvc.TryParse(mnem, ops, xlen)
    ensures (ParseRvc.OpOf(mnem).None? && ParseZicsr.OpOf(mnem).Some?) ==> Some(r) == ParseZicsr.TryParse(mnem, ops)
    ensures (ParseRvc.OpOf(mnem).None? && ParseZicsr.OpOf(mnem).None? && ParseSystem.TryParse(mnem).Some?)
      ==> Some(r) == ParseSystem.TryParse(mnem)
    ensures (ParseRvc.OpOf(mnem).None? && ParseZicsr.OpOf(mnem).None? && ParseSystem.TryParse(mnem).None?)
      ==> (if ParseRvI.OpOf(mnem).Some? then Some(r) == ParseRvI.TryParse(mnem, ops, xlen) else r == Err(Unsupported(mnem)))
    ensures r.Ok? ==> (r.value.RV32I? || r.value.RV64I? || r.value.RVC? || r.value.RVZicsr?)
    ensures (r.Ok? && xlen == X32) ==> !r.value.RV64I?
    ensures r.Ok? ==> (Mnemonic(r.value) == Some(mnem) || (mnem == "fencei" && Mnemonic(r.value) == Some("fence.i")))
  {
    ParseSystem.TryParseMnemonic(mnem);
    match ParseRvc.TryParse(mnem, ops, xlen)
    case Some(res) => res
    case None =>
      match ParseZicsr.TryParse(mnem, ops)
      case Some(res) => res
      case None =>
        match ParseSystem.TryParse(mnem)
        case Some(res) => res
        case None =>
          match ParseRvI.TryParse(mnem, ops, xlen)
          case Some(res) => res
          case None => Err(Unsupported(mnem))
  }

  /**
   * `parse_line`: a line that is empty once the comment and the
   * surrounding whitespace are gone is an error; otherwise the lower-cased
   * first word and the operands go to `Dispatch`.
   */
  function ParseLine(line: string, xlen: Xlen): (r: Result<Instruction, ParseError>)
    requires LineSafe(line)
    ensures Content(line) == [] ==> r == Err(EmptyLine)
    ensures (Content(line) != [] && Words(line) != [])
      ==> r == Dispatch(RustStr.ToLowercase(Words(line)[0]), Operands(line), xlen)
  {
    if Content(line) == [] then Err(EmptyLine)
    else if Words(line) == [] then Err(MissingMnemonic)
    else Dispatch(RustStr.ToLowercase(Words(line)[0]), Operands(line), xlen)
  }

  /**
   * What `parse_line` can produce: a base, 64-bit base, compressed or Zicsr
   * instruction, and never a 64-bit-only one when the width is 32.
   */
  lemma ParseLineKinds(line: string, xlen: Xlen)
    requires LineSafe(line)
    ensures var r := ParseLine(line, xlen);
      r.Ok? ==> (r.value.RV32I? || r.value.RV64I? || r.value.RVC? || r.value.RVZicsr?)
    ensures var r := ParseLine(line, xlen); (r.Ok? && xlen == X32) ==> !r.value.RV64I?
  {
  }

  /** A text with no `#` and no `//` in it: nothing of it is a comment. */
  predicate NoComment(s: string) {
    '#' !in s && forall i :: 0 <= i < |s| - 1 ==> !(s[i] == '/' && s[i + 1] == '/')
  }

  /** `trim_comment` leaves a comment-free text alone. */
  lemma TrimCommentPlain(s: string)
    requires NoComment(s)
    ensures TrimComment(s) == s
  {
  }

  /** Everything from the first `#` on is dropped. */
  lemma TrimCommentHash(s: string, comment: string)
    requires NoComment(s)
    ensures TrimComment(s + "#" + comment) == s
  {
    var t := s + "#" + comment;
    var r := TrimComment(t);
    assert forall i :: 0 <= i < |r| ==> r[i] == t[i];
    assert forall i :: 0 <= i < |s| ==> t[i] == s[i];
    assert t[|s|] == '#';
    assert t[..|s|] == s;
  }

  /** Everything from the first `//` on is dropped, unless the text itself ends in `/`. */
  lemma TrimCommentSlashes(s: string, comment: string)
    requires NoComment(s) && (s == [] || s[|s| - 1] != '/')
    ensures TrimComment(s + "//" + comment) == s
  {
    var t := s + "//" + comment;
    var r := TrimComment(t);
    assert forall i :: 0 <= i < |r| ==> r[i] == t[i];
    assert forall i :: 0 <= i < |s| ==> t[i] == s[i];
    assert t[|s|] == '/' && t[|s| + 1] == '/';
    assert t[..|s|] == s;
  }

  /** `parse_line` sees a line only through what `trim_comment` keeps of it. */
  lemma SameContent(a: string, b: string, xlen: Xlen)
    requires TrimComment(a) == TrimComment(b) && LineSafe(a)
    ensures LineSafe(b) && ParseLine(a, xlen) == ParseLine(b, xlen)
  {
    assert Content(a) == Content(b);
    assert Words(a) == Words(b);
    assert Operands(a) == Operands(b);
  }

  /** A trailing `#` or `//` comment does not change how a line parses. */
  lemma CommentIgnored(line: string, comment: string, xlen: Xlen)
    requires NoComment(line) && LineSafe(line) && (line == [] || line[|line| - 1] != '/')
    ensures LineSafe(line + "#" + comment) && ParseLine(line + "#" + comment, xlen) == ParseLine(line, xlen)
    ensures LineSafe(line + "//" + comment) && ParseLine(line + "//" + comment, xlen) == ParseLine(line, xlen)
  {
    TrimCommentPlain(line);
    TrimCommentHash(line, comment);
    SameContent(line, line + "#" + comment, xlen);
    TrimCommentSlashes(line, comment);
    SameContent(line, line + "//" + comment, xlen);
  }

  /** A token as lines are usually written: not empty, with no white space, comma or comment character in it. */
  predicate Token(s: string) {
    s != [] && forall i :: 0 <= i < |s| ==> !RustStr.IsWhitespace(s[i]) && s[i] != ',' && s[i] != '#' && s[i] != '/'
  }

  predicate Tokens(ops: seq<string>) {
    forall k :: 0 <= k < |ops| ==> Token(ops[k])
  }

  /** The line `m op1, op2, …`. */
  function LineOf(m: string, ops: seq<string>): string {
    if ops == [] then m else m + " " + Join(ops, ", ")
  }

  /** The words of `op1, op2, …`: every operand but the last keeps its comma. */
  function CommaWords(ops: seq<string>): (r: seq<string>)
    ensures |r| == |ops|
  {
    if |ops| <= 1 then ops else [ops[0] + ","] + CommaWords(ops[1..])
  }

  /** Each operand after a space, as `split(',')` leaves the later ones. */
  function Spaced(ops: seq<string>): (r: seq<string>)
    ensures |r| == |ops|
  {
    if ops == [] then [] else [" " + ops[0]] + Spaced(ops[1..])
  }

  /** A text with neither `#` nor `/` in it. */
  predicate Plain(s: string) {
    forall i :: 0 <= i < |s| ==> s[i] != '#' && s[i] != '/'
  }

  lemma {:induction false} JoinPlain(parts: seq<string>, sep: string)
    requires Plain(sep) && forall k :: 0 <= k < |parts| ==> Plain(parts[k])
    ensures Plain(Join(parts, sep))
  {
    if |parts| > 1 {
      JoinPlain(parts[1..], sep);
      var a, b := parts[0] + sep, Join(parts[1..], sep);
      assert Plain(a);
      assert forall i :: 0 <= i < |a + b| ==> (a + b)[i] == if i < |a| then a[i] else b[i - |a|];
    }
  }

  /** The last character of a join is the last character of its last part. */
  lemma {:induction false} JoinLast(parts: seq<string>, sep: string)
    requires parts != [] && parts[|parts| - 1] != []
    ensures var j := Join(parts, sep); j != [] && j[|j| - 1] == parts[|parts| - 1][|parts[|parts| - 1]| - 1]
  {
    if |parts| > 1 {
      JoinLast(parts[1..], sep);
    }
  }

  /** A token and its comma hold no white space. */
  lemma TokenComma(t: string)
    requires Token(t)
    ensures NoneSatisfy(t + ",", RustStr.IsWhitespace) && NoneSatisfy(t, RustStr.IsWhitespace)
  {
    var a := t + ",";
    assert forall i :: 0 <= i < |a| ==> a[i] == if i < |t| then t[i] else ',';
  }

  lemma {:induction false} OperandWords(ops: seq<string>)
    requires ops != [] && Tokens(ops)
    ensures Text.Words(Join(ops, ", "), RustStr.IsWhitespace) == CommaWords(ops)
  {
    TokenComma(ops[0]);
    if |ops| == 1 {
      WordsOfOneWord(ops[0], RustStr.IsWhitespace);
    } else {
      var rest := Join(ops[1..], ", ");
      OperandWords(ops[1..]);
      JoinHead(ops);
      WordsOfWord(ops[0] + ",", ' ', rest, RustStr.IsWhitespace);
    }
  }

  lemma JoinHead(ops: seq<string>)
    requires |ops| > 1
    ensures Join(ops, ", ") == (ops[0] + ",") + [' '] + Join(ops[1..], ", ")
  {
  }

  lemma {:induction false} JoinCommaWords(ops: seq<string>)
    ensures Join(CommaWords(ops), " ") == Join(ops, ", ")
  {
    if |ops| > 1 {
      JoinCommaWords(ops[1..]);
      assert CommaWords(ops)[1..] == CommaWords(ops[1..]);
    }
  }

  lemma {:induction false} JoinSpaced(ops: seq<string>)
    requires ops != []
    ensures Join(Spaced(ops), ",") == " " + Join(ops, ", ")
  {
    if |ops| > 1 {
      JoinSpaced(ops[1..]);
      assert Spaced(ops)[1..] == Spaced(ops[1..]);
    }
  }

  /** A token after a space trims to itself. */
  lemma TrimSpaced(t: string)
    requires Token(t)
    ensures RustStr.Trim(" " + t) == t && RustStr.Trim(t) == t
  {
    assert (" " + t)[1..] == t;
    assert RustStr.TrimStart(t) == t;
    assert RustStr.TrimEnd(t) == t;
  }

  lemma {:induction false} CleanSpaced(ops: seq<string>)
    requires Tokens(ops)
    ensures Clean(Spaced(ops)) == ops
  {
    if ops != [] {
      TrimSpaced(ops[0]);
      CleanSpaced(ops[1..]);
      assert Spaced(ops)[0] == " " + ops[0];
      assert Spaced(ops)[1..] == Spaced(ops[1..]);
    }
  }

  /** The comma-separated pieces of `op1, op2, …`: the first operand, then each later one after its space. */
  function Pieces(ops: seq<string>): seq<string>
    requires ops != []
  {
    [ops[0]] + Spaced(ops[1..])
  }

  lemma PiecesJoin(ops: seq<string>)
    requires ops != []
    ensures Join(Pieces(ops), ",") == Join(ops, ", ")
  {
    if |ops| > 1 {
      JoinSpaced(ops[1..]);
      assert Pieces(ops)[1..] == Spaced(ops[1..]);
    }
  }

  lemma PiecesCommaFree(ops: seq<string>)
    requires ops != [] && Tokens(ops)
    ensures forall k :: 0 <= k < |Pieces(ops)| ==> ',' !in Pieces(ops)[k]
  {
    var pieces := Pieces(ops);
    forall k | 0 <= k < |pieces|
      ensures ',' !in pieces[k]
    {
      if k > 0 {
        var t := ops[k];
        assert pieces[k] == " " + t by { SpacedAt(ops[1..], k - 1); }
        assert forall i :: 0 <= i < |" " + t| ==> (" " + t)[i] == if i == 0 then ' ' else t[i - 1];
      }
    }
  }

  lemma PiecesClean(ops: seq<string>)
    requires ops != [] && Tokens(ops)
    ensures Clean(Pieces(ops)) == ops
  {
    TrimSpaced(ops[0]);
    CleanSpaced(ops[1..]);
    assert Pieces(ops)[1..] == Spaced(ops[1..]);
  }

  /** `op1, op2, …` splits into the operands. */
  lemma OperandsSplit(ops: seq<string>)
    requires ops != [] && Tokens(ops)
    ensures SplitOperands(Join(ops, ", ")) == ops
  {
    PiecesJoin(ops);
    PiecesCommaFree(ops);
    SplitOnJoin(Pieces(ops), ',');
    PiecesClean(ops);
  }

  lemma {:induction false} SpacedAt(ops: seq<string>, k: nat)
    requires k < |ops|
    ensures Spaced(ops)[k] == " " + ops[k]
  {
    if k > 0 {
      SpacedAt(ops[1..], k - 1);
    }
  }

  /** Nothing of a line of tokens is a comment or surrounding white space. */
  lemma LineOfContent(m: string, ops: seq<string>)
    requires Token(m) && Tokens(ops)
    ensures Content(LineOf(m, ops)) == LineOf(m, ops)
  {
    var line := LineOf(m, ops);
    assert Plain(m);
    if ops == [] {
      TrimSpaced(m);
    } else {
      var j := Join(ops, ", ");
      JoinPlain(ops, ", ");
      assert Plain(m + " ");
      assert forall i :: 0 <= i < |line| ==> line[i] == if i < |m + " "| then (m + " ")[i] else j[i - |m + " "|];
      JoinLast(ops, ", ");
      assert line[|line| - 1] == j[|j| - 1];
      TrimClean(line);
    }
    TrimCommentPlain(line);
  }

  /** The words of a line of tokens: the mnemonic, then the operands with their commas. */
  lemma LineOfWords(m: string, ops: seq<string>)
    requires Token(m) && Tokens(ops)
    ensures Words(LineOf(m, ops)) == [m] + CommaWords(ops)
  {
    LineOfContent(m, ops);
    TokenComma(m);
    if ops == [] {
      WordsOfOneWord(m, RustStr.IsWhitespace);
    } else {
      WordsOfWord(m, ' ', Join(ops, ", "), RustStr.IsWhitespace);
      OperandWords(ops);
    }
  }

  /** The operands of a line of tokens are the tokens after the mnemonic. */
  lemma OperandsOfLine(m: string, ops: seq<string>)
    requires Token(m) && Tokens(ops)
    ensures Words(LineOf(m, ops)) != [] && Words(LineOf(m, ops))[0] == m
    ensures Operands(LineOf(m, ops)) == ops
  {
    var line := LineOf(m, ops);
    LineOfWords(m, ops);
    if ops != [] {
      JoinCommaWords(ops);
      OperandsSplit(ops);
      assert Words(line)[1..] == CommaWords(ops);
    }
  }

  /**
   * A line written `m op1, op2, …` parses as its lower-cased mnemonic and
   * its operands: nothing of it is a comment, and the words and commas
   * separate exactly the tokens written.
   */
  lemma ParseLineOf(m: string, ops: seq<string>, xlen: Xlen)
    requires Token(m) && Tokens(ops) && OperandsSafe(ops)
    ensures LineSafe(LineOf(m, ops))
    ensures ParseLine(LineOf(m, ops), xlen) == Dispatch(RustStr.ToLowercase(m), ops, xlen)
  {
    LineOfContent(m, ops);
    OperandsOfLine(m, ops);
  }

  // Which parser a mnemonic reaches: every arm is reached by its own name.

  /** A mnemonic spelt in lower-case letters, digits and dots, as every arm's name is. */
  predicate LowerName(m: string) {
    m != [] && forall i :: 0 <= i < |m| ==> ('a' <= m[i] <= 'z' || '0' <= m[i] <= '9' || m[i] == '.')
  }

  /** A lower-case name is one token, and lower-casing leaves it as it is. */
  lemma LowerNameToken(m: string)
    requires LowerName(m)
    ensures Token(m) && RustStr.ToLowercase(m) == m
  {
    Chars.LowerAsciiNoCapitals(m);
  }

  /** A mnemonic whose second character is not a dot is not a compressed one. */
  lemma NotCompressed(m: string)
    requires |m| >= 2 && m[1] != '.'
    ensures ParseRvc.OpOf(m).None?
  {
    ParseRvc.OpOfPrefix(m);
  }

  /** A mnemonic that does not start with `c` is neither compressed nor Zicsr. */
  lemma NotCompressedOrCsr(m: string)
    requires m != [] && m[0] != 'c'
    ensures ParseRvc.OpOf(m).None? && ParseZicsr.OpOf(m).None?
  {
    ParseRvc.OpOfPrefix(m);
    ParseZicsr.OpOfPrefix(m);
  }

  /** A mnemonic that starts with none of `c`, `e` and `f` is neither compressed, Zicsr nor a system one. */
  lemma NotClaimedEarlier(m: string)
    requires m != [] && m[0] != 'c' && m[0] != 'e' && m[0] != 'f'
    ensures ParseRvc.OpOf(m).None? && ParseZicsr.OpOf(m).None? && ParseSystem.TryParse(m).None?
  {
    NotCompressedOrCsr(m);
  }

  /** Every base and 64-bit mnemonic is a lower-case name and starts with none of `c`, `e` and `f`. */
  lemma RvINameShape(op: ParseRvI.Op)
    ensures LowerName(op.Name()) && op.Name()[0] != 'c' && op.Name()[0] != 'e' && op.Name()[0] != 'f'
  {
  }

  lemma RvIRouted(m: string, ops: seq<string>, xlen: Xlen)
    requires OperandsSafe(ops)
    requires m != [] && m[0] != 'c' && m[0] != 'e' && m[0] != 'f' && ParseRvI.OpOf(m).Some?
    ensures Dispatch(m, ops, xlen) == ParseRvI.ParseOp(ParseRvI.OpOf(m).value, ops, xlen)
  {
    NotClaimedEarlier(m);
  }

  /**
   * A line naming a base or 64-bit arm reaches that arm: none of the
   * parsers tried before `rv_i` claims its mnemonic.
   */
  lemma RvILine(op: ParseRvI.Op, ops: seq<string>, xlen: Xlen)
    requires Tokens(ops) && OperandsSafe(ops)
    ensures LineSafe(LineOf(op.Name(), ops))
    ensures ParseLine(LineOf(op.Name(), ops), xlen) == ParseRvI.ParseOp(op, ops, xlen)
  {
    RvINameShape(op);
    LowerNameToken(op.Name());
    ParseRvI.OpOfName(op, op.Name());
    RvIRouted(op.Name(), ops, xlen);
    ParseLineOf(op.Name(), ops, xlen);
  }

  /** A line naming a compressed arm reaches `rvc::try_parse`, the first parser tried. */
  lemma RvcLine(op: ParseRvc.CompressedOp, ops: seq<string>, xlen: Xlen)
    requires Tokens(ops) && OperandsSafe(ops)
    ensures LineSafe(LineOf(op.Name(), ops))
    ensures ParseRvc.TryParse(op.Name(), ops, xlen).Some?
    ensures ParseLine(LineOf(op.Name(), ops), xlen) == ParseRvc.TryParse(op.Name(), ops, xlen).value
  {
    assert LowerName(op.Name());
    LowerNameToken(op.Name());
    ParseRvc.OpOfName(op, op.Name());
    ParseLineOf(op.Name(), ops, xlen);
  }

  lemma ZicsrRouted(m: string, ops: seq<string>, xlen: Xlen)
    requires OperandsSafe(ops)
    requires |m| >= 2 && m[1] != '.' && ParseZicsr.OpOf(m).Some?
    ensures Some(Dispatch(m, ops, xlen)) == ParseZicsr.TryParse(m, ops)
  {
    NotCompressed(m);
  }

  /** A line naming a CSR instruction reaches its register or immediate form. */
  lemma ZicsrLine(op: ParseZicsr.CsrOp, imm: bool, ops: seq<string>, xlen: Xlen)
    requires Tokens(ops) && OperandsSafe(ops)
    ensures LineSafe(LineOf(ParseZicsr.Name(op, imm), ops))
    ensures ParseLine(LineOf(ParseZicsr.Name(op, imm), ops), xlen)
      == if imm then ParseZicsr.ParseCsrImm(op, ops) else ParseZicsr.ParseCsrReg(op, ops)
  {
    var m := ParseZicsr.Name(op, imm);
    ZicsrNameShape(op, imm);
    LowerNameToken(m);
    ParseZicsr.OpOfName(op, imm, m);
    ZicsrRouted(m, ops, xlen);
    ParseLineOf(m, ops, xlen);
  }

  lemma ZicsrNameShape(op: ParseZicsr.CsrOp, imm: bool)
    ensures LowerName(ParseZicsr.Name(op, imm)) && |ParseZicsr.Name(op, imm)| >= 2 && ParseZicsr.Name(op, imm)[1] == 's'
  {
  }

  lemma SystemNameShape(m: string)
    requires m in ["ecall", "ebreak", "fence", "fence.i", "fencei"]
    ensures LowerName(m) && (m[0] == 'e' || m[0] == 'f')
  {
  }

  lemma SystemRouted(m: string, ops: seq<string>, xlen: Xlen)
    requires OperandsSafe(ops)
    requires m != [] && (m[0] == 'e' || m[0] == 'f') && ParseSystem.TryParse(m).Some?
    ensures Dispatch(m, ops, xlen) == ParseSystem.TryParse(m).value
  {
    NotCompressedOrCsr(m);
  }

  /** A line naming a system instruction gives that instruction, whatever operands follow. */
  lemma SystemLine(m: string, ops: seq<string>, xlen: Xlen)
    requires m in ["ecall", "ebreak", "fence", "fence.i", "fencei"]
    requires Tokens(ops) && OperandsSafe(ops)
    ensures LineSafe(LineOf(m, ops))
    ensures ParseLine(LineOf(m, ops), xlen) == ParseSystem.TryParse(m).value
  {
    SystemNameShape(m);
    LowerNameToken(m);
    SystemRouted(m, ops, xlen);
    ParseLineOf(m, ops, xlen);
  }
}

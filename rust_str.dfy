/**
 * The parts of Rust's `str` and integer parsing that the assembler and the
 * library entry points rely on: `char::is_whitespace`, `trim`,
 * `split_whitespace`, `lines`, ASCII `to_lowercase` and `from_str_radix`.
 */
module RustStr {
  import opened Wrappers
  import opened Chars
  import opened Text

  /** `char::is_whitespace`: the Unicode White_Space property. */
  predicate IsWhitespace(c: char) {
    c == ' ' || '\t' <= c <= '\r' || c == '\U{0085}' || c == '\U{00A0}' || c == '\U{1680}'
    || '\U{2000}' <= c <= '\U{200A}' || c == '\U{2028}' || c == '\U{2029}' || c == '\U{202F}'
    || c == '\U{205F}' || c == '\U{3000}'
  }

  /** `str::trim_start`. */
  function TrimStart(s: string): (r: string)
    ensures |r| <= |s|
    ensures r == [] || !IsWhitespace(r[0])
  {
    if s != [] && IsWhitespace(s[0]) then TrimStart(s[1..]) else s
  }

  lemma {:induction false} TrimStartSuffix(s: string)
    ensures TrimStart(s) == s[|s| - |TrimStart(s)|..]
  {
    if s != [] && IsWhitespace(s[0]) {
      TrimStartSuffix(s[1..]);
    }
  }

  /** `str::trim_end`. */
  function TrimEnd(s: string): (r: string)
    ensures |r| <= |s|
    ensures r == [] || !IsWhitespace(r[|r| - 1])
  {
    if s != [] && IsWhitespace(s[|s| - 1]) then TrimEnd(s[..|s| - 1]) else s
  }

  lemma {:induction false} TrimEndPrefix(s: string)
    ensures TrimEnd(s) == s[..|TrimEnd(s)|]
  {
    if s != [] && IsWhitespace(s[|s| - 1]) {
      TrimEndPrefix(s[..|s| - 1]);
    }
  }

  /** `str::trim`: white space stripped from both ends. */
  function Trim(s: string): (r: string)
    ensures |r| <= |s|
    ensures r == [] || (!IsWhitespace(r[0]) && !IsWhitespace(r[|r| - 1]))
  {
    TrimEndPrefix(TrimStart(s));
    TrimEnd(TrimStart(s))
  }

  /** A text without white space at either end is its own trim. */
  lemma TrimClean(s: string)
    requires s == [] || (!IsWhitespace(s[0]) && !IsWhitespace(s[|s| - 1]))
    ensures Trim(s) == s
  {
  }

  /** Trimming keeps a character out that was not there. */
  lemma TrimKeepsOut(s: string, c: char)
    requires c !in s
    ensures c !in Trim(s)
  {
    var t := TrimStart(s);
    var r := TrimEnd(t);
    TrimStartSuffix(s);
    TrimEndPrefix(t);
    forall k | 0 <= k < |r|
      ensures r[k] != c
    {
      assert r[k] == t[k] == s[|s| - |t| + k];
    }
  }

  /** `str::split_whitespace`. */
  function SplitWhitespace(s: string): (r: seq<string>)
    ensures forall k :: 0 <= k < |r| ==> r[k] != [] && NoneSatisfy(r[k], IsWhitespace)
  {
    Words(s, IsWhitespace)
  }

  /** `str::to_lowercase`, on the ASCII letters only. */
  function ToLowercase(s: string): (r: string)
    ensures |r| == |s|
  {
    LowerAscii(s)
  }

  /** A line as `str::lines` yields it: without the one `\r` in front of its `\n`. */
  function StripCr(line: string): (r: string)
    ensures line == r || line == r + ['\r']
  {
    if line != [] && line[|line| - 1] == '\r' then line[..|line| - 1] else line
  }

  /**
   * `str::lines`: the pieces between `\n` characters, each without the `\r`
   * before its `\n`; a final `\n` does not start an empty last line, and a
   * last line without `\n` keeps a trailing `\r`.
   */
  function Lines(s: string): (r: seq<string>)
    ensures forall k :: 0 <= k < |r| ==> '\n' !in r[k]
    ensures s == [] ==> r == []
  {
    var pieces := SplitOn(s, '\n');
    var ended := pieces[..|pieces| - 1];
    var last := pieces[|pieces| - 1];
    seq(|ended|, i requires 0 <= i < |ended| => StripCr(ended[i])) + (if last == [] then [] else [last])
  }

  /** The error kinds of `ParseIntError` that integer parsing can produce. */
  datatype IntErrorKind = Empty | InvalidDigit | PosOverflow | NegOverflow

  /** How `ParseIntError` displays itself. */
  function IntErrorText(k: IntErrorKind): string {
    match k
    case Empty => "cannot parse integer from empty string"
    case InvalidDigit => "invalid digit found in string"
    case PosOverflow => "number too large to fit in target type"
    case NegOverflow => "number too small to fit in target type"
  }

  /** The radixes used here. */
  predicate ValidRadix(radix: nat) {
    radix == 10 || radix == 16
  }

  /** `char::to_digit(radix).is_some()`. */
  predicate IsDigitOf(c: char, radix: nat)
    requires ValidRadix(radix)
  {
    if radix == 16 then IsHexDigit(c) else IsDecDigit(c)
  }

  /** `char::to_digit(radix)`. */
  function DigitOf(c: char, radix: nat): (d: nat)
    requires ValidRadix(radix) && IsDigitOf(c, radix)
    ensures d < radix
  {
    HexValue(c)
  }

  predicate AllDigits(ds: string, radix: nat)
    requires ValidRadix(radix)
  {
    forall i :: 0 <= i < |ds| ==> IsDigitOf(ds[i], radix)
  }

  /** The positional value of `ds`, continuing from the value `acc` of the digits before it. */
  function Horner(ds: string, radix: nat, acc: nat): nat
    requires ValidRadix(radix) && AllDigits(ds, radix)
    decreases |ds|
  {
    if ds == [] then acc else Horner(ds[1..], radix, acc * radix + DigitOf(ds[0], radix))
  }

  /** The unbounded value of a digit string. */
  function Value(ds: string, radix: nat): nat
    requires ValidRadix(radix) && AllDigits(ds, radix)
  {
    Horner(ds, radix, 0)
  }

  lemma {:induction false} HornerGrows(ds: string, radix: nat, acc: nat)
    requires ValidRadix(radix) && AllDigits(ds, radix)
    ensures Horner(ds, radix, acc) >= acc
    ensures ds != [] ==> Horner(ds, radix, acc) >= acc * radix + DigitOf(ds[0], radix)
    decreases |ds|
  {
    if ds != [] {
      HornerGrows(ds[1..], radix, acc * radix + DigitOf(ds[0], radix));
    }
  }

  /**
   * The digit loop of `from_str_radix`: a character that is not a digit is
   * `InvalidDigit`; a product or sum above `bound` is the `overflow` kind.
   * The accumulated magnitude is kept non-negative; the sign is applied by
   * the caller.
   */
  function Scan(ds: string, radix: nat, acc: nat, bound: nat, overflow: IntErrorKind): (r: Result<nat, IntErrorKind>)
    requires ValidRadix(radix) && acc <= bound
    ensures r.Err? ==> r.error == InvalidDigit || r.error == overflow
    decreases |ds|
  {
    if ds == [] then Ok(acc)
    else if !IsDigitOf(ds[0], radix) then Err(InvalidDigit)
    else if acc * radix > bound then Err(overflow)
    else if acc * radix + DigitOf(ds[0], radix) > bound then Err(overflow)
    else Scan(ds[1..], radix, acc * radix + DigitOf(ds[0], radix), bound, overflow)
  }

  /** The digit loop succeeds exactly on digit strings whose value fits, with that value. */
  lemma {:induction false} ScanValue(ds: string, radix: nat, acc: nat, bound: nat, overflow: IntErrorKind)
    requires ValidRadix(radix) && acc <= bound
    ensures Scan(ds, radix, acc, bound, overflow).Ok?
        <==> AllDigits(ds, radix) && Horner(ds, radix, acc) <= bound
    ensures Scan(ds, radix, acc, bound, overflow).Ok? ==> Scan(ds, radix, acc, bound, overflow).value == Horner(ds, radix, acc)
    ensures Scan(ds, radix, acc, bound, overflow).Err? && AllDigits(ds, radix) ==> Scan(ds, radix, acc, bound, overflow).error == overflow
    decreases |ds|
  {
    if ds != [] && IsDigitOf(ds[0], radix) {
      var next := acc * radix + DigitOf(ds[0], radix);
      if acc * radix > bound || next > bound {
        if AllDigits(ds, radix) {
          HornerGrows(ds, radix, acc);
        }
      } else {
        ScanValue(ds[1..], radix, next, bound, overflow);
        assert AllDigits(ds, radix) <==> AllDigits(ds[1..], radix);
      }
    }
  }

  /**
   * `from_str_radix` for an integer type with range [min, max]: an empty
   * string is `Empty`; a lone sign is `InvalidDigit`; one leading `+` is
   * skipped, one leading `-` too when the type is signed (min < 0).
   */
  function FromStrRadix(src: string, radix: nat, min: int, max: nat): Result<int, IntErrorKind>
    requires ValidRadix(radix) && min <= 0
  {
    if src == [] then Err(Empty)
    else if |src| == 1 && (src[0] == '+' || src[0] == '-') then Err(InvalidDigit)
    else if src[0] == '+' then
      match Scan(src[1..], radix, 0, max, PosOverflow)
      case Ok(v) => Ok(v)
      case Err(e) => Err(e)
    else if src[0] == '-' && min < 0 then
      match Scan(src[1..], radix, 0, -min, NegOverflow)
      case Ok(v) => Ok(-(v as int))
      case Err(e) => Err(e)
    else
      match Scan(src, radix, 0, max, PosOverflow)
      case Ok(v) => Ok(v)
      case Err(e) => Err(e)
  }

  /** The integer a string spells in `radix`: an optional sign (`-` only when signed) and at least one digit. */
  function Denotation(src: string, radix: nat, signed: bool): Option<int>
    requires ValidRadix(radix)
  {
    if |src| > 1 && src[0] == '+' && AllDigits(src[1..], radix) then Some(Value(src[1..], radix))
    else if |src| > 1 && src[0] == '-' && signed && AllDigits(src[1..], radix) then Some(-(Value(src[1..], radix) as int))
    else if src != [] && AllDigits(src, radix) then Some(Value(src, radix))
    else None
  }

  /** `from_str_radix` accepts exactly the strings denoting an integer in range, and yields that integer. */
  lemma FromStrRadixDenotes(src: string, radix: nat, min: int, max: nat)
    requires ValidRadix(radix) && min <= 0
    ensures FromStrRadix(src, radix, min, max).Ok?
        <==> Denotation(src, radix, min < 0).Some? && min <= Denotation(src, radix, min < 0).value <= max
    ensures FromStrRadix(src, radix, min, max).Ok?
        ==> FromStrRadix(src, radix, min, max).value == Denotation(src, radix, min < 0).value
    ensures FromStrRadix(src, radix, min, max) == Err(Empty) <==> src == []
  {
    if src != [] {
      assert !IsDigitOf('+', radix) && !IsDigitOf('-', radix);
      if src[0] == '+' || (src[0] == '-' && min < 0) {
        if |src| > 1 {
          ScanValue(src[1..], radix, 0, if src[0] == '+' then max else -min, if src[0] == '+' then PosOverflow else NegOverflow);
        }
      } else {
        ScanValue(src, radix, 0, max, PosOverflow);
      }
    }
  }

  /** Appending one digit multiplies the value so far by the radix and adds the digit. */
  lemma {:induction false} HornerSnoc(ds: string, c: char, radix: nat, acc: nat)
    requires ValidRadix(radix) && AllDigits(ds, radix) && IsDigitOf(c, radix)
    ensures AllDigits(ds + [c], radix)
    ensures Horner(ds + [c], radix, acc) == Horner(ds, radix, acc) * radix + DigitOf(c, radix)
    decreases |ds|
  {
    assert AllDigits(ds + [c], radix) by {
      forall i | 0 <= i < |ds + [c]|
        ensures IsDigitOf((ds + [c])[i], radix)
      {
        if i < |ds| {
          assert (ds + [c])[i] == ds[i];
        }
      }
    }
    if ds == [] {
      assert ds + [c] == [c];
      assert [c][1..] == [];
    } else {
      assert (ds + [c])[1..] == ds[1..] + [c];
      HornerSnoc(ds[1..], c, radix, acc * radix + DigitOf(ds[0], radix));
    }
  }

  function Pow(base: nat, k: nat): (p: nat)
    ensures base > 0 ==> p > 0
  {
    if k == 0 then 1 else base * Pow(base, k - 1)
  }

  /** `{}` of an unsigned integer: its decimal digits, with no leading zero. */
  function Decimal(n: nat): (s: string)
    ensures s != [] && AllDigits(s, 10)
    ensures |s| > 1 ==> s[0] != '0'
    decreases n
  {
    if n < 10 then [LowerHexChar(n)] else Decimal(n / 10) + [LowerHexChar(n % 10)]
  }

  /** Reading `{}`'s output back in radix 10 gives the number printed. */
  lemma {:induction false} DecimalValue(n: nat)
    ensures Value(Decimal(n), 10) == n
    decreases n
  {
    if n < 10 {
      assert Decimal(n)[1..] == [];
      assert Value(Decimal(n), 10) == Horner([], 10, DigitOf(LowerHexChar(n), 10));
    } else {
      DecimalValue(n / 10);
      HornerSnoc(Decimal(n / 10), LowerHexChar(n % 10), 10, 0);
    }
  }

  /** `{:0kx}` of a number below 16^k: exactly `k` lower-case hex digits. */
  function HexFixed(n: nat, k: nat): (s: string)
    ensures |s| == k && AllLowerHex(s) && AllDigits(s, 16)
  {
    if k == 0 then [] else HexFixed(n / 16, k - 1) + [LowerHexChar(n % 16)]
  }

  /** Reading `k` fixed hex digits back gives the number, when it fits in them. */
  lemma {:induction false} HexFixedValue(n: nat, k: nat)
    requires n < Pow(16, k)
    ensures Value(HexFixed(n, k), 16) == n
  {
    if k > 0 {
      HexFixedValue(n / 16, k - 1);
      HornerSnoc(HexFixed(n / 16, k - 1), LowerHexChar(n % 16), 16, 0);
    }
  }

  /** `k` digits hold a value below radix^k. */
  lemma {:induction false} ValueBound(ds: string, radix: nat)
    requires ValidRadix(radix) && AllDigits(ds, radix)
    ensures Value(ds, radix) < Pow(radix, |ds|)
    decreases |ds|
  {
    if ds != [] {
      var init := ds[..|ds| - 1];
      assert init + [ds[|ds| - 1]] == ds;
      assert AllDigits(init, radix);
      ValueBound(init, radix);
      HornerSnoc(init, ds[|ds| - 1], radix, 0);
      assert Value(ds, radix) <= (Pow(radix, |init|) - 1) * radix + (radix - 1);
    }
  }

  /** In radix 16 the value modulo 4 is decided by the last digit. */
  lemma LastHexDigitMod4(ds: string)
    requires ds != [] && AllDigits(ds, 16)
    ensures Value(ds, 16) % 4 == HexValue(ds[|ds| - 1]) % 4
  {
    var init := ds[..|ds| - 1];
    assert init + [ds[|ds| - 1]] == ds;
    assert AllDigits(init, 16);
    HornerSnoc(init, ds[|ds| - 1], 16, 0);
    assert Value(ds, 16) == 4 * (4 * Value(init, 16)) + HexValue(ds[|ds| - 1]);
  }
}

/**
 * Sequence-of-character helpers shared by the Rust and the JavaScript
 * string models: searching, trimming, splitting into words or on a
 * separator, and joining.  Whitespace is a parameter because the two
 * languages disagree on which characters it covers.
 */
module Text {
  /** The first index of `c` in `s`, or |s| when `c` does not occur. */
  function IndexOf(s: string, c: char): (k: nat)
    ensures k <= |s|
    ensures k < |s| ==> s[k] == c
    ensures forall i :: 0 <= i < k ==> s[i] != c
  {
    if s == [] || s[0] == c then 0 else 1 + IndexOf(s[1..], c)
  }

  predicate Occurs(s: string, p: string, i: int)
    requires p != []
  {
    0 <= i && i + |p| <= |s| && s[i..i + |p|] == p
  }

  /** The first index at which `p` occurs in `s`, or |s| when it does not occur. */
  function Find(s: string, p: string): (k: nat)
    requires p != []
    ensures k <= |s|
    ensures k < |s| ==> Occurs(s, p, k)
    ensures forall i :: 0 <= i < k ==> !Occurs(s, p, i)
    decreases |s|
  {
    if |s| < |p| then |s|
    else if s[..|p|] == p then 0
    else
      var k := Find(s[1..], p);
      assert !Occurs(s, p, 0) by {
        assert s[0..|p|] == s[..|p|];
      }
      forall i | 1 <= i <= k + 1 {
        OccursTail(s, p, i);
      }
      1 + k
  }

  /** An occurrence at i >= 1 is an occurrence at i - 1 in the tail. */
  lemma OccursTail(s: string, p: string, i: int)
    requires p != [] && s != [] && 1 <= i
    ensures Occurs(s, p, i) <==> Occurs(s[1..], p, i - 1)
  {
    if i + |p| <= |s| {
      assert s[i..i + |p|] == s[1..][i - 1..i - 1 + |p|];
    }
  }

  predicate StartsWith(s: string, p: string) {
    |p| <= |s| && s[..|p|] == p
  }

  predicate NoneSatisfy(s: string, p: char -> bool) {
    forall i :: 0 <= i < |s| ==> !p(s[i])
  }

  predicate AllSatisfy(s: string, p: char -> bool) {
    forall i :: 0 <= i < |s| ==> p(s[i])
  }

  /** `s` without its leading characters that satisfy `p`. */
  function DropWhile(s: string, p: char -> bool): (r: string)
    ensures |r| <= |s| && r == s[|s| - |r|..]
    ensures AllSatisfy(s[..|s| - |r|], p)
    ensures r == [] || !p(r[0])
  {
    if s != [] && p(s[0]) then DropWhile(s[1..], p) else s
  }

  /** `s` without its trailing characters that satisfy `p`. */
  function DropWhileEnd(s: string, p: char -> bool): (r: string)
    ensures |r| <= |s| && r == s[..|r|]
    ensures AllSatisfy(s[|r|..], p)
    ensures r == [] || !p(r[|r| - 1])
  {
    if s != [] && p(s[|s| - 1]) then DropWhileEnd(s[..|s| - 1], p) else s
  }

  /** Both ends stripped of characters satisfying `p`. */
  function TrimBy(s: string, p: char -> bool): (r: string)
    ensures r == [] || (!p(r[0]) && !p(r[|r| - 1]))
    ensures exists i, j ::
      (0 <= i <= j <= |s| && r == s[i..j] && AllSatisfy(s[..i], p) && AllSatisfy(s[j..], p))
  {
    var t := DropWhile(s, p);
    var r := DropWhileEnd(t, p);
    var i, j := |s| - |t|, |s| - |t| + |r|;
    assert r == s[i..j] && AllSatisfy(s[..i], p);
    assert s[j..] == t[|r|..];
    assert AllSatisfy(s[j..], p);
    r
  }

  /** The longest prefix of `s` with no character satisfying `p`. */
  function TakeUntil(s: string, p: char -> bool): (r: string)
    ensures |r| <= |s| && r == s[..|r|]
    ensures NoneSatisfy(r, p)
    ensures |r| == |s| || p(s[|r|])
  {
    if s == [] || p(s[0]) then [] else [s[0]] + TakeUntil(s[1..], p)
  }

  /** The maximal runs of characters not satisfying `p`, in order. */
  function Words(s: string, p: char -> bool): (r: seq<string>)
    ensures forall k :: 0 <= k < |r| ==> r[k] != [] && NoneSatisfy(r[k], p)
    decreases |s|
  {
    var t := DropWhile(s, p);
    if t == [] then []
    else
      var w := TakeUntil(t, p);
      assert w != [];
      var rest := Words(t[|w|..], p);
      var r := [w] + rest;
      assert r[0] == w && NoneSatisfy(w, p);
      assert forall k :: 1 <= k < |r| ==> r[k] == rest[k - 1];
      r
  }

  /** A separator in front does not change the words. */
  lemma WordsSkip(s: string, p: char -> bool)
    requires s != [] && p(s[0])
    ensures Words(s, p) == Words(s[1..], p)
  {
  }

  /** A non-separator in front starts a new word or extends the first one. */
  lemma WordsCons(s: string, p: char -> bool)
    requires s != [] && !p(s[0])
    ensures var w := Words(s[1..], p);
      if s[1..] == [] || p(s[1]) then Words(s, p) == [[s[0]]] + w
      else w != [] && Words(s, p) == [[s[0]] + w[0]] + w[1..]
  {
    var t := s[1..];
    if t != [] && !p(t[0]) {
      assert DropWhile(t, p) == t;
      var w := TakeUntil(t, p);
      assert TakeUntil(s, p) == [s[0]] + w;
      assert s[|w| + 1..] == t[|w|..];
    } else {
      assert TakeUntil(s, p) == [s[0]];
    }
  }

  /** Separators dropped in front do not change the words. */
  lemma {:induction false} WordsDropWhile(s: string, p: char -> bool, q: char -> bool)
    requires forall c :: q(c) ==> p(c)
    ensures Words(DropWhile(s, q), p) == Words(s, p)
    decreases |s|
  {
    if s != [] && q(s[0]) {
      WordsSkip(s, p);
      WordsDropWhile(s[1..], p, q);
    }
  }

  /** One separator at the end does not change the words. */
  lemma {:induction false} WordsTrailing(s: string, c: char, p: char -> bool)
    requires p(c)
    ensures Words(s + [c], p) == Words(s, p)
    decreases |s|
  {
    var t := s + [c];
    assert t[1..] == if s == [] then [] else s[1..] + [c];
    if s == [] {
      WordsSkip(t, p);
    } else if p(s[0]) {
      WordsSkip(t, p);
      WordsSkip(s, p);
      WordsTrailing(s[1..], c, p);
    } else {
      WordsTrailing(s[1..], c, p);
      WordsCons(t, p);
      WordsCons(s, p);
      if s[1..] == [] {
        WordsSkip([c], p);
        assert [c][1..] == [];
      }
    }
  }

  /** A separator at the end is dropped by `DropWhileEnd` and does not change the words. */
  lemma WordsDropLast(s: string, p: char -> bool)
    requires s != [] && p(s[|s| - 1])
    ensures DropWhileEnd(s, p) == DropWhileEnd(s[..|s| - 1], p)
    ensures Words(s, p) == Words(s[..|s| - 1], p)
  {
    DropWhileEndLast(s, p);
    var init, c := s[..|s| - 1], s[|s| - 1];
    assert Words(s, p) == Words(init, p) by {
      WordsTrailing(init, c, p);
      assert s == init + [c];
    }
  }

  /** A trailing separator is dropped by one step of `DropWhileEnd`. */
  lemma DropWhileEndLast(s: string, p: char -> bool)
    requires s != [] && p(s[|s| - 1])
    ensures DropWhileEnd(s, p) == DropWhileEnd(s[..|s| - 1], p)
  {
  }

  /** Separators dropped at the end do not change the words. */
  lemma {:induction false} WordsDropWhileEnd(s: string, p: char -> bool)
    ensures Words(DropWhileEnd(s, p), p) == Words(s, p)
    decreases |s|
  {
    if s != [] && p(s[|s| - 1]) {
      WordsDropLast(s, p);
      WordsDropWhileEnd(s[..|s| - 1], p);
    }
  }

  /** Each run of characters satisfying `q` replaced by the one character `by`. */
  function ReplaceRuns(s: string, q: char -> bool, sub: char): (r: string)
    ensures r == [] <==> s == []
    ensures s != [] && q(s[0]) ==> r[0] == sub
    ensures s != [] && !q(s[0]) ==> r[0] == s[0]
    decreases |s|
  {
    if s == [] then []
    else if q(s[0]) then [sub] + ReplaceRuns(DropWhile(s, q), q, sub)
    else [s[0]] + ReplaceRuns(s[1..], q, sub)
  }

  /** Collapsing separator runs into one separator keeps the words. */
  lemma {:induction false} WordsReplaceRuns(s: string, p: char -> bool, q: char -> bool, sub: char)
    requires forall c :: q(c) ==> p(c)
    requires p(sub)
    ensures Words(ReplaceRuns(s, q, sub), p) == Words(s, p)
    decreases |s|
  {
    if s == [] {
    } else if q(s[0]) {
      var d := DropWhile(s, q);
      var r := ReplaceRuns(s, q, sub);
      assert r == [sub] + ReplaceRuns(d, q, sub);
      WordsSkip(r, p);
      assert r[1..] == ReplaceRuns(d, q, sub);
      WordsReplaceRuns(d, p, q, sub);
      WordsDropWhile(s, p, q);
    } else {
      var r := ReplaceRuns(s, q, sub);
      var r1 := ReplaceRuns(s[1..], q, sub);
      assert r == [s[0]] + r1;
      assert r[1..] == r1;
      WordsReplaceRuns(s[1..], p, q, sub);
      assert r1 != [] ==> (p(r1[0]) <==> p(s[1]));
      WordsSameFirst(r, s, p);
    }
  }

  /** Texts with the same first character and words-equal tails that start alike have the same words. */
  lemma WordsSameFirst(r: string, s: string, p: char -> bool)
    requires r != [] && s != [] && r[0] == s[0]
    requires Words(r[1..], p) == Words(s[1..], p)
    requires (r[1..] == [] || p(r[1])) <==> (s[1..] == [] || p(s[1]))
    ensures Words(r, p) == Words(s, p)
  {
    if p(s[0]) {
      WordsSkip(r, p);
      WordsSkip(s, p);
    } else {
      WordsSameHead(r, s, p);
    }
  }

  /** Two texts with the same first character, not a separator, and words-equal tails have the same words. */
  lemma WordsSameHead(s: string, t: string, p: char -> bool)
    requires s != [] && t != [] && s[0] == t[0] && !p(s[0])
    requires Words(s[1..], p) == Words(t[1..], p)
    requires (s[1..] == [] || p(s[1])) <==> (t[1..] == [] || p(t[1]))
    ensures Words(s, p) == Words(t, p)
  {
    WordsCons(s, p);
    WordsCons(t, p);
  }

  /** A word followed by a separator: `TakeUntil` stops exactly at the separator. */
  lemma {:induction false} TakeUntilWord(a: string, c: char, b: string, p: char -> bool)
    requires NoneSatisfy(a, p) && p(c)
    ensures TakeUntil(a + [c] + b, p) == a
    decreases |a|
  {
    var s := a + [c] + b;
    if a == [] {
      assert s[0] == c;
    } else {
      assert s[1..] == a[1..] + [c] + b;
      TakeUntilWord(a[1..], c, b, p);
    }
  }

  /** A word followed by a separator is the first word, and the words of the rest follow it. */
  lemma WordsOfWord(a: string, c: char, b: string, p: char -> bool)
    requires a != [] && NoneSatisfy(a, p) && p(c)
    ensures Words(a + [c] + b, p) == [a] + Words(b, p)
  {
    var s := a + [c] + b;
    assert DropWhile(s, p) == s;
    TakeUntilWord(a, c, b, p);
    assert s[|a|..] == [c] + b;
    WordsSkip([c] + b, p);
    assert ([c] + b)[1..] == b;
  }

  /** A text of one word, with no separator in it, is that one word. */
  lemma WordsOfOneWord(a: string, p: char -> bool)
    requires a != [] && NoneSatisfy(a, p)
    ensures Words(a, p) == [a]
  {
    assert DropWhile(a, p) == a;
    assert TakeUntil(a, p) == a;
    assert a[|a|..] == [];
  }

  /** Rust `str::split` on one character (also JavaScript `split` on a one-character string). */
  function SplitOn(s: string, sep: char): (r: seq<string>)
    ensures |r| >= 1
    ensures forall k :: 0 <= k < |r| ==> sep !in r[k]
    decreases |s|
  {
    var k := IndexOf(s, sep);
    if k == |s| then [s] else [s[..k]] + SplitOn(s[k + 1..], sep)
  }

  /** Rust `join` and JavaScript `join`. */
  function Join(parts: seq<string>, sep: string): string
  {
    if |parts| == 0 then []
    else if |parts| == 1 then parts[0]
    else parts[0] + sep + Join(parts[1..], sep)
  }

  /** Splitting and joining back with the same separator restores the text. */
  lemma {:induction false} JoinSplitOn(s: string, sep: char)
    ensures Join(SplitOn(s, sep), [sep]) == s
    decreases |s|
  {
    var k := IndexOf(s, sep);
    if k < |s| {
      JoinSplitOn(s[k + 1..], sep);
      assert s == s[..k] + [sep] + s[k + 1..];
    }
  }

  /** Joining separator-free pieces and splitting again gives the pieces back. */
  lemma {:induction false} SplitOnJoin(parts: seq<string>, sep: char)
    requires |parts| >= 1
    requires forall k :: 0 <= k < |parts| ==> sep !in parts[k]
    ensures SplitOn(Join(parts, [sep]), sep) == parts
  {
    if |parts| > 1 {
      var s := Join(parts, [sep]);
      var rest := Join(parts[1..], [sep]);
      assert s == parts[0] + [sep] + rest;
      assert s[..|parts[0]|] == parts[0];
      assert s[|parts[0]|] == sep;
      assert IndexOf(s, sep) == |parts[0]|;
      assert s[|parts[0]| + 1..] == rest;
      assert SplitOn(s, sep) == [parts[0]] + SplitOn(rest, sep);
      SplitOnJoin(parts[1..], sep);
    } else {
      assert IndexOf(parts[0], sep) == |parts[0]|;
    }
  }

  /** The elements whose trimmed text is not empty, in order (JavaScript `filter(l => l.trim())`). */
  function NonBlank(lines: seq<string>, p: char -> bool): (r: seq<string>)
    ensures |r| <= |lines|
    ensures forall k :: 0 <= k < |r| ==> r[k] in lines && TrimBy(r[k], p) != []
  {
    if lines == [] then []
    else if TrimBy(lines[0], p) == [] then NonBlank(lines[1..], p)
    else [lines[0]] + NonBlank(lines[1..], p)
  }

  /** `c` repeated `n` times. */
  function Repeat(c: char, n: nat): (r: string)
    ensures |r| == n && forall i :: 0 <= i < n ==> r[i] == c
  {
    if n == 0 then [] else [c] + Repeat(c, n - 1)
  }

  /** A text whose ends do not satisfy `p` is its own trimmed form. */
  lemma TrimByClean(s: string, p: char -> bool)
    requires s == [] || (!p(s[0]) && !p(s[|s| - 1]))
    ensures TrimBy(s, p) == s
  {
  }
}

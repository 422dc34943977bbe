/**
 * The handful of Python `str` operations the core relies on, defined once:
 * `strip`, `strip(chars)`, `split(sep)`, `split()`, `lower()`, `startswith`,
 * `endswith`, `in`, `", ".join` and `str(int)`.
 * Whitespace is the set Python's `str.isspace` accepts (ASCII whitespace, the
 * information separators, NEL, no-break space and the Unicode space
 * separators); `lower()` folds ASCII letters only.
 */
module Text {

  const Whitespace: set<char> := {
    '\t', '\n', '\U{0B}', '\U{0C}', '\r', '\U{1C}', '\U{1D}', '\U{1E}', '\U{1F}', ' ',
    '\U{85}', '\U{A0}', '\U{1680}',
    '\U{2000}', '\U{2001}', '\U{2002}', '\U{2003}', '\U{2004}', '\U{2005}',
    '\U{2006}', '\U{2007}', '\U{2008}', '\U{2009}', '\U{200A}',
    '\U{2028}', '\U{2029}', '\U{202F}', '\U{205F}', '\U{3000}'}

  predicate IsSpace(c: char) { c in Whitespace }

  predicate StartsWith(s: string, prefix: string) {
    |prefix| <= |s| && s[..|prefix|] == prefix
  }

  predicate EndsWith(s: string, suffix: string) {
    |suffix| <= |s| && s[|s| - |suffix|..] == suffix
  }

  /** Python's `sub in s` for a substring. */
  predicate Contains(s: string, sub: string)
    decreases |s|
  {
    StartsWith(s, sub) || (s != [] && Contains(s[1..], sub))
  }

  // ---------------------------------------------------------------- strip

  /** Drops leading characters that belong to `cs`. */
  function TrimLeft(s: string, cs: set<char>): (r: string)
    ensures |r| <= |s| && r == s[|s| - |r|..]
    ensures r == [] || r[0] !in cs
    ensures forall i | 0 <= i < |s| - |r| :: s[i] in cs
    decreases |s|
  {
    if s != [] && s[0] in cs then TrimLeft(s[1..], cs) else s
  }

  /** Drops trailing characters that belong to `cs`. */
  function TrimRight(s: string, cs: set<char>): (r: string)
    ensures |r| <= |s| && r == s[..|r|]
    ensures r == [] || r[|r| - 1] !in cs
    ensures forall i | |r| <= i < |s| :: s[i] in cs
    decreases |s|
  {
    if s != [] && s[|s| - 1] in cs then TrimRight(s[..|s| - 1], cs) else s
  }

  /** Python's `s.strip(chars)`: no character of `cs` is left at either end. */
  function StripOf(s: string, cs: set<char>): (r: string)
    ensures |r| <= |s|
    ensures r == [] || (r[0] !in cs && r[|r| - 1] !in cs)
    ensures s == [] || (s[0] !in cs && s[|s| - 1] !in cs) ==> r == s
  {
    var l := TrimLeft(s, cs);
    var r := TrimRight(l, cs);
    assert r == [] || r[0] == l[0];
    r
  }

  /**
   * What StripOf keeps: one contiguous slice of the text, with only
   * characters of `cs` cut away before and after it.
   */
  lemma {:induction false} StripOfContents(s: string, cs: set<char>)
    ensures exists a, b | 0 <= a <= b <= |s| ::
      && StripOf(s, cs) == s[a..b]
      && (forall i | 0 <= i < a :: s[i] in cs)
      && (forall i | b <= i < |s| :: s[i] in cs)
  {
    var l := TrimLeft(s, cs);
    var r := TrimRight(l, cs);
    var a := |s| - |l|;
    var b := a + |r|;
    assert r == s[a..b] by {
      assert l == s[a..] && r == l[..|r|];
    }
    forall i | b <= i < |s|
      ensures s[i] in cs
    {
      assert s[i] == l[i - a];
    }
    assert StripOf(s, cs) == s[a..b];
  }

  /** Python's `s.strip()`. */
  function Strip(s: string): (r: string)
    ensures |r| <= |s|
    ensures r == [] || (!IsSpace(r[0]) && !IsSpace(r[|r| - 1]))
  {
    StripOf(s, Whitespace)
  }

  /** What Strip keeps: one contiguous slice of the text, with only whitespace cut away around it. */
  lemma {:induction false} StripContents(s: string)
    ensures exists a, b | 0 <= a <= b <= |s| ::
      && Strip(s) == s[a..b]
      && (forall i | 0 <= i < a :: IsSpace(s[i]))
      && (forall i | b <= i < |s| :: IsSpace(s[i]))
  {
    StripOfContents(s, Whitespace);
  }

  /** Stripping twice is stripping once. */
  lemma {:induction false} StripIdempotent(s: string)
    ensures Strip(Strip(s)) == Strip(s)
  {
    var r := Strip(s);
    if r != [] {
      assert TrimLeft(r, Whitespace) == r;
      assert TrimRight(r, Whitespace) == r;
    }
  }

  /** Stripping keeps only characters of the text, so a property of every character survives it. */
  lemma {:induction false} StripKeeps(s: string, p: char -> bool)
    requires forall i | 0 <= i < |s| :: p(s[i])
    ensures forall i | 0 <= i < |Strip(s)| :: p(Strip(s)[i])
  {
    var l := TrimLeft(s, Whitespace);
    var k := |s| - |l|;
    assert l == s[k..];
    forall i | 0 <= i < |l|
      ensures p(l[i])
    {
      assert l[i] == s[k + i];
    }
    var r := TrimRight(l, Whitespace);
    forall i | 0 <= i < |r|
      ensures p(r[i])
    {
      assert r[i] == l[i];
    }
    assert r == Strip(s);
  }

  // ---------------------------------------------------------------- split

  /** Python's `s.split(sep)` for a one-character separator: always at least one piece. */
  function SplitOn(s: string, sep: char): (r: seq<string>)
    ensures |r| >= 1
    ensures forall i | 0 <= i < |r| :: sep !in r[i]
    decreases |s|
  {
    if s == [] then [""]
    else
      var rest := SplitOn(s[1..], sep);
      if s[0] == sep then [""] + rest else [[s[0]] + rest[0]] + rest[1..]
  }

  /** The position of the first occurrence of `c`, as in `s.index(c)`. */
  function IndexOf(s: string, c: char): (i: nat)
    requires c in s
    ensures i < |s| && s[i] == c && c !in s[..i]
  {
    if s[0] == c then 0
    else
      assert c in s[1..];
      var j := IndexOf(s[1..], c);
      assert s[..j + 1] == [s[0]] + s[1..][..j];
      j + 1
  }

  /** The first `c` after a text without `c` is right after that text. */
  lemma {:induction false} IndexOfAfter(a: string, c: char, b: string)
    requires c !in a
    ensures IndexOf(a + [c] + b, c) == |a|
    decreases |a|
  {
    var s := a + [c] + b;
    if a != [] {
      assert s[1..] == a[1..] + [c] + b;
      IndexOfAfter(a[1..], c, b);
    }
  }

  /** Python's `sep.join(parts)`. */
  function Join(parts: seq<string>, sep: string): string
    decreases |parts|
  {
    if parts == [] then ""
    else if |parts| == 1 then parts[0]
    else parts[0] + sep + Join(parts[1..], sep)
  }

  /** `(first + sep + rest).split(sep)` is `[first] + rest.split(sep)` when `first` has no separator. */
  lemma {:induction false} SplitOnCons(first: string, rest: string, sep: char)
    requires sep !in first
    ensures SplitOn(first + [sep] + rest, sep) == [first] + SplitOn(rest, sep)
    decreases |first|
  {
    var s := first + [sep] + rest;
    if first == [] {
      assert s[1..] == rest;
    } else {
      assert s[1..] == first[1..] + [sep] + rest;
      SplitOnCons(first[1..], rest, sep);
      assert first == [first[0]] + first[1..];
    }
  }

  /** A text without the separator splits into itself alone. */
  lemma {:induction false} SplitOnNoSep(s: string, sep: char)
    requires sep !in s
    ensures SplitOn(s, sep) == [s]
    decreases |s|
  {
    if s != [] {
      SplitOnNoSep(s[1..], sep);
      assert s == [s[0]] + s[1..];
    }
  }

  /** Joining the pieces of a split with the separator gives back the text. */
  lemma {:induction false} JoinSplitOn(s: string, sep: char)
    ensures Join(SplitOn(s, sep), [sep]) == s
    decreases |s|
  {
    if s != [] {
      var rest := SplitOn(s[1..], sep);
      JoinSplitOn(s[1..], sep);
      if s[0] == sep {
        assert SplitOn(s, sep) == [""] + rest;
        assert Join([""] + rest, [sep]) == "" + [sep] + Join(rest, [sep]);
      } else {
        var r := SplitOn(s, sep);
        assert r == [[s[0]] + rest[0]] + rest[1..];
        if |rest| == 1 {
          assert r == [[s[0]] + rest[0]];
          assert Join(rest, [sep]) == rest[0];
        } else {
          assert |r| >= 2 && r[0] == [s[0]] + rest[0] && r[1..] == rest[1..];
          assert Join(rest, [sep]) == rest[0] + [sep] + Join(rest[1..], [sep]);
          assert Join(r, [sep]) == [s[0]] + rest[0] + [sep] + Join(rest[1..], [sep]);
        }
        assert Join(r, [sep]) == [s[0]] + Join(rest, [sep]);
        assert s == [s[0]] + s[1..];
      }
    }
  }

  /** The longest non-whitespace prefix of `s`. */
  function WordPrefix(s: string): (w: string)
    ensures |w| <= |s| && w == s[..|w|]
    ensures forall i | 0 <= i < |w| :: !IsSpace(w[i])
    ensures |w| == |s| || IsSpace(s[|w|])
    decreases |s|
  {
    if s == [] || IsSpace(s[0]) then "" else [s[0]] + WordPrefix(s[1..])
  }

  /** Python's `s.split()` without arguments: the maximal runs of non-whitespace. */
  function Words(s: string): (r: seq<string>)
    ensures forall i | 0 <= i < |r| :: r[i] != "" && forall k | 0 <= k < |r[i]| :: !IsSpace(r[i][k])
    decreases |s|
  {
    if s == [] then []
    else if IsSpace(s[0]) then Words(s[1..])
    else
      var w := WordPrefix(s);
      [w] + Words(s[|w|..])
  }

  /** Text without whitespace is one word (or none, when empty). */
  lemma {:induction false} WordsOfSpaceless(s: string)
    requires forall i | 0 <= i < |s| :: !IsSpace(s[i])
    ensures Words(s) == if s == [] then [] else [s]
  {
    if s != [] {
      var w := WordPrefix(s);
      assert w == s;
      assert Words(s[|w|..]) == [];
    }
  }

  /** Two words separated by one space split into exactly those two words. */
  lemma {:induction false} WordsOfPair(a: string, b: string)
    requires a != [] && forall i | 0 <= i < |a| :: !IsSpace(a[i])
    requires b != [] && forall i | 0 <= i < |b| :: !IsSpace(b[i])
    ensures Words(a + " " + b) == [a, b]
  {
    var s := a + " " + b;
    var w := WordPrefix(s);
    assert s[|a|] == ' ';
    assert w == a;
    assert s[|w|..] == " " + b;
    assert Words(" " + b) == Words(b) by { assert (" " + b)[1..] == b; }
    WordsOfSpaceless(b);
  }

  // ---------------------------------------------------------------- case

  /** Python's `s.lower()` restricted to ASCII letters. */
  function ToLower(s: string): (r: string)
    ensures |r| == |s|
    ensures forall i | 0 <= i < |s| :: r[i] == LowerChar(s[i])
  {
    seq(|s|, i requires 0 <= i < |s| => LowerChar(s[i]))
  }

  function LowerChar(c: char): char {
    if 'A' <= c <= 'Z' then (c as int + 32) as char else c
  }

  // ---------------------------------------------------------------- numbers

  /** The decimal digit character of d. */
  function Digit(d: nat): char
    requires d < 10
  {
    ('0' as int + d) as char
  }

  /** Python's `str(n)` for a natural number. */
  function NatToString(n: nat): (r: string)
    ensures r != []
    ensures forall i | 0 <= i < |r| :: '0' <= r[i] <= '9'
  {
    if n < 10 then [Digit(n)] else NatToString(n / 10) + [Digit(n % 10)]
  }

  /** Different numbers print differently. */
  lemma {:induction false} NatToStringInjective(a: nat, b: nat)
    requires NatToString(a) == NatToString(b)
    ensures a == b
    decreases a
  {
    var s := NatToString(a);
    if a < 10 && b < 10 {
      assert Digit(a) == s[0] == Digit(b);
    } else if a >= 10 && b >= 10 {
      assert Digit(a % 10) == s[|s| - 1] == Digit(b % 10);
      assert NatToString(a / 10) == s[..|s| - 1] == NatToString(b / 10);
      NatToStringInjective(a / 10, b / 10);
      assert a == (a / 10) * 10 + a % 10 && b == (b / 10) * 10 + b % 10;
    }
  }
}

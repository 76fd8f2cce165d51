// Character and string helpers shared by the Java and Python models:
// ASCII case folding, Java String.trim, Python str.strip/str.split and the
// decimal rendering used by str(int) and Integer.toString.
module Text {
  predicate IsAsciiUpper(c: char) { 'A' <= c <= 'Z' }

  function LowerChar(c: char): (r: char)
    ensures !IsAsciiUpper(r)
    ensures !IsAsciiUpper(c) ==> r == c
  {
    if IsAsciiUpper(c) then (c as int - 'A' as int + 'a' as int) as char else c
  }

  /** ASCII lower-casing: upper-case Latin letters become lower-case, every other character is kept. */
  function Lower(s: string): (r: string)
    ensures |r| == |s|
    ensures forall i :: 0 <= i < |s| ==> r[i] == LowerChar(s[i])
  {
    if s == [] then [] else [LowerChar(s[0])] + Lower(s[1..])
  }

  /** Lower-casing a string without upper-case letters changes nothing; in particular lower-casing is idempotent. */
  lemma LowerOfLower(s: string)
    requires forall c :: c in s ==> !IsAsciiUpper(c)
    ensures Lower(s) == s
  {
    forall i | 0 <= i < |s| ensures Lower(s)[i] == s[i] {
      assert s[i] in s;
    }
  }

  predicate StartsWith(s: string, prefix: string)
  {
    |prefix| <= |s| && s[..|prefix|] == prefix
  }

  predicate EndsWith(s: string, suffix: string)
  {
    |suffix| <= |s| && s[|s| - |suffix|..] == suffix
  }

  /** Python's `sub in s` on strings. */
  predicate Contains(s: string, sub: string)
    decreases |s|
  {
    StartsWith(s, sub) || (s != [] && Contains(s[1..], sub))
  }

  /** Every occurrence of `c` removed (Java/Python `replace(c, "")`). */
  function RemoveChar(s: string, c: char): (r: string)
    ensures c !in r
    ensures |r| <= |s|
    ensures forall x :: x in r ==> x in s
    ensures c !in s ==> r == s
  {
    if s == [] then [] else (if s[0] == c then [] else [s[0]]) + RemoveChar(s[1..], c)
  }

  /** Characters Java's String.trim removes: every code point up to U+0020. */
  predicate IsJavaTrimmed(c: char) { c <= ' ' }

  function JavaTrimStart(s: string): (r: string)
    ensures |r| <= |s| && r == s[|s| - |r|..]
    ensures r == [] || !IsJavaTrimmed(r[0])
  {
    if s != [] && IsJavaTrimmed(s[0]) then JavaTrimStart(s[1..]) else s
  }

  function JavaTrimEnd(s: string): (r: string)
    ensures |r| <= |s| && r == s[..|r|]
    ensures r == [] || !IsJavaTrimmed(r[|r| - 1])
  {
    if s != [] && IsJavaTrimmed(s[|s| - 1]) then JavaTrimEnd(s[..|s| - 1]) else s
  }

  /** Java String.trim: leading and trailing control characters and spaces removed. */
  function JavaTrim(s: string): (r: string)
    ensures r == [] || (!IsJavaTrimmed(r[0]) && !IsJavaTrimmed(r[|r| - 1]))
    ensures |r| <= |s|
    ensures forall c :: c in r ==> c in s
  {
    var t := JavaTrimStart(s);
    assert forall c :: c in t ==> c in s by {
      forall c | c in t ensures c in s {
        var j :| 0 <= j < |t| && t[j] == c;
        assert s[|s| - |t| + j] == c;
      }
    }
    JavaTrimEnd(t)
  }

  /** Trimming a string that is already trimmed changes nothing. */
  lemma JavaTrimOfTrimmed(s: string)
    requires s == [] || (!IsJavaTrimmed(s[0]) && !IsJavaTrimmed(s[|s| - 1]))
    ensures JavaTrim(s) == s
  {
  }

  /** Python str.isspace for a single character. */
  predicate IsPySpace(c: char)
  {
    c == ' ' || ('\t' <= c <= '\r') || ('\U{1c}' <= c <= '\U{1f}') || c == '\U{85}'
    || c == '\U{a0}' || c == '\U{1680}' || ('\U{2000}' <= c <= '\U{200a}')
    || c == '\U{2028}' || c == '\U{2029}' || c == '\U{202f}' || c == '\U{205f}' || c == '\U{3000}'
  }

  function PyStripStart(s: string): (r: string)
    ensures |r| <= |s| && r == s[|s| - |r|..]
    ensures r == [] || !IsPySpace(r[0])
  {
    if s != [] && IsPySpace(s[0]) then PyStripStart(s[1..]) else s
  }

  function PyStripEnd(s: string): (r: string)
    ensures |r| <= |s| && r == s[..|r|]
    ensures r == [] || !IsPySpace(r[|r| - 1])
  {
    if s != [] && IsPySpace(s[|s| - 1]) then PyStripEnd(s[..|s| - 1]) else s
  }

  /** Python str.strip() with no argument. */
  function PyStrip(s: string): (r: string)
    ensures r == [] || (!IsPySpace(r[0]) && !IsPySpace(r[|r| - 1]))
    ensures |r| <= |s|
  {
    PyStripEnd(PyStripStart(s))
  }

  /** Stripping a string without surrounding whitespace changes nothing. */
  lemma PyStripOfStripped(s: string)
    requires s == [] || (!IsPySpace(s[0]) && !IsPySpace(s[|s| - 1]))
    ensures PyStrip(s) == s
  {
  }

  /** Python str.lstrip(c) for a single character `c`. */
  function LStripChar(s: string, c: char): (r: string)
    ensures |r| <= |s| && r == s[|s| - |r|..]
    ensures r == [] || r[0] != c
  {
    if s != [] && s[0] == c then LStripChar(s[1..], c) else s
  }

  /** Index of the first character of `s` satisfying str.isspace, or |s|. */
  function FirstSpace(s: string): (i: nat)
    ensures i <= |s|
    ensures forall j :: 0 <= j < i ==> !IsPySpace(s[j])
    ensures i < |s| ==> IsPySpace(s[i])
  {
    if s == [] then 0 else if IsPySpace(s[0]) then 0 else 1 + FirstSpace(s[1..])
  }

  /** What `s.split(None, 1)` answers: no parts, one word, or a word and the rest. */
  datatype SplitResult = NoParts | OnePart(word: string) | TwoParts(word: string, rest: string)

  /**
   * Python `s.split(None, 1)`: leading whitespace is skipped, the first run of
   * non-space characters is the first part, and the rest after the following
   * whitespace run (trailing whitespace kept) is the second part if non-empty.
   */
  function SplitOnce(s: string): (parts: SplitResult)
    ensures parts.NoParts? <==> PyStripStart(s) == []
    ensures !parts.NoParts? ==> parts.word != [] && forall c :: c in parts.word ==> !IsPySpace(c)
    ensures parts.TwoParts? ==> parts.rest != [] && !IsPySpace(parts.rest[0])
  {
    var t := PyStripStart(s);
    if t == [] then NoParts
    else
      var i := FirstSpace(t);
      assert i > 0 by { assert !IsPySpace(t[0]); }
      WordBeforeSpace(t);
      var rest := PyStripStart(t[i..]);
      if rest == [] then OnePart(t[..i]) else TwoParts(t[..i], rest)
  }

  /** The characters before the first whitespace are all non-space. */
  lemma WordBeforeSpace(t: string)
    ensures forall c :: c in t[..FirstSpace(t)] ==> !IsPySpace(c)
  {
    forall c | c in t[..FirstSpace(t)] ensures !IsPySpace(c) {
      var j :| 0 <= j < FirstSpace(t) && t[..FirstSpace(t)][j] == c;
      assert t[j] == c;
    }
  }

  /** The first whitespace after a word of non-space characters is where the word ends. */
  lemma {:induction false} FirstSpaceAfterWord(w: string, rest: string)
    requires forall c :: c in w ==> !IsPySpace(c)
    requires rest == [] || IsPySpace(rest[0])
    ensures FirstSpace(w + rest) == |w|
    decreases |w|
  {
    if w != [] {
      assert w[0] in w;
      assert (w + rest)[1..] == w[1..] + rest;
      FirstSpaceAfterWord(w[1..], rest);
    }
  }

  /** A word, one space and a second part that starts with a non-space split into exactly those two. */
  lemma SplitOnceOfTwoWords(w: string, t: string)
    requires w != [] && forall c :: c in w ==> !IsPySpace(c)
    requires t != [] && !IsPySpace(t[0])
    ensures SplitOnce(w + " " + t) == TwoParts(w, t)
  {
    var s := w + " " + t;
    assert w[0] in w;
    assert PyStripStart(s) == s;
    assert s == w + (" " + t);
    FirstSpaceAfterWord(w, " " + t);
    assert s[..|w|] == w;
    assert s[|w|..] == " " + t;
    assert (" " + t)[1..] == t;
    assert IsPySpace((" " + t)[0]);
    assert PyStripStart(" " + t) == PyStripStart(t) == t;
  }

  /** A single word splits into itself alone. */
  lemma SplitOnceOfWord(w: string)
    requires w != [] && forall c :: c in w ==> !IsPySpace(c)
    ensures SplitOnce(w) == OnePart(w)
  {
    assert w[0] in w;
    assert PyStripStart(w) == w;
    FirstSpaceAfterWord(w, []);
    assert w + [] == w;
  }

  function DigitChar(d: nat): (c: char)
    requires d < 10
    ensures '0' <= c <= '9'
  {
    ('0' as int + d) as char
  }

  /** Decimal digits of a natural number, most significant first. */
  function NatToString(n: nat): (r: string)
    ensures r != []
    ensures forall c :: c in r ==> '0' <= c <= '9'
    ensures (|r| == 1) <==> n < 10
  {
    if n < 10 then [DigitChar(n)] else NatToString(n / 10) + [DigitChar(n % 10)]
  }

  /** Python str(int) / Java Integer.toString and Long.toString. */
  function IntToString(n: int): (r: string)
    ensures r != []
    ensures n >= 0 ==> r[0] != '-'
    ensures n < 0 ==> r[0] == '-'
    ensures forall c :: c in r ==> c == '-' || '0' <= c <= '9'
  {
    if n >= 0 then
      assert NatToString(n)[0] in NatToString(n);
      NatToString(n)
    else "-" + NatToString(-n)
  }

  lemma {:induction false} NatToStringInjective(a: nat, b: nat)
    requires NatToString(a) == NatToString(b)
    ensures a == b
  {
    if a >= 10 && b >= 10 {
      var ra, rb := NatToString(a / 10), NatToString(b / 10);
      assert NatToString(a) == ra + [DigitChar(a % 10)];
      assert NatToString(b) == rb + [DigitChar(b % 10)];
      assert ra == NatToString(a)[..|ra|];
      assert rb == NatToString(b)[..|rb|];
      assert |ra| == |rb|;
      NatToStringInjective(a / 10, b / 10);
      assert DigitChar(a % 10) == NatToString(a)[|ra|];
    } else if a < 10 && b < 10 {
      assert NatToString(a)[0] == DigitChar(a);
    }
  }

  /** Distinct integers are rendered as distinct decimal strings. */
  lemma IntToStringInjective(a: int, b: int)
    requires IntToString(a) == IntToString(b)
    ensures a == b
  {
    if a >= 0 && b >= 0 {
      NatToStringInjective(a, b);
    } else if a < 0 && b < 0 {
      assert IntToString(a)[1..] == NatToString(-a);
      assert IntToString(b)[1..] == NatToString(-b);
      NatToStringInjective(-a, -b);
    }
  }

  /** Distinct values keep keys built as `prefix + str(value) + suffix` distinct. */
  lemma KeyInjective(prefix: string, a: int, b: int, suffix: string)
    requires prefix + IntToString(a) + suffix == prefix + IntToString(b) + suffix
    ensures a == b
  {
    var k := prefix + IntToString(a) + suffix;
    var sa, sb := IntToString(a), IntToString(b);
    assert |sa| == |sb|;
    assert sa == k[|prefix|..|prefix| + |sa|];
    assert sb == k[|prefix|..|prefix| + |sb|];
    IntToStringInjective(a, b);
  }

  /** A separator that occurs in neither prefix splits `prefix + [sep] + rest` unambiguously. */
  lemma SeparatorSplit(a: string, r1: string, b: string, r2: string, sep: char)
    requires sep !in a && sep !in b
    requires a + [sep] + r1 == b + [sep] + r2
    ensures a == b && r1 == r2
  {
    var k := a + [sep] + r1;
    assert k[|a|] == sep;
    assert (b + [sep] + r2)[|b|] == sep;
    assert |a| == |b|;
    assert a == k[..|a|] == b;
    assert r1 == k[|a| + 1..] == r2;
  }
}

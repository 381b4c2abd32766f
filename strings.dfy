/** The string building the gather command relies on from Go's fmt, strings
    and path/filepath packages. Numerals and joined word lists come with the
    inverse that shows what the built string means to whoever reads it:
    digits read back (`DigitsValue`) and splitting at spaces (`Fields`). */
module Strings {

  function Pow10(k: nat): (p: nat)
    ensures p >= 1
  {
    if k == 0 then 1 else 10 * Pow10(k - 1)
  }

  predicate IsDigit(c: char) {
    '0' <= c <= '9'
  }

  predicate AllDigits(s: string) {
    forall i :: 0 <= i < |s| ==> IsDigit(s[i])
  }

  function DigitChar(d: nat): (c: char)
    requires d < 10
    ensures IsDigit(c) && c as int - '0' as int == d
  {
    ('0' as int + d) as char
  }

  /** A decimal numeral with at least `width` digits, zero-padded on the left:
      what fmt's `%d` (width 1) and the fixed-width fields of a time layout write. */
  function Pad(n: nat, width: nat): (s: string)
    ensures |s| >= 1 && |s| >= width && AllDigits(s)
    decreases n + width
  {
    if n < 10 && width <= 1 then [DigitChar(n)]
    else Pad(n / 10, if width == 0 then 0 else width - 1) + [DigitChar(n % 10)]
  }

  /** `fmt.Sprintf("%d", n)` for a non-negative n. */
  function Decimal(n: nat): string {
    Pad(n, 1)
  }

  /** The number a string of decimal digits denotes (leading zeros allowed). */
  function DigitsValue(s: string): nat
    requires AllDigits(s)
  {
    if s == [] then 0 else DigitsValue(s[..|s| - 1]) * 10 + (s[|s| - 1] as int - '0' as int)
  }

  /** Reading back a padded numeral gives the number that was written. */
  lemma {:induction false} PadValue(n: nat, width: nat)
    ensures DigitsValue(Pad(n, width)) == n
    decreases n + width
  {
    if n < 10 && width <= 1 {
    } else {
      var w' := if width == 0 then 0 else width - 1;
      var p := Pad(n / 10, w');
      PadValue(n / 10, w');
      assert Pad(n, width) == p + [DigitChar(n % 10)];
      assert (p + [DigitChar(n % 10)])[..|p|] == p;
    }
  }

  /** A number below 10^width is written with exactly `width` digits. */
  lemma {:induction false} PadLength(n: nat, width: nat)
    requires width >= 1 && n < Pow10(width)
    ensures |Pad(n, width)| == width
    decreases width
  {
    if width == 1 {
      assert Pow10(1) == 10;
    } else {
      assert n / 10 < Pow10(width - 1);
      PadLength(n / 10, width - 1);
    }
  }

  /** Byte-wise lexicographic order, Go's `<` on strings (for ASCII text). */
  predicate LexLess(s: string, t: string)
    decreases |s|
  {
    if s == [] then t != []
    else t != [] && (s[0] < t[0] || (s[0] == t[0] && LexLess(s[1..], t[1..])))
  }

  /** Between strings of equal length, the order of two prefixes decides the
      order of any extensions of them. */
  lemma {:induction false} LexLessPrefix(p: string, q: string, x: string, y: string)
    requires |p| == |q| && LexLess(p, q)
    ensures LexLess(p + x, q + y)
    decreases |p|
  {
    if p[0] == q[0] {
      assert (p + x)[1..] == p[1..] + x;
      assert (q + y)[1..] == q[1..] + y;
      LexLessPrefix(p[1..], q[1..], x, y);
    }
  }

  /** Behind a common prefix, the order of the rests decides. */
  lemma {:induction false} LexLessCommonPrefix(p: string, x: string, y: string)
    requires LexLess(x, y)
    ensures LexLess(p + x, p + y)
    decreases |p|
  {
    if p != [] {
      assert (p + x)[0] == p[0] == (p + y)[0];
      assert (p + x)[1..] == p[1..] + x;
      assert (p + y)[1..] == p[1..] + y;
      LexLessCommonPrefix(p[1..], x, y);
      assert LexLess((p + x)[1..], (p + y)[1..]);
    } else {
      assert p + x == x && p + y == y;
    }
  }

  /** Fixed-width numerals sort as the numbers they denote. */
  lemma {:induction false} PadOrder(a: nat, b: nat, width: nat)
    requires width >= 1 && a < b < Pow10(width)
    ensures LexLess(Pad(a, width), Pad(b, width))
    decreases width
  {
    if width == 1 {
      assert Pow10(1) == 10;
    } else {
      var w' := width - 1;
      assert a / 10 <= b / 10 < Pow10(w');
      PadLength(a / 10, w');
      PadLength(b / 10, w');
      var pa, pb := Pad(a / 10, w'), Pad(b / 10, w');
      assert Pad(a, width) == pa + [DigitChar(a % 10)];
      assert Pad(b, width) == pb + [DigitChar(b % 10)];
      if a / 10 < b / 10 {
        PadOrder(a / 10, b / 10, w');
        LexLessPrefix(pa, pb, [DigitChar(a % 10)], [DigitChar(b % 10)]);
      } else {
        assert a % 10 < b % 10;
        LexLessCommonPrefix(pa, [DigitChar(a % 10)], [DigitChar(b % 10)]);
      }
    }
  }

  /** `strings.Join(elems, sep)`. */
  function Join(elems: seq<string>, sep: string): (s: string)
  {
    if elems == [] then ""
    else if |elems| == 1 then elems[0]
    else elems[0] + sep + Join(elems[1..], sep)
  }

  /** A word between spaces: non-empty and free of the separator. */
  predicate IsWord(w: string) {
    w != [] && ' ' !in w
  }

  /** Length of the leading run of non-space characters. */
  function WordLength(s: string): (n: nat)
    ensures n <= |s|
    ensures forall i :: 0 <= i < n ==> s[i] != ' '
    ensures n == |s| || s[n] == ' '
  {
    if s == [] || s[0] == ' ' then 0 else 1 + WordLength(s[1..])
  }

  /** The words of a command line separated by runs of spaces: how the
      remote command splits at spaces into a program and its arguments. */
  function Fields(s: string): seq<string>
    decreases |s|
  {
    if s == [] then []
    else if s[0] == ' ' then Fields(s[1..])
    else [s[..WordLength(s)]] + Fields(s[WordLength(s)..])
  }

  /** Every field is a word. */
  lemma {:induction false} FieldsAreWords(s: string)
    ensures forall w :: w in Fields(s) ==> IsWord(w)
    decreases |s|
  {
    if s == [] {
    } else if s[0] == ' ' {
      FieldsAreWords(s[1..]);
    } else {
      var n := WordLength(s);
      FieldsAreWords(s[n..]);
      assert IsWord(s[..n]) by {
        assert n >= 1;
        forall i | 0 <= i < n ensures s[..n][i] != ' ' { }
      }
    }
  }

  lemma {:induction false} WordLengthOfWord(w: string, rest: string)
    requires IsWord(w) && (rest == [] || rest[0] == ' ')
    ensures WordLength(w + rest) == |w|
    decreases |w|
  {
    assert (w + rest)[0] == w[0];
    if |w| > 1 {
      assert (w + rest)[1..] == w[1..] + rest;
      assert w[1..][0] == w[1];
      WordLengthOfWord(w[1..], rest);
    }
  }

  /** A word followed by a space or the end is the first field. */
  lemma FieldsOfWord(w: string, rest: string)
    requires IsWord(w) && (rest == [] || rest[0] == ' ')
    ensures Fields(w + rest) == [w] + Fields(rest)
  {
    WordLengthOfWord(w, rest);
    assert (w + rest)[0] == w[0];
    assert (w + rest)[..|w|] == w;
    assert (w + rest)[|w|..] == rest;
  }

  lemma FieldsOfSpace(s: string)
    ensures Fields(" " + s) == Fields(s)
  {
    assert (" " + s)[1..] == s;
  }

  /** Joining words with single spaces and splitting the result again gives
      back the words. */
  lemma {:induction false} FieldsOfJoin(elems: seq<string>)
    requires forall e :: e in elems ==> IsWord(e)
    ensures Fields(Join(elems, " ")) == elems
    decreases |elems|
  {
    if elems == [] {
    } else if |elems| == 1 {
      FieldsOfWord(elems[0], "");
      assert elems[0] + "" == elems[0];
    } else {
      var rest := Join(elems[1..], " ");
      FieldsOfJoin(elems[1..]);
      assert Join(elems, " ") == elems[0] + (" " + rest);
      FieldsOfWord(elems[0], " " + rest);
      FieldsOfSpace(rest);
    }
  }

  /** `filepath.Join(dir, elem)` for an `elem` that is a plain file name;
      the lexical clean-up of `dir` is not modelled. */
  function PathJoin(dir: string, elem: string): (p: string)
    ensures |p| >= |elem| && p[|p| - |elem|..] == elem
  {
    if dir == [] then elem
    else if dir[|dir| - 1] == '/' then dir + elem
    else dir + "/" + elem
  }

  /** The joined path is the file name alone for an empty directory, and
      otherwise the directory, one '/' unless it already ends in one, and
      the file name. */
  lemma PathJoinParts(dir: string, elem: string)
    ensures var p := PathJoin(dir, elem);
      (dir == [] ==> p == elem)
      && (dir != [] ==> |p| >= |dir| && |p| > |elem| && p[..|dir|] == dir && p[|p| - |elem| - 1] == '/')
      && (dir != [] ==> p[..|p| - |elem|] == (if dir[|dir| - 1] == '/' then dir else dir + "/"))
  {
  }

  /** `fmt.Sprintf("%q", s)` for a string without characters that need escaping. */
  function Quote(s: string): string {
    "\"" + s + "\""
  }

  /** `sub` occurs in `s` at index `i`. */
  predicate OccursAt(s: string, sub: string, i: nat) {
    i + |sub| <= |s| && s[i..i + |sub|] == sub
  }

  /** `strings.Contains(s, sub)`. */
  predicate Contains(s: string, sub: string) {
    exists i: nat | i <= |s| :: OccursAt(s, sub, i)
  }
}

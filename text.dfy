/**
 * The few pieces of Python's `str` behaviour the core relies on:
 * `str(int)`, `str.lower`, the `in` substring test, `str.rstrip`,
 * the UTF-8 byte length of a string, and reading a text file line by line.
 */
module Text {

  // ---------------------------------------------------------------------------
  // str(n) for integers

  predicate IsDigit(c: char) {
    '0' <= c <= '9'
  }

  function DigitChar(d: nat): (c: char)
    requires d < 10
    ensures IsDigit(c) && c as int - '0' as int == d
  {
    ('0' as int + d) as char
  }

  /** `str(n)` for a non-negative Python int: decimal digits, no leading zero. */
  function DecimalString(n: nat): (s: string)
    ensures |s| > 0
    ensures forall i :: 0 <= i < |s| ==> IsDigit(s[i])
    ensures s[0] == '0' ==> s == "0"
    decreases n
  {
    if n < 10 then [DigitChar(n)] else DecimalString(n / 10) + [DigitChar(n % 10)]
  }

  /** The value of a string of decimal digits (Python's `int(s)` on such a string). */
  function DecimalValue(s: string): nat
    requires forall i :: 0 <= i < |s| ==> IsDigit(s[i])
  {
    if s == [] then 0
    else 10 * DecimalValue(s[..|s| - 1]) + DigitValue(s[|s| - 1])
  }

  function DigitValue(c: char): (d: nat)
    requires IsDigit(c)
    ensures d < 10
  {
    c as int - '0' as int
  }

  lemma {:induction false} DecimalRoundTrip(n: nat)
    ensures DecimalValue(DecimalString(n)) == n
    decreases n
  {
    if n >= 10 {
      var s := DecimalString(n);
      assert s[..|s| - 1] == DecimalString(n / 10);
      DecimalRoundTrip(n / 10);
    }
  }

  /** Two ports print the same only if they are the same port. */
  lemma DecimalStringInjective(m: nat, n: nat)
    requires DecimalString(m) == DecimalString(n)
    ensures m == n
  {
    DecimalRoundTrip(m);
    DecimalRoundTrip(n);
  }

  /** `str(i)` for any Python int. */
  function IntString(i: int): (s: string)
    ensures |s| > 0
    ensures s[0] == '-' <==> i < 0
  {
    if i < 0 then "-" + DecimalString(-i) else DecimalString(i)
  }

  // ---------------------------------------------------------------------------
  // UTF-8 length, as in len(s.encode("utf-8"))

  function Utf8Width(c: char): (w: nat)
    ensures 1 <= w <= 4
    ensures w == 1 <==> c as int < 0x80
  {
    if c as int < 0x80 then 1
    else if c as int < 0x800 then 2
    else if c as int < 0x1_0000 then 3
    else 4
  }

  function Utf8Length(s: string): nat {
    if s == [] then 0 else Utf8Length(s[..|s| - 1]) + Utf8Width(s[|s| - 1])
  }

  /** For ASCII text the byte count equals the character count. */
  lemma {:induction false} AsciiUtf8Length(s: string)
    requires forall i :: 0 <= i < |s| ==> s[i] as int < 0x80
    ensures Utf8Length(s) == |s|
  {
    if s != [] {
      AsciiUtf8Length(s[..|s| - 1]);
    }
  }

  lemma DecimalUtf8Length(n: nat)
    ensures Utf8Length(DecimalString(n)) == |DecimalString(n)|
  {
    AsciiUtf8Length(DecimalString(n));
  }

  // ---------------------------------------------------------------------------
  // str.lower, restricted to ASCII letters

  function LowerChar(c: char): (l: char)
    ensures !('A' <= l <= 'Z')
    ensures !('A' <= c <= 'Z') ==> l == c
  {
    if 'A' <= c <= 'Z' then (c as int + 32) as char else c
  }

  function Lower(s: string): (r: string)
    ensures |r| == |s|
    ensures forall i :: 0 <= i < |s| ==> r[i] == LowerChar(s[i])
  {
    seq(|s|, i requires 0 <= i < |s| => LowerChar(s[i]))
  }

  // ---------------------------------------------------------------------------
  // `needle in hay` for strings

  /** `needle in hay`, scanning the start positions of `hay` from the left. */
  predicate Contains(hay: string, needle: string)
    decreases |hay|
  {
    |needle| <= |hay| && (hay[..|needle|] == needle || Contains(hay[1..], needle))
  }

  /** `needle` occurs in `hay` starting at index `k`. */
  predicate OccursAt(hay: string, needle: string, k: nat) {
    k + |needle| <= |hay| && hay[k..k + |needle|] == needle
  }

  /** The scan agrees with the textbook definition: some window of `hay` equals `needle`. */
  lemma {:induction false} ContainsIff(hay: string, needle: string)
    ensures Contains(hay, needle) <==> exists k: nat :: OccursAt(hay, needle, k)
    decreases |hay|
  {
    if |needle| <= |hay| {
      if hay[..|needle|] == needle {
        assert OccursAt(hay, needle, 0);
      } else {
        ContainsIff(hay[1..], needle);
        if Contains(hay[1..], needle) {
          var k: nat :| OccursAt(hay[1..], needle, k);
          assert hay[k + 1..k + 1 + |needle|] == hay[1..][k..k + |needle|];
          assert OccursAt(hay, needle, k + 1);
        }
        if exists k: nat :: OccursAt(hay, needle, k) {
          var k: nat :| OccursAt(hay, needle, k);
          assert k != 0;
          assert hay[1..][k - 1..k - 1 + |needle|] == hay[k..k + |needle|];
          assert OccursAt(hay[1..], needle, k - 1);
        }
      }
    }
  }

  // ---------------------------------------------------------------------------
  // str.isspace and str.rstrip()

  /** The characters for which Python's `str.isspace()` holds. */
  predicate IsSpace(c: char) {
    var x := c as int;
    (0x09 <= x <= 0x0D) || (0x1C <= x <= 0x20) || x == 0x85 || x == 0xA0 ||
    x == 0x1680 || (0x2000 <= x <= 0x200A) || x == 0x2028 || x == 0x2029 ||
    x == 0x202F || x == 0x205F || x == 0x3000
  }

  /** `s.rstrip()`: `s` without its trailing whitespace. */
  function RStrip(s: string): (r: string)
    ensures |r| <= |s| && r == s[..|r|]
    ensures r == [] || !IsSpace(r[|r| - 1])
    ensures forall i :: |r| <= i < |s| ==> IsSpace(s[i])
    decreases |s|
  {
    if s != [] && IsSpace(s[|s| - 1]) then RStrip(s[..|s| - 1]) else s
  }

  /** A string that does not end in whitespace is its own rstrip. */
  lemma RStripOfClean(s: string)
    requires s == [] || !IsSpace(s[|s| - 1])
    ensures RStrip(s) == s
  {
  }

  /** Trailing whitespace added to a string disappears again under rstrip. */
  lemma {:induction false} RStripDropsSpaces(s: string, w: string)
    requires forall i :: 0 <= i < |w| ==> IsSpace(w[i])
    ensures RStrip(s + w) == RStrip(s)
    decreases |w|
  {
    if w != [] {
      var t := s + w;
      assert t[..|t| - 1] == s + w[..|w| - 1];
      RStripDropsSpaces(s, w[..|w| - 1]);
    } else {
      assert s + w == s;
    }
  }

  // ---------------------------------------------------------------------------
  // Lines of a text file

  /** `"".join(lines)`: the lines one after the other, nothing added between them. */
  function Concat(lines: seq<string>): string {
    if lines == [] then "" else lines[0] + Concat(lines[1..])
  }

  lemma {:induction false} ConcatSnoc(lines: seq<string>, line: string)
    ensures Concat(lines + [line]) == Concat(lines) + line
  {
    if lines == [] {
      assert lines + [line] == [line];
    } else {
      assert (lines + [line])[1..] == lines[1..] + [line];
      ConcatSnoc(lines[1..], line);
    }
  }

  /**
   * Universal-newline translation done by Python when reading a file in text
   * mode: "\r\n" and a lone "\r" both become "\n".
   */
  function TranslateNewlines(t: string): (r: string)
    ensures forall i :: 0 <= i < |r| ==> r[i] != '\r'
    decreases |t|
  {
    if t == [] then ""
    else if t[0] == '\r' then "\n" + TranslateNewlines(if |t| > 1 && t[1] == '\n' then t[2..] else t[1..])
    else [t[0]] + TranslateNewlines(t[1..])
  }

  lemma {:induction false} TranslateWithoutCarriageReturn(t: string)
    requires forall i :: 0 <= i < |t| ==> t[i] != '\r'
    ensures TranslateNewlines(t) == t
    decreases |t|
  {
    if t != [] {
      TranslateWithoutCarriageReturn(t[1..]);
    }
  }

  /** Length of the first line of `t`, its "\n" included. */
  function LineLength(t: string): (k: nat)
    requires t != []
    ensures 0 < k <= |t|
    ensures forall j :: 0 <= j < k - 1 ==> t[j] != '\n'
    ensures k < |t| ==> t[k - 1] == '\n'
    decreases |t|
  {
    if t[0] == '\n' || |t| == 1 then 1 else 1 + LineLength(t[1..])
  }

  /** A list of lines as `readlines` produces it. */
  ghost predicate WellFormedLines(lines: seq<string>) {
    (forall i :: 0 <= i < |lines| ==> lines[i] != []) &&
    (forall i :: 0 <= i < |lines| - 1 ==> lines[i][|lines[i]| - 1] == '\n') &&
    (forall i, j :: 0 <= i < |lines| && 0 <= j < |lines[i]| - 1 ==> lines[i][j] != '\n')
  }

  /** Cutting text after each "\n"; the last piece may lack one. */
  function SplitLines(t: string): (lines: seq<string>)
    ensures Concat(lines) == t
    ensures WellFormedLines(lines)
    ensures lines == [] <==> t == []
    decreases |t|
  {
    if t == [] then []
    else
      var k := LineLength(t);
      var first := t[..k];
      var rest := SplitLines(t[k..]);
      assert t == first + t[k..];
      WellFormedCons(first, rest);
      [first] + rest
  }

  lemma WellFormedCons(first: string, rest: seq<string>)
    requires first != [] && WellFormedLines(rest)
    requires forall j :: 0 <= j < |first| - 1 ==> first[j] != '\n'
    requires rest != [] ==> first[|first| - 1] == '\n'
    ensures WellFormedLines([first] + rest)
    ensures Concat([first] + rest) == first + Concat(rest)
  {
    var lines := [first] + rest;
    assert lines[1..] == rest;
    forall i | 1 <= i < |lines| ensures lines[i] == rest[i - 1] { }
  }

  /** Every character of every line read comes from the text. */
  lemma {:induction false} SplitLinesChars(t: string, c: char)
    requires forall k :: 0 <= k < |t| ==> t[k] != c
    ensures forall i, j :: 0 <= i < |SplitLines(t)| && 0 <= j < |SplitLines(t)[i]| ==> SplitLines(t)[i][j] != c
    decreases |t|
  {
    if t != [] {
      var k := LineLength(t);
      SplitLinesChars(t[k..], c);
      assert SplitLines(t) == [t[..k]] + SplitLines(t[k..]);
    }
  }

  /** `f.readlines()` on a file opened in text mode with default newline handling. */
  function ReadLines(text: string): (lines: seq<string>)
    ensures Concat(lines) == TranslateNewlines(text)
    ensures WellFormedLines(lines)
    ensures lines == [] <==> text == []
    ensures forall i, j :: 0 <= i < |lines| && 0 <= j < |lines[i]| ==> lines[i][j] != '\r'
  {
    SplitLinesChars(TranslateNewlines(text), '\r');
    SplitLines(TranslateNewlines(text))
  }

  /** Empty text translates to empty text. */
  lemma TranslateEmpty(t: string)
    ensures TranslateNewlines(t) == [] <==> t == []
  {
  }

  /** The line `readlines` cuts off first is exactly a well-formed first line. */
  lemma LineLengthOfConcat(line: string, rest: string)
    requires line != []
    requires forall j :: 0 <= j < |line| - 1 ==> line[j] != '\n'
    requires rest != [] ==> line[|line| - 1] == '\n'
    ensures LineLength(line + rest) == |line|
  {
    var t := line + rest;
    assert forall j :: 0 <= j < |line| ==> t[j] == line[j];
  }

  /** Reading back what was written gives the same lines, when they are well formed. */
  lemma {:induction false} SplitConcat(lines: seq<string>)
    requires WellFormedLines(lines)
    ensures SplitLines(Concat(lines)) == lines
  {
    if lines != [] {
      var rest := Concat(lines[1..]);
      assert Concat(lines) == lines[0] + rest;
      assert rest != [] ==> lines[1..] != [] by {
        if lines[1..] == [] { assert rest == ""; }
      }
      LineLengthOfConcat(lines[0], rest);
      assert (lines[0] + rest)[|lines[0]|..] == rest;
      assert (lines[0] + rest)[..|lines[0]|] == lines[0];
      assert WellFormedLines(lines[1..]) by {
        forall i | 0 <= i < |lines[1..]| ensures lines[1..][i] == lines[i + 1] { }
      }
      SplitConcat(lines[1..]);
    }
  }

  /** A concatenation contains only characters of its lines. */
  lemma {:induction false} ConcatChars(lines: seq<string>, c: char)
    requires forall i, j :: 0 <= i < |lines| && 0 <= j < |lines[i]| ==> lines[i][j] != c
    ensures forall k :: 0 <= k < |Concat(lines)| ==> Concat(lines)[k] != c
  {
    if lines != [] {
      ConcatChars(lines[1..], c);
      var rest := Concat(lines[1..]);
      forall k | 0 <= k < |Concat(lines)| ensures Concat(lines)[k] != c {
        if k >= |lines[0]| {
          assert Concat(lines)[k] == rest[k - |lines[0]|];
        } else {
          assert Concat(lines)[k] == lines[0][k];
        }
      }
    }
  }
}

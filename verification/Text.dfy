/** The Python string operations the parsers are written with: `str.isspace`,
    `strip`, `split("\n")`, `"\n".join`, `splitlines` and decimal numerals. */
module Text {

  const LF := '\n'

  /** `str.isspace` for one character, which is also what `\s` matches. */
  predicate IsSpace(c: char) {
    '\U{0009}' <= c <= '\U{000D}' || '\U{001C}' <= c <= '\U{0020}' || c == '\U{0085}'
    || c == '\U{00A0}' || c == '\U{1680}' || '\U{2000}' <= c <= '\U{200A}'
    || c == '\U{2028}' || c == '\U{2029}' || c == '\U{202F}' || c == '\U{205F}' || c == '\U{3000}'
  }

  /** Where `str.splitlines` ends a line. */
  predicate IsBreak(c: char) {
    '\U{000A}' <= c <= '\U{000D}' || '\U{001C}' <= c <= '\U{001E}' || c == '\U{0085}'
    || c == '\U{2028}' || c == '\U{2029}'
  }

  predicate AllSpace(s: string) {
    forall k :: 0 <= k < |s| ==> IsSpace(s[k])
  }

  // ----- strip ---------------------------------------------------------------

  function LStrip(s: string): (r: string)
    ensures r != "" ==> !IsSpace(r[0])
  {
    if s != "" && IsSpace(s[0]) then LStrip(s[1..]) else s
  }

  function RStrip(s: string): (r: string)
    ensures r <= s
    ensures r != "" ==> !IsSpace(r[|r| - 1])
  {
    if s != "" && IsSpace(s[|s| - 1]) then RStrip(s[..|s| - 1]) else s
  }

  function Strip(s: string): (r: string)
    ensures r != "" ==> !IsSpace(r[0]) && !IsSpace(r[|r| - 1])
  {
    RStrip(LStrip(s))
  }

  lemma {:induction false} LStripPad(a: string, x: string)
    requires AllSpace(a)
    ensures LStrip(a + x) == LStrip(x)
  {
    if a == "" {
      assert a + x == x;
    } else {
      assert (a + x)[1..] == a[1..] + x;
      LStripPad(a[1..], x);
    }
  }

  lemma {:induction false} RStripPad(x: string, b: string)
    requires AllSpace(b)
    ensures RStrip(x + b) == RStrip(x)
  {
    if b == "" {
      assert x + b == x;
    } else {
      assert (x + b)[..|x + b| - 1] == x + b[..|b| - 1];
      RStripPad(x, b[..|b| - 1]);
    }
  }

  lemma {:induction false} LStripKeepsTail(x: string, b: string)
    requires !AllSpace(x)
    ensures LStrip(x + b) == LStrip(x) + b && LStrip(x) != ""
  {
    if IsSpace(x[0]) {
      assert (x + b)[1..] == x[1..] + b;
      LStripKeepsTail(x[1..], b);
    }
  }

  lemma {:induction false} AllSpaceStrips(s: string)
    requires AllSpace(s)
    ensures LStrip(s) == RStrip(s) == Strip(s) == ""
  {
    LStripPad(s, "");
    assert s + "" == s;
    RStripPad("", s);
    assert "" + s == s;
  }

  /** Whitespace on either side of a text is invisible after `strip`. */
  lemma {:induction false} StripPad(a: string, x: string, b: string)
    requires AllSpace(a) && AllSpace(b)
    ensures Strip(a + x + b) == Strip(x)
  {
    assert a + x + b == a + (x + b);
    LStripPad(a, x + b);
    if AllSpace(x) {
      AllSpaceStrips(x);
      AllSpaceStrips(x + b);
    } else {
      LStripKeepsTail(x, b);
      RStripPad(LStrip(x), b);
    }
  }

  lemma {:induction false} StripIdempotent(s: string)
    ensures Strip(Strip(s)) == Strip(s)
  {
    var r := Strip(s);
    if r != "" {
      assert LStrip(r) == r;
    }
  }

  // ----- lines ---------------------------------------------------------------

  /** `s.split("\n")`: never empty, and no piece holds a line feed. */
  function SplitLF(s: string): (r: seq<string>)
    ensures r != []
    ensures forall k :: 0 <= k < |r| ==> LF !in r[k]
  {
    if s == "" then [""]
    else if s[0] == LF then [""] + SplitLF(s[1..])
    else
      var rest := SplitLF(s[1..]);
      [[s[0]] + rest[0]] + rest[1..]
  }

  /** `"\n".join(lines)`. */
  function JoinLF(lines: seq<string>): string {
    if lines == [] then "" else if |lines| == 1 then lines[0]
    else lines[0] + [LF] + JoinLF(lines[1..])
  }

  lemma {:induction false} SplitAppend(a: string, b: string)
    ensures SplitLF(a + [LF] + b) == SplitLF(a) + SplitLF(b)
  {
    if a == "" {
      assert a + [LF] + b == [LF] + b;
    } else {
      assert (a + [LF] + b)[1..] == a[1..] + [LF] + b;
      SplitAppend(a[1..], b);
    }
  }

  lemma {:induction false} SplitOneLine(s: string)
    requires LF !in s
    ensures SplitLF(s) == [s]
  {
    if s != "" {
      SplitOneLine(s[1..]);
      assert [s[0]] + s[1..] == s;
    }
  }

  /** `split` undoes `join` on pieces that hold no line feed. */
  lemma {:induction false} SplitJoin(lines: seq<string>)
    requires lines != [] && forall k :: 0 <= k < |lines| ==> LF !in lines[k]
    ensures SplitLF(JoinLF(lines)) == lines
  {
    if |lines| == 1 {
      SplitOneLine(lines[0]);
    } else {
      SplitAppend(lines[0], JoinLF(lines[1..]));
      SplitOneLine(lines[0]);
      SplitJoin(lines[1..]);
    }
  }

  /** `join` undoes `split`. */
  lemma {:induction false} JoinSplit(s: string)
    ensures JoinLF(SplitLF(s)) == s
  {
    if s != "" {
      JoinSplit(s[1..]);
      var rest := SplitLF(s[1..]);
      if s[0] != LF && |rest| > 1 {
        assert SplitLF(s)[1..] == rest[1..];
        assert JoinLF(SplitLF(s)) == [s[0]] + rest[0] + [LF] + JoinLF(rest[1..]);
        assert [s[0]] + (rest[0] + [LF] + JoinLF(rest[1..])) == [s[0]] + rest[0] + [LF] + JoinLF(rest[1..]);
      } else if s[0] == LF {
        assert SplitLF(s)[1..] == rest;
      }
    }
  }

  lemma {:induction false} JoinAppend(a: seq<string>, b: seq<string>)
    requires a != [] && b != []
    ensures JoinLF(a + b) == JoinLF(a) + [LF] + JoinLF(b)
  {
    if |a| == 1 {
      assert (a + b)[1..] == b;
    } else {
      assert (a + b)[1..] == a[1..] + b;
      JoinAppend(a[1..], b);
    }
  }

  /** `str.splitlines`: no piece holds a line boundary; a final boundary opens no
      further piece, and `\r\n` is one boundary. */
  function SplitLines(s: string): (r: seq<string>)
    ensures s != "" ==> r != []
    ensures forall k :: 0 <= k < |r| ==> NoBreaks(r[k])
    decreases |s|
  {
    if s == "" then []
    else if s[0] == '\r' && |s| > 1 && s[1] == LF then [""] + SplitLines(s[2..])
    else if IsBreak(s[0]) then [""] + SplitLines(s[1..])
    else if |s| == 1 then [s]
    else
      var rest := SplitLines(s[1..]);
      [[s[0]] + rest[0]] + rest[1..]
  }

  /** `" ".join(parts)`. */
  function JoinSpace(parts: seq<string>): string {
    if parts == [] then "" else if |parts| == 1 then parts[0] else parts[0] + " " + JoinSpace(parts[1..])
  }

  predicate NoBreaks(s: string) {
    forall k :: 0 <= k < |s| ==> !IsBreak(s[k])
  }

  // ----- lower case ------------------------------------------------------------

  /** `str.lower` as far as a comparison with an ASCII word can tell: U+212A is the one
      character outside ASCII whose whole lower case is an ASCII letter. */
  function Lowered(s: string): string {
    if s == "" then ""
    else
      var c := s[0];
      [if 'A' <= c <= 'Z' then (c as int + 32) as char else if c == '\U{212A}' then 'k' else c] + Lowered(s[1..])
  }

  lemma {:induction false} LoweredStays(s: string)
    requires forall k :: 0 <= k < |s| ==> !('A' <= s[k] <= 'Z') && s[k] != '\U{212A}'
    ensures Lowered(s) == s
  {
    if s != "" {
      LoweredStays(s[1..]);
    }
  }

  // ----- numerals ------------------------------------------------------------

  predicate IsDigit(c: char) { '0' <= c <= '9' }

  predicate AllDigits(s: string) {
    s != "" && forall k :: 0 <= k < |s| ==> IsDigit(s[k])
  }

  function DigitChar(d: nat): (c: char)
    requires d < 10
    ensures IsDigit(c) && (c as int) - ('0' as int) == d
  {
    ('0' as int + d) as char
  }

  /** Length of the leading run of digits. */
  function DigitRun(s: string): (n: nat)
    ensures n <= |s| && forall k :: 0 <= k < n ==> IsDigit(s[k])
    ensures n < |s| ==> !IsDigit(s[n])
  {
    if s == "" || !IsDigit(s[0]) then 0 else 1 + DigitRun(s[1..])
  }

  /** A numeral followed by something else is a whole run. */
  lemma {:induction false} DigitRunOf(d: string, rest: string)
    requires AllDigits(d) && (rest == "" || !IsDigit(rest[0]))
    ensures DigitRun(d + rest) == |d| && (d + rest)[..|d|] == d && (d + rest)[|d|..] == rest
  {
    var s := d + rest;
    assert forall k :: 0 <= k < |d| ==> s[k] == d[k];
    assert rest != "" ==> s[|d|] == rest[0];
  }

  /** `str(n)`. */
  function Dec(n: nat): (s: string)
    ensures AllDigits(s)
  {
    if n < 10 then [DigitChar(n)] else Dec(n / 10) + [DigitChar(n % 10)]
  }

  /** `int(s)` on a string of digits. */
  function ParseDec(s: string): nat
    requires AllDigits(s)
  {
    var d := (s[|s| - 1] as int) - ('0' as int);
    if |s| == 1 then d else 10 * ParseDec(s[..|s| - 1]) + d
  }

  lemma {:induction false} DecRoundTrip(n: nat)
    ensures ParseDec(Dec(n)) == n
  {
    if n >= 10 {
      DecRoundTrip(n / 10);
      assert Dec(n)[..|Dec(n)| - 1] == Dec(n / 10);
    }
  }
}

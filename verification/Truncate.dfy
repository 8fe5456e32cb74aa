/** How a published body is cut to size: UTF-8 (section 3 of RFC 3629) as Python's
    codec encodes and decodes it, `_truncate`, and `_assemble`, which orders a body so
    that the cut cannot reach its first lines. A `char` is a Unicode scalar value, so
    every `string` here is one Python can encode. */
module Truncate {
  import opened Text

  type Byte = x: int | 0 <= x < 256

  // ----- UTF-8 -------------------------------------------------------------------

  function EncodeChar(c: char): (r: seq<Byte>)
    ensures 1 <= |r| <= 4
  {
    var n := c as int;
    if n < 0x80 then [n]
    else if n < 0x800 then [0xC0 + n / 64, 0x80 + n % 64]
    else if n < 0x10000 then [0xE0 + n / 4096, 0x80 + n / 64 % 64, 0x80 + n % 64]
    else [0xF0 + n / 262144, 0x80 + n / 4096 % 64, 0x80 + n / 64 % 64, 0x80 + n % 64]
  }

  function Encode(s: string): seq<Byte> {
    if s == "" then [] else EncodeChar(s[0]) + Encode(s[1..])
  }

  /** The characters of section 7 of RFC 3629, one of each length, and the ends of the
      four ranges of section 3. */
  lemma EncodedAs(c: char)
    ensures |EncodeChar(c)| == if c < '\U{80}' then 1 else if c < '\U{800}' then 2 else if c < '\U{10000}' then 3 else 4
    ensures EncodeChar('A') == [0x41] && EncodeChar('\U{391}') == [0xCE, 0x91]
    ensures EncodeChar('\U{2262}') == [0xE2, 0x89, 0xA2] && EncodeChar('\U{D55C}') == [0xED, 0x95, 0x9C]
    ensures EncodeChar('\U{233B4}') == [0xF0, 0xA3, 0x8E, 0xB4]
  {
  }

  predicate IsTail(b: Byte) { 0x80 <= b <= 0xBF }

  /** Length of the well-formed sequence at the front, by the table of section 4; 0
      when there is none. */
  function GoodLength(b: seq<Byte>): (n: nat)
    requires b != []
    ensures n <= |b|
  {
    if b[0] < 0x80 then 1
    else if 0xC2 <= b[0] <= 0xDF && |b| >= 2 && IsTail(b[1]) then 2
    else if 0xE0 <= b[0] <= 0xEF && |b| >= 3 && IsTail(b[1]) && IsTail(b[2])
            && (b[0] == 0xE0 ==> b[1] >= 0xA0) && (b[0] == 0xED ==> b[1] <= 0x9F) then 3
    else if 0xF0 <= b[0] <= 0xF4 && |b| >= 4 && IsTail(b[1]) && IsTail(b[2]) && IsTail(b[3])
            && (b[0] == 0xF0 ==> b[1] >= 0x90) && (b[0] == 0xF4 ==> b[1] <= 0x8F) then 4
    else 0
  }

  function DecodeChar(b: seq<Byte>): char
    requires b != [] && GoodLength(b) > 0
  {
    match GoodLength(b)
    case 1 => b[0] as char
    case 2 => ((b[0] as int - 0xC0) * 64 + (b[1] as int - 0x80)) as char
    case 3 => ((b[0] as int - 0xE0) * 4096 + (b[1] as int - 0x80) * 64 + (b[2] as int - 0x80)) as char
    case _ =>
      ((b[0] as int - 0xF0) * 262144 + (b[1] as int - 0x80) * 4096 + (b[2] as int - 0x80) * 64 + (b[3] as int - 0x80))
      as char
  }

  /** `bytes.decode("utf-8", errors="ignore")`: a byte that starts no well-formed
      sequence is skipped. */
  function DecodeIgnore(b: seq<Byte>): string {
    if b == [] then ""
    else if GoodLength(b) == 0 then DecodeIgnore(b[1..])
    else [DecodeChar(b)] + DecodeIgnore(b[GoodLength(b)..])
  }

  lemma {:induction false} EncodedCharDecodes(c: char, rest: seq<Byte>)
    ensures GoodLength(EncodeChar(c) + rest) == |EncodeChar(c)|
    ensures DecodeChar(EncodeChar(c) + rest) == c
  {
    var n, e := c as int, EncodeChar(c);
    var b := e + rest;
    assert forall k :: 0 <= k < |e| ==> b[k] == e[k];
    SixBitDigits(n);
    if n >= 0x10000 {
      assert 0xF0 <= b[0] <= 0xF4 && n / 64 / 64 / 64 == n / 262144;
    } else if n >= 0x800 {
      assert 0xE0 <= b[0] <= 0xEF;
    }
  }

  lemma {:induction false} SixBitDigits(n: nat)
    ensures n == n / 64 * 64 + n % 64
    ensures n == n / 4096 * 4096 + n / 64 % 64 * 64 + n % 64
    ensures n == n / 262144 * 262144 + n / 4096 % 64 * 4096 + n / 64 % 64 * 64 + n % 64
  {
    assert n / 64 / 64 == n / 4096;
    assert n / 4096 / 64 == n / 262144;
  }

  /** Half a character decodes to nothing. */
  lemma {:induction false} CutCharIsDropped(c: char, n: nat)
    requires n < |EncodeChar(c)|
    ensures DecodeIgnore(EncodeChar(c)[..n]) == ""
  {
    var b := EncodeChar(c)[..n];
    if n > 0 {
      assert GoodLength(b) == 0;
      TailsAreDropped(b[1..]);
    }
  }

  lemma {:induction false} TailsAreDropped(b: seq<Byte>)
    requires forall k :: 0 <= k < |b| ==> IsTail(b[k])
    ensures DecodeIgnore(b) == ""
  {
    if b != [] {
      TailsAreDropped(b[1..]);
    }
  }

  /** How many leading characters fit in `n` bytes. */
  function Fitting(s: string, n: nat): (k: nat)
    ensures k <= |s|
  {
    if s == "" || |EncodeChar(s[0])| > n then 0 else 1 + Fitting(s[1..], n - |EncodeChar(s[0])|)
  }

  lemma FirstCharDecodes(c: char, rest: seq<Byte>)
    ensures DecodeIgnore(EncodeChar(c) + rest) == [c] + DecodeIgnore(rest)
  {
    EncodedCharDecodes(c, rest);
    assert (EncodeChar(c) + rest)[|EncodeChar(c)|..] == rest;
  }

  lemma OneMoreTaken(s: string, k: nat)
    requires s != "" && k < |s|
    ensures [s[0]] + s[1..][..k] == s[..k + 1]
  {
  }

  lemma CutBehind(e: seq<Byte>, rest: seq<Byte>, n: nat)
    requires |e| <= n <= |e| + |rest|
    ensures (e + rest)[..n] == e + rest[..n - |e|]
  {
  }

  /** Cutting an encoding anywhere and decoding what is left yields the characters that
      are whole in it. */
  lemma {:induction false} CutDecodes(s: string, n: nat)
    requires n <= |Encode(s)|
    ensures DecodeIgnore(Encode(s)[..n]) == s[..Fitting(s, n)]
  {
    if s != "" {
      var e, rest := EncodeChar(s[0]), Encode(s[1..]);
      if |e| <= n {
        CutBehind(e, rest, n);
        FirstCharDecodes(s[0], rest[..n - |e|]);
        CutDecodes(s[1..], n - |e|);
        OneMoreTaken(s, Fitting(s[1..], n - |e|));
      } else {
        assert Encode(s)[..n] == e[..n];
        CutCharIsDropped(s[0], n);
      }
    }
  }

  /** Decoding undoes encoding. */
  lemma {:induction false} RoundTrip(s: string)
    ensures DecodeIgnore(Encode(s)) == s
  {
    FittingAll(s, |Encode(s)|);
    CutDecodes(s, |Encode(s)|);
    assert Encode(s)[..|Encode(s)|] == Encode(s);
  }

  lemma {:induction false} FittingAll(s: string, n: nat)
    requires |Encode(s)| <= n
    ensures Fitting(s, n) == |s|
  {
    if s != "" {
      FittingAll(s[1..], n - |EncodeChar(s[0])|);
    }
  }

  lemma {:induction false} EncodeAppend(a: string, b: string)
    ensures Encode(a + b) == Encode(a) + Encode(b)
  {
    if a == "" {
      assert a + b == b;
    } else {
      assert (a + b)[1..] == a[1..] + b;
      EncodeAppend(a[1..], b);
    }
  }

  /** `Fitting` is the length of the longest prefix that fits: every prefix up to it
      does, and no longer one does. */
  lemma {:induction false} FittingIsLongest(s: string, n: nat, j: nat)
    requires j <= |s|
    ensures |Encode(s[..j])| <= n <==> j <= Fitting(s, n)
  {
    if j > 0 {
      var e := |EncodeChar(s[0])|;
      assert s[..j][1..] == s[1..][..j - 1];
      if e <= n {
        FittingIsLongest(s[1..], n - e, j - 1);
      }
    }
  }

  // ----- `_truncate` -----------------------------------------------------------------

  const MAX_BYTES := 60000
  const TAIL := "\n\n_\U{2026}truncated._\n"

  function Cut(text: string): string {
    var raw := Encode(text);
    if |raw| <= MAX_BYTES then text else DecodeIgnore(raw[..MAX_BYTES]) + TAIL
  }

  lemma {:induction false} TailSize()
    ensures |Encode(TAIL)| <= 64
  {
    EncodedSize(TAIL);
  }

  lemma {:induction false} EncodedSize(s: string)
    ensures |s| <= |Encode(s)| <= 4 * |s|
  {
    if s != "" {
      EncodedSize(s[1..]);
    }
  }

  /** A body that fits is untouched; any other becomes its longest prefix of whole
      characters that fits, and the fixed tail. Either way GitHub takes it. */
  lemma {:induction false} CutIsLongestPrefix(text: string)
    ensures |Encode(text)| <= 60000 ==> Cut(text) == text
    ensures |Encode(text)| > 60000 ==>
              exists k :: 0 <= k < |text| && Cut(text) == text[..k] + TAIL
                && forall j :: 0 <= j <= |text| ==> (|Encode(text[..j])| <= 60000 <==> j <= k)
    ensures |Encode(Cut(text))| < 65536
  {
    if |Encode(text)| > MAX_BYTES {
      var k := LongestPrefix(text, MAX_BYTES);
      assert Cut(text) == text[..k] + TAIL;
      EncodeAppend(text[..k], TAIL);
      TailSize();
    }
  }

  lemma {:induction false} LongestPrefix(text: string, n: nat) returns (k: nat)
    requires |Encode(text)| > n
    ensures k < |text| && DecodeIgnore(Encode(text)[..n]) == text[..k] && |Encode(text[..k])| <= n
    ensures forall j :: 0 <= j <= |text| ==> (|Encode(text[..j])| <= n <==> j <= k)
  {
    k := Fitting(text, n);
    CutDecodes(text, n);
    forall j | 0 <= j <= |text| ensures |Encode(text[..j])| <= n <==> j <= k {
      FittingIsLongest(text, n, j);
    }
    assert text[..|text|] == text;
  }

  // ----- `_assemble` --------------------------------------------------------------------

  /** The pieces in the order `_assemble` joins them; empty lists of leftovers or folded
      findings add no piece. */
  function Assemble(marker: string, signature: string, instruction: string, body: string,
                    leftovers: string, folded: string): string {
    Cut(JoinLF([marker, signature + "\n", instruction + "\n", RStrip(body)]
               + (if leftovers != "" then ["\n" + leftovers] else [])
               + (if folded != "" then ["\n" + folded] else [])))
  }

  /** Nothing is left out: the body the pieces are cut from is the marker, the signature,
      the instruction, the run's text without its trailing blanks, and the two lists that
      are not empty, in that order; all of it is published when it fits. */
  lemma {:induction false} AllOfItIsPublished(marker: string, signature: string, instruction: string,
                                              body: string, leftovers: string, folded: string, whole: string)
    requires whole == marker + "\n" + signature + "\n\n" + instruction + "\n\n" + RStrip(body)
                      + (if leftovers == "" then "" else "\n\n" + leftovers)
                      + (if folded == "" then "" else "\n\n" + folded)
    ensures Assemble(marker, signature, instruction, body, leftovers, folded) == Cut(whole)
    ensures |Encode(whole)| <= 60000 ==> Assemble(marker, signature, instruction, body, leftovers, folded) == whole
  {
    var a := [marker, signature + "\n", instruction + "\n", RStrip(body)];
    var b := if leftovers != "" then ["\n" + leftovers] else [];
    var c := if folded != "" then ["\n" + folded] else [];
    FourJoined(marker, signature, instruction, RStrip(body));
    JoinOptional(a, leftovers);
    JoinOptional(a + b, folded);
  }

  lemma {:induction false} FourJoined(marker: string, signature: string, instruction: string, text: string)
    ensures JoinLF([marker, signature + "\n", instruction + "\n", text])
         == marker + "\n" + signature + "\n\n" + instruction + "\n\n" + text
  {
    var below := [signature + "\n", instruction + "\n", text];
    TwoJoined(instruction + "\n", text);
    assert below[1..] == [instruction + "\n", text];
    assert JoinLF(below) == signature + "\n\n" + (instruction + "\n\n" + text);
    assert [marker, signature + "\n", instruction + "\n", text][1..] == below;
  }

  lemma {:induction false} TwoJoined(a: string, b: string)
    ensures JoinLF([a, b]) == a + "\n" + b
  {
    assert [a, b][1..] == [b];
  }

  lemma {:induction false} JoinOptional(parts: seq<string>, extra: string)
    requires parts != []
    ensures JoinLF(parts + (if extra != "" then ["\n" + extra] else []))
         == JoinLF(parts) + (if extra == "" then "" else "\n\n" + extra)
  {
    if extra != "" {
      JoinAppend(parts, ["\n" + extra]);
      assert JoinLF(parts) + [LF] + ("\n" + extra) == JoinLF(parts) + ([LF] + ("\n" + extra));
      assert [LF] + ("\n" + extra) == "\n\n" + extra;
    } else {
      assert parts + [] == parts && JoinLF(parts) + "" == JoinLF(parts);
    }
  }

  function Header(marker: string, signature: string, instruction: string): string {
    JoinLF([marker, signature + "\n", instruction + "\n"])
  }

  lemma {:induction false} PrefixSurvives(head: string, rest: string)
    requires |Encode(head)| <= MAX_BYTES
    ensures head <= Cut(head + rest)
  {
    var text := head + rest;
    if |Encode(text)| > MAX_BYTES {
      CutDecodes(text, MAX_BYTES);
      FittingIsLongest(text, MAX_BYTES, |head|);
      assert text[..|head|] == head;
    }
  }

  /** The marker and the label instruction survive any cut that they alone fit in,
      whatever the run wrote below them. */
  lemma {:induction false} HeaderSurvives(marker: string, signature: string, instruction: string,
                         body: string, leftovers: string, folded: string)
    requires |Encode(Header(marker, signature, instruction))| <= MAX_BYTES
    ensures Header(marker, signature, instruction)
         <= Assemble(marker, signature, instruction, body, leftovers, folded)
    ensures |Encode(Assemble(marker, signature, instruction, body, leftovers, folded))| < 65536
  {
    var first := [marker, signature + "\n", instruction + "\n"];
    var below := [RStrip(body)] + (if leftovers != "" then ["\n" + leftovers] else [])
                 + (if folded != "" then ["\n" + folded] else []);
    var all := [marker, signature + "\n", instruction + "\n", RStrip(body)]
               + (if leftovers != "" then ["\n" + leftovers] else [])
               + (if folded != "" then ["\n" + folded] else []);
    assert all == first + below;
    JoinAppend(first, below);
    assert JoinLF(all) == Header(marker, signature, instruction) + ([LF] + JoinLF(below));
    PrefixSurvives(Header(marker, signature, instruction), [LF] + JoinLF(below));
    CutIsLongestPrefix(JoinLF(all));
  }
}

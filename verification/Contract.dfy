/** The block contract between the review model and the wrapper: a printer for the
    three delimited blocks and the last-block-wins parser.

    The parser's regular expression is
        ^<<<NAME>>>\s*$(.*?)^<<<END>>>      (multi-line, dot matches newline)
    with the group stripped. Read line by line: an opener is a line holding the marker
    and then only whitespace; its block runs to the first later line that starts with
    the END marker, whatever follows it there. `\s*` may also take blank lines below
    the opener, which `strip` removes from the group in any case. */
module Contract {
  import opened Text
  import opened Blocks
  import opened Options

  const END := "<<<END>>>"

  predicate IsVerdict(word: string) {
    word == "needs-work" || word == "comment" || word == "ok"
  }

  datatype Name = VerdictBlock | GithubBlock | InlineBlock

  function Marker(name: Name): string {
    match name
    case VerdictBlock => "<<<VERDICT>>>"
    case GithubBlock => "<<<GITHUB>>>"
    case InlineBlock => "<<<INLINE>>>"
  }

  predicate HoldsOnly(line: string, marker: string) {
    |marker| <= |line| && line[..|marker|] == marker && AllSpace(line[|marker|..])
  }

  function Opens(name: Name): string -> bool {
    line => HoldsOnly(line, Marker(name))
  }

  function Closes(): string -> bool {
    line => |END| <= |line| && line[..|END|] == END
  }

  function Found(text: string, name: Name): State<string> {
    Scan(SplitLF(text), Opens(name), Closes())
  }

  /** `_block`: the last block of this name, stripped; empty when there is none. */
  function LastBlock(text: string, name: Name): string {
    var found := Found(text, name).found;
    if found == [] then "" else Strip(JoinLF(found[|found| - 1].body))
  }

  /** `.lower()` followed by `re.sub(r"[^a-z-]", "", …)`. Two characters outside ASCII
      have a lower case that starts with an ASCII letter; no other one survives. */
  function Letters(s: string): string {
    if s == "" then ""
    else
      var c := s[0];
      var kept :=
        if 'a' <= c <= 'z' || c == '-' then [c]
        else if 'A' <= c <= 'Z' then [(c as int + 32) as char]
        else if c == '\U{212A}' then ['k']
        else if c == '\U{0130}' then ['i']
        else "";
      kept + Letters(s[1..])
  }

  datatype Parsed = Parsed(verdict: Option<string>, github: string, inline: string)

  function Verdict(block: string): Option<string> {
    var v := Letters(Strip(block));
    if IsVerdict(v) then Some(v) else None
  }

  function ParseBlocks(text: string): Parsed {
    Parsed(Verdict(LastBlock(text, VerdictBlock)), LastBlock(text, GithubBlock), LastBlock(text, InlineBlock))
  }

  // ----- what the parser forgives ---------------------------------------------------------------

  /** A marker opens its block with any blanks behind it, and no other line does. */
  lemma {:induction false} OpenersAre(name: Name, line: string)
    ensures Opens(name)(line) <==>
      Marker(name) <= line && forall k :: |Marker(name)| <= k < |line| ==> IsSpace(line[k])
  {
    var m := Marker(name);
    if |m| <= |line| {
      var tail := line[|m|..];
      assert forall k :: |m| <= k < |line| ==> tail[k - |m|] == line[k];
      assert AllSpace(tail) <==> forall k :: |m| <= k < |line| ==> IsSpace(line[k]);
    }
  }

  /** An END line closes whatever is glued to it, the next marker say. */
  lemma {:induction false} GluedEndCloses(glued: string)
    ensures Closes()("<<<END>>>" + glued)
  {
    assert ("<<<END>>>" + glued)[..|END|] == END;
  }

  /** So a block whose END has the next marker glued on is read whole, above whatever follows
      that opens no block of its name. */
  lemma {:induction false} GluedBlockIsRead(prefix: string, name: Name, body: string, glued: string, rest: string)
    requires Found(prefix, name).open.None? && Nowhere(SplitLF(body), Closes())
    requires LF !in glued && Nowhere(SplitLF(rest), Opens(name))
    ensures LastBlock(prefix + [LF] + (Marker(name) + [LF] + body + [LF] + ("<<<END>>>" + glued) + [LF] + rest), name)
         == Strip(body)
  {
    var o, c, close := Opens(name), Closes(), "<<<END>>>" + glued;
    MarkerKinds(name, name);
    SplitOneLine(Marker(name));
    SplitOneLine(close);
    GluedEndCloses(glued);
    var block := Marker(name) + [LF] + body + [LF] + close;
    SplitAppend(Marker(name) + [LF] + body, close);
    SplitAppend(Marker(name), body);
    assert SplitLF(block) == Framed(Marker(name), SplitLF(body), close);
    SplitAppend(block, rest);
    SplitAppend(prefix, block + [LF] + rest);
    assert block + [LF] + rest == Marker(name) + [LF] + body + [LF] + close + [LF] + rest;
    RunAppend(State([], None), SplitLF(prefix), SplitLF(block) + SplitLF(rest), o, c);
    RunAppend(Found(prefix, name), SplitLF(block), SplitLF(rest), o, c);
    OwnBlock(Found(prefix, name), Marker(name), SplitLF(body), close, o, c);
    RunOutside(Run(Found(prefix, name), SplitLF(block), o, c), SplitLF(rest), o, c);
    JoinSplit(body);
  }

  /** No character of it counts for a verdict. */
  predicate NoLetters(s: string) {
    forall k :: 0 <= k < |s| ==>
      !('a' <= s[k] <= 'z') && !('A' <= s[k] <= 'Z') && s[k] != '-' && s[k] != '\U{212A}' && s[k] != '\U{0130}'
  }

  /** The same letters, each in either case. */
  predicate SameWord(said: string, word: string) {
    |said| == |word| && forall k :: 0 <= k < |word| ==>
      said[k] == word[k] || ('a' <= word[k] <= 'z' && said[k] as int + 32 == word[k] as int)
  }

  lemma {:induction false} NoLettersDrop(s: string)
    requires NoLetters(s)
    ensures Letters(s) == ""
  {
    if s != "" {
      NoLettersDrop(s[1..]);
    }
  }

  lemma {:induction false} CaseDrops(said: string, word: string)
    requires SameWord(said, word) && Lower(word)
    ensures Letters(said) == word
  {
    if said != "" {
      CaseDrops(said[1..], word[1..]);
      assert [word[0]] + word[1..] == word;
    }
  }

  /** A verdict is read through any case and any decoration without letters. */
  lemma {:induction false} DecoratedVerdictIsRead(before: string, said: string, after: string, verdict: string)
    requires IsVerdict(verdict) && SameWord(said, verdict) && NoLetters(before) && NoLetters(after)
    ensures Verdict(before + said + after) == Some(verdict)
  {
    assert Lower(verdict);
    StripKeepsLetters(before + said + after);
    LettersAppend(before + said, after);
    LettersAppend(before, said);
    NoLettersDrop(before);
    NoLettersDrop(after);
    CaseDrops(said, verdict);
  }

  // ----- the printer -----------------------------------------------------------

  /** One block as the prompt asks for it: each marker on a line of its own. */
  function PrintBlock(name: Name, content: string): string {
    Marker(name) + [LF] + content + [LF] + END
  }

  function Print(verdict: string, github: string, inline: string): string {
    PrintBlock(VerdictBlock, verdict) + [LF] + PrintBlock(GithubBlock, github) + [LF]
    + PrintBlock(InlineBlock, inline)
  }

  function Frame(name: Name, content: string): seq<string> {
    Framed(Marker(name), SplitLF(content), END)
  }

  lemma {:induction false} MarkerKinds(a: Name, b: Name)
    ensures Opens(b)(Marker(a)) <==> a == b
    ensures LF !in Marker(a) && !Closes()(Marker(a))
    ensures LF !in END && Closes()(END) && !Opens(b)(END)
  {
    assert Marker(VerdictBlock)[3] == 'V' && Marker(GithubBlock)[3] == 'G' && Marker(InlineBlock)[3] == 'I';
    assert END[3] == 'E';
    assert Marker(a)[..|Marker(a)|] == Marker(a) && Marker(a)[|Marker(a)|..] == "";
  }

  lemma {:induction false} PrintBlockLines(name: Name, content: string)
    ensures SplitLF(PrintBlock(name, content)) == Frame(name, content)
  {
    MarkerKinds(name, name);
    SplitOneLine(Marker(name));
    SplitOneLine(END);
    SplitAppend(Marker(name) + [LF] + content, END);
    SplitAppend(Marker(name), content);
  }

  lemma {:induction false} PrintLines(prefix: string, verdict: string, github: string, inline: string)
    ensures SplitLF(prefix + [LF] + Print(verdict, github, inline))
         == SplitLF(prefix) + (Frame(VerdictBlock, verdict)
                               + (Frame(GithubBlock, github) + Frame(InlineBlock, inline)))
  {
    PrintBlockLines(VerdictBlock, verdict);
    PrintBlockLines(GithubBlock, github);
    PrintBlockLines(InlineBlock, inline);
    var v, g, i := PrintBlock(VerdictBlock, verdict), PrintBlock(GithubBlock, github), PrintBlock(InlineBlock, inline);
    SplitAppend(prefix, Print(verdict, github, inline));
    assert Print(verdict, github, inline) == v + [LF] + (g + [LF] + i);
    SplitAppend(v, g + [LF] + i);
    SplitAppend(g, i);
  }

  /** The scan of a printed text, one block at a time. */
  lemma {:induction false} PrintScan(prefix: string, verdict: string, github: string, inline: string, name: Name)
    ensures
      var o, c := Opens(name), Closes();
      Found(prefix + [LF] + Print(verdict, github, inline), name)
      == Run(Run(Run(Found(prefix, name), Frame(VerdictBlock, verdict), o, c),
                 Frame(GithubBlock, github), o, c), Frame(InlineBlock, inline), o, c)
  {
    PrintLines(prefix, verdict, github, inline);
    var o, c := Opens(name), Closes();
    var v, g, i := Frame(VerdictBlock, verdict), Frame(GithubBlock, github), Frame(InlineBlock, inline);
    RunAppend(State([], None), SplitLF(prefix), v + (g + i), o, c);
    RunAppend(Found(prefix, name), v, g + i, o, c);
    RunAppend(Run(Found(prefix, name), v, o, c), g, i, o, c);
  }

  // ----- the main theorem --------------------------------------------------------

  /** The contents a run may print without breaking its own blocks: no line of the
      summary or of the findings starts with END, the summary does not open a VERDICT
      block, and the findings open neither a VERDICT nor a GITHUB block. */
  predicate Printable(verdict: string, github: string, inline: string) {
    IsVerdict(verdict) && Nowhere(SplitLF(github), Closes()) && Nowhere(SplitLF(inline), Closes())
    && Nowhere(SplitLF(github), Opens(VerdictBlock))
    && Nowhere(SplitLF(inline), Opens(VerdictBlock)) && Nowhere(SplitLF(inline), Opens(GithubBlock))
  }

  /** A line of the text is a VERDICT marker and no line below it starts with END. */
  predicate LeavesVerdictOpen(text: string) {
    LeftOpen(SplitLF(text), Opens(VerdictBlock), Closes())
  }

  lemma {:induction false} LeavesVerdictOpenIff(text: string)
    ensures LeavesVerdictOpen(text) <==> Found(text, VerdictBlock).open.Some?
  {
    var lines := SplitLF(text);
    forall k | 0 <= k < |lines| ensures !(Opens(VerdictBlock)(lines[k]) && Closes()(lines[k])) {
      OpenersCloseNothing(lines[k], VerdictBlock);
    }
    OpenIff(lines, Opens(VerdictBlock), Closes());
  }

  lemma {:induction false} OpenersCloseNothing(line: string, name: Name)
    ensures !(Opens(name)(line) && Closes()(line))
  {
    assert Marker(VerdictBlock)[3] == 'V' && Marker(GithubBlock)[3] == 'G' && Marker(InlineBlock)[3] == 'I';
    assert Opens(name)(line) ==> line[..|Marker(name)|][3] == Marker(name)[3];
    assert Closes()(line) ==> line[..|END|][3] == END[3];
  }

  /** Last block wins, exactly: below every prefix, whatever blocks it echoes and
      whatever it leaves open, the printed summary and findings are the ones parsed;
      and so is the printed verdict unless the prefix left a VERDICT block open, in
      which case there is no verdict at all. */
  lemma {:induction false} PrintedBlocksWin(prefix: string, verdict: string, github: string, inline: string)
    requires Printable(verdict, github, inline)
    ensures ParseBlocks(prefix + [LF] + Print(verdict, github, inline))
         == Parsed(if LeavesVerdictOpen(prefix) then None else Some(verdict), Strip(github), Strip(inline))
  {
    LeavesVerdictOpenIff(prefix);
    VerdictSurvives(prefix, verdict, github, inline);
    SummarySurvives(prefix, verdict, github, inline);
    FindingsSurvive(prefix, verdict, github, inline);
  }

  lemma {:induction false} VerdictSurvives(prefix: string, verdict: string, github: string, inline: string)
    requires Printable(verdict, github, inline)
    ensures Verdict(LastBlock(prefix + [LF] + Print(verdict, github, inline), VerdictBlock))
         == if Found(prefix, VerdictBlock).open.None? then Some(verdict) else None
  {
    var name := VerdictBlock;
    var o, c, s := Opens(name), Closes(), Found(prefix, name);
    PrintScan(prefix, verdict, github, inline, name);
    MarkerKinds(VerdictBlock, name);
    MarkerKinds(GithubBlock, name);
    MarkerKinds(InlineBlock, name);
    VerdictIsOneLine(verdict);
    var s1 := Run(s, Frame(VerdictBlock, verdict), o, c);
    match s.open {
      case None =>
        OwnBlock(s, Marker(name), [verdict], END, o, c);
        WordSurvives(verdict);
      case Some(b) =>
        Swallowed(s, Marker(name), [verdict], END, o, c);
        NoVerdictInside(b.body, verdict);
    }
    OtherBlock(s1, Marker(GithubBlock), SplitLF(github), END, o, c);
    OtherBlock(s1, Marker(InlineBlock), SplitLF(inline), END, o, c);
  }

  lemma {:induction false} SummarySurvives(prefix: string, verdict: string, github: string, inline: string)
    requires Printable(verdict, github, inline)
    ensures LastBlock(prefix + [LF] + Print(verdict, github, inline), GithubBlock) == Strip(github)
  {
    var name := GithubBlock;
    var o, c, s := Opens(name), Closes(), Found(prefix, name);
    PrintScan(prefix, verdict, github, inline, name);
    MarkerKinds(GithubBlock, name);
    MarkerKinds(InlineBlock, name);
    ClosedBelow(s, Marker(VerdictBlock), SplitLF(verdict), END, o, c);
    var s1 := Run(s, Frame(VerdictBlock, verdict), o, c);
    OwnBlock(s1, Marker(name), SplitLF(github), END, o, c);
    OtherBlock(Run(s1, Frame(name, github), o, c), Marker(InlineBlock), SplitLF(inline), END, o, c);
    JoinSplit(github);
  }

  lemma {:induction false} FindingsSurvive(prefix: string, verdict: string, github: string, inline: string)
    requires Printable(verdict, github, inline)
    ensures LastBlock(prefix + [LF] + Print(verdict, github, inline), InlineBlock) == Strip(inline)
  {
    var name := InlineBlock;
    var o, c, s := Opens(name), Closes(), Found(prefix, name);
    PrintScan(prefix, verdict, github, inline, name);
    MarkerKinds(InlineBlock, name);
    var s1 := Run(s, Frame(VerdictBlock, verdict), o, c);
    ClosedBelow(s1, Marker(GithubBlock), SplitLF(github), END, o, c);
    OwnBlock(Run(s1, Frame(GithubBlock, github), o, c), Marker(name), SplitLF(inline), END, o, c);
    JoinSplit(inline);
  }

  // ----- the verdict word -------------------------------------------------------------

  lemma {:induction false} LettersAppend(a: string, b: string)
    ensures Letters(a + b) == Letters(a) + Letters(b)
  {
    if a == "" {
      assert a + b == b;
    } else {
      assert (a + b)[1..] == a[1..] + b;
      LettersAppend(a[1..], b);
    }
  }

  predicate Lower(s: string) {
    forall k :: 0 <= k < |s| ==> 'a' <= s[k] <= 'z' || s[k] == '-'
  }

  lemma {:induction false} LowerIsKept(s: string)
    requires Lower(s)
    ensures Letters(s) == s
  {
    if s != "" {
      LowerIsKept(s[1..]);
      assert [s[0]] + s[1..] == s;
    }
  }

  lemma {:induction false} SpaceIsDropped(s: string)
    requires AllSpace(s)
    ensures Letters(s) == ""
  {
    if s != "" {
      SpaceIsDropped(s[1..]);
      assert IsSpace(s[0]);
    }
  }

  lemma {:induction false} VerdictIsOneLine(verdict: string)
    requires IsVerdict(verdict)
    ensures SplitLF(verdict) == [verdict] && Lower(verdict) && Nowhere([verdict], Closes())
  {
    assert verdict[0] != '<' && Lower(verdict);
    SplitOneLine(verdict);
  }

  lemma {:induction false} WordSurvives(verdict: string)
    requires IsVerdict(verdict)
    ensures Verdict(Strip(JoinLF([verdict]))) == Some(verdict)
  {
    assert Strip(verdict) == verdict;
    LowerIsKept(verdict);
  }

  /** The end of the swallowed opener's line. */
  const LEFTOVER := "T>>>\n"

  /** A swallowed opener spells "verdict" in front of the word, and no allowed word
      ends that way. */
  lemma {:induction false} NoVerdictInside(above: seq<string>, verdict: string)
    requires IsVerdict(verdict)
    ensures Verdict(Strip(JoinLF(above + [Marker(VerdictBlock)] + [verdict]))) == None
  {
    var text := JoinLF(above + [Marker(VerdictBlock)] + [verdict]);
    var before := SwallowedText(above, verdict);
    StripKeepsLetters(text);
    StripIdempotent(text);
    LettersAppend(before, LEFTOVER + verdict);
    LettersAppend(LEFTOVER, verdict);
    LowerVerdict(verdict);
    LastMarkerLetter();
    NoWordEndsSo(Letters(before), verdict);
  }

  lemma {:induction false} LowerVerdict(verdict: string)
    requires IsVerdict(verdict)
    ensures Letters(verdict) == verdict
  {
    VerdictIsOneLine(verdict);
    LowerIsKept(verdict);
  }

  lemma {:induction false} LastMarkerLetter()
    ensures Letters(LEFTOVER) == "t"
  {
    assert LEFTOVER == "T>" + (">>" + "\n");
    LettersAppend("T>", ">>" + "\n");
    LettersAppend(">>", "\n");
    assert "T>"[1..] == ">" && ">>"[1..] == ">" && ">"[1..] == "";
    assert Letters(">") == "" && Letters("\n") == "";
  }

  lemma {:induction false} SwallowedText(above: seq<string>, verdict: string) returns (before: string)
    ensures JoinLF(above + [Marker(VerdictBlock)] + [verdict]) == before + (LEFTOVER + verdict)
  {
    var tail := [Marker(VerdictBlock), verdict];
    var head := "<<<VERDIC";
    assert JoinLF(tail) == Marker(VerdictBlock) + [LF] + verdict == head + (LEFTOVER + verdict);
    assert above + [Marker(VerdictBlock)] + [verdict] == above + tail;
    if above == [] {
      assert above + tail == tail;
      before := head;
    } else {
      JoinAppend(above, tail);
      before := JoinLF(above) + [LF] + head;
    }
  }

  lemma {:induction false} NoWordEndsSo(before: string, verdict: string)
    requires IsVerdict(verdict)
    ensures !IsVerdict(before + ("t" + verdict))
  {
    var word := before + ("t" + verdict);
    assert word[|word| - |verdict| - 1] == 't';
    assert |word| > |verdict|;
  }

  lemma {:induction false} StripKeepsLetters(s: string)
    ensures Letters(Strip(s)) == Letters(s)
  {
    LStripKeepsLetters(s);
    RStripKeepsLetters(LStrip(s));
  }

  lemma {:induction false} LStripKeepsLetters(s: string)
    ensures Letters(LStrip(s)) == Letters(s)
  {
    if s != "" && IsSpace(s[0]) {
      LStripKeepsLetters(s[1..]);
      SpaceIsDropped([s[0]]);
    }
  }

  lemma {:induction false} RStripKeepsLetters(s: string)
    ensures Letters(RStrip(s)) == Letters(s)
  {
    if s != "" && IsSpace(s[|s| - 1]) {
      var front, last := s[..|s| - 1], [s[|s| - 1]];
      RStripKeepsLetters(front);
      assert s == front + last;
      LettersAppend(front, last);
      SpaceIsDropped(last);
    }
  }
}

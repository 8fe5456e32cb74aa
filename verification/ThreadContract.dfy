/** The reply sweep's half of the output contract: how GitHub text is flattened into
    the prompt, how the prompt is laid out, and how the per-thread verdicts are read
    back. A block marker is a marker only on a line of its own, so the prompt must not
    let a thread's text start a line. */
module ThreadContract {
  import opened Text
  import opened Blocks
  import opened Options
  import opened Contract

  datatype Reply = Reply(who: string, body: string)

  datatype Thread = Thread(path: string, line: nat, outdated: bool, mine: string,
                           replies: seq<Reply>, commentId: nat)

  // ----- flattening ------------------------------------------------------------

  predicate Contains(s: string, sub: string) {
    exists k :: 0 <= k <= |s| && sub <= s[k..]
  }

  const ELLIPSIS := '\U{2026}'

  predicate Kept(line: string, signature: string) {
    !AllSpace(line) && !Contains(line, signature) && !("<sub>" <= line)
  }

  function KeptLines(lines: seq<string>, signature: string): (r: seq<string>)
    ensures forall k :: 0 <= k < |r| ==> r[k] in lines
  {
    if lines == [] then []
    else (if Kept(lines[0], signature) then [lines[0]] else []) + KeptLines(lines[1..], signature)
  }

  /** `s.rsplit(" ", 1)[0]`. */
  function BeforeLastSpace(s: string): (r: string)
    ensures r <= s
  {
    if ' ' !in s then s
    else if s[|s| - 1] == ' ' then s[..|s| - 1]
    else BeforeLastSpace(s[..|s| - 1])
  }

  /** `_strip`: anything from GitHub as one capped line, without robbie's signature. */
  function Flatten(body: string, cap: nat, signature: string): string {
    var text := JoinSpace(KeptLines(SplitLines(body), signature));
    if |text| <= cap then text else BeforeLastSpace(text[..cap]) + [ELLIPSIS]
  }

  lemma {:induction false} JoinSpaceNoBreaks(parts: seq<string>)
    requires forall k :: 0 <= k < |parts| ==> NoBreaks(parts[k])
    ensures NoBreaks(JoinSpace(parts))
  {
    if |parts| > 1 {
      JoinSpaceNoBreaks(parts[1..]);
    }
  }

  /** Whatever the body holds, what reaches the prompt is one line of bounded length. */
  lemma {:induction false} FlattenIsOneLine(body: string, cap: nat, signature: string)
    ensures NoBreaks(Flatten(body, cap, signature)) && LF !in Flatten(body, cap, signature)
    ensures |Flatten(body, cap, signature)| <= cap + 1
  {
    var parts := KeptLines(SplitLines(body), signature);
    forall k | 0 <= k < |parts| ensures NoBreaks(parts[k]) {
      assert parts[k] in SplitLines(body);
    }
    JoinSpaceNoBreaks(parts);
    var text := JoinSpace(parts);
    if |text| > cap {
      var cut := BeforeLastSpace(text[..cap]);
      forall k | 0 <= k < |cut| ensures !IsBreak(cut[k]) {
        assert cut[k] == text[..cap][k] == text[k];
      }
    }
  }

  /** A line of the body reaches the prompt exactly when it says something, is not
      robbie's signature and does not start as small print. */
  predicate SaysSomething(line: string, signature: string) {
    && (exists k :: 0 <= k < |line| && !IsSpace(line[k]))
    && (forall k :: 0 <= k <= |line| - |signature| ==> line[k..][..|signature|] != signature)
    && (|line| < 5 || line[..5] != ['<', 's', 'u', 'b', '>'])
  }

  lemma {:induction false} KeptIff(line: string, signature: string)
    ensures Kept(line, signature) <==> SaysSomething(line, signature)
  {
    if Contains(line, signature) {
      var k :| 0 <= k <= |line| && signature <= line[k..];
      assert line[k..][..|signature|] == signature;
    }
    if k :| 0 <= k <= |line| - |signature| && line[k..][..|signature|] == signature {
      assert signature <= line[k..];
    }
    if |line| >= 5 && line[..5] == ['<', 's', 'u', 'b', '>'] {
      assert forall k :: 0 <= k < 5 ==> line[k] == line[..5][k] == "<sub>"[k];
    }
    assert "<sub>" <= line ==> line[..5] == "<sub>";
  }

  /** Two lines that say something reach the prompt as they are, with one blank for the
      break between them and for every line that says nothing. */
  lemma {:induction false} FlattenJoins(a: string, between: seq<string>, b: string, cap: nat, signature: string)
    requires NoBreaks(a) && NoBreaks(b) && forall k :: 0 <= k < |between| ==> NoBreaks(between[k])
    requires SaysSomething(a, signature) && SaysSomething(b, signature)
    requires forall k :: 0 <= k < |between| ==> !SaysSomething(between[k], signature)
    requires |a| + 1 + |b| <= cap
    ensures Flatten(JoinLF([a] + between + [b]), cap, signature) == a + " " + b
  {
    var lines := [a] + between + [b];
    PiecesAreLines(lines);
    KeptIff(a, signature);
    KeptIff(b, signature);
    assert lines[1..] == between + [b];
    OnlyTheLast(between, b, signature);
    assert KeptLines(lines, signature) == [a, b];
    assert JoinSpace([b]) == b && [a, b][1..] == [b];
  }

  lemma {:induction false} OnlyTheLast(between: seq<string>, b: string, signature: string)
    requires SaysSomething(b, signature)
    requires forall k :: 0 <= k < |between| ==> !SaysSomething(between[k], signature)
    ensures KeptLines(between + [b], signature) == [b]
  {
    var lines := between + [b];
    KeptIff(lines[0], signature);
    if between == [] {
      assert lines[1..] == [];
    } else {
      assert lines[1..] == between[1..] + [b];
      OnlyTheLast(between[1..], b, signature);
    }
  }

  /** `splitlines` undoes a join of lines without boundaries, if the last says anything. */
  lemma {:induction false} PiecesAreLines(lines: seq<string>)
    requires lines != [] && lines[|lines| - 1] != "" && forall k :: 0 <= k < |lines| ==> NoBreaks(lines[k])
    ensures SplitLines(JoinLF(lines)) == lines
  {
    if |lines| == 1 {
      OneLineSplits(lines[0]);
    } else {
      PiecesAreLines(lines[1..]);
      FirstLineSplits(lines[0], JoinLF(lines[1..]));
    }
  }

  lemma {:induction false} FirstLineSplits(a: string, rest: string)
    requires NoBreaks(a) && rest != ""
    ensures SplitLines(a + [LF] + rest) == [a] + SplitLines(rest)
  {
    if a == "" {
      assert (a + [LF] + rest)[1..] == rest;
    } else {
      assert (a + [LF] + rest)[1..] == a[1..] + [LF] + rest;
      FirstLineSplits(a[1..], rest);
      assert a[0] != '\r' by { assert !IsBreak(a[0]); }
      assert [a[0]] + a[1..] == a;
    }
  }

  /** `n` is the place of the last blank of `s`, or its end if there is none. */
  predicate LastBlank(s: string, n: nat) {
    n <= |s| && if ' ' in s then n < |s| && s[n] == ' ' && ' ' !in s[n + 1..] else n == |s|
  }

  lemma {:induction false} CutAtLastBlank(s: string)
    ensures LastBlank(s, |BeforeLastSpace(s)|)
  {
    if ' ' in s && s[|s| - 1] != ' ' {
      var front := s[..|s| - 1];
      assert s == front + [s[|s| - 1]];
      CutAtLastBlank(front);
      OneMoreAfter(front, s[|s| - 1], |BeforeLastSpace(front)|);
    }
  }

  lemma OneMoreAfter(front: string, c: char, n: nat)
    requires LastBlank(front, n) && ' ' in front && c != ' '
    ensures LastBlank(front + [c], n)
  {
    assert (front + [c])[n + 1..] == front[n + 1..] + [c];
  }

  /** A longer text is cut at the last blank within the cap, or at the cap. */
  lemma {:induction false} FlattenCuts(line: string, cap: nat, signature: string)
    requires NoBreaks(line) && SaysSomething(line, signature)
    ensures |line| <= cap ==> Flatten(line, cap, signature) == line
    ensures |line| > cap ==>
              exists n: nat :: LastBlank(line[..cap], n) && Flatten(line, cap, signature) == line[..n] + "\U{2026}"
  {
    OneLineSplits(line);
    KeptIff(line, signature);
    assert KeptLines([line], signature) == [line] by { assert [line][1..] == []; }
    if |line| > cap {
      CutAtLastBlank(line[..cap]);
      var n := |BeforeLastSpace(line[..cap])|;
      assert BeforeLastSpace(line[..cap]) == line[..n] && Flatten(line, cap, signature) == line[..n] + [ELLIPSIS];
    }
  }

  // ----- the prompt ---------------------------------------------------------------

  const PATH_CAP := 200
  const BODY_CAP := 1200

  /** The fixed wording, line by line, with the instance's own signature; the first two
      lines also carry a url and a login. */
  datatype Wording = Wording(beforeUrl: string, afterUrl: string, afterAuthor: string,
                             outdated: string, ask: seq<string>, rules: seq<string>, signature: string)

  function Where(t: Thread, w: Wording): string {
    var path := Flatten(t.path, PATH_CAP, w.signature);
    (if t.line != 0 then path + ":" + Dec(t.line) else path) + (if t.outdated then w.outdated else "")
  }

  function ReplyRow(r: Reply, w: Wording): string {
    "  " + r.who + " replied: " + Flatten(r.body, BODY_CAP, w.signature)
  }

  function ReplyRows(rs: seq<Reply>, w: Wording): seq<string> {
    if rs == [] then [] else [ReplyRow(rs[0], w)] + ReplyRows(rs[1..], w)
  }

  function ThreadRows(t: Thread, w: Wording): seq<string> {
    ["THREAD " + Dec(t.commentId) + " \U{2014} " + Where(t, w),
     "  you said: " + Flatten(t.mine, BODY_CAP, w.signature)]
    + ReplyRows(t.replies, w)
  }

  /** Every thread's rows, threads separated by one blank line. */
  function Listing(threads: seq<Thread>, w: Wording): seq<string> {
    if threads == [] then []
    else if |threads| == 1 then ThreadRows(threads[0], w)
    else ThreadRows(threads[0], w) + [""] + Listing(threads[1..], w)
  }

  const OPEN_THREAD := "<<<THREAD "
  const MARK := ">>>"

  function ThreadMarker(id: nat): string {
    OPEN_THREAD + Dec(id) + MARK
  }

  function FirstId(threads: seq<Thread>): nat {
    if threads == [] then 0 else threads[0].commentId
  }

  function PromptLines(w: Wording, author: string, url: string, threads: seq<Thread>): seq<string> {
    ([w.beforeUrl + url + w.afterUrl, "", author + w.afterAuthor, ""]
    + Listing(threads, w) + [""] + w.ask)
    + Framed(ThreadMarker(FirstId(threads)), ["resolve"], END)
    + w.rules
  }

  /** One thread's rows: its id and place, what robbie said, then every reply in order
      with who wrote it. */
  lemma {:induction false} RowsOf(t: Thread, w: Wording)
    ensures
      var rows, sign := ThreadRows(t, w), w.signature;
      var place := Flatten(t.path, 200, sign) + (if t.line != 0 then ":" + Dec(t.line) else "");
      && |rows| == 2 + |t.replies|
      && rows[0] == "THREAD " + Dec(t.commentId) + " \U{2014} " + (place + (if t.outdated then w.outdated else ""))
      && rows[1] == "  you said: " + Flatten(t.mine, 1200, sign)
      && forall j :: 0 <= j < |t.replies| ==>
           rows[2 + j] == "  " + t.replies[j].who + " replied: " + Flatten(t.replies[j].body, 1200, sign)
  {
    ReplyRowsAre(t.replies, w);
    var path := Flatten(t.path, 200, w.signature);
    assert path + ":" + Dec(t.line) == path + (":" + Dec(t.line)) && path + "" == path;
  }

  lemma {:induction false} ReplyRowsAre(rs: seq<Reply>, w: Wording)
    ensures |ReplyRows(rs, w)| == |rs| && forall j :: 0 <= j < |rs| ==> ReplyRows(rs, w)[j] == ReplyRow(rs[j], w)
  {
    if rs != [] {
      ReplyRowsAre(rs[1..], w);
    }
  }

  method ThreadBlock(t: Thread, w: Wording) returns (rows: seq<string>)
    ensures rows == ThreadRows(t, w)
  {
    rows := ["THREAD " + Dec(t.commentId) + " \U{2014} " + Where(t, w),
             "  you said: " + Flatten(t.mine, BODY_CAP, w.signature)];
    for j := 0 to |t.replies|
      invariant rows + ReplyRows(t.replies[j..], w) == ThreadRows(t, w)
    {
      assert t.replies[j..][0] == t.replies[j] && t.replies[j..][1..] == t.replies[j + 1..];
      rows := rows + [ReplyRow(t.replies[j], w)];
    }
  }

  /** `thread_preamble`: the rows, appended thread by thread. */
  method ThreadPreamble(w: Wording, author: string, url: string, threads: seq<Thread>) returns (prompt: string)
    ensures prompt == JoinLF(PromptLines(w, author, url, threads))
  {
    var rows: seq<string> := [];
    for i := 0 to |threads|
      invariant rows == Listing(threads[..i], w)
    {
      var block := ThreadBlock(threads[i], w);
      assert threads[..i + 1] == threads[..i] + [threads[i]];
      ListingAppend(threads[..i], threads[i], w);
      rows := rows + (if i == 0 then [] else [""]) + block;
    }
    assert threads[..|threads|] == threads;
    var n := if threads == [] then 0 else threads[0].commentId;
    prompt := JoinLF(([w.beforeUrl + url + w.afterUrl, "", author + w.afterAuthor, ""] + rows + [""] + w.ask)
                     + Framed(ThreadMarker(n), ["resolve"], END) + w.rules);
  }

  lemma {:induction false} ListingAppend(threads: seq<Thread>, t: Thread, w: Wording)
    ensures Listing(threads + [t], w)
         == Listing(threads, w) + (if threads == [] then [] else [""]) + ThreadRows(t, w)
  {
    if |threads| == 0 {
      assert threads + [t] == [t];
    } else {
      assert (threads + [t])[1..] == threads[1..] + [t];
      ListingAppend(threads[1..], t, w);
    }
  }

  // ----- reading the verdicts back ---------------------------------------------------

  /** The id on a line that opens a THREAD block, if the line opens one. */
  function OpenedId(line: string): Option<nat> {
    if |line| < |OPEN_THREAD| || line[..|OPEN_THREAD|] != OPEN_THREAD then None
    else
      var rest := line[|OPEN_THREAD|..];
      var n := DigitRun(rest);
      if n > 0 && HoldsOnly(rest[n..], MARK) then Some(ParseDec(rest[..n])) else None
  }

  function OpensThread(): string -> bool {
    line => OpenedId(line).Some?
  }

  function ClosesThread(): string -> bool {
    line => HoldsOnly(line, END)
  }

  datatype ThreadVerdict = ThreadVerdict(commentId: nat, action: string, body: string)

  predicate Valid(v: ThreadVerdict) {
    v.action == "resolve" || v.action == "leave" || (v.action == "reply" && Strip(v.body) != "")
  }

  /** One block's decision; a malformed one is dropped. */
  function ReadVerdict(b: Block<string>): Option<ThreadVerdict> {
    var lines := SplitLines(Strip(JoinLF(b.body)));
    if lines == [] || OpenedId(b.opener).None? then None
    else
      var v := ThreadVerdict(OpenedId(b.opener).value, Lowered(Strip(lines[0])), Strip(JoinLF(lines[1..])));
      if Valid(v) then Some(v) else None
  }

  function ReadVerdicts(found: seq<Block<string>>): seq<ThreadVerdict> {
    if found == [] then []
    else
      var v := ReadVerdict(found[|found| - 1]);
      ReadVerdicts(found[..|found| - 1]) + (if v.Some? then [v.value] else [])
  }

  function ThreadBlocks(lines: seq<string>): State<string> {
    Scan(lines, OpensThread(), ClosesThread())
  }

  /** `parse_thread_verdicts`. */
  method ParseThreadVerdicts(text: string) returns (out: seq<ThreadVerdict>)
    ensures out == ReadVerdicts(ThreadBlocks(SplitLF(text)).found)
  {
    var found := ThreadBlocks(SplitLF(text)).found;
    out := [];
    for i := 0 to |found|
      invariant out == ReadVerdicts(found[..i])
    {
      assert found[..i + 1][..i] == found[..i];
      match ReadVerdict(found[i]) {
        case Some(v) => out := out + [v];
        case None =>
      }
    }
    assert found[..|found|] == found;
  }

  // ----- nothing in the prompt forges a marker ------------------------------------------

  lemma {:induction false} OpenerShape(line: string)
    requires OpenedId(line).Some?
    ensures line != "" && line[0] == '<'
    ensures IsSpace(line[|line| - 1]) || line[|line| - 1] == '>'
  {
    var rest := line[|OPEN_THREAD|..];
    var tail := rest[DigitRun(rest)..];
    assert line[..|OPEN_THREAD|][0] == line[0] == OPEN_THREAD[0];
    assert tail[|tail| - 1] == line[|line| - 1];
    if |tail| == |MARK| {
      assert tail[..|MARK|][2] == MARK[2];
    } else {
      assert tail[|MARK|..][|tail| - |MARK| - 1] == tail[|tail| - 1];
    }
  }

  lemma {:induction false} MarkerOpens(id: nat)
    ensures OpenedId(ThreadMarker(id)) == Some(id)
  {
    var line, d := ThreadMarker(id), Dec(id);
    var rest := line[|OPEN_THREAD|..];
    assert line[..|OPEN_THREAD|] == OPEN_THREAD && rest == d + MARK;
    assert MARK[0] == '>';
    DigitRunOf(d, MARK);
    var n := DigitRun(rest);
    assert rest[..n] == d && rest[n..] == MARK && MARK[|MARK|..] == "";
    DecRoundTrip(id);
  }

  /** A line that cannot open a block: it does not start with `<`, or it ends in
      something a marker line cannot end in. */
  predicate Harmless(line: string) {
    line == "" || line[0] != '<' || (!IsSpace(line[|line| - 1]) && line[|line| - 1] != '>')
  }

  predicate AllHarmless(lines: seq<string>) {
    forall k :: 0 <= k < |lines| ==> Harmless(lines[k])
  }

  predicate AllOneLine(lines: seq<string>) {
    forall k :: 0 <= k < |lines| ==> LF !in lines[k]
  }

  /** What the prompt's fixed text satisfies: single lines that open no block, and a
      sentence, not a marker, after the author's name. */
  predicate Plain(w: Wording) {
    && LF !in w.outdated && LF !in w.beforeUrl && LF !in w.afterUrl && LF !in w.afterAuthor
    && w.beforeUrl != "" && w.beforeUrl[0] != '<'
    && w.afterAuthor != "" && !IsSpace(w.afterAuthor[|w.afterAuthor| - 1]) && w.afterAuthor[|w.afterAuthor| - 1] != '>'
    && AllOneLine(w.ask) && AllOneLine(w.rules) && AllHarmless(w.ask) && AllHarmless(w.rules)
  }

  predicate PlainLogins(threads: seq<Thread>) {
    forall i, j :: 0 <= i < |threads| && 0 <= j < |threads[i].replies| ==> LF !in threads[i].replies[j].who
  }

  predicate Safe(lines: seq<string>) {
    AllHarmless(lines) && AllOneLine(lines)
  }

  lemma {:induction false} ReplyRowsSafe(rs: seq<Reply>, w: Wording)
    requires forall j :: 0 <= j < |rs| ==> LF !in rs[j].who
    ensures Safe(ReplyRows(rs, w))
  {
    if rs != [] {
      FlattenIsOneLine(rs[0].body, BODY_CAP, w.signature);
      ReplyRowsSafe(rs[1..], w);
      assert ReplyRow(rs[0], w)[0] == ' ';
    }
  }

  lemma {:induction false} DecOneLine(n: nat)
    ensures LF !in Dec(n)
  {
  }

  lemma {:induction false} ThreadRowsSafe(t: Thread, w: Wording)
    requires LF !in w.outdated && forall j :: 0 <= j < |t.replies| ==> LF !in t.replies[j].who
    ensures Safe(ThreadRows(t, w))
  {
    HeadRowsSafe(t, w);
    ReplyRowsSafe(t.replies, w);
  }

  lemma {:induction false} WhereIsOneLine(t: Thread, w: Wording)
    requires LF !in w.outdated
    ensures LF !in Where(t, w)
  {
    FlattenIsOneLine(t.path, PATH_CAP, w.signature);
    DecOneLine(t.line);
  }

  lemma {:induction false} HeadRowsSafe(t: Thread, w: Wording)
    requires LF !in w.outdated
    ensures Safe(["THREAD " + Dec(t.commentId) + " \U{2014} " + Where(t, w),
                  "  you said: " + Flatten(t.mine, BODY_CAP, w.signature)])
  {
    WhereIsOneLine(t, w);
    DecOneLine(t.commentId);
    FirstRowSafe(Dec(t.commentId), Where(t, w));
    FlattenIsOneLine(t.mine, BODY_CAP, w.signature);
    SecondRowSafe(Flatten(t.mine, BODY_CAP, w.signature));
  }

  lemma {:induction false} FirstRowSafe(id: string, place: string)
    requires LF !in id && LF !in place
    ensures Safe(["THREAD " + id + " \U{2014} " + place])
  {
    assert ("THREAD " + id + " \U{2014} " + place)[0] == 'T';
  }

  lemma {:induction false} SecondRowSafe(text: string)
    requires LF !in text
    ensures Safe(["  you said: " + text])
  {
    assert ("  you said: " + text)[0] == ' ';
  }

  lemma {:induction false} ListingSafe(threads: seq<Thread>, w: Wording)
    requires LF !in w.outdated && PlainLogins(threads)
    ensures Safe(Listing(threads, w))
  {
    if threads != [] {
      ThreadRowsSafe(threads[0], w);
      if |threads| > 1 {
        ListingSafe(threads[1..], w);
      }
    }
  }

  lemma {:induction false} HarmlessOpensNothing(lines: seq<string>)
    requires AllHarmless(lines)
    ensures Nowhere(lines, OpensThread())
  {
    forall k | 0 <= k < |lines| ensures !OpensThread()(lines[k]) {
      if OpenedId(lines[k]).Some? {
        OpenerShape(lines[k]);
      }
    }
  }

  lemma {:induction false} PromptIsSafe(w: Wording, author: string, url: string, threads: seq<Thread>)
    requires Plain(w) && PlainLogins(threads) && LF !in author && LF !in url
    ensures Safe([w.beforeUrl + url + w.afterUrl, "", author + w.afterAuthor, ""]
                 + Listing(threads, w) + [""] + w.ask)
  {
    ListingSafe(threads, w);
    FirstLinesSafe(w, author, url);
    assert Safe([""]);
  }

  lemma {:induction false} FirstLinesSafe(w: Wording, author: string, url: string)
    requires Plain(w) && LF !in author && LF !in url
    ensures Safe([w.beforeUrl + url + w.afterUrl, "", author + w.afterAuthor, ""])
  {
    var a, b := w.beforeUrl + url + w.afterUrl, author + w.afterAuthor;
    assert a[0] == w.beforeUrl[0];
    assert b[|b| - 1] == w.afterAuthor[|w.afterAuthor| - 1];
  }

  /** For any thread list with arbitrary bodies and paths, parsing the prompt itself
      finds exactly one block, the template's, with the first thread's id. */
  lemma {:induction false} OnlyTheTemplateOpens(
      w: Wording, author: string, url: string, threads: seq<Thread>)
    requires Plain(w) && PlainLogins(threads) && LF !in author && LF !in url
    ensures
      var prompt := JoinLF(PromptLines(w, author, url, threads));
      var id := if threads == [] then 0 else threads[0].commentId;
      ThreadBlocks(SplitLF(prompt)).found == [Block(ThreadMarker(id), ["resolve"])]
      && ReadVerdicts(ThreadBlocks(SplitLF(prompt)).found) == [ThreadVerdict(id, "resolve", "")]
  {
    PromptIsSafe(w, author, url, threads);
    var top := [w.beforeUrl + url + w.afterUrl, "", author + w.afterAuthor, ""]
               + Listing(threads, w) + [""] + w.ask;
    var id := FirstId(threads);
    var template := Framed(ThreadMarker(id), ["resolve"], END);
    TemplateLines(id);
    SplitJoin(top + template + w.rules);
    var o, c, s := OpensThread(), ClosesThread(), State([], None);
    HarmlessOpensNothing(top);
    HarmlessOpensNothing(w.rules);
    RunAppend(s, top + template, w.rules, o, c);
    RunAppend(s, top, template, o, c);
    RunOutside(s, top, o, c);
    OwnBlock(s, ThreadMarker(id), ["resolve"], END, o, c);
    var b := Block(ThreadMarker(id), ["resolve"]);
    assert [] + [b] == [b];
    RunOutside(State([b], None), w.rules, o, c);
    TemplateVerdict(id);
    assert ReadVerdicts([b]) == ReadVerdicts([b][..0]) + [ReadVerdict(b).value];
  }

  lemma {:induction false} TemplateLines(id: nat)
    ensures OpensThread()(ThreadMarker(id)) && ClosesThread()(END) && Nowhere(["resolve"], ClosesThread())
    ensures AllOneLine(Framed(ThreadMarker(id), ["resolve"], END))
  {
    MarkerOpens(id);
    DecOneLine(id);
    assert END[..|END|] == END && END[|END|..] == "";
    assert LF !in OPEN_THREAD && LF !in MARK && LF !in END && LF !in "resolve";
  }

  lemma {:induction false} TemplateVerdict(id: nat)
    ensures ReadVerdict(Block(ThreadMarker(id), ["resolve"])) == Some(ThreadVerdict(id, "resolve", ""))
  {
    OneWordVerdict(id, "resolve");
  }

  /** A word in small letters, with nothing around it. */
  predicate SmallWord(word: string) {
    && word != "" && NoBreaks(word) && !IsSpace(word[0]) && !IsSpace(word[|word| - 1])
    && forall k :: 0 <= k < |word| ==> !('A' <= word[k] <= 'Z') && word[k] != '\U{212A}'
  }

  lemma {:induction false} OneWordVerdict(id: nat, word: string)
    requires SmallWord(word) && (word == "resolve" || word == "leave")
    ensures ReadVerdict(Block(ThreadMarker(id), [word])) == Some(ThreadVerdict(id, word, ""))
  {
    MarkerOpens(id);
    OneWordReads(word);
  }

  lemma {:induction false} OneWordReads(word: string)
    requires SmallWord(word)
    ensures SplitLines(Strip(JoinLF([word]))) == [word]
    ensures Lowered(Strip(word)) == word && Strip(JoinLF([word][1..])) == ""
  {
    StripStays(word);
    OneLineSplits(word);
    LoweredStays(word);
  }

  lemma {:induction false} OneLineSplits(s: string)
    requires s != "" && NoBreaks(s)
    ensures SplitLines(s) == [s]
  {
    if |s| > 1 {
      OneLineSplits(s[1..]);
      assert [s[0]] + s[1..] == s;
      assert s[0] != '\r' by { assert !IsBreak(s[0]); }
    }
  }

  // ----- a printed decision comes back ------------------------------------------------

  /** One decision as the prompt asks for it: a word on the first line, and below it the
      text, if there is one. */
  function Printed(id: nat, word: string, text: string): seq<string> {
    [ThreadMarker(id)] + [word] + (if text == "" then [] else SplitLF(text)) + [END]
  }

  /** A word the parser takes for `action`, in any case and with blanks around it. */
  predicate Spells(word: string, action: string) {
    NoBreaks(word) && Lowered(Strip(word)) == action
  }

  /** A text the block can carry as it is: nothing to strip, no boundary but line feeds,
      and no line that ends the block. */
  predicate Carried(text: string) {
    && (text == "" || (!IsSpace(text[0]) && !IsSpace(text[|text| - 1])))
    && (forall k :: 0 <= k < |text| && IsBreak(text[k]) ==> text[k] == LF)
    && Nowhere(SplitLF(text), ClosesThread())
  }

  /** Below any lines that leave no block open, a printed decision is read back after
      theirs with its own thread, word and text, if it is one of the three and a reply says
      something; any other is dropped. */
  lemma {:induction false} DecisionIsRead(above: seq<string>, id: nat, word: string, action: string, text: string)
    requires ThreadBlocks(above).open.None?
    requires Spells(word, action) && action != "" && Carried(text) && !HoldsOnly(word, END)
    ensures ThreadBlocks(above + Printed(id, word, text)).open.None?
    ensures ReadVerdicts(ThreadBlocks(above + Printed(id, word, text)).found)
         == ReadVerdicts(ThreadBlocks(above).found)
            + (if action == "resolve" || action == "leave" || (action == "reply" && text != "")
               then [ThreadVerdict(id, action, text)] else [])
  {
    var body := [word] + (if text == "" then [] else SplitLF(text));
    var b := Block(ThreadMarker(id), body);
    assert Printed(id, word, text) == Framed(ThreadMarker(id), body, END);
    BlockIsFound(above, id, body);
    ReadOneMore(ThreadBlocks(above).found, b);
    BodyIsRead(word, action, text);
    MarkerOpens(id);
    StripStays(text);
  }

  lemma {:induction false} BlockIsFound(above: seq<string>, id: nat, body: seq<string>)
    requires ThreadBlocks(above).open.None? && Nowhere(body, ClosesThread())
    ensures ThreadBlocks(above + Framed(ThreadMarker(id), body, END))
         == State(ThreadBlocks(above).found + [Block(ThreadMarker(id), body)], None)
  {
    TemplateLines(id);
    RunAppend(State([], None), above, Framed(ThreadMarker(id), body, END), OpensThread(), ClosesThread());
    OwnBlock(ThreadBlocks(above), ThreadMarker(id), body, END, OpensThread(), ClosesThread());
  }

  lemma {:induction false} ReadOneMore(found: seq<Block<string>>, b: Block<string>)
    ensures ReadVerdicts(found + [b])
         == ReadVerdicts(found) + (if ReadVerdict(b).Some? then [ReadVerdict(b).value] else [])
  {
    assert (found + [b])[..|found|] == found;
  }

  lemma {:induction false} BodyIsRead(word: string, action: string, text: string)
    requires Spells(word, action) && action != "" && Carried(text)
    ensures
      var lines := SplitLines(Strip(JoinLF([word] + (if text == "" then [] else SplitLF(text)))));
      lines != [] && Lowered(Strip(lines[0])) == action && Strip(JoinLF(lines[1..])) == text
  {
    WordIsKept(word);
    StripIdempotent(word);
    if text == "" {
      assert [word] + [] == [word];
      OneLineSplits(Strip(word));
      assert [Strip(word)][1..] == [];
    } else {
      TextBelowIsKept(word, text);
      assert ([LStrip(word)] + SplitLF(text))[1..] == SplitLF(text);
      JoinSplit(text);
      StripStays(text);
    }
  }

  lemma {:induction false} TextBelowIsKept(word: string, text: string)
    requires NoBreaks(LStrip(word)) && !AllSpace(word) && Carried(text) && text != ""
    ensures SplitLines(Strip(JoinLF([word] + SplitLF(text)))) == [LStrip(word)] + SplitLF(text)
  {
    var first, below := LStrip(word), [LF] + text;
    assert ([word] + SplitLF(text))[1..] == SplitLF(text);
    JoinSplit(text);
    assert word + [LF] + text == word + below && first + [LF] + text == first + below;
    LStripKeepsTail(word, below);
    StripStays(first + below);
    FirstLineSplits(first, text);
    OnlyLineFeeds(text);
  }

  lemma {:induction false} WordIsKept(word: string)
    requires NoBreaks(word) && Lowered(Strip(word)) != ""
    ensures !AllSpace(word) && NoBreaks(LStrip(word)) && NoBreaks(Strip(word))
    ensures Strip(LStrip(word)) == Strip(word) && Strip(word) != ""
  {
    if AllSpace(word) {
      AllSpaceStrips(word);
    }
    LStripIsSuffix(word);
    var r := LStrip(word);
    assert LStrip(r) == r;
    assert Strip(word) <= r;
    assert forall k :: 0 <= k < |Strip(word)| ==> Strip(word)[k] == r[k];
  }

  lemma {:induction false} LStripIsSuffix(s: string)
    requires NoBreaks(s)
    ensures NoBreaks(LStrip(s))
  {
    if s != "" && IsSpace(s[0]) {
      LStripIsSuffix(s[1..]);
    }
  }

  lemma {:induction false} StripStays(s: string)
    requires s == "" || (!IsSpace(s[0]) && !IsSpace(s[|s| - 1]))
    ensures Strip(s) == s
  {
    assert LStrip(s) == s && RStrip(s) == s;
  }

  lemma {:induction false} OnlyLineFeeds(s: string)
    requires s != "" && s[|s| - 1] != LF && forall k :: 0 <= k < |s| && IsBreak(s[k]) ==> s[k] == LF
    ensures SplitLines(s) == SplitLF(s)
  {
    assert s[0] == '\r' ==> IsBreak(s[0]);
    if |s| > 1 {
      OnlyLineFeeds(s[1..]);
    } else {
      assert SplitLF(s[1..]) == [""];
      assert [s[0]] + "" == s;
    }
  }

  /** Every decision the parser hands on is one of the three, and a reply says something. */
  lemma {:induction false} DecisionsAreValid(found: seq<Block<string>>, v: ThreadVerdict)
    requires v in ReadVerdicts(found)
    ensures v.action in {"resolve", "reply", "leave"}
    ensures v.action == "reply" ==> exists k :: 0 <= k < |v.body| && !IsSpace(v.body[k])
  {
    var rest := found[..|found| - 1];
    if v in ReadVerdicts(rest) {
      DecisionsAreValid(rest, v);
    } else if AllSpace(v.body) {
      AllSpaceStrips(v.body);
    }
  }
}

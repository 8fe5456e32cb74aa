/** The issue-form parser: a form renders as `### heading` lines with the answers below
    them; the first heading of a name wins, and fenced blocks are skipped whole. */
module Triage {
  import opened Text
  import opened Options

  const NO_RESPONSE := "_No response_"
  const CR := '\r'

  /** One field: its heading, the line that opened it, and the lines below that one. */
  datatype Field = Field(head: string, opener: string, lines: seq<string>)

  datatype Fence = Ticks | Tildes

  datatype Form = Form(out: seq<Field>, fence: Option<Fence>)

  const EMPTY := Form([], None)

  /** The fence a line starts with after its indentation: the one it opens outside a
      fence, and the one it closes inside. */
  function FenceOf(line: string): Option<Fence> {
    var s := LStrip(line);
    if |s| < 3 then None
    else if s[..3] == "```" then Some(Ticks)
    else if s[..3] == "~~~" then Some(Tildes)
    else None
  }

  /** `line.lstrip("#")`. */
  function DropHashes(line: string): string {
    if line != "" && line[0] == '#' then DropHashes(line[1..]) else line
  }

  /** The heading a line has, if it starts with `## ` or `### `. */
  function HeadingOf(line: string): Option<string> {
    if |line| >= 3 && (line[..3] == "## " || (|line| >= 4 && line[..4] == "### "))
    then Some(Strip(DropHashes(line))) else None
  }

  predicate HasHead(out: seq<Field>, head: string) {
    exists k :: 0 <= k < |out| && out[k].head == head
  }

  function AddLine(out: seq<Field>, line: string): seq<Field> {
    if out == [] then out
    else
      var f := out[|out| - 1];
      out[..|out| - 1] + [f.(lines := f.lines + [line])]
  }

  function Step(s: Form, line: string): Form {
    var mark, head := FenceOf(line), HeadingOf(line);
    if s.fence.Some? then Form(AddLine(s.out, line), if mark == s.fence then None else s.fence)
    else if mark.Some? then Form(AddLine(s.out, line), mark)
    else if head.Some? && !HasHead(s.out, head.value) then Form(s.out + [Field(head.value, line, [])], None)
    else Form(AddLine(s.out, line), None)
  }

  function Run(s: Form, lines: seq<string>): Form
    decreases |lines|
  {
    if lines == [] then s else Run(Step(s, lines[0]), lines[1..])
  }

  /** `body.replace("\r\n", "\n")`. */
  function Unix(s: string): string {
    if s == "" then ""
    else if s[0] == CR && |s| > 1 && s[1] == LF then [LF] + Unix(s[2..])
    else [s[0]] + Unix(s[1..])
  }

  function Lines(body: string): seq<string> {
    SplitLF(Unix(body))
  }

  /** `_answer`. */
  function Answer(text: string): string {
    var t := Strip(text);
    if t == NO_RESPONSE then "" else t
  }

  function Answers(out: seq<Field>): (r: seq<(string, string)>)
    ensures |r| == |out|
    ensures forall k :: 0 <= k < |r| ==> r[k] == (out[k].head, Answer(JoinLF(out[k].lines)))
  {
    if out == [] then [] else [(out[0].head, Answer(JoinLF(out[0].lines)))] + Answers(out[1..])
  }

  /** `fields`, as the pairs of the ordered dictionary it returns. */
  method Fields(body: string) returns (answers: seq<(string, string)>)
    ensures answers == Answers(Run(EMPTY, Lines(body)).out)
  {
    var lines := Lines(body);
    var out: seq<Field> := [];
    var current: Option<nat> := None;
    var fence: Option<Fence> := None;
    for i := 0 to |lines|
      invariant current == if out == [] then None else Some(|out| - 1)
      invariant Run(Form(out, fence), lines[i..]) == Run(EMPTY, lines)
    {
      var line := lines[i];
      ghost var before := Form(out, fence);
      assert lines[i..][0] == line && lines[i..][1..] == lines[i + 1..];
      var mark, head := FenceOf(line), HeadingOf(line);
      if fence.Some? {
        if mark == fence {
          fence := None;
        }
      } else if mark.Some? {
        fence := mark;
      } else if head.Some? && !HasHead(out, head.value) {
        out := out + [Field(head.value, line, [])];
        current := Some(|out| - 1);
        assert Form(out, fence) == Step(before, line);
        continue;
      }
      if current.Some? {
        var f := out[current.value];
        out := out[current.value := f.(lines := f.lines + [line])];
      }
      assert out == AddLine(before.out, line);
      assert Form(out, fence) == Step(before, line);
    }
    answers := Answers(out);
  }

  // ----- which lines say something ------------------------------------------------------------

  lemma {:induction false} LStripsTo(indent: string, s: string)
    requires AllSpace(indent) && s != "" && !IsSpace(s[0])
    ensures LStrip(indent + s) == s
  {
    LStripPad(indent, s);
  }

  /** A fence is three backticks or three tildes after any indentation, whatever follows. */
  lemma {:induction false} FencesAre(indent: string, rest: string)
    requires AllSpace(indent)
    ensures FenceOf(indent + "```" + rest) == Some(Ticks) && FenceOf(indent + "~~~" + rest) == Some(Tildes)
  {
    assert "```"[0] == '`' && "~~~"[0] == '~' && !IsSpace('`') && !IsSpace('~');
    LStripsTo(indent, "```" + rest);
    LStripsTo(indent, "~~~" + rest);
    assert indent + "```" + rest == indent + ("```" + rest) && indent + "~~~" + rest == indent + ("~~~" + rest);
    assert ("```" + rest)[..3] == "```" && ("~~~" + rest)[..3] == "~~~";
  }

  /** And no other line is one. */
  lemma {:induction false} OnlyFencesAre(line: string)
    ensures FenceOf(line).Some? ==> |LStrip(line)| >= 3 && (LStrip(line)[..3] == "```" || LStrip(line)[..3] == "~~~")
  {
  }

  /** A heading is two or three hashes at the very start and a space; its name is what is left
      without hashes and stripped. */
  lemma {:induction false} HeadingsAre(name: string)
    ensures HeadingOf("## " + name) == Some(Strip(name)) && HeadingOf("### " + name) == Some(Strip(name))
    ensures HeadingOf("# " + name) == None && HeadingOf("#### " + name) == None && HeadingOf(" ## " + name) == None
  {
    SpaceStripped(name);
    assert ("## " + name)[..3] == "## " && ("### " + name)[..4] == "### ";
    assert ("### " + name)[..3] == "###" && ("# " + name)[1] == ' ' && ("#### " + name)[3] == '#';
    assert "## "[1] == '#' && "### "[3] == ' ' && (" ## " + name)[0] == ' ';
    DropsHashes("## ", name, 2);
    DropsHashes("### ", name, 3);
  }

  lemma {:induction false} SpaceStripped(name: string)
    ensures Strip(" " + name) == Strip(name)
  {
    StripPad(" ", name, "");
    assert " " + name + "" == " " + name;
  }

  lemma {:induction false} DropsHashes(start: string, name: string, n: nat)
    requires |start| == n + 1 && start[n] == ' ' && forall k :: 0 <= k < n ==> start[k] == '#'
    ensures DropHashes(start + name) == " " + name
  {
    if n == 0 {
      assert start == " ";
    } else {
      assert (start + name)[1..] == start[1..] + name;
      DropsHashes(start[1..], name, n - 1);
    }
  }

  // ----- a longer body ------------------------------------------------------------

  lemma {:induction false} RunAppend(s: Form, a: seq<string>, b: seq<string>)
    ensures Run(s, a + b) == Run(Run(s, a), b)
    decreases |a|
  {
    if a == [] {
      assert a + b == b;
    } else {
      assert (a + b)[1..] == a[1..] + b;
      RunAppend(Step(s, a[0]), a[1..], b);
    }
  }

  /** `q` is `p` with lines added to its last field and fields added behind it. */
  predicate Continues(p: seq<Field>, q: seq<Field>) {
    && |p| <= |q|
    && (forall k :: 0 <= k < |p| - 1 ==> q[k] == p[k])
    && (p != [] ==> var f, g := p[|p| - 1], q[|p| - 1];
                    g.head == f.head && g.opener == f.opener && f.lines <= g.lines)
  }

  lemma {:induction false} RunContinues(s: Form, lines: seq<string>)
    ensures Continues(s.out, Run(s, lines).out)
    decreases |lines|
  {
    if lines != [] {
      RunContinues(Step(s, lines[0]), lines[1..]);
    }
  }

  predicate DistinctHeads(out: seq<Field>) {
    forall i, j :: 0 <= i < j < |out| ==> out[i].head != out[j].head
  }

  /** The first heading of a name is the only field of that name. */
  lemma {:induction false} HeadsStayDistinct(s: Form, lines: seq<string>)
    requires DistinctHeads(s.out)
    ensures DistinctHeads(Run(s, lines).out)
    decreases |lines|
  {
    if lines != [] {
      HeadsStayDistinct(Step(s, lines[0]), lines[1..]);
    }
  }

  // ----- where every line goes ------------------------------------------------------

  function Flatten(out: seq<Field>): seq<string> {
    if out == [] then []
    else Flatten(out[..|out| - 1]) + [out[|out| - 1].opener] + out[|out| - 1].lines
  }

  lemma {:induction false} StepFlattens(s: Form, line: string)
    ensures s.out != [] ==> Flatten(Step(s, line).out) == Flatten(s.out) + [line]
    ensures s.out == [] && Step(s, line).out != [] ==> Flatten(Step(s, line).out) == [line]
  {
    var t := Step(s, line).out;
    if |t| == |s.out| {
      if t != [] {
        assert t[..|t| - 1] == s.out[..|t| - 1];
        assert t[|t| - 1].lines == s.out[|t| - 1].lines + [line];
      }
    } else {
      assert t[..|t| - 1] == s.out;
      assert t[|t| - 1].lines == [];
    }
  }

  lemma {:induction false} RunFlattens(s: Form, lines: seq<string>)
    requires s.out != []
    ensures Run(s, lines).out != [] && Flatten(Run(s, lines).out) == Flatten(s.out) + lines
    decreases |lines|
  {
    if lines != [] {
      StepFlattens(s, lines[0]);
      var t := Step(s, lines[0]);
      assert t.out != [];
      RunFlattens(t, lines[1..]);
      Regroup(Flatten(s.out), lines);
    } else {
      assert Flatten(s.out) + lines == Flatten(s.out);
    }
  }

  lemma Regroup(a: seq<string>, b: seq<string>)
    requires b != []
    ensures (a + [b[0]]) + b[1..] == a + b
  {
  }

  /** Every line from the first heading on is a heading or belongs to exactly one
      field, in order: the fields, laid end to end with their openers, are the body
      less the lines above the first heading, which open nothing. */
  lemma {:induction false} LinesArePartitioned(s: Form, lines: seq<string>) returns (above: nat)
    requires s.out == []
    ensures above <= |lines| && Run(s, lines[..above]).out == []
    ensures Flatten(Run(s, lines).out) == lines[above..]
    ensures above < |lines| ==> Run(s, lines).out != []
    decreases |lines|
  {
    if lines == [] {
      above := 0;
    } else {
      var t := Step(s, lines[0]);
      StepFlattens(s, lines[0]);
      if t.out == [] {
        var n := LinesArePartitioned(t, lines[1..]);
        above := n + 1;
        assert lines[..above][1..] == lines[1..][..n];
        assert lines[above..] == lines[1..][n..];
      } else {
        above := 0;
        RunFlattens(t, lines[1..]);
        assert [lines[0]] + lines[1..] == lines;
      }
    }
  }

  /** The line that opened a field is a heading and names it. */
  predicate ProperOpeners(out: seq<Field>) {
    forall k :: 0 <= k < |out| ==> HeadingOf(out[k].opener) == Some(out[k].head)
  }

  lemma {:induction false} OpenersAreHeadings(s: Form, lines: seq<string>)
    requires ProperOpeners(s.out)
    ensures ProperOpeners(Run(s, lines).out)
    decreases |lines|
  {
    if lines != [] {
      OpenersAreHeadings(Step(s, lines[0]), lines[1..]);
    }
  }

  /** For any body: the fields have distinct names, each is named by the heading line
      that opened it, and laid end to end they are the body from its first heading on. */
  lemma {:induction false} FieldsCoverTheBody(body: string) returns (above: nat)
    ensures
      var lines, out := Lines(body), Run(EMPTY, Lines(body)).out;
      && above <= |lines| && Run(EMPTY, lines[..above]).out == []
      && Flatten(out) == lines[above..]
      && DistinctHeads(out) && ProperOpeners(out)
  {
    above := LinesArePartitioned(EMPTY, Lines(body));
    HeadsStayDistinct(EMPTY, Lines(body));
    OpenersAreHeadings(EMPTY, Lines(body));
  }

  // ----- text appended on a new line ---------------------------------------------------

  lemma {:induction false} UnixAppend(a: string, b: string)
    requires a == "" || a[|a| - 1] != CR
    ensures Unix(a + [LF] + b) == Unix(a) + [LF] + Unix(b)
    decreases |a|
  {
    var s := a + [LF] + b;
    if a == "" {
      assert s == [LF] + b && s[1..] == b;
    } else if a[0] == CR && |a| > 1 && a[1] == LF {
      assert s[2..] == a[2..] + [LF] + b;
      UnixAppend(a[2..], b);
      assert [LF] + (Unix(a[2..]) + [LF] + Unix(b)) == ([LF] + Unix(a[2..])) + [LF] + Unix(b);
    } else {
      assert s[1..] == a[1..] + [LF] + b;
      UnixAppend(a[1..], b);
      assert [a[0]] + (Unix(a[1..]) + [LF] + Unix(b)) == ([a[0]] + Unix(a[1..])) + [LF] + Unix(b);
    }
  }

  lemma {:induction false} UnixTrailingCR(a: string)
    ensures Unix(a + [CR]) == Unix(a) + [CR]
    ensures forall b: string :: Unix(a + [CR] + [LF] + b) == Unix(a) + [LF] + Unix(b)
    decreases |a|
  {
    var s := a + [CR];
    if a == "" {
      assert s[1..] == "";
      forall b: string ensures Unix(a + [CR] + [LF] + b) == Unix(a) + [LF] + Unix(b) {
        assert (a + [CR] + [LF] + b)[2..] == b;
      }
    } else {
      var d := if a[0] == CR && |a| > 1 && a[1] == LF then 2 else 1;
      assert s[d..] == a[d..] + [CR];
      UnixTrailingCR(a[d..]);
      var c := if d == 2 then LF else a[0];
      assert [c] + (Unix(a[d..]) + [CR]) == ([c] + Unix(a[d..])) + [CR];
      forall b: string ensures Unix(a + [CR] + [LF] + b) == Unix(a) + [LF] + Unix(b) {
        var t := a + [CR] + [LF] + b;
        assert t[d..] == a[d..] + [CR] + [LF] + b;
        assert [c] + (Unix(a[d..]) + [LF] + Unix(b)) == ([c] + Unix(a[d..])) + [LF] + Unix(b);
      }
    }
  }

  /** The names of the fields, and the answers of all but the last one. */
  predicate SameButLastAnswer(p: seq<(string, string)>, q: seq<(string, string)>) {
    && |p| <= |q|
    && (forall k :: 0 <= k < |p| ==> q[k].0 == p[k].0)
    && (forall k :: 0 <= k < |p| - 1 ==> q[k] == p[k])
  }

  lemma {:induction false} ContinuesKeepsAnswers(p: seq<Field>, q: seq<Field>)
    requires Continues(p, q)
    ensures SameButLastAnswer(Answers(p), Answers(q))
  {
    forall k | 0 <= k < |p|
      ensures Answers(q)[k].0 == Answers(p)[k].0 && (k < |p| - 1 ==> Answers(q)[k] == Answers(p)[k])
    {
      SameFieldSameAnswer(p, q, k);
    }
  }

  lemma {:induction false} SameFieldSameAnswer(p: seq<Field>, q: seq<Field>, k: nat)
    requires k < |p| <= |q| && q[k].head == p[k].head
    ensures Answers(q)[k].0 == Answers(p)[k].0
    ensures q[k] == p[k] ==> Answers(q)[k] == Answers(p)[k]
  {
  }

  /** `p` and `q` differ in the lines of their last field at most. */
  predicate SameButLastLines(p: Form, q: Form) {
    && |p.out| == |q.out| && p.fence == q.fence
    && (forall k :: 0 <= k < |p.out| ==> p.out[k].head == q.out[k].head)
    && (forall k :: 0 <= k < |p.out| - 1 ==> p.out[k] == q.out[k])
  }

  /** A carriage return at the end of a line changes nothing but that line. */
  lemma {:induction false} StepIgnoresCR(s: Form, line: string)
    ensures SameButLastLines(Step(s, line), Step(s, line + [CR]))
  {
    FenceIgnoresCR(line);
    HeadIgnoresCR(line);
  }

  lemma {:induction false} FenceIgnoresCR(line: string)
    ensures FenceOf(line + [CR]) == FenceOf(line)
  {
    if AllSpace(line) {
      AllSpaceStrips(line);
      AllSpaceStrips(line + [CR]);
    } else {
      LStripKeepsTail(line, [CR]);
      var s := LStrip(line);
      if |s| >= 3 {
        assert (s + [CR])[..3] == s[..3];
      } else if |s| == 2 {
        assert (s + [CR])[..3][2] == CR;
      }
    }
  }

  lemma {:induction false} HeadIgnoresCR(line: string)
    ensures HeadingOf(line + [CR]) == HeadingOf(line)
  {
    var l := line + [CR];
    assert |line| >= 3 ==> l[..3] == line[..3];
    assert |line| >= 4 ==> l[..4] == line[..4];
    assert |line| == 2 ==> l[..3][2] == CR;
    assert |line| == 3 ==> l[..4][3] == CR;
    DropIgnoresCR(line);
    var d := DropHashes(line);
    StripPad("", d, [CR]);
    assert "" + d + [CR] == d + [CR];
  }

  lemma {:induction false} DropIgnoresCR(line: string)
    ensures DropHashes(line + [CR]) == DropHashes(line) + [CR]
  {
    if line != "" && line[0] == '#' {
      assert (line + [CR])[1..] == line[1..] + [CR];
      DropIgnoresCR(line[1..]);
    }
  }

  /** Form parsing is stable under appending: whatever is added to a body on a new line,
      every field keeps its place and name, and every field but the last open one keeps
      its answer. */
  lemma {:induction false} AppendingIsStable(body: string, more: string)
    ensures SameButLastAnswer(Answers(Run(EMPTY, Lines(body)).out),
                              Answers(Run(EMPTY, Lines(body + [LF] + more)).out))
  {
    if body == "" || body[|body| - 1] != CR {
      UnixAppend(body, more);
      SplitAppend(Unix(body), Unix(more));
      RunAppend(EMPTY, Lines(body), Lines(more));
      RunContinues(Run(EMPTY, Lines(body)), Lines(more));
      ContinuesKeepsAnswers(Run(EMPTY, Lines(body)).out, Run(EMPTY, Lines(body + [LF] + more)).out);
    } else {
      AppendingAfterCR(body[..|body| - 1], more);
      assert body == body[..|body| - 1] + [CR];
    }
  }

  /** When the body ends in a bare carriage return, the new line turns it into a line
      ending: only the last line of the body reads differently. */
  lemma {:induction false} AppendingAfterCR(front: string, more: string)
    ensures SameButLastAnswer(Answers(Run(EMPTY, Lines(front + [CR])).out),
                              Answers(Run(EMPTY, Lines(front + [CR] + [LF] + more)).out))
  {
    UnixTrailingCR(front);
    var lines := Lines(front);
    var init, last := lines[..|lines| - 1], lines[|lines| - 1];
    SplitTrailing(Unix(front), CR);
    assert lines == init + [last];
    SplitAppend(Unix(front), Unix(more));
    var s := Run(EMPTY, init);
    RunAppend(EMPTY, init, [last]);
    RunAppend(EMPTY, init, [last + [CR]]);
    RunAppend(EMPTY, lines, Lines(more));
    StepIgnoresCR(s, last);
    RunContinues(Run(EMPTY, lines), Lines(more));
    var p, q := Run(EMPTY, Lines(front + [CR])), Run(EMPTY, lines);
    assert Run(s, [last]) == Step(s, last) && Run(s, [last + [CR]]) == Step(s, last + [CR]);
    AnswersDiffer(q, p, Run(EMPTY, Lines(front + [CR] + [LF] + more)).out);
  }

  lemma {:induction false} AnswersDiffer(q: Form, p: Form, out: seq<Field>)
    requires SameButLastLines(q, p) && Continues(q.out, out)
    ensures SameButLastAnswer(Answers(p.out), Answers(out))
  {
    ContinuesKeepsAnswers(q.out, out);
  }

  lemma {:induction false} SplitTrailing(s: string, c: char)
    requires c != LF
    ensures var r := SplitLF(s); SplitLF(s + [c]) == r[..|r| - 1] + [r[|r| - 1] + [c]]
  {
    var r := SplitLF(s);
    JoinSplit(s);
    JoinTrailing(r, c);
    SplitJoin(r[..|r| - 1] + [r[|r| - 1] + [c]]);
  }

  lemma {:induction false} JoinTrailing(r: seq<string>, c: char)
    requires r != []
    ensures JoinLF(r[..|r| - 1] + [r[|r| - 1] + [c]]) == JoinLF(r) + [c]
  {
    var longer := r[..|r| - 1] + [r[|r| - 1] + [c]];
    if |r| > 1 {
      JoinTrailing(r[1..], c);
      assert longer[1..] == r[1..][..|r| - 2] + [r[|r| - 1] + [c]];
      assert longer[0] == r[0];
      assert r[0] + [LF] + (JoinLF(r[1..]) + [c]) == (r[0] + [LF] + JoinLF(r[1..])) + [c];
    }
  }

  // ----- printing a form ------------------------------------------------------------------

  /** One question and its answer, as lines. */
  datatype Question = Question(head: string, answer: seq<string>)

  /** How GitHub renders a question: the heading, a blank line, the answer, a blank line. */
  function PrintQuestion(q: Question): seq<string> {
    ["### " + q.head, ""] + q.answer + [""]
  }

  function PrintForm(qs: seq<Question>): seq<string> {
    if qs == [] then [] else PrintQuestion(qs[0]) + PrintForm(qs[1..])
  }

  /** A line that says nothing to the parser: no fence, and no heading but one that stands
      above it already. */
  predicate PlainLine(heads: set<string>, line: string) {
    FenceOf(line).None? && (HeadingOf(line).Some? ==> HeadingOf(line).value in heads)
  }

  /** Line `j` closes the fence that line 0 opens. */
  predicate Closes(lines: seq<string>, j: nat) {
    && 0 < j < |lines| && FenceOf(lines[0]).Some? && FenceOf(lines[j]) == FenceOf(lines[0])
    && forall i :: 0 < i < j ==> FenceOf(lines[i]) != FenceOf(lines[0])
  }

  /** An answer that stands alone below these headings: plain lines and whole fenced blocks,
      whose inside may be anything. */
  predicate StandsAlone(heads: set<string>, answer: seq<string>)
    decreases |answer|
  {
    answer == []
    || (PlainLine(heads, answer[0]) && StandsAlone(heads, answer[1..]))
    || exists j :: 0 < j < |answer| && Closes(answer, j) && StandsAlone(heads, answer[j + 1..])
  }

  /** What the parser makes of an answer that is one: no field opened, no fence left open. */
  predicate Contained(s: Form, answer: seq<string>) {
    var t := Run(s, answer);
    |t.out| == |s.out| && t.fence.None?
  }

  function HeadSet(out: seq<Field>): set<string> {
    set f | f in out :: f.head
  }

  lemma {:induction false} HeadsAre(out: seq<Field>, head: string)
    ensures HasHead(out, head) <==> head in HeadSet(out)
  {
    if HasHead(out, head) {
      var k :| 0 <= k < |out| && out[k].head == head;
      assert out[k] in out;
    }
  }

  lemma {:induction false} AddLineKeepsHeads(out: seq<Field>, line: string)
    ensures |AddLine(out, line)| == |out| && HeadSet(AddLine(out, line)) == HeadSet(out)
  {
    var n := AddLine(out, line);
    forall h ensures h in HeadSet(n) <==> h in HeadSet(out) {
      HeadsAre(n, h);
      HeadsAre(out, h);
      assert forall k :: 0 <= k < |out| ==> n[k].head == out[k].head;
    }
  }

  /** Inside a fence every line is text until the one that closes it. */
  lemma {:induction false} FenceRuns(out: seq<Field>, m: Fence, lines: seq<string>, j: nat) returns (after: seq<Field>)
    requires j < |lines| && FenceOf(lines[j]) == Some(m) && forall i :: 0 <= i < j ==> FenceOf(lines[i]) != Some(m)
    ensures |after| == |out| && HeadSet(after) == HeadSet(out)
    ensures Run(Form(out, Some(m)), lines) == Run(Form(after, None), lines[j + 1..])
    decreases |lines|
  {
    after := AddLine(out, lines[0]);
    AddLineKeepsHeads(out, lines[0]);
    if j > 0 {
      after := FenceRuns(after, m, lines[1..], j - 1);
      assert lines[1..][j..] == lines[j + 1..];
    }
  }

  lemma {:induction false} FenceStays(out: seq<Field>, m: Fence, lines: seq<string>)
    requires forall i :: 0 <= i < |lines| ==> FenceOf(lines[i]) != Some(m)
    ensures Run(Form(out, Some(m)), lines).fence == Some(m)
    decreases |lines|
  {
    if lines != [] {
      FenceStays(AddLine(out, lines[0]), m, lines[1..]);
    }
  }

  lemma {:induction false} FirstClose(lines: seq<string>) returns (j: nat)
    requires lines != [] && FenceOf(lines[0]).Some?
    ensures j <= |lines| && (forall i :: 0 < i < j ==> FenceOf(lines[i]) != FenceOf(lines[0]))
    ensures j < |lines| ==> Closes(lines, j)
  {
    j := 1;
    while j < |lines| && FenceOf(lines[j]) != FenceOf(lines[0])
      invariant 1 <= j <= |lines|
      invariant forall i :: 0 < i < j ==> FenceOf(lines[i]) != FenceOf(lines[0])
    {
      j := j + 1;
    }
  }

  lemma {:induction false} OneClose(lines: seq<string>, j: nat, k: nat)
    requires Closes(lines, j) && Closes(lines, k)
    ensures j == k
  {
  }

  /** The parser agrees: an answer stands alone exactly when it opens no field and leaves no
      fence open. */
  lemma {:induction false} StandsAloneIff(out: seq<Field>, answer: seq<string>)
    ensures Contained(Form(out, None), answer) <==> StandsAlone(HeadSet(out), answer)
    decreases |answer|
  {
    if answer != [] {
      var line, rest := answer[0], answer[1..];
      var t := Step(Form(out, None), line);
      if FenceOf(line).Some? {
        FencedAnswer(out, answer);
      } else if PlainLine(HeadSet(out), line) {
        if HeadingOf(line).Some? { HeadsAre(out, HeadingOf(line).value); }
        AddLineKeepsHeads(out, line);
        assert t == Form(AddLine(out, line), None);
        StandsAloneIff(t.out, rest);
        assert forall j :: !Closes(answer, j);
      } else {
        HeadsAre(out, HeadingOf(line).value);
        assert |t.out| == |out| + 1;
        RunContinues(t, rest);
        assert forall j :: !Closes(answer, j);
      }
    }
  }

  lemma {:induction false} FencedAnswer(out: seq<Field>, answer: seq<string>)
    requires answer != [] && FenceOf(answer[0]).Some?
    ensures Contained(Form(out, None), answer) <==> StandsAlone(HeadSet(out), answer)
    decreases |answer|, 0
  {
    var m, rest := FenceOf(answer[0]).value, answer[1..];
    AddLineKeepsHeads(out, answer[0]);
    var fenced := AddLine(out, answer[0]);
    assert Step(Form(out, None), answer[0]) == Form(fenced, Some(m));
    var j := FirstClose(answer);
    if j < |answer| {
      var after := FenceRuns(fenced, m, rest, j - 1);
      assert rest[j..] == answer[j + 1..];
      StandsAloneIff(after, answer[j + 1..]);
      forall k | 0 < k < |answer| && Closes(answer, k) ensures k == j {
        OneClose(answer, j, k);
      }
    } else {
      assert forall i :: 0 <= i < |rest| ==> rest[i] == answer[i + 1];
      FenceStays(fenced, m, rest);
      assert forall k :: !Closes(answer, k);
    }
  }

  function Opened(out: seq<Field>, q: Question): Form {
    Form(out + [Field(q.head, "### " + q.head, [""])], None)
  }

  function ReadBack(q: Question): Field {
    Field(q.head, "### " + q.head, [""] + q.answer + [""])
  }

  function ReadAll(qs: seq<Question>): seq<Field> {
    if qs == [] then [] else [ReadBack(qs[0])] + ReadAll(qs[1..])
  }

  /** Lines that open nothing all land in the last field. */
  lemma {:induction false} ContainedLines(out: seq<Field>, f: Field, fence: Option<Fence>, lines: seq<string>)
    requires |Run(Form(out + [f], fence), lines).out| == |out| + 1
    ensures Run(Form(out + [f], fence), lines).out == out + [f.(lines := f.lines + lines)]
    decreases |lines|
  {
    var s := Form(out + [f], fence);
    if lines == [] {
      assert f.lines + [] == f.lines;
    } else {
      var t := Step(s, lines[0]);
      RunContinues(t, lines[1..]);
      var g := f.(lines := f.lines + [lines[0]]);
      assert |t.out| == |out| + 1;
      assert t.out == AddLine(s.out, lines[0]) == out + [g];
      ContainedLines(out, g, t.fence, lines[1..]);
      Regroup(f.lines, lines);
    }
  }

  lemma {:induction false} HeadingReads(head: string)
    requires Strip(head) == head
    ensures HeadingOf("### " + head) == Some(head) && FenceOf("### " + head).None?
  {
    var line := "### " + head;
    assert line[1..] == "## " + head && line[1..][1..] == "# " + head && line[1..][1..][1..] == " " + head;
    assert DropHashes(" " + head) == " " + head;
    assert DropHashes("# " + head) == " " + head;
    assert DropHashes("## " + head) == " " + head;
    StripPad(" ", head, "");
    assert " " + head + "" == " " + head;
    assert line[..4] == "### ";
    assert line[0] == '#' && LStrip(line) == line && line[..3][0] == '#';
  }

  lemma RunOne(s: Form, line: string)
    ensures Run(s, [line]) == Step(s, line)
  {
    assert [line][1..] == [];
    assert Run(Step(s, line), []) == Step(s, line);
  }

  lemma {:induction false} UpToTheAnswer(out: seq<Field>, q: Question)
    requires Strip(q.head) == q.head && !HasHead(out, q.head)
    ensures Run(Form(out, None), PrintQuestion(q)) == Step(Run(Opened(out, q), q.answer), "")
  {
    var s, head := Form(out, None), "### " + q.head;
    HeadingReads(q.head);
    RunOne(s, head);
    BlankLine(out, Field(q.head, head, []));
    RunOne(Form(out + [Field(q.head, head, [])], None), "");
    RunAppend(s, [head], [""]);
    assert [] + [""] == [""];
    RunAppend(s, [head] + [""], q.answer);
    RunAppend(s, [head] + [""] + q.answer, [""]);
    RunOne(Run(Opened(out, q), q.answer), "");
    assert PrintQuestion(q) == [head] + [""] + q.answer + [""];
  }

  lemma {:induction false} QuestionReads(out: seq<Field>, q: Question)
    requires Strip(q.head) == q.head && !HasHead(out, q.head) && Contained(Opened(out, q), q.answer)
    ensures Run(Form(out, None), PrintQuestion(q)) == Form(out + [ReadBack(q)], None)
  {
    UpToTheAnswer(out, q);
    ContainedLines(out, Field(q.head, "### " + q.head, [""]), None, q.answer);
    BlankLine(out, Field(q.head, "### " + q.head, [""] + q.answer));
  }

  lemma BlankOpensNothing(s: Form)
    ensures |Step(s, "").out| == |s.out| && Step(s, "").fence == s.fence
  {
    assert FenceOf("").None? && HeadingOf("").None?;
  }

  lemma {:induction false} OpenedHeads(out: seq<Field>, q: Question)
    ensures HeadSet(Opened(out, q).out) == HeadSet(out) + {q.head}
    ensures HeadSet(out + [ReadBack(q)]) == HeadSet(out) + {q.head}
  {
    OneMoreHead(out, Field(q.head, "### " + q.head, [""]));
    OneMoreHead(out, ReadBack(q));
  }

  lemma {:induction false} OneMoreHead(out: seq<Field>, f: Field)
    ensures HeadSet(out + [f]) == HeadSet(out) + {f.head}
  {
    forall h ensures h in HeadSet(out + [f]) <==> h in HeadSet(out) || h == f.head {
      HeadsAre(out + [f], h);
      HeadsAre(out, h);
      if HasHead(out, h) {
        var k :| 0 <= k < |out| && out[k].head == h;
        assert (out + [f])[k].head == h;
      }
      assert (out + [f])[|out|] == f;
    }
  }

  /** Exactly when an answer reads back as one, told from its text: every line is plain or
      lies in a fenced block that is opened and closed. A heading the form has not reached
      yet is taken for the form's. */
  lemma {:induction false} QuestionReadsIff(out: seq<Field>, q: Question)
    requires Strip(q.head) == q.head && !HasHead(out, q.head)
    ensures Run(Form(out, None), PrintQuestion(q)) == Form(out + [ReadBack(q)], None)
       <==> StandsAlone(HeadSet(out) + {q.head}, q.answer)
  {
    OpenedHeads(out, q);
    StandsAloneIff(Opened(out, q).out, q.answer);
    if Contained(Opened(out, q), q.answer) {
      QuestionReads(out, q);
    } else {
      UpToTheAnswer(out, q);
      BlankOpensNothing(Run(Opened(out, q), q.answer));
    }
  }

  lemma {:induction false} BlankLine(out: seq<Field>, f: Field)
    ensures Step(Form(out + [f], None), "") == Form(out + [f.(lines := f.lines + [""])], None)
  {
    assert FenceOf("").None? && HeadingOf("").None?;
  }

  lemma Concat(a: seq<Field>, f: Field, b: seq<Field>)
    ensures (a + [f]) + b == a + ([f] + b)
  {
  }

  /** The answers a form is filled in with: stripped, and empty where it has the placeholder. */
  function Filled(qs: seq<Question>): seq<(string, string)> {
    if qs == [] then []
    else
      var said := Strip(JoinLF(qs[0].answer));
      [(qs[0].head, if said == "_No response_" then "" else said)] + Filled(qs[1..])
  }

  lemma {:induction false} BlankPadding(answer: seq<string>)
    ensures Strip(JoinLF([""] + answer + [""])) == Strip(JoinLF(answer))
  {
    if answer == [] {
      assert [""] + answer + [""] == ["", ""];
      assert JoinLF(["", ""]) == [LF];
      AllSpaceStrips([LF]);
      AllSpaceStrips("");
    } else {
      assert [""] + answer + [""] == [""] + (answer + [""]);
      JoinAppend([""], answer + [""]);
      JoinAppend(answer, [""]);
      assert JoinLF([""] + answer + [""]) == [LF] + JoinLF(answer) + [LF];
      StripPad([LF], JoinLF(answer), [LF]);
    }
  }

  lemma {:induction false} ReadAnswers(qs: seq<Question>)
    ensures Answers(ReadAll(qs)) == Filled(qs)
  {
    if qs != [] {
      BlankPadding(qs[0].answer);
      ReadAnswers(qs[1..]);
      assert ReadAll(qs)[1..] == ReadAll(qs[1..]);
    }
  }

  /** `"\r\n".join(lines)`: the line endings GitHub sends. */
  function JoinCRLF(lines: seq<string>): string {
    if lines == [] then "" else if |lines| == 1 then lines[0]
    else lines[0] + [CR] + [LF] + JoinCRLF(lines[1..])
  }

  lemma {:induction false} UnixPlain(s: string)
    requires CR !in s
    ensures Unix(s) == s
  {
    if s != "" {
      UnixPlain(s[1..]);
    }
  }

  lemma {:induction false} UnixJoins(lines: seq<string>)
    requires forall k :: 0 <= k < |lines| ==> CR !in lines[k]
    ensures Unix(JoinCRLF(lines)) == JoinLF(lines)
  {
    if |lines| == 1 {
      UnixPlain(lines[0]);
    } else if |lines| > 1 {
      UnixPlain(lines[0]);
      UnixTrailingCR(lines[0]);
      UnixJoins(lines[1..]);
    }
  }

  // ----- a heading that comes too early -------------------------------------------------------------

  lemma {:induction false} HeadingOpens(out: seq<Field>, head: string)
    requires Strip(head) == head && !HasHead(out, head)
    ensures Step(Form(out, None), "### " + head) == Form(out + [Field(head, "### " + head, [])], None)
  {
    HeadingReads(head);
  }

  lemma ThreeLines(s: Form, a: string, b: string, c: string)
    ensures Run(s, [a, b, c]) == Step(Step(Step(s, a), b), c)
  {
    assert [a, b, c][1..] == [b, c] && [b, c][1..] == [c];
    RunOne(Step(Step(s, a), b), c);
  }

  lemma FirstFieldOpens(first: string)
    requires Strip(first) == first
    ensures Step(Step(EMPTY, "### " + first), "") == Form([Field(first, "### " + first, [""])], None)
  {
    var f := Field(first, "### " + first, []);
    HeadingOpens([], first);
    BlankLine([], f);
    assert [] + [f] == [f] && [] + [""] == [""];
    assert [] + [f.(lines := [""])] == [f.(lines := [""])];
  }

  /** The first three lines, when the third is the second question's heading. */
  lemma {:induction false} EarlyHeadingOpens(first: string, second: string, a: string, c: string)
    requires Strip(first) == first && Strip(second) == second && first != second
    requires a == "### " + first && c == "### " + second
    ensures Run(EMPTY, [a, "", c]) == Form([Field(first, a, [""]), Field(second, c, [])], None)
  {
    var g := Field(first, a, [""]);
    ThreeLines(EMPTY, a, "", c);
    FirstFieldOpens(first);
    HeadingOpens([g], second);
    assert [g] + [Field(second, c, [])] == [g, Field(second, c, [])];
  }

  lemma QuestionLines(first: string, line: string, rest: seq<string>)
    ensures PrintQuestion(Question(first, [line])) + rest == ["### " + first, "", line] + ([""] + rest)
  {
  }

  lemma FirstAnswer(out: seq<Field>, head: string, opener: string)
    requires out != [] && out[0] == Field(head, opener, [""])
    ensures Answers(out)[0] == (head, "")
  {
    EmptyAnswer();
  }

  /** Somebody answers the first question with the heading of the second: the first answer
      comes back empty, whatever else the form says. */
  lemma {:induction false} EarlyHeadingIsTaken(first: string, second: string, rest: seq<string>)
    requires Strip(first) == first && Strip(second) == second && first != second
    ensures
      var q := Question(first, ["### " + second]);
      var out := Run(EMPTY, PrintQuestion(q) + rest).out;
      |out| >= 2 && out[0] == Field(first, "### " + first, [""]) && out[1].head == second
      && Answers(out)[0] == (first, "") && Answer(JoinLF(q.answer)) != ""
  {
    var a, c := "### " + first, "### " + second;
    EarlyHeadingOpens(first, second, a, c);
    QuestionLines(first, c, rest);
    RunAppend(EMPTY, [a, "", c], [""] + rest);
    var s3 := Form([Field(first, a, [""]), Field(second, c, [])], None);
    RunContinues(s3, [""] + rest);
    FirstAnswer(Run(s3, [""] + rest).out, first, a);
    HeadingIsInk(second);
  }

  lemma EmptyAnswer()
    ensures Answer(JoinLF([""])) == ""
  {
    AllSpaceStrips("");
  }

  lemma {:induction false} HeadingIsInk(head: string)
    ensures Answer(JoinLF(["### " + head])) != ""
  {
    var line := "### " + head;
    assert JoinLF([line]) == line && line[0] == '#';
    NotBlankStrips(line);
  }

  lemma {:induction false} NotBlankStrips(s: string)
    requires s != "" && s[0] == '#'
    ensures Strip(s) != "" && Strip(s)[0] == '#'
  {
    assert LStrip(s) == s;
    RStripKeepsFirst(s);
  }

  lemma {:induction false} RStripKeepsFirst(s: string)
    requires s != "" && !IsSpace(s[0])
    ensures RStrip(s) != "" && RStrip(s)[0] == s[0]
  {
    if IsSpace(s[|s| - 1]) {
      RStripKeepsFirst(s[..|s| - 1]);
    }
  }
}

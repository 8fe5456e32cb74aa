/** Whole forms: when the answers somebody typed are the answers the parser hands on. */
module Forms {
  import opened Text
  import opened Options
  import opened Triage

  // ----- counting hashes -----------------------------------------------------------------

  /** How many hashes a text holds. Stripping keeps the number, a heading has some, so an answer
      that lost or gained a heading is another answer. */
  function Hashes(s: string): nat {
    if s == "" then 0 else (if s[0] == '#' then 1 else 0) + Hashes(s[1..])
  }

  lemma {:induction false} HashesAppend(a: string, b: string)
    ensures Hashes(a + b) == Hashes(a) + Hashes(b)
  {
    if a == "" {
      assert a + b == b;
    } else {
      assert (a + b)[1..] == a[1..] + b;
      HashesAppend(a[1..], b);
    }
  }

  lemma {:induction false} NoHashes(s: string)
    requires '#' !in s
    ensures Hashes(s) == 0
  {
    if s != "" {
      NoHashes(s[1..]);
    }
  }

  lemma {:induction false} LStripKeepsHashes(s: string)
    ensures Hashes(LStrip(s)) == Hashes(s)
  {
    if s != "" && IsSpace(s[0]) {
      LStripKeepsHashes(s[1..]);
    }
  }

  lemma {:induction false} RStripKeepsHashes(s: string)
    ensures Hashes(RStrip(s)) == Hashes(s)
  {
    if s != "" && IsSpace(s[|s| - 1]) {
      var front, last := s[..|s| - 1], [s[|s| - 1]];
      RStripKeepsHashes(front);
      assert s == front + last && last[1..] == "";
      HashesAppend(front, last);
    }
  }

  lemma {:induction false} AnswerKeepsHashes(text: string)
    ensures Hashes(Answer(text)) == Hashes(text)
  {
    StripKeepsHashes(text);
    PlaceholderHasNone();
  }

  lemma {:induction false} StripKeepsHashes(text: string)
    ensures Hashes(Strip(text)) == Hashes(text)
  {
    LStripKeepsHashes(text);
    RStripKeepsHashes(LStrip(text));
  }

  lemma PlaceholderHasNone()
    ensures Hashes(NO_RESPONSE) == 0 == Hashes("")
  {
    NoHashes(NO_RESPONSE);
  }

  function HashesIn(lines: seq<string>): nat {
    if lines == [] then 0 else Hashes(lines[0]) + HashesIn(lines[1..])
  }

  lemma {:induction false} HashesInAppend(a: seq<string>, b: seq<string>)
    ensures HashesIn(a + b) == HashesIn(a) + HashesIn(b)
  {
    if a == [] {
      assert a + b == b;
    } else {
      assert (a + b)[1..] == a[1..] + b;
      HashesInAppend(a[1..], b);
    }
  }

  lemma {:induction false} HashesJoin(lines: seq<string>)
    ensures Hashes(JoinLF(lines)) == HashesIn(lines)
  {
    if |lines| == 1 {
      assert lines[1..] == [];
    } else if |lines| > 1 {
      HashesJoin(lines[1..]);
      HashesAppend(lines[0] + [LF], JoinLF(lines[1..]));
      HashesAppend(lines[0], [LF]);
      assert [LF][1..] == "" && JoinLF(lines) == lines[0] + [LF] + JoinLF(lines[1..]);
    }
  }

  lemma HeadingHasHash(line: string)
    requires HeadingOf(line).Some?
    ensures Hashes(line) >= 1
  {
    assert line[..3] == "## " ==> line[..3][0] == '#';
    assert |line| >= 4 && line[..4] == "### " ==> line[..4][0] == '#';
  }

  /** Answers with other numbers of hashes are other answers. */
  lemma {:induction false} OtherHashesOtherAnswer(a: seq<string>, b: seq<string>)
    requires HashesIn(a) != HashesIn(b)
    ensures Answer(JoinLF(a)) != Answer(JoinLF(b))
  {
    AnswerKeepsHashes(JoinLF(a));
    AnswerKeepsHashes(JoinLF(b));
    HashesJoin(a);
    HashesJoin(b);
  }

  // ----- an answer that opens nothing -----------------------------------------------------

  /** Plain lines and whole fenced blocks, and behind them perhaps one that is never closed. */
  predicate OpensNothing(heads: set<string>, answer: seq<string>)
    decreases |answer|
  {
    answer == []
    || (PlainLine(heads, answer[0]) && OpensNothing(heads, answer[1..]))
    || (exists j :: 0 < j < |answer| && Closes(answer, j) && OpensNothing(heads, answer[j + 1..]))
    || (FenceOf(answer[0]).Some? && forall j :: 0 < j < |answer| ==> FenceOf(answer[j]) != FenceOf(answer[0]))
  }

  /** A fence nothing closes takes every line. */
  lemma {:induction false} FenceTakesAll(out: seq<Field>, m: Fence, lines: seq<string>)
    requires forall i :: 0 <= i < |lines| ==> FenceOf(lines[i]) != Some(m)
    ensures |Run(Form(out, Some(m)), lines).out| == |out|
    decreases |lines|
  {
    if lines != [] {
      AddLineKeepsHeads(out, lines[0]);
      FenceTakesAll(AddLine(out, lines[0]), m, lines[1..]);
    }
  }

  /** The parser agrees. */
  lemma {:induction false} OpensNothingIff(out: seq<Field>, answer: seq<string>)
    ensures |Run(Form(out, None), answer).out| == |out| <==> OpensNothing(HeadSet(out), answer)
    decreases |answer|
  {
    if answer != [] {
      var line, rest := answer[0], answer[1..];
      var t := Step(Form(out, None), line);
      if FenceOf(line).Some? {
        FencedOpensNothing(out, answer);
      } else if PlainLine(HeadSet(out), line) {
        if HeadingOf(line).Some? { HeadsAre(out, HeadingOf(line).value); }
        AddLineKeepsHeads(out, line);
        assert t == Form(AddLine(out, line), None);
        OpensNothingIff(t.out, rest);
        assert forall j :: !Closes(answer, j);
      } else {
        HeadsAre(out, HeadingOf(line).value);
        assert |t.out| == |out| + 1;
        RunContinues(t, rest);
        assert forall j :: !Closes(answer, j);
      }
    }
  }

  lemma {:induction false} FencedOpensNothing(out: seq<Field>, answer: seq<string>)
    requires answer != [] && FenceOf(answer[0]).Some?
    ensures |Run(Form(out, None), answer).out| == |out| <==> OpensNothing(HeadSet(out), answer)
    decreases |answer|, 0
  {
    var m, rest := FenceOf(answer[0]).value, answer[1..];
    AddLineKeepsHeads(out, answer[0]);
    var fenced := AddLine(out, answer[0]);
    assert Step(Form(out, None), answer[0]) == Form(fenced, Some(m));
    var j := FirstClose(answer);
    if j < |answer| {
      var after := FenceRuns(fenced, m, rest, j - 1);
      assert rest[j..] == answer[j + 1..];
      OpensNothingIff(after, answer[j + 1..]);
      forall k | 0 < k < |answer| && Closes(answer, k) ensures k == j {
        OneClose(answer, j, k);
      }
    } else {
      assert forall i :: 0 <= i < |rest| ==> rest[i] == answer[i + 1];
      FenceTakesAll(fenced, m, rest);
    }
  }

  // ----- what the form must be -------------------------------------------------------------

  /** Headings as a form's template has them: stripped, and each its own. */
  predicate HeadsFit(heads: set<string>, qs: seq<Question>)
    decreases |qs|
  {
    qs == []
    || (Strip(qs[0].head) == qs[0].head && qs[0].head !in heads && HeadsFit(heads + {qs[0].head}, qs[1..]))
  }

  /** Every answer stands alone; the last may leave a fence open. */
  predicate FormStands(heads: set<string>, qs: seq<Question>)
    decreases |qs|
  {
    qs == []
    || (|qs| == 1 && OpensNothing(heads + {qs[0].head}, qs[0].answer))
    || (StandsAlone(heads + {qs[0].head}, qs[0].answer) && FormStands(heads + {qs[0].head}, qs[1..]))
  }

  // ----- it reads back ----------------------------------------------------------------------

  /** The last question of a form, a fence perhaps left open at its end. */
  lemma {:induction false} LastReads(out: seq<Field>, q: Question)
    requires Strip(q.head) == q.head && !HasHead(out, q.head) && OpensNothing(HeadSet(out) + {q.head}, q.answer)
    ensures Run(Form(out, None), PrintQuestion(q)).out == out + [ReadBack(q)]
  {
    var f := Field(q.head, "### " + q.head, [""]);
    UpToTheAnswer(out, q);
    OpenedHeads(out, q);
    OpensNothingIff(Opened(out, q).out, q.answer);
    ContainedLines(out, f, None, q.answer);
    BlankJoins(out, f.(lines := f.lines + q.answer), Run(Opened(out, q), q.answer).fence);
  }

  lemma BlankJoins(out: seq<Field>, f: Field, fence: Option<Fence>)
    ensures Step(Form(out + [f], fence), "").out == out + [f.(lines := f.lines + [""])]
  {
    assert FenceOf("").None? && HeadingOf("").None?;
  }

  lemma {:induction false} FirstOfForm(out: seq<Field>, qs: seq<Question>)
    requires qs != [] && Strip(qs[0].head) == qs[0].head && !HasHead(out, qs[0].head)
    requires StandsAlone(HeadSet(out) + {qs[0].head}, qs[0].answer)
    ensures Run(Form(out, None), PrintForm(qs)) == Run(Form(out + [ReadBack(qs[0])], None), PrintForm(qs[1..]))
    ensures HeadSet(out + [ReadBack(qs[0])]) == HeadSet(out) + {qs[0].head}
  {
    QuestionReadsIff(out, qs[0]);
    OpenedHeads(out, qs[0]);
    RunAppend(Form(out, None), PrintQuestion(qs[0]), PrintForm(qs[1..]));
  }

  lemma {:induction false} StandingFormReads(out: seq<Field>, qs: seq<Question>)
    requires HeadsFit(HeadSet(out), qs) && FormStands(HeadSet(out), qs)
    ensures Run(Form(out, None), PrintForm(qs)).out == out + ReadAll(qs)
    decreases |qs|
  {
    if qs == [] {
      assert out + [] == out;
    } else {
      HeadsAre(out, qs[0].head);
      if |qs| == 1 && OpensNothing(HeadSet(out) + {qs[0].head}, qs[0].answer) {
        LastReads(out, qs[0]);
        assert PrintForm(qs) == PrintQuestion(qs[0]) + [] == PrintQuestion(qs[0]);
        assert ReadAll(qs) == [ReadBack(qs[0])];
      } else {
        var next := out + [ReadBack(qs[0])];
        FirstOfForm(out, qs);
        StandingFormReads(next, qs[1..]);
        Concat(out, ReadBack(qs[0]), ReadAll(qs[1..]));
      }
    }
  }

  // ----- or it does not -----------------------------------------------------------------------

  lemma {:induction false} OpensOrAdds(out: seq<Field>, f: Field, fence: Option<Fence>, line: string)
    ensures
      var t := Step(Form(out + [f], fence), line).out;
      t == out + [f.(lines := f.lines + [line])] || (|t| == |out| + 2 && t[|out|] == f && HeadingOf(line).Some?)
  {
  }

  lemma LinesUpTo(a: seq<string>, lines: seq<string>, j: nat)
    requires j < |lines|
    ensures a + [lines[0]] + lines[1..][..j] == a + lines[..j + 1]
  {
  }

  /** A field that another one follows ends at the heading that opened that one. */
  lemma {:induction false} FieldEnds(out: seq<Field>, f: Field, fence: Option<Fence>, lines: seq<string>)
    returns (i: nat)
    requires |Run(Form(out + [f], fence), lines).out| > |out| + 1
    ensures i < |lines| && HeadingOf(lines[i]).Some?
    ensures |Run(Form(out + [f], fence), lines).out| > |out|
    ensures Run(Form(out + [f], fence), lines).out[|out|].lines == f.lines + lines[..i]
    decreases |lines|
  {
    var t, g := Step(Form(out + [f], fence), lines[0]), f.(lines := f.lines + [lines[0]]);
    OpensOrAdds(out, f, fence, lines[0]);
    if t.out == out + [g] {
      var j := FieldEnds(out, g, t.fence, lines[1..]);
      i := j + 1;
      LinesUpTo(f.lines, lines, j);
    } else {
      i := 0;
      RunContinues(t, lines[1..]);
      assert f.lines + lines[..0] == f.lines;
    }
  }

  /** An answer with a new heading in it is cut there. */
  lemma {:induction false} CutAnswer(out: seq<Field>, q: Question, rest: seq<string>)
    requires Strip(q.head) == q.head && !HasHead(out, q.head) && !OpensNothing(HeadSet(out) + {q.head}, q.answer)
    ensures
      var all := Run(Form(out, None), PrintQuestion(q) + rest).out;
      |all| > |out| && HashesIn(all[|out|].lines) < HashesIn(q.answer)
  {
    var f := Field(q.head, "### " + q.head, [""]);
    OpenedHeads(out, q);
    OpensNothingIff(Opened(out, q).out, q.answer);
    var t := Run(Opened(out, q), q.answer);
    RunContinues(Opened(out, q), q.answer);
    var i := FieldEnds(out, f, None, q.answer);
    CutHashes(q.answer, i);
    UpToTheAnswer(out, q);
    RunContinues(t, [""]);
    RunOne(t, "");
    RunAppend(Form(out, None), PrintQuestion(q), rest);
    RunContinues(Step(t, ""), rest);
  }

  lemma {:induction false} CutHashes(answer: seq<string>, i: nat)
    requires i < |answer| && HeadingOf(answer[i]).Some?
    ensures HashesIn([""] + answer[..i]) < HashesIn(answer)
  {
    HashesInAppend([""], answer[..i]);
    assert [""][1..] == [];
    HashesInAppend(answer[..i], answer[i..]);
    assert answer[..i] + answer[i..] == answer;
    HeadingHasHash(answer[i]);
  }

  lemma {:induction false} FenceStaysOpen(out: seq<Field>, q: Question)
    requires Strip(q.head) == q.head && !HasHead(out, q.head)
    requires OpensNothing(HeadSet(out) + {q.head}, q.answer) && !StandsAlone(HeadSet(out) + {q.head}, q.answer)
    ensures Run(Form(out, None), PrintQuestion(q)).fence.Some?
  {
    OpenedHeads(out, q);
    OpensNothingIff(Opened(out, q).out, q.answer);
    StandsAloneIff(Opened(out, q).out, q.answer);
    UpToTheAnswer(out, q);
    BlankOpensNothing(Run(Opened(out, q), q.answer));
  }

  lemma {:induction false} GreedyHashes(answer: seq<string>, line: string, lines: seq<string>)
    requires [""] + answer + [""] + [line] <= lines && line != "" && line[0] == '#'
    ensures HashesIn(lines) > HashesIn(answer)
  {
    var taken := [""] + answer + [""] + [line];
    assert lines == taken + lines[|taken|..];
    HashesInAppend(taken, lines[|taken|..]);
    HashesInAppend([""] + answer + [""], [line]);
    HashesInAppend([""] + answer, [""]);
    HashesInAppend([""], answer);
    assert [line][1..] == [];
  }

  /** Inside a fence a line joins the last field, and stays there. */
  lemma {:induction false} FenceTakesLine(s: Form, out: seq<Field>, f: Field, line: string, rest: seq<string>)
    requires s.out == out + [f] && s.fence.Some?
    ensures
      var all := Run(s, [line] + rest).out;
      |all| > |out| && f.lines + [line] <= all[|out|].lines
  {
    var t := Step(s, line);
    assert t.out == out + [f.(lines := f.lines + [line])];
    assert ([line] + rest)[1..] == rest;
    RunContinues(t, rest);
  }

  /** An answer that leaves a fence open takes the next question's heading. */
  lemma {:induction false} GreedyAnswer(out: seq<Field>, q: Question, next: Question, rest: seq<string>)
    requires Strip(q.head) == q.head && !HasHead(out, q.head)
    requires OpensNothing(HeadSet(out) + {q.head}, q.answer) && !StandsAlone(HeadSet(out) + {q.head}, q.answer)
    ensures
      var all := Run(Form(out, None), PrintQuestion(q) + (["### " + next.head] + rest)).out;
      |all| > |out| && HashesIn(all[|out|].lines) > HashesIn(q.answer)
  {
    var line, s := "### " + next.head, Run(Form(out, None), PrintQuestion(q));
    LastReads(out, q);
    FenceStaysOpen(out, q);
    RunAppend(Form(out, None), PrintQuestion(q), [line] + rest);
    FenceTakesLine(s, out, ReadBack(q), line, rest);
    GreedyHashes(q.answer, line, Run(s, [line] + rest).out[|out|].lines);
  }

  lemma {:induction false} FirstAnswerIsLost(out: seq<Field>, qs: seq<Question>)
    requires qs != [] && HeadsFit(HeadSet(out), qs)
    requires !StandsAlone(HeadSet(out) + {qs[0].head}, qs[0].answer)
    requires |qs| > 1 || !OpensNothing(HeadSet(out) + {qs[0].head}, qs[0].answer)
    ensures
      var all := Run(Form(out, None), PrintForm(qs)).out;
      |all| > |out| && HashesIn(all[|out|].lines) != HashesIn(qs[0].answer)
  {
    HeadsAre(out, qs[0].head);
    if OpensNothing(HeadSet(out) + {qs[0].head}, qs[0].answer) {
      var rest := [""] + qs[1].answer + [""] + PrintForm(qs[2..]);
      assert qs[1..][0] == qs[1] && qs[1..][1..] == qs[2..];
      assert PrintForm(qs[1..]) == ["### " + qs[1].head] + rest;
      GreedyAnswer(out, qs[0], qs[1], rest);
    } else {
      CutAnswer(out, qs[0], PrintForm(qs[1..]));
    }
  }

  lemma {:induction false} FilledAt(qs: seq<Question>)
    ensures |Filled(qs)| == |qs|
    ensures qs != [] ==> Filled(qs)[0].1 == Answer(JoinLF(qs[0].answer)) && Filled(qs)[1..] == Filled(qs[1..])
  {
    if qs != [] {
      FilledAt(qs[1..]);
    }
  }

  lemma {:induction false} BrokenFormIsLost(out: seq<Field>, qs: seq<Question>)
    requires HeadsFit(HeadSet(out), qs) && !FormStands(HeadSet(out), qs)
    ensures
      var all := Answers(Run(Form(out, None), PrintForm(qs)).out);
      |all| >= |out| && all[|out|..] != Filled(qs)
    decreases |qs|
  {
    var all := Run(Form(out, None), PrintForm(qs)).out;
    FilledAt(qs);
    HeadsAre(out, qs[0].head);
    if StandsAlone(HeadSet(out) + {qs[0].head}, qs[0].answer) {
      var next := out + [ReadBack(qs[0])];
      FirstOfForm(out, qs);
      BrokenFormIsLost(next, qs[1..]);
      assert Answers(all)[|out|..][1..] == Answers(all)[|next|..];
    } else {
      FirstAnswerIsLost(out, qs);
      OtherHashesOtherAnswer(all[|out|].lines, qs[0].answer);
      assert Answers(all)[|out|..][0] == Answers(all)[|out|];
    }
  }

  // ----- exactly when ---------------------------------------------------------------------------

  /** Exactly which forms come back as they were filled in, told from their text, whatever line
      ends GitHub sends: those whose answers stand alone, the last perhaps with a fence left
      open. Answers come back stripped, and the no-response placeholder as the empty one. */
  lemma {:induction false} FormRoundTripIff(qs: seq<Question>)
    requires qs != [] && HeadsFit({}, qs)
    requires forall k :: 0 <= k < |PrintForm(qs)| ==> LF !in PrintForm(qs)[k] && CR !in PrintForm(qs)[k]
    ensures Answers(Run(EMPTY, Lines(JoinCRLF(PrintForm(qs)))).out) == Filled(qs) <==> FormStands({}, qs)
  {
    assert PrintForm(qs) != [];
    UnixJoins(PrintForm(qs));
    SplitJoin(PrintForm(qs));
    assert HeadSet([]) == {};
    if FormStands({}, qs) {
      StandingFormReads([], qs);
      assert [] + ReadAll(qs) == ReadAll(qs);
      ReadAnswers(qs);
    } else {
      BrokenFormIsLost([], qs);
    }
  }
}

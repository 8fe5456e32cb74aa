/** Scanning delimited blocks, for any notion of line, opener and closer: what
    `re.findall` over `^opener$(.*?)^closer` finds. A block runs from an opener to the
    first closer below it, scanning resumes below that closer, an opener inside a block
    is text, and an opener with no closer below it matches nothing. */
module Blocks {
  import opened Options

  /** One block: the line that opened it and the lines below that one. */
  datatype Block<+T> = Block(opener: T, body: seq<T>)

  /** `found` are the complete blocks so far; `open` is the block being read, if any. */
  datatype State<+T> = State(found: seq<Block<T>>, open: Option<Block<T>>)

  function Step<T>(s: State<T>, line: T, opens: T -> bool, closes: T -> bool): State<T> {
    match s.open
    case None => if opens(line) then s.(open := Some(Block(line, []))) else s
    case Some(b) =>
      if closes(line) then State(s.found + [b], None) else s.(open := Some(b.(body := b.body + [line])))
  }

  function Run<T>(s: State<T>, lines: seq<T>, opens: T -> bool, closes: T -> bool): State<T>
    decreases |lines|
  {
    if lines == [] then s else Run(Step(s, lines[0], opens, closes), lines[1..], opens, closes)
  }

  function Scan<T>(lines: seq<T>, opens: T -> bool, closes: T -> bool): State<T> {
    Run(State([], None), lines, opens, closes)
  }

  /** No line satisfies `p`. */
  predicate Nowhere<T>(lines: seq<T>, p: T -> bool) {
    forall k :: 0 <= k < |lines| ==> !p(lines[k])
  }

  lemma {:induction false} RunAppend<T>(s: State<T>, a: seq<T>, b: seq<T>, opens: T -> bool, closes: T -> bool)
    ensures Run(s, a + b, opens, closes) == Run(Run(s, a, opens, closes), b, opens, closes)
    decreases |a|
  {
    if a == [] {
      assert a + b == b;
    } else {
      assert (a + b)[1..] == a[1..] + b;
      RunAppend(Step(s, a[0], opens, closes), a[1..], b, opens, closes);
    }
  }

  /** Lines that open nothing leave a closed scan as it is. */
  lemma {:induction false} RunOutside<T>(s: State<T>, lines: seq<T>, opens: T -> bool, closes: T -> bool)
    requires s.open.None? && Nowhere(lines, opens)
    ensures Run(s, lines, opens, closes) == s
  {
    if lines != [] {
      RunOutside(s, lines[1..], opens, closes);
    }
  }

  /** Lines that close nothing are taken whole by an open block. */
  lemma {:induction false} RunInside<T>(s: State<T>, lines: seq<T>, opens: T -> bool, closes: T -> bool)
    requires s.open.Some? && Nowhere(lines, closes)
    ensures Run(s, lines, opens, closes)
         == s.(open := Some(s.open.value.(body := s.open.value.body + lines)))
    decreases |lines|
  {
    if lines == [] {
      assert s.open.value.body + [] == s.open.value.body;
    } else {
      RunInside(Step(s, lines[0], opens, closes), lines[1..], opens, closes);
      assert s.open.value.body + [lines[0]] + lines[1..] == s.open.value.body + lines;
    }
  }

  /** This line opens a block that no line below it closes. */
  predicate OpenAt<T>(lines: seq<T>, i: int, opens: T -> bool, closes: T -> bool) {
    0 <= i < |lines| && opens(lines[i]) && forall j :: i < j < |lines| ==> !closes(lines[j])
  }

  predicate LeftOpen<T>(lines: seq<T>, opens: T -> bool, closes: T -> bool) {
    exists i | 0 <= i < |lines| :: OpenAt(lines, i, opens, closes)
  }

  lemma {:induction false} OpenAtSnoc<T>(lines: seq<T>, line: T, i: int, opens: T -> bool, closes: T -> bool)
    ensures OpenAt(lines + [line], i, opens, closes)
       <==> (i == |lines| && opens(line)) || (OpenAt(lines, i, opens, closes) && !closes(line))
  {
    var all := lines + [line];
    assert all[|lines|] == line;
    assert forall j :: 0 <= j < |lines| ==> all[j] == lines[j];
  }

  lemma {:induction false} LeftOpenSnoc<T>(lines: seq<T>, line: T, opens: T -> bool, closes: T -> bool)
    ensures LeftOpen(lines + [line], opens, closes)
       <==> opens(line) || (LeftOpen(lines, opens, closes) && !closes(line))
  {
    forall i ensures OpenAt(lines + [line], i, opens, closes)
                <==> (i == |lines| && opens(line)) || (OpenAt(lines, i, opens, closes) && !closes(line)) {
      OpenAtSnoc(lines, line, i, opens, closes);
    }
    assert opens(line) ==> OpenAt(lines + [line], |lines|, opens, closes);
  }

  /** A scan ends inside a block exactly when an opener has no closer below it. */
  lemma {:induction false} OpenIff<T>(lines: seq<T>, opens: T -> bool, closes: T -> bool)
    requires forall k :: 0 <= k < |lines| ==> !(opens(lines[k]) && closes(lines[k]))
    ensures Scan(lines, opens, closes).open.Some? <==> LeftOpen(lines, opens, closes)
    decreases |lines|
  {
    if lines != [] {
      var rest, line := lines[..|lines| - 1], lines[|lines| - 1];
      OpenIff(rest, opens, closes);
      assert rest + [line] == lines;
      RunAppend(State([], None), rest, [line], opens, closes);
      LeftOpenSnoc(rest, line, opens, closes);
    }
  }

  // ----- one printed block ------------------------------------------------------

  function Framed<T>(opener: T, body: seq<T>, closer: T): seq<T> {
    [opener] + body + [closer]
  }

  lemma {:induction false} RunFramed<T>(s: State<T>, opener: T, body: seq<T>, closer: T, opens: T -> bool,
                                        closes: T -> bool)
    ensures Run(s, Framed(opener, body, closer), opens, closes)
         == Step(Run(Step(s, opener, opens, closes), body, opens, closes), closer, opens, closes)
  {
    RunAppend(s, [opener] + body, [closer], opens, closes);
    RunAppend(s, [opener], body, opens, closes);
    assert Framed(opener, body, closer) == [opener] + body + [closer];
  }

  /** Below a closed scan a printed block is read back whole. */
  lemma {:induction false} OwnBlock<T>(s: State<T>, opener: T, body: seq<T>, closer: T, opens: T -> bool,
                                       closes: T -> bool)
    requires s.open.None? && opens(opener) && closes(closer) && Nowhere(body, closes)
    ensures Run(s, Framed(opener, body, closer), opens, closes)
         == State(s.found + [Block(opener, body)], None)
  {
    RunFramed(s, opener, body, closer, opens, closes);
    RunInside(Step(s, opener, opens, closes), body, opens, closes);
    assert [] + body == body;
  }

  /** A block left open above swallows the printed one, opener and all. */
  lemma {:induction false} Swallowed<T>(s: State<T>, opener: T, body: seq<T>, closer: T, opens: T -> bool,
                                        closes: T -> bool)
    requires s.open.Some? && closes(closer) && !closes(opener) && Nowhere(body, closes)
    ensures Run(s, Framed(opener, body, closer), opens, closes)
         == State(s.found + [Block(s.open.value.opener, s.open.value.body + [opener] + body)], None)
  {
    RunFramed(s, opener, body, closer, opens, closes);
    RunInside(Step(s, opener, opens, closes), body, opens, closes);
  }

  /** Whatever was open above it and whatever it quotes, nothing is open below a
      printed block of another kind. */
  lemma {:induction false} ClosedBelow<T>(s: State<T>, opener: T, body: seq<T>, closer: T, opens: T -> bool,
                                          closes: T -> bool)
    requires closes(closer) && !opens(closer)
    ensures Run(s, Framed(opener, body, closer), opens, closes).open.None?
  {
    RunFramed(s, opener, body, closer, opens, closes);
  }

  /** A printed block of another kind that quotes no opener goes unnoticed. */
  lemma {:induction false} OtherBlock<T>(s: State<T>, opener: T, body: seq<T>, closer: T, opens: T -> bool,
                                         closes: T -> bool)
    requires s.open.None? && !opens(opener) && !opens(closer) && Nowhere(body, opens)
    ensures Run(s, Framed(opener, body, closer), opens, closes) == s
  {
    RunFramed(s, opener, body, closer, opens, closes);
    RunOutside(s, body, opens, closes);
  }
}

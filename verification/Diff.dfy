/** Which new-file lines of a unified diff a review comment can attach to: the row
    scanner `commentable`, and the diff format (POSIX `diff -u` output) it reads. */
module Diff {
  import opened Text
  import opened Options

  // ----- the scanner ---------------------------------------------------------------

  /** The text behind `\d+(?:,\d+)?`, when `s` starts with that. */
  function AfterRange(s: string): Option<string> {
    var n := DigitRun(s);
    if n == 0 then None
    else
      var rest := s[n..];
      if rest != "" && rest[0] == ',' && DigitRun(rest[1..]) > 0
      then Some(rest[1..][DigitRun(rest[1..])..]) else Some(rest)
  }

  /** The start a hunk header gives the new file:
      `^@@ -\d+(?:,\d+)? \+(\d+)(?:,(\d+))? @@`. */
  function HeaderStart(row: string): Option<nat> {
    if !("@@ -" <= row) then None
    else match AfterRange(row[4..])
    case None => None
    case Some(r) =>
      if !(" +" <= r) then None
      else match AfterRange(r[2..])
      case None => None
      case Some(e) => if " @@" <= e then Some(ParseDec(r[2..][..DigitRun(r[2..])])) else None
  }

  // ----- what a header is ------------------------------------------------------------

  /** Digits, and perhaps a comma and digits. */
  predicate IsRange(d: string, tail: string) {
    AllDigits(d) && (tail == "" || (tail[0] == ',' && AllDigits(tail[1..])))
  }

  /** A row is a header exactly when it is an `@@ -`, a range, ` +`, a range, ` @@` and
      anything behind; what it gives is the number the second range begins with. */
  predicate IsHeader(row: string, a: string, at: string, b: string, bt: string, section: string) {
    IsRange(a, at) && IsRange(b, bt) && row == "@@ -" + (a + at + (" +" + (b + bt + (" @@" + section))))
  }

  lemma {:induction false} RangeIsPassed(d: string, tail: string, rest: string)
    requires IsRange(d, tail) && rest != "" && rest[0] == ' '
    ensures AfterRange(d + tail + rest) == Some(rest) && DigitRun(d + tail + rest) == |d|
    ensures (d + tail + rest)[..|d|] == d
  {
    assert d + tail + rest == d + (tail + rest);
    DigitRunOf(d, tail + rest);
    if tail == "" {
      assert tail + rest == rest;
    } else {
      assert (tail + rest)[1..] == tail[1..] + rest && (tail + rest)[0] == ',';
      DigitRunOf(tail[1..], rest);
    }
  }

  lemma {:induction false} PassedIsRange(s: string) returns (d: string, tail: string)
    requires AfterRange(s).Some?
    ensures IsRange(d, tail) && s == d + tail + AfterRange(s).value && d == s[..DigitRun(s)]
  {
    d := s[..DigitRun(s)];
    var rest := s[DigitRun(s)..];
    Halves(s, DigitRun(s));
    if rest != "" && rest[0] == ',' && DigitRun(rest[1..]) > 0 {
      tail := CountTaken(rest);
      Regrouped(d, tail, AfterRange(s).value);
    } else {
      tail := "";
      assert d + tail == d;
    }
  }

  lemma {:induction false} CountTaken(rest: string) returns (tail: string)
    requires rest != "" && rest[0] == ',' && DigitRun(rest[1..]) > 0
    ensures tail != "" && tail[0] == ',' && AllDigits(tail[1..])
    ensures rest == tail + rest[1..][DigitRun(rest[1..])..]
  {
    var n := DigitRun(rest[1..]);
    tail := rest[..n + 1];
    Halves(rest, n + 1);
    assert tail[1..] == rest[1..][..n] && rest[n + 1..] == rest[1..][n..];
  }

  lemma Halves(s: string, n: nat)
    requires n <= |s|
    ensures s == s[..n] + s[n..]
  {
  }

  lemma Regrouped(a: string, b: string, c: string)
    ensures a + (b + c) == a + b + c
  {
  }

  lemma {:induction false} HeadersAreRead(row: string, a: string, at: string, b: string, bt: string, section: string)
    requires IsHeader(row, a, at, b, bt, section)
    ensures HeaderStart(row) == Some(ParseDec(b))
  {
    var e := " @@" + section;
    var r := " +" + (b + bt + e);
    assert e[0] == ' ' && r[0] == ' ';
    RangeIsPassed(b, bt, e);
    RangeIsPassed(a, at, r);
    assert row[4..] == a + at + r && r[2..] == b + bt + e;
    assert "@@ -" <= row && " +" <= r && " @@" <= e;
  }

  lemma {:induction false} ReadIsHeader(row: string)
      returns (a: string, at: string, b: string, bt: string, section: string)
    requires HeaderStart(row).Some?
    ensures IsHeader(row, a, at, b, bt, section)
  {
    a, at := PassedIsRange(row[4..]);
    var r := AfterRange(row[4..]).value;
    b, bt := PassedIsRange(r[2..]);
    var e := AfterRange(r[2..]).value;
    section := e[3..];
    Behind(" @@", e);
    Behind(" +", r);
    Behind("@@ -", row);
  }

  lemma Behind(start: string, s: string)
    requires start <= s
    ensures s == start + s[|start|..]
  {
  }

  // ----- the row loop ------------------------------------------------------------------

  /** What the scanner makes of one row: a hunk header and its start, a row the new
      file has, or anything else. */
  datatype Kind = Header(start: nat) | InNew | NotInNew

  function Classify(row: string): Kind {
    match HeaderStart(row)
    case Some(n) => Header(n)
    case None => if row == "" || row[0] == '+' || row[0] == ' ' then InNew else NotInNew
  }

  function Kinds(rows: seq<string>): (r: seq<Kind>)
    ensures |r| == |rows|
  {
    if rows == [] then [] else [Classify(rows[0])] + Kinds(rows[1..])
  }

  lemma {:induction false} KindsAt(rows: seq<string>, k: nat)
    requires k < |rows|
    ensures Kinds(rows)[k] == Classify(rows[k])
  {
    if k > 0 {
      KindsAt(rows[1..], k - 1);
    }
  }

  /** The next line number after a row; 0 means no hunk is being read. */
  function Next(k: Kind, at: nat): nat {
    match k
    case Header(n) => n
    case InNew => if at == 0 then 0 else at + 1
    case NotInNew => at
  }

  /** The line numbers collected from here on, `at` being the next one. */
  function Collected(kinds: seq<Kind>, at: nat): set<nat>
    decreases |kinds|
  {
    if kinds == [] then {}
    else (if kinds[0] == InNew && at != 0 then {at} else {}) + Collected(kinds[1..], Next(kinds[0], at))
  }

  lemma CollectedOne(kinds: seq<Kind>, i: nat, at: nat)
    requires i < |kinds|
    ensures Collected(kinds[i..], at)
         == (if kinds[i] == InNew && at != 0 then {at} else {}) + Collected(kinds[i + 1..], Next(kinds[i], at))
  {
    assert kinds[i..][0] == kinds[i] && kinds[i..][1..] == kinds[i + 1..];
  }

  /** One row: whether it is a line to collect, and the next line number. */
  method ReadRow(row: string, at: nat) returns (collects: bool, next: nat)
    ensures collects == (Classify(row) == InNew && at != 0) && next == Next(Classify(row), at)
  {
    var m := HeaderStart(row);
    if m.Some? {
      return false, m.value;
    }
    if at == 0 {
      return false, 0;
    }
    if row == "" || row[0] == '+' || row[0] == ' ' {
      return true, at + 1;
    }
    return false, at;
  }

  lemma UnionAssoc(a: set<nat>, b: set<nat>, c: set<nat>)
    ensures a + (b + c) == (a + b) + c
  {
  }

  /** `commentable`. */
  method Commentable(patch: string) returns (lines: set<nat>)
    ensures lines == Collected(Kinds(SplitLines(patch)), 0)
  {
    var rows := SplitLines(patch);
    ghost var kinds := Kinds(rows);
    var at := 0;
    lines := {};
    assert kinds[0..] == kinds;
    for i := 0 to |rows|
      invariant lines + Collected(kinds[i..], at) == Collected(kinds, 0)
    {
      CollectedOne(kinds, i, at);
      KindsAt(rows, i);
      var collects, next := ReadRow(rows[i], at);
      UnionAssoc(lines, if collects then {at} else {}, Collected(kinds[i + 1..], next));
      if collects {
        lines := lines + {at};
      }
      at := next;
    }
  }

  // ----- the format -------------------------------------------------------------------

  /** `Blank` is a context row whose only space was dropped. */
  datatype Row = Added(text: string) | Context(text: string) | Blank | Deleted(text: string) | NoNewline(text: string)

  datatype Range = Range(start: nat, count: Option<nat>)

  datatype Hunk = Hunk(removed: Range, added: Range, section: string, rows: seq<Row>)

  predicate IsNew(r: Row) {
    r.Added? || r.Context? || r.Blank?
  }

  function NewRows(rows: seq<Row>): nat {
    if rows == [] then 0 else (if IsNew(rows[0]) then 1 else 0) + NewRows(rows[1..])
  }

  /** A count left out of a header is 1. */
  function Count(r: Range): nat {
    if r.count.Some? then r.count.value else 1
  }

  /** The header counts the new-file rows, and a hunk that starts at line 0 has none. */
  predicate WellFormed(h: Hunk) {
    NewRows(h.rows) == Count(h.added) && (h.added.start == 0 ==> Count(h.added) == 0)
  }

  function PrintRow(r: Row): string {
    match r
    case Added(t) => "+" + t
    case Context(t) => " " + t
    case Blank => ""
    case Deleted(t) => "-" + t
    case NoNewline(t) => "\\" + t
  }

  function PrintRows(rows: seq<Row>): seq<string> {
    if rows == [] then [] else [PrintRow(rows[0])] + PrintRows(rows[1..])
  }

  function PrintRange(r: Range): string {
    Dec(r.start) + (if r.count.Some? then "," + Dec(r.count.value) else "")
  }

  function PrintHeader(h: Hunk): string {
    "@@ -" + (PrintRange(h.removed) + (" +" + (PrintRange(h.added) + (" @@" + h.section))))
  }

  function PrintHunks(hs: seq<Hunk>): seq<string> {
    if hs == [] then [] else [PrintHeader(hs[0])] + PrintRows(hs[0].rows) + PrintHunks(hs[1..])
  }

  /** What the diff itself says: the new-file line number of every added and context
      row, counted from the header's start. */
  ghost function NewLines(h: Hunk): set<nat> {
    set i | 0 <= i < |h.rows| && IsNew(h.rows[i]) :: h.added.start + NewRows(h.rows[..i])
  }

  /** The `n` numbers from `a` on. */
  function Span(a: nat, n: nat): (r: set<nat>)
    ensures forall k :: k in r <==> a <= k < a + n
    decreases n
  {
    if n == 0 then {} else {a} + Span(a + 1, n - 1)
  }

  function Interval(h: Hunk): set<nat> {
    Span(h.added.start, Count(h.added))
  }

  function AllIntervals(hs: seq<Hunk>): set<nat> {
    if hs == [] then {} else Interval(hs[0]) + AllIntervals(hs[1..])
  }

  // ----- headers are recognised, rows are not headers --------------------------------------

  lemma {:induction false} RangeIsRead(r: Range, rest: string)
    requires rest != "" && !IsDigit(rest[0]) && rest[0] != ','
    ensures AfterRange(PrintRange(r) + rest) == Some(rest)
    ensures (PrintRange(r) + rest)[..DigitRun(PrintRange(r) + rest)] == Dec(r.start)
  {
    if r.count.None? {
      assert PrintRange(r) + rest == Dec(r.start) + rest;
      DigitRunOf(Dec(r.start), rest);
    } else {
      var c := Dec(r.count.value);
      assert PrintRange(r) + rest == Dec(r.start) + ("," + (c + rest));
      DigitRunOf(Dec(r.start), "," + (c + rest));
      assert ("," + (c + rest))[1..] == c + rest;
      DigitRunOf(c, rest);
    }
  }

  lemma {:induction false} HeaderIsRead(h: Hunk)
    ensures HeaderStart(PrintHeader(h)) == Some(h.added.start)
  {
    var e := " @@" + h.section;
    var r := " +" + (PrintRange(h.added) + e);
    var row := PrintHeader(h);
    assert row[4..] == PrintRange(h.removed) + r;
    RangeIsRead(h.removed, r);
    assert r[2..] == PrintRange(h.added) + e;
    RangeIsRead(h.added, e);
    DecRoundTrip(h.added.start);
  }

  lemma {:induction false} KindsAppend(a: seq<string>, b: seq<string>)
    ensures Kinds(a + b) == Kinds(a) + Kinds(b)
  {
    if a == [] {
      assert a + b == b;
    } else {
      assert (a + b)[0] == a[0] && (a + b)[1..] == a[1..] + b;
      KindsAppend(a[1..], b);
    }
  }

  // ----- what the diff itself says ----------------------------------------------------------

  lemma {:induction false} NewRowsAppend(rows: seq<Row>, i: nat)
    requires i < |rows|
    ensures NewRows(rows[..i + 1]) == NewRows(rows[..i]) + (if IsNew(rows[i]) then 1 else 0)
  {
    if i > 0 {
      assert rows[..i + 1][1..] == rows[1..][..i] && rows[..i][1..] == rows[1..][..i - 1];
      NewRowsAppend(rows[1..], i - 1);
    } else {
      assert rows[..1][1..] == [];
    }
  }

  /** Every number below the count is reached by some row. */
  lemma {:induction false} SomeRowHas(rows: seq<Row>, n: nat) returns (i: nat)
    requires n < NewRows(rows)
    ensures i < |rows| && IsNew(rows[i]) && NewRows(rows[..i]) == n
  {
    i := |rows| - 1;
    assert rows[..|rows|] == rows;
    NewRowsAppend(rows, i);
    if !(IsNew(rows[i]) && NewRows(rows[..i]) == n) {
      i := SomeRowHas(rows[..|rows| - 1], n);
      assert rows[..|rows| - 1][..i] == rows[..i];
    }
  }

  lemma {:induction false} NewRowsMonotone(rows: seq<Row>, i: nat)
    requires i <= |rows|
    ensures NewRows(rows[..i]) <= NewRows(rows)
  {
    if i == |rows| {
      assert rows[..i] == rows;
    } else {
      assert rows[..|rows| - 1][..i] == rows[..i];
      NewRowsAppend(rows, |rows| - 1);
      assert rows[..|rows|] == rows;
      NewRowsMonotone(rows[..|rows| - 1], i);
    }
  }

  /** A hunk's interval is the set of new-file numbers of its added and context rows. */
  lemma {:induction false} IntervalIsNewLines(h: Hunk)
    requires WellFormed(h)
    ensures Interval(h) == NewLines(h)
  {
    forall n | n in Interval(h) ensures n in NewLines(h) {
      var i := SomeRowHas(h.rows, n - h.added.start);
    }
    forall n | n in NewLines(h) ensures n in Interval(h) {
      var i :| 0 <= i < |h.rows| && IsNew(h.rows[i]) && n == h.added.start + NewRows(h.rows[..i]);
      NewRowsAppend(h.rows, i);
      NewRowsMonotone(h.rows, i + 1);
    }
  }

  ghost function AllNewLines(hs: seq<Hunk>): set<nat> {
    if hs == [] then {} else NewLines(hs[0]) + AllNewLines(hs[1..])
  }

  lemma {:induction false} IntervalsAreNewLines(hs: seq<Hunk>)
    requires forall h <- hs :: WellFormed(h)
    ensures AllIntervals(hs) == AllNewLines(hs)
  {
    if hs != [] {
      assert WellFormed(hs[0]);
      IntervalIsNewLines(hs[0]);
      IntervalsAreNewLines(hs[1..]);
    }
  }

  // ----- from rows to pieces ------------------------------------------------------------

  /** The split of `r` and what follows it is the split of each. */
  predicate SplitsAt(r: string, b: string) {
    SplitLines(r + b) == SplitLines(r) + SplitLines(b)
  }

  /** A character that is no boundary joins the first piece. */
  lemma PlainSplits(c: char, s: string)
    requires !IsBreak(c) && s != ""
    ensures SplitLines(s) != [] && SplitLines([c] + s) == [[c] + SplitLines(s)[0]] + SplitLines(s)[1..]
  {
    assert ([c] + s)[1..] == s;
  }

  lemma PlainBefore(c: char, r: string, b: string)
    requires !IsBreak(c) && r != "" && SplitsAt(r, b)
    ensures SplitsAt([c] + r, b)
  {
    var x, y := SplitLines(r), SplitLines(b);
    PlainSplits(c, r);
    PlainSplits(c, r + b);
    Regroup([c], r, b);
    assert (x + y)[0] == x[0] && (x + y)[1..] == x[1..] + y;
    Regroup([[c] + x[0]], x[1..], y);
  }

  lemma BreakBefore(c: char, r: string, b: string)
    requires IsBreak(c) && r != "" && !(c == '\r' && r[0] == LF) && SplitsAt(r, b)
    ensures SplitsAt([c] + r, b)
  {
    assert ([c] + r)[1..] == r && ([c] + r + b)[1..] == r + b;
  }

  /** A carriage return and its line feed are one boundary. */
  lemma ReturnSplits(s: string)
    ensures SplitLines(['\r', LF] + s) == [""] + SplitLines(s)
  {
    assert (['\r', LF] + s)[2..] == s;
  }

  lemma ReturnBefore(r: string, b: string)
    requires SplitsAt(r, b)
    ensures SplitsAt(['\r', LF] + r, b)
  {
    ReturnSplits(r);
    ReturnSplits(r + b);
    Regroup(['\r', LF], r, b);
    Regroup([""], SplitLines(r), SplitLines(b));
  }

  lemma Regroup<T>(a: seq<T>, b: seq<T>, c: seq<T>)
    ensures a + b + c == a + (b + c)
  {
  }

  lemma FeedAlone(b: string)
    ensures SplitsAt("", b) && SplitsAt([LF], b)
  {
    assert "" + b == b && ([LF] + b)[1..] == b && [LF][1..] == "";
  }

  /** Text up to its first line feed splits as if it were alone. */
  lemma {:induction false} SplitAfterLF(a: string, b: string)
    ensures SplitsAt(a + [LF], b)
    decreases |a|
  {
    FeedAlone(b);
    if a == "" {
      assert a + [LF] == [LF];
    } else if a == ['\r'] {
      ReturnBefore("", b);
      assert a + [LF] == ['\r', LF] + "";
    } else if a[0] == '\r' && a[1] == LF {
      SplitAfterLF(a[2..], b);
      ReturnBefore(a[2..] + [LF], b);
      assert a + [LF] == ['\r', LF] + (a[2..] + [LF]);
    } else {
      var r := a[1..] + [LF];
      SplitAfterLF(a[1..], b);
      assert a + [LF] == [a[0]] + r;
      assert |a| > 1 ==> r[0] == a[1];
      if IsBreak(a[0]) { BreakBefore(a[0], r, b); } else { PlainBefore(a[0], r, b); }
    }
  }

  /** Text without a boundary stays with the first piece of what follows. */
  lemma {:induction false} SplitPlain(x: string, y: string)
    requires NoBreaks(x) && x != "" && y != ""
    ensures SplitLines(x + y) == [x + SplitLines(y)[0]] + SplitLines(y)[1..]
    decreases |x|
  {
    var s := x + y;
    assert s[0] == x[0] && s[1..] == x[1..] + y;
    if |x| == 1 {
      assert x[1..] + y == y && [x[0]] == x;
    } else {
      SplitPlain(x[1..], y);
      assert [x[0]] + (x[1..] + SplitLines(y)[0]) == x + SplitLines(y)[0];
    }
  }

  lemma {:induction false} SplitAlone(x: string)
    requires NoBreaks(x) && x != ""
    ensures SplitLines(x) == [x]
  {
    if |x| > 1 {
      SplitAlone(x[1..]);
      assert [x[0]] + x[1..] == x;
    }
  }

  /** What `splitlines` makes of a row with another below it, and of the last row. */
  function RowPieces(row: string, last: bool): seq<string> {
    SplitLines(if last then row else row + [LF])
  }

  function MidPieces(rows: seq<string>): seq<string> {
    if rows == [] then [] else RowPieces(rows[0], false) + MidPieces(rows[1..])
  }

  function TextPieces(rows: seq<string>): seq<string>
    requires rows != []
  {
    MidPieces(rows[..|rows| - 1]) + RowPieces(rows[|rows| - 1], true)
  }

  lemma TextCons(rows: seq<string>)
    requires |rows| > 1
    ensures TextPieces(rows) == RowPieces(rows[0], false) + TextPieces(rows[1..])
  {
    assert rows[..|rows| - 1][0] == rows[0];
    assert rows[..|rows| - 1][1..] == rows[1..][..|rows| - 2];
  }

  lemma TextOne(row: string)
    ensures TextPieces([row]) == RowPieces(row, true)
  {
    assert [row][..0] == [];
  }

  lemma {:induction false} SplitIsPieces(rows: seq<string>)
    requires rows != []
    ensures SplitLines(JoinLF(rows)) == TextPieces(rows)
  {
    if |rows| == 1 {
      assert rows == [rows[0]];
      TextOne(rows[0]);
    } else {
      SplitIsPieces(rows[1..]);
      SplitAfterLF(rows[0], JoinLF(rows[1..]));
      TextCons(rows);
    }
  }

  lemma {:induction false} MidAppend(a: seq<string>, b: seq<string>)
    ensures MidPieces(a + b) == MidPieces(a) + MidPieces(b)
  {
    if a == [] {
      assert a + b == b;
    } else {
      assert (a + b)[0] == a[0] && (a + b)[1..] == a[1..] + b;
      MidAppend(a[1..], b);
    }
  }

  lemma {:induction false} TextAppend(a: seq<string>, b: seq<string>)
    requires b != []
    ensures TextPieces(a + b) == MidPieces(a) + TextPieces(b)
  {
    assert (a + b)[..|a + b| - 1] == a + b[..|b| - 1];
    MidAppend(a, b[..|b| - 1]);
  }

  // ----- the pieces of a hunk --------------------------------------------------------------

  function HunkRows(h: Hunk): seq<string> {
    [PrintHeader(h)] + PrintRows(h.rows)
  }

  /** The pieces a hunk's rows are cut into; `last` says whether the patch ends with it. */
  function HunkPieces(h: Hunk, last: bool): seq<string> {
    if last then TextPieces(HunkRows(h)) else MidPieces(HunkRows(h))
  }

  function AllPieces(hs: seq<Hunk>): seq<string> {
    if hs == [] then [] else HunkPieces(hs[0], |hs| == 1) + AllPieces(hs[1..])
  }

  lemma {:induction false} PatchIsPieces(hs: seq<Hunk>)
    requires hs != []
    ensures PrintHunks(hs) != [] && SplitLines(JoinLF(PrintHunks(hs))) == AllPieces(hs)
  {
    SplitIsPieces(PrintHunks(hs));
    PiecesOfHunks(hs);
  }

  lemma {:induction false} PiecesOfHunks(hs: seq<Hunk>)
    requires hs != []
    ensures PrintHunks(hs) != [] && TextPieces(PrintHunks(hs)) == AllPieces(hs)
  {
    if |hs| == 1 {
      assert PrintHunks(hs[1..]) == [] && AllPieces(hs[1..]) == [];
      assert PrintHunks(hs) == HunkRows(hs[0]);
    } else {
      PiecesOfHunks(hs[1..]);
      TextAppend(HunkRows(hs[0]), PrintHunks(hs[1..]));
    }
  }

  lemma DigitsAreNoBreaks(s: string)
    requires AllDigits(s)
    ensures NoBreaks(s)
  {
  }

  /** The fixed part of a header. */
  function HeaderPrefix(h: Hunk): string {
    "@@ -" + (PrintRange(h.removed) + (" +" + (PrintRange(h.added) + " @@")))
  }

  lemma {:induction false} HeaderPrefixPlain(h: Hunk)
    ensures NoBreaks(HeaderPrefix(h)) && HeaderPrefix(h) != ""
    ensures PrintHeader(h) == HeaderPrefix(h) + h.section
  {
    RangePlain(h.removed);
    RangePlain(h.added);
    assert PrintHeader(h) == "@@ -" + (PrintRange(h.removed) + (" +" + (PrintRange(h.added) + " @@"))) + h.section;
  }

  lemma RangePlain(r: Range)
    ensures NoBreaks(PrintRange(r))
  {
    DigitsAreNoBreaks(Dec(r.start));
    if r.count.Some? {
      DigitsAreNoBreaks(Dec(r.count.value));
    }
  }

  /** However a header's section is cut, its first piece is read as the header. */
  lemma {:induction false} HeaderPieceIsRead(h: Hunk, last: bool)
    ensures RowPieces(PrintHeader(h), last) != []
    ensures HeaderStart(RowPieces(PrintHeader(h), last)[0]) == Some(h.added.start)
  {
    HeaderPrefixPlain(h);
    var y := if last then h.section else h.section + [LF];
    assert (if last then PrintHeader(h) else PrintHeader(h) + [LF]) == HeaderPrefix(h) + y;
    var first := if y == "" then "" else SplitLines(y)[0];
    if y == "" {
      assert HeaderPrefix(h) + y == HeaderPrefix(h) + "" == HeaderPrefix(h);
      SplitAlone(HeaderPrefix(h));
    } else {
      SplitPlain(HeaderPrefix(h), y);
    }
    HeaderPrefixPlain(h.(section := first));
    HeaderIsRead(h.(section := first));
  }

  /** A piece the scanner gives a number, while it is inside a hunk. */
  predicate Counted(piece: string) {
    piece == "" || piece[0] == '+' || piece[0] == ' '
  }

  function CountedIn(pieces: seq<string>): nat {
    if pieces == [] then 0 else (if Counted(pieces[0]) then 1 else 0) + CountedIn(pieces[1..])
  }

  lemma {:induction false} CountedAppend(a: seq<string>, b: seq<string>)
    ensures CountedIn(a + b) == CountedIn(a) + CountedIn(b)
  {
    if a == [] {
      assert a + b == b;
    } else {
      assert (a + b)[0] == a[0] && (a + b)[1..] == a[1..] + b;
      CountedAppend(a[1..], b);
    }
  }

  /** The first piece of a row starts as the row does: it is counted exactly when the row is
      one the new file has. Only an empty row at the very end has no piece at all. */
  lemma {:induction false} RowPieceIsRead(r: Row, last: bool)
    ensures RowPieces(PrintRow(r), last) == [] <==> r.Blank? && last
    ensures RowPieces(PrintRow(r), last) != [] ==>
              (Counted(RowPieces(PrintRow(r), last)[0]) <==> IsNew(r))
                && HeaderStart(RowPieces(PrintRow(r), last)[0]).None?
  {
    var row := PrintRow(r);
    var text := if last then row else row + [LF];
    if r.Blank? {
      assert !last ==> text == [LF] && text[1..] == "";
    } else {
      assert row == [row[0]] + row[1..];
      var y := if last then row[1..] else row[1..] + [LF];
      assert text == [row[0]] + y;
      if y == "" {
        assert text == [row[0]];
        SplitAlone([row[0]]);
      } else {
        SplitPlain([row[0]], y);
      }
    }
  }

  /** The pieces below the header's own. */
  function Body(h: Hunk, last: bool): seq<string>
    requires HunkPieces(h, last) != []
  {
    HunkPieces(h, last)[1..]
  }

  lemma {:induction false} HunkOpens(h: Hunk, last: bool)
    ensures HunkPieces(h, last) != [] && HeaderStart(HunkPieces(h, last)[0]) == Some(h.added.start)
  {
    var rows := HunkRows(h);
    assert rows[0] == PrintHeader(h) && rows[1..] == PrintRows(h.rows);
    if last && |rows| == 1 {
      HeaderPieceIsRead(h, true);
      assert rows[..0] == [];
    } else {
      HeaderPieceIsRead(h, false);
      if last {
        assert rows[..|rows| - 1][0] == rows[0];
      }
    }
  }

  // ----- runs of numbers ---------------------------------------------------------------------

  predicate Headless(ks: seq<Kind>) {
    forall k <- ks :: !k.Header?
  }

  function NewIn(ks: seq<Kind>): nat {
    if ks == [] then 0 else (if ks[0] == InNew then 1 else 0) + NewIn(ks[1..])
  }

  /** Headers, each with what stands below it. */
  function Flat(starts: seq<nat>, bodies: seq<seq<Kind>>): seq<Kind>
    requires |starts| == |bodies|
  {
    if starts == [] then [] else [Header(starts[0])] + (bodies[0] + Flat(starts[1..], bodies[1..]))
  }

  /** One run of numbers per header that is not zero, `ns[i]` long. */
  function Runs(starts: seq<nat>, ns: seq<nat>): set<nat>
    requires |starts| == |ns|
  {
    if starts == [] then {}
    else (if starts[0] == 0 then {} else Span(starts[0], ns[0])) + Runs(starts[1..], ns[1..])
  }

  function NewCounts(bodies: seq<seq<Kind>>): (ns: seq<nat>)
    ensures |ns| == |bodies| && forall i :: 0 <= i < |ns| ==> ns[i] == NewIn(bodies[i])
  {
    if bodies == [] then [] else [NewIn(bodies[0])] + NewCounts(bodies[1..])
  }

  lemma {:induction false} BodyCollects(ks: seq<Kind>, rest: seq<Kind>, at: nat)
    requires Headless(ks)
    ensures Collected(ks + rest, at)
         == (if at == 0 then {} else Span(at, NewIn(ks))) + Collected(rest, if at == 0 then 0 else at + NewIn(ks))
    decreases |ks|
  {
    var all := ks + rest;
    if ks == [] {
      assert all == rest;
    } else {
      assert ks[0] in ks && all[0] == ks[0] && all[1..] == ks[1..] + rest;
      BodyCollects(ks[1..], rest, Next(ks[0], at));
    }
  }

  lemma HeaderSets(n: nat, ks: seq<Kind>, at: nat)
    ensures Collected([Header(n)] + ks, at) == Collected(ks, n)
  {
    assert ([Header(n)] + ks)[1..] == ks;
  }

  lemma {:induction false} FlatCollects(starts: seq<nat>, bodies: seq<seq<Kind>>, at: nat)
    requires |starts| == |bodies| && forall b <- bodies :: Headless(b)
    ensures Collected(Flat(starts, bodies), at) == Runs(starts, NewCounts(bodies))
    decreases |starts|
  {
    if starts != [] {
      var start, body, rest := starts[0], bodies[0], Flat(starts[1..], bodies[1..]);
      assert body in bodies;
      HeaderSets(start, body + rest, at);
      BodyCollects(body, rest, start);
      FlatCollects(starts[1..], bodies[1..], if start == 0 then 0 else start + NewIn(body));
      assert NewCounts(bodies)[1..] == NewCounts(bodies[1..]);
    }
  }

  lemma {:induction false} RunsMean(starts: seq<nat>, ns: seq<nat>, x: nat)
    requires |starts| == |ns|
    ensures x in Runs(starts, ns)
       <==> exists i :: 0 <= i < |starts| && starts[i] != 0 && starts[i] <= x < starts[i] + ns[i]
    decreases |starts|
  {
    if starts != [] {
      RunsMean(starts[1..], ns[1..], x);
      if x in Runs(starts[1..], ns[1..]) {
        var i :| 0 <= i < |starts| - 1 && starts[1..][i] != 0 && starts[1..][i] <= x < starts[1..][i] + ns[1..][i];
        assert starts[i + 1] == starts[1..][i] && ns[i + 1] == ns[1..][i];
      }
      if exists i :: 0 < i < |starts| && starts[i] != 0 && starts[i] <= x < starts[i] + ns[i] {
        var i :| 0 < i < |starts| && starts[i] != 0 && starts[i] <= x < starts[i] + ns[i];
        assert starts[1..][i - 1] == starts[i] && ns[1..][i - 1] == ns[i];
      }
    }
  }

  /** No number is in two runs, and the number after a run is in none. */
  predicate RunsApart(starts: seq<nat>, cs: seq<nat>)
    requires |starts| == |cs|
  {
    && (forall i, j :: 0 <= i < |starts| && 0 <= j < |starts| && i != j && starts[i] != 0 && starts[j] != 0 ==>
          starts[i] + cs[i] <= starts[j] || starts[j] + cs[j] <= starts[i] || cs[i] == 0 || cs[j] == 0)
    && (forall i, j :: 0 <= i < |starts| && 0 <= j < |starts| && starts[i] != 0 && starts[j] != 0 ==>
          !(starts[j] <= starts[i] + cs[i] < starts[j] + cs[j]))
  }

  lemma {:induction false} NotLonger(starts: seq<nat>, ns: seq<nat>, cs: seq<nat>, i: nat)
    requires |starts| == |ns| == |cs| && RunsApart(starts, cs) && i < |starts| && starts[i] != 0
    requires Runs(starts, ns) == Runs(starts, cs)
    ensures ns[i] <= cs[i]
  {
    var x := starts[i] + cs[i];
    RunsMean(starts, ns, x);
    RunsMean(starts, cs, x);
  }

  lemma {:induction false} NotShorter(starts: seq<nat>, ns: seq<nat>, cs: seq<nat>, i: nat)
    requires |starts| == |ns| == |cs| && RunsApart(starts, cs) && i < |starts| && starts[i] != 0
    requires Runs(starts, ns) == Runs(starts, cs)
    requires forall j :: 0 <= j < |starts| && starts[j] != 0 ==> ns[j] <= cs[j]
    ensures ns[i] >= cs[i]
  {
    var x := starts[i] + ns[i];
    RunsMean(starts, ns, x);
    RunsMean(starts, cs, x);
  }

  lemma {:induction false} SameRuns(starts: seq<nat>, a: seq<nat>, b: seq<nat>)
    requires |a| == |b| == |starts| && forall i :: 0 <= i < |starts| && starts[i] != 0 ==> a[i] == b[i]
    ensures Runs(starts, a) == Runs(starts, b)
    decreases |starts|
  {
    if starts != [] {
      SameRuns(starts[1..], a[1..], b[1..]);
    }
  }

  /** Runs from the same starts cover the same numbers exactly when each is as long. */
  lemma {:induction false} RunsIff(starts: seq<nat>, ns: seq<nat>, cs: seq<nat>)
    requires |starts| == |ns| == |cs| && RunsApart(starts, cs)
    ensures Runs(starts, ns) == Runs(starts, cs) <==> forall i :: 0 <= i < |starts| && starts[i] != 0 ==> ns[i] == cs[i]
  {
    if Runs(starts, ns) == Runs(starts, cs) {
      forall i | 0 <= i < |starts| && starts[i] != 0 ensures ns[i] <= cs[i] {
        NotLonger(starts, ns, cs, i);
      }
      forall i | 0 <= i < |starts| && starts[i] != 0 ensures ns[i] == cs[i] {
        NotShorter(starts, ns, cs, i);
      }
    }
    if forall i :: 0 <= i < |starts| && starts[i] != 0 ==> ns[i] == cs[i] {
      SameRuns(starts, ns, cs);
    }
  }

  // ----- the kinds of the pieces -----------------------------------------------------------

  predicate NoHeaders(pieces: seq<string>) {
    forall p <- pieces :: HeaderStart(p).None?
  }

  lemma {:induction false} KindsWithoutHeaders(pieces: seq<string>)
    requires NoHeaders(pieces)
    ensures Headless(Kinds(pieces)) && NewIn(Kinds(pieces)) == CountedIn(pieces)
  {
    if pieces != [] {
      assert pieces[0] in pieces;
      KindsWithoutHeaders(pieces[1..]);
    }
  }

  lemma KindsOne(first: string, n: nat)
    requires HeaderStart(first) == Some(n)
    ensures Kinds([first]) == [Header(n)]
  {
    assert [first][1..] == [];
  }

  lemma {:induction false} KindsOfCons(first: seq<string>, body: seq<string>, rest: seq<string>)
    ensures Kinds((first + body) + rest) == Kinds(first) + (Kinds(body) + Kinds(rest))
  {
    KindsAppend(first + body, rest);
    KindsAppend(first, body);
    Regroup(Kinds(first), Kinds(body), Kinds(rest));
  }

  function Starts(hs: seq<Hunk>): (r: seq<nat>)
    ensures |r| == |hs| && forall i :: 0 <= i < |r| ==> r[i] == hs[i].added.start
  {
    if hs == [] then [] else [hs[0].added.start] + Starts(hs[1..])
  }

  function Counts(hs: seq<Hunk>): (r: seq<nat>)
    ensures |r| == |hs| && forall i :: 0 <= i < |r| ==> r[i] == Count(hs[i].added)
  {
    if hs == [] then [] else [Count(hs[0].added)] + Counts(hs[1..])
  }

  /** The pieces below the header of hunk `i`. */
  function BodyOf(hs: seq<Hunk>, i: nat): seq<string>
    requires i < |hs|
  {
    HunkOpens(hs[i], i == |hs| - 1);
    Body(hs[i], i == |hs| - 1)
  }

  function Bodies(hs: seq<Hunk>): (r: seq<seq<string>>)
    ensures |r| == |hs|
  {
    if hs == [] then [] else [BodyOf(hs, 0)] + Bodies(hs[1..])
  }

  lemma {:induction false} BodiesAt(hs: seq<Hunk>, i: nat)
    requires i < |hs|
    ensures Bodies(hs)[i] == BodyOf(hs, i)
  {
    if i > 0 {
      BodiesAt(hs[1..], i - 1);
      assert hs[1..][i - 1] == hs[i];
    }
  }

  function KindsEach(bodies: seq<seq<string>>): (r: seq<seq<Kind>>)
    ensures |r| == |bodies|
  {
    if bodies == [] then [] else [Kinds(bodies[0])] + KindsEach(bodies[1..])
  }

  lemma {:induction false} KindsEachAt(bodies: seq<seq<string>>, i: nat)
    requires i < |bodies|
    ensures KindsEach(bodies)[i] == Kinds(bodies[i])
  {
    if i > 0 {
      KindsEachAt(bodies[1..], i - 1);
    }
  }

  /** Pieces of which the first is a header. */
  lemma {:induction false} KindsOfHunk(pieces: seq<string>, rest: seq<string>, start: nat)
    requires pieces != [] && HeaderStart(pieces[0]) == Some(start)
    ensures Kinds(pieces + rest) == [Header(start)] + (Kinds(pieces[1..]) + Kinds(rest))
  {
    KindsOne(pieces[0], start);
    assert pieces == [pieces[0]] + pieces[1..];
    KindsOfCons([pieces[0]], pieces[1..], rest);
  }

  lemma {:induction false} FirstHunkKinds(hs: seq<Hunk>)
    requires hs != []
    ensures Kinds(AllPieces(hs)) == [Header(hs[0].added.start)] + (Kinds(BodyOf(hs, 0)) + Kinds(AllPieces(hs[1..])))
  {
    var pieces, rest := HunkPieces(hs[0], |hs| == 1), AllPieces(hs[1..]);
    HunkOpens(hs[0], |hs| == 1);
    KindsOfHunk(pieces, rest, hs[0].added.start);
  }

  lemma FlatOne(starts: seq<nat>, bodies: seq<seq<Kind>>, start: nat, body: seq<Kind>)
    requires |starts| == |bodies|
    ensures Flat([start] + starts, [body] + bodies) == [Header(start)] + (body + Flat(starts, bodies))
  {
    assert ([start] + starts)[1..] == starts && ([body] + bodies)[1..] == bodies;
  }

  lemma {:induction false} PiecesAreFlat(hs: seq<Hunk>)
    ensures Kinds(AllPieces(hs)) == Flat(Starts(hs), KindsEach(Bodies(hs)))
  {
    if hs != [] {
      FirstHunkKinds(hs);
      PiecesAreFlat(hs[1..]);
      FlatOne(Starts(hs[1..]), KindsEach(Bodies(hs[1..])), hs[0].added.start, Kinds(BodyOf(hs, 0)));
      BodiesOfCons(hs);
    }
  }

  lemma BodiesOfCons(hs: seq<Hunk>)
    requires hs != []
    ensures KindsEach(Bodies(hs)) == [Kinds(BodyOf(hs, 0))] + KindsEach(Bodies(hs[1..]))
    ensures Starts(hs) == [hs[0].added.start] + Starts(hs[1..])
  {
    assert Bodies(hs)[1..] == Bodies(hs[1..]);
  }

  // ----- when the numbers are the diff's own ---------------------------------------------------

  /** Below their headers no pieces read as another header. */
  predicate OneHeaderEach(hs: seq<Hunk>) {
    forall i :: 0 <= i < |hs| ==> NoHeaders(BodyOf(hs, i))
  }

  /** How many of a hunk's pieces are empty or start with a plus or a space. */
  function PieceCount(hs: seq<Hunk>, i: nat): nat
    requires i < |hs|
  {
    CountedIn(BodyOf(hs, i))
  }

  lemma {:induction false} PiecesCollect(hs: seq<Hunk>) returns (ns: seq<nat>)
    requires OneHeaderEach(hs)
    ensures |ns| == |hs| && forall i :: 0 <= i < |hs| ==> ns[i] == PieceCount(hs, i)
    ensures Collected(Kinds(AllPieces(hs)), 0) == Runs(Starts(hs), ns)
  {
    var bodies := KindsEach(Bodies(hs));
    ns := NewCounts(bodies);
    forall i | 0 <= i < |hs| ensures Headless(bodies[i]) && ns[i] == PieceCount(hs, i) {
      KindsEachAt(Bodies(hs), i);
      BodiesAt(hs, i);
      KindsWithoutHeaders(BodyOf(hs, i));
    }
    PiecesAreFlat(hs);
    FlatCollects(Starts(hs), bodies, 0);
  }

  lemma {:induction false} IntervalsAreRuns(hs: seq<Hunk>)
    requires forall h <- hs :: WellFormed(h)
    ensures AllIntervals(hs) == Runs(Starts(hs), Counts(hs))
  {
    if hs != [] {
      assert hs[0] in hs;
      IntervalsAreRuns(hs[1..]);
      assert Starts(hs)[1..] == Starts(hs[1..]) && Counts(hs)[1..] == Counts(hs[1..]);
    }
  }

  /** The hunks of a diff do not touch: no line is in two of them, and the line after one is
      in none, or the two would be one hunk. */
  predicate Apart(hs: seq<Hunk>) {
    RunsApart(Starts(hs), Counts(hs))
  }

  /** The lines `commentable` collects from a patch. */
  function Lines(hs: seq<Hunk>): set<nat> {
    Collected(Kinds(SplitLines(JoinLF(PrintHunks(hs)))), 0)
  }

  /** Exactly when the lines collected from a well-formed diff are its added and context
      lines: every hunk of the new file has as many pieces that are empty or start with a
      plus or a space as its header counts. Rows may hold any characters, line boundaries
      among them. */
  lemma {:induction false} DiffCollects(hs: seq<Hunk>)
    requires hs != [] && Apart(hs) && OneHeaderEach(hs) && forall h <- hs :: WellFormed(h)
    ensures AllNewLines(hs) == AllIntervals(hs)
    ensures Lines(hs) == AllNewLines(hs)
       <==> forall i :: 0 <= i < |hs| && hs[i].added.start != 0 ==> PieceCount(hs, i) == Count(hs[i].added)
  {
    PatchIsPieces(hs);
    var ns := PiecesCollect(hs);
    IntervalsAreNewLines(hs);
    IntervalsAreRuns(hs);
    RunsIff(Starts(hs), ns, Counts(hs));
  }

  // ----- row by row ------------------------------------------------------------------------------

  /** The pieces of a row past its first. */
  function Extras(row: string, last: bool): seq<string> {
    if RowPieces(row, last) == [] then [] else RowPieces(row, last)[1..]
  }

  /** How many of them, over the rows of a hunk, are empty or start with a plus or a space. */
  function ExtraIn(rows: seq<string>, last: bool): nat {
    if rows == [] then 0 else CountedIn(Extras(rows[0], last && |rows| == 1)) + ExtraIn(rows[1..], last)
  }

  lemma {:induction false} RowCounts(r: Row, last: bool)
    requires !(r.Blank? && last)
    ensures CountedIn(RowPieces(PrintRow(r), last))
            == (if IsNew(r) then 1 else 0) + CountedIn(Extras(PrintRow(r), last))
  {
    RowPieceIsRead(r, last);
  }

  lemma {:induction false} RowsCount(rows: seq<Row>)
    ensures CountedIn(MidPieces(PrintRows(rows))) == NewRows(rows) + ExtraIn(PrintRows(rows), false)
  {
    if rows != [] {
      RowCounts(rows[0], false);
      RowsCount(rows[1..]);
      CountedAppend(RowPieces(PrintRow(rows[0]), false), MidPieces(PrintRows(rows[1..])));
    }
  }

  lemma {:induction false} LastRowsCount(rows: seq<Row>)
    requires rows != [] && !rows[|rows| - 1].Blank?
    ensures CountedIn(TextPieces(PrintRows(rows))) == NewRows(rows) + ExtraIn(PrintRows(rows), true)
  {
    if |rows| == 1 {
      assert PrintRows(rows) == [PrintRow(rows[0])];
      RowCounts(rows[0], true);
      TextOne(PrintRow(rows[0]));
      assert NewRows(rows[1..]) == 0 && ExtraIn(PrintRows(rows)[1..], true) == 0;
    } else {
      RowCounts(rows[0], false);
      LastRowsCount(rows[1..]);
      TextCons(PrintRows(rows));
      CountedAppend(RowPieces(PrintRow(rows[0]), false), TextPieces(PrintRows(rows[1..])));
    }
  }

  /** The row a patch ends with is not an empty one. */
  predicate EndsInRow(hs: seq<Hunk>) {
    hs != [] && (hs[|hs| - 1].rows != [] ==> !hs[|hs| - 1].rows[|hs[|hs| - 1].rows| - 1].Blank?)
  }

  /** The pieces of a hunk's rows. */
  function Below(h: Hunk, last: bool): seq<string> {
    if h.rows == [] then [] else if last then TextPieces(PrintRows(h.rows)) else MidPieces(PrintRows(h.rows))
  }

  lemma RowsBelow(h: Hunk)
    ensures HunkRows(h)[0] == PrintHeader(h) && HunkRows(h)[1..] == PrintRows(h.rows)
    ensures |PrintRows(h.rows)| == |h.rows|
  {
    PrintRowsLength(h.rows);
  }

  lemma {:induction false} PrintRowsLength(rows: seq<Row>)
    ensures |PrintRows(rows)| == |rows|
  {
    if rows != [] {
      PrintRowsLength(rows[1..]);
    }
  }

  lemma {:induction false} HunkSplits(h: Hunk, last: bool)
    ensures HunkPieces(h, last) == RowPieces(PrintHeader(h), last && h.rows == []) + Below(h, last)
  {
    var rows := HunkRows(h);
    RowsBelow(h);
    if !last {
      assert h.rows == [] ==> MidPieces(PrintRows(h.rows)) == [];
    } else if h.rows == [] {
      TextOne(PrintHeader(h));
      assert rows == [PrintHeader(h)];
    } else {
      TextCons(rows);
    }
  }

  lemma HeaderHasPiece(h: Hunk, last: bool)
    ensures RowPieces(PrintHeader(h), last) != []
  {
    HeaderPieceIsRead(h, last);
  }

  /** A hunk's pieces are its header's and those of its rows. */
  lemma {:induction false} HunkPiecesAre(h: Hunk, last: bool)
    ensures
      var own := RowPieces(PrintHeader(h), last && h.rows == []);
      own != [] && HunkPieces(h, last) == own + Below(h, last) && Body(h, last) == own[1..] + Below(h, last)
  {
    HeaderHasPiece(h, last && h.rows == []);
    HunkSplits(h, last);
  }

  lemma {:induction false} BelowCounts(h: Hunk, last: bool)
    requires last && h.rows != [] ==> !h.rows[|h.rows| - 1].Blank?
    ensures CountedIn(Below(h, last)) == NewRows(h.rows) + ExtraIn(PrintRows(h.rows), last)
  {
    if h.rows != [] && last {
      LastRowsCount(h.rows);
    } else {
      RowsCount(h.rows);
    }
  }

  lemma {:induction false} HunkCounts(h: Hunk, last: bool)
    requires last && h.rows != [] ==> !h.rows[|h.rows| - 1].Blank?
    ensures HunkPieces(h, last) != []
    ensures CountedIn(Body(h, last)) == NewRows(h.rows) + ExtraIn(HunkRows(h), last)
  {
    var own := RowPieces(PrintHeader(h), last && h.rows == []);
    HunkPiecesAre(h, last);
    CountedAppend(own[1..], Below(h, last));
    BelowCounts(h, last);
    RowsBelow(h);
    ExtraOfCons(PrintHeader(h), PrintRows(h.rows), last);
  }

  lemma ExtraOfCons(row: string, rows: seq<string>, last: bool)
    ensures ExtraIn([row] + rows, last) == CountedIn(Extras(row, last && rows == [])) + ExtraIn(rows, last)
  {
    assert ([row] + rows)[1..] == rows;
  }

  lemma {:induction false} PiecesOfHunk(hs: seq<Hunk>, i: nat)
    requires i < |hs| && OneHeaderEach(hs) && EndsInRow(hs) && WellFormed(hs[i])
    ensures PieceCount(hs, i) == Count(hs[i].added) + ExtraIn(HunkRows(hs[i]), i == |hs| - 1)
  {
    HunkCounts(hs[i], i == |hs| - 1);
  }

  /** Unless the patch ends in an empty row: the lines collected are the diff's own exactly
      when no hunk of the new file has a row with a piece past its first that is empty or
      starts with a plus or a space. */
  lemma {:induction false} ExtraPiecesIff(hs: seq<Hunk>)
    requires Apart(hs) && OneHeaderEach(hs) && EndsInRow(hs) && forall h <- hs :: WellFormed(h)
    ensures Lines(hs) == AllNewLines(hs)
       <==> forall i :: 0 <= i < |hs| && hs[i].added.start != 0 ==> ExtraIn(HunkRows(hs[i]), i == |hs| - 1) == 0
  {
    DiffCollects(hs);
    forall i | 0 <= i < |hs|
      ensures PieceCount(hs, i) == Count(hs[i].added) + ExtraIn(HunkRows(hs[i]), i == |hs| - 1)
    {
      assert hs[i] in hs;
      PiecesOfHunk(hs, i);
    }
  }

  // ----- files with carriage returns -----------------------------------------------------------

  /** No boundary inside; a carriage return at the end is half of the row's own. */
  predicate Whole(row: string) {
    NoBreaks(row) || (row != "" && row[|row| - 1] == '\r' && NoBreaks(row[..|row| - 1]))
  }

  lemma {:induction false} WholeRowIsOnePiece(row: string, last: bool)
    requires Whole(row)
    ensures Extras(row, last) == []
  {
    if NoBreaks(row) {
      WholeAlone(row, if last then "" else [LF]);
      assert row + "" == row;
    } else {
      var x := row[..|row| - 1];
      WholeAlone(x, if last then ['\r'] else ['\r', LF]);
      assert row == x + ['\r'] && row + [LF] == x + ['\r', LF];
    }
  }

  lemma {:induction false} WholeAlone(x: string, end: string)
    requires NoBreaks(x) && (end == "" || end == [LF] || end == ['\r'] || end == ['\r', LF])
    ensures |SplitLines(x + end)| <= 1
  {
    assert end == [LF] || end == ['\r'] ==> end[1..] == "";
    assert end == ['\r', LF] ==> end[2..] == "";
    assert end != "" ==> SplitLines(end) == [""];
    if x == "" {
      assert x + end == end;
    } else if end == "" {
      assert x + end == x;
      SplitAlone(x);
    } else {
      SplitPlain(x, end);
    }
  }

  lemma {:induction false} WholeRowsHaveNoExtras(rows: seq<string>, last: bool)
    requires forall r <- rows :: Whole(r)
    ensures ExtraIn(rows, last) == 0
  {
    if rows != [] {
      assert rows[0] in rows;
      WholeRowIsOnePiece(rows[0], last && |rows| == 1);
      WholeRowsHaveNoExtras(rows[1..], last);
    }
  }

  lemma NoHeadersAppend(a: seq<string>, b: seq<string>)
    requires NoHeaders(a) && NoHeaders(b)
    ensures NoHeaders(a + b)
  {
  }

  lemma {:induction false} WholeRowHasNoHeader(r: Row, last: bool)
    requires Whole(PrintRow(r))
    ensures NoHeaders(RowPieces(PrintRow(r), last))
  {
    RowPieceIsRead(r, last);
    WholeRowIsOnePiece(PrintRow(r), last);
    var ps := RowPieces(PrintRow(r), last);
    assert ps != [] ==> ps == [ps[0]];
  }

  lemma {:induction false} WholeRowsHaveNoHeaders(rows: seq<Row>)
    requires forall r <- PrintRows(rows) :: Whole(r)
    ensures NoHeaders(MidPieces(PrintRows(rows)))
    ensures rows != [] ==> NoHeaders(TextPieces(PrintRows(rows)))
  {
    if rows != [] {
      var row := PrintRow(rows[0]);
      assert row in PrintRows(rows);
      WholeRowHasNoHeader(rows[0], false);
      assert forall r <- PrintRows(rows[1..]) :: r in PrintRows(rows);
      WholeRowsHaveNoHeaders(rows[1..]);
      NoHeadersAppend(RowPieces(row, false), MidPieces(PrintRows(rows[1..])));
      if |rows| == 1 {
        assert PrintRows(rows) == [row];
        TextOne(row);
        WholeRowHasNoHeader(rows[0], true);
      } else {
        TextCons(PrintRows(rows));
        NoHeadersAppend(RowPieces(row, false), TextPieces(PrintRows(rows[1..])));
      }
    }
  }

  lemma {:induction false} WholeHunkHasOneHeader(h: Hunk, last: bool)
    requires forall r <- HunkRows(h) :: Whole(r)
    ensures HunkPieces(h, last) != [] && NoHeaders(Body(h, last))
  {
    HunkPiecesAre(h, last);
    assert PrintHeader(h) in HunkRows(h) && HunkRows(h)[1..] == PrintRows(h.rows);
    assert forall r <- PrintRows(h.rows) :: r in HunkRows(h);
    WholeRowsHaveNoHeaders(h.rows);
    WholeRowIsOnePiece(PrintHeader(h), last && h.rows == []);
  }

  lemma {:induction false} WholeHunkIsCounted(h: Hunk, last: bool)
    requires WellFormed(h) && forall r <- HunkRows(h) :: Whole(r)
    requires last && h.rows != [] ==> !h.rows[|h.rows| - 1].Blank?
    ensures HunkPieces(h, last) != [] && NoHeaders(Body(h, last)) && CountedIn(Body(h, last)) == Count(h.added)
  {
    WholeHunkHasOneHeader(h, last);
    HunkCounts(h, last);
    WholeRowsHaveNoExtras(HunkRows(h), last);
  }

  /** Ordinary files, and files with carriage returns: a well-formed diff with no boundary
      inside a row collects exactly its added and context lines, however its hunks lie. */
  lemma {:induction false} WholeDiffCollects(hs: seq<Hunk>)
    requires EndsInRow(hs) && forall h <- hs :: WellFormed(h)
    requires forall h <- hs, r <- HunkRows(h) :: Whole(r)
    ensures Lines(hs) == AllNewLines(hs) == AllIntervals(hs)
  {
    forall i | 0 <= i < |hs| ensures NoHeaders(BodyOf(hs, i)) && PieceCount(hs, i) == Count(hs[i].added) {
      assert hs[i] in hs;
      WholeHunkIsCounted(hs[i], i == |hs| - 1);
    }
    CountsCollect(hs);
  }

  /** Hunks whose pieces are as many as their headers count collect the diff's own lines. */
  lemma {:induction false} CountsCollect(hs: seq<Hunk>)
    requires hs != [] && OneHeaderEach(hs) && forall h <- hs :: WellFormed(h)
    requires forall i :: 0 <= i < |hs| ==> PieceCount(hs, i) == Count(hs[i].added)
    ensures Lines(hs) == AllNewLines(hs) == AllIntervals(hs)
  {
    PatchIsPieces(hs);
    var ns := PiecesCollect(hs);
    IntervalsAreNewLines(hs);
    IntervalsAreRuns(hs);
    SameRuns(Starts(hs), ns, Counts(hs));
  }

  // ----- three patches ------------------------------------------------------------------------------

  const FF := '\U{000C}'

  lemma {:induction false} SplitAtFF(x: string, y: string)
    requires NoBreaks(x)
    ensures SplitLines(x + [FF] + y) == [x] + SplitLines(y)
  {
    var tail := [FF] + y;
    assert tail[0] == FF && tail[1..] == y && x + [FF] + y == x + tail;
    if x == "" {
      assert x + tail == tail;
    } else {
      SplitPlain(x, tail);
      assert x + "" == x;
    }
  }

  lemma HeaderPlain(h: Hunk)
    requires h.section == ""
    ensures NoBreaks(PrintHeader(h)) && PrintHeader(h) != ""
  {
    HeaderPrefixPlain(h);
    assert PrintHeader(h) == HeaderPrefix(h);
  }

  lemma SplitRow(x: string)
    requires NoBreaks(x)
    ensures SplitLines(x + [LF]) == [x]
  {
    assert [LF][1..] == "" && SplitLines([LF]) == [""];
    if x == "" {
      assert x + [LF] == [LF];
    } else {
      SplitPlain(x, [LF]);
      assert x + "" == x;
    }
  }

  lemma {:induction false} SimpleBody(h: Hunk)
    requires h.section == "" && h.rows != []
    ensures HunkPieces(h, true) != [] && Body(h, true) == TextPieces(PrintRows(h.rows))
  {
    HunkPiecesAre(h, true);
    HeaderPlain(h);
    SplitRow(PrintHeader(h));
    assert RowPieces(PrintHeader(h), false)[1..] == [];
  }

  lemma {:induction false} OneHunkKinds(first: string, body: seq<string>, n: nat)
    requires HeaderStart(first) == Some(n)
    ensures Collected(Kinds([first] + body), 0) == Collected(Kinds(body), n)
  {
    KindsAppend([first], body);
    KindsOne(first, n);
    HeaderSets(n, Kinds(body), 0);
  }

  /** The lines of a patch of one hunk, from the pieces of its rows. */
  lemma {:induction false} OneHunkLines(h: Hunk)
    requires h.section == "" && h.rows != []
    ensures Lines([h]) == Collected(Kinds(TextPieces(PrintRows(h.rows))), h.added.start)
  {
    PatchIsPieces([h]);
    SimpleBody(h);
    HunkOpens(h, true);
    var ps := HunkPieces(h, true);
    assert [h][1..] == [] && AllPieces([h]) == ps + [] && ps == [ps[0]] + Body(h, true);
    assert ps + [] == ps;
    OneHunkKinds(ps[0], Body(h, true), h.added.start);
  }

  lemma {:induction false} OneInterval(h: Hunk)
    requires WellFormed(h)
    ensures AllNewLines([h]) == Interval(h)
  {
    IntervalsAreNewLines([h]);
    assert [h][1..] == [] && AllIntervals([h]) == Interval(h) + AllIntervals([]);
  }

  lemma TwoKinds(a: string, b: string)
    ensures Kinds([a, b]) == [Classify(a), Classify(b)]
  {
    KindsAt([a, b], 0);
    KindsAt([a, b], 1);
  }

  lemma TwoNumbers(at: nat)
    requires at > 0
    ensures Collected([InNew, InNew], at) == {at, at + 1}
  {
    assert [InNew, InNew][1..] == [InNew] && [InNew][1..] == [];
    assert Collected([InNew], at + 1) == {at + 1} + Collected([], at + 2);
  }

  lemma TwoRun(n: nat)
    ensures Span(n, 1) == {n} && Span(n, 2) == {n, n + 1}
  {
  }

  lemma OneRow(r: Row)
    ensures TextPieces(PrintRows([r])) == RowPieces(PrintRow(r), true)
  {
    assert [r][1..] == [] && PrintRows([r]) == [PrintRow(r)];
    TextOne(PrintRow(r));
  }

  lemma TwoRows(a: Row, b: Row)
    ensures TextPieces(PrintRows([a, b])) == RowPieces(PrintRow(a), false) + RowPieces(PrintRow(b), true)
  {
    assert [a, b][1..] == [b];
    OneRow(b);
    assert PrintRows([a, b]) == [PrintRow(a)] + PrintRows([b]);
    assert [b][1..] == [] && PrintRows([b]) == [PrintRow(b)];
    TextCons(PrintRows([a, b]));
    assert PrintRows([a, b])[1..] == PrintRows([b]);
  }

  const FORM_FEED := Hunk(Range(1, None), Range(1, None), "", [Added("a" + [FF] + " b")])

  lemma {:induction false} FormFeedPieces()
    ensures TextPieces(PrintRows(FORM_FEED.rows)) == ["+a", " b"]
  {
    OneRow(FORM_FEED.rows[0]);
    assert PrintRow(FORM_FEED.rows[0]) == "+a" + [FF] + " b";
    SplitAtFF("+a", " b");
    SplitAlone(" b");
  }

  /** A form feed inside an added line is a boundary, and what is below it starts with a
      space: the one-line hunk is collected as two lines. */
  lemma {:induction false} FormFeedAddsALine()
    ensures WellFormed(FORM_FEED) && AllNewLines([FORM_FEED]) == {1} && Lines([FORM_FEED]) == {1, 2}
  {
    assert FORM_FEED.rows[1..] == [] && NewRows(FORM_FEED.rows) == 1 + NewRows([]);
    OneInterval(FORM_FEED);
    TwoRun(1);
    OneHunkLines(FORM_FEED);
    FormFeedPieces();
    TwoKinds("+a", " b");
    NoHeaderIn("+a");
    NoHeaderIn(" b");
    TwoNumbers(1);
  }

  lemma NoHeaderIn(piece: string)
    requires piece != "" && piece[0] != '@'
    ensures HeaderStart(piece).None?
  {
  }

  // Why no other piece may read as a header: with one, neither side tells of the other.

  const NINTH := Hunk(Range(1, None), Range(9, None), "", [])
  const JUMPS := Hunk(Range(1, None), Range(1, None), "", [Deleted("x" + [FF] + PrintHeader(NINTH)), Added("b")])

  lemma {:induction false} JumpsPieces()
    ensures TextPieces(PrintRows(JUMPS.rows)) == ["-x", PrintHeader(NINTH), "+b"]
  {
    var a, b := JUMPS.rows[0], JUMPS.rows[1];
    TwoRows(a, b);
    HeaderPlain(NINTH);
    JumpsRow(PrintHeader(NINTH));
    assert PrintRow(b) == "+b";
    SplitAlone("+b");
  }

  lemma {:induction false} JumpsRow(head: string)
    requires NoBreaks(head)
    ensures RowPieces(PrintRow(Deleted("x" + [FF] + head)), false) == ["-x", head]
  {
    assert PrintRow(Deleted("x" + [FF] + head)) + [LF] == "-x" + [FF] + (head + [LF]);
    SplitAtFF("-x", head + [LF]);
    SplitRow(head);
  }

  lemma JumpsKinds()
    ensures Kinds(["-x", PrintHeader(NINTH), "+b"]) == [NotInNew, Header(9), InNew]
  {
    var ps := ["-x", PrintHeader(NINTH), "+b"];
    KindsAt(ps, 0);
    KindsAt(ps, 1);
    KindsAt(ps, 2);
    NoHeaderIn("-x");
    NoHeaderIn("+b");
    HeaderIsRead(NINTH);
  }

  lemma JumpsNumbers()
    ensures Collected([NotInNew, Header(9), InNew], 1) == {9}
  {
    assert [NotInNew, Header(9), InNew][1..] == [Header(9), InNew] && [Header(9), InNew][1..] == [InNew]
      && [InNew][1..] == [];
    assert Collected([InNew], 9) == {9} + Collected([], 10);
  }

  /** A deleted line that holds a hunk header below a form feed: no piece is counted that
      should not be, and yet the added line gets the other header's number. */
  lemma {:induction false} HeaderInsideJumps()
    ensures WellFormed(JUMPS) && AllNewLines([JUMPS]) == {1} && Lines([JUMPS]) == {9}
    ensures PieceCount([JUMPS], 0) == Count(JUMPS.added)
  {
    assert JUMPS.rows[1..][1..] == [] && NewRows(JUMPS.rows[1..]) == 1 + NewRows([]);
    OneInterval(JUMPS);
    TwoRun(1);
    OneHunkLines(JUMPS);
    JumpsPieces();
    JumpsKinds();
    JumpsNumbers();
    SimpleBody(JUMPS);
    OneOfThree();
  }

  lemma OneOfThree()
    ensures CountedIn(["-x", PrintHeader(NINTH), "+b"]) == 1
  {
    var h := PrintHeader(NINTH);
    assert ["+b"][1..] == [] && CountedIn(["+b"]) == 1;
    assert [h, "+b"][1..] == ["+b"] && h[0] == '@' && CountedIn([h, "+b"]) == 1;
    assert ["-x", h, "+b"][1..] == [h, "+b"];
  }

  const SECOND := Hunk(Range(1, None), Range(2, None), "", [])
  const MEETS := Hunk(Range(1, None), Range(1, Some(2)), "",
                      [Added("a" + [FF] + ("+x" + [FF] + PrintHeader(SECOND))), Added("b")])

  lemma {:induction false} MeetsPieces()
    ensures TextPieces(PrintRows(MEETS.rows)) == ["+a", "+x", PrintHeader(SECOND), "+b"]
  {
    var a, b := MEETS.rows[0], MEETS.rows[1];
    TwoRows(a, b);
    HeaderPlain(SECOND);
    MeetsRow(PrintHeader(SECOND));
    assert PrintRow(b) == "+b";
    SplitAlone("+b");
  }

  lemma {:induction false} MeetsRow(head: string)
    requires NoBreaks(head)
    ensures RowPieces(PrintRow(Added("a" + [FF] + ("+x" + [FF] + head))), false) == ["+a", "+x", head]
  {
    var rest := "+x" + [FF] + (head + [LF]);
    assert PrintRow(Added("a" + [FF] + ("+x" + [FF] + head))) + [LF] == "+a" + [FF] + rest;
    SplitAtFF("+a", rest);
    SplitAtFF("+x", head + [LF]);
    SplitRow(head);
  }

  lemma MeetsKinds()
    ensures Kinds(["+a", "+x", PrintHeader(SECOND), "+b"]) == [InNew, InNew, Header(2), InNew]
  {
    var ps := ["+a", "+x", PrintHeader(SECOND), "+b"];
    KindsAt(ps, 0);
    KindsAt(ps, 1);
    KindsAt(ps, 2);
    KindsAt(ps, 3);
    NoHeaderIn("+a");
    NoHeaderIn("+x");
    NoHeaderIn("+b");
    HeaderIsRead(SECOND);
  }

  lemma MeetsNumbers()
    ensures Collected([InNew, InNew, Header(2), InNew], 1) == {1, 2}
  {
    var ks := [InNew, InNew, Header(2), InNew];
    assert ks[1..] == [InNew, Header(2), InNew] && ks[1..][1..] == [Header(2), InNew];
    assert [Header(2), InNew][1..] == [InNew] && [InNew][1..] == [];
    assert Collected([InNew], 2) == {2} + Collected([], 3);
    assert Collected([Header(2), InNew], 3) == {2};
    assert Collected([InNew, Header(2), InNew], 2) == {2} + {2};
  }

  /** And one whose header below two form feeds makes up for the piece counted above it: the
      lines come out right although one piece too many got a number. */
  lemma {:induction false} HeaderInsideMeets()
    ensures WellFormed(MEETS) && AllNewLines([MEETS]) == {1, 2} && Lines([MEETS]) == {1, 2}
    ensures PieceCount([MEETS], 0) == Count(MEETS.added) + 1
  {
    assert MEETS.rows[1..][1..] == [] && NewRows(MEETS.rows[1..]) == 1 + NewRows([]);
    OneInterval(MEETS);
    TwoRun(1);
    OneHunkLines(MEETS);
    MeetsPieces();
    MeetsKinds();
    MeetsNumbers();
    SimpleBody(MEETS);
    ThreeOfFour();
  }

  lemma ThreeOfFour()
    ensures CountedIn(["+a", "+x", PrintHeader(SECOND), "+b"]) == 3
  {
    var h := PrintHeader(SECOND);
    assert ["+b"][1..] == [] && CountedIn(["+b"]) == 1;
    assert [h, "+b"][1..] == ["+b"] && h[0] == '@' && CountedIn([h, "+b"]) == 1;
    assert ["+x", h, "+b"][1..] == [h, "+b"] && CountedIn(["+x", h, "+b"]) == 2;
    assert ["+a", "+x", h, "+b"][1..] == ["+x", h, "+b"];
  }
}

/** Turning findings into inline comments: each one is anchored to a line of its file's
    diff, demoted into the summary, or folded away. */
module Anchor {
  import opened Text
  import opened Options
  import opened Sets

  const SNAP := 3

  /** One element of the INLINE array: `line` is what `int(f["line"])` gives, if that
      does not fail; `start` is `start_line` when it is an integer. */
  datatype Finding = Finding(path: Option<string>, severity: string, line: Option<int>, start: Option<int>,
                             title: string, body: string)

  /** An inline comment: the finding it renders, where it goes, and the reported line
      when it was moved. */
  datatype Comment = Comment(finding: Finding, line: int, start: Option<int>, snappedFrom: Option<int>)

  /** A finding kept in the summary, with the line shown beside its path. */
  datatype Note = Note(finding: Finding, line: Option<int>)

  // ----- severity ---------------------------------------------------------------

  function SpacesToDashes(s: string): string {
    if s == "" then "" else [if s[0] == ' ' then '-' else s[0]] + SpacesToDashes(s[1..])
  }

  /** `_rank`; None for a severity robbie cannot read. */
  function Rank(severity: string): Option<nat> {
    var s := SpacesToDashes(Lowered(Strip(severity)));
    if s == "critical" then Some(0)
    else if s == "must-fix" || s == "mustfix" then Some(1)
    else if s == "should-fix" || s == "shouldfix" then Some(2)
    else if s == "nitpick" then Some(3)
    else None
  }

  predicate Foldable(f: Finding, floor: nat) {
    Rank(f.severity).Some? && Rank(f.severity).value > floor
  }

  // ----- the nearest line ----------------------------------------------------------

  function Distance(a: int, b: int): nat {
    if a < b then b - a else a - b
  }

  /** `n` sorts before `m` by (distance to the line, number). */
  predicate Before(n: int, m: int, line: int) {
    Distance(n, line) < Distance(m, line) || (Distance(n, line) == Distance(m, line) && n <= m)
  }

  ghost predicate IsNearest(n: int, lines: set<int>, line: int) {
    n in lines && forall m :: m in lines ==> Before(n, m, line)
  }

  /** The head of `sorted(lines, key=lambda n: (abs(n - line), n))`. */
  method Nearest(lines: set<int>, line: int) returns (n: int)
    requires lines != {}
    ensures IsNearest(n, lines, line)
  {
    NonEmptyInts(lines);
    n :| n in lines;
    var rest := lines - {n};
    while rest != {}
      invariant n in lines && rest <= lines
      invariant forall m :: m in lines && m !in rest ==> Before(n, m, line)
      decreases rest
    {
      NonEmptyInts(rest);
      var m :| m in rest;
      if Before(m, n, line) {
        n := m;
      }
      rest := rest - {m};
    }
  }

  lemma {:induction false} NearestExists(lines: set<int>, line: int)
    requires lines != {}
    ensures exists n :: IsNearest(n, lines, line)
    decreases lines
  {
    NonEmptyInts(lines);
    var m :| m in lines;
    if lines == {m} {
      assert IsNearest(m, lines, line);
    } else {
      var rest := lines - {m};
      NearestExists(rest, line);
      var n :| IsNearest(n, rest, line);
      assert forall k :: k in lines ==> k == m || k in rest;
      if Before(m, n, line) {
        assert IsNearest(m, lines, line);
      } else {
        assert IsNearest(n, lines, line);
      }
    }
  }

  ghost function NearestOf(lines: set<int>, line: int): (n: int)
    requires lines != {}
    ensures IsNearest(n, lines, line)
  {
    NearestExists(lines, line);
    var n :| IsNearest(n, lines, line);
    n
  }

  // ----- where one finding goes -------------------------------------------------------

  datatype Placement = Inline(comment: Comment) | Left(note: Note) | Folded(note: Note)

  function LinesOf(f: Finding, valid: map<string, set<int>>): set<int> {
    var path := if f.path.Some? then f.path.value else "";
    if path in valid then valid[path] else {}
  }

  function KeptStart(f: Finding, target: int, lines: set<int>): Option<int> {
    if f.start.Some? && f.start.value < target && f.start.value in lines then f.start else None
  }

  ghost function Place(f: Finding, valid: map<string, set<int>>, floor: nat): Placement {
    var lines := LinesOf(f, valid);
    if Foldable(f, floor) then Folded(Note(f, f.line))
    else if f.line.None? then Left(Note(f, None))
    else if f.line.value in lines then Inline(Comment(f, f.line.value, KeptStart(f, f.line.value, lines), None))
    else if lines == {} || Distance(NearestOf(lines, f.line.value), f.line.value) > SNAP then Left(Note(f, f.line))
    else
      var n := NearestOf(lines, f.line.value);
      Inline(Comment(f, n, KeptStart(f, n, lines), f.line))
  }

  ghost function Comments(fs: seq<Finding>, valid: map<string, set<int>>, floor: nat): seq<Comment> {
    if fs == [] then []
    else
      var p := Place(fs[|fs| - 1], valid, floor);
      Comments(fs[..|fs| - 1], valid, floor) + (if p.Inline? then [p.comment] else [])
  }

  ghost function Leftovers(fs: seq<Finding>, valid: map<string, set<int>>, floor: nat): seq<Note> {
    if fs == [] then []
    else
      var p := Place(fs[|fs| - 1], valid, floor);
      Leftovers(fs[..|fs| - 1], valid, floor) + (if p.Left? then [p.note] else [])
  }

  ghost function FoldedAway(fs: seq<Finding>, valid: map<string, set<int>>, floor: nat): seq<Note> {
    if fs == [] then []
    else
      var p := Place(fs[|fs| - 1], valid, floor);
      FoldedAway(fs[..|fs| - 1], valid, floor) + (if p.Folded? then [p.note] else [])
  }

  lemma {:induction false} NearestIsUnique(n: int, lines: set<int>, line: int)
    requires IsNearest(n, lines, line)
    ensures n == NearestOf(lines, line)
  {
    var m := NearestOf(lines, line);
    assert Before(n, m, line) && Before(m, n, line);
  }

  /** One finding: folded, left over, or a comment on its line or the nearest within reach. */
  method PlaceOne(f: Finding, valid: map<string, set<int>>, floor: nat) returns (p: Placement)
    ensures p == Place(f, valid, floor)
  {
    var rank := Rank(f.severity);
    if rank.Some? && rank.value > floor {
      return Folded(Note(f, f.line));
    }
    var lines := LinesOf(f, valid);
    if f.line.None? {
      return Left(Note(f, None));
    }
    var line := f.line.value;
    var target, snapped := line, None;
    if line !in lines {
      if lines == {} {
        return Left(Note(f, Some(line)));
      }
      var near := Nearest(lines, line);
      NearestIsUnique(near, lines, line);
      if Distance(near, line) > SNAP {
        return Left(Note(f, Some(line)));
      }
      target, snapped := near, Some(line);
    }
    return Inline(Comment(f, target, KeptStart(f, target, lines), snapped));
  }

  /** `anchor`. */
  method AnchorAll(findings: seq<Finding>, valid: map<string, set<int>>, floor: nat)
    returns (comments: seq<Comment>, leftovers: seq<Note>, folded: seq<Note>)
    ensures comments == Comments(findings, valid, floor)
    ensures leftovers == Leftovers(findings, valid, floor)
    ensures folded == FoldedAway(findings, valid, floor)
  {
    comments, leftovers, folded := [], [], [];
    for i := 0 to |findings|
      invariant comments == Comments(findings[..i], valid, floor)
      invariant leftovers == Leftovers(findings[..i], valid, floor)
      invariant folded == FoldedAway(findings[..i], valid, floor)
    {
      OneMore(findings[..i + 1], findings[..i], findings[i], valid, floor);
      var p := PlaceOne(findings[i], valid, floor);
      match p {
        case Inline(comment) => comments := comments + [comment];
        case Left(note) => leftovers := leftovers + [note];
        case Folded(note) => folded := folded + [note];
      }
    }
    assert findings[..|findings|] == findings;
  }

  // ----- what the placement guarantees ---------------------------------------------------

  /** The line `m` is in the part of the diff that belongs to the finding's file. */
  predicate InItsFile(f: Finding, m: int, valid: map<string, set<int>>) {
    (f.path.Some? && f.path.value in valid && m in valid[f.path.value])
    || (f.path.None? && "" in valid && m in valid[""])
  }

  /** A finding is folded exactly when its severity is readable and below the floor; it
      becomes a comment exactly when it is not folded and some line of its file's diff
      lies within reach of a readable line; otherwise it is left for the summary. A folded
      or left one keeps the line it was reported for. */
  lemma {:induction false} PlacementIs(f: Finding, valid: map<string, set<int>>, floor: nat)
    ensures Place(f, valid, floor).Folded? <==> Rank(f.severity).Some? && Rank(f.severity).value > floor
    ensures Place(f, valid, floor).Inline?
       <==> !Place(f, valid, floor).Folded? && f.line.Some?
            && exists m :: InItsFile(f, m, valid) && f.line.value - 3 <= m <= f.line.value + 3
    ensures Place(f, valid, floor).Inline? || Place(f, valid, floor).note == Note(f, f.line)
  {
    var lines := LinesOf(f, valid);
    assert forall m :: m in lines <==> InItsFile(f, m, valid);
    if f.line.Some? && lines != {} {
      var n := NearestOf(lines, f.line.value);
      assert InItsFile(f, n, valid);
      assert forall m :: m in lines ==> Before(n, m, f.line.value);
    }
  }

  /** The four severities, hardest first: a finding is folded exactly when its own is read
      as one further down than the floor. `read` is the severity as it is compared. */
  lemma {:induction false} FoldedByName(f: Finding, valid: map<string, set<int>>, min: string, read: string)
    requires min == "critical" || min == "must-fix" || min == "should-fix" || min == "nitpick"
    requires read == SpacesToDashes(Lowered(Strip(f.severity)))
    ensures Rank(min).Some?
    ensures Place(f, valid, Rank(min).value).Folded?
       <==> (read == "nitpick" && min != "nitpick")
            || ((read == "should-fix" || read == "shouldfix") && (min == "critical" || min == "must-fix"))
            || ((read == "must-fix" || read == "mustfix") && min == "critical")
  {
    FloorIs(min);
    RankIs(f.severity, read);
  }

  lemma {:induction false} RankIs(severity: string, read: string)
    requires read == SpacesToDashes(Lowered(Strip(severity)))
    ensures Rank(severity) == Some(0) <==> read == "critical"
    ensures Rank(severity) == Some(1) <==> read == "must-fix" || read == "mustfix"
    ensures Rank(severity) == Some(2) <==> read == "should-fix" || read == "shouldfix"
    ensures Rank(severity) == Some(3) <==> read == "nitpick"
    ensures Rank(severity).Some? ==> Rank(severity).value < 4
  {
    Differ();
  }

  lemma Differ()
    ensures "critical" != "must-fix" && "critical" != "mustfix" && "critical" != "should-fix"
    ensures "critical" != "shouldfix" && "critical" != "nitpick" && "must-fix" != "should-fix"
    ensures "must-fix" != "shouldfix" && "must-fix" != "nitpick" && "mustfix" != "should-fix"
    ensures "mustfix" != "shouldfix" && "mustfix" != "nitpick" && "should-fix" != "nitpick"
    ensures "shouldfix" != "nitpick"
  {
    assert "critical"[0] == 'c' && "must-fix"[0] == 'm' && "mustfix"[0] == 'm' && "should-fix"[0] == 's';
    assert "shouldfix"[0] == 's' && "nitpick"[0] == 'n';
  }

  lemma {:induction false} FloorIs(min: string)
    requires min == "critical" || min == "must-fix" || min == "should-fix" || min == "nitpick"
    ensures Rank(min) == Some(if min == "critical" then 0 else if min == "must-fix" then 1
                              else if min == "should-fix" then 2 else 3)
  {
    ReadsItself(min);
    RankIs(min, min);
  }

  lemma {:induction false} ReadsItself(s: string)
    requires s != "" && !IsSpace(s[0]) && !IsSpace(s[|s| - 1])
    requires forall k :: 0 <= k < |s| ==> !('A' <= s[k] <= 'Z') && s[k] != '\U{212A}' && s[k] != ' '
    ensures SpacesToDashes(Lowered(Strip(s))) == s
  {
    assert Strip(s) == s;
    LoweredStays(s);
    DashesStay(s);
  }

  lemma {:induction false} DashesStay(s: string)
    requires ' ' !in s
    ensures SpacesToDashes(s) == s
  {
    if s != "" {
      DashesStay(s[1..]);
    }
  }

  /** A severity is compared in lower case, each blank read as a dash. */
  lemma {:induction false} ReadAs(s: string, k: nat)
    requires k < |s|
    ensures |SpacesToDashes(Lowered(s))| == |s|
    ensures 'A' <= s[k] <= 'Z' ==> SpacesToDashes(Lowered(s))[k] as int == s[k] as int + 32
    ensures s[k] == ' ' ==> SpacesToDashes(Lowered(s))[k] == '-'
    ensures 'a' <= s[k] <= 'z' || s[k] == '-' ==> SpacesToDashes(Lowered(s))[k] == s[k]
  {
    if |s| > 1 {
      ReadAs(s[1..], if k > 0 then k - 1 else 0);
    }
  }

  /** GitHub accepts every comment: its line is in its file's diff, at most three from the
      reported one, with no line of the diff closer and none below it as close; it is
      marked as moved exactly when it was; and a start line is kept exactly when it is in
      the diff above the line. */
  lemma {:induction false} CommentIsAnchored(f: Finding, valid: map<string, set<int>>, floor: nat)
    requires Place(f, valid, floor).Inline?
    ensures
      var c := Place(f, valid, floor).comment;
      && c.finding == f && f.line.Some?
      && InItsFile(f, c.line, valid) && f.line.value - 3 <= c.line <= f.line.value + 3
      && (forall m :: InItsFile(f, m, valid) && m < f.line.value ==> m <= c.line || m + c.line < 2 * f.line.value)
      && (forall m :: InItsFile(f, m, valid) && m >= f.line.value ==> m >= c.line && m + c.line >= 2 * f.line.value)
      && (c.snappedFrom == if c.line == f.line.value then None else f.line)
      && (c.start.Some? <==> f.start.Some? && f.start.value < c.line && InItsFile(f, f.start.value, valid))
      && (c.start.Some? ==> c.start == f.start)
  {
    var lines := LinesOf(f, valid);
    assert forall m :: m in lines <==> InItsFile(f, m, valid);
    if f.line.value !in lines {
      var n := NearestOf(lines, f.line.value);
      assert forall m :: m in lines ==> Before(n, m, f.line.value);
    }
  }

  ghost function FindingsOf(cs: seq<Comment>): seq<Finding> {
    seq(|cs|, i requires 0 <= i < |cs| => cs[i].finding)
  }

  ghost function NotedIn(ns: seq<Note>): seq<Finding> {
    seq(|ns|, i requires 0 <= i < |ns| => ns[i].finding)
  }

  /** The findings the three outputs hold, with their multiplicities. */
  ghost function Held(cs: seq<Comment>, ls: seq<Note>, ns: seq<Note>): multiset<Finding> {
    multiset(FindingsOf(cs)) + multiset(NotedIn(ls)) + multiset(NotedIn(ns))
  }

  /** No finding is lost or doubled: with their multiplicities, the three outputs hold
      exactly the findings that came in. */
  lemma {:induction false} FindingsAreConserved(fs: seq<Finding>, valid: map<string, set<int>>, floor: nat)
    ensures Held(Comments(fs, valid, floor), Leftovers(fs, valid, floor), FoldedAway(fs, valid, floor)) == multiset(fs)
  {
    if fs == [] {
      NothingHeld();
    } else {
      var rest, f := fs[..|fs| - 1], fs[|fs| - 1];
      FindingsAreConserved(rest, valid, floor);
      OneMoreHeld(fs, rest, f, valid, floor);
      assert fs == rest + [f];
    }
  }

  lemma NothingHeld()
    ensures Held([], [], []) == multiset{}
  {
    assert FindingsOf([]) == [] && NotedIn([]) == [];
  }

  lemma {:induction false} OneMoreHeld(fs: seq<Finding>, rest: seq<Finding>, f: Finding,
                                       valid: map<string, set<int>>, floor: nat)
    requires fs != [] && rest == fs[..|fs| - 1] && f == fs[|fs| - 1]
    ensures Held(Comments(fs, valid, floor), Leftovers(fs, valid, floor), FoldedAway(fs, valid, floor))
         == Held(Comments(rest, valid, floor), Leftovers(rest, valid, floor), FoldedAway(rest, valid, floor))
           + multiset{f}
  {
    OneMore(fs, rest, f, valid, floor);
    PlaceIsAbout(f, valid, floor);
    Balance(Comments(rest, valid, floor), Leftovers(rest, valid, floor), FoldedAway(rest, valid, floor),
            Place(f, valid, floor), f);
  }

  function About(p: Placement): Finding {
    match p
    case Inline(c) => c.finding
    case Left(n) => n.finding
    case Folded(n) => n.finding
  }

  lemma PlaceIsAbout(f: Finding, valid: map<string, set<int>>, floor: nat)
    ensures About(Place(f, valid, floor)) == f
  {
  }

  lemma Balance(cs: seq<Comment>, ls: seq<Note>, ns: seq<Note>, p: Placement, f: Finding)
    requires About(p) == f
    ensures Held(cs + (if p.Inline? then [p.comment] else []), ls + (if p.Left? then [p.note] else []),
                 ns + (if p.Folded? then [p.note] else []))
         == Held(cs, ls, ns) + multiset{f}
  {
    assert cs + [] == cs && ls + [] == ls && ns + [] == ns;
    match p {
      case Inline(c) => assert FindingsOf(cs + [c]) == FindingsOf(cs) + [f];
      case Left(n) => assert NotedIn(ls + [n]) == NotedIn(ls) + [f];
      case Folded(n) => assert NotedIn(ns + [n]) == NotedIn(ns) + [f];
    }
  }

  /** Order is kept: what later findings become stands after what earlier ones became,
      in each of the three outputs, and no finding changes where another one goes. */
  lemma {:induction false} OrderIsKept(a: seq<Finding>, b: seq<Finding>, valid: map<string, set<int>>, floor: nat)
    ensures Comments(a + b, valid, floor) == Comments(a, valid, floor) + Comments(b, valid, floor)
    ensures Leftovers(a + b, valid, floor) == Leftovers(a, valid, floor) + Leftovers(b, valid, floor)
    ensures FoldedAway(a + b, valid, floor) == FoldedAway(a, valid, floor) + FoldedAway(b, valid, floor)
  {
    if b == [] {
      assert a + b == a;
    } else {
      var front, f := b[..|b| - 1], b[|b| - 1];
      OrderIsKept(a, front, valid, floor);
      assert (a + b)[..|a + b| - 1] == a + front && (a + b)[|a + b| - 1] == f;
      OneMore(a + b, a + front, f, valid, floor);
      OneMore(b, front, f, valid, floor);
      var p := Place(f, valid, floor);
      Regroup(Comments(a, valid, floor), Comments(front, valid, floor), if p.Inline? then [p.comment] else []);
      Regroup(Leftovers(a, valid, floor), Leftovers(front, valid, floor), if p.Left? then [p.note] else []);
      Regroup(FoldedAway(a, valid, floor), FoldedAway(front, valid, floor), if p.Folded? then [p.note] else []);
    }
  }

  lemma Regroup<T>(a: seq<T>, b: seq<T>, c: seq<T>)
    ensures a + b + c == a + (b + c)
  {
  }

  lemma {:induction false} OneMore(fs: seq<Finding>, front: seq<Finding>, f: Finding, valid: map<string, set<int>>,
                                   floor: nat)
    requires fs != [] && front == fs[..|fs| - 1] && f == fs[|fs| - 1]
    ensures
      var p := Place(f, valid, floor);
      Comments(fs, valid, floor) == Comments(front, valid, floor) + (if p.Inline? then [p.comment] else [])
      && Leftovers(fs, valid, floor) == Leftovers(front, valid, floor) + (if p.Left? then [p.note] else [])
      && FoldedAway(fs, valid, floor) == FoldedAway(front, valid, floor) + (if p.Folded? then [p.note] else [])
  {
  }
}

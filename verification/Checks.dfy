/** What CI says about a commit: the checks bucketed, the red list of gate 6, and the
    outcome the CI watch acts on. */
module Checks {
  import opened Text

  /** One commit status or check run; an absent field is empty. */
  datatype Check = Check(context: string, name: string, state: string, conclusion: string, status: string)

  datatype Bucket = Passing | Failing | Running | Other

  datatype Summary = Summary(passing: seq<string>, failing: seq<string>, running: seq<string>, other: seq<string>)

  datatype Outcome = Green | Red | Waiting

  // ----- one check ------------------------------------------------------------------

  /** `s.split()`: the words between runs of whitespace. */
  function Words(s: string): (r: seq<string>)
    ensures forall k :: 0 <= k < |r| ==> forall j :: 0 <= j < |r[k]| ==> !IsSpace(r[k][j])
    decreases |s|
  {
    if s == "" then []
    else if IsSpace(s[0]) then Words(s[1..])
    else
      var n := WordLength(s);
      [s[..n]] + Words(s[n..])
  }

  function WordLength(s: string): (n: nat)
    ensures n <= |s| && forall k :: 0 <= k < n ==> !IsSpace(s[k])
    ensures s != "" && !IsSpace(s[0]) ==> n > 0
  {
    if s == "" || IsSpace(s[0]) then 0 else 1 + WordLength(s[1..])
  }

  const NAME_CAP := 120

  /** `_one_line`. */
  function OneLine(name: string): string {
    var flat := JoinSpace(Words(name));
    if |flat| <= NAME_CAP then flat else flat[..NAME_CAP] + "\U{2026}"
  }

  function NameOf(c: Check): string {
    OneLine(if c.context != "" then c.context else if c.name != "" then c.name else "check")
  }

  function Upper(s: string): string {
    if s == "" then ""
    else [if 'a' <= s[0] <= 'z' then (s[0] as int - 32) as char else s[0]] + Upper(s[1..])
  }

  const FAILED: set<string> := {"FAILURE", "ERROR", "TIMED_OUT", "STARTUP_FAILURE", "ACTION_REQUIRED"}
  const PENDING: set<string> := {"PENDING", "EXPECTED", "IN_PROGRESS", "QUEUED", "WAITING"}

  function StateOf(c: Check): string {
    Upper(if c.state != "" then c.state else c.conclusion)
  }

  function BucketOf(c: Check): Bucket {
    var state, status := StateOf(c), Upper(c.status);
    if state == "SUCCESS" then Passing
    else if state in FAILED then Failing
    else if state in PENDING || (state == "" && status in PENDING) then Running
    else Other
  }

  /** What a bucket lists the check as. */
  function Label(c: Check): string {
    if BucketOf(c) == Other then
      NameOf(c) + "=" + (if StateOf(c) != "" then StateOf(c) else if c.status != "" then Upper(c.status) else "?")
    else NameOf(c)
  }

  lemma {:induction false} WordsJoinOnOneLine(words: seq<string>)
    requires forall k :: 0 <= k < |words| ==> forall j :: 0 <= j < |words[k]| ==> !IsSpace(words[k][j])
    ensures LF !in JoinSpace(words)
  {
    if |words| > 1 {
      WordsJoinOnOneLine(words[1..]);
      assert LF !in words[0];
    } else if |words| == 1 {
      assert LF !in words[0];
    }
  }

  /** A check's name, which a pull request chooses, reaches the prompt as one line of
      bounded length. */
  lemma {:induction false} NameIsOneLine(c: Check)
    ensures LF !in NameOf(c) && |NameOf(c)| <= NAME_CAP + 1
  {
    WordsJoinOnOneLine(Words(if c.context != "" then c.context else if c.name != "" then c.name else "check"));
  }

  // ----- sorted(set(…)) -----------------------------------------------------------------

  /** Python's order on strings: by code point, a prefix first. */
  predicate Less(a: string, b: string) {
    if b == "" then false
    else if a == "" then true
    else a[0] < b[0] || (a[0] == b[0] && Less(a[1..], b[1..]))
  }

  lemma {:induction false} LessIsTotal(a: string, b: string)
    ensures Less(a, b) || a == b || Less(b, a)
    ensures !(Less(a, b) && Less(b, a)) && !Less(a, a)
  {
    if a != "" && b != "" {
      LessIsTotal(a[1..], b[1..]);
      LessIsTotal(a[1..], a[1..]);
      if a[0] == b[0] && a[1..] == b[1..] {
        assert a == [a[0]] + a[1..] && b == [b[0]] + b[1..];
      }
    } else if a != "" {
      LessIsTotal(a[1..], a[1..]);
    }
  }

  lemma {:induction false} LessIsTransitive(a: string, b: string, c: string)
    requires Less(a, b) && Less(b, c)
    ensures Less(a, c)
  {
    if a != "" && a[0] == b[0] && b[0] == c[0] {
      LessIsTransitive(a[1..], b[1..], c[1..]);
    }
  }

  /** Strictly ascending, so without duplicates. */
  predicate Ascending(s: seq<string>) {
    forall i, j :: 0 <= i < j < |s| ==> Less(s[i], s[j])
  }

  function Elements(s: seq<string>): set<string> {
    set k | 0 <= k < |s| :: s[k]
  }

  function Insert(s: seq<string>, x: string): seq<string> {
    if s == [] || Less(x, s[0]) then [x] + s
    else if x == s[0] then s
    else [s[0]] + Insert(s[1..], x)
  }

  lemma {:induction false} InsertKeeps(s: seq<string>, x: string)
    requires Ascending(s)
    ensures Ascending(Insert(s, x)) && Elements(Insert(s, x)) == Elements(s) + {x}
  {
    var r := Insert(s, x);
    if s == [] {
      ConsElements(x, s);
    } else if Less(x, s[0]) {
      ConsElements(x, s);
      forall j | 0 <= j < |s| ensures Less(x, s[j]) {
        if j > 0 { LessIsTransitive(x, s[0], s[j]); }
      }
      assert r[0] == x && forall k :: 1 <= k < |r| ==> r[k] == s[k - 1];
    } else if x == s[0] {
      assert s[0] in Elements(s);
    } else {
      LessIsTotal(x, s[0]);
      var rest := Insert(s[1..], x);
      assert Ascending(s[1..]);
      InsertKeeps(s[1..], x);
      assert r == [s[0]] + rest;
      forall j | 0 <= j < |rest| ensures Less(s[0], rest[j]) {
        assert rest[j] in Elements(rest);
        if rest[j] != x {
          var k :| 0 <= k < |s[1..]| && s[1..][k] == rest[j];
          assert s[k + 1] == rest[j];
        }
      }
      ConsElements(s[0], rest);
      ConsElements(s[0], s[1..]);
      assert [s[0]] + s[1..] == s;
    }
  }

  lemma ConsElements(x: string, s: seq<string>)
    ensures Elements([x] + s) == {x} + Elements(s)
  {
    var r := [x] + s;
    assert r[0] == x && forall k :: 0 <= k < |s| ==> r[k + 1] == s[k];
  }

  /** `sorted(set(names))`. */
  method SortedSet(names: seq<string>) returns (sorted: seq<string>)
    ensures Ascending(sorted) && Elements(sorted) == Elements(names)
  {
    sorted := [];
    for i := 0 to |names|
      invariant Ascending(sorted) && Elements(sorted) == Elements(names[..i])
    {
      InsertKeeps(sorted, names[i]);
      sorted := Insert(sorted, names[i]);
      assert names[..i + 1] == names[..i] + [names[i]];
      SnocElements(names[..i], names[i]);
    }
    assert names[..|names|] == names;
  }

  /** A set has one ascending listing. */
  lemma {:induction false} AscendingIsUnique(a: seq<string>, b: seq<string>)
    requires Ascending(a) && Ascending(b) && Elements(a) == Elements(b)
    ensures a == b
  {
    assert b != [] ==> b[0] in Elements(b);
    if a != [] {
      assert a[0] in Elements(b);
      var i :| 0 <= i < |b| && b[i] == a[0];
      assert b[0] in Elements(a);
      var j :| 0 <= j < |a| && a[j] == b[0];
      LessIsTotal(a[0], b[0]);
      assert a[0] == b[0];
      ConsElements(a[0], a[1..]);
      ConsElements(b[0], b[1..]);
      assert [a[0]] + a[1..] == a && [b[0]] + b[1..] == b;
      LessIsTotal(a[0], a[0]);
      assert a[0] !in Elements(a[1..]) && a[0] !in Elements(b[1..]);
      assert Elements(a[1..]) == Elements(a) - {a[0]} && Elements(b[1..]) == Elements(b) - {b[0]};
      AscendingIsUnique(a[1..], b[1..]);
    }
  }

  // ----- the summary and its readers ---------------------------------------------------------

  /** The labels of the checks in one bucket, duplicates and all. */
  function Labels(cs: seq<Check>, b: Bucket): seq<string> {
    if cs == [] then []
    else if BucketOf(cs[|cs| - 1]) == b then Labels(cs[..|cs| - 1], b) + [Label(cs[|cs| - 1])]
    else Labels(cs[..|cs| - 1], b)
  }

  ghost predicate Lists(sorted: seq<string>, cs: seq<Check>, b: Bucket) {
    Ascending(sorted) && Elements(sorted) == Elements(Labels(cs, b))
  }

  ghost predicate Summarizes(s: Summary, cs: seq<Check>) {
    Lists(s.passing, cs, Passing) && Lists(s.failing, cs, Failing)
    && Lists(s.running, cs, Running) && Lists(s.other, cs, Other)
  }

  /** `summarize_checks`. */
  method SummarizeChecks(cs: seq<Check>) returns (s: Summary)
    ensures Summarizes(s, cs)
    ensures NamesThose(s.passing, cs, {}, Passing)
    ensures NamesThose(s.failing, cs, {}, Failing)
    ensures NamesThose(s.running, cs, {}, Running)
  {
    var passing, failing, running, other: seq<string> := [], [], [], [];
    for i := 0 to |cs|
      invariant passing == Labels(cs[..i], Passing) && failing == Labels(cs[..i], Failing)
      invariant running == Labels(cs[..i], Running) && other == Labels(cs[..i], Other)
    {
      var c := cs[i];
      assert cs[..i + 1][..i] == cs[..i];
      match BucketOf(c) {
        case Passing => passing := passing + [Label(c)];
        case Failing => failing := failing + [Label(c)];
        case Running => running := running + [Label(c)];
        case Other => other := other + [Label(c)];
      }
    }
    assert cs[..|cs|] == cs;
    var p := SortedSet(passing);
    var f := SortedSet(failing);
    var r := SortedSet(running);
    var o := SortedSet(other);
    s := Summary(p, f, r, o);
    ListedByWord(p, cs, Passing);
    ListedByWord(f, cs, Failing);
    ListedByWord(r, cs, Running);
  }

  /** `[name for name in names if name not in ignore]`. */
  function Kept(names: seq<string>, ignore: set<string>): seq<string> {
    if names == [] then []
    else if names[0] in ignore then Kept(names[1..], ignore)
    else [names[0]] + Kept(names[1..], ignore)
  }

  /** `failing_checks`, on the summary of the checks. */
  function FailingChecks(s: Summary, ignore: set<string>): seq<string> {
    Kept(s.failing, ignore)
  }

  /** `ci_outcome`, on the summary of the checks. */
  function CiOutcome(s: Summary, ignore: set<string>): Outcome {
    if Kept(s.failing, ignore) != [] then Red
    else if Kept(s.running, ignore) != [] || Kept(s.passing, ignore) == [] then Waiting
    else Green
  }

  /** `ci_started`. */
  predicate CiStarted(cs: seq<Check>, ignore: set<string>) {
    exists k :: 0 <= k < |cs| && NameOf(cs[k]) !in ignore
  }

  // ----- ignored checks never matter ------------------------------------------------------------

  /** The checks that are not ignored, as a set: no order, no multiplicity. */
  function Builds(cs: seq<Check>, ignore: set<string>): set<Check> {
    set k | 0 <= k < |cs| && NameOf(cs[k]) !in ignore :: cs[k]
  }

  /** The names one bucket contributes among a set of checks. */
  function NamesIn(builds: set<Check>, b: Bucket): set<string> {
    set c | c in builds && BucketOf(c) == b :: NameOf(c)
  }

  lemma {:induction false} KeptFilters(names: seq<string>, ignore: set<string>)
    requires Ascending(names)
    ensures Ascending(Kept(names, ignore)) && Elements(Kept(names, ignore)) == Elements(names) - ignore
  {
    if names != [] {
      var rest := Kept(names[1..], ignore);
      assert Ascending(names[1..]);
      KeptFilters(names[1..], ignore);
      ConsElements(names[0], names[1..]);
      assert [names[0]] + names[1..] == names;
      if names[0] !in ignore {
        ConsElements(names[0], rest);
        forall j | 0 <= j < |rest| ensures Less(names[0], rest[j]) {
          assert rest[j] in Elements(rest);
          var k :| 0 <= k < |names[1..]| && names[1..][k] == rest[j];
          assert names[k + 1] == rest[j];
        }
      }
    }
  }

  lemma {:induction false} LabelsAre(cs: seq<Check>, b: Bucket)
    ensures Elements(Labels(cs, b)) == LabelSet(cs, b)
  {
    if cs != [] {
      var rest, c := cs[..|cs| - 1], cs[|cs| - 1];
      LabelsAre(rest, b);
      LabelSetAppend(rest, c, b);
      assert cs == rest + [c];
      if BucketOf(c) == b {
        SnocElements(Labels(rest, b), Label(c));
      }
    }
  }

  lemma LabelSetAppend(cs: seq<Check>, c: Check, b: Bucket)
    ensures LabelSet(cs + [c], b) == LabelSet(cs, b) + (if BucketOf(c) == b then {Label(c)} else {})
  {
    var ds := cs + [c];
    assert ds[|cs|] == c && forall k :: 0 <= k < |cs| ==> ds[k] == cs[k];
  }

  lemma SnocElements(s: seq<string>, x: string)
    ensures Elements(s + [x]) == Elements(s) + {x}
  {
    var r := s + [x];
    assert r[|s|] == x && forall k :: 0 <= k < |s| ==> r[k] == s[k];
  }

  function LabelSet(cs: seq<Check>, b: Bucket): set<string> {
    set k | 0 <= k < |cs| && BucketOf(cs[k]) == b :: Label(cs[k])
  }

  /** The names a bucket keeps are those of the checks that are not ignored. */
  lemma {:induction false} KeptAre(sorted: seq<string>, cs: seq<Check>, b: Bucket, ignore: set<string>)
    requires Lists(sorted, cs, b) && b != Other
    ensures Ascending(Kept(sorted, ignore))
    ensures Elements(Kept(sorted, ignore)) == NamesIn(Builds(cs, ignore), b)
  {
    KeptFilters(sorted, ignore);
    LabelsAre(cs, b);
    var names := NamesIn(Builds(cs, ignore), b);
    forall x | x in Elements(sorted) - ignore ensures x in names {
      var k :| 0 <= k < |cs| && BucketOf(cs[k]) == b && Label(cs[k]) == x;
      assert cs[k] in Builds(cs, ignore);
    }
    forall x | x in names ensures x in Elements(sorted) - ignore {
      var c :| c in Builds(cs, ignore) && BucketOf(c) == b && NameOf(c) == x;
      assert Label(c) == x;
    }
  }

  /** Two readings of a commit that agree on the checks that are not ignored, in any
      order and any number, have the same outcome, the same red list and the same answer
      to whether a build was started. */
  lemma {:induction false} OnlyBuildsMatter(cs: seq<Check>, ds: seq<Check>, s: Summary, t: Summary, ignore: set<string>)
    requires Summarizes(s, cs) && Summarizes(t, ds) && Builds(cs, ignore) == Builds(ds, ignore)
    ensures CiOutcome(s, ignore) == CiOutcome(t, ignore)
    ensures FailingChecks(s, ignore) == FailingChecks(t, ignore)
    ensures CiStarted(cs, ignore) == CiStarted(ds, ignore)
  {
    SameKept(s.passing, t.passing, cs, ds, Passing, ignore);
    SameKept(s.failing, t.failing, cs, ds, Failing, ignore);
    SameKept(s.running, t.running, cs, ds, Running, ignore);
    StartedIsBuilds(cs, ignore);
    StartedIsBuilds(ds, ignore);
  }

  lemma {:induction false} SameKept(a: seq<string>, b: seq<string>, cs: seq<Check>, ds: seq<Check>, bucket: Bucket,
                                    ignore: set<string>)
    requires Lists(a, cs, bucket) && Lists(b, ds, bucket) && bucket != Other && Builds(cs, ignore) == Builds(ds, ignore)
    ensures Kept(a, ignore) == Kept(b, ignore)
  {
    KeptAre(a, cs, bucket, ignore);
    KeptAre(b, ds, bucket, ignore);
    AscendingIsUnique(Kept(a, ignore), Kept(b, ignore));
  }

  lemma {:induction false} StartedIsBuilds(cs: seq<Check>, ignore: set<string>)
    ensures CiStarted(cs, ignore) <==> Builds(cs, ignore) != {}
  {
    if CiStarted(cs, ignore) {
      var k :| 0 <= k < |cs| && NameOf(cs[k]) !in ignore;
      assert cs[k] in Builds(cs, ignore);
    }
  }

  function WithoutIgnored(cs: seq<Check>, ignore: set<string>): seq<Check> {
    if cs == [] then []
    else if NameOf(cs[|cs| - 1]) in ignore then WithoutIgnored(cs[..|cs| - 1], ignore)
    else WithoutIgnored(cs[..|cs| - 1], ignore) + [cs[|cs| - 1]]
  }

  lemma {:induction false} BuildsStay(cs: seq<Check>, ignore: set<string>)
    ensures Builds(WithoutIgnored(cs, ignore), ignore) == Builds(cs, ignore)
  {
    if cs != [] {
      var rest, c := cs[..|cs| - 1], cs[|cs| - 1];
      BuildsStay(rest, ignore);
      assert cs == rest + [c];
      BuildsAppend(rest, c, ignore);
      if NameOf(c) !in ignore {
        BuildsAppend(WithoutIgnored(rest, ignore), c, ignore);
      }
    }
  }

  lemma {:induction false} BuildsAppend(cs: seq<Check>, c: Check, ignore: set<string>)
    ensures Builds(cs + [c], ignore) == Builds(cs, ignore) + (if NameOf(c) in ignore then {} else {c})
  {
    var ds := cs + [c];
    assert ds[|cs|] == c && forall k :: 0 <= k < |cs| ==> ds[k] == cs[k];
  }

  /** In particular the ignored checks can be deleted altogether. */
  lemma {:induction false} DeletingIgnored(cs: seq<Check>, s: Summary, t: Summary, ignore: set<string>)
    requires Summarizes(s, cs) && Summarizes(t, WithoutIgnored(cs, ignore))
    ensures CiOutcome(t, ignore) == CiOutcome(s, ignore)
    ensures FailingChecks(t, ignore) == FailingChecks(s, ignore)
    ensures CiStarted(WithoutIgnored(cs, ignore), ignore) == CiStarted(cs, ignore)
  {
    BuildsStay(cs, ignore);
    OnlyBuildsMatter(cs, WithoutIgnored(cs, ignore), s, t, ignore);
  }

  /** The CI watch and gate 6 cannot disagree: red is exactly a non-empty red list, which
      is exactly a failing check that is not ignored; green needs one that passed and
      none failing or running; and either verdict means a build was started. */
  lemma {:induction false} OutcomeMeans(cs: seq<Check>, s: Summary, ignore: set<string>)
    requires Summarizes(s, cs)
    ensures CiOutcome(s, ignore) == Red <==> FailingChecks(s, ignore) != []
    ensures CiOutcome(s, ignore) == Red <==> NamesIn(Builds(cs, ignore), Failing) != {}
    ensures CiOutcome(s, ignore) == Green
       <==> NamesIn(Builds(cs, ignore), Failing) == {} && NamesIn(Builds(cs, ignore), Running) == {}
            && NamesIn(Builds(cs, ignore), Passing) != {}
    ensures CiOutcome(s, ignore) != Waiting ==> CiStarted(cs, ignore)
  {
    KeptAre(s.passing, cs, Passing, ignore);
    KeptAre(s.failing, cs, Failing, ignore);
    KeptAre(s.running, cs, Running, ignore);
    NoElements(Kept(s.passing, ignore));
    NoElements(Kept(s.failing, ignore));
    NoElements(Kept(s.running, ignore));
    StartedIsBuilds(cs, ignore);
  }

  // ----- the words ---------------------------------------------------------------------------------

  /** What a check says: its state, or its conclusion where it has none. */
  predicate SaysFailure(c: Check) {
    Upper(if c.state != "" then c.state else c.conclusion)
    in {"FAILURE", "ERROR", "TIMED_OUT", "STARTUP_FAILURE", "ACTION_REQUIRED"}
  }

  predicate SaysSuccess(c: Check) {
    Upper(if c.state != "" then c.state else c.conclusion) == "SUCCESS"
  }

  /** It says so, or says nothing and its status does. */
  predicate SaysPending(c: Check) {
    Upper(if c.state != "" then c.state else if c.conclusion != "" then c.conclusion else c.status)
    in {"PENDING", "EXPECTED", "IN_PROGRESS", "QUEUED", "WAITING"}
  }

  lemma {:induction false} BucketsByWord(c: Check)
    ensures BucketOf(c) == Passing <==> SaysSuccess(c)
    ensures BucketOf(c) == Failing <==> SaysFailure(c)
    ensures BucketOf(c) == Running <==> SaysPending(c)
  {
    UpperOfNothing(if c.state != "" then c.state else c.conclusion);
  }

  lemma UpperOfNothing(s: string)
    ensures Upper(s) == "" <==> s == ""
  {
  }

  /** This check is of a build and says so. */
  predicate Reports(cs: seq<Check>, k: int, ignore: set<string>, b: Bucket) {
    0 <= k < |cs| && NameOf(cs[k]) !in ignore
    && match b
       case Failing => SaysFailure(cs[k])
       case Passing => SaysSuccess(cs[k])
       case Running => SaysPending(cs[k])
       case Other => !SaysFailure(cs[k]) && !SaysSuccess(cs[k]) && !SaysPending(cs[k])
  }

  /** The names listed are exactly those of such checks. */
  ghost predicate NamesThose(names: seq<string>, cs: seq<Check>, ignore: set<string>, b: Bucket) {
    forall name :: name in Elements(names) <==> exists k :: Reports(cs, k, ignore, b) && NameOf(cs[k]) == name
  }

  /** Letter by letter: only the ASCII small ones change. */
  lemma {:induction false} UpperAt(s: string, k: nat)
    requires k < |s|
    ensures |Upper(s)| == |s|
    ensures if 'a' <= s[k] <= 'z' then Upper(s)[k] as int == s[k] as int - 32 else Upper(s)[k] == s[k]
  {
    if |s| > 1 {
      UpperAt(s[1..], if k > 0 then k - 1 else 0);
    }
  }

  /** A check is called by its context, or by its name where it has none. A name of two words
      and anything blank around and between them is the two words and one blank. */
  lemma {:induction false} NameFrom(c: Check)
    ensures c.context != "" ==> NameOf(c) == OneLine(c.context)
    ensures c.context == "" && c.name != "" ==> NameOf(c) == OneLine(c.name)
    ensures c.context == "" && c.name == "" ==> NameOf(c) == "check"
  {
    if c.context == "" && c.name == "" {
      NoWords("");
      WordIsFirst("check", "");
      assert "check" + "" == "check";
    }
  }

  /** A check that says none of the words is listed with what it does say. */
  lemma {:induction false} ListedWith(c: Check)
    ensures SaysFailure(c) || SaysSuccess(c) || SaysPending(c) ==> Label(c) == NameOf(c)
    ensures !SaysFailure(c) && !SaysSuccess(c) && !SaysPending(c) ==>
              Label(c) == NameOf(c) + "=" + (if c.state != "" then Upper(c.state)
                                             else if c.conclusion != "" then Upper(c.conclusion)
                                             else if c.status != "" then Upper(c.status) else "?")
  {
    BucketsByWord(c);
    UpperOfNothing(if c.state != "" then c.state else c.conclusion);
  }

  lemma {:induction false} TwoWords(pad: string, a: string, gap: string, b: string, end: string)
    requires AllSpace(pad) && AllSpace(gap) && AllSpace(end) && gap != "" && a != "" && b != ""
    requires (forall k :: 0 <= k < |a| ==> !IsSpace(a[k])) && (forall k :: 0 <= k < |b| ==> !IsSpace(b[k]))
    requires |a| + 1 + |b| <= 120
    ensures OneLine(pad + (a + (gap + (b + end)))) == a + " " + b
  {
    WordsOfTwo(pad, a, gap, b, end);
    JoinOfTwo(a, b);
  }

  lemma JoinOfTwo(a: string, b: string)
    ensures JoinSpace([a, b]) == a + " " + b
  {
    assert [a, b][1..] == [b];
  }

  lemma {:induction false} WordsOfTwo(pad: string, a: string, gap: string, b: string, end: string)
    requires AllSpace(pad) && AllSpace(gap) && AllSpace(end) && gap != "" && a != "" && b != ""
    requires (forall k :: 0 <= k < |a| ==> !IsSpace(a[k])) && (forall k :: 0 <= k < |b| ==> !IsSpace(b[k]))
    ensures Words(pad + (a + (gap + (b + end)))) == [a, b]
  {
    NoWords(end);
    WordIsFirst(b, end);
    PadDrops(gap, b + end);
    assert (gap + (b + end))[0] == gap[0];
    WordIsFirst(a, gap + (b + end));
    PadDrops(pad, a + (gap + (b + end)));
  }

  lemma {:induction false} NoWords(pad: string)
    requires AllSpace(pad)
    ensures Words(pad) == []
  {
    if pad != "" {
      NoWords(pad[1..]);
    }
  }

  lemma {:induction false} PadDrops(pad: string, s: string)
    requires AllSpace(pad)
    ensures Words(pad + s) == Words(s)
  {
    if pad == "" {
      assert pad + s == s;
    } else {
      assert (pad + s)[1..] == pad[1..] + s;
      PadDrops(pad[1..], s);
    }
  }

  lemma {:induction false} WordIsFirst(a: string, rest: string)
    requires a != "" && (forall k :: 0 <= k < |a| ==> !IsSpace(a[k])) && (rest == "" || IsSpace(rest[0]))
    ensures Words(a + rest) == [a] + Words(rest)
  {
    WordEnds(a, rest);
    assert (a + rest)[..|a|] == a && (a + rest)[|a|..] == rest;
  }

  lemma {:induction false} WordEnds(a: string, rest: string)
    requires (forall k :: 0 <= k < |a| ==> !IsSpace(a[k])) && (rest == "" || IsSpace(rest[0]))
    ensures WordLength(a + rest) == |a|
  {
    if a == "" {
      assert a + rest == rest;
    } else {
      assert (a + rest)[1..] == a[1..] + rest;
      WordEnds(a[1..], rest);
    }
  }

  lemma {:induction false} NamesReported(cs: seq<Check>, ignore: set<string>, b: Bucket, name: string)
    ensures name in NamesIn(Builds(cs, ignore), b) <==> exists k :: Reports(cs, k, ignore, b) && NameOf(cs[k]) == name
  {
    forall c: Check {
      BucketsByWord(c);
    }
    if name in NamesIn(Builds(cs, ignore), b) {
      var c :| c in Builds(cs, ignore) && BucketOf(c) == b && NameOf(c) == name;
      var k :| 0 <= k < |cs| && NameOf(cs[k]) !in ignore && cs[k] == c;
      assert Reports(cs, k, ignore, b);
    }
    if exists k :: Reports(cs, k, ignore, b) && NameOf(cs[k]) == name {
      var k :| Reports(cs, k, ignore, b) && NameOf(cs[k]) == name;
      assert cs[k] in Builds(cs, ignore) && BucketOf(cs[k]) == b;
    }
  }

  lemma {:induction false} SomeReported(cs: seq<Check>, ignore: set<string>, b: Bucket)
    ensures NamesIn(Builds(cs, ignore), b) != {} <==> exists k :: Reports(cs, k, ignore, b)
  {
    if NamesIn(Builds(cs, ignore), b) != {} {
      var name :| name in NamesIn(Builds(cs, ignore), b);
      NamesReported(cs, ignore, b, name);
    }
    if exists k :: Reports(cs, k, ignore, b) {
      var k :| Reports(cs, k, ignore, b);
      NamesReported(cs, ignore, b, NameOf(cs[k]));
    }
  }

  lemma {:induction false} NothingIgnored(names: seq<string>)
    ensures Kept(names, {}) == names
  {
    if names != [] {
      NothingIgnored(names[1..]);
      assert [names[0]] + names[1..] == names;
    }
  }

  /** Each list names the checks that say so, ignored or not. */
  lemma {:induction false} ListedByWord(names: seq<string>, cs: seq<Check>, b: Bucket)
    requires Lists(names, cs, b) && b != Other
    ensures NamesThose(names, cs, {}, b)
  {
    NothingIgnored(names);
    KeptAre(names, cs, b, {});
    forall name {
      NamesReported(cs, {}, b, name);
    }
  }

  /** Red is a failure word of a check that is not ignored, and nothing else, and gate 6 lists
      exactly the names of those. Green is a success of one, with no failure word among them,
      no pending word, and nobody silent about a pending status. */
  lemma {:induction false} WordsDecide(cs: seq<Check>, s: Summary, ignore: set<string>)
    requires Summarizes(s, cs)
    ensures NamesThose(FailingChecks(s, ignore), cs, ignore, Failing)
    ensures CiOutcome(s, ignore) == Red <==> exists k :: Reports(cs, k, ignore, Failing)
    ensures CiOutcome(s, ignore) == Green
       <==> (exists k :: Reports(cs, k, ignore, Passing))
            && forall k :: !Reports(cs, k, ignore, Failing) && !Reports(cs, k, ignore, Running)
  {
    KeptAre(s.failing, cs, Failing, ignore);
    forall name {
      NamesReported(cs, ignore, Failing, name);
    }
    OutcomeMeans(cs, s, ignore);
    SomeReported(cs, ignore, Failing);
    SomeReported(cs, ignore, Passing);
    SomeReported(cs, ignore, Running);
  }

  lemma NoElements(s: seq<string>)
    ensures s == [] <==> Elements(s) == {}
  {
    assert s != [] ==> s[0] in Elements(s);
  }
}

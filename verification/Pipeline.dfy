/** The per-PR pipeline as the imperative code it is, proved to do what the machine's task
    does when nothing else moves. */
module Pipeline {
  import opened Options
  import opened Store
  import opened Lifecycle
  import G = Gates

  // ----- one task alone ----------------------------------------------------------------------

  /** How a container came back. */
  datatype Run =
    | Broke(cost: Option<real>, onEndpoint: bool, model: Option<string>, error: Option<string>)
    | NoBlocks
    | Back(r: Result)

  /** The answers the world has ready for one task: what the gates read, the clock, the
      slot, the container, and GitHub's reply to every call. */
  datatype World = World(f: G.Facts, now: int, slot: bool, run: Run, clearOk: bool, dismissOk: bool, ciAlready: bool,
                         ciRed: Reply, runCi: Reply, review: Reply, approved: Reply, approvedRed: Reply, build: Build)

  function ReplyTo(w: World, e: Errand): Reply {
    match e
    case CiRedErrand => w.ciRed
    case RunCiErrand(_) => w.runCi
    case ReviewErrand(_) => w.review
    case ApprovedErrand => w.approved
    case ApprovedRedErrand => w.approvedRed
  }

  /** In a real run only a review with an empty body comes back unsent. */
  predicate Honest(u: Setup, w: World) {
    Quiet(u.mode) || (w.ciRed != Declined && w.runCi != Declined && w.approved != Declined && w.approvedRed != Declined)
  }

  function NextMove(pc: Pc, w: World): Lifecycle.Move
    requires !pc.Over?
  {
    match pc
    case Looking(_) => Looks
    case Evaluating(_) => Evaluates(w.f)
    case Telling(_, _) => TellsHold
    case Recording(_, _) => RecordsHold(w.now)
    case Asking(_) => if w.slot then Starts(w.now) else IsRefused
    case InContainer(_) =>
      (match w.run
       case Broke(cost, onEndpoint, model, _) => RunFails(cost, onEndpoint, model)
       case NoBlocks => ReturnsNoBlocks
       case Back(r) => RunReturns(r))
    case Failing(_, _) => MarksFailed(if w.run.Broke? then w.run.error else None)
    case Clearing(_, _) => Clears(w.clearOk)
    case Retracting(_, _) => Retracts(w.dismissOk)
    case Requesting(_, _) => ReadsCi(w.ciAlready)
    case Approving(_, _) => Approves
    case Once(_, e, stage) =>
      if stage == Checking then Checks else if stage == InFlight then Replies(ReplyTo(w, e)) else Records
    case Inlining(_, _, _) => Inlines
    case Building(_) => Builds(w.build)
    case Settling(_, _) => Settles
  }

  lemma {:induction false} NextMoveFits(u: Setup, pc: Pc, w: World)
    requires !pc.Over? && Honest(u, w)
    ensures Fits(u, pc, NextMove(pc, w))
  {
  }

  function StageRank(s: Stage): nat {
    match s
    case Checking => 3
    case InFlight => 2
    case Arrived(_) => 1
  }

  /** How far a place is from the end. */
  function Rank(pc: Pc): nat {
    match pc
    case Looking(_) => 18
    case Evaluating(_) => 17
    case Telling(_, _) => 2
    case Recording(_, _) => 1
    case Asking(_) => 15
    case InContainer(_) => 14
    case Failing(_, _) => 1
    case Clearing(_, _) => 12
    case Retracting(_, _) => 11
    case Requesting(_, _) => 10
    case Approving(_, _) => 5
    case Once(_, e, stage) => StageRank(stage) + (if e.RunCiErrand? then 5 else 1)
    case Inlining(_, _, _) => 1
    case Building(_) => 5
    case Settling(_, _) => 1
    case Over(_, _) => 0
  }

  lemma {:induction false} StepsDown(u: Setup, t: Tables, pc: Pc, w: World)
    requires !pc.Over? && Fits(u, pc, NextMove(pc, w))
    ensures Rank(Go(u, t, pc, NextMove(pc, w)).pc) < Rank(pc)
  {
  }

  /** What a task leaves: the tables, the posts GitHub took, and its outcome. */
  datatype End = End(t: Tables, github: seq<Notice>, action: G.Action)

  function Taken(github: seq<Notice>, pc: Pc, o: Out): seq<Notice> {
    if o.reached && pc.Once? then github + [ErrandKey(pc.k, pc.errand)] else github
  }

  /** The machine's task, driven to its end by the world's answers. */
  function Drive(u: Setup, t: Tables, github: seq<Notice>, pc: Pc, w: World): End
    requires Honest(u, w)
    decreases Rank(pc)
  {
    if pc.Over? then End(t, github, pc.action)
    else
      NextMoveFits(u, pc, w);
      StepsDown(u, t, pc, w);
      var o := Go(u, t, pc, NextMove(pc, w));
      Drive(u, Apply(t, o.write), Taken(github, pc, o), o.pc, w)
  }

  lemma {:induction false} DriveOne(u: Setup, t: Tables, github: seq<Notice>, pc: Pc, w: World)
    requires Honest(u, w) && !pc.Over?
    ensures Fits(u, pc, NextMove(pc, w))
    ensures
      var o := Go(u, t, pc, NextMove(pc, w));
      Drive(u, t, github, pc, w) == Drive(u, Apply(t, o.write), Taken(github, pc, o), o.pc, w)
  {
    NextMoveFits(u, pc, w);
  }

  /** `once_per` in one piece. */
  lemma {:induction false} DriveOnce(u: Setup, t: Tables, github: seq<Notice>, k: Key, e: Errand, w: World)
    requires Honest(u, w)
    ensures
      var n, reply := ErrandKey(k, e), ReplyTo(w, e);
      var start := Drive(u, t, github, Once(k, e, Checking), w);
      if !Quiet(u.mode) && n in t.notices then start == Drive(u, t, github, AfterErrand(k, e, AlreadyOut), w)
      else if reply.Reached? && !Quiet(u.mode) then
        start == Drive(u, Notice1(t, n), github + [n], AfterErrand(k, e, WasPosted(reply.inlined)), w)
      else if reply == AnswerLost && !Quiet(u.mode) then
        start == Drive(u, t, github + [n], AfterErrand(k, e, GaveUp), w)
      else if reply == Refused || reply == AnswerLost then start == Drive(u, t, github, AfterErrand(k, e, GaveUp), w)
      else start == Drive(u, t, github, AfterErrand(k, e, NotPosted), w)
  {
    var n, reply := ErrandKey(k, e), ReplyTo(w, e);
    DriveOne(u, t, github, Once(k, e, Checking), w);
    if Quiet(u.mode) || n !in t.notices {
      DriveOne(u, t, github, Once(k, e, InFlight), w);
      if reply.Reached? && !Quiet(u.mode) {
        DriveOne(u, t, github + [n], Once(k, e, Arrived(reply.inlined)), w);
      }
    }
  }

  // ----- one turn ----------------------------------------------------------------------------

  /** Which of the gates' reads GitHub fails: the PR, its last request, our threads, none. */
  datatype Reach = NoMeta | NoRequest | NoThreads | AllRead

  /** A PR a person took is settled, by whatever run may write. */
  predicate TakenOver(u: Setup, f: G.Facts, reach: Reach) {
    && reach != NoMeta && u.mode != DryRun && G.Carries(f.labels, u.rules.taken)
    && u.rules.needsWork !in f.labels && !G.Carries(f.labels, u.rules.hold)
  }

  /** Nothing stops the PR before the machine's task: every read worked and no label is on. */
  predicate Enters(u: Setup, f: G.Facts, reach: Reach) {
    reach == AllRead && Unheld(u, f)
  }

  /** It carries none of the labels that keep robbie away. */
  predicate Unheld(u: Setup, f: G.Facts) {
    forall name <- f.labels :: name != u.rules.needsWork && name !in u.rules.hold && name !in u.rules.taken
  }

  /** No row of this PR at this commit, whatever its request, is a pass or a hold. */
  predicate NewCommit(t: Tables, k: Key) {
    forall j <- t.reviews ::
      j.repo == k.repo && j.pr == k.pr && j.head == k.head ==>
        t.reviews[j].state != Published && t.reviews[j].state != Held
  }

  /** A turn, said by the machine's own parts: nothing, the done label's settlement, or its
      task from the key on. */
  function Turn(u: Setup, t: Tables, github: seq<Notice>, k: Key, reach: Reach, w: World): End
    requires Honest(u, w)
  {
    if Enters(u, w.f, reach) then Drive(u, t, github, Looking(k), w)
    else if TakenOver(u, w.f, reach) then End(SettleDone(t, k.repo, k.pr), github, G.Skip)
    else if reach != NoMeta && (u.rules.needsWork in w.f.labels || G.Carries(w.f.labels, u.rules.hold)) then
      End(t, github, G.Hold)
    else End(t, github, G.Skip)
  }

  /** A label hold is silent and leaves no row. */
  lemma {:induction false} LabelHoldLeavesNothing(u: Setup, t: Tables, github: seq<Notice>, k: Key, w: World)
    requires Honest(u, w) && G.LabelHold(w.f.labels, u.rules) != []
    ensures
      var d := G.LabelHold(w.f.labels, u.rules)[0];
      Drive(u, t, github, Evaluated(u, k, d), w) == End(t, github, G.Hold)
  {
    var d := G.LabelHold(w.f.labels, u.rules)[0];
    DriveOne(u, t, github, Telling(k, d), w);
  }

  /** From the key on: the row is read, then the rest of the gates. */
  lemma {:induction false} TaskStarts(u: Setup, t: Tables, github: seq<Notice>, k: Key, w: World)
    requires Honest(u, w)
    ensures
      var d := G.Evaluate(w.f, u.rules, ShaJudged(t, k.repo, k.pr, k.head));
      Drive(u, t, github, Looking(k), w)
      == if KeyJudged(t, k) then End(t, github, G.Skip) else Drive(u, t, github, Evaluated(u, k, d), w)
  {
    DriveOne(u, t, github, Looking(k), w);
    if !KeyJudged(t, k) {
      DriveOne(u, t, github, Evaluating(k), w);
    }
  }

  lemma {:induction false} UnheldIff(u: Setup, f: G.Facts)
    ensures Unheld(u, f) <==> G.LabelHold(f.labels, u.rules) == [] && G.DoneLabel(f.labels, u.rules) == []
  {
    G.LabelHoldIff(f.labels, u.rules);
    G.DoneLabelIff(f.labels, u.rules);
  }

  /** What the done label settles: every row of that PR, whatever it was, in a run that may
      write, when no label holds the PR; everything else stays. */
  lemma {:induction false} TakenTurn(u: Setup, t: Tables, github: seq<Notice>, k: Key, reach: Reach, w: World)
    requires Honest(u, w) && G.Carries(w.f.labels, u.rules.taken)
    ensures
      var x := Turn(u, t, github, k, reach, w);
      && x.github == github && SameButRows(t, x.t)
      && forall j <- t.reviews ::
           x.t.reviews[j] == if && j.repo == k.repo && j.pr == k.pr && reach != NoMeta && u.mode != DryRun
                                && u.rules.needsWork !in w.f.labels && !G.Carries(w.f.labels, u.rules.hold)
                             then t.reviews[j].(ci := Some(Done)) else t.reviews[j]
  {
    DoneRows(t, k.repo, k.pr);
    assert !Enters(u, w.f, reach);
  }

  /** A turn that stops before the row is read leaves everything: a brake label holds it, as
      soon as its labels are known, and a failed read skips it. */
  lemma {:induction false} StoppedTurn(u: Setup, t: Tables, github: seq<Notice>, k: Key, reach: Reach, w: World)
    requires Honest(u, w)
    ensures reach == NoMeta ==> Turn(u, t, github, k, reach, w) == End(t, github, G.Skip)
    ensures reach != NoMeta && (u.rules.needsWork in w.f.labels || G.Carries(w.f.labels, u.rules.hold)) ==>
              Turn(u, t, github, k, reach, w) == End(t, github, G.Hold)
    ensures reach != AllRead && Unheld(u, w.f) ==> Turn(u, t, github, k, reach, w) == End(t, github, G.Skip)
  {
    assert u.rules.needsWork in w.f.labels ==> !Unheld(u, w.f);
    assert G.Carries(w.f.labels, u.rules.hold) ==> !Unheld(u, w.f);
    assert Unheld(u, w.f) ==> !G.Carries(w.f.labels, u.rules.taken);
  }

  /** A task that gets past the gates is a commit nothing judged, on a PR nothing holds. */
  lemma {:induction false} EntersToReview(u: Setup, t: Tables, k: Key, f: G.Facts, reach: Reach)
    ensures
      Enters(u, f, reach) && !KeyJudged(t, k)
        && G.Evaluate(f, u.rules, ShaJudged(t, k.repo, k.pr, k.head)).action == G.Review
      <==> reach == AllRead && Unheld(u, f) && f.changedFiles > 0 && f.openThreads == 0 && f.red == []
           && NewCommit(t, k)
  {
    G.ReviewIff(f, u.rules, ShaJudged(t, k.repo, k.pr, k.head));
    UnheldIff(u, f);
    assert KeyJudged(t, k) ==> ShaJudged(t, k.repo, k.pr, k.head);
  }

  // ----- the code -----------------------------------------------------------------------------

  class Orchestrator {
    const u: Setup
    const db: Db
    var github: seq<Notice>

    constructor (u: Setup, db: Db)
      ensures this.u == u && this.db == db && github == []
    {
      this.u, this.db := u, db;
      github := [];
    }

    /** What is left of a task that stands at `pc`. */
    ghost function Rest(pc: Pc, w: World): End
      requires Honest(u, w)
      reads this, db
    {
      Drive(u, db.View(), github, pc, w)
    }

    /** Check, post, record: the key is read and spent only by a real run, and only a post
        that GitHub took spends it. */
    method OncePer(k: Key, e: Errand, ghost w: World, reply: Reply) returns (end: Ending)
      requires Honest(u, w) && reply == ReplyTo(w, e)
      modifies this`github, db
      ensures old(Rest(Once(k, e, Checking), w)) == Rest(AfterErrand(k, e, end), w)
      ensures end == AlreadyOut <==> u.mode == Real && ErrandKey(k, e) in old(db.notices)
      ensures db.View() == old(db.View()).(notices := db.notices)
      ensures db.notices == if end.WasPosted? then old(db.notices) + {ErrandKey(k, e)} else old(db.notices)
    {
      DriveOnce(u, db.View(), github, k, e, w);
      if !Quiet(u.mode) && ErrandKey(k, e) in db.notices {
        return AlreadyOut;
      }
      match reply {
        case Refused => end := GaveUp;
        case Declined => end := NotPosted;
        case Reached(n) =>
          if Quiet(u.mode) {
            end := NotPosted;
          } else {
            github := github + [ErrandKey(k, e)];
            var first := db.NoticeOnce(ErrandKey(k, e));
            end := WasPosted(n);
          }
        case AnswerLost =>
          if !Quiet(u.mode) {
            github := github + [ErrandKey(k, e)];
          }
          end := GaveUp;
      }
    }

    /** The gates in the order of what they cost: gate 3 and the done label on what the first
        read brought, then the key's row, then the rest. `reach` says which read of GitHub
        fails. Acting on the decision from here leaves what the turn leaves, and it is a
        review exactly when every read worked, no label keeps robbie away, and the PR changes
        something, owes us no answer, is not red and brings a commit nothing judged. */
    method Gate(k: Key, f: G.Facts, reach: Reach, ghost w: World) returns (d: Option<G.Decision>)
      requires Honest(u, w) && w.f == f
      modifies db
      ensures
        Turn(u, old(db.View()), github, k, reach, w)
        == if d.None? then End(db.View(), github, G.Skip) else Rest(Evaluated(u, k, d.value), w)
      ensures d.Some? && d.value.action == G.Review
        <==> reach == AllRead && Unheld(u, f) && f.changedFiles > 0 && f.openThreads == 0 && f.red == []
             && NewCommit(old(db.View()), k)
      ensures SameButRows(old(db.View()), db.View())
      ensures forall j <- db.reviews ::
        db.reviews[j] == if && j.repo == k.repo && j.pr == k.pr && reach != NoMeta && u.mode != DryRun
                            && G.Carries(f.labels, u.rules.taken)
                            && u.rules.needsWork !in f.labels && !G.Carries(f.labels, u.rules.hold)
                         then old(db.reviews)[j].(ci := Some(Done)) else old(db.reviews)[j]
    {
      EntersToReview(u, db.View(), k, f, reach);
      G.LabelHoldIff(f.labels, u.rules);
      G.DoneLabelIff(f.labels, u.rules);
      UnheldIff(u, f);
      if reach == NoMeta {
        return None;
      }
      var held := G.LabelHold(f.labels, u.rules);
      if held != [] {
        LabelHoldLeavesNothing(u, db.View(), github, k, w);
        return Some(held[0]);
      }
      var done := G.DoneLabel(f.labels, u.rules);
      if done != [] {
        if u.mode != DryRun {
          db.SettleTaken(k.repo, k.pr);
        }
        return Some(G.Decision(G.Skip, false, false, done[0] + " - a human has it"));
      }
      if reach == NoRequest {
        return None;
      }
      TaskStarts(u, db.View(), github, k, w);
      if k in db.reviews && (db.reviews[k].state == Published || db.reviews[k].state == Held) {
        return Some(G.Decision(G.Skip, false, false, "already judged at this commit and request"));
      }
      if reach == NoThreads {
        return None;
      }
      return Some(G.Evaluate(f, u.rules, ShaJudged(db.View(), k.repo, k.pr, k.head)));
    }

    /** The whole of one PR's turn; a read that fails ends it as a skip. */
    method Handle(k: Key, reach: Reach, w: World) returns (action: G.Action)
      requires Honest(u, w)
      modifies this`github, db
      ensures Turn(u, old(db.View()), old(github), k, reach, w) == End(db.View(), github, action)
    {
      var d := Gate(k, w.f, reach, w);
      if d.None? {
        return G.Skip;
      }
      action := Act(k, d.value, w);
    }

    method Act(k: Key, d: G.Decision, w: World) returns (action: G.Action)
      requires Honest(u, w)
      modifies this`github, db
      ensures old(Rest(Evaluated(u, k, d), w)) == End(db.View(), github, action)
    {
      match d.action {
        case Hold =>
          action := HoldBack(k, d, w);
        case CiNote =>
          var end := OncePer(k, CiRedErrand, w, w.ciRed);
          action := if end == GaveUp then G.Skip else G.CiNote;
        case Review =>
          action := Review(k, w);
        case _ => action := d.action;
      }
    }

    method HoldBack(k: Key, d: G.Decision, w: World) returns (action: G.Action)
      requires Honest(u, w)
      modifies db
      ensures old(Rest(Telling(k, d), w)) == End(db.View(), github, action)
    {
      DriveOne(u, db.View(), github, Telling(k, d), w);
      if d.dm && !Quiet(u.mode) {
        var first := db.NoticeOnce(HoldNote(k));
      }
      if d.record && !Quiet(u.mode) {
        DriveOne(u, db.View(), github, Recording(k, d), w);
        db.RecordHoldRow(k, d.reason, w.now);
      }
      return G.Hold;
    }

    method Review(k: Key, w: World) returns (action: G.Action)
      requires Honest(u, w)
      modifies this`github, db
      ensures old(Rest(if u.mode == DryRun then Over(k, G.Review) else Asking(k), w)) == End(db.View(), github, action)
    {
      if u.mode == DryRun {
        return G.Review;
      }
      DriveOne(u, db.View(), github, Asking(k), w);
      if !w.slot {
        return G.Budget;
      }
      db.StartReviewRow(k, w.now);
      action := Contain(k, w);
    }

    /** The container ran; what it comes to. */
    method Contain(k: Key, w: World) returns (action: G.Action)
      requires Honest(u, w)
      modifies this`github, db
      ensures old(Rest(InContainer(k), w)) == End(db.View(), github, action)
    {
      DriveOne(u, db.View(), github, InContainer(k), w);
      match w.run {
        case NoBlocks => action := G.Failed;
        case Back(r) => action := Deliver(k, r, w);
        case Broke(cost, onEndpoint, model, error) =>
          db.Spend(Spent(k.repo, k.pr, "failed", if onEndpoint then None else cost));
          action := MarkFailed(k, model, error, w);
      }
    }

    method MarkFailed(k: Key, model: Option<string>, error: Option<string>, ghost w: World)
      returns (action: G.Action)
      requires Honest(u, w) && w.run.Broke? && error == w.run.error
      modifies db
      ensures old(Rest(Failing(k, model), w)) == End(db.View(), github, action)
    {
      DriveOne(u, db.View(), github, Failing(k, model), w);
      db.FinishReviewRow(k, RowState.Failed, Columns(None, error, None, model, None, None));
      return G.Failed;
    }

    /** A finished run: held if it is unusable, otherwise recorded and posted. */
    method Deliver(k: Key, r: Result, w: World) returns (action: G.Action)
      requires Honest(u, w)
      modifies this`github, db
      ensures
        var o := Returned(u, k, r);
        Drive(u, Apply(old(db.View()), o.write), old(github), o.pc, w) == End(db.View(), github, action)
    {
      if r.verdict.None? || (r.verdict.value != Approve && !r.body) {
        var why := if r.verdict.None? then "run gave no verdict" else "verdict without a summary body";
        db.FinishReviewRow(k, PassState(u.mode, Held), Common(u.mode, r, Some(why), None, None));
        return G.Failed;
      }
      if r.verdict.value == Approve {
        action := DeliverOk(k, r, w);
        return;
      }
      db.FinishReviewRow(k, PassState(u.mode, Published), Common(u.mode, r, None, None, None));
      var end := OncePer(k, ReviewErrand(r), w, w.review);
      match end {
        case GaveUp => action := G.Failed;
        case AlreadyOut => action := G.Review;
        case NotPosted => action := G.Review;
        case WasPosted(n) =>
          DriveOne(u, db.View(), github, Inlining(k, r, n), w);
          db.FinishReviewRow(k, PassState(u.mode, Published), Common(u.mode, r, None, Some(n), None));
          action := G.Review;
      }
    }

    /** An ok: the label and our old rejection come off, a build is asked for, and only then
        is the pass recorded and told. A label GitHub would not take off ends it unrecorded. */
    method DeliverOk(k: Key, r: Result, w: World) returns (action: G.Action)
      requires Honest(u, w)
      modifies this`github, db
      ensures old(Rest(Clearing(k, r), w)) == End(db.View(), github, action)
    {
      DriveOne(u, db.View(), github, Clearing(k, r), w);
      if !w.clearOk {
        return G.Skip;
      }
      Retract(k, r, w);
      RequestCi(k, r, w);
      action := RecordApproval(k, r, w);
    }

    /** Best effort: a rejection GitHub would not dismiss is told once and stops nothing. */
    method Retract(k: Key, r: Result, w: World)
      requires Honest(u, w)
      modifies db
      ensures old(Rest(Retracting(k, r), w)) == Rest(Requesting(k, r), w)
    {
      DriveOne(u, db.View(), github, Retracting(k, r), w);
      if !w.dismissOk && !Quiet(u.mode) {
        var first := db.NoticeOnce(DismissFailed(k.repo, k.pr));
      }
    }

    method RecordApproval(k: Key, r: Result, w: World) returns (action: G.Action)
      requires Honest(u, w)
      modifies this`github, db
      ensures old(Rest(Approving(k, r), w)) == End(db.View(), github, action)
    {
      DriveOne(u, db.View(), github, Approving(k, r), w);
      var ci := if u.mode == NoPublish then None else Some(Waiting);
      db.FinishReviewRow(k, PassState(u.mode, Published), Common(u.mode, r, None, Some(0), ci));
      var end := OncePer(k, ApprovedErrand, w, w.approved);
      return G.Review;
    }

    /** A build for an approved commit, at most once per commit, unless one already runs. */
    method RequestCi(k: Key, r: Result, w: World)
      requires Honest(u, w)
      modifies this`github, db
      ensures old(Rest(Requesting(k, r), w)) == Rest(Approving(k, r), w)
      ensures w.ciAlready ==> github == old(github) && db.View() == old(db.View())
    {
      DriveOne(u, db.View(), github, Requesting(k, r), w);
      if !w.ciAlready {
        var end := OncePer(k, RunCiErrand(r), w, w.runCi);
      }
    }

    /** Cold start: the backlog is held, not reviewed. A PR that cannot be read leaves the
        repo unseeded, and a dry run only looks. `keys` are the PRs' keys as they are read. */
    method Seed(repo: Repo, keys: seq<Option<Key>>, now: int) returns (seeded: bool)
      modifies db
      ensures seeded <==> u.mode != DryRun && Readable(keys) == |keys|
      ensures
        var held := SeedRows(old(db.View()), keys[..Readable(keys)], now);
        db.View() == if u.mode == DryRun then old(db.View()) else if seeded then MarkSeeded(held, repo) else held
      ensures db.seeded == old(db.seeded) + (if seeded then {repo} else {})
    {
      for i := 0 to |keys|
        invariant Readable(keys) >= i && db.seeded == old(db.seeded)
        invariant db.View() == if u.mode == DryRun then old(db.View()) else SeedRows(old(db.View()), keys[..i], now)
      {
        if keys[i].None? {
          ReadableStops(keys, i);
          return false;
        }
        ReadableGoesOn(keys, i);
        assert keys[..i + 1][..i] == keys[..i];
        if u.mode != DryRun {
          db.RecordHoldRow(keys[i].value, "backlog at cold start", now);
        }
      }
      if u.mode == DryRun {
        return false;
      }
      db.Seed(repo);
      return true;
    }

    /** One approval's build: settled when it is known, a red one only after its note. */
    method WatchOne(k: Key, w: World) returns (action: G.Action)
      requires Honest(u, w)
      modifies this`github, db
      ensures old(Rest(Building(k), w)) == End(db.View(), github, action)
    {
      DriveOne(u, db.View(), github, Building(k), w);
      var ci: CiState;
      match w.build {
        case Unreadable => return G.Skip;
        case Pending => return G.Skip;
        case Closed => ci := Gone;
        case Moved => ci := Stale;
        case BuildGreen => ci := Green;
        case BuildRed =>
          var end := OncePer(k, ApprovedRedErrand, w, w.approvedRed);
          if end == GaveUp {
            return G.Skip;
          }
          ci := Red;
      }
      Settle(k, ci, w);
      return G.Ready;
    }

    /** A quiet pass decides but does not settle. */
    method Settle(k: Key, ci: CiState, ghost w: World)
      requires Honest(u, w)
      modifies db
      ensures old(Rest(Settling(k, ci), w)) == End(db.View(), github, G.Ready)
    {
      DriveOne(u, db.View(), github, Settling(k, ci), w);
      if !Quiet(u.mode) {
        db.SetCi(k, ci);
      }
    }
  }

  // ----- cold start --------------------------------------------------------------------------------

  /** How many PRs were read before one could not be. */
  function Readable(keys: seq<Option<Key>>): (n: nat)
    ensures n <= |keys| && forall i :: 0 <= i < n ==> keys[i].Some?
  {
    if keys == [] || keys[0].None? then 0 else 1 + Readable(keys[1..])
  }

  lemma {:induction false} ReadableStops(keys: seq<Option<Key>>, i: nat)
    requires i < |keys| && keys[i].None? && Readable(keys) >= i
    ensures Readable(keys) == i
  {
  }

  lemma {:induction false} ReadableGoesOn(keys: seq<Option<Key>>, i: nat)
    requires i < |keys| && keys[i].Some? && Readable(keys) >= i
    ensures Readable(keys) >= i + 1
  {
    if i > 0 {
      ReadableGoesOn(keys[1..], i - 1);
    }
  }

  function SeedRows(t: Tables, keys: seq<Option<Key>>, now: int): Tables
    requires forall k <- keys :: k.Some?
  {
    if keys == [] then t
    else RecordHold(SeedRows(t, keys[..|keys| - 1], now), keys[|keys| - 1].value, "backlog at cold start", now)
  }

  /** Every other row and every other table stays. */
  lemma {:induction false} SeedingKeepsTheRest(t: Tables, keys: seq<Option<Key>>, now: int)
    requires forall k <- keys :: k.Some?
    ensures
      var n := SeedRows(t, keys, now);
      n == t.(reviews := n.reviews, nextId := n.nextId)
      && forall k <- t.reviews :: Some(k) !in keys ==> k in n.reviews && n.reviews[k] == t.reviews[k]
  {
    if keys != [] {
      var pre, last := keys[..|keys| - 1], keys[|keys| - 1];
      SeedingKeepsTheRest(t, pre, now);
      assert keys == pre + [last] && last in keys;
      forall k | Some(k) !in keys ensures Some(k) !in pre && k != last.value {
        assert last == Some(last.value);
      }
    }
  }

  /** A seeded backlog is judged, every key of it, and nothing that was judged before is
      forgotten: enabling robbie reviews none of it. */
  lemma {:induction false} SeedingHoldsTheBacklog(t: Tables, keys: seq<Option<Key>>, now: int)
    requires forall k <- keys :: k.Some?
    ensures Judged(SeedRows(t, keys, now)) == Judged(t) + (set k | k in keys :: k.value)
  {
    if keys != [] {
      var pre, last := keys[..|keys| - 1], keys[|keys| - 1];
      SeedingHoldsTheBacklog(t, pre, now);
      assert keys == pre + [last];
      var n := SeedRows(t, pre, now);
      assert Judged(RecordHold(n, last.value, "backlog at cold start", now)) == Judged(n) + {last.value};
      assert (set k | k in keys :: k.value) == (set k | k in pre :: k.value) + {last.value};
    }
  }

  // ----- the pipeline is a run of the machine -----------------------------------------------------

  /** The events of a task left alone. */
  function DriveEvents(u: Setup, t: Tables, id: Id, pc: Pc, w: World): seq<Event>
    requires Honest(u, w)
    decreases Rank(pc)
  {
    if pc.Over? then []
    else
      NextMoveFits(u, pc, w);
      StepsDown(u, t, pc, w);
      var o := Go(u, t, pc, NextMove(pc, w));
      [Moves(id, NextMove(pc, w))] + DriveEvents(u, Apply(t, o.write), id, o.pc, w)
  }

  /** The machine logs what the pipeline's GitHub takes. */
  predicate Logged(m: Machine, github: seq<Notice>, n: Machine, took: seq<Notice>) {
    n.log + multiset(github) == m.log + multiset(took)
  }

  lemma {:induction false} LogsTaken(u: Setup, m: Machine, github: seq<Notice>, id: Id, mv: Move)
    requires id in m.tasks && Fits(u, m.tasks[id], mv)
    ensures Logged(m, github, Next(u, m, Moves(id, mv)), Taken(github, m.tasks[id], Go(u, m.t, m.tasks[id], mv)))
  {
  }

  lemma {:induction false} LoggedOn(m: Machine, a: seq<Notice>, n: Machine, b: seq<Notice>, o: Machine, c: seq<Notice>)
    requires Logged(m, a, n, b) && Logged(n, b, o, c)
    ensures Logged(m, a, o, c)
  {
    forall x ensures (o.log + multiset(a))[x] == (m.log + multiset(c))[x] {
      assert (n.log + multiset(a))[x] == (m.log + multiset(b))[x];
      assert (o.log + multiset(b))[x] == (n.log + multiset(c))[x];
    }
  }

  /** Whatever the pipeline leaves, the machine's task leaves too: what holds for every run
      of the machine holds for the code. */
  lemma {:induction false} DriveIsARun(u: Setup, m: Machine, github: seq<Notice>, id: Id, w: World)
    requires Honest(u, w) && id in m.tasks
    ensures
      var es := DriveEvents(u, m.t, id, m.tasks[id], w);
      Runs(u, m, es)
      && var n, end := After(u, m, es), Drive(u, m.t, github, m.tasks[id], w);
         && n.t == end.t && id in n.tasks && n.tasks[id].Over? && n.tasks[id].action == end.action
         && Logged(m, github, n, end.github)
    decreases Rank(m.tasks[id])
  {
    var pc := m.tasks[id];
    if !pc.Over? {
      DriveOne(u, m.t, github, pc, w);
      StepsDown(u, m.t, pc, w);
      var mv := NextMove(pc, w);
      var next, took := Next(u, m, Moves(id, mv)), Taken(github, pc, Go(u, m.t, pc, mv));
      DriveIsARun(u, next, took, id, w);
      LogsTaken(u, m, github, id, mv);
      var es := DriveEvents(u, next.t, id, next.tasks[id], w);
      OneStep(u, m, Moves(id, mv), es);
      LoggedOn(m, github, next, took, After(u, next, es), Drive(u, next.t, took, next.tasks[id], w).github);
    }
  }

  /** A task left alone stays in its tick and brings no other. */
  lemma {:induction false} DriveStaysIn(u: Setup, m: Machine, id: Id, w: World)
    requires Honest(u, w) && id in m.tasks && Runs(u, m, DriveEvents(u, m.t, id, m.tasks[id], w))
    ensures
      var n := After(u, m, DriveEvents(u, m.t, id, m.tasks[id], w));
      n.phase == m.phase && n.since == m.since && n.tasks.Keys == m.tasks.Keys
    decreases Rank(m.tasks[id])
  {
    var pc := m.tasks[id];
    if !pc.Over? {
      NextMoveFits(u, pc, w);
      StepsDown(u, m.t, pc, w);
      var e := Moves(id, NextMove(pc, w));
      var next := Next(u, m, e);
      assert DriveEvents(u, m.t, id, pc, w)[0] == e;
      assert DriveEvents(u, m.t, id, pc, w)[1..] == DriveEvents(u, next.t, id, next.tasks[id], w);
      DriveStaysIn(u, next, id, w);
    }
  }

  /** The events of a whole turn. */
  function TurnEvents(u: Setup, t: Tables, k: Key, reach: Reach, w: World): seq<Event>
    requires Honest(u, w)
  {
    if Enters(u, w.f, reach) then [Arrives(k)] + DriveEvents(u, t, ForPr(k.repo, k.pr), Looking(k), w)
    else if TakenOver(u, w.f, reach) then [Housekeeping(TakeDone(k.repo, k.pr))]
    else []
  }

  /** In a queue phase, the turn of a PR that has not come up yet is a run of the machine: it
      ends with the tables and the posts the code leaves. */
  lemma {:induction false} TurnIsARun(u: Setup, m: Machine, github: seq<Notice>, k: Key, reach: Reach, w: World)
    requires Honest(u, w) && m.phase == Queueing && ForPr(k.repo, k.pr) !in m.tasks
    requires k.repo in u.repos && k.repo in m.t.seeded && Unforced(k)
    ensures
      var es := TurnEvents(u, m.t, k, reach, w);
      Runs(u, m, es)
      && var n, end := After(u, m, es), Turn(u, m.t, github, k, reach, w);
         n.t == end.t && Logged(m, github, n, end.github)
  {
    var id := ForPr(k.repo, k.pr);
    if Enters(u, w.f, reach) {
      var next := Next(u, m, Arrives(k));
      DriveIsARun(u, next, github, id, w);
      OneStep(u, m, Arrives(k), DriveEvents(u, next.t, id, Looking(k), w));
    } else if TakenOver(u, w.f, reach) {
      var e := Housekeeping(TakeDone(k.repo, k.pr));
      assert Runs(u, Next(u, m, e), []);
      OneStep(u, m, e, []);
      assert [e] + [] == [e];
    }
  }

  /** Alone in its tick, it may end with it. */
  lemma {:induction false} TurnMayEnd(u: Setup, m: Machine, k: Key, w: World)
    requires Honest(u, w) && m.phase == Queueing && m.tasks == map[] && Enters(u, w.f, AllRead)
    requires k.repo in u.repos && k.repo in m.t.seeded && Unforced(k)
    ensures Runs(u, m, TurnEvents(u, m.t, k, AllRead, w))
    ensures
      var n := After(u, m, TurnEvents(u, m.t, k, AllRead, w));
      n.phase == Queueing && n.since == m.since && AllOver(n)
  {
    var id, next := ForPr(k.repo, k.pr), Next(u, m, Arrives(k));
    TurnIsARun(u, m, [], k, AllRead, w);
    DriveIsARun(u, next, [], id, w);
    DriveStaysIn(u, next, id, w);
    OneStep(u, m, Arrives(k), DriveEvents(u, next.t, id, Looking(k), w));
    assert next.tasks.Keys == {id};
  }

  // ----- when a turn leaves its key judged ---------------------------------------------------------

  /** A container that came back leaves its key judged unless it parsed nothing, or it said
      ok and GitHub would not take the needs-work label off. */
  predicate RunJudges(w: World) {
    w.run.Back? && (Unusable(w.run.r) || w.run.r.verdict != Some(Approve) || w.clearOk)
  }

  predicate GateLeadsOn(u: Setup, t: Tables, k: Key, w: World) {
    var d := G.Evaluate(w.f, u.rules, ShaJudged(t, k.repo, k.pr, k.head));
    (d.action == G.Hold && d.record) || (d.action == G.Review && w.slot && RunJudges(w))
  }

  /** Whether a task that stands here will leave its key judged. */
  predicate WillJudge(u: Setup, t: Tables, pc: Pc, w: World) {
    match pc
    case Looking(k) => KeyJudged(t, k) || GateLeadsOn(u, t, k, w)
    case Evaluating(k) => GateLeadsOn(u, t, k, w)
    case Telling(_, d) => d.record
    case Recording(_, _) => true
    case Asking(_) => w.slot && RunJudges(w)
    case InContainer(_) => RunJudges(w)
    case Failing(_, _) => false
    case Clearing(_, _) => w.clearOk
    case Retracting(_, _) => true
    case Requesting(_, _) => true
    case Approving(_, _) => true
    case Once(k, e, _) => e.RunCiErrand? || KeyJudged(t, k)
    case _ => KeyJudged(t, pc.k)
  }

  predicate RowRunning(t: Tables, k: Key) {
    k in t.reviews && t.reviews[k].state == RowState.Running
  }

  /** The row a task at this place has. */
  predicate Shaped(t: Tables, pc: Pc) {
    match pc
    case Evaluating(k) => !KeyJudged(t, k)
    case Telling(k, _) => !KeyJudged(t, k)
    case Asking(k) => !KeyJudged(t, k)
    case InContainer(k) => RowRunning(t, k)
    case Failing(k, _) => RowRunning(t, k)
    case Clearing(k, _) => RowRunning(t, k)
    case Retracting(k, _) => RowRunning(t, k)
    case Requesting(k, _) => RowRunning(t, k)
    case Approving(k, _) => RowRunning(t, k)
    case Once(k, e, _) =>
      (match e
       case RunCiErrand(_) => RowRunning(t, k)
       case ReviewErrand(_) => KeyJudged(t, k)
       case ApprovedErrand => KeyJudged(t, k)
       case _ => true)
    case Inlining(k, _, _) => KeyJudged(t, k)
    case _ => true
  }

  /** Before the container has come back. */
  predicate Early(pc: Pc) {
    pc.Looking? || pc.Evaluating? || pc.Telling? || pc.Recording? || pc.Asking? || pc.InContainer? || pc.Failing?
  }

  lemma {:induction false} EarlyShapes(u: Setup, t: Tables, pc: Pc, w: World)
    requires u.mode == Real && Early(pc) && Shaped(t, pc) && Fits(u, pc, NextMove(pc, w))
    ensures
      var o := Go(u, t, pc, NextMove(pc, w));
      o.pc.k == pc.k && Shaped(Apply(t, o.write), o.pc)
  {
  }

  lemma {:induction false} LateShapes(u: Setup, t: Tables, pc: Pc, w: World)
    requires u.mode == Real && !Early(pc) && !pc.Over? && Shaped(t, pc) && Fits(u, pc, NextMove(pc, w))
    ensures
      var o := Go(u, t, pc, NextMove(pc, w));
      o.pc.k == pc.k && Shaped(Apply(t, o.write), o.pc)
  {
  }

  lemma {:induction false} EarlyForesees(u: Setup, t: Tables, pc: Pc, w: World)
    requires u.mode == Real && Early(pc) && Shaped(t, pc) && Fits(u, pc, NextMove(pc, w))
    ensures
      var o := Go(u, t, pc, NextMove(pc, w));
      WillJudge(u, Apply(t, o.write), o.pc, w) <==> WillJudge(u, t, pc, w)
  {
  }

  lemma {:induction false} LateForesees(u: Setup, t: Tables, pc: Pc, w: World)
    requires u.mode == Real && !Early(pc) && !pc.Over? && Shaped(t, pc) && Fits(u, pc, NextMove(pc, w))
    ensures
      var o := Go(u, t, pc, NextMove(pc, w));
      WillJudge(u, Apply(t, o.write), o.pc, w) <==> WillJudge(u, t, pc, w)
  {
  }

  lemma {:induction false} DriveForesees(u: Setup, t: Tables, github: seq<Notice>, pc: Pc, w: World)
    requires u.mode == Real && Honest(u, w) && Shaped(t, pc)
    ensures KeyJudged(Drive(u, t, github, pc, w).t, pc.k) <==> WillJudge(u, t, pc, w)
    decreases Rank(pc)
  {
    if !pc.Over? {
      DriveOne(u, t, github, pc, w);
      StepsDown(u, t, pc, w);
      if Early(pc) {
        EarlyShapes(u, t, pc, w);
        EarlyForesees(u, t, pc, w);
      } else {
        LateShapes(u, t, pc, w);
        LateForesees(u, t, pc, w);
      }
      var o := Go(u, t, pc, NextMove(pc, w));
      DriveForesees(u, Apply(t, o.write), Taken(github, pc, o), o.pc, w);
    }
  }

  /** When a real turn leaves its key judged: it was, or nothing stopped it before the gates
      and they recorded a hold, or let it through and a container came back whose verdict
      could be recorded. A paid review of an ok whose label clean-up fails is the one that
      does not count. */
  lemma {:induction false} JudgedIff(u: Setup, t: Tables, github: seq<Notice>, k: Key, reach: Reach, w: World)
    requires u.mode == Real && Honest(u, w)
    ensures
      var d := G.Evaluate(w.f, u.rules, ShaJudged(t, k.repo, k.pr, k.head));
      KeyJudged(Turn(u, t, github, k, reach, w).t, k)
      <==> KeyJudged(t, k)
           || (Enters(u, w.f, reach)
               && ((d.action == G.Hold && d.record)
                   || (d.action == G.Review && w.slot && w.run.Back?
                       && (w.run.r.verdict == Some(Approve) ==> w.clearOk))))
  {
    if Enters(u, w.f, reach) {
      DriveForesees(u, t, github, Looking(k), w);
    }
  }

  // ----- what a turn stopped at the gate leaves --------------------------------------------------

  /** A real turn whose gates hold it: the operator is told of it once unless the PR changes
      nothing, and a row is left exactly when waiting cannot change the answer, the commit
      being judged or the PR empty. Nothing is posted. */
  lemma {:induction false} HeldTurn(u: Setup, t: Tables, github: seq<Notice>, k: Key, w: World)
    requires u.mode == Real && Honest(u, w) && Enters(u, w.f, AllRead) && !KeyJudged(t, k)
    requires w.f.changedFiles == 0 || ShaJudged(t, k.repo, k.pr, k.head) || w.f.openThreads > 0
    ensures
      var d := G.Evaluate(w.f, u.rules, ShaJudged(t, k.repo, k.pr, k.head));
      var told := if w.f.changedFiles > 0 then Notice1(t, HoldNote(k)) else t;
      var lasts := w.f.changedFiles == 0 || ShaJudged(t, k.repo, k.pr, k.head);
      Turn(u, t, github, k, AllRead, w)
      == End(if lasts then RecordHold(told, k, d.reason, w.now) else told, github, G.Hold)
  {
    var shaJudged := ShaJudged(t, k.repo, k.pr, k.head);
    var d := G.Evaluate(w.f, u.rules, shaJudged);
    G.RecordedIff(w.f, u.rules, shaJudged);
    G.ToldIff(w.f, u.rules, shaJudged);
    TaskStarts(u, t, github, k, w);
    DriveOne(u, t, github, Telling(k, d), w);
    if d.record {
      DriveOne(u, if d.dm then Notice1(t, HoldNote(k)) else t, github, Recording(k, d), w);
    }
  }

  /** A real turn stopped by a red build alone: its note goes out at most once per commit, and
      no row is left, so a green build gets the review. */
  lemma {:induction false} CiRedTurn(u: Setup, t: Tables, github: seq<Notice>, k: Key, w: World)
    requires u.mode == Real && Honest(u, w) && Enters(u, w.f, AllRead)
    requires w.f.changedFiles > 0 && !ShaJudged(t, k.repo, k.pr, k.head) && w.f.openThreads == 0 && w.f.red != []
    ensures
      var n := Posted(CiRedNote, k.repo, k.pr, k.head);
      var x := Turn(u, t, github, k, AllRead, w);
      && x.t == t.(notices := x.t.notices) && x.t == Sent(u, t, github, n, w.ciRed).0
      && x.github == Sent(u, t, github, n, w.ciRed).1
      && x.action == if EndingOf(u, t, n, w.ciRed) == GaveUp then G.Skip else G.CiNote
  {
    G.ToldIff(w.f, u.rules, false);
    TaskStarts(u, t, github, k, w);
    assert KeyJudged(t, k) ==> ShaJudged(t, k.repo, k.pr, k.head);
    DriveSends(u, t, github, k, CiRedErrand, w);
  }

  // ----- what a review that posts nothing leaves --------------------------------------------------

  /** Nothing the gates see stops it: every read worked, no label keeps robbie away, and the PR
      changes something, owes us no answer, is not red and brings a commit nothing judged. */
  predicate LetThrough(u: Setup, t: Tables, k: Key, w: World) {
    && (forall name <- w.f.labels :: name != u.rules.needsWork && name !in u.rules.hold && name !in u.rules.taken)
    && w.f.changedFiles > 0 && w.f.openThreads == 0 && w.f.red == [] && NewCommit(t, k)
  }

  lemma {:induction false} ReviewStarts(u: Setup, t: Tables, github: seq<Notice>, k: Key, w: World)
    requires u.mode == Real && Honest(u, w) && LetThrough(u, t, k, w)
    ensures
      Turn(u, t, github, k, AllRead, w)
      == if w.slot then Drive(u, StartReview(t, k, w.now), github, InContainer(k), w) else End(t, github, G.Budget)
  {
    EntersToReview(u, t, k, w.f, AllRead);
    TaskStarts(u, t, github, k, w);
    DriveOne(u, t, github, Asking(k), w);
  }

  /** Only the row of this key is another one, and it belongs to a new pass of this moment. */
  predicate OnlyThisPass(t: Tables, n: Tables, k: Key, now: int) {
    && k in n.reviews && n.reviews == t.reviews[k := n.reviews[k]]
    && n.reviews[k].createdAt == now && n.reviews[k].id == t.nextId && n.nextId == t.nextId + 1
    && n == t.(reviews := n.reviews, nextId := n.nextId, spend := n.spend)
  }

  /** A real turn let through that gets no answer posts and notes nothing. Without a slot
      nothing changes. A container that fails leaves the turn's own row failed with the run's
      error, and its cost in `spend`, unless an endpoint bore it. */
  lemma {:induction false} SilentTurn(u: Setup, t: Tables, github: seq<Notice>, k: Key, w: World)
    requires u.mode == Real && Honest(u, w) && LetThrough(u, t, k, w)
    ensures
      var x := Turn(u, t, github, k, AllRead, w);
      && (!w.slot ==> x == End(t, github, G.Budget))
      && (w.slot && w.run.Broke? ==>
            && OnlyThisPass(t, x.t, k, w.now) && x.github == github && x.action == G.Failed
            && x.t.reviews[k].state == RowState.Failed && x.t.reviews[k].reason == w.run.error
            && x.t.reviews[k].cost == None && x.t.reviews[k].model == w.run.model && x.t.reviews[k].verdict == None
            && x.t.spend == t.spend + [Spent(k.repo, k.pr, "failed", if w.run.onEndpoint then None else w.run.cost)])
  {
    ReviewStarts(u, t, github, k, w);
    if w.slot && w.run.Broke? {
      var started := StartReview(t, k, w.now);
      DriveOne(u, started, github, InContainer(k), w);
      var paid := RecordSpend(started, FailedSpend(k, w.run.cost, w.run.onEndpoint));
      DriveOne(u, paid, github, Failing(k, w.run.model), w);
    }
  }

  /** An answer that parses nothing leaves the turn's own row running and changes nothing else. */
  lemma {:induction false} WordlessTurn(u: Setup, t: Tables, github: seq<Notice>, k: Key, w: World)
    requires u.mode == Real && Honest(u, w) && LetThrough(u, t, k, w) && w.slot && w.run.NoBlocks?
    ensures
      var x := Turn(u, t, github, k, AllRead, w);
      && OnlyThisPass(t, x.t, k, w.now) && x.github == github && x.action == G.Failed
      && x.t.reviews[k].state == RowState.Running && x.t.spend == t.spend
  {
    ReviewStarts(u, t, github, k, w);
    DriveOne(u, StartReview(t, k, w.now), github, InContainer(k), w);
  }

  /** An answer that cannot be used, one with no verdict or findings with no text, is held with
      its cost, so that it is not paid for again; an ok whose label GitHub would not take off
      leaves its row running. Neither posts or notes anything. */
  lemma {:induction false} UselessTurn(u: Setup, t: Tables, github: seq<Notice>, k: Key, r: Result, w: World)
    requires u.mode == Real && Honest(u, w) && LetThrough(u, t, k, w) && w.slot && w.run == Back(r)
    requires r.verdict == None || (r.verdict == Some(Approve) && !w.clearOk)
             || ((r.verdict == Some(NeedsWork) || r.verdict == Some(Comment)) && !r.body)
    ensures
      var x := Turn(u, t, github, k, AllRead, w);
      && OnlyThisPass(t, x.t, k, w.now) && x.github == github && x.t.spend == t.spend
      && if r.verdict == Some(Approve) then x.action == G.Skip && x.t.reviews[k].state == RowState.Running
         else x.action == G.Failed && x.t.reviews[k].state == Held && x.t.reviews[k].cost == r.cost
              && x.t.reviews[k].model == r.model && x.t.reviews[k].verdict == r.verdict
              && x.t.reviews[k].reason == Some(if r.verdict == None then "run gave no verdict"
                                               else "verdict without a summary body")
  {
    ReviewStarts(u, t, github, k, w);
    var started := StartReview(t, k, w.now);
    DriveOne(u, started, github, InContainer(k), w);
    if r.verdict == Some(Approve) {
      DriveOne(u, started, github, Clearing(k, r), w);
    }
  }

  // ----- what a delivered turn leaves -------------------------------------------------------------

  /** The tables and the posts after one errand. */
  function Sent(u: Setup, t: Tables, github: seq<Notice>, n: Notice, reply: Reply): (Tables, seq<Notice>) {
    if Quiet(u.mode) || n in t.notices then (t, github)
    else if reply.Reached? then (Notice1(t, n), github + [n])
    else if reply == AnswerLost then (t, github + [n])
    else (t, github)
  }

  function EndingOf(u: Setup, t: Tables, n: Notice, reply: Reply): Ending {
    if !Quiet(u.mode) && n in t.notices then AlreadyOut
    else if reply.Reached? && !Quiet(u.mode) then WasPosted(reply.inlined)
    else if reply == Refused || reply == AnswerLost then GaveUp
    else NotPosted
  }

  /** In a real run an errand reaches GitHub exactly when its key is not recorded and GitHub
      takes it; the key is recorded when the answer comes back, and the run gives up when it
      does not or GitHub refuses. */
  lemma {:induction false} SentIs(u: Setup, t: Tables, github: seq<Notice>, n: Notice, reply: Reply)
    requires u.mode == Real
    ensures Sent(u, t, github, n, reply).1
         == if n !in t.notices && (reply.Reached? || reply.AnswerLost?) then github + [n] else github
    ensures Sent(u, t, github, n, reply).0
         == if n !in t.notices && reply.Reached? then t.(notices := t.notices + {n}) else t
    ensures EndingOf(u, t, n, reply) == GaveUp <==> n !in t.notices && (reply.Refused? || reply.AnswerLost?)
    ensures EndingOf(u, t, n, reply).WasPosted? <==> n !in t.notices && reply.Reached?
    ensures n !in t.notices && reply.Reached? ==> EndingOf(u, t, n, reply).inlined == reply.inlined
  {
  }

  lemma {:induction false} DriveSends(u: Setup, t: Tables, github: seq<Notice>, k: Key, e: Errand, w: World)
    requires Honest(u, w)
    ensures
      var n, reply := ErrandKey(k, e), ReplyTo(w, e);
      var sent := Sent(u, t, github, n, reply);
      Drive(u, t, github, Once(k, e, Checking), w)
      == Drive(u, sent.0, sent.1, AfterErrand(k, e, EndingOf(u, t, n, reply)), w)
  {
    DriveOnce(u, t, github, k, e, w);
  }

  /** After an ok's build request. */
  function OkSent(u: Setup, t: Tables, github: seq<Notice>, k: Key, w: World): (Tables, seq<Notice>) {
    if w.ciAlready then (t, github) else Sent(u, t, github, RunCi(k.repo, k.pr, k.head), w.runCi)
  }

  /** The row of an ok: published, waiting on its build, no threads opened. */
  function OkRow(row: Row, r: Result): Row {
    FinishedRow(row, Published, Columns(Some(Approve), None, r.cost, r.model, Some(0), Some(Waiting)))
  }

  lemma {:induction false} OkAsks(u: Setup, t: Tables, github: seq<Notice>, k: Key, r: Result, w: World)
    requires Honest(u, w)
    ensures
      var asked := OkSent(u, t, github, k, w);
      Drive(u, t, github, Requesting(k, r), w) == Drive(u, asked.0, asked.1, Approving(k, r), w)
  {
    DriveOne(u, t, github, Requesting(k, r), w);
    if !w.ciAlready {
      DriveSends(u, t, github, k, RunCiErrand(r), w);
    }
  }

  lemma {:induction false} OkRecords(u: Setup, t: Tables, github: seq<Notice>, k: Key, r: Result, w: World)
    requires u.mode == Real && Honest(u, w) && k in t.reviews && r.verdict == Some(Approve)
    ensures
      var told := Sent(u, t.(reviews := t.reviews[k := OkRow(t.reviews[k], r)]), github,
                       ErrandKey(k, ApprovedErrand), w.approved);
      Drive(u, t, github, Approving(k, r), w) == End(told.0, told.1, G.Review)
  {
    DriveOne(u, t, github, Approving(k, r), w);
    DriveSends(u, t.(reviews := t.reviews[k := OkRow(t.reviews[k], r)]), github, k, ApprovedErrand, w);
  }

  /** Until its build is asked for, an ok writes at most the notice of a rejection GitHub
      would not dismiss. */
  function Freed(t: Tables, k: Key, w: World): Tables {
    if w.dismissOk then t else Notice1(t, DismissFailed(k.repo, k.pr))
  }

  /** The row says ok, waits on its build, opened no thread and keeps its place; a rejection
      that stays is one notice more. */
  lemma {:induction false} OkLeaves(t: Tables, k: Key, r: Result, w: World)
    requires k in t.reviews
    ensures
      var was, row := t.reviews[k], OkRow(t.reviews[k], r);
      && row.state == Published && row.verdict == Some(Approve) && row.ci == Some(Waiting) && row.inlined == Some(0)
      && row.reason == was.reason && row.createdAt == was.createdAt && row.id == was.id
      && (r.cost.Some? ==> row.cost == r.cost) && (r.model.Some? ==> row.model == r.model)
    ensures Freed(t, k, w)
         == t.(notices := t.notices + (if w.dismissOk then {} else {DismissFailed(k.repo, k.pr)}))
  {
    assert t.notices + {} == t.notices;
  }

  lemma {:induction false} OkStarts(u: Setup, t: Tables, github: seq<Notice>, k: Key, r: Result, w: World)
    requires u.mode == Real && Honest(u, w) && w.clearOk && w.run == Back(r) && r.verdict == Some(Approve)
    ensures Drive(u, t, github, InContainer(k), w) == Drive(u, Freed(t, k, w), github, Requesting(k, r), w)
  {
    DriveOne(u, t, github, InContainer(k), w);
    DriveOne(u, t, github, Clearing(k, r), w);
    DriveOne(u, t, github, Retracting(k, r), w);
  }

  /** A real ok whose label came off: its row is published and waits on a build, no other
      row moves, the build is asked for before the pass is announced, and the outcome is a
      review whatever becomes of the posts. A rejection GitHub would not dismiss leaves one
      notice more. */
  lemma {:induction false} OkTurn(u: Setup, t: Tables, github: seq<Notice>, k: Key, r: Result, w: World)
    requires u.mode == Real && Honest(u, w) && k in t.reviews && w.clearOk
    requires w.run == Back(r) && r.verdict == Some(Approve)
    ensures
      var asked := OkSent(u, Freed(t, k, w), github, k, w);
      var told := Sent(u, asked.0.(reviews := t.reviews[k := OkRow(t.reviews[k], r)]), asked.1,
                       Posted(ApprovedNote, k.repo, k.pr, k.head), w.approved);
      Drive(u, t, github, InContainer(k), w) == End(told.0, told.1, G.Review)
  {
    OkStarts(u, t, github, k, r, w);
    OkAsks(u, Freed(t, k, w), github, k, r, w);
    var asked := OkSent(u, Freed(t, k, w), github, k, w);
    OkRecords(u, asked.0, asked.1, k, r, w);
  }

  /** A real needs-work or comment: published before it is posted; the row learns how many
      comments reached a diff line exactly when this turn's post was taken, and a post that
      failed is a failed outcome on a judged row. */
  lemma {:induction false} FindingsTurn(u: Setup, t: Tables, github: seq<Notice>, k: Key, r: Result, w: World)
    requires u.mode == Real && Honest(u, w) && k in t.reviews
    requires w.run == Back(r) && !Unusable(r) && r.verdict != Some(Approve)
    ensures
      var n := Posted(ReviewPost, k.repo, k.pr, k.head);
      var end := EndingOf(u, t, n, w.review);
      var inlined := if end.WasPosted? then Some(end.inlined) else None;
      var row := FinishedRow(t.reviews[k], Published, Columns(r.verdict, None, r.cost, r.model, inlined, None));
      var x := Drive(u, t, github, InContainer(k), w);
      && x.t == Sent(u, t, github, n, w.review).0.(reviews := t.reviews[k := row])
      && row.state == Published && row.verdict == r.verdict && (r.cost.Some? ==> row.cost == r.cost)
      && x.github == Sent(u, t, github, n, w.review).1
      && x.action == if end == GaveUp then G.Failed else G.Review
  {
    DriveOne(u, t, github, InContainer(k), w);
    var published := FinishReview(t, k, Published, Columns(r.verdict, None, r.cost, r.model, None, None));
    DriveSends(u, published, github, k, ReviewErrand(r), w);
    var n := ErrandKey(k, ReviewErrand(r));
    var end := EndingOf(u, t, n, w.review);
    if end.WasPosted? {
      var sent := Sent(u, published, github, n, w.review);
      DriveOne(u, sent.0, sent.1, Inlining(k, r, end.inlined), w);
    }
  }

  function WithCi(t: Tables, k: Key, ci: CiState): Tables
    requires k in t.reviews
  {
    t.(reviews := t.reviews[k := t.reviews[k].(ci := Some(ci))])
  }

  /** A real look at an approval's build: an unread or pending one is left waiting; a red one
      is settled exactly when its note is out, now or already, and is left owed otherwise. */
  lemma {:induction false} WatchTurn(u: Setup, t: Tables, github: seq<Notice>, k: Key, w: World)
    requires u.mode == Real && Honest(u, w) && k in t.reviews
    ensures
      var n := Posted(ApprovedRedNote, k.repo, k.pr, k.head);
      var sent := Sent(u, t, github, n, w.approvedRed);
      var x := Drive(u, t, github, Building(k), w);
      match w.build
      case Unreadable => x.t == t && x.github == github
      case Pending => x.t == t && x.github == github
      case Closed => x.t == WithCi(t, k, Gone)
      case Moved => x.t == WithCi(t, k, Stale)
      case BuildGreen => x.t == WithCi(t, k, Green)
      case BuildRed => x.github == sent.1 && x.t == if n in sent.0.notices then WithCi(sent.0, k, Red) else t
  {
    DriveOne(u, t, github, Building(k), w);
    match w.build {
      case Unreadable =>
      case Pending =>
      case Closed => DriveOne(u, t, github, Settling(k, Gone), w);
      case Moved => DriveOne(u, t, github, Settling(k, Stale), w);
      case BuildGreen => DriveOne(u, t, github, Settling(k, Green), w);
      case BuildRed =>
        DriveSends(u, t, github, k, ApprovedRedErrand, w);
        var sent := Sent(u, t, github, ErrandKey(k, ApprovedRedErrand), w.approvedRed);
        if EndingOf(u, t, ErrandKey(k, ApprovedRedErrand), w.approvedRed) != GaveUp {
          DriveOne(u, sent.0, sent.1, Settling(k, Red), w);
        }
    }
  }

  /** A quiet look at a build settles nothing and posts nothing. */
  lemma {:induction false} QuietWatch(u: Setup, t: Tables, github: seq<Notice>, k: Key, w: World)
    requires u.mode != Real && Honest(u, w)
    ensures
      var x := Drive(u, t, github, Building(k), w);
      x.t == t && x.github == github
  {
    DriveOne(u, t, github, Building(k), w);
    match w.build {
      case Unreadable =>
      case Pending =>
      case Closed => DriveOne(u, t, github, Settling(k, Gone), w);
      case Moved => DriveOne(u, t, github, Settling(k, Stale), w);
      case BuildGreen => DriveOne(u, t, github, Settling(k, Green), w);
      case BuildRed =>
        DriveSends(u, t, github, k, ApprovedRedErrand, w);
        if EndingOf(u, t, ErrandKey(k, ApprovedRedErrand), w.approvedRed) != GaveUp {
          DriveOne(u, t, github, Settling(k, Red), w);
        }
    }
  }
}

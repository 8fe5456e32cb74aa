/** Which posts are still owed: what GitHub may yet be sent of a key, read off the tables
    between ticks, and what becomes of a post it refused. */
module Owed {
  import opened Options
  import opened Store
  import opened Lifecycle
  import opened Safety
  import opened Rows
  import opened Ledger
  import P = Pipeline
  import G = Gates

  /** A post that a PR's own turn makes, as opposed to the note of the build watch. */
  predicate QueuePost(n: Notice) {
    n.RunCi? || (n.Posted? && n.kind != ApprovedRedNote)
  }

  predicate RedPost(n: Notice) {
    n.Posted? && n.kind == ApprovedRedNote
  }

  predicate About(k: Key, n: Notice)
    requires Postable(n)
  {
    k.repo == n.repo && k.pr == n.pr && k.head == n.head
  }

  predicate CommitJudged(t: Tables, n: Notice)
    requires Postable(n)
  {
    ShaJudged(t, n.repo, n.pr, n.head)
  }

  // ----- no more posts ---------------------------------------------------------------------------

  /** Past the gate, with a post of the turn ahead. */
  predicate CanPost(pc: Pc) {
    pc.Asking? || pc.InContainer? || pc.Clearing? || pc.Retracting? || pc.Requesting? || pc.Approving?
    || (pc.Once? && pc.errand != ApprovedRedErrand)
  }

  /** The commit is judged, and no task of it is past the gate. */
  predicate Closed(m: Machine, n: Notice)
    requires Postable(n)
  {
    CommitJudged(m.t, n) && forall id <- m.tasks :: About(m.tasks[id].k, n) ==> !CanPost(m.tasks[id])
  }

  lemma {:induction false} JudgedCommitStays(u: Setup, m: Machine, e: Event, n: Notice)
    requires Inv(u, m) && Enabled(u, m, e) && Postable(n) && CommitJudged(m.t, n)
    ensures CommitJudged(Next(u, m, e).t, n)
  {
    StepKeepsJudged(u, m, e);
    var x := Next(u, m, e).t;
    forall k | k in m.t.reviews && IsJudged(m.t.reviews[k]) ensures k in x.reviews && IsJudged(x.reviews[k]) {
      assert k in Judged(m.t);
      assert k in Judged(x);
    }
  }

  /** A judged commit holds every task that has not passed the gate. */
  lemma {:induction false} StaysShort(u: Setup, t: Tables, pc: Pc, mv: Lifecycle.Move)
    requires Fits(u, pc, mv) && !CanPost(pc) && ShaJudged(t, pc.k.repo, pc.k.pr, pc.k.head)
    ensures !CanPost(Go(u, t, pc, mv).pc) && Go(u, t, pc, mv).pc.k == pc.k
  {
  }

  lemma {:induction false} KeepsKey(u: Setup, t: Tables, pc: Pc, mv: Lifecycle.Move)
    requires Fits(u, pc, mv)
    ensures Go(u, t, pc, mv).pc.k == pc.k
  {
  }

  lemma {:induction false} ClosedStays(u: Setup, m: Machine, e: Event, n: Notice)
    requires Inv(u, m) && Enabled(u, m, e) && Postable(n) && Closed(m, n)
    ensures Closed(Next(u, m, e), n)
  {
    var x := Next(u, m, e);
    JudgedCommitStays(u, m, e, n);
    forall id | id in x.tasks && About(x.tasks[id].k, n) ensures !CanPost(x.tasks[id]) {
      if e.Moves? && id == e.id {
        KeepsKey(u, m.t, m.tasks[id], e.mv);
        StaysShort(u, m.t, m.tasks[id], e.mv);
      }
    }
  }

  lemma {:induction false} ClosedStepPostsNothing(u: Setup, m: Machine, e: Event, n: Notice)
    requires Enabled(u, m, e) && QueuePost(n) && Closed(m, n)
    ensures Next(u, m, e).log[n] == m.log[n]
  {
    if e.Moves? {
      MoveHands(u, m.t, m.tasks[e.id], e.mv);
    }
  }

  lemma {:induction false} ClosedPostsNothing(u: Setup, m: Machine, es: seq<Event>, n: Notice)
    requires Inv(u, m) && Runs(u, m, es) && QueuePost(n) && Closed(m, n)
    ensures After(u, m, es).log[n] == m.log[n]
    decreases |es|
  {
    if es != [] {
      ClosedStepPostsNothing(u, m, es[0], n);
      ClosedStays(u, m, es[0], n);
      StepKeepsInv(u, m, es[0]);
      ClosedPostsNothing(u, Next(u, m, es[0]), es[1..], n);
    }
  }

  /** The key is recorded and nobody has its post out. */
  predicate Recorded(m: Machine, n: Notice) {
    n in m.t.notices
    && forall id <- m.tasks :: IsOut(m.tasks[id]) ==> ErrandKey(m.tasks[id].k, m.tasks[id].errand) != n
  }

  lemma {:induction false} NoticeStays(u: Setup, m: Machine, e: Event, n: Notice)
    requires Enabled(u, m, e) && Postable(n) && n in m.t.notices
    ensures n in Next(u, m, e).t.notices
  {
    match e {
      case Moves(id, mv) => MoveNotices(u, m.t, m.tasks[id], mv, n);
      case Housekeeping(w) => HousekeepingNotices(u, m, w, n);
      case _ =>
    }
  }

  lemma {:induction false} RecordedStays(u: Setup, m: Machine, e: Event, n: Notice)
    requires u.mode == Real && Enabled(u, m, e) && Postable(n) && Recorded(m, n)
    ensures Recorded(Next(u, m, e), n)
  {
    var x := Next(u, m, e);
    NoticeStays(u, m, e, n);
    forall id | id in x.tasks && IsOut(x.tasks[id]) ensures ErrandKey(x.tasks[id].k, x.tasks[id].errand) != n {
      if e.Moves? && id == e.id {
        OutMeansOwn(u, m.t, m.tasks[id], e.mv);
      }
    }
  }

  /** A post goes out past a key that is not recorded, or was out before. */
  lemma {:induction false} OutMeansOwn(u: Setup, t: Tables, pc: Pc, mv: Lifecycle.Move)
    requires u.mode == Real && Fits(u, pc, mv) && IsOut(Go(u, t, pc, mv).pc)
    ensures
      var o := Go(u, t, pc, mv).pc;
      && pc.Once? && ErrandKey(o.k, o.errand) == ErrandKey(pc.k, pc.errand)
      && (IsOut(pc) || ErrandKey(pc.k, pc.errand) !in t.notices)
  {
  }

  lemma {:induction false} RecordedStepPostsNothing(u: Setup, m: Machine, e: Event, n: Notice)
    requires Enabled(u, m, e) && Recorded(m, n)
    ensures Next(u, m, e).log[n] == m.log[n]
  {
    if e.Moves? {
      MoveHands(u, m.t, m.tasks[e.id], e.mv);
    }
  }

  lemma {:induction false} RecordedPostsNothing(u: Setup, m: Machine, es: seq<Event>, n: Notice)
    requires u.mode == Real && Runs(u, m, es) && Postable(n) && Recorded(m, n)
    ensures After(u, m, es).log[n] == m.log[n]
    decreases |es|
  {
    if es != [] {
      RecordedStepPostsNothing(u, m, es[0], n);
      RecordedStays(u, m, es[0], n);
      RecordedPostsNothing(u, Next(u, m, es[0]), es[1..], n);
    }
  }

  // ----- refused posts that are lost ----------------------------------------------------------------

  /** This task's post is out, GitHub refuses it, and this is what comes of it. */
  predicate Refuses(m: Machine, id: Id, e: Errand, x: Machine) {
    id in m.tasks && m.tasks[id].Once? && m.tasks[id].errand == e && m.tasks[id].stage == InFlight
    && x == m.(tasks := m.tasks[id := AfterErrand(m.tasks[id].k, e, GaveUp)])
  }

  /** It is the machine's own step. */
  lemma {:induction false} RefusedIsAStep(u: Setup, m: Machine, id: Id, e: Errand, x: Machine)
    ensures Refuses(m, id, e, x)
       <==> Enabled(u, m, Moves(id, Replies(Refused))) && m.tasks[id].errand == e
            && x == Next(u, m, Moves(id, Replies(Refused)))
  {
  }

  /** A PR has one task. */
  lemma {:induction false} OtherIsAside(u: Setup, m: Machine, id: Id, n: Notice)
    requires Inv(u, m) && id in m.tasks && Postable(n)
    ensures About(m.tasks[id].k, n) && CanPost(m.tasks[id]) ==> id == ForPr(n.repo, n.pr)
  {
    assert EntryOk(u, m, id, m.tasks[id]);
  }

  /** A task whose review or announcement is refused is over, on a judged commit. */
  lemma {:induction false} RefusalCloses(u: Setup, m: Machine, id: Id, e: Errand, x: Machine)
    requires Inv(u, m) && u.mode == Real && Refuses(m, id, e, x) && (e.ReviewErrand? || e == ApprovedErrand)
    ensures Closed(x, ErrandKey(m.tasks[id].k, e))
  {
    var n := ErrandKey(m.tasks[id].k, e);
    assert EntryOk(u, m, id, m.tasks[id]);
    assert KeyJudged(x.t, m.tasks[id].k);
    OtherIsAside(u, m, id, n);
    forall other | other in x.tasks ensures About(x.tasks[other].k, n) ==> !CanPost(x.tasks[other]) {
      OtherIsAside(u, m, other, n);
    }
  }

  /** The row is recorded before a review or an announcement is posted, so one that GitHub
      refuses is never sent again: no run from there ever adds to its key. */
  lemma {:induction false} RefusedPostIsLost(u: Setup, m: Machine, id: Id, e: Errand, x: Machine, es: seq<Event>)
    requires Inv(u, m) && u.mode == Real && Refuses(m, id, e, x) && (e.ReviewErrand? || e == ApprovedErrand)
    requires Runs(u, x, es)
    ensures After(u, x, es).log[ErrandKey(m.tasks[id].k, e)] == m.log[ErrandKey(m.tasks[id].k, e)]
  {
    RefusedIsAStep(u, m, id, e, x);
    RefusalCloses(u, m, id, e, x);
    StepKeepsInv(u, m, Moves(id, Replies(Refused)));
    ClosedPostsNothing(u, x, es, ErrandKey(m.tasks[id].k, e));
  }

  lemma {:induction false} StepAsksNoBuild(u: Setup, m: Machine, e: Event, n: Notice)
    requires Inv(u, m) && Enabled(u, m, e) && n.RunCi? && CommitJudged(m.t, n)
    ensures Next(u, m, e).log[n] == m.log[n]
  {
    if e.Moves? {
      MoveHands(u, m.t, m.tasks[e.id], e.mv);
      assert EntryOk(u, m, e.id, m.tasks[e.id]);
    }
  }

  /** A build is asked for before the row is recorded: once the commit is judged, wherever its
      task stands and however it was answered, no run asks for one. */
  lemma {:induction false} JudgedAsksNoBuild(u: Setup, m: Machine, es: seq<Event>, n: Notice)
    requires Inv(u, m) && Runs(u, m, es) && n.RunCi? && CommitJudged(m.t, n)
    ensures After(u, m, es).log[n] == m.log[n]
    decreases |es|
  {
    if es != [] {
      StepAsksNoBuild(u, m, es[0], n);
      JudgedCommitStays(u, m, es[0], n);
      StepKeepsInv(u, m, es[0]);
      JudgedAsksNoBuild(u, Next(u, m, es[0]), es[1..], n);
    }
  }

  // ----- queue posts that still go out --------------------------------------------------------------

  /** Answers under which a PR's turn comes to this post and GitHub takes it. */
  function Answers(n: Notice, now: int): P.World
    requires QueuePost(n)
  {
    var red := if n.Posted? && n.kind == CiRedNote then ["build"] else [];
    var verdict := if n.Posted? && n.kind == ReviewPost then NeedsWork else Approve;
    P.World(G.Facts([], 1, 0, red), now, true, P.Back(Result(Some(verdict), true, None, None)), true, true, !n.RunCi?,
            Reached(0), Reached(0), Reached(0), Reached(0), Reached(0), Unreadable)
  }

  function FirstKey(n: Notice): Key
    requires QueuePost(n) || RedPost(n)
  {
    Key(n.repo, n.pr, n.head, "norq")
  }

  lemma {:induction false} AnswersPass(u: Setup, n: Notice, now: int)
    requires QueuePost(n)
    ensures
      var w := Answers(n, now);
      && P.Honest(u, w) && P.Enters(u, w.f, P.AllRead)
      && G.Evaluate(w.f, u.rules, false).action == if n.Posted? && n.kind == CiRedNote then G.CiNote else G.Review
  {
  }

  /** An unjudged commit gets through the gate. */
  lemma {:induction false} GetsThrough(u: Setup, t: Tables, n: Notice, now: int)
    requires u.mode == Real && QueuePost(n) && !CommitJudged(t, n)
    ensures
      var w, k := Answers(n, now), FirstKey(n);
      && P.Honest(u, w)
      && P.Turn(u, t, [], k, P.AllRead, w)
         == if n.Posted? && n.kind == CiRedNote then P.Drive(u, t, [], Once(k, CiRedErrand, Checking), w)
            else P.Drive(u, StartReview(t, k, now), [], InContainer(k), w)
  {
    var w, k := Answers(n, now), FirstKey(n);
    AnswersPass(u, n, now);
    P.TaskStarts(u, t, [], k, w);
    assert !KeyJudged(t, k);
    if !(n.Posted? && n.kind == CiRedNote) {
      P.DriveOne(u, t, [], Asking(k), w);
    }
  }

  /** And its turn sends the post, unless the key is recorded. */
  lemma {:induction false} TurnPosts(u: Setup, t: Tables, n: Notice, now: int)
    requires u.mode == Real && QueuePost(n) && !CommitJudged(t, n) && n !in t.notices
    ensures P.Honest(u, Answers(n, now)) && n in P.Turn(u, t, [], FirstKey(n), P.AllRead, Answers(n, now)).github
  {
    var w, k := Answers(n, now), FirstKey(n);
    GetsThrough(u, t, n, now);
    var started := StartReview(t, k, now);
    if n.Posted? && n.kind == CiRedNote {
      P.DriveSends(u, t, [], k, CiRedErrand, w);
    } else if n.Posted? && n.kind == ReviewPost {
      P.FindingsTurn(u, started, [], k, w.run.r, w);
    } else {
      P.OkTurn(u, started, [], k, w.run.r, w);
    }
  }

  /** The opened queue of a tick in which the repo is past cold start. */
  function Opening(m: Machine, repo: Repo): seq<Event> {
    [TickStarts(m.since), QueueOpens] + (if repo in m.t.seeded then [] else [Housekeeping(SeedDone(repo))])
  }

  lemma {:induction false} QueueOpensSeeded(u: Setup, m: Machine, repo: Repo)
    requires AtRest(m) && u.mode == Real && repo in u.repos
    ensures Runs(u, m, Opening(m, repo))
    ensures
      After(u, m, Opening(m, repo))
      == OpenQueue(m).(t := if repo in m.t.seeded then m.t else MarkSeeded(m.t, repo))
  {
    var q := OpenQueue(m);
    if repo in m.t.seeded {
      assert Runs(u, q, []) && After(u, q, []) == q;
      QueueIsOpened(u, m, []);
    } else {
      JustOne(u, q, Housekeeping(SeedDone(repo)));
      QueueIsOpened(u, m, [Housekeeping(SeedDone(repo))]);
    }
  }

  /** The run that sends it: a tick opens the queue, and the PR has its turn. */
  lemma {:induction false} QueuePostGoesOut(u: Setup, m: Machine, n: Notice) returns (es: seq<Event>)
    requires AtRest(m) && u.mode == Real && QueuePost(n) && n.repo in u.repos
    requires !CommitJudged(m.t, n) && n !in m.t.notices
    ensures Runs(u, m, es) && After(u, m, es).log[n] > m.log[n]
  {
    var w, k := Answers(n, 0), FirstKey(n);
    QueueOpensSeeded(u, m, n.repo);
    var q := After(u, m, Opening(m, n.repo));
    TurnPosts(u, q.t, n, 0);
    P.TurnIsARun(u, q, [], k, P.AllRead, w);
    var turn := P.TurnEvents(u, q.t, k, P.AllRead, w);
    RunsOn(u, m, Opening(m, n.repo), turn);
    es := Opening(m, n.repo) + turn;
    var took := P.Turn(u, q.t, [], k, P.AllRead, w).github;
    assert n in multiset(took) && q.log == m.log;
    assert (After(u, m, es).log + multiset([]))[n] == (m.log + multiset(took))[n];
  }

  /** Exactly which of these posts may still go out, read off the tables between ticks: those
      whose commit is not judged and whose key is not recorded. A refused review or
      announcement is not among them, and neither is a build refused to a pass that was
      recorded; a refused red-build note of an unjudged commit is. */
  lemma {:induction false} QueuePostIff(u: Setup, m: Machine, n: Notice)
    requires AtRest(m) && u.mode == Real && QueuePost(n) && n.repo in u.repos
    ensures (forall es: seq<Event> :: Runs(u, m, es) ==> After(u, m, es).log[n] == m.log[n])
       <==> CommitJudged(m.t, n) || n in m.t.notices
  {
    if CommitJudged(m.t, n) {
      forall es: seq<Event> | Runs(u, m, es) ensures After(u, m, es).log[n] == m.log[n] {
        ClosedPostsNothing(u, m, es, n);
      }
    } else if n in m.t.notices {
      forall es: seq<Event> | Runs(u, m, es) ensures After(u, m, es).log[n] == m.log[n] {
        RecordedPostsNothing(u, m, es, n);
      }
    } else {
      var es := QueuePostGoesOut(u, m, n);
    }
  }

  // ----- the note of a red build ---------------------------------------------------------------------

  /** The commit is judged, nothing about it waits on a build in the watch's window, and no task
      of it is past the gate or looking. */
  predicate RedClosed(u: Setup, m: Machine, n: Notice)
    requires Postable(n)
  {
    && Closed(m, n)
    && (forall k <- m.t.reviews :: About(k, n) ==> !Followed(u, m.t, m.since, k))
    && (forall id <- m.tasks :: About(m.tasks[id].k, n) ==> !ForWatch(m.tasks[id]))
  }

  /** A task that is neither past the gate nor looking puts no row before the watch. */
  lemma {:induction false} ShortTaskWaitsOnNothing(u: Setup, t: Tables, pc: Pc, mv: Lifecycle.Move, since: int)
    requires Fits(u, pc, mv) && TaskOk(u, t, pc) && !CanPost(pc) && !ForWatch(pc) && !Followed(u, t, since, pc.k)
    ensures !Followed(u, Apply(t, Go(u, t, pc, mv).write), since, pc.k)
  {
  }

  lemma {:induction false} StaysUnwatching(u: Setup, t: Tables, pc: Pc, mv: Lifecycle.Move)
    requires Fits(u, pc, mv) && !CanPost(pc) && !ForWatch(pc)
    ensures !ForWatch(Go(u, t, pc, mv).pc)
  {
  }

  lemma {:induction false} MoveFollowsNone(u: Setup, m: Machine, id: Id, mv: Lifecycle.Move, n: Notice, k: Key)
    requires Inv(u, m) && Enabled(u, m, Moves(id, mv)) && Postable(n) && RedClosed(u, m, n) && About(k, n)
    ensures !Followed(u, Next(u, m, Moves(id, mv)).t, m.since, k)
  {
    var pc := m.tasks[id];
    var w := Go(u, m.t, pc, mv).write;
    assert EntryOk(u, m, id, pc);
    if pc.k == k {
      ShortTaskWaitsOnNothing(u, m.t, pc, mv, m.since);
    } else {
      WriteIsOwn(u, m.t, pc, mv);
      OwnWriteFrame(m.t, w, pc.k);
    }
  }

  lemma {:induction false} HousekeepingFollowsNone(u: Setup, m: Machine, w: Write, k: Key)
    requires MayWrite(u, m, w) && !Followed(u, m.t, m.since, k)
    ensures !Followed(u, Apply(m.t, w), m.since, k)
  {
    if IsRetirement(w) {
      RetirementIsLess(m.t, w);
    }
  }

  lemma {:induction false} StepFollowsNone(u: Setup, m: Machine, e: Event, n: Notice, k: Key)
    requires Inv(u, m) && Enabled(u, m, e) && Postable(n) && RedClosed(u, m, n) && About(k, n)
    ensures !Followed(u, Next(u, m, e).t, Next(u, m, e).since, k)
  {
    match e {
      case Moves(id, mv) => MoveFollowsNone(u, m, id, mv, n, k);
      case Housekeeping(w) => HousekeepingFollowsNone(u, m, w, k);
      case _ =>
    }
  }

  lemma {:induction false} RedClosedStays(u: Setup, m: Machine, e: Event, n: Notice)
    requires Inv(u, m) && Enabled(u, m, e) && Postable(n) && RedClosed(u, m, n)
    ensures RedClosed(u, Next(u, m, e), n)
  {
    var x := Next(u, m, e);
    ClosedStays(u, m, e, n);
    forall k | k in x.t.reviews && About(k, n) ensures !Followed(u, x.t, x.since, k) {
      StepFollowsNone(u, m, e, n, k);
    }
    forall id | id in x.tasks && About(x.tasks[id].k, n) ensures !ForWatch(x.tasks[id]) {
      if e.Moves? && id == e.id {
        KeepsKey(u, m.t, m.tasks[id], e.mv);
        StaysUnwatching(u, m.t, m.tasks[id], e.mv);
      }
    }
  }

  lemma {:induction false} RedStepPostsNothing(u: Setup, m: Machine, e: Event, n: Notice)
    requires Enabled(u, m, e) && RedPost(n) && RedClosed(u, m, n)
    ensures Next(u, m, e).log[n] == m.log[n]
  {
    if e.Moves? {
      MoveHands(u, m.t, m.tasks[e.id], e.mv);
    }
  }

  lemma {:induction false} RedClosedPostsNothing(u: Setup, m: Machine, es: seq<Event>, n: Notice)
    requires Inv(u, m) && Runs(u, m, es) && RedPost(n) && RedClosed(u, m, n)
    ensures After(u, m, es).log[n] == m.log[n]
    decreases |es|
  {
    if es != [] {
      RedStepPostsNothing(u, m, es[0], n);
      RedClosedStays(u, m, es[0], n);
      StepKeepsInv(u, m, es[0]);
      RedClosedPostsNothing(u, Next(u, m, es[0]), es[1..], n);
    }
  }

  /** The next look at a followed row that finds its build red. */
  function NextLook(since: int, k: Key): seq<Event> {
    [TickStarts(since)] + (Look(k) + Posts(k))
  }

  /** While an approval is followed and its red note is not recorded, the next look that finds
      the build red sends it. */
  lemma {:induction false} NextLookSends(u: Setup, m: Machine, k: Key)
    requires m.phase == Idle && u.mode == Real && Followed(u, m.t, m.since, k) && RedNote(k) !in m.t.notices
    ensures Runs(u, m, NextLook(m.since, k))
    ensures After(u, m, NextLook(m.since, k)).log[RedNote(k)] == m.log[RedNote(k)] + 1
  {
    var m1 := Next(u, m, TickStarts(m.since));
    LookGoesOut(u, m1, k);
    var m2 := After(u, m1, Look(k));
    PostGoesThrough(u, m2, k);
    RunsOn(u, m1, Look(k), Posts(k));
    OneStep(u, m, TickStarts(m.since), Look(k) + Posts(k));
  }

  /** The post an approval makes at its end. */
  function Announcement(n: Notice): Notice
    requires RedPost(n)
  {
    Posted(ApprovedNote, n.repo, n.pr, n.head)
  }

  /** A turn that approves the commit leaves its row before the watch, the red note unsent. */
  lemma {:induction false} ApprovingTurn(u: Setup, t: Tables, n: Notice, since: int)
    requires u.mode == Real && RedPost(n) && n.repo in u.repos && !CommitJudged(t, n) && n !in t.notices
    ensures P.Honest(u, Answers(Announcement(n), since)) && P.Enters(u, Answers(Announcement(n), since).f, P.AllRead)
    ensures
      var end := P.Turn(u, t, [], FirstKey(n), P.AllRead, Answers(Announcement(n), since));
      Followed(u, end.t, since, FirstKey(n)) && n !in end.t.notices && n !in end.github
  {
    var told := Announcement(n);
    var w, k := Answers(told, since), FirstKey(n);
    AnswersPass(u, told, since);
    GetsThrough(u, t, told, since);
    P.OkTurn(u, StartReview(t, k, since), [], k, w.run.r, w);
  }

  lemma {:induction false} NotTaken(m: Machine, x: Machine, took: seq<Notice>, n: Notice)
    requires P.Logged(m, [], x, took) && n !in took
    ensures x.log[n] == m.log[n]
  {
    assert (x.log + multiset([]))[n] == (m.log + multiset(took))[n];
  }

  /** An unjudged commit may still be approved: a tick after which its approval is followed. */
  lemma {:induction false} ApprovalIsFollowed(u: Setup, m: Machine, n: Notice) returns (es: seq<Event>)
    requires AtRest(m) && u.mode == Real && RedPost(n) && n.repo in u.repos
    requires !CommitJudged(m.t, n) && n !in m.t.notices
    ensures Runs(u, m, es)
    ensures
      var x := After(u, m, es);
      && x.phase == Idle && x.log[n] == m.log[n]
      && Followed(u, x.t, x.since, FirstKey(n)) && n !in x.t.notices
  {
    var w, k := Answers(Announcement(n), m.since), FirstKey(n);
    QueueOpensSeeded(u, m, n.repo);
    var q := After(u, m, Opening(m, n.repo));
    ApprovingTurn(u, q.t, n, m.since);
    P.TurnIsARun(u, q, [], k, P.AllRead, w);
    P.TurnMayEnd(u, q, k, w);
    var turn := P.TurnEvents(u, q.t, k, P.AllRead, w);
    NotTaken(q, After(u, q, turn), P.Turn(u, q.t, [], k, P.AllRead, w).github, n);
    RunsOn(u, m, Opening(m, n.repo), turn);
    ThenOne(u, m, Opening(m, n.repo) + turn, TickEnds);
    es := Opening(m, n.repo) + turn + [TickEnds];
  }

  /** Some approval of this commit is followed. */
  predicate Awaited(u: Setup, t: Tables, since: int, n: Notice)
    requires Postable(n)
  {
    exists k <- t.reviews :: About(k, n) && Followed(u, t, since, k)
  }

  lemma SomeAwaited(u: Setup, t: Tables, since: int, n: Notice) returns (k: Key)
    requires Postable(n) && Awaited(u, t, since, n)
    ensures About(k, n) && Followed(u, t, since, k)
  {
    k :| k in t.reviews && About(k, n) && Followed(u, t, since, k);
  }

  lemma {:induction false} RedNoteGoesOut(u: Setup, m: Machine, n: Notice) returns (es: seq<Event>)
    requires AtRest(m) && u.mode == Real && RedPost(n) && n.repo in u.repos && n !in m.t.notices
    requires Awaited(u, m.t, m.since, n) || !CommitJudged(m.t, n)
    ensures Runs(u, m, es) && After(u, m, es).log[n] > m.log[n]
  {
    if Awaited(u, m.t, m.since, n) {
      var k := SomeAwaited(u, m.t, m.since, n);
      assert RedNote(k) == n;
      NextLookSends(u, m, k);
      es := NextLook(m.since, k);
    } else {
      var k := FirstKey(n);
      var before := ApprovalIsFollowed(u, m, n);
      var x := After(u, m, before);
      assert RedNote(k) == n;
      NextLookSends(u, x, k);
      RunsOn(u, m, before, NextLook(x.since, k));
      es := before + NextLook(x.since, k);
    }
  }

  /** Exactly when the red-build note of a commit may still go out: its key is not recorded,
      and an approval of it is followed or the commit is not judged yet. */
  lemma {:induction false} RedNoteIff(u: Setup, m: Machine, n: Notice)
    requires AtRest(m) && u.mode == Real && RedPost(n) && n.repo in u.repos
    ensures (forall es: seq<Event> :: Runs(u, m, es) ==> After(u, m, es).log[n] == m.log[n])
       <==> n in m.t.notices || (CommitJudged(m.t, n) && !Awaited(u, m.t, m.since, n))
  {
    if n in m.t.notices {
      forall es: seq<Event> | Runs(u, m, es) ensures After(u, m, es).log[n] == m.log[n] {
        RecordedPostsNothing(u, m, es, n);
      }
    } else if CommitJudged(m.t, n) && !Awaited(u, m.t, m.since, n) {
      forall es: seq<Event> | Runs(u, m, es) ensures After(u, m, es).log[n] == m.log[n] {
        RedClosedPostsNothing(u, m, es, n);
      }
    } else {
      var es := RedNoteGoesOut(u, m, n);
    }
  }

  /** A red-build note that GitHub refuses stays owed: its task is over, the row is followed as
      before and its key is not recorded, so the next look may send it. */
  lemma {:induction false} RefusedRedStaysOwed(u: Setup, m: Machine, id: Id, x: Machine)
    requires Inv(u, m) && PostsOk(u, m) && u.mode == Real && Refuses(m, id, ApprovedRedErrand, x)
    ensures x.tasks[id].Over? && x.log == m.log
    ensures Followed(u, x.t, x.since, m.tasks[id].k) && RedNote(m.tasks[id].k) !in x.t.notices
  {
    var pc := m.tasks[id];
    assert EntryOk(u, m, id, pc);
    assert IsOut(pc) && ErrandKey(pc.k, pc.errand) == RedNote(pc.k);
  }

  /** When the other looks of that tick are over, it ends, and the next one sends the note. */
  lemma {:induction false} RefusedRedIsSent(u: Setup, m: Machine, id: Id, x: Machine)
    requires Inv(u, m) && PostsOk(u, m) && u.mode == Real && Refuses(m, id, ApprovedRedErrand, x) && AllOver(x)
    ensures
      var k := m.tasks[id].k;
      var es := [QueueOpens] + ([TickEnds] + NextLook(x.since, k));
      Runs(u, x, es) && After(u, x, es).log[RedNote(k)] == m.log[RedNote(k)] + 1
  {
    var k := m.tasks[id].k;
    RefusedRedStaysOwed(u, m, id, x);
    assert EntryOk(u, m, id, m.tasks[id]) && InPhase(u, m, id);
    var q := Next(u, x, QueueOpens);
    var idle := Next(u, q, TickEnds);
    NextLookSends(u, idle, k);
    OneStep(u, q, TickEnds, NextLook(x.since, k));
    OneStep(u, x, QueueOpens, [TickEnds] + NextLook(x.since, k));
  }
}

/** GitHub's ledger: how often each one-time post was taken, and what the quiet modes
    leave behind. */
module Ledger {
  import opened Options
  import opened Store
  import opened Lifecycle
  import opened Safety
  import opened Rows
  import G = Gates

  // ----- at most once per key ---------------------------------------------------------------------

  /** GitHub took a key's post once if the key is recorded, once more while a task is about
      to record it, and once for every answer that was lost. */
  ghost predicate LogOk(m: Machine) {
    forall n: Notice :: Postable(n) ==>
      m.log[n] == One(n in m.t.notices) + One(n in HandKeys(m.tasks)) + m.lost[n]
  }

  /** The events that lose an answer: GitHub's reply does not come back, or the task or the
      process dies between the post and the key. */
  predicate Lapse(e: Event) {
    e.Dies? || e.TickFails? || e.Restarts? || (e.Moves? && e.mv == Replies(AnswerLost))
  }

  /** A key in hand is held by one task and not yet recorded. */
  lemma {:induction false} HandIsOne(u: Setup, m: Machine, id: Id, other: Id)
    requires Inv(u, m) && PostsOk(u, m) && id in m.tasks && other in m.tasks
    requires InHand(m.tasks[id]) && m.tasks[other].Once? && m.tasks[other].stage != Checking
    requires ErrandKey(m.tasks[id].k, m.tasks[id].errand) == ErrandKey(m.tasks[other].k, m.tasks[other].errand)
    ensures id == other && ErrandKey(m.tasks[id].k, m.tasks[id].errand) !in m.t.notices && u.mode == Real
  {
    assert EntryOk(u, m, id, m.tasks[id]);
    if id != other {
      ErrandsDiffer(u, m, id, other);
    }
  }

  /** What moving one task does to the keys in hand: its own leaves, its next one enters. */
  lemma {:induction false} HandMoves(u: Setup, m: Machine, id: Id, pc: Pc, n: Notice)
    requires Inv(u, m) && PostsOk(u, m) && id in m.tasks
    ensures
      var was := m.tasks[id];
      var tasks := m.tasks[id := pc];
      n in HandKeys(tasks) <==>
        (InHand(pc) && ErrandKey(pc.k, pc.errand) == n)
        || (n in HandKeys(m.tasks) && !(InHand(was) && ErrandKey(was.k, was.errand) == n))
  {
    var tasks := m.tasks[id := pc];
    if n in HandKeys(m.tasks) {
      var i :| i in m.tasks && InHand(m.tasks[i]) && ErrandKey(m.tasks[i].k, m.tasks[i].errand) == n;
      if i != id {
        assert i in tasks && InHand(tasks[i]);
        if InHand(m.tasks[id]) && ErrandKey(m.tasks[id].k, m.tasks[id].errand) == n {
          HandIsOne(u, m, i, id);
        }
      }
    }
    if n in HandKeys(tasks) {
      var i :| i in tasks && InHand(tasks[i]) && ErrandKey(tasks[i].k, tasks[i].errand) == n;
      if i != id {
        assert i in m.tasks && InHand(m.tasks[i]);
        if InHand(m.tasks[id]) && ErrandKey(m.tasks[id].k, m.tasks[id].errand) == n {
          HandIsOne(u, m, i, id);
        }
      }
    }
    if InHand(pc) && ErrandKey(pc.k, pc.errand) == n {
      assert id in tasks && InHand(tasks[id]);
    }
  }

  /** A step that is not about posts adds no postable notice. */
  lemma {:induction false} MoveNotices(u: Setup, t: Tables, pc: Pc, mv: Move, n: Notice)
    requires Fits(u, pc, mv) && Postable(n)
    ensures
      n in Apply(t, Go(u, t, pc, mv).write).notices <==>
        n in t.notices || (mv == Records && n == ErrandKey(pc.k, pc.errand))
  {
    WriteIsOwn(u, t, pc, mv);
    OwnWriteFrame(t, Go(u, t, pc, mv).write, pc.k);
  }

  /** Only an answer enters a hand, and only recording or dying empties it. */
  lemma {:induction false} MoveHands(u: Setup, t: Tables, pc: Pc, mv: Move)
    requires Fits(u, pc, mv)
    ensures
      var o := Go(u, t, pc, mv);
      && (InHand(pc) <==> mv == Records)
      && (InHand(o.pc) <==> o.reached && !o.lost)
      && (InHand(o.pc) ==> pc.Once? && o.pc.k == pc.k && o.pc.errand == pc.errand)
      && (o.reached ==> pc.Once? && pc.stage == InFlight && u.mode == Real)
      && (o.lost ==> o.reached && mv == Replies(AnswerLost))
  {
  }

  lemma {:induction false} MoveLogs(u: Setup, m: Machine, id: Id, mv: Move, n: Notice)
    requires Inv(u, m) && PostsOk(u, m) && Enabled(u, m, Moves(id, mv)) && Postable(n)
    requires m.log[n] == One(n in m.t.notices) + One(n in HandKeys(m.tasks)) + m.lost[n]
    ensures
      var x := Next(u, m, Moves(id, mv));
      x.log[n] == One(n in x.t.notices) + One(n in HandKeys(x.tasks)) + x.lost[n]
  {
    var pc, x := m.tasks[id], Next(u, m, Moves(id, mv));
    var o := Go(u, m.t, pc, mv);
    MoveNotices(u, m.t, pc, mv, n);
    MoveHands(u, m.t, pc, mv);
    HandMoves(u, m, id, o.pc, n);
    if InHand(pc) && ErrandKey(pc.k, pc.errand) == n {
      assert id in m.tasks && n in HandKeys(m.tasks);
      HandIsOne(u, m, id, id);
    }
    if o.reached && ErrandKey(pc.k, pc.errand) == n && n in HandKeys(m.tasks) {
      var i :| i in m.tasks && InHand(m.tasks[i]) && ErrandKey(m.tasks[i].k, m.tasks[i].errand) == n;
      HandIsOne(u, m, i, id);
    }
  }

  lemma {:induction false} SameHands(tasks: map<Id, Pc>, id: Id, pc: Pc)
    requires id !in tasks && !InHand(pc)
    ensures HandKeys(tasks[id := pc]) == HandKeys(tasks)
  {
    var after := tasks[id := pc];
    forall n | n in HandKeys(tasks) ensures n in HandKeys(after) {
      var i :| i in tasks && InHand(tasks[i]) && ErrandKey(tasks[i].k, tasks[i].errand) == n;
      assert i in after && InHand(after[i]);
    }
    forall n | n in HandKeys(after) ensures n in HandKeys(tasks) {
      var i :| i in after && InHand(after[i]) && ErrandKey(after[i].k, after[i].errand) == n;
      assert i in tasks && InHand(tasks[i]);
    }
  }

  lemma {:induction false} OverHoldsNothing(tasks: map<Id, Pc>)
    requires forall id <- tasks :: tasks[id].Over?
    ensures HandKeys(tasks) == {}
  {
  }

  lemma {:induction false} DeathLogs(u: Setup, m: Machine, id: Id, n: Notice)
    requires Inv(u, m) && PostsOk(u, m) && Enabled(u, m, Dies(id)) && Postable(n)
    requires m.log[n] == One(n in m.t.notices) + One(n in HandKeys(m.tasks)) + m.lost[n]
    ensures
      var x := Next(u, m, Dies(id));
      x.log[n] == One(n in x.t.notices) + One(n in HandKeys(x.tasks)) + x.lost[n]
  {
    var pc := m.tasks[id];
    HandMoves(u, m, id, Over(pc.k, G.Failed), n);
    if InHand(pc) && ErrandKey(pc.k, pc.errand) == n {
      assert n in HandKeys(m.tasks);
    }
  }

  lemma {:induction false} StepLogs(u: Setup, m: Machine, e: Event, n: Notice)
    requires Inv(u, m) && PostsOk(u, m) && Enabled(u, m, e) && Postable(n)
    requires m.log[n] == One(n in m.t.notices) + One(n in HandKeys(m.tasks)) + m.lost[n]
    ensures
      var x := Next(u, m, e);
      x.log[n] == One(n in x.t.notices) + One(n in HandKeys(x.tasks)) + x.lost[n]
  {
    match e {
      case Moves(id, mv) => MoveLogs(u, m, id, mv, n);
      case Dies(id) => DeathLogs(u, m, id, n);
      case Housekeeping(w) => HousekeepingNotices(u, m, w, n);
      case Watches(k) => SameHands(m.tasks, ForRow(k), Building(k));
      case Arrives(k) => SameHands(m.tasks, ForPr(k.repo, k.pr), Looking(k));
      case TickStarts(_) =>
        assert forall id <- m.tasks :: InPhase(u, m, id);
        OverHoldsNothing(m.tasks);
        OverHoldsNothing(map[]);
      case QueueOpens =>
        OverHoldsNothing(m.tasks);
        OverHoldsNothing(map[]);
      case _ => OverHoldsNothing(map[]);
    }
  }

  lemma {:induction false} LogHolds(u: Setup, m: Machine, es: seq<Event>, n: Notice)
    requires Inv(u, m) && PostsOk(u, m) && Runs(u, m, es) && Postable(n)
    requires m.log[n] == One(n in m.t.notices) + One(n in HandKeys(m.tasks)) + m.lost[n]
    ensures
      var x := After(u, m, es);
      x.log[n] == One(n in x.t.notices) + One(n in HandKeys(x.tasks)) + x.lost[n]
    decreases |es|
  {
    if es != [] {
      StepLogs(u, m, es[0], n);
      StepKeepsInv(u, m, es[0]);
      StepKeepsPosts(u, m, es[0]);
      LogHolds(u, Next(u, m, es[0]), es[1..], n);
    }
  }

  function Lapses(es: seq<Event>): nat {
    if es == [] then 0 else One(Lapse(es[0])) + Lapses(es[1..])
  }

  lemma {:induction false} StepLoses(u: Setup, m: Machine, e: Event, n: Notice)
    requires Enabled(u, m, e)
    ensures m.lost[n] <= Next(u, m, e).lost[n] <= m.lost[n] + One(Lapse(e))
  {
    if e.Moves? {
      MoveHands(u, m.t, m.tasks[e.id], e.mv);
    }
  }

  lemma {:induction false} RunLoses(u: Setup, m: Machine, es: seq<Event>, n: Notice)
    requires Runs(u, m, es)
    ensures m.lost[n] <= After(u, m, es).lost[n] <= m.lost[n] + Lapses(es)
    decreases |es|
  {
    if es != [] {
      StepLoses(u, m, es[0], n);
      RunLoses(u, Next(u, m, es[0]), es[1..], n);
    }
  }

  lemma {:induction false} PostsHold(u: Setup, m: Machine, es: seq<Event>)
    requires Inv(u, m) && PostsOk(u, m) && Runs(u, m, es)
    ensures PostsOk(u, After(u, m, es))
    decreases |es|
  {
    if es != [] {
      StepKeepsInv(u, m, es[0]);
      StepKeepsPosts(u, m, es[0]);
      PostsHold(u, Next(u, m, es[0]), es[1..]);
    }
  }

  /** `once_per` over whole runs: unless two approvals in the watch's window wait on one
      commit's build, GitHub takes a key's post once, and once more only for an answer that was lost; between ticks
      what it took and answered is what is recorded. */
  lemma {:induction false} OncePerKey(u: Setup, m: Machine, es: seq<Event>, n: Notice)
    requires AtRest(m) && LogOk(m) && Runs(u, m, es) && Postable(n)
    requires u.mode == Real ==> WatchedOnce(u, m.t, m.since)
    ensures
      var x := After(u, m, es);
      && x.log[n] <= 1 + x.lost[n] && x.lost[n] <= m.lost[n] + Lapses(es)
      && (x.phase == Idle ==> x.log[n] == One(n in x.t.notices) + x.lost[n])
      && (n in x.t.notices ==> x.log[n] >= 1)
  {
    OverHoldsNothing(m.tasks);
    LogHolds(u, m, es, n);
    RunLoses(u, m, es, n);
    InvHolds(u, m, es);
    PostsHold(u, m, es);
    var x := After(u, m, es);
    if x.phase == Idle {
      assert forall id <- x.tasks :: InPhase(u, x, id);
      OverHoldsNothing(x.tasks);
    }
    if n in HandKeys(x.tasks) {
      var i :| i in x.tasks && InHand(x.tasks[i]) && ErrandKey(x.tasks[i].k, x.tasks[i].errand) == n;
      HandIsOne(u, x, i, i);
    }
  }

  // ----- when two looks overlap -----------------------------------------------------------------------

  lemma JustOne(u: Setup, m: Machine, e: Event)
    requires Enabled(u, m, e)
    ensures Runs(u, m, [e]) && After(u, m, [e]) == Next(u, m, e)
  {
    var n := Next(u, m, e);
    assert Runs(u, n, []) && After(u, n, []) == n;
    OneStep(u, m, e, []);
    assert [e] + [] == [e];
  }

  lemma {:induction false} RunsOn(u: Setup, m: Machine, es: seq<Event>, more: seq<Event>)
    requires Runs(u, m, es) && Runs(u, After(u, m, es), more)
    ensures Runs(u, m, es + more) && After(u, m, es + more) == After(u, After(u, m, es), more)
    decreases |es|
  {
    if es == [] {
      assert es + more == more;
    } else {
      var n, rest := Next(u, m, es[0]), es[1..];
      RunsOn(u, n, rest, more);
      OneStep(u, m, es[0], rest + more);
      assert [es[0]] + (rest + more) == es + more;
    }
  }

  lemma {:induction false} ThenOne(u: Setup, m: Machine, es: seq<Event>, e: Event)
    requires Runs(u, m, es) && Enabled(u, After(u, m, es), e)
    ensures Runs(u, m, es + [e]) && After(u, m, es + [e]) == Next(u, After(u, m, es), e)
  {
    JustOne(u, After(u, m, es), e);
    RunsOn(u, m, es, [e]);
  }

  lemma {:induction false} LapsesAppend(a: seq<Event>, b: seq<Event>)
    ensures Lapses(a + b) == Lapses(a) + Lapses(b)
  {
    if a == [] {
      assert a + b == b;
    } else {
      assert (a + b)[0] == a[0] && (a + b)[1..] == a[1..] + b;
      LapsesAppend(a[1..], b);
    }
  }

  /** A look at an approval's red build, as far as its check. */
  function Look(k: Key): seq<Event> {
    [Watches(k), Moves(ForRow(k), Builds(BuildRed)), Moves(ForRow(k), Checks)]
  }

  function Posts(k: Key): seq<Event> {
    [Moves(ForRow(k), Replies(Reached(0)))]
  }

  lemma {:induction false} LookGoesOut(u: Setup, m: Machine, k: Key)
    requires u.mode == Real && m.phase == Watching && Followed(u, m.t, m.since, k) && ForRow(k) !in m.tasks
    requires RedNote(k) !in m.t.notices
    ensures Runs(u, m, Look(k)) && Lapses(Look(k)) == 0
    ensures After(u, m, Look(k)) == m.(tasks := m.tasks[ForRow(k) := Once(k, ApprovedRedErrand, InFlight)])
  {
    var a, b, c := Look(k)[0], Look(k)[1], Look(k)[2];
    LookSteps(u, m, k);
    JustOne(u, m, a);
    ThenOne(u, m, [a], b);
    ThenOne(u, m, [a] + [b], c);
    assert [a] + [b] + [c] == Look(k);
    NoLapseIn(Look(k));
  }

  lemma CheckGoesOut(u: Setup, m: Machine, k: Key)
    requires u.mode == Real && ForRow(k) in m.tasks && m.tasks[ForRow(k)] == Once(k, ApprovedRedErrand, Checking)
    requires RedNote(k) !in m.t.notices
    ensures Enabled(u, m, Moves(ForRow(k), Checks))
    ensures Next(u, m, Moves(ForRow(k), Checks))
            == m.(tasks := m.tasks[ForRow(k) := Once(k, ApprovedRedErrand, InFlight)])
  {
  }

  lemma LookSteps(u: Setup, m: Machine, k: Key)
    requires u.mode == Real && m.phase == Watching && Followed(u, m.t, m.since, k) && ForRow(k) !in m.tasks
    requires RedNote(k) !in m.t.notices
    ensures
      var a, b, c := Look(k)[0], Look(k)[1], Look(k)[2];
      && Enabled(u, m, a) && Enabled(u, Next(u, m, a), b) && Enabled(u, Next(u, Next(u, m, a), b), c)
      && Next(u, Next(u, Next(u, m, a), b), c)
         == m.(tasks := m.tasks[ForRow(k) := Once(k, ApprovedRedErrand, InFlight)])
  {
    var n := Next(u, Next(u, m, Watches(k)), Moves(ForRow(k), Builds(BuildRed)));
    assert n == m.(tasks := m.tasks[ForRow(k) := Once(k, ApprovedRedErrand, Checking)]);
    CheckGoesOut(u, n, k);
  }

  lemma {:induction false} PostGoesThrough(u: Setup, m: Machine, k: Key)
    requires u.mode == Real && ForRow(k) in m.tasks && m.tasks[ForRow(k)] == Once(k, ApprovedRedErrand, InFlight)
    ensures Runs(u, m, Posts(k)) && Lapses(Posts(k)) == 0
    ensures
      After(u, m, Posts(k))
      == m.(tasks := m.tasks[ForRow(k) := Once(k, ApprovedRedErrand, Arrived(0))], log := m.log + multiset{RedNote(k)})
  {
    JustOne(u, m, Posts(k)[0]);
    NoLapseIn(Posts(k));
  }

  lemma {:induction false} NoLapseIn(es: seq<Event>)
    requires forall e <- es :: !Lapse(e)
    ensures Lapses(es) == 0
  {
    if es != [] {
      NoLapseIn(es[1..]);
    }
  }

  /** Both looks read the key before either writes it. */
  function BothPost(since: int, a: Key, b: Key): seq<Event> {
    [TickStarts(since)] + (Look(a) + (Look(b) + (Posts(a) + Posts(b))))
  }

  /** Two approvals in the watch's window that wait on the build of one commit, as two forced
      passes over it leave behind, both post its red note: no answer is lost and GitHub takes the key twice. */
  lemma {:induction false} RivalsPostTwice(u: Setup, m: Machine, a: Key, b: Key)
    requires AtRest(m) && u.mode == Real && a != b && Rivals(u, m.t, m.since, a, b)
    ensures Runs(u, m, BothPost(m.since, a, b)) && Lapses(BothPost(m.since, a, b)) == 0
    ensures After(u, m, BothPost(m.since, a, b)).log[RedNote(a)] == m.log[RedNote(a)] + 2
    ensures After(u, m, BothPost(m.since, a, b)).lost == m.lost
  {
    var m1 := Next(u, m, TickStarts(m.since));
    LookGoesOut(u, m1, a);
    var m2 := After(u, m1, Look(a));
    LookGoesOut(u, m2, b);
    var m3 := After(u, m2, Look(b));
    PostGoesThrough(u, m3, a);
    var m4 := After(u, m3, Posts(a));
    PostGoesThrough(u, m4, b);
    RunsOn(u, m3, Posts(a), Posts(b));
    RunsOn(u, m2, Look(b), Posts(a) + Posts(b));
    RunsOn(u, m1, Look(a), Look(b) + (Posts(a) + Posts(b)));
    OneStep(u, m, TickStarts(m.since), Look(a) + (Look(b) + (Posts(a) + Posts(b))));
    LapsesAppend(Posts(a), Posts(b));
    LapsesAppend(Look(b), Posts(a) + Posts(b));
    LapsesAppend(Look(a), Look(b) + (Posts(a) + Posts(b)));
    LapsesAppend([TickStarts(m.since)], Look(a) + (Look(b) + (Posts(a) + Posts(b))));
    NoLapseIn([TickStarts(m.since)]);
    assert RedNote(a) == RedNote(b);
  }

  lemma SomeRivals(u: Setup, t: Tables, since: int) returns (a: Key, b: Key)
    requires !WatchedOnce(u, t, since)
    ensures Rivals(u, t, since, a, b) && a != b
  {
    a, b :| a in t.reviews && b in t.reviews && Rivals(u, t, since, a, b) && a != b;
  }

  /** Each key reaches GitHub once, plus once per lost answer of its own. */
  ghost predicate AtMostOnce(u: Setup, m: Machine) {
    forall es: seq<Event>, n: Notice ::
      Runs(u, m, es) && Postable(n) ==> After(u, m, es).log[n] <= 1 + After(u, m, es).lost[n]
  }

  /** Exactly which tables every real run posts at most once from: those where no two
      approvals in the watch's window wait on one commit's build while its red note is owed. */
  lemma {:induction false} AtMostOnceIff(u: Setup, m: Machine)
    requires AtRest(m) && LogOk(m) && u.mode == Real
    ensures AtMostOnce(u, m) <==> WatchedOnce(u, m.t, m.since)
  {
    if WatchedOnce(u, m.t, m.since) {
      forall es: seq<Event>, n: Notice | Runs(u, m, es) && Postable(n)
        ensures After(u, m, es).log[n] <= 1 + After(u, m, es).lost[n]
      {
        OncePerKey(u, m, es, n);
      }
    } else {
      var a, b := SomeRivals(u, m.t, m.since);
      RivalsPostTwice(u, m, a, b);
      OverHoldsNothing(m.tasks);
      assert Postable(RedNote(a));
      assert m.log[RedNote(a)] == m.lost[RedNote(a)];
    }
  }

  // ----- the quiet modes --------------------------------------------------------------------------

  lemma {:induction false} DryStep(u: Setup, m: Machine, e: Event)
    requires Inv(u, m) && u.mode == DryRun && Enabled(u, m, e) && !e.Restarts?
    ensures Next(u, m, e).t == m.t && Next(u, m, e).log == m.log
  {
    match e {
      case Moves(id, mv) =>
        assert EntryOk(u, m, id, m.tasks[id]);
        MoveHands(u, m.t, m.tasks[id], mv);
      case Housekeeping(w) => HousekeepingKeepsJudged(u, m, w);
      case _ =>
    }
  }

  /** A dry run leaves every table as it was and posts nothing, whatever its reads and its
      gates come to. */
  lemma {:induction false} DryRunWritesNothing(u: Setup, m: Machine, es: seq<Event>)
    requires Inv(u, m) && u.mode == DryRun && Runs(u, m, es) && forall e <- es :: !e.Restarts?
    ensures After(u, m, es).t == m.t && After(u, m, es).log == m.log
    decreases |es|
  {
    if es != [] {
      DryStep(u, m, es[0]);
      StepKeepsInv(u, m, es[0]);
      DryRunWritesNothing(u, Next(u, m, es[0]), es[1..]);
    }
  }

  /** The notices a run that posts nothing may still spend: that a PR was merged, and that
      an author has no Slack name. */
  predicate Spendable(n: Notice) {
    n.Merged? || n.NoMap?
  }

  lemma {:induction false} QuietMove(u: Setup, t: Tables, pc: Pc, mv: Move, n: Notice)
    requires Fits(u, pc, mv) && TaskOk(u, t, pc) && Quiet(u.mode)
    ensures n in Apply(t, Go(u, t, pc, mv).write).notices <==> n in t.notices
    ensures Apply(t, Go(u, t, pc, mv).write).seeded == t.seeded
    ensures !Go(u, t, pc, mv).reached
  {
    WriteIsOwn(u, t, pc, mv);
    OwnWriteFrame(t, Go(u, t, pc, mv).write, pc.k);
    MoveHands(u, t, pc, mv);
  }

  lemma {:induction false} NoPublishStep(u: Setup, m: Machine, e: Event, n: Notice)
    requires Inv(u, m) && u.mode == NoPublish && Enabled(u, m, e) && u.repos <= m.t.seeded
    ensures
      var x := Next(u, m, e);
      && Judged(x.t) == Judged(m.t) && x.log == m.log && u.repos <= x.t.seeded
      && (!Spendable(n) ==> (n in x.t.notices <==> n in m.t.notices))
  {
    match e {
      case Moves(id, mv) =>
        MoveKeepsJudged(u, m.t, m.tasks[id], mv);
        QuietMove(u, m.t, m.tasks[id], mv, n);
      case Housekeeping(w) =>
        HousekeepingKeepsJudged(u, m, w);
        if IsRetirement(w) { RetirementKeeps(m.t, w); }
      case _ => ReapKeeps(m.t);
    }
  }

  /** A run that publishes nothing, over repositories past cold start: whatever verdicts its
      containers return, the judged keys are the same set, GitHub got nothing, and of the
      notices only merges and unmapped authors may be new. */
  lemma {:induction false} NoPublishKeeps(u: Setup, m: Machine, es: seq<Event>, n: Notice)
    requires Inv(u, m) && u.mode == NoPublish && Runs(u, m, es) && u.repos <= m.t.seeded
    ensures
      var x := After(u, m, es);
      && Judged(x.t) == Judged(m.t) && x.log == m.log
      && (!Spendable(n) ==> (n in x.t.notices <==> n in m.t.notices))
    decreases |es|
  {
    if es != [] {
      NoPublishStep(u, m, es[0], n);
      StepKeepsInv(u, m, es[0]);
      NoPublishKeeps(u, Next(u, m, es[0]), es[1..], n);
    }
  }

  // ----- what a pass cost ---------------------------------------------------------------------------

  predicate Costs(t: Tables, k: Key, c: real) {
    k in t.reviews && t.reviews[k].cost == Some(c)
  }

  /** INSERT OR REPLACE keeps every recorded cost exactly when the key's row has none. */
  lemma {:induction false} ReplacingKeepsCostsIff(t: Tables, k: Key, now: int)
    ensures (forall j: Key, c: real :: Costs(t, j, c) ==> Costs(StartReview(t, k, now), j, c))
       <==> !(k in t.reviews && t.reviews[k].cost.Some?)
  {
    if k in t.reviews && t.reviews[k].cost.Some? {
      var c := t.reviews[k].cost.value;
      assert Costs(t, k, c) && !Costs(StartReview(t, k, now), k, c);
    }
  }

  /** Whose row a run may replace: the key of a PR's request, not of a forced run with a model
      of its own; then a key of a configured repo that is not seeded yet; a key
      that is not judged, in a real run; one whose commit is free, in a run that posts
      nothing. A dry run replaces none. */
  predicate Replaceable(u: Setup, t: Tables, k: Key) {
    u.mode != DryRun && k.repo in u.repos && Unforced(k)
    && (k.repo !in t.seeded || (if u.mode == Real then !KeyJudged(t, k) else ShaFree(t, k)))
  }

  lemma {:induction false} StaysIrreplaceable(u: Setup, m: Machine, e: Event, k: Key)
    requires Inv(u, m) && Enabled(u, m, e) && !Replaceable(u, m.t, k)
    ensures !Replaceable(u, Next(u, m, e).t, k)
  {
    var n := Next(u, m, e);
    StepKeepsJudged(u, m, e);
    StepKeepsSeeded(u, m, e);
    assert forall j: Key :: KeyJudged(m.t, j) ==> j in Judged(n.t);
    FreeMeans(m.t, k);
    FreeMeans(n.t, k);
  }

  lemma {:induction false} StepKeepsSeeded(u: Setup, m: Machine, e: Event)
    requires Enabled(u, m, e)
    ensures m.t.seeded <= Next(u, m, e).t.seeded
  {
    if e.Moves? {
      WriteIsOwn(u, m.t, m.tasks[e.id], e.mv);
      OwnWriteFrame(m.t, Go(u, m.t, m.tasks[e.id], e.mv).write, m.tasks[e.id].k);
    }
  }

  /** A task only replaces a row that may be. */
  lemma {:induction false} TasksReplace(u: Setup, m: Machine, id: Id, mv: Lifecycle.Move)
    requires Inv(u, m) && Enabled(u, m, Moves(id, mv))
    requires var w := Go(u, m.t, m.tasks[id], mv).write; w.Start? || w.Hold?
    ensures Replaceable(u, m.t, m.tasks[id].k)
  {
    var pc := m.tasks[id];
    assert EntryOk(u, m, id, pc) && InPhase(u, m, id);
    if mv.Starts? {
      FreeKey(m.t, pc.k);
    }
  }

  lemma {:induction false} ProperKeepsCost(u: Setup, t: Tables, w: Write, own: Key, k: Key, c: real)
    requires OwnWrite(w, own) && Proper(u, t, w, own) && Costs(t, k, c) && ((w.Start? || w.Hold?) ==> own != k)
    ensures Costs(Apply(t, w), k, c)
  {
    OwnWriteFrame(t, w, own);
  }

  lemma {:induction false} StepKeepsCost(u: Setup, m: Machine, e: Event, k: Key, c: real)
    requires Inv(u, m) && Enabled(u, m, e) && Costs(m.t, k, c) && !Replaceable(u, m.t, k)
    ensures Costs(Next(u, m, e).t, k, c)
  {
    match e {
      case Moves(id, mv) =>
        var w := Go(u, m.t, m.tasks[id], mv).write;
        WriteIsOwn(u, m.t, m.tasks[id], mv);
        MoveIsProper(u, m.t, m.tasks[id], mv);
        if w.Start? || w.Hold? {
          TasksReplace(u, m, id, mv);
        }
        ProperKeepsCost(u, m.t, w, m.tasks[id].k, k, c);
      case Housekeeping(w) =>
        if IsRetirement(w) { RetirementKeeps(m.t, w); }
      case _ =>
    }
  }

  lemma {:induction false} CostStays(u: Setup, m: Machine, es: seq<Event>, k: Key, c: real)
    requires Inv(u, m) && Runs(u, m, es) && Costs(m.t, k, c) && !Replaceable(u, m.t, k)
    ensures Costs(After(u, m, es).t, k, c)
    decreases |es|
  {
    if es != [] {
      StepKeepsCost(u, m, es[0], k, c);
      StaysIrreplaceable(u, m, es[0], k);
      StepKeepsInv(u, m, es[0]);
      CostStays(u, Next(u, m, es[0]), es[1..], k, c);
    }
  }

  // ----- and how it is lost ---------------------------------------------------------------------------

  /** A PR that carries no label, changes `files` files and owes us nothing. */
  function Quietly(files: nat): G.Facts {
    G.Facts([], files, 0, [])
  }

  lemma {:induction false} UnlabeledFacts(u: Setup, files: nat, shaJudged: bool)
    ensures files == 0 ==> var d := G.Evaluate(Quietly(files), u.rules, shaJudged); d.action == G.Hold && d.record
    ensures files > 0 && !shaJudged ==> G.Evaluate(Quietly(files), u.rules, shaJudged).action == G.Review
  {
  }

  /** A PR's turn as far as its decision. */
  function Gated(k: Key, files: nat): seq<Event> {
    [Arrives(k)] + [Moves(ForPr(k.repo, k.pr), Looks)] + [Moves(ForPr(k.repo, k.pr), Evaluates(Quietly(files)))]
  }

  lemma {:induction false} GatedRuns(u: Setup, m: Machine, k: Key, files: nat)
    requires m.phase == Queueing && m.tasks == map[] && k.repo in u.repos && k.repo in m.t.seeded
    requires !KeyJudged(m.t, k) && Unforced(k)
    ensures Runs(u, m, Gated(k, files))
    ensures
      var d := G.Evaluate(Quietly(files), u.rules, ShaJudged(m.t, k.repo, k.pr, k.head));
      After(u, m, Gated(k, files)) == m.(tasks := map[ForPr(k.repo, k.pr) := Evaluated(u, k, d)])
  {
    var id := ForPr(k.repo, k.pr);
    var a, b, c := Arrives(k), Moves(id, Looks), Moves(id, Evaluates(Quietly(files)));
    JustOne(u, m, a);
    ThenOne(u, m, [a], b);
    assert Next(u, Next(u, m, a), b) == m.(tasks := map[id := Evaluating(k)]);
    ThenOne(u, m, [a] + [b], c);
  }

  lemma {:induction false} HoldReplaces(u: Setup, m: Machine, k: Key)
    requires u.mode == Real && m.phase == Queueing && m.tasks == map[] && k.repo in u.repos && k.repo in m.t.seeded
    requires !KeyJudged(m.t, k) && Unforced(k)
    ensures
      var es := Gated(k, 0) + [Moves(ForPr(k.repo, k.pr), TellsHold)] + [Moves(ForPr(k.repo, k.pr), RecordsHold(0))];
      Runs(u, m, es) && k in After(u, m, es).t.reviews && After(u, m, es).t.reviews[k].cost.None?
  {
    var id, es := ForPr(k.repo, k.pr), Gated(k, 0);
    GatedRuns(u, m, k, 0);
    var d := G.Evaluate(Quietly(0), u.rules, ShaJudged(m.t, k.repo, k.pr, k.head));
    UnlabeledFacts(u, 0, ShaJudged(m.t, k.repo, k.pr, k.head));
    var told := After(u, m, es);
    HoldIsRecorded(u, told, id, d);
    ThenOne(u, m, es, Moves(id, TellsHold));
    ThenOne(u, m, es + [Moves(id, TellsHold)], Moves(id, RecordsHold(0)));
  }

  /** A hold that leaves a row, told and recorded. */
  lemma HoldIsRecorded(u: Setup, m: Machine, id: Id, d: G.Decision)
    requires u.mode == Real && id in m.tasks && m.tasks[id].Telling? && m.tasks[id].d == d && d.record
    ensures
      var n := Next(u, m, Moves(id, TellsHold));
      && Enabled(u, n, Moves(id, RecordsHold(0)))
      && var t, k := Next(u, n, Moves(id, RecordsHold(0))).t, m.tasks[id].k;
         k in t.reviews && t.reviews[k].cost.None?
  {
  }

  lemma {:induction false} StartReplaces(u: Setup, m: Machine, k: Key)
    requires u.mode == NoPublish && m.phase == Queueing && m.tasks == map[] && k.repo in u.repos && k.repo in m.t.seeded
    requires ShaFree(m.t, k) && Unforced(k)
    ensures
      var es := Gated(k, 1) + [Moves(ForPr(k.repo, k.pr), Starts(0))];
      Runs(u, m, es) && After(u, m, es).t == StartReview(m.t, k, 0)
  {
    FreeKey(m.t, k);
    GatedRuns(u, m, k, 1);
    UnlabeledFacts(u, 1, ShaJudged(m.t, k.repo, k.pr, k.head));
    ThenOne(u, m, Gated(k, 1), Moves(ForPr(k.repo, k.pr), Starts(0)));
  }

  /** The run that replaces the row, once the queue is open: the tick seeds its repo, holds
      its PR as empty, or starts a container for it. */
  function Replaces(u: Setup, t: Tables, k: Key): seq<Event> {
    var id := ForPr(k.repo, k.pr);
    if k.repo !in t.seeded then [Housekeeping(Write.Hold(k, "backlog at cold start", 0))]
    else if u.mode == Real then Gated(k, 0) + [Moves(id, TellsHold)] + [Moves(id, RecordsHold(0))]
    else Gated(k, 1) + [Moves(id, Starts(0))]
  }

  /** The opened queue of a tick, over the tables it began with. */
  function OpenQueue(m: Machine): Machine {
    m.(phase := Queueing, tasks := map[], base := Judged(m.t))
  }

  lemma {:induction false} QueueIsOpened(u: Setup, m: Machine, es: seq<Event>)
    requires AtRest(m) && Runs(u, OpenQueue(m), es)
    ensures
      var all := [TickStarts(m.since), QueueOpens] + es;
      Runs(u, m, all) && After(u, m, all) == After(u, OpenQueue(m), es)
  {
    var m1 := Next(u, m, TickStarts(m.since));
    assert Next(u, m1, QueueOpens) == OpenQueue(m);
    OneStep(u, m1, QueueOpens, es);
    OneStep(u, m, TickStarts(m.since), [QueueOpens] + es);
    assert [TickStarts(m.since)] + ([QueueOpens] + es) == [TickStarts(m.since), QueueOpens] + es;
  }

  /** A PR number no row has. */
  lemma {:induction false} FreshPr(s: set<Key>) returns (pr: int)
    ensures forall k <- s :: k.pr < pr
    decreases |s|
  {
    pr := 0;
    if s != {} {
      var k := SomeKey(s);
      var rest := FreshPr(s - {k});
      pr := if k.pr < rest then rest else k.pr + 1;
      assert forall j <- s :: j == k || j in s - {k};
    }
  }

  lemma SomeKey(s: set<Key>) returns (k: Key)
    requires s != {}
    ensures k in s
  {
    k :| k in s;
  }

  /** Cold start judges a backlog, whatever the mode that is not dry: a run that publishes
      nothing can add to the judged keys exactly when a configured repo is not seeded. */
  lemma {:induction false} NoPublishKeepsIff(u: Setup, m: Machine)
    requires AtRest(m) && u.mode == NoPublish
    ensures (forall es: seq<Event> :: Runs(u, m, es) ==> Judged(After(u, m, es).t) == Judged(m.t))
       <==> u.repos <= m.t.seeded
  {
    if u.repos <= m.t.seeded {
      forall es: seq<Event> | Runs(u, m, es) ensures Judged(After(u, m, es).t) == Judged(m.t) {
        NoPublishKeeps(u, m, es, Merged("", 0));
      }
    } else {
      var repo := Unseeded(u, m.t);
      var pr := FreshPr(m.t.reviews.Keys);
      SeedingJudges(u, m, Key(repo, pr, "", "norq"));
    }
  }

  lemma Unseeded(u: Setup, t: Tables) returns (repo: Repo)
    requires !(u.repos <= t.seeded)
    ensures repo in u.repos && repo !in t.seeded
  {
    repo :| repo in u.repos && repo !in t.seeded;
  }

  lemma {:induction false} SeedingJudges(u: Setup, m: Machine, k: Key)
    requires AtRest(m) && u.mode == NoPublish && k.repo in u.repos && k.repo !in m.t.seeded && k !in m.t.reviews
    requires Unforced(k)
    ensures
      var es := [TickStarts(m.since), QueueOpens] + [Housekeeping(Write.Hold(k, "backlog at cold start", 0))];
      Runs(u, m, es) && Judged(After(u, m, es).t) != Judged(m.t)
  {
    var hold := Housekeeping(Write.Hold(k, "backlog at cold start", 0));
    JustOne(u, OpenQueue(m), hold);
    QueueIsOpened(u, m, [hold]);
    var n := After(u, m, [TickStarts(m.since), QueueOpens] + [hold]);
    assert k in Judged(n.t) && k !in Judged(m.t);
  }

  lemma {:induction false} ReplaceableIsLost(u: Setup, m: Machine, k: Key, c: real)
    requires AtRest(m) && Costs(m.t, k, c) && Replaceable(u, m.t, k)
    ensures
      var es := [TickStarts(m.since), QueueOpens] + Replaces(u, m.t, k);
      Runs(u, m, es) && !Costs(After(u, m, es).t, k, c)
  {
    var q, es := OpenQueue(m), Replaces(u, m.t, k);
    if k.repo !in m.t.seeded {
      JustOne(u, q, es[0]);
    } else if u.mode == Real {
      HoldReplaces(u, q, k);
    } else {
      StartReplaces(u, q, k);
      ReplacingKeepsCostsIff(m.t, k, 0);
    }
    QueueIsOpened(u, m, es);
  }

  /** Exactly which recorded costs every run keeps: those on rows it may not replace. Over a
      seeded repo that is a judged key in a real run, and one whose commit is judged in a run
      that posts nothing. */
  lemma {:induction false} CostKeptIff(u: Setup, m: Machine, k: Key, c: real)
    requires AtRest(m) && Costs(m.t, k, c)
    ensures (forall es: seq<Event> :: Runs(u, m, es) ==> Costs(After(u, m, es).t, k, c)) <==> !Replaceable(u, m.t, k)
  {
    if Replaceable(u, m.t, k) {
      ReplaceableIsLost(u, m, k, c);
    } else {
      forall es: seq<Event> | Runs(u, m, es) ensures Costs(After(u, m, es).t, k, c) {
        CostStays(u, m, es, k, c);
      }
    }
  }

  /** The family that is lost: every step of a run that posts nothing which writes a cost
      writes it on a row that the next run, quiet or real, may replace. */
  lemma {:induction false} QuietPassIsLost(u: Setup, m: Machine, id: Id, mv: Lifecycle.Move, next: Setup)
    requires u.mode == NoPublish && Inv(u, m) && Enabled(u, m, Moves(id, mv))
    requires var w := Go(u, m.t, m.tasks[id], mv).write; w.Finish? && w.c.cost.Some?
    requires next.mode != DryRun && m.tasks[id].k.repo in next.repos
    ensures
      var k, c := m.tasks[id].k, Go(u, m.t, m.tasks[id], mv).write.c.cost.value;
      var n := Next(u, m, Moves(id, mv)).t;
      Costs(n, k, c) && Replaceable(next, n, k)
  {
    var pc := m.tasks[id];
    assert EntryOk(u, m, id, pc);
    CostIsOnFreeRow(u, m.t, pc, mv);
    OnlyTurnsCost(u, m.t, id, pc, mv);
    FreeKey(Apply(m.t, Go(u, m.t, pc, mv).write), pc.k);
  }

  lemma {:induction false} CostIsOnFreeRow(u: Setup, t: Tables, pc: Pc, mv: Lifecycle.Move)
    requires u.mode == NoPublish && TaskOk(u, t, pc) && Fits(u, pc, mv)
    requires var w := Go(u, t, pc, mv).write; w.Finish? && w.c.cost.Some?
    ensures
      var w := Go(u, t, pc, mv).write;
      Costs(Apply(t, w), pc.k, w.c.cost.value) && ShaFree(Apply(t, w), pc.k)
  {
    var w := Go(u, t, pc, mv).write;
    WriteIsOwn(u, t, pc, mv);
    MoveIsProper(u, t, pc, mv);
    assert UnderWay(u, t, pc.k) && w.state == RowState.Failed;
    FailedStaysFree(t, pc.k, w.c);
  }

  lemma {:induction false} OnlyTurnsCost(u: Setup, t: Tables, id: Id, pc: Pc, mv: Lifecycle.Move)
    requires IdFits(id, pc) && Fits(u, pc, mv)
    requires var w := Go(u, t, pc, mv).write; w.Finish? && w.c.cost.Some?
    ensures id.ForPr? && Unforced(pc.k)
  {
    assert !ForWatch(pc);
  }

  // ----- the beginning -------------------------------------------------------------------------------

  /** An empty database and a GitHub that took nothing are a place every run may start, and
      every fact about rows holds there. */
  lemma ColdStart(u: Setup, since: int)
    ensures
      var m := Machine(EMPTY, Idle, map[], multiset{}, multiset{}, {}, since);
      && AtRest(m) && LogOk(m) && Inv(u, m) && PostsOk(u, m)
      && PublishedOnce(m.t) && RedIsNoted(m.t) && CostIsJudged(m.t) && WatchedOnce(u, m.t, m.since)
  {
  }
}

/** What every interleaving keeps. */
module Safety {
  import opened Options
  import opened Store
  import opened Lifecycle
  import G = Gates

  // ----- the invariant ---------------------------------------------------------------------

  function One(b: bool): nat {
    if b then 1 else 0
  }

  predicate ShaFree(t: Tables, k: Key) {
    !ShaJudged(t, k.repo, k.pr, k.head)
  }

  /** The row of a review whose container was started and which is not judged yet. */
  predicate UnderWay(u: Setup, t: Tables, k: Key) {
    u.mode != DryRun && k in t.reviews && t.reviews[k].state == RowState.Running && t.reviews[k].cost.None?
      && ShaFree(t, k)
  }

  /** The row of a review that came back with a usable verdict. */
  predicate Delivered(u: Setup, t: Tables, k: Key) {
    u.mode != DryRun && k in t.reviews && t.reviews[k].state == PassState(u.mode, Published)
    && (u.mode == NoPublish ==> ShaFree(t, k))
  }

  /** The row of a review with findings, and the verdict and cost that went into it. */
  predicate FindingsOut(u: Setup, t: Tables, k: Key, r: Result) {
    Delivered(u, t, k) && t.reviews[k].cost == r.cost && r.verdict.Some? && r.verdict != Some(Approve)
  }

  predicate RowWatched(t: Tables, k: Key) {
    k in t.reviews && Watched(t.reviews[k])
  }

  /** What a task may rely on at each place. */
  predicate TaskOk(u: Setup, t: Tables, pc: Pc) {
    match pc
    case Looking(k) => true
    case Evaluating(k) => !KeyJudged(t, k)
    case Telling(k, _) => !KeyJudged(t, k)
    case Recording(k, _) => !KeyJudged(t, k) && u.mode == Real
    case Asking(k) => u.mode != DryRun && ShaFree(t, k)
    case InContainer(k) => UnderWay(u, t, k)
    case Failing(k, _) => UnderWay(u, t, k)
    case Clearing(k, r) => UnderWay(u, t, k)
    case Retracting(k, r) => UnderWay(u, t, k)
    case Requesting(k, r) => UnderWay(u, t, k)
    case Approving(k, r) => UnderWay(u, t, k)
    case Once(k, e, stage) => ErrandOk(u, t, k, e) && (stage.Arrived? ==> u.mode == Real)
    case Inlining(k, r, _) => FindingsOut(u, t, k, r) && u.mode == Real
    case Building(k) => RowWatched(t, k)
    case Settling(k, ci) =>
      RowWatched(t, k) && (ci == Red && u.mode == Real ==> Posted(ApprovedRedNote, k.repo, k.pr, k.head) in t.notices)
    case Over(k, action) => action == G.Review && u.mode == Real ==> KeyJudged(t, k)
  }

  predicate ErrandOk(u: Setup, t: Tables, k: Key, e: Errand) {
    match e
    case CiRedErrand => !KeyJudged(t, k)
    case RunCiErrand(r) => UnderWay(u, t, k)
    case ReviewErrand(r) => FindingsOut(u, t, k, r)
    case ApprovedErrand => Delivered(u, t, k)
    case ApprovedRedErrand => RowWatched(t, k)
  }

  predicate ForWatch(pc: Pc) {
    pc.Building? || pc.Settling? || (pc.Once? && pc.errand == ApprovedRedErrand)
  }

  predicate IdFits(id: Id, pc: Pc) {
    match id
    case ForRow(k) => pc.k == k && (ForWatch(pc) || (pc.Over? && pc.action != G.Review))
    case ForPr(repo, pr) => pc.k.repo == repo && pc.k.pr == pr && !ForWatch(pc) && Unforced(pc.k)
  }

  /** Which places only a key that was not judged when the tick began can reach. */
  predicate IsFresh(pc: Pc) {
    if pc.Over? then pc.action == G.Review else !pc.Looking? && !ForWatch(pc)
  }

  predicate InPhase(u: Setup, m: Machine, id: Id) {
    && (m.phase == Watching ==> id.ForRow?)
    && (m.phase == Queueing ==> id.ForPr? && id.repo in m.t.seeded && id.repo in u.repos)
    && (m.phase == Idle ==> id in m.tasks && m.tasks[id].Over?)
  }

  predicate TasksOk(u: Setup, m: Machine) {
    forall id <- m.tasks ::
      IdFits(id, m.tasks[id]) && InPhase(u, m, id) && TaskOk(u, m.t, m.tasks[id])
      && (IsFresh(m.tasks[id]) ==> m.tasks[id].k !in m.base)
  }

  predicate SameCommit(a: Key, b: Key) {
    a.repo == b.repo && a.pr == b.pr && a.head == b.head
  }

  predicate Inv(u: Setup, m: Machine) {
    TasksOk(u, m) && m.base <= Judged(m.t)
  }

  /** What one entry of the task table must satisfy. */
  predicate EntryOk(u: Setup, m: Machine, id: Id, pc: Pc) {
    IdFits(id, pc) && TaskOk(u, m.t, pc) && (IsFresh(pc) ==> pc.k !in m.base)
  }

  // ----- frames ----------------------------------------------------------------------------

  /** The statement touched no row but `k`'s. */
  predicate OnlyRow(t: Tables, n: Tables, k: Key) {
    && (forall j <- t.reviews :: j != k ==> j in n.reviews && n.reviews[j] == t.reviews[j])
    && (forall j <- n.reviews :: j != k ==> j in t.reviews)
  }

  /** The statement left every row's state and cost. */
  predicate SameStates(t: Tables, n: Tables) {
    && n.reviews.Keys == t.reviews.Keys
    && forall j <- t.reviews :: n.reviews[j].state == t.reviews[j].state && n.reviews[j].cost == t.reviews[j].cost
  }

  predicate KeptRow(t: Tables, n: Tables, k: Key) {
    k in t.reviews ==> k in n.reviews && n.reviews[k] == t.reviews[k]
  }

  predicate KeptPr(t: Tables, n: Tables, repo: Repo, pr: int) {
    && (forall j: Key :: j.repo == repo && j.pr == pr && j in t.reviews ==>
          j in n.reviews && n.reviews[j].state == t.reviews[j].state && n.reviews[j].cost == t.reviews[j].cost)
    && (forall j: Key :: j.repo == repo && j.pr == pr && j in n.reviews ==> j in t.reviews)
  }

  /** What a task of this id looks at is as it was. */
  predicate Kept(t: Tables, n: Tables, id: Id) {
    match id
    case ForRow(k) => KeptRow(t, n, k)
    case ForPr(repo, pr) => KeptPr(t, n, repo, pr)
  }

  lemma {:induction false} KeptSha(t: Tables, n: Tables, k: Key)
    requires KeptPr(t, n, k.repo, k.pr)
    ensures ShaFree(n, k) <==> ShaFree(t, k)
    ensures KeyJudged(n, k) <==> KeyJudged(t, k)
  {
    assert forall j: Key :: SameCommit(j, k) && KeyJudged(t, j) ==> KeyJudged(n, j);
    assert forall j: Key :: SameCommit(j, k) && KeyJudged(n, j) ==> KeyJudged(t, j);
    FreeMeans(t, k);
    FreeMeans(n, k);
  }

  lemma {:induction false} FreeMeans(t: Tables, k: Key)
    ensures ShaFree(t, k) <==> forall j: Key :: SameCommit(j, k) ==> !KeyJudged(t, j)
  {
    if !ShaFree(t, k) {
      var j :| j in t.reviews && j.repo == k.repo && j.pr == k.pr && j.head == k.head && IsJudged(t.reviews[j]);
      assert SameCommit(j, k) && KeyJudged(t, j);
    } else {
      forall j: Key | SameCommit(j, k) ensures !KeyJudged(t, j) {
      }
    }
  }

  /** A task whose rows others left alone keeps what it relies on. */
  lemma {:induction false} OtherKeeps(u: Setup, t: Tables, n: Tables, id: Id, pc: Pc)
    requires IdFits(id, pc) && TaskOk(u, t, pc) && Kept(t, n, id) && t.notices <= n.notices
    ensures TaskOk(u, n, pc)
  {
    if id.ForPr? {
      KeptSha(t, n, pc.k);
    }
  }

  // ----- one step of a task ------------------------------------------------------------------

  predicate TouchesRow(w: Write, k: Key) {
    (w.Start? || w.Finish? || w.Hold? || w.Ci?) && w.k == k
  }

  /** A task's statement is about its own row, or adds one notice, or records spend. */
  predicate OwnWrite(w: Write, k: Key) {
    w.Nothing? || TouchesRow(w, k) || w.Note? || w.Pay?
  }

  lemma {:induction false} WriteIsOwn(u: Setup, t: Tables, pc: Pc, mv: Move)
    requires Fits(u, pc, mv)
    ensures OwnWrite(Go(u, t, pc, mv).write, pc.k) && Go(u, t, pc, mv).pc.k == pc.k
  {
  }

  lemma {:induction false} OwnWriteFrame(t: Tables, w: Write, k: Key)
    requires OwnWrite(w, k)
    ensures OnlyRow(t, Apply(t, w), k)
    ensures Apply(t, w).notices == if w.Note? then t.notices + {w.n} else t.notices
    ensures Apply(t, w).seeded == t.seeded
  {
  }

  /** Finishing an unjudged row as failed leaves its commit free. */
  lemma {:induction false} FailedStaysFree(t: Tables, k: Key, c: Columns)
    requires ShaFree(t, k)
    ensures ShaFree(FinishReview(t, k, RowState.Failed, c), k)
  {
    FreeMeans(t, k);
    FreeMeans(FinishReview(t, k, RowState.Failed, c), k);
  }

  lemma {:induction false} StartStaysFree(t: Tables, k: Key, now: int)
    requires ShaFree(t, k)
    ensures ShaFree(StartReview(t, k, now), k)
  {
    FreeMeans(t, k);
    FreeMeans(StartReview(t, k, now), k);
  }

  lemma {:induction false} FreeKey(t: Tables, k: Key)
    requires ShaFree(t, k)
    ensures !KeyJudged(t, k)
  {
    FreeMeans(t, k);
    assert SameCommit(k, k);
  }

  /** The gate's part: up to the slot. */
  lemma {:induction false} GateMoveOk(u: Setup, t: Tables, pc: Pc, mv: Move)
    requires Fits(u, pc, mv) && TaskOk(u, t, pc)
    requires mv.Looks? || mv.Evaluates? || mv.TellsHold? || mv.RecordsHold? || mv.IsRefused?
    ensures TaskOk(u, Apply(t, Go(u, t, pc, mv).write), Go(u, t, pc, mv).pc)
  {
    if mv.Evaluates? {
      G.ReviewIff(mv.f, u.rules, ShaJudged(t, pc.k.repo, pc.k.pr, pc.k.head));
    }
  }

  lemma {:induction false} ReturnMoveOk(u: Setup, t: Tables, pc: Pc, r: Result)
    requires pc.InContainer? && TaskOk(u, t, pc)
    ensures TaskOk(u, Apply(t, Returned(u, pc.k, r).write), Returned(u, pc.k, r).pc)
  {
    FailedStaysFree(t, pc.k, Common(u.mode, r, None, None, None));
  }

  lemma {:induction false} RunMoveOk(u: Setup, t: Tables, pc: Pc, mv: Move)
    requires Fits(u, pc, mv) && TaskOk(u, t, pc)
    requires mv.Starts? || mv.RunFails? || mv.MarksFailed? || mv.ReturnsNoBlocks?
    ensures TaskOk(u, Apply(t, Go(u, t, pc, mv).write), Go(u, t, pc, mv).pc)
  {
    match mv {
      case Starts(now) => StartStaysFree(t, pc.k, now);
      case RunFails(cost, onEndpoint, _) => KeptSha(t, RecordSpend(t, FailedSpend(pc.k, cost, onEndpoint)), pc.k);
      case _ =>
    }
  }

  lemma {:induction false} DeliverMoveOk(u: Setup, t: Tables, pc: Pc, mv: Move)
    requires Fits(u, pc, mv) && TaskOk(u, t, pc)
    requires mv.Clears? || mv.Retracts? || mv.ReadsCi? || mv.Approves? || mv.Inlines?
    ensures TaskOk(u, Apply(t, Go(u, t, pc, mv).write), Go(u, t, pc, mv).pc)
  {
    match mv {
      case Retracts(_) => KeptSha(t, Apply(t, Go(u, t, pc, mv).write), pc.k);
      case Approves =>
        FailedStaysFree(t, pc.k, Common(u.mode, pc.r, None, Some(0), None));
      case _ =>
    }
  }

  /** Asking whether a key is out, and an answer that ends the errand without a post. */
  lemma {:induction false} CheckMoveOk(u: Setup, t: Tables, pc: Pc)
    requires Fits(u, pc, Checks) && TaskOk(u, t, pc)
    ensures Go(u, t, pc, Checks).write == Nothing && TaskOk(u, t, Go(u, t, pc, Checks).pc)
  {
  }

  lemma {:induction false} ReplyMoveOk(u: Setup, t: Tables, pc: Pc, reply: Reply)
    requires Fits(u, pc, Replies(reply)) && TaskOk(u, t, pc)
    ensures Go(u, t, pc, Replies(reply)).write == Nothing && TaskOk(u, t, Go(u, t, pc, Replies(reply)).pc)
  {
  }

  lemma {:induction false} RecordMoveOk(u: Setup, t: Tables, pc: Pc)
    requires Fits(u, pc, Records) && TaskOk(u, t, pc)
    ensures TaskOk(u, Apply(t, Go(u, t, pc, Records).write), Go(u, t, pc, Records).pc)
  {
    KeptSha(t, Notice1(t, ErrandKey(pc.k, pc.errand)), pc.k);
  }

  lemma {:induction false} WatchMoveOk(u: Setup, t: Tables, pc: Pc, mv: Move)
    requires Fits(u, pc, mv) && TaskOk(u, t, pc)
    requires mv.Builds? || mv.Settles?
    ensures TaskOk(u, Apply(t, Go(u, t, pc, mv).write), Go(u, t, pc, mv).pc)
  {
  }

  lemma {:induction false} OwnMoveOk(u: Setup, t: Tables, pc: Pc, mv: Move)
    requires Fits(u, pc, mv) && TaskOk(u, t, pc)
    ensures TaskOk(u, Apply(t, Go(u, t, pc, mv).write), Go(u, t, pc, mv).pc)
  {
    if mv.Looks? || mv.Evaluates? || mv.TellsHold? || mv.RecordsHold? || mv.IsRefused? {
      GateMoveOk(u, t, pc, mv);
    } else if mv.RunReturns? {
      ReturnMoveOk(u, t, pc, mv.r);
    } else if mv.Starts? || mv.RunFails? || mv.MarksFailed? || mv.ReturnsNoBlocks? {
      RunMoveOk(u, t, pc, mv);
    } else if mv.Clears? || mv.Retracts? || mv.ReadsCi? || mv.Approves? || mv.Inlines? {
      DeliverMoveOk(u, t, pc, mv);
    } else if mv.Builds? || mv.Settles? {
      WatchMoveOk(u, t, pc, mv);
    } else if mv.Checks? {
      CheckMoveOk(u, t, pc);
    } else if mv.Records? {
      RecordMoveOk(u, t, pc);
    } else {
      ReplyMoveOk(u, t, pc, mv.reply);
    }
  }

  lemma {:induction false} MoveKeepsId(u: Setup, t: Tables, id: Id, pc: Pc, mv: Move)
    requires Fits(u, pc, mv) && IdFits(id, pc) && !pc.Over?
    ensures IdFits(id, Go(u, t, pc, mv).pc)
    ensures IsFresh(Go(u, t, pc, mv).pc) ==> IsFresh(pc) || (pc.Looking? && !KeyJudged(t, pc.k))
  {
  }

  // ----- one step of a task: the others, the rows ------------------------------------------------

  lemma {:induction false} OthersKeep(u: Setup, m: Machine, id: Id, other: Id, n: Tables)
    requires id in m.tasks && other in m.tasks && other != id && m.phase != Idle
    requires IdFits(id, m.tasks[id]) && InPhase(u, m, id) && InPhase(u, m, other) && OnlyRow(m.t, n, m.tasks[id].k)
    ensures Kept(m.t, n, other)
  {
  }

  lemma {:induction false} MoveKeepsOther(u: Setup, m: Machine, id: Id, mv: Move, other: Id)
    requires Inv(u, m) && Enabled(u, m, Moves(id, mv)) && other in m.tasks && other != id
    ensures TaskOk(u, Next(u, m, Moves(id, mv)).t, m.tasks[other])
  {
    var pc, n := m.tasks[id], Next(u, m, Moves(id, mv)).t;
    WriteIsOwn(u, m.t, pc, mv);
    OwnWriteFrame(m.t, Go(u, m.t, pc, mv).write, pc.k);
    assert IdFits(id, pc) && IdFits(other, m.tasks[other]) && InPhase(u, m, id) && InPhase(u, m, other);
    OthersKeep(u, m, id, other, n);
    OtherKeeps(u, m.t, n, other, m.tasks[other]);
  }

  /** What makes a task's statement about its row sound, in terms of the tables alone. */
  predicate Proper(u: Setup, t: Tables, w: Write, k: Key) {
    match w
    case Start(_, _) => ShaFree(t, k)
    case Hold(_, _, _) => u.mode == Real && !KeyJudged(t, k)
    case Finish(_, state, c) =>
      c.ci != Some(Red) &&
      (if k in t.reviews && t.reviews[k].state == Published then
         && u.mode == Real && state == Published && c.ci.None? && c.verdict.Some? && c.verdict != Some(Approve)
         && (c.cost.Some? ==> c.cost == t.reviews[k].cost)
       else
         && UnderWay(u, t, k) && (u.mode == NoPublish ==> state == RowState.Failed)
         && (u.mode == Real && c.cost.Some? ==> state == Held || state == Published))
    case Ci(_, ci) =>
      u.mode == Real && RowWatched(t, k) && (ci == Red ==> Posted(ApprovedRedNote, k.repo, k.pr, k.head) in t.notices)
    case _ => true
  }

  lemma {:induction false} MoveIsProper(u: Setup, t: Tables, pc: Pc, mv: Move)
    requires Fits(u, pc, mv) && TaskOk(u, t, pc)
    ensures Proper(u, t, Go(u, t, pc, mv).write, pc.k)
  {
    if mv.Starts? {
      FreeKey(t, pc.k);
    }
  }

  /** A proper statement never unjudges a key, and in a quiet mode it judges none. */
  lemma {:induction false} ProperKeepsJudged(u: Setup, t: Tables, w: Write, k: Key)
    requires OwnWrite(w, k) && Proper(u, t, w, k)
    ensures Judged(t) <= Judged(Apply(t, w))
    ensures u.mode != Real ==> Judged(Apply(t, w)) == Judged(t)
  {
    OwnWriteFrame(t, w, k);
    if w.Start? {
      FreeKey(t, k);
    }
  }

  lemma {:induction false} MoveKeepsJudged(u: Setup, t: Tables, pc: Pc, mv: Move)
    requires Fits(u, pc, mv) && TaskOk(u, t, pc)
    ensures Judged(t) <= Judged(Apply(t, Go(u, t, pc, mv).write))
    ensures u.mode != Real ==> Judged(Apply(t, Go(u, t, pc, mv).write)) == Judged(t)
  {
    WriteIsOwn(u, t, pc, mv);
    MoveIsProper(u, t, pc, mv);
    ProperKeepsJudged(u, t, Go(u, t, pc, mv).write, pc.k);
  }

  lemma {:induction false} MoveKeepsOwn(u: Setup, m: Machine, id: Id, mv: Move)
    requires Inv(u, m) && Enabled(u, m, Moves(id, mv))
    ensures
      var n := Next(u, m, Moves(id, mv));
      EntryOk(u, n, id, n.tasks[id]) && m.phase != Idle
  {
    var pc := m.tasks[id];
    assert IdFits(id, pc) && InPhase(u, m, id);
    OwnMoveOk(u, m.t, pc, mv);
    MoveKeepsId(u, m.t, id, pc, mv);
    WriteIsOwn(u, m.t, pc, mv);
  }

  lemma {:induction false} MoveKeepsTasks(u: Setup, m: Machine, id: Id, mv: Move)
    requires Inv(u, m) && Enabled(u, m, Moves(id, mv))
    ensures TasksOk(u, Next(u, m, Moves(id, mv)))
  {
    var n := Next(u, m, Moves(id, mv));
    MoveKeepsOwn(u, m, id, mv);
    WriteIsOwn(u, m.t, m.tasks[id], mv);
    OwnWriteFrame(m.t, Go(u, m.t, m.tasks[id], mv).write, m.tasks[id].k);
    forall other | other in n.tasks ensures EntryOk(u, n, other, n.tasks[other]) && InPhase(u, n, other) {
      assert InPhase(u, m, other);
      if other != id {
        MoveKeepsOther(u, m, id, mv, other);
      }
    }
  }

  lemma {:induction false} MoveKeepsInv(u: Setup, m: Machine, id: Id, mv: Move)
    requires Inv(u, m) && Enabled(u, m, Moves(id, mv))
    ensures Inv(u, Next(u, m, Moves(id, mv)))
  {
    MoveKeepsTasks(u, m, id, mv);
    MoveKeepsJudged(u, m.t, m.tasks[id], mv);
  }

  // ----- the other events ------------------------------------------------------------------------

  /** A retirement rewrites ci_state and nothing else. */
  lemma {:induction false} SettleKeepsStates(t: Tables, picks: (Key, Row) -> bool, ci: CiState)
    ensures SameStates(t, Settle(t, picks, ci)) && Judged(Settle(t, picks, ci)) == Judged(t)
  {
  }

  predicate IsRetirement(w: Write) {
    w.Expire? || w.Unlabel? || w.Move? || w.TakeDone?
  }

  lemma {:induction false} RetirementKeeps(t: Tables, w: Write)
    requires IsRetirement(w)
    ensures SameStates(t, Apply(t, w)) && Judged(Apply(t, w)) == Judged(t)
    ensures Apply(t, w).notices == t.notices && Apply(t, w).seeded == t.seeded
  {
    match w {
      case Expire(before) => SettleKeepsStates(t, (k: Key, r: Row) => Watched(r) && r.createdAt < before, Expired);
      case Unlabel(repo, labeled) =>
        SettleKeepsStates(t, (k: Key, r: Row) => k.repo == repo && k.pr !in labeled && r.ci != Some(Done)
                                                 && r.ci != Some(Unlabeled), Unlabeled);
      case Move(repo, heads) =>
        SettleKeepsStates(t, (k: Key, r: Row) => k.repo == repo && k.pr in heads && k.head != heads[k.pr]
                                                 && Live(r.ci), Stale);
      case TakeDone(repo, pr) =>
        SettleKeepsStates(t, (k: Key, r: Row) => k.repo == repo && k.pr == pr && r.ci != Some(Done), Done);
      case _ =>
    }
  }

  /** Cold start holds a PR of an unseeded repo, where no task works. */
  lemma {:induction false} SeedingKeeps(t: Tables, w: Write)
    requires w.Hold?
    ensures Judged(t) <= Judged(Apply(t, w))
    ensures forall repo, pr :: repo != w.k.repo ==> KeptPr(t, Apply(t, w), repo, pr)
  {
  }

  lemma {:induction false} HousekeepingKeepsTask(u: Setup, m: Machine, w: Write, id: Id)
    requires Inv(u, m) && Enabled(u, m, Housekeeping(w)) && id in m.tasks
    ensures TaskOk(u, Apply(m.t, w), m.tasks[id])
  {
    var n := Apply(m.t, w);
    assert IdFits(id, m.tasks[id]) && InPhase(u, m, id);
    if IsRetirement(w) {
      RetirementKeeps(m.t, w);
      assert Kept(m.t, n, id);
    } else if w.Hold? {
      SeedingKeeps(m.t, w);
      assert Kept(m.t, n, id);
    } else {
      assert n.reviews == m.t.reviews;
      assert Kept(m.t, n, id);
    }
    OtherKeeps(u, m.t, n, id, m.tasks[id]);
  }

  lemma {:induction false} HousekeepingKeepsInv(u: Setup, m: Machine, w: Write)
    requires Inv(u, m) && Enabled(u, m, Housekeeping(w))
    ensures Inv(u, Next(u, m, Housekeeping(w)))
  {
    var n := Next(u, m, Housekeeping(w));
    forall id | id in m.tasks ensures TaskOk(u, n.t, m.tasks[id]) && InPhase(u, n, id) {
      HousekeepingKeepsTask(u, m, w, id);
      assert InPhase(u, m, id);
    }
    HousekeepingKeepsJudged(u, m, w);
  }

  lemma {:induction false} HousekeepingKeepsJudged(u: Setup, m: Machine, w: Write)
    requires Inv(u, m) && Enabled(u, m, Housekeeping(w))
    ensures Judged(m.t) <= Judged(Apply(m.t, w))
    ensures m.t.seeded <= Apply(m.t, w).seeded
    ensures (u.mode == DryRun ==> Apply(m.t, w) == m.t)
  {
    if IsRetirement(w) {
      RetirementKeeps(m.t, w);
    } else if w.Hold? {
      SeedingKeeps(m.t, w);
    }
  }

  lemma {:induction false} ReapKeeps(t: Tables)
    ensures Judged(ReapRunning(t)) == Judged(t)
  {
  }

  lemma {:induction false} ArrivalKeepsInv(u: Setup, m: Machine, e: Event)
    requires Inv(u, m) && Enabled(u, m, e) && (e.Watches? || e.Arrives?)
    ensures Inv(u, Next(u, m, e))
  {
    var n := Next(u, m, e);
    forall id | id in n.tasks ensures EntryOk(u, n, id, n.tasks[id]) && InPhase(u, n, id) {
      assert id in m.tasks ==> InPhase(u, m, id);
    }
  }

  lemma {:induction false} DeathKeepsInv(u: Setup, m: Machine, id: Id)
    requires Inv(u, m) && Enabled(u, m, Dies(id))
    ensures Inv(u, Next(u, m, Dies(id)))
  {
    var n := Next(u, m, Dies(id));
    forall other | other in n.tasks ensures EntryOk(u, n, other, n.tasks[other]) && InPhase(u, n, other) {
      assert InPhase(u, m, other);
    }
  }

  lemma {:induction false} TickKeepsInv(u: Setup, m: Machine, e: Event)
    requires Inv(u, m) && Enabled(u, m, e)
    requires e.TickStarts? || e.QueueOpens? || e.TickEnds? || e.TickFails? || e.Restarts?
    ensures Inv(u, Next(u, m, e))
  {
    ReapKeeps(m.t);
    if e.TickEnds? {
      forall id | id in m.tasks ensures InPhase(u, Next(u, m, e), id) {
      }
    }
  }

  /** Every event keeps the invariant. */
  lemma {:induction false} StepKeepsInv(u: Setup, m: Machine, e: Event)
    requires Inv(u, m) && Enabled(u, m, e)
    ensures Inv(u, Next(u, m, e))
  {
    match e {
      case Moves(id, mv) => MoveKeepsInv(u, m, id, mv);
      case Housekeeping(w) => HousekeepingKeepsInv(u, m, w);
      case Watches(k) => ArrivalKeepsInv(u, m, e);
      case Arrives(k) => ArrivalKeepsInv(u, m, e);
      case Dies(id) => DeathKeepsInv(u, m, id);
      case _ => TickKeepsInv(u, m, e);
    }
  }

  lemma {:induction false} InvHolds(u: Setup, m: Machine, es: seq<Event>)
    requires Inv(u, m) && Runs(u, m, es)
    ensures Inv(u, After(u, m, es))
    decreases |es|
  {
    if es != [] {
      StepKeepsInv(u, m, es[0]);
      InvHolds(u, Next(u, m, es[0]), es[1..]);
    }
  }

  // ----- what follows for whole runs ----------------------------------------------------------------

  /** Where a run may start: between ticks, over any tables whatever. */
  predicate AtRest(m: Machine) {
    m.phase == Idle && m.tasks == map[] && m.base == {}
  }

  lemma {:induction false} StepKeepsJudged(u: Setup, m: Machine, e: Event)
    requires Inv(u, m) && Enabled(u, m, e)
    ensures Judged(m.t) <= Judged(Next(u, m, e).t)
  {
    match e {
      case Moves(id, mv) => MoveKeepsJudged(u, m.t, m.tasks[id], mv);
      case Housekeeping(w) => HousekeepingKeepsJudged(u, m, w);
      case _ => ReapKeeps(m.t);
    }
  }

  lemma {:induction false} JudgedStaysOver(u: Setup, m: Machine, es: seq<Event>)
    requires Inv(u, m) && Runs(u, m, es)
    ensures Judged(m.t) <= Judged(After(u, m, es).t)
    decreases |es|
  {
    if es != [] {
      StepKeepsJudged(u, m, es[0]);
      StepKeepsInv(u, m, es[0]);
      JudgedStaysOver(u, Next(u, m, es[0]), es[1..]);
    }
  }

  /** A judged key stays judged, whatever fails, dies, restarts, is re-requested or seeded. */
  lemma {:induction false} JudgedStays(u: Setup, m: Machine, es: seq<Event>)
    requires AtRest(m) && Runs(u, m, es)
    ensures Judged(m.t) <= Judged(After(u, m, es).t)
  {
    JudgedStaysOver(u, m, es);
  }

  /** No container is ever started for a commit that already has a pass or a recorded hold. */
  lemma {:induction false} NoSecondContainer(u: Setup, m: Machine, es: seq<Event>, id: Id, now: int)
    requires AtRest(m) && Runs(u, m, es) && Enabled(u, After(u, m, es), Moves(id, Starts(now)))
    ensures
      var n := After(u, m, es);
      !ShaJudged(n.t, n.tasks[id].k.repo, n.tasks[id].k.pr, n.tasks[id].k.head) && u.mode != DryRun
  {
    InvHolds(u, m, es);
    assert EntryOk(u, After(u, m, es), id, After(u, m, es).tasks[id]);
  }
}

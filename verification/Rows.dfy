/** Facts about the rows that a real run keeps once they hold, each on its own, and the
    errands that may overlap when one of them does not. */
module Rows {
  import opened Options
  import opened Store
  import opened Lifecycle
  import opened Safety

  // ----- the facts ---------------------------------------------------------------------------

  predicate IsPublished(t: Tables, k: Key) {
    k in t.reviews && t.reviews[k].state == Published
  }

  /** A commit of a PR is published once. */
  predicate PublishedOnce(t: Tables) {
    forall a <- t.reviews, b <- t.reviews ::
      t.reviews[a].state == Published && t.reviews[b].state == Published && SameCommit(a, b) ==> a == b
  }

  function RedNote(k: Key): Notice {
    Posted(ApprovedRedNote, k.repo, k.pr, k.head)
  }

  /** Every approval settled red has its note recorded for that same commit. */
  predicate RedIsNoted(t: Tables) {
    forall k <- t.reviews :: t.reviews[k].ci == Some(Red) ==> RedNote(k) in t.notices
  }

  /** Only a judged row carries a cost. */
  predicate CostIsJudged(t: Tables) {
    forall k <- t.reviews :: t.reviews[k].cost.Some? ==> IsJudged(t.reviews[k])
  }

  /** Two approvals the watch follows for the build of one commit, its red note not yet out. */
  predicate Rivals(u: Setup, t: Tables, since: int, a: Key, b: Key) {
    Followed(u, t, since, a) && Followed(u, t, since, b) && SameCommit(a, b) && RedNote(a) !in t.notices
  }

  /** No two approvals in the watch's window wait on one commit while its red note is owed. */
  predicate WatchedOnce(u: Setup, t: Tables, since: int) {
    forall a <- t.reviews, b <- t.reviews :: Rivals(u, t, since, a, b) ==> a == b
  }

  /** A later window has fewer rivals. */
  lemma {:induction false} LaterIsOnce(u: Setup, t: Tables, since: int, later: int)
    requires WatchedOnce(u, t, since) && later >= since
    ensures WatchedOnce(u, t, later)
  {
    forall a, b | a in t.reviews && b in t.reviews && Rivals(u, t, later, a, b) ensures a == b {
      assert Rivals(u, t, since, a, b);
    }
  }

  /** Each fact that held holds still. */
  predicate FactsKept(u: Setup, t: Tables, n: Tables, since: int) {
    && (PublishedOnce(t) ==> PublishedOnce(n)) && (RedIsNoted(t) ==> RedIsNoted(n))
    && (CostIsJudged(t) ==> CostIsJudged(n)) && (WatchedOnce(u, t, since) ==> WatchedOnce(u, n, since))
  }

  // ----- a task's statement ---------------------------------------------------------------------

  lemma {:induction false} ProperPublishes(u: Setup, t: Tables, w: Write, k: Key)
    requires OwnWrite(w, k) && Proper(u, t, w, k) && PublishedOnce(t)
    ensures PublishedOnce(Apply(t, w))
  {
    var n := Apply(t, w);
    OwnWriteFrame(t, w, k);
    if IsPublished(n, k) && !IsPublished(t, k) {
      FreeMeans(t, k);
      forall a | a in n.reviews && a != k && SameCommit(a, k) ensures n.reviews[a].state != Published {
        assert !KeyJudged(t, a);
      }
      assert forall a | a in n.reviews && a != k && SameCommit(k, a) :: SameCommit(a, k);
    }
  }

  lemma {:induction false} ProperNotesRed(u: Setup, t: Tables, w: Write, k: Key)
    requires OwnWrite(w, k) && Proper(u, t, w, k) && RedIsNoted(t)
    ensures RedIsNoted(Apply(t, w))
  {
    OwnWriteFrame(t, w, k);
  }

  lemma {:induction false} ProperCosts(u: Setup, t: Tables, w: Write, k: Key)
    requires OwnWrite(w, k) && Proper(u, t, w, k) && u.mode == Real && CostIsJudged(t)
    ensures CostIsJudged(Apply(t, w))
  {
    OwnWriteFrame(t, w, k);
  }

  /** A row a proper statement makes wait is alone with its commit. */
  lemma {:induction false} NewWatchIsAlone(u: Setup, t: Tables, w: Write, k: Key, a: Key)
    requires OwnWrite(w, k) && Proper(u, t, w, k) && RowWatched(Apply(t, w), k) && !RowWatched(t, k)
    requires SameCommit(a, k) && a != k
    ensures !RowWatched(Apply(t, w), a)
  {
    OwnWriteFrame(t, w, k);
    FreeMeans(t, k);
    assert SameCommit(a, k);
    assert !KeyJudged(t, a);
  }

  lemma {:induction false} ProperWatches(u: Setup, t: Tables, w: Write, k: Key, since: int)
    requires OwnWrite(w, k) && Proper(u, t, w, k) && WatchedOnce(u, t, since)
    ensures WatchedOnce(u, Apply(t, w), since)
  {
    var n := Apply(t, w);
    OwnWriteFrame(t, w, k);
    forall a, b | a in n.reviews && b in n.reviews && Rivals(u, n, since, a, b) ensures a == b {
      if RowWatched(n, k) && !RowWatched(t, k) {
        if a == k && b != k { NewWatchIsAlone(u, t, w, k, b); }
        if b == k && a != k { NewWatchIsAlone(u, t, w, k, a); }
      }
      assert a != b ==> Rivals(u, t, since, a, b);
    }
  }

  lemma {:induction false} MoveKeepsFacts(u: Setup, t: Tables, pc: Pc, mv: Lifecycle.Move, since: int)
    requires Fits(u, pc, mv) && TaskOk(u, t, pc) && u.mode == Real
    ensures FactsKept(u, t, Apply(t, Go(u, t, pc, mv).write), since)
  {
    var w := Go(u, t, pc, mv).write;
    WriteIsOwn(u, t, pc, mv);
    MoveIsProper(u, t, pc, mv);
    if PublishedOnce(t) { ProperPublishes(u, t, w, pc.k); }
    if RedIsNoted(t) { ProperNotesRed(u, t, w, pc.k); }
    if CostIsJudged(t) { ProperCosts(u, t, w, pc.k); }
    if WatchedOnce(u, t, since) { ProperWatches(u, t, w, pc.k, since); }
  }

  // ----- the other events ---------------------------------------------------------------------------

  /** Nothing became published, costly, red or waiting, and no notice is gone. */
  predicate OnlyLess(t: Tables, n: Tables) {
    && t.notices <= n.notices
    && forall k <- n.reviews ::
         && k in t.reviews && (n.reviews[k].state == Published ==> t.reviews[k].state == Published)
         && (n.reviews[k].cost.Some? ==> t.reviews[k].cost.Some? && (IsJudged(t.reviews[k]) ==> IsJudged(n.reviews[k])))
         && (n.reviews[k].ci == Some(Red) ==> t.reviews[k].ci == Some(Red))
         && (Watched(n.reviews[k]) ==> Watched(t.reviews[k]) && n.reviews[k].createdAt == t.reviews[k].createdAt)
  }

  lemma {:induction false} LessKeepsFacts(u: Setup, t: Tables, n: Tables, since: int)
    requires OnlyLess(t, n)
    ensures FactsKept(u, t, n, since)
  {
    if WatchedOnce(u, t, since) {
      forall a, b | a in n.reviews && b in n.reviews && Rivals(u, n, since, a, b) ensures a == b {
        assert Rivals(u, t, since, a, b);
      }
    }
  }

  lemma {:induction false} SettleIsLess(t: Tables, picks: (Key, Row) -> bool, ci: CiState)
    requires ci != Red && ci != Waiting
    ensures OnlyLess(t, Settle(t, picks, ci))
  {
  }

  lemma {:induction false} RetirementIsLess(t: Tables, w: Write)
    requires IsRetirement(w)
    ensures OnlyLess(t, Apply(t, w))
  {
    match w {
      case Expire(before) => SettleIsLess(t, (k: Key, r: Row) => Watched(r) && r.createdAt < before, Expired);
      case Unlabel(repo, labeled) =>
        SettleIsLess(t, (k: Key, r: Row) => k.repo == repo && k.pr !in labeled && r.ci != Some(Done)
                                            && r.ci != Some(Unlabeled), Unlabeled);
      case Move(repo, heads) =>
        SettleIsLess(t, (k: Key, r: Row) => k.repo == repo && k.pr in heads && k.head != heads[k.pr]
                                            && Live(r.ci), Stale);
      case TakeDone(repo, pr) =>
        SettleIsLess(t, (k: Key, r: Row) => k.repo == repo && k.pr == pr && r.ci != Some(Done), Done);
      case _ =>
    }
  }

  /** A hold replaces a row by one that is not published, not waiting and costs nothing. */
  lemma {:induction false} HoldKeepsFacts(u: Setup, t: Tables, w: Write, since: int)
    requires w.Hold?
    ensures FactsKept(u, t, Apply(t, w), since)
  {
    var n := Apply(t, w);
    if WatchedOnce(u, t, since) {
      forall a, b | a in n.reviews && b in n.reviews && Rivals(u, n, since, a, b) ensures a == b {
        assert Rivals(u, t, since, a, b);
      }
    }
  }

  lemma {:induction false} HousekeepingKeepsFacts(u: Setup, m: Machine, w: Write, since: int)
    requires MayWrite(u, m, w)
    ensures FactsKept(u, m.t, Apply(m.t, w), since)
  {
    if w.Hold? {
      HoldKeepsFacts(u, m.t, w, since);
    } else {
      if IsRetirement(w) {
        RetirementIsLess(m.t, w);
      }
      LessKeepsFacts(u, m.t, Apply(m.t, w), since);
    }
  }

  lemma {:induction false} StepKeepsFacts(u: Setup, m: Machine, e: Event, since: int)
    requires Inv(u, m) && u.mode == Real && Enabled(u, m, e)
    ensures FactsKept(u, m.t, Next(u, m, e).t, since)
  {
    match e {
      case Moves(id, mv) => MoveKeepsFacts(u, m.t, m.tasks[id], mv, since);
      case Housekeeping(w) => HousekeepingKeepsFacts(u, m, w, since);
      case _ => LessKeepsFacts(u, m.t, Next(u, m, e).t, since);
    }
  }

  /** Over every real run each of these stays true once it is: a commit of a PR is published
      under one key, every approval settled red has its note recorded for that commit, only
      judged rows carry a cost, and no two approvals wait on one commit in this window. */
  lemma {:induction false} FactsStay(u: Setup, m: Machine, es: seq<Event>, since: int)
    requires Inv(u, m) && u.mode == Real && Runs(u, m, es)
    ensures FactsKept(u, m.t, After(u, m, es).t, since)
    decreases |es|
  {
    if es != [] {
      StepKeepsFacts(u, m, es[0], since);
      StepKeepsInv(u, m, es[0]);
      FactsStay(u, Next(u, m, es[0]), es[1..], since);
    }
  }

  // ----- errands that do not overlap ------------------------------------------------------------------

  /** The task's post is out, or its key is about to be written. */
  predicate IsOut(pc: Pc) {
    pc.Once? && pc.stage != Checking
  }

  /** Every look the watch has under way is at a row it follows. */
  predicate LooksFollow(u: Setup, m: Machine) {
    forall id <- m.tasks :: id.ForRow? && !m.tasks[id].Over? ==> Followed(u, m.t, m.since, m.tasks[id].k)
  }

  /** In a real run whose approvals wait on different commits, the key of a post that is out
      is not written. */
  predicate PostsOk(u: Setup, m: Machine) {
    u.mode == Real ==>
      && WatchedOnce(u, m.t, m.since) && LooksFollow(u, m)
      && forall id <- m.tasks :: IsOut(m.tasks[id]) ==> ErrandKey(m.tasks[id].k, m.tasks[id].errand) !in m.t.notices
  }

  /** Two tasks whose posts are out never post under the same key. */
  lemma {:induction false} ErrandsDiffer(u: Setup, m: Machine, id: Id, other: Id)
    requires Inv(u, m) && PostsOk(u, m) && u.mode == Real && id in m.tasks && other in m.tasks && id != other
    requires IsOut(m.tasks[id]) && IsOut(m.tasks[other])
    ensures ErrandKey(m.tasks[id].k, m.tasks[id].errand) != ErrandKey(m.tasks[other].k, m.tasks[other].errand)
  {
    var a, b := m.tasks[id], m.tasks[other];
    assert EntryOk(u, m, id, a) && EntryOk(u, m, other, b) && InPhase(u, m, id) && InPhase(u, m, other);
    if id.ForRow? && other.ForRow? && SameCommit(a.k, b.k) {
      assert Rivals(u, m.t, m.since, a.k, b.k);
    }
  }

  /** A task's step that adds a notice adds its hold's, its dismissal's, or the one its
      own post is out for. */
  lemma {:induction false} NoteIsOwn(u: Setup, t: Tables, pc: Pc, mv: Lifecycle.Move)
    requires Fits(u, pc, mv) && Go(u, t, pc, mv).write.Note?
    ensures
      var n := Go(u, t, pc, mv).write.n;
      n == HoldNote(pc.k) || n == DismissFailed(pc.k.repo, pc.k.pr) || (InHand(pc) && n == ErrandKey(pc.k, pc.errand))
  {
  }

  /** A notice this step adds is not one another task has out. */
  lemma {:induction false} NoteIsNotOthers(u: Setup, m: Machine, id: Id, mv: Lifecycle.Move, other: Id)
    requires Inv(u, m) && PostsOk(u, m) && u.mode == Real && Enabled(u, m, Moves(id, mv))
    requires other in m.tasks && other != id && IsOut(m.tasks[other]) && Go(u, m.t, m.tasks[id], mv).write.Note?
    ensures ErrandKey(m.tasks[other].k, m.tasks[other].errand) != Go(u, m.t, m.tasks[id], mv).write.n
  {
    NoteIsOwn(u, m.t, m.tasks[id], mv);
    if InHand(m.tasks[id]) {
      ErrandsDiffer(u, m, id, other);
    }
  }

  lemma {:induction false} OthersStayOut(u: Setup, m: Machine, id: Id, mv: Lifecycle.Move, other: Id)
    requires Inv(u, m) && PostsOk(u, m) && u.mode == Real && Enabled(u, m, Moves(id, mv))
    requires other in m.tasks && other != id && IsOut(m.tasks[other])
    ensures ErrandKey(m.tasks[other].k, m.tasks[other].errand) !in Apply(m.t, Go(u, m.t, m.tasks[id], mv).write).notices
  {
    var w := Go(u, m.t, m.tasks[id], mv).write;
    WriteIsOwn(u, m.t, m.tasks[id], mv);
    OwnWriteFrame(m.t, w, m.tasks[id].k);
    if w.Note? {
      NoteIsNotOthers(u, m, id, mv, other);
    }
  }

  /** The step's own task: it goes out only past the check, and writes only as it comes back. */
  lemma {:induction false} OwnStaysOut(u: Setup, t: Tables, pc: Pc, mv: Lifecycle.Move)
    requires Fits(u, pc, mv) && u.mode == Real
    requires IsOut(pc) ==> ErrandKey(pc.k, pc.errand) !in t.notices
    ensures
      var o := Go(u, t, pc, mv);
      IsOut(o.pc) ==> ErrandKey(o.pc.k, o.pc.errand) !in Apply(t, o.write).notices
  {
  }

  /** A look leaves its row alone until it is over, and every other row always. */
  lemma {:induction false} MoveKeepsLooks(u: Setup, m: Machine, id: Id, mv: Lifecycle.Move)
    requires Inv(u, m) && LooksFollow(u, m) && Enabled(u, m, Moves(id, mv))
    ensures LooksFollow(u, Next(u, m, Moves(id, mv)))
  {
    var n, w := Next(u, m, Moves(id, mv)), Go(u, m.t, m.tasks[id], mv).write;
    WriteIsOwn(u, m.t, m.tasks[id], mv);
    OwnWriteFrame(m.t, w, m.tasks[id].k);
    forall other | other in n.tasks && other.ForRow? && !n.tasks[other].Over?
      ensures Followed(u, n.t, n.since, n.tasks[other].k)
    {
      assert InPhase(u, m, id) && InPhase(u, m, other) && EntryOk(u, m, id, m.tasks[id])
        && EntryOk(u, m, other, m.tasks[other]);
      if other == id {
        LookKeepsRow(u, m.t, m.tasks[id], mv);
      }
    }
  }

  lemma {:induction false} LookKeepsRow(u: Setup, t: Tables, pc: Pc, mv: Lifecycle.Move)
    requires Fits(u, pc, mv) && ForWatch(pc) && !Go(u, t, pc, mv).pc.Over?
    ensures Apply(t, Go(u, t, pc, mv).write).reviews == t.reviews && Go(u, t, pc, mv).pc.k == pc.k
  {
  }

  /** The other events change no row a look is at: what the tick writes meanwhile is notices
      and spend. */
  lemma {:induction false} StepKeepsLooks(u: Setup, m: Machine, e: Event)
    requires Inv(u, m) && LooksFollow(u, m) && Enabled(u, m, e) && !e.Moves?
    ensures LooksFollow(u, Next(u, m, e))
  {
    var n := Next(u, m, e);
    forall id | id in n.tasks && id.ForRow? && !n.tasks[id].Over? ensures Followed(u, n.t, n.since, n.tasks[id].k) {
      if id in m.tasks {
        assert InPhase(u, m, id);
        assert n.t.reviews == m.t.reviews && n.since == m.since;
      }
    }
  }

  lemma {:induction false} MoveKeepsOuts(u: Setup, m: Machine, id: Id, mv: Lifecycle.Move, other: Id)
    requires Inv(u, m) && PostsOk(u, m) && u.mode == Real && Enabled(u, m, Moves(id, mv))
    requires other in m.tasks && IsOut(Next(u, m, Moves(id, mv)).tasks[other])
    ensures
      var n := Next(u, m, Moves(id, mv));
      ErrandKey(n.tasks[other].k, n.tasks[other].errand) !in n.t.notices
  {
    if other == id {
      OwnStaysOut(u, m.t, m.tasks[id], mv);
    } else {
      OthersStayOut(u, m, id, mv, other);
    }
  }

  lemma {:induction false} MoveKeepsPosts(u: Setup, m: Machine, id: Id, mv: Lifecycle.Move)
    requires Inv(u, m) && PostsOk(u, m) && Enabled(u, m, Moves(id, mv))
    ensures PostsOk(u, Next(u, m, Moves(id, mv)))
  {
    if u.mode == Real {
      var n := Next(u, m, Moves(id, mv));
      StepKeepsFacts(u, m, Moves(id, mv), m.since);
      MoveKeepsLooks(u, m, id, mv);
      forall other | other in n.tasks && IsOut(n.tasks[other])
        ensures ErrandKey(n.tasks[other].k, n.tasks[other].errand) !in n.t.notices
      {
        MoveKeepsOuts(u, m, id, mv, other);
      }
    }
  }

  lemma {:induction false} HousekeepingNotices(u: Setup, m: Machine, w: Write, n: Notice)
    requires MayWrite(u, m, w) && Postable(n)
    ensures n in Apply(m.t, w).notices <==> n in m.t.notices
  {
  }

  lemma {:induction false} StepKeepsPosts(u: Setup, m: Machine, e: Event)
    requires Inv(u, m) && PostsOk(u, m) && Enabled(u, m, e)
    ensures PostsOk(u, Next(u, m, e))
  {
    if e.Moves? {
      MoveKeepsPosts(u, m, e.id, e.mv);
    } else if u.mode == Real {
      var n := Next(u, m, e);
      StepKeepsFacts(u, m, e, m.since);
      LaterIsOnce(u, n.t, m.since, n.since);
      StepKeepsLooks(u, m, e);
      forall id | id in n.tasks && IsOut(n.tasks[id])
        ensures ErrandKey(n.tasks[id].k, n.tasks[id].errand) !in n.t.notices
      {
        assert id in m.tasks && n.tasks[id] == m.tasks[id];
        if e.Housekeeping? {
          HousekeepingNotices(u, m, e.w, ErrandKey(m.tasks[id].k, m.tasks[id].errand));
        }
      }
    }
  }
}

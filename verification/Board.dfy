/** The panel: approvals a human could pick up, and the reads that keep it honest. */
module Board {
  import opened Options
  import opened Store
  import opened Lifecycle
  import opened Safety
  import G = Gates
  import P = Pipeline

  // ----- the query ---------------------------------------------------------------------------

  /** The order passes are ranked in: by time, the row id breaking a tie. */
  predicate Older(a: Row, b: Row) {
    a.createdAt < b.createdAt || (a.createdAt == b.createdAt && a.id < b.id)
  }

  predicate InWindow(t: Tables, k: Key, since: int) {
    k in t.reviews && t.reviews[k].state == Published && t.reviews[k].createdAt >= since
  }

  /** The newest published pass of its PR in the window. */
  predicate IsNewest(t: Tables, k: Key, since: int) {
    && InWindow(t, k, since)
    && forall j <- t.reviews ::
         j.repo == k.repo && j.pr == k.pr && j != k && InWindow(t, j, since) ==> Older(t.reviews[j], t.reviews[k])
  }

  /** `approved_and_green`: rank first, judge after. */
  predicate OnBoard(t: Tables, since: int, k: Key) {
    && IsNewest(t, k, since) && t.reviews[k].verdict == Some(Approve) && Live(t.reviews[k].ci)
    && Request(k.repo, k.pr) in t.requested
  }

  /** Row ids are drawn from a counter that is past all of them, so no two rows share one. */
  predicate IdsDrawn(t: Tables) {
    && (forall k <- t.reviews :: t.reviews[k].id < t.nextId)
    && (forall j <- t.reviews, k <- t.reviews :: t.reviews[j].id == t.reviews[k].id ==> j == k)
  }

  predicate SameIds(t: Tables, n: Tables) {
    && n.nextId == t.nextId
    && forall k <- n.reviews :: k in t.reviews && n.reviews[k].id == t.reviews[k].id
  }

  lemma {:induction false} SameIdsDrawn(t: Tables, n: Tables)
    requires IdsDrawn(t) && SameIds(t, n)
    ensures IdsDrawn(n)
  {
  }

  lemma {:induction false} InsertDrawsId(t: Tables, k: Key, r: Row)
    requires IdsDrawn(t) && r.id == t.nextId
    ensures IdsDrawn(t.(reviews := t.reviews[k := r], nextId := t.nextId + 1))
  {
  }

  /** Every statement keeps it: an insert draws a new id, and nothing else touches one. */
  lemma {:induction false} WritesDrawIds(t: Tables, w: Write)
    requires IdsDrawn(t)
    ensures IdsDrawn(Apply(t, w))
  {
    match w {
      case Start(k, now) => InsertDrawsId(t, k, Row(Running, None, None, None, None, None, None, now, t.nextId));
      case Hold(k, reason, now) =>
        InsertDrawsId(t, k, Row(Held, None, Some(reason), None, None, None, None, now, t.nextId));
      case _ =>
        UpdatesKeepIds(t, w);
        SameIdsDrawn(t, Apply(t, w));
    }
  }

  lemma {:induction false} SettleKeepsIds(t: Tables, picks: (Key, Row) -> bool, ci: CiState)
    ensures SameIds(t, Settle(t, picks, ci))
  {
  }

  lemma {:induction false} UpdatesKeepIds(t: Tables, w: Write)
    requires !w.Start? && !w.Hold?
    ensures SameIds(t, Apply(t, w))
  {
    match w {
      case Expire(before) => SettleKeepsIds(t, (k: Key, r: Row) => Watched(r) && r.createdAt < before, Expired);
      case Unlabel(repo, labeled) =>
        SettleKeepsIds(t, (k: Key, r: Row) => k.repo == repo && k.pr !in labeled && r.ci != Some(Done)
                                              && r.ci != Some(Unlabeled), Unlabeled);
      case Move(repo, heads) =>
        SettleKeepsIds(t, (k: Key, r: Row) => k.repo == repo && k.pr in heads && k.head != heads[k.pr]
                                              && Live(r.ci), Stale);
      case TakeDone(repo, pr) =>
        SettleKeepsIds(t, (k: Key, r: Row) => k.repo == repo && k.pr == pr && r.ci != Some(Done), Done);
      case _ =>
    }
  }

  predicate SamePr(a: Key, b: Key) {
    a.repo == b.repo && a.pr == b.pr
  }

  /** The published passes of a PR in the window. */
  function Passes(t: Tables, since: int, k: Key): set<Key> {
    set j | j in t.reviews && SamePr(j, k) && InWindow(t, j, since)
  }

  lemma SomePass(s: set<Key>)
    ensures s != {} ==> exists x: Key :: x in s
  {
    if forall x: Key :: x !in s {
      assert s == {};
    }
  }

  /** The newest of a set of rows. */
  lemma {:induction false} Newest(t: Tables, s: set<Key>) returns (n: Key)
    requires IdsDrawn(t) && s != {} && s <= t.reviews.Keys
    ensures n in s && forall j <- s :: j != n ==> Older(t.reviews[j], t.reviews[n])
    decreases s
  {
    SomePass(s);
    n :| n in s;
    var rest := s - {n};
    assert forall j <- s :: j == n || j in rest;
    if rest != {} {
      var m := Newest(t, rest);
      var a, b := t.reviews[n], t.reviews[m];
      assert a.id != b.id;
      if Older(a, b) {
        n := m;
      } else {
        forall j | j in s && j != n ensures Older(t.reviews[j], a) {
          assert Older(b, a);
          assert j != m ==> Older(t.reviews[j], b);
        }
      }
    }
  }

  /** Ranking picks exactly one pass of every PR that has one in the window. */
  lemma {:induction false} OneIsNewest(t: Tables, since: int, k: Key) returns (n: Key)
    requires IdsDrawn(t) && InWindow(t, k, since)
    ensures SamePr(n, k) && IsNewest(t, n, since)
    ensures forall j: Key :: SamePr(j, k) && IsNewest(t, j, since) ==> j == n
  {
    assert SamePr(k, k) && k in Passes(t, since, k);
    n := Newest(t, Passes(t, since, k));
    assert forall j <- t.reviews :: SamePr(j, n) && InWindow(t, j, since) ==> j in Passes(t, since, k);
    forall j: Key | SamePr(j, k) && IsNewest(t, j, since) ensures j == n {
      assert j in Passes(t, since, k) && SamePr(n, j);
      assert j != n ==> Older(t.reviews[j], t.reviews[n]) && Older(t.reviews[n], t.reviews[j]);
    }
  }

  /** A pass that starts now and is published is the newest of its PR whatever it says, the
      row id deciding within one millisecond: every earlier approval of the PR leaves the
      board, and the PR stays on it exactly when this pass approves too. */
  lemma {:induction false} LatestPassDecides(t: Tables, since: int, k: Key, now: int, c: Columns)
    requires IdsDrawn(t) && since <= now
    requires forall j <- t.reviews :: SamePr(j, k) ==> t.reviews[j].createdAt <= now
    ensures
      var n := FinishReview(StartReview(t, k, now), k, Published, c);
      && IsNewest(n, k, since)
      && (forall j: Key :: SamePr(j, k) && j != k ==> !OnBoard(n, since, j))
      && (OnBoard(n, since, k) <==> c.verdict == Some(Approve) && Live(c.ci) && Request(k.repo, k.pr) in t.requested)
  {
    var n := FinishReview(StartReview(t, k, now), k, Published, c);
    forall j: Key | SamePr(j, k) && j != k ensures !IsNewest(n, j, since) {
      if InWindow(n, j, since) {
        assert Older(n.reviews[j], n.reviews[k]) && !Older(n.reviews[k], n.reviews[j]);
        assert InWindow(n, k, since);
      }
    }
  }

  // ----- the tick's reads ------------------------------------------------------------------------

  /** A labelled PR: its head and its labels. */
  datatype Labeled = Labeled(head: string, labels: seq<string>)

  /** What a tick read of one repo: who asks for our review, and what carries the label. */
  datatype Reading = Reading(asked: set<int>, heads: map<int, Labeled>)

  function Heads(heads: map<int, Labeled>): map<int, string> {
    map p | p in heads :: heads[p].head
  }

  predicate Braked(l: Labeled, rules: G.Rules) {
    exists name <- l.labels :: name in G.BrakeLabels(rules)
  }

  function BrakedPrs(heads: map<int, Labeled>, rules: G.Rules): set<int> {
    set p | p in heads && Braked(heads[p], rules)
  }

  /** `_retire_unlabeled`, once its read came back whole. */
  function Retire(t: Tables, repo: Repo, heads: map<int, Labeled>, rules: G.Rules): Tables {
    Unrequest(SettleStale(SettleUnlabeled(t, repo, heads.Keys), repo, Heads(heads)), repo, BrakedPrs(heads, rules))
  }

  function Refresh(t: Tables, repo: Repo, r: Reading, rules: G.Rules): Tables {
    Retire(SetRequested(t, repo, r.asked), repo, r.heads, rules)
  }

  const QUEUE_LIMIT := 200

  /** The labelled PRs that carry a brake label. */
  method Brakes(order: seq<int>, heads: map<int, Labeled>, rules: G.Rules) returns (braked: set<int>)
    requires forall p <- order :: p in heads
    requires forall p <- heads :: p in order
    ensures braked == BrakedPrs(heads, rules)
  {
    braked := {};
    for i := 0 to |order|
      invariant forall p :: p in braked <==> p in order[..i] && p in heads && Braked(heads[p], rules)
    {
      var p := order[i];
      assert order[..i + 1] == order[..i] + [p] && p in order;
      if exists name <- heads[p].labels :: name in G.BrakeLabels(rules) {
        braked := braked + {p};
      }
    }
    assert order[..|order|] == order;
    assert forall p :: p in braked <==> p in BrakedPrs(heads, rules);
  }

  /** `_retire_unlabeled`: a read that failed or filled its page retires nothing, and a dry
      run only looks. `order` is the order the rows came in. */
  method RetireUnlabeled(db: Db, dryRun: bool, repo: Repo, read: Option<map<int, Labeled>>, order: seq<int>,
                         rules: G.Rules)
    requires read.Some? ==> (forall p <- order :: p in read.value) && (forall p <- read.value :: p in order)
    modifies db
    ensures db.View() ==
      if dryRun || read.None? || |read.value| == 200 then old(db.View())
      else Retire(old(db.View()), repo, read.value, rules)
  {
    if read.None? || |read.value| == QUEUE_LIMIT || dryRun {
      return;
    }
    var heads := read.value;
    db.SettleLabelless(repo, heads.Keys);
    db.SettleMoved(repo, order, Heads(heads));
    var braked := Brakes(order, heads, rules);
    db.Drop(repo, braked);
  }

  // ----- what the board then shows ------------------------------------------------------------------

  /** What a refresh makes of one row's ci_state. */
  function CiAfter(k: Key, r: Row, repo: Repo, heads: map<int, Labeled>): Option<CiState> {
    if k.repo != repo then r.ci
    else if k.pr !in heads then (if r.ci == Some(Done) then r.ci else Some(Unlabeled))
    else if k.head != heads[k.pr].head && Live(r.ci) then Some(Stale)
    else r.ci
  }

  lemma {:induction false} RefreshRows(t: Tables, repo: Repo, r: Reading, rules: G.Rules)
    ensures
      var n := Refresh(t, repo, r, rules);
      n.reviews.Keys == t.reviews.Keys
      && forall k <- t.reviews :: n.reviews[k] == t.reviews[k].(ci := CiAfter(k, t.reviews[k], repo, r.heads))
  {
  }

  lemma {:induction false} RefreshRequests(t: Tables, repo: Repo, r: Reading, rules: G.Rules, q: Request)
    ensures
      q in Refresh(t, repo, r, rules).requested <==>
        if q.repo == repo then q.pr in r.asked && !(q.pr in r.heads && Braked(r.heads[q.pr], rules))
        else q in t.requested
  {
    InPairs(repo, r.asked, q);
    InPairs(repo, BrakedPrs(r.heads, rules), q);
  }

  /** Nothing a refresh writes changes which pass is the newest. */
  lemma {:induction false} NewestUnmoved(t: Tables, repo: Repo, r: Reading, rules: G.Rules, since: int, k: Key)
    ensures IsNewest(Refresh(t, repo, r, rules), k, since) <==> IsNewest(t, k, since)
  {
    RefreshRows(t, repo, r, rules);
  }

  /** Published in the window and approving, its build green, red or waited for; no published
      pass of its PR in the window is newer, or as new with a larger row id. */
  predicate Approves(t: Tables, since: int, k: Key) {
    && k in t.reviews
    && var row := t.reviews[k];
       && row.state == Published && row.createdAt >= since && row.verdict == Some(Approve)
       && row.ci in {Some(Green), Some(Red), Some(Waiting)}
       && forall j <- t.reviews ::
            var other := t.reviews[j];
            j.repo == k.repo && j.pr == k.pr && other.state == Published && other.createdAt >= since && j != k ==>
              other.createdAt < row.createdAt || (other.createdAt == row.createdAt && other.id < row.id)
  }

  lemma {:induction false} ApprovesMeans(t: Tables, since: int, k: Key)
    ensures Approves(t, since, k)
       <==> IsNewest(t, k, since) && t.reviews[k].verdict == Some(Approve) && Live(t.reviews[k].ci)
  {
  }

  lemma {:induction false} BoardMeans(t: Tables, since: int, k: Key)
    ensures OnBoard(t, since, k) <==> Approves(t, since, k) && Request(k.repo, k.pr) in t.requested
  {
  }

  /** Such a pass, asked for, labelled, on the head, and with none of the labels that brake. */
  predicate Ready(t: Tables, since: int, r: Reading, rules: G.Rules, k: Key) {
    && Approves(t, since, k) && k.pr in r.asked && k.pr in r.heads && r.heads[k.pr].head == k.head
    && forall name <- r.heads[k.pr].labels :: name != rules.needsWork && name !in rules.hold
  }

  /** After a tick's reads of a repo, its board is exactly: the PRs asking for our review,
      under the label, with no brake label, whose newest published pass in the window
      approves the commit that is their head and is not settled. Other repos' rows stay. */
  lemma {:induction false} BoardIs(t: Tables, since: int, repo: Repo, r: Reading, rules: G.Rules, k: Key)
    ensures k.repo == repo ==> (OnBoard(Refresh(t, repo, r, rules), since, k) <==> Ready(t, since, r, rules, k))
    ensures k.repo != repo ==> (OnBoard(Refresh(t, repo, r, rules), since, k) <==> OnBoard(t, since, k))
  {
    RefreshRows(t, repo, r, rules);
    NewestUnmoved(t, repo, r, rules, since, k);
    RefreshRequests(t, repo, r, rules, Request(k.repo, k.pr));
    BoardMeans(t, since, k);
    if k.pr in r.heads {
      BrakesAre(r.heads[k.pr], rules);
    }
  }

  lemma {:induction false} BrakesAre(l: Labeled, rules: G.Rules)
    ensures Braked(l, rules) <==> exists name <- l.labels :: name == rules.needsWork || name in rules.hold
  {
    var brakes := G.BrakeLabels(rules);
    assert brakes[0] == rules.needsWork && forall i :: 0 <= i < |rules.hold| ==> brakes[i + 1] == rules.hold[i];
  }

  // ----- a person takes a PR -------------------------------------------------------------------------

  /** When some PR's rows are done and the others are as they were, the board is as it was but
      for that PR. */
  lemma {:induction false} DoneRowsLeave(t: Tables, n: Tables, since: int, repo: Repo, pr: int, k: Key)
    requires SameButRows(t, n)
    requires forall j <- t.reviews ::
      n.reviews[j] == if j.repo == repo && j.pr == pr then t.reviews[j].(ci := Some(Done)) else t.reviews[j]
    ensures OnBoard(n, since, k) <==> OnBoard(t, since, k) && !(k.repo == repo && k.pr == pr)
  {
    assert IsNewest(n, k, since) <==> IsNewest(t, k, since);
  }

  /** The done label takes its PR off the board, and no other. */
  lemma {:induction false} TakenLeavesTheBoard(t: Tables, since: int, repo: Repo, pr: int, k: Key)
    ensures OnBoard(SettleDone(t, repo, pr), since, k) <==> OnBoard(t, since, k) && !(k.repo == repo && k.pr == pr)
  {
    DoneRows(t, repo, pr);
    DoneRowsLeave(t, SettleDone(t, repo, pr), since, repo, pr, k);
  }

  /** So does the turn of a PR that carries it, when its labels were read, none of them holds
      it and the run may write; any other turn of such a PR leaves the board alone. */
  lemma {:induction false} TakenTurnLeavesTheBoard(u: Setup, t: Tables, github: seq<Notice>, turn: Key, reach: P.Reach,
                                                   w: P.World, since: int, k: Key)
    requires P.Honest(u, w) && G.Carries(w.f.labels, u.rules.taken)
    ensures OnBoard(P.Turn(u, t, github, turn, reach, w).t, since, k)
       <==> OnBoard(t, since, k)
            && !(reach != P.NoMeta && u.mode != DryRun && u.rules.needsWork !in w.f.labels
                 && !G.Carries(w.f.labels, u.rules.hold) && k.repo == turn.repo && k.pr == turn.pr)
  {
    var n := P.Turn(u, t, github, turn, reach, w).t;
    P.TakenTurn(u, t, github, turn, reach, w);
    if P.TakenOver(u, w.f, reach) {
      DoneRowsLeave(t, n, since, turn.repo, turn.pr, k);
    } else {
      assert n.reviews == t.reviews;
    }
  }

  /** A PR on the board is one gate 3 does not hold: the two readers of the brake labels
      agree. */
  lemma {:induction false} BoardAgreesWithGate(t: Tables, since: int, repo: Repo, r: Reading, rules: G.Rules, k: Key)
    requires k.repo == repo && OnBoard(Refresh(t, repo, r, rules), since, k)
    ensures k.pr in r.heads && G.LabelHold(r.heads[k.pr].labels, rules) == []
  {
    BoardIs(t, since, repo, r, rules, k);
    assert forall name <- G.BrakeLabels(rules) :: name !in r.heads[k.pr].labels;
  }

  /** The later read shows no PR the earlier one did not, and no head has moved. */
  predicate SameHeads(first: Reading, second: Reading) {
    forall p <- second.heads :: p in first.heads && first.heads[p].head == second.heads[p].head
  }

  /** Brake labels and requests come and go without a trace: after the second read the board
      is what it would be had the first never happened. */
  lemma {:induction false} BrakeIsReversible(t: Tables, since: int, repo: Repo, first: Reading, second: Reading,
                                             rules: G.Rules, k: Key)
    requires SameHeads(first, second) && k.repo == repo
    ensures OnBoard(Refresh(Refresh(t, repo, first, rules), repo, second, rules), since, k)
       <==> OnBoard(Refresh(t, repo, second, rules), since, k)
  {
    var mid := Refresh(t, repo, first, rules);
    BoardIs(mid, since, repo, second, rules, k);
    BoardIs(t, since, repo, second, rules, k);
    if k.pr in second.heads && second.heads[k.pr].head == k.head {
      SameHeadApproves(t, since, repo, first, rules, k);
    }
  }

  /** A read that shows a pass's own head leaves what the pass says. */
  lemma {:induction false} SameHeadApproves(t: Tables, since: int, repo: Repo, r: Reading, rules: G.Rules, k: Key)
    requires k.repo == repo && k.pr in r.heads && r.heads[k.pr].head == k.head
    ensures Approves(Refresh(t, repo, r, rules), since, k) <==> Approves(t, since, k)
  {
    RefreshRows(t, repo, r, rules);
    NewestUnmoved(t, repo, r, rules, since, k);
    ApprovesMeans(t, since, k);
    ApprovesMeans(Refresh(t, repo, r, rules), since, k);
  }

  // ----- a settled approval never comes back --------------------------------------------------------

  predicate Retired(t: Tables, k: Key) {
    k in t.reviews && IsJudged(t.reviews[k]) && !Live(t.reviews[k].ci)
  }

  lemma {:induction false} ProperKeepsRetired(u: Setup, t: Tables, w: Write, own: Key, k: Key)
    requires OwnWrite(w, own) && Proper(u, t, w, own) && Retired(t, k)
    ensures Retired(Apply(t, w), k)
  {
    OwnWriteFrame(t, w, own);
    ProperKeepsJudged(u, t, w, own);
    if w.Start? || w.Hold? || w.Finish? {
      assert k in Judged(t);
      if w.Start? { FreeKey(t, own); }
    }
  }

  lemma {:induction false} RetirementKeepsRetired(t: Tables, w: Write, k: Key)
    requires IsRetirement(w) && Retired(t, k)
    ensures Retired(Apply(t, w), k)
  {
  }

  lemma {:induction false} StepKeepsRetired(u: Setup, m: Machine, e: Event, k: Key)
    requires Inv(u, m) && Enabled(u, m, e) && Retired(m.t, k)
    ensures Retired(Next(u, m, e).t, k)
  {
    match e {
      case Moves(id, mv) =>
        WriteIsOwn(u, m.t, m.tasks[id], mv);
        MoveIsProper(u, m.t, m.tasks[id], mv);
        ProperKeepsRetired(u, m.t, Go(u, m.t, m.tasks[id], mv).write, m.tasks[id].k, k);
      case Housekeeping(w) =>
        if IsRetirement(w) { RetirementKeepsRetired(m.t, w, k); }
      case _ =>
    }
  }

  /** A settled approval is off the board for good, over every run: only a fresh pass, which
      is another key, puts its PR back. */
  lemma {:induction false} RetiredStaysOff(u: Setup, m: Machine, es: seq<Event>, since: int, k: Key)
    requires Inv(u, m) && Runs(u, m, es) && Retired(m.t, k)
    ensures Retired(After(u, m, es).t, k) && !OnBoard(After(u, m, es).t, since, k)
    decreases |es|
  {
    if es != [] {
      StepKeepsRetired(u, m, es[0], k);
      StepKeepsInv(u, m, es[0]);
      RetiredStaysOff(u, Next(u, m, es[0]), es[1..], since, k);
    }
  }

  /** A push retires the approval of the old head, and losing the label retires any, for
      good: from the refresh that saw it on, over every run. */
  lemma {:induction false} MovedHeadNeedsAPass(u: Setup, m: Machine, t: Tables, repo: Repo, r: Reading, es: seq<Event>,
                                               since: int, k: Key)
    requires Inv(u, m) && m.t == Refresh(t, repo, r, u.rules) && Runs(u, m, es)
    requires k.repo == repo && k in t.reviews && IsJudged(t.reviews[k])
    requires k.pr !in r.heads || r.heads[k.pr].head != k.head
    ensures !OnBoard(After(u, m, es).t, since, k)
  {
    RefreshRows(t, repo, r, u.rules);
    RetiredStaysOff(u, m, es, since, k);
  }
}

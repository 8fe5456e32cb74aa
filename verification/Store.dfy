/** The database: what each statement does to the tables, first as functions on a value,
    then as the class whose methods rewrite its fields in place. */
module Store {
  import opened Options

  type Repo = string

  /** What a pass is stored under: one review per commit and request. The request part is
      opaque; a forced run appends its model to it. */
  datatype Key = Key(repo: Repo, pr: int, head: string, request: string)

  /** The request part of a PR as the queue shows it: the time of its last request, or that
      there is none. A forced run that could not read it says "forced" instead. */
  predicate Unforced(k: Key) {
    k.request == "norq" || (|k.request| == |"2026-01-01T00:00:00Z"| && '0' <= k.request[0] <= '9')
  }

  /** The key of a forced run with a model of its own. */
  function ForcedWith(k: Key, model: string): Key {
    k.(request := k.request + ":" + model)
  }

  /** No PR of a queue ever has it. */
  lemma {:induction false} ForcedIsApart(k: Key, model: string)
    requires Unforced(k) || k.request == "forced"
    ensures !Unforced(ForcedWith(k, model))
  {
    var r := ForcedWith(k, model).request;
    assert r[0] == k.request[0] && |r| > |k.request|;
    assert k.request == "norq" ==> r[0] == 'n';
    assert k.request == "forced" ==> r[0] == 'f';
  }

  datatype RowState = Running | Published | Held | Failed

  /** The three verdicts: needs-work, comment and ok. */
  datatype Verdict = NeedsWork | Comment | Approve

  datatype CiState = Waiting | Green | Red | Stale | Gone | Done | Unlabeled | Expired

  /** A row of `reviews`; its repo, pr and head are its key's. `id` is the row id, which
      every insert draws anew. */
  datatype Row = Row(state: RowState, verdict: Option<Verdict>, reason: Option<string>, cost: Option<real>,
                     model: Option<string>, inlined: Option<nat>, ci: Option<CiState>, createdAt: int, id: nat)

  /** The columns a finished pass may give; what is not given is not written. */
  datatype Columns = Columns(verdict: Option<Verdict>, reason: Option<string>, cost: Option<real>,
                             model: Option<string>, inlined: Option<nat>, ci: Option<CiState>)

  datatype PostKind = ReviewPost | CiRedNote | ApprovedNote | ApprovedRedNote

  /** A key of `notices`. */
  datatype Notice =
    | Posted(kind: PostKind, repo: Repo, pr: int, head: string)
    | RunCi(repo: Repo, pr: int, head: string)
    | HoldNote(key: Key)
    | ThreadSettled(repo: Repo, pr: int, comment: int, replies: nat)
    | Merged(repo: Repo, pr: int)
    | NoMap(author: string)
    | DismissFailed(repo: Repo, pr: int)
    | BudgetNote(what: string)

  /** A row of `requested`: a PR the last queue read saw still asking for our review. */
  datatype Request = Request(repo: Repo, pr: int)

  datatype Spent = Spent(repo: Repo, pr: int, kind: string, cost: Option<real>)

  datatype Tables = Tables(reviews: map<Key, Row>, nextId: nat, notices: set<Notice>,
                           requested: set<Request>, seeded: set<Repo>, spend: seq<Spent>)

  const EMPTY := Tables(map[], 0, {}, {}, {}, [])

  // ----- reading ------------------------------------------------------------------------

  predicate IsJudged(r: Row) {
    r.state == Published || r.state == Held
  }

  predicate KeyJudged(t: Tables, k: Key) {
    k in t.reviews && IsJudged(t.reviews[k])
  }

  function Judged(t: Tables): set<Key> {
    set k | k in t.reviews && IsJudged(t.reviews[k])
  }

  /** `sha_was_judged`: this commit already got a pass or a recorded hold. */
  predicate ShaJudged(t: Tables, repo: Repo, pr: int, head: string) {
    exists k :: k in t.reviews && k.repo == repo && k.pr == pr && k.head == head && IsJudged(t.reviews[k])
  }

  predicate Live(ci: Option<CiState>) {
    ci == Some(Green) || ci == Some(Waiting) || ci == Some(Red)
  }

  // ----- writing --------------------------------------------------------------------------

  function StartReview(t: Tables, k: Key, now: int): Tables {
    t.(reviews := t.reviews[k := Row(Running, None, None, None, None, None, None, now, t.nextId)],
       nextId := t.nextId + 1)
  }

  function Given<T>(given: Option<T>, was: Option<T>): Option<T> {
    if given.Some? then given else was
  }

  function FinishedRow(r: Row, state: RowState, c: Columns): Row {
    Row(state, Given(c.verdict, r.verdict), Given(c.reason, r.reason), Given(c.cost, r.cost),
        Given(c.model, r.model), Given(c.inlined, r.inlined), Given(c.ci, r.ci), r.createdAt, r.id)
  }

  /** An UPDATE: a key with no row changes nothing. */
  function FinishReview(t: Tables, k: Key, state: RowState, c: Columns): Tables {
    if k in t.reviews then t.(reviews := t.reviews[k := FinishedRow(t.reviews[k], state, c)]) else t
  }

  function RecordHold(t: Tables, k: Key, reason: string, now: int): Tables {
    t.(reviews := t.reviews[k := Row(Held, None, Some(reason), None, None, None, None, now, t.nextId)],
       nextId := t.nextId + 1)
  }

  /** Every row that `picks` chooses gets the ci_state; nothing else moves. */
  function Settle(t: Tables, picks: (Key, Row) -> bool, ci: CiState): Tables {
    t.(reviews := map k | k in t.reviews ::
                    if picks(k, t.reviews[k]) then t.reviews[k].(ci := Some(ci)) else t.reviews[k])
  }

  function SetCiState(t: Tables, k: Key, ci: CiState): Tables {
    if k in t.reviews then t.(reviews := t.reviews[k := t.reviews[k].(ci := Some(ci))]) else t
  }

  predicate Watched(r: Row) {
    r.verdict == Some(Approve) && r.state == Published && r.ci == Some(Waiting)
  }

  function ExpireCiWatch(t: Tables, before: int): Tables {
    Settle(t, (k: Key, r: Row) => Watched(r) && r.createdAt < before, Expired)
  }

  function SettleDone(t: Tables, repo: Repo, pr: int): Tables {
    Settle(t, (k: Key, r: Row) => k.repo == repo && k.pr == pr && r.ci != Some(Done), Done)
  }

  function SettleUnlabeled(t: Tables, repo: Repo, labeled: set<int>): Tables {
    Settle(t, (k: Key, r: Row) => k.repo == repo && k.pr !in labeled && r.ci != Some(Done) && r.ci != Some(Unlabeled),
           Unlabeled)
  }

  /** `settle_stale`, one UPDATE per PR. */
  function SettleHead(t: Tables, repo: Repo, pr: int, head: string): Tables {
    Settle(t, (k: Key, r: Row) => k.repo == repo && k.pr == pr && k.head != head && Live(r.ci), Stale)
  }

  function SettleStale(t: Tables, repo: Repo, heads: map<int, string>): Tables {
    Settle(t, (k: Key, r: Row) => k.repo == repo && k.pr in heads && k.head != heads[k.pr] && Live(r.ci), Stale)
  }

  predicate Distinct<T(==)>(s: seq<T>) {
    forall i, j :: 0 <= i < j < |s| ==> s[i] != s[j]
  }

  function Elems(s: seq<int>): set<int> {
    set p | p in s
  }

  function PairsWith(repo: Repo, prs: set<int>): set<Request> {
    set p | p in prs :: Request(repo, p)
  }

  lemma InPairs(repo: Repo, prs: set<int>, q: Request)
    ensures q in PairsWith(repo, prs) <==> q.repo == repo && q.pr in prs
  {
    assert q.pr in prs ==> Request(repo, q.pr) in PairsWith(repo, prs);
  }

  function RequestedOutside(t: Tables, repo: Repo): set<Request> {
    set q | q in t.requested && q.repo != repo
  }

  function SetRequested(t: Tables, repo: Repo, prs: set<int>): Tables {
    t.(requested := RequestedOutside(t, repo) + PairsWith(repo, prs))
  }

  function Unrequest(t: Tables, repo: Repo, prs: set<int>): Tables {
    t.(requested := t.requested - PairsWith(repo, prs))
  }

  function Notice1(t: Tables, n: Notice): Tables {
    t.(notices := t.notices + {n})
  }

  function MarkSeeded(t: Tables, repo: Repo): Tables {
    t.(seeded := t.seeded + {repo})
  }

  function RecordSpend(t: Tables, s: Spent): Tables {
    t.(spend := t.spend + [s])
  }

  function ReapedRow(r: Row): Row {
    if r.state == Running then r.(state := Failed, reason := Some("orchestrator restarted")) else r
  }

  function ReapRunning(t: Tables): Tables {
    t.(reviews := map k | k in t.reviews :: ReapedRow(t.reviews[k]))
  }

  /** The statements above, as values. */
  datatype Write =
    | Nothing
    | Start(k: Key, now: int)
    | Finish(k: Key, state: RowState, c: Columns)
    | Hold(k: Key, reason: string, now: int)
    | Ci(k: Key, ci: CiState)
    | Expire(before: int)
    | TakeDone(repo: Repo, pr: int)
    | Unlabel(repo: Repo, labeled: set<int>)
    | Move(repo: Repo, heads: map<int, string>)
    | Ask(repo: Repo, prs: set<int>)
    | Unask(repo: Repo, prs: set<int>)
    | Note(n: Notice)
    | SeedDone(repo: Repo)
    | Pay(s: Spent)
    | Reap

  function Apply(t: Tables, w: Write): Tables {
    match w
    case Nothing => t
    case Start(k, now) => StartReview(t, k, now)
    case Finish(k, state, c) => FinishReview(t, k, state, c)
    case Hold(k, reason, now) => RecordHold(t, k, reason, now)
    case Ci(k, ci) => SetCiState(t, k, ci)
    case Expire(before) => ExpireCiWatch(t, before)
    case TakeDone(repo, pr) => SettleDone(t, repo, pr)
    case Unlabel(repo, labeled) => SettleUnlabeled(t, repo, labeled)
    case Move(repo, heads) => SettleStale(t, repo, heads)
    case Ask(repo, prs) => SetRequested(t, repo, prs)
    case Unask(repo, prs) => Unrequest(t, repo, prs)
    case Note(n) => Notice1(t, n)
    case SeedDone(repo) => MarkSeeded(t, repo)
    case Pay(s) => RecordSpend(t, s)
    case Reap => ReapRunning(t)
  }

  // ----- what they say of each row ---------------------------------------------------------------

  /** Only rows changed, and no row came or went. */
  predicate SameButRows(t: Tables, n: Tables) {
    n == t.(reviews := n.reviews) && n.reviews.Keys == t.reviews.Keys
  }

  /** A started review replaces what stood under its key, and no other row: it runs, nothing
      else of it is known, and it is newer by its id than any row before. */
  lemma {:induction false} StartedRow(t: Tables, k: Key, now: int)
    ensures
      var n := StartReview(t, k, now);
      && n == t.(reviews := n.reviews, nextId := t.nextId + 1) && n.reviews == t.reviews[k := n.reviews[k]]
      && n.reviews[k].state == Running && n.reviews[k].createdAt == now && n.reviews[k].id == t.nextId
      && n.reviews[k].verdict == None && n.reviews[k].cost == None && n.reviews[k].ci == None
      && n.reviews[k].reason == None && n.reviews[k].model == None && n.reviews[k].inlined == None
  {
  }

  /** A recorded hold is a judged row without a verdict. */
  lemma {:induction false} HeldRow(t: Tables, k: Key, reason: string, now: int)
    ensures
      var n := RecordHold(t, k, reason, now);
      && n == t.(reviews := n.reviews, nextId := t.nextId + 1) && n.reviews == t.reviews[k := n.reviews[k]]
      && n.reviews[k].state == Held && n.reviews[k].createdAt == now && n.reviews[k].id == t.nextId
      && n.reviews[k].verdict == None && n.reviews[k].cost == None && n.reviews[k].ci == None
      && n.reviews[k].reason == Some(reason)
  {
  }

  /** Only the given columns of only this row are written; a row that is not there stays away. */
  lemma {:induction false} WrittenColumns(t: Tables, k: Key, state: RowState, c: Columns)
    ensures
      var n := FinishReview(t, k, state, c);
      && SameButRows(t, n) && (forall j <- t.reviews :: j != k ==> n.reviews[j] == t.reviews[j])
      && (k in t.reviews ==>
            var was, now := t.reviews[k], n.reviews[k];
            && now.state == state && now.createdAt == was.createdAt && now.id == was.id
            && (if c.verdict == None then now.verdict == was.verdict else now.verdict == c.verdict)
            && (if c.reason == None then now.reason == was.reason else now.reason == c.reason)
            && (if c.cost == None then now.cost == was.cost else now.cost == c.cost)
            && (if c.model == None then now.model == was.model else now.model == c.model)
            && (if c.inlined == None then now.inlined == was.inlined else now.inlined == c.inlined)
            && (if c.ci == None then now.ci == was.ci else now.ci == c.ci))
  {
  }

  /** The done label settles every row of its PR, whatever it was, and no other. */
  lemma {:induction false} DoneRows(t: Tables, repo: Repo, pr: int)
    ensures
      var n := SettleDone(t, repo, pr);
      SameButRows(t, n)
      && forall k <- t.reviews ::
           n.reviews[k] == if k.repo == repo && k.pr == pr then t.reviews[k].(ci := Some(Done)) else t.reviews[k]
  {
  }

  /** Losing the label settles every row of the repo's other PRs that a person has not taken. */
  lemma {:induction false} UnlabeledRows(t: Tables, repo: Repo, labeled: set<int>)
    ensures
      var n := SettleUnlabeled(t, repo, labeled);
      SameButRows(t, n)
      && forall k <- t.reviews ::
           n.reviews[k] == if k.repo == repo && k.pr !in labeled && t.reviews[k].ci != Some(Done)
                           then t.reviews[k].(ci := Some(Unlabeled)) else t.reviews[k]
  {
  }

  /** A moved head settles the rows of its PR's other commits whose build is green, red or
      waited for; what was settled otherwise keeps its reason. */
  lemma {:induction false} StaleRows(t: Tables, repo: Repo, heads: map<int, string>)
    ensures
      var n := SettleStale(t, repo, heads);
      SameButRows(t, n)
      && forall k <- t.reviews ::
           n.reviews[k] == if k.repo == repo && k.pr in heads && heads[k.pr] != k.head
                              && t.reviews[k].ci in {Some(Green), Some(Waiting), Some(Red)}
                           then t.reviews[k].(ci := Some(Stale)) else t.reviews[k]
  {
  }

  /** Approvals that wait on a build from before the time expire, and from then on only newer
      ones wait. */
  lemma {:induction false} ExpiredRows(t: Tables, before: int)
    ensures
      var n := ExpireCiWatch(t, before);
      && SameButRows(t, n)
      && (forall k <- t.reviews ::
            n.reviews[k] == if t.reviews[k].verdict == Some(Approve) && t.reviews[k].state == Published
                               && t.reviews[k].ci == Some(Waiting) && t.reviews[k].createdAt < before
                            then t.reviews[k].(ci := Some(Expired)) else t.reviews[k])
      && (forall k <- n.reviews :: Watched(n.reviews[k]) ==> n.reviews[k].createdAt >= before)
  {
  }

  /** At boot no row is left running: those that were have failed, and the others stay. */
  lemma {:induction false} ReapedRows(t: Tables)
    ensures
      var n := ReapRunning(t);
      && SameButRows(t, n)
      && (forall k <- t.reviews :: t.reviews[k].state != Running ==> n.reviews[k] == t.reviews[k])
      && (forall k <- t.reviews :: t.reviews[k].state == Running ==>
            n.reviews[k] == t.reviews[k].(state := Failed, reason := Some("orchestrator restarted")))
  {
  }

  /** A repo's requests become the ones just read, or lose some; the other repos' stay. */
  lemma {:induction false} RequestRows(t: Tables, repo: Repo, prs: set<int>, q: Request)
    ensures q in SetRequested(t, repo, prs).requested <==> if q.repo == repo then q.pr in prs else q in t.requested
    ensures q in Unrequest(t, repo, prs).requested <==> q in t.requested && !(q.repo == repo && q.pr in prs)
    ensures SetRequested(t, repo, prs).(requested := {}) == t.(requested := {})
    ensures Unrequest(t, repo, prs).(requested := {}) == t.(requested := {})
  {
    InPairs(repo, prs, q);
  }

  // ----- the class ------------------------------------------------------------------------

  class Db {
    var reviews: map<Key, Row>
    var nextId: nat
    var notices: set<Notice>
    var requested: set<Request>
    var seeded: set<Repo>
    var spend: seq<Spent>

    constructor (t: Tables)
      ensures View() == t
    {
      reviews, nextId, notices := t.reviews, t.nextId, t.notices;
      requested, seeded, spend := t.requested, t.seeded, t.spend;
    }

    function View(): Tables
      reads this
    {
      Tables(reviews, nextId, notices, requested, seeded, spend)
    }

    /** INSERT OR REPLACE: whatever stood under the key is gone, its cost with it. */
    method StartReviewRow(k: Key, now: int)
      modifies this`reviews, this`nextId
      ensures View() == StartReview(old(View()), k, now)
    {
      reviews := reviews[k := Row(Running, None, None, None, None, None, None, now, nextId)];
      nextId := nextId + 1;
    }

    method FinishReviewRow(k: Key, state: RowState, c: Columns)
      modifies this`reviews
      ensures View() == FinishReview(old(View()), k, state, c)
    {
      if k in reviews {
        var r := reviews[k].(state := state);
        if c.verdict.Some? { r := r.(verdict := c.verdict); }
        if c.reason.Some? { r := r.(reason := c.reason); }
        if c.cost.Some? { r := r.(cost := c.cost); }
        if c.model.Some? { r := r.(model := c.model); }
        if c.inlined.Some? { r := r.(inlined := c.inlined); }
        if c.ci.Some? { r := r.(ci := c.ci); }
        reviews := reviews[k := r];
      }
    }

    method RecordHoldRow(k: Key, reason: string, now: int)
      modifies this`reviews, this`nextId
      ensures View() == RecordHold(old(View()), k, reason, now)
    {
      reviews := reviews[k := Row(Held, None, Some(reason), None, None, None, None, now, nextId)];
      nextId := nextId + 1;
    }

    method SetCi(k: Key, ci: CiState)
      modifies this`reviews
      ensures View() == SetCiState(old(View()), k, ci)
    {
      if k in reviews {
        reviews := reviews[k := reviews[k].(ci := Some(ci))];
      }
    }

    /** One UPDATE of `ci_state` with a WHERE clause. */
    method UpdateCi(picks: (Key, Row) -> bool, ci: CiState)
      modifies this`reviews
      ensures View() == Settle(old(View()), picks, ci)
    {
      reviews := map k | k in reviews :: if picks(k, reviews[k]) then reviews[k].(ci := Some(ci)) else reviews[k];
    }

    method SettleTaken(repo: Repo, pr: int)
      modifies this`reviews
      ensures View() == SettleDone(old(View()), repo, pr)
      ensures SameButRows(old(View()), View())
      ensures forall k <- reviews ::
        reviews[k] == if k.repo == repo && k.pr == pr then old(reviews)[k].(ci := Some(Done)) else old(reviews)[k]
    {
      UpdateCi((k: Key, r: Row) => k.repo == repo && k.pr == pr && r.ci != Some(Done), Done);
    }

    method SettleLabelless(repo: Repo, labeled: set<int>)
      modifies this`reviews
      ensures View() == SettleUnlabeled(old(View()), repo, labeled)
    {
      UpdateCi((k: Key, r: Row) => k.repo == repo && k.pr !in labeled && r.ci != Some(Done) && r.ci != Some(Unlabeled),
               Unlabeled);
    }

    method SettleOneHead(repo: Repo, pr: int, head: string)
      modifies this`reviews
      ensures View() == SettleHead(old(View()), repo, pr, head)
    {
      UpdateCi((k: Key, r: Row) => k.repo == repo && k.pr == pr && k.head != head && Live(r.ci), Stale);
    }

    /** One UPDATE per PR read, which together are one statement over all of them. */
    method SettleMoved(repo: Repo, order: seq<int>, heads: map<int, string>)
      requires forall p <- order :: p in heads
      requires forall p <- heads :: p in order
      modifies this`reviews
      ensures View() == SettleStale(old(View()), repo, heads)
    {
      for i := 0 to |order|
        invariant View() == SettleEach(old(View()), repo, order[..i], heads)
      {
        assert order[..i + 1][..i] == order[..i];
        SettleOneHead(repo, order[i], heads[order[i]]);
      }
      assert order[..|order|] == order;
      SettleEachIsStale(old(View()), repo, order, heads);
    }

    /** DELETE and the INSERTs in one transaction: a PR named twice breaks the primary key,
        and everything rolls back. */
    method ReplaceRequested(repo: Repo, prs: seq<int>) returns (ok: bool)
      modifies this`requested
      ensures ok <==> Distinct(prs)
      ensures View() == if ok then SetRequested(old(View()), repo, Elems(prs)) else old(View())
    {
      var begun := requested;
      requested := set q | q in requested && q.repo != repo;
      ok := true;
      for i := 0 to |prs|
        invariant ok && Distinct(prs[..i]) && begun == old(requested)
        invariant requested == RequestedOutside(old(View()), repo) + PairsWith(repo, Elems(prs[..i]))
      {
        assert prs[..i + 1] == prs[..i] + [prs[i]];
        InPairs(repo, Elems(prs[..i]), Request(repo, prs[i]));
        if Request(repo, prs[i]) in requested {
          assert prs[i] in prs[..i];
          ok := false;
          requested := begun;
          return;
        }
        OneMorePair(repo, prs, i);
        requested := requested + {Request(repo, prs[i])};
      }
      assert prs[..|prs|] == prs;
    }

    method Drop(repo: Repo, prs: set<int>)
      modifies this`requested
      ensures View() == Unrequest(old(View()), repo, prs)
    {
      requested := requested - PairsWith(repo, prs);
    }

    /** True the first time a key is recorded. */
    method NoticeOnce(n: Notice) returns (first: bool)
      modifies this`notices
      ensures first <==> n !in old(notices)
      ensures View() == Notice1(old(View()), n)
    {
      first := n !in notices;
      notices := notices + {n};
    }

    method Seed(repo: Repo)
      modifies this`seeded
      ensures View() == MarkSeeded(old(View()), repo)
    {
      seeded := seeded + {repo};
    }

    method Spend(s: Spent)
      modifies this`spend
      ensures View() == RecordSpend(old(View()), s)
    {
      spend := spend + [s];
    }
  }

  function SettleEach(t: Tables, repo: Repo, order: seq<int>, heads: map<int, string>): Tables
    requires forall p <- order :: p in heads
  {
    if order == [] then t
    else
      var pr := order[|order| - 1];
      SettleHead(SettleEach(t, repo, order[..|order| - 1], heads), repo, pr, heads[pr])
  }

  /** What the UPDATEs so far have made of a row. */
  function StaleRow(k: Key, r: Row, repo: Repo, order: seq<int>, heads: map<int, string>): Row
    requires forall p <- order :: p in heads
  {
    if k.repo == repo && k.pr in order && k.head != heads[k.pr] && Live(r.ci) then r.(ci := Some(Stale)) else r
  }

  lemma {:induction false} SettleEachRows(t: Tables, repo: Repo, order: seq<int>, heads: map<int, string>)
    requires forall p <- order :: p in heads
    ensures
      var n := SettleEach(t, repo, order, heads);
      n == t.(reviews := n.reviews) && n.reviews.Keys == t.reviews.Keys
      && forall k <- t.reviews :: n.reviews[k] == StaleRow(k, t.reviews[k], repo, order, heads)
  {
    if order != [] {
      var pre, pr := order[..|order| - 1], order[|order| - 1];
      SettleEachRows(t, repo, pre, heads);
      assert order == pre + [pr];
    }
  }

  lemma {:induction false} SettleEachIsStale(t: Tables, repo: Repo, order: seq<int>, heads: map<int, string>)
    requires forall p <- order :: p in heads
    requires forall p <- heads :: p in order
    ensures SettleEach(t, repo, order, heads) == SettleStale(t, repo, heads)
  {
    SettleEachRows(t, repo, order, heads);
    var a, b := SettleEach(t, repo, order, heads).reviews, SettleStale(t, repo, heads).reviews;
    assert a.Keys == b.Keys;
    assert forall k <- a :: a[k] == b[k];
    assert a == b;
  }

  lemma {:induction false} OneMorePair(repo: Repo, prs: seq<int>, i: nat)
    requires i < |prs|
    ensures PairsWith(repo, Elems(prs[..i + 1])) == PairsWith(repo, Elems(prs[..i])) + {Request(repo, prs[i])}
  {
    assert prs[..i + 1] == prs[..i] + [prs[i]];
    assert Elems(prs[..i + 1]) == Elems(prs[..i]) + {prs[i]};
  }
}

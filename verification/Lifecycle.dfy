/** One machine over the tables and GitHub: ticks whose tasks interleave at every await,
    any of which may die, under three modes. */
module Lifecycle {
  import opened Options
  import opened Store
  import G = Gates

  /** A real run; a run that reviews and posts nothing; a run that only looks. */
  datatype Mode = Real | NoPublish | DryRun

  predicate Quiet(mode: Mode) {
    mode != Real
  }

  /** The mode, the repositories of the configuration and their labels. */
  datatype Setup = Setup(mode: Mode, repos: set<Repo>, rules: G.Rules)

  /** What a container handed back: a parsed verdict or none, whether it came with a
      summary body, and its cost and model. */
  datatype Result = Result(verdict: Option<Verdict>, body: bool, cost: Option<real>, model: Option<string>)

  /** A post made at most once per key, and what it is for. */
  datatype Errand =
    | CiRedErrand
    | RunCiErrand(r: Result)
    | ReviewErrand(r: Result)
    | ApprovedErrand
    | ApprovedRedErrand

  /** Inside `once_per`: before the key is read, while the post is out, and after GitHub
      took it but before the key is written. */
  datatype Stage = Checking | InFlight | Arrived(inlined: nat)

  /** Where a task is. */
  datatype Pc =
    | Looking(k: Key)                      // the row of this key is not read yet
    | Evaluating(k: Key)
    | Telling(k: Key, d: G.Decision)       // a hold
    | Recording(k: Key, d: G.Decision)
    | Asking(k: Key)                       // for a slot
    | InContainer(k: Key)
    | Failing(k: Key, model: Option<string>)
    | Clearing(k: Key, r: Result)          // an ok: the needs-work label
    | Retracting(k: Key, r: Result)        // our earlier rejection
    | Requesting(k: Key, r: Result)        // is a build already running?
    | Approving(k: Key, r: Result)
    | Once(k: Key, errand: Errand, stage: Stage)
    | Inlining(k: Key, r: Result, inlined: nat)
    | Building(k: Key)                     // reads the build of an approval
    | Settling(k: Key, ci: CiState)
    | Over(k: Key, action: G.Action)

  /** A task of the queue phase is a PR's; a task of the CI watch is a row's. */
  datatype Id = ForPr(repo: Repo, pr: int) | ForRow(row: Key)

  /** Whether a post was taken: taken; not sent; refused; taken, but the answer was lost. */
  datatype Reply = Reached(inlined: nat) | Declined | Refused | AnswerLost

  datatype Build = Unreadable | Closed | Moved | Pending | BuildGreen | BuildRed

  /** One step of a task, between two awaits. */
  datatype Move =
    | Looks
    | Evaluates(f: G.Facts)
    | TellsHold
    | RecordsHold(now: int)
    | IsRefused
    | Starts(now: int)
    | RunFails(cost: Option<real>, onEndpoint: bool, model: Option<string>)
    | MarksFailed(error: Option<string>)
    | RunReturns(r: Result)
    | ReturnsNoBlocks
    | Clears(ok: bool)
    | Retracts(ok: bool)
    | ReadsCi(already: bool)
    | Approves
    | Checks
    | Replies(reply: Reply)
    | Records
    | Inlines
    | Builds(b: Build)
    | Settles

  // ----- one task ----------------------------------------------------------------------------

  function ErrandKey(k: Key, e: Errand): Notice {
    match e
    case CiRedErrand => Posted(CiRedNote, k.repo, k.pr, k.head)
    case RunCiErrand(_) => RunCi(k.repo, k.pr, k.head)
    case ReviewErrand(_) => Posted(ReviewPost, k.repo, k.pr, k.head)
    case ApprovedErrand => Posted(ApprovedNote, k.repo, k.pr, k.head)
    case ApprovedRedErrand => Posted(ApprovedRedNote, k.repo, k.pr, k.head)
  }

  /** How `once_per` came out. */
  datatype Ending = AlreadyOut | NotPosted | GaveUp | WasPosted(inlined: nat)

  function AfterErrand(k: Key, e: Errand, end: Ending): Pc {
    match e
    case CiRedErrand => Over(k, if end == GaveUp then G.Skip else G.CiNote)
    case RunCiErrand(r) => Approving(k, r)
    case ReviewErrand(r) =>
      if end == GaveUp then Over(k, G.Failed)
      else if end.WasPosted? then Inlining(k, r, end.inlined)
      else Over(k, G.Review)
    case ApprovedErrand => Over(k, G.Review)
    case ApprovedRedErrand => if end == GaveUp then Over(k, G.Skip) else Settling(k, Red)
  }

  /** `_pass_state`: a pass that posts nothing must not count as judged. */
  function PassState(mode: Mode, state: RowState): RowState {
    if mode == NoPublish then RowState.Failed else state
  }

  function PassReason(mode: Mode, reason: Option<string>): Option<string> {
    if mode == NoPublish then Some("--no-publish: nothing was posted") else reason
  }

  /** `_unusable`. */
  predicate Unusable(r: Result) {
    r.verdict.None? || (r.verdict != Some(Approve) && !r.body)
  }

  function WhyUnusable(r: Result): string {
    if r.verdict.None? then "run gave no verdict" else "verdict without a summary body"
  }

  /** What a failed container leaves in `spend`; the account paid nothing for an endpoint. */
  function FailedSpend(k: Key, cost: Option<real>, onEndpoint: bool): Spent {
    Spent(k.repo, k.pr, "failed", if onEndpoint then None else cost)
  }

  /** The columns every exit of `_deliver` writes. */
  function Common(mode: Mode, r: Result, reason: Option<string>, inlined: Option<nat>, ci: Option<CiState>): Columns {
    Columns(r.verdict, PassReason(mode, reason), r.cost, r.model, inlined, ci)
  }

  /** What a step comes to: a statement, the next place, and whether GitHub took a post. */
  datatype Out = Out(write: Write, pc: Pc, reached: bool, lost: bool)

  function Goes(pc: Pc): Out {
    Out(Nothing, pc, false, false)
  }

  function Writes(w: Write, pc: Pc): Out {
    Out(w, pc, false, false)
  }

  /** A real run declines to post nothing but a review with an empty body. */
  predicate MayAnswer(u: Setup, e: Errand, reply: Reply) {
    reply == Declined ==> Quiet(u.mode) || e.ReviewErrand?
  }

  predicate Fits(u: Setup, pc: Pc, mv: Move) {
    match mv
    case Looks => pc.Looking?
    case Evaluates(_) => pc.Evaluating?
    case TellsHold => pc.Telling?
    case RecordsHold(_) => pc.Recording?
    case IsRefused => pc.Asking?
    case Starts(_) => pc.Asking?
    case RunFails(_, _, _) => pc.InContainer?
    case MarksFailed(_) => pc.Failing?
    case RunReturns(_) => pc.InContainer?
    case ReturnsNoBlocks => pc.InContainer?
    case Clears(_) => pc.Clearing?
    case Retracts(_) => pc.Retracting?
    case ReadsCi(_) => pc.Requesting?
    case Approves => pc.Approving?
    case Checks => pc.Once? && pc.stage == Checking
    case Replies(reply) => pc.Once? && pc.stage == InFlight && MayAnswer(u, pc.errand, reply)
    case Records => pc.Once? && pc.stage.Arrived?
    case Inlines => pc.Inlining?
    case Builds(_) => pc.Building?
    case Settles => pc.Settling?
  }

  function Evaluated(u: Setup, k: Key, d: G.Decision): Pc {
    match d.action
    case Review => if u.mode == DryRun then Over(k, G.Review) else Asking(k)
    case CiNote => Once(k, CiRedErrand, Checking)
    case Hold => Telling(k, d)
    case _ => Over(k, d.action)
  }

  function Returned(u: Setup, k: Key, r: Result): Out {
    if Unusable(r) then
      Writes(Finish(k, PassState(u.mode, Held), Common(u.mode, r, Some(WhyUnusable(r)), None, None)), Over(k, G.Failed))
    else if r.verdict == Some(Approve) then Goes(Clearing(k, r))
    else Writes(Finish(k, PassState(u.mode, Published), Common(u.mode, r, None, None, None)),
                Once(k, ReviewErrand(r), Checking))
  }

  /** The answer to a post. A quiet run sends nothing, so nothing of it is taken. */
  function Replied(mode: Mode, k: Key, e: Errand, reply: Reply): Out {
    match reply
    case Refused => Goes(AfterErrand(k, e, GaveUp))
    case Declined => Goes(AfterErrand(k, e, NotPosted))
    case Reached(n) =>
      if Quiet(mode) then Goes(AfterErrand(k, e, NotPosted)) else Out(Nothing, Once(k, e, Arrived(n)), true, false)
    case AnswerLost =>
      if Quiet(mode) then Goes(AfterErrand(k, e, GaveUp)) else Out(Nothing, AfterErrand(k, e, GaveUp), true, true)
  }

  function Built(k: Key, b: Build): Pc {
    match b
    case Unreadable => Over(k, G.Skip)
    case Pending => Over(k, G.Skip)
    case Closed => Settling(k, Gone)
    case Moved => Settling(k, Stale)
    case BuildGreen => Settling(k, Green)
    case BuildRed => Once(k, ApprovedRedErrand, Checking)
  }

  function Go(u: Setup, t: Tables, pc: Pc, mv: Move): Out
    requires Fits(u, pc, mv)
  {
    var k := pc.k;
    match mv
    case Looks => if KeyJudged(t, k) then Goes(Over(k, G.Skip)) else Goes(Evaluating(k))
    case Evaluates(f) => Goes(Evaluated(u, k, G.Evaluate(f, u.rules, ShaJudged(t, k.repo, k.pr, k.head))))
    case TellsHold =>
      var next := if pc.d.record && !Quiet(u.mode) then Recording(k, pc.d) else Over(k, G.Hold);
      if pc.d.dm && !Quiet(u.mode) then Writes(Note(HoldNote(k)), next) else Goes(next)
    case RecordsHold(now) => Writes(Write.Hold(k, pc.d.reason, now), Over(k, G.Hold))
    case IsRefused => Goes(Over(k, G.Budget))
    case Starts(now) => Writes(Start(k, now), InContainer(k))
    case RunFails(cost, onEndpoint, model) => Writes(Pay(FailedSpend(k, cost, onEndpoint)), Failing(k, model))
    case MarksFailed(error) =>
      Writes(Finish(k, RowState.Failed, Columns(None, error, None, pc.model, None, None)), Over(k, G.Failed))
    case RunReturns(r) => Returned(u, k, r)
    case ReturnsNoBlocks => Goes(Over(k, G.Failed))
    case Clears(ok) => Goes(if ok then Retracting(k, pc.r) else Over(k, G.Skip))
    case Retracts(ok) =>
      if !ok && !Quiet(u.mode) then Writes(Note(DismissFailed(k.repo, k.pr)), Requesting(k, pc.r))
      else Goes(Requesting(k, pc.r))
    case ReadsCi(already) => Goes(if already then Approving(k, pc.r) else Once(k, RunCiErrand(pc.r), Checking))
    case Approves =>
      var ci := if u.mode == NoPublish then None else Some(Waiting);
      Writes(Finish(k, PassState(u.mode, Published), Common(u.mode, pc.r, None, Some(0), ci)),
             Once(k, ApprovedErrand, Checking))
    case Checks =>
      if !Quiet(u.mode) && ErrandKey(k, pc.errand) in t.notices then Goes(AfterErrand(k, pc.errand, AlreadyOut))
      else Goes(Once(k, pc.errand, InFlight))
    case Replies(reply) => Replied(u.mode, k, pc.errand, reply)
    case Records => Writes(Note(ErrandKey(k, pc.errand)), AfterErrand(k, pc.errand, WasPosted(pc.stage.inlined)))
    case Inlines =>
      Writes(Finish(k, PassState(u.mode, Published), Common(u.mode, pc.r, None, Some(pc.inlined), None)),
             Over(k, G.Review))
    case Builds(b) => Goes(Built(k, b))
    case Settles => if Quiet(u.mode) then Goes(Over(k, G.Ready)) else Writes(Ci(k, pc.ci), Over(k, G.Ready))
  }

  // ----- the whole -----------------------------------------------------------------------------

  /** A tick first sweeps replies and watches builds, then works the queues. */
  datatype Phase = Idle | Watching | Queueing

  /** `log` is what GitHub took, by key; `lost` is what it took whose key will not be
      written; `base` is what was judged when the tick began; `since` is the creation time the
      CI watch goes back to, which the clock only moves on. */
  datatype Machine = Machine(t: Tables, phase: Phase, tasks: map<Id, Pc>,
                             log: multiset<Notice>, lost: multiset<Notice>, base: set<Key>, since: int)

  datatype Event =
    | TickStarts(since: int)
    | Watches(k: Key)                  // an approval still waiting on its build, in the watch's window
    | QueueOpens
    | Arrives(k: Key)                  // a PR of a seeded repo's queue
    | Moves(id: Id, mv: Move)
    | Housekeeping(w: Write)
    | Dies(id: Id)                     // a task is cancelled, or an exception ends it
    | TickEnds
    | TickFails
    | Restarts                         // the process dies; the next one reaps its rows

  /** The notices that stand for a post. */
  predicate Postable(n: Notice) {
    n.Posted? || n.RunCi?
  }

  predicate InHand(pc: Pc) {
    pc.Once? && pc.stage.Arrived?
  }

  /** The posts GitHub took whose key is about to be written. */
  function HandKeys(tasks: map<Id, Pc>): set<Notice> {
    set id | id in tasks && InHand(tasks[id]) :: ErrandKey(tasks[id].k, tasks[id].errand)
  }

  predicate AllOver(m: Machine) {
    forall id <- m.tasks :: m.tasks[id].Over?
  }

  /** What the tick itself writes, besides its tasks: the expiry of the CI watch; the reply
      sweep's notices and spend; the bug queue's spend, at any time of a real run; the
      requested table, cold start, and the retirements. */
  predicate MayWrite(u: Setup, m: Machine, w: Write) {
    match w
    case Expire(_) => u.mode == Real && m.phase == Watching && m.tasks == map[]
    case Note(n) =>
      (match n
       case ThreadSettled(_, _, _, _) => u.mode == Real && m.phase == Watching
       case Merged(_, _) => u.mode != DryRun && m.phase == Watching
       case NoMap(_) => u.mode != DryRun
       case BudgetNote(_) => u.mode == Real
       case _ => false)
    case Pay(_) => u.mode == Real || (u.mode == NoPublish && m.phase == Watching)
    case Hold(k, _, _) =>
      u.mode != DryRun && m.phase == Queueing && k.repo in u.repos && k.repo !in m.t.seeded && Unforced(k)
    case SeedDone(repo) => u.mode != DryRun && m.phase == Queueing && repo in u.repos
    case Ask(repo, _) => u.mode != DryRun && m.phase == Queueing
    case Unask(repo, _) => u.mode != DryRun && m.phase == Queueing
    case Unlabel(repo, _) => u.mode != DryRun && m.phase == Queueing
    case Move(repo, _) => u.mode != DryRun && m.phase == Queueing
    case TakeDone(repo, _) => u.mode != DryRun && m.phase == Queueing
    case _ => false
  }

  /** `watching_ci` names it: an approval of a configured repo that waits on its build and is
      not older than the window. */
  predicate Followed(u: Setup, t: Tables, since: int, k: Key) {
    k in t.reviews && Watched(t.reviews[k]) && t.reviews[k].createdAt >= since && k.repo in u.repos
  }

  predicate Enabled(u: Setup, m: Machine, e: Event) {
    match e
    case TickStarts(since) => m.phase == Idle && since >= m.since
    case Watches(k) => m.phase == Watching && ForRow(k) !in m.tasks && Followed(u, m.t, m.since, k)
    case QueueOpens => m.phase == Watching && AllOver(m)
    case Arrives(k) =>
      m.phase == Queueing && ForPr(k.repo, k.pr) !in m.tasks && k.repo in u.repos && k.repo in m.t.seeded && Unforced(k)
    case Moves(id, mv) => id in m.tasks && Fits(u, m.tasks[id], mv)
    case Housekeeping(w) => MayWrite(u, m, w)
    case Dies(id) => id in m.tasks && !m.tasks[id].Over?
    case TickEnds => m.phase == Queueing && AllOver(m)
    case TickFails => true
    case Restarts => true
  }

  function Next(u: Setup, m: Machine, e: Event): Machine
    requires Enabled(u, m, e)
  {
    match e
    case TickStarts(since) => m.(phase := Watching, tasks := map[], base := Judged(m.t), since := since)
    case Watches(k) => m.(tasks := m.tasks[ForRow(k) := Building(k)])
    case QueueOpens => m.(phase := Queueing, tasks := map[])
    case Arrives(k) => m.(tasks := m.tasks[ForPr(k.repo, k.pr) := Looking(k)])
    case Moves(id, mv) =>
      var pc := m.tasks[id];
      var o := Go(u, m.t, pc, mv);
      var n := if pc.Once? then multiset{ErrandKey(pc.k, pc.errand)} else multiset{};
      m.(t := Apply(m.t, o.write), tasks := m.tasks[id := o.pc],
         log := if o.reached then m.log + n else m.log, lost := if o.lost then m.lost + n else m.lost)
    case Housekeeping(w) => m.(t := Apply(m.t, w))
    case Dies(id) =>
      var pc := m.tasks[id];
      m.(tasks := m.tasks[id := Over(pc.k, G.Failed)],
         lost := if InHand(pc) then m.lost + multiset{ErrandKey(pc.k, pc.errand)} else m.lost)
    case TickEnds => m.(phase := Idle)
    case TickFails => m.(phase := Idle, tasks := map[], lost := m.lost + multiset(HandKeys(m.tasks)))
    case Restarts =>
      m.(phase := Idle, tasks := map[], lost := m.lost + multiset(HandKeys(m.tasks)), t := ReapRunning(m.t))
  }

  predicate Runs(u: Setup, m: Machine, es: seq<Event>)
    decreases |es|
  {
    es == [] || (Enabled(u, m, es[0]) && Runs(u, Next(u, m, es[0]), es[1..]))
  }

  function After(u: Setup, m: Machine, es: seq<Event>): Machine
    requires Runs(u, m, es)
    decreases |es|
  {
    if es == [] then m else After(u, Next(u, m, es[0]), es[1..])
  }

  /** A run is its first step and the rest. */
  lemma OneStep(u: Setup, m: Machine, e: Event, es: seq<Event>)
    requires Enabled(u, m, e) && Runs(u, Next(u, m, e), es)
    ensures Runs(u, m, [e] + es) && After(u, m, [e] + es) == After(u, Next(u, m, e), es)
  {
    assert ([e] + es)[1..] == es;
  }
}

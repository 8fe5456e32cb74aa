/** The reply sweep on one pull request: robbie and others alternate on review threads,
    and robbie's side must come to rest. Threads are keyed by the id of their first
    comment; a `thread:` notice remembers a thread at a reply count. */
module Sweep {
  import opened Sets

  datatype Who = Robbie | Other

  /** A review thread robbie opened. `hasNode` is whether GitHub gave it a node id. */
  datatype Thread = Thread(resolved: bool, outdated: bool, comments: seq<Who>, hasNode: bool)

  type Id = nat

  datatype Action = Resolve | Reply | Leave

  /** What GitHub and the database hold between two steps. `thread:` notices are the
      pairs (id, reply count). */
  datatype World = World(threads: map<Id, Thread>, notices: set<(Id, nat)>)

  // ----- reading a thread ------------------------------------------------------------

  const PAGE := 100

  /** The comments one GraphQL page shows. */
  function Shown(t: Thread): seq<Who> {
    if |t.comments| <= PAGE then t.comments else t.comments[..PAGE]
  }

  predicate MineIsLast(t: Thread) {
    Shown(t) != [] && Shown(t)[|Shown(t)| - 1] == Robbie
  }

  /** Open and someone else spoke last. */
  predicate Answered(t: Thread) {
    Shown(t) != [] && !t.resolved && !MineIsLast(t)
  }

  /** The reply count in a thread's key. */
  function Replies(t: Thread): nat {
    if Shown(t) == [] then 0 else |Shown(t)| - 1
  }

  predicate IsPending(w: World, id: Id) {
    id in w.threads && Answered(w.threads[id]) && (id, Replies(w.threads[id])) !in w.notices
  }

  function Pending(w: World): set<Id> {
    set id | id in w.threads && IsPending(w, id)
  }

  // ----- acting on one thread ---------------------------------------------------------

  /** What the run decided for an offered thread: nothing, or one of three actions. A
      reply on an outdated thread is taken as leave. */
  function Taken(verdicts: map<Id, Action>, id: Id, offered: Thread): Action {
    if id !in verdicts then Leave
    else if verdicts[id] == Reply && offered.outdated then Leave
    else verdicts[id]
  }

  function Settled(w: World, id: Id, offered: Thread): World {
    w.(notices := w.notices + {(id, Replies(offered))})
  }

  /** One turn of the loop over the offered threads: GitHub accepts the write or
      refuses it, and whatever leaves no trace on GitHub is remembered as settled. A
      thread without a node id is "resolved" by a call that posts nothing. */
  function Judge(w: World, id: Id, offered: Thread, action: Action, accepted: bool): World {
    match action
    case Leave => Settled(w, id, offered)
    case Resolve =>
      if !offered.hasNode then w
      else if !accepted then Settled(w, id, offered)
      else if id !in w.threads then w
      else w.(threads := w.threads[id := w.threads[id].(resolved := true)])
    case Reply =>
      if !accepted then Settled(w, id, offered)
      else if id !in w.threads then w
      else w.(threads := w.threads[id := w.threads[id].(comments := w.threads[id].comments + [Robbie])])
  }

  function JudgeAll(w: World, order: seq<Id>, offered: map<Id, Thread>, verdicts: map<Id, Action>,
                    refused: set<Id>): World
    requires forall k :: 0 <= k < |order| ==> order[k] in offered
  {
    if order == [] then w
    else
      var id := order[|order| - 1];
      Judge(JudgeAll(w, order[..|order| - 1], offered, verdicts, refused), id, offered[id],
            Taken(verdicts, id, offered[id]), id !in refused)
  }

  // ----- what a verdict does ---------------------------------------------------------------------

  /** The run conceded, and GitHub could and would close the thread. */
  predicate Concedes(verdicts: map<Id, Action>, refused: set<Id>, id: Id, offered: Thread) {
    id in verdicts && verdicts[id] == Resolve && offered.hasNode && id !in refused
  }

  /** The run had something to say where it would be read, and GitHub took it. */
  predicate Replied(verdicts: map<Id, Action>, refused: set<Id>, id: Id, offered: Thread) {
    id in verdicts && verdicts[id] == Reply && !offered.outdated && id !in refused
  }

  /** Nothing the run said, or GitHub took, shows on the thread: it is remembered instead. */
  predicate Remembers(verdicts: map<Id, Action>, refused: set<Id>, id: Id, offered: Thread) {
    || id !in verdicts || verdicts[id] == Leave
    || (verdicts[id] == Reply && (offered.outdated || id in refused))
    || (verdicts[id] == Resolve && offered.hasNode && id in refused)
  }

  /** GitHub would not take what the run decided. */
  predicate Refuses(verdicts: map<Id, Action>, refused: set<Id>, id: Id, offered: Thread) {
    && id in verdicts && id in refused
    && ((verdicts[id] == Reply && !offered.outdated) || (verdicts[id] == Resolve && offered.hasNode))
  }

  /** After acting on the offered threads in `order`: a concession closed its thread and kept
      its comments; a reply put one comment of robbie's behind the others and closed nothing;
      every other thread, offered or not, is as it was; and what shows nowhere is remembered
      at the reply count that was offered. */
  ghost predicate ActedOn(w: World, n: World, order: seq<Id>, offered: map<Id, Thread>, verdicts: map<Id, Action>,
                          refused: set<Id>)
    requires forall k :: 0 <= k < |order| ==> order[k] in offered
  {
    && n.threads.Keys == w.threads.Keys
    && (forall id <- w.threads ::
          n.threads[id] ==
          if id in order && Concedes(verdicts, refused, id, offered[id]) then w.threads[id].(resolved := true)
          else if id in order && Replied(verdicts, refused, id, offered[id]) then
            w.threads[id].(comments := w.threads[id].comments + [Robbie])
          else w.threads[id])
    && (forall r: (Id, nat) ::
          r in n.notices <==>
            r in w.notices
            || (r.0 in order && Remembers(verdicts, refused, r.0, offered[r.0]) && r.1 == Replies(offered[r.0])))
  }

  lemma {:induction false} JudgedOne(w: World, n: World, id: Id, offered: map<Id, Thread>, verdicts: map<Id, Action>,
                                     refused: set<Id>)
    requires id in offered && n == Judge(w, id, offered[id], Taken(verdicts, id, offered[id]), id !in refused)
    ensures ActedOn(w, n, [id], offered, verdicts, refused)
  {
  }

  lemma {:induction false} ActedOnOneMore(w: World, mid: World, n: World, order: seq<Id>, id: Id,
                                          offered: map<Id, Thread>, verdicts: map<Id, Action>, refused: set<Id>)
    requires (forall k :: 0 <= k < |order| ==> order[k] in offered) && id in offered && id !in order
    requires ActedOn(w, mid, order, offered, verdicts, refused) && ActedOn(mid, n, [id], offered, verdicts, refused)
    ensures ActedOn(w, n, order + [id], offered, verdicts, refused)
  {
    assert forall i :: i in order + [id] <==> i in order || i == id;
    assert forall i :: i in [id] <==> i == id;
  }

  predicate Distinct(order: seq<Id>) {
    forall i, j :: 0 <= i < j < |order| ==> order[i] != order[j]
  }

  /** One verdict a thread, each with its own effect, when no thread is listed twice. */
  lemma {:induction false} VerdictsTakeEffect(w: World, order: seq<Id>, offered: map<Id, Thread>,
                                              verdicts: map<Id, Action>, refused: set<Id>)
    requires forall k :: 0 <= k < |order| ==> order[k] in offered
    requires Distinct(order)
    ensures ActedOn(w, JudgeAll(w, order, offered, verdicts, refused), order, offered, verdicts, refused)
  {
    if order != [] {
      var front, id := order[..|order| - 1], order[|order| - 1];
      VerdictsTakeEffect(w, front, offered, verdicts, refused);
      var mid, n := JudgeAll(w, front, offered, verdicts, refused), JudgeAll(w, order, offered, verdicts, refused);
      JudgedOne(mid, n, id, offered, verdicts, refused);
      ActedOnOneMore(w, mid, n, front, id, offered, verdicts, refused);
      assert front + [id] == order;
    }
  }

  lemma EffectsIfDistinct(w: World, order: seq<Id>, offered: map<Id, Thread>, verdicts: map<Id, Action>,
                          refused: set<Id>)
    requires forall k :: 0 <= k < |order| ==> order[k] in offered
    ensures Distinct(order) ==>
              ActedOn(w, JudgeAll(w, order, offered, verdicts, refused), order, offered, verdicts, refused)
  {
    if Distinct(order) {
      VerdictsTakeEffect(w, order, offered, verdicts, refused);
    }
  }

  predicate SomeReplied(order: seq<Id>, offered: map<Id, Thread>, verdicts: map<Id, Action>, refused: set<Id>)
    requires forall k :: 0 <= k < |order| ==> order[k] in offered
  {
    exists k :: 0 <= k < |order| && Replied(verdicts, refused, order[k], offered[order[k]])
  }

  predicate SomeRefuses(order: seq<Id>, offered: map<Id, Thread>, verdicts: map<Id, Action>, refused: set<Id>)
    requires forall k :: 0 <= k < |order| ==> order[k] in offered
  {
    exists k :: 0 <= k < |order| && Refuses(verdicts, refused, order[k], offered[order[k]])
  }

  lemma SomeOneMore(order: seq<Id>, offered: map<Id, Thread>, verdicts: map<Id, Action>, refused: set<Id>)
    requires order != [] && forall k :: 0 <= k < |order| ==> order[k] in offered
    ensures
      var front, id := order[..|order| - 1], order[|order| - 1];
      && (SomeReplied(order, offered, verdicts, refused)
          <==> SomeReplied(front, offered, verdicts, refused) || Replied(verdicts, refused, id, offered[id]))
      && (SomeRefuses(order, offered, verdicts, refused)
          <==> SomeRefuses(front, offered, verdicts, refused) || Refuses(verdicts, refused, id, offered[id]))
  {
  }

  /** How acting on one thread ended. */
  datatype Ended = Conceded | RepliedTo | LeftAlone | Unanswered | NotTaken

  /** How many threads ended which way. */
  datatype Tally = Tally(resolved: nat, replied: nat, left: nat, unanswered: nat, failed: nat)

  /** The sweep's hold on GitHub and on the notices table. */
  class Sweeper {
    var threads: map<Id, Thread>
    var notices: set<(Id, nat)>

    constructor (w: World)
      ensures View() == w
    {
      threads, notices := w.threads, w.notices;
    }

    ghost function View(): World
      reads this
    {
      World(threads, notices)
    }

    method SettleThread(id: Id, offered: Thread)
      modifies this`notices
      ensures View() == Settled(old(View()), id, offered)
    {
      notices := notices + {(id, Replies(offered))};
    }

    /** One turn of the loop. */
    method ActOnOne(id: Id, t: Thread, verdicts: map<Id, Action>, refused: set<Id>) returns (end: Ended)
      modifies this
      ensures View() == Judge(old(View()), id, t, Taken(verdicts, id, t), id !in refused)
      ensures end == Unanswered <==> id !in verdicts
      ensures end == RepliedTo <==> Replied(verdicts, refused, id, t)
      ensures end == NotTaken <==> Refuses(verdicts, refused, id, t)
      ensures end == Conceded <==> id in verdicts && verdicts[id] == Resolve && !(t.hasNode && id in refused)
    {
      if id !in verdicts {
        SettleThread(id, t);
        return Unanswered;
      }
      var action := if verdicts[id] == Reply && t.outdated then Leave else verdicts[id];
      match action {
        case Leave =>
          SettleThread(id, t);
          end := LeftAlone;
        case Resolve =>
          if t.hasNode && id in refused {
            SettleThread(id, t);
            return NotTaken;
          }
          if t.hasNode && id in threads {
            threads := threads[id := threads[id].(resolved := true)];
          }
          end := Conceded;
        case Reply =>
          if id in refused {
            SettleThread(id, t);
            return NotTaken;
          }
          if id in threads {
            threads := threads[id := threads[id].(comments := threads[id].comments + [Robbie])];
          }
          end := RepliedTo;
      }
    }

    /** The end of `_answer`, once the run is back: act on every offered thread, in
        order; a refusal on one does not stop the others. */
    method Act(order: seq<Id>, offered: map<Id, Thread>, verdicts: map<Id, Action>, refused: set<Id>)
      returns (done: Tally)
      requires forall k :: 0 <= k < |order| ==> order[k] in offered
      modifies this
      ensures View() == JudgeAll(old(View()), order, offered, verdicts, refused)
      ensures Distinct(order) ==> ActedOn(old(View()), View(), order, offered, verdicts, refused)
      ensures done.resolved + done.replied + done.left + done.unanswered + done.failed == |order|
      ensures done.replied > 0 <==> SomeReplied(order, offered, verdicts, refused)
      ensures done.failed > 0 <==> SomeRefuses(order, offered, verdicts, refused)
    {
      done := Tally(0, 0, 0, 0, 0);
      for i := 0 to |order|
        invariant View() == JudgeAll(old(View()), order[..i], offered, verdicts, refused)
        invariant done.resolved + done.replied + done.left + done.unanswered + done.failed == i
        invariant done.replied > 0 <==> SomeReplied(order[..i], offered, verdicts, refused)
        invariant done.failed > 0 <==> SomeRefuses(order[..i], offered, verdicts, refused)
      {
        assert order[..i + 1][..i] == order[..i] && order[..i + 1][i] == order[i];
        SomeOneMore(order[..i + 1], offered, verdicts, refused);
        var end := ActOnOne(order[i], offered[order[i]], verdicts, refused);
        match end {
          case Conceded => done := done.(resolved := done.resolved + 1);
          case RepliedTo => done := done.(replied := done.replied + 1);
          case LeftAlone => done := done.(left := done.left + 1);
          case Unanswered => done := done.(unanswered := done.unanswered + 1);
          case NotTaken => done := done.(failed := done.failed + 1);
        }
      }
      assert order[..|order|] == order;
      EffectsIfDistinct(old(View()), order, offered, verdicts, refused);
    }
  }

  // ----- the two-party system --------------------------------------------------------------

  /** Where the sweep is: idle; a container working on the offered snapshots; or acting
      on the ids still to do. `touched` records the offered threads somebody else has
      commented on or reopened since the snapshot. */
  datatype Phase =
    | Idle
    | Running(offered: map<Id, Thread>, touched: set<Id>)
    | Acting(offered: map<Id, Thread>, todo: set<Id>, verdicts: map<Id, Action>, touched: set<Id>)

  datatype System = System(world: World, phase: Phase)

  datatype Event =
    | OtherComments(id: Id)
    | OtherUnresolves(id: Id)
    | OtherResolves(id: Id)
    | CodeMoves(id: Id)                       // the thread becomes outdated
    | RobbieOpens(id: Id)                     // a review posts a new finding
    | SweepStarts
    | RunFails                                // no slot, or the container failed
    | RunCompletes(verdicts: map<Id, Action>)
    | ThreadJudged(id: Id, accepted: bool)
    | SweepEnds

  function Touched(p: Phase, id: Id): Phase {
    match p
    case Idle => p
    case Running(o, t) => if id in o then Running(o, t + {id}) else p
    case Acting(o, d, v, t) => if id in d then Acting(o, d, v, t + {id}) else p
  }

  function Changed(s: System, id: Id, t: Thread): System {
    s.(world := s.world.(threads := s.world.threads[id := t]))
  }

  predicate Enabled(s: System, e: Event) {
    match e
    case OtherComments(id) => id in s.world.threads && |s.world.threads[id].comments| < PAGE
    case OtherUnresolves(id) => id in s.world.threads
    case OtherResolves(id) => id in s.world.threads
    case CodeMoves(id) => id in s.world.threads
    case RobbieOpens(id) => id !in s.world.threads && forall k :: k in s.world.notices ==> k.0 != id
    case SweepStarts => s.phase.Idle? && Pending(s.world) != {}
    case RunFails => s.phase.Running?
    case RunCompletes(_) => s.phase.Running?
    case ThreadJudged(id, _) => s.phase.Acting? && id in s.phase.todo && id in s.phase.offered
                                && id in s.world.threads && |s.world.threads[id].comments| < PAGE
    case SweepEnds => s.phase.Acting? && s.phase.todo == {}
  }

  function Next(s: System, e: Event): System
    requires Enabled(s, e)
  {
    match e
    case OtherComments(id) =>
      var t := s.world.threads[id];
      Changed(s, id, t.(comments := t.comments + [Other])).(phase := Touched(s.phase, id))
    case OtherUnresolves(id) =>
      Changed(s, id, s.world.threads[id].(resolved := false)).(phase := Touched(s.phase, id))
    case OtherResolves(id) => Changed(s, id, s.world.threads[id].(resolved := true))
    case CodeMoves(id) => Changed(s, id, s.world.threads[id].(outdated := true))
    case RobbieOpens(id) => Changed(s, id, Thread(false, false, [Robbie], true))
    case SweepStarts =>
      s.(phase := Running(map id | id in Pending(s.world) :: s.world.threads[id], {}))
    case RunFails => s.(phase := Idle)
    case RunCompletes(v) =>
      s.(phase := Acting(s.phase.offered, s.phase.offered.Keys, v, s.phase.touched))
    case ThreadJudged(id, accepted) =>
      var p := s.phase;
      System(Judge(s.world, id, p.offered[id], Taken(p.verdicts, id, p.offered[id]), accepted),
             Acting(p.offered, p.todo - {id}, p.verdicts, p.touched - {id}))
    case SweepEnds => s.(phase := Idle)
  }

  /** The moves that can make work for robbie. */
  predicate IsMove(e: Event) {
    e.OtherComments? || e.OtherUnresolves?
  }

  // ----- the potential -----------------------------------------------------------------------

  /** What robbie may still have to run for: threads pending now, credit held for the
      ones a running container was offered, and offered threads that came back to life. */
  function Potential(s: System): nat {
    match s.phase
    case Idle => |Pending(s.world)|
    case Running(o, t) => |Pending(s.world) - o.Keys| + |t| + |o|
    case Acting(o, d, v, t) => |Pending(s.world) - d| + |t|
  }

  /** An offered thread nobody touched since the snapshot still has its comments, and
      was answered and unremembered then. */
  predicate Untouched(w: World, id: Id, offered: Thread) {
    id in w.threads && offered.hasNode && Answered(offered)
    && w.threads[id].comments == offered.comments && |offered.comments| <= PAGE
  }

  /** No notice is ahead of its thread. */
  predicate Remembered(w: World) {
    forall k :: k in w.notices && k.0 in w.threads ==> k.1 < |w.threads[k.0].comments|
  }

  /** Every thread has a node id and at least one comment, and all comments fit the page. */
  predicate ThreadsFit(w: World) {
    forall id :: id in w.threads ==> w.threads[id].hasNode && 1 <= |w.threads[id].comments| <= PAGE
  }

  /** The offered threads still exist and lost no comment. */
  predicate OfferedStand(w: World, o: map<Id, Thread>, ids: set<Id>) {
    forall id :: id in ids ==>
      id in o && id in w.threads && o[id].hasNode && |o[id].comments| <= |w.threads[id].comments|
  }

  predicate UntouchedAll(w: World, o: map<Id, Thread>, ids: set<Id>) {
    forall id :: id in ids ==> id in o && Untouched(w, id, o[id])
  }

  /** GitHub's answers are sound: node ids are there, no reply was deleted, comments fit the
      page, and what a run was offered is as it was but for the threads touched since. */
  predicate Sound(s: System) {
    && Remembered(s.world) && ThreadsFit(s.world)
    && (match s.phase
        case Idle => true
        case Running(o, t) =>
          o != map[] && t <= o.Keys && OfferedStand(s.world, o, o.Keys) && UntouchedAll(s.world, o, o.Keys - t)
        case Acting(o, d, v, t) =>
          d <= o.Keys && t <= d && OfferedStand(s.world, o, d) && UntouchedAll(s.world, o, d - t))
  }

  /** The threads other than `id` are as they were, and `id` lost no comment. */
  predicate OnlyThread(w: World, n: World, id: Id) {
    && (forall i :: i in w.threads ==> i in n.threads && |w.threads[i].comments| <= |n.threads[i].comments|)
    && (forall i :: i in w.threads && i != id ==> n.threads[i].comments == w.threads[i].comments)
  }

  lemma {:induction false} OfferedKept(w: World, n: World, id: Id, o: map<Id, Thread>, ids: set<Id>, quiet: set<Id>)
    requires OnlyThread(w, n, id) && OfferedStand(w, o, ids) && UntouchedAll(w, o, quiet)
    ensures OfferedStand(n, o, ids) && UntouchedAll(n, o, quiet - {id})
  {
    forall i | i in ids ensures i in n.threads && |o[i].comments| <= |n.threads[i].comments| {
      assert i in w.threads;
    }
  }

  lemma {:induction false} StepKeepsSound(s: System, e: Event)
    requires Sound(s) && Enabled(s, e)
    ensures Sound(Next(s, e))
  {
    match e {
      case SweepStarts => StartKeepsSound(s);
      case ThreadJudged(id, accepted) => JudgeKeepsSound(s, id, accepted);
      case RunFails => PhaseKeepsSound(s, e);
      case RunCompletes(v) => PhaseKeepsSound(s, e);
      case SweepEnds => PhaseKeepsSound(s, e);
      case OtherComments(id) => TouchKeepsSound(s, e);
      case OtherUnresolves(id) => TouchKeepsSound(s, e);
      case _ => MarkKeepsSound(s, e);
    }
  }

  lemma {:induction false} PhaseKeepsSound(s: System, e: Event)
    requires Sound(s) && Enabled(s, e) && (e.RunFails? || e.RunCompletes? || e.SweepEnds?)
    ensures Sound(Next(s, e))
  {
  }

  lemma {:induction false} TouchKeepsSound(s: System, e: Event)
    requires Sound(s) && Enabled(s, e) && (e.OtherComments? || e.OtherUnresolves?)
    ensures Sound(Next(s, e))
  {
    var n := Next(s, e);
    assert Remembered(n.world) && ThreadsFit(n.world) && OnlyThread(s.world, n.world, e.id);
    match s.phase {
      case Idle =>
      case Running(o, t) => OfferedKept(s.world, n.world, e.id, o, o.Keys, o.Keys - t);
      case Acting(o, d, v, t) => OfferedKept(s.world, n.world, e.id, o, d, d - t);
    }
  }

  lemma {:induction false} MarkKeepsSound(s: System, e: Event)
    requires Sound(s) && Enabled(s, e) && (e.OtherResolves? || e.CodeMoves? || e.RobbieOpens?)
    ensures Sound(Next(s, e))
  {
    var n := Next(s, e);
    assert Remembered(n.world);
    assert forall i :: i in s.world.threads ==> n.world.threads[i].comments == s.world.threads[i].comments;
  }

  lemma {:induction false} StartKeepsSound(s: System)
    requires Sound(s) && Enabled(s, SweepStarts)
    ensures Sound(Next(s, SweepStarts))
  {
    var o := Next(s, SweepStarts).phase.offered;
    NonEmptyIds(Pending(s.world));
    var id :| id in Pending(s.world);
    assert id in o;
    assert forall i :: i in o.Keys ==> IsPending(s.world, i) && o[i] == s.world.threads[i];
  }

  lemma {:induction false} JudgeKeepsSound(s: System, id: Id, accepted: bool)
    requires Sound(s) && Enabled(s, ThreadJudged(id, accepted))
    ensures Sound(Next(s, ThreadJudged(id, accepted)))
  {
    var a := s.phase;
    assert id in a.todo && OfferedStand(s.world, a.offered, a.todo);
    JudgeKeepsWorld(s.world, id, a.offered[id], Taken(a.verdicts, id, a.offered[id]), accepted);
    OfferedKept(s.world, Next(s, ThreadJudged(id, accepted)).world, id, a.offered, a.todo, a.todo - a.touched);
  }

  lemma {:induction false} JudgeKeepsWorld(w: World, id: Id, offered: Thread, action: Action, accepted: bool)
    requires Remembered(w) && ThreadsFit(w) && id in w.threads && |w.threads[id].comments| < PAGE
    requires |offered.comments| <= |w.threads[id].comments|
    ensures var n := Judge(w, id, offered, action, accepted); Remembered(n) && ThreadsFit(n) && OnlyThread(w, n, id)
  {
    assert Replies(offered) < |w.threads[id].comments|;
  }

  lemma NonEmptyIds(a: set<Id>)
    ensures a != {} ==> exists x: Id :: x in a
  {
    if forall x: Id :: x !in a {
      assert a == {};
    }
  }

  /** Acting on a thread nobody touched takes it off the list, whatever was decided and
      whether or not GitHub took the write. */
  lemma {:induction false} JudgedIsQuiet(w: World, id: Id, offered: Thread, action: Action, accepted: bool)
    requires Untouched(w, id, offered) && |offered.comments| < PAGE
    ensures !IsPending(Judge(w, id, offered, action, accepted), id)
  {
  }

  /** Acting on one thread makes no other thread pending. */
  lemma {:induction false} OthersUnmoved(w: World, id: Id, offered: Thread, action: Action, accepted: bool)
    ensures Pending(Judge(w, id, offered, action, accepted)) <= Pending(w) + {id}
  {
  }

  /** Every step pays: a completed run costs one unit of potential, only a move of
      somebody else adds one, and nothing else raises it. */
  lemma {:induction false} StepPays(s: System, e: Event)
    requires Sound(s) && Enabled(s, e)
    ensures Potential(Next(s, e)) + (if e.RunCompletes? then 1 else 0)
         <= Potential(s) + (if IsMove(e) then 1 else 0)
  {
    match e {
      case OtherComments(id) => ChangePays(s, e, id);
      case OtherUnresolves(id) => ChangePays(s, e, id);
      case OtherResolves(id) => QuietPays(s, e);
      case CodeMoves(id) => QuietPays(s, e);
      case RobbieOpens(id) => QuietPays(s, e);
      case SweepStarts => StartPays(s);
      case RunFails => FailPays(s);
      case RunCompletes(v) => CompletePays(s, v);
      case ThreadJudged(id, accepted) => JudgePays(s, id, accepted);
      case SweepEnds => assert Pending(s.world) - {} == Pending(s.world);
    }
  }

  lemma {:induction false} ChangePays(s: System, e: Event, id: Id)
    requires Sound(s) && Enabled(s, e) && (e == OtherComments(id) || e == OtherUnresolves(id))
    ensures Potential(Next(s, e)) <= Potential(s) + 1
  {
    var p, q := Pending(s.world), Pending(Next(s, e).world);
    assert q <= p + {id};
    match s.phase {
      case Idle => GrownByOne(q, p, id);
      case Running(o, t) =>
        if id in o {
          SubsetSize(q - o.Keys, p - o.Keys);
          GrownByOne(t + {id}, t, id);
        } else {
          GrownByOne(q - o.Keys, p - o.Keys, id);
        }
      case Acting(o, d, v, t) =>
        if id in d {
          SubsetSize(q - d, p - d);
          GrownByOne(t + {id}, t, id);
        } else {
          GrownByOne(q - d, p - d, id);
        }
    }
  }

  lemma {:induction false} QuietPending(s: System, e: Event)
    requires Sound(s) && Enabled(s, e) && (e.OtherResolves? || e.CodeMoves? || e.RobbieOpens?)
    ensures Pending(Next(s, e).world) <= Pending(s.world) && Next(s, e).phase == s.phase
  {
    forall id | id in Pending(Next(s, e).world) ensures id in Pending(s.world) {
      assert IsPending(Next(s, e).world, id);
      assert IsPending(s.world, id);
    }
  }

  lemma {:induction false} FewerPending(s: System, w: World)
    requires Pending(w) <= Pending(s.world)
    ensures Potential(s.(world := w)) <= Potential(s)
  {
    var p, q := Pending(s.world), Pending(w);
    match s.phase {
      case Idle => SubsetSize(q, p);
      case Running(o, t) => SubsetSize(q - o.Keys, p - o.Keys);
      case Acting(o, d, v, t) => SubsetSize(q - d, p - d);
    }
  }

  lemma {:induction false} QuietPays(s: System, e: Event)
    requires Sound(s) && Enabled(s, e) && (e.OtherResolves? || e.CodeMoves? || e.RobbieOpens?)
    ensures Pending(Next(s, e).world) <= Pending(s.world)
    ensures Potential(Next(s, e)) <= Potential(s)
  {
    QuietPending(s, e);
    FewerPending(s, Next(s, e).world);
    assert Next(s, e) == s.(world := Next(s, e).world);
  }

  lemma {:induction false} StartPays(s: System)
    requires Sound(s) && Enabled(s, SweepStarts)
    ensures Potential(Next(s, SweepStarts)) == Potential(s)
  {
    var o := Next(s, SweepStarts).phase.offered;
    assert o.Keys == Pending(s.world);
    assert Pending(s.world) - o.Keys == {};
    assert |o| == |o.Keys|;
  }

  lemma {:induction false} FailPays(s: System)
    requires Sound(s) && Enabled(s, RunFails)
    ensures Potential(Next(s, RunFails)) <= Potential(s)
  {
    var p, o := Pending(s.world), s.phase.offered.Keys;
    SubsetSize(p, (p - o) + o);
    DisjointSize(p - o, o);
    assert |s.phase.offered| == |o|;
  }

  lemma {:induction false} CompletePays(s: System, v: map<Id, Action>)
    requires Sound(s) && Enabled(s, RunCompletes(v))
    ensures Potential(Next(s, RunCompletes(v))) + 1 <= Potential(s)
  {
    var o := s.phase.offered;
    assert |o| == 0 ==> o == map[];
  }

  lemma {:induction false} JudgePays(s: System, id: Id, accepted: bool)
    requires Sound(s) && Enabled(s, ThreadJudged(id, accepted))
    ensures Potential(Next(s, ThreadJudged(id, accepted))) <= Potential(s)
  {
    var a := s.phase;
    var action := Taken(a.verdicts, id, a.offered[id]);
    var w := Judge(s.world, id, a.offered[id], action, accepted);
    assert Potential(Next(s, ThreadJudged(id, accepted))) == |Pending(w) - (a.todo - {id})| + |a.touched - {id}|;
    LessOne(a.touched, id);
    if id in a.touched {
      TouchedPays(s.world, id, a.offered[id], action, accepted, a.todo);
    } else {
      UntouchedPays(s.world, id, a.offered[id], action, accepted, a.todo);
    }
  }

  lemma LessOne(a: set<Id>, id: Id)
    ensures |a - {id}| == |a| - (if id in a then 1 else 0)
  {
    assert id !in a ==> a - {id} == a;
  }

  lemma {:induction false} TouchedPays(w: World, id: Id, offered: Thread, action: Action, accepted: bool, todo: set<Id>)
    ensures |Pending(Judge(w, id, offered, action, accepted)) - (todo - {id})| <= |Pending(w) - todo| + 1
  {
    OthersUnmoved(w, id, offered, action, accepted);
    GrownByOne(Pending(Judge(w, id, offered, action, accepted)) - (todo - {id}), Pending(w) - todo, id);
  }

  lemma {:induction false} UntouchedPays(w: World, id: Id, offered: Thread, action: Action, accepted: bool,
                                         todo: set<Id>)
    requires Untouched(w, id, offered) && |offered.comments| < PAGE
    ensures |Pending(Judge(w, id, offered, action, accepted)) - (todo - {id})| <= |Pending(w) - todo|
  {
    OthersUnmoved(w, id, offered, action, accepted);
    JudgedIsQuiet(w, id, offered, action, accepted);
    ShrinksTo(Pending(Judge(w, id, offered, action, accepted)), Pending(w), todo, id);
  }

  lemma ShrinksTo(q: set<Id>, p: set<Id>, d: set<Id>, id: Id)
    requires q <= p + {id} && id !in q
    ensures |q - (d - {id})| <= |p - d|
  {
    SubsetSize(q - (d - {id}), p - d);
  }

  // ----- over whole runs ---------------------------------------------------------------------

  predicate Runs(s: System, es: seq<Event>)
    decreases |es|
  {
    es == [] || (Enabled(s, es[0]) && Runs(Next(s, es[0]), es[1..]))
  }

  function After(s: System, es: seq<Event>): System
    requires Runs(s, es)
    decreases |es|
  {
    if es == [] then s else After(Next(s, es[0]), es[1..])
  }

  function Completed(es: seq<Event>): nat {
    if es == [] then 0 else (if es[0].RunCompletes? then 1 else 0) + Completed(es[1..])
  }

  function Moves(es: seq<Event>): nat {
    if es == [] then 0 else (if IsMove(es[0]) then 1 else 0) + Moves(es[1..])
  }

  /** The reply loop converges: over any run, however moves, refusals and failed
      containers interleave with it, the completed sweep runs are at most the threads
      pending at the start plus the moves others made. */
  lemma {:induction false} SweepsConverge(s: System, es: seq<Event>)
    requires Sound(s) && Runs(s, es)
    ensures Completed(es) + Potential(After(s, es)) <= Potential(s) + Moves(es)
    ensures s.phase.Idle? ==> Completed(es) <= |Pending(s.world)| + Moves(es)
    decreases |es|
  {
    if es != [] {
      StepKeepsSound(s, es[0]);
      StepPays(s, es[0]);
      SweepsConverge(Next(s, es[0]), es[1..]);
    }
  }

  /** Nothing is owed beyond what the current run was offered. */
  predicate AtRest(s: System) {
    match s.phase
    case Idle => Pending(s.world) == {}
    case Running(o, t) => Pending(s.world) <= o.Keys && t == {}
    case Acting(o, d, v, t) => Pending(s.world) <= d && t == {}
  }

  lemma {:induction false} RestStays(s: System, e: Event)
    requires Sound(s) && Enabled(s, e) && (AtRest(s) || e.SweepStarts?) && !IsMove(e) && !e.RunFails?
    ensures AtRest(Next(s, e))
  {
    if e.OtherResolves? || e.CodeMoves? || e.RobbieOpens? {
      QuietPays(s, e);
    } else if e.ThreadJudged? {
      var a := s.phase;
      var action := Taken(a.verdicts, e.id, a.offered[e.id]);
      OthersUnmoved(s.world, e.id, a.offered[e.id], action, e.accepted);
      JudgedIsQuiet(s.world, e.id, a.offered[e.id], action, e.accepted);
    }
  }

  lemma {:induction false} RestStaysOver(s: System, es: seq<Event>)
    requires Sound(s) && Runs(s, es) && AtRest(s)
    requires forall k :: 0 <= k < |es| ==> !IsMove(es[k]) && !es[k].RunFails?
    ensures AtRest(After(s, es))
    decreases |es|
  {
    if es != [] {
      RestStays(s, es[0]);
      StepKeepsSound(s, es[0]);
      RestStaysOver(Next(s, es[0]), es[1..]);
    }
  }

  /** With nobody else moving, one completed sweep is the last: once it is idle again, no
      thread is pending and no container starts. */
  lemma {:induction false} OneSweepSuffices(s: System, es: seq<Event>)
    requires Sound(s) && Enabled(s, SweepStarts) && Runs(Next(s, SweepStarts), es)
    requires forall k :: 0 <= k < |es| ==> !IsMove(es[k]) && !es[k].RunFails?
    ensures var t := After(Next(s, SweepStarts), es);
            t.phase.Idle? ==> Pending(t.world) == {} && !Enabled(t, SweepStarts)
  {
    RestStays(s, SweepStarts);
    StepKeepsSound(s, SweepStarts);
    RestStaysOver(Next(s, SweepStarts), es);
  }

  /** Nothing is lost either: somebody else's comment on an open thread always makes it
      pending, however often the thread was judged before. */
  lemma {:induction false} ACommentIsHeard(s: System, id: Id)
    requires Sound(s) && Enabled(s, OtherComments(id)) && !s.world.threads[id].resolved
    ensures IsPending(Next(s, OtherComments(id)).world, id)
  {
  }

  // ----- where the hypotheses are needed --------------------------------------------------------

  /** A posted reply quiets its thread exactly when the thread still fits the page: past
      that, the reply is not in what the next sweep reads. */
  lemma {:induction false} ReplyQuietsIff(w: World, id: Id, offered: Thread)
    requires IsPending(w, id)
    ensures IsPending(Judge(w, id, offered, Reply, true), id) <==> |w.threads[id].comments| >= 100
  {
    var t := w.threads[id];
    var r := t.comments + [Robbie];
    if |t.comments| >= PAGE {
      assert r[..PAGE] == t.comments[..PAGE];
      assert |t.comments| == PAGE ==> t.comments[..PAGE] == t.comments;
    } else {
      assert r[|r| - 1] == Robbie;
    }
  }

  /** A concession quiets its thread exactly when GitHub gave the thread a node id. */
  lemma {:induction false} ResolveQuietsIff(w: World, id: Id)
    requires IsPending(w, id)
    ensures IsPending(Judge(w, id, w.threads[id], Resolve, true), id) <==> !w.threads[id].hasNode
  {
  }
}

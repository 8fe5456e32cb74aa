/** Spend admission: tasks take a semaphore and then a lock, read a meter that lags, and
    hold a reserve for every run in flight. Two meters, the account's and the review
    endpoint's, share one count of containers in flight. */
module Spend {
  import opened Sets

  /** Whose meter a run spends. */
  datatype Arm = Account | Endpoint

  /** A meter's stored number, when it can be read. */
  datatype Reading = Unreadable | Pct(value: real)

  /** A model arm of the configuration; its weight orders the fallbacks. */
  datatype Model = Model(name: string, via: Arm, weight: nat)

  datatype Budget = Budget(cutoff: real, reserve: real)

  datatype Config = Config(account: Budget, endpoint: Budget, models: seq<Model>, cap: nat)

  function BudgetOf(c: Config, a: Arm): Budget {
    if a == Account then c.account else c.endpoint
  }

  /** `budget.check`: may another run start, given `inflight` of them already running? An
      unreadable meter lets it run. */
  predicate Check(c: Config, a: Arm, r: Reading, inflight: int) {
    r.Unreadable? || r.value + (inflight + 1) as real * BudgetOf(c, a).reserve <= BudgetOf(c, a).cutoff
  }

  // ----- which arm ------------------------------------------------------------------

  /** `fallback_for`: the heaviest model on the other side of the divide, the first of
      the heaviest. */
  function Fallback(models: seq<Model>, first: Arm): (r: seq<Model>)
    ensures |r| <= 1
    ensures r == [] <==> forall k :: 0 <= k < |models| ==> models[k].via == first
    ensures r != [] ==> r[0] in models && r[0].via != first
                        && forall k :: 0 <= k < |models| && models[k].via != first ==> models[k].weight <= r[0].weight
  {
    if models == [] then []
    else
      var m, rest := models[0], Fallback(models[1..], first);
      assert forall k :: 0 <= k < |models| - 1 ==> models[1..][k] == models[k + 1];
      if m.via == first then rest
      else if rest != [] && rest[0].weight > m.weight then rest
      else [m]
  }

  /** What a task asks for: a review routed to an arm, whose model may or may not be
      swapped for the other arm's; or a run that is not a review, on the account. */
  datatype Ask = Review(first: Arm, substitutable: bool) | NoReview

  /** The arm that will run and whether it may. */
  datatype Decision = Decision(arm: Arm, allowed: bool)

  /** `_admit`, or the account's meter for a run without a key. */
  function Decide(c: Config, account: Reading, endpoint: Reading, inflight: int, ask: Ask): Decision {
    var first := if ask.Review? then ask.first else Account;
    var allowed := Check(c, first, if first == Account then account else endpoint, inflight);
    if allowed || ask.NoReview? || !ask.substitutable then Decision(first, allowed)
    else
      var other := if first == Account then Endpoint else Account;
      if Fallback(c.models, first) != [] && Check(c, other, if other == Account then account else endpoint, inflight)
      then Decision(other, true)
      else Decision(first, false)
  }

  /** The meter that `a` spends lets one run more start beside `inflight` others: it cannot be
      read, or what it shows and a reserve for each of them stay within the cutoff. */
  predicate HasRoom(c: Config, a: Arm, account: Reading, endpoint: Reading, inflight: int) {
    match a
    case Account =>
      account.Unreadable? || account.value + (inflight + 1) as real * c.account.reserve <= c.account.cutoff
    case Endpoint =>
      endpoint.Unreadable? || endpoint.value + (inflight + 1) as real * c.endpoint.reserve <= c.endpoint.cutoff
  }

  lemma {:induction false} RoomIsChecked(c: Config, a: Arm, account: Reading, endpoint: Reading, inflight: int)
    ensures HasRoom(c, a, account, endpoint, inflight)
       <==> Check(c, a, if a == Account then account else endpoint, inflight)
  {
  }

  lemma {:induction false} SomeModelAcross(models: seq<Model>, first: Arm)
    ensures Fallback(models, first) != []
       <==> exists m <- models :: m.via == if first == Account then Endpoint else Account
  {
    assert forall k :: 0 <= k < |models| ==> models[k] in models;
  }

  /** The first arm is taken exactly when its own meter has room. The other one is taken
      exactly when the first has none, a review may be swapped, some configured model spends
      that meter, and it has room. Otherwise nothing runs. */
  lemma {:induction false} DecidesByRoom(c: Config, account: Reading, endpoint: Reading, inflight: int, ask: Ask)
    ensures
      var d := Decide(c, account, endpoint, inflight, ask);
      var first := if ask.Review? then ask.first else Account;
      var other := if first == Account then Endpoint else Account;
      var here := HasRoom(c, first, account, endpoint, inflight);
      var there := ask.Review? && ask.substitutable && (exists m <- c.models :: m.via == other)
                   && HasRoom(c, other, account, endpoint, inflight);
      && (d == Decision(first, true) <==> here)
      && (d == Decision(other, true) <==> !here && there)
      && (d == Decision(first, false) <==> !here && !there)
  {
    var first := if ask.Review? then ask.first else Account;
    RoomIsChecked(c, Account, account, endpoint, inflight);
    RoomIsChecked(c, Endpoint, account, endpoint, inflight);
    SomeModelAcross(c.models, first);
  }

  /** The part of the orchestrator that owns the count. `leaked` counts the slots whose
      holder died between the increment and the `try` that would give it back. */
  class Orchestrator {
    var inflight: int
    var account: Reading
    var endpoint: Reading
    const cfg: Config

    constructor (c: Config)
      ensures inflight == 0 && cfg == c && account == endpoint == Unreadable
    {
      cfg := c;
      inflight := 0;
      account, endpoint := Unreadable, Unreadable;
    }

    /** The body of the admission lock: decide, and reserve in the same breath. */
    method Admit(ask: Ask) returns (d: Decision)
      modifies this`inflight
      ensures d == Decide(cfg, account, endpoint, old(inflight), ask)
      ensures
        var first := if ask.Review? then ask.first else Account;
        var other := if first == Account then Endpoint else Account;
        var here := HasRoom(cfg, first, account, endpoint, old(inflight));
        var there := ask.Review? && ask.substitutable && (exists m <- cfg.models :: m.via == other)
                     && HasRoom(cfg, other, account, endpoint, old(inflight));
        && (d == Decision(first, true) <==> here)
        && (d == Decision(other, true) <==> !here && there)
        && (d == Decision(first, false) <==> !here && !there)
      ensures inflight == old(inflight) + (if d.allowed then 1 else 0)
    {
      DecidesByRoom(cfg, account, endpoint, inflight, ask);
      var first := if ask.Review? then ask.first else Account;
      var verdict := Check(cfg, first, if first == Account then account else endpoint, inflight);
      d := Decision(first, verdict);
      if !verdict && ask.Review? && ask.substitutable {
        var others := Fallback(cfg.models, first);
        if others != [] {
          var other := others[0].via;
          if Check(cfg, other, if other == Account then account else endpoint, inflight) {
            d := Decision(other, true);
          }
        }
      }
      if d.allowed {
        inflight := inflight + 1;
      }
    }

    /** The `finally` of the slot. */
    method Leave()
      modifies this`inflight
      ensures inflight == old(inflight) - 1
    {
      inflight := inflight - 1;
    }
  }

  // ----- the interleaved system -----------------------------------------------------------

  /** Where a task is in `_slot` and behind it. */
  datatype Task =
    | Waiting(ask: Ask)               // for the semaphore
    | Deciding(ask: Ask)              // holds the semaphore, waits for the lock
    | Refused                         // no room; telling the operator, semaphore held
    | Telling(arm: Arm)               // admitted; telling the operator, outside the try
    | Spending(arm: Arm)              // the container runs
    | Owing(arm: Arm, cost: real)     // out of the slot, its cost not yet written
    | Over

  /** One arm's books over a window. `finished` is what its finished runs cost, written
      down or not; `reading` is what the gate sees; `lag` is how far the reading was
      behind at this arm's last admission. */
  datatype Books = Books(reading: Reading, finished: real, lag: real, admitted: bool)

  type Id = nat

  datatype System = System(tasks: map<Id, Task>, inflight: int, leaked: nat, account: Books, endpoint: Books)

  function BooksOf(s: System, a: Arm): Books {
    if a == Account then s.account else s.endpoint
  }

  function WithBooks(s: System, a: Arm, b: Books): System {
    if a == Account then s.(account := b) else s.(endpoint := b)
  }

  function Moved(s: System, t: Id, pc: Task): System {
    s.(tasks := s.tasks[t := pc])
  }

  datatype Event =
    | Arrives(t: Id, ask: Ask)
    | TakesSemaphore(t: Id)
    | Decides(t: Id)
    | GoesHome(t: Id)                 // a refused task leaves the semaphore
    | Told(t: Id)
    | TellingDies(t: Id)              // an exception between the increment and the try
    | Finishes(t: Id, cost: real)     // the slot is left before the cost is written
    | Writes(t: Id)
    | MeterMoves(a: Arm, r: Reading)  // the poller, a late write, another process

  predicate HoldsSemaphore(pc: Task) {
    pc.Deciding? || pc.Refused? || pc.Telling? || pc.Spending?
  }

  predicate Holds(pc: Task, a: Arm) {
    (pc.Telling? || pc.Spending?) && pc.arm == a
  }

  function Inside(s: System): set<Id> {
    set t | t in s.tasks && HoldsSemaphore(s.tasks[t])
  }

  /** The tasks with an admitted run on an arm. */
  function Holders(s: System, a: Arm): set<Id> {
    set t | t in s.tasks && Holds(s.tasks[t], a)
  }

  predicate Enabled(c: Config, s: System, e: Event) {
    match e
    case Arrives(t, _) => t !in s.tasks
    case TakesSemaphore(t) => t in s.tasks && s.tasks[t].Waiting? && |Inside(s)| < c.cap
    case Decides(t) => t in s.tasks && s.tasks[t].Deciding?
    case GoesHome(t) => t in s.tasks && s.tasks[t].Refused?
    case Told(t) => t in s.tasks && s.tasks[t].Telling?
    case TellingDies(t) => t in s.tasks && s.tasks[t].Telling?
    case Finishes(t, cost) => t in s.tasks && s.tasks[t].Spending?
    case Writes(t) => t in s.tasks && s.tasks[t].Owing?
    case MeterMoves(_, _) => true
  }

  function Max(a: real, b: real): real {
    if a < b then b else a
  }

  /** How much of an arm's finished cost its reading has not seen. */
  function Unseen(b: Books): real {
    if b.reading.Unreadable? then 0.0 else Max(0.0, b.finished - b.reading.value)
  }

  function Next(c: Config, s: System, e: Event): System
    requires Enabled(c, s, e)
  {
    match e
    case Arrives(t, ask) => Moved(s, t, Waiting(ask))
    case TakesSemaphore(t) => Moved(s, t, Deciding(s.tasks[t].ask))
    case Decides(t) =>
      var d := Decide(c, s.account.reading, s.endpoint.reading, s.inflight, s.tasks[t].ask);
      if !d.allowed then Moved(s, t, Refused)
      else
        var b := BooksOf(s, d.arm);
        WithBooks(Moved(s, t, Telling(d.arm)).(inflight := s.inflight + 1), d.arm,
                  b.(lag := Unseen(b), admitted := true))
    case GoesHome(t) => Moved(s, t, Over)
    case Told(t) => Moved(s, t, Spending(s.tasks[t].arm))
    case TellingDies(t) => Moved(s, t, Over).(leaked := s.leaked + 1)
    case Finishes(t, cost) =>
      var a := s.tasks[t].arm;
      var b := BooksOf(s, a);
      WithBooks(Moved(s, t, Owing(a, cost)).(inflight := s.inflight - 1), a, b.(finished := b.finished + cost))
    case Writes(t) => Moved(s, t, Over)
    case MeterMoves(a, r) => WithBooks(s, a, BooksOf(s, a).(reading := r))
  }

  /** What becomes of a task under the lock: it holds a run of the first arm, of the other, or
      is refused, by the same rule; the count goes up with the first two alone. */
  lemma {:induction false} DecidingTaskFallsBack(c: Config, s: System, t: Id)
    requires Enabled(c, s, Decides(t))
    ensures
      var ask, n := s.tasks[t].ask, Next(c, s, Decides(t));
      var first := if ask.Review? then ask.first else Account;
      var other := if first == Account then Endpoint else Account;
      var here := HasRoom(c, first, s.account.reading, s.endpoint.reading, s.inflight);
      var there := ask.Review? && ask.substitutable && (exists m <- c.models :: m.via == other)
                   && HasRoom(c, other, s.account.reading, s.endpoint.reading, s.inflight);
      && (n.tasks[t] == Telling(first) <==> here)
      && (n.tasks[t] == Telling(other) <==> !here && there)
      && (n.tasks[t] == Refused <==> !here && !there)
      && n.inflight == s.inflight + (if here || there then 1 else 0)
  {
    DecidesByRoom(c, s.account.reading, s.endpoint.reading, s.inflight, s.tasks[t].ask);
  }

  // ----- the count -----------------------------------------------------------------------

  /** The count is the admitted runs plus the leaked slots, and never passes the cap by
      more than the leaks. */
  predicate Counted(c: Config, s: System) {
    && s.inflight == |Holders(s, Account)| + |Holders(s, Endpoint)| + s.leaked
    && |Inside(s)| <= c.cap
    && |Holders(s, Account)| + |Holders(s, Endpoint)| <= |Inside(s)|
  }

  function One(b: bool): nat {
    if b then 1 else 0
  }

  lemma Swapped(before: set<Id>, after: set<Id>, t: Id)
    requires after == before + {t} || after == before - {t}
    ensures |after| == |before| - One(t in before) + One(t in after)
  {
    if t in before {
      assert before + {t} == before;
    } else {
      assert before - {t} == before;
    }
  }

  predicate WasInside(s: System, t: Id) {
    t in s.tasks && HoldsSemaphore(s.tasks[t])
  }

  predicate WasHolding(s: System, t: Id, a: Arm) {
    t in s.tasks && Holds(s.tasks[t], a)
  }

  lemma {:induction false} MoveInside(s: System, n: System, t: Id, pc: Task)
    requires n.tasks == s.tasks[t := pc]
    ensures |Inside(n)| == |Inside(s)| - One(WasInside(s, t)) + One(HoldsSemaphore(pc))
  {
    assert Inside(n) == if HoldsSemaphore(pc) then Inside(s) + {t} else Inside(s) - {t};
    Swapped(Inside(s), Inside(n), t);
  }

  /** A task that moves changes each count by itself alone. */
  lemma {:induction false} MoveHolders(s: System, n: System, t: Id, pc: Task, a: Arm)
    requires n.tasks == s.tasks[t := pc]
    ensures |Holders(n, a)| == |Holders(s, a)| - One(WasHolding(s, t, a)) + One(Holds(pc, a))
  {
    assert Holders(n, a) == if Holds(pc, a) then Holders(s, a) + {t} else Holders(s, a) - {t};
    Swapped(Holders(s, a), Holders(n, a), t);
  }

  lemma {:induction false} HoldersInside(s: System)
    ensures |Holders(s, Account)| + |Holders(s, Endpoint)| <= |Inside(s)|
  {
    var a, e := Holders(s, Account), Holders(s, Endpoint);
    DisjointSize(a, e);
    SubsetSize(a + e, Inside(s));
  }

  predicate MovesTask(e: Event) {
    !e.MeterMoves?
  }

  function TaskAfter(c: Config, s: System, e: Event): Task
    requires Enabled(c, s, e) && MovesTask(e)
  {
    Next(c, s, e).tasks[e.t]
  }

  lemma {:induction false} OneTaskMoves(c: Config, s: System, e: Event)
    requires Enabled(c, s, e) && MovesTask(e)
    ensures Next(c, s, e).tasks == s.tasks[e.t := TaskAfter(c, s, e)]
  {
  }

  lemma {:induction false} StepKeepsCount(c: Config, s: System, e: Event)
    requires Counted(c, s) && Enabled(c, s, e)
    ensures Counted(c, Next(c, s, e))
  {
    var n := Next(c, s, e);
    HoldersInside(n);
    if e.MeterMoves? {
      assert n.tasks == s.tasks;
      assert Inside(n) == Inside(s) && forall a: Arm :: Holders(n, a) == Holders(s, a);
    } else {
      OneTaskMoves(c, s, e);
      var pc := TaskAfter(c, s, e);
      MoveInside(s, n, e.t, pc);
      MoveHolders(s, n, e.t, pc, Account);
      MoveHolders(s, n, e.t, pc, Endpoint);
    }
  }

  // ----- runs -------------------------------------------------------------------------------

  predicate Runs(c: Config, s: System, es: seq<Event>)
    decreases |es|
  {
    es == [] || (Enabled(c, s, es[0]) && Runs(c, Next(c, s, es[0]), es[1..]))
  }

  function After(c: Config, s: System, es: seq<Event>): System
    requires Runs(c, s, es)
    decreases |es|
  {
    if es == [] then s else After(c, Next(c, s, es[0]), es[1..])
  }

  /** Nothing has run yet: no tasks, no cost, both meters at rest. */
  predicate Fresh(s: System) {
    s.tasks == map[] && s.inflight == 0 && s.leaked == 0
    && s.account.finished == 0.0 && !s.account.admitted
    && s.endpoint.finished == 0.0 && !s.endpoint.admitted
  }

  function Deaths(es: seq<Event>): nat {
    if es == [] then 0 else One(es[0].TellingDies?) + Deaths(es[1..])
  }

  lemma {:induction false} LeaksAreDeaths(c: Config, s: System, es: seq<Event>)
    requires Runs(c, s, es)
    ensures After(c, s, es).leaked == s.leaked + Deaths(es)
    decreases |es|
  {
    if es != [] {
      LeaksAreDeaths(c, Next(c, s, es[0]), es[1..]);
    }
  }

  lemma {:induction false} CountHolds(c: Config, s: System, es: seq<Event>)
    requires Counted(c, s) && Runs(c, s, es)
    ensures Counted(c, After(c, s, es))
    decreases |es|
  {
    if es != [] {
      StepKeepsCount(c, s, es[0]);
      CountHolds(c, Next(c, s, es[0]), es[1..]);
    }
  }

  /** Over every interleaving, the count is the tasks holding an admitted slot plus one
      for every task that died while the operator was being told; those tasks never pass
      the cap; and once no task holds a slot, what remains of the count is the deaths. */
  lemma {:induction false} InflightIsHolders(c: Config, s: System, es: seq<Event>)
    requires Fresh(s) && Runs(c, s, es)
    ensures
      var n := After(c, s, es);
      var holding := |Holders(n, Account)| + |Holders(n, Endpoint)|;
      && n.inflight == holding + Deaths(es) && holding <= c.cap
      && (n.inflight == 0 <==> Holders(n, Account) == {} && Holders(n, Endpoint) == {} && Deaths(es) == 0)
  {
    assert Inside(s) == {} && Holders(s, Account) == {} && Holders(s, Endpoint) == {};
    CountHolds(c, s, es);
    LeaksAreDeaths(c, s, es);
  }

  // ----- the spend bound ----------------------------------------------------------------------

  /** An arm's finished cost and the reserves of its runs in flight fit its cutoff plus
      what its reading had not seen when it last admitted one. */
  predicate Bounded(c: Config, s: System, a: Arm) {
    var b := BooksOf(s, a);
    (Holders(s, a) != {} ==> b.admitted)
    && (b.admitted ==>
          b.finished + |Holders(s, a)| as real * BudgetOf(c, a).reserve <= BudgetOf(c, a).cutoff + b.lag)
  }

  /** The window the bound speaks of: both meters readable, and no run costs more than
      its arm's reserve. */
  predicate InBudget(c: Config, s: System, e: Event) {
    match e
    case Finishes(t, cost) => t in s.tasks && s.tasks[t].Spending? ==> cost <= BudgetOf(c, s.tasks[t].arm).reserve
    case MeterMoves(_, r) => r.Pct?
    case _ => true
  }

  predicate Readable(s: System) {
    s.account.reading.Pct? && s.endpoint.reading.Pct?
  }

  predicate Sensible(c: Config) {
    c.account.reserve >= 0.0 && c.endpoint.reserve >= 0.0
  }

  lemma Monotone(a: real, b: real, r: real)
    requires a <= b && r >= 0.0
    ensures a * r <= b * r
  {
  }

  lemma OneMore(n: nat, r: real)
    ensures (n + 1) as real * r == n as real * r + r
  {
  }

  /** A readable meter that lets one more run start has room for it: the shared count is
      never smaller than the arm's own, and what the reading has not seen is the lag. */
  lemma {:induction false} AllowedFits(c: Config, b: Books, a: Arm, own: nat, inflight: int)
    requires BudgetOf(c, a).reserve >= 0.0 && own <= inflight
    requires b.reading.Pct? && Check(c, a, b.reading, inflight)
    ensures b.finished + (own + 1) as real * BudgetOf(c, a).reserve <= BudgetOf(c, a).cutoff + Unseen(b)
  {
    Monotone((own + 1) as real, (inflight + 1) as real, BudgetOf(c, a).reserve);
  }

  /** Whichever arm is decided on, its own meter said yes. */
  lemma {:induction false} AllowedIsChecked(c: Config, s: System, ask: Ask)
    ensures
      var d := Decide(c, s.account.reading, s.endpoint.reading, s.inflight, ask);
      d.allowed ==> Check(c, d.arm, BooksOf(s, d.arm).reading, s.inflight)
  {
  }

  lemma {:induction false} AdmissionKeepsBound(c: Config, s: System, e: Event, a: Arm)
    requires Sensible(c) && Counted(c, s) && Readable(s) && e.Decides? && Enabled(c, s, e)
    requires Decide(c, s.account.reading, s.endpoint.reading, s.inflight, s.tasks[e.t].ask) == Decision(a, true)
    ensures Bounded(c, Next(c, s, e), a)
  {
    var n := Next(c, s, e);
    OneTaskMoves(c, s, e);
    MoveHolders(s, n, e.t, TaskAfter(c, s, e), a);
    AllowedIsChecked(c, s, s.tasks[e.t].ask);
    AllowedFits(c, BooksOf(s, a), a, |Holders(s, a)|, s.inflight);
    assert |Holders(n, a)| == |Holders(s, a)| + 1;
  }

  lemma {:induction false} DecidingKeepsBound(c: Config, s: System, e: Event, a: Arm)
    requires Sensible(c) && Counted(c, s) && Readable(s) && Bounded(c, s, a)
    requires e.Decides? && Enabled(c, s, e)
    ensures Bounded(c, Next(c, s, e), a)
  {
    var n := Next(c, s, e);
    var d := Decide(c, s.account.reading, s.endpoint.reading, s.inflight, s.tasks[e.t].ask);
    if d == Decision(a, true) {
      AdmissionKeepsBound(c, s, e, a);
    } else {
      OneTaskMoves(c, s, e);
      MoveHolders(s, n, e.t, TaskAfter(c, s, e), a);
      assert |Holders(n, a)| == |Holders(s, a)| && BooksOf(n, a) == BooksOf(s, a);
    }
  }

  lemma {:induction false} FinishingKeepsBound(c: Config, s: System, e: Event, a: Arm)
    requires Bounded(c, s, a)
    requires e.Finishes? && Enabled(c, s, e) && InBudget(c, s, e)
    ensures Bounded(c, Next(c, s, e), a)
  {
    var n := Next(c, s, e);
    OneTaskMoves(c, s, e);
    MoveHolders(s, n, e.t, TaskAfter(c, s, e), a);
    if s.tasks[e.t].arm == a {
      assert e.t in Holders(s, a);
      OneMore(|Holders(n, a)|, BudgetOf(c, a).reserve);
    }
  }

  lemma {:induction false} StepKeepsBound(c: Config, s: System, e: Event, a: Arm)
    requires Sensible(c) && Counted(c, s) && Readable(s) && Bounded(c, s, a)
    requires Enabled(c, s, e) && InBudget(c, s, e)
    ensures Bounded(c, Next(c, s, e), a)
  {
    var n := Next(c, s, e);
    if e.Decides? {
      DecidingKeepsBound(c, s, e, a);
    } else if e.Finishes? {
      FinishingKeepsBound(c, s, e, a);
    } else if e.MeterMoves? {
      assert Holders(n, a) == Holders(s, a);
    } else {
      OneTaskMoves(c, s, e);
      MoveHolders(s, n, e.t, TaskAfter(c, s, e), a);
      if |Holders(n, a)| < |Holders(s, a)| {
        Monotone(|Holders(n, a)| as real, |Holders(s, a)| as real, BudgetOf(c, a).reserve);
      }
    }
  }

  ghost predicate AllInBudget(c: Config, s: System, es: seq<Event>)
    requires Runs(c, s, es)
    decreases |es|
  {
    es == [] || (InBudget(c, s, es[0]) && AllInBudget(c, Next(c, s, es[0]), es[1..]))
  }

  /** An arm no run was admitted to has spent nothing. */
  predicate Untouched(s: System, a: Arm) {
    BooksOf(s, a).admitted || BooksOf(s, a).finished == 0.0
  }

  lemma {:induction false} StepKeepsUntouched(c: Config, s: System, e: Event, a: Arm)
    requires Enabled(c, s, e) && Bounded(c, s, a) && Untouched(s, a)
    ensures Untouched(Next(c, s, e), a)
  {
    if e.Finishes? && s.tasks[e.t].arm == a {
      assert e.t in Holders(s, a);
    }
  }

  lemma {:induction false} BoundHolds(c: Config, s: System, es: seq<Event>, a: Arm)
    requires Sensible(c) && Counted(c, s) && Readable(s) && Bounded(c, s, a) && Untouched(s, a)
    requires Runs(c, s, es) && AllInBudget(c, s, es)
    ensures Bounded(c, After(c, s, es), a) && Untouched(After(c, s, es), a)
    decreases |es|
  {
    if es != [] {
      StepKeepsCount(c, s, es[0]);
      StepKeepsBound(c, s, es[0], a);
      StepKeepsUntouched(c, s, es[0], a);
      BoundHolds(c, Next(c, s, es[0]), es[1..], a);
    }
  }

  /** Over every interleaving of tasks on readable meters, if each run costs at most its
      arm's reserve: what an arm's finished runs cost, plus its reserve for every run in
      flight, never exceeds its cutoff plus the finished cost its reading had not yet seen
      at its last admission. Fallback runs count on the arm that took them. */
  lemma {:induction false} SpendIsBounded(c: Config, s: System, es: seq<Event>, a: Arm)
    requires Sensible(c) && Fresh(s) && Readable(s)
    requires Runs(c, s, es) && AllInBudget(c, s, es)
    ensures
      var n := After(c, s, es);
      var b := BooksOf(n, a);
      && (b.admitted ==>
            b.finished + |Holders(n, a)| as real * BudgetOf(c, a).reserve <= BudgetOf(c, a).cutoff + b.lag)
      && (!b.admitted ==> b.finished == 0.0 && Holders(n, a) == {})
  {
    assert Inside(s) == {} && Holders(s, Account) == {} && Holders(s, Endpoint) == {};
    BoundHolds(c, s, es, a);
  }

  // ----- a meter that keeps up -------------------------------------------------------------

  /** Whenever a task decides, both readings have seen every finished run. */
  ghost predicate KeepsUp(c: Config, s: System, es: seq<Event>)
    requires Runs(c, s, es)
    decreases |es|
  {
    es == []
    || ((es[0].Decides? ==> Unseen(s.account) == 0.0 && Unseen(s.endpoint) == 0.0)
        && KeepsUp(c, Next(c, s, es[0]), es[1..]))
  }

  predicate LagFree(b: Books) {
    b.admitted ==> b.lag == 0.0
  }

  lemma {:induction false} NoLag(c: Config, s: System, es: seq<Event>)
    requires Runs(c, s, es) && KeepsUp(c, s, es) && LagFree(s.account) && LagFree(s.endpoint)
    ensures LagFree(After(c, s, es).account) && LagFree(After(c, s, es).endpoint)
    decreases |es|
  {
    if es != [] {
      NoLag(c, Next(c, s, es[0]), es[1..]);
    }
  }

  /** With meters that keep up, an arm that ran anything never spends past its cutoff,
      even counting the reserves still held. */
  lemma {:induction false} SpendWithinCutoff(c: Config, s: System, es: seq<Event>, a: Arm)
    requires Sensible(c) && Fresh(s) && Readable(s)
    requires Runs(c, s, es) && AllInBudget(c, s, es) && KeepsUp(c, s, es)
    ensures
      var n := After(c, s, es);
      BooksOf(n, a).admitted ==>
        BooksOf(n, a).finished + |Holders(n, a)| as real * BudgetOf(c, a).reserve <= BudgetOf(c, a).cutoff
  {
    SpendIsBounded(c, s, es, a);
    NoLag(c, s, es);
  }

  // ----- how a slot is leaked ---------------------------------------------------------------------

  function AskFor(a: Arm): Ask {
    if a == Account then NoReview else Review(a, false)
  }

  /** A task that is admitted and dies while the operator is told. */
  function DiesTelling(t: Id, a: Arm): seq<Event> {
    [Arrives(t, AskFor(a)), TakesSemaphore(t), Decides(t), TellingDies(t)]
  }

  /** The slot of such a task is never given back: wherever one more run may start, the count
      ends one higher with nobody holding it. */
  lemma {:induction false} SlotIsLeaked(c: Config, s: System, t: Id, a: Arm)
    requires t !in s.tasks && |Inside(s)| < c.cap && Check(c, a, BooksOf(s, a).reading, s.inflight)
    ensures Runs(c, s, DiesTelling(t, a)) && Deaths(DiesTelling(t, a)) == 1
    ensures
      var n := After(c, s, DiesTelling(t, a));
      n.inflight == s.inflight + 1 && Inside(n) == Inside(s) && forall b: Arm :: Holders(n, b) == Holders(s, b)
  {
    var es := DiesTelling(t, a);
    var s1 := Next(c, s, es[0]);
    MoveInside(s, s1, t, Waiting(AskFor(a)));
    var s2 := Next(c, s1, es[1]);
    var s3 := Next(c, s2, es[2]);
    var s4 := Next(c, s3, es[3]);
    assert s4.tasks == s.tasks[t := Over];
    FourSteps(c, s, es);
    LeaksAreDeaths(c, s, es);
    assert Inside(s4) == Inside(s);
    forall b: Arm ensures Holders(s4, b) == Holders(s, b) {
    }
  }

  lemma FourSteps(c: Config, s: System, es: seq<Event>)
    requires |es| == 4 && Enabled(c, s, es[0])
    requires Enabled(c, Next(c, s, es[0]), es[1])
    requires Enabled(c, Next(c, Next(c, s, es[0]), es[1]), es[2])
    requires Enabled(c, Next(c, Next(c, Next(c, s, es[0]), es[1]), es[2]), es[3])
    ensures Runs(c, s, es)
    ensures After(c, s, es) == Next(c, Next(c, Next(c, Next(c, s, es[0]), es[1]), es[2]), es[3])
  {
    var s1 := Next(c, s, es[0]);
    var s2 := Next(c, s1, es[1]);
    var s3 := Next(c, s2, es[2]);
    var s4 := Next(c, s3, es[3]);
    assert es[1..][1..][1..][1..] == [] && es[1..][0] == es[1] && es[1..][1..][0] == es[2]
      && es[1..][1..][1..][0] == es[3];
    assert Runs(c, s4, []) && After(c, s4, []) == s4;
    assert Runs(c, s3, es[1..][1..][1..]) && After(c, s3, es[1..][1..][1..]) == s4;
    assert Runs(c, s2, es[1..][1..]) && After(c, s2, es[1..][1..]) == s4;
    assert Runs(c, s1, es[1..]) && After(c, s1, es[1..]) == s4;
  }

  /** One such death is enough: from a fresh start with a slot and a meter that lets a first
      run in, the count ends at one and no task holds anything. */
  lemma {:induction false} FreshSlotIsLeaked(c: Config, s: System, a: Arm)
    requires Fresh(s) && c.cap > 0 && Check(c, a, BooksOf(s, a).reading, 0)
    ensures Runs(c, s, DiesTelling(0, a))
    ensures
      var n := After(c, s, DiesTelling(0, a));
      n.inflight == 1 && forall b: Arm :: Holders(n, b) == {}
  {
    assert Inside(s) == {};
    SlotIsLeaked(c, s, 0, a);
    assert forall b: Arm :: Holders(s, b) == {};
  }

  // ----- how many fit ------------------------------------------------------------------------

  /** How many runs fit under an arm's cutoff against a reading. */
  function Room(c: Config, a: Arm, r: real): int
    requires BudgetOf(c, a).reserve > 0.0
  {
    ((BudgetOf(c, a).cutoff - r) / BudgetOf(c, a).reserve).Floor
  }

  lemma {:induction false} DivideAcross(n: real, d: real, x: real)
    requires d > 0.0
    ensures n * d <= x <==> n <= x / d
  {
    var q := x / d;
    assert q * d == x;
    if n <= q {
      Monotone(n, q, d);
    } else {
      assert (n - q) * d > 0.0;
    }
  }

  /** The gate against a reading is a ceiling on the count. */
  lemma {:induction false} GateIsRoom(c: Config, a: Arm, r: real, inflight: int)
    requires BudgetOf(c, a).reserve > 0.0
    ensures Check(c, a, Pct(r), inflight) <==> inflight < Room(c, a, r)
  {
    var d, x := BudgetOf(c, a).reserve, BudgetOf(c, a).cutoff - r;
    DivideAcross((inflight + 1) as real, d, x);
    var q := x / d;
    assert (inflight + 1) as real <= q <==> inflight + 1 <= q.Floor;
  }

  /** A task that can only run on one arm: nobody may swap its model, or no model of the
      other arm is configured. */
  predicate OnArm(c: Config, ask: Ask, a: Arm) {
    if ask.NoReview? then a == Account
    else ask.first == a && (!ask.substitutable || Fallback(c.models, a) == [])
  }

  predicate OneArm(c: Config, s: System, a: Arm, r: real) {
    && BooksOf(s, a).reading == Pct(r)
    && forall t <- s.tasks :: s.tasks[t].Waiting? || s.tasks[t].Deciding? ==> OnArm(c, s.tasks[t].ask, a)
  }

  /** The run stays on one arm and its meter's reading does not move. */
  predicate Steady(c: Config, es: seq<Event>, a: Arm) {
    forall e <- es :: (e.Arrives? ==> OnArm(c, e.ask, a)) && !(e.MeterMoves? && e.a == a)
  }

  lemma {:induction false} StepStaysUnderRoom(c: Config, s: System, e: Event, a: Arm, r: real)
    requires BudgetOf(c, a).reserve > 0.0 && OneArm(c, s, a, r) && Enabled(c, s, e) && Steady(c, [e], a)
    requires s.inflight <= Max2(0, Room(c, a, r))
    ensures OneArm(c, Next(c, s, e), a, r) && Next(c, s, e).inflight <= Max2(0, Room(c, a, r))
  {
    assert e in [e];
    if e.Decides? {
      GateIsRoom(c, a, r, s.inflight);
    }
  }

  function Max2(a: int, b: int): int {
    if a < b then b else a
  }

  lemma {:induction false} StaysUnderRoom(c: Config, s: System, es: seq<Event>, a: Arm, r: real)
    requires BudgetOf(c, a).reserve > 0.0 && OneArm(c, s, a, r) && Steady(c, es, a) && Runs(c, s, es)
    requires s.inflight <= Max2(0, Room(c, a, r))
    ensures OneArm(c, After(c, s, es), a, r) && After(c, s, es).inflight <= Max2(0, Room(c, a, r))
    decreases |es|
  {
    if es != [] {
      StepStaysUnderRoom(c, s, es[0], a, r);
      StaysUnderRoom(c, Next(c, s, es[0]), es[1..], a, r);
    }
  }

  /** On one arm with an unchanged reading, the runs in flight never pass the semaphore or
      the room, and a task asking while the count is below the room is admitted. */
  lemma {:induction false} MostInFlight(c: Config, s: System, es: seq<Event>, a: Arm, r: real)
    requires BudgetOf(c, a).reserve > 0.0 && Fresh(s) && BooksOf(s, a).reading == Pct(r)
    requires Steady(c, es, a) && Runs(c, s, es)
    ensures
      var n := After(c, s, es);
      && n.inflight <= Max2(0, Room(c, a, r)) && n.inflight - Deaths(es) <= c.cap
      && forall t <- n.tasks :: n.tasks[t].Deciding? ==>
           (Decide(c, n.account.reading, n.endpoint.reading, n.inflight, n.tasks[t].ask).allowed
            <==> n.inflight < Room(c, a, r))
  {
    StaysUnderRoom(c, s, es, a, r);
    InflightIsHolders(c, s, es);
    GateIsRoom(c, a, r, After(c, s, es).inflight);
  }

  // ----- the room is reached -------------------------------------------------------------------

  /** One task walks in and starts its container. */
  function Enters(t: Id, a: Arm): seq<Event> {
    [Arrives(t, AskFor(a)), TakesSemaphore(t), Decides(t), Told(t)]
  }

  function Fills(n: nat, a: Arm): seq<Event> {
    if n == 0 then [] else Fills(n - 1, a) + Enters(n - 1, a)
  }

  lemma {:induction false} RunsOn(c: Config, s: System, es: seq<Event>, more: seq<Event>)
    requires Runs(c, s, es) && Runs(c, After(c, s, es), more)
    ensures Runs(c, s, es + more) && After(c, s, es + more) == After(c, After(c, s, es), more)
    decreases |es|
  {
    if es == [] {
      assert es + more == more;
    } else {
      RunsOn(c, Next(c, s, es[0]), es[1..], more);
      assert (es + more)[1..] == es[1..] + more;
    }
  }

  /** `n` containers run on arm `a` and nobody else is about. */
  predicate Busy(s: System, n: nat, a: Arm, r: real) {
    && s.inflight == n && BooksOf(s, a).reading == Pct(r) && |Inside(s)| <= n
    && forall t <- s.tasks :: t < n
  }

  /** The four steps of a newcomer, wherever the count stands. */
  lemma {:induction false} NewcomerEnters(c: Config, s: System, t: Id, a: Arm)
    requires t !in s.tasks && |Inside(s)| < c.cap && Check(c, a, BooksOf(s, a).reading, s.inflight)
    ensures Runs(c, s, Enters(t, a))
    ensures
      var b := BooksOf(s, a);
      After(c, s, Enters(t, a))
      == WithBooks(Moved(s, t, Spending(a)).(inflight := s.inflight + 1), a, b.(lag := Unseen(b), admitted := true))
  {
    var es := Enters(t, a);
    var s1 := Next(c, s, es[0]);
    MoveInside(s, s1, t, Waiting(AskFor(a)));
    var s2 := Next(c, s1, es[1]);
    var s3 := Next(c, s2, es[2]);
    var s4 := Next(c, s3, es[3]);
    assert s4.tasks == s.tasks[t := Spending(a)];
    FourSteps(c, s, es);
  }

  lemma {:induction false} OneEnters(c: Config, s: System, n: nat, a: Arm, r: real)
    requires BudgetOf(c, a).reserve > 0.0 && Busy(s, n, a, r) && n < c.cap && n < Room(c, a, r)
    ensures Runs(c, s, Enters(n, a)) && Busy(After(c, s, Enters(n, a)), n + 1, a, r)
  {
    GateIsRoom(c, a, r, n);
    NewcomerEnters(c, s, n, a);
    MoveInside(s, After(c, s, Enters(n, a)), n, Spending(a));
  }

  /** The bound is met: every count up to the semaphore and the room is reached. */
  lemma {:induction false} RoomIsReached(c: Config, s: System, n: nat, a: Arm, r: real)
    requires BudgetOf(c, a).reserve > 0.0 && Fresh(s) && BooksOf(s, a).reading == Pct(r)
    requires n <= c.cap && n <= Max2(0, Room(c, a, r))
    ensures Runs(c, s, Fills(n, a)) && Busy(After(c, s, Fills(n, a)), n, a, r)
  {
    if n == 0 {
      assert Inside(s) == {};
    } else {
      RoomIsReached(c, s, n - 1, a, r);
      OneEnters(c, After(c, s, Fills(n - 1, a)), n - 1, a, r);
      RunsOn(c, s, Fills(n - 1, a), Enters(n - 1, a));
    }
  }

  // ----- the lag term is tight ---------------------------------------------------------------------

  /** Events that neither end a run nor move a meter cost nothing. */
  lemma {:induction false} NothingSpent(c: Config, s: System, es: seq<Event>)
    requires Runs(c, s, es) && forall e <- es :: !e.Finishes? && !e.MeterMoves?
    ensures AllInBudget(c, s, es)
    decreases |es|
  {
    if es != [] {
      NothingSpent(c, Next(c, s, es[0]), es[1..]);
    }
  }

  lemma {:induction false} BudgetsAppend(c: Config, s: System, es: seq<Event>, more: seq<Event>)
    requires Runs(c, s, es) && Runs(c, After(c, s, es), more)
    requires AllInBudget(c, s, es) && AllInBudget(c, After(c, s, es), more)
    ensures Runs(c, s, es + more) && AllInBudget(c, s, es + more)
    decreases |es|
  {
    RunsOn(c, s, es, more);
    if es == [] {
      assert es + more == more;
    } else {
      BudgetsAppend(c, Next(c, s, es[0]), es[1..], more);
      assert (es + more)[1..] == es[1..] + more;
    }
  }

  function Sum(costs: seq<real>): real {
    if costs == [] then 0.0 else Sum(costs[..|costs| - 1]) + costs[|costs| - 1]
  }

  /** One run after another, the i-th by task i at cost `costs[i]`, none of it read meanwhile. */
  function Spends(costs: seq<real>, a: Arm): seq<Event> {
    if costs == [] then []
    else
      var n := |costs| - 1;
      Spends(costs[..n], a) + (Enters(n, a) + [Finishes(n, costs[n])])
  }

  /** `n` runs of the arm have come and gone, `spent` among them, and none is about. */
  predicate Gone(s: System, n: nat, a: Arm, r: real, spent: real) {
    && s.inflight == 0 && Inside(s) == {} && BooksOf(s, a).reading == Pct(r) && BooksOf(s, a).finished == spent
    && forall t <- s.tasks :: t < n
  }

  lemma {:induction false} OneComesAndGoes(c: Config, s: System, n: nat, a: Arm, r: real, spent: real, cost: real)
    requires Gone(s, n, a, r, spent) && c.cap >= 1 && Check(c, a, Pct(r), 0) && cost <= BudgetOf(c, a).reserve
    ensures
      var es := Enters(n, a) + [Finishes(n, cost)];
      Runs(c, s, es) && AllInBudget(c, s, es) && Gone(After(c, s, es), n + 1, a, r, spent + cost)
  {
    var last := Finishes(n, cost);
    NewcomerEnters(c, s, n, a);
    NothingSpent(c, s, Enters(n, a));
    var busy := After(c, s, Enters(n, a));
    MoveInside(s, busy, n, Spending(a));
    var done := Next(c, busy, last);
    MoveInside(busy, done, n, Owing(a, cost));
    assert Runs(c, done, []) && After(c, done, []) == done && [last][1..] == [];
    assert Runs(c, busy, [last]) && After(c, busy, [last]) == done && AllInBudget(c, busy, [last]);
    BudgetsAppend(c, s, Enters(n, a), [last]);
    RunsOn(c, s, Enters(n, a), [last]);
  }

  lemma {:induction false} ManyComeAndGo(c: Config, s: System, costs: seq<real>, a: Arm, r: real)
    requires Fresh(s) && BooksOf(s, a).reading == Pct(r) && c.cap >= 1 && Check(c, a, Pct(r), 0)
    requires forall x <- costs :: x <= BudgetOf(c, a).reserve
    ensures Runs(c, s, Spends(costs, a)) && AllInBudget(c, s, Spends(costs, a))
    ensures Gone(After(c, s, Spends(costs, a)), |costs|, a, r, Sum(costs))
  {
    if costs == [] {
      assert Inside(s) == {};
    } else {
      var n := |costs| - 1;
      var before, one := Spends(costs[..n], a), Enters(n, a) + [Finishes(n, costs[n])];
      assert costs[n] in costs && forall x <- costs[..n] :: x in costs;
      ManyComeAndGo(c, s, costs[..n], a, r);
      OneComesAndGoes(c, After(c, s, before), n, a, r, Sum(costs[..n]), costs[n]);
      BudgetsAppend(c, s, before, one);
      RunsOn(c, s, before, one);
    }
  }

  /** The lag at an admission is what the reading has not seen, and the bound is met with
      equality: whatever the runs cost, if the reading leaves room for one run and never
      moves, the next one to start has spent and holds exactly the cutoff plus the lag. */
  lemma {:induction false} LagIsReached(c: Config, s: System, costs: seq<real>, a: Arm)
    requires BudgetOf(c, a).reserve > 0.0 && c.cap >= 1 && Fresh(s)
    requires BooksOf(s, a).reading == Pct(BudgetOf(c, a).cutoff - BudgetOf(c, a).reserve)
    requires forall x <- costs :: x <= BudgetOf(c, a).reserve
    requires Sum(costs) >= BudgetOf(c, a).cutoff - BudgetOf(c, a).reserve
    ensures
      var es := Spends(costs, a) + Enters(|costs|, a);
      Runs(c, s, es) && AllInBudget(c, s, es)
      && var n := After(c, s, es);
         BooksOf(n, a).lag == Sum(costs) - (BudgetOf(c, a).cutoff - BudgetOf(c, a).reserve)
         && BooksOf(n, a).finished + |Holders(n, a)| as real * BudgetOf(c, a).reserve
            == BudgetOf(c, a).cutoff + BooksOf(n, a).lag
  {
    var r, t := BudgetOf(c, a).cutoff - BudgetOf(c, a).reserve, |costs|;
    ManyComeAndGo(c, s, costs, a, r);
    var gone := After(c, s, Spends(costs, a));
    NewcomerEnters(c, gone, t, a);
    NothingSpent(c, gone, Enters(t, a));
    BudgetsAppend(c, s, Spends(costs, a), Enters(t, a));
    RunsOn(c, s, Spends(costs, a), Enters(t, a));
    var n := After(c, gone, Enters(t, a));
    HoldersInside(gone);
    MoveHolders(gone, n, t, Spending(a), a);
    assert |Holders(n, a)| == 1;
  }

  /** Runs no dearer than the reserve can add up to anything. */
  lemma {:induction false} CostsFor(total: real, reserve: real, k: nat) returns (costs: seq<real>)
    requires reserve > 0.0 && 0.0 <= total <= k as real * reserve
    ensures Sum(costs) == total && forall x <- costs :: 0.0 <= x <= reserve
    decreases k
  {
    if total <= reserve {
      costs := [total];
      assert costs[..0] == [];
    } else {
      OneMore(k - 1, reserve);
      var fewer := CostsFor(total - reserve, reserve, k - 1);
      costs := fewer + [reserve];
      assert costs[..|costs| - 1] == fewer;
    }
  }

  /** The cost of a run is written after its slot is left. So for every configuration with a
      slot and a reserve that fits its cutoff, on either arm, every lag is reached, and with
      it an overrun of exactly that much. */
  lemma {:induction false} LateCostOverruns(c: Config, s: System, a: Arm, lag: real) returns (es: seq<Event>)
    requires 0.0 < BudgetOf(c, a).reserve <= BudgetOf(c, a).cutoff && c.cap >= 1 && lag >= 0.0 && Fresh(s)
    requires BooksOf(s, a).reading == Pct(BudgetOf(c, a).cutoff - BudgetOf(c, a).reserve)
    ensures Runs(c, s, es) && AllInBudget(c, s, es) && BooksOf(After(c, s, es), a).lag == lag
    ensures
      var n := After(c, s, es);
      BooksOf(n, a).finished + |Holders(n, a)| as real * BudgetOf(c, a).reserve == BudgetOf(c, a).cutoff + lag
  {
    var d := BudgetOf(c, a).reserve;
    var total := BudgetOf(c, a).cutoff - d + lag;
    var k := (total / d).Floor + 1;
    DivideAcross(k as real, d, total);
    assert total <= k as real * d by {
      assert total / d <= k as real;
      Monotone(total / d, k as real, d);
    }
    var costs := CostsFor(total, d, k);
    LagIsReached(c, s, costs, a);
    es := Spends(costs, a) + Enters(|costs|, a);
  }
}

/** The label work queue: triage, the fixer and the pull-request sidecar act on one issue in
    ordered GitHub writes, any of which may be the last before a crash. */
module IssueQueue {
  import opened Options
  import T = Text

  /** The queue's labels, the one triage takes off, the one it puts on for the fixer, and
      whether anybody is configured to take issues over. */
  datatype Config = Config(labels: seq<string>, clears: string, fixable: string, assigns: bool)

  /** What the configuration's validator demands. */
  predicate Valid(c: Config) {
    c.labels != [] && c.clears in c.labels && c.fixable != ""
  }

  /** What robbie says when it takes an issue out of a queue. */
  datatype Say = ForFix | ForHuman | Linked | Opened | GaveBack

  /** An issue as GitHub has it: robbie's comments on it, in order. */
  datatype Issue = Issue(open: bool, labels: set<string>, said: seq<Say>, owned: bool)

  /** GitHub tells labels apart without regard to case; an issue's are kept in that form. */
  function Name(l: string): string {
    T.Lowered(l)
  }

  datatype Op = Comment(say: Say) | Assign | Add(l: string) | Remove(l: string)

  function Do(i: Issue, op: Op): Issue {
    match op
    case Comment(say) => i.(said := i.said + [say])
    case Assign => i.(owned := true)
    case Add(l) => i.(labels := i.labels + {Name(l)})
    case Remove(l) => i.(labels := i.labels - {Name(l)})
  }

  function DoAll(i: Issue, ops: seq<Op>): Issue {
    if ops == [] then i else Do(DoAll(i, ops[..|ops| - 1]), ops[|ops| - 1])
  }

  /** The label an empty `clears` stands for. */
  function Cleared(c: Config, clears: string): string {
    if clears == "" then c.clears else clears
  }

  /** `settle_issue`: speak, assign, label; the queue label comes off last. */
  function Plan(c: Config, say: Say, assign: bool, add: string, clears: string): seq<Op> {
    [Comment(say)] + (if assign then [Assign] else []) + (if add != "" then [Add(add)] else [])
      + [Remove(Cleared(c, clears))]
  }

  /** What triage does with each of its decisions, and the fixer with each of its ends. */
  function PlanFor(c: Config, say: Say, fixing: bool): seq<Op> {
    Plan(c, say, (say == ForHuman || say == GaveBack) && c.assigns, if say == ForFix then c.fixable else "",
         if fixing then c.fixable else "")
  }

  /** The form's own verdict, and what the money question came back with. */
  datatype Call = Attempt | AssignIt | AskMoney
  datatype Money = NotAsked | NoAnswer | MoneyPath | NoMoneyPath

  /** What triage says of an issue it read; None leaves it in the queue. */
  function TriageSay(open: bool, linked: bool, call: Call, money: Money): Option<Say> {
    if !open then None
    else if linked then Some(Linked)
    else match call
    case Attempt => Some(ForFix)
    case AssignIt => Some(ForHuman)
    case AskMoney =>
      (match money
       case NotAsked => None
       case NoMoneyPath => Some(ForFix)
       case _ => Some(ForHuman))
  }

  /** Triage fails closed: a form that allows a fix by itself goes to the fixer, or one that
      left the money question open when the one answer that clears it came back; somebody's
      pull request outranks the form; an unasked question says nothing; and a question that
      found a money path or did not come back goes to a person, as does a form that forbids a
      fix. */
  lemma {:induction false} TriageFailsClosed(open: bool, linked: bool, call: Call, money: Money)
    ensures
      var say := TriageSay(open, linked, call, money);
      && (say == Some(ForFix) <==>
            open && !linked && (call == Attempt || (call == AskMoney && money == NoMoneyPath)))
      && (say == Some(ForHuman) <==>
            open && !linked && (call == AssignIt || (call == AskMoney && (money == NoAnswer || money == MoneyPath))))
      && (say == Some(Linked) <==> open && linked)
      && (say == None <==> !open || (!linked && call == AskMoney && money == NotAsked))
  {
  }

  /** What the fixer says: of a pull request on its branch, before or after its container,
      of another's that closes the issue, or that it gave up. A closed meter says nothing. */
  function FixSay(open: bool, hasPr: bool, linked: bool, gate: bool, hasPrAfter: bool): Option<Say> {
    if !open then None
    else if hasPr then Some(Opened)
    else if linked then Some(Linked)
    else if !gate then None
    else if hasPrAfter then Some(Opened)
    else Some(GaveBack)
  }

  /** Its own pull request comes first, before the container or after; then another's; a closed
      meter leaves the issue for the next tick; and only a container that ran without a pull
      request gives it back. */
  lemma {:induction false} FixerReports(open: bool, hasPr: bool, linked: bool, gate: bool, hasPrAfter: bool)
    ensures
      var say := FixSay(open, hasPr, linked, gate, hasPrAfter);
      && (say == Some(Opened) <==> open && (hasPr || (!linked && gate && hasPrAfter)))
      && (say == Some(Linked) <==> open && !hasPr && linked)
      && (say == Some(GaveBack) <==> open && !hasPr && !linked && gate && !hasPrAfter)
      && (say == None <==> !open || (!hasPr && !linked && !gate))
  {
  }

  /** What an issue must carry to be the fixer's. */
  function QueueLabels(c: Config): seq<string> {
    Without(c.labels, c.clears) + [c.fixable]
  }

  function Without(labels: seq<string>, l: string): (r: seq<string>)
    ensures forall x :: x in r <==> x in labels && x != l
  {
    if labels == [] then []
    else if labels[0] == l then Without(labels[1..], l)
    else [labels[0]] + Without(labels[1..], l)
  }

  predicate CarriesAll(i: Issue, labels: seq<string>) {
    forall l <- labels :: Name(l) in i.labels
  }

  predicate InTriage(c: Config, i: Issue) {
    CarriesAll(i, c.labels)
  }

  predicate InFixQueue(c: Config, i: Issue) {
    CarriesAll(i, QueueLabels(c))
  }

  // ----- the writes in order ---------------------------------------------------------------

  class GitHubIssue {
    var open: bool
    var labels: set<string>
    var said: seq<Say>
    var owned: bool

    constructor (i: Issue)
      ensures View() == i
    {
      open, labels, said, owned := i.open, i.labels, i.said, i.owned;
    }

    function View(): Issue
      reads this
    {
      Issue(open, labels, said, owned)
    }

    /** One call to GitHub. */
    method Write(op: Op)
      modifies this
      ensures View() == Do(old(View()), op)
    {
      match op {
        case Comment(say) => said := said + [say];
        case Assign => owned := true;
        case Add(l) => labels := labels + {Name(l)};
        case Remove(l) => labels := labels - {Name(l)};
      }
    }

    /** `settle_issue` where GitHub takes the first `lives` writes and the process, or the
        call, dies at the next. */
    method Settle(c: Config, say: Say, assign: bool, add: string, clears: string, lives: nat) returns (done: bool)
      modifies this
      ensures
        var plan := Plan(c, say, assign, add, clears);
        done == (lives >= |plan|) && View() == DoAll(old(View()), if done then plan else plan[..lives])
    {
      ghost var plan := Plan(c, say, assign, add, clears);
      PlanAt(c, say, assign, add, clears);
      var n: nat := 0;
      if n == lives { return false; }
      Write(Comment(say));
      Taken1(old(View()), plan, n);
      n := n + 1;
      if assign {
        if n == lives { return false; }
        Write(Assign);
        Taken1(old(View()), plan, n);
        n := n + 1;
      }
      if add != "" {
        if n == lives { return false; }
        Write(Add(add));
        Taken1(old(View()), plan, n);
        n := n + 1;
      }
      if n == lives { return false; }
      Write(Remove(if clears == "" then c.clears else clears));
      Taken1(old(View()), plan, n);
      assert plan[..|plan|] == plan;
      return true;
    }

    /** `_triage_one`: an issue that is settled says one thing and goes through that plan;
        every other way out leaves it as it was. */
    method TriageOne(c: Config, linked: bool, call: Call, money: Money, lives: nat) returns (say: Option<Say>)
      modifies this
      ensures say == TriageSay(old(open), linked, call, money)
      ensures View() == if say.None? then old(View()) else Reached(old(View()), PlanFor(c, say.value, false), lives)
      ensures say == Some(ForFix)
        <==> old(open) && !linked && (call == Attempt || (call == AskMoney && money == NoMoneyPath))
      ensures say == None <==> !old(open) || (!linked && call == AskMoney && money == NotAsked)
      ensures labels <= old(labels) + (if say == Some(ForFix) then {Name(c.fixable)} else {})
      ensures say == None ==> View() == old(View())
    {
      TriageFailsClosed(open, linked, call, money);
      forall say: Say {
        ReachedGains(c, old(View()), say, false, lives);
      }
      if !open { return None; }
      var done: bool;
      if linked {
        done := Settle(c, Linked, false, "", "", lives);
        return Some(Linked);
      }
      var action := call;
      if call == AskMoney {
        if money == NotAsked { return None; }
        action := if money == NoMoneyPath then Attempt else AssignIt;
      }
      if action == Attempt {
        done := Settle(c, ForFix, false, c.fixable, "", lives);
        return Some(ForFix);
      }
      done := Settle(c, ForHuman, c.assigns, "", "", lives);
      return Some(ForHuman);
    }

    /** `_fix_one`: what GitHub says of the branch is the outcome, whatever the run said. */
    method FixOne(c: Config, hasPr: bool, linked: bool, gate: bool, hasPrAfter: bool, lives: nat)
      returns (say: Option<Say>)
      modifies this
      ensures say == FixSay(old(open), hasPr, linked, gate, hasPrAfter)
      ensures View() == if say.None? then old(View()) else Reached(old(View()), PlanFor(c, say.value, true), lives)
      ensures say == Some(GaveBack) <==> old(open) && !hasPr && !linked && gate && !hasPrAfter
      ensures say == Some(Opened) <==> old(open) && (hasPr || (!linked && gate && hasPrAfter))
      ensures say == Some(Linked) <==> old(open) && !hasPr && linked
    {
      FixerReports(open, hasPr, linked, gate, hasPrAfter);
      if !open { return None; }
      var done: bool;
      if hasPr {
        done := Settle(c, Opened, false, "", c.fixable, lives);
        return Some(Opened);
      }
      if linked {
        done := Settle(c, Linked, false, "", c.fixable, lives);
        return Some(Linked);
      }
      if !gate { return None; }
      if hasPrAfter {
        done := Settle(c, Opened, false, "", c.fixable, lives);
        return Some(Opened);
      }
      done := Settle(c, GaveBack, c.assigns, "", c.fixable, lives);
      return Some(GaveBack);
    }
  }

  /** The issue after the first `lives` writes of a plan. */
  function Reached(i: Issue, plan: seq<Op>, lives: nat): Issue {
    DoAll(i, if lives >= |plan| then plan else plan[..lives])
  }

  function One(b: bool): nat {
    if b then 1 else 0
  }

  lemma {:induction false} PlanAt(c: Config, say: Say, assign: bool, add: string, clears: string)
    ensures
      var p, a, l := Plan(c, say, assign, add, clears), One(assign), One(add != "");
      && |p| == 2 + a + l && p[0] == Comment(say) && p[1 + a + l] == Remove(Cleared(c, clears))
      && (assign ==> p[1] == Assign) && (add != "" ==> p[1 + a] == Add(add))
  {
  }

  lemma {:induction false} Taken1(i: Issue, plan: seq<Op>, n: nat)
    requires n < |plan|
    ensures DoAll(i, plan[..n + 1]) == Do(DoAll(i, plan[..n]), plan[n])
  {
    assert plan[..n + 1][..n] == plan[..n];
  }

  /** However far a settlement gets, it adds no label but the fixable one, and that only when
      the issue goes to the fixer. */
  lemma {:induction false} ReachedGains(c: Config, i: Issue, say: Say, fixing: bool, lives: nat)
    ensures Reached(i, PlanFor(c, say, fixing), lives).labels
         <= i.labels + (if say == ForFix then {Name(c.fixable)} else {})
    decreases lives
  {
    var plan := PlanFor(c, say, fixing);
    PlanShape(c, say, fixing);
    var n := if lives >= |plan| then |plan| else lives;
    assert plan[..|plan|] == plan;
    if n > 0 {
      ReachedGains(c, i, say, fixing, n - 1);
      Taken1(i, plan, n - 1);
    }
  }

  /** A settlement that went through: robbie said one thing, the issue has an owner if it goes
      to a person and anybody is configured, the fixable label is on if it goes to the fixer,
      and the queue label that is off is triage's own, or the fixer's. */
  lemma {:induction false} SettledMeans(c: Config, i: Issue, say: Say, fixing: bool)
    requires Valid(c)
    ensures
      var n := DoAll(i, PlanFor(c, say, fixing));
      && n.open == i.open && n.said == i.said + [say]
      && n.owned == (i.owned || ((say == ForHuman || say == GaveBack) && c.assigns))
      && n.labels == i.labels + (if say == ForFix then {Name(c.fixable)} else {})
                     - {Name(if fixing then c.fixable else c.clears)}
  {
    var plan := PlanFor(c, say, fixing);
    var a := (say == ForHuman || say == GaveBack) && c.assigns;
    PlanAt(c, say, a, if say == ForFix then c.fixable else "", if fixing then c.fixable else "");
    assert plan[..0] == [] && plan[..|plan|] == plan;
    Taken1(i, plan, 0);
    Taken1(i, plan, 1);
    if |plan| > 2 {
      Taken1(i, plan, 2);
    }
  }

  // ----- the interleaved system ---------------------------------------------------------------

  /** What robbie is doing with the issue: nothing; `n` writes into settling it, for triage
      or for the fixer; or waiting for a fix container. */
  datatype Job = Idle | Settling(say: Say, fixing: bool, n: nat) | InContainer

  /** A call to the sidecar: it has seen the label, then no branch, then its push landed. */
  datatype ToolCall = Guarded | NoBranch | Pushed | Answered

  type CallId = nat

  /** `cleared` and `handled` are the decisions under which triage and the fixer took their
      queue label off; `owed` is whether triage cleared the issue for a fix that the fixer
      has not settled since; `off` the labels people ever took off. `prs` counts robbie's
      pull requests for the issue and `deletions` the times people deleted its branch; the
      branch is `merged` while trunk has its tip, and `merges` counts how often it got it. */
  datatype System = System(issue: Issue, job: Job, cleared: seq<Say>, handled: seq<Say>, owed: bool, off: set<string>,
                           calls: map<CallId, ToolCall>, branch: bool, hasPr: bool, prs: nat, deletions: nat,
                           merged: bool, merges: nat)

  datatype Event =
    | TriageDecides(linked: bool, call: Call, money: Money)
    | FixStarts
    | FixFinds(say: Say)         // a pull request is there already, robbie's or another's
    | FixEnds
    | JobWrites
    | JobDies
    | PeopleAdd(l: string)
    | PeopleRemove(l: string)
    | PeopleClose
    | PeopleReopen
    | PeopleOpenPr               // from robbie's branch, by hand
    | PeopleDeleteBranch
    | PeopleMergeBranch          // and keep it
    | CallStarts(id: CallId)
    | CallLooks(id: CallId, answers: bool)
    | CallPushes(id: CallId, works: bool)
    | CallCreates(id: CallId, works: bool)

  function PlanOf(c: Config, j: Job): seq<Op>
    requires j.Settling?
  {
    PlanFor(c, j.say, j.fixing)
  }

  predicate Enabled(c: Config, s: System, e: Event) {
    match e
    case TriageDecides(linked, call, money) =>
      s.job == Idle && s.issue.open && InTriage(c, s.issue) && TriageSay(true, linked, call, money).Some?
    case FixStarts => s.job == Idle && s.issue.open && InFixQueue(c, s.issue) && !s.hasPr
    case FixFinds(say) =>
      s.job == Idle && s.issue.open && InFixQueue(c, s.issue)
        && ((say == Opened && s.hasPr) || (say == Linked && !s.hasPr))
    case FixEnds => s.job == InContainer
    case JobWrites => s.job.Settling? && s.job.n < |PlanOf(c, s.job)|
    case JobDies => s.job != Idle
    case PeopleAdd(_) => true
    case PeopleRemove(_) => true
    case PeopleClose => true
    case PeopleReopen => true
    case PeopleOpenPr => s.branch && !s.hasPr
    case PeopleDeleteBranch => s.branch
    case PeopleMergeBranch => s.branch && !s.merged
    case CallStarts(id) => id !in s.calls && s.issue.open && Name(c.fixable) in s.issue.labels
    case CallLooks(id, answers) => id in s.calls && s.calls[id] == Guarded
    case CallPushes(id, works) => id in s.calls && s.calls[id] == NoBranch
    case CallCreates(id, works) => id in s.calls && s.calls[id] == Pushed
  }

  function Wrote(c: Config, s: System): System
    requires s.job.Settling? && s.job.n < |PlanOf(c, s.job)|
  {
    var j := s.job;
    var plan := PlanOf(c, j);
    var last := j.n + 1 == |plan|;
    s.(issue := Do(s.issue, plan[j.n]),
       job := if last then Idle else j.(n := j.n + 1),
       cleared := if last && !j.fixing then s.cleared + [j.say] else s.cleared,
       handled := if last && j.fixing then s.handled + [j.say] else s.handled,
       owed := if last && j.fixing then false else s.owed || (last && j.say == ForFix))
  }

  function Next(c: Config, s: System, e: Event): System
    requires Enabled(c, s, e)
  {
    match e
    case TriageDecides(linked, call, money) => s.(job := Settling(TriageSay(true, linked, call, money).value, false, 0))
    case FixStarts => s.(job := InContainer)
    case FixFinds(say) => s.(job := Settling(say, true, 0))
    case FixEnds => s.(job := Settling(if s.hasPr then Opened else GaveBack, true, 0))
    case JobWrites => Wrote(c, s)
    case JobDies => s.(job := Idle)
    case PeopleAdd(l) => s.(issue := s.issue.(labels := s.issue.labels + {Name(l)}))
    case PeopleRemove(l) => s.(issue := s.issue.(labels := s.issue.labels - {Name(l)}), off := s.off + {Name(l)})
    case PeopleClose => s.(issue := s.issue.(open := false))
    case PeopleReopen => s.(issue := s.issue.(open := true))
    case PeopleOpenPr => s.(hasPr := true)
    case PeopleDeleteBranch => s.(branch := false, merged := false, deletions := s.deletions + 1)
    case PeopleMergeBranch => s.(merged := true, merges := s.merges + 1)
    case CallStarts(id) => s.(calls := s.calls[id := Guarded])
    case CallLooks(id, answers) =>
      // any answer but "here it is" reads as no branch
      s.(calls := s.calls[id := if s.branch && answers then Answered else NoBranch])
    case CallPushes(id, works) =>
      // git takes it onto no branch, or onto one whose tip trunk has
      if works && (!s.branch || s.merged) then s.(calls := s.calls[id := Pushed], branch := true, merged := false)
      else s.(calls := s.calls[id := Answered])
    case CallCreates(id, works) =>
      if works then s.(calls := s.calls[id := Answered], hasPr := true, prs := s.prs + 1)
      else s.(calls := s.calls[id := Answered])
  }

  /** Triage or the fixer takes the issue up, finishes its container or dies. */
  predicate IsDecision(e: Event) {
    e.TriageDecides? || e.FixStarts? || e.FixFinds? || e.FixEnds? || e.JobDies?
  }

  predicate IsCall(e: Event) {
    e.CallStarts? || e.CallLooks? || e.CallPushes? || e.CallCreates?
  }

  // ----- nothing is dropped silently ---------------------------------------------------------------

  /** A label is on the issue, or a person took it off. */
  predicate OnOrOff(s: System, l: string) {
    Name(l) in s.issue.labels || Name(l) in s.off
  }

  /** How far a settlement has come, and what that many writes have left on the issue. */
  predicate JobOk(c: Config, s: System) {
    match s.job
    case Settling(say, fixing, n) =>
      && n < |PlanFor(c, say, fixing)|
      && (say == ForFix ==> !fixing)
      && (say == ForFix && n + 1 == |PlanFor(c, say, fixing)| ==> OnOrOff(s, c.fixable))
    case _ => true
  }

  /** The comment a settlement has written but not yet made good by taking the label off. */
  function InHand(s: System): multiset<Say> {
    if s.job.Settling? && s.job.n >= 1 then multiset{s.job.say} else multiset{}
  }

  /** Every label robbie took off has a comment of its own on the issue, and so has the one
      it is about to take off. */
  predicate Explained(s: System) {
    multiset(s.cleared) + multiset(s.handled) + InHand(s) <= multiset(s.issue.said)
  }

  /** The fixable label is one of the queue's own. */
  predicate AlsoQueue(c: Config) {
    exists l <- c.labels :: Name(l) == Name(c.fixable)
  }

  /** None of the labels the fixer looks for is the one triage takes off. */
  predicate Apart(c: Config) {
    forall l <- QueueLabels(c) :: Name(l) != Name(c.clears)
  }

  /** What robbie owes the fixer is labelled, and the labels it had no reason to take off
      are on. */
  predicate Accounted(c: Config, s: System) {
    && (s.owed ==> OnOrOff(s, c.fixable))
    && (forall l <- c.labels :: Name(l) != Name(c.clears) && Name(l) != Name(c.fixable) ==> OnOrOff(s, l))
    && (s.cleared == [] ==> OnOrOff(s, c.clears))
    && (s.handled == [] && AlsoQueue(c) ==> OnOrOff(s, c.fixable))
  }

  lemma {:induction false} PlanShape(c: Config, say: Say, fixing: bool)
    ensures
      var p := PlanFor(c, say, fixing);
      && |p| >= 2 && p[0] == Comment(say)
        && p[|p| - 1] == Remove(if fixing && c.fixable != "" then c.fixable else c.clears)
      && (forall n :: 0 < n < |p| - 1 ==> p[n].Assign? || (say == ForFix && p[n] == Add(c.fixable)))
      && (say == ForFix && c.fixable != "" ==> p[|p| - 2] == Add(c.fixable))
  {
  }

  /** The issue only gained labels and comments. */
  predicate Gained(i: Issue, n: Issue) {
    i.labels <= n.labels && i.said <= n.said
  }

  lemma {:induction false} GainKeepsAccounts(c: Config, s: System, n: System)
    requires Accounted(c, s) && Gained(s.issue, n.issue)
    requires n.cleared == s.cleared && n.handled == s.handled && n.off == s.off && n.owed == s.owed
    ensures Accounted(c, n)
  {
  }

  /** Every write but the last only adds to the issue. */
  lemma {:induction false} EarlyWriteKeeps(c: Config, s: System)
    requires Valid(c) && JobOk(c, s) && Accounted(c, s) && Enabled(c, s, JobWrites) && s.job.n + 1 < |PlanOf(c, s.job)|
    ensures JobOk(c, Wrote(c, s)) && Accounted(c, Wrote(c, s))
  {
    PlanShape(c, s.job.say, s.job.fixing);
    var op := PlanOf(c, s.job)[s.job.n];
    if s.job.n == 0 {
      assert op == Comment(s.job.say);
    } else {
      assert op.Assign? || op == Add(c.fixable);
    }
    assert Gained(s.issue, Do(s.issue, op));
    GainKeepsAccounts(c, s, Wrote(c, s));
  }

  lemma {:induction false} LastWriteKeeps(c: Config, s: System)
    requires Valid(c) && Apart(c) && JobOk(c, s) && Accounted(c, s)
    requires Enabled(c, s, JobWrites) && s.job.n + 1 == |PlanOf(c, s.job)|
    ensures JobOk(c, Wrote(c, s)) && Accounted(c, Wrote(c, s))
  {
    PlanShape(c, s.job.say, s.job.fixing);
    assert PlanOf(c, s.job)[s.job.n] == Remove(if s.job.fixing then c.fixable else c.clears);
  }

  lemma {:induction false} WriteKeeps(c: Config, s: System)
    requires Valid(c) && Apart(c) && JobOk(c, s) && Accounted(c, s) && Enabled(c, s, JobWrites)
    ensures JobOk(c, Wrote(c, s)) && Accounted(c, Wrote(c, s))
  {
    if s.job.n + 1 < |PlanOf(c, s.job)| {
      EarlyWriteKeeps(c, s);
    } else {
      LastWriteKeeps(c, s);
    }
  }

  lemma {:induction false} PeopleKeep(c: Config, s: System, e: Event)
    requires JobOk(c, s) && Accounted(c, s) && Enabled(c, s, e)
    requires e.PeopleAdd? || e.PeopleRemove? || e.PeopleClose? || e.PeopleReopen? || e.PeopleOpenPr?
             || e.PeopleDeleteBranch? || e.PeopleMergeBranch?
    ensures JobOk(c, Next(c, s, e)) && Accounted(c, Next(c, s, e))
  {
  }

  lemma {:induction false} DecisionKeeps(c: Config, s: System, e: Event)
    requires JobOk(c, s) && Accounted(c, s) && Enabled(c, s, e)
    requires IsDecision(e)
    ensures JobOk(c, Next(c, s, e)) && Accounted(c, Next(c, s, e))
  {
    if e.TriageDecides? {
      PlanShape(c, TriageSay(true, e.linked, e.call, e.money).value, false);
    } else if e.FixFinds? {
      PlanShape(c, e.say, true);
    } else if e.FixEnds? {
      PlanShape(c, Opened, true);
      PlanShape(c, GaveBack, true);
    }
  }

  /** The first write is the comment; it puts the settlement's own say in hand. */
  lemma {:induction false} FirstWriteExplains(c: Config, s: System)
    requires Explained(s) && Enabled(c, s, JobWrites) && s.job.n == 0
    ensures Explained(Wrote(c, s))
  {
    var j, n := s.job, Wrote(c, s);
    PlanShape(c, j.say, j.fixing);
    assert n.issue.said == s.issue.said + [j.say];
    assert InHand(s) == multiset{} && InHand(n) == multiset{j.say};
    assert n.cleared == s.cleared && n.handled == s.handled;
  }

  /** The last write is the removal; it uses up the say in hand. */
  lemma {:induction false} LastWriteUsesUp(c: Config, s: System)
    requires Explained(s) && Enabled(c, s, JobWrites) && s.job.n >= 1 && s.job.n + 1 == |PlanOf(c, s.job)|
    ensures Explained(Wrote(c, s))
  {
    var j, n := s.job, Wrote(c, s);
    PlanShape(c, j.say, j.fixing);
    assert n.issue.said == s.issue.said;
    assert InHand(s) == multiset{j.say} && InHand(n) == multiset{};
    assert multiset(s.cleared + [j.say]) == multiset(s.cleared) + multiset{j.say};
    assert multiset(s.handled + [j.say]) == multiset(s.handled) + multiset{j.say};
  }

  lemma {:induction false} WriteKeepsExplained(c: Config, s: System)
    requires Explained(s) && Enabled(c, s, JobWrites)
    ensures Explained(Wrote(c, s))
  {
    if s.job.n == 0 {
      FirstWriteExplains(c, s);
    } else if s.job.n + 1 == |PlanOf(c, s.job)| {
      LastWriteUsesUp(c, s);
    } else {
      PlanShape(c, s.job.say, s.job.fixing);
      assert Wrote(c, s).issue.said == s.issue.said;
    }
  }

  /** What robbie said, what it took off and what it is at are as they were. */
  predicate SaysAsMuch(s: System, n: System) {
    n.issue.said == s.issue.said && n.cleared == s.cleared && n.handled == s.handled && InHand(n) <= InHand(s)
  }

  lemma {:induction false} DecisionsSayNothing(c: Config, s: System, e: Event)
    requires Enabled(c, s, e)
    requires IsDecision(e)
    ensures SaysAsMuch(s, Next(c, s, e))
  {
    assert InHand(Next(c, s, e)) == multiset{};
  }

  lemma {:induction false} CallsSayNothing(c: Config, s: System, e: Event)
    requires Enabled(c, s, e) && IsCall(e)
    ensures SaysAsMuch(s, Next(c, s, e))
  {
    var n := Next(c, s, e);
    assert n.issue == s.issue && n.job == s.job;
  }

  lemma {:induction false} PeopleSayNothing(c: Config, s: System, e: Event)
    requires Enabled(c, s, e) && !e.JobWrites? && !IsCall(e) && !IsDecision(e)
    ensures SaysAsMuch(s, Next(c, s, e))
  {
  }

  lemma {:induction false} StepKeepsExplained(c: Config, s: System, e: Event)
    requires Explained(s) && Enabled(c, s, e)
    ensures Explained(Next(c, s, e))
  {
    if e.JobWrites? {
      WriteKeepsExplained(c, s);
    } else {
      if IsDecision(e) {
        DecisionsSayNothing(c, s, e);
      } else if IsCall(e) {
        CallsSayNothing(c, s, e);
      } else {
        PeopleSayNothing(c, s, e);
      }
    }
  }

  lemma {:induction false} CallKeeps(c: Config, s: System, e: Event)
    requires JobOk(c, s) && Accounted(c, s) && Enabled(c, s, e) && IsCall(e)
    ensures JobOk(c, Next(c, s, e)) && Accounted(c, Next(c, s, e))
  {
    var n := Next(c, s, e);
    assert n.issue == s.issue && n.job == s.job && n.off == s.off;
    assert n.cleared == s.cleared && n.handled == s.handled && n.owed == s.owed;
  }

  lemma {:induction false} StepKeeps(c: Config, s: System, e: Event)
    requires Valid(c) && Apart(c) && JobOk(c, s) && Accounted(c, s) && Explained(s) && Enabled(c, s, e)
    ensures JobOk(c, Next(c, s, e)) && Accounted(c, Next(c, s, e)) && Explained(Next(c, s, e))
  {
    StepKeepsExplained(c, s, e);
    if e.JobWrites? {
      WriteKeeps(c, s);
    } else if IsCall(e) {
      CallKeeps(c, s, e);
    } else if IsDecision(e) {
      DecisionKeeps(c, s, e);
    } else {
      PeopleKeep(c, s, e);
    }
  }

  predicate Runs(c: Config, s: System, es: seq<Event>)
    decreases |es|
  {
    es == [] || (Enabled(c, s, es[0]) && Runs(c, Next(c, s, es[0]), es[1..]))
  }

  function After(c: Config, s: System, es: seq<Event>): System
    requires Runs(c, s, es)
    decreases |es|
  {
    if es == [] then s else After(c, Next(c, s, es[0]), es[1..])
  }

  /** An issue as a form files it: under every queue label, untouched. */
  predicate Filed(c: Config, s: System) {
    && s.issue.open && InTriage(c, s.issue) && s.issue.said == [] && s.job == Idle
    && s.cleared == [] && s.handled == [] && !s.owed && s.off == {}
    && s.calls == map[] && !s.branch && !s.hasPr && s.prs == 0 && s.deletions == 0
    && !s.merged && s.merges == 0
  }

  lemma {:induction false} KeepsOver(c: Config, s: System, es: seq<Event>)
    requires Valid(c) && Apart(c) && JobOk(c, s) && Accounted(c, s) && Explained(s) && Runs(c, s, es)
    ensures JobOk(c, After(c, s, es)) && Accounted(c, After(c, s, es)) && Explained(After(c, s, es))
    decreases |es|
  {
    if es != [] {
      StepKeeps(c, s, es[0]);
      KeepsOver(c, Next(c, s, es[0]), es[1..]);
    }
  }

  /** An issue triage cleared for a fix the fixer has not settled since is in the fixer's
      queue, unless a person took a label off. */
  predicate StillQueued(c: Config, s: System) {
    s.owed ==> s.off != {} || InFixQueue(c, s.issue)
  }

  lemma {:induction false} StillThere(c: Config, n: System)
    requires Valid(c) && Apart(c) && Accounted(c, n)
    ensures StillQueued(c, n)
    ensures n.cleared == [] && (n.handled == [] || !AlsoQueue(c)) ==> n.off != {} || InTriage(c, n.issue)
  {
  }

  /** Whatever crashes between any two writes: every time robbie took a queue label off, it
      had said so on the issue, in a comment that answers for that removal alone; one cleared
      for a fix carries the fixable label, and is in the fixer's queue, until the fixer settles
      it or a person takes a label off; and an issue triage never took out of its queue is
      still in it, under the same exceptions. */
  lemma {:induction false} NothingIsDropped(c: Config, s: System, es: seq<Event>)
    requires Valid(c) && Apart(c) && Filed(c, s) && Runs(c, s, es)
    ensures
      var n := After(c, s, es);
      && multiset(n.cleared + n.handled) <= multiset(n.issue.said)
      && (n.owed ==> OnOrOff(n, c.fixable))
      && StillQueued(c, n)
      && (n.cleared == [] && (n.handled == [] || !AlsoQueue(c)) ==> n.off != {} || InTriage(c, n.issue))
  {
    KeepsOver(c, s, es);
    var n := After(c, s, es);
    StillThere(c, n);
    assert multiset(n.cleared + n.handled) == multiset(n.cleared) + multiset(n.handled);
  }

  // ----- nothing goes to the fixer unasked ----------------------------------------------------------

  /** No decision among these clears the issue for a fix. */
  predicate NeverCleared(es: seq<Event>) {
    forall e <- es :: e.TriageDecides? ==>
      e.linked || (e.call != Attempt && !(e.call == AskMoney && e.money == NoMoneyPath))
  }

  predicate PeopleAdded(es: seq<Event>, l: string) {
    exists e <- es :: e.PeopleAdd? && Name(e.l) == Name(l)
  }

  /** Robbie has not sent the issue to the fixer, and is not about to. */
  predicate NotSent(s: System) {
    ForFix !in s.issue.said && ForFix !in s.cleared && !s.owed && !(s.job.Settling? && s.job.say == ForFix)
  }

  lemma {:induction false} WriteKeepsUnsent(c: Config, s: System)
    requires NotSent(s) && Enabled(c, s, JobWrites)
    ensures NotSent(Wrote(c, s)) && Wrote(c, s).issue.labels <= s.issue.labels
  {
    PlanShape(c, s.job.say, s.job.fixing);
    var op := PlanOf(c, s.job)[s.job.n];
    assert op == Comment(s.job.say) || op.Assign? || op.Remove?;
  }

  lemma {:induction false} StepKeepsUnsent(c: Config, s: System, e: Event)
    requires NotSent(s) && Enabled(c, s, e) && NeverCleared([e])
    ensures NotSent(Next(c, s, e))
    ensures Next(c, s, e).issue.labels <= s.issue.labels + (if e.PeopleAdd? then {Name(e.l)} else {})
  {
    assert e in [e];
    if e.JobWrites? {
      WriteKeepsUnsent(c, s);
    } else if e.TriageDecides? {
      TriageFailsClosed(true, e.linked, e.call, e.money);
    }
  }

  /** Over every run: unless triage read an open, unlinked issue whose form calls for an attempt,
      or whose money question came back clear, robbie never says it goes to the fixer and never
      puts the fixable label on; if the label is there, it was, or a person put it. */
  lemma {:induction false} NothingUnclearedIsSent(c: Config, s: System, es: seq<Event>)
    requires NotSent(s) && Runs(c, s, es) && NeverCleared(es)
    ensures
      var n := After(c, s, es);
      && ForFix !in n.issue.said && ForFix !in n.cleared && !n.owed
      && (Name(c.fixable) in n.issue.labels ==> Name(c.fixable) in s.issue.labels || PeopleAdded(es, c.fixable))
    decreases |es|
  {
    if es != [] {
      assert es[0] in es && forall e <- es[1..] :: e in es;
      StepKeepsUnsent(c, s, es[0]);
      NothingUnclearedIsSent(c, Next(c, s, es[0]), es[1..]);
    }
  }

  // ----- one label in two roles -------------------------------------------------------------------

  lemma OneStep(c: Config, s: System, e: Event, es: seq<Event>)
    requires Enabled(c, s, e) && Runs(c, Next(c, s, e), es)
    ensures Runs(c, s, [e] + es) && After(c, s, [e] + es) == After(c, Next(c, s, e), es)
  {
    assert ([e] + es)[1..] == es;
  }

  /** When a label the fixer looks for is the one triage takes off, whatever its case, clearing
      an issue for a fix takes it out of both queues. */
  lemma {:induction false} SameLabelDrops(c: Config, s: System) returns (es: seq<Event>)
    requires Valid(c) && !Apart(c) && Filed(c, s)
    ensures Runs(c, s, es) && !StillQueued(c, After(c, s, es)) && !InTriage(c, After(c, s, es).issue)
  {
    var s1 := Next(c, s, TriageDecides(false, Attempt, NotAsked));
    PlanShape(c, ForFix, false);
    assert PlanFor(c, ForFix, false) == [Comment(ForFix), Add(c.fixable), Remove(c.clears)];
    var s2 := Next(c, s1, JobWrites);
    var s3 := Next(c, s2, JobWrites);
    var s4 := Next(c, s3, JobWrites);
    assert Runs(c, s4, []) && After(c, s4, []) == s4;
    OneStep(c, s3, JobWrites, []);
    OneStep(c, s2, JobWrites, [JobWrites] + []);
    OneStep(c, s1, JobWrites, [JobWrites] + ([JobWrites] + []));
    es := [TriageDecides(false, Attempt, NotAsked)] + ([JobWrites] + ([JobWrites] + ([JobWrites] + [])));
    OneStep(c, s, TriageDecides(false, Attempt, NotAsked), [JobWrites] + ([JobWrites] + ([JobWrites] + [])));
    assert Name(c.clears) !in s4.issue.labels;
    assert s4.owed;
  }

  /** Which configurations never lose a cleared issue: those where no label the fixer looks for
      is the cleared one up to case. The validator does not ask for it. */
  lemma {:induction false} QueuedIff(c: Config, s: System)
    requires Valid(c) && Filed(c, s)
    ensures (forall es :: Runs(c, s, es) ==> StillQueued(c, After(c, s, es))) <==> Apart(c)
  {
    if Apart(c) {
      forall es | Runs(c, s, es) ensures StillQueued(c, After(c, s, es)) {
        NothingIsDropped(c, s, es);
      }
    } else {
      var es := SameLabelDrops(c, s);
    }
  }

  // ----- one pull request ---------------------------------------------------------------------------

  function PushedCalls(s: System): set<CallId> {
    set id | id in s.calls && s.calls[id] == Pushed
  }

  /** Every pull request robbie opened, and every push that may still open one, used up a
      branch of its own or one that was merged. */
  predicate BranchesPaid(s: System) {
    s.prs + |PushedCalls(s)| <= s.deletions + s.merges + One(s.branch && !s.merged)
  }

  predicate WasPushed(s: System, id: CallId) {
    id in s.calls && s.calls[id] == Pushed
  }

  /** A call that moves changes the number of landed pushes by itself alone. */
  lemma {:induction false} CallMoves(s: System, n: System, id: CallId, to: ToolCall)
    requires n.calls == s.calls[id := to]
    ensures |PushedCalls(n)| == |PushedCalls(s)| - One(WasPushed(s, id)) + One(to == Pushed)
  {
    var a := PushedCalls(s);
    assert PushedCalls(n) == if to == Pushed then a + {id} else a - {id};
    assert id in a ==> a + {id} == a;
    assert id !in a ==> a - {id} == a;
  }

  lemma {:induction false} CallPays(c: Config, s: System, e: Event)
    requires BranchesPaid(s) && Enabled(c, s, e) && IsCall(e)
    ensures BranchesPaid(Next(c, s, e))
  {
    var n := Next(c, s, e);
    CallMoves(s, n, e.id, n.calls[e.id]);
  }

  lemma {:induction false} StepPays(c: Config, s: System, e: Event)
    requires BranchesPaid(s) && Enabled(c, s, e)
    ensures BranchesPaid(Next(c, s, e))
  {
    if IsCall(e) {
      CallPays(c, s, e);
    } else {
      assert PushedCalls(Next(c, s, e)) == PushedCalls(s);
    }
  }

  lemma {:induction false} PaysOver(c: Config, s: System, es: seq<Event>)
    requires BranchesPaid(s) && Runs(c, s, es)
    ensures BranchesPaid(After(c, s, es))
    decreases |es|
  {
    if es != [] {
      StepPays(c, s, es[0]);
      PaysOver(c, Next(c, s, es[0]), es[1..]);
    }
  }

  /** However the fixer retries and however calls to the sidecar overlap, robbie opens one
      pull request for an issue, and another only for a branch people deleted or merged. */
  lemma {:induction false} OnePullRequest(c: Config, s: System, es: seq<Event>)
    requires Filed(c, s) && Runs(c, s, es)
    ensures
      var n := After(c, s, es);
      && n.prs <= 1 + n.deletions + n.merges
      && (n.prs > n.deletions + n.merges ==> n.branch && !n.merged)
  {
    assert PushedCalls(s) == {};
    PaysOver(c, s, es);
  }

  /** How far a call gets when nothing else moves meanwhile. */
  datatype Reach = Refused | SawBranch | PushFailed | Landed

  /** A refused patch or an issue nobody asked a fix for stops a call before it starts; then
      a branch it sees; then a patch that does not apply, a push that fails, or a branch it
      did not see and trunk does not have. */
  function CallReach(asked: bool, branch: bool, merged: bool, refused: bool, answers: bool, works: bool): Reach {
    if refused || !asked then Refused
    else if branch && answers then SawBranch
    else if !works || (branch && !merged) then PushFailed
    else Landed
  }

  /** The steps of the system that one call takes. */
  function ToolEvents(id: CallId, reach: Reach, answers: bool, works: bool, accepted: bool): seq<Event> {
    match reach
    case Refused => []
    case SawBranch => [CallStarts(id), CallLooks(id, answers)]
    case PushFailed => [CallStarts(id), CallLooks(id, answers), CallPushes(id, works)]
    case Landed => [CallStarts(id), CallLooks(id, answers), CallPushes(id, works), CallCreates(id, accepted)]
  }

  predicate Asked(c: Config, s: System) {
    s.issue.open && Name(c.fixable) in s.issue.labels
  }

  lemma {:induction false} RunStarts(c: Config, s: System, id: CallId, answers: bool)
    requires id !in s.calls && Asked(c, s)
    ensures
      var es := [CallStarts(id), CallLooks(id, answers)];
      Runs(c, s, es)
        && After(c, s, es) == s.(calls := s.calls[id := if s.branch && answers then Answered else NoBranch])
  {
    var s1 := Next(c, s, CallStarts(id));
    var s2 := Next(c, s1, CallLooks(id, answers));
    assert Runs(c, s2, []) && After(c, s2, []) == s2;
    OneStep(c, s1, CallLooks(id, answers), []);
    OneStep(c, s, CallStarts(id), [CallLooks(id, answers)] + []);
    assert [CallStarts(id)] + ([CallLooks(id, answers)] + []) == [CallStarts(id), CallLooks(id, answers)];
    assert s2.calls == s.calls[id := if s.branch && answers then Answered else NoBranch];
  }

  lemma {:induction false} StepAfter(c: Config, s: System, es: seq<Event>, e: Event)
    requires Runs(c, s, es) && Enabled(c, After(c, s, es), e)
    ensures Runs(c, s, es + [e]) && After(c, s, es + [e]) == Next(c, After(c, s, es), e)
    decreases |es|
  {
    if es == [] {
      var n := Next(c, s, e);
      assert Runs(c, n, []) && After(c, n, []) == n;
      OneStep(c, s, e, []);
      assert es + [e] == [e] + [];
    } else {
      StepAfter(c, Next(c, s, es[0]), es[1..], e);
      OneStep(c, s, es[0], es[1..] + [e]);
      assert es + [e] == [es[0]] + (es[1..] + [e]);
    }
  }

  /** Those steps are a run of the system, and where it ends. */
  lemma {:induction false} ToolEventsRun(c: Config, s: System, id: CallId, refused: bool, answers: bool, works: bool,
                                         accepted: bool)
    requires id !in s.calls
    ensures
      var reach := CallReach(Asked(c, s), s.branch, s.merged, refused, answers, works);
      var es := ToolEvents(id, reach, answers, works, accepted);
      && Runs(c, s, es)
      && After(c, s, es) == s.(calls := if reach == Refused then s.calls else s.calls[id := Answered],
                               branch := s.branch || reach == Landed,
                               merged := s.merged && reach != Landed,
                               hasPr := s.hasPr || (reach == Landed && accepted),
                               prs := s.prs + One(reach == Landed && accepted))
  {
    var reach := CallReach(Asked(c, s), s.branch, s.merged, refused, answers, works);
    if reach != Refused {
      RunStarts(c, s, id, answers);
      var two := [CallStarts(id), CallLooks(id, answers)];
      var push := CallPushes(id, works);
      if reach != SawBranch {
        StepAfter(c, s, two, push);
        assert two + [push] == [CallStarts(id), CallLooks(id, answers), push];
        assert s.calls[id := NoBranch][id := Answered] == s.calls[id := Answered];
      }
      if reach == Landed {
        StepAfter(c, s, two + [push], CallCreates(id, accepted));
        assert (two + [push]) + [CallCreates(id, accepted)] == ToolEvents(id, reach, answers, works, accepted);
        assert s.calls[id := NoBranch][id := Pushed][id := Answered] == s.calls[id := Answered];
      }
    }
  }

  lemma {:induction false} RunsOn(c: Config, s: System, es: seq<Event>, more: seq<Event>)
    requires Runs(c, s, es) && Runs(c, After(c, s, es), more)
    ensures Runs(c, s, es + more) && After(c, s, es + more) == After(c, After(c, s, es), more)
    decreases |es|
  {
    if es == [] {
      assert es + more == more;
    } else {
      RunsOn(c, Next(c, s, es[0]), es[1..], more);
      OneStep(c, s, es[0], es[1..] + more);
      assert es + more == [es[0]] + (es[1..] + more);
    }
  }

  /** A call that goes through whatever the look says, as long as git takes the push. */
  lemma {:induction false} CallLands(c: Config, s: System, id: CallId) returns (es: seq<Event>)
    requires id !in s.calls && Asked(c, s) && (!s.branch || s.merged)
    ensures
      Runs(c, s, es)
      && After(c, s, es)
        == s.(calls := s.calls[id := Answered], branch := true, merged := false, hasPr := true, prs := s.prs + 1)
  {
    es := ToolEvents(id, Landed, false, true, true);
    ToolEventsRun(c, s, id, false, false, true, true);
  }

  /** Why a merge counts: a branch that was merged and kept takes a second push when the look
      at it fails, and a second pull request comes of it, no branch having been deleted. */
  lemma {:induction false} KeptBranchTakesAnother(c: Config, s: System) returns (es: seq<Event>)
    requires Filed(c, s)
    ensures Runs(c, s, es) && After(c, s, es).prs == 2 && After(c, s, es).deletions == 0 && After(c, s, es).merges == 1
  {
    var add, merge := PeopleAdd(c.fixable), PeopleMergeBranch;
    assert Runs(c, Next(c, s, add), []);
    OneStep(c, s, add, []);
    es := [add] + [];
    var first := CallLands(c, After(c, s, es), 0);
    RunsOn(c, s, es, first);
    es := es + first;
    StepAfter(c, s, es, merge);
    es := es + [merge];
    var second := CallLands(c, After(c, s, es), 1);
    RunsOn(c, s, es, second);
    es := es + second;
  }

  /** The sidecar's side of GitHub: the issue it is asked about, its branch, whether trunk has
      it, its pull requests. */
  class Sidecar {
    const fixable: string
    var issue: Issue
    var branch: bool
    var merged: bool
    var prs: nat

    constructor (fixable: string, issue: Issue, branch: bool, merged: bool, prs: nat)
      ensures this.fixable == fixable && this.issue == issue
      ensures this.branch == branch && this.merged == merged && this.prs == prs
    {
      this.fixable := fixable;
      this.issue, this.branch, this.merged, this.prs := issue, branch, merged, prs;
    }

    /** This is the part of that system a call sees. */
    ghost predicate Shows(c: Config, s: System)
      reads this
    {
      c.fixable == fixable && s.issue == issue && s.branch == branch && s.merged == merged && s.prs == prs
    }

    /** `open_pull_request`, in the order it asks: the patch, the issue, the branch, the
        checkout, the push, the pull request. From every state of the system that shows it the
        same, it leaves what the steps of one call leave there. */
    method OpenPullRequest(refused: bool, answers: bool, applies: bool, pushes: bool, accepted: bool,
                           ghost c: Config, ghost s: System, ghost id: CallId) returns (ok: bool)
      requires Shows(c, s) && id !in s.calls
      modifies this`branch, this`merged, this`prs
      ensures
        var works := applies && pushes;
        var es := ToolEvents(id, CallReach(Asked(c, s), s.branch, s.merged, refused, answers, works), answers,
          works, accepted);
        && Runs(c, s, es) && Shows(c, After(c, s, es))
        && ok == (After(c, s, es).prs == s.prs + 1)
      ensures
        var pushed := && !refused && issue.open && Name(fixable) in issue.labels && !(old(branch) && answers)
                      && applies && pushes && (old(branch) ==> old(merged));
        && (ok <==> pushed && accepted)
        && branch == (old(branch) || pushed) && merged == (old(merged) && !pushed)
        && prs == old(prs) + (if ok then 1 else 0)
    {
      ToolEventsRun(c, s, id, refused, answers, applies && pushes, accepted);
      if refused { return false; }
      if !issue.open || Name(fixable) !in issue.labels { return false; }
      if branch && answers { return false; }
      if !applies { return false; }
      if !pushes || (branch && !merged) { return false; }
      branch, merged := true, false;
      if !accepted { return false; }
      prs := prs + 1;
      return true;
    }
  }
}

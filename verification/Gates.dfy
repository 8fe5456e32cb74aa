/** The review policy as one pure function of what was already read. */
module Gates {

  datatype Action = Review | Skip | Hold | CiNote | Budget | Failed | Ready

  /** A decision: what to do, whether the operator hears of it, whether it leaves a row. */
  datatype Decision = Decision(action: Action, dm: bool, record: bool, reason: string)

  /** One PR as the gates see it: its labels, how many files it changes, how many of our
      threads wait on the author, and the failing checks. */
  datatype Facts = Facts(labels: seq<string>, changedFiles: nat, openThreads: nat, red: seq<string>)

  /** A repository's labels: the brakes are the needs-work label and the hold labels. */
  datatype Rules = Rules(needsWork: string, hold: seq<string>, taken: seq<string>)

  function BrakeLabels(r: Rules): seq<string> {
    [r.needsWork] + r.hold
  }

  /** The first of `names` the PR carries. */
  function FirstCarried(names: seq<string>, labels: seq<string>): (r: seq<string>)
    ensures |r| <= 1
    ensures r == [] <==> forall n <- names :: n !in labels
    ensures r != [] ==> r[0] in names && r[0] in labels
  {
    if names == [] then [] else if names[0] in labels then [names[0]] else FirstCarried(names[1..], labels)
  }

  /** Gate 3 alone: silent and unrecorded. */
  function LabelHold(labels: seq<string>, r: Rules): seq<Decision> {
    var on := FirstCarried(BrakeLabels(r), labels);
    if on == [] then [] else [Decision(Hold, false, false, on[0] + " still on")]
  }

  function DoneLabel(labels: seq<string>, r: Rules): seq<string> {
    FirstCarried(r.taken, labels)
  }

  predicate Carries(labels: seq<string>, names: seq<string>) {
    exists name <- labels :: name in names
  }

  /** Gate 3 holds a PR that carries the needs-work label or a hold label; it says nothing to
      anyone and leaves no row. */
  lemma {:induction false} LabelHoldIff(labels: seq<string>, r: Rules)
    ensures LabelHold(labels, r) != [] <==> r.needsWork in labels || Carries(labels, r.hold)
    ensures LabelHold(labels, r) != [] ==>
              var d := LabelHold(labels, r)[0]; d.action == Hold && !d.dm && !d.record
  {
    var brakes := BrakeLabels(r);
    assert brakes[0] == r.needsWork && forall i :: 0 <= i < |r.hold| ==> brakes[i + 1] == r.hold[i];
    assert forall name :: name in brakes <==> name == r.needsWork || name in r.hold;
  }

  lemma {:induction false} DoneLabelIff(labels: seq<string>, r: Rules)
    ensures DoneLabel(labels, r) != [] <==> Carries(labels, r.taken)
  {
  }

  function Evaluate(f: Facts, r: Rules, shaJudged: bool): Decision {
    var held := LabelHold(f.labels, r);
    if held != [] then held[0]
    else if f.changedFiles == 0 then Decision(Hold, false, true, "changes no files")
    else if shaJudged then Decision(Hold, true, true, "nothing new pushed")
    else if f.openThreads > 0 then Decision(Hold, true, false, "comments unanswered")
    else if f.red != [] then Decision(CiNote, false, false, "ci red")
    else Decision(Review, false, true, "")
  }

  /** A PR is reviewed exactly when it carries no brake label, changes something, brings a
      commit nothing has judged, owes us no answer, and its build is not red. */
  lemma {:induction false} ReviewIff(f: Facts, r: Rules, shaJudged: bool)
    ensures Evaluate(f, r, shaJudged).action == Review
      <==> && (forall name <- f.labels :: name != r.needsWork && name !in r.hold)
           && f.changedFiles > 0 && !shaJudged && f.openThreads == 0 && f.red == []
  {
    if exists name <- f.labels :: name == r.needsWork || name in r.hold {
      var name :| name in f.labels && (name == r.needsWork || name in r.hold);
      assert BrakeLabels(r)[0] == r.needsWork;
      assert name in BrakeLabels(r);
    }
  }

  /** A hold leaves a row exactly when waiting cannot change it: an empty PR, or a
      re-request that brought no new commit. Everything else is looked at again. */
  lemma {:induction false} RecordedIff(f: Facts, r: Rules, shaJudged: bool)
    ensures
      var d := Evaluate(f, r, shaJudged);
      d.action == Hold && d.record <==> LabelHold(f.labels, r) == [] && (f.changedFiles == 0 || shaJudged)
  {
  }

  /** The operator hears of a hold exactly when it is about a person: a re-request with no
      new commit, or our comments left unanswered. A red build is the last thing asked. */
  lemma {:induction false} ToldIff(f: Facts, r: Rules, shaJudged: bool)
    ensures
      var d := Evaluate(f, r, shaJudged);
      var open := LabelHold(f.labels, r) == [] && f.changedFiles > 0;
      && (d.dm <==> open && (shaJudged || f.openThreads > 0))
      && (d.action == CiNote <==> open && !shaJudged && f.openThreads == 0 && f.red != [])
  {
  }
}

/** The daemon's loop: a tick that finished a review goes straight round. */
module Ticks {
  import opened Sets
  import opened Store
  import opened Lifecycle
  import opened Safety
  import G = Gates

  // ----- the loop ------------------------------------------------------------------------

  /** How a tick came back: its outcomes, or an exception. */
  datatype Tick = Outcomes(actions: seq<G.Action>) | Raised

  /** `_ticks` over the ticks that pass before the stop signal: after which of them does it
      sit out the interval? A raised tick counts no review. */
  method Loop(quiet: bool, ticks: seq<Tick>) returns (waits: seq<bool>)
    ensures |waits| == |ticks|
    ensures forall i :: 0 <= i < |ticks| ==> (waits[i] <==> quiet || ticks[i].Raised? || G.Review !in ticks[i].actions)
  {
    waits := [];
    while |waits| < |ticks|
      invariant |waits| <= |ticks|
      invariant forall i :: 0 <= i < |waits| ==>
        (waits[i] <==> quiet || ticks[i].Raised? || G.Review !in ticks[i].actions)
    {
      var tick := ticks[|waits|];
      var reviewed := 0;
      if tick.Outcomes? {
        for j := 0 to |tick.actions|
          invariant 0 <= reviewed && (reviewed > 0 <==> G.Review in tick.actions[..j])
        {
          assert tick.actions[..j + 1] == tick.actions[..j] + [tick.actions[j]];
          if tick.actions[j] == G.Review { reviewed := reviewed + 1; }
        }
        assert tick.actions[..|tick.actions|] == tick.actions;
      }
      if reviewed > 0 && !quiet {
        waits := waits + [false];
        continue;
      }
      waits := waits + [true];
    }
  }

  // ----- a round of the machine ----------------------------------------------------------------

  /** One tick from start to end: nothing in between starts another, fails it or restarts. */
  predicate IsRound(es: seq<Event>) {
    && |es| >= 2 && es[0].TickStarts? && es[|es| - 1].TickEnds?
    && forall i :: 0 < i < |es| - 1 ==> !es[i].TickStarts? && !es[i].TickFails? && !es[i].Restarts? && !es[i].TickEnds?
  }

  /** The keys whose PRs a round took from the queues. */
  function Taken(es: seq<Event>): set<Key> {
    set e | e in es && e.Arrives? :: e.k
  }

  predicate Within(m: Machine, keys: set<Key>) {
    forall id <- m.tasks :: id.ForPr? ==> m.tasks[id].k in keys
  }

  predicate Plain(es: seq<Event>) {
    forall e <- es :: !e.TickStarts? && !e.TickFails? && !e.Restarts?
  }

  lemma {:induction false} StepWithin(u: Setup, m: Machine, e: Event, keys: set<Key>)
    requires Enabled(u, m, e) && Within(m, keys) && (e.Arrives? ==> e.k in keys)
    ensures Within(Next(u, m, e), keys)
    ensures !e.TickStarts? ==> Next(u, m, e).base == m.base
  {
    if e.Moves? {
      WriteIsOwn(u, m.t, m.tasks[e.id], e.mv);
    }
  }

  lemma {:induction false} RunWithin(u: Setup, m: Machine, es: seq<Event>, keys: set<Key>)
    requires Runs(u, m, es) && Within(m, keys) && Plain(es)
    requires forall e <- es :: e.Arrives? ==> e.k in keys
    ensures Within(After(u, m, es), keys) && After(u, m, es).base == m.base
    decreases |es|
  {
    if es != [] {
      StepWithin(u, m, es[0], keys);
      RunWithin(u, Next(u, m, es[0]), es[1..], keys);
    }
  }

  /** The reviews a finished tick reports. */
  function Reviewed(m: Machine): set<Key> {
    set id | id in m.tasks && m.tasks[id] == Over(m.tasks[id].k, G.Review) :: m.tasks[id].k
  }

  lemma {:induction false} ReviewIsNew(u: Setup, m: Machine, k: Key)
    requires Inv(u, m) && u.mode == Real && k in Reviewed(m)
    ensures k in Judged(m.t) && k !in m.base
  {
    var id :| id in m.tasks && m.tasks[id] == Over(k, G.Review);
    assert EntryOk(u, m, id, m.tasks[id]);
  }

  /** A review that a real tick reports is of a key the tick took from a queue, unjudged when
      the tick began and judged when it ended. */
  lemma {:induction false} RoundJudges(u: Setup, m: Machine, es: seq<Event>, k: Key)
    requires Inv(u, m) && u.mode == Real && IsRound(es) && Runs(u, m, es) && k in Reviewed(After(u, m, es))
    ensures k in Taken(es) && k !in Judged(m.t) && k in Judged(After(u, m, es).t)
  {
    var n := After(u, m, es);
    InvHolds(u, m, es);
    ReviewIsNew(u, n, k);
    var first, rest := Next(u, m, es[0]), es[1..];
    assert Plain(rest);
    assert forall e <- rest :: e.Arrives? ==> e.k in Taken(es);
    RunWithin(u, first, rest, Taken(es));
    var id :| id in n.tasks && n.tasks[id] == Over(k, G.Review);
    assert EntryOk(u, n, id, n.tasks[id]);
  }

  // ----- rounds without a wait ---------------------------------------------------------------------

  /** Rounds of a real daemon, one straight after another: each but the last reported a
      review, or the loop would have waited; so did the last one here. */
  ghost predicate Straight(u: Setup, m: Machine, rs: seq<seq<Event>>)
    decreases |rs|
  {
    rs == []
    || (IsRound(rs[0]) && Runs(u, m, rs[0]) && Reviewed(After(u, m, rs[0])) != {}
        && Straight(u, After(u, m, rs[0]), rs[1..]))
  }

  ghost function AfterAll(u: Setup, m: Machine, rs: seq<seq<Event>>): Machine
    requires Straight(u, m, rs)
    decreases |rs|
  {
    if rs == [] then m else AfterAll(u, After(u, m, rs[0]), rs[1..])
  }

  function TakenAll(rs: seq<seq<Event>>): set<Key> {
    if rs == [] then {} else Taken(rs[0]) + TakenAll(rs[1..])
  }

  lemma NonEmptyKeys(s: set<Key>)
    ensures s != {} ==> exists x: Key :: x in s
  {
    if forall x: Key :: x !in s {
      assert s == {};
    }
  }

  /** A round's own key is not among those the later rounds judge. */
  lemma {:induction false} OneKeyMore(k: Key, first: set<Key>, later: set<Key>, was: set<Key>, mid: set<Key>,
                                      end: set<Key>)
    requires k in first && k !in was && k in mid && was <= mid <= end
    ensures |later * end - mid| + 1 <= |(first + later) * end - was|
  {
    DisjointSize(later * end - mid, {k});
    SubsetSize((later * end - mid) + {k}, (first + later) * end - was);
  }

  lemma {:induction false} StraightJudges(u: Setup, m: Machine, rs: seq<seq<Event>>)
    requires Inv(u, m) && u.mode == Real && Straight(u, m, rs)
    ensures Judged(m.t) <= Judged(AfterAll(u, m, rs).t)
    ensures |rs| <= |TakenAll(rs) * Judged(AfterAll(u, m, rs).t) - Judged(m.t)|
    decreases |rs|
  {
    if rs != [] {
      var x, end := After(u, m, rs[0]), AfterAll(u, m, rs);
      InvHolds(u, m, rs[0]);
      JudgedStaysOver(u, m, rs[0]);
      StraightJudges(u, x, rs[1..]);
      NonEmptyKeys(Reviewed(x));
      var k :| k in Reviewed(x);
      RoundJudges(u, m, rs[0], k);
      OneKeyMore(k, Taken(rs[0]), TakenAll(rs[1..]), Judged(m.t), Judged(x.t), Judged(end.t));
    }
  }

  lemma {:induction false} Split(first: set<Key>, later: set<Key>, judged: set<Key>)
    ensures |first + later - judged| == |first - judged| + |later - judged - first|
  {
    var a, b := first - judged, later - judged - first;
    assert first + later - judged == a + b;
    DisjointSize(a, b);
  }

  /** The loop cannot go straight round forever: consecutive rounds without a wait are at
      most the keys the queues showed in them that were unjudged at the start. */
  lemma {:induction false} RoundsAreBounded(u: Setup, m: Machine, rs: seq<seq<Event>>)
    requires AtRest(m) && u.mode == Real && Straight(u, m, rs)
    ensures |rs| <= |TakenAll(rs) - Judged(m.t)|
  {
    StraightJudges(u, m, rs);
    SubsetSize(TakenAll(rs) * Judged(AfterAll(u, m, rs).t) - Judged(m.t), TakenAll(rs) - Judged(m.t));
  }

  /** That is: the unjudged keys of the first round, and the keys that arrived meanwhile. */
  lemma {:induction false} RoundsUseUpKeys(u: Setup, m: Machine, first: seq<Event>, rs: seq<seq<Event>>)
    requires AtRest(m) && u.mode == Real && Straight(u, m, [first] + rs)
    ensures |rs| + 1 <= |Taken(first) - Judged(m.t)| + |TakenAll(rs) - Judged(m.t) - Taken(first)|
  {
    RoundsAreBounded(u, m, [first] + rs);
    assert ([first] + rs)[1..] == rs;
    Split(Taken(first), TakenAll(rs), Judged(m.t));
  }
}

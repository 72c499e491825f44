/** Every run ends, no rewind target is visited more often than its MaxVisits, and a rewind starts
    only when none is running and its target's snapshot is there. */
module Termination {
  import opened Basics
  import opened Pipelines
  import opened Flow
  import opened Runs
  import opened Invariant
  import opened Soundness
  import opened Iterations
  import opened RunTheorems
  import opened Rejection

  // ---- visits and rewinds ----

  /** No rewind target is visited more often than its MaxVisits. */
  lemma VisitsBounded(p: Pipeline, inputs: Values, run: seq<Config>, cs: seq<Choices>, k: nat, t: nat)
    requires Accepted(p) && IsRun(p, inputs, run, cs) && k < |run|
    requires t < |p.steps| && p.target[t]
    ensures |run[k].state.visits| == |p.steps| && run[k].state.visits[t] <= p.maxVisits[t]
  {
    var known := RunInvAll(p, inputs, run, cs, k);
  }

  /** A rewind is taken only with none running and when its target's snapshot is there, even when a
      skip passed over the target; the target then has a visit left. */
  lemma RewindStarts(p: Pipeline, inputs: Values, run: seq<Config>, cs: seq<Choices>, k: nat)
    requires Accepted(p) && IsRun(p, inputs, run, cs) && k < |cs|
    requires Takes(p, run[k], cs[k])
    ensures var e := Finish(p, run[k].state, run[k].at, cs[k]);
      var rule := e.rewind.value;
      && |e.mid.visits| == |p.maxVisits|
      && e.mid.rewind.None?
      && rule.from == run[k].at && 0 <= rule.to <= rule.from && rule.to in e.mid.before
      && !Exhausted(p, e.mid, rule)
  {
    var known := RunInvAll(p, inputs, run, cs, k);
    TakeFacts(p, known, run[k].state, run[k].at, cs[k]);
  }

  lemma TakeFacts(p: Pipeline, known: Known, s: FlowState, i: nat, c: Choices)
    requires Accepted(p) && KnownOk(p, known) && SafeExits(p, known.free) && Inv(p, known, s, i) && i < |p.steps|
    requires Finish(p, s, i, c).next.Goto? && Finish(p, s, i, c).rewind.Some?
    ensures var e := Finish(p, s, i, c);
      var rule := e.rewind.value;
      && |e.mid.visits| == |p.maxVisits|
      && e.mid.rewind.None?
      && rule in p.rules && rule.rewind
      && rule.from == i && 0 <= rule.to <= rule.from && rule.to in e.mid.before
      && !Exhausted(p, e.mid, rule)
  {
    FinishOk(p, known, s, i, c);
    EnterReady(p, known, s, i, c);
    hide KnownOk, SafeExits, Visited, Finish, SnapshotOk, PendingOk, AfterOk;
    var rule := Finish(p, s, i, c).rewind.value;
    var m :| 0 <= m < |p.rules| && p.rules[m] == rule;
    assert RuleOk(p.rules[m], |p.steps|);
    assert IsTarget(p.rules, rule.to);
  }

  /** While a rewind runs, the run is at or past its target; and an iteration past its From starts
      with none. */
  lemma RewindStaysInRange(p: Pipeline, inputs: Values, run: seq<Config>, cs: seq<Choices>, k: nat)
    requires Accepted(p) && IsRun(p, inputs, run, cs) && k < |run| && run[k].state.rewind.Some?
    ensures var rule := run[k].state.rewind.value.rule;
      && rule in p.rules && rule.rewind && rule.to <= run[k].at
      && (Arrive(run[k].state, run[k].at).rewind.Some? <==> run[k].at <= rule.from)
  {
    var known := RunInvAll(p, inputs, run, cs, k);
  }

  // ---- termination ----

  /** The visits the rewind targets before step k have left. */
  function VisitsLeft(p: Pipeline, visits: seq<nat>, k: nat): int
    requires k <= |visits| == |p.target| == |p.maxVisits|
  {
    if k == 0 then 0
    else VisitsLeft(p, visits, k - 1) + if p.target[k - 1] then p.maxVisits[k - 1] - visits[k - 1] else 0
  }

  /** A visit of a target leaves one fewer; a visit of any other step changes nothing. */
  lemma {:induction false} VisitsLeftUpdate(p: Pipeline, visits: seq<nat>, i: nat, k: nat)
    requires k <= |visits| == |p.target| == |p.maxVisits| && i < |visits|
    ensures VisitsLeft(p, visits[i := visits[i] + 1], k)
      == VisitsLeft(p, visits, k) - if i < k && p.target[i] then 1 else 0
  {
    if k > 0 {
      VisitsLeftUpdate(p, visits, i, k - 1);
    }
  }

  /** The visits left are not negative, and a target with a visit left counts. */
  lemma {:induction false} VisitsLeftBound(p: Pipeline, visits: seq<nat>, i: int, k: nat)
    requires k <= |visits| == |p.target| == |p.maxVisits|
    requires VisitsOk(p, visits, i)
    ensures VisitsLeft(p, visits, k) >= if 0 <= i < k && p.target[i] then 1 else 0
  {
    if k > 0 {
      VisitsLeftBound(p, visits, i, k - 1);
    }
  }

  /** The visits left, without the one the run is about to make. */
  function Spare(p: Pipeline, visits: seq<nat>, i: nat): int
    requires i <= |visits| == |p.target| == |p.maxVisits|
  {
    VisitsLeft(p, visits, |visits|) - if i < |visits| && p.target[i] then 1 else 0
  }

  /** What decreases with every iteration: the spare visits first, then the steps left. */
  function Measure(p: Pipeline, visits: seq<nat>, i: nat): int
    requires i <= |visits| == |p.target| == |p.maxVisits|
  {
    Spare(p, visits, i) * (|visits| + 1) + |visits| - i
  }

  lemma MeasureDecreases(n: nat, spare: int, i: nat, spare': int, i': nat)
    requires i <= n && i' <= n
    requires spare' < spare || (spare' == spare && i' > i)
    ensures spare' * (n + 1) + n - i' < spare * (n + 1) + n - i
  {
    if spare' < spare {
      assert spare' * (n + 1) <= (spare - 1) * (n + 1);
    }
  }

  lemma IterationDecreases(p: Pipeline, known: Known, a: Config, c: Choices, b: Config)
    requires Accepted(p) && KnownOk(p, known) && SafeExits(p, known.free) && Inv(p, known, a.state, a.at)
    requires Sized(p) && Steps(p, a, c, b)
    requires a.at <= |a.state.visits| == |p.steps|
    ensures b.at <= |b.state.visits| == |p.steps|
    ensures Measure(p, b.state.visits, b.at) < Measure(p, a.state.visits, a.at)
  {
    hide Accepted, KnownOk, SafeExits, Inv, Steps, Measure;
    IterationEffect(p, known, a, c, b);
    MeasureStep(p, a.state.visits, a.at, b.at);
  }

  lemma MeasureStep(p: Pipeline, visits: seq<nat>, i: nat, next: nat)
    requires i < |visits| == |p.target| == |p.maxVisits| && next <= |visits|
    requires next > i || (p.target[next] && (i != next ==> !p.target[i]))
    ensures Measure(p, visits[i := visits[i] + 1], next) < Measure(p, visits, i)
  {
    hide VisitsLeft;
    var after := visits[i := visits[i] + 1];
    VisitsLeftUpdate(p, visits, i, |visits|);
    MeasureDecreases(|visits|, Spare(p, visits, i), i, Spare(p, after, next), next);
  }

  /** An iteration counts one visit, and goes on or back to a rewind's target. */
  lemma IterationEffect(p: Pipeline, known: Known, a: Config, c: Choices, b: Config)
    requires Accepted(p) && KnownOk(p, known) && SafeExits(p, known.free) && Inv(p, known, a.state, a.at)
    requires Sized(p) && Steps(p, a, c, b)
    ensures a.at < |p.steps| == |a.state.visits| && b.at <= |p.steps|
    ensures b.state.visits == a.state.visits[a.at := a.state.visits[a.at] + 1]
    ensures b.at > a.at || (p.target[b.at] && (a.at != b.at ==> !p.target[a.at]))
  {
    hide Accepted, KnownOk, SafeExits, Inv, Finish, StartRewind, SnapshotSkipped;
    FinishEffect(p, known, a.state, a.at, c);
    IterateVisits(p, a.state, a.at, c);
  }

  /** Starting a rewind and taking snapshots visits nothing. */
  lemma IterateVisits(p: Pipeline, s: FlowState, i: nat, c: Choices)
    requires Sized(p) && Fits(p, s) && i < |p.steps|
    ensures var e := Finish(p, s, i, c);
      e.next.Goto? ==> Iterate(p, s, i, c).0.visits == e.mid.visits
  {
    hide Finish, StartRewind;
    var e := Finish(p, s, i, c);
    if e.next.Goto? && e.rewind.Some? {
      StartVisits(p, e.mid, e.rewind.value, e.amended);
      SnapshotSkippedKeeps(p, StartRewind(p, e.mid, e.rewind.value, e.amended), i + 1, Min(e.next.index, |p.steps|));
    } else if e.next.Goto? {
      SnapshotSkippedKeeps(p, e.mid, i + 1, Min(e.next.index, |p.steps|));
    }
  }

  lemma StartVisits(p: Pipeline, s: FlowState, rule: Rule, amended: Option<Values>)
    ensures StartRewind(p, s, rule, amended).visits == s.visits
  {
  }

  lemma FinishEffect(p: Pipeline, known: Known, s: FlowState, i: nat, c: Choices)
    requires Accepted(p) && KnownOk(p, known) && SafeExits(p, known.free) && Inv(p, known, s, i) && i < |p.steps|
    ensures var e := Finish(p, s, i, c);
      && e.mid.visits == s.visits[i := s.visits[i] + 1]
      && (e.next.Goto? ==> 0 <= e.next.index <= |p.steps|)
      && (e.next.Goto? ==> e.next.index > i || (p.target[e.next.index] && (i != e.next.index ==> !p.target[i])))
  {
    FinishOk(p, known, s, i, c);
    EnterReady(p, known, s, i, c);
    var e := Finish(p, s, i, c);
    if e.next.Goto? && e.rewind.Some? {
      TakeFacts(p, known, s, i, c);
      TargetsOf(p, e.rewind.value);
    }
  }

  /** A rewind's target is the only one in its range. */
  lemma TargetsOf(p: Pipeline, rule: Rule)
    requires Accepted(p) && rule in p.rules && rule.rewind && 0 <= rule.to <= rule.from < |p.steps|
    ensures p.target[rule.to] && (rule.from != rule.to ==> !p.target[rule.from])
  {
    var m :| 0 <= m < |p.rules| && p.rules[m] == rule;
    assert IsTarget(p.rules, rule.to);
    if p.target[rule.from] {
      TargetInRange(p, rule, rule.from);
    }
  }

  lemma MeasureNonNegative(p: Pipeline, known: Known, a: Config)
    requires Inv(p, known, a.state, a.at)
    ensures a.at <= |a.state.visits| == |p.steps|
    ensures Measure(p, a.state.visits, a.at) >= 0
  {
    VisitsLeftBound(p, a.state.visits, a.at, |p.steps|);
  }

  /** A run that has not ended has at most as many iterations as the measure of its start: every
      run ends, whatever its steps and hooks choose. */
  lemma {:induction false} RunIsBounded(p: Pipeline, inputs: Values, run: seq<Config>, cs: seq<Choices>, k: nat)
    requires Accepted(p) && IsRun(p, inputs, run, cs) && k < |run|
    ensures run[k].at <= |run[k].state.visits| == |p.steps|
    ensures run[0].at == 0 && |run[0].state.visits| == |p.steps|
    ensures 0 <= Measure(p, run[k].state.visits, run[k].at) <= Measure(p, run[0].state.visits, 0) - k
  {
    hide Accepted, Steps, Starts, Measure, Sized, InputsOk;
    if k == 0 {
      BoundHolds(p, inputs, run, cs, k);
      StartsAtZero(p, inputs, run[0]);
    } else {
      RunIsBounded(p, inputs, run, cs, k - 1);
      BoundHolds(p, inputs, run, cs, k);
      BoundStep(p, inputs, run, cs, k - 1);
    }
  }

  lemma StartsAtZero(p: Pipeline, inputs: Values, a: Config)
    requires Starts(p, inputs, a)
    ensures a.at == 0
  {
  }

  lemma BoundHolds(p: Pipeline, inputs: Values, run: seq<Config>, cs: seq<Choices>, k: nat)
    requires Accepted(p) && IsRun(p, inputs, run, cs) && k < |run|
    ensures run[k].at <= |run[k].state.visits| == |p.steps|
    ensures Measure(p, run[k].state.visits, run[k].at) >= 0
  {
    var known := RunInvAll(p, inputs, run, cs, k);
    MeasureNonNegative(p, known, run[k]);
  }

  lemma BoundStep(p: Pipeline, inputs: Values, run: seq<Config>, cs: seq<Choices>, k: nat)
    requires Accepted(p) && IsRun(p, inputs, run, cs) && k < |cs|
    requires run[k].at <= |run[k].state.visits| == |p.steps|
    ensures run[k + 1].at <= |run[k + 1].state.visits| == |p.steps|
    ensures Measure(p, run[k + 1].state.visits, run[k + 1].at) < Measure(p, run[k].state.visits, run[k].at)
  {
    hide KnownOk, SafeExits, Inv, Steps, Starts, Measure;
    var known := RunInvAll(p, inputs, run, cs, k);
    assert Steps(p, run[k], cs[k], run[k + 1]);
    IterationDecreases(p, known, run[k], cs[k], run[k + 1]);
  }

  /** The rewind a run is in is from one of its steps. */
  lemma RangeHolds(p: Pipeline, inputs: Values, run: seq<Config>, cs: seq<Choices>, k: nat)
    requires Accepted(p) && IsRun(p, inputs, run, cs) && k < |run|
    ensures Fits(p, run[k].state)
  {
    var known := RunInvAll(p, inputs, run, cs, k);
  }

  /** An iteration of a run goes to one of its steps or past the last. */
  lemma NextInRange(p: Pipeline, inputs: Values, run: seq<Config>, cs: seq<Choices>, c: Choices)
    requires Accepted(p) && IsRun(p, inputs, run, cs)
    requires Fits(p, run[|cs|].state) && run[|cs|].at < |p.steps|
    ensures var next := Iterate(p, run[|cs|].state, run[|cs|].at, c).1;
      next.Goto? ==> 0 <= next.index <= |p.steps|
  {
    var known := RunInvAll(p, inputs, run, cs, |cs|);
    FinishEffect(p, known, run[|cs|].state, run[|cs|].at, c);
  }
}

/** Every step the tables call reachable is one some run comes to, and every hazard they call reachable one that
    makes some run fail the merge guard. */
module HazardRuns {
  import opened Basics
  import opened Pipelines
  import opened Flow
  import opened Runs
  import opened Invariant
  import opened Soundness
  import opened Iterations
  import opened RunTheorems
  import opened Leftovers
  import opened Reachability
  import opened Steering
  import opened Realizations

  // ---- rewinds undone ----

  /** A visit Accept rejects takes the k-th rule. */
  lemma RejectsBy(p: Pipeline, s: FlowState, i: nat, view: View, committed: Values, k: nat)
    requires i < |p.steps| == |p.success| == |p.maxVisits| == |s.visits| && k <= |p.success[i]|
    requires EndsRewind(s, i) && s.rewind.value.rule.hasAccept
    requires OpenUpTo(p.success[i], k) && (k < |p.success[i]| ==> !p.success[i][k].rewind)
    ensures var c := Steered(p.steps[i], false, Goal(p.success[i], k), No, No);
      var v := Decide(p, s, i, view, AllWrites(p.steps[i]), committed, map[], c);
      v.err == [] && v.rule == Goal(p.success[i], k) && v.rejected
  {
    var node := p.steps[i];
    var c := Steered(node, false, Goal(p.success[i], k), No, No);
    forall values ensures var r := Choose(p, s, p.success[i], 0, true, values, c); r.Chosen? && r.rule == Goal(p.success[i], k) {
      ChooseSteered(p, s, p.success[i], 0, k, true, values, node, false, No, No);
    }
    assert c.accept(s.rewind.value.prev.values, KeyValues(s.values + committed, RewindKeys(p, s.rewind.value.rule))) == No;
    hide Choose, RestoreValues, AllWrites, RewindKeys;
  }

  /** A rejected visit goes on from the state before the rewind. */
  lemma RejectedEnds(p: Pipeline, s: FlowState, i: nat, v: StepVisit, k: nat)
    requires TablesOk(p) && i < |p.steps| == |s.visits| && k <= |p.success[i]|
    requires v.err == [] && v.rule == Goal(p.success[i], k) && v.rejected && EndsRewind(s, i)
    requires k < |p.success[i]| ==> Forward(p.success[i][k])
    ensures var e := Flow.Succeeded(p, s, i, v);
      e.next == Goto(NextBy(p.success[i], k, i, |p.steps|)) && e.next.index >= 0 && e.rewind.None?
  {
    if k < |p.success[i]| {
      RuleFacts(p, i, false, k);
    }
    hide RejectRewind, StepFailed, EndRewind, Commit, TablesOk;
  }

  /** A rewind that has come back to its From may be rejected there, and the run goes on by any rule that is no
      rewind and not closed off. */
  lemma RejectMove(p: Pipeline, inputs: Values, a: Config, rule: Rule, k: nat) returns (b: Config)
    requires Accepted(p) && Reached(p, inputs, a) && Sized(p) && Fits(p, a.state) && a.at < |p.steps|
    requires Back(p, a, rule) && rule.hasAccept && k <= |p.success[a.at]| && OpenUpTo(p.success[a.at], k)
    requires k < |p.success[a.at]| ==> Forward(p.success[a.at][k])
    ensures Guarded(p, inputs) || (Reached(p, inputs, b) && b.at == NextBy(p.success[a.at], k, a.at, |p.steps|))
  {
    assert TablesOk(p);
    var goal := Goal(p.success[a.at], k);
    var c := Steered(p.steps[a.at], false, goal, No, No);
    var committed := Sets(p, a, goal, No);
    Entered(p, a, c);
    var (s, v) := Visited(p, a.state, a.at, c);
    b := a;
    if !GuardAt(p, a, c) {
      hide Accepted, Reached, TablesOk, Visited, Decide, OpenUpTo, Steered, AllWrites, GuardAt, Enter, Arrive, HoldsAll;
      RejectsBy(p, s, a.at, AmendedView(Arrive(a.state, a.at), a.at), committed, k);
      RejectedEnds(p, s, a.at, v, k);
      hide Flow.Succeeded;
      b := GoesOn(p, inputs, a, c);
    }
  }

  /** The choices that fail the step and ask RestoreOnError have it restore. */
  lemma RestoreBy(p: Pipeline, a: Config, j: nat, restored: Option<Rule>) returns (c: Choices, s: FlowState, v: StepVisit)
    requires Sized(p) && Fits(p, a.state) && a.at < |p.steps|
    requires Now(a).Some? && Now(a).value.rule.hasRestore
    requires AskedAt(p, Enter(p, Arrive(a.state, a.at), a.at), p.failure[a.at], j, p.fallback[a.at])
    ensures c == SteeredBack(p.steps[a.at], AskGoal(p.failure[a.at], j, p.fallback[a.at]), restored)
    ensures s == Enter(p, Arrive(a.state, a.at), a.at) && s.rewind.Some? && s.rewind.value.rule == Now(a).value.rule
    ensures Finish(p, a.state, a.at, c) == RestoreFailed(p, s, a.at, v, c)
  {
    var i := a.at;
    var goal := AskGoal(p.failure[i], j, p.fallback[i]);
    c := SteeredBack(p.steps[i], goal, restored);
    Entered(p, a, c);
    s := Visited(p, a.state, i, c).0;
    var view := AmendedView(Arrive(a.state, i), i);
    v := VisitAt(p, a, c);
    assert v == FailedVisit(view, [StepFailure(Unclassified)]);
    var seen := KeyValues(Resolve(view, s), Names(p.steps[i].readKeys));
    RestoreSteered(p, s, i, v.err, seen, 0, j, false, v.err, [], p.steps[i], restored);
    assert Finish(p, a.state, i, c) == FailedStep(p, s, i, v, c);
    hide Visited, EvalFailure, Enter, Arrive, AskedAt, EndRewind, RejectRewind, RestoreFailed, StepFailed, Finish;
    assert DecideFailure(p, s, i, v, c) == EvalFailure(p, s, i, v.err, seen, c, 0, true, false, v.err, []);
  }

  /** RestoreOnError, asked and saying yes, takes the run past From. */
  lemma RestoreMove(p: Pipeline, inputs: Values, a: Config, j: nat, k: nat) returns (b: Config)
    requires Accepted(p) && Reached(p, inputs, a) && Sized(p) && Fits(p, a.state) && a.at < |p.steps|
    requires Now(a).Some? && Now(a).value.rule.hasRestore && 0 <= Now(a).value.rule.from < |p.steps|
    requires AskedAt(p, Enter(p, Arrive(a.state, a.at), a.at), p.failure[a.at], j, p.fallback[a.at])
    requires var list := p.success[Now(a).value.rule.from];
      k <= |list| && OpenUpTo(list, k) && (k < |list| ==> Forward(list[k]))
    ensures var from := Now(a).value.rule.from; Reached(p, inputs, b) && b.at == NextBy(p.success[from], k, from, |p.steps|)
  {
    assert TablesOk(p);
    var from := Now(a).value.rule.from;
    if k < |p.success[from]| {
      RuleFacts(p, from, false, k);
    }
    hide Accepted, Reached, TablesOk, Enter, Arrive, AskedAt, RestoreFailed, Finish, OpenUpTo, SteeredBack, AskGoal;
    var c, s, v := RestoreBy(p, a, j, Goal(p.success[from], k));
    RestoredGoes(p, s, a.at, v, p.steps[a.at], AskGoal(p.failure[a.at], j, p.fallback[a.at]), k);
    b := GoesOn(p, inputs, a, c);
  }

  lemma RestoredGoes(p: Pipeline, s: FlowState, i: nat, v: StepVisit, node: StepNode, goal: Option<Rule>, k: nat)
    requires i < |p.steps| == |p.success| && s.rewind.Some? && s.rewind.value.rule.from < |p.steps|
    requires var list := p.success[s.rewind.value.rule.from];
      k <= |list| && OpenUpTo(list, k) && (k < |list| ==> Forward(list[k]) && FAIL <= list[k].to)
    ensures var from := s.rewind.value.rule.from;
      var e := RestoreFailed(p, s, i, v, SteeredBack(node, goal, Goal(p.success[from], k)));
      e.next == Goto(NextBy(p.success[from], k, from, |p.steps|)) && e.next.index >= 0 && e.rewind.None?
  {
    var from := s.rewind.value.rule.from;
    var mid := RejectRewind(p, s);
    hide RejectRewind, StepFailed, OpenUpTo;
    RestoredSteered(p.success[from], 0, k, KeyValues(mid.values, Names(p.steps[from].readKeys) + Names(p.steps[from].writeKeys)), node, goal);
    hide ChooseRestored;
  }

  // ---- failing undone ----

  /** In b no rewind runs, and each key step i writes holds a write. */
  ghost predicate LeftHeld(p: Pipeline, i: nat, b: Config) {
    b.state.rewind.None? && forall key :: Writes(p.steps, i, key) ==> Holds(b.state, key)
  }

  lemma AcceptFails(p: Pipeline, s: FlowState, i: nat, view: View, committed: Values, goal: Option<Rule>)
    requires i < |p.steps| == |p.success| == |p.maxVisits| == |s.visits|
    requires EndsRewind(s, i) && s.rewind.value.rule.hasAccept
    ensures var v := Decide(p, s, i, view, AllWrites(p.steps[i]), committed, map[], Steered(p.steps[i], false, goal, Panics, No));
      v == FailedVisit(view, [HookFailure(s.rewind.value.rule.index, Unclassified)]).(acceptFailed := true)
  {
    var c := Steered(p.steps[i], false, goal, Panics, No);
    assert c.accept(s.rewind.value.prev.values, KeyValues(s.values + committed, RewindKeys(p, s.rewind.value.rule))) == Panics;
    hide Choose, RestoreValues, AllWrites, RewindKeys;
  }

  /** A visit whose Accept fails takes the k-th rule on failure, from the state before the rewind. */
  lemma UndoneTakes(p: Pipeline, s: FlowState, i: nat, v: StepVisit, k: nat)
    requires Sized(p) && Fits(p, s) && i < |p.steps| && k < |p.failure[i]| && Passable(p, s, p.failure[i], k)
    requires FailsUndone(s, i, v) && v.acceptFailed && !v.maxed && Forward(p.failure[i][k])
    ensures var rule := p.failure[i][k];
      var e := FailedStep(p, s, i, v, Steered(p.steps[i], false, Some(rule), Panics, No));
      e.mid == RejectRewind(p, s) && e.next == Goto(Dest(rule, |p.steps|)) && e.rewind.None?
  {
    var rule := p.failure[i][k];
    var c := Steered(p.steps[i], false, Some(rule), Panics, No);
    var mid := RejectRewind(p, s);
    assert mid.visits == s.visits && mid.rewind.None?;
    assert Passable(p, mid, p.failure[i], k);
    var seen := KeyValues(Resolve(v.view, mid), Names(p.steps[i].readKeys));
    FailureSteered(p, mid, i, v.err, seen, 0, k, false, false, v.err, [], p.steps[i], false, Panics);
    hide EvalFailure, RejectRewind, RestoreFailed, StepFailed, Passable, EndRewind;
    assert DecideFailure(p, s, i, v, c) == EvalFailure(p, mid, i, v.err, seen, c, 0, false, false, v.err, []);
  }

  /** A rewind that has come back to its From may fail undone there, and leaves what From had written. */
  lemma UndoneMove(p: Pipeline, inputs: Values, a: Config, rule: Rule, k: nat) returns (b: Config)
    requires Accepted(p) && Reached(p, inputs, a) && Sized(p) && Fits(p, a.state) && a.at < |p.steps|
    requires Back(p, a, rule) && rule.hasAccept && k < |p.failure[a.at]| && MayPass(p, a, k) && Forward(p.failure[a.at][k])
    ensures Guarded(p, inputs)
      || (Reached(p, inputs, b) && b.at == Dest(p.failure[a.at][k], |p.steps|) && LeftHeld(p, a.at, b))
  {
    assert TablesOk(p);
    RuleFacts(p, a.at, true, k);
    ReachedFacts(p, inputs, a);
    AcceptNotOnError(p, rule);
    var goal := Some(p.failure[a.at][k]);
    var c := Steered(p.steps[a.at], false, goal, Panics, No);
    var committed := Sets(p, a, goal, Panics);
    Entered(p, a, c);
    var (s, v) := Visited(p, a.state, a.at, c);
    b := a;
    if !GuardAt(p, a, c) {
      hide Accepted, Reached, TablesOk, Visited, Decide, Steered, AllWrites, GuardAt, Enter, Arrive, HoldsAll, Passable, LeftHeld;
      AcceptFails(p, s, a.at, AmendedView(Arrive(a.state, a.at), a.at), committed, goal);
      UndoneTakes(p, s, a.at, v, k);
      hide FailedStep, RejectRewind, FailsUndone;
      b := GoesOn(p, inputs, a, c);
      RejectHolds(p, s, rule, b);
    }
  }

  lemma RejectHolds(p: Pipeline, s: FlowState, rule: Rule, b: Config)
    requires TablesOk(p) && rule in p.rules && rule.rewind && rule.to <= rule.from
    requires s.rewind.Some? && s.rewind.value.rule == rule && HoldsAll(p, rule.from, s.rewind.value.prev)
    requires b.state == RejectRewind(p, s).(before := b.state.before)
    ensures LeftHeld(p, rule.from, b)
  {
    hide TablesOk;
    forall key | Writes(p.steps, rule.from, key) ensures Holds(b.state, key) {
      KeysOfRange(p, rule, key);
      assert WrittenIn(p.steps, SpanOf(rule), key);
    }
  }

  /** A step that writes a key without a MergeRule that holds a write fails the guard. */
  lemma HeldGuarded(p: Pipeline, inputs: Values, a: Config, key: Name)
    requires Accepted(p) && Reached(p, inputs, a) && Sized(p) && Fits(p, a.state) && a.at < |p.steps|
    requires Holds(a.state, key) && key !in p.merges && Writes(p.steps, a.at, key)
    ensures Guarded(p, inputs)
  {
    var committed := Sets(p, a, None, Yes);
    var m :| 0 <= m < |p.steps[a.at].writeKeys| && p.steps[a.at].writeKeys[m].name == key;
  }
}

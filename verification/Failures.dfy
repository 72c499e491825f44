/** Where a failure leads, and what a run that fails returns. */
module Failures {
  import opened Basics
  import opened Pipelines
  import opened Flow
  import opened Runs
  import opened Invariant
  import opened RunTheorems
  import opened Rejection
  import opened Realizations
  import opened Effects
  import opened Hooks

  /** The error of a run that fails: the step, its error, and what of the keys the step reads values hold. */
  ghost predicate FailsWith(p: Pipeline, next: Next, step: nat, err: Error, values: Values)
    requires step < |p.steps|
  {
    next.Failed? && next.failure.step == step && next.failure.err == err && PartOf(values, ReadNames(p, step), next.failure.readValues)
  }

  lemma StepFails(p: Pipeline, i: nat, err: Error, values: Values)
    requires i < |p.steps|
    ensures FailsWith(p, Failed(StepFailed(p, i, err, values)), i, err, values)
  {
  }

  /** The k-th rule of list, or none, is the first that is no rewind and matches what a rejection restored. */
  predicate FirstRestored(list: seq<Rule>, k: nat, c: Choices, seen: Values) {
    && k <= |list|
    && (forall j :: 0 <= j < k ==> list[j].rewind || Answers(list[j], c.whenRestored(list[j], seen), false))
    && (k < |list| ==> !list[k].rewind && Answers(list[k], c.whenRestored(list[k], seen), true))
  }

  /** And the When of the k-th fails. */
  predicate RestoredPanics(list: seq<Rule>, k: nat, c: Choices, seen: Values) {
    && k < |list|
    && (forall j :: 0 <= j < k ==> list[j].rewind || Answers(list[j], c.whenRestored(list[j], seen), false))
    && !list[k].rewind && list[k].hasWhen && c.whenRestored(list[k], seen) == Panics
  }

  lemma {:induction false} RestoresFirst(list: seq<Rule>, j: nat, seen: Values, c: Choices) returns (k: nat)
    requires j <= |list| && forall l :: 0 <= l < j ==> list[l].rewind || Answers(list[l], c.whenRestored(list[l], seen), false)
    ensures match ChooseRestored(list, j, seen, c)
      case Chosen(rule, amended) => FirstRestored(list, k, c, seen) && rule == if k < |list| then Some(list[k]) else None
      case ChoiceFails(err, maxed) => RestoredPanics(list, k, c, seen) && err == [HookFailure(list[k].index, Unclassified)]
    decreases |list| - j
  {
    k := j;
    if j < |list| && (list[j].rewind || CallWhen(list[j], c.whenRestored(list[j], seen)) == No) {
      k := RestoresFirst(list, j + 1, seen, c);
    }
  }

  /** Where the run goes from step i by rule, or the error it fails with. */
  ghost predicate GoesBy(p: Pipeline, i: nat, rule: Option<Rule>, after: Error, values: Values, next: Next)
    requires i < |p.steps|
  {
    match NextAfter(p, i, rule)
    case Some(to) => next == Goto(to)
    case None => FailsWith(p, next, i, [ToFail(rule.value.index)] + after, values)
  }

  /** Restoring ends the rewind in what the rejection restored, and goes on past From by the first transition on
      success that is no rewind and matches that, unless a When fails. */
  ghost predicate Restores(p: Pipeline, from: nat, i: nat, c: Choices, restored: Values, sees: Values, err: Error, next: Next)
    requires from < |p.steps| == |p.success| && i < |p.steps|
  {
    exists k: nat, seen :: PartOf(restored, StepKeys(p, from), seen) && RestoresBy(p, from, i, c, k, seen, restored, sees, err, next)
  }

  ghost predicate RestoresBy(p: Pipeline, from: nat, i: nat, c: Choices, k: nat, seen: Values, restored: Values, sees: Values, err: Error, next: Next)
    requires from < |p.steps| == |p.success| && i < |p.steps|
  {
    var list := p.success[from];
    if FirstRestored(list, k, c, seen) then GoesBy(p, from, if k < |list| then Some(list[k]) else None, [], restored, next)
    else RestoredPanics(list, k, c, seen) && FailsWith(p, next, i, err + [HookFailure(list[k].index, Unclassified)], sees)
  }

  /** What the failure of a visit leads to once its transitions on failure have been evaluated, unless the run's context
      has ended. */
  ghost predicate Leads(p: Pipeline, a: Config, c: Choices, err: Error, sees: Values, d: Decision, next: Next)
    requires Sized(p) && Fits(p, a.state) && a.at < |p.steps|
  {
    match d
    case Stop(e, _) => FailsWith(p, next, a.at, e, sees)
    case Take(rule, _, e, _) => GoesBy(p, a.at, Some(rule), e, sees, next)
    case RestorePanics(_) => Now(a).Some? && FailsWith(p, next, a.at, err + [HookFailure(Now(a).value.rule.index, Unclassified)], sees)
    case GoRestore(_) =>
      && Now(a).Some? && Now(a).value.rule.from < |p.steps|
      && Restores(p, Now(a).value.rule.from, a.at, c, MidOf(p, a, c).values, sees, err, next)
  }

  /** Where a failure leads. A visit that fails once the run's context has ended fails the run with its own error. Else
      the transition on failure taken says where the run goes; with none taken it fails with the error they were asked
      about; and when RestoreOnError says yes it goes on past From. */
  lemma FailureLeads(p: Pipeline, a: Config, c: Choices)
    requires Accepted(p) && Sized(p) && Fits(p, a.state) && a.at < |p.steps| && VisitAt(p, a, c).err != []
    ensures var (s, v) := Visited(p, a.state, a.at, c);
      var next := Iterate(p, a.state, a.at, c).1;
      if c.ended then FailsWith(p, next, a.at, v.err, Sees(a))
      else Leads(p, a, c, v.err, Sees(a), DecideFailure(p, s, a.at, v, c), next)
  {
    hide Accepted, Visited, FailedStep, DecideFailure, Leads, FailsWith, Enter, Arrive, AmendedView, Iterate;
    var (s, v) := Visited(p, a.state, a.at, c);
    IteratesTo(p, a, c);
    ViewHolds(p, a, c);
    KeepsView(p, a, c);
    ExecutedIn(p, a, c);
    StepLeads(p, s, a.at, v, c);
    if !c.ended {
      SameLeads(p, a, c, s, v.err, Sees(a), DecideFailure(p, s, a.at, v, c));
    }
  }

  /** The same of the state the step is executed in. */
  ghost predicate LeadsIn(p: Pipeline, s: FlowState, i: nat, c: Choices, err: Error, sees: Values, d: Decision, restored: Values, next: Next)
    requires Sized(p) && Fits(p, s) && i < |p.steps|
  {
    match d
    case Stop(e, _) => FailsWith(p, next, i, e, sees)
    case Take(rule, _, e, _) => GoesBy(p, i, Some(rule), e, sees, next)
    case RestorePanics(_) => s.rewind.Some? && FailsWith(p, next, i, err + [HookFailure(s.rewind.value.rule.index, Unclassified)], sees)
    case GoRestore(_) => s.rewind.Some? && Restores(p, s.rewind.value.rule.from, i, c, restored, sees, err, next)
  }

  lemma SameLeads(p: Pipeline, a: Config, c: Choices, s: FlowState, err: Error, sees: Values, d: Decision)
    requires Sized(p) && Fits(p, a.state) && a.at < |p.steps| && Fits(p, s) && SameRewind(Now(a), s.rewind)
    ensures var e := Finish(p, a.state, a.at, c);
      LeadsIn(p, s, a.at, c, err, sees, d, e.mid.values, e.next) ==> Leads(p, a, c, err, sees, d, e.next)
  {
    hide FailsWith, GoesBy, Restores, Finish, Arrive;
  }

  lemma StepLeads(p: Pipeline, s: FlowState, i: nat, v: StepVisit, c: Choices)
    requires Sized(p) && Fits(p, s) && i < |p.steps|
    ensures var e, sees := FailedStep(p, s, i, v, c), Resolve(v.view, s);
      if c.ended then FailsWith(p, e.next, i, v.err, sees)
      else LeadsIn(p, s, i, c, v.err, sees, DecideFailure(p, s, i, v, c), e.mid.values, e.next)
  {
    hide DecideFailure, RestoreFailed, RejectRewind, FailsWith, Restores, EndRewind, StepFailed;
    var sees := Resolve(v.view, s);
    var d := DecideFailure(p, s, i, v, c);
    StepFails(p, i, v.err, sees);
    match d
    case Stop(e, _) => StepFails(p, i, e, sees);
    case RestorePanics(_) => StepFails(p, i, v.err + [HookFailure(s.rewind.value.rule.index, Unclassified)], sees);
    case Take(rule, _, e, _) => StepFails(p, i, [ToFail(rule.index)] + e, sees);
    case GoRestore(_) => RestoreLeads(p, s, i, v, c);
  }

  lemma RestoreLeads(p: Pipeline, s: FlowState, i: nat, v: StepVisit, c: Choices)
    requires Sized(p) && Fits(p, s) && i < |p.steps| && s.rewind.Some?
    ensures var e := RestoreFailed(p, s, i, v, c);
      Restores(p, s.rewind.value.rule.from, i, c, e.mid.values, Resolve(v.view, s), v.err, e.next)
  {
    hide RejectRewind, KeyValues, FailsWith, PartOf, StepKeys, ChooseRestored, FirstRestored, RestoredPanics, StepFailed;
    var from, mid := s.rewind.value.rule.from, RejectRewind(p, s);
    var seen := KeyValues(mid.values, Names(p.steps[from].readKeys) + Names(p.steps[from].writeKeys));
    PartKeys(p, from, mid.values);
    var k := RestoresFirst(p.success[from], 0, seen, c);
    NotBoth(p.success[from], k, c, seen);
    var next, sees := RestoreFailed(p, s, i, v, c).next, Resolve(v.view, s);
    var r := ChooseRestored(p.success[from], 0, seen, c);
    if r.ChoiceFails? {
      StepFails(p, i, v.err + r.err, sees);
    } else if r.rule.Some? {
      StepFails(p, from, [ToFail(r.rule.value.index)], mid.values);
      assert [ToFail(r.rule.value.index)] + [] == [ToFail(r.rule.value.index)];
    }
    assert RestoresBy(p, from, i, c, k, seen, mid.values, sees, v.err, next);
  }

  lemma NotBoth(list: seq<Rule>, k: nat, c: Choices, seen: Values)
    ensures !(FirstRestored(list, k, c, seen) && RestoredPanics(list, k, c, seen))
  {
  }

  /** A run that a successful visit fails, by a transition to Fail, returns that. */
  lemma SuccessFails(p: Pipeline, a: Config, c: Choices)
    requires Accepted(p) && Sized(p) && Fits(p, a.state) && a.at < |p.steps| && VisitAt(p, a, c).err == []
    requires Iterate(p, a.state, a.at, c).1.Failed?
    ensures var v := VisitAt(p, a, c);
      && v.rule.Some? && v.rule.value.to == FAIL
      && FailsWith(p, Iterate(p, a.state, a.at, c).1, a.at, [ToFail(v.rule.value.index)], Sees(a))
  {
    hide Accepted, Visited, Flow.Succeeded, FailsWith, Enter, Arrive, AmendedView, Iterate;
    var (s, v) := Visited(p, a.state, a.at, c);
    IteratesTo(p, a, c);
    ViewHolds(p, a, c);
    KeepsView(p, a, c);
    SuccessEnds(p, s, a.at, v);
  }

  lemma SuccessEnds(p: Pipeline, s: FlowState, i: nat, v: StepVisit)
    requires i < |p.steps| && Flow.Succeeded(p, s, i, v).next.Failed?
    ensures v.rule.Some? && v.rule.value.to == FAIL
    ensures FailsWith(p, Flow.Succeeded(p, s, i, v).next, i, [ToFail(v.rule.value.index)], Resolve(v.view, s))
  {
    hide RejectRewind, EndRewind, Commit, StepFailed, FailsWith;
    StepFails(p, i, [ToFail(v.rule.value.index)], Resolve(v.view, s));
  }

  // ---- why a visit fails ----

  /** The j-th key of the step is the first that does not merge, with what that comes to. */
  predicate MergeStops(p: Pipeline, s: FlowState, node: StepNode, writes: Values, c: Choices, j: nat, err: Error) {
    && j < |node.writeKeys| && !MayMerge(p, s, node.writeKeys[j], writes, c)
    && (forall i :: 0 <= i < j ==> MayMerge(p, s, node.writeKeys[i], writes, c))
    && var key := node.writeKeys[j].name;
       if key !in p.merges then err == [HoldsWrite(key)]
       else match c.merge(key, s.values[key], writes[key])
         case Err(kind) => err == [MergeFailure(key, kind)]
         case Ok(_) => err == [MergeFailure(key, Unclassified)]
  }

  lemma {:induction false} MergeFailsAt(p: Pipeline, s: FlowState, node: StepNode, writes: Values, c: Choices, j: nat, committed: Values)
    returns (k: nat)
    requires j <= |node.writeKeys| && forall i :: 0 <= i < j ==> MayMerge(p, s, node.writeKeys[i], writes, c)
    ensures var r := MergeFrom(p, s, node, writes, c, j, committed); r.Err? ==> MergeStops(p, s, node, writes, c, k, r.error)
    decreases |node.writeKeys| - j
  {
    k := j;
    if j < |node.writeKeys| {
      var key := node.writeKeys[j].name;
      if key !in writes {
        k := MergeFailsAt(p, s, node, writes, c, j + 1, committed);
      } else if key !in s.values || key in s.defaulted {
        k := MergeFailsAt(p, s, node, writes, c, j + 1, committed[key := writes[key]]);
      } else if MayMerge(p, s, node.writeKeys[j], writes, c) {
        k := MergeFailsAt(p, s, node, writes, c, j + 1, committed[key := c.merge(key, s.values[key], writes[key]).value]);
      }
    }
  }

  /** The kind of an Amend's failure: its own, or none when it sets what it may not. */
  function AmendKind(result: Result<Values, Kind>): Kind {
    if result.Err? then result.error else Unclassified
  }

  /** The k-th transition on success is where their evaluation fails: none before it matches, and its When fails, or it
      matches and its target has used its visits or its Amend fails or sets what it may not. */
  ghost predicate ChoiceStops(p: Pipeline, s: FlowState, list: seq<Rule>, k: nat, rejected: bool, c: Choices, seen: Values, err: Error, maxed: bool)
    requires |s.visits| == |p.maxVisits|
  {
    && k < |list| && !(rejected && list[k].rewind)
    && (forall j :: 0 <= j < k ==> (rejected && list[j].rewind) || Answers(list[j], c.when(list[j], seen), false))
    && if list[k].hasWhen && c.when(list[k], seen) == Panics then err == [HookFailure(list[k].index, Unclassified)] && !maxed
       else
         && Answers(list[k], c.when(list[k], seen), true)
         && if UsedUp(p, s, list[k]) then err == [VisitsExceeded(list[k].index)] && maxed
            else
              && list[k].rewind && list[k].hasAmend && AmendRefused(p, list[k], c.amend(list[k], seen)) && !maxed
              && err == [HookFailure(list[k].index, AmendKind(c.amend(list[k], seen)))]
  }

  lemma {:induction false} ChoiceFailsAt(p: Pipeline, s: FlowState, list: seq<Rule>, j: nat, rejected: bool, seen: Values, c: Choices)
    returns (k: nat)
    requires j <= |list| && |s.visits| == |p.maxVisits|
    requires forall l :: 0 <= l < j ==> (rejected && list[l].rewind) || Answers(list[l], c.when(list[l], seen), false)
    ensures var r := Choose(p, s, list, j, rejected, seen, c); r.ChoiceFails? ==> ChoiceStops(p, s, list, k, rejected, c, seen, r.err, r.maxed)
    decreases |list| - j
  {
    k := j;
    if j < |list| && ((rejected && list[j].rewind) || CallWhen(list[j], c.when(list[j], seen)) == No) {
      k := ChoiceFailsAt(p, s, list, j + 1, rejected, seen, c);
    }
  }

  /** What a failed visit of step a.at, that ended so in the state s, failed on. */
  ghost predicate FailsOn(p: Pipeline, a: Config, c: Choices, s: FlowState, v: StepVisit)
    requires Sized(p) && Fits(p, a.state) && a.at < |p.steps| && Fits(p, s)
  {
    var node := p.steps[a.at];
    match c.outcome
    case Fails(kind) => v.err == [StepFailure(kind)]
    case Returns(writes, preserved, _) =>
      if !WritesOk(node, Sees(a), writes, preserved) then v.err == [BadWrites]
      else
        || (exists j :: MergeStops(p, a.state, node, writes, c, j, v.err))
        || (v.acceptFailed && Now(a).Some? && Now(a).value.rule.from == a.at && v.err == [HookFailure(Now(a).value.rule.index, Unclassified)])
        || (exists k, seen :: ChoiceStops(p, s, p.success[a.at], k, v.rejected, c, seen, v.err, v.maxed))
  }

  /** Why a visit fails: with the step's own error; for writes that are not what it declares; for the first of its keys
      that does not merge; when Accept fails; or on a transition on success, the first that matches or whose When
      fails. */
  lemma VisitFails(p: Pipeline, a: Config, c: Choices)
    requires Accepted(p) && Sized(p) && Fits(p, a.state) && a.at < |p.steps| && VisitAt(p, a, c).err != []
    ensures var (s, v) := Visited(p, a.state, a.at, c); FailsOn(p, a, c, s, v)
  {
    hide Accepted, StoreAll, Enter, Arrive, AmendedView, WritesOk, MergeStops, ChoiceStops, Decide, MergeFrom;
    ExecutedIn(p, a, c);
    ViewHolds(p, a, c);
    var (s, v) := Visited(p, a.state, a.at, c);
    var node, view := p.steps[a.at], AmendedView(Arrive(a.state, a.at), a.at);
    if c.outcome.Returns? && WritesOk(node, Sees(a), c.outcome.writes, c.outcome.preserved) {
      var writes := c.outcome.writes;
      var j := MergeFailsAt(p, s, node, writes, c, 0, map[]);
      match MergeWrites(p, s, node, writes, c)
      case Err(err) => SameStops(p, s, a.state, node, writes, c, j, err);
      case Ok(committed) => DecideFails(p, s, a.at, view, writes, committed, c.outcome.staged, c);
    }
  }

  lemma SameStops(p: Pipeline, s: FlowState, before: FlowState, node: StepNode, writes: Values, c: Choices, j: nat, err: Error)
    requires s.values == before.values && s.defaulted == before.defaulted && MergeStops(p, s, node, writes, c, j, err)
    ensures MergeStops(p, before, node, writes, c, j, err)
  {
  }

  lemma DecideFails(p: Pipeline, s: FlowState, i: nat, view: View, writes: Values, committed: Values, staged: Tools, c: Choices)
    requires i < |p.steps| == |p.success| == |p.maxVisits| == |s.visits|
    ensures var v := Decide(p, s, i, view, writes, committed, staged, c);
      v.err != [] ==>
        || (v.acceptFailed && EndsRewind(s, i) && v.err == [HookFailure(s.rewind.value.rule.index, Unclassified)])
        || exists k, seen :: ChoiceStops(p, s, p.success[i], k, v.rejected, c, seen, v.err, v.maxed)
  {
    hide Choose, RestoreValues, KeyValues, RewindKeys, ChoiceStops;
    forall rejected, seen ensures
      var r := Choose(p, s, p.success[i], 0, rejected, seen, c);
      r.ChoiceFails? ==> exists k :: ChoiceStops(p, s, p.success[i], k, rejected, c, seen, r.err, r.maxed)
    {
      var k := ChoiceFailsAt(p, s, p.success[i], 0, rejected, seen, c);
    }
  }

  // ---- the start ----

  /** A run starts at the first step with the inputs it declares and the defaults, which are marked so, no visit made
      and no rewind running. */
  lemma StartsFrom(p: Pipeline, inputs: Values, run: seq<Config>, cs: seq<Choices>)
    requires Accepted(p) && IsRun(p, inputs, run, cs)
    ensures var s := run[0].state;
      && run[0].at == 0 && s.rewind.None? && s.journal.None? && |s.visits| == |p.steps| && (forall i :: 0 <= i < |s.visits| ==> s.visits[i] == 0)
      && (forall key :: key in s.defaulted <==> key in p.defaults)
      && (forall key :: key in s.values <==> Declares(p.inputs, key) || key in p.defaults)
      && (forall key :: key in p.defaults ==> s.values[key] == p.defaults[key])
      && (forall key :: Declares(p.inputs, key) && key !in p.defaults ==> key in inputs && s.values[key] == inputs[key])
  {
    hide Accepted;
  }
}

/** Which hooks a run asks, of what, and what their answers lead to, in the terms of the spec it was built from. */
module Hooks {
  import opened Basics
  import opened Pipelines
  import opened Specs
  import opened Compiled
  import opened Flow
  import opened Runs
  import opened Invariant
  import opened Soundness
  import opened Iterations
  import opened RunTheorems
  import opened Rejection
  import opened Realizations
  import opened Effects

  // ---- RestoreOnError ----

  /** The transition of the running rewind. */
  lemma RunningRule(p: Pipeline, inputs: Values, run: seq<Config>, cs: seq<Choices>, k: nat)
    requires Accepted(p) && IsRun(p, inputs, run, cs) && k < |run| && run[k].state.rewind.Some?
    ensures var rule := run[k].state.rewind.value.rule; rule.index < |p.rules| && p.rules[rule.index] == rule
  {
    var known := RunInvAll(p, inputs, run, cs, k);
    var m :| 0 <= m < |p.rules| && p.rules[m] == run[k].state.rewind.value.rule;
  }

  /** No transition on failure is from step i. */
  predicate NoneOnError(spec: PipelineSpec, i: nat)
    requires i < |spec.steps|
  {
    forall m :: 0 <= m < |spec.transitions| && spec.transitions[m].onError ==> spec.transitions[m].from != spec.steps[i].name
  }

  lemma NoFailureRules(spec: PipelineSpec, p: Pipeline, i: nat)
    requires BuiltFrom(spec, p) && i < |p.steps| && NoneOnError(spec, i)
    ensures p.failure[i] == []
  {
    hide Carries;
    if p.failure[i] != [] {
      FailureRuleFrom(spec, p, i);
    }
  }

  lemma FailureRuleFrom(spec: PipelineSpec, p: Pipeline, i: nat)
    requires BuiltFrom(spec, p) && i < |p.steps| && p.failure[i] != []
    ensures exists m :: 0 <= m < |spec.transitions| && spec.transitions[m].onError && spec.transitions[m].from == spec.steps[i].name
  {
    var rule := p.failure[i][0];
    assert p.rules[rule.index] in p.failure[i];
    BuiltRule(spec, p, rule.index);
  }

  /** A failure in a rewind's range, of a step without transitions on failure, that is not undone and was not
      accepted, asks RestoreOnError exactly when the rewind's transition sets one. When it says yes the run goes on
      past From, unless a When fails there; when it says no, or is not set, the run fails with the step's error. */
  lemma RestoreAsked(spec: PipelineSpec, p: Pipeline, inputs: Values, run: seq<Config>, cs: seq<Choices>, k: nat, c: Choices)
    requires BuiltFrom(spec, p) && Accepted(p) && IsRun(p, inputs, run, cs) && k < |run|
    requires run[k].at < |p.steps| && Fits(p, run[k].state) && Now(run[k]).Some? && !c.ended && NoneOnError(spec, run[k].at)
    requires var v := VisitAt(p, run[k], c); v.err != [] && !v.accepted && !v.rejected && !v.acceptFailed
    ensures var (s, v) := Visited(p, run[k].state, run[k].at, c);
      var rule := Now(run[k]).value.rule;
      var next := Iterate(p, run[k].state, run[k].at, c).1;
      && rule.index < |spec.transitions| && Carries(spec.steps, spec.transitions[rule.index], rule.index, rule)
      && (AskRestore in DecideFailure(p, s, run[k].at, v, c).calls <==> spec.transitions[rule.index].hasRestore)
      && (if !spec.transitions[rule.index].hasRestore || c.restore(run[k].at, v.err) == No then next.Failed? && next.failure.err == v.err
          else if c.restore(run[k].at, v.err) == Yes then next.Goto? ==> next.index > rule.from
          else next.Failed? && next.failure.err == v.err + [HookFailure(rule.index, Unclassified)])
  {
    var a := run[k];
    RunningRule(p, inputs, run, cs, k);
    NoFailureRules(spec, p, a.at);
    assert TablesOk(p);
    hide Accepted, TablesOk, BuiltFrom, Execute, Carries, Iterate, NoneOnError;
    BuiltRule(spec, p, Now(a).value.rule.index);
    ExecutedIn(p, a, c);
    var (s, v) := Visited(p, a.state, a.at, c);
    FailsUnruled(p, s, a.at, v, c);
    assert Iterate(p, a.state, a.at, c).1 == FailedStep(p, s, a.at, v, c).next by {
      hide FailedStep, Visited;
      IteratesTo(p, a, c);
    }
  }

  lemma IteratesTo(p: Pipeline, a: Config, c: Choices)
    requires Sized(p) && Fits(p, a.state) && a.at < |p.steps|
    ensures Iterate(p, a.state, a.at, c).1 == Finish(p, a.state, a.at, c).next
  {
    hide Finish, StartRewind, SnapshotSkipped;
  }

  lemma BuiltRule(spec: PipelineSpec, p: Pipeline, m: nat)
    requires BuiltFrom(spec, p) && m < |p.rules|
    ensures m < |spec.transitions| && Carries(spec.steps, spec.transitions[m], m, p.rules[m])
    ensures p.rules[m].hasRestore == spec.transitions[m].hasRestore && p.rules[m].index == m
  {
  }

  /** What a failure of a step without rules on failure comes to. */
  lemma FailsUnruled(p: Pipeline, s: FlowState, i: nat, v: StepVisit, c: Choices)
    requires TablesOk(p) && Sized(p) && Fits(p, s) && i < |p.steps| && p.failure[i] == [] && s.rewind.Some?
    requires !c.ended && !v.accepted && !v.rejected && !v.acceptFailed
    ensures var rule, d, next := s.rewind.value.rule, DecideFailure(p, s, i, v, c), FailedStep(p, s, i, v, c).next;
      && (AskRestore in d.calls <==> rule.hasRestore)
      && (if !rule.hasRestore || c.restore(i, v.err) == No then next.Failed? && next.failure.err == v.err
          else if c.restore(i, v.err) == Yes then next.Goto? ==> next.index > rule.from
          else next.Failed? && next.failure.err == v.err + [HookFailure(rule.index, Unclassified)])
  {
    GoesBeyond(p, s, i, v, c);
    hide TablesOk, RejectRewind, KeyValues, RestoreFailed;
  }

  lemma GoesBeyond(p: Pipeline, s: FlowState, i: nat, v: StepVisit, c: Choices)
    requires TablesOk(p) && Sized(p) && Fits(p, s) && i < |p.steps| && s.rewind.Some?
    ensures var next := RestoreFailed(p, s, i, v, c).next; next.Goto? ==> next.index > s.rewind.value.rule.from
  {
    var from := s.rewind.value.rule.from;
    var view := KeyValues(RejectRewind(p, s).values, Names(p.steps[from].readKeys) + Names(p.steps[from].writeKeys));
    ChooseRestoredOk(p.success[from], 0, view, c);
    var r := ChooseRestored(p.success[from], 0, view, c);
    if r.Chosen? && r.rule.Some? {
      var m :| 0 <= m < |p.success[from]| && p.success[from][m] == r.rule.value && !r.rule.value.rewind;
      RuleFacts(p, from, false, m);
    }
    hide ChooseRestored, RejectRewind, TablesOk, KeyValues;
  }

  // ---- transitions on success ----

  /** part is what values holds of keys. */
  ghost predicate PartOf(values: Values, keys: iset<Name>, part: Values) {
    forall key :: (key in part <==> key in values && key in keys) && (key in part ==> part[key] == values[key])
  }

  /** The keys step i reads or writes. */
  ghost function StepKeys(p: Pipeline, i: nat): iset<Name>
    requires i < |p.steps|
  {
    iset key | Declares(p.steps[i].readKeys, key) || Declares(p.steps[i].writeKeys, key)
  }

  /** The When of rule, if it has one, answers so. */
  predicate Answers(rule: Rule, answer: Verdict, matches: bool) {
    if matches then !rule.hasWhen || answer == Yes else rule.hasWhen && answer == No
  }

  /** An Amend of the rule may set values: keys its target lets be amended, with their types. */
  predicate MaySet(p: Pipeline, rule: Rule, values: Values) {
    && 0 <= rule.to < |p.steps| && p.steps[rule.to].amendable.Some?
    && forall key :: key in values ==>
         Declares(p.steps[rule.to].amendable.value, key) && values[key].typ == TypeOf(p.steps[rule.to].amendable.value, key)
  }

  /** The Amend fails, or sets what it may not. */
  predicate AmendRefused(p: Pipeline, rule: Rule, result: Result<Values, Kind>) {
    result.Err? || !MaySet(p, rule, result.value)
  }

  /** The k-th rule of list, or none, is the first whose When matches what the visit sees; a rejected visit takes no
      rewind. */
  predicate FirstMatch(list: seq<Rule>, k: nat, rejected: bool, c: Choices, seen: Values) {
    && k <= |list|
    && (forall j :: 0 <= j < k ==> (rejected && list[j].rewind) || Answers(list[j], c.when(list[j], seen), false))
    && (k < |list| ==> !(rejected && list[k].rewind) && Answers(list[k], c.when(list[k], seen), true))
  }

  lemma {:induction false} ChoosesFirst(p: Pipeline, s: FlowState, list: seq<Rule>, j: nat, rejected: bool, seen: Values, c: Choices)
    returns (k: nat)
    requires j <= |list| && |s.visits| == |p.maxVisits|
    requires forall l :: 0 <= l < j ==> (rejected && list[l].rewind) || Answers(list[l], c.when(list[l], seen), false)
    ensures var r := Choose(p, s, list, j, rejected, seen, c);
      r.Chosen? ==>
        && FirstMatch(list, k, rejected, c, seen) && r.rule == (if k < |list| then Some(list[k]) else None)
        && (k < |list| && list[k].rewind ==> 0 <= list[k].to < |s.visits| ==> s.visits[list[k].to] < p.maxVisits[list[k].to])
        && (r.amended.Some? <==> k < |list| && list[k].rewind && list[k].hasAmend)
        && (r.amended.Some? ==> c.amend(list[k], seen) == Ok(r.amended.value) && MaySet(p, list[k], r.amended.value))
    decreases |list| - j
  {
    k := j;
    if j < |list| && ((rejected && list[j].rewind) || CallWhen(list[j], c.when(list[j], seen)) == No) {
      k := ChoosesFirst(p, s, list, j + 1, rejected, seen, c);
    }
  }

  /** What the transition a successful visit takes comes from. */
  ghost predicate TakesFirst(p: Pipeline, i: nat, v: StepVisit, c: Choices, k: nat, seen: Values)
    requires i < |p.success|
  {
    && FirstMatch(p.success[i], k, v.rejected, c, seen)
    && v.rule == (if k < |p.success[i]| then Some(p.success[i][k]) else None)
    && (v.amended.Some? <==> k < |p.success[i]| && p.success[i][k].rewind && p.success[i][k].hasAmend)
    && (v.amended.Some? ==> c.amend(p.success[i][k], seen) == Ok(v.amended.value) && MaySet(p, p.success[i][k], v.amended.value))
  }

  lemma PartKeys(p: Pipeline, i: nat, values: Values)
    requires i < |p.steps|
    ensures PartOf(values, StepKeys(p, i), KeyValues(values, Names(p.steps[i].readKeys) + Names(p.steps[i].writeKeys)))
  {
  }

  lemma DecidesFirst(p: Pipeline, s: FlowState, i: nat, view: View, writes: Values, committed: Values, staged: Tools, c: Choices)
    returns (k: nat, seen: Values)
    requires i < |p.steps| == |p.success| == |p.maxVisits| == |s.visits|
    ensures var v := Decide(p, s, i, view, writes, committed, staged, c);
      v.err == [] ==>
        && TakesFirst(p, i, v, c, k, seen) && (v.rejected ==> EndsRewind(s, i))
        && PartOf(if v.rejected then RejectRewind(p, s).values else Resolve(view, s) + writes, StepKeys(p, i), seen)
  {
    hide RestoreValues, KeyValues, RewindKeys, Choose, PartOf, StepKeys, TakesFirst, RestoreDefaulted, EndJournal;
    var names := Names(p.steps[i].readKeys) + Names(p.steps[i].writeKeys);
    var base := StepVisit(view, committed, staged, [], None, false, false, false, false, None);
    var values := Resolve(view, s) + writes;
    PartKeys(p, i, values);
    k, seen := 0, KeyValues(values, names);
    if EndsRewind(s, i) {
      var r := s.rewind.value;
      PartKeys(p, i, RejectRewind(p, s).values);
      var verdict := if r.rule.hasAccept
        then c.accept(r.prev.values, KeyValues(s.values + committed, RewindKeys(p, r.rule))) else Yes;
      match verdict
      case Panics =>
      case Yes => k := BaseTakes(p, s, i, base.(accepted := true), seen, c);
      case No =>
        seen := KeyValues(RestoreValues(s.values, r.prev, RewindKeys(p, r.rule)), names);
        k := BaseTakes(p, s, i, base.(rejected := true), seen, c);
    } else {
      k := BaseTakes(p, s, i, base, seen, c);
    }
  }

  lemma BaseTakes(p: Pipeline, s: FlowState, i: nat, base: StepVisit, seen: Values, c: Choices) returns (k: nat)
    requires i < |p.steps| == |p.success| == |p.maxVisits| == |s.visits| && base.err == []
    ensures var v := Decided(base, Choose(p, s, p.success[i], 0, base.rejected, seen, c));
      v.err == [] ==> TakesFirst(p, i, v, c, k, seen) && v.rejected == base.rejected
  {
    k := ChoosesFirst(p, s, p.success[i], 0, base.rejected, seen, c);
    ChooseFails(p, s, p.success[i], 0, base.rejected, seen, c);
    hide Choose;
  }

  /** What step a.at reads from: the state, with what an Amend set on its first visit. */
  function Sees(a: Config): Values {
    Resolve(AmendedView(Arrive(a.state, a.at), a.at), Arrive(a.state, a.at))
  }

  /** Where a run goes from step i by rule, or by none. */
  function NextAfter(p: Pipeline, i: nat, rule: Option<Rule>): Option<int> {
    if rule.None? then Some(i + 1)
    else if rule.value.to == FAIL then None
    else if rule.value.to == END then Some(|p.steps|)
    else Some(rule.value.to)
  }

  /** A visit that succeeds takes the first of its step's transitions on success, in the order they are declared,
      whose When matches what the step saw and wrote, or for a rejected visit what the rejection restored; it goes
      where that says, or on to the next step when none matches. */
  lemma SuccessTakes(p: Pipeline, a: Config, c: Choices) returns (k: nat, seen: Values)
    requires Accepted(p) && Sized(p) && Fits(p, a.state) && a.at < |p.steps| && VisitAt(p, a, c).err == []
    ensures var v, next := VisitAt(p, a, c), Iterate(p, a.state, a.at, c).1;
      && c.outcome.Returns? && TakesFirst(p, a.at, v, c, k, seen)
      && PartOf(if v.rejected then MidOf(p, a, c).values else Sees(a) + c.outcome.writes, StepKeys(p, a.at), seen)
      && (match NextAfter(p, a.at, v.rule) case None => next.Failed? case Some(i) => next == Goto(i))
  {
    assert |p.success| == |p.steps| == |p.maxVisits|;
    hide Accepted, PartOf, StepKeys, TakesFirst, RejectRewind, EndRewind, Commit, Decide, MergeWrites, WritesOk, StoreAll, Iterate;
    ExecutedIn(p, a, c);
    IteratesTo(p, a, c);
    var (s, v) := Visited(p, a.state, a.at, c);
    var view := AmendedView(Arrive(a.state, a.at), a.at);
    ExecutesTo(p, s, a.at, view, c);
    k, seen := DecidesFirst(p, s, a.at, view, c.outcome.writes, v.committed, c.outcome.staged, c);
    ViewHolds(p, a, c);
    SucceedsTo(p, s, a.at, v);
  }

  lemma ExecutesTo(p: Pipeline, s: FlowState, i: nat, view: View, c: Choices)
    requires i < |p.steps| == |p.success| == |p.maxVisits| == |s.visits|
    requires Execute(p, s, i, view, c).err == []
    ensures c.outcome.Returns?
    ensures var v := Execute(p, s, i, view, c); v == Decide(p, s, i, view, c.outcome.writes, v.committed, c.outcome.staged, c)
  {
    if c.outcome.Returns? && WritesOk(p.steps[i], Resolve(view, s), c.outcome.writes, c.outcome.preserved) {
      var writes := c.outcome.writes;
      MergeErrs(p, s, p.steps[i], writes, c, 0, map[]);
      var r := MergeWrites(p, s, p.steps[i], writes, c);
      hide MergeWrites, WritesOk;
      if r.Ok? {
        DecideKeeps(p, s, i, view, writes, r.value, c.outcome.staged, c);
        hide Decide;
      }
    }
  }

  lemma ViewHolds(p: Pipeline, a: Config, c: Choices)
    requires Sized(p) && Fits(p, a.state) && a.at < |p.steps|
    ensures Resolve(AmendedView(Arrive(a.state, a.at), a.at), Visited(p, a.state, a.at, c).0) == Sees(a)
  {
    StoreAllKeeps(Enter(p, Arrive(a.state, a.at), a.at), c.stores);
    hide StoreAll, Execute;
  }

  lemma SucceedsTo(p: Pipeline, s: FlowState, i: nat, v: StepVisit)
    requires i < |p.steps|
    ensures var e := Flow.Succeeded(p, s, i, v);
      && (match NextAfter(p, i, v.rule) case None => e.next.Failed? case Some(to) => e.next == Goto(to))
      && (v.rejected && EndsRewind(s, i) ==> e.mid == RejectRewind(p, s))
  {
    hide RejectRewind, EndRewind, Commit, StepFailed;
  }

  // ---- transitions on failure ----

  /** The target of a rewind has used the visits MaxVisits gives it. */
  predicate UsedUp(p: Pipeline, s: FlowState, rule: Rule)
    requires |s.visits| == |p.maxVisits|
  {
    rule.rewind && 0 <= rule.to < |s.visits| && s.visits[rule.to] >= p.maxVisits[rule.to]
  }

  /** The rules before the k-th do not match the failure err of a step that saw seen, or have used up their
      target. */
  predicate NoneBefore(p: Pipeline, s: FlowState, list: seq<Rule>, k: nat, c: Choices, seen: Values, err: Error)
    requires |s.visits| == |p.maxVisits| && k <= |list|
  {
    forall j :: 0 <= j < k ==> Answers(list[j], c.whenFailed(list[j], seen, err), false) || UsedUp(p, s, list[j])
  }

  /** What the rules are asked about: the step's error, or once a matching rewind has used up its target that error
      joined with ErrMaxVisits. */
  predicate AskedAbout(p: Pipeline, s: FlowState, list: seq<Rule>, first: Error, err: Error)
    requires |s.visits| == |p.maxVisits|
  {
    err == first || exists j :: 0 <= j < |list| && UsedUp(p, s, list[j]) && err == first + [VisitsExceeded(list[j].index)]
  }

  /** The k-th rule is the first that matches. */
  predicate MatchesFirst(p: Pipeline, s: FlowState, list: seq<Rule>, k: nat, c: Choices, seen: Values, err: Error)
    requires |s.visits| == |p.maxVisits|
  {
    k < |list| && NoneBefore(p, s, list, k, c, seen, err) && Answers(list[k], c.whenFailed(list[k], seen, err), true)
      && !UsedUp(p, s, list[k])
  }

  /** The rule taken, and what it is taken on. */
  ghost predicate TakesOnError(p: Pipeline, s: FlowState, list: seq<Rule>, first: Error, c: Choices, seen: Values, d: Decision)
    requires |s.visits| == |p.maxVisits| && d.Take?
  {
    && AskedAbout(p, s, list, first, d.err)
    && (exists k: nat :: MatchesFirst(p, s, list, k, c, seen, d.err) && list[k] == d.rule)
    && (d.amended.Some? <==> d.rule.rewind && d.rule.hasAmend)
    && (d.amended.Some? ==> c.amend(d.rule, seen) == Ok(d.amended.value) && MaySet(p, d.rule, d.amended.value))
  }

  /** Why no rule is taken: none matches, a When fails, or the Amend of the first that matches does. */
  ghost predicate StopsOn(p: Pipeline, s: FlowState, list: seq<Rule>, first: Error, c: Choices, seen: Values, d: Decision)
    requires |s.visits| == |p.maxVisits| && d.Stop?
  {
    || (AskedAbout(p, s, list, first, d.err) && NoneBefore(p, s, list, |list|, c, seen, d.err))
    || (exists k: nat, err :: WhenPanics(p, s, list, k, c, seen, err) && AskedAbout(p, s, list, first, err)
         && d.err == err + [HookFailure(list[k].index, Unclassified)])
    || (exists k: nat, err :: MatchesFirst(p, s, list, k, c, seen, err) && AskedAbout(p, s, list, first, err)
         && list[k].rewind && list[k].hasAmend && AmendRefused(p, list[k], c.amend(list[k], seen)) && err <= d.err && err != d.err)
  }

  predicate WhenPanics(p: Pipeline, s: FlowState, list: seq<Rule>, k: nat, c: Choices, seen: Values, err: Error)
    requires |s.visits| == |p.maxVisits|
  {
    k < |list| && NoneBefore(p, s, list, k, c, seen, err) && list[k].hasWhen && c.whenFailed(list[k], seen, err) == Panics
  }

  ghost predicate DecidesAs(p: Pipeline, s: FlowState, list: seq<Rule>, first: Error, c: Choices, seen: Values, d: Decision)
    requires |s.visits| == |p.maxVisits|
  {
    (d.Take? ==> TakesOnError(p, s, list, first, c, seen, d)) && (d.Stop? ==> StopsOn(p, s, list, first, c, seen, d))
  }

  lemma {:induction false} EvaluatesFirst(p: Pipeline, s: FlowState, i: nat, first: Error, seen: Values, c: Choices,
    k: nat, restorable: bool, exhausted: bool, err: Error, calls: seq<Call>)
    requires i < |p.steps| == |p.failure| == |p.fallback| == |p.maxVisits| == |s.visits| && k <= |p.failure[i]|
    requires AskedAbout(p, s, p.failure[i], first, err) && (!exhausted ==> err == first)
    requires NoneBefore(p, s, p.failure[i], k, c, seen, err)
    ensures var d := EvalFailure(p, s, i, first, seen, c, k, restorable, exhausted, err, calls);
      DecidesAs(p, s, p.failure[i], first, c, seen, d)
    decreases !exhausted, |p.failure[i]| - k, if restorable then 3 else 2
  {
    var list := p.failure[i];
    hide AskedAbout;
    if k < |list| {
      var rule := list[k];
      if restorable && k > p.fallback[i] {
        if c.restore(i, first) == No {
          EvaluatesFirst(p, s, i, first, seen, c, k, false, exhausted, err, calls + [AskRestore]);
        }
      } else if exhausted && rule.rewind && Exhausted(p, s, rule) {
        EvaluatesFirst(p, s, i, first, seen, c, k + 1, restorable, exhausted, err, calls);
      } else {
        var called := if rule.hasWhen then calls + [AskWhen(rule, err)] else calls;
        match CallWhen(rule, c.whenFailed(rule, seen, err))
        case Panics => assert WhenPanics(p, s, list, k, c, seen, err);
        case No => EvaluatesFirst(p, s, i, first, seen, c, k + 1, restorable, exhausted, err, called);
        case Yes => TakesWhen(p, s, i, first, seen, c, k, rule, restorable, exhausted, err, called);
      }
    }
  }

  lemma {:induction false} TakesWhen(p: Pipeline, s: FlowState, i: nat, first: Error, seen: Values, c: Choices,
    k: nat, rule: Rule, restorable: bool, exhausted: bool, err: Error, calls: seq<Call>)
    requires i < |p.steps| == |p.failure| == |p.fallback| == |p.maxVisits| == |s.visits| && k < |p.failure[i]|
    requires AskedAbout(p, s, p.failure[i], first, err) && (!exhausted ==> err == first) && rule == p.failure[i][k]
    requires NoneBefore(p, s, p.failure[i], k, c, seen, err) && Answers(rule, c.whenFailed(rule, seen, err), true)
    requires !(exhausted && rule.rewind && Exhausted(p, s, rule))
    ensures var d := TakeFailure(p, s, i, first, seen, c, k, rule, restorable, exhausted, err, calls);
      DecidesAs(p, s, p.failure[i], first, c, seen, d)
    decreases !exhausted, |p.failure[i]| - k, if restorable then 1 else 0
  {
    var list := p.failure[i];
    if restorable && k < p.fallback[i] && !rule.fallback {
      hide AskedAbout;
      if c.restore(i, first) == No {
        TakesWhen(p, s, i, first, seen, c, k, rule, false, exhausted, err, calls + [AskRestore]);
      }
    } else if rule.rewind && Exhausted(p, s, rule) {
      assert UsedUp(p, s, list[k]);
      EvaluatesFirst(p, s, i, first, seen, c, 0, restorable, true, err + [VisitsExceeded(rule.index)], calls);
    } else {
      assert MatchesFirst(p, s, list, k, c, seen, err);
      AmendFails(p, rule, seen, c);
      hide AskedAbout, MatchesFirst, CallAmend;
    }
  }

  lemma AmendFails(p: Pipeline, rule: Rule, seen: Values, c: Choices)
    ensures var r := CallAmend(p, rule, seen, c);
      && (r.Err? ==> r.error != [] && rule.hasAmend && AmendRefused(p, rule, c.amend(rule, seen)))
      && (r.Ok? ==> (r.value.Some? <==> rule.hasAmend))
      && (r.Ok? && r.value.Some? ==> c.amend(rule, seen) == Ok(r.value.value) && MaySet(p, rule, r.value.value))
  {
  }

  /** Accept rejected the visit or failed, and the snapshot has been restored. */
  predicate Undone(a: Config, v: StepVisit) {
    Now(a).Some? && Now(a).value.rule.from == a.at && (v.rejected || v.acceptFailed)
  }

  ghost function ReadNames(p: Pipeline, i: nat): iset<Name>
    requires i < |p.steps|
  {
    iset key | Declares(p.steps[i].readKeys, key)
  }

  /** A visit that fails takes the first of its step's transitions on failure, in the order they are declared, whose
      When matches the error and what the step reads, and which has not used up its target; and the run fails only
      when there is none, or a hook fails. A matching rewind that has used up its target adds ErrMaxVisits to the
      error. What the step reads is what it saw, or, for one that shares the state and whose rewind was undone, what
      that restored. */
  lemma FailureTakes(p: Pipeline, a: Config, c: Choices) returns (seen: Values)
    requires Accepted(p) && Sized(p) && Fits(p, a.state) && a.at < |p.steps| && VisitAt(p, a, c).err != []
    ensures var (s, v) := Visited(p, a.state, a.at, c);
      && |s.visits| == |p.maxVisits|
      && PartOf(if Undone(a, v) && v.view.Live? then MidOf(p, a, c).values else Sees(a), ReadNames(p, a.at), seen)
      && DecidesAs(p, s, p.failure[a.at], v.err, c, seen, DecideFailure(p, s, a.at, v, c))
  {
    var (s, v) := Visited(p, a.state, a.at, c);
    var undo := EndsRewind(s, a.at) && (v.rejected || v.acceptFailed);
    var mid := if undo then RejectRewind(p, s) else s;
    seen := KeyValues(Resolve(v.view, mid), Names(p.steps[a.at].readKeys));
    assert |p.failure| == |p.steps| == |p.maxVisits| == |mid.visits|;
    hide Accepted, Visited, DecidesAs, RejectRewind, Enter, Arrive, AmendedView;
    ExecutedIn(p, a, c);
    EvaluatesFirst(p, mid, a.at, v.err, seen, c, 0,
      !undo && s.rewind.Some? && s.rewind.value.rule.hasRestore && !v.accepted, v.maxed, v.err, []);
    SameDecision(p, mid, s, p.failure[a.at], v.err, c, seen, DecideFailure(p, s, a.at, v, c));
    SeenBy(p, a, c);
    hide EvalFailure;
  }

  lemma SameDecision(p: Pipeline, mid: FlowState, s: FlowState, list: seq<Rule>, first: Error, c: Choices, seen: Values, d: Decision)
    requires mid.visits == s.visits && |s.visits| == |p.maxVisits|
    ensures DecidesAs(p, mid, list, first, c, seen, d) ==> DecidesAs(p, s, list, first, c, seen, d)
  {
    assert forall rule :: UsedUp(p, mid, rule) == UsedUp(p, s, rule);
    assert forall k: nat, err :: k <= |list| ==> NoneBefore(p, mid, list, k, c, seen, err) == NoneBefore(p, s, list, k, c, seen, err);
    assert forall err :: AskedAbout(p, mid, list, first, err) == AskedAbout(p, s, list, first, err);
    assert forall k: nat, err :: MatchesFirst(p, mid, list, k, c, seen, err) == MatchesFirst(p, s, list, k, c, seen, err);
    assert forall k: nat, err :: WhenPanics(p, mid, list, k, c, seen, err) == WhenPanics(p, s, list, k, c, seen, err);
    hide UsedUp, NoneBefore, AskedAbout, MatchesFirst, WhenPanics, Answers;
  }

  /** What a failed step's transitions see. */
  lemma SeenBy(p: Pipeline, a: Config, c: Choices)
    requires Sized(p) && Fits(p, a.state) && a.at < |p.steps| && VisitAt(p, a, c).err != []
    ensures var (s, v) := Visited(p, a.state, a.at, c);
      var mid := if EndsRewind(s, a.at) && (v.rejected || v.acceptFailed) then RejectRewind(p, s) else s;
      PartOf(if Undone(a, v) && v.view.Live? then MidOf(p, a, c).values else Sees(a), ReadNames(p, a.at),
        KeyValues(Resolve(v.view, mid), Names(p.steps[a.at].readKeys)))
  {
    hide Execute, StoreAll, RejectRewind, Enter, FailedStep;
    ExecutedIn(p, a, c);
    ViewHolds(p, a, c);
    KeepsView(p, a, c);
    var (s, v) := Visited(p, a.state, a.at, c);
    if Undone(a, v) {
      UndoneLeaves(p, s, a.at, v, c);
    }
  }

  lemma KeepsView(p: Pipeline, a: Config, c: Choices)
    requires Sized(p) && Fits(p, a.state) && a.at < |p.steps|
    ensures VisitAt(p, a, c).view == AmendedView(Arrive(a.state, a.at), a.at)
  {
    hide MergeWrites, WritesOk, Choose, RestoreValues, KeyValues, RewindKeys, StoreAll, Enter, Arrive, AmendedView;
  }

  lemma UndoneLeaves(p: Pipeline, s: FlowState, i: nat, v: StepVisit, c: Choices)
    requires Sized(p) && Fits(p, s) && i < |p.steps| && EndsRewind(s, i) && (v.rejected || v.acceptFailed)
    ensures FailedStep(p, s, i, v, c).mid == RejectRewind(p, s)
  {
    var mid := RejectRewind(p, s);
    assert mid.rewind.None?;
    hide RejectRewind, DecideFailure, StepFailed, EndRewind, RestoreFailed;
    assert !DecideFailure(p, s, i, v, c).GoRestore? by {
      NotRestorable(p, s, i, v, c);
    }
  }

  lemma NotRestorable(p: Pipeline, s: FlowState, i: nat, v: StepVisit, c: Choices)
    requires Sized(p) && Fits(p, s) && i < |p.steps| && EndsRewind(s, i) && (v.rejected || v.acceptFailed)
    ensures !DecideFailure(p, s, i, v, c).GoRestore?
  {
    hide RejectRewind, KeyValues;
  }
}

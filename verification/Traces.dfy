/** Every move a run makes is one its tables allow. */
module Traces {
  import opened Basics
  import opened Pipelines
  import opened Flow
  import opened Runs
  import opened Invariant
  import opened Soundness
  import opened Iterations
  import opened RunTheorems
  import opened Leftovers
  import opened Reachability
  import opened Steering
  import opened Realizations
  import opened Arrivals

  // ---- what decisions come from ----

  /** The rule Choose chooses is the k-th: those before it have a When, or a rejected visit passes over them. */
  lemma {:induction false} ChooseTraced(p: Pipeline, s: FlowState, list: seq<Rule>, j: nat, rejected: bool, view: Values, c: Choices)
    returns (k: nat)
    requires j <= |list| && |s.visits| == |p.maxVisits|
    ensures j <= k <= |list|
    ensures var r := Choose(p, s, list, j, rejected, view, c);
      if r.ChoiceFails? then r.err != [] else
        && r.rule == Goal(list, k) && (k < |list| && list[k].rewind ==> !rejected)
        && forall m :: j <= m < k ==> list[m].hasWhen || (rejected && list[m].rewind)
    decreases |list| - j
  {
    k := j;
    if j < |list| {
      var rule := list[j];
      if (rejected && rule.rewind) || CallWhen(rule, c.when(rule, view)) == No {
        k := ChooseTraced(p, s, list, j + 1, rejected, view, c);
      }
    }
  }

  /** Every rewind of list has the same target. */
  predicate OneTarget(list: seq<Rule>) {
    forall j, k :: 0 <= j < |list| && 0 <= k < |list| && list[j].rewind && list[k].rewind ==> list[j].to == list[k].to
  }

  /** A rule taken on failure is one whose predecessors may be passed over; a restored failure is one that asks. */
  ghost predicate DecisionFits(p: Pipeline, s: FlowState, list: seq<Rule>, last: int, d: Decision)
    requires |s.visits| == |p.maxVisits|
  {
    && (d.Take? ==> exists k :: TakenAt(p, s, list, k, d.rule))
    && (d.GoRestore? ==> Asks(list, last))
  }

  predicate TakenAt(p: Pipeline, s: FlowState, list: seq<Rule>, k: int, rule: Rule)
    requires |s.visits| == |p.maxVisits|
  {
    0 <= k < |list| && list[k] == rule && Passable(p, s, list, k) && (rule.rewind ==> !Exhausted(p, s, rule))
  }

  /** With some earlier rewind passed over, one whose target has a visit left would be another's. */
  lemma NotSpentPlain(p: Pipeline, s: FlowState, list: seq<Rule>, k: nat)
    requires |s.visits| == |p.maxVisits| && OneTarget(list) && k < |list| && Passable(p, s, list, k)
    requires list[k].rewind && !Exhausted(p, s, list[k])
    ensures Plain(list, k)
  {
  }

  lemma PassableOpen(p: Pipeline, s: FlowState, list: seq<Rule>, k: nat)
    requires |s.visits| == |p.maxVisits| && k <= |list| && Passable(p, s, list, k)
    ensures OpenUpTo(list, k)
  {
  }

  lemma {:induction false} FailureTraced(p: Pipeline, s: FlowState, i: nat, first: Error, view: Values, c: Choices,
    k: nat, restorable: bool, exhausted: bool, err: Error, calls: seq<Call>)
    requires i < |p.steps| == |p.failure| == |p.fallback| == |p.maxVisits| == |s.visits| && k <= |p.failure[i]|
    requires OneTarget(p.failure[i]) && p.fallback[i] == LastFallback(p.failure[i])
    requires Passable(p, s, p.failure[i], k) && (exhausted || Plain(p.failure[i], k))
    ensures var d := EvalFailure(p, s, i, first, view, c, k, restorable, exhausted, err, calls);
      DecisionFits(p, s, p.failure[i], p.fallback[i], d)
    decreases !exhausted, |p.failure[i]| - k, if restorable then 3 else 2
  {
    var list := p.failure[i];
    PassableOpen(p, s, list, k);
    hide DecisionFits, OneTarget, LastFallback, Asks;
    if k == |list| {
      AsksPast(p, s, list, p.fallback[i], k);
    } else {
      var rule := list[k];
      if restorable && k > p.fallback[i] {
        AsksPast(p, s, list, p.fallback[i], k);
        if c.restore(i, first) == No {
          FailureTraced(p, s, i, first, view, c, k, false, exhausted, err, calls + [AskRestore]);
        }
      } else if exhausted && rule.rewind && Exhausted(p, s, rule) {
        FailureTraced(p, s, i, first, view, c, k + 1, restorable, exhausted, err, calls);
      } else {
        var called := if rule.hasWhen then calls + [AskWhen(rule, err)] else calls;
        match CallWhen(rule, c.whenFailed(rule, view, err))
        case Panics =>
        case No => FailureTraced(p, s, i, first, view, c, k + 1, restorable, exhausted, err, called);
        case Yes => TakeTraced(p, s, i, first, view, c, k, rule, restorable, exhausted, err, called);
      }
    }
    Others(p, s, list, p.fallback[i]);
  }

  lemma Others(p: Pipeline, s: FlowState, list: seq<Rule>, last: int)
    requires |s.visits| == |p.maxVisits|
    ensures forall d: Decision :: d.Stop? || d.RestorePanics? ==> DecisionFits(p, s, list, last, d)
  {
  }

  /** RestoreOnError is asked past the Fallback's rule. */
  lemma AsksPast(p: Pipeline, s: FlowState, list: seq<Rule>, last: int, k: nat)
    requires |s.visits| == |p.maxVisits| && -1 <= last < k <= |list| && OpenUpTo(list, k)
    ensures Asks(list, last) && forall calls :: DecisionFits(p, s, list, last, GoRestore(calls))
  {
    assert OpenUpTo(list, last + 1);
  }

  /** And before it, when another rule matches. */
  lemma AsksBefore(p: Pipeline, s: FlowState, list: seq<Rule>, last: int, k: nat)
    requires |s.visits| == |p.maxVisits| && k < |list| && k < last && !list[k].fallback && OpenUpTo(list, k)
    requires list[k].rewind ==> Plain(list, k)
    ensures Asks(list, last) && forall calls :: DecisionFits(p, s, list, last, GoRestore(calls))
  {
    assert AsksAt(list, k, last);
  }

  lemma {:induction false} TakeTraced(p: Pipeline, s: FlowState, i: nat, first: Error, view: Values, c: Choices,
    k: nat, rule: Rule, restorable: bool, exhausted: bool, err: Error, calls: seq<Call>)
    requires i < |p.steps| == |p.failure| == |p.fallback| == |p.maxVisits| == |s.visits| && k < |p.failure[i]|
    requires OneTarget(p.failure[i]) && p.fallback[i] == LastFallback(p.failure[i]) && rule == p.failure[i][k]
    requires Passable(p, s, p.failure[i], k) && (exhausted || Plain(p.failure[i], k))
    requires !(exhausted && rule.rewind && Exhausted(p, s, rule))
    ensures var d := TakeFailure(p, s, i, first, view, c, k, rule, restorable, exhausted, err, calls);
      DecisionFits(p, s, p.failure[i], p.fallback[i], d)
    decreases !exhausted, |p.failure[i]| - k, if restorable then 1 else 0
  {
    var list := p.failure[i];
    PassableOpen(p, s, list, k);
    if rule.rewind && !Exhausted(p, s, rule) {
      NotSpentPlain(p, s, list, k);
    }
    if !(rule.rewind && Exhausted(p, s, rule)) {
      assert TakenAt(p, s, list, k, rule);
    }
    hide OneTarget, LastFallback, Asks, Passable, Plain;
    if restorable && k < p.fallback[i] && !rule.fallback {
      AsksBefore(p, s, list, p.fallback[i], k);
      if c.restore(i, first) == No {
        TakeTraced(p, s, i, first, view, c, k, rule, false, exhausted, err, calls + [AskRestore]);
      }
    } else if rule.rewind && Exhausted(p, s, rule) {
      PassNone(p, s, list);
      FailureTraced(p, s, i, first, view, c, 0, restorable, true, err + [VisitsExceeded(rule.index)], calls);
    }
  }

  lemma PassNone(p: Pipeline, s: FlowState, list: seq<Rule>)
    requires |s.visits| == |p.maxVisits|
    ensures Passable(p, s, list, 0)
  {
  }

  // ---- what moves are ----

  /** The run goes by a rule on failure, and the rewinds from the step have used their target's visits. */
  ghost predicate SpentAt(p: Pipeline, a: Config, next: int)
    requires Sized(p) && Fits(p, a.state) && a.at < |p.steps|
  {
    && (exists k :: 0 <= k < |p.failure[a.at]| && OpenRule(p.failure[a.at], k, |p.steps|, next))
    && exists rule :: rule in p.rules && rule.rewind && rule.from == a.at && 0 <= rule.to < |p.steps| && Count(a, rule) >= p.maxVisits[rule.to]
  }

  /** The running rewind is undone, at its From by its Accept or at a step that asks RestoreOnError. */
  ghost predicate UndoneAt(p: Pipeline, a: Config, next: int)
    requires Sized(p) && Fits(p, a.state) && a.at < |p.steps|
  {
    Now(a).Some? && var rule := Now(a).value.rule;
      && rule.from < |p.steps| && Continues(p.success[rule.from], rule.from, |p.steps|, next)
      && (|| (rule.hasAccept && rule.from == a.at)
          || (rule.hasRestore && Asks(p.failure[a.at], p.fallback[a.at])))
  }

  /** The rewind rule is the k-th of its list, and may be taken. */
  ghost predicate TakenAs(p: Pipeline, rule: Rule, k: int) {
    && Sized(p) && rule.from < |p.steps|
    && 0 <= k < |ListOf(p, rule.from, rule.onError)| && ListOf(p, rule.from, rule.onError)[k] == rule
    && PlainRewind(ListOf(p, rule.from, rule.onError), k)
  }

  /** How an iteration from a that ends as e goes on. */
  ghost predicate GoesAs(p: Pipeline, a: Config, e: Ending)
    requires Sized(p) && Fits(p, a.state) && a.at < |p.steps| && e.next.Goto?
  {
    match e.rewind
    case None => PlainEdge(p, a.at, e.next.index) || SpentAt(p, a, e.next.index) || UndoneAt(p, a, e.next.index)
    case Some(rule) => rule.from == a.at && e.next.index == rule.to && exists k :: TakenAs(p, rule, k)
  }

  /** The rule of list a successful visit takes is the k-th: those before it have a When, or the visit is rejected
      and passes over them. */
  predicate ChosenAt(list: seq<Rule>, v: StepVisit, k: nat) {
    && k <= |list| && v.rule == Goal(list, k) && (k < |list| && list[k].rewind ==> !v.rejected)
    && forall m :: 0 <= m < k ==> list[m].hasWhen || (v.rejected && list[m].rewind)
  }

  predicate RejectsAt(s: FlowState, i: nat, v: StepVisit) {
    v.rejected ==> EndsRewind(s, i) && s.rewind.value.rule.hasAccept
  }

  lemma VisitTraced(p: Pipeline, s: FlowState, i: nat, view: View, c: Choices) returns (k: nat)
    requires i < |p.steps| == |p.success| == |p.maxVisits| == |s.visits|
    ensures var v := Execute(p, s, i, view, c); v.err == [] ==> ChosenAt(p.success[i], v, k) && RejectsAt(s, i, v)
  {
    k := 0;
    if c.outcome.Returns? && WritesOk(p.steps[i], Resolve(view, s), c.outcome.writes, c.outcome.preserved) {
      MergeErrs(p, s, p.steps[i], c.outcome.writes, c, 0, map[]);
      var merged := MergeWrites(p, s, p.steps[i], c.outcome.writes, c);
      hide MergeWrites, WritesOk, ChosenAt, RejectsAt;
      if merged.Ok? {
        k := DecideTraced(p, s, i, view, c.outcome.writes, merged.value, c.outcome.staged, c);
        hide Decide;
      }
    }
  }

  lemma DecideTraced(p: Pipeline, s: FlowState, i: nat, view: View, writes: Values, committed: Values, staged: Tools, c: Choices)
    returns (k: nat)
    requires i < |p.steps| == |p.success| == |p.maxVisits| == |s.visits|
    ensures var v := Decide(p, s, i, view, writes, committed, staged, c);
      v.err == [] ==> ChosenAt(p.success[i], v, k) && RejectsAt(s, i, v)
  {
    hide RestoreValues, KeyValues, RewindKeys, Choose, ChosenAt;
    var names := Names(p.steps[i].readKeys) + Names(p.steps[i].writeKeys);
    var base := StepVisit(view, committed, staged, [], None, false, false, false, false, None);
    if EndsRewind(s, i) {
      var r := s.rewind.value;
      var verdict := if r.rule.hasAccept
        then c.accept(r.prev.values, KeyValues(s.values + committed, RewindKeys(p, r.rule))) else Yes;
      match verdict
      case Panics => k := 0;
      case Yes => k := BaseTraced(p, s, i, base.(accepted := true), KeyValues(Resolve(view, s) + writes, names), c);
      case No =>
        k := BaseTraced(p, s, i, base.(rejected := true), KeyValues(RestoreValues(s.values, r.prev, RewindKeys(p, r.rule)), names), c);
    } else {
      k := BaseTraced(p, s, i, base, KeyValues(Resolve(view, s) + writes, names), c);
    }
  }

  lemma BaseTraced(p: Pipeline, s: FlowState, i: nat, base: StepVisit, view: Values, c: Choices) returns (k: nat)
    requires i < |p.steps| == |p.success| == |p.maxVisits| == |s.visits| && base.err == []
    requires RejectsAt(s, i, base)
    ensures var v := Decided(base, Choose(p, s, p.success[i], 0, base.rejected, view, c));
      v.err == [] ==> ChosenAt(p.success[i], v, k) && RejectsAt(s, i, v)
  {
    k := ChooseTraced(p, s, p.success[i], 0, base.rejected, view, c);
    hide Choose;
  }

  lemma SuccessGoes(p: Pipeline, a: Config, s: FlowState, v: StepVisit, k: nat)
    requires TablesOk(p) && Sized(p) && Fits(p, a.state) && a.at < |p.steps| && Fits(p, s)
    requires SameRewind(Now(a), s.rewind) && v.err == [] && ChosenAt(p.success[a.at], v, k) && RejectsAt(s, a.at, v)
    requires Flow.Succeeded(p, s, a.at, v).next.Goto?
    ensures GoesAs(p, a, Flow.Succeeded(p, s, a.at, v))
  {
    var i, list := a.at, p.success[a.at];
    var e := Flow.Succeeded(p, s, i, v);
    if k < |list| {
      RuleFacts(p, i, false, k);
    }
    hide TablesOk, RulesOf, RejectRewind, EndRewind, Commit, StepFailed, SpentAt;
    assert k < |list| ==> list[k].to != FAIL;
    if v.rejected {
      assert OpenUpTo(list, k);
      assert Continues(list, i, |p.steps|, e.next.index);
    } else {
      assert Plain(list, k);
      if k < |list| && list[k].rewind {
        assert TakenAs(p, list[k], k);
      } else if k < |list| {
        assert PlainRule(list, k, |p.steps|, e.next.index);
      }
    }
  }

  /** Rewinds from the same step have the same target. */
  lemma ListTargets(p: Pipeline, i: nat)
    requires Accepted(p) && i < |p.steps|
    ensures Sized(p) && OneTarget(p.failure[i]) && p.fallback[i] == LastFallback(p.failure[i])
  {
    assert TablesOk(p);
    var list := p.failure[i];
    forall j, k | 0 <= j < |list| && 0 <= k < |list| && list[j].rewind && list[k].rewind ensures list[j].to == list[k].to {
      RuleFacts(p, i, true, j);
      RuleFacts(p, i, true, k);
      SameTarget(p, list[j], list[k]);
    }
  }

  /** What a failure decides, in the state it leaves. */
  lemma DecisionTraced(p: Pipeline, s: FlowState, i: nat, v: StepVisit, c: Choices)
    requires Accepted(p) && Sized(p) && Fits(p, s) && i < |p.steps|
    ensures DecisionFits(p, s, p.failure[i], p.fallback[i], DecideFailure(p, s, i, v, c))
  {
    var mid := if EndsRewind(s, i) && (v.rejected || v.acceptFailed) then RejectRewind(p, s) else s;
    assert mid.visits == s.visits;
    hide Accepted, EvalFailure, RejectRewind, Asks, OneTarget, LastFallback, TakenAt, KeyValues;
    ListTargets(p, i);
    var restorable := !(EndsRewind(s, i) && (v.rejected || v.acceptFailed)) && s.rewind.Some? && s.rewind.value.rule.hasRestore && !v.accepted;
    FailureTraced(p, mid, i, v.err, KeyValues(Resolve(v.view, mid), Names(p.steps[i].readKeys)), c, 0, restorable, v.maxed, v.err, []);
    FitsSame(p, mid, s, p.failure[i], p.fallback[i], DecideFailure(p, s, i, v, c));
  }

  lemma FitsSame(p: Pipeline, mid: FlowState, s: FlowState, list: seq<Rule>, last: int, d: Decision)
    requires |s.visits| == |p.maxVisits| && mid.visits == s.visits && DecisionFits(p, mid, list, last, d)
    ensures DecisionFits(p, s, list, last, d)
  {
    if d.Take? {
      var k :| TakenAt(p, mid, list, k, d.rule);
      assert TakenAt(p, s, list, k, d.rule);
    }
  }

  lemma TakeGoes(p: Pipeline, a: Config, s: FlowState, rule: Rule, k: int, e: Ending)
    requires Accepted(p) && Sized(p) && Fits(p, a.state) && a.at < |p.steps| && s.visits == a.state.visits[a.at := a.state.visits[a.at] + 1]
    requires OneTarget(p.failure[a.at]) && TakenAt(p, s, p.failure[a.at], k, rule) && rule.to != FAIL
    requires e.next == Goto(Dest(rule, |p.steps|)) && e.rewind == (if rule.rewind then Some(rule) else None)
    ensures GoesAs(p, a, e)
  {
    assert TablesOk(p);
    var list := p.failure[a.at];
    RuleFacts(p, a.at, true, k);
    PassableOpen(p, s, list, k);
    if rule.rewind {
      NotSpentPlain(p, s, list, k);
      assert TakenAs(p, rule, k);
    } else if Plain(list, k) {
      assert PlainRule(list, k, |p.steps|, e.next.index);
    } else {
      assert OpenRule(list, k, |p.steps|, e.next.index);
      var u := FirstPlain(list, k);
      assert list[u].rewind && Exhausted(p, s, list[u]);
      RuleFacts(p, a.at, true, u);
      assert Count(a, list[u]) >= p.maxVisits[list[u].to];
      assert SpentAt(p, a, e.next.index);
    }
  }

  lemma RestoreGoes(p: Pipeline, a: Config, s: FlowState, v: StepVisit, c: Choices)
    requires TablesOk(p) && Sized(p) && Fits(p, a.state) && a.at < |p.steps| && Fits(p, s) && SameRewind(Now(a), s.rewind)
    requires s.rewind.Some? && s.rewind.value.rule.hasRestore && Asks(p.failure[a.at], p.fallback[a.at])
    requires RestoreFailed(p, s, a.at, v, c).next.Goto?
    ensures GoesAs(p, a, RestoreFailed(p, s, a.at, v, c))
  {
    var from, mid := s.rewind.value.rule.from, RejectRewind(p, s);
    var list := p.success[from];
    var view := KeyValues(mid.values, Names(p.steps[from].readKeys) + Names(p.steps[from].writeKeys));
    var r := ChooseRestored(list, 0, view, c);
    ChooseRestoredOk(list, 0, view, c);
    var e := RestoreFailed(p, s, a.at, v, c);
    assert e.rewind.None? && Continues(list, from, |p.steps|, e.next.index) by {
      hide TablesOk, RejectRewind, StepFailed, ChooseRestored, KeyValues;
      if r.Chosen? && r.rule.Some? {
        var m :| 0 <= m < |list| && list[m] == r.rule.value && !r.rule.value.rewind && OpenUpTo(list, m);
        assert r.rule.value.to != FAIL && Dest(list[m], |p.steps|) == e.next.index;
      }
    }
    hide RestoreFailed, TablesOk, Asks;
    assert UndoneAt(p, a, e.next.index);
  }

  lemma FailureGoes(p: Pipeline, a: Config, s: FlowState, v: StepVisit, c: Choices)
    requires Accepted(p) && Sized(p) && Fits(p, a.state) && a.at < |p.steps| && s.visits == a.state.visits[a.at := a.state.visits[a.at] + 1]
    requires Fits(p, s) && SameRewind(Now(a), s.rewind) && FailedStep(p, s, a.at, v, c).next.Goto?
    ensures GoesAs(p, a, FailedStep(p, s, a.at, v, c))
  {
    assert TablesOk(p);
    DecisionTraced(p, s, a.at, v, c);
    ListTargets(p, a.at);
    var d := DecideFailure(p, s, a.at, v, c);
    hide Accepted, TablesOk, DecideFailure, RestoreFailed, RejectRewind, EndRewind, StepFailed, TakenAt, GoesAs, OneTarget, LastFallback;
    if d.Take? {
      var k :| TakenAt(p, s, p.failure[a.at], k, d.rule);
      TakeGoes(p, a, s, d.rule, k, FailedStep(p, s, a.at, v, c));
    } else {
      assert d.GoRestore?;
      RestoreGoes(p, a, s, v, c);
    }
  }

  /** An iteration goes on as the tables allow. */
  lemma FinishGoes(p: Pipeline, a: Config, c: Choices)
    requires Accepted(p) && Sized(p) && Fits(p, a.state) && a.at < |p.steps|
    requires Finish(p, a.state, a.at, c).next.Goto?
    ensures GoesAs(p, a, Finish(p, a.state, a.at, c))
  {
    assert TablesOk(p);
    StoreAllKeeps(Enter(p, Arrive(a.state, a.at), a.at), c.stores);
    var (s, v) := Visited(p, a.state, a.at, c);
    var k := VisitTraced(p, s, a.at, AmendedView(Arrive(a.state, a.at), a.at), c);
    assert s.visits == a.state.visits[a.at := a.state.visits[a.at] + 1] && SameRewind(Now(a), s.rewind);
    hide Accepted, TablesOk, Execute, StoreAll, Enter, FailedStep, Flow.Succeeded, GoesAs, ChosenAt, RejectsAt, SameRewind;
    if v.err == [] {
      SuccessGoes(p, a, s, v, k);
    } else {
      FailureGoes(p, a, s, v, c);
    }
  }
}

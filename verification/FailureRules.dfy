/** How often a failure calls the hooks of its transitions, and when a Fallback goes unasked. */
module FailureRules {
  import opened Basics
  import opened Pipelines
  import opened Flow
  import opened Runs

  /** EvalFailure, one rule at a time. */
  lemma EvalUnfolds(
    p: Pipeline, s: FlowState, i: nat, first: Error, view: Values, c: Choices,
    k: nat, restorable: bool, exhausted: bool, err: Error, calls: seq<Call>)
    requires i < |p.steps| == |p.failure| == |p.fallback| == |p.maxVisits| == |s.visits|
    requires k <= |p.failure[i]|
    ensures var d := EvalFailure(p, s, i, first, view, c, k, restorable, exhausted, err, calls);
      var asked := calls + [AskRestore];
      if restorable && (k == |p.failure[i]| || k > p.fallback[i]) && c.restore(i, first) != No then
        d == if c.restore(i, first) == Panics then RestorePanics(asked) else GoRestore(asked)
      else if k == |p.failure[i]| then d == Stop(err, if restorable then asked else calls)
      else
        var rule := p.failure[i][k];
        var called := if rule.hasWhen then calls + [AskWhen(rule, err)] else calls;
        var answer := CallWhen(rule, c.whenFailed(rule, view, err));
        if restorable && k > p.fallback[i] then d == EvalFailure(p, s, i, first, view, c, k, false, exhausted, err, asked)
        else if exhausted && rule.rewind && Exhausted(p, s, rule) then
          d == EvalFailure(p, s, i, first, view, c, k + 1, restorable, exhausted, err, calls)
        else if answer == Panics then d == Stop(err + [HookFailure(rule.index, Unclassified)], called)
        else if answer == No then d == EvalFailure(p, s, i, first, view, c, k + 1, restorable, exhausted, err, called)
        else d == TakeFailure(p, s, i, first, view, c, k, rule, restorable, exhausted, err, called)
  {
  }

  lemma TakeUnfolds(
    p: Pipeline, s: FlowState, i: nat, first: Error, view: Values, c: Choices,
    k: nat, rule: Rule, restorable: bool, exhausted: bool, err: Error, calls: seq<Call>)
    requires i < |p.steps| == |p.failure| == |p.fallback| == |p.maxVisits| == |s.visits|
    requires k < |p.failure[i]| && rule == p.failure[i][k]
    requires !(exhausted && rule.rewind && Exhausted(p, s, rule))
    ensures var d := TakeFailure(p, s, i, first, view, c, k, rule, restorable, exhausted, err, calls);
      var asked := calls + [AskRestore];
      if restorable && k < p.fallback[i] && !rule.fallback then
        d == match c.restore(i, first)
          case Panics => RestorePanics(asked)
          case Yes => GoRestore(asked)
          case No => TakeFailure(p, s, i, first, view, c, k, rule, false, exhausted, err, asked)
      else if !rule.rewind then d == Take(rule, None, err, calls)
      else if Exhausted(p, s, rule) then
        d == EvalFailure(p, s, i, first, view, c, 0, restorable, true, err + [VisitsExceeded(rule.index)], calls)
      else match CallAmend(p, rule, view, c)
        case Err(amendErr) => d == Stop(err + amendErr, calls + [AskAmend(rule)])
        case Ok(amended) => d == Take(rule, amended, err, if rule.hasAmend then calls + [AskAmend(rule)] else calls)
  {
  }

  /** How often calls asks RestoreOnError. */
  function Restores(calls: seq<Call>): nat {
    if calls == [] then 0 else Restores(calls[..|calls| - 1]) + if calls[|calls| - 1].AskRestore? then 1 else 0
  }

  /** How often calls evaluates the When of the rule with index. */
  function Asked(calls: seq<Call>, index: nat): nat {
    if calls == [] then 0
    else
      var last := calls[|calls| - 1];
      Asked(calls[..|calls| - 1], index) + if last.AskWhen? && last.rule.index == index then 1 else 0
  }

  /** How many rules of list from position k on have index. */
  function From(list: seq<Rule>, k: nat, index: nat): nat
    requires k <= |list|
    decreases |list| - k
  {
    if k == |list| then 0 else From(list, k + 1, index) + if list[k].index == index then 1 else 0
  }

  lemma FromNext(list: seq<Rule>, k: nat, index: nat)
    requires k <= |list|
    ensures From(list, k, index) == if k == |list| then 0 else From(list, k + 1, index) + if list[k].index == index then 1 else 0
  {
  }

  lemma Appended(calls: seq<Call>, call: Call, index: nat)
    ensures Restores(calls + [call]) == Restores(calls) + if call.AskRestore? then 1 else 0
    ensures Asked(calls + [call], index) == Asked(calls, index) + if call.AskWhen? && call.rule.index == index then 1 else 0
  {
    assert (calls + [call])[..|calls|] == calls;
  }

  /** The calls of d go on from calls by at most asks of RestoreOnError and whens of the rule's When. */
  ghost predicate CallsAtMost(d: Decision, calls: seq<Call>, index: nat, asks: nat, whens: nat) {
    Restores(d.calls) <= Restores(calls) + asks && Asked(d.calls, index) <= Asked(calls, index) + whens
  }

  lemma {:induction false} EvalCalls(
    p: Pipeline, s: FlowState, i: nat, first: Error, view: Values, c: Choices,
    k: nat, restorable: bool, exhausted: bool, err: Error, calls: seq<Call>, index: nat)
    requires i < |p.steps| == |p.failure| == |p.fallback| == |p.maxVisits| == |s.visits|
    requires k <= |p.failure[i]|
    ensures CallsAtMost(EvalFailure(p, s, i, first, view, c, k, restorable, exhausted, err, calls), calls, index,
      if restorable then 1 else 0,
      From(p.failure[i], k, index) + if exhausted then 0 else From(p.failure[i], 0, index))
    decreases !exhausted, |p.failure[i]| - k, if restorable then 3 else 2
  {
    hide Restores, Asked, EvalFailure, TakeFailure, Exhausted, CallAmend, CallWhen, From;
    FromNext(p.failure[i], k, index);
    EvalUnfolds(p, s, i, first, view, c, k, restorable, exhausted, err, calls);
    Appended(calls, AskRestore, index);
    var list := p.failure[i];
    if k < |list| {
      var rule := list[k];
      if restorable && k > p.fallback[i] {
        if c.restore(i, first) == No {
          EvalCalls(p, s, i, first, view, c, k, false, exhausted, err, calls + [AskRestore], index);
        }
      } else if exhausted && rule.rewind && Exhausted(p, s, rule) {
        EvalCalls(p, s, i, first, view, c, k + 1, restorable, exhausted, err, calls, index);
      } else {
        var called := if rule.hasWhen then calls + [AskWhen(rule, err)] else calls;
        Appended(calls, AskWhen(rule, err), index);
        match CallWhen(rule, c.whenFailed(rule, view, err))
        case Panics =>
        case No => EvalCalls(p, s, i, first, view, c, k + 1, restorable, exhausted, err, called, index);
        case Yes => TakeCalls(p, s, i, first, view, c, k, rule, restorable, exhausted, err, called, index);
      }
    }
  }

  lemma {:induction false} TakeCalls(
    p: Pipeline, s: FlowState, i: nat, first: Error, view: Values, c: Choices,
    k: nat, rule: Rule, restorable: bool, exhausted: bool, err: Error, calls: seq<Call>, index: nat)
    requires i < |p.steps| == |p.failure| == |p.fallback| == |p.maxVisits| == |s.visits|
    requires k < |p.failure[i]| && rule == p.failure[i][k]
    requires !(exhausted && rule.rewind && Exhausted(p, s, rule))
    ensures CallsAtMost(TakeFailure(p, s, i, first, view, c, k, rule, restorable, exhausted, err, calls), calls, index,
      if restorable then 1 else 0, if exhausted then 0 else From(p.failure[i], 0, index))
    decreases !exhausted, |p.failure[i]| - k, if restorable then 1 else 0
  {
    hide Restores, Asked, EvalFailure, TakeFailure, Exhausted, CallAmend, From;
    TakeUnfolds(p, s, i, first, view, c, k, rule, restorable, exhausted, err, calls);
    Appended(calls, AskAmend(rule), index);
    Appended(calls, AskRestore, index);
    if restorable && k < p.fallback[i] && !rule.fallback {
      if c.restore(i, first) == No {
        TakeCalls(p, s, i, first, view, c, k, rule, false, exhausted, err, calls + [AskRestore], index);
      }
    } else if rule.rewind && Exhausted(p, s, rule) {
      EvalCalls(p, s, i, first, view, c, 0, restorable, true, err + [VisitsExceeded(rule.index)], calls, index);
    }
  }

  /** The rules of a step have different indexes. */
  lemma {:induction false} OneOf(rules: seq<Rule>, i: nat, onError: bool, index: nat)
    requires forall m :: 0 <= m < |rules| ==> rules[m].index == m
    ensures From(RulesOf(rules, i, onError), 0, index) <= 1
    ensures index >= |rules| ==> From(RulesOf(rules, i, onError), 0, index) == 0
  {
    if rules != [] {
      var init := rules[..|rules| - 1];
      OneOf(init, i, onError, index);
      var list := RulesOf(init, i, onError);
      var last := rules[|rules| - 1];
      if last.from == i && last.onError == onError {
        FromAppend(list, last, 0, index);
      }
    }
  }

  lemma {:induction false} FromAppend(list: seq<Rule>, last: Rule, k: nat, index: nat)
    requires k <= |list|
    ensures From(list + [last], k, index) == From(list, k, index) + if last.index == index then 1 else 0
    decreases |list| - k
  {
    if k < |list| {
      FromAppend(list, last, k + 1, index);
    }
  }

  lemma AtMostOne(p: Pipeline, i: nat, index: nat)
    requires TablesOk(p) && i < |p.steps|
    ensures From(p.failure[i], 0, index) <= 1
  {
    OneOf(p.rules, i, true, index);
  }

  /** A failure evaluates the When of each of its rules at most twice, however often a matching
      rewind has used its target's visits, and asks RestoreOnError at most once. */
  lemma FailureCalls(p: Pipeline, s: FlowState, i: nat, visit: StepVisit, c: Choices, index: nat)
    requires TablesOk(p) && Sized(p) && Fits(p, s) && i < |p.steps|
    ensures var d := DecideFailure(p, s, i, visit, c);
      Restores(d.calls) <= 1 && Asked(d.calls, index) <= 2
  {
    hide EvalFailure, TablesOk, From, RestoreValues, RestoreDefaulted;
    AtMostOne(p, i, index);
    var undo := EndsRewind(s, i) && (visit.rejected || visit.acceptFailed);
    var mid := if undo then RejectRewind(p, s) else s;
    var restorable := !undo && s.rewind.Some? && s.rewind.value.rule.hasRestore && !visit.accepted;
    var view := KeyValues(Resolve(visit.view, mid), Names(p.steps[i].readKeys));
    EvalCalls(p, mid, i, visit.err, view, c, 0, restorable, visit.maxed, visit.err, [], index);
  }

  /** When a failure takes the rule Fallback marked, without a rewind running out of visits first,
      RestoreOnError has not been asked: falling back comes before restoring. */
  lemma FallbackGoesUnasked(p: Pipeline, s: FlowState, i: nat, visit: StepVisit, c: Choices)
    requires Sized(p) && Fits(p, s) && i < |p.steps|
    requires p.fallback[i] == LastFallback(p.failure[i])
    requires var d := DecideFailure(p, s, i, visit, c); d.Take? && d.rule.fallback && d.err == visit.err
    ensures AskRestore !in DecideFailure(p, s, i, visit, c).calls
  {
    var undo := EndsRewind(s, i) && (visit.rejected || visit.acceptFailed);
    var mid := if undo then RejectRewind(p, s) else s;
    var restorable := !undo && s.rewind.Some? && s.rewind.value.rule.hasRestore && !visit.accepted;
    var view := KeyValues(Resolve(visit.view, mid), Names(p.steps[i].readKeys));
    EvalFallback(p, mid, i, visit.err, view, c, 0, restorable, visit.maxed, visit.err, []);
  }

  /** The error only grows, and a fallback is taken without asking from a point where nobody has
      asked; once past the last fallback none is taken. */
  lemma {:induction false} EvalFallback(
    p: Pipeline, s: FlowState, i: nat, first: Error, view: Values, c: Choices,
    k: nat, restorable: bool, exhausted: bool, err: Error, calls: seq<Call>)
    requires i < |p.steps| == |p.failure| == |p.fallback| == |p.maxVisits| == |s.visits|
    requires k <= |p.failure[i]| && p.fallback[i] == LastFallback(p.failure[i])
    ensures var d := EvalFailure(p, s, i, first, view, c, k, restorable, exhausted, err, calls);
      d.Take? && d.rule.fallback && d.err == err ==> k <= p.fallback[i] && (AskRestore !in calls ==> AskRestore !in d.calls)
    ensures var d := EvalFailure(p, s, i, first, view, c, k, restorable, exhausted, err, calls);
      d.Take? ==> err <= d.err
    decreases !exhausted, |p.failure[i]| - k, if restorable then 3 else 2
  {
    var list := p.failure[i];
    if k < |list| {
      var rule := list[k];
      if restorable && k > p.fallback[i] {
        if c.restore(i, first) == No {
          EvalFallback(p, s, i, first, view, c, k, false, exhausted, err, calls + [AskRestore]);
        }
      } else if exhausted && rule.rewind && Exhausted(p, s, rule) {
        EvalFallback(p, s, i, first, view, c, k + 1, restorable, exhausted, err, calls);
      } else {
        var called := if rule.hasWhen then calls + [AskWhen(rule, err)] else calls;
        match CallWhen(rule, c.whenFailed(rule, view, err))
        case Panics =>
        case No => EvalFallback(p, s, i, first, view, c, k + 1, restorable, exhausted, err, called);
        case Yes => TakeFallback(p, s, i, first, view, c, k, rule, restorable, exhausted, err, called);
      }
    }
  }

  lemma {:induction false} TakeFallback(
    p: Pipeline, s: FlowState, i: nat, first: Error, view: Values, c: Choices,
    k: nat, rule: Rule, restorable: bool, exhausted: bool, err: Error, calls: seq<Call>)
    requires i < |p.steps| == |p.failure| == |p.fallback| == |p.maxVisits| == |s.visits|
    requires k < |p.failure[i]| && rule == p.failure[i][k] && p.fallback[i] == LastFallback(p.failure[i])
    requires !(exhausted && rule.rewind && Exhausted(p, s, rule))
    ensures var d := TakeFailure(p, s, i, first, view, c, k, rule, restorable, exhausted, err, calls);
      d.Take? && d.rule.fallback && d.err == err ==> d.rule == rule && (AskRestore !in calls ==> AskRestore !in d.calls)
    ensures var d := TakeFailure(p, s, i, first, view, c, k, rule, restorable, exhausted, err, calls);
      d.Take? ==> err <= d.err
    decreases !exhausted, |p.failure[i]| - k, if restorable then 1 else 0
  {
    if restorable && k < p.fallback[i] && !rule.fallback {
      if c.restore(i, first) == No {
        TakeFallback(p, s, i, first, view, c, k, rule, false, exhausted, err, calls + [AskRestore]);
      }
    } else if rule.rewind && Exhausted(p, s, rule) {
      EvalFallback(p, s, i, first, view, c, 0, restorable, true, err + [VisitsExceeded(rule.index)], calls);
    }
  }
}

/** The choices that take a run by a given rule: which answers of steps and hooks lead where. */
module Steering {
  import opened Basics
  import opened Pipelines
  import opened Flow
  import opened Runs
  import opened Reachability

  /** A value of its type for each declared write. */
  function AllWrites(node: StepNode): Values {
    map key | key in Names(node.writeKeys) :: Value(if Declares(node.writeKeys, key) then TypeOf(node.writeKeys, key) else 0, 0)
  }

  predicate Hits(goal: Option<Rule>, rule: Rule) {
    goal == Some(rule)
  }

  function Match(goal: Option<Rule>, rule: Rule): Verdict {
    if Hits(goal, rule) then Yes else No
  }

  /** The choices of an iteration of node that fails or sets every write, and in which only goal's When matches. */
  function Steered(node: StepNode, fails: bool, goal: Option<Rule>, accept: Verdict, restore: Verdict): Choices {
    Choices(
      if fails then Fails(Unclassified) else Returns(AllWrites(node), {}, map[]), [],
      (key, was, now) => Ok(now), (was, now) => accept, (rule, view) => Match(goal, rule),
      (rule, view, err) => Match(goal, rule), (rule, view) => Match(goal, rule), (rule, view) => Ok(map[]),
      (step, err) => restore, false)
  }

  /** The choices that fail node, ask RestoreOnError at goal and then take the rule restored. */
  function SteeredBack(node: StepNode, goal: Option<Rule>, restored: Option<Rule>): Choices {
    Steered(node, true, goal, Yes, Yes).(whenRestored := (rule, view) => Match(restored, rule))
  }

  // ---- transitions on success ----

  /** The k-th rule of list, or none past the last. */
  function Goal(list: seq<Rule>, k: nat): Option<Rule>
    requires k <= |list|
  {
    if k < |list| then Some(list[k]) else None
  }

  /** A rewind may be taken, and its Amend has what to amend. */
  predicate MayRewind(p: Pipeline, s: FlowState, rule: Rule)
    requires |s.visits| == |p.maxVisits|
  {
    !Exhausted(p, s, rule) && (rule.hasAmend ==> AmendsStep(p, rule))
  }

  lemma AmendSucceeds(p: Pipeline, rule: Rule, view: Values, node: StepNode, fails: bool, goal: Option<Rule>, accept: Verdict,
    restore: Verdict)
    requires rule.hasAmend ==> AmendsStep(p, rule)
    ensures CallAmend(p, rule, view, Steered(node, fails, goal, accept, restore)).Ok?
  {
    assert Steered(node, fails, goal, accept, restore).amend(rule, view) == Ok(map[]);
  }

  /** Choose comes to the k-th rule when those before it have a When, or are rewinds a rejected visit passes over. */
  lemma {:induction false} ChooseSteered(p: Pipeline, s: FlowState, list: seq<Rule>, j: nat, k: nat, rejected: bool, view: Values,
    node: StepNode, fails: bool, accept: Verdict, restore: Verdict)
    requires j <= k <= |list| && |s.visits| == |p.maxVisits|
    requires forall m :: j <= m < k ==> list[m].hasWhen || (rejected && list[m].rewind)
    requires k < |list| && list[k].rewind ==> !rejected && MayRewind(p, s, list[k])
    ensures var r := Choose(p, s, list, j, rejected, view, Steered(node, fails, Goal(list, k), accept, restore));
      r.Chosen? && r.rule == Goal(list, k)
    decreases k - j
  {
    var goal := Goal(list, k);
    if j < k && ((rejected && list[j].rewind) || !Hits(goal, list[j])) {
      ChooseSteered(p, s, list, j + 1, k, rejected, view, node, fails, accept, restore);
    } else if j < |list| && list[j].rewind {
      AmendSucceeds(p, list[j], view, node, fails, goal, accept, restore);
    }
  }

  // ---- transitions on failure ----

  /** The rules of list before the k-th have a When, or are rewinds whose target has used its visits. */
  predicate Passable(p: Pipeline, s: FlowState, list: seq<Rule>, k: nat)
    requires k <= |list| && |s.visits| == |p.maxVisits|
  {
    forall m :: 0 <= m < k ==> list[m].hasWhen || (list[m].rewind && Exhausted(p, s, list[m]))
  }

  /** EvalFailure takes the k-th rule when it may pass over those before it and RestoreOnError says no. */
  lemma {:induction false} FailureSteered(p: Pipeline, s: FlowState, i: nat, first: Error, view: Values, j: nat, k: nat,
    restorable: bool, exhausted: bool, err: Error, calls: seq<Call>, node: StepNode, fails: bool, accept: Verdict)
    requires i < |p.steps| == |p.failure| == |p.fallback| == |p.maxVisits| == |s.visits|
    requires j <= k < |p.failure[i]| && Passable(p, s, p.failure[i], k)
    requires p.failure[i][k].rewind ==> MayRewind(p, s, p.failure[i][k])
    ensures var rule := p.failure[i][k];
      var c := Steered(node, fails, Some(rule), accept, No);
      var d := EvalFailure(p, s, i, first, view, c, j, restorable, exhausted, err, calls);
      d.Take? && d.rule == rule
    decreases !exhausted, |p.failure[i]| - j, restorable
  {
    var list := p.failure[i];
    var goal := Some(list[k]);
    var c := Steered(node, fails, goal, accept, No);
    var rule := list[j];
    if restorable && j > p.fallback[i] {
      FailureSteered(p, s, i, first, view, j, k, false, exhausted, err, calls + [AskRestore], node, fails, accept);
    } else if exhausted && rule.rewind && Exhausted(p, s, rule) {
      FailureSteered(p, s, i, first, view, j + 1, k, restorable, exhausted, err, calls, node, fails, accept);
    } else {
      var called := if rule.hasWhen then calls + [AskWhen(rule, err)] else calls;
      if rule.hasWhen && rule != list[k] {
        FailureSteered(p, s, i, first, view, j + 1, k, restorable, exhausted, err, called, node, fails, accept);
      } else {
        TakeSteered(p, s, i, first, view, j, k, restorable, exhausted, err, called, node, fails, accept);
      }
    }
  }

  lemma {:induction false} TakeSteered(p: Pipeline, s: FlowState, i: nat, first: Error, view: Values, j: nat, k: nat,
    restorable: bool, exhausted: bool, err: Error, calls: seq<Call>, node: StepNode, fails: bool, accept: Verdict)
    requires i < |p.steps| == |p.failure| == |p.fallback| == |p.maxVisits| == |s.visits|
    requires j <= k < |p.failure[i]| && Passable(p, s, p.failure[i], k)
    requires p.failure[i][k].rewind ==> MayRewind(p, s, p.failure[i][k])
    requires var rule := p.failure[i][j];
      && (rule == p.failure[i][k] || !rule.hasWhen)
      && !(exhausted && rule.rewind && Exhausted(p, s, rule))
    ensures var rule := p.failure[i][k];
      var c := Steered(node, fails, Some(rule), accept, No);
      var d := TakeFailure(p, s, i, first, view, c, j, p.failure[i][j], restorable, exhausted, err, calls);
      d.Take? && d.rule == rule
    decreases !exhausted, |p.failure[i]| - j, false, if restorable then 1 else 0
  {
    var list := p.failure[i];
    var goal := Some(list[k]);
    var rule := list[j];
    if restorable && j < p.fallback[i] && !rule.fallback {
      TakeSteered(p, s, i, first, view, j, k, false, exhausted, err, calls + [AskRestore], node, fails, accept);
    } else if rule.rewind {
      if Exhausted(p, s, rule) {
        FailureSteered(p, s, i, first, view, 0, k, restorable, true, err + [VisitsExceeded(rule.index)], calls, node, fails, accept);
      } else {
        AmendSucceeds(p, rule, view, node, fails, goal, accept, No);
      }
    }
  }

  /** The k-th rule of list, or the end, is one at which RestoreOnError is asked, and the rules before it may be
      passed over. */
  predicate AskedAt(p: Pipeline, s: FlowState, list: seq<Rule>, k: nat, last: int)
    requires |s.visits| == |p.maxVisits|
  {
    && k <= |list| && Passable(p, s, list, k)
    && (k == last + 1 || (k < |list| && k < last && !list[k].fallback && (list[k].rewind ==> Plain(list, k))))
  }

  /** The rule to match for RestoreOnError to be asked there. */
  function AskGoal(list: seq<Rule>, k: nat, last: int): Option<Rule>
    requires k <= |list|
  {
    if k == last + 1 then None else Goal(list, k)
  }

  /** EvalFailure restores when RestoreOnError is asked and says yes. */
  lemma {:induction false} RestoreSteered(p: Pipeline, s: FlowState, i: nat, first: Error, view: Values, j: nat, k: nat,
    exhausted: bool, err: Error, calls: seq<Call>, node: StepNode, restored: Option<Rule>)
    requires i < |p.steps| == |p.failure| == |p.fallback| == |p.maxVisits| == |s.visits|
    requires AskedAt(p, s, p.failure[i], k, p.fallback[i]) && j <= k
    requires exhausted && k < |p.failure[i]| && k != p.fallback[i] + 1 ==> !p.failure[i][k].rewind
    ensures var c := SteeredBack(node, AskGoal(p.failure[i], k, p.fallback[i]), restored);
      EvalFailure(p, s, i, first, view, c, j, true, exhausted, err, calls).GoRestore?
    decreases !exhausted, |p.failure[i]| - j
  {
    var list, last := p.failure[i], p.fallback[i];
    var goal := AskGoal(list, k, last);
    var c := SteeredBack(node, goal, restored);
    if j < |list| && j <= last {
      var rule := list[j];
      assert c.whenFailed(rule, view, err) == Match(goal, rule);
      if exhausted && rule.rewind && Exhausted(p, s, rule) {
        RestoreSteered(p, s, i, first, view, j + 1, k, exhausted, err, calls, node, restored);
      } else {
        var called := if rule.hasWhen then calls + [AskWhen(rule, err)] else calls;
        if rule.hasWhen && !Hits(goal, rule) {
          RestoreSteered(p, s, i, first, view, j + 1, k, exhausted, err, called, node, restored);
        } else if j < last && !rule.fallback {
          assert TakeFailure(p, s, i, first, view, c, j, rule, true, exhausted, err, called).GoRestore?;
        } else {
          assert !rule.hasWhen && rule.rewind && Exhausted(p, s, rule);
          RestoreSteered(p, s, i, first, view, 0, k, true, err + [VisitsExceeded(rule.index)], called, node, restored);
        }
      }
    }
  }

  /** ChooseRestored comes to the k-th rule when none before it closes it off. */
  lemma {:induction false} RestoredSteered(list: seq<Rule>, j: nat, k: nat, view: Values, node: StepNode, goal: Option<Rule>)
    requires j <= k <= |list| && OpenUpTo(list, k) && (k < |list| ==> !list[k].rewind)
    ensures ChooseRestored(list, j, view, SteeredBack(node, goal, Goal(list, k))) == Chosen(Goal(list, k), None)
    decreases k - j
  {
    if j < k && (list[j].rewind || !Hits(Goal(list, k), list[j])) {
      RestoredSteered(list, j + 1, k, view, node, goal);
    }
  }

  // ---- writes ----

  lemma AllWritesOk(node: StepNode, view: Values)
    ensures WritesOk(node, view, AllWrites(node), {})
  {
    forall j | 0 <= j < |node.writeKeys| ensures node.writeKeys[j].name in AllWrites(node) {
    }
    forall key | key in AllWrites(node) ensures Declares(node.writeKeys, key) {
    }
  }

  /** Every write of node from the j-th on is committed, or one of them fails the merge guard. */
  lemma {:induction false} WritesSteered(p: Pipeline, s: FlowState, node: StepNode, j: nat, committed: Values, goal: Option<Rule>,
    accept: Verdict, restore: Verdict)
    requires DistinctKeys(node.writeKeys) && j <= |node.writeKeys|
    ensures var r := MergeFrom(p, s, node, AllWrites(node), Steered(node, false, goal, accept, restore), j, committed);
      && (r.Err? ==> exists key :: r.error == [HoldsWrite(key)])
      && (r.Ok? ==> committed.Keys <= r.value.Keys && forall m :: j <= m < |node.writeKeys| ==>
           var key := node.writeKeys[m].name; key in r.value && (Holds(s, key) ==> key in p.merges))
    decreases |node.writeKeys| - j
  {
    var writes, c := AllWrites(node), Steered(node, false, goal, accept, restore);
    if j < |node.writeKeys| {
      var key := node.writeKeys[j].name;
      TypeOfDistinct(node.writeKeys, j);
      assert key in writes && writes[key].typ == node.writeKeys[j].typ;
      if !Holds(s, key) || key in p.merges {
        assert Holds(s, key) ==> c.merge(key, s.values[key], writes[key]) == Ok(writes[key]);
        WritesSteered(p, s, node, j + 1, committed[key := writes[key]], goal, accept, restore);
      } else {
        assert MergeFrom(p, s, node, writes, c, j, committed) == Err([HoldsWrite(key)]);
      }
    }
  }
}

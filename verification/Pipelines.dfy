/**
 A built pipeline and the definitions its checks are about.

 The predicates here say what each fact of Build means, one rule or one step at a time and with
 no regard to cost. Module TransitionFacts computes them in one pass over the transitions and
 one over the steps; module FlowRun runs what Build accepts.
 */
module Pipelines {
  import opened Basics

  /** The To of a rule that ends the run, and of one that fails it. */
  const END: int := -1
  const FAIL: int := -2

  /** A Transition as Build checked it, with the steps it names as indexes. The has fields say
      which of its functions are set. */
  datatype Rule = Rule(
    index: nat, from: nat, to: int, rewind: bool, onError: bool,
    hasWhen: bool, hasAmend: bool, hasAccept: bool, hasRestore: bool, fallback: bool)

  /** The steps from a rewind's target through its From. */
  datatype Span = Span(start: nat, end: nat) {
    predicate Holds(i: int) {
      start <= i <= end
    }
  }

  function SpanOf(rule: Rule): Span
    requires rule.rewind && rule.to >= 0
  {
    Span(rule.to, rule.from)
  }

  /** A top-level step: what it declares, the keys WithAmendable declares amendable, if it is one,
      and whether it is the routing step of a Branch. */
  datatype StepNode = StepNode(
    name: Name, readKeys: seq<KeyRef>, writeKeys: seq<KeyRef>, amendable: Option<seq<KeyRef>>, route: bool)

  /** A Pipeline as Build returns it, with the tables a run needs. keys holds, by range, the
      writes the steps of the range declare; rules with the same range share the entry. */
  datatype Pipeline = Pipeline(
    inputs: seq<KeyRef>,
    steps: seq<StepNode>,
    rules: seq<Rule>,
    success: seq<seq<Rule>>,
    failure: seq<seq<Rule>>,
    maxVisits: seq<int>,
    target: seq<bool>,
    fallback: seq<int>,
    keys: map<Span, map<Name, Type>>,
    merges: set<Name>,
    defaults: Values)

  // ---- what a rule means ----

  /** The index a rule that is not a rewind and not to Fail takes the run to, of n steps. */
  function Dest(rule: Rule, n: nat): int {
    if rule.to == END then n else rule.to
  }

  /** A rule that takes the run to a later step or to End. */
  predicate Forward(rule: Rule) {
    !rule.rewind && rule.to != FAIL
  }

  /** The rule skips over step i of n. */
  predicate Skips(rule: Rule, i: int, n: nat) {
    Forward(rule) && rule.from < i < Dest(rule, n)
  }

  /** A rule that always matches when the run evaluates it on a rejected visit too. */
  predicate Closing(rule: Rule) {
    !rule.rewind && !rule.hasWhen
  }

  /** No rule of list before position k always matches. */
  predicate OpenUpTo(list: seq<Rule>, k: nat)
    requires k <= |list|
  {
    forall j :: 0 <= j < k ==> !Closing(list[j])
  }

  /** After step i succeeds, a run that rewinds no further may continue at next: by the rule at
      some position of list, its success rules, or by none of them. */
  predicate Continues(list: seq<Rule>, i: nat, n: nat, next: int) {
    || (exists k :: 0 <= k < |list| && Forward(list[k]) && OpenUpTo(list, k) && Dest(list[k], n) == next)
    || (next == i + 1 && OpenUpTo(list, |list|))
  }

  /** After step i succeeds, a run that rewinds no further may continue at or before bound. */
  ghost predicate ContinuesWithin(list: seq<Rule>, i: nat, n: nat, bound: int) {
    exists next :: next <= bound && Continues(list, i, n, next)
  }

  /** A rule skips over step i, or takes it forward on error, so a run that passes i may do so
      without i's writes. */
  predicate MayNotWrite(rules: seq<Rule>, i: int, n: nat) {
    exists m :: 0 <= m < |rules| &&
      (Skips(rules[m], i, n) || (rules[m].onError && Forward(rules[m]) && rules[m].from == i))
  }

  /** A rewind lands on step t. */
  predicate IsTarget(rules: seq<Rule>, t: int) {
    exists m :: 0 <= m < |rules| && rules[m].rewind && rules[m].to == t
  }

  /** The rules of step i on success or on failure, in the order they are declared. */
  function RulesOf(rules: seq<Rule>, i: nat, onError: bool): (list: seq<Rule>)
    ensures forall k :: 0 <= k < |list| ==>
      list[k] in rules && list[k].from == i && list[k].onError == onError
  {
    if rules == [] then []
    else
      var last := rules[|rules| - 1];
      var list := RulesOf(rules[..|rules| - 1], i, onError);
      if last.from == i && last.onError == onError then list + [last] else list
  }

  /** The position of the last rule Fallback marked, or -1. */
  function LastFallback(list: seq<Rule>): (k: int)
    ensures -1 <= k < |list|
    ensures k >= 0 ==> list[k].fallback
    ensures forall j :: k < j < |list| ==> !list[j].fallback
  {
    if list == [] then -1
    else if list[|list| - 1].fallback then |list| - 1
    else LastFallback(list[..|list| - 1])
  }

  // ---- what the steps declare ----

  predicate Writes(steps: seq<StepNode>, w: int, key: Name) {
    0 <= w < |steps| && Declares(steps[w].writeKeys, key)
  }

  predicate Reads(steps: seq<StepNode>, i: int, key: Name) {
    0 <= i < |steps| && Declares(steps[i].readKeys, key)
  }

  /** Some step of the range declares key as a write. */
  predicate WrittenIn(steps: seq<StepNode>, span: Span, key: Name) {
    exists w :: span.start <= w <= span.end && Writes(steps, w, key)
  }

  /** A step before i writes key. */
  predicate WrittenBefore(steps: seq<StepNode>, i: int, key: Name) {
    exists w :: 0 <= w < i && Writes(steps, w, key)
  }

  // ---- the conditions of an accepted pipeline ----

  /** A rule compileTransition accepts. */
  predicate RuleOk(rule: Rule, n: nat) {
    && rule.from < n
    && FAIL <= rule.to < n
    && (rule.rewind <==> 0 <= rule.to <= rule.from)
    && (rule.hasAmend || rule.hasAccept || rule.hasRestore ==> rule.rewind)
    && (rule.onError ==> !rule.hasAccept && !rule.hasRestore)
  }

  /** Two rewinds with different ranges have no step in common. */
  predicate DisjointRanges(rules: seq<Rule>) {
    forall a, b :: 0 <= a < |rules| && 0 <= b < |rules| && rules[a].rewind && rules[b].rewind ==>
      || (rules[a].to == rules[b].to && rules[a].from == rules[b].from)
      || rules[a].from < rules[b].to
      || rules[b].from < rules[a].to
  }

  /** An input or a default gives key a value before the first step. */
  predicate Seeded(p: Pipeline, key: Name) {
    Declares(p.inputs, key) || key in p.defaults
  }

  /** Every run has a value of key when it reaches step i: the key is seeded, or a step before i
      that always writes when it is passed writes it. */
  predicate Guaranteed(p: Pipeline, i: int, key: Name) {
    || Seeded(p, key)
    || (exists w :: 0 <= w < i && Writes(p.steps, w, key) && !MayNotWrite(p.rules, w, |p.steps|))
  }

  /** Build lets step i read key: it is seeded, or earlier steps write it and each of them always
      does. */
  predicate Readable(p: Pipeline, i: int, key: Name) {
    || Seeded(p, key)
    || (WrittenBefore(p.steps, i, key)
        && forall w :: 0 <= w < i && Writes(p.steps, w, key) ==> !MayNotWrite(p.rules, w, |p.steps|))
  }

  /** A run may commit a write of key by step w and then one by the later step i: the run may
      continue at or before i after w, or a rewind lands after w and at or before i. */
  ghost predicate MayCommitBoth(p: Pipeline, w: int, i: int)
    requires 0 <= w < i < |p.steps| == |p.success|
  {
    || ContinuesWithin(p.success[w], w, |p.steps|, i)
    || (exists t :: w < t <= i && IsTarget(p.rules, t))
  }

  /** The tables of p are what its rules and steps say. */
  ghost predicate TablesOk(p: Pipeline) {
    var n := |p.steps|;
    && |p.success| == |p.failure| == |p.maxVisits| == |p.target| == |p.fallback| == n
    && (forall m :: 0 <= m < |p.rules| ==> RuleOk(p.rules[m], n) && p.rules[m].index == m)
    && (forall i :: 0 <= i < n ==> p.success[i] == RulesOf(p.rules, i, false))
    && (forall i :: 0 <= i < n ==> p.failure[i] == RulesOf(p.rules, i, true))
    && (forall i :: 0 <= i < n ==> p.fallback[i] == LastFallback(p.failure[i]))
    && (forall i :: 0 <= i < n ==> (p.target[i] <==> IsTarget(p.rules, i)))
    && (forall i :: 0 <= i < n && p.target[i] ==> p.maxVisits[i] >= 2)
    && KeysOk(p)
  }

  /** Every rewind's keys are exactly what the steps of its range declare as writes. */
  ghost predicate KeysOk(p: Pipeline) {
    forall m :: 0 <= m < |p.rules| && p.rules[m].rewind && 0 <= p.rules[m].to ==>
      && SpanOf(p.rules[m]) in p.keys
      && forall key :: key in p.keys[SpanOf(p.rules[m])] <==> WrittenIn(p.steps, SpanOf(p.rules[m]), key)
  }

  /** One type per key: types[key] is the type of every declaration of key. */
  ghost predicate Typed(p: Pipeline, types: map<Name, Type>) {
    && (forall j :: 0 <= j < |p.inputs| ==> p.inputs[j].name in types && types[p.inputs[j].name] == p.inputs[j].typ)
    && (forall key :: key in p.defaults ==> key in types && types[key] == p.defaults[key].typ)
    && (forall i, j :: 0 <= i < |p.steps| && 0 <= j < |p.steps[i].writeKeys| ==>
         p.steps[i].writeKeys[j].name in types && types[p.steps[i].writeKeys[j].name] == p.steps[i].writeKeys[j].typ)
    && (forall i, j :: 0 <= i < |p.steps| && 0 <= j < |p.steps[i].readKeys| ==>
         p.steps[i].readKeys[j].name in types && types[p.steps[i].readKeys[j].name] == p.steps[i].readKeys[j].typ)
  }

  /** WithAmendable's keys are reads of the step with the same types. */
  predicate AmendableOk(node: StepNode) {
    node.amendable.Some? ==>
      && node.amendable.value != []
      && DistinctKeys(node.amendable.value)
      && forall j :: 0 <= j < |node.amendable.value| ==> node.amendable.value[j] in node.readKeys
  }

  /** The rule's Amend has an amendable step to amend. */
  predicate AmendsStep(p: Pipeline, rule: Rule) {
    0 <= rule.to < |p.steps| && p.steps[rule.to].amendable.Some?
  }

  /** What Build promises of the pipeline it returns: its tables describe its rules, at most one
      rewind range holds a step, every read is readable, no step writes an input, and two steps
      share a written key only under a MergeRule or when no run commits both. */
  ghost predicate Accepted(p: Pipeline) {
    && |p.steps| > 0
    && TablesOk(p)
    && DisjointRanges(p.rules)
    && (exists types :: Typed(p, types))
    && DistinctKeys(p.inputs)
    && (forall i :: 0 <= i < |p.steps| ==> DistinctKeys(p.steps[i].readKeys) && DistinctKeys(p.steps[i].writeKeys))
    && (forall i :: 0 <= i < |p.steps| ==> AmendableOk(p.steps[i]))
    && (forall m :: 0 <= m < |p.rules| && p.rules[m].hasAmend ==> AmendsStep(p, p.rules[m]))
    && (forall i, key :: Reads(p.steps, i, key) ==> Readable(p, i, key))
    && (forall i, key :: Writes(p.steps, i, key) ==> !Declares(p.inputs, key))
    && (forall w, i, key :: 0 <= w < i && Writes(p.steps, w, key) && Writes(p.steps, i, key) && key !in p.merges
         ==> !MayCommitBoth(p, w, i))
  }
}

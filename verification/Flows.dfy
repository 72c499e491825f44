/**
 Branch and Fallback: flows of ordinary steps and transitions.

 They add nothing to the engine. What they promise is proved of the rules their transitions compile to,
 wherever in a pipeline the flow has been added.
 */
module Flows {
  import opened Basics
  import opened Pipelines
  import opened Flow
  import opened Runs
  import opened RunTheorems
  import opened Invariant
  import opened Iterations
  import opened FailureRules
  import opened Specs
  import H = Hooks

  /** A Flow: steps, and transitions that name only them. */
  datatype FlowSpec = FlowSpec(steps: seq<StepNode>, transitions: seq<Transition>)

  // ---- what Branch and Fallback build ----

  function Plain(from: Name, hasWhen: bool, to: Name): Transition {
    Transition(from, false, hasWhen, to, false, false, false, false)
  }

  /** The steps of a Branch: the routing step, the arms and the step where they meet. */
  function BranchSteps(name: Name, labelKey: KeyRef, readKeys: seq<KeyRef>, arms: seq<StepNode>): seq<StepNode> {
    [StepNode(name, readKeys, [labelKey], None, true)] + arms + [StepNode(name + "_end", [], [], None, false)]
  }

  /** The transitions of a Branch: from the routing step to each arm whose label it wrote, and from each arm
      but the last to where they meet. */
  function BranchTransitions(name: Name, arms: seq<StepNode>, end: Name): (ts: seq<Transition>)
    ensures |arms| > 0 ==> |ts| == 2 * |arms| - 1
    ensures forall j :: |arms| > 0 && 0 <= j < |ts| ==>
      ts[j] == if j < |arms| then Plain(name, true, arms[j].name) else Plain(arms[j - |arms|].name, false, end)
  {
    seq(|arms|, j requires 0 <= j < |arms| => Plain(name, true, arms[j].name))
    + seq(if arms == [] then 0 else |arms| - 1, j requires 0 <= j < |arms| - 1 => Plain(arms[j].name, false, end))
  }

  /** Branch, with its arms in the order of their labels. labelKey is the key the routing step writes. */
  method Branch(name: Name, labelKey: KeyRef, readKeys: seq<KeyRef>, arms: seq<StepNode>) returns (flow: FlowSpec)
    ensures flow.steps == BranchSteps(name, labelKey, readKeys, arms)
    ensures flow.transitions == BranchTransitions(name, arms, name + "_end")
  {
    var steps := [StepNode(name, readKeys, [labelKey], None, true)];
    var transitions: seq<Transition> := [];
    var exits: seq<Name> := [];
    for j := 0 to |arms|
      invariant steps == [StepNode(name, readKeys, [labelKey], None, true)] + arms[..j]
      invariant transitions == seq(j, i requires 0 <= i < j => Plain(name, true, arms[i].name))
      invariant |exits| == j && forall i :: 0 <= i < j ==> exits[i] == arms[i].name
    {
      steps := steps + [arms[j]];
      exits := exits + [arms[j].name];
      transitions := transitions + [Plain(name, true, arms[j].name)];
      assert arms[..j + 1] == arms[..j] + [arms[j]];
    }
    assert arms[..|arms|] == arms;
    ghost var routed := transitions;
    for j := 0 to Max(|exits| - 1, 0)
      invariant transitions == routed + seq(j, i requires 0 <= i < j => Plain(arms[i].name, false, name + "_end"))
    {
      transitions := transitions + [Plain(exits[j], false, name + "_end")];
    }
    steps := steps + [StepNode(name + "_end", [], [], None, false)];
    return FlowSpec(steps, transitions);
  }

  function FallbackTransitions(name: Name, primary: Name, secondary: Name): seq<Transition> {
    [Plain(primary, false, name), Transition(primary, true, true, secondary, false, false, false, true)]
  }

  /** Fallback. */
  method Fallback(name: Name, primary: StepNode, secondary: StepNode) returns (flow: FlowSpec)
    ensures flow.steps == [primary, secondary, StepNode(name, [], [], None, false)]
    ensures flow.transitions == FallbackTransitions(name, primary.name, secondary.name)
  {
    var steps := [];
    for k := 0 to 2
      invariant steps == [primary, secondary][..k]
    {
      steps := steps + [if k == 0 then primary else secondary];
    }
    steps := steps + [StepNode(name, [], [], None, false)];
    return FlowSpec(steps, FallbackTransitions(name, primary.name, secondary.name));
  }

  // ---- the rules they compile to ----

  /** A rule a plain transition compiles to. */
  function PlainRule(index: nat, from: nat, hasWhen: bool, to: nat): Rule {
    Rule(index, from, to, false, false, hasWhen, false, false, false, false)
  }

  /** The rules of a Branch whose routing step is step r, with n arms, the first with the index. */
  function BranchRules(index: nat, r: nat, n: nat): seq<Rule>
    requires n > 0
  {
    RouteRules(index, r, n) + ExitRules(index, r, n)
  }

  function RouteRules(index: nat, r: nat, n: nat): (rules: seq<Rule>)
    ensures |rules| == n && forall j :: 0 <= j < n ==> rules[j] == PlainRule(index + j, r, true, r + 1 + j)
  {
    seq(n, j requires 0 <= j < n => PlainRule(index + j, r, true, r + 1 + j))
  }

  function ExitRules(index: nat, r: nat, n: nat): (rules: seq<Rule>)
    requires n > 0
    ensures |rules| == n - 1 && forall j :: 0 <= j < n - 1 ==> rules[j] == PlainRule(index + n + j, r + 1 + j, false, r + n + 1)
  {
    seq(n - 1, j requires 0 <= j < n - 1 => PlainRule(index + n + j, r + 1 + j, false, r + n + 1))
  }

  function FallbackRules(index: nat, i: nat): seq<Rule> {
    [PlainRule(index, i, false, i + 2), Rule(index + 1, i, i + 1, false, true, true, false, false, false, true)]
  }

  /** The flow's steps are those of the spec from step r on. */
  predicate PlacedAt(spec: PipelineSpec, steps: seq<StepNode>, r: nat) {
    r + |steps| <= |spec.steps| && forall j :: 0 <= j < |steps| ==> spec.steps[r + j] == steps[j]
  }

  /** The flow's transitions are those of the spec from transition t on, and no other names its steps. */
  predicate TakenFrom(spec: PipelineSpec, ts: seq<Transition>, t: nat, names: set<Name>) {
    && t + |ts| <= |spec.transitions|
    && (forall j :: 0 <= j < |ts| ==> spec.transitions[t + j] == ts[j])
    && (forall m :: 0 <= m < |spec.transitions| && !(t <= m < t + |ts|) ==> spec.transitions[m].from !in names)
  }

  /** A step's name finds it. */
  lemma FindsStep(spec: PipelineSpec, i: nat)
    requires NamesOk(spec.steps) && i < |spec.steps|
    ensures IsStep(spec.steps, spec.steps[i].name) && StepAt(spec.steps, spec.steps[i].name) == i
  {
    assert NameOk(spec.steps[i].name);
  }

  lemma BranchCompiles(spec: PipelineSpec, name: Name, labelKey: KeyRef, readKeys: seq<KeyRef>, arms: seq<StepNode>, r: nat, t: nat)
    requires NamesOk(spec.steps) && TransitionsOk(spec) && |arms| > 0
    requires PlacedAt(spec, BranchSteps(name, labelKey, readKeys, arms), r)
    requires var ts := BranchTransitions(name, arms, name + "_end");
      t + |ts| <= |spec.transitions| && forall j :: 0 <= j < |ts| ==> spec.transitions[t + j] == ts[j]
    ensures t + 2 * |arms| - 1 <= |RulesOfSpec(spec)|
    ensures RulesOfSpec(spec)[t..t + 2 * |arms| - 1] == BranchRules(t, r, |arms|)
  {
    hide PlacedAt, NamesOk, TransitionsOk, RuleOf, BranchSteps;
    var n := |arms|;
    var rules := RulesOfSpec(spec)[t..t + 2 * n - 1];
    forall j: nat | j < 2 * n - 1 ensures rules[j] == BranchRules(t, r, n)[j] {
      BranchRuleCompiles(spec, name, labelKey, readKeys, arms, r, t, j);
    }
  }

  lemma BranchRuleCompiles(spec: PipelineSpec, name: Name, labelKey: KeyRef, readKeys: seq<KeyRef>, arms: seq<StepNode>, r: nat, t: nat,
    j: nat)
    requires NamesOk(spec.steps) && TransitionsOk(spec) && j < 2 * |arms| - 1
    requires PlacedAt(spec, BranchSteps(name, labelKey, readKeys, arms), r)
    requires t + j < |spec.transitions| && spec.transitions[t + j] == BranchTransitions(name, arms, name + "_end")[j]
    ensures RulesOfSpec(spec)[t + j] == BranchRules(t, r, |arms|)[j]
  {
    hide BranchSteps, NamesOk, RuleOf, PlacedAt, PlainRule, BranchRules, Plain, Resolves, TransitionsOk, BranchTransitions, RulesOfSpec,
      FromOf, ToOf;
    var n := |arms|;
    var from, to := FromOf(n, j), ToOf(n, j);
    BranchTransitionIs(name, arms, j);
    BranchNames(spec, name, labelKey, readKeys, arms, r, from);
    BranchNames(spec, name, labelKey, readKeys, arms, r, to);
    PlainCompiles(spec, r + from, r + to, j < n, t + j);
    BranchRuleIs(t, r, n, j);
    CompiledAt(spec, t + j);
  }

  lemma CompiledAt(spec: PipelineSpec, m: nat)
    requires TransitionsOk(spec) && m < |spec.transitions|
    ensures m < |RulesOfSpec(spec)| && Resolves(spec.steps, spec.transitions[m])
    ensures RulesOfSpec(spec)[m] == RuleOf(spec.steps, spec.transitions[m], m)
  {
    assert TransitionOk(spec, spec.transitions[m]);
  }

  /** The name of the k-th step of a Branch. */
  function BranchName(name: Name, arms: seq<StepNode>, k: nat): Name
    requires k <= |arms| + 1
  {
    if k == 0 then name else if k == |arms| + 1 then name + "_end" else arms[k - 1].name
  }

  lemma BranchTransitionIs(name: Name, arms: seq<StepNode>, j: nat)
    requires j < 2 * |arms| - 1
    ensures FromOf(|arms|, j) < ToOf(|arms|, j) <= |arms| + 1
    ensures BranchTransitions(name, arms, name + "_end")[j]
      == Plain(BranchName(name, arms, FromOf(|arms|, j)), j < |arms|, BranchName(name, arms, ToOf(|arms|, j)))
  {
  }

  /** The steps of a Branch with n arms that its j-th transition is from and to. */
  function FromOf(n: nat, j: nat): nat {
    if j < n then 0 else 1 + j - n
  }

  function ToOf(n: nat, j: nat): nat {
    if j < n then j + 1 else n + 1
  }

  lemma BranchRuleIs(t: nat, r: nat, n: nat, j: nat)
    requires j < 2 * n - 1
    ensures BranchRules(t, r, n)[j] == PlainRule(t + j, r + FromOf(n, j), j < n, r + ToOf(n, j))
  {
    hide PlainRule;
    if j >= n {
      assert BranchRules(t, r, n)[j] == ExitRules(t, r, n)[j - n];
    }
  }

  /** The names of a Branch's steps where they are placed. */
  lemma BranchNames(spec: PipelineSpec, name: Name, labelKey: KeyRef, readKeys: seq<KeyRef>, arms: seq<StepNode>, r: nat, k: nat)
    requires PlacedAt(spec, BranchSteps(name, labelKey, readKeys, arms), r) && k <= |arms| + 1
    ensures r + k < |spec.steps|
    ensures spec.steps[r + k].name == BranchName(name, arms, k)
  {
    var steps := BranchSteps(name, labelKey, readKeys, arms);
    assert spec.steps[r + k] == steps[k];
  }

  /** A plain transition to a later step compiles to a plain rule. */
  lemma PlainCompiles(spec: PipelineSpec, i: nat, k: nat, hasWhen: bool, index: nat)
    requires NamesOk(spec.steps) && i < k < |spec.steps|
    ensures Resolves(spec.steps, Plain(spec.steps[i].name, hasWhen, spec.steps[k].name))
    ensures RuleOf(spec.steps, Plain(spec.steps[i].name, hasWhen, spec.steps[k].name), index) == PlainRule(index, i, hasWhen, k)
  {
    FindsStep(spec, i);
    FindsStep(spec, k);
    assert NameOk(spec.steps[k].name);
  }

  lemma FallbackCompiles(spec: PipelineSpec, name: Name, i: nat, t: nat)
    requires NamesOk(spec.steps) && TransitionsOk(spec) && i + 2 < |spec.steps| && spec.steps[i + 2].name == name
    requires var ts := FallbackTransitions(name, spec.steps[i].name, spec.steps[i + 1].name);
      t + 2 <= |spec.transitions| && spec.transitions[t] == ts[0] && spec.transitions[t + 1] == ts[1]
    ensures t + 2 <= |RulesOfSpec(spec)| && RulesOfSpec(spec)[t..t + 2] == FallbackRules(t, i)
  {
    PlainCompiles(spec, i, i + 2, false, t);
    var rules := RulesOfSpec(spec)[t..t + 2];
    var second := FallbackTransitions(name, spec.steps[i].name, spec.steps[i + 1].name)[1];
    assert rules[0] == RuleOf(spec.steps, spec.transitions[t], t) && rules[1] == RuleOf(spec.steps, second, t + 1);
    assert NameOk(spec.steps[i + 1].name);
    FindsStep(spec, i);
    FindsStep(spec, i + 1);
    hide NamesOk, TransitionsOk, RulesOfSpec, StepAt, NameOk;
  }

  // ---- the rules of a flow's steps ----

  lemma {:induction false} RulesOfConcat(a: seq<Rule>, b: seq<Rule>, i: nat, onError: bool)
    ensures RulesOf(a + b, i, onError) == RulesOf(a, i, onError) + RulesOf(b, i, onError)
    decreases |b|
  {
    if b == [] {
      assert a + b == a;
    } else {
      var init := b[..|b| - 1];
      assert (a + b)[..|a + b| - 1] == a + init;
      RulesOfConcat(a, init, i, onError);
    }
  }

  lemma {:induction false} NoRulesOf(rules: seq<Rule>, i: nat, onError: bool)
    requires forall m :: 0 <= m < |rules| ==> rules[m].from != i || rules[m].onError != onError
    ensures RulesOf(rules, i, onError) == []
  {
    if rules != [] {
      NoRulesOf(rules[..|rules| - 1], i, onError);
    }
  }

  lemma {:induction false} AllRulesOf(rules: seq<Rule>, i: nat, onError: bool)
    requires forall m :: 0 <= m < |rules| ==> rules[m].from == i && rules[m].onError == onError
    ensures RulesOf(rules, i, onError) == rules
  {
    if rules != [] {
      AllRulesOf(rules[..|rules| - 1], i, onError);
      assert rules == rules[..|rules| - 1] + [rules[|rules| - 1]];
    }
  }

  /** The one rule of a step. */
  lemma SingleRuleOf(rules: seq<Rule>, k: nat, i: nat, onError: bool)
    requires k < |rules| && rules[k].from == i && rules[k].onError == onError
    requires forall m :: 0 <= m < |rules| && m != k ==> rules[m].from != i
    ensures RulesOf(rules, i, onError) == [rules[k]]
  {
    var a, b, c := rules[..k], [rules[k]], rules[k + 1..];
    assert rules == a + b + c;
    RulesOfConcat(a + b, c, i, onError);
    RulesOfConcat(a, b, i, onError);
    NoRulesOf(a, i, onError);
    NoRulesOf(c, i, onError);
    AllRulesOf(b, i, onError);
  }

  /** No rule of rules but those from the t-th up to the u-th is from one of the steps r up to e. */
  predicate OnlyFrom(rules: seq<Rule>, t: nat, u: nat, r: nat, e: nat)
    requires t <= u <= |rules|
  {
    forall m :: 0 <= m < |rules| && !(t <= m < u) ==> !(r <= rules[m].from < e)
  }

  /** The rules of a step that only the rules from the t-th up to the u-th may be from. */
  lemma RulesWithin(rules: seq<Rule>, t: nat, u: nat, r: nat, e: nat, i: nat, onError: bool)
    requires t <= u <= |rules| && OnlyFrom(rules, t, u, r, e) && r <= i < e
    ensures RulesOf(rules, i, onError) == RulesOf(rules[t..u], i, onError)
  {
    hide RulesOf;
    var a, b, c := rules[..t], rules[t..u], rules[u..];
    assert rules == a + b + c;
    RulesOfConcat(a + b, c, i, onError);
    RulesOfConcat(a, b, i, onError);
    assert forall m :: 0 <= m < |a| ==> a[m] == rules[m];
    assert forall m :: 0 <= m < |c| ==> c[m] == rules[u + m];
    NoRulesOf(a, i, onError);
    NoRulesOf(c, i, onError);
  }

  // ---- Branch ----

  /** The pipeline holds a Branch: its routing step is step r, it has n arms, its rules start with the t-th,
      and no other rule is from its steps. */
  ghost predicate HasBranch(p: Pipeline, t: nat, r: nat, n: nat) {
    && TablesOk(p) && n > 0 && r + n + 1 < |p.steps| && t + 2 * n - 1 <= |p.rules|
    && p.rules[t..t + 2 * n - 1] == BranchRules(t, r, n)
    && OnlyFrom(p.rules, t, t + 2 * n - 1, r, r + n + 2)
  }

  /** Build puts a Branch there wherever its steps and transitions are placed in a spec it accepts. */
  lemma BranchBuilt(spec: PipelineSpec, p: Pipeline, name: Name, labelKey: KeyRef, readKeys: seq<KeyRef>, arms: seq<StepNode>, r: nat,
    t: nat)
    requires SpecAccepted(spec) && Accepted(p) && p == Plan(spec).(keys := p.keys) && |arms| > 0
    requires PlacedAt(spec, BranchSteps(name, labelKey, readKeys, arms), r) && r + |arms| + 2 <= |spec.steps|
    requires TakenFrom(spec, BranchTransitions(name, arms, name + "_end"), t, StepNames(spec, r, |arms| + 2))
    ensures HasBranch(p, t, r, |arms|)
  {
    var n := |arms|;
    BuiltParts(spec, p);
    hide SpecAccepted, Accepted, TablesOk, NamesOk, Plan, RulesOf;
    BranchNames(spec, name, labelKey, readKeys, arms, r, n + 1);
    BranchCompiles(spec, name, labelKey, readKeys, arms, r, t);
    OthersElsewhere(spec, t, t + 2 * n - 1, r, n + 2);
  }

  /** Build puts a Fallback there wherever its steps and transitions are placed in a spec it accepts. */
  lemma FallbackBuilt(spec: PipelineSpec, p: Pipeline, name: Name, i: nat, t: nat)
    requires SpecAccepted(spec) && Accepted(p) && p == Plan(spec).(keys := p.keys)
    requires i + 2 < |spec.steps| && spec.steps[i + 2].name == name
    requires TakenFrom(spec, FallbackTransitions(name, spec.steps[i].name, spec.steps[i + 1].name), t, StepNames(spec, i, 3))
    ensures HasFallback(p, t, i)
  {
    BuiltParts(spec, p);
    hide SpecAccepted, Accepted, TablesOk, NamesOk, Plan, RulesOf, RuleOf;
    var ts := FallbackTransitions(name, spec.steps[i].name, spec.steps[i + 1].name);
    assert spec.transitions[t + 0] == ts[0] && spec.transitions[t + 1] == ts[1];
    FallbackCompiles(spec, name, i, t);
    OthersElsewhere(spec, t, t + 2, i, 3);
  }

  /** What the plan of an accepted spec shares with the spec. */
  lemma BuiltParts(spec: PipelineSpec, p: Pipeline)
    requires SpecAccepted(spec) && Accepted(p) && p == Plan(spec).(keys := p.keys)
    ensures NamesOk(spec.steps) && TransitionsOk(spec) && TablesOk(p)
    ensures p.steps == spec.steps && p.rules == RulesOfSpec(spec)
  {
  }

  /** The names of n steps from step r on. */
  function StepNames(spec: PipelineSpec, r: nat, n: nat): set<Name>
    requires r + n <= |spec.steps|
  {
    set k | r <= k < r + n :: spec.steps[k].name
  }

  /** Transitions that name no step of a flow compile to rules that are from none. */
  lemma OthersElsewhere(spec: PipelineSpec, t: nat, u: nat, r: nat, n: nat)
    requires NamesOk(spec.steps) && TransitionsOk(spec) && t <= u <= |spec.transitions| && r + n <= |spec.steps|
    requires forall m :: 0 <= m < |spec.transitions| && !(t <= m < u) ==> spec.transitions[m].from !in StepNames(spec, r, n)
    ensures OnlyFrom(RulesOfSpec(spec), t, u, r, r + n)
  {
    var rules := RulesOfSpec(spec);
    forall m | 0 <= m < |rules| && !(t <= m < u) ensures !(r <= rules[m].from < r + n) {
      var from := StepAt(spec.steps, spec.transitions[m].from);
      assert rules[m].from == from && spec.steps[from].name == spec.transitions[m].from;
    }
  }

  lemma BranchParts(p: Pipeline, t: nat, r: nat, n: nat)
    requires HasBranch(p, t, r, n)
    ensures n > 0 && r + n + 1 < |p.steps| && t + 2 * n - 1 <= |p.rules|
    ensures TablesOk(p) && |p.success| == |p.failure| == |p.maxVisits| == |p.steps|
  {
  }

  /** The transitions a run evaluates at step i of a Branch are those of its own rules. */
  lemma BranchStep(p: Pipeline, t: nat, r: nat, n: nat, i: nat)
    requires HasBranch(p, t, r, n) && r <= i < r + n + 2
    ensures p.success[i] == RulesOf(RouteRules(t, r, n), i, false) + RulesOf(ExitRules(t, r, n), i, false)
    ensures p.failure[i] == []
  {
    hide RulesOf;
    RulesWithin(p.rules, t, t + 2 * n - 1, r, r + n + 2, i, false);
    RulesWithin(p.rules, t, t + 2 * n - 1, r, r + n + 2, i, true);
    RulesOfConcat(RouteRules(t, r, n), ExitRules(t, r, n), i, false);
    RulesOfConcat(RouteRules(t, r, n), ExitRules(t, r, n), i, true);
    NoRulesOf(RouteRules(t, r, n), i, true);
    NoRulesOf(ExitRules(t, r, n), i, true);
  }

  /** At the routing step those to the arms, in the order of their labels. */
  lemma RouteTable(p: Pipeline, t: nat, r: nat, n: nat)
    requires HasBranch(p, t, r, n)
    ensures r < |p.success| == |p.failure| && p.success[r] == RouteRules(t, r, n) && p.failure[r] == []
  {
    hide RulesOf, HasBranch;
    BranchParts(p, t, r, n);
    BranchStep(p, t, r, n, r);
    AllRulesOf(RouteRules(t, r, n), r, false);
    NoRulesOf(ExitRules(t, r, n), r, false);
  }

  /** At an arm but the last the one to where the arms meet, at the last and where they meet none. */
  lemma ArmTable(p: Pipeline, t: nat, r: nat, n: nat, j: nat)
    requires HasBranch(p, t, r, n) && j <= n
    ensures r + 1 + j < |p.success| == |p.failure|
    ensures p.success[r + 1 + j] == if j < n - 1 then [PlainRule(t + n + j, r + 1 + j, false, r + n + 1)] else []
    ensures p.failure[r + 1 + j] == []
  {
    hide RulesOf, HasBranch;
    BranchParts(p, t, r, n);
    var exits := ExitRules(t, r, n);
    BranchStep(p, t, r, n, r + 1 + j);
    NoRulesOf(RouteRules(t, r, n), r + 1 + j, false);
    if j < n - 1 {
      SingleRuleOf(exits, j, r + 1 + j, false);
    } else {
      NoRulesOf(exits, r + 1 + j, false);
    }
  }

  // ---- merges ----

  /** A rewind lands after step a and at or before step b. */
  predicate LandsBetween(rules: seq<Rule>, a: int, b: int) {
    exists k :: a < k <= b && IsTarget(rules, k)
  }

  /** Two arms commit in one run only if a rewind lands between them: they need no MergeRule otherwise. */
  lemma ArmsNeedNoMerge(p: Pipeline, t: nat, r: nat, n: nat, a: nat, b: nat)
    requires HasBranch(p, t, r, n) && r < a < b <= r + n
    ensures MayCommitBoth(p, a, b) <==> LandsBetween(p.rules, a, b)
  {
    BranchParts(p, t, r, n);
    hide HasBranch, TablesOk, MayCommitBoth, LandsBetween, RulesOf, OnlyFrom;
    ArmTable(p, t, r, n, a - r - 1);
    ClosingGoesPast(p, a, b, PlainRule(t + n + a - r - 1, a, false, r + n + 1));
  }

  /** A step that always goes past b on success and b commit in one run only if a rewind lands between. */
  lemma ClosingGoesPast(p: Pipeline, a: nat, b: nat, rule: Rule)
    requires TablesOk(p) && a < b < |p.steps| && p.success[a] == [rule]
    requires Closing(rule) && Forward(rule) && rule.to > b
    ensures MayCommitBoth(p, a, b) <==> LandsBetween(p.rules, a, b)
  {
    forall next | Continues(p.success[a], a, |p.steps|, next) ensures next > b {
      assert Closing(p.success[a][0]);
    }
  }

  // ---- Fallback ----

  /** The pipeline holds a Fallback: primary is step i, secondary and the step where they meet follow, its
      rules start with the t-th, and no other rule is from its steps. */
  ghost predicate HasFallback(p: Pipeline, t: nat, i: nat) {
    && TablesOk(p) && i + 2 < |p.steps| && t + 2 <= |p.rules|
    && p.rules[t..t + 2] == FallbackRules(t, i)
    && OnlyFrom(p.rules, t, t + 2, i, i + 3)
  }

  lemma FallbackTables(p: Pipeline, t: nat, i: nat)
    requires HasFallback(p, t, i)
    ensures |p.success| == |p.failure| == |p.fallback| == |p.steps| && i + 2 < |p.steps|
    ensures p.success[i] == [FallbackRules(t, i)[0]] && p.failure[i] == [FallbackRules(t, i)[1]] && p.fallback[i] == 0
    ensures forall k :: i < k < i + 3 ==> p.success[k] == [] && p.failure[k] == []
  {
    forall k: nat, onError | i <= k < i + 3
      ensures RulesOf(p.rules, k, onError) == if k != i then [] else if onError then [FallbackRules(t, i)[1]] else [FallbackRules(t, i)[0]]
    {
      FallbackRulesOf(p, t, i, k, onError);
    }
    OneFallback(FallbackRules(t, i)[1]);
    hide RulesOf, LastFallback, OnlyFrom, FallbackRules;
  }

  lemma OneFallback(rule: Rule)
    ensures rule.fallback ==> LastFallback([rule]) == 0
  {
  }

  lemma FallbackRulesOf(p: Pipeline, t: nat, i: nat, k: nat, onError: bool)
    requires HasFallback(p, t, i) && i <= k < i + 3
    ensures RulesOf(p.rules, k, onError) == if k != i then [] else if onError then [FallbackRules(t, i)[1]] else [FallbackRules(t, i)[0]]
  {
    var rules := FallbackRules(t, i);
    hide RulesOf, TablesOk;
    RulesWithin(p.rules, t, t + 2, i, i + 3, k, onError);
    assert rules == [rules[0]] + [rules[1]];
    RulesOfConcat([rules[0]], [rules[1]], k, onError);
    RulesOfOne(rules[0]);
    RulesOfOne(rules[1]);
  }

  lemma RulesOfOne(rule: Rule)
    ensures forall k, onError :: RulesOf([rule], k, onError) == if rule.from == k && rule.onError == onError then [rule] else []
  {
    assert [rule][..0] == [];
  }

  lemma FallbackNeedsNoMerge(p: Pipeline, t: nat, i: nat)
    requires HasFallback(p, t, i)
    ensures MayCommitBoth(p, i, i + 1) <==> IsTarget(p.rules, i + 1)
  {
    FallbackTables(p, t, i);
    ClosingGoesPast(p, i, i + 1, FallbackRules(t, i)[0]);
    if LandsBetween(p.rules, i, i + 1) {
      var k :| i < k <= i + 1 && IsTarget(p.rules, k);
      assert k == i + 1;
    }
  }

  /** The When of the transition to secondary: the error is not Permanent. */
  ghost predicate FallsBackWhen(p: Pipeline, t: nat, c: Choices)
    requires t + 1 < |p.rules|
  {
    forall view, err {:trigger c.whenFailed(p.rules[t + 1], view, err)} ::
      c.whenFailed(p.rules[t + 1], view, err) == if IsPermanent(err) then No else Yes
  }

  /** From primary a run goes to secondary exactly when primary fails with an error that is not Permanent
      and the run has not ended; when primary succeeds it goes to where the two meet. */
  lemma FallbackGoes(p: Pipeline, inputs: Values, run: seq<Config>, cs: seq<Choices>, k: nat, c: Choices, t: nat, i: nat)
    requires Accepted(p) && IsRun(p, inputs, run, cs) && k < |run| && run[k].at == i
    requires HasFallback(p, t, i) && FallsBackWhen(p, t, c)
    ensures Fits(p, run[k].state)
    ensures var err, next := VisitAt(p, run[k], c).err, Iterate(p, run[k].state, i, c).1;
      && (next == Goto(i + 1) <==> err != [] && !IsPermanent(err) && !c.ended)
      && (err == [] ==> next == Goto(i + 2))
  {
    var known := RunInvAll(p, inputs, run, cs, k);
    FallbackVisit(p, run[k].state, t, i, c);
  }

  /** A cause that repeating the step would not fix: one so classified, a rewind past MaxVisits or a run sent to Fail. */
  predicate PermanentCause(cause: Cause) {
    cause.VisitsExceeded? || cause.ToFail? || ((cause.StepFailure? || cause.MergeFailure? || cause.HookFailure?) && cause.kind == Permanent)
  }

  predicate NoClass(cause: Cause) {
    cause.BadWrites? || cause.HoldsWrite? || ((cause.StepFailure? || cause.MergeFailure? || cause.HookFailure?) && cause.kind == Unclassified)
  }

  /** An error is Permanent exactly when the first of its causes that has a class is. */
  lemma {:induction false} PermanentMeans(err: Error)
    ensures IsPermanent(err) <==>
      exists k :: 0 <= k < |err| && PermanentCause(err[k]) && forall j :: 0 <= j < k ==> NoClass(err[j])
    decreases |err|
  {
    if err != [] {
      PermanentMeans(err[1..]);
      if IsPermanent(err[1..]) && NoClass(err[0]) {
        var k :| 0 <= k < |err[1..]| && PermanentCause(err[1..][k]) && forall j :: 0 <= j < k ==> NoClass(err[1..][j]);
        assert PermanentCause(err[k + 1]);
        assert forall j :: 0 < j < k + 1 ==> err[j] == err[1..][j - 1];
      }
      if k :| 0 < k < |err| && PermanentCause(err[k]) && forall j :: 0 <= j < k ==> NoClass(err[j]) {
        assert PermanentCause(err[1..][k - 1]);
        assert forall j :: 0 <= j < k - 1 ==> err[1..][j] == err[j + 1];
        assert NoClass(err[0]);
      }
    }
  }

  /** What a failure of primary leads to: when it returns an error, secondary runs exactly when that is not Permanent
      and the run has not ended; and when it returns but not with what it declares, exactly when the run has not ended. */
  lemma FallbackOn(p: Pipeline, inputs: Values, run: seq<Config>, cs: seq<Choices>, k: nat, c: Choices, t: nat, i: nat)
    requires Accepted(p) && IsRun(p, inputs, run, cs) && k < |run| && run[k].at == i
    requires HasFallback(p, t, i) && FallsBackWhen(p, t, c)
    ensures Fits(p, run[k].state)
    ensures var next := Iterate(p, run[k].state, i, c).1;
      && (c.outcome.Fails? ==> (next == Goto(i + 1) <==> c.outcome.kind != Permanent && !c.ended))
      && (c.outcome.Returns? && !WritesOk(p.steps[i], H.Sees(run[k]), c.outcome.writes, c.outcome.preserved) ==> (next == Goto(i + 1) <==> !c.ended))
  {
    FallbackGoes(p, inputs, run, cs, k, c, t, i);
    hide Accepted, IsRun, HasFallback, FallsBackWhen, Iterate, WritesOk, StoreAll, Enter, Arrive, AmendedView;
    if c.outcome.Fails? || !WritesOk(p.steps[i], H.Sees(run[k]), c.outcome.writes, c.outcome.preserved) {
      H.ViewHolds(p, run[k], c);
      PermanentMeans(VisitAt(p, run[k], c).err);
    }
  }

  /** A state whose running rewind is one of the pipeline's. */
  predicate RewindKnown(p: Pipeline, s: FlowState) {
    s.rewind.Some? ==> s.rewind.value.rule in p.rules && s.rewind.value.rule.rewind
  }

  lemma FallbackVisit(p: Pipeline, s: FlowState, t: nat, i: nat, c: Choices)
    requires HasFallback(p, t, i) && Sized(p) && Fits(p, s) && RewindKnown(p, s) && FallsBackWhen(p, t, c)
    ensures var err, next := Visited(p, s, i, c).1.err, Iterate(p, s, i, c).1;
      && (next == Goto(i + 1) <==> err != [] && !IsPermanent(err) && !c.ended)
      && (err == [] ==> next == Goto(i + 2))
  {
    assert p.rules[t + 1] == p.rules[t..t + 2][1] && !p.rules[t..t + 2][0].rewind && !p.rules[t..t + 2][1].rewind;
    assert forall m :: t <= m < t + 2 ==> p.rules[m] == p.rules[t..t + 2][m - t];
    assert OnlyFrom(p.rules, t, t + 2, i, i + 3);
    hide HasFallback, Execute, FailedStep, Flow.Succeeded, Visited, Choose, FallsBackWhen, KeyValues, IsPermanent, OnlyFrom;
    FlowVisited(p, s, i, c);
    var (s1, visit) := Visited(p, s, i, c);
    var view := AmendedView(Arrive(s, i), i);
    if s1.rewind.Some? {
      NoRewindFrom(p, t, t + 2, i, i + 3, s1, i);
    }
    if visit.err == [] {
      FallbackSucceeds(p, s1, t, i, view, visit, c);
    } else {
      FallbackFails(p, s1, t, i, visit, c);
    }
  }

  /** A visit that succeeds, and ends no rewind, takes the first of its step's transitions that matches what
      it read and wrote. */
  lemma SucceedsBy(p: Pipeline, s: FlowState, i: nat, view: View, visit: StepVisit, c: Choices)
    requires Sized(p) && Fits(p, s) && i < |p.steps| && !EndsRewind(s, i)
    requires visit == Execute(p, s, i, view, c) && visit.err == []
    ensures c.outcome.Returns?
    ensures var names := Names(p.steps[i].readKeys) + Names(p.steps[i].writeKeys);
      var choice := Choose(p, s, p.success[i], 0, false, KeyValues(Resolve(view, s) + c.outcome.writes, names), c);
      choice.Chosen? && visit.rule == choice.rule
    ensures Flow.Succeeded(p, s, i, visit).next == match visit.rule
      case None => Goto(i + 1)
      case Some(rule) =>
        if rule.to == FAIL then Failed(StepFailed(p, i, [ToFail(rule.index)], Resolve(visit.view, s)))
        else if rule.to == END then Goto(|p.steps|) else Goto(rule.to)
  {
    hide Choose, MergeFrom, WritesOk, RestoreValues, KeyValues, Commit;
    var names := Names(p.steps[i].readKeys) + Names(p.steps[i].writeKeys);
    if c.outcome.Returns? {
      ChooseSays(p, s, p.success[i], 0, false, KeyValues(Resolve(view, s) + c.outcome.writes, names), c);
      MergeSays(p, s, p.steps[i], c.outcome.writes, c, 0, map[]);
    }
  }

  /** A failure of a transition or of a merge has an error. */
  lemma {:induction false} ChooseSays(p: Pipeline, s: FlowState, list: seq<Rule>, k: nat, rejected: bool, view: Values, c: Choices)
    requires k <= |list| && |s.visits| == |p.maxVisits|
    ensures var r := Choose(p, s, list, k, rejected, view, c); r.ChoiceFails? ==> r.err != []
    decreases |list| - k
  {
    if k < |list| {
      ChooseSays(p, s, list, k + 1, rejected, view, c);
    }
  }

  lemma {:induction false} MergeSays(p: Pipeline, s: FlowState, node: StepNode, writes: Values, c: Choices, j: nat, committed: Values)
    requires j <= |node.writeKeys|
    ensures var r := MergeFrom(p, s, node, writes, c, j, committed); r.Err? ==> r.error != []
    decreases |node.writeKeys| - j
  {
    if j < |node.writeKeys| {
      var key := node.writeKeys[j].name;
      MergeSays(p, s, node, writes, c, j + 1, committed);
      if key in writes {
        MergeSays(p, s, node, writes, c, j + 1, committed[key := writes[key]]);
        if Holds(s, key) {
          match c.merge(key, s.values[key], writes[key])
          case Err(_) =>
          case Ok(merged) => MergeSays(p, s, node, writes, c, j + 1, committed[key := merged]);
        }
      }
    }
  }

  /** A step whose transition on success always matches and is no rewind takes it. */
  lemma AlwaysTakes(p: Pipeline, s: FlowState, rule: Rule, view: Values, c: Choices)
    requires Closing(rule) && |s.visits| == |p.maxVisits|
    ensures Choose(p, s, [rule], 0, false, view, c) == Chosen(Some(rule), None)
  {
  }

  /** What a success of primary leads to. */
  lemma FallbackSucceeds(p: Pipeline, s: FlowState, t: nat, i: nat, view: View, visit: StepVisit, c: Choices)
    requires HasFallback(p, t, i) && Sized(p) && Fits(p, s) && !EndsRewind(s, i)
    requires visit == Execute(p, s, i, view, c) && visit.err == []
    ensures Flow.Succeeded(p, s, i, visit).next == Goto(i + 2)
  {
    FallbackTables(p, t, i);
    hide HasFallback, Execute, Flow.Succeeded, Choose, KeyValues;
    SucceedsBy(p, s, i, view, visit, c);
    var names := Names(p.steps[i].readKeys) + Names(p.steps[i].writeKeys);
    AlwaysTakes(p, s, p.success[i][0], KeyValues(Resolve(view, s) + c.outcome.writes, names), c);
  }

  /** What a failure of primary leads to. */
  lemma FallbackFails(p: Pipeline, s: FlowState, t: nat, i: nat, visit: StepVisit, c: Choices)
    requires HasFallback(p, t, i) && Sized(p) && Fits(p, s) && RewindKnown(p, s) && FallsBackWhen(p, t, c)
    requires s.rewind.Some? ==> s.rewind.value.rule.from >= i + 3
    ensures FailedStep(p, s, i, visit, c).next == Goto(i + 1) <==> !IsPermanent(visit.err) && !c.ended
  {
    assert p.rules[t + 1] == p.rules[t..t + 2][1] && TablesOk(p);
    FallbackTables(p, t, i);
    hide EvalFailure, TakeFailure, RestoreFailed, KeyValues, HasFallback, IsPermanent, TablesOk, Exhausted, CallAmend;
    var rule := FallbackRules(t, i)[1];
    var view := KeyValues(Resolve(visit.view, s), Names(p.steps[i].readKeys));
    var restorable := s.rewind.Some? && s.rewind.value.rule.hasRestore && !visit.accepted;
    var called := [AskWhen(rule, visit.err)];
    assert !EndsRewind(s, i);
    if s.rewind.Some? {
      RestoresBeyond(p, s, i, visit, c);
    }
    assert [] + called == called;
    EvalUnfolds(p, s, i, visit.err, view, c, 0, restorable, visit.maxed, visit.err, []);
    EvalUnfolds(p, s, i, visit.err, view, c, 1, restorable, visit.maxed, visit.err, called);
    TakeUnfolds(p, s, i, visit.err, view, c, 0, rule, restorable, visit.maxed, visit.err, called);
  }

  /** A failure that is restored goes on past the rewind's From. */
  lemma RestoresBeyond(p: Pipeline, s: FlowState, i: nat, visit: StepVisit, c: Choices)
    requires TablesOk(p) && Sized(p) && Fits(p, s) && s.rewind.Some? && i < |p.steps|
    ensures var next := RestoreFailed(p, s, i, visit, c).next; next.Goto? ==> next.index > s.rewind.value.rule.from
  {
    var from := s.rewind.value.rule.from;
    var names := Names(p.steps[from].readKeys) + Names(p.steps[from].writeKeys);
    var view := KeyValues(RejectRewind(p, s).values, names);
    RestoredRule(p.success[from], 0, view, c);
    var choice := ChooseRestored(p.success[from], 0, view, c);
    if choice.Chosen? && choice.rule.Some? {
      var k :| 0 <= k < |p.success[from]| && p.success[from][k] == choice.rule.value;
      var m :| 0 <= m < |p.rules| && p.rules[m] == choice.rule.value;
      assert RuleOk(p.rules[m], |p.steps|);
    }
    hide ChooseRestored, RejectRewind, TablesOk;
  }

  lemma {:induction false} RestoredRule(list: seq<Rule>, k: nat, view: Values, c: Choices)
    requires k <= |list|
    ensures var r := ChooseRestored(list, k, view, c); r.Chosen? && r.rule.Some? ==> r.rule.value in list && !r.rule.value.rewind
    decreases |list| - k
  {
    if k < |list| {
      RestoredRule(list, k + 1, view, c);
    }
  }

  /** The state a step is executed in keeps the running rewind, unless the run has left its range. */
  lemma FlowVisited(p: Pipeline, s: FlowState, i: nat, c: Choices)
    requires Sized(p) && Fits(p, s) && RewindKnown(p, s) && i < |p.steps|
    ensures var s1 := Visited(p, s, i, c).0;
      RewindKnown(p, s1) && (s1.rewind.Some? ==> i <= s1.rewind.value.rule.from)
    ensures var (s1, visit) := Visited(p, s, i, c);
      visit == Execute(p, s1, i, AmendedView(Arrive(s, i), i), c)
  {
    hide Execute;
    StoreAllKeeps(Enter(p, Arrive(s, i), i), c.stores);
  }

  /** A flow's rules are no rewinds, so no running rewind is from one of its steps. */
  lemma NoRewindFrom(p: Pipeline, t: nat, u: nat, r: nat, e: nat, s: FlowState, i: nat)
    requires t <= u <= |p.rules| && OnlyFrom(p.rules, t, u, r, e) && RewindKnown(p, s)
    requires forall m :: t <= m < u ==> !p.rules[m].rewind
    requires s.rewind.Some? && i <= s.rewind.value.rule.from && r <= i < e
    ensures s.rewind.value.rule.from >= e
  {
    var m :| 0 <= m < |p.rules| && p.rules[m] == s.rewind.value.rule;
  }

  // ---- the way through a Branch ----

  /** The When of rule: the routing step wrote the label. */
  ghost predicate ChoosesLabel(c: Choices, rule: Rule, labelKey: Name, value: Value) {
    forall view {:trigger c.when(rule, view)} ::
      c.when(rule, view) == if labelKey in view && view[labelKey] == value then Yes else No
  }

  /** The transition to each arm asks for its label. labels are the arms' labels, in order. */
  ghost predicate ChoosesBy(p: Pipeline, t: nat, n: nat, labelKey: Name, labels: seq<Value>, c: Choices)
    requires t + n <= |p.rules|
  {
    && |labels| == n && (forall j, k :: 0 <= j < k < n ==> labels[j] != labels[k])
    && forall j :: 0 <= j < n ==> ChoosesLabel(c, p.rules[t + j], labelKey, labels[j])
  }

  /** The first rule whose label the view holds is taken. */
  lemma {:induction false} ChooseArm(p: Pipeline, s: FlowState, t: nat, r: nat, n: nat, labelKey: Name, labels: seq<Value>, view: Values,
    c: Choices, k: nat, j: nat)
    requires |s.visits| == |p.maxVisits| && t + n <= |p.rules| && ChoosesBy(p, t, n, labelKey, labels, c)
    requires forall m :: 0 <= m < n ==> p.rules[t + m] == RouteRules(t, r, n)[m]
    requires k <= j < n && labelKey in view && view[labelKey] == labels[j]
    ensures Choose(p, s, RouteRules(t, r, n), k, false, view, c) == Chosen(Some(RouteRules(t, r, n)[j]), None)
    decreases j - k
  {
    var rule := RouteRules(t, r, n)[k];
    assert p.rules[t + k] == rule == PlainRule(t + k, r, true, r + 1 + k);
    assert ChoosesLabel(c, p.rules[t + k], labelKey, labels[k]);
    assert c.when(rule, view) == if k == j then Yes else No;
    if k < j {
      ChooseArm(p, s, t, r, n, labelKey, labels, view, c, k + 1, j);
    }
  }

  /** The routing step's execution wrote the label. */
  predicate WroteLabel(p: Pipeline, r: nat, c: Choices, labelKey: Name, value: Value)
    requires r < |p.steps|
  {
    && Declares(p.steps[r].writeKeys, labelKey) && c.outcome.Returns?
    && labelKey in c.outcome.writes && c.outcome.writes[labelKey] == value
  }

  /** A visit of one of a Branch's steps that succeeds follows the transition it chooses: it ends no rewind. */
  lemma BranchFollows(p: Pipeline, s: FlowState, t: nat, r: nat, n: nat, i: nat, c: Choices) returns (s1: FlowState, seen: Values)
    requires HasBranch(p, t, r, n) && Sized(p) && Fits(p, s) && RewindKnown(p, s) && r <= i < r + n + 2
    requires Visited(p, s, i, c).1.err == []
    ensures Sized(p) && Fits(p, s1) && c.outcome.Returns?
    ensures exists values :: seen == KeyValues(values + c.outcome.writes, Names(p.steps[i].readKeys) + Names(p.steps[i].writeKeys))
    ensures var choice := Choose(p, s1, p.success[i], 0, false, seen, c);
      choice.Chosen? && Iterate(p, s, i, c).1 ==
        match choice.rule
        case None => Goto(i + 1)
        case Some(rule) =>
          if rule.to == FAIL then Failed(StepFailed(p, i, [ToFail(rule.index)], Resolve(Visited(p, s, i, c).1.view, s1)))
          else if rule.to == END then Goto(|p.steps|) else Goto(rule.to)
  {
    BranchPlain(p, t, r, n);
    hide HasBranch, Execute, FailedStep, Flow.Succeeded, Visited, Choose, KeyValues, OnlyFrom;
    FlowVisited(p, s, i, c);
    var visited := Visited(p, s, i, c);
    s1 := visited.0;
    var view := AmendedView(Arrive(s, i), i);
    if s1.rewind.Some? {
      NoRewindFrom(p, t, t + 2 * n - 1, r, r + n + 2, s1, i);
    }
    SucceedsBy(p, s1, i, view, visited.1, c);
    seen := KeyValues(Resolve(view, s1) + c.outcome.writes, Names(p.steps[i].readKeys) + Names(p.steps[i].writeKeys));
  }

  /** From the routing step a run goes to the arm whose label it wrote. */
  lemma RouteGoes(p: Pipeline, s: FlowState, t: nat, r: nat, n: nat, c: Choices, labelKey: Name, labels: seq<Value>, j: nat)
    requires HasBranch(p, t, r, n) && Sized(p) && Fits(p, s) && RewindKnown(p, s)
    requires ChoosesBy(p, t, n, labelKey, labels, c) && j < n
    requires Visited(p, s, r, c).1.err == [] && WroteLabel(p, r, c, labelKey, labels[j])
    ensures Iterate(p, s, r, c).1 == Goto(r + 1 + j)
  {
    BranchPlain(p, t, r, n);
    RouteTable(p, t, r, n);
    var s1, seen := BranchFollows(p, s, t, r, n, r, c);
    hide HasBranch, Visited, Choose, OnlyFrom, Iterate, ChoosesBy, StepFailed, KeyValues, RewindKnown;
    var values :| seen == KeyValues(values + c.outcome.writes, Names(p.steps[r].readKeys) + Names(p.steps[r].writeKeys));
    SeesLabel(p, r, values, c.outcome.writes, labelKey);
    ChooseArm(p, s1, t, r, n, labelKey, labels, seen, c, 0, j);
  }

  lemma ArmCloses(t: nat, r: nat, n: nat, j: nat)
    requires j < n - 1
    ensures Closing(PlainRule(t + n + j, r + 1 + j, false, r + n + 1))
    ensures PlainRule(t + n + j, r + 1 + j, false, r + n + 1).to == r + n + 1
  {
  }

  /** From an arm it goes to where the arms meet, and from there to the step after. */
  lemma ArmGoes(p: Pipeline, s: FlowState, t: nat, r: nat, n: nat, c: Choices, j: nat)
    requires HasBranch(p, t, r, n) && Sized(p) && Fits(p, s) && RewindKnown(p, s) && j <= n
    requires Visited(p, s, r + 1 + j, c).1.err == []
    ensures Iterate(p, s, r + 1 + j, c).1 == Goto(if j < n then r + n + 1 else r + n + 2)
  {
    hide HasBranch, Visited, Choose, OnlyFrom, Iterate, TablesOk, StepFailed, Closing, KeyValues, PlainRule, RewindKnown;
    BranchParts(p, t, r, n);
    ArmTable(p, t, r, n, j);
    var s1, seen := BranchFollows(p, s, t, r, n, r + 1 + j, c);
    if j < n - 1 {
      ArmCloses(t, r, n, j);
    }
    ArmChooses(p, s1, r + 1 + j, seen, c);
  }

  /** A visit of one of a Branch's steps that fails ends the run, or is restored past the Branch: its steps have no
      transitions on failure, and a rewind running there is from a step after it. */
  lemma BranchFails(p: Pipeline, s: FlowState, t: nat, r: nat, n: nat, i: nat, c: Choices)
    requires HasBranch(p, t, r, n) && Sized(p) && Fits(p, s) && RewindKnown(p, s) && r <= i < r + n + 2
    requires Visited(p, s, i, c).1.err != []
    ensures var next := Iterate(p, s, i, c).1; next.Goto? ==> next.index >= r + n + 2
  {
    hide HasBranch, Execute, Visited, RestoreFailed, KeyValues, OnlyFrom, RejectRewind, RulesOf, TablesOk, RouteRules, ExitRules;
    BranchPlain(p, t, r, n);
    BranchParts(p, t, r, n);
    BranchStep(p, t, r, n, i);
    FlowVisited(p, s, i, c);
    var (s1, visit) := Visited(p, s, i, c);
    if s1.rewind.Some? {
      NoRewindFrom(p, t, t + 2 * n - 1, r, r + n + 2, s1, i);
      RestoresBeyond(p, s1, i, visit, c);
    }
    NoRuleOnFailure(p, s1, i, visit, c);
    hide DecideFailure;
  }

  /** A failure of a step without transitions on failure ends the run, unless RestoreOnError restores. */
  lemma NoRuleOnFailure(p: Pipeline, s: FlowState, i: nat, visit: StepVisit, c: Choices)
    requires Sized(p) && Fits(p, s) && i < |p.steps| && p.failure[i] == []
    ensures !DecideFailure(p, s, i, visit, c).Take?
  {
    hide RejectRewind, KeyValues;
  }

  /** One iteration of a Branch: from the routing step to the arm whose label it wrote, from an arm to where the
      arms meet, and from there to the step after; or, when the visit fails, past the Branch. */
  lemma BranchStepGoes(p: Pipeline, inputs: Values, run: seq<Config>, cs: seq<Choices>, k: nat, t: nat, r: nat, n: nat,
    labelKey: Name, labels: seq<Value>, j: nat)
    requires Accepted(p) && IsRun(p, inputs, run, cs) && k + 1 < |run| && r <= run[k].at < r + n + 2
    requires HasBranch(p, t, r, n) && j < n
    requires run[k].at == r ==> ChoosesBy(p, t, n, labelKey, labels, cs[k])
    requires run[k].at == r && VisitSucceeds(p, run[k], cs[k]) ==> WroteLabel(p, r, cs[k], labelKey, labels[j])
    ensures if !VisitSucceeds(p, run[k], cs[k]) then run[k + 1].at >= r + n + 2
      else run[k + 1].at == if run[k].at == r then r + 1 + j else if run[k].at <= r + n then r + n + 1 else r + n + 2
  {
    hide HasBranch, Visited, Iterate, ChoosesBy, Accepted, Starts, Inv, WroteLabel;
    RunFits(p, inputs, run, cs, k);
    assert Steps(p, run[k], cs[k], run[k + 1]);
    var a := run[k];
    if !VisitSucceeds(p, a, cs[k]) {
      BranchFails(p, a.state, t, r, n, a.at, cs[k]);
    } else if a.at == r {
      RouteGoes(p, a.state, t, r, n, cs[k], labelKey, labels, j);
    } else {
      ArmGoes(p, a.state, t, r, n, cs[k], a.at - r - 1);
    }
  }

  /** A run that starts a Branch visits the routing step, the arm whose label that wrote and the step where the
      arms meet, and is then past the Branch, whether by the step after or because a visit has failed. So until it
      has left the Branch it visits no other arm. */
  lemma {:induction false} BranchGoes(p: Pipeline, inputs: Values, run: seq<Config>, cs: seq<Choices>, k: nat, m: nat, t: nat, r: nat, n: nat,
    labelKey: Name, labels: seq<Value>, j: nat)
    requires Accepted(p) && IsRun(p, inputs, run, cs) && k < m < |run| && run[k].at == r
    requires HasBranch(p, t, r, n) && ChoosesBy(p, t, n, labelKey, labels, cs[k]) && j < n
    requires VisitSucceeds(p, run[k], cs[k]) ==> WroteLabel(p, r, cs[k], labelKey, labels[j])
    requires forall l :: k <= l < m ==> run[l].at < r + n + 2
    ensures run[m].at >= r + n + 2 || (m == k + 1 && run[m].at == r + 1 + j) || (m == k + 2 && run[m].at == r + n + 1)
    ensures run[m].at < r + n + 2 ==> VisitSucceeds(p, run[m - 1], cs[m - 1])
    ensures VisitSucceeds(p, run[m - 1], cs[m - 1]) ==>
      run[m].at == if m == k + 1 then r + 1 + j else if m == k + 2 then r + n + 1 else r + n + 2
    decreases m
  {
    hide HasBranch, VisitSucceeds, ChoosesBy, Accepted, Starts, Steps, WroteLabel;
    if m > k + 1 {
      assert run[m - 1].at < r + n + 2;
      BranchGoes(p, inputs, run, cs, k, m - 1, t, r, n, labelKey, labels, j);
    }
    BranchStepGoes(p, inputs, run, cs, m - 1, t, r, n, labelKey, labels, j);
  }

  /** The visit from a succeeds. */
  ghost predicate VisitSucceeds(p: Pipeline, a: Config, c: Choices) {
    Sized(p) && Fits(p, a.state) && a.at < |p.steps| && Visited(p, a.state, a.at, c).1.err == []
  }

  lemma RunFits(p: Pipeline, inputs: Values, run: seq<Config>, cs: seq<Choices>, k: nat)
    requires Accepted(p) && IsRun(p, inputs, run, cs) && k < |run|
    ensures Sized(p) && Fits(p, run[k].state) && RewindKnown(p, run[k].state)
  {
    var known := RunInvAll(p, inputs, run, cs, k);
  }

  lemma SeesLabel(p: Pipeline, r: nat, values: Values, writes: Values, labelKey: Name)
    requires r < |p.steps| && Declares(p.steps[r].writeKeys, labelKey) && labelKey in writes
    ensures var names := Names(p.steps[r].readKeys) + Names(p.steps[r].writeKeys);
      var seen := KeyValues(values + writes, names);
      labelKey in seen && seen[labelKey] == writes[labelKey]
  {
  }

  /** A step with no transition, or one that always matches. */
  lemma ArmChooses(p: Pipeline, s: FlowState, i: nat, view: Values, c: Choices)
    requires |s.visits| == |p.maxVisits| && i < |p.success|
    requires p.success[i] == [] || (|p.success[i]| == 1 && Closing(p.success[i][0]))
    ensures Choose(p, s, p.success[i], 0, false, view, c)
      == Chosen(if p.success[i] == [] then None else Some(p.success[i][0]), None)
  {
  }

  /** The rules of a Branch are no rewinds. */
  lemma BranchPlain(p: Pipeline, t: nat, r: nat, n: nat)
    requires HasBranch(p, t, r, n)
    ensures t + 2 * n - 1 <= |p.rules| && OnlyFrom(p.rules, t, t + 2 * n - 1, r, r + n + 2) && n > 0
    ensures forall m :: t <= m < t + 2 * n - 1 ==> !p.rules[m].rewind
    ensures forall m :: 0 <= m < n ==> p.rules[t + m] == RouteRules(t, r, n)[m]
  {
    var rules := p.rules[t..t + 2 * n - 1];
    assert forall m :: t <= m < t + 2 * n - 1 ==> p.rules[m] == rules[m - t];
  }
}

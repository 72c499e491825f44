/** PipelineSpec.Build as a whole: it returns a pipeline exactly for the specs SpecAccepted accepts,
    and every pipeline it returns is Accepted, which is all that runs rely on. */
module BuildSpec {
  import opened Basics
  import opened Pipelines
  import opened Specs
  import opened Compiled
  import opened TransitionFacts
  import opened Declarations
  import opened Builder

  // ---- overlaps ----

  lemma SpanIn(rules: seq<Rule>, m: nat)
    requires m < |rules| && rules[m].rewind && rules[m].to >= 0
    ensures SpanOf(rules[m]) in SpansOf(rules)
  {
  }

  /** Two ranges overlap exactly when two different ones hold one step. */
  lemma OverlapMeans(rules: seq<Rule>, n: nat)
    requires forall m :: 0 <= m < |rules| ==> RuleOk(rules[m], n)
    ensures DisjointRanges(rules) <==> forall x :: 0 <= x < n ==> |Holding(SpansOf(rules), x)| <= 1
  {
    if forall x :: 0 <= x < n ==> |Holding(SpansOf(rules), x)| <= 1 {
      forall a, b | 0 <= a < |rules| && 0 <= b < |rules| && rules[a].rewind && rules[b].rewind
        && rules[a].from >= rules[b].to && rules[b].from >= rules[a].to
        ensures rules[a].to == rules[b].to && rules[a].from == rules[b].from
      {
        var x := Max(rules[a].to, rules[b].to);
        SpanIn(rules, a);
        SpanIn(rules, b);
        AtMostOne(SpansOf(rules), x, SpanOf(rules[a]), SpanOf(rules[b]));
      }
    }
    if DisjointRanges(rules) {
      forall x | 0 <= x < n ensures |Holding(SpansOf(rules), x)| <= 1 {
        HoldsOne(rules, n, x);
      }
    }
  }

  lemma HoldsOne(rules: seq<Rule>, n: nat, x: nat)
    requires DisjointRanges(rules) && x < n
    requires forall m :: 0 <= m < |rules| ==> RuleOk(rules[m], n)
    ensures |Holding(SpansOf(rules), x)| <= 1
  {
    var holding := Holding(SpansOf(rules), x);
    if holding != {} {
      var span :| span in holding;
      var a :| 0 <= a < |rules| && rules[a].rewind && rules[a].to >= 0 && SpanOf(rules[a]) == span;
      forall other | other in holding ensures other == span {
        var b :| 0 <= b < |rules| && rules[b].rewind && rules[b].to >= 0 && SpanOf(rules[b]) == other;
      }
      assert holding == {span};
    }
  }

  // ---- the plan is accepted ----

  lemma {:induction false} TypesMonotone(spec: PipelineSpec, i: nat, j: nat, key: Name)
    requires i <= j <= |spec.steps| && SourceType(spec, i, key).Some?
    ensures SourceType(spec, j, key) == SourceType(spec, i, key)
    decreases j - i
  {
    if i < j {
      TypesMonotone(spec, i, j - 1, key);
    }
  }

  lemma RulesOk(spec: PipelineSpec)
    requires TransitionsOk(spec)
    ensures forall m :: 0 <= m < |RulesOfSpec(spec)| ==>
      RuleOk(RulesOfSpec(spec)[m], |spec.steps|) && RulesOfSpec(spec)[m].index == m
  {
    forall m | 0 <= m < |RulesOfSpec(spec)| ensures RuleOk(RulesOfSpec(spec)[m], |spec.steps|) {
      assert TransitionOk(spec, spec.transitions[m]);
    }
  }

  lemma TargetLimits(spec: PipelineSpec, i: nat)
    requires TransitionsOk(spec) && i < |spec.steps| && IsTarget(RulesOfSpec(spec), i)
    ensures Limit(spec, i) >= 2
  {
    var m :| 0 <= m < |RulesOfSpec(spec)| && RulesOfSpec(spec)[m].rewind && RulesOfSpec(spec)[m].to == i;
    assert TransitionOk(spec, spec.transitions[m]);
  }

  lemma PlanKeys(spec: PipelineSpec, keys: map<Span, map<Name, Type>>)
    requires TransitionsOk(spec)
    requires keys.Keys == SpansOf(RulesOfSpec(spec)) && RangeKeysMean(spec, keys, |spec.steps|)
    ensures KeysOk(Plan(spec).(keys := keys))
  {
    var p := Plan(spec).(keys := keys);
    hide RulesOf, LastFallback, IsTarget, Limit, RulesOfSpec, TransitionsOk;
    RulesOk(spec);
    forall m | 0 <= m < |p.rules| && p.rules[m].rewind && 0 <= p.rules[m].to
      ensures SpanOf(p.rules[m]) in p.keys
      ensures forall key :: key in p.keys[SpanOf(p.rules[m])] <==> WrittenIn(p.steps, SpanOf(p.rules[m]), key)
    {
      SpanIn(p.rules, m);
      var span := SpanOf(p.rules[m]);
      assert RuleOk(p.rules[m], |spec.steps|);
      forall key ensures key in keys[span] <==> WrittenIn(p.steps, span, key) {
        if WrittenIn(p.steps, span, key) {
          var w :| span.start <= w <= span.end && Writes(p.steps, w, key);
          assert w < |spec.steps|;
        }
      }
    }
  }

  lemma PlanTables(spec: PipelineSpec, keys: map<Span, map<Name, Type>>)
    requires TransitionsOk(spec)
    requires keys.Keys == SpansOf(RulesOfSpec(spec)) && RangeKeysMean(spec, keys, |spec.steps|)
    ensures TablesOk(Plan(spec).(keys := keys))
  {
    hide RulesOf, LastFallback, KeysOk, RuleOk, IsTarget, Limit, RulesOfSpec, TransitionsOk, RangeKeysMean, SpansOf;
    var p := Plan(spec).(keys := keys);
    RulesOk(spec);
    PlanKeys(spec, keys);
    forall i: nat | i < |spec.steps| && p.target[i] ensures p.maxVisits[i] >= 2 {
      TargetLimits(spec, i);
    }
  }

  /** The keys the spec declares before any rule is looked at. */
  function DeclaredKeys(spec: PipelineSpec): set<Name> {
    Names(spec.inputs) + DefaultValues(spec.defaults).Keys
      + (set i, j | 0 <= i < |spec.steps| && 0 <= j < |spec.steps[i].writeKeys| :: spec.steps[i].writeKeys[j].name)
      + (set i, j | 0 <= i < |spec.steps| && 0 <= j < |spec.steps[i].readKeys| :: spec.steps[i].readKeys[j].name)
  }

  /** The one type of each key: that of its source once every step is registered. */
  function KeyTypes(spec: PipelineSpec): map<Name, Type> {
    map key | key in DeclaredKeys(spec) && SourceType(spec, |spec.steps|, key).Some? :: SourceType(spec, |spec.steps|, key).value
  }

  predicate HasType(spec: PipelineSpec, key: KeyRef) {
    key.name in KeyTypes(spec) && KeyTypes(spec)[key.name] == key.typ
  }

  /** A source before step i is the source at the end. */
  lemma TypedBySource(spec: PipelineSpec, i: nat, key: KeyRef)
    requires i <= |spec.steps| && SourceType(spec, i, key.name) == Some(key.typ)
    requires key.name in DeclaredKeys(spec)
    ensures HasType(spec, key)
  {
    TypesMonotone(spec, i, |spec.steps|, key.name);
  }

  lemma SeedsTyped(spec: PipelineSpec)
    requires DistinctKeys(spec.inputs)
    ensures forall j :: 0 <= j < |spec.inputs| ==> HasType(spec, spec.inputs[j])
    ensures forall key :: key in DefaultValues(spec.defaults) && !Declares(spec.inputs, key) ==>
      HasType(spec, KeyRef(key, DefaultValues(spec.defaults)[key].typ))
  {
    forall j | 0 <= j < |spec.inputs| ensures HasType(spec, spec.inputs[j]) {
      TypeOfDistinct(spec.inputs, j);
      TypedBySource(spec, 0, spec.inputs[j]);
    }
    forall key | key in DefaultValues(spec.defaults) && !Declares(spec.inputs, key)
      ensures HasType(spec, KeyRef(key, DefaultValues(spec.defaults)[key].typ))
    {
      TypedBySource(spec, 0, KeyRef(key, DefaultValues(spec.defaults)[key].typ));
    }
  }

  lemma ReadTyped(spec: PipelineSpec, i: nat, j: nat)
    requires i < |spec.steps| && j < |spec.steps[i].readKeys| && TypesOk(spec, i)
    ensures HasType(spec, spec.steps[i].readKeys[j])
  {
    hide HasType, SourceType;
    TypedBySource(spec, i, spec.steps[i].readKeys[j]);
  }

  lemma WriteTyped(spec: PipelineSpec, i: nat, j: nat)
    requires i < |spec.steps| && j < |spec.steps[i].writeKeys| && TypesOk(spec, i) && DistinctKeys(spec.steps[i].writeKeys)
    ensures HasType(spec, spec.steps[i].writeKeys[j])
  {
    hide HasType;
    var key := spec.steps[i].writeKeys[j];
    TypeOfDistinct(spec.steps[i].writeKeys, j);
    assert SourceType(spec, i + 1, key.name) == Some(key.typ);
    TypedBySource(spec, i + 1, key);
  }

  /** No default is for an input. */
  lemma {:induction false} DefaultsNotInputs(spec: PipelineSpec, m: nat, key: Name)
    requires DefaultsOk(spec) && m <= |spec.defaults| && key in DefaultValues(spec.defaults[..m])
    ensures !Declares(spec.inputs, key)
  {
    var less := spec.defaults[..m];
    assert less[..m - 1] == spec.defaults[..m - 1];
    if key != less[m - 1].key.name {
      DefaultsNotInputs(spec, m - 1, key);
    }
  }

  lemma PlanTyped(spec: PipelineSpec, keys: map<Span, map<Name, Type>>)
    requires TransitionsOk(spec) && DistinctKeys(spec.inputs) && DefaultsOk(spec)
    requires forall i :: 0 <= i < |spec.steps| ==> TypesOk(spec, i) && DistinctKeys(spec.steps[i].writeKeys)
    ensures Typed(Plan(spec).(keys := keys), KeyTypes(spec))
  {
    hide TypesOk, DefaultsOk, DefaultValues, DistinctKeys, KeyTypes, RulesOf, LastFallback, IsTarget, RulesOfSpec;
    SeedsTyped(spec);
    assert spec.defaults[..|spec.defaults|] == spec.defaults;
    forall key | key in DefaultValues(spec.defaults) ensures !Declares(spec.inputs, key) {
      DefaultsNotInputs(spec, |spec.defaults|, key);
    }
    forall key | key in DefaultValues(spec.defaults)
      ensures key in KeyTypes(spec) && KeyTypes(spec)[key] == DefaultValues(spec.defaults)[key].typ
    {
      assert HasType(spec, KeyRef(key, DefaultValues(spec.defaults)[key].typ));
    }
    forall i, j | 0 <= i < |spec.steps| && 0 <= j < |spec.steps[i].writeKeys|
      ensures HasType(spec, spec.steps[i].writeKeys[j])
    {
      WriteTyped(spec, i, j);
    }
    forall i, j | 0 <= i < |spec.steps| && 0 <= j < |spec.steps[i].readKeys|
      ensures HasType(spec, spec.steps[i].readKeys[j])
    {
      ReadTyped(spec, i, j);
    }
  }

  /** What runs rely on holds of every accepted spec's plan. */
  lemma AcceptedPlan(spec: PipelineSpec, keys: map<Span, map<Name, Type>>)
    requires SpecAccepted(spec)
    requires keys.Keys == SpansOf(RulesOfSpec(spec)) && RangeKeysMean(spec, keys, |spec.steps|)
    ensures Accepted(Plan(spec).(keys := keys))
  {
    var p := Plan(spec).(keys := keys);
    PlanParts(spec);
    SpecParts(spec);
    hide SpecAccepted, TypesOk, DefaultsOk, DistinctKeys, DisjointRanges, RulesOfSpec, KeyTypes, Readable, MayCommitBoth,
      TablesOk, Typed, AmendableOk, TransitionsOk, RangeKeysMean, SpansOf, RulesOf, IsTarget, LastFallback, Limit, AmendsStep;
    StepsAccepted(spec, p);
    AmendsPlanned(spec, p);
    PlanTables(spec, keys);
    PlanTyped(spec, keys);
  }

  /** Every rule with an Amend has an amendable target. */
  lemma AmendsPlanned(spec: PipelineSpec, p: Pipeline)
    requires TransitionsOk(spec) && p == Plan(spec).(keys := p.keys)
    ensures forall m :: 0 <= m < |p.rules| && p.rules[m].hasAmend ==> AmendsStep(p, p.rules[m])
  {
    hide RulesOf, IsTarget, LastFallback, Limit, StepAt;
    forall m | 0 <= m < |p.rules| && p.rules[m].hasAmend ensures AmendsStep(p, p.rules[m]) {
      assert TransitionOk(spec, spec.transitions[m]);
    }
  }

  /** The parts of SpecAccepted the plan needs. */
  lemma SpecParts(spec: PipelineSpec)
    requires SpecAccepted(spec)
    ensures |spec.steps| > 0 && DistinctKeys(spec.inputs) && DefaultsOk(spec) && TransitionsOk(spec)
    ensures DisjointRanges(RulesOfSpec(spec)) && DisjointRanges(Plan(spec).rules)
    ensures forall i :: 0 <= i < |spec.steps| ==>
      TypesOk(spec, i) && DistinctKeys(spec.steps[i].readKeys) && DistinctKeys(spec.steps[i].writeKeys) && AmendableOk(spec.steps[i])
  {
    hide TypesOk, DefaultsOk, DistinctKeys, DisjointRanges, FlowOk, AmendableOk, MergesOk, MergesUsed, DefaultsUsed, LimitsOk,
      AmendTargetsOk, LabelsOk, TransitionsOk;
    forall i | 0 <= i < |spec.steps| ensures
      TypesOk(spec, i) && DistinctKeys(spec.steps[i].readKeys) && DistinctKeys(spec.steps[i].writeKeys) && AmendableOk(spec.steps[i])
    {
      assert StepOk(spec, i);
    }
  }

  /** The plan's keys play no part in what its reads and writes are asked. */
  lemma StepsAccepted(spec: PipelineSpec, p: Pipeline)
    requires SpecAccepted(spec) && p == Plan(spec).(keys := p.keys)
    ensures forall i, key :: Reads(p.steps, i, key) ==> Readable(p, i, key)
    ensures forall i, key :: Writes(p.steps, i, key) ==> !Declares(p.inputs, key)
    ensures forall w, i, key :: 0 <= w < i && Writes(p.steps, w, key) && Writes(p.steps, i, key) && key !in p.merges ==>
      |p.success| == |p.steps| && !MayCommitBoth(p, w, i)
  {
    var plan := Plan(spec);
    PlanParts(spec);
    hide DistinctKeys, DisjointRanges, RulesOfSpec, AmendableOk, MergesOk, MergesUsed, DefaultsUsed, LimitsOk, AmendTargetsOk,
      TypesOk, LabelsOk, Plan, DefaultsOk;
    forall i, key | Reads(p.steps, i, key) ensures Readable(p, i, key) {
      assert FlowOk(spec, i);
      assert Readable(plan, i, key);
    }
    forall i, key | Writes(p.steps, i, key) ensures !Declares(p.inputs, key) {
      assert FlowOk(spec, i);
    }
    forall w, i, key | 0 <= w < i && Writes(p.steps, w, key) && Writes(p.steps, i, key) && key !in p.merges
      ensures !MayCommitBoth(p, w, i)
    {
      assert FlowOk(spec, i);
      assert !MayCommitBoth(plan, w, i);
    }
  }

  // ---- the pass over steps ----

  /** What Build has asked of step i once it registers the step. */
  ghost predicate StepPassed(spec: PipelineSpec, i: nat)
    requires TransitionsOk(spec) && i < |spec.steps|
  {
    && |Holding(SpansOf(RulesOfSpec(spec)), i)| <= 1
    && NameOk(spec.steps[i].name) && StepOk(spec, i) && FlowOk(spec, i)
    && (spec.steps[i].amendable.Some? ==> IsAmendTarget(RulesOfSpec(spec), i))
  }

  /** The pass has checked and registered the steps before i. */
  ghost predicate Passed(builder: PipelineBuilder, i: nat)
    reads builder, builder.flow
  {
    && builder.Valid() && i <= |builder.spec.steps| && builder.flow.At(i) && builder.Before(i)
    && LabelsMean(builder.spec, builder.labels, i) && UsedMeans(builder.spec, builder.used, i)
  }

  /** One step of the pass: the rewind range that holds step i, its own checks, and what it makes
      available to the steps after it. */
  method CheckNext(builder: PipelineBuilder, i: nat) returns (error: Option<BuildError>)
    requires Passed(builder, i) && i < |builder.spec.steps|
    modifies builder, builder.flow
    ensures error.None? <==> StepPassed(builder.spec, i)
    ensures error == Some(OverlappingRewinds(i)) <==> |Holding(SpansOf(RulesOfSpec(builder.spec)), i)| > 1
    ensures error.None? ==> Passed(builder, i + 1)
    ensures var n := |builder.spec.steps[i].writeKeys|;
      error.None? ==> old(builder.flow.work) + 1 + 2 * n <= builder.flow.work <= old(builder.flow.work) + 1 + 3 * n
  {
    hide SkipsMean, RangesMean, RangeAtMeans, OnErrorMeans, ExitsMean, SumsAt, CurrentAt, LabelsMean, UsedMeans, LabelsOk, TypesOk,
      FlowOk, NameOk, SourcesMean, UnwrittenMeans, WrittenByMeans, RangeKeysMean, InputsKept, Holding, SkipCount, Count, DistinctKeys,
      AmendableOk, RulesOfSpec, TransitionsOk, SpansOf;
    var spec, flow := builder.spec, builder.flow;
    var ok := flow.Enter(i, RulesOfSpec(spec));
    if !ok {
      return Some(OverlappingRewinds(i));
    }
    error := builder.CheckStep(i);
    if error.Some? {
      return;
    }
    if spec.steps[i].amendable.Some? && !flow.amendTarget[i] {
      return Some(UnusedAmendable(i));
    }
    NoInputWritten(spec, i);
    builder.Register(i);
  }

  lemma NoInputWritten(spec: PipelineSpec, i: nat)
    requires TransitionsOk(spec) && i < |spec.steps| && FlowOk(spec, i)
    ensures forall key :: Writes(spec.steps, i, key) ==> !Declares(spec.inputs, key)
  {
    PlanParts(spec);
  }

  /** How many writes the steps before i declare together. */
  function Declared(steps: seq<StepNode>, i: nat): nat
    requires i <= |steps|
  {
    if i == 0 then 0 else Declared(steps, i - 1) + |steps[i - 1].writeKeys|
  }

  /** Build's one pass over the steps. */
  method CheckSteps(builder: PipelineBuilder) returns (error: Option<BuildError>)
    requires Passed(builder, 0)
    modifies builder, builder.flow
    ensures error.None? <==> forall i :: 0 <= i < |builder.spec.steps| ==> StepPassed(builder.spec, i)
    ensures error.None? ==> Passed(builder, |builder.spec.steps|)
    ensures var n, writes := |builder.spec.steps|, Declared(builder.spec.steps, |builder.spec.steps|);
      error.None? ==> old(builder.flow.work) + n + 2 * writes <= builder.flow.work <= old(builder.flow.work) + n + 3 * writes
  {
    assert TransitionsOk(builder.spec);
    hide Passed, StepPassed, TransitionsOk;
    for i := 0 to |builder.spec.steps|
      invariant Passed(builder, i)
      invariant var writes := Declared(builder.spec.steps, i);
        old(builder.flow.work) + i + 2 * writes <= builder.flow.work <= old(builder.flow.work) + i + 3 * writes
      invariant forall j :: 0 <= j < i ==> StepPassed(builder.spec, j)
    {
      error := CheckNext(builder, i);
      if error.Some? {
        return;
      }
    }
    return None;
  }

  lemma LabelsStart(spec: PipelineSpec)
    ensures LabelsMean(spec, {}, 0) && UsedMeans(spec, {}, 0)
  {
  }

  // ---- Build ----

  /** What the passes over transitions and steps have asked of a spec. */
  ghost predicate FlowPassed(spec: PipelineSpec) {
    && LimitsOk(spec) && TransitionsOk(spec) && LimitsUsed(spec)
    && forall i :: 0 <= i < |spec.steps| ==> StepPassed(spec, i)
  }

  lemma NameSet(name: Name)
    requires NameOk(name)
    ensures name != ""
  {
  }

  lemma AcceptedMeans(spec: PipelineSpec)
    requires |spec.steps| > 0 && DistinctKeys(spec.inputs) && MergesOk(spec) && DefaultsOk(spec)
    ensures SpecAccepted(spec) ==> NamesDiffer(spec.steps) && FlowPassed(spec)
    ensures NamesDiffer(spec.steps) && FlowPassed(spec) && MergesUsed(spec) && DefaultsUsed(spec) ==> SpecAccepted(spec)
  {
    hide LimitsOk, TransitionsOk, LimitsUsed, StepOk, FlowOk, DistinctKeys, MergesOk, DefaultsOk, MergesUsed, DefaultsUsed, NameOk,
      DisjointRanges, IsAmendTarget, Holding, SpansOf, RulesOfSpec;
    if TransitionsOk(spec) {
      RulesOk(spec);
      OverlapMeans(RulesOfSpec(spec), |spec.steps|);
    }
    if NamesDiffer(spec.steps) && FlowPassed(spec) && MergesUsed(spec) && DefaultsUsed(spec) {
      forall i: nat | i < |spec.steps|
        ensures NameOk(spec.steps[i].name) && |Holding(SpansOf(RulesOfSpec(spec)), i)| <= 1 && StepOk(spec, i) && FlowOk(spec, i)
        ensures spec.steps[i].amendable.Some? ==> IsAmendTarget(RulesOfSpec(spec), i)
      {
        assert StepPassed(spec, i);
      }
      forall i, j | 0 <= i < j < |spec.steps| ensures spec.steps[i].name != spec.steps[j].name {
        assert NameOk(spec.steps[i].name);
        NameSet(spec.steps[i].name);
      }
    }
    if SpecAccepted(spec) {
      assert forall i, j :: 0 <= i < j < |spec.steps| ==> spec.steps[i].name != spec.steps[j].name;
      assert AmendTargetsOk(spec);
      forall i: nat | i < |spec.steps| ensures StepPassed(spec, i) {
        assert StepOk(spec, i);
        assert NameOk(spec.steps[i].name);
        assert |Holding(SpansOf(RulesOfSpec(spec)), i)| <= 1;
        assert spec.steps[i].amendable.Some? ==> IsAmendTarget(RulesOfSpec(spec), i);
      }
      assert NamesDiffer(spec.steps);
      assert FlowPassed(spec);
    }
  }

  /** What Build's two passes count is linear in the spec: an entry of MaxVisits counts twice, a transition
      its iteration, its rule and its skip, a step its iteration, and a write its range's key, its writer and
      whether it may stay unwritten. */
  predicate Linear(spec: PipelineSpec, work: nat) {
    var always := 2 * |spec.maxVisits| + 2 * |spec.transitions| + |spec.steps| + 2 * Declared(spec.steps, |spec.steps|);
    always <= work <= always + |spec.transitions| + Declared(spec.steps, |spec.steps|)
  }

  /** The checks of Build after the declarations: the passes over transitions and steps, and that
      every MergeRule and Default is used. */
  method CheckFlow(spec: PipelineSpec, index: map<Name, nat>, defaults: Values)
    returns (error: Option<BuildError>, p: Pipeline, work: nat)
    requires |spec.steps| <= MAX_INT && IndexMeans(index, spec.steps) && NamesDiffer(spec.steps)
    requires DefaultsOk(spec) && defaults == DefaultValues(spec.defaults)
    ensures error.None? <==> FlowPassed(spec) && MergesUsed(spec) && DefaultsUsed(spec)
    ensures error.None? ==> TransitionsOk(spec) && p == Plan(spec).(keys := p.keys)
    ensures error.None? ==> p.keys.Keys == SpansOf(RulesOfSpec(spec)) && RangeKeysMean(spec, p.keys, |spec.steps|)
    ensures error.None? ==> Linear(spec, work)
  {
    work := 0;
    hide LimitsOk, TransitionsOk, LimitsUsed, StepPassed, DefaultsOk, MergesUsed, DefaultsUsed, NamesDiffer, IndexMeans, RulesOfSpec,
      SpansOf, RangeKeysMean, SkipsMean, RangesMean, RangeAtMeans, OnErrorMeans, ExitsMean, SumsAt, CurrentAt, LabelsMean, UsedMeans,
      SourcesMean, UnwrittenMeans, WrittenByMeans, InputsKept, TableMeans, Plan, Limit, TargetsMean;
    var bad, maxVisits, counted := BuildMaxVisits(spec, index);
    if bad.Some? {
      return Some(BadMaxVisits(bad.value)), EmptyPipeline(), work;
    }
    var table: Table, flow: Facts;
    error, table, flow := CheckTransitions(spec, index, maxVisits, counted);
    if error.Some? {
      return error, EmptyPipeline(), work;
    }
    var builder := new PipelineBuilder(spec, defaults, flow);
    LabelsStart(spec);
    error := CheckSteps(builder);
    if error.Some? {
      return error, EmptyPipeline(), work;
    }
    bad := builder.CheckMerges();
    if bad.Some? {
      return Some(UnusedMergeRule(bad.value)), EmptyPipeline(), work;
    }
    bad := builder.CheckDefaults();
    if bad.Some? {
      return Some(UnusedDefault(bad.value)), EmptyPipeline(), work;
    }
    PlanIs(spec, table, maxVisits, flow.target, flow.amendTarget);
    p := Pipeline(spec.inputs, spec.steps, table.rules, table.success, table.failure, maxVisits, flow.target, table.fallback,
      flow.spans, builder.merges, defaults);
    return None, p, flow.work;
  }

  /** The tables the passes filled are the plan's. */
  lemma PlanIs(spec: PipelineSpec, table: Table, maxVisits: seq<int>, target: seq<bool>, amendTarget: seq<bool>)
    requires TransitionsOk(spec) && TableMeans(table, RulesOfSpec(spec), |spec.steps|)
    requires |maxVisits| == |spec.steps| && forall i :: 0 <= i < |spec.steps| ==> maxVisits[i] == Limit(spec, i)
    requires |target| == |spec.steps| && TargetsMean(target, amendTarget, RulesOfSpec(spec))
    ensures var p := Plan(spec);
      && p == Pipeline(spec.inputs, spec.steps, table.rules, table.success, table.failure, maxVisits, target, table.fallback,
           map[], MergeKeys(spec.merges), DefaultValues(spec.defaults))
  {
    hide RulesOfSpec, RulesOf, LastFallback, IsTarget, IsAmendTarget, Limit, TransitionsOk;
  }

  function EmptyPipeline(): Pipeline {
    Pipeline([], [], [], [], [], [], [], [], map[], {}, map[])
  }

  /** PipelineSpec.Build: the pipeline of a spec, or why there is none; and what its passes counted. */
  method Build(spec: PipelineSpec) returns (r: Result<Pipeline, BuildError>, work: nat)
    requires |spec.steps| <= MAX_INT
    ensures r.Ok? <==> SpecAccepted(spec)
    ensures r.Ok? ==> Accepted(r.value) && r.value == Plan(spec).(keys := r.value.keys)
    ensures r.Ok? ==> BuiltFrom(spec, r.value)
    ensures r.Ok? ==> Linear(spec, work)
  {
    work := 0;
    hide LimitsOk, TransitionsOk, LimitsUsed, StepPassed, DistinctKeys, MergesOk, DefaultsOk, MergesUsed, DefaultsUsed, NamesDiffer,
      Accepted, Plan, RulesOfSpec, SpansOf, RangeKeysMean, NamesOk, BuiltFrom;
    if |spec.steps| == 0 {
      return Err(NoSteps), work;
    }
    var inputsOk := CheckKeys(spec.inputs);
    if !inputsOk {
      return Err(BadInputs), work;
    }
    var bad := CheckMergeRules(spec);
    if bad.Some? {
      return Err(BadMergeRule(bad.value)), work;
    }
    var defaults: Values;
    bad, defaults := BuildDefaults(spec);
    if bad.Some? {
      return Err(BadDefault(bad.value)), work;
    }
    var index: map<Name, nat>;
    bad, index := IndexSteps(spec.steps);
    if bad.Some? {
      return Err(DuplicateName(bad.value)), work;
    }
    AcceptedMeans(spec);
    var error, p, counted := CheckFlow(spec, index, defaults);
    if error.Some? {
      return Err(error.value), work;
    }
    AcceptedPlan(spec, p.keys);
    PlanBuilt(spec, p);
    return Ok(p), counted;
  }
}

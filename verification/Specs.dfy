/**
 A pipeline as its caller declares it, and what Build asks of it.

 Names are the trimmed ones. Plan says what a spec compiles to, one table entry at a time;
 SpecAccepted says which specs Build returns a pipeline for.
 */
module Specs {
  import opened Basics
  import opened Pipelines

  /** The Transition.To that ends the run, and the one that fails it. */
  const End: Name := "$end"
  const Fail: Name := "$fail"

  datatype Transition = Transition(
    from: Name, onError: bool, hasWhen: bool, to: Name,
    hasAmend: bool, hasAccept: bool, hasRestore: bool, fallback: bool)

  /** A Default: its key and its value, which converts when it has the key's type. */
  datatype Default = Default(key: KeyRef, value: Value)

  /** maxVisits holds the entries of MaxVisits in the order of their names. */
  datatype PipelineSpec = PipelineSpec(
    inputs: seq<KeyRef>, steps: seq<StepNode>, transitions: seq<Transition>, maxVisits: seq<(Name, int)>,
    merges: seq<KeyRef>, defaults: seq<Default>)

  // ---- names ----

  predicate IsStep(steps: seq<StepNode>, name: Name) {
    name != "" && exists i :: 0 <= i < |steps| && steps[i].name == name
  }

  function StepAt(steps: seq<StepNode>, name: Name): (i: nat)
    requires IsStep(steps, name)
    ensures i < |steps| && steps[i].name == name
    ensures forall j :: 0 <= j < i ==> steps[j].name != name
  {
    if steps[0].name == name then 0
    else
      assert IsStep(steps[1..], name) by {
        var i :| 0 <= i < |steps| && steps[i].name == name;
        assert steps[1..][i - 1].name == name;
      }
      var i := StepAt(steps[1..], name);
      assert forall j :: 0 < j < i + 1 ==> steps[j] == steps[1..][j - 1];
      i + 1
  }

  /** Step names are set, hold no '.', are not reserved and differ. */
  predicate NamesOk(steps: seq<StepNode>) {
    && (forall i :: 0 <= i < |steps| ==> NameOk(steps[i].name))
    && (forall i, j :: 0 <= i < j < |steps| ==> steps[i].name != steps[j].name)
  }

  predicate NameOk(name: Name) {
    name != "" && '.' !in name && name != End && name != Fail
  }

  // ---- transitions ----

  /** The To of t as a rule's. */
  function DestOf(steps: seq<StepNode>, t: Transition): int
    requires t.to == End || t.to == Fail || IsStep(steps, t.to)
  {
    if t.to == End then END else if t.to == Fail then FAIL else StepAt(steps, t.to)
  }

  predicate Resolves(steps: seq<StepNode>, t: Transition) {
    IsStep(steps, t.from) && (t.to == End || t.to == Fail || IsStep(steps, t.to))
  }

  /** The rule t compiles to, once its names resolve. */
  function RuleOf(steps: seq<StepNode>, t: Transition, index: nat): Rule
    requires Resolves(steps, t)
  {
    var from := StepAt(steps, t.from);
    var to := DestOf(steps, t);
    Rule(index, from, to, 0 <= to <= from, t.onError, t.hasWhen, t.hasAmend, t.hasAccept, t.hasRestore, t.fallback)
  }

  /** The rule is the m-th transition's: it has the hooks and the mark the transition sets, goes from the step it
      names to the one it names, End or Fail, and rewinds exactly when that step is its own or an earlier one. */
  predicate Carries(steps: seq<StepNode>, t: Transition, m: nat, rule: Rule) {
    && rule.index == m
    && rule.from < |steps| && steps[rule.from].name == t.from
    && (if t.to == End then rule.to == END
        else if t.to == Fail then rule.to == FAIL
        else 0 <= rule.to < |steps| && steps[rule.to].name == t.to)
    && (rule.rewind <==> 0 <= rule.to <= rule.from)
    && (rule.onError <==> t.onError) && (rule.hasWhen <==> t.hasWhen) && (rule.hasAmend <==> t.hasAmend)
    && (rule.hasAccept <==> t.hasAccept) && (rule.hasRestore <==> t.hasRestore) && (rule.fallback <==> t.fallback)
  }

  /** What compileTransition asks of a transition. */
  predicate TransitionOk(spec: PipelineSpec, t: Transition) {
    Resolves(spec.steps, t) &&
    var rule := RuleOf(spec.steps, t, 0);
    if !rule.rewind then !t.hasAmend && !t.hasAccept && !t.hasRestore
    else
      && !(t.onError && (t.hasAccept || t.hasRestore))
      && Limit(spec, rule.to) >= 2
      && (t.hasAmend ==> spec.steps[rule.to].amendable.Some?)
  }

  predicate TransitionsOk(spec: PipelineSpec) {
    forall m :: 0 <= m < |spec.transitions| ==> TransitionOk(spec, spec.transitions[m])
  }

  function RulesOfSpec(spec: PipelineSpec): (rules: seq<Rule>)
    requires TransitionsOk(spec)
    ensures |rules| == |spec.transitions|
    ensures forall m :: 0 <= m < |rules| ==> rules[m] == RuleOf(spec.steps, spec.transitions[m], m)
  {
    seq(|spec.transitions|, m requires 0 <= m < |spec.transitions| => RuleOf(spec.steps, spec.transitions[m], m))
  }

  // ---- MaxVisits ----

  /** The MaxVisits of step i, or 0. */
  function Limit(spec: PipelineSpec, i: int): int {
    LimitIn(spec.steps, spec.maxVisits, i)
  }

  function LimitIn(steps: seq<StepNode>, entries: seq<(Name, int)>, i: int): int {
    if entries == [] then 0
    else
      var last := entries[|entries| - 1];
      if 0 <= i < |steps| && last.0 != "" && steps[i].name == last.0 then last.1
      else LimitIn(steps, entries[..|entries| - 1], i)
  }

  /** Every entry names a step, no two the same one, with at least two visits. */
  predicate LimitsOk(spec: PipelineSpec) {
    EntriesOk(spec.steps, spec.maxVisits)
  }

  predicate EntriesOk(steps: seq<StepNode>, entries: seq<(Name, int)>) {
    && (forall m :: 0 <= m < |entries| ==> IsStep(steps, entries[m].0) && entries[m].1 >= 2)
    && (forall m, k :: 0 <= m < k < |entries| ==> entries[m].0 != entries[k].0)
  }

  /** No entry is unused: some transition rewinds to each step named. */
  predicate LimitsUsed(spec: PipelineSpec)
    requires TransitionsOk(spec) && LimitsOk(spec)
  {
    forall m :: 0 <= m < |spec.maxVisits| ==> IsTarget(RulesOfSpec(spec), StepAt(spec.steps, spec.maxVisits[m].0))
  }

  // ---- keys ----

  function MergeKeys(merges: seq<KeyRef>): set<Name> {
    Names(merges)
  }

  /** Defaults have keys that differ and are not inputs, and values that convert. */
  predicate DefaultsOk(spec: PipelineSpec) {
    && (forall j :: 0 <= j < |spec.defaults| ==>
         && spec.defaults[j].key.name != ""
         && !Declares(spec.inputs, spec.defaults[j].key.name)
         && spec.defaults[j].value.typ == spec.defaults[j].key.typ)
    && (forall j, m :: 0 <= j < m < |spec.defaults| ==> spec.defaults[j].key.name != spec.defaults[m].key.name)
  }

  /** Merge rules have keys that differ and are not inputs. */
  predicate MergesOk(spec: PipelineSpec) {
    DistinctKeys(spec.merges) && forall j :: 0 <= j < |spec.merges| ==> !Declares(spec.inputs, spec.merges[j].name)
  }

  function DefaultValues(defaults: seq<Default>): Values {
    if defaults == [] then map[]
    else DefaultValues(defaults[..|defaults| - 1])[defaults[|defaults| - 1].key.name := defaults[|defaults| - 1].value]
  }

  /** The type key has before step i, by its first declaration: an input, a Default or a write. */
  function SourceType(spec: PipelineSpec, i: nat, key: Name): Option<Type>
    requires i <= |spec.steps|
  {
    if i == 0 then
      if Declares(spec.inputs, key) then Some(TypeOf(spec.inputs, key))
      else if key in DefaultValues(spec.defaults) then Some(DefaultValues(spec.defaults)[key].typ)
      else None
    else if SourceType(spec, i - 1, key).Some? then SourceType(spec, i - 1, key)
    else if Declares(spec.steps[i - 1].writeKeys, key) then Some(TypeOf(spec.steps[i - 1].writeKeys, key))
    else None
  }

  /** Step i reads keys that have a source, as its type, and writes keys as their source's. */
  predicate TypesOk(spec: PipelineSpec, i: nat)
    requires i < |spec.steps|
  {
    && (forall j :: 0 <= j < |spec.steps[i].readKeys| ==>
         SourceType(spec, i, spec.steps[i].readKeys[j].name) == Some(spec.steps[i].readKeys[j].typ))
    && (forall j :: 0 <= j < |spec.steps[i].writeKeys| ==>
         var source := SourceType(spec, i, spec.steps[i].writeKeys[j].name);
         source.Some? ==> source == Some(spec.steps[i].writeKeys[j].typ))
  }

  /** A key with the name of a Branch is written only by the Branch's routing step. */
  ghost predicate LabelsOk(spec: PipelineSpec, i: nat)
    requires i < |spec.steps|
  {
    forall key :: Writes(spec.steps, i, key) ==>
      if spec.steps[i].route && key == spec.steps[i].name then !WrittenBefore(spec.steps, i, key)
      else forall w :: 0 <= w < i && spec.steps[w].route && Writes(spec.steps, w, key) ==> spec.steps[w].name != key
  }

  /** What Build asks of step i alone. */
  ghost predicate StepOk(spec: PipelineSpec, i: nat)
    requires i < |spec.steps|
  {
    && DistinctKeys(spec.steps[i].readKeys) && DistinctKeys(spec.steps[i].writeKeys)
    && AmendableOk(spec.steps[i])
    && TypesOk(spec, i)
    && LabelsOk(spec, i)
  }

  /** An amendable step is the target of a rewind with an Amend. */
  predicate AmendTargetsOk(spec: PipelineSpec)
    requires TransitionsOk(spec)
  {
    forall i :: 0 <= i < |spec.steps| && spec.steps[i].amendable.Some? ==> IsAmendTarget(RulesOfSpec(spec), i)
  }

  predicate IsAmendTarget(rules: seq<Rule>, t: int) {
    exists m :: 0 <= m < |rules| && rules[m].rewind && rules[m].to == t && rules[m].hasAmend
  }

  /** How many steps before i write key. */
  function Writers(steps: seq<StepNode>, i: nat, key: Name): nat
    requires i <= |steps|
  {
    if i == 0 then 0 else Writers(steps, i - 1, key) + if Writes(steps, i - 1, key) then 1 else 0
  }

  /** Every merge rule has a key of its type that at least two steps write. */
  predicate MergesUsed(spec: PipelineSpec) {
    forall j :: 0 <= j < |spec.merges| ==>
      && Writers(spec.steps, |spec.steps|, spec.merges[j].name) >= 2
      && SourceType(spec, |spec.steps|, spec.merges[j].name) == Some(spec.merges[j].typ)
  }

  /** Every default has a key some step reads or writes. */
  predicate DefaultsUsed(spec: PipelineSpec) {
    forall j :: 0 <= j < |spec.defaults| ==> UsedBefore(spec.steps, |spec.steps|, spec.defaults[j].key.name)
  }

  /** A step before i reads or writes key. */
  predicate UsedBefore(steps: seq<StepNode>, i: nat, key: Name) {
    exists w :: 0 <= w < i && (Reads(steps, w, key) || Writes(steps, w, key))
  }

  // ---- the plan ----

  /** The pipeline a spec compiles to, but for the keys of its rewind ranges. */
  function Plan(spec: PipelineSpec): Pipeline
    requires TransitionsOk(spec)
  {
    var rules := RulesOfSpec(spec);
    var n := |spec.steps|;
    Pipeline(
      spec.inputs, spec.steps, rules,
      seq(n, i requires 0 <= i < n => RulesOf(rules, i, false)),
      seq(n, i requires 0 <= i < n => RulesOf(rules, i, true)),
      seq(n, i requires 0 <= i < n => Limit(spec, i)),
      seq(n, i requires 0 <= i < n => IsTarget(rules, i)),
      seq(n, i requires 0 <= i < n => LastFallback(RulesOf(rules, i, true))),
      map[], MergeKeys(spec.merges), DefaultValues(spec.defaults))
  }

  /** What Build asks of the steps' reads and writes, given the transitions. */
  ghost predicate FlowOk(spec: PipelineSpec, i: nat)
    requires TransitionsOk(spec) && i < |spec.steps|
  {
    var p := Plan(spec);
    && (forall key :: Reads(p.steps, i, key) ==> Readable(p, i, key))
    && (forall key :: Writes(p.steps, i, key) ==> !Declares(p.inputs, key))
    && (forall w, key :: 0 <= w < i && Writes(p.steps, w, key) && Writes(p.steps, i, key) && key !in p.merges
         ==> !MayCommitBoth(p, w, i))
  }

  /** What Build asks of a spec. */
  ghost predicate SpecAccepted(spec: PipelineSpec) {
    && |spec.steps| > 0
    && DistinctKeys(spec.inputs) && MergesOk(spec) && DefaultsOk(spec)
    && NamesOk(spec.steps)
    && LimitsOk(spec) && TransitionsOk(spec) && LimitsUsed(spec)
    && DisjointRanges(RulesOfSpec(spec))
    && (forall i :: 0 <= i < |spec.steps| ==> StepOk(spec, i) && FlowOk(spec, i))
    && AmendTargetsOk(spec)
    && MergesUsed(spec) && DefaultsUsed(spec)
  }
}

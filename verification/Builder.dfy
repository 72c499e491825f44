/** The pass over steps, and Build as a whole. */
module Builder {
  import opened Basics
  import opened Pipelines
  import opened Specs
  import opened TransitionFacts
  import opened Declarations

  // ---- what the checks of one step mean ----

  /** A source is there exactly for what is seeded or written before. */
  lemma {:induction false} SourceExists(spec: PipelineSpec, i: nat, key: Name)
    requires i <= |spec.steps|
    ensures SourceType(spec, i, key).Some?
      <==> Declares(spec.inputs, key) || key in DefaultValues(spec.defaults) || WrittenBefore(spec.steps, i, key)
    ensures Writers(spec.steps, i, key) > 0 <==> WrittenBefore(spec.steps, i, key)
  {
    if i > 0 {
      SourceExists(spec, i - 1, key);
      assert WrittenBefore(spec.steps, i, key) <==> WrittenBefore(spec.steps, i - 1, key) || Writes(spec.steps, i - 1, key);
    }
  }

  /** No step before i writes an input. */
  ghost predicate InputsKept(spec: PipelineSpec, i: nat) {
    forall w, key :: 0 <= w < i && Writes(spec.steps, w, key) ==> !Declares(spec.inputs, key)
  }

  /** What the builder's maps say of a read is what Readable says. */
  lemma ReadMeans(spec: PipelineSpec, unwritten: set<Name>, i: nat, key: Name)
    requires TransitionsOk(spec) && i < |spec.steps| && InputsKept(spec, i)
    requires UnwrittenMeans(spec, RulesOfSpec(spec), unwritten, i)
    ensures SourceType(spec, i, key).Some? && key !in unwritten <==> Readable(Plan(spec), i, key)
  {
    SourceExists(spec, i, key);
    var p := Plan(spec);
    assert MayMiss(spec, p.rules, i, key)
      <==> exists w :: 0 <= w < i && Writes(p.steps, w, key) && MayNotWrite(p.rules, w, |p.steps|);
  }

  /** Some step before i that writes key may commit it before step i commits it too. */
  ghost predicate SomeCommitsBoth(spec: PipelineSpec, i: nat, key: Name)
    requires TransitionsOk(spec) && i < |spec.steps|
  {
    exists w :: 0 <= w < i && Writes(spec.steps, w, key) && MayCommitBoth(Plan(spec), w, i)
  }

  /** A rewind target after the first writer and up to step i is one after some writer. */
  lemma LandsMeans(spec: PipelineSpec, rules: seq<Rule>, target: seq<bool>, i: nat, key: Name, first: nat)
    requires i < |spec.steps| == |target| && forall t :: 0 <= t < |target| ==> (target[t] <==> IsTarget(rules, t))
    requires first < i && Writes(spec.steps, first, key)
    requires forall w :: 0 <= w < i && Writes(spec.steps, w, key) ==> first <= w
    ensures Count(target, i + 1) > Count(target, first + 1)
      <==> exists w, t :: 0 <= w < t <= i && Writes(spec.steps, w, key) && IsTarget(rules, t) && w < i
  {
    CountMonotone(target, first + 1, i + 1);
    if Count(target, i + 1) > Count(target, first + 1) {
      var t :| first + 1 <= t < i + 1 && target[t];
      assert first < t <= i && Writes(spec.steps, first, key) && IsTarget(rules, t);
    }
    if exists w, t :: 0 <= w < t <= i && Writes(spec.steps, w, key) && IsTarget(rules, t) && w < i {
      var w, t :| 0 <= w < t <= i && Writes(spec.steps, w, key) && IsTarget(rules, t) && w < i;
      assert first + 1 <= t < i + 1 && target[t];
    }
  }

  /** Two writes may both commit when a writer may continue within reach or a rewind lands between. */
  lemma SomeCommitsBothMeans(spec: PipelineSpec, i: nat, key: Name)
    requires TransitionsOk(spec) && i < |spec.steps|
    ensures var rules := RulesOfSpec(spec);
      SomeCommitsBoth(spec, i, key) <==>
        (WriterWithin(spec, rules, i, key, i)
          || exists w, t :: 0 <= w < t <= i && Writes(spec.steps, w, key) && IsTarget(rules, t) && w < i)
  {
    hide Continues, IsTarget;
    var p, rules := Plan(spec), RulesOfSpec(spec);
    assert forall w :: 0 <= w < |spec.steps| ==> p.success[w] == RulesOf(rules, w, false);
    if WriterWithin(spec, rules, i, key, i) {
      var w :| 0 <= w < i && Writes(spec.steps, w, key) && ContinuesWithin(RulesOf(rules, w, false), w, |spec.steps|, i);
      assert MayCommitBoth(p, w, i);
    }
    if exists w, t :: 0 <= w < t <= i && Writes(spec.steps, w, key) && IsTarget(rules, t) && w < i {
      var w, t :| 0 <= w < t <= i && Writes(spec.steps, w, key) && IsTarget(rules, t) && w < i;
      assert MayCommitBoth(p, w, i);
    }
  }

  /** The least exit and the count of rewind targets decide whether two writes may both commit. */
  lemma BothCommitMeans(spec: PipelineSpec, target: seq<bool>, writtenBy: map<Name, WriterFacts>, i: nat, key: Name)
    requires TransitionsOk(spec) && i < |spec.steps| <= MAX_INT && |target| == |spec.steps|
    requires forall t :: 0 <= t < |target| ==> (target[t] <==> IsTarget(RulesOfSpec(spec), t))
    requires WrittenByMeans(spec, RulesOfSpec(spec), target, writtenBy, i)
    requires key in writtenBy
    ensures (writtenBy[key].reach <= i || Count(target, i + 1) > writtenBy[key].rewinds) <==> SomeCommitsBoth(spec, i, key)
  {
    var rules := RulesOfSpec(spec);
    var first := FirstOf(spec.steps, i, key);
    LandsMeans(spec, rules, target, i, key, first);
    SomeCommitsBothMeans(spec, i, key);
    assert writtenBy[key].rewinds == Count(target, first + 1);
    assert writtenBy[key].reach <= i <==> WriterWithin(spec, rules, i, key, i);
  }

  /** The first step that writes key. */
  lemma {:induction false} FirstOf(steps: seq<StepNode>, i: nat, key: Name) returns (w: nat)
    requires i <= |steps| && WrittenBefore(steps, i, key)
    ensures w < i && FirstWriter(steps, w, key)
    ensures forall k :: 0 <= k < i && Writes(steps, k, key) ==> w <= k
  {
    if WrittenBefore(steps, i - 1, key) {
      w := FirstOf(steps, i - 1, key);
    } else {
      w := i - 1;
    }
  }

  // ---- registering a step ----

  /** Writes of step i as the steps before i + 1 see them. */
  lemma WrittenNext(steps: seq<StepNode>, i: nat, key: Name)
    requires i < |steps|
    ensures WrittenBefore(steps, i + 1, key) <==> WrittenBefore(steps, i, key) || Declares(steps[i].writeKeys, key)
  {
    assert Writes(steps, i, key) <==> Declares(steps[i].writeKeys, key);
  }

  /** Step i writes key, which has no default, and may not. */
  ghost predicate Misses(spec: PipelineSpec, rules: seq<Rule>, i: nat, key: Name)
    requires i < |spec.steps|
  {
    Declares(spec.steps[i].writeKeys, key) && key !in DefaultValues(spec.defaults) && MayNotWrite(rules, i, |spec.steps|)
  }

  lemma UnwrittenNext(spec: PipelineSpec, rules: seq<Rule>, unwritten: set<Name>, i: nat, more: set<Name>)
    requires i < |spec.steps| && UnwrittenMeans(spec, rules, unwritten, i)
    requires forall key :: key in more <==> key in unwritten || Misses(spec, rules, i, key)
    ensures UnwrittenMeans(spec, rules, more, i + 1)
  {
    forall key ensures MayMiss(spec, rules, i + 1, key)
      <==> MayMiss(spec, rules, i, key) || (Declares(spec.steps[i].writeKeys, key) && MayNotWrite(rules, i, |spec.steps|))
    {
      assert Writes(spec.steps, i, key) <==> Declares(spec.steps[i].writeKeys, key);
      if MayMiss(spec, rules, i, key) {
        var w :| 0 <= w < i && Writes(spec.steps, w, key) && MayNotWrite(rules, w, |spec.steps|);
        assert Writes(spec.steps, w, key);
      }
    }
  }

  /** Sources after step i: its writes count one more writer, with the source's type or their own. */
  lemma SourcesNext(spec: PipelineSpec, sources: map<Name, KeySource>, i: nat, more: map<Name, KeySource>)
    requires i < |spec.steps| && SourcesMean(spec, sources, i) && TypesOk(spec, i) && DistinctKeys(spec.steps[i].writeKeys)
    requires forall key :: key in more <==> key in sources || Declares(spec.steps[i].writeKeys, key)
    requires forall key :: key in sources && !Declares(spec.steps[i].writeKeys, key) ==> more[key] == sources[key]
    requires forall key :: Declares(spec.steps[i].writeKeys, key) ==>
      more[key] == KeySource(TypeOf(spec.steps[i].writeKeys, key), true, 1 + if key in sources then sources[key].writers else 0)
    ensures SourcesMean(spec, more, i + 1)
  {
    var writes := spec.steps[i].writeKeys;
    forall key | key in more
      ensures SourceType(spec, i + 1, key) == Some(more[key].typ)
        && more[key].writers == Writers(spec.steps, i + 1, key)
        && (more[key].written <==> more[key].writers > 0)
    {
      SourceExists(spec, i, key);
      assert Writes(spec.steps, i, key) <==> Declares(writes, key);
      if Declares(writes, key) {
        var j := IndexOf(writes, key);
        assert writes[j].typ == TypeOf(writes, key);
      }
    }
    forall key ensures key in more <==> SourceType(spec, i + 1, key).Some? {
    }
  }

  lemma WrittenByNext(spec: PipelineSpec, rules: seq<Rule>, target: seq<bool>, writtenBy: map<Name, WriterFacts>, i: nat,
    reach: int, more: map<Name, WriterFacts>)
    requires i < |spec.steps| && WrittenByMeans(spec, rules, target, writtenBy, i)
    requires forall bound: int {:trigger ContinuesWithin(RulesOf(rules, i, false), i, |spec.steps|, bound)} :: bound < MAX_INT ==>
      (reach <= bound <==> ContinuesWithin(RulesOf(rules, i, false), i, |spec.steps|, bound))
    requires forall key :: key in more <==> key in writtenBy || Declares(spec.steps[i].writeKeys, key)
    requires forall key :: key in writtenBy && !Declares(spec.steps[i].writeKeys, key) ==> more[key] == writtenBy[key]
    requires forall key :: Declares(spec.steps[i].writeKeys, key) ==>
      more[key] == if key in writtenBy then WriterFacts(Min(writtenBy[key].reach, reach), writtenBy[key].rewinds)
        else WriterFacts(reach, Count(target, i + 1))
    ensures WrittenByMeans(spec, rules, target, more, i + 1)
  {
    forall key ensures WrittenBefore(spec.steps, i + 1, key)
      <==> WrittenBefore(spec.steps, i, key) || Declares(spec.steps[i].writeKeys, key)
    {
      WrittenNext(spec.steps, i, key);
    }
    forall key, w | key in more && 0 <= w < i + 1 && FirstWriter(spec.steps, w, key)
      ensures more[key].rewinds == Count(target, w + 1)
    {
      if w == i {
        assert key !in writtenBy;
        assert Declares(spec.steps[i].writeKeys, key);
      }
    }
    forall key, bound {:trigger WriterWithin(spec, rules, i + 1, key, bound)} | key in more && bound < MAX_INT
      ensures more[key].reach <= bound <==> WriterWithin(spec, rules, i + 1, key, bound)
    {
      WithinNext(spec, rules, i, key, bound);
    }
  }

  lemma WithinNext(spec: PipelineSpec, rules: seq<Rule>, i: nat, key: Name, bound: int)
    requires i < |spec.steps|
    ensures WriterWithin(spec, rules, i + 1, key, bound) <==>
      (WriterWithin(spec, rules, i, key, bound)
        || (Declares(spec.steps[i].writeKeys, key) && ContinuesWithin(RulesOf(rules, i, false), i, |spec.steps|, bound)))
    ensures WriterWithin(spec, rules, i, key, bound) ==> WrittenBefore(spec.steps, i, key)
  {
    assert Writes(spec.steps, i, key) <==> Declares(spec.steps[i].writeKeys, key);
    if WriterWithin(spec, rules, i, key, bound) {
      var w :| 0 <= w < i && Writes(spec.steps, w, key) && ContinuesWithin(RulesOf(rules, w, false), w, |spec.steps|, bound);
      assert Writes(spec.steps, w, key);
    }
  }

  lemma RangeKeysNext(spec: PipelineSpec, spans: map<Span, map<Name, Type>>, i: nat, current: Option<Span>,
    more: map<Span, map<Name, Type>>)
    requires i < |spec.steps| && RangeKeysMean(spec, spans, i) && CurrentAt(current, spans.Keys, i)
    requires more.Keys == spans.Keys
    requires forall span :: span in spans && current != Some(span) ==> more[span] == spans[span]
    requires current.Some? ==> forall key ::
      key in more[current.value] <==> key in spans[current.value] || Declares(spec.steps[i].writeKeys, key)
    ensures RangeKeysMean(spec, more, i + 1)
  {
    forall span, key | span in more ensures
      key in more[span] <==> exists w :: span.start <= w <= span.end && w < i + 1 && Writes(spec.steps, w, key)
    {
      assert Writes(spec.steps, i, key) <==> Declares(spec.steps[i].writeKeys, key);
      if key in spans[span] {
        var w :| span.start <= w <= span.end && w < i && Writes(spec.steps, w, key);
        assert Writes(spec.steps, w, key);
      }
      if exists w :: span.start <= w <= span.end && w < i + 1 && Writes(spec.steps, w, key) {
        var w :| span.start <= w <= span.end && w < i + 1 && Writes(spec.steps, w, key);
        assert w == i ==> span.Holds(i);
      }
    }
  }

  // ---- the checks of one step ----

  /** Every read of step i has a source of its type and is guaranteed. */
  ghost predicate ReadOk(spec: PipelineSpec, i: nat, read: KeyRef)
    requires TransitionsOk(spec) && i < |spec.steps|
  {
    SourceType(spec, i, read.name) == Some(read.typ) && Readable(Plan(spec), i, read.name)
  }

  ghost predicate LabelOk(spec: PipelineSpec, i: nat, key: Name)
    requires i < |spec.steps|
  {
    if spec.steps[i].route && key == spec.steps[i].name then !WrittenBefore(spec.steps, i, key)
    else forall w :: 0 <= w < i && spec.steps[w].route && Writes(spec.steps, w, key) ==> spec.steps[w].name != key
  }

  /** A write of step i keeps labels, inputs, types and the merge rules. */
  ghost predicate WriteOk(spec: PipelineSpec, i: nat, write: KeyRef)
    requires TransitionsOk(spec) && i < |spec.steps|
  {
    && LabelOk(spec, i, write.name)
    && !Declares(spec.inputs, write.name)
    && (SourceType(spec, i, write.name).Some? ==> SourceType(spec, i, write.name) == Some(write.typ))
    && (write.name in MergeKeys(spec.merges) || !SomeCommitsBoth(spec, i, write.name))
  }

  /** The checks of one step, key by key, are what Build asks of it. */
  lemma StepChecks(spec: PipelineSpec, i: nat)
    requires TransitionsOk(spec) && i < |spec.steps|
    requires DistinctKeys(spec.steps[i].readKeys) && DistinctKeys(spec.steps[i].writeKeys) && AmendableOk(spec.steps[i])
    ensures (StepOk(spec, i) && FlowOk(spec, i)) <==>
      ((forall j :: 0 <= j < |spec.steps[i].readKeys| ==> ReadOk(spec, i, spec.steps[i].readKeys[j]))
        && (forall j :: 0 <= j < |spec.steps[i].writeKeys| ==> WriteOk(spec, i, spec.steps[i].writeKeys[j])))
  {
    hide Readable, MayCommitBoth, SourceType, Plan;
    var reads', writes := spec.steps[i].readKeys, spec.steps[i].writeKeys;
    PlanParts(spec);
    if forall j :: 0 <= j < |reads'| ==> ReadOk(spec, i, reads'[j]) {
      forall key | Reads(spec.steps, i, key) ensures Readable(Plan(spec), i, key) {
        var j := IndexOf(reads', key);
        assert ReadOk(spec, i, reads'[j]);
      }
    }
    if forall j :: 0 <= j < |writes| ==> WriteOk(spec, i, writes[j]) {
      forall key | Writes(spec.steps, i, key)
        ensures LabelOk(spec, i, key) && !Declares(spec.inputs, key)
        ensures key in MergeKeys(spec.merges) || !SomeCommitsBoth(spec, i, key)
      {
        var j := IndexOf(writes, key);
        assert WriteOk(spec, i, writes[j]);
      }
    }
    forall j | 0 <= j < |reads'| ensures Reads(spec.steps, i, reads'[j].name) {
    }
    forall j | 0 <= j < |writes| ensures Writes(spec.steps, i, writes[j].name) {
    }
  }

  lemma PlanParts(spec: PipelineSpec)
    requires TransitionsOk(spec)
    ensures Plan(spec).steps == spec.steps && Plan(spec).inputs == spec.inputs && Plan(spec).merges == MergeKeys(spec.merges)
    ensures |Plan(spec).success| == |spec.steps|
  {
  }

  /** checkWrapper: WithAmendable's keys are set, differ and are reads of the step as the same types. */
  method CheckAmendableKeys(step: StepNode) returns (ok: bool)
    ensures ok == AmendableOk(step)
  {
    if step.amendable.None? {
      return true;
    }
    var keys := step.amendable.value;
    ok := CheckKeys(keys);
    if !ok || keys == [] {
      return false;
    }
    for j := 0 to |keys|
      invariant forall m :: 0 <= m < j ==> keys[m] in step.readKeys
    {
      if keys[j] !in step.readKeys {
        return false;
      }
    }
  }

  /** used after step i. */
  lemma UsedNext(spec: PipelineSpec, used: set<Name>, i: nat)
    requires i < |spec.steps| && UsedMeans(spec, used, i)
    ensures UsedMeans(spec, used + Names(spec.steps[i].readKeys) + Names(spec.steps[i].writeKeys), i + 1)
  {
    var more := used + Names(spec.steps[i].readKeys) + Names(spec.steps[i].writeKeys);
    forall key ensures key in more <==> UsedBefore(spec.steps, i + 1, key) {
      assert Reads(spec.steps, i, key) <==> key in Names(spec.steps[i].readKeys);
      assert Writes(spec.steps, i, key) <==> key in Names(spec.steps[i].writeKeys);
      if key in used {
        var w :| 0 <= w < i && (Reads(spec.steps, w, key) || Writes(spec.steps, w, key));
        assert Reads(spec.steps, w, key) || Writes(spec.steps, w, key);
      }
    }
  }

  predicate MergeUsed(spec: PipelineSpec, rule: KeyRef) {
    && Writers(spec.steps, |spec.steps|, rule.name) >= 2
    && SourceType(spec, |spec.steps|, rule.name) == Some(rule.typ)
  }

  // ---- the pass over steps ----

  /** The sources before the first step. */
  function Seeds(inputs: seq<KeyRef>, defaults: Values): map<Name, KeySource> {
    map key | key in Names(inputs) + defaults.Keys ::
      KeySource(if Declares(inputs, key) then TypeOf(inputs, key) else if key in defaults then defaults[key].typ else 0, false, 0)
  }

  lemma BeforeStart(spec: PipelineSpec, rules: seq<Rule>, target: seq<bool>, spans: map<Span, map<Name, Type>>)
    requires |target| == |spec.steps|
    requires forall span :: span in spans ==> spans[span] == map[]
    ensures SourcesMean(spec, Seeds(spec.inputs, DefaultValues(spec.defaults)), 0)
    ensures UnwrittenMeans(spec, rules, {}, 0)
    ensures WrittenByMeans(spec, rules, target, map[], 0)
    ensures RangeKeysMean(spec, spans, 0)
    ensures InputsKept(spec, 0)
  {
  }

  /** The checks of a spec step by step: sources, used and labels hold what the steps checked so far
      leave, and flow what the transitions say. */
  class PipelineBuilder {
    const spec: PipelineSpec
    const merges: set<Name>
    const defaults: Values
    const flow: Facts
    var sources: map<Name, KeySource>
    var used: set<Name>
    var labels: set<Name>

    ghost predicate Valid()
      reads flow
    {
      && TransitionsOk(spec) && |spec.steps| <= MAX_INT
      && merges == MergeKeys(spec.merges) && defaults == DefaultValues(spec.defaults)
      && flow.Valid() && flow.n == |spec.steps| && flow.Means(RulesOfSpec(spec))
    }

    /** What the maps mean once the steps before i have been registered. */
    ghost predicate Before(i: nat)
      requires Valid() && i <= |spec.steps|
      reads this, flow
    {
      && SourcesMean(spec, sources, i)
      && UnwrittenMeans(spec, RulesOfSpec(spec), flow.unwritten.Keys, i)
      && WrittenByMeans(spec, RulesOfSpec(spec), flow.target, flow.writtenBy, i)
      && RangeKeysMean(spec, flow.spans, i)
      && InputsKept(spec, i)
    }

    constructor (spec: PipelineSpec, defaults: Values, flow: Facts)
      requires TransitionsOk(spec) && |spec.steps| <= MAX_INT && DefaultsOk(spec)
      requires defaults == DefaultValues(spec.defaults)
      requires flow.Valid() && flow.n == |spec.steps| && flow.Means(RulesOfSpec(spec)) && flow.Untouched()
      ensures this.spec == spec && this.flow == flow && Valid() && Before(0)
      ensures used == {} && labels == {}
    {
      this.spec := spec;
      this.merges := MergeKeys(spec.merges);
      this.defaults := defaults;
      this.flow := flow;
      sources := Seeds(spec.inputs, defaults);
      used, labels := {}, {};
      new;
      hide SourcesMean, UnwrittenMeans, WrittenByMeans, RangeKeysMean, InputsKept;
      BeforeStart(spec, RulesOfSpec(spec), flow.target, flow.spans);
    }

    /** checkReads: the first read of step i that has no source of its type or is not guaranteed. */
    method CheckReads(i: nat) returns (bad: Option<Name>)
      requires Valid() && i < |spec.steps| && Before(i)
      modifies this`used
      ensures bad.None? <==> forall j :: 0 <= j < |spec.steps[i].readKeys| ==> ReadOk(spec, i, spec.steps[i].readKeys[j])
      ensures bad.None? ==> used == old(used) + Names(spec.steps[i].readKeys)
    {
      hide UnwrittenMeans, WrittenByMeans, RangeKeysMean, SourceType, InputsKept, Readable, Writers;
      var keys := spec.steps[i].readKeys;
      for j := 0 to |keys|
        invariant forall m :: 0 <= m < j ==> ReadOk(spec, i, keys[m])
        invariant used == old(used) + Names(keys[..j])
      {
        var key := keys[j];
        used := used + {key.name};
        NamesAppend(keys, j);
        ReadMeans(spec, flow.unwritten.Keys, i, key.name);
        if key.name !in sources || sources[key.name].typ != key.typ || key.name in flow.unwritten {
          return Some(key.name);
        }
      }
      assert keys[..|keys|] == keys;
      return None;
    }

    /** bothCommit: whether a run may commit a write of key by an earlier step and then one by step i. */
    method BothCommit(i: nat, key: Name) returns (both: bool)
      requires Valid() && i < |spec.steps| && Before(i)
      requires flow.rewinds == Count(flow.target, i + 1)
      requires key in sources && sources[key].writers > 0
      ensures both == SomeCommitsBoth(spec, i, key)
    {
      SourceExists(spec, i, key);
      BothCommitMeans(spec, flow.target, flow.writtenBy, i, key);
      var earlier := flow.writtenBy[key];
      return earlier.reach <= i || flow.rewinds > earlier.rewinds;
    }

    /** checkWrites: the first write of step i that a label, an input, a source of another type or an
        earlier write without a MergeRule refuses. */
    method CheckWrites(i: nat) returns (bad: Option<Name>)
      requires Valid() && i < |spec.steps| && Before(i) && LabelsMean(spec, labels, i)
      requires DistinctKeys(spec.steps[i].writeKeys)
      requires flow.rewinds == Count(flow.target, i + 1)
      modifies this`used, this`labels
      ensures bad.None? <==> forall j :: 0 <= j < |spec.steps[i].writeKeys| ==> WriteOk(spec, i, spec.steps[i].writeKeys[j])
      ensures bad.None? ==> used == old(used) + Names(spec.steps[i].writeKeys)
      ensures bad.None? ==> LabelsMean(spec, labels, i + 1)
    {
      hide UnwrittenMeans, WrittenByMeans, RangeKeysMean, SourceType, InputsKept, LabelsMean, SomeCommitsBoth, LabelOk, Writers;
      var keys := spec.steps[i].writeKeys;
      ghost var before := labels;
      for j := 0 to |keys|
        invariant forall m :: 0 <= m < j ==> WriteOk(spec, i, keys[m])
        invariant used == old(used) + Names(keys[..j])
        invariant labels == before + OwnLabels(spec.steps[i], Names(keys[..j]))
      {
        var key := keys[j];
        NamesAppend(keys, j);
        OwnLabelsLater(spec, before, i, j);
        var ok := CheckLabel(i, key.name, before);
        SourceExists(spec, i, key.name);
        NoWriterNoBoth(spec, i, key.name);
        if !ok || Declares(spec.inputs, key.name) {
          return Some(key.name);
        }
        if spec.steps[i].route && key.name == spec.steps[i].name {
          labels := labels + {key.name};
        }
        used := used + {key.name};
        if key.name in sources {
          var source := sources[key.name];
          if source.typ != key.typ {
            return Some(key.name);
          }
          if source.writers > 0 && key.name !in merges {
            var both := BothCommit(i, key.name);
            if both {
              return Some(key.name);
            }
          }
        }
      }
      assert keys[..|keys|] == keys;
      LabelsNext(spec, before, i);
      return None;
    }

    /** checkLabel: whether step i may write key, given the label keys of the Branches before it, and
        the one it may have added itself. */
    method CheckLabel(i: nat, key: Name, ghost before: set<Name>) returns (ok: bool)
      requires Valid() && i < |spec.steps| && Before(i) && LabelsMean(spec, before, i)
      requires labels == before || (labels == before + {spec.steps[i].name} && key != spec.steps[i].name)
      ensures ok == (LabelOk(spec, i, key) && !(spec.steps[i].route && key == spec.steps[i].name && Declares(spec.inputs, key)))
    {
      SourceExists(spec, i, key);
      if !spec.steps[i].route || key != spec.steps[i].name {
        return key !in labels;
      }
      return !Declares(spec.inputs, key) && !(key in sources && sources[key].written);
    }

    /** checkStep: the checks of step i alone, against the keys available before it. */
    method CheckStep(i: nat) returns (error: Option<BuildError>)
      requires Valid() && i < |spec.steps| && Before(i)
      requires LabelsMean(spec, labels, i) && UsedMeans(spec, used, i)
      requires flow.rewinds == Count(flow.target, i + 1)
      modifies this`used, this`labels
      ensures error.None? <==> NameOk(spec.steps[i].name) && StepOk(spec, i) && FlowOk(spec, i)
      ensures error.Some? ==> !error.value.OverlappingRewinds?
      ensures error.None? ==> LabelsMean(spec, labels, i + 1) && UsedMeans(spec, used, i + 1)
    {
      var step := spec.steps[i];
      var amendable := CheckAmendableKeys(step);
      if !amendable || !NameOk(step.name) {
        return Some(BadStep(i));
      }
      var readsOk := CheckKeys(step.readKeys);
      var writesOk := CheckKeys(step.writeKeys);
      if !readsOk || !writesOk {
        return Some(BadStep(i));
      }
      StepChecks(spec, i);
      ghost var before := used;
      hide SourcesMean, UnwrittenMeans, WrittenByMeans, RangeKeysMean, LabelsMean, UsedMeans, InputsKept, StepOk, FlowOk, ReadOk, WriteOk,
        AmendableOk, SkipsMean, RangesMean, RangeAtMeans, OnErrorMeans, ExitsMean, TargetsMean, SpansOf, Count;
      var read := CheckReads(i);
      if read.Some? {
        return Some(BadRead(i, read.value));
      }
      var write := CheckWrites(i);
      if write.Some? {
        return Some(BadWrite(i, write.value));
      }
      UsedNext(spec, before, i);
      return None;
    }

    /** checkMerges: the first merge rule whose key no two steps write, or write as another type. */
    method CheckMerges() returns (bad: Option<nat>)
      requires SourcesMean(spec, sources, |spec.steps|)
      ensures bad.None? <==> MergesUsed(spec)
    {
      hide SourceType;
      for j := 0 to |spec.merges|
        invariant forall m :: 0 <= m < j ==> MergeUsed(spec, spec.merges[m])
      {
        var rule := spec.merges[j];
        SourceExists(spec, |spec.steps|, rule.name);
        if rule.name !in sources || sources[rule.name].writers == 0 {
          return Some(j);
        }
        if sources[rule.name].typ != rule.typ || sources[rule.name].writers < 2 {
          return Some(j);
        }
      }
      return None;
    }

    /** checkDefaults: the first default whose key no step reads or writes. */
    method CheckDefaults() returns (bad: Option<nat>)
      requires UsedMeans(spec, used, |spec.steps|)
      ensures bad.None? <==> DefaultsUsed(spec)
    {
      for j := 0 to |spec.defaults|
        invariant forall m :: 0 <= m < j ==> spec.defaults[m].key.name in used
      {
        if spec.defaults[j].key.name !in used {
          return Some(j);
        }
      }
      return None;
    }

    /** leave: records the writes of step i in the rewind range that holds it. */
    method Leave(i: nat)
      requires Valid() && i < |spec.steps| && RangeKeysMean(spec, flow.spans, i) && CurrentAt(flow.current, flow.spans.Keys, i)
      modifies flow`spans, flow`work
      ensures Valid() && flow.spans.Keys == old(flow.spans.Keys) && flow.work == old(flow.work) + |spec.steps[i].writeKeys|
      ensures RangeKeysMean(spec, flow.spans, i + 1)
    {
      hide SkipsMean, RangesMean, RangeAtMeans, OnErrorMeans, ExitsMean, TargetsMean, SpansOf, SumsAt, RangeKeysMean;
      var keys := spec.steps[i].writeKeys;
      ghost var before := flow.spans;
      for j := 0 to |keys|
        invariant flow.spans.Keys == before.Keys && flow.work == old(flow.work) + j
        invariant forall span :: span in before && flow.current != Some(span) ==> flow.spans[span] == before[span]
        invariant flow.current.Some? ==>
          flow.spans[flow.current.value].Keys == before[flow.current.value].Keys + Names(keys[..j])
      {
        flow.AddRangeKey(keys[j].name, keys[j].typ);
        NamesAppend(keys, j);
      }
      assert keys[..|keys|] == keys;
      assert forall key :: Declares(keys, key) <==> key in Names(keys);
      RangeKeysNext(spec, before, i, flow.current, flow.spans);
    }

    /** register: makes the writes of step i available to the steps after it. */
    method Register(i: nat)
      requires Valid() && i < |spec.steps| && Before(i)
      requires flow.At(i + 1) && flow.skipping == SkipCount(RulesOfSpec(spec), i, |spec.steps|)
      requires flow.rewinds == Count(flow.target, i + 1)
      requires DistinctKeys(spec.steps[i].writeKeys) && TypesOk(spec, i)
      requires forall key :: Writes(spec.steps, i, key) ==> !Declares(spec.inputs, key)
      modifies this`sources, flow`spans, flow`unwritten, flow`writtenBy, flow`work
      ensures Valid() && Before(i + 1) && flow.At(i + 1)
      ensures var n := |spec.steps[i].writeKeys|; old(flow.work) + 2 * n <= flow.work <= old(flow.work) + 3 * n
    {
      hide SkipsMean, RangesMean, RangeAtMeans, OnErrorMeans, ExitsMean, TargetsMean, SpansOf, SumsAt, CurrentAt, SourcesMean, UnwrittenMeans, WrittenByMeans,
        RangeKeysMean, TypesOk, FactsUpTo, SourcesUpTo, ContinuesWithin, RulesOf, MayNotWrite;
      var reach, unwritten := flow.Reach(i), flow.MayNotWriteAt(i);
      flow.MayNotWriteMeans(i, RulesOfSpec(spec));
      ReachBounds(i);
      ghost var was, missed, facts := sources, flow.unwritten.Keys, flow.writtenBy;
      Leave(i);
      RegisterKeys(i, reach, unwritten);
      Registered(spec, RulesOfSpec(spec), flow.target, i, reach, unwritten, was, missed, facts, sources, flow.unwritten.Keys,
        flow.writtenBy, flow.rewinds);
    }

    lemma ReachBounds(i: nat)
      requires Valid() && i < |spec.steps|
      ensures forall bound: int {:trigger ContinuesWithin(RulesOf(RulesOfSpec(spec), i, false), i, |spec.steps|, bound)} ::
        bound < MAX_INT ==>
          (flow.Reach(i) <= bound <==> ContinuesWithin(RulesOf(RulesOfSpec(spec), i, false), i, |spec.steps|, bound))
    {
      forall bound: int {:trigger ContinuesWithin(RulesOf(RulesOfSpec(spec), i, false), i, |spec.steps|, bound)} | bound < MAX_INT
        ensures flow.Reach(i) <= bound <==> ContinuesWithin(RulesOf(RulesOfSpec(spec), i, false), i, |spec.steps|, bound)
      {
        flow.ReachMeans(i, RulesOfSpec(spec), bound);
      }
    }

    /** Adds each written key of step i to the builder's maps, and touches nothing else. */
    method RegisterKeys(i: nat, reach: int, unwritten: bool)
      requires Valid() && i < |spec.steps| && SourcesMean(spec, sources, i) && flow.At(i + 1)
      requires DistinctKeys(spec.steps[i].writeKeys) && TypesOk(spec, i)
      modifies this`sources, flow`unwritten, flow`writtenBy, flow`work
      ensures Valid() && flow.At(i + 1)
      ensures flow.unwritten.Keys == old(flow.unwritten.Keys)
        + if unwritten then Names(spec.steps[i].writeKeys) - defaults.Keys else {}
      ensures FactsUpTo(spec.steps[i].writeKeys, |spec.steps[i].writeKeys|, old(flow.writtenBy), flow.writtenBy, reach, flow.rewinds)
      ensures SourcesUpTo(spec.steps[i].writeKeys, |spec.steps[i].writeKeys|, old(sources), sources)
      ensures var n := |spec.steps[i].writeKeys|; old(flow.work) + n <= flow.work <= old(flow.work) + 2 * n
    {
      hide SkipsMean, RangesMean, RangeAtMeans, OnErrorMeans, ExitsMean, TargetsMean, SpansOf, SumsAt, CurrentAt, SourcesMean, TypesOk,
        FactsUpTo, SourcesUpTo, Names, RulesOfSpec, TransitionsOk, MergeKeys, DefaultValues, DistinctKeys, Declares;
      assert TransitionsOk(spec);
      AddKeys(i, reach, unwritten);
    }

    /** The loop of register. */
    method AddKeys(i: nat, reach: int, unwritten: bool)
      requires TransitionsOk(spec) && i < |spec.steps| && SourcesMean(spec, sources, i)
      requires DistinctKeys(spec.steps[i].writeKeys) && TypesOk(spec, i)
      modifies this`sources, flow`unwritten, flow`writtenBy, flow`work
      ensures flow.unwritten.Keys == old(flow.unwritten.Keys)
        + if unwritten then Names(spec.steps[i].writeKeys) - defaults.Keys else {}
      ensures FactsUpTo(spec.steps[i].writeKeys, |spec.steps[i].writeKeys|, old(flow.writtenBy), flow.writtenBy, reach, flow.rewinds)
      ensures SourcesUpTo(spec.steps[i].writeKeys, |spec.steps[i].writeKeys|, old(sources), sources)
      ensures var n := |spec.steps[i].writeKeys|; old(flow.work) + n <= flow.work <= old(flow.work) + 2 * n
    {
      var keys := spec.steps[i].writeKeys;
      ghost var was, missed, facts := sources, flow.unwritten, flow.writtenBy;
      SourceTypes(spec, sources, i);
      hide SourcesMean, TypesOk, FactsUpTo, SourcesUpTo, Names, TransitionsOk, DistinctKeys, Declares;
      UpToStart(keys, facts, was, reach, flow.rewinds);
      for j := 0 to |keys|
        invariant flow.unwritten.Keys == missed.Keys + if unwritten then Names(keys[..j]) - defaults.Keys else {}
        invariant FactsUpTo(keys, j, facts, flow.writtenBy, reach, flow.rewinds)
        invariant SourcesUpTo(keys, j, was, sources)
        invariant old(flow.work) + j <= flow.work <= old(flow.work) + 2 * j
      {
        RegisterNext(i, j, reach, unwritten, was, missed.Keys, facts);
      }
      assert keys[..|keys|] == keys;
    }

    /** Adds the j-th written key of step i to what the builder's maps were before the step. */
    method RegisterNext(i: nat, j: nat, reach: int, unwritten: bool,
      ghost was: map<Name, KeySource>, ghost missed: set<Name>, ghost facts: map<Name, WriterFacts>)
      requires i < |spec.steps| && j < |spec.steps[i].writeKeys|
      requires DistinctKeys(spec.steps[i].writeKeys)
      requires var key := spec.steps[i].writeKeys[j];
        key.name in was ==> was[key.name].typ == key.typ && (was[key.name].writers > 0 ==> was[key.name].written)
      requires flow.unwritten.Keys == missed + if unwritten then Names(spec.steps[i].writeKeys[..j]) - defaults.Keys else {}
      requires FactsUpTo(spec.steps[i].writeKeys, j, facts, flow.writtenBy, reach, flow.rewinds)
      requires SourcesUpTo(spec.steps[i].writeKeys, j, was, sources)
      modifies this`sources, flow`unwritten, flow`writtenBy, flow`work
      ensures flow.unwritten.Keys == missed + if unwritten then Names(spec.steps[i].writeKeys[..j + 1]) - defaults.Keys else {}
      ensures FactsUpTo(spec.steps[i].writeKeys, j + 1, facts, flow.writtenBy, reach, flow.rewinds)
      ensures SourcesUpTo(spec.steps[i].writeKeys, j + 1, was, sources)
      ensures old(flow.work) + 1 <= flow.work <= old(flow.work) + 2
    {
      hide SkipsMean, RangesMean, RangeAtMeans, OnErrorMeans, ExitsMean, TargetsMean, SpansOf, SumsAt, CurrentAt, SourcesMean,
        FactsUpTo, SourcesUpTo, Names;
      var keys := spec.steps[i].writeKeys;
      NamesAppend(keys, j);
      FactsUpToNext(keys, j, facts, flow.writtenBy, reach, flow.rewinds);
      SourcesUpToNext(keys, j, was, sources);
      RegisterKey(i, keys[j], reach, unwritten);
    }

    /** Adds one written key of step i to the builder's maps. */
    method RegisterKey(i: nat, key: KeyRef, reach: int, unwritten: bool)
      modifies this`sources, flow`unwritten, flow`writtenBy, flow`work
      ensures flow.unwritten.Keys == old(flow.unwritten.Keys) + if unwritten then {key.name} - defaults.Keys else {}
      ensures flow.writtenBy == old(flow.writtenBy)[key.name :=
        if key.name in old(flow.writtenBy)
        then WriterFacts(Min(old(flow.writtenBy)[key.name].reach, reach), old(flow.writtenBy)[key.name].rewinds)
        else WriterFacts(reach, flow.rewinds)]
      ensures sources == old(sources)[key.name :=
        if key.name !in old(sources) || old(sources)[key.name].writers == 0 then KeySource(key.typ, true, 1)
        else old(sources)[key.name].(writers := old(sources)[key.name].writers + 1)]
      ensures old(flow.work) + 1 <= flow.work <= old(flow.work) + 2
    {
      hide SkipsMean, RangesMean, RangeAtMeans, OnErrorMeans, ExitsMean, TargetsMean, SpansOf, SumsAt, CurrentAt, RulesOfSpec, TransitionsOk,
        MergeKeys, DefaultValues;
      if key.name !in defaults && unwritten {
        flow.MarkUnwritten(key.name, i);
      }
      flow.AddWriter(key.name, reach);
      if key.name !in sources || sources[key.name].writers == 0 {
        sources := sources[key.name := KeySource(key.typ, true, 1)];
      } else {
        var source := sources[key.name];
        sources := sources[key.name := source.(writers := source.writers + 1)];
      }
    }
  }

  lemma UpToStart(keys: seq<KeyRef>, facts: map<Name, WriterFacts>, was: map<Name, KeySource>, reach: int, rewinds: nat)
    ensures FactsUpTo(keys, 0, facts, facts, reach, rewinds) && SourcesUpTo(keys, 0, was, was)
    ensures Names(keys[..0]) == {}
  {
  }

  lemma FactsUpToNext(keys: seq<KeyRef>, j: nat, facts: map<Name, WriterFacts>, writtenBy: map<Name, WriterFacts>,
    reach: int, rewinds: nat)
    requires j < |keys| && DistinctKeys(keys) && FactsUpTo(keys, j, facts, writtenBy, reach, rewinds)
    ensures var name := keys[j].name;
      FactsUpTo(keys, j + 1, facts, writtenBy[name :=
        if name in writtenBy then WriterFacts(Min(writtenBy[name].reach, reach), writtenBy[name].rewinds)
        else WriterFacts(reach, rewinds)], reach, rewinds)
  {
    NamesAppend(keys, j);
    assert keys[j].name !in Names(keys[..j]);
  }

  lemma SourcesUpToNext(keys: seq<KeyRef>, j: nat, was: map<Name, KeySource>, sources: map<Name, KeySource>)
    requires j < |keys| && DistinctKeys(keys) && SourcesUpTo(keys, j, was, sources)
    requires keys[j].name in was ==>
      was[keys[j].name].typ == keys[j].typ && (was[keys[j].name].writers > 0 ==> was[keys[j].name].written)
    ensures var name := keys[j].name;
      SourcesUpTo(keys, j + 1, was, sources[name :=
        if name !in sources || sources[name].writers == 0 then KeySource(keys[j].typ, true, 1)
        else sources[name].(writers := sources[name].writers + 1)])
  {
    NamesAppend(keys, j);
    assert keys[j].name !in Names(keys[..j]);
  }

  /** A source of a key step i writes has the write's type, and is a step's if steps write it. */
  lemma SourceTypes(spec: PipelineSpec, sources: map<Name, KeySource>, i: nat)
    requires i < |spec.steps| && SourcesMean(spec, sources, i) && TypesOk(spec, i)
    ensures forall m :: 0 <= m < |spec.steps[i].writeKeys| && spec.steps[i].writeKeys[m].name in sources ==>
      var source := sources[spec.steps[i].writeKeys[m].name];
      source.typ == spec.steps[i].writeKeys[m].typ && (source.writers > 0 ==> source.written)
  {
  }

  /** The maps after step i mean what they should. */
  lemma Registered(spec: PipelineSpec, rules: seq<Rule>, target: seq<bool>, i: nat, reach: int, unwritten: bool,
    was: map<Name, KeySource>, missed: set<Name>, facts: map<Name, WriterFacts>,
    sources: map<Name, KeySource>, misses: set<Name>, writtenBy: map<Name, WriterFacts>, rewinds: nat)
    requires i < |spec.steps| == |target| && DistinctKeys(spec.steps[i].writeKeys) && TypesOk(spec, i)
    requires SourcesMean(spec, was, i) && UnwrittenMeans(spec, rules, missed, i) && WrittenByMeans(spec, rules, target, facts, i)
    requires unwritten <==> MayNotWrite(rules, i, |spec.steps|)
    requires rewinds == Count(target, i + 1)
    requires forall bound: int {:trigger ContinuesWithin(RulesOf(rules, i, false), i, |spec.steps|, bound)} :: bound < MAX_INT ==>
      (reach <= bound <==> ContinuesWithin(RulesOf(rules, i, false), i, |spec.steps|, bound))
    requires var keys := spec.steps[i].writeKeys;
      && misses == missed + (if unwritten then Names(keys) - DefaultValues(spec.defaults).Keys else {})
      && FactsUpTo(keys, |keys|, facts, writtenBy, reach, rewinds)
      && SourcesUpTo(keys, |keys|, was, sources)
    ensures SourcesMean(spec, sources, i + 1)
    ensures UnwrittenMeans(spec, rules, misses, i + 1)
    ensures WrittenByMeans(spec, rules, target, writtenBy, i + 1)
  {
    var keys := spec.steps[i].writeKeys;
    assert keys[..|keys|] == keys;
    assert forall key :: Declares(keys, key) <==> key in Names(keys);
    hide SourcesMean, UnwrittenMeans, WrittenByMeans, TypesOk, MayNotWrite, ContinuesWithin, RulesOf, Count;
    UnwrittenNext(spec, rules, missed, i, misses);
    WrittenByNext(spec, rules, target, facts, i, reach, writtenBy);
    SourcesRegistered(keys, was, sources);
    hide SourcesUpTo, FactsUpTo;
    SourcesNext(spec, was, i, sources);
  }

  lemma SourcesRegistered(keys: seq<KeyRef>, was: map<Name, KeySource>, sources: map<Name, KeySource>)
    requires SourcesUpTo(keys, |keys|, was, sources)
    ensures forall key :: Declares(keys, key) ==>
      key in sources && sources[key] == KeySource(TypeOf(keys, key), true, 1 + if key in was then was[key].writers else 0)
  {
    forall key | Declares(keys, key) ensures
      key in sources && sources[key] == KeySource(TypeOf(keys, key), true, 1 + if key in was then was[key].writers else 0)
    {
      assert keys[IndexOf(keys, key)].name == key;
    }
  }

  /** writtenBy after the first j of keys have been added to facts. */
  ghost predicate FactsUpTo(keys: seq<KeyRef>, j: nat, facts: map<Name, WriterFacts>, writtenBy: map<Name, WriterFacts>,
    reach: int, rewinds: nat)
    requires j <= |keys|
  {
    && writtenBy.Keys == facts.Keys + Names(keys[..j])
    && forall key :: key in writtenBy ==>
      writtenBy[key] == if key !in Names(keys[..j]) then facts[key]
        else if key in facts then WriterFacts(Min(facts[key].reach, reach), facts[key].rewinds)
        else WriterFacts(reach, rewinds)
  }

  /** sources after the first j of keys have been registered over was. */
  ghost predicate SourcesUpTo(keys: seq<KeyRef>, j: nat, was: map<Name, KeySource>, sources: map<Name, KeySource>)
    requires j <= |keys|
  {
    && sources.Keys == was.Keys + Names(keys[..j])
    && (forall key :: key in was && key !in Names(keys[..j]) ==> sources[key] == was[key])
    && (forall m :: 0 <= m < j ==>
         keys[m].name in sources && sources[keys[m].name] ==
           KeySource(keys[m].typ, true, 1 + if keys[m].name in was then was[keys[m].name].writers else 0))
  }

  /** The label step writes among names, if it routes a Branch. */
  function OwnLabels(step: StepNode, names: set<Name>): set<Name> {
    if step.route && step.name in names then {step.name} else {}
  }

  lemma OwnLabelsLater(spec: PipelineSpec, before: set<Name>, i: nat, j: nat)
    requires i < |spec.steps| && j < |spec.steps[i].writeKeys| && DistinctKeys(spec.steps[i].writeKeys)
    ensures var names := Names(spec.steps[i].writeKeys[..j]);
      spec.steps[i].writeKeys[j].name !in names
  {
  }

  lemma NoWriterNoBoth(spec: PipelineSpec, i: nat, key: Name)
    requires TransitionsOk(spec) && i < |spec.steps|
    ensures SomeCommitsBoth(spec, i, key) ==> WrittenBefore(spec.steps, i, key)
  {
  }

  /** The labels after step i. */
  lemma LabelsNext(spec: PipelineSpec, labels: set<Name>, i: nat)
    requires i < |spec.steps| && LabelsMean(spec, labels, i)
    ensures LabelsMean(spec, labels + OwnLabels(spec.steps[i], Names(spec.steps[i].writeKeys)), i + 1)
  {
    var more := labels + OwnLabels(spec.steps[i], Names(spec.steps[i].writeKeys));
    forall key ensures key in more <==>
      exists w :: 0 <= w < i + 1 && Writes(spec.steps, w, key) && spec.steps[w].route && spec.steps[w].name == key
    {
      assert Writes(spec.steps, i, key) <==> key in Names(spec.steps[i].writeKeys);
      if key in labels {
        var w :| 0 <= w < i && Writes(spec.steps, w, key) && spec.steps[w].route && spec.steps[w].name == key;
        assert Writes(spec.steps, w, key);
      }
    }
  }
}

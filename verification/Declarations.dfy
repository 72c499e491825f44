/** PipelineSpec.Build: the checks of a spec, in one pass over its transitions and one over its steps. */
module Declarations {
  import opened Basics
  import opened Pipelines
  import opened Specs
  import opened TransitionFacts

  /** Why Build refuses a spec. The number is a step's, a transition's or a declaration's. */
  datatype BuildError =
    | NoSteps
    | BadInputs
    | BadMergeRule(index: nat)
    | BadDefault(index: nat)
    | DuplicateName(step: nat)
    | BadMaxVisits(index: nat)
    | BadTransition(index: nat)
    | UnusedMaxVisits(index: nat)
    | OverlappingRewinds(step: nat)
    | BadStep(step: nat)
    | BadRead(step: nat, key: Name)
    | BadWrite(step: nat, key: Name)
    | UnusedAmendable(step: nat)
    | UnusedMergeRule(index: nat)
    | UnusedDefault(index: nat)

  /** Where an available key comes from: its type, whether a step writes it, and how many do. */
  datatype KeySource = KeySource(typ: Type, written: bool, writers: nat)

  // ---- what the builder's maps mean ----

  /** sources holds the keys available before step i, with their types and writers. */
  ghost predicate SourcesMean(spec: PipelineSpec, sources: map<Name, KeySource>, i: nat)
    requires i <= |spec.steps|
  {
    && (forall key :: key in sources <==> SourceType(spec, i, key).Some?)
    && (forall key :: key in sources ==>
         && SourceType(spec, i, key) == Some(sources[key].typ)
         && sources[key].writers == Writers(spec.steps, i, key)
         && (sources[key].written <==> sources[key].writers > 0))
  }

  /** unwritten holds the keys without a default that a step before i may not write. */
  ghost predicate UnwrittenMeans(spec: PipelineSpec, rules: seq<Rule>, unwritten: set<Name>, i: nat) {
    forall key :: key in unwritten <==> key !in DefaultValues(spec.defaults) && MayMiss(spec, rules, i, key)
  }

  /** A step before i that writes key may not. */
  ghost predicate MayMiss(spec: PipelineSpec, rules: seq<Rule>, i: nat, key: Name) {
    exists w :: 0 <= w < i && Writes(spec.steps, w, key) && MayNotWrite(rules, w, |spec.steps|)
  }

  /** Step w writes key and no step before it does. */
  predicate FirstWriter(steps: seq<StepNode>, w: int, key: Name) {
    Writes(steps, w, key) && !WrittenBefore(steps, w, key)
  }

  /** A step before i that writes key lets the run continue at or before bound. */
  ghost predicate WriterWithin(spec: PipelineSpec, rules: seq<Rule>, i: nat, key: Name, bound: int) {
    exists w :: 0 <= w < i && Writes(spec.steps, w, key) && ContinuesWithin(RulesOf(rules, w, false), w, |spec.steps|, bound)
  }

  /** writtenBy holds, for each key a step before i writes, the least index a run may continue at
      after one of its writers, and the rewind targets up to the first. */
  ghost predicate WrittenByMeans(spec: PipelineSpec, rules: seq<Rule>, target: seq<bool>, writtenBy: map<Name, WriterFacts>, i: nat) {
    && |target| == |spec.steps|
    && (forall key :: key in writtenBy <==> WrittenBefore(spec.steps, i, key))
    && (forall key, w :: key in writtenBy && 0 <= w < i && FirstWriter(spec.steps, w, key) ==>
         writtenBy[key].rewinds == Count(target, w + 1))
    && (forall key, bound {:trigger WriterWithin(spec, rules, i, key, bound)} :: key in writtenBy && bound < MAX_INT ==>
         (writtenBy[key].reach <= bound <==> WriterWithin(spec, rules, i, key, bound)))
  }

  /** The keys of each range are the writes of its steps before i. */
  ghost predicate RangeKeysMean(spec: PipelineSpec, spans: map<Span, map<Name, Type>>, i: nat) {
    forall span, key :: span in spans ==>
      (key in spans[span] <==> exists w :: span.start <= w <= span.end && w < i && Writes(spec.steps, w, key))
  }

  /** labels holds the label keys of the routing steps before i. */
  ghost predicate LabelsMean(spec: PipelineSpec, labels: set<Name>, i: nat) {
    forall key :: key in labels <==>
      exists w :: 0 <= w < i && Writes(spec.steps, w, key) && spec.steps[w].route && spec.steps[w].name == key
  }

  ghost predicate UsedMeans(spec: PipelineSpec, used: set<Name>, i: nat) {
    forall key :: key in used <==> UsedBefore(spec.steps, i, key)
  }

  // ---- declarations ----

  /** stateKeyTypes: the names are set and differ. */
  method CheckKeys(keys: seq<KeyRef>) returns (ok: bool)
    ensures ok == DistinctKeys(keys)
  {
    var seen: set<Name> := {};
    for j := 0 to |keys|
      invariant seen == Names(keys[..j])
      invariant forall m :: 0 <= m < j ==> keys[m].name != ""
      invariant forall m, k :: 0 <= m < k < j ==> keys[m].name != keys[k].name
    {
      if keys[j].name == "" {
        return false;
      }
      if keys[j].name in seen {
        var m :| 0 <= m < |keys[..j]| && keys[..j][m].name == keys[j].name;
        assert keys[m].name == keys[j].name;
        return false;
      }
      seen := seen + {keys[j].name};
      assert Names(keys[..j + 1]) == Names(keys[..j]) + {keys[j].name} by {
        NamesAppend(keys, j);
      }
      forall m | 0 <= m < j ensures keys[m].name != keys[j].name {
        assert keys[..j][m].name in Names(keys[..j]);
      }
    }
    return true;
  }

  lemma NamesAppend(keys: seq<KeyRef>, j: nat)
    requires j < |keys|
    ensures Names(keys[..j + 1]) == Names(keys[..j]) + {keys[j].name}
  {
    var more, less := keys[..j + 1], keys[..j];
    assert more == less + [keys[j]];
    forall name | name in Names(less) ensures name in Names(more) {
      var m :| 0 <= m < |less| && less[m].name == name;
      assert more[m].name == name;
    }
    assert more[j].name in Names(more);
  }

  /** buildMerges: the keys of the merge rules are set, differ and are not inputs. */
  method CheckMergeRules(spec: PipelineSpec) returns (bad: Option<nat>)
    ensures bad.None? <==> MergesOk(spec)
  {
    var seen: set<Name> := {};
    for j := 0 to |spec.merges|
      invariant seen == Names(spec.merges[..j])
      invariant forall m :: 0 <= m < j ==> spec.merges[m].name != "" && !Declares(spec.inputs, spec.merges[m].name)
      invariant forall m, k :: 0 <= m < k < j ==> spec.merges[m].name != spec.merges[k].name
    {
      var name := spec.merges[j].name;
      if name == "" || Declares(spec.inputs, name) {
        return Some(j);
      }
      if name in seen {
        var m :| 0 <= m < |spec.merges[..j]| && spec.merges[..j][m].name == name;
        assert spec.merges[m].name == name;
        return Some(j);
      }
      seen := seen + {name};
      NamesAppend(spec.merges, j);
      forall m | 0 <= m < j ensures spec.merges[m].name != name {
        assert spec.merges[..j][m].name in Names(spec.merges[..j]);
      }
    }
    return None;
  }

  /** buildDefaults: the keys of the defaults are set, differ and are not inputs, and their values
      convert. The values are what a run seeds. */
  method BuildDefaults(spec: PipelineSpec) returns (bad: Option<nat>, values: Values)
    ensures bad.None? <==> DefaultsOk(spec)
    ensures bad.None? ==> values == DefaultValues(spec.defaults)
  {
    values := map[];
    for j := 0 to |spec.defaults|
      invariant values == DefaultValues(spec.defaults[..j])
      invariant forall m :: 0 <= m < j ==> DefaultOk(spec, spec.defaults[m])
      invariant forall m, k :: 0 <= m < k < j ==> spec.defaults[m].key.name != spec.defaults[k].key.name
      invariant forall name :: name in values <==> exists m :: 0 <= m < j && spec.defaults[m].key.name == name
    {
      var def := spec.defaults[j];
      if !DefaultOk(spec, def) || def.key.name in values {
        return Some(j), map[];
      }
      values := values[def.key.name := def.value];
      assert spec.defaults[..j + 1][..j] == spec.defaults[..j];
    }
    assert spec.defaults[..|spec.defaults|] == spec.defaults;
    return None, values;
  }

  predicate DefaultOk(spec: PipelineSpec, def: Default) {
    def.key.name != "" && !Declares(spec.inputs, def.key.name) && def.value.typ == def.key.typ
  }

  /** index maps each step's name to the step. */
  ghost predicate IndexMeans(index: map<Name, nat>, steps: seq<StepNode>) {
    forall name :: (name in index <==> IsStep(steps, name)) && (name in index ==> index[name] == StepAt(steps, name))
  }

  predicate NamesDiffer(steps: seq<StepNode>) {
    forall i, j :: 0 <= i < j < |steps| && steps[i].name != "" ==> steps[i].name != steps[j].name
  }

  /** Maps the set names of the steps to them, and refuses a repeated one. */
  method IndexSteps(steps: seq<StepNode>) returns (bad: Option<nat>, index: map<Name, nat>)
    ensures bad.None? <==> NamesDiffer(steps)
    ensures bad.Some? ==> !NamesOk(steps)
    ensures bad.None? ==> IndexMeans(index, steps)
  {
    index := map[];
    for i := 0 to |steps|
      invariant forall name :: name in index <==> name != "" && exists j :: 0 <= j < i && steps[j].name == name
      invariant forall name :: name in index ==> index[name] < i && steps[index[name]].name == name
      invariant forall j, m :: 0 <= j < m < i && steps[j].name != "" ==> steps[j].name != steps[m].name
    {
      if steps[i].name != "" {
        if steps[i].name in index {
          assert steps[index[steps[i].name]].name == steps[i].name;
          return Some(i), map[];
        }
        index := index[steps[i].name := i];
      }
    }
    return None, index;
  }

  // ---- MaxVisits ----

  /** The MaxVisits table: its entries name steps, no two the same one, with at least two visits. */
  method BuildMaxVisits(spec: PipelineSpec, index: map<Name, nat>) returns (bad: Option<nat>, maxVisits: seq<int>, work: nat)
    requires IndexMeans(index, spec.steps) && NamesDiffer(spec.steps)
    ensures bad.None? <==> LimitsOk(spec)
    ensures bad.None? ==> |maxVisits| == |spec.steps| && forall i :: 0 <= i < |spec.steps| ==> maxVisits[i] == Limit(spec, i)
    ensures bad.None? ==> work == |spec.maxVisits|
  {
    work := 0;
    maxVisits := seq(|spec.steps|, _ => 0);
    for m := 0 to |spec.maxVisits|
      invariant |maxVisits| == |spec.steps| && work == m
      invariant forall i :: 0 <= i < |spec.steps| ==> maxVisits[i] == LimitIn(spec.steps, spec.maxVisits[..m], i)
      invariant EntriesOk(spec.steps, spec.maxVisits[..m])
    {
      work := work + 1;
      var (name, limit) := spec.maxVisits[m];
      EntryOk(spec, index, m);
      if name !in index || maxVisits[index[name]] != 0 || limit < 2 {
        return Some(m), [], work;
      }
      maxVisits := maxVisits[index[name] := limit];
    }
    assert spec.maxVisits[..|spec.maxVisits|] == spec.maxVisits;
    return None, maxVisits, work;
  }

  /** A step has no limit yet exactly when no entry names it. */
  lemma {:induction false} LimitZero(steps: seq<StepNode>, entries: seq<(Name, int)>, i: nat)
    requires i < |steps| && steps[i].name != ""
    requires forall m :: 0 <= m < |entries| ==> entries[m].1 >= 2
    ensures LimitIn(steps, entries, i) == 0 <==> forall m :: 0 <= m < |entries| ==> entries[m].0 != steps[i].name
  {
    if entries != [] {
      LimitZero(steps, entries[..|entries| - 1], i);
    }
  }

  /** The m-th entry may follow the ones before it exactly when the table takes it. */
  lemma EntryOk(spec: PipelineSpec, index: map<Name, nat>, m: nat)
    requires IndexMeans(index, spec.steps) && NamesDiffer(spec.steps) && m < |spec.maxVisits|
    requires EntriesOk(spec.steps, spec.maxVisits[..m])
    ensures var (name, limit) := spec.maxVisits[m];
      var ok := name in index && LimitIn(spec.steps, spec.maxVisits[..m], index[name]) == 0 && limit >= 2;
      && (ok <==> EntriesOk(spec.steps, spec.maxVisits[..m + 1]))
      && (!ok ==> !LimitsOk(spec))
      && (ok ==> forall i :: 0 <= i < |spec.steps| ==>
           LimitIn(spec.steps, spec.maxVisits[..m + 1], i)
             == if i == index[name] then limit else LimitIn(spec.steps, spec.maxVisits[..m], i))
  {
    var (name, limit) := spec.maxVisits[m];
    var less, more := spec.maxVisits[..m], spec.maxVisits[..m + 1];
    assert more == less + [spec.maxVisits[m]] && more[..m] == less;
    if name in index {
      LimitZero(spec.steps, less, index[name]);
    }
    assert forall k :: 0 <= k < m ==> less[k] == spec.maxVisits[k] == more[k];
  }

  // ---- the pass over transitions ----

  /** The rules a run evaluates, by step. */
  datatype Table = Table(rules: seq<Rule>, success: seq<seq<Rule>>, failure: seq<seq<Rule>>, fallback: seq<int>)

  /** The table lists, for each step, the rules it has so far. */
  ghost predicate TableMeans(table: Table, rules: seq<Rule>, n: nat) {
    && table.rules == rules
    && |table.success| == |table.failure| == |table.fallback| == n
    && forall i :: 0 <= i < n ==>
      && table.success[i] == RulesOf(rules, i, false)
      && table.failure[i] == RulesOf(rules, i, true)
      && table.fallback[i] == LastFallback(table.failure[i])
  }

  /** compileTransition: resolves the names of a transition and checks what it sets. */
  method CompileTransition(spec: PipelineSpec, index: map<Name, nat>, maxVisits: seq<int>, m: nat)
    returns (ok: bool, rule: Rule)
    requires IndexMeans(index, spec.steps) && m < |spec.transitions|
    requires |maxVisits| == |spec.steps| && forall i :: 0 <= i < |spec.steps| ==> maxVisits[i] == Limit(spec, i)
    ensures ok <==> TransitionOk(spec, spec.transitions[m])
    ensures ok ==> rule == RuleOf(spec.steps, spec.transitions[m], m) && RuleOk(rule, |spec.steps|)
    ensures ok ==> Carries(spec.steps, spec.transitions[m], m, rule)
  {
    hide StepAt, IsStep, LimitIn;
    var t := spec.transitions[m];
    rule := Rule(m, 0, END, false, t.onError, t.hasWhen, t.hasAmend, t.hasAccept, t.hasRestore, t.fallback);
    if t.from !in index {
      return false, rule;
    }
    rule := rule.(from := index[t.from]);
    if t.to == End {
      rule := rule.(to := END);
    } else if t.to == Fail {
      rule := rule.(to := FAIL);
    } else if t.to !in index {
      return false, rule;
    } else {
      rule := rule.(to := index[t.to], rewind := index[t.to] <= rule.from);
    }
    if !rule.rewind {
      return !(t.hasAmend || t.hasAccept || t.hasRestore), rule;
    }
    if t.onError && t.hasAccept {
      return false, rule;
    }
    if t.onError && t.hasRestore {
      return false, rule;
    }
    if maxVisits[rule.to] < 2 {
      return false, rule;
    }
    return !(t.hasAmend && spec.steps[rule.to].amendable.None?), rule;
  }

  /** The table with the next rule. */
  method AddRule(table: Table, rule: Rule, ghost rules: seq<Rule>, n: nat) returns (next: Table)
    requires table.rules == rules && TableMeans(table, rules, n) && rule.from < n
    ensures next.rules == rules + [rule] && TableMeans(next, rules + [rule], n)
  {
    forall i: nat, onError | i < n ensures RulesOf(rules + [rule], i, onError)
      == RulesOf(rules, i, onError) + if rule.from == i && rule.onError == onError then [rule] else []
    {
      RulesOfAppend(rules, rule, i, onError);
    }
    var from := rule.from;
    if rule.onError {
      next := table.(
        rules := table.rules + [rule],
        fallback := if rule.fallback then table.fallback[from := |table.failure[from]|] else table.fallback,
        failure := table.failure[from := table.failure[from] + [rule]]);
      assert (table.failure[from] + [rule])[..|table.failure[from]|] == table.failure[from];
    } else {
      next := table.(rules := table.rules + [rule], success := table.success[from := table.success[from] + [rule]]);
    }
  }

  /** Build's one pass over the transitions: compiles each rule and records what the pass over steps
      needs, then requires every MaxVisits entry to be used. */
  method CheckTransitions(spec: PipelineSpec, index: map<Name, nat>, maxVisits: seq<int>, work: nat)
    returns (error: Option<BuildError>, table: Table, flow: Facts)
    requires IndexMeans(index, spec.steps) && LimitsOk(spec) && |spec.steps| <= MAX_INT
    requires |maxVisits| == |spec.steps| && forall i :: 0 <= i < |spec.steps| ==> maxVisits[i] == Limit(spec, i)
    ensures error.None? <==> TransitionsOk(spec) && LimitsUsed(spec)
    ensures fresh(flow) && flow.Valid() && flow.n == |spec.steps|
    ensures error.None? ==>
      && TableMeans(table, RulesOfSpec(spec), |spec.steps|)
      && flow.Means(RulesOfSpec(spec)) && flow.Untouched() && flow.At(0)
    ensures error.None? ==>
      work + 2 * |spec.transitions| + |spec.maxVisits| <= flow.work <= work + 3 * |spec.transitions| + |spec.maxVisits|
  {
    error, table, flow := CompileAll(spec, index, maxVisits, work);
    if error.None? {
      hide LimitsOk, TransitionsOk, TableMeans, RulesOfSpec;
      flow.AtStart();
      var m, used := CheckUsed(spec, index, RulesOfSpec(spec), flow);
      CountMore(flow, used, RulesOfSpec(spec));
      error := if m.None? then None else Some(UnusedMaxVisits(m.value));
    }
  }

  /** Counts more work. */
  method CountMore(flow: Facts, more: nat, ghost rules: seq<Rule>)
    requires flow.Valid() && flow.Means(rules) && flow.Untouched() && flow.At(0)
    modifies flow`work
    ensures flow.Valid() && flow.Means(rules) && flow.Untouched() && flow.At(0) && flow.work == old(flow.work) + more
  {
    hide SkipsMean, RangesMean, RangeAtMeans, OnErrorMeans, ExitsMean, TargetsMean, SpansOf, SumsAt, CurrentAt;
    flow.work := flow.work + more;
  }

  method CompileAll(spec: PipelineSpec, index: map<Name, nat>, maxVisits: seq<int>, work: nat)
    returns (error: Option<BuildError>, table: Table, flow: Facts)
    requires IndexMeans(index, spec.steps) && |spec.steps| <= MAX_INT
    requires |maxVisits| == |spec.steps| && forall i :: 0 <= i < |spec.steps| ==> maxVisits[i] == Limit(spec, i)
    ensures error.None? <==> TransitionsOk(spec)
    ensures fresh(flow) && flow.Valid() && flow.n == |spec.steps| && flow.Untouched()
    ensures error.None? ==> TableMeans(table, RulesOfSpec(spec), |spec.steps|) && flow.Means(RulesOfSpec(spec))
    ensures error.None? ==> work + 2 * |spec.transitions| <= flow.work <= work + 3 * |spec.transitions|
  {
    hide RuleOf, IndexMeans, TransitionOk, TableMeans, Limit, SkipsMean, RangesMean, RangeAtMeans, OnErrorMeans, ExitsMean, TargetsMean, RulesOfSpec;
    var n := |spec.steps|;
    flow := new Facts(n);
    flow.work := work;
    table := EmptyTable(n);
    for m := 0 to |spec.transitions|
      invariant fresh(flow) && flow.Valid() && flow.n == n && flow.Untouched()
      invariant forall k :: 0 <= k < m ==> TransitionOk(spec, spec.transitions[k])
      invariant |table.rules| == m && work + 2 * m <= flow.work <= work + 3 * m
      invariant forall k :: 0 <= k < m ==> IsRuleOf(spec.steps, spec.transitions[k], k, table.rules[k])
      invariant TableMeans(table, table.rules, n)
      invariant flow.Means(table.rules)
    {
      flow.work := flow.work + 1;
      var ok, rule := CompileTransition(spec, index, maxVisits, m);
      if !ok {
        return Some(BadTransition(m)), table, flow;
      }
      ResolvesWhenOk(spec, spec.transitions[m]);
      Record(flow, rule, table.rules);
      table := AddRule(table, rule, table.rules, n);
    }
    AllRules(spec, table.rules);
    return None, table, flow;
  }

  /** Records what a rule means for the pass over steps. */
  method Record(flow: Facts, rule: Rule, ghost rules: seq<Rule>)
    requires flow.Valid() && flow.Means(rules) && flow.Untouched()
    requires RuleOk(rule, flow.n) && rule.index == |rules|
    modifies flow
    ensures flow.Valid() && flow.Means(rules + [rule]) && flow.Untouched()
    ensures flow.work == old(flow.work) + RuleWork(rule)
  {
    if rule.rewind {
      flow.Cover(rule, rules);
    } else {
      flow.Mark(rule, rules);
    }
  }

  predicate IsRuleOf(steps: seq<StepNode>, t: Transition, index: nat, rule: Rule) {
    Resolves(steps, t) && rule == RuleOf(steps, t, index)
  }

  lemma AllRules(spec: PipelineSpec, rules: seq<Rule>)
    requires |rules| == |spec.transitions|
    requires forall k :: 0 <= k < |rules| ==> TransitionOk(spec, spec.transitions[k])
    requires forall k :: 0 <= k < |rules| ==> IsRuleOf(spec.steps, spec.transitions[k], k, rules[k])
    ensures TransitionsOk(spec) && rules == RulesOfSpec(spec)
  {
  }

  lemma ResolvesWhenOk(spec: PipelineSpec, t: Transition)
    requires TransitionOk(spec, t)
    ensures Resolves(spec.steps, t) && forall m :: RuleOf(spec.steps, t, m).index == m
  {
  }

  method EmptyTable(n: nat) returns (table: Table)
    ensures table.rules == [] && TableMeans(table, [], n)
  {
    table := Table([], seq(n, _ => []), seq(n, _ => []), seq(n, _ => -1));
  }

  /** The first MaxVisits entry whose step no rule rewinds to, and the entries looked at. */
  method CheckUsed(spec: PipelineSpec, index: map<Name, nat>, ghost rules: seq<Rule>, flow: Facts) returns (bad: Option<nat>, work: nat)
    requires IndexMeans(index, spec.steps) && LimitsOk(spec) && TransitionsOk(spec) && rules == RulesOfSpec(spec)
    requires flow.Valid() && flow.n == |spec.steps| && flow.Means(rules)
    ensures bad.None? <==> LimitsUsed(spec)
    ensures bad.None? ==> work == |spec.maxVisits|
  {
    work := 0;
    for m := 0 to |spec.maxVisits|
      invariant forall k :: 0 <= k < m ==> IsTarget(rules, StepAt(spec.steps, spec.maxVisits[k].0))
      invariant work == m
    {
      work := work + 1;
      if !flow.target[index[spec.maxVisits[m].0]] {
        return Some(m), work;
      }
    }
    return None, work;
  }
}

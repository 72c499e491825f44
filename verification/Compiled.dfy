/** What a built pipeline has of its spec, entry by entry. */
module Compiled {
  import opened Basics
  import opened Pipelines
  import opened Specs

  // ---- rule lists ----

  /** list holds exactly the rules of step i on success, or on failure, each once and in the order of their
      indexes. */
  ghost predicate ListsRules(rules: seq<Rule>, i: nat, onError: bool, list: seq<Rule>) {
    && (forall k :: 0 <= k < |list| ==> list[k].index < |rules| && rules[list[k].index] == list[k])
    && (forall j, k :: 0 <= j < k < |list| ==> list[j].index < list[k].index)
    && (forall m :: 0 <= m < |rules| ==> (rules[m] in list <==> rules[m].from == i && rules[m].onError == onError))
  }

  lemma {:induction false} RulesListed(rules: seq<Rule>, i: nat, onError: bool)
    requires forall m :: 0 <= m < |rules| ==> rules[m].index == m
    ensures ListsRules(rules, i, onError, RulesOf(rules, i, onError))
  {
    if rules != [] {
      var less := rules[..|rules| - 1];
      RulesListed(less, i, onError);
      var last, list := rules[|rules| - 1], RulesOf(less, i, onError);
      var all := RulesOf(rules, i, onError);
      assert forall k :: 0 <= k < |list| ==> all[k] == list[k] && list[k].index < |less|;
      forall m | 0 <= m < |rules| ensures rules[m] in all <==> rules[m].from == i && rules[m].onError == onError {
        if m < |less| {
          assert rules[m] == less[m] && rules[m] != last;
          assert rules[m] in all <==> less[m] in list;
        } else {
          assert last !in list;
          assert all == list + [last] || all == list;
        }
      }
    }
  }

  // ---- the pipeline ----

  /** The visits MaxVisits gives step i, or none. */
  predicate LimitIs(spec: PipelineSpec, i: nat, limit: int)
    requires i < |spec.steps|
  {
    && (forall m :: 0 <= m < |spec.maxVisits| && spec.maxVisits[m].0 == spec.steps[i].name ==> spec.maxVisits[m].1 == limit)
    && ((forall m :: 0 <= m < |spec.maxVisits| ==> spec.maxVisits[m].0 != spec.steps[i].name) ==> limit == 0)
  }

  /** p is spec with its transitions as rules, listed by step, the visits of its steps, its MergeRules' keys and its
      defaults. */
  ghost predicate BuiltFrom(spec: PipelineSpec, p: Pipeline) {
    && p.inputs == spec.inputs && p.steps == spec.steps
    && |p.rules| == |spec.transitions|
    && (forall m :: 0 <= m < |p.rules| ==> Carries(spec.steps, spec.transitions[m], m, p.rules[m]))
    && |p.success| == |p.failure| == |p.maxVisits| == |p.steps|
    && (forall i :: 0 <= i < |p.steps| ==>
         && ListsRules(p.rules, i, false, p.success[i]) && ListsRules(p.rules, i, true, p.failure[i])
         && LimitIs(spec, i, p.maxVisits[i]))
    && (forall key :: key in p.merges <==> Declares(spec.merges, key))
    && (forall key :: key in p.defaults <==> exists j :: 0 <= j < |spec.defaults| && spec.defaults[j].key.name == key)
    && (forall j :: 0 <= j < |spec.defaults| ==>
         spec.defaults[j].key.name in p.defaults && p.defaults[spec.defaults[j].key.name] == spec.defaults[j].value)
  }

  lemma {:induction false} LimitMeans(steps: seq<StepNode>, entries: seq<(Name, int)>, i: nat)
    requires i < |steps| && steps[i].name != ""
    requires forall m, k :: 0 <= m < k < |entries| ==> entries[m].0 != entries[k].0
    ensures forall m :: 0 <= m < |entries| && entries[m].0 == steps[i].name ==> entries[m].1 == LimitIn(steps, entries, i)
    ensures (forall m :: 0 <= m < |entries| ==> entries[m].0 != steps[i].name) ==> LimitIn(steps, entries, i) == 0
  {
    if entries != [] {
      var less := entries[..|entries| - 1];
      LimitMeans(steps, less, i);
      assert forall m :: 0 <= m < |less| ==> entries[m] == less[m];
    }
  }

  lemma {:induction false} DefaultsMean(defaults: seq<Default>)
    requires forall j, m :: 0 <= j < m < |defaults| ==> defaults[j].key.name != defaults[m].key.name
    ensures forall key :: key in DefaultValues(defaults) <==> exists j :: 0 <= j < |defaults| && defaults[j].key.name == key
    ensures forall j :: 0 <= j < |defaults| ==>
      defaults[j].key.name in DefaultValues(defaults) && DefaultValues(defaults)[defaults[j].key.name] == defaults[j].value
  {
    if defaults != [] {
      var less := defaults[..|defaults| - 1];
      DefaultsMean(less);
      assert forall j :: 0 <= j < |less| ==> defaults[j] == less[j];
      forall key ensures key in DefaultValues(defaults) <==> exists j :: 0 <= j < |defaults| && defaults[j].key.name == key {
        if key in DefaultValues(less) {
          var j :| 0 <= j < |less| && less[j].key.name == key;
          assert defaults[j].key.name == key;
        }
        assert defaults[|less|].key.name in DefaultValues(defaults);
      }
    }
  }

  lemma RuleCarries(steps: seq<StepNode>, t: Transition, m: nat)
    requires Resolves(steps, t)
    ensures Carries(steps, t, m, RuleOf(steps, t, m))
  {
    hide StepAt, IsStep;
  }

  lemma PlanRules(spec: PipelineSpec)
    requires TransitionsOk(spec)
    ensures forall m :: 0 <= m < |spec.transitions| ==> Carries(spec.steps, spec.transitions[m], m, RulesOfSpec(spec)[m])
  {
    forall m | 0 <= m < |spec.transitions| ensures Carries(spec.steps, spec.transitions[m], m, RulesOfSpec(spec)[m]) {
      assert TransitionOk(spec, spec.transitions[m]);
      hide Carries, StepAt;
      RuleCarries(spec.steps, spec.transitions[m], m);
    }
  }

  lemma PlanStep(spec: PipelineSpec, i: nat)
    requires TransitionsOk(spec) && LimitsOk(spec) && NamesOk(spec.steps) && i < |spec.steps|
    ensures var p := Plan(spec);
      ListsRules(p.rules, i, false, p.success[i]) && ListsRules(p.rules, i, true, p.failure[i]) && LimitIs(spec, i, p.maxVisits[i])
  {
    assert NameOk(spec.steps[i].name);
    LimitMeans(spec.steps, spec.maxVisits, i);
    hide RulesOf, LastFallback, IsTarget, LimitIn, DefaultValues, StepAt, ListsRules, TransitionsOk, RuleOf;
    assert forall m :: 0 <= m < |RulesOfSpec(spec)| ==> RulesOfSpec(spec)[m].index == m by {
      PlanRules(spec);
    }
    RulesListed(RulesOfSpec(spec), i, false);
    RulesListed(RulesOfSpec(spec), i, true);
  }

  /** The plan of an accepted spec is built from it. */
  lemma PlanBuilt(spec: PipelineSpec, p: Pipeline)
    requires SpecAccepted(spec) && p == Plan(spec).(keys := p.keys)
    ensures BuiltFrom(spec, p)
  {
    AcceptedParts(spec);
    hide SpecAccepted, RulesOf, LastFallback, IsTarget, Limit, DefaultValues, ListsRules, TransitionsOk, RulesOfSpec, Carries, LimitIs,
      LimitsOk, NamesOk;
    PlanRules(spec);
    DefaultsMean(spec.defaults);
    forall i | 0 <= i < |p.steps| ensures ListsRules(p.rules, i, false, p.success[i]) && ListsRules(p.rules, i, true, p.failure[i])
      && LimitIs(spec, i, p.maxVisits[i])
    {
      PlanStep(spec, i);
    }
  }

  lemma AcceptedParts(spec: PipelineSpec)
    requires SpecAccepted(spec)
    ensures TransitionsOk(spec) && LimitsOk(spec) && NamesOk(spec.steps)
    ensures forall j, m :: 0 <= j < m < |spec.defaults| ==> spec.defaults[j].key.name != spec.defaults[m].key.name
  {
    hide TransitionsOk, LimitsOk, NamesOk, DisjointRanges, MergesUsed, DefaultsUsed, StepOk, FlowOk;
  }
}

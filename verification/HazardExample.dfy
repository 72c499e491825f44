/**
 Merge soundness needs its condition: a spec with a hazard that Build accepts, and a run of its pipeline
 that reaches the merge guard.

 Step 0 writes k and rewinds to itself under an Accept; on success it always ends the run, so step 1
 may write k without a MergeRule; on error it goes to step 1. When Accept fails, the snapshot, which
 holds the first visit's write of k, is restored before the OnError transition is taken.
 */
module HazardExample {
  import opened Basics
  import opened Pipelines
  import opened Specs
  import opened Flow
  import opened Runs
  import opened Iterations
  import opened RunTheorems
  import opened ExactHazards
  import opened Reachability

  const K: KeyRef := KeyRef("k", 0)
  const V: Value := Value(0, 7)
  const AGAIN: Rule := Rule(0, 0, 0, true, false, true, false, true, false, false)
  const TO_END: Rule := Rule(1, 0, END, false, false, false, false, false, false, false)
  const ON_ERROR: Rule := Rule(2, 0, 1, false, true, false, false, false, false, false)

  /** The spec as its caller writes it. */
  const SPEC := PipelineSpec(
    [], [StepNode("f", [], [K], None, false), StepNode("g", [], [K], None, false)],
    [Transition("f", false, true, "f", false, true, false, false),
     Transition("f", false, false, End, false, false, false, false),
     Transition("f", true, false, "g", false, false, false, false)],
    [("f", 2)], [], [])

  /** What it compiles to. */
  function Example(): Pipeline {
    Pipeline(
      [], [StepNode("f", [], [K], None, false), StepNode("g", [], [K], None, false)],
      [AGAIN, TO_END, ON_ERROR], [[AGAIN, TO_END], []], [[ON_ERROR], []],
      [2, 0], [true, false], [-1, -1], map[Span(0, 0) := map["k" := 0]], {}, map[])
  }

  /** A visit that writes k, with a When that matches and an Accept that fails. */
  function Writing(): Choices {
    Choices(
      Returns(map["k" := V], {}, map[]), [],
      (key, prev, next) => Ok(next), (prev, next) => Panics, (rule, view) => Yes,
      (rule, view, err) => Yes, (rule, view) => Yes, (rule, view) => Ok(map[]), (step, err) => No, false)
  }

  lemma ExampleRules()
    ensures var rules := [AGAIN, TO_END, ON_ERROR];
      && RulesOf(rules, 0, false) == [AGAIN, TO_END] && RulesOf(rules, 0, true) == [ON_ERROR]
      && RulesOf(rules, 1, false) == [] && RulesOf(rules, 1, true) == []
  {
    var rules := [AGAIN, TO_END, ON_ERROR];
    assert rules[..2] == [AGAIN, TO_END] && rules[..2][..1] == [AGAIN] && [AGAIN][..0] == [];
    assert [AGAIN, TO_END][..1] == [AGAIN];
    forall i, onError ensures RulesOf(rules, i, onError)
      == RulesOf([AGAIN, TO_END], i, onError) + if ON_ERROR.from == i && ON_ERROR.onError == onError then [ON_ERROR] else []
    {
    }
    forall i, onError ensures RulesOf([AGAIN, TO_END], i, onError)
      == RulesOf([AGAIN], i, onError) + if TO_END.from == i && TO_END.onError == onError then [TO_END] else []
    {
    }
    forall i, onError ensures RulesOf([AGAIN], i, onError)
      == if AGAIN.from == i && AGAIN.onError == onError then [AGAIN] else []
    {
    }
  }

  lemma ExampleWrites()
    ensures forall w, key :: Writes(Example().steps, w, key) <==> 0 <= w < 2 && key == "k"
  {
    assert Example().steps[0].writeKeys[0].name == "k" && Example().steps[1].writeKeys[0].name == "k";
  }

  lemma ExampleTables()
    ensures TablesOk(Example())
  {
    hide RulesOf, LastFallback, KeysOk;
    var p := Example();
    ExampleRules();
    ExampleKeys();
    ExampleFallbacks();
    assert p.rules[0] == AGAIN && p.rules[1] == TO_END && p.rules[2] == ON_ERROR;
  }

  lemma ExampleFallbacks()
    ensures LastFallback([ON_ERROR]) == -1 && LastFallback([]) == -1
  {
    assert [ON_ERROR][..0] == [];
  }

  lemma ExampleKeys()
    ensures KeysOk(Example())
  {
    ExampleWrites();
    hide Writes;
    assert forall key :: WrittenIn(Example().steps, Span(0, 0), key) <==> key == "k" by {
      assert Writes(Example().steps, 0, "k");
    }
  }

  lemma ExampleCommitsOne()
    ensures !MayCommitBoth(Example(), 0, 1)
  {
    var p := Example();
    forall next | Continues(p.success[0], 0, 2, next) ensures next == 2 {
      assert Closing(p.success[0][1]);
    }
  }

  lemma ExampleSteps()
    ensures DistinctKeys(Example().inputs)
    ensures forall i :: 0 <= i < 2 ==>
      var node := Example().steps[i]; DistinctKeys(node.readKeys) && DistinctKeys(node.writeKeys) && AmendableOk(node)
  {
  }

  /** Build accepts it: after step 0 succeeds the run may only end. */
  lemma ExampleAccepted()
    ensures Accepted(Example())
  {
    hide TablesOk, MayCommitBoth, Writes, Readable, Continues, AmendsStep, RulesOf, LastFallback, DistinctKeys, AmendableOk;
    var p := Example();
    ExampleSteps();
    assert forall m :: 0 <= m < |p.rules| ==> !p.rules[m].hasAmend;
    ExampleTables();
    ExampleWrites();
    ExampleCommitsOne();
    assert Typed(p, map["k" := 0]);
    assert forall i, key :: !Reads(p.steps, i, key);
    assert !Declares(p.inputs, "k");
  }

  // ---- the spec ----

  lemma SpecSteps()
    ensures IsStep(SPEC.steps, "f") && StepAt(SPEC.steps, "f") == 0 && IsStep(SPEC.steps, "g") && StepAt(SPEC.steps, "g") == 1
  {
    assert SPEC.steps[0].name == "f" && SPEC.steps[1].name == "g";
  }

  lemma SpecLimits()
    ensures Limit(SPEC, 0) == 2 && Limit(SPEC, 1) == 0 && LimitsOk(SPEC)
  {
    SpecSteps();
    assert SPEC.maxVisits[0] == ("f", 2) && SPEC.maxVisits[..0] == [];
    assert "g"[0] != "f"[0];
    assert LimitIn(SPEC.steps, [], 1) == 0;
  }

  lemma SpecTransitions()
    ensures forall m :: 0 <= m < 3 ==> Resolves(SPEC.steps, SPEC.transitions[m]) && TransitionOk(SPEC, SPEC.transitions[m])
    ensures RuleOf(SPEC.steps, SPEC.transitions[0], 0) == AGAIN
    ensures RuleOf(SPEC.steps, SPEC.transitions[1], 1) == TO_END
    ensures RuleOf(SPEC.steps, SPEC.transitions[2], 2) == ON_ERROR
  {
    SpecSteps();
    SpecLimits();
    hide StepAt, IsStep, Limit, LimitsOk;
    var t0, t1, t2 := SPEC.transitions[0], SPEC.transitions[1], SPEC.transitions[2];
    assert Resolves(SPEC.steps, t0) && Resolves(SPEC.steps, t1) && Resolves(SPEC.steps, t2);
    assert RuleOf(SPEC.steps, t0, 0) == AGAIN;
    assert TransitionOk(SPEC, t0) && TransitionOk(SPEC, t1) && TransitionOk(SPEC, t2);
  }

  lemma SpecRules()
    ensures TransitionsOk(SPEC) && RulesOfSpec(SPEC) == [AGAIN, TO_END, ON_ERROR]
  {
    SpecTransitions();
    hide TransitionOk, RuleOf;
    assert |SPEC.transitions| == 3;
  }

  /** The spec's plan, with the keys of its one range, is the pipeline above. */
  lemma SpecPlan()
    ensures TransitionsOk(SPEC) && Plan(SPEC).(keys := Example().keys) == Example()
  {
    SpecRules();
    SpecLimits();
    ExampleRules();
    ExampleFallbacks();
    hide RulesOfSpec, RulesOf, TransitionsOk, Limit, LastFallback;
    var p, rules := Plan(SPEC), RulesOfSpec(SPEC);
    assert rules[0] == AGAIN;
    assert p.success == Example().success && p.failure == Example().failure;
    assert p.maxVisits == Example().maxVisits;
    assert IsTarget(rules, 0) && !IsTarget(rules, 1);
    assert p.target == Example().target && p.fallback == Example().fallback;
    assert p.merges == {} && p.defaults == map[];
  }

  lemma SpecFlows(i: nat)
    requires i < 2 && TransitionsOk(SPEC) && Plan(SPEC).(keys := Example().keys) == Example()
    ensures FlowOk(SPEC, i)
  {
    ExampleWrites();
    ExampleCommitsOne();
    var p := Plan(SPEC);
    assert p.steps == Example().steps && p.success == Example().success && p.rules == Example().rules;
    assert MayCommitBoth(p, 0, 1) == MayCommitBoth(Example(), 0, 1);
    assert forall key :: !Reads(p.steps, i, key);
    hide Writes, MayCommitBoth, Plan;
  }

  lemma SpecStepOk(i: nat)
    requires i < 2
    ensures StepOk(SPEC, i)
  {
    ExampleWrites();
    assert SPEC.steps == Example().steps;
    assert SPEC.steps[i].readKeys == [] && SPEC.steps[i].writeKeys == [K];
    assert SourceType(SPEC, 0, "k") == None;
    hide Writes;
    assert TypesOk(SPEC, i) by {
      assert TypeOf(SPEC.steps[0].writeKeys, "k") == 0 by {
        assert SPEC.steps[0].writeKeys[0] == K;
      }
    }
  }

  /** Build accepts the spec. */
  lemma SpecIsAccepted()
    ensures SpecAccepted(SPEC)
  {
    SpecSteps();
    SpecLimits();
    SpecRules();
    SpecPlan();
    SpecStepOk(0);
    SpecStepOk(1);
    SpecFlows(0);
    SpecFlows(1);
    SpecNames();
    SpecRanges();
    hide StepOk, FlowOk, RulesOfSpec, StepAt, TransitionsOk, LimitsOk, Plan, NamesOk, DisjointRanges, IsTarget;
  }

  lemma SpecNames()
    ensures NamesOk(SPEC.steps)
  {
    assert "g"[0] != "f"[0];
  }

  lemma SpecRanges()
    ensures DisjointRanges([AGAIN, TO_END, ON_ERROR]) && IsTarget([AGAIN, TO_END, ON_ERROR], 0)
  {
    var rules := [AGAIN, TO_END, ON_ERROR];
    assert rules[0] == AGAIN && rules[1] == TO_END && rules[2] == ON_ERROR;
  }

  // ---- the run ----

  /** The state after the first visit, which committed k and took the rewind, and after the second,
      whose Accept failed. */
  function Rewound(): FlowState {
    FlowState(map[], {}, [1, 0], map[0 := Snapshot(map[], {})],
      Some(Pending(AGAIN, Snapshot(map["k" := V], {}), None, map[])), map[], Some(map[]), map[])
  }

  function Left(): FlowState {
    FlowState(map["k" := V], {}, [2, 0], map[0 := Snapshot(map[], {})], None, map[], None, map[])
  }

  lemma FirstVisit()
    ensures Iterate(Example(), Start(Example(), map[], map[], map[]), 0, Writing()) == (Rewound(), Goto(0))
  {
    var p := Example();
    var s := Start(p, map[], map[], map[]);
    assert s.values == map[] && s.defaulted == {} && s.visits == [0, 0];
    var s1 := Enter(p, s, 0);
    assert s1.visits == [1, 0];
    Commits(p, s1);
    var visit := Execute(p, s1, 0, Live, Writing());
    var mid := Commit(s1, visit);
    assert mid.values == map["k" := V];
    assert Finish(p, s, 0, Writing()) == Ending(mid, Goto(0), Some(AGAIN), None, false);
    assert RestoreValues(mid.values, Snapshot(map[], {}), {"k"}) == map[];
    assert KeyValues(mid.values, {"k"}) == map["k" := V];
    assert StartRewind(p, mid, AGAIN, None) == Rewound() by {
      var r := StartRewind(p, mid, AGAIN, None);
      assert RewindKeys(p, AGAIN) == {"k"};
      assert mid.before == map[0 := Snapshot(map[], {})] && mid.visits == [1, 0];
      assert r.values == map[] && r.defaulted == {};
      assert r.rewind.value.prev == Snapshot(map["k" := V], {});
    }
    hide Finish, RestoreValues, KeyValues, Execute, Commit, Enter, StartRewind;
  }

  lemma Commits(p: Pipeline, s: FlowState)
    requires p == Example() && |s.visits| == 2 && s.visits[0] == 1
    requires "k" !in s.values && s.rewind.None?
    ensures Execute(p, s, 0, Live, Writing())
      == StepVisit(Live, map["k" := V], map[], [], Some(AGAIN), false, false, false, false, None)
  {
    MergesK(p, s, 0);
  }

  lemma MergesK(p: Pipeline, s: FlowState, i: nat)
    requires p == Example() && i < 2
    ensures Declares(p.steps[i].writeKeys, "k") && TypeOf(p.steps[i].writeKeys, "k") == 0
    ensures MergeWrites(p, s, p.steps[i], map["k" := V], Writing())
      == if Holds(s, "k") then Err([HoldsWrite("k")]) else Ok(map["k" := V])
  {
    var node := p.steps[i];
    assert node.writeKeys[0] == K;
    assert MergeFrom(p, s, node, map["k" := V], Writing(), 1, map["k" := V]) == Ok(map["k" := V]);
  }

  lemma SecondVisit()
    ensures Iterate(Example(), Rewound(), 0, Writing()) == (Left(), Goto(1))
  {
    var p := Example();
    var s := Rewound();
    var s1 := Enter(p, s, 0);
    assert s1 == s.(visits := [2, 0]);
    MergesK(p, s1, 0);
    var visit := Execute(p, s1, 0, Live, Writing());
    assert visit == FailedVisit(Live, [HookFailure(0, Unclassified)]).(acceptFailed := true);
    var mid := RejectRewind(p, s1);
    assert RestoreValues(map[], Snapshot(map["k" := V], {}), {"k"}) == map["k" := V];
    assert mid == Left();
    assert DecideFailure(p, s1, 0, visit, Writing()) == Take(ON_ERROR, None, [HookFailure(0, Unclassified)], []);
    hide DecideFailure, Execute, Enter, RejectRewind;
    assert Finish(p, s, 0, Writing()) == Ending(mid, Goto(1), None, None, true);
  }

  lemma ExampleHazard()
    ensures Hazard(Example(), "k")
  {
    var p := Example();
    ExampleWrites();
    assert p.rules[0] == AGAIN && p.rules[2] == ON_ERROR;
    assert LeavesBehind(p, 0, 2, "k");
    assert Writes(p.steps, 1, "k") && Dest(p.rules[2], 2) <= 1;
  }

  /** The configurations before its three visits. */
  function ExampleRun(): seq<Config> {
    [Config(Start(Example(), map[], map[], map[]), 0), Config(Rewound(), 0), Config(Left(), 1)]
  }

  lemma ExampleIsRun()
    ensures IsRun(Example(), map[], ExampleRun(), [Writing(), Writing()])
  {
    FirstVisit();
    SecondVisit();
    hide Iterate, Rewound, Left, Writing, Start;
    var run, cs := ExampleRun(), [Writing(), Writing()];
    assert Starts(Example(), map[], run[0]);
    assert Fits(Example(), Start(Example(), map[], map[], map[])) && Fits(Example(), Rewound()) by {
      VisitsFit();
    }
    assert Steps(Example(), run[0], cs[0], run[1]) && Steps(Example(), run[1], cs[1], run[2]);
  }

  lemma VisitsFit()
    ensures Fits(Example(), Start(Example(), map[], map[], map[])) && Fits(Example(), Rewound())
  {
  }

  /** Build accepts the spec, and a run of the pipeline it compiles to reaches the merge guard at step 1, on the
      third visit. */
  lemma HazardReached()
    ensures SpecAccepted(SPEC) && Plan(SPEC).(keys := Example().keys) == Example()
    ensures Accepted(Example()) && Hazard(Example(), "k")
    ensures IsRun(Example(), map[], ExampleRun(), [Writing(), Writing()])
    ensures Fits(Example(), ExampleRun()[2].state) && VisitAt(Example(), ExampleRun()[2], Writing()).err == [HoldsWrite("k")]
  {
    hide Accepted, Hazard, IsRun, SpecAccepted, Plan;
    SpecIsAccepted();
    SpecPlan();
    ExampleAccepted();
    ExampleHazard();
    ExampleIsRun();
    ThirdVisit();
  }

  /** So its tables have a reachable hazard. */
  lemma HazardIsReachable()
    ensures ReachableHazard(Example(), "k")
  {
    HazardReached();
    hide Accepted, IsRun, ReachableHazard, VisitAt, Hazard;
    GuardReachable(Example(), map[], ExampleRun(), [Writing(), Writing()], 2, Writing(), "k");
  }

  lemma ThirdVisit()
    ensures Visited(Example(), Left(), 1, Writing()).1.err == [HoldsWrite("k")]
  {
    var p := Example();
    MergesK(p, Enter(p, Left(), 1), 1);
  }
}

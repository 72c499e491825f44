/** What every run of an accepted pipeline does, whatever its steps and hooks choose. */
module RunTheorems {
  import opened Basics
  import opened Pipelines
  import opened Flow
  import opened Runs
  import opened Invariant
  import opened Soundness
  import opened Iterations

  // ---- runs ----

  /** Every declared input is given, with its type. */
  predicate InputsOk(p: Pipeline, inputs: Values) {
    forall j :: 0 <= j < |p.inputs| ==>
      p.inputs[j].name in inputs && inputs[p.inputs[j].name].typ == p.inputs[j].typ
  }

  /** The state a run starts in: the declared inputs, and the defaults, which only hold until a
      write replaces them. */
  function Start(p: Pipeline, inputs: Values, cache: Cache, tools: Tools): FlowState {
    FlowState(
      KeyValues(inputs, Names(p.inputs)) + p.defaults, p.defaults.Keys,
      seq(|p.steps|, _ => 0), map[], None, cache, None, tools)
  }

  /** A run before one of its iterations: its state and the step it is to visit. */
  datatype Config = Config(state: FlowState, at: nat)

  /** run is the sequence of configurations a run of p passes through with the choices cs. */
  ghost predicate IsRun(p: Pipeline, inputs: Values, run: seq<Config>, cs: seq<Choices>) {
    && Sized(p) && InputsOk(p, inputs)
    && |run| == |cs| + 1
    && Starts(p, inputs, run[0])
    && (forall k {:trigger cs[k]} :: 0 <= k < |cs| ==> Steps(p, run[k], cs[k], run[k + 1]))
  }

  ghost predicate Starts(p: Pipeline, inputs: Values, a: Config) {
    exists cache, tools :: a == Config(Start(p, inputs, cache, tools), 0)
  }

  /** One iteration takes the run from a to b. */
  ghost predicate Steps(p: Pipeline, a: Config, c: Choices, b: Config)
    requires Sized(p)
  {
    && Fits(p, a.state) && a.at < |p.steps|
    && Iterate(p, a.state, a.at, c) == (b.state, Goto(b.at))
  }

  /** The visit the iteration from a makes. */
  function VisitAt(p: Pipeline, a: Config, c: Choices): StepVisit
    requires Sized(p) && Fits(p, a.state) && a.at < |p.steps|
  {
    Visited(p, a.state, a.at, c).1
  }

  ghost predicate UndoneFailure(p: Pipeline, a: Config, c: Choices)
    requires Sized(p) && Fits(p, a.state) && a.at < |p.steps|
  {
    var (s, visit) := Visited(p, a.state, a.at, c);
    FailsUndone(s, a.at, visit)
  }

  /** The iteration from a is one whose visit does not fail undone. */
  ghost predicate RegularStep(p: Pipeline, a: Config, c: Choices) {
    Sized(p) && Fits(p, a.state) && a.at < |p.steps| && !UndoneFailure(p, a, c)
  }

  /** No visit before the k-th has failed after Accept rejected it or failed. */
  ghost predicate Regular(p: Pipeline, run: seq<Config>, cs: seq<Choices>, k: nat) {
    k <= |run| && k <= |cs| && forall m :: 0 <= m < k ==> RegularStep(p, run[m], cs[m])
  }

  lemma StartInv(p: Pipeline, known: Known, inputs: Values, a: Config)
    requires Accepted(p) && KnownOk(p, known) && InputsOk(p, inputs) && Starts(p, inputs, a)
    ensures Inv(p, known, a.state, a.at)
  {
    var s := a.state;
    forall key | Guaranteed(p, 0, key) ensures key in s.values {
      if Declares(p.inputs, key) {
        var j := IndexOf(p.inputs, key);
        assert inputs[key].typ == p.inputs[j].typ;
      }
    }
    forall key | key in s.values ensures key in known.types && s.values[key].typ == known.types[key] {
      if key !in p.defaults {
        var j :| 0 <= j < |p.inputs| && p.inputs[j].name == key;
      }
    }
    forall key, w | Writes(p.steps, w, key) ensures key in s.values ==> key in s.defaulted {
      assert !Declares(p.inputs, key);
    }
  }

  /** One iteration of a run keeps the invariant. */
  lemma StepKeepsInv(p: Pipeline, known: Known, a: Config, c: Choices, b: Config)
    requires Accepted(p) && KnownOk(p, known) && Sized(p) && Inv(p, known, a.state, a.at)
    requires Steps(p, a, c, b)
    requires SafeExits(p, known.free) || RegularStep(p, a, c)
    ensures Inv(p, known, b.state, b.at)
  {
    IterateKeepsInv(p, known, a.state, a.at, c);
  }

  /** The invariant holds at every configuration of a run whose iterations before it meet the
      condition of IterateKeepsInv. */
  lemma {:induction false} RunInv(p: Pipeline, known: Known, inputs: Values, run: seq<Config>, cs: seq<Choices>, k: nat)
    requires Accepted(p) && KnownOk(p, known) && IsRun(p, inputs, run, cs) && k < |run|
    requires SafeExits(p, known.free) || Regular(p, run, cs, k)
    ensures Inv(p, known, run[k].state, run[k].at)
  {
    hide Accepted, KnownOk, Inv, Steps, SafeExits, RegularStep, Starts;
    if k == 0 {
      StartInv(p, known, inputs, run[0]);
    } else {
      RunInv(p, known, inputs, run, cs, k - 1);
      assert Steps(p, run[k - 1], cs[k - 1], run[k - 1 + 1]);
      StepKeepsInv(p, known, run[k - 1], cs[k - 1], run[k]);
    }
  }

  /** Every key some step declares as a write. */
  function AllWritten(steps: seq<StepNode>): set<Name> {
    set i, j | 0 <= i < |steps| && 0 <= j < |steps[i].writeKeys| :: steps[i].writeKeys[j].name
  }

  lemma WrittenIsAll(steps: seq<StepNode>, w: int, key: Name)
    requires Writes(steps, w, key)
    ensures key in AllWritten(steps)
  {
    var j :| 0 <= j < |steps[w].writeKeys| && steps[w].writeKeys[j].name == key;
  }

  /** The invariant without a word on shared writes holds at every configuration of every run. */
  lemma RunInvAll(p: Pipeline, inputs: Values, run: seq<Config>, cs: seq<Choices>, k: nat) returns (known: Known)
    requires Accepted(p) && IsRun(p, inputs, run, cs) && k < |run|
    ensures KnownOk(p, known) && SafeExits(p, known.free)
    ensures Inv(p, known, run[k].state, run[k].at)
  {
    var types :| Typed(p, types);
    known := Known(types, p.merges + AllWritten(p.steps));
    forall w, key | Writes(p.steps, w, key) ensures key in known.free {
      WrittenIsAll(p.steps, w, key);
    }
    RunInv(p, known, inputs, run, cs, k);
  }

  // ---- read soundness ----

  /** Whenever a step starts, on any visit of any run, its view holds every key it reads, with the
      type it reads it as: after skips, failures, rewinds, rejections and amendments alike. */
  lemma ReadSoundness(p: Pipeline, inputs: Values, run: seq<Config>, cs: seq<Choices>, k: nat)
    requires Accepted(p) && IsRun(p, inputs, run, cs) && k < |run| && run[k].at < |p.steps|
    ensures var s := Arrive(run[k].state, run[k].at);
      var view := Resolve(AmendedView(s, run[k].at), s);
      forall j :: 0 <= j < |p.steps[run[k].at].readKeys| ==>
        var read := p.steps[run[k].at].readKeys[j];
        read.name in view && view[read.name].typ == read.typ
  {
    var known := RunInvAll(p, inputs, run, cs, k);
    var i := run[k].at;
    var s := Arrive(run[k].state, i);
    ArriveOk(p, known, run[k].state, i);
    forall j | 0 <= j < |p.steps[i].readKeys|
      ensures var read := p.steps[i].readKeys[j];
        var view := Resolve(AmendedView(s, i), s);
        read.name in view && view[read.name].typ == read.typ
    {
      var read := p.steps[i].readKeys[j];
      assert Reads(p.steps, i, read.name);
      ReadAvailable(p, i, read.name);
    }
  }

  // ---- merge soundness ----

  /** The merge guard fails only on a key without a MergeRule that holds a write and is declared. */
  lemma {:induction false} GuardFails(
    p: Pipeline, s: FlowState, node: StepNode, writes: Values, c: Choices, j: nat, committed: Values, key: Name)
    requires j <= |node.writeKeys|
    ensures var r := MergeFrom(p, s, node, writes, c, j, committed);
      r.Err? && HoldsWrite(key) in r.error ==> Declares(node.writeKeys, key) && Holds(s, key) && key !in p.merges
    decreases |node.writeKeys| - j
  {
    if j < |node.writeKeys| {
      var name := node.writeKeys[j].name;
      if name !in writes {
        GuardFails(p, s, node, writes, c, j + 1, committed, key);
      } else if !Holds(s, name) {
        GuardFails(p, s, node, writes, c, j + 1, committed[name := writes[name]], key);
      } else if name in p.merges {
        match c.merge(name, s.values[name], writes[name])
        case Err(_) =>
        case Ok(merged) => GuardFails(p, s, node, writes, c, j + 1, committed[name := merged], key);
      }
    }
  }

  /** No error of Choose or Accept is the merge guard's. */
  lemma {:induction false} ChooseErrs(p: Pipeline, s: FlowState, list: seq<Rule>, k: nat, rejected: bool, view: Values, c: Choices, key: Name)
    requires k <= |list| && |s.visits| == |p.maxVisits|
    ensures var r := Choose(p, s, list, k, rejected, view, c); r.ChoiceFails? ==> HoldsWrite(key) !in r.err
    decreases |list| - k
  {
    if k < |list| {
      ChooseErrs(p, s, list, k + 1, rejected, view, c, key);
    }
  }

  lemma VisitGuard(p: Pipeline, s: FlowState, i: nat, view: View, c: Choices, key: Name)
    requires i < |p.steps| == |p.success| == |p.maxVisits| == |s.visits|
    requires HoldsWrite(key) in Execute(p, s, i, view, c).err
    ensures Writes(p.steps, i, key) && Holds(s, key) && key !in p.merges
  {
    if c.outcome.Returns? {
      var writes := c.outcome.writes;
      GuardFails(p, s, p.steps[i], writes, c, 0, map[], key);
      match MergeWrites(p, s, p.steps[i], writes, c)
      case Err(_) =>
      case Ok(committed) => DecideErrs(p, s, i, view, writes, committed, c.outcome.staged, c, key);
    }
  }

  lemma DecideErrs(p: Pipeline, s: FlowState, i: nat, view: View, writes: Values, committed: Values, staged: Tools, c: Choices,
    key: Name)
    requires i < |p.steps| == |p.success| == |p.maxVisits| == |s.visits|
    ensures HoldsWrite(key) !in Decide(p, s, i, view, writes, committed, staged, c).err
  {
    forall rejected, v ensures var r := Choose(p, s, p.success[i], 0, rejected, v, c);
      r.ChoiceFails? ==> HoldsWrite(key) !in r.err
    {
      ChooseErrs(p, s, p.success[i], 0, rejected, v, c, key);
    }
    hide Choose, RestoreValues;
  }

  /** A step that rewinds under an Accept leaves a write of key, which has no MergeRule, and an
      OnError transition of it goes to or before another step that writes key. */
  ghost predicate Hazard(p: Pipeline, key: Name) {
    key !in p.merges && exists a, b, w ::
      LeavesBehind(p, a, b, key) && Writes(p.steps, w, key) && Dest(p.rules[b], |p.steps|) <= w
  }

  /** Where the invariant holds, only a free key can fail the merge guard. */
  lemma GuardNeedsFree(p: Pipeline, known: Known, a: Config, c: Choices, key: Name)
    requires Accepted(p) && KnownOk(p, known) && Inv(p, known, a.state, a.at) && a.at < |p.steps|
    requires HoldsWrite(key) in VisitAt(p, a, c).err
    ensures key in known.free - p.merges && Writes(p.steps, a.at, key)
  {
    var s1 := Arrive(a.state, a.at);
    var (s, visit) := Visited(p, a.state, a.at, c);
    EnterReady(p, known, a.state, a.at, c);
    VisitGuard(p, s, a.at, AmendedView(s1, a.at), c, key);
  }

  /** With the hazards free, every exit is safe. */
  lemma HazardFree(p: Pipeline) returns (known: Known)
    requires Accepted(p)
    ensures KnownOk(p, known) && SafeExits(p, known.free)
    ensures forall key :: key in known.free - p.merges ==> Hazard(p, key)
  {
    var types :| Typed(p, types);
    known := Known(types, p.merges + set name | name in AllWritten(p.steps) && Hazard(p, name));
    forall a, b, name, w | LeavesBehind(p, a, b, name) && name !in known.free && Writes(p.steps, w, name)
      ensures w < Dest(p.rules[b], |p.steps|)
    {
      WrittenIsAll(p.steps, w, name);
    }
  }

  /** Merge soundness. On every run of an accepted pipeline, over all skips, rewinds, acceptances,
      rejections and restores, a step fails with "already holds a write and has no MergeRule" only
      for a key that is a hazard of the pipeline. */
  lemma MergeSoundness(p: Pipeline, inputs: Values, run: seq<Config>, cs: seq<Choices>, k: nat, c: Choices, key: Name)
    requires Accepted(p) && IsRun(p, inputs, run, cs) && k < |run|
    requires run[k].at < |p.steps| && Fits(p, run[k].state)
    requires HoldsWrite(key) in VisitAt(p, run[k], c).err
    ensures Hazard(p, key)
  {
    var known := HazardFree(p);
    RunInv(p, known, inputs, run, cs, k);
    GuardNeedsFree(p, known, run[k], c, key);
  }

  /** And on a run in which no visit has failed after Accept rejected it or failed, no step does,
      hazard or not. */
  lemma MergeSoundnessRegular(p: Pipeline, inputs: Values, run: seq<Config>, cs: seq<Choices>, k: nat, c: Choices, key: Name)
    requires Accepted(p) && IsRun(p, inputs, run, cs) && k < |run|
    requires run[k].at < |p.steps| && Fits(p, run[k].state)
    requires Regular(p, run, cs, k)
    ensures HoldsWrite(key) !in VisitAt(p, run[k], c).err
  {
    var types :| Typed(p, types);
    RunInv(p, Known(types, p.merges), inputs, run, cs, k);
    if HoldsWrite(key) in VisitAt(p, run[k], c).err {
      GuardNeedsFree(p, Known(types, p.merges), run[k], c, key);
    }
  }
}

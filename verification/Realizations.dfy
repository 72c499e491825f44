/** Every move the tables allow is one some run makes, unless a run fails the merge guard first. */
module Realizations {
  import opened Basics
  import opened Pipelines
  import opened Flow
  import opened Runs
  import opened Invariant
  import opened Soundness
  import opened Iterations
  import opened RunTheorems
  import opened Reachability
  import opened Steering

  // ---- configurations runs come to ----

  /** Some run comes to a. */
  ghost predicate Reached(p: Pipeline, inputs: Values, a: Config) {
    exists run, cs :: IsRun(p, inputs, run, cs) && run[|cs|] == a
  }

  /** The visit from a fails the merge guard. */
  ghost predicate GuardAt(p: Pipeline, a: Config, c: Choices) {
    Sized(p) && Fits(p, a.state) && a.at < |p.steps| && exists key :: HoldsWrite(key) in VisitAt(p, a, c).err
  }

  /** Some run comes to a visit that fails the merge guard. */
  ghost predicate Guarded(p: Pipeline, inputs: Values) {
    exists a, c :: Reached(p, inputs, a) && GuardAt(p, a, c)
  }

  lemma ReachedOn(p: Pipeline, inputs: Values, a: Config, c: Choices, b: Config)
    requires Reached(p, inputs, a) && Sized(p) && Steps(p, a, c, b)
    ensures Reached(p, inputs, b)
  {
    hide Steps, Starts;
    var run, cs :| IsRun(p, inputs, run, cs) && run[|cs|] == a;
    var run', cs' := run + [b], cs + [c];
    forall k | 0 <= k < |cs'| ensures Steps(p, run'[k], cs'[k], run'[k + 1]) {
      if k < |cs| {
        assert Steps(p, run[k], cs[k], run[k + 1]);
      }
    }
    assert IsRun(p, inputs, run', cs') && run'[|cs'|] == b;
  }

  lemma ReachedInv(p: Pipeline, inputs: Values, a: Config) returns (known: Known)
    requires Accepted(p) && Reached(p, inputs, a)
    ensures KnownOk(p, known) && SafeExits(p, known.free) && Inv(p, known, a.state, a.at)
  {
    hide Accepted, KnownOk, SafeExits, Inv, Starts;
    var run, cs :| IsRun(p, inputs, run, cs) && run[|cs|] == a;
    known := RunInvAll(p, inputs, run, cs, |cs|);
  }

  // ---- one visit ----

  /** The rewind running when step a.at is visited. */
  function Now(a: Config): Option<Pending> {
    Arrive(a.state, a.at).rewind
  }

  /** The same rewind runs, with the same snapshot. */
  predicate SameRewind(x: Option<Pending>, y: Option<Pending>) {
    x.Some? == y.Some? && (x.Some? ==> x.value.rule == y.value.rule && x.value.prev == y.value.prev)
  }

  /** The state step a.at is executed in. */
  lemma Entered(p: Pipeline, a: Config, c: Choices)
    requires Sized(p) && Fits(p, a.state) && a.at < |p.steps| && c.stores == []
    ensures var s := Visited(p, a.state, a.at, c).0;
      && s == Enter(p, Arrive(a.state, a.at), a.at)
      && s.visits == a.state.visits[a.at := a.state.visits[a.at] + 1]
      && s.values == a.state.values && s.defaulted == a.state.defaulted && SameRewind(Now(a), s.rewind)
  {
  }

  predicate AllIn(node: StepNode, committed: Values) {
    forall m :: 0 <= m < |node.writeKeys| ==> node.writeKeys[m].name in committed
  }

  /** No write of the step is of a key that holds one and has no MergeRule. */
  predicate NoneHeld(p: Pipeline, a: Config, node: StepNode) {
    forall m :: 0 <= m < |node.writeKeys| && Holds(a.state, node.writeKeys[m].name) ==> node.writeKeys[m].name in p.merges
  }

  /** A visit that sets every write comes to its decision. */
  lemma Sets(p: Pipeline, a: Config, goal: Option<Rule>, accept: Verdict) returns (committed: Values)
    requires Accepted(p) && Sized(p) && Fits(p, a.state) && a.at < |p.steps|
    ensures var c := Steered(p.steps[a.at], false, goal, accept, No);
      && c.stores == []
      && (GuardAt(p, a, c)
        || (AllIn(p.steps[a.at], committed) && NoneHeld(p, a, p.steps[a.at]) && VisitAt(p, a, c) == Decide(p, Visited(p, a.state, a.at, c).0, a.at,
            AmendedView(Arrive(a.state, a.at), a.at), AllWrites(p.steps[a.at]), committed, map[], c)))
  {
    var node := p.steps[a.at];
    var c := Steered(node, false, goal, accept, No);
    Entered(p, a, c);
    var s, view := Visited(p, a.state, a.at, c).0, AmendedView(Arrive(a.state, a.at), a.at);
    AllWritesOk(node, Resolve(view, s));
    assert DistinctKeys(node.writeKeys);
    WritesSteered(p, s, node, 0, map[], goal, accept, No);
    var r := MergeWrites(p, s, node, AllWrites(node), c);
    hide MergeFrom, Decide, AllWrites, WritesOk, Accepted;
    if r.Ok? {
      committed := r.value;
    } else {
      committed := map[];
      var key :| r.error == [HoldsWrite(key)];
      assert HoldsWrite(key) in VisitAt(p, a, c).err;
    }
  }

  // ---- success ----

  /** Where the rule at position k of list, or none, takes a run from step i. */
  function NextBy(list: seq<Rule>, k: nat, i: nat, n: nat): int
    requires k <= |list|
  {
    if k < |list| then Dest(list[k], n) else i + 1
  }

  /** A visit that Accept, if asked, accepts takes the k-th rule. */
  lemma DecidesBy(p: Pipeline, s: FlowState, i: nat, view: View, committed: Values, k: nat)
    requires i < |p.steps| == |p.success| == |p.maxVisits| == |s.visits| && k <= |p.success[i]|
    requires Plain(p.success[i], k) && (k < |p.success[i]| && p.success[i][k].rewind ==> MayRewind(p, s, p.success[i][k]))
    ensures var c := Steered(p.steps[i], false, Goal(p.success[i], k), Yes, No);
      var v := Decide(p, s, i, view, AllWrites(p.steps[i]), committed, map[], c);
      v.err == [] && v.rule == Goal(p.success[i], k) && !v.rejected && v.committed == committed && v.view == view
  {
    var node := p.steps[i];
    var c := Steered(node, false, Goal(p.success[i], k), Yes, No);
    forall values ensures var r := Choose(p, s, p.success[i], 0, false, values, c); r.Chosen? && r.rule == Goal(p.success[i], k) {
      ChooseSteered(p, s, p.success[i], 0, k, false, values, node, false, Yes, No);
    }
    assert s.rewind.Some? ==> c.accept(s.rewind.value.prev.values, KeyValues(s.values + committed, RewindKeys(p, s.rewind.value.rule))) == Yes;
    hide Choose, RestoreValues, AllWrites, RewindKeys;
  }

  /** What the visit of step i leaves running: a rewind it does not end. */
  function Left(i: nat, rewind: Option<Pending>): Option<Pending> {
    if rewind.Some? && rewind.value.rule.from != i then rewind else None
  }

  /** The state once a successful visit of step i is committed and the rewind it ends has ended. */
  function Done(s: FlowState, i: nat, v: StepVisit): FlowState {
    if EndsRewind(s, i) then EndRewind(Commit(s, v), true) else Commit(s, v)
  }

  lemma DoneState(s: FlowState, i: nat, v: StepVisit)
    ensures var mid := Done(s, i, v);
      && mid.visits == s.visits && mid.values == s.values + v.committed && mid.defaulted == s.defaulted - v.committed.Keys
      && mid.before == s.before && SameRewind(Left(i, s.rewind), mid.rewind)
  {
    hide EndJournal;
  }

  lemma SuccessEnds(p: Pipeline, s: FlowState, i: nat, v: StepVisit, k: nat)
    requires TablesOk(p) && i < |p.steps| == |s.visits| && k <= |p.success[i]|
    requires v.err == [] && v.rule == Goal(p.success[i], k) && !v.rejected
    requires k < |p.success[i]| ==> p.success[i][k].to != FAIL
    ensures var e := Flow.Succeeded(p, s, i, v);
      && e.next == Goto(NextBy(p.success[i], k, i, |p.steps|)) && e.next.index >= 0 && e.mid == Done(s, i, v)
      && e.rewind == (if k < |p.success[i]| && p.success[i][k].rewind then v.rule else None)
  {
    if k < |p.success[i]| {
      RuleFacts(p, i, false, k);
    }
    hide RejectRewind, StepFailed, EndRewind, Commit, TablesOk;
  }

  /** The run goes on from a to next, and ends the running rewind only at its From or past its range. */
  ghost predicate Onward(a: Config, b: Config, next: int) {
    && b.at == next && a.at < |a.state.visits| && b.state.visits == a.state.visits[a.at := a.state.visits[a.at] + 1]
    && SameRewind(Left(a.at, Now(a)), b.state.rewind)
    && (a.state.rewind.None? ==> KeepsWrites(a, b))
  }

  ghost predicate KeepsWrites(a: Config, b: Config) {
    forall key :: Holds(a.state, key) ==> Holds(b.state, key)
  }

  /** An iteration that starts no rewind goes on from the state it ends the visit in. */
  lemma GoesOn(p: Pipeline, inputs: Values, a: Config, c: Choices) returns (b: Config)
    requires Reached(p, inputs, a) && Sized(p) && Fits(p, a.state) && a.at < |p.steps|
    requires var e := Finish(p, a.state, a.at, c); e.next.Goto? && e.next.index >= 0 && e.rewind.None?
    ensures var e := Finish(p, a.state, a.at, c);
      Reached(p, inputs, b) && b.at == e.next.index && b.state == e.mid.(before := b.state.before)
  {
    hide Finish, Reached, SnapshotSkipped;
    var e := Finish(p, a.state, a.at, c);
    SkippedSame(p, e.mid, a.at + 1, Min(e.next.index, |p.steps|));
    b := Config(SnapshotSkipped(p, e.mid, a.at + 1, Min(e.next.index, |p.steps|)), e.next.index);
    ReachedOn(p, inputs, a, c, b);
  }

  /** The choices that set every write and take the k-th rule on success do so, or the visit fails the guard. */
  lemma SuccessBy(p: Pipeline, a: Config, k: nat) returns (c: Choices, s: FlowState, v: StepVisit)
    requires Accepted(p) && Sized(p) && Fits(p, a.state) && a.at < |p.steps|
    requires k <= |p.success[a.at]| && Plain(p.success[a.at], k) && (k < |p.success[a.at]| ==> p.success[a.at][k].to != FAIL)
    requires k < |p.success[a.at]| && p.success[a.at][k].rewind ==> MayTake(p, a, p.success[a.at][k])
    ensures GuardAt(p, a, c) || (
      && Finish(p, a.state, a.at, c) == Flow.Succeeded(p, s, a.at, v)
      && s == Enter(p, Arrive(a.state, a.at), a.at) && AllIn(p.steps[a.at], v.committed)
      && v.err == [] && v.rule == Goal(p.success[a.at], k) && !v.rejected)
  {
    var goal := Goal(p.success[a.at], k);
    c := Steered(p.steps[a.at], false, goal, Yes, No);
    var committed := Sets(p, a, goal, Yes);
    Entered(p, a, c);
    s, v := Visited(p, a.state, a.at, c).0, Visited(p, a.state, a.at, c).1;
    if !GuardAt(p, a, c) {
      hide Accepted, Visited, Decide, Plain, Steered, AllWrites, GuardAt, Enter;
      DecidesBy(p, s, a.at, AmendedView(Arrive(a.state, a.at), a.at), committed, k);
      hide Flow.Succeeded;
    }
  }

  /** The rewind rule may be taken once the visit from a has been counted. */
  predicate MayTake(p: Pipeline, a: Config, rule: Rule)
    requires Sized(p) && Fits(p, a.state) && a.at < |p.steps|
  {
    MayRewind(p, Enter(p, Arrive(a.state, a.at), a.at), rule)
  }

  lemma SuccessMove(p: Pipeline, inputs: Values, a: Config, k: nat) returns (b: Config)
    requires Accepted(p) && Reached(p, inputs, a) && Sized(p) && Fits(p, a.state) && a.at < |p.steps|
    requires k <= |p.success[a.at]| && Plain(p.success[a.at], k) && (k < |p.success[a.at]| ==> Forward(p.success[a.at][k]))
    ensures Guarded(p, inputs) || (Reached(p, inputs, b) && Onward(a, b, NextBy(p.success[a.at], k, a.at, |p.steps|)))
  {
    assert TablesOk(p);
    hide Accepted, Reached, TablesOk, GuardAt, Plain, Finish, Flow.Succeeded, Done, AllIn, Enter, Arrive, Fits, Onward;
    var c, s, v := SuccessBy(p, a, k);
    if GuardAt(p, a, c) {
      b := a;
    } else {
      SuccessEnds(p, s, a.at, v, k);
      b := GoesOn(p, inputs, a, c);
      DoneOnward(p, a, s, v, b);
    }
  }

  lemma DoneOnward(p: Pipeline, a: Config, s: FlowState, v: StepVisit, b: Config)
    requires Sized(p) && Fits(p, a.state) && a.at < |p.steps| && s == Enter(p, Arrive(a.state, a.at), a.at)
    requires b.state == Done(s, a.at, v).(before := b.state.before)
    ensures Onward(a, b, b.at)
  {
    DoneState(s, a.at, v);
    hide Done;
    assert SameRewind(Now(a), s.rewind);
  }

  // ---- failure ----

  /** The state once a visit of step i has failed and the rewind it ends has ended. */
  function FailDone(s: FlowState, i: nat): FlowState {
    if EndsRewind(s, i) then EndRewind(s, true) else s
  }

  lemma FailDoneState(s: FlowState, i: nat)
    ensures var mid := FailDone(s, i);
      && mid.visits == s.visits && mid.values == s.values && mid.defaulted == s.defaulted && mid.before == s.before
      && SameRewind(Left(i, s.rewind), mid.rewind)
  {
    hide EndJournal;
  }

  /** The rules on failure before the k-th may be passed over once the visit from a has been counted. */
  predicate MayPass(p: Pipeline, a: Config, k: nat)
    requires Sized(p) && Fits(p, a.state) && a.at < |p.steps| && k <= |p.failure[a.at]|
  {
    Passable(p, Enter(p, Arrive(a.state, a.at), a.at), p.failure[a.at], k)
  }

  /** The choices that fail the step and take the k-th rule on failure do so. */
  lemma FailureBy(p: Pipeline, a: Config, k: nat) returns (c: Choices, s: FlowState)
    requires Sized(p) && Fits(p, a.state) && a.at < |p.steps| && k < |p.failure[a.at]| && MayPass(p, a, k)
    requires p.failure[a.at][k].rewind ==> MayTake(p, a, p.failure[a.at][k])
    requires p.failure[a.at][k].to != FAIL && (p.failure[a.at][k].rewind ==> p.failure[a.at][k].to >= 0)
    ensures s == Enter(p, Arrive(a.state, a.at), a.at)
    ensures var e, rule := Finish(p, a.state, a.at, c), p.failure[a.at][k];
      && e.mid == FailDone(s, a.at) && e.next == Goto(Dest(rule, |p.steps|)) && e.rewind == (if rule.rewind then Some(rule) else None)
  {
    var i, rule := a.at, p.failure[a.at][k];
    c := Steered(p.steps[i], true, Some(rule), Yes, No);
    Entered(p, a, c);
    s := Visited(p, a.state, i, c).0;
    var view := AmendedView(Arrive(a.state, i), i);
    var v := VisitAt(p, a, c);
    assert v == FailedVisit(view, [StepFailure(Unclassified)]);
    var restorable := s.rewind.Some? && s.rewind.value.rule.hasRestore;
    var seen := KeyValues(Resolve(view, s), Names(p.steps[i].readKeys));
    FailureSteered(p, s, i, v.err, seen, 0, k, restorable, false, v.err, [], p.steps[i], true, Yes);
    assert Finish(p, a.state, i, c) == FailedStep(p, s, i, v, c);
    hide Visited, EvalFailure, Enter, Arrive, Passable, EndRewind, RejectRewind, RestoreFailed, StepFailed, Finish;
    assert DecideFailure(p, s, i, v, c) == EvalFailure(p, s, i, v.err, seen, c, 0, restorable, false, v.err, []);
  }

  lemma FailureMove(p: Pipeline, inputs: Values, a: Config, k: nat) returns (b: Config)
    requires Accepted(p) && Reached(p, inputs, a) && Sized(p) && Fits(p, a.state) && a.at < |p.steps|
    requires k < |p.failure[a.at]| && MayPass(p, a, k) && Forward(p.failure[a.at][k])
    ensures Reached(p, inputs, b) && Onward(a, b, Dest(p.failure[a.at][k], |p.steps|))
  {
    assert TablesOk(p);
    RuleFacts(p, a.at, true, k);
    hide Accepted, Reached, TablesOk, Finish, FailDone, Enter, Arrive, Fits, Onward, MayPass;
    var c, s := FailureBy(p, a, k);
    b := GoesOn(p, inputs, a, c);
    FailOnward(p, a, s, b);
  }

  lemma FailOnward(p: Pipeline, a: Config, s: FlowState, b: Config)
    requires Sized(p) && Fits(p, a.state) && a.at < |p.steps| && s == Enter(p, Arrive(a.state, a.at), a.at)
    requires b.state == FailDone(s, a.at).(before := b.state.before)
    ensures Onward(a, b, b.at)
  {
    FailDoneState(s, a.at);
    hide FailDone;
    assert SameRewind(Now(a), s.rewind);
  }

  // ---- rewinds ----

  /** The rewind rule has been taken from a, and runs in b. */
  predicate Taken(a: Config, b: Config, rule: Rule) {
    && b.at == rule.to && a.at < |a.state.visits| && b.state.visits == a.state.visits[a.at := a.state.visits[a.at] + 1]
    && b.state.rewind.Some? && b.state.rewind.value.rule == rule
  }

  /** Every write of step i is in the snapshot, and not only a default. */
  ghost predicate HoldsAll(p: Pipeline, i: nat, prev: Snapshot) {
    forall key :: Writes(p.steps, i, key) ==> key in prev.values && key !in prev.defaulted
  }

  lemma Rewinds(p: Pipeline, inputs: Values, a: Config, c: Choices) returns (b: Config)
    requires Reached(p, inputs, a) && Sized(p) && Fits(p, a.state) && a.at < |p.steps|
    requires var e := Finish(p, a.state, a.at, c); e.rewind.Some? && 0 <= e.rewind.value.to <= a.at && e.next == Goto(e.rewind.value.to)
    ensures var e := Finish(p, a.state, a.at, c);
      Reached(p, inputs, b) && b.at == e.rewind.value.to && b.state == StartRewind(p, e.mid, e.rewind.value, e.amended)
  {
    hide Finish, Reached, StartRewind;
    var e := Finish(p, a.state, a.at, c);
    b := Config(StartRewind(p, e.mid, e.rewind.value, e.amended), e.rewind.value.to);
    ReachedOn(p, inputs, a, c, b);
  }

  /** The rewind at position k of the step's rules on success, or on failure, is taken. */
  lemma TakeMove(p: Pipeline, inputs: Values, a: Config, onError: bool, k: nat) returns (b: Config)
    requires Accepted(p) && Reached(p, inputs, a) && Sized(p) && Fits(p, a.state) && a.at < |p.steps|
    requires var list := if onError then p.failure[a.at] else p.success[a.at];
      k < |list| && PlainRewind(list, k) && MayTake(p, a, list[k])
    ensures var list := if onError then p.failure[a.at] else p.success[a.at];
      Guarded(p, inputs) || (Reached(p, inputs, b) && Taken(a, b, list[k]) && (!onError ==> HoldsAll(p, a.at, b.state.rewind.value.prev)))
  {
    assert TablesOk(p);
    RuleFacts(p, a.at, onError, k);
    hide Accepted, Reached, TablesOk, GuardAt, Finish, Flow.Succeeded, Done, FailDone, Enter, Arrive, Fits, MayTake, Taken, HoldsAll, RulesOf;
    if onError {
      PlainPasses(p, a, k);
      hide MayPass, PlainRewind;
      var c, s := FailureBy(p, a, k);
      b := Rewinds(p, inputs, a, c);
      FailTaken(p, a, s, Finish(p, a.state, a.at, c), b);
    } else {
      var c, s, v := SuccessBy(p, a, k);
      if GuardAt(p, a, c) {
        b := a;
      } else {
        SuccessEnds(p, s, a.at, v, k);
        b := Rewinds(p, inputs, a, c);
        SuccessTaken(p, a, s, v, Finish(p, a.state, a.at, c), b);
      }
    }
  }

  lemma PlainPasses(p: Pipeline, a: Config, k: nat)
    requires Sized(p) && Fits(p, a.state) && a.at < |p.steps| && k <= |p.failure[a.at]| && Plain(p.failure[a.at], k)
    ensures MayPass(p, a, k)
  {
  }

  lemma FailTaken(p: Pipeline, a: Config, s: FlowState, e: Ending, b: Config)
    requires Sized(p) && Fits(p, a.state) && a.at < |p.steps| && s == Enter(p, Arrive(a.state, a.at), a.at)
    requires e.rewind.Some? && e.mid == FailDone(s, a.at) && b.at == e.rewind.value.to
    requires b.state == StartRewind(p, e.mid, e.rewind.value, e.amended)
    ensures Taken(a, b, e.rewind.value)
  {
    FailDoneState(s, a.at);
    hide FailDone, RestoreValues, RestoreDefaulted, SnapshotOf;
  }

  lemma SuccessTaken(p: Pipeline, a: Config, s: FlowState, v: StepVisit, e: Ending, b: Config)
    requires TablesOk(p) && Sized(p) && Fits(p, a.state) && a.at < |p.steps| && s == Enter(p, Arrive(a.state, a.at), a.at)
    requires e.rewind.Some? && e.mid == Done(s, a.at, v) && b.at == e.rewind.value.to && AllIn(p.steps[a.at], v.committed)
    requires e.rewind.value in p.rules && e.rewind.value.rewind && e.rewind.value.to <= e.rewind.value.from == a.at
    requires b.state == StartRewind(p, e.mid, e.rewind.value, e.amended)
    ensures Taken(a, b, e.rewind.value) && HoldsAll(p, a.at, b.state.rewind.value.prev)
  {
    DoneState(s, a.at, v);
    hide Done, RestoreValues, RestoreDefaulted, TablesOk;
    var rule := e.rewind.value;
    forall key | Writes(p.steps, a.at, key)
      ensures key in b.state.rewind.value.prev.values && key !in b.state.rewind.value.prev.defaulted
    {
      KeysOfRange(p, rule, key);
      var m :| 0 <= m < |p.steps[a.at].writeKeys| && p.steps[a.at].writeKeys[m].name == key;
      assert key in v.committed && WrittenIn(p.steps, SpanOf(rule), key);
    }
  }

  // ---- along the steps ----

  /** What every configuration runs come to meets. */
  lemma ReachedFacts(p: Pipeline, inputs: Values, a: Config)
    requires Accepted(p) && Reached(p, inputs, a)
    ensures Sized(p) && Fits(p, a.state) && a.at <= |p.steps|
    ensures Now(a).Some? ==>
      var rule := Now(a).value.rule; rule in p.rules && rule.rewind && 0 <= rule.to <= a.at <= rule.from < |p.steps|
  {
    var known := ReachedInv(p, inputs, a);
    if Now(a).Some? {
      var m :| 0 <= m < |p.rules| && p.rules[m] == Now(a).value.rule;
      assert RuleOk(p.rules[m], |p.steps|);
    }
  }

  lemma PlainMove(p: Pipeline, inputs: Values, a: Config, next: int) returns (b: Config)
    requires Accepted(p) && Reached(p, inputs, a) && PlainEdge(p, a.at, next)
    ensures Guarded(p, inputs) || (Reached(p, inputs, b) && Onward(a, b, next))
  {
    ReachedFacts(p, inputs, a);
    hide Accepted, Reached, Guarded, Onward, Fits;
    var i, n := a.at, |p.steps|;
    if k :| 0 <= k < |p.success[i]| && PlainRule(p.success[i], k, n, next) {
      b := SuccessMove(p, inputs, a, k);
    } else if next == i + 1 && Plain(p.success[i], |p.success[i]|) {
      b := SuccessMove(p, inputs, a, |p.success[i]|);
    } else {
      var k :| 0 <= k < |p.failure[i]| && PlainRule(p.failure[i], k, n, next);
      PlainPasses(p, a, k);
      b := FailureMove(p, inputs, a, k);
    }
  }

  /** b is reached from a by visits of steps up to to, in which the running rewind goes on. */
  ghost predicate Walked(a: Config, b: Config, to: int) {
    && b.at == to && |b.state.visits| == |a.state.visits| && SameRewind(Now(a), Now(b))
    && (forall t :: 0 <= t <= a.at && t < |a.state.visits| ==>
         b.state.visits[t] == a.state.visits[t] + if t == a.at < to then 1 else 0)
    && (a.state.rewind.None? ==> b.state.rewind.None? && KeepsWrites(a, b))
  }

  lemma {:induction false} Walks(p: Pipeline, inputs: Values, a: Config, to: int) returns (b: Config)
    requires Accepted(p) && Reached(p, inputs, a) && Leads(p, a.at, to)
    requires Now(a).Some? ==> to <= Now(a).value.rule.from
    ensures Guarded(p, inputs) || (Reached(p, inputs, b) && Walked(a, b, to))
    decreases if to > a.at then to - a.at else 0
  {
    hide Accepted, Reached, Guarded, PlainEdge, KeepsWrites;
    if a.at == to {
      b := a;
      SameKeeps(a);
    } else {
      var mid :| a.at < mid <= to && PlainEdge(p, a.at, mid) && Leads(p, mid, to);
      var m := PlainMove(p, inputs, a, mid);
      if Guarded(p, inputs) {
        b := a;
      } else {
        b := Walks(p, inputs, m, to);
        KeepsOn(a, m, b);
      }
    }
  }

  lemma SameKeeps(a: Config)
    ensures KeepsWrites(a, a)
  {
  }

  lemma KeepsOn(a: Config, m: Config, b: Config)
    ensures KeepsWrites(a, m) && KeepsWrites(m, b) ==> KeepsWrites(a, b)
  {
  }

  // ---- using up a target's visits ----

  /** The visits of a rewind's target once the visit from a has been counted. */
  function Count(a: Config, rule: Rule): int
    requires 0 <= rule.to < |a.state.visits|
  {
    a.state.visits[rule.to] + if a.at == rule.to then 1 else 0
  }

  lemma CountMeans(p: Pipeline, a: Config, rule: Rule)
    requires Accepted(p) && Sized(p) && Fits(p, a.state) && a.at < |p.steps| && rule in p.rules && rule.rewind
    ensures 0 <= rule.to < |p.steps|
    ensures MayTake(p, a, rule) <==> Count(a, rule) < p.maxVisits[rule.to]
    ensures Exhausted(p, Enter(p, Arrive(a.state, a.at), a.at), rule) <==> Count(a, rule) >= p.maxVisits[rule.to]
  {
    var m :| 0 <= m < |p.rules| && p.rules[m] == rule;
    assert RuleOk(p.rules[m], |p.steps|);
    assert p.rules[m].hasAmend ==> AmendsStep(p, p.rules[m]);
  }

  /** The step's rules on success or on failure. */
  function ListOf(p: Pipeline, i: nat, onError: bool): seq<Rule>
    requires Sized(p) && i < |p.steps|
  {
    if onError then p.failure[i] else p.success[i]
  }

  /** In b the rewind rule runs, its range has come to its From again, and what it would restore holds what From
      had written, if it had succeeded. */
  ghost predicate Back(p: Pipeline, b: Config, rule: Rule) {
    && b.at == rule.from && Now(b).Some? && Now(b).value.rule == rule
    && (!rule.onError ==> HoldsAll(p, b.at, Now(b).value.prev))
  }

  /** Once more around the range of a rewind. */
  lemma Loops(p: Pipeline, inputs: Values, a: Config, onError: bool, k: nat) returns (b: Config)
    requires Accepted(p) && Reached(p, inputs, a) && Sized(p) && Fits(p, a.state) && a.at < |p.steps|
    requires k < |ListOf(p, a.at, onError)| && PlainRewind(ListOf(p, a.at, onError), k)
    requires var rule := ListOf(p, a.at, onError)[k]; MayTake(p, a, rule) && Leads(p, rule.to, a.at)
    ensures var rule := ListOf(p, a.at, onError)[k];
      Guarded(p, inputs) || (
        && Reached(p, inputs, b) && Back(p, b, rule) && Fits(p, b.state)
        && 0 <= rule.to < |p.steps| && Count(b, rule) == Count(a, rule) + 1)
  {
    assert TablesOk(p);
    RuleFacts(p, a.at, onError, k);
    var rule := ListOf(p, a.at, onError)[k];
    hide Accepted, Reached, Guarded, TablesOk, HoldsAll, MayTake, PlainRewind, Leads, KeepsWrites, RulesOf;
    var m := TakeMove(p, inputs, a, onError, k);
    if Guarded(p, inputs) {
      b := a;
    } else {
      b := Walks(p, inputs, m, a.at);
      if !Guarded(p, inputs) {
        ReachedFacts(p, inputs, b);
      }
    }
  }

  /** Around the range until its target has used its visits. */
  lemma {:induction false} Spends(p: Pipeline, inputs: Values, a: Config, onError: bool, k: nat) returns (b: Config)
    requires Accepted(p) && Reached(p, inputs, a) && Sized(p) && Fits(p, a.state) && a.at < |p.steps|
    requires k < |ListOf(p, a.at, onError)| && PlainRewind(ListOf(p, a.at, onError), k)
    requires var rule := ListOf(p, a.at, onError)[k]; MayTake(p, a, rule) && Leads(p, rule.to, a.at)
    ensures var rule := ListOf(p, a.at, onError)[k];
      Guarded(p, inputs) || (
        && Reached(p, inputs, b) && Back(p, b, rule) && Fits(p, b.state)
        && 0 <= rule.to < |p.steps| && Count(b, rule) >= p.maxVisits[rule.to])
    decreases var rule := ListOf(p, a.at, onError)[k];
      if 0 <= rule.to < |p.steps| then p.maxVisits[rule.to] - Count(a, rule) else 0
  {
    assert TablesOk(p);
    RuleFacts(p, a.at, onError, k);
    var rule := ListOf(p, a.at, onError)[k];
    CountMeans(p, a, rule);
    hide Accepted, Reached, Guarded, TablesOk, HoldsAll, MayTake, PlainRewind, Leads, RulesOf, Back;
    b := Loops(p, inputs, a, onError, k);
    if !Guarded(p, inputs) && Count(b, rule) < p.maxVisits[rule.to] {
      BackAt(p, b, rule);
      CountMeans(p, b, rule);
      b := Spends(p, inputs, b, onError, k);
    }
  }

  lemma BackAt(p: Pipeline, b: Config, rule: Rule)
    requires Back(p, b, rule)
    ensures b.at == rule.from
  {
  }
}

/**
 Exactly which pipelines have a run that fails the merge guard: those whose tables have a reachable hazard.

 What steps and hooks answer is free, so the condition is one on the rules and MaxVisits alone. It can be computed
 before any run.
 */
module ExactHazards {
  import opened Basics
  import opened Pipelines
  import opened Flow
  import opened Runs
  import opened Invariant
  import opened Soundness
  import opened Iterations
  import opened RunTheorems
  import opened Leftovers
  import opened Termination
  import opened Reachability
  import opened Steering
  import opened Realizations
  import opened Arrivals
  import opened Traces

  // ---- what every configuration of a run meets ----

  /** The rewind rule is running, or its target has been visited. */
  predicate Entered(a: Config, rule: Rule) {
    && 0 <= rule.to < |a.state.visits|
    && (a.state.visits[rule.to] >= 1 || (a.state.rewind.Some? && a.state.rewind.value.rule.from == rule.from))
  }

  /** A run in a range whose target it has visited, or whose rewind runs, has come from the target. */
  ghost predicate FromTarget(p: Pipeline, a: Config) {
    forall rule :: rule in p.rules && rule.rewind && rule.to <= a.at <= rule.from && Entered(a, rule) ==> Leads(p, rule.to, a.at)
  }

  /** The running rewind is one the tables allow, from a step they call reachable. */
  ghost predicate AllowedRewind(p: Pipeline, a: Config) {
    a.state.rewind.Some? ==>
      var rule := a.state.rewind.value.rule; Reachable(p, rule.from) && exists k :: TakenAs(p, rule, k)
  }

  ghost predicate Traced(p: Pipeline, a: Config) {
    && (a.at < |p.steps| ==> Reachable(p, a.at))
    && AllowedRewind(p, a) && FromTarget(p, a)
  }

  /** An iteration from a, which ends as e, and what it leaves. */
  ghost predicate Iterated(p: Pipeline, a: Config, e: Ending, b: Config) {
    && Sized(p) && Fits(p, a.state) && a.at < |p.steps| && e.next == Goto(b.at) && GoesAs(p, a, e)
    && b.state.visits == a.state.visits[a.at := a.state.visits[a.at] + 1]
    && (if e.rewind.Some? then b.state.rewind.Some? && b.state.rewind.value.rule == e.rewind.value
        else b.at > a.at && (b.state.rewind.Some? ==> a.state.rewind.Some? && b.state.rewind.value.rule == a.state.rewind.value.rule))
  }

  lemma IteratesAs(p: Pipeline, known: Known, a: Config, c: Choices, b: Config)
    requires Accepted(p) && KnownOk(p, known) && SafeExits(p, known.free) && Inv(p, known, a.state, a.at) && Sized(p) && Steps(p, a, c, b)
    ensures a.at < |p.steps| && Fits(p, a.state) && Iterated(p, a, Finish(p, a.state, a.at, c), b)
  {
    hide Accepted, KnownOk, SafeExits, Inv, Finish, GoesAs, Iterate, Fits;
    IterationLeaves(p, known, a, c, b);
    EndsAs(p, known, a, c, b);
    FinishGoes(p, a, c);
  }

  lemma EndsAs(p: Pipeline, known: Known, a: Config, c: Choices, b: Config)
    requires Accepted(p) && KnownOk(p, known) && SafeExits(p, known.free) && Inv(p, known, a.state, a.at) && Sized(p) && Steps(p, a, c, b)
    ensures var e := Finish(p, a.state, a.at, c);
      && e.next == Goto(b.at)
      && (if e.rewind.Some? then b.state.rewind.Some? && b.state.rewind.value.rule == e.rewind.value
          else b.at > a.at && (b.state.rewind.Some? ==> a.state.rewind.Some? && b.state.rewind.value.rule == a.state.rewind.value.rule))
  {
    FinishOk(p, known, a.state, a.at, c);
    RewindLeft(p, known, a, c, b);
    hide Accepted, KnownOk, SafeExits, Inv, Finish, SnapshotSkipped, StartRewind, Visited, EndingOk;
    EndsWhere(p, known, Visited(p, a.state, a.at, c).0, a.at, Finish(p, a.state, a.at, c));
  }

  // ---- an iteration keeps it ----

  /** What the invariant says of targets ahead and of the running rewind. */
  ghost predicate Placed(p: Pipeline, a: Config) {
    && Sized(p) && Fits(p, a.state)
    && (forall rule :: rule in p.rules && rule.rewind && rule.to > a.at && rule.to < |p.steps| ==> a.state.visits[rule.to] == 0)
    && (a.state.rewind.Some? ==> var rule := a.state.rewind.value.rule; rule in p.rules && rule.rewind && rule.to <= a.at)
  }

  lemma InvPlaced(p: Pipeline, known: Known, a: Config)
    requires Accepted(p) && Inv(p, known, a.state, a.at)
    ensures Placed(p, a)
  {
    forall rule | rule in p.rules && rule.rewind && rule.to > a.at && rule.to < |p.steps| ensures a.state.visits[rule.to] == 0 {
      RewindBack(p, rule);
      var m :| 0 <= m < |p.rules| && p.rules[m] == rule;
      assert IsTarget(p.rules, rule.to);
    }
  }

  /** Inside a rewind's range, short of its From, only plain moves are made. */
  lemma InsidePlain(p: Pipeline, a: Config, e: Ending, b: Config, rule: Rule)
    requires Accepted(p) && Placed(p, a) && Iterated(p, a, e, b) && e.rewind.None?
    requires rule in p.rules && rule.rewind && rule.to <= a.at < b.at <= rule.from
    ensures PlainEdge(p, a.at, b.at)
  {
    hide Accepted, PlainEdge;
    if SpentAt(p, a, b.at) {
      var other :| other in p.rules && other.rewind && other.from == a.at && 0 <= other.to < |p.steps| && Count(a, other) >= p.maxVisits[other.to];
      RewindBack(p, other);
      MeetsAt(p, rule, other, a.at);
    } else if UndoneAt(p, a, b.at) {
      var other := Now(a).value.rule;
      RewindBack(p, other);
      MeetsAt(p, rule, other, a.at);
      GoesPast(p, other.from, b.at);
    }
  }

  lemma MeetsAt(p: Pipeline, rule: Rule, other: Rule, x: int)
    requires Accepted(p) && rule in p.rules && rule.rewind && other in p.rules && other.rewind
    requires rule.to <= x <= rule.from && other.to <= x <= other.from
    ensures other.to == rule.to && other.from == rule.from
  {
    RewindsMeet(p, rule, other);
  }

  lemma GoesPast(p: Pipeline, i: nat, next: int)
    requires Accepted(p) && i < |p.success| && i < |p.steps| && Continues(p.success[i], i, |p.steps|, next)
    ensures i < next
  {
    assert TablesOk(p);
    ContinuesForward(p, i, next);
  }

  lemma StepFromTarget(p: Pipeline, a: Config, e: Ending, b: Config)
    requires Accepted(p) && Placed(p, a) && Iterated(p, a, e, b) && FromTarget(p, a)
    ensures FromTarget(p, b)
  {
    hide Accepted, Leads, PlainEdge, SpentAt, UndoneAt, PlainRewind;
    forall rule | rule in p.rules && rule.rewind && rule.to <= b.at <= rule.from && Entered(b, rule) ensures Leads(p, rule.to, b.at) {
      RewindBack(p, rule);
      if e.rewind.Some? {
        AllowedIn(p, e.rewind.value);
        MeetsAt(p, rule, e.rewind.value, b.at);
        LeadsSelf(p, b.at);
      } else if a.at < rule.to {
        NotEntered(p, a, b, rule);
      } else {
        InsidePlain(p, a, e, b, rule);
        if a.at == rule.to {
          LeadsSelf(p, a.at);
        } else {
          assert Entered(a, rule);
        }
        LeadsOn(p, rule.to, a.at, b.at);
      }
    }
  }

  lemma LeadsSelf(p: Pipeline, x: int)
    ensures Leads(p, x, x)
  {
  }

  lemma AllowedIn(p: Pipeline, rule: Rule)
    requires Accepted(p) && exists k :: TakenAs(p, rule, k)
    ensures rule in p.rules && rule.rewind && 0 <= rule.to <= rule.from
  {
    assert TablesOk(p);
    var k :| TakenAs(p, rule, k);
    RuleFacts(p, rule.from, rule.onError, k);
    RewindBack(p, rule);
  }

  lemma NotEntered(p: Pipeline, a: Config, b: Config, rule: Rule)
    requires Accepted(p) && Placed(p, a) && a.at < |a.state.visits|
    requires b.state.visits == a.state.visits[a.at := a.state.visits[a.at] + 1]
    requires b.state.rewind.Some? ==> a.state.rewind.Some? && b.state.rewind.value.rule == a.state.rewind.value.rule
    requires rule in p.rules && rule.rewind && a.at < rule.to <= rule.from < |p.steps|
    ensures !Entered(b, rule)
  {
    if b.state.rewind.Some? && b.state.rewind.value.rule.from == rule.from {
      SameTarget(p, rule, b.state.rewind.value.rule);
    }
  }

  /** A run goes to a step the tables call reachable. */
  lemma StepReachable(p: Pipeline, a: Config, e: Ending, b: Config)
    requires Accepted(p) && Placed(p, a) && Iterated(p, a, e, b) && Traced(p, a)
    ensures b.at < |p.steps| ==> Reachable(p, b.at)
    ensures AllowedRewind(p, b)
  {
    hide Accepted, Leads, PlainEdge, SpentAt, UndoneAt, PlainRewind, RewindEdge, SpentEdge, UndoneEdge, Reachable, FromTarget;
    if e.rewind.Some? {
      RewindAllowed(p, a, e.rewind.value);
      MovesOn(p, a.at, b.at);
    } else if PlainEdge(p, a.at, b.at) {
      MovesOn(p, a.at, b.at);
    } else if SpentAt(p, a, b.at) {
      SpentAllowed(p, a, b.at);
      MovesOn(p, a.at, b.at);
    } else {
      var from := UndoneAllowed(p, a, b.at);
      MovesOn(p, from, b.at);
    }
  }

  lemma MovesOn(p: Pipeline, y: int, x: int)
    requires Accepted(p) && Reachable(p, y) && x >= 0 && Moves(p, y, x)
    ensures x < |p.steps| ==> Reachable(p, x)
  {
    hide Moves, Reachable;
    if x < |p.steps| {
      ReachOn(p, y, x);
    }
  }

  lemma RewindAllowed(p: Pipeline, a: Config, rule: Rule)
    requires rule.from == a.at && exists k :: TakenAs(p, rule, k)
    ensures RewindEdge(p, a.at, rule.to)
  {
  }

  lemma SpentAllowed(p: Pipeline, a: Config, next: int)
    requires Accepted(p) && Sized(p) && Fits(p, a.state) && a.at < |p.steps| && SpentAt(p, a, next) && FromTarget(p, a)
    ensures SpentEdge(p, a.at, next)
  {
    hide Accepted, Leads, OpenRule;
    var rule :| rule in p.rules && rule.rewind && rule.from == a.at && 0 <= rule.to < |p.steps| && Count(a, rule) >= p.maxVisits[rule.to];
    RewindBack(p, rule);
    if rule.to == a.at {
      LeadsSelf(p, a.at);
    } else {
      assert Entered(a, rule);
    }
    var m :| 0 <= m < |p.rules| && p.rules[m] == rule;
    assert Repeats(p, a.at);
  }

  lemma UndoneAllowed(p: Pipeline, a: Config, next: int) returns (from: nat)
    requires Accepted(p) && Placed(p, a) && a.at < |p.steps| && UndoneAt(p, a, next) && FromTarget(p, a) && AllowedRewind(p, a)
    ensures Reachable(p, from) && UndoneEdge(p, from, next)
  {
    hide Accepted, Leads, Asks, Continues, Reachable;
    var rule := Now(a).value.rule;
    from := rule.from;
    var k :| TakenAs(p, rule, k);
    RewindBack(p, rule);
    UndoneOnSuccess(p, rule);
    assert Entered(a, rule) && Leads(p, rule.to, a.at);
    assert Undoes(p, from, k);
  }

  lemma UndoneOnSuccess(p: Pipeline, rule: Rule)
    requires Accepted(p) && rule in p.rules && (rule.hasAccept || rule.hasRestore)
    ensures !rule.onError
  {
    AcceptNotOnError(p, rule);
  }

  lemma {:induction false} RunTraced(p: Pipeline, inputs: Values, run: seq<Config>, cs: seq<Choices>, k: nat)
    requires Accepted(p) && IsRun(p, inputs, run, cs) && k < |run|
    ensures Traced(p, run[k]) && Placed(p, run[k])
  {
    hide Accepted, KnownOk, SafeExits, Inv, Steps, Reachable, FromTarget, AllowedRewind, Placed, Iterated;
    var here := RunInvAll(p, inputs, run, cs, k);
    InvPlaced(p, here, run[k]);
    if k == 0 {
      StartTraced(p, inputs, run[0]);
    } else {
      RunTraced(p, inputs, run, cs, k - 1);
      var known := RunInvAll(p, inputs, run, cs, k - 1);
      assert Steps(p, run[k - 1], cs[k - 1], run[k - 1 + 1]);
      IteratesAs(p, known, run[k - 1], cs[k - 1], run[k]);
      var e := Finish(p, run[k - 1].state, run[k - 1].at, cs[k - 1]);
      StepFromTarget(p, run[k - 1], e, run[k]);
      StepReachable(p, run[k - 1], e, run[k]);
    }
  }

  lemma StartTraced(p: Pipeline, inputs: Values, a: Config)
    requires Accepted(p) && Starts(p, inputs, a)
    ensures Traced(p, a)
  {
    ReachFirst(p);
    forall rule | rule in p.rules && rule.rewind && rule.to <= a.at <= rule.from && Entered(a, rule) ensures Leads(p, rule.to, a.at) {
      RewindBack(p, rule);
      LeadsSelf(p, 0);
    }
  }

  // ---- from a key left behind to the tables ----

  /** The rewind a visit that fails undone ends, and the rule it goes on by. */
  lemma ExitTraced(p: Pipeline, known: Known, a: Config, c: Choices, b: Config, key: Name) returns (x: nat, y: nat)
    requires Accepted(p) && KnownOk(p, known) && SafeExits(p, known.free) && Sized(p) && Inv(p, known, a.state, a.at) && Steps(p, a, c, b)
    requires Traced(p, a) && LeavesKey(p, a, c, b, key)
    ensures x < |p.success[a.at]| && PlainRewind(p.success[a.at], x) && p.success[a.at][x].hasAccept
    ensures Leads(p, p.success[a.at][x].to, a.at)
    ensures y < |p.failure[a.at]| && Forward(p.failure[a.at][y]) && OpenUpTo(p.failure[a.at], y)
    ensures b.at == Dest(p.failure[a.at][y], |p.steps|)
  {
    var (s, v) := Visited(p, a.state, a.at, c);
    UndoneVisit(p, known, a, c);
    FinishOk(p, known, a.state, a.at, c);
    DecisionTraced(p, s, a.at, v, c);
    var e := Finish(p, a.state, a.at, c);
    hide Accepted, KnownOk, SafeExits, Inv, Finish, Ready, Visited, EndingOk, DecideFailure, FailedStep, FailsUndone, Traced,
      PlainRewind, Leads, OpenUpTo, SnapshotSkipped, StartRewind, Passable, Arrive;
    EndsWhere(p, known, s, a.at, e);
    TakesForward(p, known, s, a.at, v, c);
    y :| TakenAt(p, s, p.failure[a.at], y, DecideFailure(p, s, a.at, v, c).rule);
    PassableOpen(p, s, p.failure[a.at], y);
    x := AcceptTraced(p, a);
  }

  lemma UndoneVisit(p: Pipeline, known: Known, a: Config, c: Choices)
    requires Accepted(p) && KnownOk(p, known) && Sized(p) && Inv(p, known, a.state, a.at) && a.at < |p.steps| && UndoneFailure(p, a, c)
    ensures var (s, v) := Visited(p, a.state, a.at, c);
      && Ready(p, known, s, a.at) && FailsUndone(s, a.at, v) && Finish(p, a.state, a.at, c) == FailedStep(p, s, a.at, v, c)
      && Now(a).Some? && Now(a).value.rule.from == a.at && Now(a).value.rule.hasAccept
  {
    var (s, v) := Visited(p, a.state, a.at, c);
    StoreAllKeeps(Enter(p, Arrive(a.state, a.at), a.at), c.stores);
    assert SameRewind(Now(a), s.rewind);
    EnterReady(p, known, a.state, a.at, c);
    hide Accepted, KnownOk, Inv, Ready, Visited, FailedStep, StoreAll, Enter, Execute, AfterOk;
  }

  lemma AcceptTraced(p: Pipeline, a: Config) returns (x: nat)
    requires Accepted(p) && Sized(p) && Fits(p, a.state) && a.at < |p.steps| && Traced(p, a)
    requires Now(a).Some? && Now(a).value.rule.from == a.at && Now(a).value.rule.hasAccept
    ensures x < |p.success[a.at]| && PlainRewind(p.success[a.at], x) && p.success[a.at][x].hasAccept
    ensures Leads(p, p.success[a.at][x].to, a.at)
  {
    hide Leads, PlainRewind;
    var rule := Now(a).value.rule;
    AllowedIn(p, rule);
    UndoneOnSuccess(p, rule);
    RewindBack(p, rule);
    x :| TakenAs(p, rule, x);
    assert Entered(a, rule);
  }

  /** Past the exit, and until it has passed w, a run makes plain moves only. */
  lemma StepLeads(p: Pipeline, a: Config, e: Ending, b: Config, start: int, from: nat, w: nat, key: Name, rewind: Rule)
    requires Accepted(p) && Iterated(p, a, e, b) && a.at <= w
    requires key !in p.merges && from < w && Writes(p.steps, from, key) && Writes(p.steps, w, key)
    requires rewind in p.rules && rewind.rewind && rewind.from == from && from < a.at
    requires a.state.rewind.None? && Leads(p, start, a.at)
    ensures Leads(p, start, b.at)
  {
    hide Accepted, PlainEdge, Leads, PlainRewind, Writes;
    if e.rewind.Some? {
      AllowedIn(p, e.rewind.value);
      NoRewindBack(p, from, w, key, rewind, e.rewind.value);
    } else if SpentAt(p, a, b.at) {
      var other :| other in p.rules && other.rewind && other.from == a.at && 0 <= other.to < |p.steps| && Count(a, other) >= p.maxVisits[other.to];
      RewindBack(p, other);
      NoRewindBack(p, from, w, key, rewind, other);
    } else {
      assert PlainEdge(p, a.at, b.at);
      LeadsOn(p, start, a.at, b.at);
    }
  }

  lemma {:induction false} RunLeads(p: Pipeline, inputs: Values, run: seq<Config>, cs: seq<Choices>, m: nat, k: nat, from: nat, w: nat,
    key: Name, rewind: Rule)
    requires Accepted(p) && IsRun(p, inputs, run, cs) && m < k < |run|
    requires key !in p.merges && from < w && Writes(p.steps, from, key) && Writes(p.steps, w, key)
    requires rewind in p.rules && rewind.rewind && rewind.from == from
    requires StaysHeld(run[m + 1].state, run[m + 1].at, from, w, key)
    ensures run[k].at > w || Leads(p, run[m + 1].at, run[k].at)
    decreases k
  {
    hide Accepted, Starts, Steps, Inv, KnownOk, SafeExits, Leads, Iterated, Writes;
    if m + 1 == k {
      LeadsSelf(p, run[k].at);
    } else {
      var a, b := run[k - 1], run[k];
      RunLeads(p, inputs, run, cs, m, k - 1, from, w, key, rewind);
      RunStaysHeld(p, inputs, run, cs, m, k - 1, from, w, key, rewind);
      assert Steps(p, run[k - 1], cs[k - 1], run[k - 1 + 1]);
      var known := RunInvAll(p, inputs, run, cs, k - 1);
      StepStaysHeld(p, known, a, cs[k - 1], b, from, w, key, rewind);
      if a.at <= w {
        IteratesAs(p, known, a, cs[k - 1], b);
        StepLeads(p, a, Finish(p, a.state, a.at, cs[k - 1]), b, run[m + 1].at, from, w, key, rewind);
      }
    }
  }

  /** On every run a visit fails the merge guard only for a key that is a reachable hazard of the tables. */
  lemma GuardReachable(p: Pipeline, inputs: Values, run: seq<Config>, cs: seq<Choices>, k: nat, c: Choices, key: Name)
    requires Accepted(p) && IsRun(p, inputs, run, cs) && k < |run|
    requires run[k].at < |p.steps| && Fits(p, run[k].state)
    requires HoldsWrite(key) in VisitAt(p, run[k], c).err
    ensures ReachableHazard(p, key)
  {
    GuardTraced(p, inputs, run, cs, k, c, key);
    GuardWrites(p, run[k], c, key);
    hide Accepted, VisitAt, Starts, LeavesKey, Inv, KnownOk, SafeExits, Writes, Leads, Reachable, PlainRewind, OpenUpTo, StaysHeld;
    var m :| 0 <= m < k && LeftAt(p, run, cs, m, key);
    var f, w := run[m].at, run[k].at;
    LeftStays(p, inputs, run, cs, m, k, key);
    RunTraced(p, inputs, run, cs, m);
    assert Steps(p, run[m], cs[m], run[m + 1]);
    var known := RunInvAll(p, inputs, run, cs, m);
    var x, y := ExitTraced(p, known, run[m], cs[m], run[m + 1], key);
    var rewind := LeftUndone(p, known, run[m], cs[m], run[m + 1], key);
    LeftHolds(p, run[m + 1], f, w, key);
    RunLeads(p, inputs, run, cs, m, k, f, w, key, rewind);
    assert ReachableExit(p, f, x, y, w, key);
  }

  lemma LeftHolds(p: Pipeline, b: Config, f: nat, w: nat, key: Name)
    requires b.state.rewind.None? && Holds(b.state, key) && f < b.at
    ensures StaysHeld(b.state, b.at, f, w, key)
  {
  }

  // ---- the theorem ----

  lemma RunTo(p: Pipeline, inputs: Values, a: Config) returns (run: seq<Config>, cs: seq<Choices>)
    requires Reached(p, inputs, a)
    ensures IsRun(p, inputs, run, cs) && |run| == |cs| + 1 && run[|cs|] == a
  {
    run, cs :| IsRun(p, inputs, run, cs) && run[|cs|] == a;
  }

  /** Merge soundness, exactly. Whatever the inputs, some run of an accepted pipeline fails with "already holds a
      write and has no MergeRule" if and only if its tables have a reachable hazard. */
  lemma GuardedExactly(p: Pipeline, inputs: Values)
    requires Accepted(p) && InputsOk(p, inputs)
    ensures Guarded(p, inputs) <==> exists key :: ReachableHazard(p, key)
  {
    hide Accepted, IsRun, ReachableHazard, InputsOk, VisitAt;
    if Guarded(p, inputs) {
      var a, c :| Reached(p, inputs, a) && GuardAt(p, a, c);
      var key :| HoldsWrite(key) in VisitAt(p, a, c).err;
      var run, cs := RunTo(p, inputs, a);
      GuardReachable(p, inputs, run, cs, |cs|, c, key);
    }
    if key :| ReachableHazard(p, key) {
      HazardMade(p, inputs, key);
    }
  }

  /** A reachable hazard is a hazard. */
  lemma ReachableIsHazard(p: Pipeline, key: Name)
    requires Accepted(p) && ReachableHazard(p, key)
    ensures Hazard(p, key)
  {
    hide Accepted, ReachableExit, Hazard;
    var f, x, y, w :| 0 <= f < |p.steps| && 0 <= x < |p.success[f]| && 0 <= y < |p.failure[f]| && 0 <= w < |p.steps|
      && ReachableExit(p, f, x, y, w, key);
    ExitIsHazard(p, f, x, y, w, key);
  }

  lemma ExitIsHazard(p: Pipeline, f: nat, x: nat, y: nat, w: nat, key: Name)
    requires Accepted(p) && Sized(p) && f < |p.steps| && x < |p.success[f]| && y < |p.failure[f]|
    requires key !in p.merges && ReachableExit(p, f, x, y, w, key)
    ensures Hazard(p, key)
  {
    assert TablesOk(p);
    hide Accepted, TablesOk, Reachable, PlainEdge, Plain;
    RuleFacts(p, f, false, x);
    RuleFacts(p, f, true, y);
    var a :| 0 <= a < |p.rules| && p.rules[a] == p.success[f][x];
    var b :| 0 <= b < |p.rules| && p.rules[b] == p.failure[f][y];
    assert LeavesBehind(p, a, b, key);
  }
}

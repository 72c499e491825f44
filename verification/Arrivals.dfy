/** Every step the tables call reachable is one some run comes to, and every hazard they call reachable makes some
    run fail the merge guard. */
module Arrivals {
  import opened Basics
  import opened Pipelines
  import opened Flow
  import opened Runs
  import opened Invariant
  import opened Soundness
  import opened Iterations
  import opened RunTheorems
  import opened Leftovers
  import opened Termination
  import opened Reachability
  import opened Steering
  import opened Realizations
  import opened HazardRuns

  // ---- first arrivals ----

  /** The rewind rule has not been taken: its target has been visited at most once, and only by a run past it. */
  predicate NotYet(a: Config, rule: Rule) {
    && 0 <= rule.to < |a.state.visits| && a.state.visits[rule.to] <= (if a.at > rule.to then 1 else 0)
    && (a.state.rewind.Some? ==> a.state.rewind.value.rule.from != rule.from)
  }

  /** What an iteration does to the visits and the running rewind. */
  lemma IterationLeaves(p: Pipeline, known: Known, a: Config, c: Choices, b: Config)
    requires Accepted(p) && KnownOk(p, known) && SafeExits(p, known.free) && Inv(p, known, a.state, a.at) && Sized(p) && Steps(p, a, c, b)
    ensures a.at < |p.steps| == |a.state.visits| && b.state.visits == a.state.visits[a.at := a.state.visits[a.at] + 1]
    ensures b.at > a.at || exists rule :: rule in p.rules && rule.rewind && rule.from == a.at && rule.to == b.at
    ensures b.state.rewind.Some? ==>
      || (a.state.rewind.Some? && b.state.rewind.value.rule == a.state.rewind.value.rule)
      || b.state.rewind.value.rule.from == a.at
  {
    IterationEffect(p, known, a, c, b);
    FinishOk(p, known, a.state, a.at, c);
    EndsWhere(p, known, Visited(p, a.state, a.at, c).0, a.at, Finish(p, a.state, a.at, c));
    RewindLeft(p, known, a, c, b);
  }

  lemma RewindLeft(p: Pipeline, known: Known, a: Config, c: Choices, b: Config)
    requires Accepted(p) && KnownOk(p, known) && SafeExits(p, known.free) && Inv(p, known, a.state, a.at) && Sized(p) && Steps(p, a, c, b)
    requires EndingOk(p, known, Visited(p, a.state, a.at, c).0, a.at, Finish(p, a.state, a.at, c))
    ensures var e := Finish(p, a.state, a.at, c);
      if e.rewind.Some? then b.state.rewind.Some? && b.state.rewind.value.rule == e.rewind.value
      else b.state.rewind.Some? ==> a.state.rewind.Some? && b.state.rewind.value.rule == a.state.rewind.value.rule
  {
    StoreAllKeeps(Enter(p, Arrive(a.state, a.at), a.at), c.stores);
    var e := Finish(p, a.state, a.at, c);
    if e.next.Goto? {
      var s1 := if e.rewind.Some? then StartRewind(p, e.mid, e.rewind.value, e.amended) else e.mid;
      SkippedSame(p, s1, a.at + 1, Min(e.next.index, |p.steps|));
    }
    hide Accepted, Inv, SafeExits, Finish, SnapshotSkipped, Execute, StoreAll, ArrivesOk, PendingOk, RestoreValues, RestoreDefaulted;
  }

  lemma RewindsMeet(p: Pipeline, rule: Rule, other: Rule)
    requires Accepted(p) && rule in p.rules && rule.rewind && other in p.rules && other.rewind
    requires other.to <= rule.to <= other.from || rule.to <= other.to <= rule.from
    ensures other.to == rule.to && other.from == rule.from
  {
    var m :| 0 <= m < |p.rules| && p.rules[m] == rule;
    var k :| 0 <= k < |p.rules| && p.rules[k] == other;
    assert RuleOk(p.rules[m], |p.steps|) && RuleOk(p.rules[k], |p.steps|);
  }

  lemma StepNotYet(p: Pipeline, known: Known, a: Config, c: Choices, b: Config, rule: Rule)
    requires Accepted(p) && KnownOk(p, known) && SafeExits(p, known.free) && Inv(p, known, a.state, a.at) && Sized(p) && Steps(p, a, c, b)
    requires rule in p.rules && rule.rewind && a.at != rule.from && NotYet(a, rule)
    ensures NotYet(b, rule)
  {
    IterationLeaves(p, known, a, c, b);
    hide Accepted, KnownOk, SafeExits, Inv, Steps;
    if b.at <= a.at {
      var other :| other in p.rules && other.rewind && other.from == a.at && other.to == b.at;
      if other.to <= rule.to <= other.from {
        RewindsMeet(p, rule, other);
      }
    }
  }

  lemma {:induction false} RunNotYet(p: Pipeline, inputs: Values, run: seq<Config>, cs: seq<Choices>, k: nat, rule: Rule)
    requires Accepted(p) && IsRun(p, inputs, run, cs) && k < |run| && rule in p.rules && rule.rewind
    requires forall j :: 0 <= j < k ==> run[j].at != rule.from
    ensures NotYet(run[k], rule)
  {
    hide Accepted, KnownOk, SafeExits, Inv, Steps, NotYet;
    if k == 0 {
      StartNotYet(p, inputs, run[0], rule);
    } else {
      RunNotYet(p, inputs, run, cs, k - 1, rule);
      var known := RunInvAll(p, inputs, run, cs, k - 1);
      assert Steps(p, run[k - 1], cs[k - 1], run[k - 1 + 1]);
      StepNotYet(p, known, run[k - 1], cs[k - 1], run[k], rule);
    }
  }

  lemma StartNotYet(p: Pipeline, inputs: Values, a: Config, rule: Rule)
    requires Accepted(p) && Starts(p, inputs, a) && rule in p.rules && rule.rewind
    ensures NotYet(a, rule)
  {
    var m :| 0 <= m < |p.rules| && p.rules[m] == rule;
    assert RuleOk(p.rules[m], |p.steps|);
  }

  /** The first of the first k + 1 configurations at step i. */
  lemma {:induction false} FirstAt(run: seq<Config>, k: nat, i: nat) returns (first: nat)
    requires k < |run| && run[k].at == i
    ensures first <= k && run[first].at == i && forall j :: 0 <= j < first ==> run[j].at != i
  {
    if j :| 0 <= j < k && run[j].at == i {
      first := FirstAt(run, j, i);
    } else {
      first := k;
    }
  }

  /** Each rewind from the step a is at has a visit of its target left. */
  ghost predicate Fresh(p: Pipeline, a: Config) {
    && |a.state.visits| == |p.steps|
    && forall rule :: rule in p.rules && rule.rewind && rule.from == a.at ==> 0 <= rule.to < |p.steps| && Count(a, rule) <= 1
  }

  /** A step some run comes to is one some run comes to before any rewind from it. */
  lemma FirstArrival(p: Pipeline, inputs: Values, a: Config) returns (b: Config)
    requires Accepted(p) && Reached(p, inputs, a)
    ensures Reached(p, inputs, b) && b.at == a.at && Fresh(p, b)
  {
    hide Accepted, Steps, Starts;
    var run, cs :| IsRun(p, inputs, run, cs) && run[|cs|] == a;
    var k := FirstAt(run, |cs|, a.at);
    b := run[k];
    var run', cs' := run[..k + 1], cs[..k];
    assert IsRun(p, inputs, run', cs') && run'[|cs'|] == b by {
      forall m | 0 <= m < |cs'| ensures Steps(p, run'[m], cs'[m], run'[m + 1]) {
        assert Steps(p, run[m], cs[m], run[m + 1]);
      }
    }
    ReachedFacts(p, inputs, b);
    forall rule | rule in p.rules && rule.rewind && rule.from == b.at ensures 0 <= rule.to < |p.steps| && Count(b, rule) <= 1 {
      RunNotYet(p, inputs, run, cs, k, rule);
      RewindBack(p, rule);
    }
  }

  lemma RewindBack(p: Pipeline, rule: Rule)
    requires Accepted(p) && rule in p.rules && rule.rewind
    ensures 0 <= rule.to <= rule.from < |p.steps| == |p.maxVisits| && p.maxVisits[rule.to] >= 2
  {
    var m :| 0 <= m < |p.rules| && p.rules[m] == rule;
    assert RuleOk(p.rules[m], |p.steps|);
    assert IsTarget(p.rules, rule.to);
  }

  lemma FreshTakes(p: Pipeline, a: Config, rule: Rule)
    requires Accepted(p) && Sized(p) && Fits(p, a.state) && a.at < |p.steps| && Fresh(p, a)
    requires rule in p.rules && rule.rewind && rule.from == a.at
    ensures MayTake(p, a, rule)
  {
    RewindBack(p, rule);
    CountMeans(p, a, rule);
  }

  // ---- every move is made ----

  lemma RewindMade(p: Pipeline, inputs: Values, a: Config, next: int) returns (b: Config)
    requires Accepted(p) && Reached(p, inputs, a) && Fresh(p, a) && RewindEdge(p, a.at, next)
    ensures Guarded(p, inputs) || (Reached(p, inputs, b) && b.at == next)
  {
    ReachedFacts(p, inputs, a);
    assert TablesOk(p);
    var i := a.at;
    hide Accepted, Reached, Guarded, TablesOk, RulesOf, Fresh, PlainRewind, HoldsAll, Fits;
    if k :| 0 <= k < |p.success[i]| && PlainRewind(p.success[i], k) && p.success[i][k].to == next {
      b := FreshMove(p, inputs, a, false, k);
    } else {
      var k :| 0 <= k < |p.failure[i]| && PlainRewind(p.failure[i], k) && p.failure[i][k].to == next;
      b := FreshMove(p, inputs, a, true, k);
    }
  }

  lemma FreshRule(p: Pipeline, a: Config, onError: bool, k: nat)
    requires Accepted(p) && Sized(p) && Fits(p, a.state) && a.at < |p.steps| && Fresh(p, a)
    requires k < |ListOf(p, a.at, onError)| && PlainRewind(ListOf(p, a.at, onError), k)
    ensures var rule := ListOf(p, a.at, onError)[k];
      MayTake(p, a, rule) && rule in p.rules && rule.rewind && rule.from == a.at && rule.onError == onError
  {
    assert TablesOk(p);
    RuleFacts(p, a.at, onError, k);
    FreshTakes(p, a, ListOf(p, a.at, onError)[k]);
  }

  lemma FreshMove(p: Pipeline, inputs: Values, a: Config, onError: bool, k: nat) returns (b: Config)
    requires Accepted(p) && Reached(p, inputs, a) && Sized(p) && Fits(p, a.state) && a.at < |p.steps| && Fresh(p, a)
    requires k < |ListOf(p, a.at, onError)| && PlainRewind(ListOf(p, a.at, onError), k)
    ensures var rule := ListOf(p, a.at, onError)[k];
      Guarded(p, inputs) || (Reached(p, inputs, b) && b.at == rule.to && b.state.rewind.Some? && b.state.rewind.value.rule == rule)
  {
    FreshRule(p, a, onError, k);
    hide Accepted, Reached, Guarded, PlainRewind, HoldsAll, Fits, Fresh, MayTake;
    b := TakeMove(p, inputs, a, onError, k);
  }

  /** Once the target has used its visits, every rewind from the step may be passed over. */
  lemma SpentPasses(p: Pipeline, b: Config, rule: Rule, k: nat)
    requires Accepted(p) && Sized(p) && Fits(p, b.state) && b.at < |p.steps| && k <= |p.failure[b.at]|
    requires rule in p.rules && rule.rewind && rule.from == b.at && 0 <= rule.to < |p.steps|
    requires Count(b, rule) >= p.maxVisits[rule.to] && OpenUpTo(p.failure[b.at], k)
    ensures MayPass(p, b, k)
  {
    assert TablesOk(p);
    var list, s := p.failure[b.at], Enter(p, Arrive(b.state, b.at), b.at);
    forall m | 0 <= m < k && !list[m].hasWhen ensures list[m].rewind && Exhausted(p, s, list[m]) {
      RuleFacts(p, b.at, true, m);
      assert !Closing(list[m]);
      RewindBack(p, list[m]);
      RewindBack(p, rule);
      RewindsMeet(p, rule, list[m]);
      CountMeans(p, b, list[m]);
    }
  }

  /** The first rule of list without When. */
  lemma {:induction false} FirstPlain(list: seq<Rule>, k: nat) returns (u: nat)
    requires k <= |list| && !Plain(list, k)
    ensures u < k && !list[u].hasWhen && Plain(list, u)
  {
    u := 0;
    while list[u].hasWhen
      invariant u < k && Plain(list, u)
      decreases k - u
    {
      u := u + 1;
    }
  }

  lemma SpentMade(p: Pipeline, inputs: Values, a: Config, next: int) returns (b: Config)
    requires Accepted(p) && Reached(p, inputs, a) && Fresh(p, a) && SpentEdge(p, a.at, next)
    ensures Guarded(p, inputs) || (Reached(p, inputs, b) && b.at == next)
  {
    ReachedFacts(p, inputs, a);
    var list := p.failure[a.at];
    var k :| 0 <= k < |list| && OpenRule(list, k, |p.steps|, next);
    var m :| 0 <= m < |p.rules| && p.rules[m].rewind && p.rules[m].from == a.at && Leads(p, p.rules[m].to, a.at);
    hide Accepted, Reached, Guarded, Fresh, HoldsAll, Fits, Leads, MayTake, Plain;
    if Plain(list, k) {
      PlainPasses(p, a, k);
      b := FailureMove(p, inputs, a, k);
    } else {
      var u := FirstPlain(list, k);
      assert !Closing(list[u]);
      FreshRule(p, a, true, u);
      SameTarget(p, p.rules[m], list[u]);
      b := Spends(p, inputs, a, true, u);
      if !Guarded(p, inputs) {
        SpentPasses(p, b, list[u], k);
        b := FailureMove(p, inputs, b, k);
      }
    }
  }

  lemma SameTarget(p: Pipeline, rule: Rule, other: Rule)
    requires Accepted(p) && rule in p.rules && rule.rewind && other in p.rules && other.rewind && rule.from == other.from
    ensures rule.to == other.to
  {
    RewindBack(p, rule);
    RewindBack(p, other);
    RewindsMeet(p, rule, other);
  }

  /** The position of the rule a run that rewinds no further goes on by, or past the last. */
  lemma ContinuesAt(list: seq<Rule>, i: nat, n: nat, next: int) returns (k: nat)
    requires Continues(list, i, n, next)
    ensures k <= |list| && OpenUpTo(list, k) && NextBy(list, k, i, n) == next && (k < |list| ==> Forward(list[k]))
  {
    if j :| 0 <= j < |list| && Forward(list[j]) && OpenUpTo(list, j) && Dest(list[j], n) == next {
      k := j;
    } else {
      k := |list|;
    }
  }

  /** Where RestoreOnError is asked. */
  lemma AsksWhere(list: seq<Rule>, last: int) returns (j: nat)
    requires Asks(list, last)
    ensures j <= |list| && OpenUpTo(list, j)
    ensures j == last + 1 || (j < |list| && j < last && !list[j].fallback && (list[j].rewind ==> Plain(list, j)))
  {
    if 0 <= last + 1 <= |list| && OpenUpTo(list, last + 1) {
      j := last + 1;
    } else {
      j :| 0 <= j < |list| && AsksAt(list, j, last);
    }
  }

  lemma UndoneMade(p: Pipeline, inputs: Values, a: Config, next: int) returns (b: Config)
    requires Accepted(p) && Reached(p, inputs, a) && Fresh(p, a) && UndoneEdge(p, a.at, next)
    ensures Guarded(p, inputs) || (Reached(p, inputs, b) && b.at == next)
  {
    ReachedFacts(p, inputs, a);
    var list := p.success[a.at];
    var e :| 0 <= e < |list| && Undoes(p, a.at, e);
    var k := ContinuesAt(list, a.at, |p.steps|, next);
    FreshRule(p, a, false, e);
    RewindBack(p, list[e]);
    var rule := list[e];
    hide Accepted, Reached, Guarded, Fresh, HoldsAll, Fits, Leads, MayTake, PlainRewind, OpenUpTo, Asks;
    if rule.hasAccept && Leads(p, rule.to, a.at) {
      b := Loops(p, inputs, a, false, e);
      if !Guarded(p, inputs) {
        b := RejectMove(p, inputs, b, rule, k);
      }
    } else {
      var q :| 0 <= q <= a.at && Leads(p, rule.to, q) && Asks(p.failure[q], p.fallback[q]);
      if q == a.at {
        b := RestoreThere(p, inputs, a, e, k);
      } else {
        b := RestoreInside(p, inputs, a, e, k, q);
      }
    }
  }

  /** From has come back and is restored there, its target's visits used. */
  lemma RestoreThere(p: Pipeline, inputs: Values, a: Config, e: nat, k: nat) returns (b: Config)
    requires Accepted(p) && Reached(p, inputs, a) && Sized(p) && Fits(p, a.state) && a.at < |p.steps| && Fresh(p, a)
    requires e < |p.success[a.at]| && PlainRewind(p.success[a.at], e) && p.success[a.at][e].hasRestore
    requires Leads(p, p.success[a.at][e].to, a.at) && Asks(p.failure[a.at], p.fallback[a.at])
    requires k <= |p.success[a.at]| && OpenUpTo(p.success[a.at], k) && (k < |p.success[a.at]| ==> Forward(p.success[a.at][k]))
    ensures Guarded(p, inputs) || (Reached(p, inputs, b) && b.at == NextBy(p.success[a.at], k, a.at, |p.steps|))
  {
    FreshRule(p, a, false, e);
    var rule := p.success[a.at][e];
    var j := AsksWhere(p.failure[a.at], p.fallback[a.at]);
    hide Accepted, Reached, Guarded, Fresh, HoldsAll, Fits, Leads, MayTake, PlainRewind, OpenUpTo, Asks;
    b := Spends(p, inputs, a, false, e);
    if !Guarded(p, inputs) {
      SpentPasses(p, b, rule, j);
      b := RestoreMove(p, inputs, b, j, k);
    }
  }

  /** A step inside the range fails and is restored. */
  lemma RestoreInside(p: Pipeline, inputs: Values, a: Config, e: nat, k: nat, q: nat) returns (b: Config)
    requires Accepted(p) && Reached(p, inputs, a) && Sized(p) && Fits(p, a.state) && a.at < |p.steps| && Fresh(p, a)
    requires e < |p.success[a.at]| && PlainRewind(p.success[a.at], e) && p.success[a.at][e].hasRestore
    requires q < a.at && Leads(p, p.success[a.at][e].to, q) && Asks(p.failure[q], p.fallback[q])
    requires k <= |p.success[a.at]| && OpenUpTo(p.success[a.at], k) && (k < |p.success[a.at]| ==> Forward(p.success[a.at][k]))
    ensures Guarded(p, inputs) || (Reached(p, inputs, b) && b.at == NextBy(p.success[a.at], k, a.at, |p.steps|))
  {
    FreshRule(p, a, false, e);
    var rule := p.success[a.at][e];
    RewindBack(p, rule);
    var j := AsksWhere(p.failure[q], p.fallback[q]);
    hide Accepted, Reached, Guarded, Fresh, HoldsAll, Leads, MayTake, PlainRewind, OpenUpTo, Asks, KeepsWrites;
    var m := FreshMove(p, inputs, a, false, e);
    b := m;
    if !Guarded(p, inputs) {
      b := Walks(p, inputs, m, q);
      if !Guarded(p, inputs) {
        ReachedFacts(p, inputs, b);
        InsidePasses(p, b, rule, j);
        b := RestoreMove(p, inputs, b, j, k);
      }
    }
  }

  /** No rewind starts inside another's range. */
  lemma InsidePasses(p: Pipeline, b: Config, rule: Rule, k: nat)
    requires Accepted(p) && Sized(p) && Fits(p, b.state) && b.at < |p.steps| && k <= |p.failure[b.at]|
    requires rule in p.rules && rule.rewind && rule.to <= b.at < rule.from && OpenUpTo(p.failure[b.at], k)
    ensures MayPass(p, b, k)
  {
    assert TablesOk(p);
    var list := p.failure[b.at];
    forall m | 0 <= m < k ensures list[m].hasWhen {
      RuleFacts(p, b.at, true, m);
      assert !Closing(list[m]);
      if list[m].rewind {
        RewindInRange(p, rule, list[m]);
      }
    }
  }

  // ---- the theorem, from the tables to runs ----

  lemma MoveMade(p: Pipeline, inputs: Values, a: Config, next: int) returns (b: Config)
    requires Accepted(p) && Reached(p, inputs, a) && Fresh(p, a) && Moves(p, a.at, next)
    ensures Guarded(p, inputs) || (Reached(p, inputs, b) && b.at == next)
  {
    hide Accepted, Reached, Guarded, Fresh, PlainEdge, RewindEdge, SpentEdge, UndoneEdge;
    if PlainEdge(p, a.at, next) {
      b := PlainMove(p, inputs, a, next);
    } else if RewindEdge(p, a.at, next) {
      b := RewindMade(p, inputs, a, next);
    } else if SpentEdge(p, a.at, next) {
      b := SpentMade(p, inputs, a, next);
    } else {
      b := UndoneMade(p, inputs, a, next);
    }
  }

  lemma StartReached(p: Pipeline, inputs: Values) returns (a: Config)
    requires Accepted(p) && InputsOk(p, inputs)
    ensures Reached(p, inputs, a) && a.at == 0
  {
    a := Config(Start(p, inputs, map[], map[]), 0);
    assert Starts(p, inputs, a) && TablesOk(p);
    var run, cs: seq<Choices> := [a], [];
    assert IsRun(p, inputs, run, cs) && run[|cs|] == a;
  }

  /** A step of the n-th layer is one some run comes to. */
  lemma {:induction false} LayerMade(p: Pipeline, inputs: Values, n: nat, x: int) returns (a: Config)
    requires Accepted(p) && InputsOk(p, inputs) && x in Layer(p, n)
    ensures Guarded(p, inputs) || (Reached(p, inputs, a) && a.at == x)
  {
    hide Accepted, Reached, Guarded, Fresh, Moves, InputsOk;
    if n == 0 {
      a := StartReached(p, inputs);
    } else if x in Layer(p, n - 1) {
      a := LayerMade(p, inputs, n - 1, x);
    } else {
      var y :| y in Layer(p, n - 1) && 0 <= x < |p.steps| && Moves(p, y, x);
      a := LayerMade(p, inputs, n - 1, y);
      if !Guarded(p, inputs) {
        a := FirstArrival(p, inputs, a);
        a := MoveMade(p, inputs, a, x);
      }
    }
  }

  /** Each step the tables call reachable is one some run comes to, whatever its inputs, unless some run fails the
      merge guard. */
  lemma ReachableMade(p: Pipeline, inputs: Values, x: int)
    requires Accepted(p) && InputsOk(p, inputs) && Reachable(p, x)
    ensures Guarded(p, inputs) || exists a :: Reached(p, inputs, a) && a.at == x
  {
    hide Accepted, Reached, Guarded, Layer, InputsOk;
    var a := LayerMade(p, inputs, |p.steps|, x);
  }

  /** A hazard the tables call reachable makes some run fail the merge guard. */
  lemma HazardMade(p: Pipeline, inputs: Values, key: Name)
    requires Accepted(p) && InputsOk(p, inputs) && ReachableHazard(p, key)
    ensures Guarded(p, inputs)
  {
    hide Accepted, Reached, Guarded, ReachableExit, InputsOk, Fresh;
    var f, x, b, w :| 0 <= f < |p.steps| && 0 <= x < |p.success[f]| && 0 <= b < |p.failure[f]| && 0 <= w < |p.steps|
      && ReachableExit(p, f, x, b, w, key);
    if !Guarded(p, inputs) {
      ExitFrom(p, f, x, b, w, key);
      ReachableMade(p, inputs, f);
      var a :| Reached(p, inputs, a) && a.at == f;
      a := FirstArrival(p, inputs, a);
      ExitMade(p, inputs, a, x, b, w, key);
    }
  }

  lemma ExitFrom(p: Pipeline, f: nat, x: nat, b: nat, w: int, key: Name)
    requires Sized(p) && f < |p.steps| && x < |p.success[f]| && b < |p.failure[f]| && ReachableExit(p, f, x, b, w, key)
    ensures Reachable(p, f)
  {
  }

  lemma ExitMade(p: Pipeline, inputs: Values, a: Config, x: nat, k: nat, w: nat, key: Name)
    requires Accepted(p) && Reached(p, inputs, a) && Fresh(p, a) && Sized(p) && a.at < |p.steps| && key !in p.merges
    requires x < |p.success[a.at]| && k < |p.failure[a.at]| && w < |p.steps| && ReachableExit(p, a.at, x, k, w, key)
    ensures Guarded(p, inputs)
  {
    ReachedFacts(p, inputs, a);
    FreshRule(p, a, false, x);
    var rule := p.success[a.at][x];
    hide Accepted, Reached, Guarded, Reachable, Fresh, Leads, OpenUpTo, PlainRewind, HoldsAll, MayTake, Writes, Fits;
    var b := Spends(p, inputs, a, false, x);
    if !Guarded(p, inputs) {
      SpentPasses(p, b, rule, k);
      b := UndoneMove(p, inputs, b, rule, k);
      if !Guarded(p, inputs) {
        LeftGuarded(p, inputs, a.at, b, w, key);
      }
    }
  }

  lemma LeftGuarded(p: Pipeline, inputs: Values, f: nat, b: Config, w: nat, key: Name)
    requires Accepted(p) && Reached(p, inputs, b) && LeftHeld(p, f, b) && Writes(p.steps, f, key) && key !in p.merges
    requires Leads(p, b.at, w) && Writes(p.steps, w, key)
    ensures Guarded(p, inputs)
  {
    hide Accepted, Reached, Guarded, Leads, Writes;
    var d := Walks(p, inputs, b, w);
    if !Guarded(p, inputs) {
      ReachedFacts(p, inputs, d);
      assert Holds(b.state, key) && Holds(d.state, key);
      AtStep(p, w, key);
      HeldGuarded(p, inputs, d, key);
    }
  }

  lemma AtStep(p: Pipeline, w: int, key: Name)
    requires Writes(p.steps, w, key)
    ensures 0 <= w < |p.steps|
  {
  }
}

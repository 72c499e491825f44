/**
 Exactly when the merge guard fails.

 The source's key invariant is that while a key without a MergeRule holds a write the run is past its last
 writer. Module RunTheorems says for which pipelines and runs it holds; this one says which iterations break
 it, and that the guard fails for exactly the keys they leave behind.
 */
module Leftovers {
  import opened Basics
  import opened Pipelines
  import opened Flow
  import opened Runs
  import opened Invariant
  import opened Soundness
  import opened Iterations
  import opened RunTheorems

  // ---- leaving a key behind ----

  /** The iteration from a to b leaves a write of key behind: its visit fails undone, the run goes forward, and
      a step it may still visit writes key, which holds the write the failed step had made. */
  ghost predicate LeavesKey(p: Pipeline, a: Config, c: Choices, b: Config, key: Name)
    requires Sized(p) && Fits(p, a.state) && a.at < |p.steps|
  {
    && UndoneFailure(p, a, c) && a.at < b.at
    && key !in p.merges && Writes(p.steps, a.at, key)
    && key in b.state.values && key !in b.state.defaulted
    && exists w :: b.at <= w && Writes(p.steps, w, key)
  }

  /** An iteration keeps the invariant of every key it does not leave behind. */
  lemma StepKeepsOthers(p: Pipeline, known: Known, a: Config, c: Choices, b: Config)
    requires Accepted(p) && KnownOk(p, known) && Sized(p) && Inv(p, known, a.state, a.at) && Steps(p, a, c, b)
    requires forall key :: LeavesKey(p, a, c, b, key) ==> key in known.free
    ensures Inv(p, known, b.state, b.at)
  {
    var (s, visit) := Visited(p, a.state, a.at, c);
    var e := Finish(p, a.state, a.at, c);
    EnterReady(p, known, a.state, a.at, c);
    hide Accepted, KnownOk, Inv, Finish, Visited, LeavesKey, Ready, VisitOk;
    if FailsUndone(s, a.at, visit) && e.next.Goto? && e.rewind.None? {
      ExitLeaves(p, known, a, c, b);
    }
    IterateExitKeepsInv(p, known, a.state, a.at, c);
  }

  lemma ExitLeaves(p: Pipeline, known: Known, a: Config, c: Choices, b: Config)
    requires Accepted(p) && KnownOk(p, known) && Sized(p) && Inv(p, known, a.state, a.at) && Steps(p, a, c, b)
    requires forall key :: LeavesKey(p, a, c, b, key) ==> key in known.free
    requires UndoneFailure(p, a, c) && Finish(p, a.state, a.at, c).rewind.None?
    ensures var e := Finish(p, a.state, a.at, c); LeavesNone(p, known.free, SnapshotAll(e.mid), a.at, e.next.index)
  {
    assert p.merges <= known.free;
    ExitForward(p, known, a, c, b);
    hide Accepted, KnownOk, Inv, Finish, UndoneFailure, LeavesKey;
    var e := Finish(p, a.state, a.at, c);
    forall key, w | key in e.mid.values && key !in e.mid.defaulted && key !in p.merges && Writes(p.steps, a.at, key)
        && Writes(p.steps, w, key) && w >= e.next.index
      ensures key in known.free
    {
      LeavesIf(p, a, c, b, key, w);
    }
  }

  /** A visit that fails undone and goes on goes forward, from the state the iteration ends in. */
  lemma ExitForward(p: Pipeline, known: Known, a: Config, c: Choices, b: Config)
    requires Accepted(p) && KnownOk(p, known) && Sized(p) && Inv(p, known, a.state, a.at) && Steps(p, a, c, b)
    requires UndoneFailure(p, a, c) && Finish(p, a.state, a.at, c).rewind.None?
    ensures var e := Finish(p, a.state, a.at, c);
      && e.next == Goto(b.at) && a.at < b.at && e.mid.values == b.state.values && e.mid.defaulted == b.state.defaulted
  {
    var (s, visit) := Visited(p, a.state, a.at, c);
    EnterReady(p, known, a.state, a.at, c);
    var e := Finish(p, a.state, a.at, c);
    assert TablesOk(p) && e == FailedStep(p, s, a.at, visit, c) && FailsUndone(s, a.at, visit);
    assert e.next == Goto(b.at) && b.state == SnapshotSkipped(p, e.mid, a.at + 1, Min(e.next.index, |p.steps|));
    SkippedSame(p, e.mid, a.at + 1, Min(e.next.index, |p.steps|));
    hide Accepted, KnownOk, TablesOk, Inv, Visited, Finish, DecideFailure, FailedStep, RejectRewind, Ready, VisitOk, SnapshotSkipped, Iterate,
      FailsUndone;
    TakesForward(p, known, s, a.at, visit, c);
    GoesForward(p, DecideFailure(p, s, a.at, visit, c).rule);
  }

  lemma LeavesIf(p: Pipeline, a: Config, c: Choices, b: Config, key: Name, w: nat)
    requires Sized(p) && Fits(p, a.state) && a.at < |p.steps| && UndoneFailure(p, a, c) && a.at < b.at <= w
    requires key !in p.merges && Writes(p.steps, a.at, key) && Writes(p.steps, w, key)
    requires key in b.state.values && key !in b.state.defaulted
    ensures LeavesKey(p, a, c, b, key)
  {
  }

  lemma GoesForward(p: Pipeline, rule: Rule)
    requires TablesOk(p) && rule in p.rules && Forward(rule)
    ensures rule.from < Dest(rule, |p.steps|) <= |p.steps|
  {
    var m :| 0 <= m < |p.rules| && p.rules[m] == rule;
    assert RuleOk(p.rules[m], |p.steps|);
  }

  /** The key invariant of the source, that while a key without a MergeRule holds a write the run is past its
      last writer, is kept by exactly the iterations that leave no key behind. */
  lemma KeepsExactly(p: Pipeline, known: Known, a: Config, c: Choices, b: Config)
    requires Accepted(p) && KnownOk(p, known) && known.free == p.merges
    requires Sized(p) && Inv(p, known, a.state, a.at) && Steps(p, a, c, b)
    ensures Inv(p, known, b.state, b.at) <==> forall key :: !LeavesKey(p, a, c, b, key)
  {
    if forall key :: !LeavesKey(p, a, c, b, key) {
      StepKeepsOthers(p, known, a, c, b);
    }
  }

  /** Iteration m of the run leaves key behind. */
  ghost predicate LeftAt(p: Pipeline, run: seq<Config>, cs: seq<Choices>, m: int, key: Name) {
    && 0 <= m < |cs| && |run| == |cs| + 1
    && Sized(p) && Fits(p, run[m].state) && run[m].at < |p.steps|
    && LeavesKey(p, run[m], cs[m], run[m + 1], key)
  }

  lemma {:induction false} RunKeepsOthers(p: Pipeline, known: Known, inputs: Values, run: seq<Config>, cs: seq<Choices>, k: nat)
    requires Accepted(p) && KnownOk(p, known) && IsRun(p, inputs, run, cs) && k < |run|
    requires forall m, key :: 0 <= m < k && LeftAt(p, run, cs, m, key) ==> key in known.free
    ensures Inv(p, known, run[k].state, run[k].at)
  {
    hide Accepted, KnownOk, Inv, Starts, LeavesKey;
    if k == 0 {
      StartInv(p, known, inputs, run[0]);
    } else {
      RunKeepsOthers(p, known, inputs, run, cs, k - 1);
      assert Steps(p, run[k - 1], cs[k - 1], run[k - 1 + 1]);
      forall key | LeavesKey(p, run[k - 1], cs[k - 1], run[k], key) ensures key in known.free {
        assert LeftAt(p, run, cs, k - 1, key);
      }
      StepKeepsOthers(p, known, run[k - 1], cs[k - 1], run[k]);
    }
  }

  /** On every run a visit fails the merge guard only for a key an earlier iteration has left behind. */
  lemma GuardTraced(p: Pipeline, inputs: Values, run: seq<Config>, cs: seq<Choices>, k: nat, c: Choices, key: Name)
    requires Accepted(p) && IsRun(p, inputs, run, cs) && k < |run|
    requires run[k].at < |p.steps| && Fits(p, run[k].state)
    requires HoldsWrite(key) in VisitAt(p, run[k], c).err
    ensures exists m :: 0 <= m < k && LeftAt(p, run, cs, m, key)
  {
    var types :| Typed(p, types);
    var left := set name | name in AllWritten(p.steps) && exists m :: 0 <= m < k && LeftAt(p, run, cs, m, name);
    var known := Known(types, p.merges + left);
    forall m, name | 0 <= m < k && LeftAt(p, run, cs, m, name) ensures name in known.free {
      WrittenIsAll(p.steps, run[m].at, name);
    }
    hide Accepted, Inv, LeftAt, VisitAt;
    RunKeepsOthers(p, known, inputs, run, cs, k);
    GuardNeedsFree(p, known, run[k], c, key);
  }

  // ---- when the guard comes up ----

  /** The merges of node's writes before the j-th succeed with their keys' types. */
  predicate MergesBefore(p: Pipeline, s: FlowState, node: StepNode, writes: Values, c: Choices, j: nat)
    requires j <= |node.writeKeys|
  {
    forall i :: 0 <= i < j && node.writeKeys[i].name in writes && Holds(s, node.writeKeys[i].name) ==>
      MergeSucceeds(p, s, node.writeKeys[i], writes, c)
  }

  predicate MergeSucceeds(p: Pipeline, s: FlowState, key: KeyRef, writes: Values, c: Choices)
    requires key.name in writes && key.name in s.values
  {
    key.name in p.merges && var merged := c.merge(key.name, s.values[key.name], writes[key.name]); merged.Ok? && merged.value.typ == key.typ
  }

  /** The visit from b sets key, its step's j-th write, and nothing goes wrong before key is merged. */
  predicate ComesTo(p: Pipeline, b: Config, c: Choices, j: nat, key: Name)
    requires b.at < |p.steps|
  {
    var s, node := Arrive(b.state, b.at), p.steps[b.at];
    && c.outcome.Returns? && WritesOk(node, Resolve(AmendedView(s, b.at), s), c.outcome.writes, c.outcome.preserved)
    && j < |node.writeKeys| && node.writeKeys[j].name == key && key in c.outcome.writes
    && MergesBefore(p, b.state, node, c.outcome.writes, c, j)
  }

  /** The merge guard fails for key exactly when it comes to key, which holds a write and has no MergeRule. */
  lemma {:induction false} MergeExactly(
    p: Pipeline, s: FlowState, node: StepNode, writes: Values, c: Choices, j: nat, committed: Values, k: nat)
    requires DistinctKeys(node.writeKeys) && j <= k < |node.writeKeys|
    ensures var key := node.writeKeys[k].name;
      var r := MergeFrom(p, s, node, writes, c, j, committed);
      (r.Err? && HoldsWrite(key) in r.error) <==>
        && key in writes && Holds(s, key) && key !in p.merges
        && forall i :: j <= i < k && node.writeKeys[i].name in writes && Holds(s, node.writeKeys[i].name) ==>
          MergeSucceeds(p, s, node.writeKeys[i], writes, c)
    decreases k - j
  {
    var name := node.writeKeys[j].name;
    if j == k {
      if name in writes && (!Holds(s, name) || name in p.merges) {
        NotAgain(p, s, node, writes, c, j, committed);
      } else if name !in writes {
        NotAgain(p, s, node, writes, c, j, committed);
      }
    } else if name !in writes {
      MergeExactly(p, s, node, writes, c, j + 1, committed, k);
    } else if !Holds(s, name) {
      MergeExactly(p, s, node, writes, c, j + 1, committed[name := writes[name]], k);
    } else if MergeSucceeds(p, s, node.writeKeys[j], writes, c) {
      MergeExactly(p, s, node, writes, c, j + 1, committed[name := c.merge(name, s.values[name], writes[name]).value], k);
    } else {
      assert node.writeKeys[k].name != name;
      assert MergeFrom(p, s, node, writes, c, j, committed).Err?;
    }
  }

  /** A key that does not fail the guard at its own merge does not at a later one. */
  lemma NotAgain(p: Pipeline, s: FlowState, node: StepNode, writes: Values, c: Choices, j: nat, committed: Values)
    requires DistinctKeys(node.writeKeys) && j < |node.writeKeys|
    requires node.writeKeys[j].name !in writes || !Holds(s, node.writeKeys[j].name) || node.writeKeys[j].name in p.merges
    ensures var r := MergeFrom(p, s, node, writes, c, j, committed);
      r.Err? ==> HoldsWrite(node.writeKeys[j].name) !in r.error
  {
    var key := node.writeKeys[j].name;
    if key in writes && !Holds(s, key) {
      GuardFails(p, s, node, writes, c, j + 1, committed[key := writes[key]], key);
    } else if key in writes {
      match c.merge(key, s.values[key], writes[key])
      case Err(_) =>
      case Ok(merged) => GuardFails(p, s, node, writes, c, j + 1, committed[key := merged], key);
    } else {
      NotSet(p, s, node, writes, c, j + 1, committed, key);
    }
  }

  lemma {:induction false} NotSet(p: Pipeline, s: FlowState, node: StepNode, writes: Values, c: Choices, j: nat, committed: Values, key: Name)
    requires j <= |node.writeKeys| && key !in writes
    ensures var r := MergeFrom(p, s, node, writes, c, j, committed); r.Err? ==> HoldsWrite(key) !in r.error
    decreases |node.writeKeys| - j
  {
    if j < |node.writeKeys| {
      var name := node.writeKeys[j].name;
      if name !in writes {
        NotSet(p, s, node, writes, c, j + 1, committed, key);
      } else if !Holds(s, name) {
        NotSet(p, s, node, writes, c, j + 1, committed[name := writes[name]], key);
      } else if name in p.merges {
        match c.merge(name, s.values[name], writes[name])
        case Err(_) =>
        case Ok(merged) => NotSet(p, s, node, writes, c, j + 1, committed[name := merged], key);
      }
    }
  }

  /** A visit is made in the state it arrives in. */
  lemma ArrivesWith(p: Pipeline, b: Config, d: Choices)
    requires Sized(p) && Fits(p, b.state) && b.at < |p.steps|
    ensures var s := Visited(p, b.state, b.at, d).0; s.values == b.state.values && s.defaulted == b.state.defaulted
  {
    StoreAllKeeps(Enter(p, Arrive(b.state, b.at), b.at), d.stores);
  }

  /** A visit fails the guard for key exactly when it comes to it and key holds a write and has no MergeRule. */
  lemma VisitExactly(p: Pipeline, b: Config, c: Choices, k: nat)
    requires Accepted(p) && Sized(p) && Fits(p, b.state) && b.at < |p.steps| && k < |p.steps[b.at].writeKeys|
    ensures var key := p.steps[b.at].writeKeys[k].name;
      HoldsWrite(key) in VisitAt(p, b, c).err <==> ComesTo(p, b, c, k, key) && Holds(b.state, key) && key !in p.merges
  {
    var node := p.steps[b.at];
    var key := node.writeKeys[k].name;
    ArrivesWith(p, b, c);
    var s := Visited(p, b.state, b.at, c).0;
    var arrived := Arrive(b.state, b.at);
    var view := AmendedView(arrived, b.at);
    SeesSame(p, b, c);
    assert DistinctKeys(node.writeKeys);
    assert VisitAt(p, b, c) == Execute(p, s, b.at, view, c);
    hide Accepted, Visited, Arrive, Enter, MergeFrom, Decide, WritesOk, DistinctKeys, StoreAll, VisitAt;
    if c.outcome.Returns? && WritesOk(node, Resolve(view, arrived), c.outcome.writes, c.outcome.preserved) {
      MergeExactly(p, s, node, c.outcome.writes, c, 0, map[], k);
      match MergeWrites(p, s, node, c.outcome.writes, c)
      case Err(_) =>
      case Ok(committed) => DecideErrs(p, s, b.at, view, c.outcome.writes, committed, c.outcome.staged, c, key);
    }
  }

  lemma SeesSame(p: Pipeline, b: Config, c: Choices)
    requires Sized(p) && Fits(p, b.state) && b.at < |p.steps|
    ensures var s, arrived := Visited(p, b.state, b.at, c).0, Arrive(b.state, b.at);
      Resolve(AmendedView(arrived, b.at), s) == Resolve(AmendedView(arrived, b.at), arrived)
  {
    ArrivesWith(p, b, c);
  }

  // ---- a key left behind stays ----

  /** After an exit from step from that leaves a write of key behind, no rewind goes back to w, another writer
      of key, or before it. */
  lemma NoRewindBack(p: Pipeline, from: nat, w: nat, key: Name, rewind: Rule, rule: Rule)
    requires Accepted(p) && key !in p.merges && from < w && Writes(p.steps, from, key) && Writes(p.steps, w, key)
    requires rewind in p.rules && rewind.rewind && rewind.from == from
    requires rule in p.rules && rule.rewind && rule.from > from
    ensures rule.to > w
  {
    var a :| 0 <= a < |p.rules| && p.rules[a] == rewind;
    var b :| 0 <= b < |p.rules| && p.rules[b] == rule;
    assert RuleOk(p.rules[a], |p.steps|) && RuleOk(p.rules[b], |p.steps|);
    assert from < rule.to;
    if rule.to <= w {
      assert IsTarget(p.rules, rule.to);
      assert MayCommitBoth(p, from, w);
    }
  }

  /** The run is past step from, and as long as it has not passed w it is in no rewind and key holds a write. */
  ghost predicate StaysHeld(s: FlowState, at: int, from: nat, w: nat, key: Name) {
    from < at && (at <= w ==> s.rewind.None? && Holds(s, key))
  }

  /** An iteration in no rewind that starts none keeps every write. */
  lemma WritesStay(p: Pipeline, s: FlowState, i: nat, c: Choices, key: Name)
    requires Sized(p) && Fits(p, s) && i < |p.steps| && s.rewind.None? && Holds(s, key)
    requires Finish(p, s, i, c).rewind.None? && Finish(p, s, i, c).next.Goto?
    ensures var r := Iterate(p, s, i, c).0; r.rewind.None? && Holds(r, key)
  {
    var (s2, visit) := Visited(p, s, i, c);
    StoreAllKeeps(Enter(p, Arrive(s, i), i), c.stores);
    assert s2.rewind.None? && Holds(s2, key);
    var e := Finish(p, s, i, c);
    hide Visited, FailedStep, Flow.Succeeded, SnapshotSkipped, Execute, StoreAll;
    if visit.err != [] {
      FailureStays(p, s2, i, visit, c);
    } else {
      SuccessStays(p, s2, i, visit, key);
    }
    SkippedSame(p, e.mid, i + 1, Min(e.next.index, |p.steps|));
  }

  lemma FailureStays(p: Pipeline, s: FlowState, i: nat, visit: StepVisit, c: Choices)
    requires Sized(p) && Fits(p, s) && i < |p.steps| && s.rewind.None?
    ensures FailedStep(p, s, i, visit, c).mid == s
  {
    hide DecideFailure, StepFailed, RestoreFailed, RejectRewind, EndRewind;
  }

  lemma SuccessStays(p: Pipeline, s: FlowState, i: nat, visit: StepVisit, key: Name)
    requires Sized(p) && Fits(p, s) && i < |p.steps| && s.rewind.None? && Holds(s, key)
    ensures var mid := Flow.Succeeded(p, s, i, visit).mid; mid.rewind.None? && Holds(mid, key)
  {
    hide StepFailed, RejectRewind, EndRewind;
  }

  /** An iteration that starts a rewind goes to its target, one of its step's, and one that does not goes on. */
  lemma EndsWhere(p: Pipeline, known: Known, s: FlowState, i: nat, e: Ending)
    requires Accepted(p) && i < |p.success| == |p.steps| == |p.maxVisits| == |s.visits| && EndingOk(p, known, s, i, e) && e.next.Goto?
    ensures e.rewind.None? ==> i < e.next.index
    ensures e.rewind.Some? ==>
      var rule := e.rewind.value; rule in p.rules && rule.rewind && rule.from == i && e.next.index == rule.to <= i
  {
    if e.rewind.Some? {
      var k :| 0 <= k < |p.rules| && p.rules[k] == e.rewind.value;
      assert RuleOk(p.rules[k], |p.steps|);
    }
  }

  /** One iteration keeps it. */
  lemma StepStaysHeld(p: Pipeline, known: Known, a: Config, c: Choices, b: Config, from: nat, w: nat, key: Name, rewind: Rule)
    requires Accepted(p) && KnownOk(p, known) && SafeExits(p, known.free) && Sized(p) && Inv(p, known, a.state, a.at) && Steps(p, a, c, b)
    requires key !in p.merges && from < w && Writes(p.steps, from, key) && Writes(p.steps, w, key)
    requires rewind in p.rules && rewind.rewind && rewind.from == from
    requires StaysHeld(a.state, a.at, from, w, key)
    ensures StaysHeld(b.state, b.at, from, w, key) && (a.at > w ==> b.at > w)
  {
    FinishOk(p, known, a.state, a.at, c);
    var e := Finish(p, a.state, a.at, c);
    EndsWhere(p, known, Visited(p, a.state, a.at, c).0, a.at, e);
    hide Accepted, KnownOk, SafeExits, Inv, Finish, EndingOk, StartRewind, SnapshotSkipped;
    if e.rewind.Some? {
      NoRewindBack(p, from, w, key, rewind, e.rewind.value);
    } else if a.at <= w {
      WritesStay(p, a.state, a.at, c, key);
    }
  }

  lemma {:induction false} RunStaysHeld(p: Pipeline, inputs: Values, run: seq<Config>, cs: seq<Choices>, m: nat, k: nat, from: nat, w: nat,
    key: Name, rewind: Rule)
    requires Accepted(p) && IsRun(p, inputs, run, cs) && m < k < |run|
    requires key !in p.merges && from < w && Writes(p.steps, from, key) && Writes(p.steps, w, key)
    requires rewind in p.rules && rewind.rewind && rewind.from == from
    requires StaysHeld(run[m + 1].state, run[m + 1].at, from, w, key)
    ensures StaysHeld(run[k].state, run[k].at, from, w, key)
    decreases k
  {
    hide Accepted, Starts, Inv, StaysHeld, KnownOk, SafeExits, Writes, Steps;
    if m + 1 < k {
      RunStaysHeld(p, inputs, run, cs, m, k - 1, from, w, key, rewind);
      assert Steps(p, run[k - 1], cs[k - 1], run[k - 1 + 1]);
      var known := RunInvAll(p, inputs, run, cs, k - 1);
      StepStaysHeld(p, known, run[k - 1], cs[k - 1], run[k], from, w, key, rewind);
    }
  }

  /** A key an iteration has left behind still holds its write whenever the run comes to a writer of it. */
  lemma LeftStays(p: Pipeline, inputs: Values, run: seq<Config>, cs: seq<Choices>, m: nat, k: nat, key: Name)
    requires Accepted(p) && IsRun(p, inputs, run, cs) && m < k < |run| && LeftAt(p, run, cs, m, key)
    requires Writes(p.steps, run[k].at, key)
    ensures run[m].at < run[k].at && Holds(run[k].state, key) && key !in p.merges
  {
    var known := RunInvAll(p, inputs, run, cs, m);
    var a, b := run[m], run[m + 1];
    assert Steps(p, run[m], cs[m], run[m + 1]);
    var rewind := LeftUndone(p, known, a, cs[m], b, key);
    var from := a.at;
    hide Accepted, Starts, Inv, KnownOk, SafeExits, LeftAt, LeavesKey;
    var w := run[k].at;
    if w <= from {
      var later :| b.at <= later && Writes(p.steps, later, key);
      RunStaysHeld(p, inputs, run, cs, m, k, from, later, key, rewind);
    } else {
      RunStaysHeld(p, inputs, run, cs, m, k, from, w, key, rewind);
    }
  }

  /** What an iteration that leaves a key behind ends: a rewind from its step, and the run is in none then. */
  lemma LeftUndone(p: Pipeline, known: Known, a: Config, c: Choices, b: Config, key: Name) returns (rewind: Rule)
    requires Accepted(p) && KnownOk(p, known) && SafeExits(p, known.free) && Sized(p) && Inv(p, known, a.state, a.at) && Steps(p, a, c, b)
    requires LeavesKey(p, a, c, b, key)
    ensures rewind in p.rules && rewind.rewind && rewind.from == a.at
    ensures b.state.rewind.None? && Holds(b.state, key) && a.at < b.at && key !in p.merges && Writes(p.steps, a.at, key)
    ensures exists w :: b.at <= w && Writes(p.steps, w, key)
  {
    var (s, visit) := Visited(p, a.state, a.at, c);
    EnterReady(p, known, a.state, a.at, c);
    rewind := s.rewind.value.rule;
    FinishOk(p, known, a.state, a.at, c);
    var e := Finish(p, a.state, a.at, c);
    hide Accepted, KnownOk, SafeExits, Inv, EndingOk, VisitOk, DecideFailure, FailedStep, SnapshotSkipped, StartRewind, Visited, Ready,
      RestoreValues, RestoreDefaulted, EndRewind;
    EndsWhere(p, known, s, a.at, e);
    TakesForward(p, known, s, a.at, visit, c);
    SkippedSame(p, e.mid, a.at + 1, Min(e.next.index, |p.steps|));
  }

  /** Exactly when the guard fails on a run: a visit fails it for its step's k-th write if and only if it comes to
      that write and an earlier iteration has left the key behind. */
  lemma GuardOnRun(p: Pipeline, inputs: Values, run: seq<Config>, cs: seq<Choices>, n: nat, c: Choices, k: nat)
    requires Accepted(p) && IsRun(p, inputs, run, cs) && n < |run|
    requires run[n].at < |p.steps| && Fits(p, run[n].state) && k < |p.steps[run[n].at].writeKeys|
    ensures var key := p.steps[run[n].at].writeKeys[k].name;
      HoldsWrite(key) in VisitAt(p, run[n], c).err
      <==> ComesTo(p, run[n], c, k, key) && exists m :: 0 <= m < n && LeftAt(p, run, cs, m, key)
  {
    var key := p.steps[run[n].at].writeKeys[k].name;
    VisitExactly(p, run[n], c, k);
    assert Writes(p.steps, run[n].at, key);
    hide Accepted, LeftAt, VisitAt, ComesTo, Starts, Writes;
    if HoldsWrite(key) in VisitAt(p, run[n], c).err {
      GuardTraced(p, inputs, run, cs, n, c, key);
    }
    if m :| 0 <= m < n && LeftAt(p, run, cs, m, key) {
      LeftStays(p, inputs, run, cs, m, n, key);
    }
  }

  lemma GuardWrites(p: Pipeline, b: Config, c: Choices, key: Name)
    requires Sized(p) && Fits(p, b.state) && b.at < |p.steps| && HoldsWrite(key) in VisitAt(p, b, c).err
    ensures Writes(p.steps, b.at, key)
  {
    var s := Visited(p, b.state, b.at, c).0;
    VisitGuard(p, s, b.at, AmendedView(Arrive(b.state, b.at), b.at), c, key);
  }
}

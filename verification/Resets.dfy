/**
 A rewind resets its range: each key the range writes is again what it was when the run last came to the target.
 Module Rejection has the way back.
 */
module Resets {
  import opened Basics
  import opened Pipelines
  import opened Flow
  import opened Runs
  import opened Invariant
  import opened Soundness
  import opened Iterations
  import opened RunTheorems
  import opened Rejection
  import opened Leftovers
  import opened Termination
  import opened Effects

  /** At moment j the run comes to step t: it is to visit it, or has just passed over it. */
  predicate Meets(run: seq<Config>, j: int, t: int) {
    0 <= j < |run| && (run[j].at == t || (j > 0 && run[j - 1].at < t < run[j].at))
  }

  /** Moment j is the last up to m at which the run comes to step t. */
  predicate LastMet(run: seq<Config>, j: int, m: int, t: int) {
    j <= m && Meets(run, j, t) && forall l :: j < l <= m ==> !Meets(run, l, t)
  }

  // ---- the snapshots a run keeps ----

  /** Passing over steps snapshots the targets among them, and no other. */
  lemma {:induction false} SkippedSnapshots(p: Pipeline, s: FlowState, k: int, end: int, t: int)
    requires 0 <= k && end <= |p.target|
    ensures var r := SnapshotSkipped(p, s, k, end).before;
      if k <= t < end && p.target[t] then t in r && r[t] == SnapshotAll(s)
      else (t in r <==> t in s.before) && (t in r ==> r[t] == s.before[t])
    decreases end - k
  {
    if k < end {
      SkippedSnapshots(p, if p.target[k] then s.(before := s.before[k := SnapshotAll(s)]) else s, k + 1, end, t);
    }
  }

  /** An iteration snapshots a target it visits as it found it, and one it passes over as it leaves it. */
  lemma StepSnapshots(p: Pipeline, known: Known, a: Config, c: Choices, b: Config, t: nat)
    requires Accepted(p) && KnownOk(p, known) && SafeExits(p, known.free) && Inv(p, known, a.state, a.at) && Sized(p) && Steps(p, a, c, b)
    requires t < |p.steps| && p.target[t]
    ensures
      if a.at < t < b.at then t in b.state.before && b.state.before[t] == SnapshotAll(b.state)
      else if a.at == t then t in b.state.before && b.state.before[t] == SnapshotAll(a.state)
      else (t in b.state.before <==> t in a.state.before) && (t in b.state.before ==> b.state.before[t] == a.state.before[t])
  {
    hide Accepted, KnownOk, SafeExits, Inv, Finish, SnapshotSkipped, StartRewind;
    MidSnapshots(p, known, a, c, t);
    var e := Finish(p, a.state, a.at, c);
    var s := if e.rewind.Some? then StartRewind(p, e.mid, e.rewind.value, e.amended) else e.mid;
    StartBefore(p, e.mid, if e.rewind.Some? then e.rewind.value else Rule(0, 0, 0, false, false, false, false, false, false, false), e.amended);
    SkippedSnapshots(p, s, a.at + 1, Min(b.at, |p.steps|), t);
    SkippedSame(p, s, a.at + 1, Min(b.at, |p.steps|));
  }

  lemma StartBefore(p: Pipeline, s: FlowState, rule: Rule, amended: Option<Values>)
    ensures StartRewind(p, s, rule, amended).before == s.before
  {
  }

  lemma MidSnapshots(p: Pipeline, known: Known, a: Config, c: Choices, t: nat)
    requires Accepted(p) && KnownOk(p, known) && SafeExits(p, known.free) && Inv(p, known, a.state, a.at) && Sized(p)
    requires a.at < |p.steps| && t < |p.steps| && p.target[t]
    ensures var before := Finish(p, a.state, a.at, c).mid.before;
      if a.at == t then t in before && before[t] == SnapshotAll(a.state)
      else (t in before <==> t in a.state.before) && (t in before ==> before[t] == a.state.before[t])
  {
    FinishOk(p, known, a.state, a.at, c);
    StoreAllKeeps(Enter(p, Arrive(a.state, a.at), a.at), c.stores);
    hide Accepted, KnownOk, SafeExits, Inv, Finish, StoreAll, Execute, PendingOk, ArrivesOk, RewindsOk;
  }

  /** The snapshot of a target the run is not at is what it held when the run last came to it. */
  lemma {:induction false} SnapshotFrom(p: Pipeline, inputs: Values, run: seq<Config>, cs: seq<Choices>, k: nat, t: nat) returns (j: nat)
    requires Accepted(p) && IsRun(p, inputs, run, cs) && k < |run| && t < |p.steps| && Sized(p) && p.target[t]
    requires t in run[k].state.before && run[k].at != t
    ensures LastMet(run, j, k, t) && run[k].state.before[t] == SnapshotAll(run[j].state)
  {
    hide Accepted, KnownOk, SafeExits, Inv, Steps;
    if k == 0 {
      assert false;
    }
    assert Steps(p, run[k - 1], cs[k - 1], run[k - 1 + 1]);
    var known := RunInvAll(p, inputs, run, cs, k - 1);
    StepSnapshots(p, known, run[k - 1], cs[k - 1], run[k], t);
    if run[k - 1].at < t < run[k].at {
      j := k;
    } else if run[k - 1].at == t {
      j := k - 1;
    } else {
      j := SnapshotFrom(p, inputs, run, cs, k - 1, t);
    }
  }

  // ---- the theorem ----

  /** A rewind resets its range. Whenever iteration m takes a rewind, the run has come to its target before, by a
      visit or by passing over it. From the last such moment j the run takes each key that a step of the range writes:
      its value, that it has none, and whether it only holds a default. Every other key is as when the rewind was
      taken. */
  lemma RewindResets(p: Pipeline, inputs: Values, run: seq<Config>, cs: seq<Choices>, m: nat) returns (j: nat)
    requires Accepted(p) && IsRun(p, inputs, run, cs) && m < |cs| && Takes(p, run[m], cs[m])
    ensures var rule := Finish(p, run[m].state, run[m].at, cs[m]).rewind.value;
      && rule.rewind && 0 <= rule.to && run[m + 1].at == rule.to && LastMet(run, j, m, rule.to)
      && forall key :: if WrittenIn(p.steps, SpanOf(rule), key) then SameKey(run[j].state, run[m + 1].state, key)
           else SameKey(MidOf(p, run[m], cs[m]), run[m + 1].state, key)
  {
    hide Accepted, KnownOk, SafeExits, Inv, Finish, SameKey, WrittenIn, StartRewind;
    var a, c, b := run[m], cs[m], run[m + 1];
    var known := RunInvAll(p, inputs, run, cs, m);
    TakeFacts(p, known, a.state, a.at, c);
    var e := Finish(p, a.state, a.at, c);
    var rule := e.rewind.value;
    TargetThere(p, rule);
    MidSnapshots(p, known, a, c, rule.to);
    if a.at == rule.to {
      j := m;
    } else {
      j := SnapshotFrom(p, inputs, run, cs, m, rule.to);
    }
    assert Steps(p, run[m], cs[m], run[m + 1]);
    TakeLeaves(p, known, a, c, b);
    forall key ensures if WrittenIn(p.steps, SpanOf(rule), key) then SameKey(run[j].state, b.state, key) else SameKey(MidOf(p, a, c), b.state, key) {
      ResetsKey(p, e.mid, rule, e.amended, run[j].state, key);
    }
  }

  lemma TargetThere(p: Pipeline, rule: Rule)
    requires Accepted(p) && rule in p.rules && rule.rewind && 0 <= rule.to <= rule.from < |p.steps|
    ensures Sized(p) && p.target[rule.to]
  {
    TargetsOf(p, rule);
  }

  lemma TakeLeaves(p: Pipeline, known: Known, a: Config, c: Choices, b: Config)
    requires Accepted(p) && KnownOk(p, known) && SafeExits(p, known.free) && Inv(p, known, a.state, a.at) && Sized(p) && Steps(p, a, c, b)
    requires Takes(p, a, c)
    ensures var e := Finish(p, a.state, a.at, c);
      b.state == StartRewind(p, e.mid, e.rewind.value, e.amended) && b.at == e.rewind.value.to
  {
    FinishOk(p, known, a.state, a.at, c);
    hide Accepted, KnownOk, SafeExits, Inv, Finish, StartRewind, EndingOk;
    EndsWhere(p, known, Visited(p, a.state, a.at, c).0, a.at, Finish(p, a.state, a.at, c));
  }

  lemma ResetsKey(p: Pipeline, mid: FlowState, rule: Rule, amended: Option<Values>, at: FlowState, key: Name)
    requires Accepted(p) && rule in p.rules && rule.rewind && 0 <= rule.to
    requires rule.to in mid.before && mid.before[rule.to] == SnapshotAll(at)
    ensures var r := StartRewind(p, mid, rule, amended);
      if WrittenIn(p.steps, SpanOf(rule), key) then SameKey(at, r, key) else SameKey(mid, r, key)
  {
    assert TablesOk(p);
    hide Accepted, TablesOk, WrittenIn, RewindKeys, SnapshotOf;
    KeysOfRange(p, rule, key);
    var keys := RewindKeys(p, rule);
    assert key in RestoreValues(mid.values, SnapshotAll(at), keys) <==> if key in keys then key in at.values else key in mid.values;
  }
}

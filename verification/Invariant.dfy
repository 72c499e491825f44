/** The invariant of a run of an accepted pipeline, and the facts of rules and ranges it rests on. */
module Invariant {
  import opened Basics
  import opened Pipelines
  import opened Flow
  import opened Runs

  // ---- the invariant ----

  /** What the invariant is relative to: the type of each key, and the keys that may hold a write
      when a step that writes them runs. Those are the keys with a MergeRule and any others the
      invariant is to say nothing of. */
  datatype Known = Known(types: map<Name, Type>, free: set<Name>)

  ghost predicate KnownOk(p: Pipeline, known: Known) {
    Typed(p, known.types) && p.merges <= known.free
  }

  /** Every key guaranteed at step i has a value. */
  ghost predicate Available(p: Pipeline, values: Values, i: int) {
    forall key :: Guaranteed(p, i, key) ==> key in values
  }

  ghost predicate WellTyped(known: Known, values: Values) {
    forall key :: key in values ==> key in known.types && values[key].typ == known.types[key]
  }

  /** While a key that is not free holds a write, the run is past the last step that writes it. */
  ghost predicate PastWriters(p: Pipeline, known: Known, snapshot: Snapshot, i: int) {
    forall key, w :: key in snapshot.values && key !in snapshot.defaulted && key !in known.free && Writes(p.steps, w, key)
      ==> w < i
  }

  /** What a run may find when it reaches step i. */
  ghost predicate SnapshotOk(p: Pipeline, known: Known, snapshot: Snapshot, i: int) {
    Available(p, snapshot.values, i) && WellTyped(known, snapshot.values) && PastWriters(p, known, snapshot, i)
  }

  /** As PastWriters, once step f has succeeded: every later writer of what f wrote is skipped by
      each way the run may go on from f. */
  ghost predicate PastAfter(p: Pipeline, known: Known, snapshot: Snapshot, f: nat)
    requires f < |p.success|
  {
    forall key, w :: key in snapshot.values && key !in snapshot.defaulted && key !in known.free && Writes(p.steps, w, key)
      ==> w < f || (Writes(p.steps, f, key) && forall next :: Continues(p.success[f], f, |p.steps|, next) ==> w < next)
  }

  /** What a run may find once step f has succeeded. */
  ghost predicate AfterOk(p: Pipeline, known: Known, snapshot: Snapshot, f: nat)
    requires f < |p.success|
  {
    && Available(p, snapshot.values, f)
    && (forall key :: Writes(p.steps, f, key) ==> key in snapshot.values)
    && WellTyped(known, snapshot.values)
    && PastAfter(p, known, snapshot, f)
  }

  /** The state that rejecting the running rewind would restore. */
  function Undo(p: Pipeline, s: FlowState): Snapshot
    requires s.rewind.Some?
  {
    var r := s.rewind.value;
    Snapshot(RestoreValues(s.values, r.prev, RewindKeys(p, r.rule)), RestoreDefaulted(s.defaulted, r.prev, RewindKeys(p, r.rule)))
  }

  /** The running rewind is one of the pipeline's, what it amends is typed, and what a rejection
      would restore is a state in which its From has succeeded. */
  ghost predicate PendingOk(p: Pipeline, known: Known, s: FlowState)
    requires |p.success| == |p.steps|
  {
    && s.journal.Some? == s.rewind.Some?
    && (s.rewind.Some? ==>
      var r := s.rewind.value;
      && r.rule in p.rules && r.rule.rewind && r.rule.from < |p.steps|
      && (r.amended.Some? ==> WellTyped(known, r.amended.value))
      && (!r.rule.onError ==> AfterOk(p, known, Undo(p, s), r.rule.from)))
  }

  /** The visits of every rewind target are within its MaxVisits, and a target ahead of the run
      has none. */
  ghost predicate VisitsOk(p: Pipeline, visits: seq<nat>, i: int)
    requires |visits| == |p.target| == |p.maxVisits|
  {
    forall t :: 0 <= t < |visits| && p.target[t] ==>
      && visits[t] <= p.maxVisits[t]
      && (t == i ==> visits[t] < p.maxVisits[t])
      && (t > i ==> visits[t] == 0)
  }

  /** Every rewind target behind the run has a snapshot, and each is a state a run may reach it in. */
  ghost predicate BeforeOk(p: Pipeline, known: Known, before: map<int, Snapshot>, i: int) {
    && (forall t :: 0 <= t < i && t < |p.target| && p.target[t] ==> t in before)
    && (forall t :: t in before ==> SnapshotOk(p, known, before[t], t))
  }

  /** The invariant of a run at the start of each iteration, before step i, or past the last. */
  ghost predicate Inv(p: Pipeline, known: Known, s: FlowState, i: int) {
    && Sized(p) && Fits(p, s)
    && 0 <= i <= |p.steps|
    && SnapshotOk(p, known, SnapshotAll(s), i)
    && BeforeOk(p, known, s.before, i)
    && VisitsOk(p, s.visits, i)
    && PendingOk(p, known, s)
    && (s.rewind.Some? ==> s.rewind.value.rule.to <= i)
  }

  // ---- rules and ranges ----

  /** The rules of a step's lists are the pipeline's. */
  lemma RuleFacts(p: Pipeline, i: nat, onError: bool, k: nat)
    requires TablesOk(p) && i < |p.steps| && k < |RulesOf(p.rules, i, onError)|
    ensures var rule := RulesOf(p.rules, i, onError)[k];
      rule in p.rules && RuleOk(rule, |p.steps|) && rule.from == i && rule.onError == onError
  {
  }

  /** A forward rule skips every step between, which then may not write, and so may its From when
      it is taken on error. */
  lemma ForwardSkips(p: Pipeline, rule: Rule, j: int)
    requires TablesOk(p) && rule in p.rules && Forward(rule)
    requires rule.from < j < Dest(rule, |p.steps|) || (rule.onError && j == rule.from)
    ensures MayNotWrite(p.rules, j, |p.steps|)
  {
    var m :| 0 <= m < |p.rules| && p.rules[m] == rule;
    assert Skips(p.rules[m], j, |p.steps|) || (p.rules[m].onError && Forward(p.rules[m]) && p.rules[m].from == j);
  }

  /** Guarantees only grow along the steps. */
  lemma GuaranteedMonotone(p: Pipeline, i: int, j: int, key: Name)
    requires i <= j && Guaranteed(p, i, key)
    ensures Guaranteed(p, j, key)
  {
  }

  /** What is guaranteed at the end of a forward rule is guaranteed at its From or, on success,
      written by it. */
  lemma GuaranteedForward(p: Pipeline, rule: Rule, key: Name)
    requires TablesOk(p) && rule in p.rules && Forward(rule)
    requires Guaranteed(p, Dest(rule, |p.steps|), key)
    ensures Guaranteed(p, rule.from, key) || (!rule.onError && Writes(p.steps, rule.from, key))
  {
    if !Seeded(p, key) {
      var w :| 0 <= w < Dest(rule, |p.steps|) && Writes(p.steps, w, key) && !MayNotWrite(p.rules, w, |p.steps|);
      if w > rule.from || (w == rule.from && rule.onError) {
        ForwardSkips(p, rule, w);
      }
    }
  }

  /** A rewind target inside a rewind's range is the rewind's own. */
  lemma TargetInRange(p: Pipeline, rule: Rule, t: int)
    requires TablesOk(p) && DisjointRanges(p.rules)
    requires rule in p.rules && rule.rewind && rule.to <= t <= rule.from
    requires IsTarget(p.rules, t)
    ensures t == rule.to
  {
    var m :| 0 <= m < |p.rules| && p.rules[m] == rule;
    var k :| 0 <= k < |p.rules| && p.rules[k].rewind && p.rules[k].to == t;
    assert RuleOk(p.rules[k], |p.steps|);
  }

  /** A rewind from inside another's range has the same range. */
  lemma RewindInRange(p: Pipeline, rule: Rule, other: Rule)
    requires TablesOk(p) && DisjointRanges(p.rules)
    requires rule in p.rules && rule.rewind && other in p.rules && other.rewind
    requires rule.to <= other.from <= rule.from
    ensures other.to == rule.to && other.from == rule.from
  {
    var m :| 0 <= m < |p.rules| && p.rules[m] == rule;
    var k :| 0 <= k < |p.rules| && p.rules[k] == other;
    assert RuleOk(p.rules[k], |p.steps|);
  }

  /** A rewind's keys are the declared writes of its range. */
  lemma KeysOfRange(p: Pipeline, rule: Rule, key: Name)
    requires TablesOk(p) && rule in p.rules && rule.rewind
    ensures rule.to >= 0
    ensures key in RewindKeys(p, rule) <==> WrittenIn(p.steps, SpanOf(rule), key)
  {
    var m :| 0 <= m < |p.rules| && p.rules[m] == rule;
    assert RuleOk(p.rules[m], |p.steps|);
  }

  // ---- going on from a state ----

  /** Committing a step's writes leads to a state in which it has succeeded. */
  lemma CommitAfter(p: Pipeline, known: Known, from: Snapshot, f: nat, committed: Values)
    requires Accepted(p) && KnownOk(p, known) && f < |p.steps|
    requires SnapshotOk(p, known, from, f)
    requires WellTyped(known, committed)
    requires forall key :: key in committed ==> Writes(p.steps, f, key)
    requires forall key :: Writes(p.steps, f, key) ==> key in committed || key in from.values
    ensures AfterOk(p, known, Snapshot(from.values + committed, from.defaulted - committed.Keys), f)
  {
    var after := Snapshot(from.values + committed, from.defaulted - committed.Keys);
    forall key, w | key in after.values && key !in after.defaulted && key !in known.free && Writes(p.steps, w, key)
      ensures w < f || (Writes(p.steps, f, key) && forall next :: Continues(p.success[f], f, |p.steps|, next) ==> w < next)
    {
      if key in committed {
        forall next | Continues(p.success[f], f, |p.steps|, next) ensures w < next || w < f {
          ContinuesForward(p, f, next);
          if w > f {
            assert !MayCommitBoth(p, f, w);
          }
        }
      }
    }
  }

  /** A run that succeeds at a step without rewinding goes on past it. */
  lemma ContinuesForward(p: Pipeline, f: nat, next: int)
    requires TablesOk(p) && f < |p.steps| && Continues(p.success[f], f, |p.steps|, next)
    ensures f < next <= |p.steps|
  {
    if next != f + 1 {
      var k :| 0 <= k < |p.success[f]| && Forward(p.success[f][k]) && Dest(p.success[f][k], |p.steps|) == next;
      RuleFacts(p, f, false, k);
    }
  }

  /** Once step f has succeeded, the run finds what it should at every step it may continue at,
      and at every rewind target it skips on the way. */
  lemma ContinueOk(p: Pipeline, known: Known, after: Snapshot, f: nat, next: int, t: int)
    requires Accepted(p) && p.merges <= known.free && f < |p.steps|
    requires AfterOk(p, known, after, f) && Continues(p.success[f], f, |p.steps|, next)
    requires t == next || (f < t < next && IsTarget(p.rules, t))
    ensures SnapshotOk(p, known, after, t)
  {
    ContinuesForward(p, f, next);
    forall key | Guaranteed(p, t, key) ensures key in after.values {
      GuaranteedMonotone(p, t, next, key);
      ContinueGuaranteed(p, f, next, key);
    }
    forall key, w | key in after.values && key !in after.defaulted && key !in known.free && Writes(p.steps, w, key)
      ensures w < t
    {
      if w >= t {
        assert Writes(p.steps, f, key) && w < next;
        assert t < next && IsTarget(p.rules, t);
        assert MayCommitBoth(p, f, w);
      }
    }
  }

  lemma ContinueGuaranteed(p: Pipeline, f: nat, next: int, key: Name)
    requires TablesOk(p) && f < |p.steps| && Continues(p.success[f], f, |p.steps|, next)
    requires Guaranteed(p, next, key)
    ensures Guaranteed(p, f, key) || Writes(p.steps, f, key)
  {
    if next != f + 1 {
      var k :| 0 <= k < |p.success[f]| && Forward(p.success[f][k]) && Dest(p.success[f][k], |p.steps|) == next;
      RuleFacts(p, f, false, k);
      GuaranteedForward(p, p.success[f][k], key);
    }
  }

  /** A failed step that a rule takes forward leaves the run where it finds what it should. */
  lemma FailForwardOk(p: Pipeline, known: Known, at: Snapshot, rule: Rule, t: int)
    requires TablesOk(p) && rule in p.rules && rule.onError && Forward(rule)
    requires SnapshotOk(p, known, at, rule.from)
    requires rule.from < t <= Dest(rule, |p.steps|)
    ensures SnapshotOk(p, known, at, t)
  {
    forall key | Guaranteed(p, t, key) ensures key in at.values {
      GuaranteedMonotone(p, t, Dest(rule, |p.steps|), key);
      GuaranteedForward(p, rule, key);
    }
  }
}

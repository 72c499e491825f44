/** Every iteration of a run of an accepted pipeline keeps the invariant. */
module Soundness {
  import opened Basics
  import opened Pipelines
  import opened Flow
  import opened Runs
  import opened Invariant

  // ---- what a visit gives ----

  /** What step i's execution finds: the invariant, with i's own visit counted and snapshotted and
      the run inside the running rewind's range. */
  ghost predicate Ready(p: Pipeline, known: Known, s: FlowState, i: int) {
    && Sized(p) && Fits(p, s)
    && 0 <= i < |p.steps|
    && SnapshotOk(p, known, SnapshotAll(s), i)
    && BeforeOk(p, known, s.before, i + 1)
    && PendingOk(p, known, s)
    && (s.rewind.Some? ==> s.rewind.value.rule.to <= i <= s.rewind.value.rule.from)
  }

  /** Some declared write of node before the j-th has name key and type typ. */
  predicate DeclaresWrite(node: StepNode, j: nat, key: Name, typ: Type)
    requires j <= |node.writeKeys|
  {
    exists m :: 0 <= m < j && node.writeKeys[m].name == key && typ == node.writeKeys[m].typ
  }

  /** Committed writes are declared and typed, and every declared write is set unless preserved. */
  lemma {:induction false} MergeFromOk(
    p: Pipeline, s: FlowState, node: StepNode, writes: Values, c: Choices, j: nat, committed: Values)
    requires j <= |node.writeKeys| && DistinctKeys(node.writeKeys)
    requires forall key :: key in writes ==> Declares(node.writeKeys, key) && writes[key].typ == TypeOf(node.writeKeys, key)
    requires forall key :: key in committed ==> DeclaresWrite(node, j, key, committed[key].typ)
    requires forall m :: 0 <= m < j && node.writeKeys[m].name in writes ==> node.writeKeys[m].name in committed
    ensures var r := MergeFrom(p, s, node, writes, c, j, committed);
      r.Ok? ==>
        && (forall key :: key in r.value ==> DeclaresWrite(node, |node.writeKeys|, key, r.value[key].typ))
        && (forall m :: 0 <= m < |node.writeKeys| && node.writeKeys[m].name in writes ==> node.writeKeys[m].name in r.value)
    decreases |node.writeKeys| - j
  {
    hide DistinctKeys, TypeOf;
    if j < |node.writeKeys| {
      var key := node.writeKeys[j].name;
      TypeOfDistinct(node.writeKeys, j);
      if key !in writes {
        MergeFromOk(p, s, node, writes, c, j + 1, committed);
        assert MergeFrom(p, s, node, writes, c, j, committed) == MergeFrom(p, s, node, writes, c, j + 1, committed);
      } else if !Holds(s, key) {
        MergeFromOk(p, s, node, writes, c, j + 1, committed[key := writes[key]]);
      } else if key in p.merges {
        var merged := c.merge(key, s.values[key], writes[key]);
        if merged.Ok? && merged.value.typ == node.writeKeys[j].typ {
          MergeFromOk(p, s, node, writes, c, j + 1, committed[key := merged.value]);
        }
      }
    }
  }

  /** What commits leads to a state in which the step has succeeded. */
  lemma CommittedOk(p: Pipeline, known: Known, s: FlowState, i: nat, view: View,
    writes: Values, preserved: set<Name>, committed: Values, c: Choices)
    requires Accepted(p) && KnownOk(p, known) && Ready(p, known, s, i)
    requires WritesOk(p.steps[i], Resolve(view, s), writes, preserved)
    requires MergeWrites(p, s, p.steps[i], writes, c) == Ok(committed)
    ensures WellTyped(known, committed)
    ensures forall key :: key in committed ==> Writes(p.steps, i, key)
    ensures AfterOk(p, known, Snapshot(s.values + committed, s.defaulted - committed.Keys), i)
  {
    var node := p.steps[i];
    MergeFromOk(p, s, node, writes, c, 0, map[]);
    forall key | Writes(p.steps, i, key) ensures key in committed || key in s.values {
      var j := IndexOf(node.writeKeys, key);
      if key !in writes {
        assert key in preserved;
        assert Reads(p.steps, i, key);
        ReadAvailable(p, i, key);
      }
    }
    CommitAfter(p, known, SnapshotAll(s), i, committed);
  }

  /** Build lets a step read only what is guaranteed. */
  lemma ReadAvailable(p: Pipeline, i: nat, key: Name)
    requires Accepted(p) && Reads(p.steps, i, key)
    ensures Guaranteed(p, i, key)
  {
    assert Readable(p, i, key);
    if !Seeded(p, key) {
      var w :| 0 <= w < i && Writes(p.steps, w, key);
      assert !MayNotWrite(p.rules, w, |p.steps|);
    }
  }

  /** What Amend sets is typed, and only reads of the target. */
  lemma AmendOk(p: Pipeline, known: Known, rule: Rule, view: Values, c: Choices)
    requires Accepted(p) && KnownOk(p, known)
    ensures var r := CallAmend(p, rule, view, c);
      r.Ok? && r.value.Some? ==>
        && WellTyped(known, r.value.value)
        && 0 <= rule.to < |p.steps| && r.value.value.Keys <= Names(p.steps[rule.to].readKeys)
  {
    var r := CallAmend(p, rule, view, c);
    if r.Ok? && r.value.Some? {
      var node := p.steps[rule.to];
      assert AmendableOk(node);
      forall key | key in r.value.value
        ensures key in known.types && r.value.value[key].typ == known.types[key] && key in Names(node.readKeys)
      {
        var j := IndexOf(node.amendable.value, key);
        var m :| 0 <= m < |node.readKeys| && node.readKeys[m] == node.amendable.value[j];
      }
    }
  }

  /** The rule chosen on success is one of the step's, no rule before it always matches, and a
      rewind among them is within its target's MaxVisits and taken only by a visit not rejected. */
  lemma {:induction false} ChooseOk(
    p: Pipeline, known: Known, s: FlowState, list: seq<Rule>, k: nat, rejected: bool, view: Values, c: Choices)
    requires Accepted(p) && KnownOk(p, known)
    requires k <= |list| && |s.visits| == |p.maxVisits| && OpenUpTo(list, k)
    ensures var r := Choose(p, s, list, k, rejected, view, c);
      && (r.Chosen? && r.rule.None? ==> OpenUpTo(list, |list|) && r.amended.None?)
      && (r.Chosen? && r.rule.Some? ==>
           && r.rule.value in list
           && (!r.rule.value.rewind ==> ContinuesBy(list, r.rule.value))
           && (r.rule.value.rewind ==> !rejected && !Exhausted(p, s, r.rule.value))
           && (r.amended.Some? ==> WellTyped(known, r.amended.value)))
      && (r.ChoiceFails? ==> r.err != [])
    decreases |list| - k
  {
    if k < |list| {
      var rule := list[k];
      if rejected && rule.rewind {
        ChooseOk(p, known, s, list, k + 1, rejected, view, c);
      } else {
        match CallWhen(rule, c.when(rule, view))
        case Panics =>
        case No => ChooseOk(p, known, s, list, k + 1, rejected, view, c);
        case Yes => AmendOk(p, known, rule, view, c);
      }
    }
  }

  /** rule is the rule of list a run may continue by. */
  predicate ContinuesBy(list: seq<Rule>, rule: Rule) {
    exists m :: 0 <= m < |list| && list[m] == rule && !rule.rewind && OpenUpTo(list, m)
  }

  lemma {:induction false} ChooseRestoredOk(list: seq<Rule>, k: nat, view: Values, c: Choices)
    requires k <= |list| && OpenUpTo(list, k)
    ensures var r := ChooseRestored(list, k, view, c);
      && (r.Chosen? && r.rule.None? ==> OpenUpTo(list, |list|))
      && (r.Chosen? && r.rule.Some? ==> ContinuesBy(list, r.rule.value))
    decreases |list| - k
  {
    if k < |list| {
      if list[k].rewind {
        ChooseRestoredOk(list, k + 1, view, c);
      } else {
        match CallWhen(list[k], c.whenRestored(list[k], view))
        case Panics =>
        case No => ChooseRestoredOk(list, k + 1, view, c);
        case Yes =>
      }
    }
  }

  /** The rule taken on failure is one of the step's on failure, and a rewind among them is within
      its target's MaxVisits. */
  lemma {:induction false} EvalFailureOk(
    p: Pipeline, known: Known, s: FlowState, i: nat, first: Error, view: Values, c: Choices,
    k: nat, restorable: bool, exhausted: bool, err: Error, calls: seq<Call>)
    requires Accepted(p) && KnownOk(p, known) && Sized(p)
    requires i < |p.steps| == |s.visits| && k <= |p.failure[i]|
    ensures TakeOk(p, known, s, i, EvalFailure(p, s, i, first, view, c, k, restorable, exhausted, err, calls))
    decreases !exhausted, |p.failure[i]| - k, if restorable then 3 else 2
  {
    hide Accepted, KnownOk;
    var list := p.failure[i];
    if k < |list| {
      var rule := list[k];
      if restorable && k > p.fallback[i] {
        if c.restore(i, first) == No {
          EvalFailureOk(p, known, s, i, first, view, c, k, false, exhausted, err, calls + [AskRestore]);
        }
      } else if exhausted && rule.rewind && Exhausted(p, s, rule) {
        EvalFailureOk(p, known, s, i, first, view, c, k + 1, restorable, exhausted, err, calls);
      } else {
        var called := if rule.hasWhen then calls + [AskWhen(rule, err)] else calls;
        match CallWhen(rule, c.whenFailed(rule, view, err))
        case Panics =>
        case No => EvalFailureOk(p, known, s, i, first, view, c, k + 1, restorable, exhausted, err, called);
        case Yes => TakeFailureOk(p, known, s, i, first, view, c, k, rule, restorable, exhausted, err, called);
      }
    }
  }

  ghost predicate TakeOk(p: Pipeline, known: Known, s: FlowState, i: nat, d: Decision)
    requires i < |p.failure| && |s.visits| == |p.maxVisits|
  {
    d.Take? ==>
      && d.rule in p.failure[i]
      && (d.rule.rewind ==> !Exhausted(p, s, d.rule))
      && (d.amended.Some? ==> WellTyped(known, d.amended.value))
  }

  lemma {:induction false} TakeFailureOk(
    p: Pipeline, known: Known, s: FlowState, i: nat, first: Error, view: Values, c: Choices,
    k: nat, rule: Rule, restorable: bool, exhausted: bool, err: Error, calls: seq<Call>)
    requires Accepted(p) && KnownOk(p, known) && Sized(p)
    requires i < |p.steps| == |s.visits| && k < |p.failure[i]| && rule == p.failure[i][k]
    requires !(exhausted && rule.rewind && Exhausted(p, s, rule))
    ensures TakeOk(p, known, s, i, TakeFailure(p, s, i, first, view, c, k, rule, restorable, exhausted, err, calls))
    decreases !exhausted, |p.failure[i]| - k, if restorable then 1 else 0
  {
    if restorable && k < p.fallback[i] && !rule.fallback {
      if c.restore(i, first) == No {
        TakeFailureOk(p, known, s, i, first, view, c, k, rule, false, exhausted, err, calls + [AskRestore]);
      }
    } else if rule.rewind {
      if Exhausted(p, s, rule) {
        EvalFailureOk(p, known, s, i, first, view, c, 0, restorable, true, err + [VisitsExceeded(rule.index)], calls);
      } else {
        AmendOk(p, known, rule, view, c);
      }
    }
  }

  // ---- taking back ----

  /** Rejecting restores exactly the state that Undo names, and ends the rewind. */
  lemma RejectGivesUndo(p: Pipeline, s: FlowState)
    requires s.rewind.Some? && s.journal.Some?
    ensures var r := RejectRewind(p, s);
      && SnapshotAll(r) == Undo(p, s)
      && r.rewind.None? && r.journal.None? && r.visits == s.visits && r.before == s.before
  {
  }

  /** Committing writes of the range changes nothing of what a rejection would restore. */
  lemma CommitKeepsUndo(p: Pipeline, s: FlowState, visit: StepVisit)
    requires s.rewind.Some?
    requires visit.committed.Keys <= RewindKeys(p, s.rewind.value.rule)
    ensures var r := Commit(s, visit);
      r.rewind.Some? && Undo(p, r) == Undo(p, s)
  {
    var r := Commit(s, visit);
    var keys := RewindKeys(p, s.rewind.value.rule);
    assert Undo(p, r).values == Undo(p, s).values;
    assert Undo(p, r).defaulted == Undo(p, s).defaulted;
  }

  /** What a started rewind would restore is the state in which it was taken. */
  lemma UndoStarted(p: Pipeline, s: FlowState, rule: Rule, amended: Option<Values>)
    ensures var r := StartRewind(p, s, rule, amended);
      r.rewind.Some? && Undo(p, r) == SnapshotAll(s)
  {
    var r := StartRewind(p, s, rule, amended);
    assert Undo(p, r).values == s.values;
    assert Undo(p, r).defaulted == s.defaulted;
  }

  /** A started rewind finds the state its target found before. */
  lemma StartRewindOk(p: Pipeline, known: Known, s: FlowState, rule: Rule, amended: Option<Values>)
    requires Accepted(p) && KnownOk(p, known) && Sized(p)
    requires rule in p.rules && rule.rewind
    requires rule.to in s.before && SnapshotOk(p, known, s.before[rule.to], rule.to)
    requires rule.from < |p.steps|
    requires Available(p, s.values, rule.from) && WellTyped(known, s.values) && PastAfter(p, known, SnapshotAll(s), rule.from)
    requires !rule.onError ==> AfterOk(p, known, SnapshotAll(s), rule.from)
    requires amended.Some? ==> WellTyped(known, amended.value)
    ensures var r := StartRewind(p, s, rule, amended);
      SnapshotOk(p, known, SnapshotAll(r), rule.to) && PendingOk(p, known, r)
  {
    var r := StartRewind(p, s, rule, amended);
    var keys := RewindKeys(p, rule);
    UndoStarted(p, s, rule, amended);
    var m :| 0 <= m < |p.rules| && p.rules[m] == rule;
    assert RuleOk(p.rules[m], |p.steps|);
    forall key | Guaranteed(p, rule.to, key) ensures key in r.values {
      GuaranteedMonotone(p, rule.to, rule.from, key);
    }
    forall key, w | key in r.values && key !in r.defaulted && key !in known.free && Writes(p.steps, w, key)
      ensures w < rule.to
    {
      KeysOfRange(p, rule, key);
      if key !in keys {
        assert !Writes(p.steps, rule.from, key);
        assert w < rule.from;
      }
    }
  }
}

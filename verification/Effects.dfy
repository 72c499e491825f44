/**
 What one iteration of a run does to values, defaults, tools and the step cache, key by key.

 The functions of module Flow compute a run's next state; the lemmas here say what that state holds in terms of
 the values before, of what steps and hooks returned and of earlier moments of the run.
 */
module Effects {
  import opened Basics
  import opened Pipelines
  import opened Flow
  import opened Runs
  import opened Invariant
  import opened Soundness
  import opened Iterations
  import opened RunTheorems
  import opened Rejection
  import opened Termination
  import opened Realizations

  // ---- merging and committing ----

  /** The value key commits is what its MergeRule made of the write it held and the new one, or the new one where
      it held none. */
  predicate MergedWrite(s: FlowState, key: Name, write: Value, c: Choices, value: Value) {
    if key in s.values && key !in s.defaulted then c.merge(key, s.values[key], write) == Ok(value) else value == write
  }

  /** Merging key, with its type, does not fail: it holds no write, or has a MergeRule that returns a value of its
      type. */
  predicate MayMerge(p: Pipeline, s: FlowState, key: KeyRef, writes: Values, c: Choices) {
    key.name in writes && key.name in s.values && key.name !in s.defaulted ==>
      && key.name in p.merges
      && var merged := c.merge(key.name, s.values[key.name], writes[key.name]); merged.Ok? && merged.value.typ == key.typ
  }

  /** Writes commit exactly when each merges, and then exactly those set do, each as its merge has it. */
  lemma MergeMeans(p: Pipeline, s: FlowState, node: StepNode, writes: Values, c: Choices)
    requires DistinctKeys(node.writeKeys) && forall key :: key in writes ==> Declares(node.writeKeys, key)
    ensures var r := MergeWrites(p, s, node, writes, c);
      && (r.Ok? <==> forall j :: 0 <= j < |node.writeKeys| ==> MayMerge(p, s, node.writeKeys[j], writes, c))
      && (r.Ok? ==> r.value.Keys == writes.Keys && forall key :: key in writes ==> MergedWrite(s, key, writes[key], c, r.value[key]))
  {
    MergeFromMeans(p, s, node, writes, c, 0, map[]);
    var r := MergeWrites(p, s, node, writes, c);
    hide MergeFrom;
    if r.Ok? {
      forall key | key in writes ensures key in r.value && MergedWrite(s, key, writes[key], c, r.value[key]) {
        var m :| 0 <= m < |node.writeKeys| && node.writeKeys[m].name == key;
      }
    }
  }

  lemma {:induction false} MergeFromMeans(p: Pipeline, s: FlowState, node: StepNode, writes: Values, c: Choices, j: nat, committed: Values)
    requires DistinctKeys(node.writeKeys) && j <= |node.writeKeys|
    requires forall m :: j <= m < |node.writeKeys| ==> node.writeKeys[m].name !in committed
    ensures var r := MergeFrom(p, s, node, writes, c, j, committed);
      && (r.Ok? <==> forall m :: j <= m < |node.writeKeys| ==> MayMerge(p, s, node.writeKeys[m], writes, c))
      && (r.Ok? ==>
        && (forall m :: j <= m < |node.writeKeys| && node.writeKeys[m].name in writes ==>
             var key := node.writeKeys[m].name; key in r.value && MergedWrite(s, key, writes[key], c, r.value[key]))
        && (forall key :: key in committed ==> key in r.value && r.value[key] == committed[key])
        && (forall key :: key in r.value ==> key in committed || key in writes))
    decreases |node.writeKeys| - j
  {
    if j < |node.writeKeys| {
      var key := node.writeKeys[j].name;
      if key !in writes {
        MergeFromMeans(p, s, node, writes, c, j + 1, committed);
      } else if key !in s.values || key in s.defaulted {
        MergeFromMeans(p, s, node, writes, c, j + 1, committed[key := writes[key]]);
      } else if MayMerge(p, s, node.writeKeys[j], writes, c) {
        MergeFromMeans(p, s, node, writes, c, j + 1, committed[key := c.merge(key, s.values[key], writes[key]).value]);
      } else {
        assert MergeFrom(p, s, node, writes, c, j, committed).Err?;
      }
    }
  }

  /** After is before with the writes committed: a key that was set holds what its merge made of it, as a write,
      and every other key is as it was. */
  ghost predicate CommitsTo(before: FlowState, writes: Values, c: Choices, after: FlowState) {
    forall key :: CommitsKey(before, writes, c, after, key)
  }

  predicate CommitsKey(before: FlowState, writes: Values, c: Choices, after: FlowState, key: Name) {
    if key in writes then key in after.values && key !in after.defaulted && MergedWrite(before, key, writes[key], c, after.values[key])
    else SameKey(before, after, key)
  }

  /** Both states hold the same of key. */
  predicate SameKey(before: FlowState, after: FlowState, key: Name) {
    && (key in after.values <==> key in before.values) && (key in before.values ==> after.values[key] == before.values[key])
    && (key in after.defaulted <==> key in before.defaulted)
  }

  // ---- what an iteration does to values ----

  /** A visit that succeeds sets allowed writes and commits each as its merge has it. */
  lemma VisitCommits(p: Pipeline, s: FlowState, i: nat, view: View, c: Choices)
    requires i < |p.steps| == |p.success| == |p.maxVisits| == |s.visits| && DistinctKeys(p.steps[i].writeKeys)
    ensures var v := Execute(p, s, i, view, c);
      v.err == [] ==>
        && c.outcome.Returns? && v.staged == c.outcome.staged && v.committed.Keys == c.outcome.writes.Keys
        && forall key :: key in c.outcome.writes ==> MergedWrite(s, key, c.outcome.writes[key], c, v.committed[key])
  {
    if c.outcome.Returns? && WritesOk(p.steps[i], Resolve(view, s), c.outcome.writes, c.outcome.preserved) {
      var writes := c.outcome.writes;
      MergeMeans(p, s, p.steps[i], writes, c);
      MergeErrs(p, s, p.steps[i], writes, c, 0, map[]);
      var r := MergeWrites(p, s, p.steps[i], writes, c);
      hide MergeWrites, WritesOk, MayMerge, MergedWrite;
      if r.Ok? {
        DecideKeeps(p, s, i, view, writes, r.value, c.outcome.staged, c);
        hide Decide;
      }
    }
  }

  lemma DecideKeeps(p: Pipeline, s: FlowState, i: nat, view: View, writes: Values, committed: Values, staged: Tools, c: Choices)
    requires i < |p.steps| == |p.success| == |p.maxVisits| == |s.visits|
    ensures var v := Decide(p, s, i, view, writes, committed, staged, c); v.err == [] ==> v.committed == committed && v.staged == staged
  {
    forall rejected, values ensures var r := Choose(p, s, p.success[i], 0, rejected, values, c); r.ChoiceFails? ==> r.err != [] {
      ChooseFails(p, s, p.success[i], 0, rejected, values, c);
    }
    hide Choose, RestoreValues, KeyValues;
  }

  lemma {:induction false} ChooseFails(p: Pipeline, s: FlowState, list: seq<Rule>, k: nat, rejected: bool, view: Values, c: Choices)
    requires k <= |list| && |s.visits| == |p.maxVisits|
    ensures var r := Choose(p, s, list, k, rejected, view, c); r.ChoiceFails? ==> r.err != []
    decreases |list| - k
  {
    if k < |list| {
      ChooseFails(p, s, list, k + 1, rejected, view, c);
    }
  }

  /** What the state step a.at is executed in holds. */
  lemma ExecutedIn(p: Pipeline, a: Config, c: Choices)
    requires Sized(p) && Fits(p, a.state) && a.at < |p.steps|
    ensures var s := Visited(p, a.state, a.at, c).0;
      && s.values == a.state.values && s.defaulted == a.state.defaulted && s.tools == Arrive(a.state, a.at).tools
      && SameRewind(Now(a), s.rewind) && (s.rewind.Some? ==> s.rewind.value.stage == Now(a).value.stage)
      && s.visits == a.state.visits[a.at := a.state.visits[a.at] + 1]
  {
    StoreAllKeeps(Enter(p, Arrive(a.state, a.at), a.at), c.stores);
    hide StoreAll, Execute;
  }

  lemma {:induction false} CommitMeans(s: FlowState, v: StepVisit, writes: Values, c: Choices, before: FlowState)
    requires s.values == before.values && s.defaulted == before.defaulted && v.committed.Keys == writes.Keys
    requires forall key :: key in writes ==> MergedWrite(s, key, writes[key], c, v.committed[key])
    ensures CommitsTo(before, writes, c, Commit(s, v)) && CommitsTo(before, writes, c, EndRewind(Commit(s, v), true))
  {
  }

  ghost predicate SameKeys(before: FlowState, after: FlowState) {
    forall key :: SameKey(before, after, key)
  }

  /** The state an iteration leaves, before it starts a rewind, holds what a visit that succeeds commits. */
  lemma SuccessMeans(p: Pipeline, a: Config, c: Choices)
    requires Accepted(p) && Sized(p) && Fits(p, a.state) && a.at < |p.steps|
    requires VisitAt(p, a, c).err == [] && !VisitAt(p, a, c).rejected && Finish(p, a.state, a.at, c).next.Goto?
    ensures c.outcome.Returns? && CommitsTo(a.state, c.outcome.writes, c, MidOf(p, a, c))
  {
    assert DistinctKeys(p.steps[a.at].writeKeys) && |p.success| == |p.steps| == |p.maxVisits|;
    hide Accepted, Execute, CommitsTo, MergedWrite, Commit, EndRewind, Flow.Succeeded, StoreAll, Enter, DistinctKeys;
    ExecutedIn(p, a, c);
    var (s, v) := Visited(p, a.state, a.at, c);
    VisitCommits(p, s, a.at, AmendedView(Arrive(a.state, a.at), a.at), c);
    CommitMeans(s, v, c.outcome.writes, c, a.state);
    SuccessLeaves(p, s, a.at, v);
  }

  lemma SuccessLeaves(p: Pipeline, s: FlowState, i: nat, v: StepVisit)
    requires i < |p.steps| && !v.rejected && Flow.Succeeded(p, s, i, v).next.Goto?
    ensures Flow.Succeeded(p, s, i, v).mid == if EndsRewind(s, i) then EndRewind(Commit(s, v), true) else Commit(s, v)
  {
    hide EndRewind, Commit, RejectRewind, StepFailed;
  }

  /** A visit that fails and is not undone changes nothing. */
  lemma FailureMeans(p: Pipeline, a: Config, c: Choices)
    requires Sized(p) && Fits(p, a.state) && a.at < |p.steps|
    requires VisitAt(p, a, c).err != [] && !Finish(p, a.state, a.at, c).undone
    ensures SameKeys(a.state, MidOf(p, a, c))
  {
    hide Execute, FailedStep, StoreAll, Enter;
    ExecutedIn(p, a, c);
    var (s, v) := Visited(p, a.state, a.at, c);
    FailureLeaves(p, s, a.at, v, c);
    assert MidOf(p, a, c).values == a.state.values && MidOf(p, a, c).defaulted == a.state.defaulted;
  }

  lemma FailureLeaves(p: Pipeline, s: FlowState, i: nat, v: StepVisit, c: Choices)
    requires Sized(p) && Fits(p, s) && i < |p.steps| && !FailedStep(p, s, i, v, c).undone
    ensures var mid := FailedStep(p, s, i, v, c).mid; mid == s || (EndsRewind(s, i) && mid == EndRewind(s, true))
  {
    hide DecideFailure, StepFailed, RejectRewind, ChooseRestored, KeyValues, EndRewind;
  }

  /** An iteration that starts no rewind goes on with what it has left. */
  lemma GoesOnWith(p: Pipeline, a: Config, c: Choices, b: Config)
    requires Sized(p) && Steps(p, a, c, b) && Finish(p, a.state, a.at, c).rewind.None?
    ensures Finish(p, a.state, a.at, c).next.Goto? && b.state == MidOf(p, a, c).(before := b.state.before)
  {
    hide Finish, SnapshotSkipped;
    var e := Finish(p, a.state, a.at, c);
    if e.next.Goto? {
      SkippedSame(p, e.mid, a.at + 1, Min(e.next.index, |p.steps|));
    }
  }

  lemma SameBefore(s: FlowState, mid: FlowState, after: FlowState, writes: Values, c: Choices)
    requires after == mid.(before := after.before)
    ensures CommitsTo(s, writes, c, mid) ==> CommitsTo(s, writes, c, after)
    ensures SameKeys(s, mid) ==> SameKeys(s, after)
  {
    hide MergedWrite;
    forall key ensures SameKeys(s, mid) ==> SameKey(s, after, key) {
      assert SameKeys(s, mid) ==> SameKey(s, mid, key);
    }
    forall key ensures CommitsTo(s, writes, c, mid) ==> CommitsKey(s, writes, c, after, key) {
      assert CommitsTo(s, writes, c, mid) ==> CommitsKey(s, writes, c, mid, key);
    }
  }

  /** Committing, on runs. An iteration that takes no rewind leaves, of a visit that succeeds and is not rejected,
      each key it set as its merge made it of the write the key held, and every other key as it was; and of one that
      fails and is not undone every key. */
  lemma RunCommits(p: Pipeline, inputs: Values, run: seq<Config>, cs: seq<Choices>, k: nat)
    requires Accepted(p) && IsRun(p, inputs, run, cs) && k < |cs|
    requires Sized(p) && Fits(p, run[k].state) && run[k].at < |p.steps| && Finish(p, run[k].state, run[k].at, cs[k]).rewind.None?
    ensures var v := VisitAt(p, run[k], cs[k]);
      && (v.err == [] && !v.rejected ==>
           cs[k].outcome.Returns? && CommitsTo(run[k].state, cs[k].outcome.writes, cs[k], run[k + 1].state))
      && (v.err != [] && !Finish(p, run[k].state, run[k].at, cs[k]).undone ==> SameKeys(run[k].state, run[k + 1].state))
  {
    hide Accepted, Starts, Finish, VisitAt, CommitsTo, SameKeys, MidOf, Iterate;
    assert Steps(p, run[k], cs[k], run[k + 1]);
    var a, c, b := run[k], cs[k], run[k + 1];
    GoesOnWith(p, a, c, b);
    var v := VisitAt(p, a, c);
    if v.err == [] && !v.rejected {
      SuccessMeans(p, a, c);
      SameBefore(a.state, MidOf(p, a, c), b.state, c.outcome.writes, c);
    } else if v.err != [] && !Finish(p, a.state, a.at, c).undone {
      FailureMeans(p, a, c);
      SameBefore(a.state, MidOf(p, a, c), b.state, map[], c);
    }
  }
}

/** A rejected rewind is an exact undo: values, defaults, step cache and tools are as when it was taken. */
module Rejection {
  import opened Basics
  import opened Pipelines
  import opened Flow
  import opened Runs
  import opened Invariant
  import opened Soundness
  import opened Iterations
  import opened RunTheorems

  /** Everything of a run a rejected rewind must leave as it was. */
  datatype Saved = Saved(values: Values, defaulted: set<Name>, cache: Cache, tools: Tools)

  function Save(s: FlowState): Saved {
    Saved(s.values, s.defaulted, s.cache, s.tools)
  }

  /** What rejecting the running rewind would leave. */
  function SaveUndone(p: Pipeline, s: FlowState): Saved
    requires s.rewind.Some? && s.journal.Some?
  {
    Saved(Undo(p, s).values, Undo(p, s).defaulted, TakeBack(s.cache, s.journal.value), s.tools)
  }

  // ---- what keeps it ----

  /** A journal takes back whatever is stored while it runs. */
  lemma {:induction false} StoreKeepsTakeBack(s: FlowState, stores: seq<(CacheKey, int)>)
    requires s.journal.Some?
    ensures var r := StoreAll(s, stores);
      r.journal.Some? && TakeBack(r.cache, r.journal.value) == TakeBack(s.cache, s.journal.value)
    decreases |stores|
  {
    if stores != [] {
      var r := StoreCached(s, stores[0].0, stores[0].1);
      assert TakeBack(r.cache, r.journal.value) == TakeBack(s.cache, s.journal.value);
      StoreKeepsTakeBack(r, stores[1..]);
    }
  }

  /** Starting a rewind keeps everything recoverable. */
  lemma StartSaves(p: Pipeline, s: FlowState, rule: Rule, amended: Option<Values>)
    ensures var r := StartRewind(p, s, rule, amended);
      r.rewind.Some? && r.journal.Some? && SaveUndone(p, r) == Save(s)
  {
    UndoStarted(p, s, rule, amended);
    assert TakeBack(s.cache, map[]) == s.cache;
  }

  /** Rejecting gives back exactly that. */
  lemma RejectRestores(p: Pipeline, s: FlowState)
    requires s.rewind.Some? && s.journal.Some?
    ensures Save(RejectRewind(p, s)) == SaveUndone(p, s)
  {
  }

  /** The visit of a step, up to its end, keeps it. */
  lemma VisitKeeps(p: Pipeline, known: Known, s: FlowState, i: nat, c: Choices)
    requires Accepted(p) && KnownOk(p, known) && Inv(p, known, s, i) && i < |p.steps|
    requires Arrive(s, i).rewind.Some?
    ensures var r := Visited(p, s, i, c).0;
      s.rewind.Some? && s.journal.Some? && r.rewind.Some? && r.journal.Some? && SaveUndone(p, r) == SaveUndone(p, s)
  {
    hide Accepted, KnownOk, SnapshotOk, AfterOk, BeforeOk, VisitsOk, RestoreValues, RestoreDefaulted, TakeBack;
    var s1 := Enter(p, s, i);
    StoreAllKeeps(s1, c.stores);
    StoreKeepsTakeBack(s1, c.stores);
    var r := StoreAll(s1, c.stores);
    assert Undo(p, r) == Undo(p, s);
  }

  /** If the rewind outlives the iteration, which left mid and may have undone it, what a rejection
      would leave has not changed; if the iteration rejected it, that is what it left. */
  ghost predicate Keeps(p: Pipeline, s: FlowState, mid: FlowState, undone: bool)
    requires s.rewind.Some? && s.journal.Some?
  {
    && (mid.rewind.Some? ==> mid.journal.Some? && SaveUndone(p, mid) == SaveUndone(p, s))
    && (undone ==> Save(mid) == SaveUndone(p, s))
  }

  lemma EndKept(p: Pipeline, s: FlowState)
    requires s.rewind.Some? && s.journal.Some?
    ensures Keeps(p, s, s, false) && Keeps(p, s, EndRewind(s, true), false) && Keeps(p, s, RejectRewind(p, s), true)
    ensures Keeps(p, s, EndRewind(RejectRewind(p, s), true), true)
  {
    RejectRestores(p, s);
  }

  lemma FollowKeeps(p: Pipeline, s: FlowState, mid: FlowState, i: nat, rule: Option<Rule>, readValues: Values,
    amended: Option<Values>, undone: bool)
    requires i < |p.steps|
    ensures var e := Follow(p, mid, i, rule, readValues, amended, undone); e.mid == mid && e.undone == undone
  {
  }

  lemma SucceededKeeps(p: Pipeline, known: Known, s: FlowState, i: nat, v: StepVisit)
    requires Accepted(p) && Ready(p, known, s, i) && VisitOk(p, known, s, i, v) && v.err == []
    requires s.rewind.Some? && s.journal.Some?
    ensures var e := Succeeded(p, s, i, v); Keeps(p, s, e.mid, e.undone)
  {
    CommitKeeps(p, known, s, i, v);
    EndKept(p, s);
    EndKept(p, Commit(s, v));
    hide Accepted, VisitOk, Ready, SaveUndone, Save, Commit, EndRewind, RejectRewind;
    var toFail := v.rule.Some? && v.rule.value.to == FAIL;
    var mid := if EndsRewind(s, i) then
        if v.rejected then RejectRewind(p, s) else EndRewind(if toFail then s else Commit(s, v), true)
      else if toFail then s else Commit(s, v);
    FollowKeeps(p, s, mid, i, v.rule, Resolve(v.view, s), v.amended, EndsRewind(s, i) && v.rejected);
  }

  lemma FailedKeeps(p: Pipeline, s: FlowState, i: nat, v: StepVisit, c: Choices)
    requires Sized(p) && Fits(p, s) && i < |p.steps|
    requires s.rewind.Some? && s.journal.Some?
    ensures var e := FailedStep(p, s, i, v, c); Keeps(p, s, e.mid, e.undone)
  {
    EndKept(p, s);
    hide SaveUndone, Save, EndRewind, RejectRewind, DecideFailure, ChooseRestored, StepFailed, Follow;
    if !c.ended && DecideFailure(p, s, i, v, c).GoRestore? {
      RestoreKeeps(p, s, i, v, c);
    }
  }

  lemma RestoreKeeps(p: Pipeline, s: FlowState, i: nat, v: StepVisit, c: Choices)
    requires Sized(p) && Fits(p, s) && i < |p.steps|
    requires s.rewind.Some? && s.journal.Some?
    ensures var e := RestoreFailed(p, s, i, v, c); Keeps(p, s, e.mid, e.undone)
  {
    EndKept(p, s);
    hide SaveUndone, Save, EndRewind, RejectRewind, ChooseRestored, StepFailed;
  }

  lemma FinishKeeps(p: Pipeline, known: Known, s: FlowState, i: nat, c: Choices)
    requires Accepted(p) && KnownOk(p, known) && Inv(p, known, s, i) && i < |p.steps|
    requires Arrive(s, i).rewind.Some?
    ensures s.rewind.Some? && s.journal.Some?
    ensures var e := Finish(p, s, i, c); Keeps(p, s, e.mid, e.undone)
  {
    VisitKeeps(p, known, s, i, c);
    EnterReady(p, known, s, i, c);
    hide Accepted, KnownOk, VisitOk, SaveUndone, Save, Visited, FailedStep, Succeeded, SnapshotOk, BeforeOk, PendingOk;
    var (s2, visit) := Visited(p, s, i, c);
    if visit.err == [] {
      SucceededKeeps(p, known, s2, i, visit);
    } else {
      FailedKeeps(p, s2, i, visit, c);
    }
  }

  lemma CommitKeeps(p: Pipeline, known: Known, s: FlowState, i: nat, v: StepVisit)
    requires Accepted(p) && Ready(p, known, s, i) && VisitOk(p, known, s, i, v) && v.err == []
    requires s.rewind.Some?
    ensures s.journal.Some? && Commit(s, v).journal.Some? && Commit(s, v).rewind.Some?
    ensures SaveUndone(p, Commit(s, v)) == SaveUndone(p, s)
  {
    InRange(p, known, s, i);
    CommitKeepsUndo(p, s, v);
  }

  // ---- the theorem ----

  /** The iteration from a takes a rewind. */
  predicate Takes(p: Pipeline, a: Config, c: Choices) {
    Sized(p) && Fits(p, a.state) && a.at < |p.steps| && Finish(p, a.state, a.at, c).next.Goto?
    && Finish(p, a.state, a.at, c).rewind.Some?
  }

  /** The iteration from a neither ends the running rewind nor starts another. */
  predicate Stays(p: Pipeline, a: Config, c: Choices) {
    Sized(p) && Fits(p, a.state) && a.at < |p.steps| && Finish(p, a.state, a.at, c).mid.rewind.Some?
  }

  /** The iteration from a rejects the running rewind: Accept returned false or failed, or
      RestoreOnError restored. */
  predicate Rejects(p: Pipeline, a: Config, c: Choices) {
    Sized(p) && Fits(p, a.state) && a.at < |p.steps| && Finish(p, a.state, a.at, c).undone
  }

  /** The state in which the iteration from a has dealt with its visit, before it starts a rewind. */
  function MidOf(p: Pipeline, a: Config, c: Choices): FlowState
    requires Sized(p) && Fits(p, a.state) && a.at < |p.steps|
  {
    Finish(p, a.state, a.at, c).mid
  }

  /** While a rewind taken by iteration m runs, rejecting it would leave what iteration m had. */
  lemma {:induction false} PendingSaves(
    p: Pipeline, inputs: Values, run: seq<Config>, cs: seq<Choices>, m: nat, k: nat)
    requires Accepted(p) && IsRun(p, inputs, run, cs) && m < k < |run|
    requires Takes(p, run[m], cs[m])
    requires forall j :: m < j < k ==> Stays(p, run[j], cs[j])
    ensures run[k].state.rewind.Some? && run[k].state.journal.Some?
    ensures SaveUndone(p, run[k].state) == Save(MidOf(p, run[m], cs[m]))
  {
    hide Accepted, KnownOk, Inv, SafeExits, Takes, Stays, Steps, MidOf, SaveUndone, Save, Starts;
    if k == m + 1 {
      assert Steps(p, run[m], cs[m], run[m + 1]);
      TakeSaves(p, run[m], cs[m], run[m + 1]);
    } else {
      PendingSaves(p, inputs, run, cs, m, k - 1);
      var known := RunInvAll(p, inputs, run, cs, k - 1);
      assert Stays(p, run[k - 1], cs[k - 1]);
      assert Steps(p, run[k - 1], cs[k - 1], run[k - 1 + 1]);
      StaySaves(p, known, run[k - 1], cs[k - 1], run[k]);
    }
  }

  lemma TakeSaves(p: Pipeline, a: Config, c: Choices, b: Config)
    requires Sized(p) && Steps(p, a, c, b) && Takes(p, a, c)
    ensures b.state.rewind.Some? && b.state.journal.Some? && SaveUndone(p, b.state) == Save(MidOf(p, a, c))
  {
    hide Finish, StartRewind, SaveUndone, Save;
    var e := Finish(p, a.state, a.at, c);
    StartSaves(p, e.mid, e.rewind.value, e.amended);
    SnapshotSkippedKeeps(p, StartRewind(p, e.mid, e.rewind.value, e.amended), a.at + 1, Min(e.next.index, |p.steps|));
  }

  lemma {:induction false} SnapshotSkippedKeeps(p: Pipeline, s: FlowState, k: int, end: int)
    requires 0 <= k && end <= |p.target|
    ensures var r := SnapshotSkipped(p, s, k, end);
      && r == s.(before := r.before)
      && (s.rewind.Some? && s.journal.Some? ==> SaveUndone(p, r) == SaveUndone(p, s))
    decreases end - k
  {
    hide RestoreValues, RestoreDefaulted, TakeBack;
    if k < end {
      SnapshotSkippedKeeps(p, if p.target[k] then s.(before := s.before[k := SnapshotAll(s)]) else s, k + 1, end);
    }
  }

  /** An iteration that leaves the rewind running was in its range and leaves it recoverable. */
  lemma StaySaves(p: Pipeline, known: Known, a: Config, c: Choices, b: Config)
    requires Accepted(p) && KnownOk(p, known) && SafeExits(p, known.free) && Inv(p, known, a.state, a.at)
    requires Sized(p) && Steps(p, a, c, b) && Stays(p, a, c)
    ensures a.state.rewind.Some? && a.state.journal.Some? && b.state.rewind.Some? && b.state.journal.Some?
    ensures SaveUndone(p, b.state) == SaveUndone(p, a.state)
  {
    var e := Finish(p, a.state, a.at, c);
    StaysHasNone(p, known, a.state, a.at, c);
    hide Accepted, KnownOk, Inv, SafeExits, Finish, SaveUndone, Save, StartRewind;
    StillRunning(p, known, a.state, a.at, c);
    FinishKeeps(p, known, a.state, a.at, c);
    SnapshotSkippedKeeps(p, e.mid, a.at + 1, Min(e.next.index, |p.steps|));
  }

  lemma StaysHasNone(p: Pipeline, known: Known, s: FlowState, i: nat, c: Choices)
    requires Accepted(p) && KnownOk(p, known) && SafeExits(p, known.free) && Inv(p, known, s, i) && i < |p.steps|
    requires Finish(p, s, i, c).mid.rewind.Some?
    ensures Finish(p, s, i, c).rewind.None?
  {
    FinishOk(p, known, s, i, c);
  }

  lemma StillRunning(p: Pipeline, known: Known, s: FlowState, i: nat, c: Choices)
    requires Accepted(p) && KnownOk(p, known) && SafeExits(p, known.free) && Inv(p, known, s, i) && i < |p.steps|
    requires Finish(p, s, i, c).mid.rewind.Some?
    ensures Arrive(s, i).rewind.Some?
  {
    FinishOk(p, known, s, i, c);
    StoreAllKeeps(Enter(p, Arrive(s, i), i), c.stores);
  }

  /** The rewind a run is in was taken by an earlier iteration, and every one since has left it running. */
  lemma {:induction false} TakenBefore(p: Pipeline, inputs: Values, run: seq<Config>, cs: seq<Choices>, k: nat) returns (m: nat)
    requires Accepted(p) && IsRun(p, inputs, run, cs) && k < |run| && run[k].state.rewind.Some?
    ensures m < k && Takes(p, run[m], cs[m]) && forall j :: m < j < k ==> Stays(p, run[j], cs[j])
  {
    hide Accepted, KnownOk, Inv, SafeExits, Takes, Stays, Steps;
    if k == 0 {
      assert false;
    }
    m := k - 1;
    assert Steps(p, run[m], cs[m], run[m + 1]);
    if !Takes(p, run[m], cs[m]) {
      var known := RunInvAll(p, inputs, run, cs, m);
      StaysFrom(p, known, run[m], cs[m], run[k]);
      m := TakenBefore(p, inputs, run, cs, m);
    }
  }

  /** A rewind running after an iteration that takes none was running before. */
  lemma StaysFrom(p: Pipeline, known: Known, a: Config, c: Choices, b: Config)
    requires Accepted(p) && KnownOk(p, known) && SafeExits(p, known.free) && Inv(p, known, a.state, a.at)
    requires Sized(p) && Steps(p, a, c, b) && !Takes(p, a, c) && b.state.rewind.Some?
    ensures Stays(p, a, c) && a.state.rewind.Some?
  {
    hide Accepted, KnownOk, Inv, SafeExits, Finish, SnapshotSkipped;
    var e := Finish(p, a.state, a.at, c);
    SkippedSame(p, e.mid, a.at + 1, Min(e.next.index, |p.steps|));
    StillRunning(p, known, a.state, a.at, c);
  }

  /** Rejection is an exact undo. Whenever an iteration q rejects a rewind, an earlier iteration m took it and it has
      run since, and the values, the keys that hold only a default, the step cache and the run's tools are what
      they were when m took it. */
  lemma RejectionIsUndo(p: Pipeline, inputs: Values, run: seq<Config>, cs: seq<Choices>, q: nat) returns (m: nat)
    requires Accepted(p) && IsRun(p, inputs, run, cs) && q < |cs|
    requires Rejects(p, run[q], cs[q])
    ensures m < q && Takes(p, run[m], cs[m]) && forall j :: m < j < q ==> Stays(p, run[j], cs[j])
    ensures Save(MidOf(p, run[q], cs[q])) == Save(MidOf(p, run[m], cs[m]))
  {
    hide Accepted, KnownOk, Inv, SafeExits, Takes, Stays, Rejects, Steps, Starts, Save, SaveUndone, MidOf;
    var known := RunInvAll(p, inputs, run, cs, q);
    RejectSaves(p, known, run[q], cs[q]);
    m := TakenBefore(p, inputs, run, cs, q);
    PendingSaves(p, inputs, run, cs, m, q);
  }

  /** A rejecting iteration leaves what the running rewind saved. */
  lemma RejectSaves(p: Pipeline, known: Known, a: Config, c: Choices)
    requires Accepted(p) && KnownOk(p, known) && SafeExits(p, known.free) && Inv(p, known, a.state, a.at)
    requires Rejects(p, a, c)
    ensures a.state.rewind.Some? && a.state.journal.Some?
    ensures Save(MidOf(p, a, c)) == SaveUndone(p, a.state)
  {
    StillRejecting(p, known, a.state, a.at, c);
    hide Accepted, KnownOk, Inv, SafeExits, Finish, SaveUndone, Save;
    FinishKeeps(p, known, a.state, a.at, c);
  }

  lemma StillRejecting(p: Pipeline, known: Known, s: FlowState, i: nat, c: Choices)
    requires Accepted(p) && KnownOk(p, known) && Inv(p, known, s, i) && i < |p.steps|
    requires Finish(p, s, i, c).undone
    ensures Arrive(s, i).rewind.Some?
  {
    StoreAllKeeps(Enter(p, Arrive(s, i), i), c.stores);
    hide Accepted, KnownOk, Inv, Execute, DecideFailure, ChooseRestored, RejectRewind, EndRewind, StoreAll;
  }
}

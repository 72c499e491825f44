/** What runs do with what steps stage for tools and store in the step cache. */
module Stages {
  import opened Basics
  import opened Pipelines
  import opened Flow
  import opened Runs
  import opened Invariant
  import opened Soundness
  import opened Iterations
  import opened RunTheorems
  import opened Rejection
  import opened Realizations
  import opened Effects
  import opened Resets
  import opened Ranges
  import FlowRuns

  /** What staged for tools, by a visit that had these tools, goes to: the tools themselves; inside a running rewind its
      stage; and at the rewind's From the stage and with it the tools. */
  ghost predicate StagesTo(tools: Tools, running: Option<Pending>, i: nat, staged: Tools, after: FlowState) {
    if running.None? then LaidOver(tools, staged, after.tools)
    else if running.value.rule.from != i then
      after.tools == tools && after.rewind.Some? && LaidOver(running.value.stage, staged, after.rewind.value.stage)
    else exists stage :: LaidOver(running.value.stage, staged, stage) && LaidOver(tools, stage, after.tools)
  }

  /** The tools once the run has come to a step: with the stage of a rewind whose range it has left. */
  ghost predicate ComesWith(a: Config, tools: Tools) {
    if a.state.rewind.Some? && a.at > a.state.rewind.value.rule.from then LaidOver(a.state.tools, a.state.rewind.value.stage, tools)
    else tools == a.state.tools
  }

  /** The j-th of stores is the last to store entry. */
  predicate LastStore(stores: seq<(CacheKey, int)>, j: int, entry: CacheKey) {
    0 <= j < |stores| && stores[j].0 == entry && forall l :: j < l < |stores| ==> stores[l].0 != entry
  }

  /** Each entry holds what was stored last, and what it held where nothing was. */
  ghost predicate CachesTo(before: Cache, stores: seq<(CacheKey, int)>, after: Cache) {
    forall entry :: CachesEntry(before, stores, after, entry)
  }

  ghost predicate CachesEntry(before: Cache, stores: seq<(CacheKey, int)>, after: Cache, entry: CacheKey) {
    && (forall j :: LastStore(stores, j, entry) ==> entry in after && after[entry] == stores[j].1)
    && ((forall j :: 0 <= j < |stores| ==> stores[j].0 != entry) ==>
         (entry in after <==> entry in before) && (entry in before ==> after[entry] == before[entry]))
  }

  lemma {:induction false} StoresMean(s: FlowState, stores: seq<(CacheKey, int)>)
    ensures CachesTo(s.cache, stores, StoreAll(s, stores).cache)
    decreases |stores|
  {
    if stores != [] {
      var next := StoreCached(s, stores[0].0, stores[0].1);
      StoresMean(next, stores[1..]);
      var after := StoreAll(s, stores).cache;
      forall entry ensures CachesEntry(s.cache, stores, after, entry) {
        assert CachesEntry(next.cache, stores[1..], after, entry);
        forall j | LastStore(stores, j, entry) ensures entry in after && after[entry] == stores[j].1 {
          if j > 0 {
            assert LastStore(stores[1..], j - 1, entry);
          } else {
            assert forall l :: 0 <= l < |stores[1..]| ==> stores[1..][l].0 != entry;
          }
        }
      }
    }
  }

  /** What the state a step is executed in holds for tools and in its cache. */
  lemma ComesIn(p: Pipeline, a: Config, c: Choices)
    requires Sized(p) && Fits(p, a.state) && a.at < |p.steps|
    ensures var s := Visited(p, a.state, a.at, c).0; ComesWith(a, s.tools) && CachesTo(a.state.cache, c.stores, s.cache)
  {
    var entered := Enter(p, Arrive(a.state, a.at), a.at);
    StoreAllKeeps(entered, c.stores);
    StoresMean(entered, c.stores);
    assert entered.cache == a.state.cache;
    hide StoreAll, Execute, CachesTo;
  }

  /** A visit that succeeds and is not rejected. */
  lemma SuccessStages(p: Pipeline, s: FlowState, i: nat, v: StepVisit)
    requires i < |p.steps| && !v.rejected && Flow.Succeeded(p, s, i, v).next.Goto?
    ensures var mid := Flow.Succeeded(p, s, i, v).mid; StagesTo(s.tools, s.rewind, i, v.staged, mid) && mid.cache == s.cache
    ensures EndsRewind(s, i) ==> Flow.Succeeded(p, s, i, v).mid.rewind.None?
  {
    SuccessLeaves(p, s, i, v);
    if EndsRewind(s, i) {
      var stage := s.rewind.value.stage + v.staged;
      assert LaidOver(s.rewind.value.stage, v.staged, stage);
      assert LaidOver(s.tools, stage, EndRewind(Commit(s, v), true).tools);
    }
    hide Flow.Succeeded;
  }

  /** A visit that fails and is not undone. */
  lemma FailureStages(p: Pipeline, s: FlowState, i: nat, v: StepVisit, c: Choices)
    requires Sized(p) && Fits(p, s) && i < |p.steps|
    requires var e := FailedStep(p, s, i, v, c); !e.undone && e.next.Goto?
    ensures var mid := FailedStep(p, s, i, v, c).mid; StagesTo(s.tools, s.rewind, i, map[], mid) && mid.cache == s.cache
  {
    FailureEnds(p, s, i, v, c);
    if EndsRewind(s, i) {
      assert LaidOver(s.rewind.value.stage, map[], s.rewind.value.stage);
      assert LaidOver(s.tools, s.rewind.value.stage, EndRewind(s, true).tools);
    }
    hide FailedStep;
  }

  lemma FailureEnds(p: Pipeline, s: FlowState, i: nat, v: StepVisit, c: Choices)
    requires Sized(p) && Fits(p, s) && i < |p.steps|
    requires var e := FailedStep(p, s, i, v, c); !e.undone && e.next.Goto?
    ensures FailedStep(p, s, i, v, c).mid == if EndsRewind(s, i) then EndRewind(s, true) else s
  {
    hide DecideFailure, StepFailed, RejectRewind, ChooseRestored, KeyValues, EndRewind;
  }

  /** What an iteration that goes on, and whose rewind is not undone, leaves before it starts a rewind. */
  lemma MidStages(p: Pipeline, a: Config, c: Choices)
    requires Accepted(p) && Sized(p) && Fits(p, a.state) && a.at < |p.steps|
    requires var e := Finish(p, a.state, a.at, c); e.next.Goto? && !e.undone
    ensures var v := VisitAt(p, a, c);
      var s := Visited(p, a.state, a.at, c).0;
      && ComesWith(a, s.tools) && (v.err == [] ==> c.outcome.Returns?)
      && StagesTo(s.tools, Now(a), a.at, if v.err == [] then c.outcome.staged else map[], MidOf(p, a, c))
      && CachesTo(a.state.cache, c.stores, MidOf(p, a, c).cache)
  {
    assert DistinctKeys(p.steps[a.at].writeKeys) && |p.success| == |p.steps| == |p.maxVisits|;
    hide Accepted, Execute, StagesTo, ComesWith, CachesTo, Flow.Succeeded, FailedStep, StoreAll, Enter, DistinctKeys;
    ExecutedIn(p, a, c);
    ComesIn(p, a, c);
    var (s, v) := Visited(p, a.state, a.at, c);
    if v.err == [] {
      VisitCommits(p, s, a.at, AmendedView(Arrive(a.state, a.at), a.at), c);
      SuccessMid(p, s, a.at, v, Now(a));
    } else {
      FailureMid(p, s, a.at, v, c, Now(a));
    }
  }

  lemma SuccessMid(p: Pipeline, s: FlowState, i: nat, v: StepVisit, now: Option<Pending>)
    requires i < |p.steps| && Flow.Succeeded(p, s, i, v).next.Goto? && !Flow.Succeeded(p, s, i, v).undone && (v.rejected ==> EndsRewind(s, i))
    requires SameRewind(s.rewind, now) && (now.Some? ==> s.rewind.value.stage == now.value.stage)
    ensures var mid := Flow.Succeeded(p, s, i, v).mid; StagesTo(s.tools, now, i, v.staged, mid) && mid.cache == s.cache
  {
    hide Flow.Succeeded, StagesTo;
    NotUndone(p, s, i, v);
    SuccessStages(p, s, i, v);
    SameStages(s.tools, s.rewind, now, i, v.staged, Flow.Succeeded(p, s, i, v).mid);
  }

  lemma FailureMid(p: Pipeline, s: FlowState, i: nat, v: StepVisit, c: Choices, now: Option<Pending>)
    requires Sized(p) && Fits(p, s) && i < |p.steps|
    requires var e := FailedStep(p, s, i, v, c); !e.undone && e.next.Goto?
    requires SameRewind(s.rewind, now) && (now.Some? ==> s.rewind.value.stage == now.value.stage)
    ensures var mid := FailedStep(p, s, i, v, c).mid; StagesTo(s.tools, now, i, map[], mid) && mid.cache == s.cache
  {
    hide FailedStep, StagesTo;
    FailureStages(p, s, i, v, c);
    SameStages(s.tools, s.rewind, now, i, map[], FailedStep(p, s, i, v, c).mid);
  }

  lemma NotUndone(p: Pipeline, s: FlowState, i: nat, v: StepVisit)
    requires i < |p.steps| && !Flow.Succeeded(p, s, i, v).undone
    ensures v.rejected ==> !EndsRewind(s, i)
  {
    hide RejectRewind, EndRewind, Commit, StepFailed;
  }

  lemma SameStages(tools: Tools, x: Option<Pending>, y: Option<Pending>, i: nat, staged: Tools, after: FlowState)
    requires SameRewind(x, y) && (x.Some? ==> x.value.stage == y.value.stage)
    ensures StagesTo(tools, x, i, staged, after) <==> StagesTo(tools, y, i, staged, after)
  {
  }

  /** What runs stage and cache. An iteration that goes on and does not undo its rewind gives what a successful visit
      staged to the tools, or inside a rewind to its stage, which the tools get at its From or when the run leaves the
      range; and each cache entry holds what was stored last. An undone rewind gives the tools nothing, and a rewind
      starts with an empty stage. */
  lemma StagesOnRun(p: Pipeline, inputs: Values, run: seq<Config>, cs: seq<Choices>, k: nat) returns (tools: Tools)
    requires Accepted(p) && IsRun(p, inputs, run, cs) && k < |cs|
    ensures Fits(p, run[k].state) && run[k].at < |p.steps| && ComesWith(run[k], tools)
    ensures var v, b := VisitAt(p, run[k], cs[k]), run[k + 1].state;
      if Finish(p, run[k].state, run[k].at, cs[k]).undone then b.tools == tools
      else
        && (v.err == [] ==> cs[k].outcome.Returns?)
        && StagesTo(tools, Now(run[k]), run[k].at, if v.err == [] then cs[k].outcome.staged else map[], b)
        && CachesTo(run[k].state.cache, cs[k].stores, b.cache)
    ensures Takes(p, run[k], cs[k]) ==> run[k + 1].state.rewind.Some? && run[k + 1].state.rewind.value.stage == map[]
  {
    hide Accepted, Starts, Finish, Execute, StagesTo, ComesWith, CachesTo, KnownOk, Inv, SafeExits, Iterate;
    assert Steps(p, run[k], cs[k], run[k + 1]);
    var a, c, b := run[k], cs[k], run[k + 1];
    var known := RunInvAll(p, inputs, run, cs, k);
    var e := Finish(p, a.state, a.at, c);
    tools := Visited(p, a.state, a.at, c).0.tools;
    ComesIn(p, a, c);
    StepLeaves(p, known, a, c, b);
    if e.undone {
      UndoneTools(p, a, c);
    } else {
      MidStages(p, a, c);
      var v := VisitAt(p, a, c);
      AfterMid(tools, Now(a), a.at, if v.err == [] then c.outcome.staged else map[], e.mid, b.state);
    }
  }

  /** What starting a rewind, or going on without, changes. */
  lemma StepLeaves(p: Pipeline, known: Known, a: Config, c: Choices, b: Config)
    requires Accepted(p) && KnownOk(p, known) && SafeExits(p, known.free) && Inv(p, known, a.state, a.at) && Sized(p) && Steps(p, a, c, b)
    ensures var e := Finish(p, a.state, a.at, c);
      && e.next.Goto? && b.state.tools == e.mid.tools && b.state.cache == e.mid.cache
      && (e.mid.rewind.Some? ==> b.state.rewind == e.mid.rewind)
      && (Takes(p, a, c) ==> b.state.rewind.Some? && b.state.rewind.value.stage == map[])
  {
    hide Accepted, KnownOk, SafeExits, Inv, Finish, SnapshotSkipped;
    var e := Finish(p, a.state, a.at, c);
    if e.rewind.Some? {
      TakeLeaves(p, known, a, c, b);
      if e.mid.rewind.Some? {
        StaysHasNone(p, known, a.state, a.at, c);
      }
      hide RestoreValues, RestoreDefaulted, RewindKeys, SnapshotOf;
    } else {
      GoesOnWith(p, a, c, b);
    }
  }

  lemma AfterMid(tools: Tools, running: Option<Pending>, i: nat, staged: Tools, mid: FlowState, after: FlowState)
    requires StagesTo(tools, running, i, staged, mid) && after.tools == mid.tools && (mid.rewind.Some? ==> after.rewind == mid.rewind)
    ensures StagesTo(tools, running, i, staged, after)
  {
  }

  lemma UndoneTools(p: Pipeline, a: Config, c: Choices)
    requires Sized(p) && Fits(p, a.state) && a.at < |p.steps| && Finish(p, a.state, a.at, c).undone
    ensures MidOf(p, a, c).tools == Visited(p, a.state, a.at, c).0.tools
  {
    hide Visited, FailedStep, Flow.Succeeded;
    var (s, v) := Visited(p, a.state, a.at, c);
    if v.err == [] {
      SuccessUndone(p, s, a.at, v);
    } else {
      FailureUndone(p, s, a.at, v, c);
    }
  }

  lemma SuccessUndone(p: Pipeline, s: FlowState, i: nat, v: StepVisit)
    requires i < |p.steps| && Flow.Succeeded(p, s, i, v).undone
    ensures Flow.Succeeded(p, s, i, v).mid.tools == s.tools
  {
    hide RestoreValues, RestoreDefaulted, EndJournal, EndRewind, Commit, StepFailed;
  }

  lemma FailureUndone(p: Pipeline, s: FlowState, i: nat, v: StepVisit, c: Choices)
    requires Sized(p) && Fits(p, s) && i < |p.steps| && FailedStep(p, s, i, v, c).undone
    ensures FailedStep(p, s, i, v, c).mid.tools == s.tools
  {
    assert s.rewind.Some? ==> RejectRewind(p, s).tools == s.tools && RejectRewind(p, s).rewind.None?;
    hide DecideFailure, StepFailed, RejectRewind, ChooseRestored, KeyValues, EndRewind;
  }

  // ---- how runs end ----

  /** What a run leaves to its tools and in the cache when it ends: the stage of a rewind that still runs goes to the
      tools; an iteration that fails the run stages nothing of its own visit. */
  lemma StagesAtEnd(p: Pipeline, inputs: Values, run: seq<Config>, cs: seq<Choices>, c: Choices, s: FlowState, err: Option<StepError>)
    returns (tools: Tools)
    requires Accepted(p) && IsRun(p, inputs, run, cs) && FlowRuns.Ends(p, run[|cs|], c, s, err)
    ensures ComesWith(run[|cs|], tools)
    ensures err.None? ==> s.tools == tools && s.cache == run[|cs|].state.cache && s.values == run[|cs|].state.values
    ensures err.Some? ==>
      if Finish(p, run[|cs|].state, run[|cs|].at, c).undone then s.tools == tools
      else
        && LaidOver(tools, if Now(run[|cs|]).Some? then Now(run[|cs|]).value.stage else map[], s.tools)
        && CachesTo(run[|cs|].state.cache, c.stores, s.cache)
  {
    hide Accepted, Starts, Finish, Execute, CachesTo, KnownOk, Inv, SafeExits;
    var a := run[|cs|];
    if err.None? {
      tools := s.tools;
    } else {
      tools := Visited(p, a.state, a.at, c).0.tools;
      ComesIn(p, a, c);
      ExecutedIn(p, a, c);
      EndLeaves(p, a, c);
      if Finish(p, a.state, a.at, c).undone {
        UndoneTools(p, a, c);
        UndoneEnds(p, a, c);
      }
    }
  }

  /** An iteration that fails the run. */
  lemma EndLeaves(p: Pipeline, a: Config, c: Choices)
    requires Sized(p) && Fits(p, a.state) && a.at < |p.steps| && Finish(p, a.state, a.at, c).next.Failed?
    ensures Iterate(p, a.state, a.at, c).0 == EndRewind(MidOf(p, a, c), true)
    ensures !Finish(p, a.state, a.at, c).undone ==> Iterate(p, a.state, a.at, c).0 == EndRewind(Visited(p, a.state, a.at, c).0, true)
  {
    hide Visited, FailedStep, Flow.Succeeded, EndRewind;
    var (s, v) := Visited(p, a.state, a.at, c);
    if v.err == [] {
      SuccessFails(p, s, a.at, v);
    } else {
      FailureFails(p, s, a.at, v, c);
    }
  }

  lemma SuccessFails(p: Pipeline, s: FlowState, i: nat, v: StepVisit)
    requires i < |p.steps| && Flow.Succeeded(p, s, i, v).next.Failed?
    ensures var e := Flow.Succeeded(p, s, i, v); !e.undone ==> EndRewind(e.mid, true) == EndRewind(s, true)
  {
    assert EndRewind(EndRewind(s, true), true) == EndRewind(s, true);
    hide EndRewind, RejectRewind, Commit, StepFailed;
  }

  lemma FailureFails(p: Pipeline, s: FlowState, i: nat, v: StepVisit, c: Choices)
    requires Sized(p) && Fits(p, s) && i < |p.steps| && FailedStep(p, s, i, v, c).next.Failed?
    ensures var e := FailedStep(p, s, i, v, c); !e.undone ==> EndRewind(e.mid, true) == EndRewind(s, true)
  {
    assert EndRewind(EndRewind(s, true), true) == EndRewind(s, true);
    hide DecideFailure, StepFailed, RejectRewind, ChooseRestored, KeyValues, EndRewind;
  }

  /** Once a rewind is undone none runs. */
  lemma UndoneEnds(p: Pipeline, a: Config, c: Choices)
    requires Sized(p) && Fits(p, a.state) && a.at < |p.steps| && Finish(p, a.state, a.at, c).undone
    ensures EndRewind(MidOf(p, a, c), true) == MidOf(p, a, c)
  {
    hide Visited, FailedStep, Flow.Succeeded;
    var (s, v) := Visited(p, a.state, a.at, c);
    if v.err == [] {
      SuccessNone(p, s, a.at, v);
    } else {
      FailureNone(p, s, a.at, v, c);
    }
  }

  lemma SuccessNone(p: Pipeline, s: FlowState, i: nat, v: StepVisit)
    requires i < |p.steps| && Flow.Succeeded(p, s, i, v).undone
    ensures Flow.Succeeded(p, s, i, v).mid.rewind.None?
  {
    hide RestoreValues, RestoreDefaulted, EndJournal, EndRewind, Commit, StepFailed;
  }

  lemma FailureNone(p: Pipeline, s: FlowState, i: nat, v: StepVisit, c: Choices)
    requires Sized(p) && Fits(p, s) && i < |p.steps| && FailedStep(p, s, i, v, c).undone
    ensures FailedStep(p, s, i, v, c).mid.rewind.None?
  {
    assert s.rewind.Some? ==> RejectRewind(p, s).rewind.None?;
    hide DecideFailure, StepFailed, RejectRewind, ChooseRestored, KeyValues, EndRewind;
  }
}

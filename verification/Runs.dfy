/** Iterations and runs: the loop of flowRun.run over the functions of module Flow. */
module Runs {
  import opened Basics
  import opened Pipelines
  import opened Flow

  /** The tables have one entry a step. */
  predicate Sized(p: Pipeline) {
    |p.steps| == |p.success| == |p.failure| == |p.maxVisits| == |p.target| == |p.fallback|
  }

  /** A state a run of p may be in: a visit count a step and a rewind from one of the steps. */
  predicate Fits(p: Pipeline, s: FlowState) {
    && |s.visits| == |p.steps|
    && (s.rewind.Some? ==> s.rewind.value.rule.from < |p.steps|)
  }

  /** The state as an iteration that visits step i starts: a run that has left the range of the
      running rewind ends it. */
  function Arrive(s: FlowState, i: nat): FlowState {
    if s.rewind.Some? && i > s.rewind.value.rule.from then EndRewind(s, true) else s
  }

  /** The state step i is executed in, and how its visit ended. */
  function Visited(p: Pipeline, s: FlowState, i: nat, c: Choices): (r: (FlowState, StepVisit))
    requires Sized(p) && Fits(p, s) && i < |p.steps|
    ensures Fits(p, r.0)
  {
    var s1 := Arrive(s, i);
    var s2 := StoreAll(Enter(p, s1, i), c.stores);
    StoreAllKeeps(Enter(p, s1, i), c.stores);
    (s2, Execute(p, s2, i, AmendedView(s1, i), c))
  }

  /** Storing in the step cache changes the cache and its journal only. */
  lemma {:induction false} StoreAllKeeps(s: FlowState, stores: seq<(CacheKey, int)>)
    ensures var r := StoreAll(s, stores);
      r == s.(cache := r.cache, journal := r.journal) && r.journal.Some? == s.journal.Some?
    decreases |stores|
  {
    if stores != [] {
      StoreAllKeeps(StoreCached(s, stores[0].0, stores[0].1), stores[1..]);
    }
  }

  /** How the iteration that visits step i ends, before it starts a rewind. */
  function Finish(p: Pipeline, s: FlowState, i: nat, c: Choices): Ending
    requires Sized(p) && Fits(p, s) && i < |p.steps|
  {
    var (s1, visit) := Visited(p, s, i, c);
    if visit.err != [] then FailedStep(p, s1, i, visit, c) else Succeeded(p, s1, i, visit)
  }

  /** The state as snapshots of the rewind targets from step k up to step end leave it. */
  function SnapshotSkipped(p: Pipeline, s: FlowState, k: int, end: int): FlowState
    requires 0 <= k && end <= |p.target|
    decreases end - k
  {
    if k >= end then s
    else SnapshotSkipped(p, if p.target[k] then s.(before := s.before[k := SnapshotAll(s)]) else s, k + 1, end)
  }

  lemma {:induction false} SkippedSame(p: Pipeline, s: FlowState, k: int, end: int)
    requires 0 <= k && end <= |p.target|
    ensures var r := SnapshotSkipped(p, s, k, end); r == s.(before := r.before)
    decreases end - k
  {
    if k < end {
      SkippedSame(p, if p.target[k] then s.(before := s.before[k := SnapshotAll(s)]) else s, k + 1, end);
    }
  }

  /** The state after the iteration, and where the run goes. */
  function Iterate(p: Pipeline, s: FlowState, i: nat, c: Choices): (FlowState, Next)
    requires Sized(p) && Fits(p, s) && i < |p.steps|
  {
    var e := Finish(p, s, i, c);
    if e.next.Failed? then (EndRewind(e.mid, true), e.next)
    else
      var s1 := if e.rewind.Some? then StartRewind(p, e.mid, e.rewind.value, e.amended) else e.mid;
      (SnapshotSkipped(p, s1, i + 1, Min(e.next.index, |p.steps|)), e.next)
  }
}

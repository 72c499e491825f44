/** What a running rewind holds: the snapshot its Accept compares with, and what its Amend set. */
module Ranges {
  import opened Basics
  import opened Pipelines
  import opened Flow
  import opened Runs
  import opened Invariant
  import opened Soundness
  import opened Iterations
  import opened RunTheorems
  import opened Rejection
  import opened Termination
  import opened Realizations
  import opened Effects
  import opened Resets
  import opened Hooks

  // ---- the rewind that runs ----

  /** An iteration that leaves the rewind running leaves it the rule, the snapshot and, after its first visit,
      nothing of what Amend set. */
  lemma MidRewind(p: Pipeline, a: Config, c: Choices)
    requires Sized(p) && Fits(p, a.state) && a.at < |p.steps| && MidOf(p, a, c).rewind.Some?
    ensures SameRewind(Now(a), MidOf(p, a, c).rewind)
    ensures MidOf(p, a, c).rewind.value.amended == if Now(a).value.rule.to == a.at then None else Now(a).value.amended
  {
    StoreAllKeeps(Enter(p, Arrive(a.state, a.at), a.at), c.stores);
    var (s, v) := Visited(p, a.state, a.at, c);
    assert SameRewind(Now(a), s.rewind);
    assert s.rewind.Some? ==> s.rewind.value.amended == if Now(a).value.rule.to == a.at then None else Now(a).value.amended;
    hide Execute, StoreAll, Enter, Arrive, FailedStep, Flow.Succeeded, Visited, SameRewind;
    if v.err != [] {
      FailedRewind(p, s, a.at, v, c);
    } else {
      SucceededRewind(p, s, a.at, v);
    }
  }

  lemma SucceededRewind(p: Pipeline, s: FlowState, i: nat, v: StepVisit)
    requires i < |p.steps|
    ensures var mid := Flow.Succeeded(p, s, i, v).mid; mid.rewind.Some? ==>
      SameRewind(s.rewind, mid.rewind) && mid.rewind.value.amended == s.rewind.value.amended
  {
    hide StepFailed, EndJournal, RestoreValues, RestoreDefaulted;
  }

  lemma FailedRewind(p: Pipeline, s: FlowState, i: nat, v: StepVisit, c: Choices)
    requires Sized(p) && Fits(p, s) && i < |p.steps|
    ensures var mid := FailedStep(p, s, i, v, c).mid; mid.rewind.Some? ==> mid == s
  {
    assert s.rewind.Some? ==> RejectRewind(p, s).rewind.None?;
    hide DecideFailure, StepFailed, RejectRewind, ChooseRestored, KeyValues, EndJournal;
  }

  /** While the rewind iteration m took runs, it has m's rule and the snapshot of what m had left. */
  lemma {:induction false} KeptSince(p: Pipeline, inputs: Values, run: seq<Config>, cs: seq<Choices>, m: nat, k: nat)
    requires Accepted(p) && IsRun(p, inputs, run, cs) && m < k < |run| && Takes(p, run[m], cs[m])
    requires forall j :: m < j < k ==> Stays(p, run[j], cs[j])
    ensures run[k].state.rewind.Some?
    ensures var r, e := run[k].state.rewind.value, Finish(p, run[m].state, run[m].at, cs[m]);
      r.rule == e.rewind.value && r.prev == SnapshotOf(e.mid, RewindKeys(p, r.rule))
    ensures run[k].state.rewind.value.amended == if k == m + 1 then Finish(p, run[m].state, run[m].at, cs[m]).amended else None
  {
    hide Accepted, KnownOk, Inv, SafeExits, Finish, MidOf, SnapshotOf, RewindKeys, Starts, Stays, Takes, Steps;
    if k == m + 1 {
      assert Steps(p, run[m], cs[m], run[m + 1]);
      var known := RunInvAll(p, inputs, run, cs, m);
      TakenRewind(p, known, run[m], cs[m], run[m + 1]);
    } else {
      KeptSince(p, inputs, run, cs, m, k - 1);
      assert Stays(p, run[k - 1], cs[k - 1]);
      assert Steps(p, run[k - 1], cs[k - 1], run[k - 1 + 1]);
      var known := RunInvAll(p, inputs, run, cs, k - 1);
      StaysRewind(p, known, run[k - 1], cs[k - 1], run[k]);
      if k - 1 == m + 1 {
        assert Steps(p, run[m], cs[m], run[m + 1]);
        var earlier := RunInvAll(p, inputs, run, cs, m);
        TakenRewind(p, earlier, run[m], cs[m], run[m + 1]);
      }
    }
  }

  lemma TakenRewind(p: Pipeline, known: Known, a: Config, c: Choices, b: Config)
    requires Accepted(p) && KnownOk(p, known) && SafeExits(p, known.free) && Inv(p, known, a.state, a.at) && Sized(p)
    requires Steps(p, a, c, b) && Takes(p, a, c)
    ensures var e := Finish(p, a.state, a.at, c);
      && b.at == e.rewind.value.to <= e.rewind.value.from
      && b.state.rewind == Some(Pending(e.rewind.value, SnapshotOf(e.mid, RewindKeys(p, e.rewind.value)), e.amended, map[]))
  {
    hide Accepted, KnownOk, Inv, SafeExits, Finish, RestoreValues, RestoreDefaulted;
    TakeFacts(p, known, a.state, a.at, c);
    TakeLeaves(p, known, a, c, b);
  }

  lemma StaysRewind(p: Pipeline, known: Known, a: Config, c: Choices, b: Config)
    requires Accepted(p) && KnownOk(p, known) && SafeExits(p, known.free) && Inv(p, known, a.state, a.at)
    requires Sized(p) && Steps(p, a, c, b) && Stays(p, a, c)
    ensures a.state.rewind.Some? && SameRewind(a.state.rewind, b.state.rewind)
    ensures b.state.rewind.value.amended == if a.state.rewind.value.rule.to == a.at then None else a.state.rewind.value.amended
  {
    StaysHasNone(p, known, a.state, a.at, c);
    hide Accepted, KnownOk, Inv, SafeExits, Finish;
    StillRunning(p, known, a.state, a.at, c);
    MidRewind(p, a, c);
    GoesOnWith(p, a, c, b);
  }

  // ---- Accept ----

  /** The keys a step of the rewind's range writes. */
  ghost function RangeKeys(p: Pipeline, rule: Rule): iset<Name>
    requires rule.rewind && rule.to >= 0
  {
    iset key | WrittenIn(p.steps, SpanOf(rule), key)
  }

  lemma RangePart(p: Pipeline, rule: Rule, values: Values)
    requires Accepted(p) && rule in p.rules && rule.rewind && rule.to >= 0
    ensures PartOf(values, RangeKeys(p, rule), KeyValues(values, RewindKeys(p, rule)))
  {
    assert TablesOk(p);
    forall key ensures key in RewindKeys(p, rule) <==> WrittenIn(p.steps, SpanOf(rule), key) {
      KeysOfRange(p, rule, key);
    }
    hide Accepted, TablesOk, WrittenIn, RewindKeys;
  }

  /** What Accept is asked. A visit of From, back from a rewind with an Accept, whose writes are allowed and merge, has
      Accept compare the keys of the range as they were when the rewind was taken, by iteration m, with what they
      would be if the visit committed; what it answers decides whether the visit is accepted, rejected or fails. */
  lemma AcceptAsked(p: Pipeline, inputs: Values, run: seq<Config>, cs: seq<Choices>, k: nat, c: Choices)
    returns (m: nat, committed: Values, was: Values, now: Values)
    requires Accepted(p) && IsRun(p, inputs, run, cs) && k < |run| && Fits(p, run[k].state) && run[k].at < |p.steps|
    requires Now(run[k]).Some? && Now(run[k]).value.rule.from == run[k].at && Now(run[k]).value.rule.hasAccept
    requires c.outcome.Returns? && WritesOk(p.steps[run[k].at], Sees(run[k]), c.outcome.writes, c.outcome.preserved)
    requires forall j :: 0 <= j < |p.steps[run[k].at].writeKeys| ==>
      MayMerge(p, run[k].state, p.steps[run[k].at].writeKeys[j], c.outcome.writes, c)
    ensures m < k && Takes(p, run[m], cs[m]) && forall j :: m < j < k ==> Stays(p, run[j], cs[j])
    ensures committed.Keys == c.outcome.writes.Keys
    ensures forall key :: key in committed ==> MergedWrite(run[k].state, key, c.outcome.writes[key], c, committed[key])
    ensures var rule, v := Now(run[k]).value.rule, VisitAt(p, run[k], c);
      && rule.rewind && rule.to >= 0
      && PartOf(MidOf(p, run[m], cs[m]).values, RangeKeys(p, rule), was)
      && PartOf(run[k].state.values + committed, RangeKeys(p, rule), now)
      && (v.accepted <==> c.accept(was, now) == Yes) && (v.rejected <==> c.accept(was, now) == No)
      && (v.acceptFailed <==> c.accept(was, now) == Panics)
  {
    var a := run[k];
    KnownRule(p, inputs, run, cs, k);
    assert DistinctKeys(p.steps[a.at].writeKeys) && |p.success| == |p.steps| == |p.maxVisits|;
    hide Accepted, Starts, Takes, Stays, Finish, MidOf, PartOf, RangeKeys, StoreAll, Enter, Arrive, AmendedView, MayMerge, MergedWrite,
      WritesOk, Decide, MergeWrites, Execute, RewindKeys, KeyValues;
    m := TakenBefore(p, inputs, run, cs, k);
    KeptSince(p, inputs, run, cs, m, k);
    var rule := Now(a).value.rule;
    RangePart(p, rule, MidOf(p, run[m], cs[m]).values);
    committed, was, now := AcceptIn(p, a, c);
    RangePart(p, rule, a.state.values + committed);
    PrevIs(p, run[m], cs[m], a);
  }

  lemma PrevIs(p: Pipeline, taken: Config, c: Choices, a: Config)
    requires Sized(p) && Fits(p, taken.state) && taken.at < |p.steps| && Now(a).Some?
    requires Now(a).value.prev == SnapshotOf(MidOf(p, taken, c), RewindKeys(p, Now(a).value.rule))
    ensures Now(a).value.prev.values == KeyValues(MidOf(p, taken, c).values, RewindKeys(p, Now(a).value.rule))
  {
  }

  lemma KnownRule(p: Pipeline, inputs: Values, run: seq<Config>, cs: seq<Choices>, k: nat)
    requires Accepted(p) && IsRun(p, inputs, run, cs) && k < |run| && Now(run[k]).Some?
    ensures run[k].state.rewind == Now(run[k])
    ensures var rule := Now(run[k]).value.rule; rule in p.rules && rule.rewind && rule.to >= 0
  {
    var known := RunInvAll(p, inputs, run, cs, k);
    var i :| 0 <= i < |p.rules| && p.rules[i] == Now(run[k]).value.rule;
    assert RuleOk(p.rules[i], |p.steps|);
  }

  lemma AcceptIn(p: Pipeline, a: Config, c: Choices) returns (committed: Values, was: Values, now: Values)
    requires Sized(p) && Fits(p, a.state) && a.at < |p.steps| && DistinctKeys(p.steps[a.at].writeKeys)
    requires Now(a).Some? && Now(a).value.rule.from == a.at && Now(a).value.rule.hasAccept
    requires c.outcome.Returns? && WritesOk(p.steps[a.at], Sees(a), c.outcome.writes, c.outcome.preserved)
    requires forall j :: 0 <= j < |p.steps[a.at].writeKeys| ==> MayMerge(p, a.state, p.steps[a.at].writeKeys[j], c.outcome.writes, c)
    ensures committed.Keys == c.outcome.writes.Keys
    ensures forall key :: key in committed ==> MergedWrite(a.state, key, c.outcome.writes[key], c, committed[key])
    ensures was == Now(a).value.prev.values && now == KeyValues(a.state.values + committed, RewindKeys(p, Now(a).value.rule))
    ensures var v := VisitAt(p, a, c);
      && (v.accepted <==> c.accept(was, now) == Yes) && (v.rejected <==> c.accept(was, now) == No)
      && (v.acceptFailed <==> c.accept(was, now) == Panics)
  {
    hide MergeWrites, WritesOk, MayMerge, MergedWrite, Enter, Arrive, AmendedView, KeyValues, RewindKeys, StoreAll, Decide, DistinctKeys;
    ExecutedIn(p, a, c);
    ViewHolds(p, a, c);
    var s, node, writes := Visited(p, a.state, a.at, c).0, p.steps[a.at], c.outcome.writes;
    var view := AmendedView(Arrive(a.state, a.at), a.at);
    MergesIn(p, a.state, s, node, writes, c, Sees(a));
    committed := MergeWrites(p, s, node, writes, c).value;
    was, now := Now(a).value.prev.values, KeyValues(a.state.values + committed, RewindKeys(p, Now(a).value.rule));
    Verdicts(p, s, a.at, view, writes, committed, c.outcome.staged, c);
    assert VisitAt(p, a, c) == Execute(p, s, a.at, view, c);
  }

  lemma MergesIn(p: Pipeline, before: FlowState, s: FlowState, node: StepNode, writes: Values, c: Choices, view: Values)
    requires s.values == before.values && s.defaulted == before.defaulted && DistinctKeys(node.writeKeys)
    requires c.outcome.Returns? && WritesOk(node, view, writes, c.outcome.preserved)
    requires forall j :: 0 <= j < |node.writeKeys| ==> MayMerge(p, before, node.writeKeys[j], writes, c)
    ensures var r := MergeWrites(p, s, node, writes, c);
      r.Ok? && r.value.Keys == writes.Keys && forall key :: key in writes ==> MergedWrite(before, key, writes[key], c, r.value[key])
  {
    MergeMeans(p, s, node, writes, c);
    assert forall j :: 0 <= j < |node.writeKeys| ==> MayMerge(p, s, node.writeKeys[j], writes, c);
    hide MergeWrites;
  }

  lemma Verdicts(p: Pipeline, s: FlowState, i: nat, view: View, writes: Values, committed: Values, staged: Tools, c: Choices)
    requires i < |p.steps| == |p.success| == |p.maxVisits| == |s.visits| && EndsRewind(s, i) && s.rewind.value.rule.hasAccept
    ensures var v := Decide(p, s, i, view, writes, committed, staged, c);
      var r := s.rewind.value;
      var answer := c.accept(r.prev.values, KeyValues(s.values + committed, RewindKeys(p, r.rule)));
      (v.accepted <==> answer == Yes) && (v.rejected <==> answer == No) && (v.acceptFailed <==> answer == Panics)
  {
    hide Choose, KeyValues, RewindKeys, RestoreValues;
  }

  // ---- Amend ----

  /** all is base with top laid over it. */
  ghost predicate LaidOver<T>(base: map<Name, T>, top: map<Name, T>, all: map<Name, T>) {
    forall key :: (key in all <==> key in base || key in top) && (key in all ==> all[key] == if key in top then top[key] else base[key])
  }

  /** What a step reads from is the state; on the first visit after a rewind, the target's, what the rewind's Amend set
      is laid over it. */
  lemma AmendSeen(p: Pipeline, inputs: Values, run: seq<Config>, cs: seq<Choices>, k: nat)
    requires Accepted(p) && IsRun(p, inputs, run, cs) && k < |run|
    ensures if k > 0 && Takes(p, run[k - 1], cs[k - 1])
      then
        var amended := Finish(p, run[k - 1].state, run[k - 1].at, cs[k - 1]).amended;
        LaidOver(run[k].state.values, if amended.Some? then amended.value else map[], Sees(run[k]))
      else Sees(run[k]) == run[k].state.values
  {
    hide Accepted, Starts, Takes, Stays, Finish, LaidOver, Inv, KnownOk, SafeExits;
    if run[k].state.rewind.Some? {
      var m := TakenBefore(p, inputs, run, cs, k);
      KeptSince(p, inputs, run, cs, m, k);
      if k == m + 1 {
        assert Steps(p, run[m], cs[m], run[m + 1]);
        var known := RunInvAll(p, inputs, run, cs, m);
        TakenRewind(p, known, run[m], cs[m], run[m + 1]);
        FirstSees(run[k]);
      } else {
        assert Stays(p, run[k - 1], cs[k - 1]);
        StaysTakesNone(p, inputs, run, cs, k - 1);
      }
    } else if k > 0 && Takes(p, run[k - 1], cs[k - 1]) {
      assert Steps(p, run[k - 1], cs[k - 1], run[k - 1 + 1]);
      var known := RunInvAll(p, inputs, run, cs, k - 1);
      TakenRewind(p, known, run[k - 1], cs[k - 1], run[k]);
    }
  }

  lemma StaysTakesNone(p: Pipeline, inputs: Values, run: seq<Config>, cs: seq<Choices>, k: nat)
    requires Accepted(p) && IsRun(p, inputs, run, cs) && k < |cs| && Stays(p, run[k], cs[k])
    ensures !Takes(p, run[k], cs[k])
  {
    var known := RunInvAll(p, inputs, run, cs, k);
    StaysHasNone(p, known, run[k].state, run[k].at, cs[k]);
  }

  lemma FirstSees(a: Config)
    requires a.state.rewind.Some? && a.state.rewind.value.rule.to == a.at && a.at <= a.state.rewind.value.rule.from
    ensures var amended := a.state.rewind.value.amended;
      LaidOver(a.state.values, if amended.Some? then amended.value else map[], Sees(a))
  {
  }

  /** What an Amend set is what the transition taken had it return. */
  lemma AmendedBy(p: Pipeline, a: Config, c: Choices)
    requires Takes(p, a, c)
    ensures var (s, v) := Visited(p, a.state, a.at, c);
      var e := Finish(p, a.state, a.at, c);
      if v.err == [] then v.rule == e.rewind && v.amended == e.amended
      else var d := DecideFailure(p, s, a.at, v, c); d.Take? && e.rewind == Some(d.rule) && e.amended == d.amended
  {
    hide Visited, FailedStep, Flow.Succeeded, DecideFailure;
    var (s, v) := Visited(p, a.state, a.at, c);
    if v.err == [] {
      SuccessAmends(p, s, a.at, v);
    } else {
      FailureAmends(p, s, a.at, v, c);
    }
  }

  lemma SuccessAmends(p: Pipeline, s: FlowState, i: nat, v: StepVisit)
    requires i < |p.steps| && Flow.Succeeded(p, s, i, v).rewind.Some?
    ensures var e := Flow.Succeeded(p, s, i, v); v.rule == e.rewind && v.amended == e.amended
  {
    hide RejectRewind, Commit, EndRewind, StepFailed;
  }

  lemma FailureAmends(p: Pipeline, s: FlowState, i: nat, v: StepVisit, c: Choices)
    requires Sized(p) && Fits(p, s) && i < |p.steps| && FailedStep(p, s, i, v, c).rewind.Some?
    ensures var e, d := FailedStep(p, s, i, v, c), DecideFailure(p, s, i, v, c);
      d.Take? && e.rewind == Some(d.rule) && e.amended == d.amended
  {
    if s.rewind.Some? {
      RestoresOn(p, s, i, v, c);
    }
    hide RejectRewind, EndRewind, StepFailed, DecideFailure, RestoreFailed;
  }

  /** A restored failure takes no rewind. */
  lemma RestoresOn(p: Pipeline, s: FlowState, i: nat, v: StepVisit, c: Choices)
    requires Sized(p) && Fits(p, s) && i < |p.steps| && s.rewind.Some?
    ensures RestoreFailed(p, s, i, v, c).rewind.None?
  {
    var from := s.rewind.value.rule.from;
    var view := KeyValues(RejectRewind(p, s).values, Names(p.steps[from].readKeys) + Names(p.steps[from].writeKeys));
    NoRewindChosen(p.success[from], 0, view, c);
    hide ChooseRestored, RejectRewind, KeyValues, StepFailed;
  }

  lemma {:induction false} NoRewindChosen(list: seq<Rule>, k: nat, view: Values, c: Choices)
    requires k <= |list|
    ensures var r := ChooseRestored(list, k, view, c); r.Chosen? && r.rule.Some? ==> !r.rule.value.rewind
    decreases |list| - k
  {
    if k < |list| {
      NoRewindChosen(list, k + 1, view, c);
    }
  }
}

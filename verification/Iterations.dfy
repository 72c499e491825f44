/** The invariant holds throughout every run of an accepted pipeline, and what follows from it. */
module Iterations {
  import opened Basics
  import opened Pipelines
  import opened Flow
  import opened Runs
  import opened Invariant
  import opened Soundness

  // ---- how a visit ends ----

  /** The visit fails after Accept rejected it or failed, so the snapshot is restored and then an
      OnError transition may take the run on from a state in which From had committed. */
  predicate FailsUndone(s: FlowState, i: nat, visit: StepVisit) {
    visit.err != [] && EndsRewind(s, i) && (visit.rejected || visit.acceptFailed)
  }

  /** The a-th rule rewinds under an Accept, the b-th takes the same step forward on error, and the
      step writes key: failing undone, the step leaves a write of key behind and may go by b. */
  predicate LeavesBehind(p: Pipeline, a: int, b: int, key: Name) {
    && 0 <= a < |p.rules| && 0 <= b < |p.rules|
    && p.rules[a].rewind && p.rules[a].hasAccept
    && p.rules[b].onError && Forward(p.rules[b]) && p.rules[b].from == p.rules[a].from
    && Writes(p.steps, p.rules[a].from, key)
  }

  /** What a step may leave behind is free, or written by no step the run may go on to. */
  ghost predicate SafeExits(p: Pipeline, free: set<Name>) {
    forall a, b, key, w :: LeavesBehind(p, a, b, key) && key !in free && Writes(p.steps, w, key)
      ==> w < Dest(p.rules[b], |p.steps|)
  }

  /** No key of step from that at holds, and that is not free, has a writer from next on. */
  ghost predicate LeavesNone(p: Pipeline, free: set<Name>, at: Snapshot, from: nat, next: int) {
    forall key, w :: key in at.values && key !in at.defaulted && key !in free && Writes(p.steps, from, key) && Writes(p.steps, w, key)
      ==> w < next
  }

  /** If the visit of step i fails undone and the run goes forward, it leaves none of i's writes behind. */
  ghost predicate ExitOk(p: Pipeline, free: set<Name>, s: FlowState, i: nat, v: StepVisit, e: Ending) {
    FailsUndone(s, i, v) && e.next.Goto? && e.rewind.None? ==> LeavesNone(p, free, SnapshotAll(e.mid), i, e.next.index)
  }

  /** The run finds what it should at next, and at each rewind target it skips from step i on. */
  ghost predicate ArrivesOk(p: Pipeline, known: Known, at: Snapshot, i: int, next: int) {
    forall t :: t == next || (i < t < next && IsTarget(p.rules, t)) ==> SnapshotOk(p, known, at, t)
  }

  /** The rewind rule may be taken after step i, from the state mid. */
  ghost predicate RewindsOk(p: Pipeline, known: Known, s: FlowState, i: nat, mid: FlowState, rule: Rule)
    requires i < |p.success| && |p.maxVisits| == |s.visits|
  {
    && rule in p.rules && rule.rewind && rule.from == i
    && !Exhausted(p, s, rule)
    && mid.rewind.None?
    && Available(p, mid.values, i) && PastAfter(p, known, SnapshotAll(mid), i)
    && (!rule.onError ==> AfterOk(p, known, SnapshotAll(mid), i))
  }

  /** The state mid in which the iteration of step i has ended the visit, which found s. */
  ghost predicate MidOk(p: Pipeline, known: Known, s: FlowState, mid: FlowState)
    requires |p.success| == |p.steps|
  {
    && mid.visits == s.visits && mid.before == s.before
    && WellTyped(known, mid.values)
    && PendingOk(p, known, mid)
    && (mid.rewind.Some? ==> s.rewind.Some? && mid.rewind.value.rule == s.rewind.value.rule)
  }

  /** What holds once an iteration of step i has ended: where the run goes it finds what it should,
      at each rewind target it skips too, and a rewind it starts is one of i's. */
  ghost predicate EndingOk(p: Pipeline, known: Known, s: FlowState, i: nat, e: Ending)
    requires i < |p.success| == |p.steps| == |p.maxVisits| == |s.visits|
  {
    && MidOk(p, known, s, e.mid)
    && (e.next.Failed? ==> e.rewind.None?)
    && (e.next.Goto? && e.rewind.Some? ==>
      && RewindsOk(p, known, s, i, e.mid, e.rewind.value)
      && e.next.index == e.rewind.value.to
      && (e.amended.Some? ==> WellTyped(known, e.amended.value)))
    && (e.next.Goto? && e.rewind.None? ==>
      i < e.next.index <= |p.steps| && ArrivesOk(p, known, SnapshotAll(e.mid), i, e.next.index))
  }

  /** Ready's facts of the range the run is in. */
  lemma InRange(p: Pipeline, known: Known, s: FlowState, i: nat)
    requires Accepted(p) && Ready(p, known, s, i) && s.rewind.Some?
    ensures var rule := s.rewind.value.rule;
      && 0 <= rule.to
      && (forall key :: Writes(p.steps, i, key) ==> key in RewindKeys(p, rule))
  {
    var rule := s.rewind.value.rule;
    forall key | Writes(p.steps, i, key) ensures key in RewindKeys(p, rule) {
      KeysOfRange(p, rule, key);
    }
    KeysOfRange(p, rule, "");
  }

  /** Following a rule on success from a state in which the step has succeeded. */
  lemma FollowOk(p: Pipeline, known: Known, s: FlowState, i: nat, mid: FlowState, from: nat,
    rule: Option<Rule>, readValues: Values, amended: Option<Values>, undone: bool)
    requires Accepted(p) && KnownOk(p, known) && Ready(p, known, s, i)
    requires i <= from < |p.steps|
    requires from != i ==> forall t :: i < t <= from ==> !IsTarget(p.rules, t)
    requires MidOk(p, known, s, mid)
    requires !(rule.Some? && rule.value.to == FAIL) ==> AfterOk(p, known, SnapshotAll(mid), from)
    requires amended.Some? ==> WellTyped(known, amended.value)
    requires rule.None? ==> OpenUpTo(p.success[from], |p.success[from]|)
    requires rule.Some? ==> rule.value in p.success[from]
    requires rule.Some? && !rule.value.rewind ==> ContinuesBy(p.success[from], rule.value)
    requires rule.Some? && rule.value.rewind ==> from == i && !Exhausted(p, s, rule.value) && mid.rewind.None?
    ensures EndingOk(p, known, s, i, Follow(p, mid, from, rule, readValues, amended, undone))
  {
    if rule.Some? {
      var k :| 0 <= k < |p.success[from]| && p.success[from][k] == rule.value;
      RuleFacts(p, from, false, k);
      if !rule.value.rewind && rule.value.to != FAIL {
        ContinuesOk(p, known, SnapshotAll(mid), i, from, rule, Dest(rule.value, |p.steps|));
      }
    } else {
      ContinuesOk(p, known, SnapshotAll(mid), i, from, rule, from + 1);
    }
    hide Accepted, KnownOk, SnapshotOk, ContinuesBy, OpenUpTo, WellTyped, PendingOk, BeforeOk;
  }

  /** The rule chosen on success, or none, takes the run on from step from. */
  lemma ContinuesOk(p: Pipeline, known: Known, after: Snapshot, i: nat, from: nat, rule: Option<Rule>, next: int)
    requires Accepted(p) && p.merges <= known.free && i <= from < |p.steps|
    requires from != i ==> forall t :: i < t <= from ==> !IsTarget(p.rules, t)
    requires AfterOk(p, known, after, from)
    requires rule.None? ==> OpenUpTo(p.success[from], |p.success[from]|) && next == from + 1
    requires rule.Some? ==> ContinuesBy(p.success[from], rule.value) && Forward(rule.value)
    requires rule.Some? ==> next == Dest(rule.value, |p.steps|)
    ensures i < next <= |p.steps| && ArrivesOk(p, known, after, i, next)
  {
    assert Continues(p.success[from], from, |p.steps|, next) by {
      if rule.Some? {
        var m :| 0 <= m < |p.success[from]| && p.success[from][m] == rule.value && OpenUpTo(p.success[from], m);
        assert Forward(p.success[from][m]) && Dest(p.success[from][m], |p.steps|) == next;
      }
    }
    ContinuesForward(p, from, next);
    forall t | t == next || (i < t < next && IsTarget(p.rules, t)) ensures SnapshotOk(p, known, after, t) {
      ContinueOk(p, known, after, from, next, t);
    }
  }

  /** What Execute says of a visit that succeeded: what it commits leads on, and its rule is one the
      run may take. */
  ghost predicate VisitOk(p: Pipeline, known: Known, s: FlowState, i: nat, v: StepVisit)
    requires i < |p.steps| == |p.success| == |p.maxVisits| == |s.visits|
  {
    && (v.rejected || v.acceptFailed ==> EndsRewind(s, i) && s.rewind.value.rule.hasAccept)
    && (v.err == [] ==>
      && !v.acceptFailed
      && WellTyped(known, v.committed)
      && (forall key :: key in v.committed ==> Writes(p.steps, i, key))
      && AfterOk(p, known, Snapshot(s.values + v.committed, s.defaulted - v.committed.Keys), i)
      && (v.amended.Some? ==> WellTyped(known, v.amended.value))
      && (v.rule.None? ==> OpenUpTo(p.success[i], |p.success[i]|))
      && (v.rule.Some? ==> v.rule.value in p.success[i])
      && (v.rule.Some? && !v.rule.value.rewind ==> ContinuesBy(p.success[i], v.rule.value))
      && (v.rule.Some? && v.rule.value.rewind ==> !v.rejected && !Exhausted(p, s, v.rule.value)))
  }

  /** Every error of a visit names a cause. */
  lemma {:induction false} MergeErrs(p: Pipeline, s: FlowState, node: StepNode, writes: Values, c: Choices, j: nat, committed: Values)
    requires j <= |node.writeKeys|
    ensures var r := MergeFrom(p, s, node, writes, c, j, committed); r.Err? ==> r.error != []
    decreases |node.writeKeys| - j
  {
    if j < |node.writeKeys| {
      var key := node.writeKeys[j].name;
      if key !in writes {
        MergeErrs(p, s, node, writes, c, j + 1, committed);
      } else if !Holds(s, key) {
        MergeErrs(p, s, node, writes, c, j + 1, committed[key := writes[key]]);
      } else if key in p.merges {
        match c.merge(key, s.values[key], writes[key])
        case Err(_) =>
        case Ok(merged) => MergeErrs(p, s, node, writes, c, j + 1, committed[key := merged]);
      }
    }
  }

  lemma ExecuteOk(p: Pipeline, known: Known, s: FlowState, i: nat, view: View, c: Choices)
    requires Accepted(p) && KnownOk(p, known) && Ready(p, known, s, i)
    ensures VisitOk(p, known, s, i, Execute(p, s, i, view, c))
    ensures Execute(p, s, i, view, c).view == view
  {
    if c.outcome.Returns? && WritesOk(p.steps[i], Resolve(view, s), c.outcome.writes, c.outcome.preserved) {
      var writes := c.outcome.writes;
      MergeErrs(p, s, p.steps[i], writes, c, 0, map[]);
      match MergeWrites(p, s, p.steps[i], writes, c)
      case Err(_) =>
      case Ok(committed) =>
        CommittedOk(p, known, s, i, view, writes, c.outcome.preserved, committed, c);
        DecideOk(p, known, s, i, view, writes, committed, c.outcome.staged, c);
    }
  }

  lemma DecideOk(p: Pipeline, known: Known, s: FlowState, i: nat, view: View, writes: Values, committed: Values,
    staged: Tools, c: Choices)
    requires Accepted(p) && KnownOk(p, known) && Ready(p, known, s, i)
    requires WellTyped(known, committed)
    requires forall key :: key in committed ==> Writes(p.steps, i, key)
    requires AfterOk(p, known, Snapshot(s.values + committed, s.defaulted - committed.Keys), i)
    ensures VisitOk(p, known, s, i, Decide(p, s, i, view, writes, committed, staged, c))
    ensures Decide(p, s, i, view, writes, committed, staged, c).view == view
  {
    hide Accepted, KnownOk, AfterOk, Choose, RestoreValues, VisitOk, ContinuesBy, OpenUpTo, WellTyped, SnapshotOk, PendingOk, BeforeOk;
    var names := Names(p.steps[i].readKeys) + Names(p.steps[i].writeKeys);
    var values := Resolve(view, s) + writes;
    var base := StepVisit(view, committed, staged, [], None, false, false, false, false, None);
    if EndsRewind(s, i) {
      var r := s.rewind.value;
      var keys := RewindKeys(p, r.rule);
      var restored := RestoreValues(s.values, r.prev, keys);
      var verdict := if r.rule.hasAccept
        then c.accept(r.prev.values, KeyValues(s.values + committed, keys)) else Yes;
      match verdict
      case Panics => FailedAcceptOk(p, known, s, i, view);
      case Yes => ChosenOk(p, known, s, i, base.(accepted := true), KeyValues(values, names), c);
      case No => ChosenOk(p, known, s, i, base.(rejected := true), KeyValues(restored, names), c);
    } else {
      ChosenOk(p, known, s, i, base, KeyValues(values, names), c);
    }
  }

  lemma FailedAcceptOk(p: Pipeline, known: Known, s: FlowState, i: nat, view: View)
    requires i < |p.steps| == |p.success| == |p.maxVisits| == |s.visits|
    requires EndsRewind(s, i) && s.rewind.value.rule.hasAccept
    ensures VisitOk(p, known, s, i,
      FailedVisit(view, [HookFailure(s.rewind.value.rule.index, Unclassified)]).(acceptFailed := true))
  {
  }

  /** base with the transitions its view chooses. */
  lemma ChosenOk(p: Pipeline, known: Known, s: FlowState, i: nat, base: StepVisit, view: Values, c: Choices)
    requires Accepted(p) && KnownOk(p, known) && Ready(p, known, s, i)
    requires base.err == [] && base.rule.None? && base.amended.None? && !base.acceptFailed
    requires base.rejected ==> EndsRewind(s, i) && s.rewind.value.rule.hasAccept
    requires WellTyped(known, base.committed)
    requires forall key :: key in base.committed ==> Writes(p.steps, i, key)
    requires AfterOk(p, known, Snapshot(s.values + base.committed, s.defaulted - base.committed.Keys), i)
    ensures var v := Decided(base, Choose(p, s, p.success[i], 0, base.rejected, view, c));
      VisitOk(p, known, s, i, v) && v.view == base.view
  {
    ChooseOk(p, known, s, p.success[i], 0, base.rejected, view, c);
    hide Accepted, KnownOk, AfterOk, Choose, ContinuesBy, OpenUpTo, WellTyped, SnapshotOk, BeforeOk, PendingOk;
  }

  /** Committing a visit keeps what a rejection would restore, and leads to a state in which the
      step has succeeded. */
  lemma CommitOk(p: Pipeline, known: Known, s: FlowState, i: nat, v: StepVisit)
    requires Accepted(p) && KnownOk(p, known) && Ready(p, known, s, i)
    requires v.err == [] && VisitOk(p, known, s, i, v)
    ensures var r := Commit(s, v);
      MidOk(p, known, s, r) && AfterOk(p, known, SnapshotAll(r), i)
  {
    if s.rewind.Some? {
      InRange(p, known, s, i);
      CommitKeepsUndo(p, s, v);
    }
    hide Accepted, KnownOk, RestoreValues, RestoreDefaulted;
    assert SnapshotAll(Commit(s, v)) == Snapshot(s.values + v.committed, s.defaulted - v.committed.Keys);
  }

  lemma SucceededOk(p: Pipeline, known: Known, s: FlowState, i: nat, v: StepVisit)
    requires Accepted(p) && KnownOk(p, known) && Ready(p, known, s, i)
    requires v.err == [] && VisitOk(p, known, s, i, v)
    ensures EndingOk(p, known, s, i, Succeeded(p, s, i, v))
  {
    hide AfterOk, OpenUpTo, ContinuesBy, Follow, EndingOk, EndRewind, Commit, PendingOk, SnapshotOk, BeforeOk;
    var toFail := v.rule.Some? && v.rule.value.to == FAIL;
    if EndsRewind(s, i) && v.rejected {
      RejectedOk(p, known, s, i, v);
    } else {
      var mid := if toFail then s else Commit(s, v);
      CommitOk(p, known, s, i, v);
      ReadyMid(p, known, s, i);
      if !EndsRewind(s, i) && v.rule.Some? && v.rule.value.rewind && s.rewind.Some? {
        RewindOutsideImpossible(p, known, s, i, false, v.rule.value);
      }
      var done := if EndsRewind(s, i) then EndRewind(mid, true) else mid;
      EndKeeps(p, known, s, mid);
      FollowOk(p, known, s, i, done, i, v.rule, Resolve(v.view, s), v.amended, false);
    }
  }

  lemma ReadyMid(p: Pipeline, known: Known, s: FlowState, i: nat)
    requires Ready(p, known, s, i)
    ensures MidOk(p, known, s, s)
  {
  }

  /** Ending a rewind keeps the state. */
  lemma EndKeeps(p: Pipeline, known: Known, s: FlowState, mid: FlowState)
    requires |p.success| == |p.steps| && MidOk(p, known, s, mid)
    ensures var r := EndRewind(mid, true);
      MidOk(p, known, s, r) && r.rewind.None? && SnapshotAll(r) == SnapshotAll(mid)
  {
  }

  lemma RejectedOk(p: Pipeline, known: Known, s: FlowState, i: nat, v: StepVisit)
    requires Accepted(p) && KnownOk(p, known) && Ready(p, known, s, i)
    requires v.err == [] && VisitOk(p, known, s, i, v)
    requires EndsRewind(s, i) && v.rejected
    ensures EndingOk(p, known, s, i, Succeeded(p, s, i, v))
  {
    RejectGivesUndo(p, s);
    AcceptNotOnError(p, s.rewind.value.rule);
    assert AfterOk(p, known, SnapshotAll(RejectRewind(p, s)), i);
    assert WellTyped(known, RejectRewind(p, s).values);
    hide Accepted, KnownOk, AfterOk, OpenUpTo, ContinuesBy, Follow, EndingOk, BeforeOk, RejectRewind, Undo;
    FollowOk(p, known, s, i, RejectRewind(p, s), i, v.rule, Resolve(v.view, s), v.amended, true);
  }

  lemma AcceptNotOnError(p: Pipeline, rule: Rule)
    requires TablesOk(p) && rule in p.rules && (rule.hasAccept || rule.hasRestore)
    ensures !rule.onError && rule.rewind
  {
    var m :| 0 <= m < |p.rules| && p.rules[m] == rule;
    assert RuleOk(p.rules[m], |p.steps|);
  }

  /** A rewind matches inside a running rewind's range only at its From. */
  lemma RewindOutsideImpossible(p: Pipeline, known: Known, s: FlowState, i: nat, onError: bool, rule: Rule)
    requires Accepted(p) && Ready(p, known, s, i) && s.rewind.Some?
    requires rule in RulesOf(p.rules, i, onError) && rule.rewind
    ensures s.rewind.value.rule.from == i
  {
    RewindInRange(p, s.rewind.value.rule, rule);
  }

  lemma FailedStepOk(p: Pipeline, known: Known, s: FlowState, i: nat, v: StepVisit, c: Choices)
    requires Accepted(p) && KnownOk(p, known) && Ready(p, known, s, i)
    requires v.err != [] && VisitOk(p, known, s, i, v)
    requires ExitOk(p, known.free, s, i, v, FailedStep(p, s, i, v, c))
    ensures EndingOk(p, known, s, i, FailedStep(p, s, i, v, c))
  {
    StoppedOk(p, known, s, i, v);
    hide Accepted, KnownOk, AfterOk, BeforeOk, ExitOk, VisitOk, RejectRewind, RestoreFailed, DecideFailure, TakeOnError,
      WellTyped, PendingOk, SnapshotOk;
    if !c.ended {
      var d := DecideFailure(p, s, i, v, c);
      match d
      case Stop(_, _) =>
      case RestorePanics(_) =>
      case GoRestore(_) => RestoreFailedOk(p, known, s, i, v, c);
      case Take(rule, amended, err, _) => TakeOnErrorOk(p, known, s, i, v, c);
    }
  }

  /** The rule a failure takes leads where the run finds what it should. */
  lemma TakeOnErrorOk(p: Pipeline, known: Known, s: FlowState, i: nat, v: StepVisit, c: Choices)
    requires Accepted(p) && KnownOk(p, known) && Ready(p, known, s, i)
    requires v.err != [] && VisitOk(p, known, s, i, v)
    requires ExitOk(p, known.free, s, i, v, FailedStep(p, s, i, v, c))
    requires !c.ended && DecideFailure(p, s, i, v, c).Take?
    ensures EndingOk(p, known, s, i, FailedStep(p, s, i, v, c))
  {
    hide Accepted, KnownOk, BeforeOk, EndRewind, RejectRewind, DecideFailure, WellTyped, MidOk, RewindsOk,
      ArrivesOk, PendingOk, LeavesNone, SnapshotOk, StepFailed, VisitOk;
    var d := DecideFailure(p, s, i, v, c);
    var mid := if FailsUndone(s, i, v) then RejectRewind(p, s) else s;
    DecideFailureOk(p, known, s, i, v, c);
    if FailsUndone(s, i, v) && Forward(d.rule) {
      TakesForward(p, known, s, i, v, c);
    }
    TakenOk(p, known, s, i, v, mid, d.rule);
    assert FailedStep(p, s, i, v, c)
      == TakeOnError(p, mid, i, d.rule, d.amended, d.err, Resolve(v.view, s), FailsUndone(s, i, v));
  }

  /** A failed visit whose run goes no further leaves a typed state. */
  lemma StoppedOk(p: Pipeline, known: Known, s: FlowState, i: nat, v: StepVisit)
    requires Accepted(p) && Ready(p, known, s, i) && VisitOk(p, known, s, i, v)
    ensures var mid := if FailsUndone(s, i, v) then RejectRewind(p, s) else s;
      MidOk(p, known, s, mid)
  {
    if FailsUndone(s, i, v) {
      RejectGivesUndo(p, s);
      AcceptNotOnError(p, s.rewind.value.rule);
    }
  }

  /** The rule a failure takes is one of the step's. */
  lemma DecideFailureOk(p: Pipeline, known: Known, s: FlowState, i: nat, v: StepVisit, c: Choices)
    requires Accepted(p) && KnownOk(p, known) && Sized(p) && Fits(p, s) && i < |p.steps|
    ensures TakeOk(p, known, s, i, DecideFailure(p, s, i, v, c))
  {
    var undo := EndsRewind(s, i) && (v.rejected || v.acceptFailed);
    var mid := if undo then RejectRewind(p, s) else s;
    var restorable := !undo && s.rewind.Some? && s.rewind.value.rule.hasRestore && !v.accepted;
    var view := KeyValues(Resolve(v.view, mid), Names(p.steps[i].readKeys));
    EvalFailureOk(p, known, mid, i, v.err, view, c, 0, restorable, v.maxed, v.err, []);
    hide Accepted, KnownOk, EvalFailure, RestoreValues, RestoreDefaulted;
  }

  /** The run goes on from a failed step's state by the rule it takes. */
  lemma TakenOk(p: Pipeline, known: Known, s: FlowState, i: nat, v: StepVisit, mid: FlowState, rule: Rule)
    requires Accepted(p) && KnownOk(p, known) && Ready(p, known, s, i)
    requires v.err != [] && VisitOk(p, known, s, i, v)
    requires FailsUndone(s, i, v) && Forward(rule) ==> LeavesNone(p, known.free, SnapshotAll(mid), i, Dest(rule, |p.steps|))
    requires mid == if FailsUndone(s, i, v) then RejectRewind(p, s) else s
    requires rule in p.failure[i]
    ensures rule in p.rules && RuleOk(rule, |p.steps|) && rule.from == i && rule.onError
    ensures var done := if EndsRewind(mid, i) then EndRewind(mid, true) else mid;
      && MidOk(p, known, s, done)
      && (rule.rewind && !Exhausted(p, s, rule) ==> RewindsOk(p, known, s, i, done, rule))
      && (Forward(rule) ==> ArrivesOk(p, known, SnapshotAll(done), i, Dest(rule, |p.steps|)))
  {
    var done := if EndsRewind(mid, i) then EndRewind(mid, true) else mid;
    var k :| 0 <= k < |p.failure[i]| && p.failure[i][k] == rule;
    RuleFacts(p, i, true, k);
    if rule.rewind && s.rewind.Some? {
      RewindOutsideImpossible(p, known, s, i, true, rule);
    }
    StoppedOk(p, known, s, i, v);
    EndKeeps(p, known, s, mid);
    if FailsUndone(s, i, v) {
      UndoneArrives(p, known, s, i, v, rule);
    } else {
      FailedArrives(p, known, s, i, rule);
    }
    hide Accepted, KnownOk, AfterOk, BeforeOk, EndRewind, RejectRewind, WellTyped, PendingOk, LeavesNone, VisitOk, ArrivesOk,
      Available, PastAfter;
  }

  lemma FailedArrives(p: Pipeline, known: Known, s: FlowState, i: nat, rule: Rule)
    requires Accepted(p) && Ready(p, known, s, i)
    requires rule in p.rules && rule.from == i && rule.onError
    ensures Available(p, s.values, i) && PastAfter(p, known, SnapshotAll(s), i)
    ensures Forward(rule) ==> ArrivesOk(p, known, SnapshotAll(s), i, Dest(rule, |p.steps|))
  {
    if Forward(rule) {
      forall t | t == Dest(rule, |p.steps|) || (i < t < Dest(rule, |p.steps|) && IsTarget(p.rules, t))
        ensures SnapshotOk(p, known, SnapshotAll(s), t)
      {
        var m :| 0 <= m < |p.rules| && p.rules[m] == rule;
        assert RuleOk(p.rules[m], |p.steps|);
        FailForwardOk(p, known, SnapshotAll(s), rule, t);
      }
    }
  }

  lemma UndoneArrives(p: Pipeline, known: Known, s: FlowState, i: nat, v: StepVisit, rule: Rule)
    requires Accepted(p) && p.merges <= known.free && Ready(p, known, s, i) && VisitOk(p, known, s, i, v)
    requires FailsUndone(s, i, v)
    requires Forward(rule) ==> LeavesNone(p, known.free, SnapshotAll(RejectRewind(p, s)), i, Dest(rule, |p.steps|))
    requires rule in p.rules && rule.from == i && rule.onError && RuleOk(rule, |p.steps|)
    ensures var done := RejectRewind(p, s);
      && Available(p, done.values, i) && PastAfter(p, known, SnapshotAll(done), i)
      && (Forward(rule) ==> ArrivesOk(p, known, SnapshotAll(done), i, Dest(rule, |p.steps|)))
  {
    var done := RejectRewind(p, s);
    RejectGivesUndo(p, s);
    AcceptNotOnError(p, s.rewind.value.rule);
    if Forward(rule) {
      forall t | t == Dest(rule, |p.steps|) || (i < t < Dest(rule, |p.steps|) && IsTarget(p.rules, t))
        ensures SnapshotOk(p, known, SnapshotAll(done), t)
      {
        UndoneForwardOk(p, known, SnapshotAll(done), rule, t);
      }
    }
  }

  /** From a state in which the failed step had succeeded, an OnError rule leads to one the run may find
      when it leaves none of the step's writes behind. */
  lemma UndoneForwardOk(p: Pipeline, known: Known, at: Snapshot, rule: Rule, t: int)
    requires Accepted(p) && p.merges <= known.free
    requires rule in p.rules && rule.onError && Forward(rule) && rule.from < |p.success|
    requires LeavesNone(p, known.free, at, rule.from, Dest(rule, |p.steps|))
    requires AfterOk(p, known, at, rule.from)
    requires t == Dest(rule, |p.steps|) || (rule.from < t < Dest(rule, |p.steps|) && IsTarget(p.rules, t))
    requires RuleOk(rule, |p.steps|)
    ensures SnapshotOk(p, known, at, t)
  {
    forall key | Guaranteed(p, t, key) ensures key in at.values {
      GuaranteedMonotone(p, t, Dest(rule, |p.steps|), key);
      GuaranteedForward(p, rule, key);
    }
    forall key, w | key in at.values && key !in at.defaulted && key !in known.free && Writes(p.steps, w, key)
      ensures w < t
    {
      if w >= t {
        assert MayCommitBoth(p, rule.from, w);
      }
    }
  }

  /** A failure that is undone and goes forward takes an OnError rule of the step. */
  lemma TakesForward(p: Pipeline, known: Known, s: FlowState, i: nat, v: StepVisit, c: Choices)
    requires Accepted(p) && KnownOk(p, known) && Ready(p, known, s, i) && FailsUndone(s, i, v)
    requires var e := FailedStep(p, s, i, v, c); e.next.Goto? && e.rewind.None?
    ensures !c.ended && DecideFailure(p, s, i, v, c).Take?
    ensures var e, rule := FailedStep(p, s, i, v, c), DecideFailure(p, s, i, v, c).rule;
      && rule in p.failure[i] && rule in p.rules && rule.from == i && rule.onError && Forward(rule)
      && e.next.index == Dest(rule, |p.steps|) && e.mid == RejectRewind(p, s)
  {
    DecideFailureOk(p, known, s, i, v, c);
    var d := DecideFailure(p, s, i, v, c);
    if d.Take? {
      var k :| 0 <= k < |p.failure[i]| && p.failure[i][k] == d.rule;
      RuleFacts(p, i, true, k);
    }
    hide Accepted, KnownOk, DecideFailure, RestoreFailed, RestoreValues, RestoreDefaulted, StepFailed;
  }

  /** Safe exits leave nothing behind. */
  lemma ExitsSafe(p: Pipeline, known: Known, s: FlowState, i: nat, v: StepVisit, c: Choices)
    requires Accepted(p) && KnownOk(p, known) && Ready(p, known, s, i) && VisitOk(p, known, s, i, v)
    requires v.err != [] && SafeExits(p, known.free)
    ensures ExitOk(p, known.free, s, i, v, FailedStep(p, s, i, v, c))
  {
    var e := FailedStep(p, s, i, v, c);
    if FailsUndone(s, i, v) && e.next.Goto? && e.rewind.None? {
      TakesForward(p, known, s, i, v, c);
      var rewind, rule := s.rewind.value.rule, DecideFailure(p, s, i, v, c).rule;
      hide DecideFailure, FailedStep, SnapshotOk, AfterOk, BeforeOk;
      AcceptNotOnError(p, rewind);
      var a :| 0 <= a < |p.rules| && p.rules[a] == rewind;
      var b :| 0 <= b < |p.rules| && p.rules[b] == rule;
      assert forall key :: Writes(p.steps, i, key) ==> LeavesBehind(p, a, b, key);
    }
  }

  lemma RestoreFailedOk(p: Pipeline, known: Known, s: FlowState, i: nat, v: StepVisit, c: Choices)
    requires Accepted(p) && KnownOk(p, known) && Ready(p, known, s, i)
    requires s.rewind.Some? && s.rewind.value.rule.hasRestore
    ensures EndingOk(p, known, s, i, RestoreFailed(p, s, i, v, c))
  {
    var rule := s.rewind.value.rule;
    var from := rule.from;
    var mid := RejectRewind(p, s);
    RejectGivesUndo(p, s);
    AcceptNotOnError(p, rule);
    var names := Names(p.steps[from].readKeys) + Names(p.steps[from].writeKeys);
    ChooseRestoredOk(p.success[from], 0, KeyValues(mid.values, names), c);
    match ChooseRestored(p.success[from], 0, KeyValues(mid.values, names), c)
    case ChoiceFails(_, _) =>
    case Chosen(chosen, _) =>
      forall t | i < t <= from ensures !IsTarget(p.rules, t) {
        if IsTarget(p.rules, t) {
          TargetInRange(p, rule, t);
        }
      }
      FollowOk(p, known, s, i, mid, from, chosen, mid.values, None, true);
  }

  // ---- one iteration ----

  /** A run that has left the range of its rewind ends it, and keeps everything else. */
  lemma ArriveOk(p: Pipeline, known: Known, s: FlowState, i: nat)
    requires Sized(p) && Inv(p, known, s, i)
    ensures var r := Arrive(s, i);
      && Inv(p, known, r, i)
      && (r.rewind.Some? ==> r.rewind.value.rule.to <= i <= r.rewind.value.rule.from)
  {
    var r := Arrive(s, i);
    if r.rewind.Some? {
      assert r == s;
    } else {
      assert SnapshotAll(r) == SnapshotAll(s);
    }
  }

  /** Counting and snapshotting the visit of step i leaves it ready to run. */
  lemma EnterOk(p: Pipeline, known: Known, s: FlowState, i: nat)
    requires Inv(p, known, s, i) && i < |p.steps|
    requires s.rewind.Some? ==> s.rewind.value.rule.to <= i <= s.rewind.value.rule.from
    ensures var r := Enter(p, s, i);
      && Ready(p, known, r, i)
      && r.visits == s.visits[i := s.visits[i] + 1]
      && r.values == s.values && r.defaulted == s.defaulted
  {
    EnterPendingOk(p, known, s, i);
    hide SnapshotOk, PendingOk, VisitsOk;
    var r := Enter(p, s, i);
    assert SnapshotAll(r) == SnapshotAll(s);
  }

  lemma EnterPendingOk(p: Pipeline, known: Known, s: FlowState, i: nat)
    requires Sized(p) && Fits(p, s) && i < |p.steps| && PendingOk(p, known, s)
    ensures PendingOk(p, known, Enter(p, s, i))
  {
    hide AfterOk, RestoreValues, RestoreDefaulted, WellTyped;
    assert s.rewind.Some? ==> Undo(p, Enter(p, s, i)) == Undo(p, s);
  }

  /** So does what the step caches. */
  lemma StoreAllReady(p: Pipeline, known: Known, s: FlowState, i: nat, stores: seq<(CacheKey, int)>)
    requires Ready(p, known, s, i)
    ensures var r := StoreAll(s, stores);
      Ready(p, known, r, i) && r.visits == s.visits && r.values == s.values && r.defaulted == s.defaulted
  {
    hide SnapshotOk, AfterOk, RestoreValues, RestoreDefaulted, StoreAll;
    var r := StoreAll(s, stores);
    StoreAllKeeps(s, stores);
    assert SnapshotAll(r) == SnapshotAll(s);
    assert s.rewind.Some? ==> Undo(p, r) == Undo(p, s);
  }

  /** The state in which step i is executed. */
  lemma EnterReady(p: Pipeline, known: Known, s: FlowState, i: nat, c: Choices)
    requires Accepted(p) && KnownOk(p, known) && Inv(p, known, s, i) && i < |p.steps|
    ensures var (s2, visit) := Visited(p, s, i, c);
      && Ready(p, known, s2, i)
      && VisitOk(p, known, s2, i, visit)
      && s2.visits == s.visits[i := s.visits[i] + 1]
      && s2.values == s.values && s2.defaulted == s.defaulted
  {
    hide Accepted, KnownOk, VisitOk, Execute, StoreAll, Ready;
    var s1 := Arrive(s, i);
    ArriveOk(p, known, s, i);
    EnterOk(p, known, s1, i);
    StoreAllReady(p, known, Enter(p, s1, i), i, c.stores);
    ExecuteOk(p, known, StoreAll(Enter(p, s1, i), c.stores), i, AmendedView(s1, i), c);
  }

  /** The iteration of step i ends as EndingOk says. */
  lemma FinishOk(p: Pipeline, known: Known, s: FlowState, i: nat, c: Choices)
    requires Accepted(p) && KnownOk(p, known) && Inv(p, known, s, i) && i < |p.steps|
    requires var (s2, visit) := Visited(p, s, i, c); SafeExits(p, known.free) || !FailsUndone(s2, i, visit)
    ensures EndingOk(p, known, Visited(p, s, i, c).0, i, Finish(p, s, i, c))
  {
    EnterReady(p, known, s, i, c);
    var (s2, visit) := Visited(p, s, i, c);
    hide SafeExits, EndingOk, Accepted, KnownOk, Inv, VisitOk, Visited, FailedStep, Flow.Succeeded, Ready;
    if FailsUndone(s2, i, visit) {
      ExitsSafe(p, known, s2, i, visit, c);
    }
    FinishExitOk(p, known, s, i, c);
  }

  /** So it does whenever its own exit is safe. */
  lemma FinishExitOk(p: Pipeline, known: Known, s: FlowState, i: nat, c: Choices)
    requires Accepted(p) && KnownOk(p, known) && Inv(p, known, s, i) && i < |p.steps|
    requires var (s2, visit) := Visited(p, s, i, c); ExitOk(p, known.free, s2, i, visit, Finish(p, s, i, c))
    ensures EndingOk(p, known, Visited(p, s, i, c).0, i, Finish(p, s, i, c))
  {
    EnterReady(p, known, s, i, c);
    var (s2, visit) := Visited(p, s, i, c);
    if visit.err != [] {
      FailedStepOk(p, known, s2, i, visit, c);
    } else {
      SucceededOk(p, known, s2, i, visit);
    }
  }

  /** Snapshots of skipped targets keep the invariant's facts of before. */
  lemma {:induction false} SnapshotSkippedOk(p: Pipeline, known: Known, s: FlowState, i: int, k: int, next: int)
    requires TablesOk(p) && Sized(p) && 0 <= i < k && next <= |p.target|
    requires BeforeOk(p, known, s.before, Min(k, next)) && ArrivesOk(p, known, SnapshotAll(s), i, next)
    requires k <= next || k == i + 1
    ensures var r := SnapshotSkipped(p, s, k, next);
      r == s.(before := r.before) && BeforeOk(p, known, r.before, next)
    decreases next - k
  {
    if k < next {
      if p.target[k] {
        SnapshotSkippedOk(p, known, s.(before := s.before[k := SnapshotAll(s)]), i, k + 1, next);
      } else {
        SnapshotSkippedOk(p, known, s, i, k + 1, next);
      }
    }
  }

  /** The rewind an iteration starts takes the run to a state the invariant allows. */
  lemma RewindKeepsInv(p: Pipeline, known: Known, s: FlowState, s2: FlowState, i: nat, e: Ending)
    requires Accepted(p) && KnownOk(p, known) && Inv(p, known, s, i) && Ready(p, known, s2, i)
    requires s2.visits == s.visits[i := s.visits[i] + 1]
    requires EndingOk(p, known, s2, i, e) && e.next.Goto? && e.rewind.Some?
    ensures var r := StartRewind(p, e.mid, e.rewind.value, e.amended);
      && Inv(p, known, r, e.next.index)
      && SnapshotSkipped(p, r, i + 1, Min(e.next.index, |p.steps|)) == r
  {
    var rule := e.rewind.value;
    var m :| 0 <= m < |p.rules| && p.rules[m] == rule;
    assert RuleOk(p.rules[m], |p.steps|);
    assert IsTarget(p.rules, rule.to);
    StartRewindOk(p, known, e.mid, rule, e.amended);
    var r := StartRewind(p, e.mid, rule, e.amended);
    forall t | 0 <= t < |r.visits| && p.target[t]
      ensures r.visits[t] <= p.maxVisits[t] && (t == rule.to ==> r.visits[t] < p.maxVisits[t])
        && (t > rule.to ==> r.visits[t] == 0)
    {
      if rule.to < t <= i {
        TargetInRange(p, rule, t);
      }
    }
  }

  /** A run that goes forward reaches a state the invariant allows. */
  lemma ForwardKeepsInv(p: Pipeline, known: Known, s: FlowState, s2: FlowState, i: nat, e: Ending)
    requires Accepted(p) && KnownOk(p, known) && Inv(p, known, s, i) && Ready(p, known, s2, i)
    requires s2.visits == s.visits[i := s.visits[i] + 1]
    requires EndingOk(p, known, s2, i, e) && e.next.Goto? && e.rewind.None?
    ensures Inv(p, known, SnapshotSkipped(p, e.mid, i + 1, Min(e.next.index, |p.steps|)), e.next.index)
  {
    SnapshotSkippedOk(p, known, e.mid, i, i + 1, e.next.index);
    var r := SnapshotSkipped(p, e.mid, i + 1, e.next.index);
    if r.rewind.Some? {
      assert Undo(p, r) == Undo(p, e.mid);
    }
  }

  /** Main invariant: an iteration of a run of an accepted pipeline keeps it, unless a visit fails
      undone and the pipeline's exits are not safe. */
  lemma IterateKeepsInv(p: Pipeline, known: Known, s: FlowState, i: nat, c: Choices)
    requires Accepted(p) && KnownOk(p, known) && Inv(p, known, s, i) && i < |p.steps|
    requires var (s2, visit) := Visited(p, s, i, c); SafeExits(p, known.free) || !FailsUndone(s2, i, visit)
    ensures var (r, next) := Iterate(p, s, i, c);
      next.Goto? ==> Inv(p, known, r, next.index)
  {
    FinishOk(p, known, s, i, c);
    EndingKeepsInv(p, known, s, i, c);
  }

  /** And unless its own exit leaves a write behind. */
  lemma IterateExitKeepsInv(p: Pipeline, known: Known, s: FlowState, i: nat, c: Choices)
    requires Accepted(p) && KnownOk(p, known) && Inv(p, known, s, i) && i < |p.steps|
    requires var (s2, visit) := Visited(p, s, i, c); ExitOk(p, known.free, s2, i, visit, Finish(p, s, i, c))
    ensures var (r, next) := Iterate(p, s, i, c);
      next.Goto? ==> Inv(p, known, r, next.index)
  {
    FinishExitOk(p, known, s, i, c);
    EndingKeepsInv(p, known, s, i, c);
  }

  lemma EndingKeepsInv(p: Pipeline, known: Known, s: FlowState, i: nat, c: Choices)
    requires Accepted(p) && KnownOk(p, known) && Inv(p, known, s, i) && i < |p.steps|
    requires EndingOk(p, known, Visited(p, s, i, c).0, i, Finish(p, s, i, c))
    ensures var (r, next) := Iterate(p, s, i, c);
      next.Goto? ==> Inv(p, known, r, next.index)
  {
    EnterReady(p, known, s, i, c);
    var s2 := Visited(p, s, i, c).0;
    var e := Finish(p, s, i, c);
    if e.next.Goto? {
      match e.rewind
      case Some(rule) => RewindKeepsInv(p, known, s, s2, i, e);
      case None => ForwardKeepsInv(p, known, s, s2, i, e);
    }
  }
}

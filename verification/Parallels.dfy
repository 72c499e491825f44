/**
 Parallel: steps that run at the same time, and commit together or not at all.

 The children, the mutex around the list of failures and the cancellation are steps of one state machine,
 taken in any order.
 */
module Parallels {
  import opened Basics

  /** Why the children's context has ended: one of them failed, or the Parallel's own context did. */
  datatype Cause = SiblingFailed | ContextEnded

  /** A child's error: whether it is context.Canceled, and the cause it wraps, if any. */
  datatype Error = Error(canceled: bool, cause: Option<Cause>)

  /** How a child ends: with its writes and what it staged for tools, or with an error. */
  datatype Outcome = Wrote(writes: Values, staged: int) | Fails(error: Error)

  /** The children: what each declares as writes, and how it ends when nothing cancels it. */
  datatype Parallel = Parallel(declared: seq<seq<KeyRef>>, result: nat -> Outcome)

  /** How far a child is: it runs; it has returned; its failure is in the list; it is done. */
  datatype Phase = Running | Returned | Recorded | Done

  /** failures holds the children that failed in the order their errors were recorded. */
  datatype State = State(phases: seq<Phase>, outcomes: seq<Option<Outcome>>, failures: seq<nat>, cause: Option<Cause>)

  function Start(p: Parallel): State {
    State(seq(|p.declared|, _ => Running), seq(|p.declared|, _ => None), [], None)
  }

  // ---- checkChildren ----

  /** No key is declared twice. */
  predicate DeclaredOnce(declared: seq<seq<KeyRef>>) {
    forall i, a, j, b :: 0 <= i < |declared| && 0 <= a < |declared[i]| && 0 <= j < |declared| && 0 <= b < |declared[j]| && (i != j || a != b)
      ==> declared[i][a].name != declared[j][b].name
  }

  /** The declarations before the a-th of the i-th list. */
  predicate Earlier(declared: seq<seq<KeyRef>>, i: nat, a: nat, name: Name)
    requires i <= |declared| && (i < |declared| ==> a <= |declared[i]|)
  {
    || (exists j, b :: 0 <= j < i && 0 <= b < |declared[j]| && declared[j][b].name == name)
    || (i < |declared| && exists b :: 0 <= b < a && declared[i][b].name == name)
  }

  /** checkChildren: refuses two writers of one key. */
  method CheckChildren(declared: seq<seq<KeyRef>>) returns (ok: bool)
    ensures ok == DeclaredOnce(declared)
  {
    var writers: set<Name> := {};
    for i := 0 to |declared|
      invariant forall name :: name in writers <==> Earlier(declared, i, 0, name)
      invariant DeclaredOnce(declared[..i])
    {
      for a := 0 to |declared[i]|
        invariant forall name :: name in writers <==> Earlier(declared, i, a, name)
        invariant DeclaredOnce(declared[..i] + [declared[i][..a]])
      {
        var name := declared[i][a].name;
        if name in writers {
          return false;
        }
        OneMore(declared, i, a);
        writers := writers + {name};
      }
      assert declared[i][..|declared[i]|] == declared[i];
      assert declared[..i] + [declared[i]] == declared[..i + 1];
    }
    assert declared[..|declared|] == declared;
    return true;
  }

  lemma OneMore(declared: seq<seq<KeyRef>>, i: nat, a: nat)
    requires i < |declared| && a < |declared[i]| && !Earlier(declared, i, a, declared[i][a].name)
    requires DeclaredOnce(declared[..i] + [declared[i][..a]])
    ensures DeclaredOnce(declared[..i] + [declared[i][..a + 1]])
  {
    var was: seq<seq<KeyRef>>, now: seq<seq<KeyRef>> := declared[..i] + [declared[i][..a]], declared[..i] + [declared[i][..a + 1]];
    forall j, b, k, c | 0 <= j < |now| && 0 <= b < |now[j]| && 0 <= k < |now| && 0 <= c < |now[k]| && (j != k || b != c)
      ensures now[j][b].name != now[k][c].name
    {
      assert (j < i || b < a) ==> now[j][b] == was[j][b];
      assert (k < i || c < a) ==> now[k][c] == was[k][c];
    }
  }

  // ---- the steps ----

  datatype Action =
    | Return(i: nat, outcome: Outcome)
    | Record(i: nat)
    | Cancel(i: nat)
    | EndContext

  predicate Is(s: State, i: nat, phase: Phase) {
    i < |s.phases| && s.phases[i] == phase
  }

  predicate Enabled(p: Parallel, s: State, a: Action) {
    match a
    case Return(i, outcome) => Is(s, i, Running) && (s.cause.Some? || outcome == p.result(i))
    case Record(i) => Is(s, i, Returned)
    case Cancel(i) => Is(s, i, Recorded)
    case EndContext => s.cause.None?
  }

  predicate Shaped(p: Parallel, s: State) {
    && |s.phases| == |s.outcomes| == |p.declared|
    && forall i :: 0 <= i < |s.phases| ==> (s.outcomes[i].Some? <==> s.phases[i] != Running)
  }

  function Do(p: Parallel, s: State, a: Action): State
    requires Shaped(p, s) && Enabled(p, s, a)
  {
    match a
    case Return(i, outcome) => s.(phases := s.phases[i := Returned], outcomes := s.outcomes[i := Some(outcome)])
    case Record(i) =>
      if s.outcomes[i].value.Wrote? then s.(phases := s.phases[i := Done])
      else s.(phases := s.phases[i := Recorded], failures := s.failures + [i])
    case Cancel(i) => s.(phases := s.phases[i := Done], cause := if s.cause.None? then Some(SiblingFailed) else s.cause)
    case EndContext => s.(cause := Some(ContextEnded))
  }

  /** The child has failed, and its error is recorded. */
  predicate FailedAt(s: State, i: nat)
    requires |s.phases| == |s.outcomes|
  {
    i < |s.phases| && s.phases[i] in {Recorded, Done} && s.outcomes[i].Some? && s.outcomes[i].value.Fails?
  }

  ghost predicate Inv(p: Parallel, s: State) {
    && Shaped(p, s)
    && (forall i :: i in s.failures <==> FailedAt(s, i))
    && (forall i, j :: 0 <= i < j < |s.failures| ==> s.failures[i] != s.failures[j])
    && (forall i :: 0 <= i < |s.phases| && s.phases[i] == Recorded ==> s.outcomes[i].value.Fails?)
    && (s.cause.Some? && s.cause != Some(ContextEnded) ==> s.failures != [])
    && (s.cause.None? ==> forall i :: 0 <= i < |s.phases| && s.outcomes[i].Some? ==> s.outcomes[i].value == p.result(i))
    && (s.failures != [] && s.cause != Some(ContextEnded) ==>
         s.failures[0] < |s.outcomes| && s.outcomes[s.failures[0]] == Some(p.result(s.failures[0])))
  }

  lemma StepKeepsInv(p: Parallel, s: State, a: Action)
    requires Inv(p, s) && Enabled(p, s, a)
    ensures Inv(p, Do(p, s, a))
  {
    assert s.failures != [] ==> FailedAt(s, s.failures[0]) by {
      assert s.failures != [] ==> s.failures[0] in s.failures;
    }
    match a
    case EndContext => EndKeepsInv(p, s);
    case Record(i) => RecordKeepsInv(p, s, i);
    case _ => OtherKeepsInv(p, s, a);
  }

  lemma EndKeepsInv(p: Parallel, s: State)
    requires Inv(p, s) && Enabled(p, s, EndContext)
    ensures Inv(p, Do(p, s, EndContext))
  {
    var t := Do(p, s, EndContext);
    assert forall i :: FailedAt(t, i) <==> FailedAt(s, i);
  }

  lemma RecordKeepsInv(p: Parallel, s: State, i: nat)
    requires Inv(p, s) && Enabled(p, s, Record(i)) && (s.failures != [] ==> FailedAt(s, s.failures[0]))
    ensures Inv(p, Do(p, s, Record(i)))
  {
    var t := Do(p, s, Record(i));
    assert !FailedAt(s, i) && i !in s.failures;
    forall j: nat ensures j in t.failures <==> FailedAt(t, j) {
      assert j in s.failures <==> FailedAt(s, j);
    }
  }

  lemma OtherKeepsInv(p: Parallel, s: State, a: Action)
    requires Inv(p, s) && Enabled(p, s, a) && (a.Return? || a.Cancel?) && (s.failures != [] ==> FailedAt(s, s.failures[0]))
    ensures Inv(p, Do(p, s, a))
  {
    var t := Do(p, s, a);
    forall j: nat ensures j in t.failures <==> FailedAt(t, j) {
      assert j in s.failures <==> FailedAt(s, j);
    }
    if a.Cancel? {
      assert a.i in s.failures by {
        assert FailedAt(s, a.i);
      }
    }
  }

  // ---- runs ----

  ghost predicate IsRun(p: Parallel, run: seq<State>, actions: seq<Action>) {
    && |run| == |actions| + 1 && run[0] == Start(p)
    && forall k {:trigger actions[k]} :: 0 <= k < |actions| ==> Steps(p, run[k], actions[k], run[k + 1])
  }

  ghost predicate Steps(p: Parallel, s: State, a: Action, t: State) {
    Inv(p, s) && Enabled(p, s, a) && t == Do(p, s, a)
  }

  lemma {:induction false} RunInv(p: Parallel, run: seq<State>, actions: seq<Action>, k: nat)
    requires IsRun(p, run, actions) && k < |run|
    ensures Inv(p, run[k])
  {
    if k > 0 {
      assert Steps(p, run[k - 1], actions[k - 1], run[k - 1 + 1]);
      StepKeepsInv(p, run[k - 1], actions[k - 1]);
    }
  }

  /** Every child is done, so wg.Wait returns. */
  predicate Final(s: State) {
    forall i :: 0 <= i < |s.phases| ==> s.phases[i] == Done
  }

  // ---- what a Parallel returns ----

  /** The values and what is staged for tools once the outcomes have been committed in the order of the children. */
  function CommitAll(values: Values, outcomes: seq<Outcome>): Values
    requires forall i :: 0 <= i < |outcomes| ==> outcomes[i].Wrote?
  {
    if outcomes == [] then values
    else CommitAll(values, outcomes[..|outcomes| - 1]) + outcomes[|outcomes| - 1].writes
  }

  function StageAll(stage: seq<int>, outcomes: seq<Outcome>): (all: seq<int>)
    requires forall i :: 0 <= i < |outcomes| ==> outcomes[i].Wrote?
    ensures |all| == |stage| + |outcomes| && all[..|stage|] == stage
    ensures forall i :: 0 <= i < |outcomes| ==> all[|stage| + i] == outcomes[i].staged
  {
    stage + seq(|outcomes|, i requires 0 <= i < |outcomes| => outcomes[i].staged)
  }

  /** An error that is not what the cancellation led to. */
  predicate OfItsOwn(e: Error, cause: Option<Cause>) {
    !e.canceled && (e.cause.None? || e.cause != cause)
  }

  /** The first error and those of the others that are not what the cancellation led to. */
  function Kept(errors: seq<Error>, cause: Option<Cause>): (kept: seq<Error>)
    requires |errors| > 0
    ensures |kept| > 0 && kept[0] == errors[0]
    ensures forall e :: e in kept[1..] <==> e in errors[1..] && !e.canceled && !(e.cause.Some? && e.cause == cause)
  {
    if |errors| == 1 then errors
    else
      var kept := Kept(errors[..|errors| - 1], cause);
      var last := errors[|errors| - 1];
      assert errors[1..] == errors[..|errors| - 1][1..] + [last];
      assert (kept + [last])[1..] == kept[1..] + [last];
      if OfItsOwn(last, cause) then kept + [last] else kept
  }

  /** How the Parallel ends: with its children's writes committed, or with their errors. */
  datatype End = Commits(values: Values, stage: seq<int>) | Errs(errors: seq<Error>)

  function Errors(s: State): (errors: seq<Error>)
    requires |s.phases| == |s.outcomes| && forall k :: 0 <= k < |s.failures| ==> FailedAt(s, s.failures[k])
    ensures |errors| == |s.failures|
  {
    assert forall k :: 0 <= k < |s.failures| ==> FailedAt(s, s.failures[k]);
    seq(|s.failures|, k requires 0 <= k < |s.failures| && FailedAt(s, s.failures[k]) => s.outcomes[s.failures[k]].value.error)
  }

  function OutcomesOf(s: State): (outcomes: seq<Outcome>)
    requires forall i :: 0 <= i < |s.outcomes| ==> s.outcomes[i].Some?
    ensures |outcomes| == |s.outcomes| && forall i :: 0 <= i < |outcomes| ==> outcomes[i] == s.outcomes[i].value
  {
    seq(|s.outcomes|, i requires 0 <= i < |s.outcomes| => s.outcomes[i].value)
  }

  /** Commits the children's results, in their order. */
  method Commit(outcomes: seq<Outcome>, values: Values, stage: seq<int>) returns (end: End)
    requires forall i :: 0 <= i < |outcomes| ==> outcomes[i].Wrote?
    ensures end == Commits(CommitAll(values, outcomes), StageAll(stage, outcomes))
  {
    var committed, staged := values, stage;
    for i := 0 to |outcomes|
      invariant committed == CommitAll(values, outcomes[..i])
      invariant staged == StageAll(stage, outcomes[..i])
    {
      assert outcomes[..i + 1][..i] == outcomes[..i];
      committed := committed + outcomes[i].writes;
      staged := staged + [outcomes[i].staged];
    }
    assert outcomes[..|outcomes|] == outcomes;
    return Commits(committed, staged);
  }

  /** The errors a failed Parallel returns. */
  method KeepErrors(errors: seq<Error>, cause: Option<Cause>) returns (kept: seq<Error>)
    requires |errors| > 0
    ensures kept == Kept(errors, cause)
  {
    kept := [errors[0]];
    assert errors[..1] == [errors[0]];
    for k := 1 to |errors|
      invariant kept == Kept(errors[..k], cause)
    {
      assert errors[..k + 1][..k] == errors[..k];
      if OfItsOwn(errors[k], cause) {
        kept := kept + [errors[k]];
      }
    }
    assert errors[..|errors|] == errors;
  }

  /** The rest of runCandidate, once wg.Wait has returned. */
  method Finish(p: Parallel, s: State, values: Values, stage: seq<int>) returns (end: End)
    requires Inv(p, s) && Final(s)
    ensures s.failures == [] <==> end.Commits?
    ensures forall i :: 0 <= i < |s.outcomes| ==> s.outcomes[i].Some? && (end.Commits? ==> s.outcomes[i].value.Wrote?)
    ensures end.Commits? ==> end == Commits(CommitAll(values, OutcomesOf(s)), StageAll(stage, OutcomesOf(s)))
    ensures end.Errs? ==> end.errors == Kept(Errors(s), s.cause)
  {
    if s.failures == [] {
      forall i: nat | i < |s.outcomes| ensures s.outcomes[i].Some? && s.outcomes[i].value.Wrote? {
        assert !FailedAt(s, i);
      }
      end := Commit(OutcomesOf(s), values, stage);
      return;
    }
    forall k | 0 <= k < |s.failures| ensures FailedAt(s, s.failures[k]) {
      assert s.failures[k] in s.failures;
    }
    var kept := KeepErrors(Errors(s), s.cause);
    return Errs(kept);
  }

  /** However the children interleave, a Parallel whose own context does not end commits exactly when every
      child succeeds alone, and then commits what they write alone; otherwise its first error is one a child
      fails with alone. */
  lemma SameAsAlone(p: Parallel, run: seq<State>, actions: seq<Action>, k: nat)
    requires IsRun(p, run, actions) && k < |run| && Final(run[k]) && run[k].cause != Some(ContextEnded)
    ensures Inv(p, run[k]) && |run[k].outcomes| == |p.declared|
    ensures run[k].failures == [] <==> forall i :: 0 <= i < |p.declared| ==> p.result(i).Wrote?
    ensures run[k].failures == [] ==> forall i :: 0 <= i < |p.declared| ==> run[k].outcomes[i] == Some(p.result(i))
    ensures run[k].failures != [] ==>
      var first := run[k].failures[0]; first < |p.declared| && p.result(first).Fails? && Errors(run[k])[0] == p.result(first).error
  {
    RunInv(p, run, actions, k);
    var s := run[k];
    if s.failures == [] {
      forall i: nat | i < |p.declared| ensures s.outcomes[i] == Some(p.result(i)) && p.result(i).Wrote? {
        assert !FailedAt(s, i);
      }
    } else {
      assert FailedAt(s, s.failures[0]);
    }
  }

  // ---- the order of commits ----

  /** Each child writes only what it declares. */
  predicate WritesDeclared(declared: seq<seq<KeyRef>>, outcomes: seq<Outcome>) {
    |declared| == |outcomes| && forall i :: 0 <= i < |outcomes| ==>
      outcomes[i].Wrote? && outcomes[i].writes.Keys <= Names(declared[i])
  }

  predicate WritesApart(outcomes: seq<Outcome>) {
    && (forall i :: 0 <= i < |outcomes| ==> outcomes[i].Wrote?)
    && forall i, j, key :: 0 <= i < |outcomes| && 0 <= j < |outcomes| && key in outcomes[i].writes && key in outcomes[j].writes ==> i == j
  }

  /** What checkChildren accepts never writes a key twice. */
  lemma DeclaredApart(declared: seq<seq<KeyRef>>, outcomes: seq<Outcome>)
    requires DeclaredOnce(declared) && WritesDeclared(declared, outcomes)
    ensures WritesApart(outcomes)
  {
    forall i, j, key | 0 <= i < |outcomes| && 0 <= j < |outcomes| && key in outcomes[i].writes && key in outcomes[j].writes
      ensures i == j
    {
      assert key in Names(declared[i]) && key in Names(declared[j]);
    }
  }

  /** A key has the value its writer gave it, or its old one. */
  lemma {:induction false} CommitMeans(values: Values, outcomes: seq<Outcome>, key: Name)
    requires WritesApart(outcomes)
    ensures forall i :: 0 <= i < |outcomes| && key in outcomes[i].writes ==>
      key in CommitAll(values, outcomes) && CommitAll(values, outcomes)[key] == outcomes[i].writes[key]
    ensures (forall i :: 0 <= i < |outcomes| ==> key !in outcomes[i].writes) ==>
      (key in CommitAll(values, outcomes) <==> key in values) && (key in values ==> CommitAll(values, outcomes)[key] == values[key])
  {
    if outcomes != [] {
      CommitMeans(values, outcomes[..|outcomes| - 1], key);
    }
  }

  /** order lists the children, each once. */
  predicate IsOrder(order: seq<nat>, n: nat) {
    && |order| == n && (forall k :: 0 <= k < n ==> order[k] < n)
    && (forall j, k :: 0 <= j < k < n ==> order[j] != order[k])
    && forall i :: 0 <= i < n ==> i in order
  }

  function Reordered(outcomes: seq<Outcome>, order: seq<nat>): (all: seq<Outcome>)
    requires IsOrder(order, |outcomes|)
    ensures |all| == |outcomes| && forall k :: 0 <= k < |all| ==> all[k] == outcomes[order[k]]
  {
    seq(|order|, k requires 0 <= k < |order| => outcomes[order[k]])
  }

  /** Committing the children checkChildren accepts in any order comes to the same values. */
  lemma AnyOrder(values: Values, declared: seq<seq<KeyRef>>, outcomes: seq<Outcome>, order: seq<nat>)
    requires DeclaredOnce(declared) && WritesDeclared(declared, outcomes) && IsOrder(order, |outcomes|)
    ensures CommitAll(values, Reordered(outcomes, order)) == CommitAll(values, outcomes)
  {
    DeclaredApart(declared, outcomes);
    ApartAnyOrder(values, outcomes, order);
  }

  lemma ApartAnyOrder(values: Values, outcomes: seq<Outcome>, order: seq<nat>)
    requires WritesApart(outcomes) && IsOrder(order, |outcomes|)
    ensures CommitAll(values, Reordered(outcomes, order)) == CommitAll(values, outcomes)
  {
    var all := Reordered(outcomes, order);
    assert WritesApart(all);
    hide CommitAll;
    forall key ensures key in CommitAll(values, all) <==> key in CommitAll(values, outcomes)
      ensures key in CommitAll(values, all) ==> CommitAll(values, all)[key] == CommitAll(values, outcomes)[key]
    {
      CommitMeans(values, all, key);
      CommitMeans(values, outcomes, key);
      if i: nat :| i < |outcomes| && key in outcomes[i].writes {
        assert i in order;
        var k: nat :| k < |order| && order[k] == i;
        assert all[k] == outcomes[i];
      } else {
        assert forall k :: 0 <= k < |all| ==> key !in all[k].writes;
      }
    }
  }

  // ---- progress ----

  function Left(phase: Phase): nat {
    match phase case Running => 3 case Returned => 2 case Recorded => 1 case Done => 0
  }

  function LeftOf(phases: seq<Phase>): seq<nat> {
    Each(phase => Left(phase), phases)
  }

  function Measure(s: State): nat {
    Total(LeftOf(s.phases)) + if s.cause.None? then 1 else 0
  }

  /** Every step brings the Parallel nearer its end, and until every child is done some step can be taken. */
  lemma Progress(p: Parallel, s: State, a: Action)
    requires Inv(p, s) && Enabled(p, s, a)
    ensures Measure(Do(p, s, a)) < Measure(s)
  {
    var t := Do(p, s, a);
    if !a.EndContext? {
      hide Total;
      TotalUpdate(LeftOf(s.phases), a.i, Left(t.phases[a.i]));
      assert LeftOf(t.phases) == LeftOf(s.phases)[a.i := Left(t.phases[a.i])];
    }
  }

  lemma NeverStuck(p: Parallel, s: State)
    requires Inv(p, s) && !Final(s)
    ensures exists a :: Enabled(p, s, a) && a != EndContext
  {
    var i: nat :| i < |s.phases| && s.phases[i] != Done;
    var a := match s.phases[i]
      case Running => Return(i, p.result(i))
      case Returned => Record(i)
      case _ => Cancel(i);
    assert Enabled(p, s, a);
  }
}

/**
 Map and MapCollect: a body over the elements of a list, some of them at a time.

 The loop that starts elements, the elements, the end of the map's context and the mutex are steps of
 one state machine, taken in any order, so what is proved holds however they interleave.
 */
module Maps {
  import opened Basics

  /** How an element ends: with a value and what it staged for tools, or with an error. */
  datatype Outcome = Value(value: int, staged: int) | Fails(budget: bool)

  /** A map over n elements. result is how each ends when nothing has cancelled it. */
  datatype MapStep = MapStep(n: nat, maxConcurrency: int, collect: bool, result: nat -> Outcome)

  /** The slots of the channel. */
  function Slots(m: MapStep): nat {
    Max(Min(m.maxConcurrency, m.n), 1)
  }

  /** How far an element is: it has not started; its body runs; its outcome is written; its failure, if
      it stops the map, is the one kept; it has cancelled the others then; its slot is free again.
      stopsWith and the mutex are one step: what stops a map goes on to, and nothing else reads it between. */
  datatype Phase = Waiting | Running | Written | Kept | Cancelled | Done

  /** Where the loop that starts elements is: before element i; at it with a slot, takeSlot's check of the
      context still to come; past that check, the element still to start; or past the last. */
  datatype Loop = At(i: nat) | Holding(i: nat) | Cleared(i: nat) | Over

  /** The state of runElements. ended is that the map's own context has ended, cancelled that the
      elements' has been cancelled by one that failed. */
  datatype State = State(
    loop: Loop, started: nat, slots: int, phases: seq<Phase>, outcomes: seq<Option<Outcome>>, stop: Option<nat>,
    cancelled: bool, ended: bool)

  function Start(m: MapStep): State {
    State(At(0), 0, 0, seq(m.n, _ => Waiting), seq(m.n, _ => None), None, false, false)
  }

  /** The elements' context has ended. */
  predicate Ended(s: State) {
    s.cancelled || s.ended
  }

  /** stopsWith: an element that ended with o stops the map. */
  predicate Stops(m: MapStep, o: Outcome, ended: bool) {
    o.Fails? && (!m.collect || o.budget || ended)
  }

  datatype Action =
    | TakeSlot
    | PassCheck
    | GiveBack
    | StartElement
    | StopStarting
    | Write(i: nat, outcome: Outcome)
    | Keep(i: nat)
    | Cancel(i: nat)
    | Release(i: nat)
    | EndContext

  predicate Is(m: MapStep, s: State, i: nat, phase: Phase) {
    i < |s.phases| && s.phases[i] == phase
  }

  predicate Enabled(m: MapStep, s: State, a: Action) {
    match a
    case TakeSlot => s.loop.At? && s.loop.i < m.n && s.slots < Slots(m)
    case PassCheck => s.loop.Holding? && !Ended(s)
    case GiveBack => s.loop.Holding? && Ended(s)
    case StartElement => s.loop.Cleared?
    case StopStarting => s.loop.At? && (s.loop.i == m.n || Ended(s))
    case Write(i, outcome) => Is(m, s, i, Running) && (Ended(s) || outcome == m.result(i))
    case Keep(i) => Is(m, s, i, Written)
    case Cancel(i) => Is(m, s, i, Kept)
    case Release(i) => Is(m, s, i, Cancelled)
    case EndContext => !s.ended
  }

  /** The outcome of element i stops the map. */
  predicate Stopped(m: MapStep, s: State, i: nat)
    requires i < |s.outcomes|
  {
    s.outcomes[i].Some? && Stops(m, s.outcomes[i].value, s.ended)
  }

  function Do(m: MapStep, s: State, a: Action): State
    requires Shaped(m, s) && Enabled(m, s, a)
  {
    match a
    case TakeSlot => s.(loop := Holding(s.loop.i), slots := s.slots + 1)
    case PassCheck => s.(loop := Cleared(s.loop.i))
    case StartElement => s.(loop := At(s.loop.i + 1), started := s.started + 1, phases := s.phases[s.loop.i := Running])
    case GiveBack => s.(loop := Over, slots := s.slots - 1)
    case StopStarting => s.(loop := Over)
    case Write(i, outcome) => s.(phases := s.phases[i := Written], outcomes := s.outcomes[i := Some(outcome)])
    case Keep(i) =>
      if !Stopped(m, s, i) then s.(phases := s.phases[i := Cancelled])
      else s.(phases := s.phases[i := Kept], stop := if s.stop.None? then Some(i) else s.stop)
    case Cancel(i) => s.(phases := s.phases[i := Cancelled], cancelled := true)
    case Release(i) => s.(phases := s.phases[i := Done], slots := s.slots - 1)
    case EndContext => s.(ended := true)
  }

  /** How many elements hold a slot. */
  function Active(phases: seq<Phase>): nat {
    if phases == [] then 0
    else Active(phases[..|phases| - 1]) + if phases[|phases| - 1] in {Running, Written, Kept, Cancelled} then 1 else 0
  }

  predicate Shaped(m: MapStep, s: State) {
    && |s.phases| == |s.outcomes| == m.n
    && s.started <= m.n
    && (s.loop.At? ==> s.loop.i == s.started)
    && (s.loop.Holding? || s.loop.Cleared? ==> s.loop.i == s.started < m.n)
    && s.slots == Active(s.phases) + if s.loop.Holding? || s.loop.Cleared? then 1 else 0
  }

  /** What every state of the map meets. */
  ghost predicate Inv(m: MapStep, s: State) {
    && Shaped(m, s)
    && s.slots <= Slots(m)
    && (forall i :: 0 <= i < m.n ==> (s.phases[i] == Waiting <==> i >= s.started))
    && (forall i :: 0 <= i < m.n ==> (s.outcomes[i].Some? <==> s.phases[i] !in {Waiting, Running}))
    && (forall i :: 0 <= i < m.n && s.outcomes[i].Some? && !Ended(s) ==> s.outcomes[i].value == m.result(i))
    && (forall i :: 0 <= i < m.n && s.phases[i] == Kept ==> s.stop.Some?)
    && (forall i :: 0 <= i < m.n && s.phases[i] in {Cancelled, Done} && s.stop.None? ==> !Stops(m, s.outcomes[i].value, false))
    && (s.stop.Some? ==> s.stop.value < m.n && s.outcomes[s.stop.value].Some? && s.outcomes[s.stop.value].value.Fails?)
    && (s.stop.Some? && !s.ended ==> Stops(m, s.outcomes[s.stop.value].value, false))
    && (s.cancelled ==> s.stop.Some?)
    && (s.loop.Over? && s.started < m.n ==> Ended(s))
  }

  lemma {:induction false} ActiveUpdate(phases: seq<Phase>, i: nat, phase: Phase)
    requires i < |phases|
    ensures Active(phases[i := phase]) == Active(phases)
      - (if phases[i] in {Running, Written, Kept, Cancelled} then 1 else 0)
      + (if phase in {Running, Written, Kept, Cancelled} then 1 else 0)
    decreases |phases|
  {
    var n := |phases| - 1;
    if i == n {
      assert phases[i := phase][..n] == phases[..n];
    } else {
      assert phases[i := phase][..n] == phases[..n][i := phase];
      ActiveUpdate(phases[..n], i, phase);
    }
  }

  lemma {:induction false} NoneActive(phases: seq<Phase>)
    requires forall i :: 0 <= i < |phases| ==> phases[i] == Waiting
    ensures Active(phases) == 0
    decreases |phases|
  {
    if phases != [] {
      NoneActive(phases[..|phases| - 1]);
    }
  }

  lemma StartInv(m: MapStep)
    ensures Inv(m, Start(m))
  {
    NoneActive(Start(m).phases);
  }

  lemma StepKeepsInv(m: MapStep, s: State, a: Action)
    requires Inv(m, s) && Enabled(m, s, a)
    ensures Inv(m, Do(m, s, a))
  {
    assert Shaped(m, s);
    hide Inv;
    match a
    case Write(i, _) => WriteKeepsInv(m, s, a);
    case Keep(i) =>
      if Stopped(m, s, i) {
        StopKeepsInv(m, s, a);
      } else {
        KeepKeepsInv(m, s, a);
      }
    case Cancel(_) => CancelKeepsInv(m, s, a);
    case Release(_) => ReleaseKeepsInv(m, s, a);
    case _ => LoopKeepsInv(m, s, a);
  }

  lemma LoopKeepsInv(m: MapStep, s: State, a: Action)
    requires Inv(m, s) && Enabled(m, s, a) && a in {TakeSlot, PassCheck, GiveBack, StartElement, StopStarting, EndContext}
    ensures Inv(m, Do(m, s, a))
  {
    hide Active;
    if a.StartElement? {
      ActiveUpdate(s.phases, s.loop.i, Running);
    }
  }

  lemma WriteKeepsInv(m: MapStep, s: State, a: Action)
    requires Inv(m, s) && Enabled(m, s, a) && a.Write?
    ensures Inv(m, Do(m, s, a))
  {
    hide Active;
    ActiveUpdate(s.phases, a.i, Written);
  }

  lemma KeepKeepsInv(m: MapStep, s: State, a: Action)
    requires Inv(m, s) && Enabled(m, s, a) && a.Keep? && !Stopped(m, s, a.i)
    ensures Inv(m, Do(m, s, a))
  {
    hide Active;
    ActiveUpdate(s.phases, a.i, Cancelled);
  }

  lemma StopKeepsInv(m: MapStep, s: State, a: Action)
    requires Inv(m, s) && Enabled(m, s, a) && a.Keep? && Stopped(m, s, a.i)
    ensures Inv(m, Do(m, s, a))
  {
    hide Active;
    ActiveUpdate(s.phases, a.i, Kept);
  }

  lemma CancelKeepsInv(m: MapStep, s: State, a: Action)
    requires Inv(m, s) && Enabled(m, s, a) && a.Cancel?
    ensures Inv(m, Do(m, s, a))
  {
    hide Active;
    ActiveUpdate(s.phases, a.i, Cancelled);
  }

  lemma ReleaseKeepsInv(m: MapStep, s: State, a: Action)
    requires Inv(m, s) && Enabled(m, s, a) && a.Release?
    ensures Inv(m, Do(m, s, a))
  {
    hide Active;
    ActiveUpdate(s.phases, a.i, Done);
  }

  // ---- runs ----

  /** The states a run passes through by the actions. */
  ghost predicate IsRun(m: MapStep, run: seq<State>, actions: seq<Action>) {
    && |run| == |actions| + 1 && run[0] == Start(m)
    && forall k {:trigger actions[k]} :: 0 <= k < |actions| ==> Steps(m, run[k], actions[k], run[k + 1])
  }

  predicate Steps(m: MapStep, s: State, a: Action, t: State) {
    Shaped(m, s) && Enabled(m, s, a) && t == Do(m, s, a)
  }

  lemma {:induction false} RunInv(m: MapStep, run: seq<State>, actions: seq<Action>, k: nat)
    requires IsRun(m, run, actions) && k < |run|
    ensures Inv(m, run[k])
  {
    if k == 0 {
      StartInv(m);
    } else {
      RunInv(m, run, actions, k - 1);
      assert Steps(m, run[k - 1], actions[k - 1], run[k - 1 + 1]);
      StepKeepsInv(m, run[k - 1], actions[k - 1]);
    }
  }

  /** How many elements are running their body, or have yet to give their slot back. */
  function Busy(s: State): nat {
    Active(s.phases)
  }

  /** Never are more elements busy than the map allows, and those started are the first ones. */
  lemma SomeAtATime(m: MapStep, run: seq<State>, actions: seq<Action>, k: nat)
    requires IsRun(m, run, actions) && k < |run|
    ensures Busy(run[k]) <= Max(Min(m.maxConcurrency, m.n), 1)
    ensures |run[k].phases| == m.n && forall i :: 0 <= i < m.n ==> (run[k].phases[i] != Waiting <==> i < run[k].started)
  {
    RunInv(m, run, actions, k);
  }

  /** Once an element that failed has cancelled the others, or the map's context has ended, no check of
      takeSlot passes. So none starts, except the one element whose check had passed before, if there is one:
      the loop starts that one late, and it does so before it is over. */
  lemma {:induction false} NoneClearedAfter(m: MapStep, run: seq<State>, actions: seq<Action>, j: nat, k: nat)
    requires IsRun(m, run, actions) && j <= k < |run| && Ended(run[j])
    ensures Ended(run[k])
    ensures run[k].loop.Cleared? ==> run[k].loop == run[j].loop
    ensures run[k].started == run[j].started + if run[j].loop.Cleared? && !run[k].loop.Cleared? then 1 else 0
    ensures forall i :: j <= i < k ==> actions[i] != PassCheck
    decreases k
  {
    if j < k {
      NoneClearedAfter(m, run, actions, j, k - 1);
      assert Steps(m, run[k - 1], actions[k - 1], run[k - 1 + 1]);
    }
  }

  /** An element starts after the end exactly when the loop had passed its check before it. */
  lemma StartsLate(m: MapStep, run: seq<State>, actions: seq<Action>, j: nat, k: nat)
    requires IsRun(m, run, actions) && j <= k < |run| && Ended(run[j]) && Final(run[k])
    ensures run[k].started > run[j].started <==> run[j].loop.Cleared?
    ensures |run[k].phases| == m.n
    ensures run[j].loop.Cleared? ==>
      run[j].loop.i < m.n && run[k].started == run[j].started + 1 && run[k].phases[run[j].loop.i] == Done
  {
    NoneClearedAfter(m, run, actions, j, k);
    RunInv(m, run, actions, j);
    RunInv(m, run, actions, k);
  }

  /** Two elements, both at a time, the first of which fails. */
  function LateMap(): MapStep {
    MapStep(2, 2, false, i => if i == 0 then Fails(false) else Outcome.Value(0, 0))
  }

  /** The loop passes its check for the second element, the first fails and cancels it, and the loop starts
      it. */
  function LateActions(): seq<Action> {
    [TakeSlot, PassCheck, StartElement, TakeSlot, PassCheck, Write(0, Fails(false)), Keep(0), Cancel(0), StartElement]
  }

  function LateRun(): seq<State> {
    var none: seq<Option<Outcome>> := [None, None];
    var s3 := State(At(1), 1, 1, [Running, Waiting], none, None, false, false);
    var s5 := s3.(loop := Cleared(1), slots := 2);
    var s6 := s5.(phases := [Written, Waiting], outcomes := [Some(Fails(false)), None]);
    var s7 := s6.(phases := [Kept, Waiting], stop := Some(0));
    var s8 := s7.(phases := [Cancelled, Waiting], cancelled := true);
    [ Start(LateMap()),
      State(Holding(0), 0, 1, [Waiting, Waiting], none, None, false, false),
      State(Cleared(0), 0, 1, [Waiting, Waiting], none, None, false, false),
      s3, s3.(loop := Holding(1), slots := 2), s5, s6, s7, s8,
      s8.(loop := At(2), started := 2, phases := [Cancelled, Running]) ]
  }

  /** An element does start after one that failed has cancelled the others. */
  lemma LateStart()
    ensures |LateRun()| == 10 && IsRun(LateMap(), LateRun(), LateActions())
    ensures LateRun()[8].cancelled && LateRun()[8].loop == Cleared(1) && LateRun()[8].started == 1
    ensures LateRun()[9].started == 2 && LateRun()[9].phases == [Cancelled, Running]
  {
    LateBefore();
    LateAfter();
    var run, actions := LateRun(), LateActions();
    hide LateMap, Steps;
    forall k {:trigger actions[k]} | 0 <= k < |actions| ensures Steps(LateMap(), run[k], actions[k], run[k + 1]) {
    }
  }

  lemma LateBefore()
    ensures var m, run, actions := LateMap(), LateRun(), LateActions();
      forall k {:trigger actions[k]} :: 0 <= k < 5 ==> Steps(m, run[k], actions[k], run[k + 1])
  {
    LateActive(Waiting);
    LateActive(Running);
    hide Active;
    assert Start(LateMap()).phases == [Waiting, Waiting] && Start(LateMap()).outcomes == [None, None];
    assert [Waiting, Waiting][0 := Running] == [Running, Waiting];
  }

  lemma LateAfter()
    ensures var m, run, actions := LateMap(), LateRun(), LateActions();
      forall k {:trigger actions[k]} :: 5 <= k < 9 ==> Steps(m, run[k], actions[k], run[k + 1])
  {
    LateActive(Running);
    LateActive(Written);
    LateActive(Kept);
    LateActive(Cancelled);
    hide Active;
  }

  lemma LateActive(phase: Phase)
    ensures Active([phase, Waiting]) == if phase in {Running, Written, Kept, Cancelled} then 1 else 0
  {
    assert [phase, Waiting][..1] == [phase] && [phase][..0] == [];
    assert Active([phase]) == if phase in {Running, Written, Kept, Cancelled} then 1 else 0;
  }

  // ---- what the map returns ----

  /** The loop is over and every element it started is done, so wg.Wait returns. */
  predicate Final(s: State) {
    s.loop.Over? && forall i :: 0 <= i < |s.phases| ==> s.phases[i] in {Waiting, Done}
  }

  /** What runElements returns: the outcomes of all elements, that an element stopped the map, or that its
      context ended. */
  datatype Return = AllOf(outcomes: seq<Outcome>) | StoppedBy(i: nat) | ContextEnd

  function Returned(m: MapStep, s: State): Return
    requires Inv(m, s) && Final(s)
  {
    if s.stop.Some? then StoppedBy(s.stop.value)
    else if s.started < m.n then ContextEnd
    else AllOf(seq(m.n, i requires 0 <= i < m.n => s.outcomes[i].value))
  }

  /** How the elements end when nothing cancels them, in the order of the list. */
  function Alone(m: MapStep): (outcomes: seq<Outcome>)
    ensures |outcomes| == m.n && forall i :: 0 <= i < m.n ==> outcomes[i] == m.result(i)
  {
    seq(m.n, i requires 0 <= i < m.n => m.result(i))
  }

  /** The map run one element after the other. */
  function OneByOne(m: MapStep, i: nat): Return
    requires i <= m.n
    decreases m.n - i
  {
    if i == m.n then AllOf(Alone(m))
    else if Stops(m, m.result(i), false) then StoppedBy(i)
    else OneByOne(m, i + 1)
  }

  lemma {:induction false} OneByOneMeans(m: MapStep, i: nat)
    requires i <= m.n
    ensures OneByOne(m, i).AllOf? <==> forall k :: i <= k < m.n ==> !Stops(m, m.result(k), false)
    ensures OneByOne(m, i).AllOf? ==> OneByOne(m, i).outcomes == Alone(m)
    ensures !OneByOne(m, i).ContextEnd?
    decreases m.n - i
  {
    if i < m.n && !Stops(m, m.result(i), false) {
      OneByOneMeans(m, i + 1);
    }
  }

  /** An element fails a Map by failing, and a MapCollect by a Budget error. */
  predicate FailsFor(m: MapStep, o: Outcome) {
    o.Fails? && (m.collect ==> o.budget)
  }

  /** However the elements interleave, a map whose context does not end returns what it would return one
      element after the other: the same outcomes in the order of the list, or that an element stopped it. */
  lemma SameAsOneByOne(m: MapStep, run: seq<State>, actions: seq<Action>, k: nat)
    requires IsRun(m, run, actions) && k < |run| && Final(run[k]) && !run[k].ended
    ensures Inv(m, run[k])
    ensures Returned(m, run[k]).AllOf? <==> OneByOne(m, 0).AllOf?
    ensures Returned(m, run[k]).AllOf? ==> Returned(m, run[k]) == OneByOne(m, 0)
    ensures !Returned(m, run[k]).ContextEnd?
    ensures var r := Returned(m, run[k]); r.StoppedBy? ==> r.i < m.n && FailsFor(m, m.result(r.i))
  {
    RunInv(m, run, actions, k);
    var s := run[k];
    OneByOneMeans(m, 0);
    if s.stop.None? {
      assert !Ended(s);
      forall i | 0 <= i < m.n ensures s.outcomes[i] == Some(m.result(i)) && !Stops(m, m.result(i), false) {
      }
      assert s.started == m.n;
      var all, alone := Returned(m, s).outcomes, Alone(m);
      forall i: nat | i < m.n ensures all[i] == alone[i] {
        assert s.outcomes[i] == Some(m.result(i));
      }
      assert all == alone;
    } else {
      StoppedFails(m, run, actions, k);
    }
  }

  /** Before anything is cancelled, elements end as they would alone. So the element a map is first
      stopped by is one that would stop it alone. */
  lemma {:induction false} StoppedFails(m: MapStep, run: seq<State>, actions: seq<Action>, k: nat)
    requires IsRun(m, run, actions) && k < |run| && !run[k].ended && run[k].stop.Some?
    ensures run[k].stop.value < m.n && Stops(m, m.result(run[k].stop.value), false)
    decreases k
  {
    RunInv(m, run, actions, k);
    if k > 0 {
      RunInv(m, run, actions, k - 1);
      assert Steps(m, run[k - 1], actions[k - 1], run[k - 1 + 1]);
      if run[k - 1].stop.Some? {
        StoppedFails(m, run, actions, k - 1);
      }
    }
  }

  // ---- what the map commits ----

  /** An entry of the list a map writes: the value of an element, or, in a MapCollect, that it failed. */
  datatype Entry = Got(value: int) | Missing

  function EntryOf(o: Outcome): Entry {
    match o case Value(value, _) => Got(value) case Fails(_) => Missing
  }

  /** What the elements that succeeded staged for tools, in the order of the list. */
  function StagedBy(outcomes: seq<Outcome>): seq<int> {
    if outcomes == [] then []
    else
      var last := outcomes[|outcomes| - 1];
      StagedBy(outcomes[..|outcomes| - 1]) + if last.Value? then [last.staged] else []
  }

  /** Staging is that of each element that succeeded, in the order of the elements. */
  lemma {:induction false} StagedMeans(a: seq<Outcome>, b: seq<Outcome>)
    ensures StagedBy(a + b) == StagedBy(a) + StagedBy(b)
    ensures forall o: Outcome :: StagedBy([o]) == if o.Fails? then [] else [o.staged]
    decreases |b|
  {
    assert forall o: Outcome :: [o][..0] == [];
    if b == [] {
      assert a + b == a;
    } else {
      var n := |b| - 1;
      assert (a + b)[..|a + b| - 1] == a + b[..n];
      StagedMeans(a, b[..n]);
    }
  }

  /** How the map ends: with the list it writes and what is staged then, or with an error, writing and staging
      nothing. */
  datatype End = Commits(list: seq<Entry>, stage: seq<int>) | Errs

  /** The list: one entry for each element, in the order of the elements. */
  function Joined(outcomes: seq<Outcome>): (list: seq<Entry>)
    ensures |list| == |outcomes| && forall i :: 0 <= i < |list| ==> list[i] == EntryOf(outcomes[i])
  {
    seq(|outcomes|, i requires 0 <= i < |outcomes| => EntryOf(outcomes[i]))
  }

  /** joinValues and joinResults. */
  method Join(outcomes: seq<Outcome>) returns (list: seq<Entry>)
    ensures list == Joined(outcomes)
  {
    list := [];
    for i := 0 to |outcomes|
      invariant |list| == i && forall k :: 0 <= k < i ==> list[k] == EntryOf(outcomes[k])
    {
      list := list + [EntryOf(outcomes[i])];
    }
  }

  /** The rest of runCandidate, once runElements has returned. */
  method Finish(m: MapStep, s: State, stage: seq<int>) returns (end: End)
    requires Inv(m, s) && Final(s)
    ensures end.Commits? <==> Returned(m, s).AllOf?
    ensures end.Commits? ==> end == Commits(Joined(Returned(m, s).outcomes), stage + StagedBy(Returned(m, s).outcomes))
  {
    var returned := Returned(m, s);
    hide Returned, Inv, Final;
    if !returned.AllOf? {
      return Errs;
    }
    var outcomes := returned.outcomes;
    var list := Join(outcomes);
    var staged := stage;
    for i := 0 to |outcomes|
      invariant staged == stage + StagedBy(outcomes[..i])
    {
      assert outcomes[..i + 1][..i] == outcomes[..i];
      if outcomes[i].Value? {
        staged := staged + [outcomes[i].staged];
      }
    }
    assert outcomes[..|outcomes|] == outcomes;
    return Commits(list, staged);
  }

  /** Which maps commit. However the elements interleave, one whose context does not end commits exactly when
      no element stops it alone, and then the list and the staging are those of the elements alone, in their
      order; the list of a Map that is no MapCollect has a value of every element. */
  lemma CommitsAlone(m: MapStep, run: seq<State>, actions: seq<Action>, k: nat)
    requires IsRun(m, run, actions) && k < |run| && Final(run[k]) && !run[k].ended
    ensures Inv(m, run[k])
    ensures Returned(m, run[k]).AllOf? <==> forall i :: 0 <= i < m.n ==> !FailsFor(m, m.result(i))
    ensures var r := Returned(m, run[k]); r.AllOf? ==>
      && |Joined(r.outcomes)| == m.n && StagedBy(r.outcomes) == StagedBy(Alone(m))
      && (forall i: nat :: i < m.n ==> Joined(r.outcomes)[i] == if m.result(i).Value? then Got(m.result(i).value) else Missing)
      && (!m.collect ==> forall i :: 0 <= i < m.n ==> Joined(r.outcomes)[i].Got?)
  {
    SameAsOneByOne(m, run, actions, k);
    OneByOneMeans(m, 0);
  }

  // ---- the map returns ----

  /** The steps an element has left. */
  function Left(phase: Phase): nat {
    match phase
    case Waiting => 5
    case Running => 4
    case Written => 3
    case Kept => 2
    case Cancelled => 1
    case Done => 0
  }

  function LeftOf(phases: seq<Phase>): seq<nat> {
    Each(phase => Left(phase), phases)
  }

  /** What every step makes smaller. */
  function Measure(m: MapStep, s: State): int {
    Total(LeftOf(s.phases)) + (if s.ended then 0 else 1)
      + match s.loop case At(i) => 3 * (m.n - i) + 1 case Holding(i) => 3 * (m.n - i) case Cleared(i) => 3 * (m.n - i) - 1 case Over => 0
  }

  /** What one element's next phase leaves. */
  lemma LeftNext(phases: seq<Phase>, i: nat, phase: Phase)
    requires i < |phases|
    ensures Total(LeftOf(phases[i := phase])) == Total(LeftOf(phases)) - Left(phases[i]) + Left(phase)
  {
    TotalUpdate(LeftOf(phases), i, Left(phase));
    assert LeftOf(phases[i := phase]) == LeftOf(phases)[i := Left(phase)];
  }

  /** Every step brings the map nearer its end, and until it is final some step can be taken: the map
      returns, however its elements interleave. */
  lemma Progress(m: MapStep, s: State, a: Action)
    requires Inv(m, s) && Enabled(m, s, a)
    ensures 0 <= Measure(m, Do(m, s, a)) < Measure(m, s)
  {
    hide Total, LeftOf, Active;
    match a
    case StartElement => LeftNext(s.phases, s.loop.i, Running);
    case Write(i, _) => LeftNext(s.phases, i, Written);
    case Keep(i) =>
      LeftNext(s.phases, i, Kept);
      LeftNext(s.phases, i, Cancelled);
    case Cancel(i) => LeftNext(s.phases, i, Cancelled);
    case Release(i) => LeftNext(s.phases, i, Done);
    case _ =>
  }

  lemma NeverStuck(m: MapStep, s: State)
    requires Inv(m, s) && !Final(s)
    ensures exists a :: Enabled(m, s, a) && a != EndContext
  {
    if i: nat :| i < m.n && s.phases[i] !in {Waiting, Done} {
      var a := match s.phases[i]
        case Running => Write(i, m.result(i))
        case Written => Keep(i)
        case Kept => Cancel(i)
        case _ => Release(i);
      assert Enabled(m, s, a);
    } else {
      NoneBusy(s.phases);
      if s.loop.Holding? {
        assert Enabled(m, s, PassCheck) || Enabled(m, s, GiveBack);
      } else if s.loop.Cleared? {
        assert Enabled(m, s, StartElement);
      } else {
        assert Enabled(m, s, TakeSlot) || Enabled(m, s, StopStarting);
      }
    }
  }

  lemma {:induction false} NoneBusy(phases: seq<Phase>)
    requires forall i :: 0 <= i < |phases| ==> phases[i] in {Waiting, Done}
    ensures Active(phases) == 0
    decreases |phases|
  {
    if phases != [] {
      NoneBusy(phases[..|phases| - 1]);
    }
  }
}

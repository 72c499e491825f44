/**
 The run of a pipeline's top-level steps as a function of what steps and hooks choose.

 A run is a sequence of iterations; one iteration visits one step and follows what its outcome
 decides. What is not the pipeline's to decide, namely how the step ends, what it stores in the step
 cache, and what the transitions' functions return, comes in one Choices value an iteration, so a
 statement about every Choices is about every step and hook. Class FlowRun, which changes one state in
 place, is proved against these functions.
 */
module Flow {
  import opened Basics
  import opened Pipelines

  // ---- what steps and hooks choose ----

  datatype Kind = Unclassified | Permanent | Transient | Budget

  /** One error of a chain of wrapped and joined errors. */
  datatype Cause =
    | StepFailure(kind: Kind)
    | BadWrites
    | HoldsWrite(key: Name)
    | MergeFailure(key: Name, kind: Kind)
    | VisitsExceeded(rule: nat)
    | HookFailure(rule: nat, kind: Kind)
    | ToFail(rule: nat)

  /** An error: its causes in the order errors.As looks through them. */
  type Error = seq<Cause>

  function KindOf(cause: Cause): Kind {
    match cause
    case StepFailure(kind) => kind
    case MergeFailure(_, kind) => kind
    case HookFailure(_, kind) => kind
    case VisitsExceeded(_) => Permanent
    case ToFail(_) => Permanent
    case BadWrites => Unclassified
    case HoldsWrite(_) => Unclassified
  }

  /** The kind of the first classified cause decides (IsPermanent). */
  predicate IsPermanent(err: Error) {
    err != [] && (if KindOf(err[0]) == Unclassified then IsPermanent(err[1..]) else KindOf(err[0]) == Permanent)
  }

  /** What a When, Accept or RestoreOnError returns, or that it panics. */
  datatype Verdict = Yes | No | Panics

  datatype CacheKey = CacheKey(step: Name, key: string)
  type Cache = map<CacheKey, int>
  type Journal = map<CacheKey, Option<int>>

  /** What steps stage for tools: memory writes and cached tool results, by key. */
  type Tools = map<string, int>

  /** How a step's own execution ends: with an error, or with the writes it set, the outputs it
      preserved and what it staged for tools. */
  datatype Outcome =
    | Fails(kind: Kind)
    | Returns(writes: Values, preserved: set<Name>, staged: Tools)

  /** Everything steps and hooks choose in one iteration. A function of several values stands for
      a hook that may answer differently for each. */
  datatype Choices = Choices(
    outcome: Outcome,
    stores: seq<(CacheKey, int)>,
    merge: (Name, Value, Value) -> Result<Value, Kind>,
    accept: (Values, Values) -> Verdict,
    when: (Rule, Values) -> Verdict,
    whenFailed: (Rule, Values, Error) -> Verdict,
    whenRestored: (Rule, Values) -> Verdict,
    amend: (Rule, Values) -> Result<Values, Kind>,
    restore: (nat, Error) -> Verdict,
    ended: bool)

  // ---- the state of a run ----

  /** A copy of state values and of which of them hold only their default. */
  datatype Snapshot = Snapshot(values: Values, defaulted: set<Name>)

  /** A rewind whose range is running again. */
  datatype Pending = Pending(rule: Rule, prev: Snapshot, amended: Option<Values>, stage: Tools)

  /** The fields of a flowRun, with the step cache and the tools the run commits to. */
  datatype FlowState = FlowState(
    values: Values,
    defaulted: set<Name>,
    visits: seq<nat>,
    before: map<int, Snapshot>,
    rewind: Option<Pending>,
    cache: Cache,
    journal: Option<Journal>,
    tools: Tools)

  /** The values a visit's view reads: those of the state, shared with it, or a copy of its own. */
  datatype View = Live | Copied(values: Values)

  function Resolve(view: View, s: FlowState): Values {
    if view.Live? then s.values else view.values
  }

  /** How one visit of a step ended. err is empty when it succeeded. */
  datatype StepVisit = StepVisit(
    view: View, committed: Values, staged: Tools, err: Error, rule: Option<Rule>,
    accepted: bool, rejected: bool, acceptFailed: bool, maxed: bool, amended: Option<Values>)

  /** A run's StepError: the step that failed, its error and the reads it had. */
  datatype StepError = StepError(step: nat, err: Error, readValues: Values)

  /** Where a run goes after a visit. */
  datatype Next = Goto(index: int) | Failed(failure: StepError)

  // ---- snapshots ----

  /** The values of keys that values holds. */
  function KeyValues(values: Values, keys: set<Name>): Values {
    map key | key in keys && key in values :: values[key]
  }

  /** values with keys set to what snapshot holds, and without those it does not hold. */
  function RestoreValues(values: Values, snapshot: Snapshot, keys: set<Name>): Values {
    map key | key in values.Keys + snapshot.values.Keys
      && (if key in keys then key in snapshot.values else key in values)
      :: if key in keys then snapshot.values[key] else values[key]
  }

  function RestoreDefaulted(defaulted: set<Name>, snapshot: Snapshot, keys: set<Name>): set<Name> {
    (defaulted - keys) + (snapshot.defaulted * keys)
  }

  function SnapshotAll(s: FlowState): Snapshot {
    Snapshot(s.values, s.defaulted)
  }

  function SnapshotOf(s: FlowState, keys: set<Name>): Snapshot {
    Snapshot(KeyValues(s.values, keys), s.defaulted * keys)
  }

  function RewindKeys(p: Pipeline, rule: Rule): set<Name> {
    if rule.rewind && rule.to >= 0 && SpanOf(rule) in p.keys then p.keys[SpanOf(rule)].Keys else {}
  }

  // ---- the step cache ----

  /** Caches result, noting in a running journal the entry it replaces the first time. */
  function StoreCached(s: FlowState, entry: CacheKey, result: int): FlowState {
    var journal := match s.journal
      case None => None
      case Some(j) =>
        if entry in j then s.journal
        else Some(j[entry := if entry in s.cache then Some(s.cache[entry]) else None]);
    s.(cache := s.cache[entry := result], journal := journal)
  }

  function StoreAll(s: FlowState, stores: seq<(CacheKey, int)>): FlowState
    decreases |stores|
  {
    if stores == [] then s else StoreAll(StoreCached(s, stores[0].0, stores[0].1), stores[1..])
  }

  /** The cache with the entries of journal put back as they were. */
  function TakeBack(cache: Cache, journal: Journal): Cache {
    map entry | entry in cache.Keys + journal.Keys && (entry in journal ==> journal[entry].Some?)
      :: if entry in journal then journal[entry].value else cache[entry]
  }

  /** The cache once the journal, if any, has ended, with the entries stored under it or not. */
  function EndJournal(s: FlowState, keep: bool): Cache {
    if s.journal.Some? && !keep then TakeBack(s.cache, s.journal.value) else s.cache
  }

  // ---- rewinds ----

  /** Takes rule, a rewind: snapshots the values of its range, resets them to what they were before
      the target's latest visit, and starts a stage and a journal. */
  function StartRewind(p: Pipeline, s: FlowState, rule: Rule, amended: Option<Values>): FlowState {
    var keys := RewindKeys(p, rule);
    var prev := SnapshotOf(s, keys);
    var before := if rule.to in s.before then s.before[rule.to] else Snapshot(map[], {});
    s.(values := RestoreValues(s.values, before, keys),
       defaulted := RestoreDefaulted(s.defaulted, before, keys),
       journal := Some(map[]),
       rewind := Some(Pending(rule, prev, amended, map[])))
  }

  /** Ends the running rewind, if any, with or without what its range staged and cached. */
  function EndRewind(s: FlowState, keep: bool): FlowState {
    match s.rewind
    case None => s
    case Some(r) =>
      s.(rewind := None, journal := None, cache := EndJournal(s, keep),
         tools := if keep then s.tools + r.stage else s.tools)
  }

  /** Ends the running rewind without the range's new visit. */
  function RejectRewind(p: Pipeline, s: FlowState): FlowState
    requires s.rewind.Some?
  {
    var r := s.rewind.value;
    s.(values := RestoreValues(s.values, r.prev, RewindKeys(p, r.rule)),
       defaulted := RestoreDefaulted(s.defaulted, r.prev, RewindKeys(p, r.rule)),
       rewind := None, journal := None, cache := EndJournal(s, false))
  }

  predicate Exhausted(p: Pipeline, s: FlowState, rule: Rule)
    requires |s.visits| == |p.maxVisits|
  {
    0 <= rule.to < |s.visits| && s.visits[rule.to] >= p.maxVisits[rule.to]
  }

  // ---- one visit ----

  /** The execution's writes are declared with their types, and every declared write is set or
      preserves a value the step reads (State.store, State.preserve and runNode's check). */
  predicate WritesOk(node: StepNode, view: Values, writes: Values, preserved: set<Name>) {
    && (forall key :: key in writes ==>
         Declares(node.writeKeys, key) && writes[key].typ == TypeOf(node.writeKeys, key))
    && (forall key :: key in preserved ==> Declares(node.writeKeys, key) && Declares(node.readKeys, key) && key in view)
    && (forall j :: 0 <= j < |node.writeKeys| ==> node.writeKeys[j].name in writes.Keys + preserved)
  }

  /** The key holds a committed write: it is in the state and is not only its default. */
  predicate Holds(s: FlowState, key: Name) {
    key in s.values && key !in s.defaulted
  }

  /** What the step's declared writes from the j-th on commit over committed, or the first error. */
  function MergeFrom(p: Pipeline, s: FlowState, node: StepNode, writes: Values, c: Choices, j: nat, committed: Values)
    : Result<Values, Error>
    requires j <= |node.writeKeys|
    decreases |node.writeKeys| - j
  {
    if j == |node.writeKeys| then Ok(committed)
    else
      var key := node.writeKeys[j].name;
      if key !in writes then MergeFrom(p, s, node, writes, c, j + 1, committed)
      else if !Holds(s, key) then
        MergeFrom(p, s, node, writes, c, j + 1, committed[key := writes[key]])
      else if key !in p.merges then Err([HoldsWrite(key)])
      else match c.merge(key, s.values[key], writes[key])
        case Err(kind) => Err([MergeFailure(key, kind)])
        case Ok(merged) =>
          if merged.typ != node.writeKeys[j].typ then Err([MergeFailure(key, Unclassified)])
          else MergeFrom(p, s, node, writes, c, j + 1, committed[key := merged])
  }

  function MergeWrites(p: Pipeline, s: FlowState, node: StepNode, writes: Values, c: Choices): Result<Values, Error> {
    MergeFrom(p, s, node, writes, c, 0, map[])
  }

  /** What a rule's Amend sets, or why it fails: it may set only amendable keys of the target. */
  function CallAmend(p: Pipeline, rule: Rule, view: Values, c: Choices): Result<Option<Values>, Error> {
    if !rule.hasAmend then Ok(None)
    else match c.amend(rule, view)
      case Err(kind) => Err([HookFailure(rule.index, kind)])
      case Ok(values) =>
        if 0 <= rule.to < |p.steps| && p.steps[rule.to].amendable.Some? &&
           (forall key :: key in values ==>
              && Declares(p.steps[rule.to].amendable.value, key)
              && values[key].typ == TypeOf(p.steps[rule.to].amendable.value, key))
        then Ok(Some(values))
        else Err([HookFailure(rule.index, Unclassified)])
  }

  function CallWhen(rule: Rule, answer: Verdict): Verdict {
    if rule.hasWhen then answer else Yes
  }

  /** The rule the transitions on success choose. */
  datatype Choice =
    | Chosen(rule: Option<Rule>, amended: Option<Values>)
    | ChoiceFails(err: Error, maxed: bool)

  /** The first of list from position k on that matches; a rejected visit takes no rewind. */
  function Choose(p: Pipeline, s: FlowState, list: seq<Rule>, k: nat, rejected: bool, view: Values, c: Choices): Choice
    requires k <= |list| && |s.visits| == |p.maxVisits|
    decreases |list| - k
  {
    if k == |list| then Chosen(None, None)
    else
      var rule := list[k];
      if rejected && rule.rewind then Choose(p, s, list, k + 1, rejected, view, c)
      else match CallWhen(rule, c.when(rule, view))
        case Panics => ChoiceFails([HookFailure(rule.index, Unclassified)], false)
        case No => Choose(p, s, list, k + 1, rejected, view, c)
        case Yes =>
          if !rule.rewind then Chosen(Some(rule), None)
          else if Exhausted(p, s, rule) then ChoiceFails([VisitsExceeded(rule.index)], true)
          else match CallAmend(p, rule, view, c)
            case Err(err) => ChoiceFails(err, false)
            case Ok(amended) => Chosen(Some(rule), amended)
  }

  /** A visit that failed with err. */
  function FailedVisit(view: View, err: Error): StepVisit {
    StepVisit(view, map[], map[], err, None, false, false, false, false, None)
  }

  /** Whether step i ends the running rewind. */
  predicate EndsRewind(s: FlowState, i: nat) {
    s.rewind.Some? && s.rewind.value.rule.from == i
  }

  /** Runs Accept when step i ends a rewind and chooses the step's transition on success. */
  function Decide(p: Pipeline, s: FlowState, i: nat, view: View, writes: Values, committed: Values, staged: Tools, c: Choices)
    : StepVisit
    requires i < |p.steps| == |p.success| == |p.maxVisits| == |s.visits|
  {
    var node := p.steps[i];
    var names := Names(node.readKeys) + Names(node.writeKeys);
    var base := StepVisit(view, committed, staged, [], None, false, false, false, false, None);
    var values := Resolve(view, s) + writes;
    if EndsRewind(s, i) then
      var r := s.rewind.value;
      var keys := RewindKeys(p, r.rule);
      var verdict := if r.rule.hasAccept
        then c.accept(r.prev.values, KeyValues(s.values + committed, keys)) else Yes;
      match verdict
      case Panics => FailedVisit(view, [HookFailure(r.rule.index, Unclassified)]).(acceptFailed := true)
      case Yes => Decided(base.(accepted := true), Choose(p, s, p.success[i], 0, false, KeyValues(values, names), c))
      case No =>
        var restored := RestoreValues(s.values, r.prev, keys);
        Decided(base.(rejected := true), Choose(p, s, p.success[i], 0, true, KeyValues(restored, names), c))
    else
      Decided(base, Choose(p, s, p.success[i], 0, false, KeyValues(values, names), c))
  }

  /** base with the outcome of its transitions; a visit they fail keeps only its verdicts. */
  function Decided(base: StepVisit, choice: Choice): StepVisit {
    match choice
    case Chosen(rule, amended) => base.(rule := rule, amended := amended)
    case ChoiceFails(err, maxed) =>
      FailedVisit(base.view, err).(accepted := base.accepted, rejected := base.rejected, maxed := maxed)
  }

  /** The amended values the running rewind gives step i's view, on its first visit only. */
  function AmendedView(s: FlowState, i: nat): View {
    if s.rewind.Some? && s.rewind.value.amended.Some? && s.rewind.value.rule.to == i
    then Copied(s.values + s.rewind.value.amended.value) else Live
  }

  /** The state as the visit of step i starts. */
  function Enter(p: Pipeline, s: FlowState, i: nat): FlowState
    requires i < |s.visits| == |p.target|
  {
    s.(visits := s.visits[i := s.visits[i] + 1],
       before := if p.target[i] then s.before[i := SnapshotAll(s)] else s.before,
       rewind := if AmendedView(s, i).Copied? then Some(s.rewind.value.(amended := None)) else s.rewind)
  }

  /** Runs step i once, from the state s that Enter gave: its execution and its decision. */
  function Execute(p: Pipeline, s: FlowState, i: nat, view: View, c: Choices): StepVisit
    requires i < |p.steps| == |p.success| == |p.maxVisits| == |s.visits|
  {
    match c.outcome
    case Fails(kind) => FailedVisit(view, [StepFailure(kind)])
    case Returns(writes, preserved, staged) =>
      if !WritesOk(p.steps[i], Resolve(view, s), writes, preserved) then FailedVisit(view, [BadWrites])
      else match MergeWrites(p, s, p.steps[i], writes, c)
        case Err(err) => FailedVisit(view, err)
        case Ok(committed) => Decide(p, s, i, view, writes, committed, staged, c)
  }

  // ---- after a visit ----

  /** Makes a successful visit's writes part of the state, and what it staged part of the running
      rewind's stage or of the run's tools. */
  function Commit(s: FlowState, visit: StepVisit): FlowState {
    s.(values := s.values + visit.committed,
       defaulted := s.defaulted - visit.committed.Keys,
       rewind := if s.rewind.Some?
         then Some(s.rewind.value.(stage := s.rewind.value.stage + visit.staged)) else None,
       tools := if s.rewind.Some? then s.tools else s.tools + visit.staged)
  }

  /** What an iteration does after the visit has been committed, dropped or undone: mid is the
      state then, rewind the rule whose rewind it starts, and undone whether it restored a snapshot. */
  datatype Ending = Ending(mid: FlowState, next: Next, rewind: Option<Rule>, amended: Option<Values>, undone: bool)

  function Follow(p: Pipeline, mid: FlowState, i: nat, rule: Option<Rule>, readValues: Values, amended: Option<Values>, undone: bool)
    : Ending
    requires i < |p.steps|
  {
    match rule
    case None => Ending(mid, Goto(i + 1), None, None, undone)
    case Some(rule) =>
      if rule.to == FAIL then
        Ending(mid, Failed(StepFailed(p, i, [ToFail(rule.index)], readValues)), None, None, undone)
      else if rule.to == END then Ending(mid, Goto(|p.steps|), None, None, undone)
      else if rule.rewind then Ending(mid, Goto(rule.to), Some(rule), amended, undone)
      else Ending(mid, Goto(rule.to), None, None, undone)
  }

  function StepFailed(p: Pipeline, i: nat, err: Error, readValues: Values): StepError
    requires i < |p.steps|
  {
    StepError(i, err, KeyValues(readValues, Names(p.steps[i].readKeys)))
  }

  /** Commits a visit that succeeded unless Accept rejected it or it goes to Fail, and follows its rule. */
  function Succeeded(p: Pipeline, s: FlowState, i: nat, visit: StepVisit): Ending
    requires i < |p.steps|
  {
    var toFail := visit.rule.Some? && visit.rule.value.to == FAIL;
    var readValues := Resolve(visit.view, s);
    if EndsRewind(s, i) then
      if visit.rejected then
        Follow(p, RejectRewind(p, s), i, visit.rule, readValues, visit.amended, true)
      else
        Follow(p, EndRewind(if toFail then s else Commit(s, visit), true), i, visit.rule, readValues, visit.amended, false)
    else
      Follow(p, if toFail then s else Commit(s, visit), i, visit.rule, readValues, visit.amended, false)
  }

  /** A call of a hook while a failure is dealt with. */
  datatype Call = AskRestore | AskWhen(rule: Rule, err: Error) | AskAmend(rule: Rule)

  /** What the transitions on failure decide, with the hooks they called in order. */
  datatype Decision =
    | Stop(err: Error, calls: seq<Call>)
    | RestorePanics(calls: seq<Call>)
    | GoRestore(calls: seq<Call>)
    | Take(rule: Rule, amended: Option<Values>, err: Error, calls: seq<Call>)

  /** Evaluates the transitions on failure of step i from position k on. restorable: the running
      rewind's RestoreOnError has yet to be asked; exhausted: rewinds to a target that has used its
      visits no longer match. */
  function EvalFailure(
    p: Pipeline, s: FlowState, i: nat, first: Error, view: Values, c: Choices,
    k: nat, restorable: bool, exhausted: bool, err: Error, calls: seq<Call>): (d: Decision)
    requires i < |p.steps| == |p.failure| == |p.fallback| == |p.maxVisits| == |s.visits|
    requires k <= |p.failure[i]|
    ensures d.GoRestore? || d.RestorePanics? ==> restorable
    decreases !exhausted, |p.failure[i]| - k, if restorable then 3 else 2
  {
    var list := p.failure[i];
    if k == |list| then
      if !restorable then Stop(err, calls)
      else match c.restore(i, first)
        case Panics => RestorePanics(calls + [AskRestore])
        case Yes => GoRestore(calls + [AskRestore])
        case No => Stop(err, calls + [AskRestore])
    else
      var rule := list[k];
      if restorable && k > p.fallback[i] then
        match c.restore(i, first)
        case Panics => RestorePanics(calls + [AskRestore])
        case Yes => GoRestore(calls + [AskRestore])
        case No => EvalFailure(p, s, i, first, view, c, k, false, exhausted, err, calls + [AskRestore])
      else if exhausted && rule.rewind && Exhausted(p, s, rule) then
        EvalFailure(p, s, i, first, view, c, k + 1, restorable, exhausted, err, calls)
      else
        var called := if rule.hasWhen then calls + [AskWhen(rule, err)] else calls;
        match CallWhen(rule, c.whenFailed(rule, view, err))
        case Panics => Stop(err + [HookFailure(rule.index, Unclassified)], called)
        case No => EvalFailure(p, s, i, first, view, c, k + 1, restorable, exhausted, err, called)
        case Yes => TakeFailure(p, s, i, first, view, c, k, rule, restorable, exhausted, err, called)
  }

  /** Takes rule, which matched at position k, once RestoreOnError has been asked if the rule comes
      before the Fallback's; unless it is a rewind whose target has used its visits: then the rules
      are evaluated once more, on the error joined with ErrMaxVisits. */
  function TakeFailure(
    p: Pipeline, s: FlowState, i: nat, first: Error, view: Values, c: Choices,
    k: nat, rule: Rule, restorable: bool, exhausted: bool, err: Error, calls: seq<Call>): (d: Decision)
    requires i < |p.steps| == |p.failure| == |p.fallback| == |p.maxVisits| == |s.visits|
    requires k < |p.failure[i]| && rule == p.failure[i][k]
    requires !(exhausted && rule.rewind && Exhausted(p, s, rule))
    ensures d.GoRestore? || d.RestorePanics? ==> restorable
    decreases !exhausted, |p.failure[i]| - k, if restorable then 1 else 0
  {
    if restorable && k < p.fallback[i] && !rule.fallback then
      match c.restore(i, first)
      case Panics => RestorePanics(calls + [AskRestore])
      case Yes => GoRestore(calls + [AskRestore])
      case No => TakeFailure(p, s, i, first, view, c, k, rule, false, exhausted, err, calls + [AskRestore])
    else if !rule.rewind then Take(rule, None, err, calls)
    else if Exhausted(p, s, rule) then
      EvalFailure(p, s, i, first, view, c, 0, restorable, true, err + [VisitsExceeded(rule.index)], calls)
    else match CallAmend(p, rule, view, c)
      case Err(amendErr) => Stop(err + amendErr, calls + [AskAmend(rule)])
      case Ok(amended) => Take(rule, amended, err, if rule.hasAmend then calls + [AskAmend(rule)] else calls)
  }

  /** The first of From's transitions on success from position k on that is not a rewind and
      matches the restored values. */
  function ChooseRestored(list: seq<Rule>, k: nat, view: Values, c: Choices): Choice
    requires k <= |list|
    decreases |list| - k
  {
    if k == |list| then Chosen(None, None)
    else if list[k].rewind then ChooseRestored(list, k + 1, view, c)
    else match CallWhen(list[k], c.whenRestored(list[k], view))
      case Panics => ChoiceFails([HookFailure(list[k].index, Unclassified)], false)
      case No => ChooseRestored(list, k + 1, view, c)
      case Yes => Chosen(Some(list[k]), None)
  }

  /** Ends the running rewind after step i of its range failed, as a rejection does, and goes on
      past From. */
  function RestoreFailed(p: Pipeline, s: FlowState, i: nat, visit: StepVisit, c: Choices): Ending
    requires i < |p.steps| == |p.success|
    requires s.rewind.Some? && s.rewind.value.rule.from < |p.steps|
  {
    var from := s.rewind.value.rule.from;
    var mid := RejectRewind(p, s);
    var names := Names(p.steps[from].readKeys) + Names(p.steps[from].writeKeys);
    match ChooseRestored(p.success[from], 0, KeyValues(mid.values, names), c)
    case ChoiceFails(err, _) =>
      Ending(mid, Failed(StepFailed(p, i, visit.err + err, Resolve(visit.view, s))), None, None, true)
    case Chosen(rule, _) => Follow(p, mid, from, rule, mid.values, None, true)
  }

  /** What the failure of step i leads to. */
  function FailedStep(p: Pipeline, s: FlowState, i: nat, visit: StepVisit, c: Choices): Ending
    requires i < |p.steps| == |p.success| == |p.failure| == |p.fallback| == |p.maxVisits| == |s.visits|
    requires s.rewind.Some? ==> s.rewind.value.rule.from < |p.steps|
  {
    var readValues := Resolve(visit.view, s);
    var undo := EndsRewind(s, i) && (visit.rejected || visit.acceptFailed);
    var mid := if undo then RejectRewind(p, s) else s;
    if c.ended then
      Ending(mid, Failed(StepFailed(p, i, visit.err, readValues)), None, None, undo)
    else
      match DecideFailure(p, s, i, visit, c)
      case Stop(err, _) => Ending(mid, Failed(StepFailed(p, i, err, readValues)), None, None, undo)
      case RestorePanics(_) =>
        Ending(mid, Failed(StepFailed(p, i, visit.err + [HookFailure(s.rewind.value.rule.index, Unclassified)], readValues)),
          None, None, undo)
      case GoRestore(_) => RestoreFailed(p, s, i, visit, c)
      case Take(rule, amended, err, _) =>
        TakeOnError(p, mid, i, rule, amended, err, readValues, undo)
  }

  /** Takes rule after step i failed with err, in the state mid. */
  function TakeOnError(p: Pipeline, mid: FlowState, i: nat, rule: Rule, amended: Option<Values>, err: Error, readValues: Values, undone: bool)
    : Ending
    requires i < |p.steps|
  {
    var done := if EndsRewind(mid, i) then EndRewind(mid, true) else mid;
    if rule.to == FAIL then
      Ending(done, Failed(StepFailed(p, i, [ToFail(rule.index)] + err, readValues)), None, None, undone)
    else if rule.to == END then Ending(done, Goto(|p.steps|), None, None, undone)
    else if rule.rewind then Ending(done, Goto(rule.to), Some(rule), amended, undone)
    else Ending(done, Goto(rule.to), None, None, undone)
  }

  /** The decision of the transitions on failure of step i. */
  function DecideFailure(p: Pipeline, s: FlowState, i: nat, visit: StepVisit, c: Choices): (d: Decision)
    requires i < |p.steps| == |p.failure| == |p.fallback| == |p.maxVisits| == |s.visits|
    ensures d.GoRestore? || d.RestorePanics? ==> s.rewind.Some?
  {
    var undo := EndsRewind(s, i) && (visit.rejected || visit.acceptFailed);
    var mid := if undo then RejectRewind(p, s) else s;
    var restorable := !undo && s.rewind.Some? && s.rewind.value.rule.hasRestore && !visit.accepted;
    var view := KeyValues(Resolve(visit.view, mid), Names(p.steps[i].readKeys));
    EvalFailure(p, mid, i, visit.err, view, c, 0, restorable, visit.maxed, visit.err, [])
  }
}

/**
 One run of a pipeline, which updates its state in place step by step.

 Every method leaves the state the function of module Flow or Runs says, so what module RunTheorems
 proves of those functions holds of Run.
 */
module FlowRuns {
  import opened Basics
  import opened Pipelines
  import opened Flow
  import opened Runs
  import opened RunTheorems
  import opened FailureRules
  import ExactHazards
  import R = Reachability
  import T = Termination

  /** The state once an iteration that ends as e has taken its rule. */
  function Taken(p: Pipeline, e: Ending): FlowState {
    if e.rewind.Some? then StartRewind(p, e.mid, e.rewind.value, e.amended) else e.mid
  }

  lemma NothingTaken(p: Pipeline, mid: FlowState, undone: bool)
    ensures forall next :: Taken(p, Ending(mid, next, None, None, undone)) == mid
  {
  }

  /** cache with the entries of done put back as journal notes them. */
  function TakenBack(cache: Cache, journal: Journal, done: set<CacheKey>): Cache
    requires done <= journal.Keys
  {
    map entry | entry in cache.Keys + done && (entry in done ==> journal[entry].Some?)
      :: if entry in done then journal[entry].value else cache[entry]
  }

  lemma RestoredNone(was: Snapshot, snapshot: Snapshot)
    ensures RestoreValues(was.values, snapshot, {}) == was.values
    ensures RestoreDefaulted(was.defaulted, snapshot, {}) == was.defaulted
  {
  }

  lemma RestoredNext(was: Snapshot, snapshot: Snapshot, done: set<Name>, key: Name)
    requires key !in done
    ensures RestoreValues(was.values, snapshot, done + {key}) == (var back := RestoreValues(was.values, snapshot, done);
      if key in snapshot.values then back[key := snapshot.values[key]] else back - {key})
    ensures RestoreDefaulted(was.defaulted, snapshot, done + {key}) == (var back := RestoreDefaulted(was.defaulted, snapshot, done);
      if key in snapshot.defaulted then back + {key} else back - {key})
  {
  }

  lemma TakenBackNone(cache: Cache, journal: Journal)
    ensures TakenBack(cache, journal, {}) == cache
  {
  }

  lemma TakenBackAll(cache: Cache, journal: Journal)
    ensures TakenBack(cache, journal, journal.Keys) == TakeBack(cache, journal)
  {
  }

  lemma TakenBackNext(cache: Cache, journal: Journal, done: set<CacheKey>, entry: CacheKey)
    requires done <= journal.Keys && entry in journal.Keys - done
    ensures TakenBack(cache, journal, done + {entry}) == (var back := TakenBack(cache, journal, done);
      if journal[entry].Some? then back[entry := journal[entry].value] else back - {entry})
  {
  }

  /** What the decision d on the failure of step i leads to, in the state mid. */
  function AfterDecision(p: Pipeline, mid: FlowState, i: nat, visit: StepVisit, c: Choices, d: Decision, readValues: Values, undone: bool)
    : Ending
    requires Sized(p) && Fits(p, mid) && i < |p.steps|
    requires d.GoRestore? || d.RestorePanics? ==> mid.rewind.Some?
  {
    match d
    case Stop(err, _) => Ending(mid, Failed(StepFailed(p, i, err, readValues)), None, None, undone)
    case RestorePanics(_) =>
      Ending(mid, Failed(StepFailed(p, i, visit.err + [HookFailure(mid.rewind.value.rule.index, Unclassified)], readValues)),
        None, None, undone)
    case GoRestore(_) => RestoreFailed(p, mid, i, visit, c)
    case Take(rule, amended, err, _) => TakeOnError(p, mid, i, rule, amended, err, readValues, undone)
  }

  /** How the evaluation of the transitions on failure goes on after one of them: it has ended, the
      next one is evaluated, or all of them again on the error joined with ErrMaxVisits. */
  datatype Progress = Done(next: Next) | NextRule | Again(joined: Error)

  class FlowRun {
    const p: Pipeline
    var values: Values
    var defaulted: set<Name>
    var visits: seq<nat>
    var before: map<int, Snapshot>
    var rewind: Option<Pending>
    var cache: Cache
    var journal: Option<Journal>
    var tools: Tools

    function State(): FlowState
      reads this
    {
      FlowState(values, defaulted, visits, before, rewind, cache, journal, tools)
    }

    ghost predicate Valid()
      reads this
    {
      Sized(p) && Fits(p, State())
    }

    /** newFlowRun, on inputs Execute has checked. Each default is seeded and marked. */
    constructor (p: Pipeline, inputs: Values, cache: Cache, tools: Tools)
      ensures this.p == p && State() == Start(p, inputs, cache, tools)
    {
      this.p := p;
      values := KeyValues(inputs, Names(p.inputs)) + p.defaults;
      defaulted := p.defaults.Keys;
      visits := seq(|p.steps|, _ => 0);
      before := map[];
      rewind := None;
      this.cache, journal, this.tools := cache, None, tools;
    }

    // ---- snapshots ----

    function SnapshotNow(): Snapshot
      reads this
    {
      Snapshot(values, defaulted)
    }

    /** restoreValues: sets keys to what snapshot holds, one key at a time in any order. */
    method Restore(snapshot: Snapshot, keys: set<Name>)
      modifies this`values, this`defaulted
      ensures values == RestoreValues(old(values), snapshot, keys)
      ensures defaulted == RestoreDefaulted(old(defaulted), snapshot, keys)
    {
      hide RestoreValues, RestoreDefaulted;
      ghost var was := SnapshotNow();
      var todo := keys;
      RestoredNone(was, snapshot);
      assert keys - todo == {};
      while todo != {}
        invariant todo <= keys
        invariant values == RestoreValues(was.values, snapshot, keys - todo)
        invariant defaulted == RestoreDefaulted(was.defaulted, snapshot, keys - todo)
        decreases |todo|
      {
        var key :| key in todo;
        RestoredNext(was, snapshot, keys - todo, key);
        assert keys - todo + {key} == keys - (todo - {key});
        values := if key in snapshot.values then values[key := snapshot.values[key]] else values - {key};
        defaulted := if key in snapshot.defaulted then defaulted + {key} else defaulted - {key};
        todo := todo - {key};
      }
      assert keys - todo == keys;
    }

    // ---- the step cache ----

    /** storeCached: caches result, noting the entry it replaces in the journal of a running rewind. */
    method StoreCached(entry: CacheKey, result: int)
      modifies this`cache, this`journal
      ensures State() == Flow.StoreCached(old(State()), entry, result)
    {
      if journal.Some? && entry !in journal.value {
        journal := Some(journal.value[entry := if entry in cache then Some(cache[entry]) else None]);
      }
      cache := cache[entry := result];
    }

    /** endCacheJournal: stops the journal and, unless keep is set, puts back every entry it notes. */
    method EndCacheJournal(keep: bool)
      modifies this`cache, this`journal
      ensures journal == None
      ensures cache == EndJournal(old(State()), keep)
    {
      if journal.Some? && !keep {
        PutBack(journal.value);
      }
      journal := None;
    }

    /** Puts back every entry noted, in any order. */
    method PutBack(noted: Journal)
      modifies this`cache
      ensures cache == TakeBack(old(cache), noted)
    {
      hide TakenBack, TakeBack;
      ghost var was := cache;
      var todo := noted.Keys;
      TakenBackNone(cache, noted);
      assert noted.Keys - todo == {};
      while todo != {}
        invariant todo <= noted.Keys && cache == TakenBack(was, noted, noted.Keys - todo)
        decreases |todo|
      {
        var entry :| entry in todo;
        TakenBackNext(was, noted, noted.Keys - todo, entry);
        assert noted.Keys - todo + {entry} == noted.Keys - (todo - {entry});
        cache := if noted[entry].Some? then cache[entry := noted[entry].value] else cache - {entry};
        todo := todo - {entry};
      }
      assert noted.Keys - todo == noted.Keys;
      TakenBackAll(was, noted);
    }

    // ---- one visit ----

    /** visit: runs step i once. Its transitions on success are part of its execution. */
    method Visit(i: nat, c: Choices) returns (visit: StepVisit)
      requires Valid() && i < |p.steps|
      modifies this
      ensures Valid()
      ensures State() == StoreAll(Enter(p, old(State()), i), c.stores)
      ensures visit == Flow.Execute(p, State(), i, AmendedView(old(State()), i), c)
    {
      visits := visits[i := visits[i] + 1];
      if p.target[i] {
        before := before[i := SnapshotNow()];
      }
      var view := Live;
      if rewind.Some? && rewind.value.amended.Some? && rewind.value.rule.to == i {
        view := Copied(values + rewind.value.amended.value);
        rewind := Some(rewind.value.(amended := None));
      }
      assert State() == Enter(p, old(State()), i);
      StoreResults(c.stores);
      match c.outcome
      case Fails(kind) => visit := FailedVisit(view, [StepFailure(kind)]);
      case Returns(writes, preserved, staged) =>
        if !WritesOk(p.steps[i], Resolve(view, State()), writes, preserved) {
          return FailedVisit(view, [BadWrites]);
        }
        var merged := MergeWrites(p.steps[i], writes, c);
        match merged
        case Err(err) => visit := FailedVisit(view, err);
        case Ok(committed) => visit := Decide(i, view, writes, committed, staged, c);
    }

    /** The results the steps of a visit cache, in order. */
    method StoreResults(stores: seq<(CacheKey, int)>)
      requires Valid()
      modifies this`cache, this`journal
      ensures Valid() && State() == StoreAll(old(State()), stores)
    {
      ghost var start := State();
      for k := 0 to |stores|
        invariant StoreAll(start, stores) == StoreAll(State(), stores[k..])
      {
        assert stores[k..][1..] == stores[k + 1..];
        StoreCached(stores[k].0, stores[k].1);
      }
    }

    /** mergeWrites: what the declared writes commit, each combined with the write its key holds. */
    method MergeWrites(node: StepNode, writes: Values, c: Choices) returns (r: Result<Values, Error>)
      ensures r == Flow.MergeWrites(p, State(), node, writes, c)
    {
      var committed: Values := map[];
      for j := 0 to |node.writeKeys|
        invariant Flow.MergeWrites(p, State(), node, writes, c) == MergeFrom(p, State(), node, writes, c, j, committed)
      {
        var key := node.writeKeys[j];
        if key.name !in writes {
          continue;
        }
        var next := writes[key.name];
        if key.name in values && key.name !in defaulted {
          if key.name !in p.merges {
            return Err([HoldsWrite(key.name)]);
          }
          var merged := c.merge(key.name, values[key.name], next);
          if merged.Err? {
            return Err([MergeFailure(key.name, merged.error)]);
          }
          next := merged.value;
          if next.typ != key.typ {
            return Err([MergeFailure(key.name, Unclassified)]);
          }
        }
        committed := committed[key.name := next];
      }
      return Ok(committed);
    }

    /** decide: runs Accept when step i ends a rewind and evaluates its transitions on success. */
    method Decide(i: nat, view: View, writes: Values, committed: Values, staged: Tools, c: Choices) returns (visit: StepVisit)
      requires Valid() && i < |p.steps|
      ensures visit == Flow.Decide(p, State(), i, view, writes, committed, staged, c)
    {
      var node := p.steps[i];
      var shown := Resolve(view, State()) + writes;
      visit := StepVisit(view, committed, staged, [], None, false, false, false, false, None);
      if rewind.Some? && rewind.value.rule.from == i {
        var r := rewind.value;
        var keys := RewindKeys(p, r.rule);
        var verdict := Yes;
        if r.rule.hasAccept {
          verdict := c.accept(r.prev.values, KeyValues(values + committed, keys));
        }
        if verdict == Panics {
          return FailedVisit(view, [HookFailure(r.rule.index, Unclassified)]).(acceptFailed := true);
        }
        visit := visit.(accepted := verdict == Yes, rejected := verdict == No);
        if verdict == No {
          shown := RestoreValues(values, r.prev, keys);
        }
      }
      var choice := ChooseRule(p.success[i], visit.rejected, KeyValues(shown, Names(node.readKeys) + Names(node.writeKeys)), c);
      visit := Decided(visit, choice);
    }

    /** The loop of decide over the transitions on success. */
    method ChooseRule(list: seq<Rule>, rejected: bool, view: Values, c: Choices) returns (choice: Choice)
      requires Valid()
      ensures choice == Choose(p, State(), list, 0, rejected, view, c)
    {
      for k := 0 to |list|
        invariant Choose(p, State(), list, 0, rejected, view, c) == Choose(p, State(), list, k, rejected, view, c)
      {
        var rule := list[k];
        if rejected && rule.rewind {
          continue;
        }
        var answer := CallWhen(rule, c.when(rule, view));
        if answer == Panics {
          return ChoiceFails([HookFailure(rule.index, Unclassified)], false);
        }
        if answer == No {
          continue;
        }
        if !rule.rewind {
          return Chosen(Some(rule), None);
        }
        if Exhausted(p, State(), rule) {
          return ChoiceFails([VisitsExceeded(rule.index)], true);
        }
        var amended := CallAmend(p, rule, view, c);
        if amended.Err? {
          return ChoiceFails(amended.error, false);
        }
        return Chosen(Some(rule), amended.value);
      }
      return Chosen(None, None);
    }

    // ---- after a visit ----

    /** commit: makes a successful visit's writes part of the state. */
    method Commit(visit: StepVisit)
      modifies this
      ensures State() == Flow.Commit(old(State()), visit)
    {
      values := values + visit.committed;
      defaulted := defaulted - visit.committed.Keys;
      if rewind.Some? {
        rewind := Some(rewind.value.(stage := rewind.value.stage + visit.staged));
      } else {
        tools := tools + visit.staged;
      }
    }

    method StartRewind(rule: Rule, amended: Option<Values>)
      modifies this
      ensures State() == Flow.StartRewind(p, old(State()), rule, amended)
    {
      var keys := RewindKeys(p, rule);
      var prev := Snapshot(KeyValues(values, keys), defaulted * keys);
      Restore(if rule.to in before then before[rule.to] else Snapshot(map[], {}), keys);
      journal := Some(map[]);
      rewind := Some(Pending(rule, prev, amended, map[]));
    }

    method EndRewind(keep: bool)
      modifies this
      ensures State() == Flow.EndRewind(old(State()), keep)
    {
      if rewind.None? {
        return;
      }
      var r := rewind.value;
      rewind := None;
      EndCacheJournal(keep);
      if keep {
        tools := tools + r.stage;
      }
    }

    /** rejectRewind: ends the running rewind without the range's new visit, and returns the values
        the view of the visit read before. */
    method RejectRewind(visit: StepVisit) returns (readValues: Values)
      requires rewind.Some?
      modifies this
      ensures State() == Flow.RejectRewind(p, old(State()))
      ensures readValues == Resolve(visit.view, old(State()))
      ensures visits == old(visits) && rewind == None
    {
      readValues := Resolve(visit.view, State());
      var r := rewind.value;
      Restore(r.prev, RewindKeys(p, r.rule));
      EndRewind(false);
    }

    /** follow: takes the rule that matched after step i succeeded, or goes on to the next step. */
    method FollowRule(i: nat, rule: Option<Rule>, readValues: Values, amended: Option<Values>, ghost undone: bool) returns (next: Next)
      requires i < |p.steps|
      modifies this
      ensures var e := Follow(p, old(State()), i, rule, readValues, amended, undone);
        next == e.next && State() == Taken(p, e)
    {
      if rule.None? {
        return Goto(i + 1);
      }
      if rule.value.to == FAIL {
        return Failed(StepFailed(p, i, [ToFail(rule.value.index)], readValues));
      }
      if rule.value.to == END {
        return Goto(|p.steps|);
      }
      if rule.value.rewind {
        StartRewind(rule.value, amended);
      }
      return Goto(rule.value.to);
    }

    /** succeeded: commits the visit of step i unless Accept rejected it or it goes to Fail, and
        follows the rule it matched. */
    method Succeeded(i: nat, visit: StepVisit) returns (next: Next)
      requires i < |p.steps|
      modifies this
      ensures var e := Flow.Succeeded(p, old(State()), i, visit);
        next == e.next && State() == Taken(p, e)
    {
      hide Flow.RejectRewind, Flow.EndRewind, Flow.Commit, Follow, Taken;
      var toFail := visit.rule.Some? && visit.rule.value.to == FAIL;
      var readValues := Resolve(visit.view, State());
      if rewind.Some? && rewind.value.rule.from == i {
        if visit.rejected {
          readValues := RejectRewind(visit);
          next := FollowRule(i, visit.rule, readValues, visit.amended, true);
          return;
        }
        if !toFail {
          Commit(visit);
        }
        EndRewind(true);
      } else if !toFail {
        Commit(visit);
      }
      next := FollowRule(i, visit.rule, readValues, visit.amended, false);
    }

    /** The end of failed: takes the rule that matched after step i failed with err. */
    method TakeRule(i: nat, rule: Rule, amended: Option<Values>, err: Error, readValues: Values, ghost undone: bool) returns (next: Next)
      requires i < |p.steps|
      modifies this
      ensures var e := TakeOnError(p, old(State()), i, rule, amended, err, readValues, undone);
        next == e.next && State() == Taken(p, e)
    {
      hide Flow.EndRewind, Flow.StartRewind;
      if rewind.Some? && rewind.value.rule.from == i {
        EndRewind(true);
      }
      if rule.to == FAIL {
        return Failed(StepFailed(p, i, [ToFail(rule.index)] + err, readValues));
      }
      if rule.to == END {
        return Goto(|p.steps|);
      }
      if rule.rewind {
        StartRewind(rule, amended);
      }
      return Goto(rule.to);
    }

    /** restore: ends the running rewind after step i of its range failed, and goes on past From. */
    method RestoreAfter(i: nat, visit: StepVisit, c: Choices) returns (next: Next)
      requires Valid() && i < |p.steps| && rewind.Some?
      modifies this
      ensures var e := RestoreFailed(p, old(State()), i, visit, c);
        next == e.next && State() == Taken(p, e)
    {
      hide Flow.RejectRewind;
      var from := rewind.value.rule.from;
      var readValues := RejectRewind(visit);
      var list := p.success[from];
      var view := KeyValues(values, Names(p.steps[from].readKeys) + Names(p.steps[from].writeKeys));
      for k := 0 to |list|
        invariant State() == Flow.RejectRewind(p, old(State()))
        invariant ChooseRestored(list, 0, view, c) == ChooseRestored(list, k, view, c)
      {
        var rule := list[k];
        if rule.rewind {
          continue;
        }
        var answer := CallWhen(rule, c.whenRestored(rule, view));
        if answer == Panics {
          return Failed(StepFailed(p, i, visit.err + [HookFailure(rule.index, Unclassified)], readValues));
        }
        if answer == Yes {
          next := FollowRule(from, Some(rule), values, None, true);
          return;
        }
      }
      next := FollowRule(from, None, values, None, true);
    }

    /** askRestore: calls the running rewind's RestoreOnError on the failure of step i, and restores
        when it returns true. */
    method AskToRestore(i: nat, visit: StepVisit, c: Choices, readValues: Values) returns (done: bool, next: Next)
      requires Valid() && i < |p.steps| && rewind.Some?
      modifies this
      ensures var verdict, was := c.restore(i, visit.err), old(State());
        && done == (verdict != No)
        && (verdict == No ==> State() == was && Valid())
        && (verdict == Panics ==> State() == was)
        && (verdict == Panics ==>
             next == Failed(StepFailed(p, i, visit.err + [HookFailure(was.rewind.value.rule.index, Unclassified)], readValues)))
        && (verdict == Yes ==> var e := RestoreFailed(p, was, i, visit, c); next == e.next && State() == Taken(p, e))
    {
      match c.restore(i, visit.err)
      case Panics =>
        return true, Failed(StepFailed(p, i, visit.err + [HookFailure(rewind.value.rule.index, Unclassified)], readValues));
      case No =>
        return false, Goto(i);
      case Yes =>
        next := RestoreAfter(i, visit, c);
        return true, next;
    }

    /** One rule of the loops of failed: the run's next step when the failure is dealt with, or how the
        evaluation goes on. */
    method EvaluateRule(i: nat, k: nat, visit: StepVisit, c: Choices, view: Values, mayRestore: bool, exhausted: bool, err: Error,
      readValues: Values, ghost undone: bool, ghost calls: seq<Call>)
      returns (progress: Progress, restorable: bool, ghost called: seq<Call>)
      requires Valid() && i < |p.steps| && k < |p.failure[i]| && (mayRestore ==> rewind.Some?)
      modifies this
      ensures var was := old(State());
        var d := EvalFailure(p, was, i, visit.err, view, c, k, mayRestore, exhausted, err, calls);
        match progress
        case Done(next) =>
          var e := AfterDecision(p, was, i, visit, c, d, readValues, undone);
          next == e.next && State() == Taken(p, e)
        case NextRule =>
          && State() == was && (restorable ==> mayRestore)
          && d == EvalFailure(p, was, i, visit.err, view, c, k + 1, restorable, exhausted, err, called)
        case Again(joined) =>
          && State() == was && (restorable ==> mayRestore) && !exhausted
          && d == EvalFailure(p, was, i, visit.err, view, c, 0, restorable, true, joined, called)
    {
      hide RestoreFailed, TakeOnError, EvalFailure, TakeFailure, CallAmend, KeyValues, StepFailed, Exhausted, Taken;
      ghost var mid := State();
      NothingTaken(p, mid, undone);
      restorable, called := mayRestore, calls;
      var rule := p.failure[i][k];
      EvalUnfolds(p, mid, i, visit.err, view, c, k, restorable, exhausted, err, called);
      if restorable && k > p.fallback[i] {
        restorable, called := false, called + [AskRestore];
        var done, asked := AskToRestore(i, visit, c, readValues);
        if done {
          return Done(asked), restorable, called;
        }
        EvalUnfolds(p, mid, i, visit.err, view, c, k, restorable, exhausted, err, called);
      }
      if exhausted && rule.rewind && Exhausted(p, State(), rule) {
        return NextRule, restorable, called;
      }
      var answer := CallWhen(rule, c.whenFailed(rule, view, err));
      called := if rule.hasWhen then called + [AskWhen(rule, err)] else called;
      if answer == Panics {
        return Done(Failed(StepFailed(p, i, err + [HookFailure(rule.index, Unclassified)], readValues))), restorable, called;
      }
      if answer == No {
        return NextRule, restorable, called;
      }
      if restorable && k < p.fallback[i] && !rule.fallback {
        TakeUnfolds(p, mid, i, visit.err, view, c, k, rule, restorable, exhausted, err, called);
        restorable, called := false, called + [AskRestore];
        var done, asked := AskToRestore(i, visit, c, readValues);
        if done {
          return Done(asked), restorable, called;
        }
      }
      progress, restorable, called :=
        TakeFailureRule(i, k, rule, visit, c, view, restorable, exhausted, err, readValues, undone, called);
    }

    /** Takes a rule that matched on failure, unless it is a rewind whose target has used its visits. */
    method TakeFailureRule(i: nat, k: nat, rule: Rule, visit: StepVisit, c: Choices, view: Values, mayRestore: bool, exhausted: bool,
      err: Error, readValues: Values, ghost undone: bool, ghost calls: seq<Call>)
      returns (progress: Progress, restorable: bool, ghost called: seq<Call>)
      requires Valid() && i < |p.steps| && k < |p.failure[i]| && rule == p.failure[i][k] && (mayRestore ==> rewind.Some?)
      requires !(exhausted && rule.rewind && Exhausted(p, State(), rule))
      requires !(mayRestore && k < p.fallback[i] && !rule.fallback)
      modifies this
      ensures var was := old(State());
        var d := TakeFailure(p, was, i, visit.err, view, c, k, rule, mayRestore, exhausted, err, calls);
        match progress
        case Done(next) =>
          var e := AfterDecision(p, was, i, visit, c, d, readValues, undone);
          next == e.next && State() == Taken(p, e)
        case NextRule => false
        case Again(joined) =>
          && State() == was && (restorable ==> mayRestore) && !exhausted
          && d == EvalFailure(p, was, i, visit.err, view, c, 0, restorable, true, joined, called)
    {
      hide RestoreFailed, TakeOnError, EvalFailure, TakeFailure, CallAmend, KeyValues, StepFailed, Exhausted, Taken;
      ghost var mid := State();
      NothingTaken(p, mid, undone);
      restorable, called := mayRestore, calls;
      TakeUnfolds(p, mid, i, visit.err, view, c, k, rule, restorable, exhausted, err, called);
      var amended: Option<Values> := None;
      if rule.rewind {
        if Exhausted(p, State(), rule) {
          return Again(err + [VisitsExceeded(rule.index)]), restorable, called;
        }
        var result := CallAmend(p, rule, view, c);
        if result.Err? {
          return Done(Failed(StepFailed(p, i, err + result.error, readValues))), restorable, called;
        }
        amended := result.value;
      }
      var next := TakeRule(i, rule, amended, err, readValues, undone);
      return Done(next), restorable, called;
    }

    /** The loops of failed over the transitions of step i on failure. */
    method Evaluate(i: nat, visit: StepVisit, c: Choices, view: Values, mayRestore: bool, readValues: Values, ghost undone: bool)
      returns (next: Next)
      requires Valid() && i < |p.steps| && (mayRestore ==> rewind.Some?)
      modifies this
      ensures var d := EvalFailure(p, old(State()), i, visit.err, view, c, 0, mayRestore, visit.maxed, visit.err, []);
        var e := AfterDecision(p, old(State()), i, visit, c, d, readValues, undone);
        next == e.next && State() == Taken(p, e)
    {
      hide RestoreFailed, TakeOnError, EvalFailure, TakeFailure, StepFailed, Taken;
      ghost var mid := State();
      NothingTaken(p, mid, undone);
      var restorable, exhausted, err := mayRestore, visit.maxed, visit.err;
      ghost var calls: seq<Call> := [];
      ghost var d := EvalFailure(p, mid, i, visit.err, view, c, 0, restorable, exhausted, err, calls);
      label evaluate: while true
        invariant State() == mid && (restorable ==> rewind.Some?)
        invariant d == EvalFailure(p, mid, i, visit.err, view, c, 0, restorable, exhausted, err, calls)
        decreases !exhausted
      {
        for k := 0 to |p.failure[i]|
          invariant State() == mid && (restorable ==> rewind.Some?)
          invariant d == EvalFailure(p, mid, i, visit.err, view, c, k, restorable, exhausted, err, calls)
        {
          var progress: Progress;
          progress, restorable, calls := EvaluateRule(i, k, visit, c, view, restorable, exhausted, err, readValues, undone, calls);
          match progress
          case Done(to) =>
            return to;
          case NextRule =>
          case Again(joined) =>
            err, exhausted := joined, true;
            continue evaluate;
        }
        EvalUnfolds(p, mid, i, visit.err, view, c, |p.failure[i]|, restorable, exhausted, err, calls);
        if restorable {
          var done, asked := AskToRestore(i, visit, c, readValues);
          if done {
            return asked;
          }
        }
        return Failed(StepFailed(p, i, err, readValues));
      }
    }

    /** failed: evaluates the transitions of step i on failure, once more when a matching rewind's
        target has used its visits, and asks a running rewind's RestoreOnError once at most. */
    method FailedStep(i: nat, visit: StepVisit, c: Choices) returns (next: Next)
      requires Valid() && i < |p.steps|
      modifies this
      ensures var e := Flow.FailedStep(p, old(State()), i, visit, c);
        next == e.next && State() == Taken(p, e)
    {
      hide Flow.RejectRewind, RestoreFailed, TakeOnError, EvalFailure;
      var readValues := Resolve(visit.view, State());
      var restorable := false;
      ghost var undone := EndsRewind(State(), i) && (visit.rejected || visit.acceptFailed);
      if rewind.Some? && rewind.value.rule.from == i && (visit.rejected || visit.acceptFailed) {
        readValues := RejectRewind(visit);
      } else {
        restorable := rewind.Some? && rewind.value.rule.hasRestore && !visit.accepted;
      }
      if c.ended {
        return Failed(StepFailed(p, i, visit.err, readValues));
      }
      assert Valid();
      var view := KeyValues(Resolve(visit.view, State()), Names(p.steps[i].readKeys));
      next := Evaluate(i, visit, c, view, restorable, readValues, undone);
    }

    // ---- runs ----

    /** One iteration of the loop of run: visits step i and follows what its outcome decides. */
    method Iteration(i: nat, c: Choices) returns (next: Next)
      requires Valid() && i < |p.steps|
      modifies this
      ensures (State(), next) == Iterate(p, old(State()), i, c)
    {
      hide StoreAll, Enter, Flow.Execute, Flow.FailedStep, Flow.Succeeded, Flow.EndRewind, Flow.StartRewind, SnapshotSkipped;
      ghost var was := State();
      ArriveKeeps(p, was, i);
      if rewind.Some? && i > rewind.value.rule.from {
        EndRewind(true);
      }
      var visit := Visit(i, c);
      ghost var visited := State();
      assert (visited, visit) == Visited(p, was, i, c);
      if visit.err != [] {
        next := FailedStep(i, visit, c);
      } else {
        next := Succeeded(i, visit);
      }
      ghost var e := Finish(p, was, i, c);
      assert next == e.next && State() == Taken(p, e);
      EndsWithoutRewind(p, visited, i, visit, c);
      if next.Failed? {
        EndRewind(true);
        return;
      }
      SnapshotTargets(i + 1, Min(next.index, |p.steps|));
    }

    /** The rewind targets a forward skip passes over are reset, should a rewind land on them, to the
        state the skip left. */
    method SnapshotTargets(start: nat, end: int)
      requires Sized(p) && end <= |p.steps|
      modifies this`before
      ensures State() == SnapshotSkipped(p, old(State()), start, end)
    {
      var k := start;
      while k < end
        invariant SnapshotSkipped(p, old(State()), start, end) == SnapshotSkipped(p, State(), k, end)
      {
        if p.target[k] {
          before := before[k := SnapshotNow()];
        }
        k := k + 1;
      }
    }

    /** run: runs the steps from the first until the last one finishes, a transition ends the run or a
        step fails it. cs is what steps and hooks choose, iteration by iteration; run and used are the
        configurations the run has passed through and the choices it has used. */
    method Run(cs: nat -> Choices, ghost inputs: Values) returns (err: Option<StepError>, ghost run: seq<Config>, ghost used: seq<Choices>)
      requires Accepted(p) && InputsOk(p, inputs) && Starts(p, inputs, Config(State(), 0))
      modifies this
      ensures IsRun(p, inputs, run, used) && forall k :: 0 <= k < |used| ==> used[k] == cs(k)
      ensures Ends(p, run[|used|], cs(|used|), State(), err)
    {
      hide Iterate, SnapshotSkipped, Accepted, Starts, InputsOk;
      run, used := [Config(State(), 0)], [];
      RunStarts(p, inputs, run[0]);
      var i: nat, round: nat := 0, 0;
      while i < |p.steps|
        invariant round == |used|
        invariant IsRun(p, inputs, run, used) && run[|used|] == Config(State(), i)
        invariant forall k :: 0 <= k < |used| ==> used[k] == cs(k)
        decreases RunLeft(p, State(), i)
      {
        RunFits(p, inputs, run, used, round);
        var next := Iteration(i, cs(round));
        if next.Failed? {
          return Some(next.failure), run, used;
        }
        GoesOn(p, inputs, run, used, cs(round), State(), next);
        i := next.index;
        run, used := run + [Config(State(), i)], used + [cs(round)];
        round := round + 1;
      }
      RunFits(p, inputs, run, used, |used|);
      EndRewind(true);
      return None, run, used;
    }
  }

  /** The run ends in the state s: after its last configuration has passed the last step, or by the
      failure of the iteration from it. */
  ghost predicate Ends(p: Pipeline, last: Config, c: Choices, s: FlowState, err: Option<StepError>) {
    && Sized(p) && Fits(p, last.state)
    && match err
       case None => last.at == |p.steps| && s == Flow.EndRewind(last.state, true)
       case Some(failure) => last.at < |p.steps| && Iterate(p, last.state, last.at, c) == (s, Failed(failure))
  }

  lemma ArriveKeeps(p: Pipeline, s: FlowState, i: nat)
    requires Fits(p, s)
    ensures Fits(p, Arrive(s, i)) && Arrive(s, i).visits == s.visits
  {
  }

  /** A failed iteration starts no rewind. */
  lemma EndsWithoutRewind(p: Pipeline, s: FlowState, i: nat, visit: StepVisit, c: Choices)
    requires Sized(p) && Fits(p, s) && i < |p.steps|
    ensures var e := if visit.err != [] then Flow.FailedStep(p, s, i, visit, c) else Flow.Succeeded(p, s, i, visit);
      e.next.Failed? ==> e.rewind.None?
  {
    hide EvalFailure, ChooseRestored, Flow.RejectRewind, Flow.EndRewind, Flow.Commit;
  }

  lemma RunStarts(p: Pipeline, inputs: Values, a: Config)
    requires Accepted(p) && InputsOk(p, inputs) && Starts(p, inputs, a)
    ensures IsRun(p, inputs, [a], []) && a.at == 0
  {
  }

  /** What the loop of run has left: the spare visits of rewind targets first, then the steps. */
  function RunLeft(p: Pipeline, s: FlowState, i: nat): int {
    if i <= |s.visits| == |p.target| == |p.maxVisits| then T.Measure(p, s.visits, i) else 0
  }

  lemma RunFits(p: Pipeline, inputs: Values, run: seq<Config>, cs: seq<Choices>, k: nat)
    requires Accepted(p) && IsRun(p, inputs, run, cs) && k < |run|
    ensures Sized(p) && Fits(p, run[k].state) && run[k].at <= |p.steps|
    ensures RunLeft(p, run[k].state, run[k].at) >= 0
  {
    T.BoundHolds(p, inputs, run, cs, k);
    T.RangeHolds(p, inputs, run, cs, k);
  }

  /** An iteration that goes on extends the run, and leaves it less to do. */
  lemma GoesOn(p: Pipeline, inputs: Values, run: seq<Config>, cs: seq<Choices>, c: Choices, s: FlowState, next: Next)
    requires Accepted(p) && IsRun(p, inputs, run, cs)
    requires Fits(p, run[|cs|].state) && run[|cs|].at < |p.steps|
    requires Iterate(p, run[|cs|].state, run[|cs|].at, c) == (s, next) && next.Goto?
    ensures 0 <= next.index <= |p.steps|
    ensures IsRun(p, inputs, run + [Config(s, next.index)], cs + [c])
    ensures RunLeft(p, s, next.index) < RunLeft(p, run[|cs|].state, run[|cs|].at)
  {
    T.NextInRange(p, inputs, run, cs, c);
    var more, choices := run + [Config(s, next.index)], cs + [c];
    assert IsRun(p, inputs, more, choices) by {
      hide Iterate, Accepted;
      forall k {:trigger choices[k]} | 0 <= k < |choices| ensures Steps(p, more[k], choices[k], more[k + 1]) {
        if k < |cs| {
          assert choices[k] == cs[k];
          assert Steps(p, run[k], cs[k], run[k + 1]);
        }
      }
    }
    T.BoundHolds(p, inputs, more, choices, |cs|);
    T.BoundHolds(p, inputs, more, choices, |cs| + 1);
    T.BoundStep(p, inputs, more, choices, |cs|);
  }

  // ---- running a pipeline ----

  /** What Pipeline.execute returns: that it refuses the inputs, or the state and the run's error. */
  datatype Execution = Refused | Finished(values: Values, err: Option<StepError>)

  /** Some run of p on the inputs, with the choices cs makes, ends with these values and this error. */
  ghost predicate RunEnds(p: Pipeline, inputs: Values, cs: nat -> Choices, values: Values, err: Option<StepError>) {
    exists run, used, s :: RunEndsBy(p, inputs, cs, run, used, s, err) && s.values == values
  }

  ghost predicate RunEndsBy(p: Pipeline, inputs: Values, cs: nat -> Choices, run: seq<Config>, used: seq<Choices>, s: FlowState,
    err: Option<StepError>)
  {
    && IsRun(p, inputs, run, used) && (forall k :: 0 <= k < |used| ==> used[k] == cs(k))
    && Ends(p, run[|used|], cs(|used|), s, err)
  }

  /** execute: checks the inputs, seeds the defaults and runs the steps until the run ends. A run fails on
      the merge guard only for a reachable hazard of the pipeline. */
  method Execute(p: Pipeline, given: Values, allowExtra: bool, cache: Cache, tools: Tools, cs: nat -> Choices) returns (r: Execution)
    requires Accepted(p)
    ensures r.Refused? <==> !InputsOk(p, given) || (!allowExtra && !(given.Keys <= Names(p.inputs)))
    ensures r.Finished? ==> RunEnds(p, given, cs, r.values, r.err)
    ensures r.Finished? && r.err.Some? ==> forall key :: HoldsWrite(key) in r.err.value.err ==> R.ReachableHazard(p, key)
  {
    if !allowExtra && !(given.Keys <= Names(p.inputs)) {
      return Refused;
    }
    for j := 0 to |p.inputs|
      invariant forall m :: 0 <= m < j ==> p.inputs[m].name in given && given[p.inputs[m].name].typ == p.inputs[m].typ
    {
      if p.inputs[j].name !in given || given[p.inputs[j].name].typ != p.inputs[j].typ {
        return Refused;
      }
    }
    var flow := new FlowRun(p, given, cache, tools);
    var err, run, used := flow.Run(cs, given);
    assert RunEndsBy(p, given, cs, run, used, flow.State(), err);
    if err.Some? {
      forall key | HoldsWrite(key) in err.value.err ensures R.ReachableHazard(p, key) {
        GuardReported(p, given, run, used, cs(|used|), key);
      }
    }
    return Finished(flow.values, err);
  }

  /** An error of a run that names the merge guard comes from its last visit, which failed on it for a reachable
      hazard. */
  lemma GuardReported(p: Pipeline, inputs: Values, run: seq<Config>, cs: seq<Choices>, c: Choices, key: Name)
    requires Accepted(p) && IsRun(p, inputs, run, cs)
    requires Fits(p, run[|cs|].state) && run[|cs|].at < |p.steps|
    requires var next := Iterate(p, run[|cs|].state, run[|cs|].at, c).1; next.Failed? && HoldsWrite(key) in next.failure.err
    ensures HoldsWrite(key) in VisitAt(p, run[|cs|], c).err && R.ReachableHazard(p, key)
  {
    var (s, visit) := Visited(p, run[|cs|].state, run[|cs|].at, c);
    EndingErrs(p, s, run[|cs|].at, visit, c, key);
    ExactHazards.GuardReachable(p, inputs, run, cs, |cs|, c, key);
  }

  lemma EndingErrs(p: Pipeline, s: FlowState, i: nat, visit: StepVisit, c: Choices, key: Name)
    requires Sized(p) && Fits(p, s) && i < |p.steps|
    ensures var e := if visit.err != [] then Flow.FailedStep(p, s, i, visit, c) else Flow.Succeeded(p, s, i, visit);
      e.next.Failed? && HoldsWrite(key) in e.next.failure.err ==> HoldsWrite(key) in visit.err
  {
    hide Flow.RejectRewind, Flow.EndRewind, Flow.Commit, KeyValues;
    if visit.err != [] && !c.ended {
      var mid := if EndsRewind(s, i) && (visit.rejected || visit.acceptFailed) then Flow.RejectRewind(p, s) else s;
      assert |mid.visits| == |p.maxVisits| by {
        RejectVisits(p, s);
      }
      var view := KeyValues(Resolve(visit.view, mid), Names(p.steps[i].readKeys));
      EvalErrs(p, mid, i, visit.err, view, c, 0,
        !(EndsRewind(s, i) && (visit.rejected || visit.acceptFailed)) && s.rewind.Some? && s.rewind.value.rule.hasRestore && !visit.accepted,
        visit.maxed, visit.err, [], key);
      if s.rewind.Some? {
        var from := s.rewind.value.rule.from;
        var names := Names(p.steps[from].readKeys) + Names(p.steps[from].writeKeys);
        RestoredErrs(p.success[from], 0, KeyValues(Flow.RejectRewind(p, s).values, names), c, key);
      }
      hide EvalFailure, ChooseRestored;
    }
  }

  lemma RejectVisits(p: Pipeline, s: FlowState)
    ensures s.rewind.Some? ==> Flow.RejectRewind(p, s).visits == s.visits
  {
  }

  lemma {:induction false} RestoredErrs(list: seq<Rule>, k: nat, view: Values, c: Choices, key: Name)
    requires k <= |list|
    ensures var r := ChooseRestored(list, k, view, c); r.ChoiceFails? ==> HoldsWrite(key) !in r.err
    decreases |list| - k
  {
    if k < |list| {
      RestoredErrs(list, k + 1, view, c, key);
    }
  }

  /** Evaluating transitions on failure adds no merge-guard cause to the error. */
  lemma {:induction false} EvalErrs(
    p: Pipeline, s: FlowState, i: nat, first: Error, view: Values, c: Choices,
    k: nat, restorable: bool, exhausted: bool, err: Error, calls: seq<Call>, key: Name)
    requires i < |p.steps| == |p.failure| == |p.fallback| == |p.maxVisits| == |s.visits|
    requires k <= |p.failure[i]|
    ensures var d := EvalFailure(p, s, i, first, view, c, k, restorable, exhausted, err, calls);
      (d.Stop? || d.Take?) && HoldsWrite(key) in d.err ==> HoldsWrite(key) in err
    decreases !exhausted, |p.failure[i]| - k, restorable
  {
    hide EvalFailure, TakeFailure, CallWhen, Exhausted;
    EvalUnfolds(p, s, i, first, view, c, k, restorable, exhausted, err, calls);
    if k < |p.failure[i]| {
      var rule := p.failure[i][k];
      var called := if rule.hasWhen then calls + [AskWhen(rule, err)] else calls;
      if restorable && k > p.fallback[i] {
        EvalErrs(p, s, i, first, view, c, k, false, exhausted, err, calls + [AskRestore], key);
      } else {
        EvalErrs(p, s, i, first, view, c, k + 1, restorable, exhausted, err, calls, key);
        EvalErrs(p, s, i, first, view, c, k + 1, restorable, exhausted, err, called, key);
        if !(exhausted && rule.rewind && Exhausted(p, s, rule)) {
          TakeUnfolds(p, s, i, first, view, c, k, rule, restorable, exhausted, err, called);
          TakeUnfolds(p, s, i, first, view, c, k, rule, false, exhausted, err, called + [AskRestore]);
          if rule.rewind && Exhausted(p, s, rule) {
            var joined := err + [VisitsExceeded(rule.index)];
            EvalErrs(p, s, i, first, view, c, 0, restorable, true, joined, called, key);
            EvalErrs(p, s, i, first, view, c, 0, false, true, joined, called + [AskRestore], key);
          }
        }
      }
    }
  }
}

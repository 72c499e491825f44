/**
 The budgets of nested runs: frames that record usage, calls that report failed attempts early and
 settle them later, and admissions.

 One lock guards every frame and budget around a run, so each method of Meters is one step of the
 protocol, and what every method keeps holds however the steps of concurrent calls interleave.
 */
module Budgets {
  import opened Basics
  import opened UsageFrames
  import opened Settlements

  /** The token fields of a Usage. */
  datatype Usage = Usage(prompt: nat, completion: nat, total: nat) {
    function Add(other: Usage): Usage {
      Usage(prompt + other.prompt, completion + other.completion, total + other.total)
    }
  }

  function UsageTokens(usage: Usage): nat {
    if usage.total != 0 then usage.total else usage.prompt + usage.completion
  }

  /** A RunBudget. A limit that is not positive is not set. */
  datatype Limits = Limits(calls: int, tokens: int, perStep: map<Name, int>, timed: bool)

  datatype BudgetError =
    | OverTokens(run: nat, limit: int, spent: int)
    | OverStep(run: nat, step: Name, limit: int, spent: int)
    | OverCalls(run: nat, limit: int)
    | OverDuration(run: nat)

  /** The spending of one run against its limits. */
  datatype RunBudget = RunBudget(
    limits: Limits, calls: int, tokens: int, pending: int,
    stepTokens: map<Name, int>, stepPending: map<Name, int>, stepErrs: map<Name, BudgetError>, err: Option<BudgetError>)

  /** A call of a retrying model in progress, or one that has ended. */
  datatype Call = Call(frame: nat, parent: Option<nat>, reported: nat, active: bool)

  function At(m: map<Name, int>, step: Name): int {
    if step in m then m[step] else 0
  }

  // ---- accounts ----

  function Tokens(runs: seq<RunBudget>, a: Account): int
    requires a.run < |runs|
  {
    if a.step == "" then runs[a.run].tokens else At(runs[a.run].stepTokens, a.step)
  }

  function Pending(runs: seq<RunBudget>, a: Account): int
    requires a.run < |runs|
  {
    if a.step == "" then runs[a.run].pending else At(runs[a.run].stepPending, a.step)
  }

  function Spent(runs: seq<RunBudget>, a: Account): int
    requires a.run < |runs|
  {
    Tokens(runs, a) + Pending(runs, a)
  }

  function Limit(runs: seq<RunBudget>, a: Account): int
    requires a.run < |runs|
  {
    if a.step == "" then runs[a.run].limits.tokens else At(runs[a.run].limits.perStep, a.step)
  }

  /** The tokens spent are within the account's limit. */
  predicate Within(runs: seq<RunBudget>, a: Account)
    requires a.run < |runs|
  {
    Limit(runs, a) > 0 ==> Spent(runs, a) <= Limit(runs, a)
  }

  /** The account with more tokens and more pending ones. */
  function Charged(runs: seq<RunBudget>, a: Account, tokens: int, pending: int): seq<RunBudget>
    requires a.run < |runs|
  {
    var b := runs[a.run];
    runs[a.run :=
      if a.step == "" then b.(tokens := b.tokens + tokens, pending := b.pending + pending)
      else b.(stepTokens := b.stepTokens[a.step := At(b.stepTokens, a.step) + tokens],
              stepPending := b.stepPending[a.step := At(b.stepPending, a.step) + pending])]
  }

  /** Only errors may differ, and no error has gone or changed: a run's first error stays. */
  ghost predicate ErrsOnly(runs: seq<RunBudget>, more: seq<RunBudget>) {
    && |runs| == |more|
    && (forall r :: 0 <= r < |runs| ==> more[r] == runs[r].(err := more[r].err, stepErrs := more[r].stepErrs))
    && ErrsKept(runs, more)
  }

  ghost predicate ErrsKept(runs: seq<RunBudget>, more: seq<RunBudget>) {
    && |runs| <= |more|
    && (forall r :: 0 <= r < |runs| && runs[r].err.Some? ==> more[r].err == runs[r].err)
    && (forall r, step :: 0 <= r < |runs| && step in runs[r].stepErrs ==>
         step in more[r].stepErrs && more[r].stepErrs[step] == runs[r].stepErrs[step])
  }

  lemma ChargedMeans(runs: seq<RunBudget>, a: Account, tokens: int, pending: int, b: Account)
    requires a.run < |runs| && b.run < |runs|
    ensures var more := Charged(runs, a, tokens, pending);
      && |more| == |runs|
      && Tokens(more, b) == Tokens(runs, b) + (if a == b then tokens else 0)
      && Pending(more, b) == Pending(runs, b) + (if a == b then pending else 0)
      && more[b.run].calls == runs[b.run].calls && more[b.run].limits == runs[b.run].limits
    ensures ErrsKept(runs, Charged(runs, a, tokens, pending))
  {
  }

  // ---- what balances ----

  /** The pending tokens of the returned calls of a frame. */
  function Unrecorded(list: seq<Returned>): nat {
    if list == [] then 0 else Unrecorded(list[..|list| - 1]) + list[|list| - 1].pending
  }

  lemma {:induction false} UnrecordedWithout(list: seq<Returned>, i: nat)
    requires i < |list|
    ensures Unrecorded(list[..i] + list[i + 1..]) == Unrecorded(list) - list[i].pending
    decreases |list|
  {
    var n := |list| - 1;
    if i == n {
      assert list[..i] + list[i + 1..] == list[..n];
    } else {
      UnrecordedWithout(list[..n], i);
      var less := list[..i] + list[i + 1..];
      assert less[..|less| - 1] == list[..n][..i] + list[..n][i + 1..];
    }
  }

  lemma UnrecordedAppend(list: seq<Returned>, call: Returned)
    ensures Unrecorded(list + [call]) == Unrecorded(list) + call.pending
  {
    assert (list + [call])[..|list|] == list;
  }

  /** What each call in progress has reported, an outermost one for those nested in it too. */
  function Open(calls: seq<Call>): (charges: seq<Charge>)
    ensures |charges| == |calls|
    ensures forall c :: 0 <= c < |calls| ==> charges[c] == OpenCharge(calls[c])
  {
    seq(|calls|, c requires 0 <= c < |calls| => OpenCharge(calls[c]))
  }

  function OpenCharge(call: Call): Charge {
    Charge(call.frame, if call.active && call.parent.None? then call.reported else 0)
  }

  /** What returned calls have left pending, by frame. */
  function Unsettled(returned: seq<seq<Returned>>): (charges: seq<Charge>)
    ensures |charges| == |returned|
    ensures forall f :: 0 <= f < |returned| ==> charges[f] == Charge(f, Unrecorded(returned[f]))
  {
    seq(|returned|, f requires 0 <= f < |returned| => Charge(f, Unrecorded(returned[f])))
  }

  /** A call around another has its frame, is older, and is in progress while the other is. */
  predicate Nested(calls: seq<Call>) {
    forall c :: 0 <= c < |calls| && calls[c].parent.Some? ==>
      && calls[c].parent.value < c
      && calls[calls[c].parent.value].frame == calls[c].frame
      && (calls[c].active ==> calls[calls[c].parent.value].active)
  }

  predicate Shaped(frames: seq<Frame>, runs: seq<RunBudget>, returned: seq<seq<Returned>>, calls: seq<Call>) {
    && Chained(frames) && |returned| == |frames| && Nested(calls)
    && (forall f :: 0 <= f < |frames| ==> frames[f].run < |runs|)
    && (forall c :: 0 <= c < |calls| ==> calls[c].frame < |frames|)
  }

  /** Conservation. Each account's pending tokens are what the outermost calls in progress under it
      have reported and what calls that have returned under it left unsettled, its recorded tokens are
      what was recorded under it, and a run's calls are the admissions under it. */
  ghost predicate Balanced(frames: seq<Frame>, runs: seq<RunBudget>, returned: seq<seq<Returned>>, calls: seq<Call>,
    recorded: seq<Charge>, admitted: seq<Charge>)
    requires Shaped(frames, runs, returned, calls)
  {
    && ChargesOf(frames, recorded) && ChargesOf(frames, admitted)
    && (forall i :: 0 <= i < |admitted| ==> admitted[i].amount == 1)
    && (forall a: Account {:trigger Pending(runs, a)} {:trigger Tokens(runs, a)} :: a.run < |runs| ==>
         && Pending(runs, a) == Sum(frames, Open(calls), a) + Sum(frames, Unsettled(returned), a)
         && Tokens(runs, a) == Sum(frames, recorded, a))
    && forall r :: 0 <= r < |runs| ==> runs[r].calls == Sum(frames, admitted, Account(r, ""))
  }

  /** No run has more calls than it allows. */
  predicate Capped(runs: seq<RunBudget>) {
    forall r :: 0 <= r < |runs| ==> 0 <= runs[r].calls && (runs[r].limits.calls > 0 ==> runs[r].calls <= runs[r].limits.calls)
  }

  /** Each frame's returned calls are those its events leave outstanding, and each had something pending. */
  ghost predicate Logged(returned: seq<seq<Returned>>, events: seq<seq<Event>>) {
    && |events| == |returned|
    && forall f :: 0 <= f < |events| ==> returned[f] == Outstanding(events[f]) && Owing(events[f])
  }

  lemma LoggedEach(returned: seq<seq<Returned>>, events: seq<seq<Event>>)
    requires Logged(returned, events)
    ensures |events| == |returned|
  {
  }

  lemma LogsReturn(returned: seq<seq<Returned>>, events: seq<seq<Event>>, f: nat, tokens: nat, pending: nat)
    requires Logged(returned, events) && f < |returned| && pending > 0
    ensures Logged(returned[f := returned[f] + [Returned(tokens, pending)]], events[f := events[f] + [Returns(tokens, pending)]])
  {
    assert (events[f] + [Returns(tokens, pending)])[..|events[f]|] == events[f];
  }

  lemma LogsRecord(returned: seq<seq<Returned>>, events: seq<seq<Event>>, f: nat, tokens: nat)
    requires Logged(returned, events) && f < |returned|
    ensures Logged(returned[f := Settled(returned[f], tokens)], events[f := events[f] + [Records(tokens)]])
  {
    assert (events[f] + [Records(tokens)])[..|events[f]|] == events[f];
  }

  // ---- refusals ----

  /** The frame refuses no work now: neither an earlier error of its account nor a run that has reached
      MaxDuration. late holds the runs that have. */
  predicate Works(frames: seq<Frame>, runs: seq<RunBudget>, f: nat, late: set<nat>)
    requires f < |frames| && frames[f].run < |runs|
  {
    var b := runs[frames[f].run];
    if frames[f].step != "" then frames[f].step !in b.stepErrs
    else b.err.None? && !(b.limits.timed && frames[f].run in late)
  }

  /** And the frame has a token and, if it is a run's, a call left. */
  predicate Admits(frames: seq<Frame>, runs: seq<RunBudget>, f: nat, late: set<nat>)
    requires f < |frames| && frames[f].run < |runs|
  {
    var b := runs[frames[f].run];
    && Works(frames, runs, f, late)
    && Within(runs, AccountOf(frames, f))
    && (frames[f].step == "" && b.limits.calls > 0 ==> b.calls < b.limits.calls)
  }

  /** Every frame from f outwards admits a call. */
  predicate AllAdmit(frames: seq<Frame>, runs: seq<RunBudget>, f: nat, late: set<nat>)
    requires Chained(frames) && f < |frames| && forall g :: 0 <= g < |frames| ==> frames[g].run < |runs|
    decreases f
  {
    Admits(frames, runs, f, late) && (frames[f].parent.Some? ==> AllAdmit(frames, runs, frames[f].parent.value, late))
  }

  // ---- refusals, by what happened ----

  /** What happened to the accounts of frames: calls in progress and returned, what was recorded and what admitted. */
  datatype Ledger = Ledger(returned: seq<seq<Returned>>, calls: seq<Call>, recorded: seq<Charge>, admitted: seq<Charge>)

  predicate Kept(frames: seq<Frame>, l: Ledger) {
    && Chained(frames) && |l.returned| == |frames| && ChargesOf(frames, l.recorded) && ChargesOf(frames, l.admitted)
    && forall c :: 0 <= c < |l.calls| ==> l.calls[c].frame < |frames|
  }

  /** What is spent of account a: what was recorded under it, what outermost calls in progress under it have reported
      and what returned calls under it have left to settle. */
  function Used(frames: seq<Frame>, l: Ledger, a: Account): int
    requires Kept(frames, l)
  {
    Sum(frames, l.recorded, a) + Sum(frames, Open(l.calls), a) + Sum(frames, Unsettled(l.returned), a)
  }

  /** An earlier error of its account stops the frame, or its run has reached MaxDuration. */
  predicate Stopped(frames: seq<Frame>, runs: seq<RunBudget>, f: nat, late: set<nat>)
    requires f < |frames| && frames[f].run < |runs|
  {
    var b := runs[frames[f].run];
    if frames[f].step == "" then b.err.Some? || (b.limits.timed && frames[f].run in late) else frames[f].step in b.stepErrs
  }

  /** More is spent of the frame's account than its limit. */
  predicate OverLimit(frames: seq<Frame>, runs: seq<RunBudget>, l: Ledger, f: nat)
    requires Kept(frames, l) && f < |frames| && frames[f].run < |runs|
  {
    var b, used := runs[frames[f].run], Used(frames, l, AccountOf(frames, f));
    if frames[f].step == "" then 0 < b.limits.tokens < used
    else frames[f].step in b.limits.perStep && 0 < b.limits.perStep[frames[f].step] < used
  }

  /** The frame's run has been admitted all the calls it allows. */
  predicate CalledOut(frames: seq<Frame>, runs: seq<RunBudget>, l: Ledger, f: nat)
    requires Kept(frames, l) && f < |frames| && frames[f].run < |runs|
  {
    frames[f].step == "" && 0 < runs[frames[f].run].limits.calls <= Sum(frames, l.admitted, AccountOf(frames, f))
  }

  /** None of the first k frames from f outwards is stopped. */
  predicate NoneStopped(frames: seq<Frame>, runs: seq<RunBudget>, f: nat, k: nat, late: set<nat>)
    requires Chained(frames) && f < |frames| && k <= |Chain(frames, f)| && forall g :: 0 <= g < |frames| ==> frames[g].run < |runs|
  {
    forall j :: 0 <= j < k ==> !Stopped(frames, runs, Chain(frames, f)[j], late)
  }

  /** None of them is over its limit or, when counting, out of calls. */
  predicate NoneOver(frames: seq<Frame>, runs: seq<RunBudget>, l: Ledger, f: nat, k: nat, counting: bool)
    requires Kept(frames, l) && f < |frames| && k <= |Chain(frames, f)| && forall g :: 0 <= g < |frames| ==> frames[g].run < |runs|
  {
    forall j :: 0 <= j < k ==>
      !OverLimit(frames, runs, l, Chain(frames, f)[j]) && !(counting && CalledOut(frames, runs, l, Chain(frames, f)[j]))
  }

  /** No frame from f outwards is stopped, over its limit or, when counting, out of calls. */
  predicate Allowed(frames: seq<Frame>, runs: seq<RunBudget>, l: Ledger, f: nat, late: set<nat>, counting: bool)
    requires Kept(frames, l) && f < |frames| && forall g :: 0 <= g < |frames| ==> frames[g].run < |runs|
  {
    NoneStopped(frames, runs, f, |Chain(frames, f)|, late) && NoneOver(frames, runs, l, f, |Chain(frames, f)|, counting)
  }

  /** at is the k-th frame from f outwards, or none when there are k. */
  predicate Walks(frames: seq<Frame>, f: nat, k: nat, at: Option<nat>)
    requires Chained(frames) && f < |frames|
  {
    k <= |Chain(frames, f)| && at == if k < |Chain(frames, f)| then Some(Chain(frames, f)[k]) else None
  }

  lemma WalkStarts(frames: seq<Frame>, f: nat)
    requires Chained(frames) && f < |frames|
    ensures Walks(frames, f, 0, Some(f))
  {
  }

  lemma WalkNext(frames: seq<Frame>, f: nat, k: nat, at: nat)
    requires Chained(frames) && f < |frames| && Walks(frames, f, k, Some(at))
    ensures k < |Chain(frames, f)| && at == Chain(frames, f)[k] <= f && Walks(frames, f, k + 1, frames[at].parent)
  {
  }

  lemma WalkEnds(frames: seq<Frame>, f: nat, k: nat)
    requires Chained(frames) && f < |frames| && Walks(frames, f, k, None)
    ensures k == |Chain(frames, f)|
  {
  }

  /** What stops a stopped frame. */
  function Stopping(frames: seq<Frame>, runs: seq<RunBudget>, f: nat): BudgetError
    requires f < |frames| && frames[f].run < |runs|
  {
    var b := runs[frames[f].run];
    if frames[f].step in b.stepErrs && frames[f].step != "" then b.stepErrs[frames[f].step]
    else if b.err.Some? then b.err.value else OverDuration(frames[f].run)
  }

  /** The k-th frame from f outwards is the first that is stopped, by err. */
  predicate StoppedBy(frames: seq<Frame>, runs: seq<RunBudget>, f: nat, late: set<nat>, k: nat, err: BudgetError)
    requires Chained(frames) && f < |frames| && forall g :: 0 <= g < |frames| ==> frames[g].run < |runs|
  {
    && k < |Chain(frames, f)| && NoneStopped(frames, runs, f, k, late)
    && Stopped(frames, runs, Chain(frames, f)[k], late) && err == Stopping(frames, runs, Chain(frames, f)[k])
  }

  /** No frame is stopped and the k-th from f outwards is the first over its limit or out of calls, with err. */
  predicate OverBy(frames: seq<Frame>, runs: seq<RunBudget>, l: Ledger, f: nat, late: set<nat>, counting: bool, k: nat, err: BudgetError)
    requires Kept(frames, l) && f < |frames| && forall g :: 0 <= g < |frames| ==> frames[g].run < |runs|
  {
    var chain := Chain(frames, f);
    && k < |chain| && NoneStopped(frames, runs, f, |chain|, late) && NoneOver(frames, runs, l, f, k, counting)
    && (OverLimit(frames, runs, l, chain[k]) || (counting && CalledOut(frames, runs, l, chain[k])))
    && err == Exceeded(frames, runs, l, chain[k])
  }

  /** The limit the frame's account is over, or out of. */
  function Exceeded(frames: seq<Frame>, runs: seq<RunBudget>, l: Ledger, f: nat): BudgetError
    requires Kept(frames, l) && f < |frames| && frames[f].run < |runs|
  {
    var b, run, used := runs[frames[f].run], frames[f].run, Used(frames, l, AccountOf(frames, f));
    if !OverLimit(frames, runs, l, f) then OverCalls(run, b.limits.calls)
    else if frames[f].step == "" then OverTokens(run, b.limits.tokens, used)
    else OverStep(run, frames[f].step, b.limits.perStep[frames[f].step], used)
  }

  /** The k-th frame from f outwards is the one that refuses, with err: the first that is stopped or, when none is, the
      first over its limit or out of calls. */
  predicate RefusedBy(frames: seq<Frame>, runs: seq<RunBudget>, l: Ledger, f: nat, late: set<nat>, counting: bool, k: nat, err: BudgetError)
    requires Kept(frames, l) && f < |frames| && forall g :: 0 <= g < |frames| ==> frames[g].run < |runs|
  {
    StoppedBy(frames, runs, f, late, k, err) || OverBy(frames, runs, l, f, late, counting, k, err)
  }

  /** The account's error is err. */
  function Failing(runs: seq<RunBudget>, a: Account, err: BudgetError): seq<RunBudget>
    requires a.run < |runs|
  {
    var b := runs[a.run];
    runs[a.run := if a.step == "" then b.(err := Some(err)) else b.(stepErrs := b.stepErrs[a.step := err])]
  }

  /** An account that has failed keeps its error. */
  lemma FailingSame(runs: seq<RunBudget>, a: Account, err: BudgetError)
    requires a.run < |runs|
    requires if a.step == "" then runs[a.run].err == Some(err) else a.step in runs[a.run].stepErrs && runs[a.run].stepErrs[a.step] == err
    ensures Failing(runs, a, err) == runs
  {
    var b := runs[a.run];
    assert a.step != "" ==> b.stepErrs[a.step := err] == b.stepErrs;
  }

  /** A frame from f outwards refuses, with err, and its account, and no other, fails with it. */
  ghost predicate Refuses(frames: seq<Frame>, runs: seq<RunBudget>, l: Ledger, f: nat, late: set<nat>, counting: bool, err: BudgetError,
    after: seq<RunBudget>)
    requires Kept(frames, l) && f < |frames| && forall g :: 0 <= g < |frames| ==> frames[g].run < |runs|
  {
    exists k: nat :: RefusedBy(frames, runs, l, f, late, counting, k, err) && after == Failing(runs, AccountOf(frames, Chain(frames, f)[k]), err)
  }

  /** What refusing or not, with err and the accounts after, comes to. */
  ghost predicate Answers(frames: seq<Frame>, runs: seq<RunBudget>, l: Ledger, f: nat, late: set<nat>, counting: bool,
    err: Option<BudgetError>, after: seq<RunBudget>)
    requires Kept(frames, l) && f < |frames| && forall g :: 0 <= g < |frames| ==> frames[g].run < |runs|
  {
    && (err.None? <==> Allowed(frames, runs, l, f, late, counting))
    && match err case None => after == runs case Some(e) => Refuses(frames, runs, l, f, late, counting, e, after)
  }

  /** What an account's totals say is what happened. */
  lemma FrameMeans(frames: seq<Frame>, runs: seq<RunBudget>, returned: seq<seq<Returned>>, calls: seq<Call>, recorded: seq<Charge>,
    admitted: seq<Charge>, f: nat, late: set<nat>)
    requires Shaped(frames, runs, returned, calls) && Balanced(frames, runs, returned, calls, recorded, admitted) && f < |frames|
    ensures Kept(frames, Ledger(returned, calls, recorded, admitted))
    ensures var l, a := Ledger(returned, calls, recorded, admitted), AccountOf(frames, f);
      && (Works(frames, runs, f, late) <==> !Stopped(frames, runs, f, late))
      && Spent(runs, a) == Used(frames, l, a) && (Within(runs, a) <==> !OverLimit(frames, runs, l, f))
      && (OverLimit(frames, runs, l, f) ==> Limit(runs, a) == if a.step == "" then runs[a.run].limits.tokens else runs[a.run].limits.perStep[a.step])
      && (Admits(frames, runs, f, late) <==>
           !Stopped(frames, runs, f, late) && !OverLimit(frames, runs, l, f) && !CalledOut(frames, runs, l, f))
  {
    BalancedAt(frames, runs, returned, calls, recorded, admitted, AccountOf(frames, f));
    hide Sum, Open, Unsettled, Tokens, Pending;
  }

  /** The first k frames from f outwards have a token and, when counting, a call left. */
  predicate FirstAdmit(frames: seq<Frame>, runs: seq<RunBudget>, f: nat, k: nat, late: set<nat>, counting: bool)
    requires Chained(frames) && f < |frames| && k <= |Chain(frames, f)| && forall g :: 0 <= g < |frames| ==> frames[g].run < |runs|
  {
    forall j :: 0 <= j < k ==> HasLeft(frames, runs, Chain(frames, f)[j], counting)
  }

  predicate HasLeft(frames: seq<Frame>, runs: seq<RunBudget>, g: nat, counting: bool)
    requires g < |frames| && frames[g].run < |runs|
  {
    Within(runs, AccountOf(frames, g)) && (counting ==> HasCall(frames, runs, g))
  }

  /** The frame, if it is a run's, has a call left. */
  predicate HasCall(frames: seq<Frame>, runs: seq<RunBudget>, g: nat)
    requires g < |frames| && frames[g].run < |runs|
  {
    var b := runs[frames[g].run]; frames[g].step == "" && b.limits.calls > 0 ==> b.calls < b.limits.calls
  }

  /** The state of the budgets of nested runs, behind their one lock. */
  class Meters {
    var frames: seq<Frame>
    var runs: seq<RunBudget>
    var returned: seq<seq<Returned>>
    var calls: seq<Call>
    ghost var recorded: seq<Charge>
    ghost var admitted: seq<Charge>
    ghost var events: seq<seq<Event>>

    ghost predicate Valid()
      reads this
    {
      && Shaped(frames, runs, returned, calls)
      && Balanced(frames, runs, returned, calls, recorded, admitted)
      && Capped(runs)
      && Logged(returned, events)
    }

    /** What happened. */
    ghost function Log(): Ledger
      reads this
    {
      Ledger(returned, calls, recorded, admitted)
    }

    constructor ()
      ensures Valid() && frames == [] && runs == [] && calls == []
    {
      frames, runs, returned, calls, recorded, admitted, events := [], [], [], [], [], [], [];
    }

    // ---- errors ----

    /** fail: records the run's first budget error. */
    method Fail(r: nat, err: BudgetError) returns (first: BudgetError)
      requires r < |runs|
      modifies this`runs
      ensures ErrsOnly(old(runs), runs) && runs[r].err == Some(first)
      ensures first == if old(runs)[r].err.Some? then old(runs)[r].err.value else err
      ensures runs == Failing(old(runs), Account(r, ""), first)
    {
      if runs[r].err.None? {
        runs := runs[r := runs[r].(err := Some(err))];
      } else {
        FailingSame(runs, Account(r, ""), runs[r].err.value);
      }
      return runs[r].err.value;
    }

    /** checkTokens and checkStepTokens: the error of a frame whose account has spent more than its
        limit, which fails the account. */
    method CheckSpent(f: nat) returns (err: Option<BudgetError>)
      requires f < |frames| && frames[f].run < |runs|
      modifies this`runs
      ensures ErrsOnly(old(runs), runs)
      ensures err.None? <==> Within(old(runs), AccountOf(frames, f))
      ensures err.None? ==> runs == old(runs)
      ensures err.Some? ==> runs == Failing(old(runs), AccountOf(frames, f), err.value)
      ensures err.Some? && Failed(old(runs), AccountOf(frames, f)) ==> HasFailed(old(runs), AccountOf(frames, f), err.value)
      ensures err.Some? && !Failed(old(runs), AccountOf(frames, f)) ==>
        forall counting :: Overdrawn(frames, old(runs), f, counting, err.value)
    {
      var frame := frames[f];
      var a := AccountOf(frames, f);
      if Limit(runs, a) <= 0 || Spent(runs, a) <= Limit(runs, a) {
        return None;
      }
      if frame.step == "" {
        var first := Fail(frame.run, OverTokens(frame.run, Limit(runs, a), Spent(runs, a)));
        return Some(first);
      }
      var b := runs[frame.run];
      if frame.step !in b.stepErrs {
        var stepErr := OverStep(frame.run, frame.step, Limit(runs, a), Spent(runs, a));
        runs := runs[frame.run := b.(stepErrs := b.stepErrs[frame.step := stepErr])];
      }
      err := Some(runs[frame.run].stepErrs[frame.step]);
      FailingSame(runs, a, err.value);
    }

    /** checkLocked: the first error that stops work under f. */
    method CheckLocked(f: nat, late: set<nat>) returns (err: Option<BudgetError>)
      requires Shaped(frames, runs, returned, calls) && f < |frames|
      modifies this`runs
      ensures ErrsOnly(old(runs), runs)
      ensures err.None? <==> NoneStopped(frames, old(runs), f, |Chain(frames, f)|, late)
      ensures err.None? ==> runs == old(runs)
      ensures err.Some? ==> exists k: nat ::
        StoppedBy(frames, old(runs), f, late, k, err.value) && runs == Failing(old(runs), AccountOf(frames, Chain(frames, f)[k]), err.value)
    {
      ghost var chain, k := Chain(frames, f), 0;
      WalkStarts(frames, f);
      assert NoneStopped(frames, runs, f, 0, late);
      hide NoneStopped, StoppedBy, Walks, Chained, Nested, Failing, ErrsOnly;
      var at: Option<nat> := Some(f);
      while at.Some?
        invariant k <= |chain| && Walks(frames, f, k, at)
        invariant runs == old(runs) && NoneStopped(frames, runs, f, k, late)
        decreases |chain| - k
      {
        WalkNext(frames, f, k, at.value);
        var frame := frames[at.value];
        ghost var stopping := Stopping(frames, runs, at.value);
        StopHere(frames, runs, f, k, late);
        var b := runs[frame.run];
        if frame.step != "" {
          if frame.step in b.stepErrs {
            FailingSame(runs, AccountOf(frames, at.value), stopping);
            return Some(b.stepErrs[frame.step]);
          }
        } else if b.err.Some? {
          FailingSame(runs, AccountOf(frames, at.value), stopping);
          return b.err;
        } else if b.limits.timed && frame.run in late {
          var first := Fail(frame.run, OverDuration(frame.run));
          return Some(first);
        }
        at, k := frame.parent, k + 1;
      }
      WalkEnds(frames, f, k);
      return None;
    }

    /** The checks refusalLocked makes of one frame: of its tokens and, if it is a run's, its calls. */
    method CheckLeft(f: nat) returns (err: Option<BudgetError>)
      requires f < |frames| && frames[f].run < |runs|
      modifies this`runs
      ensures ErrsOnly(old(runs), runs)
      ensures err.None? <==> HasLeft(frames, old(runs), f, true)
      ensures err.None? ==> runs == old(runs)
      ensures err.Some? ==> runs == Failing(old(runs), AccountOf(frames, f), err.value)
      ensures err.Some? && !Failed(old(runs), AccountOf(frames, f)) ==> Overdrawn(frames, old(runs), f, true, err.value)
    {
      var frame := frames[f];
      err := CheckSpent(f);
      if err.None? && frame.step == "" {
        var b := runs[frame.run];
        if b.limits.calls > 0 && b.calls >= b.limits.calls {
          var first := Fail(frame.run, OverCalls(frame.run, b.limits.calls));
          err := Some(first);
        }
      }
    }

    /** refusalLocked: the error that refuses a model call under f, failing the limit it exceeds. */
    method Refusal(f: nat, late: set<nat>) returns (err: Option<BudgetError>)
      requires Shaped(frames, runs, returned, calls) && f < |frames|
      modifies this`runs
      ensures ErrsOnly(old(runs), runs)
      ensures err.None? <==> AllAdmit(frames, old(runs), f, late)
      ensures err.None? ==> runs == old(runs)
      ensures Balanced(frames, old(runs), returned, calls, recorded, admitted) ==>
        Answers(frames, old(runs), Ledger(returned, calls, recorded, admitted), f, late, true, err, runs)
    {
      hide Answers, AllAdmit, Balanced, NoneStopped, StoppedBy, ErrsOnly, Failing, Chained, Nested, FirstAdmit, Overdrawn, HasLeft, Failed, Walks;
      ghost var was := runs;
      err := CheckLocked(f, late);
      if err.Some? {
        StopRefuses(frames, was, runs, returned, calls, recorded, admitted, f, late, true, err.value);
        return;
      }
      ghost var chain, k := Chain(frames, f), 0;
      WalkStarts(frames, f);
      var at: Option<nat> := Some(f);
      NoneAdmits(frames, was, f, late, true);
      while at.Some?
        invariant k <= |chain| && Walks(frames, f, k, at)
        invariant runs == was && NoneStopped(frames, was, f, |chain|, late) && FirstAdmit(frames, was, f, k, late, true)
        decreases |chain| - k
      {
        WalkNext(frames, f, k, at.value);
        Unstopped(frames, was, f, k, late);
        err := CheckLeft(at.value);
        if err.Some? {
          LimitRefuses(frames, was, runs, returned, calls, recorded, admitted, f, late, true, k, err.value);
          return;
        }
        NextAdmits(frames, was, f, k, late, true);
        at, k := frames[at.value].parent, k + 1;
      }
      WalkEnds(frames, f, k);
      NoneRefuses(frames, was, returned, calls, recorded, admitted, f, late, true);
      return None;
    }

    // ---- runs, steps and calls ----

    /** startRunBudget: opens a run with its limits, under a frame or under none. */
    method StartRun(parent: Option<nat>, limits: Limits) returns (f: nat)
      requires Valid() && (parent.Some? ==> parent.value < |frames|)
      modifies this
      ensures Valid() && f == |old(frames)| && frames == old(frames) + [Frame(parent, |old(runs)|, "")]
      ensures runs == old(runs) + [RunBudget(limits, 0, 0, 0, map[], map[], map[], None)]
      ensures calls == old(calls) && returned == old(returned) + [[]] && events == old(events) + [[]]
    {
      f := |frames|;
      var frame := Frame(parent, |runs|, "");
      OpensFrame(frames, runs, returned, calls, recorded, admitted, frame, [RunBudget(limits, 0, 0, 0, map[], map[], map[], None)]);
      frames, returned, events := frames + [frame], returned + [[]], events + [[]];
      runs := runs + [RunBudget(limits, 0, 0, 0, map[], map[], map[], None)];
    }

    /** enterStep: opens a frame for one execution of step under f. */
    method EnterStep(f: nat, step: Name) returns (g: nat)
      requires Valid() && f < |frames| && step != ""
      modifies this
      ensures Valid() && g == |old(frames)| && frames == old(frames) + [Frame(Some(f), old(frames)[f].run, step)]
      ensures runs == old(runs) && calls == old(calls) && returned == old(returned) + [[]] && events == old(events) + [[]]
    {
      g := |frames|;
      var frame := Frame(Some(f), frames[f].run, step);
      OpensFrame(frames, runs, returned, calls, recorded, admitted, frame, []);
      assert runs + [] == runs;
      frames, returned, events := frames + [frame], returned + [[]], events + [[]];
    }

    /** beginRetryAdmission: starts a call under f, nested in the call around it when that has the same
        frame. */
    method BeginCall(f: nat, around: Option<nat>) returns (c: nat)
      requires Valid() && f < |frames| && (around.Some? ==> around.value < |calls| && calls[around.value].active)
      modifies this`calls
      ensures Valid() && c == |old(calls)|
      ensures calls == old(calls)
        + [Call(f, if around.Some? && old(calls)[around.value].frame == f then around else None, 0, true)]
    {
      c := |calls|;
      var parent := if around.Some? && calls[around.value].frame == f then around else None;
      OpensCall(frames, runs, returned, calls, recorded, admitted, Call(f, parent, 0, true));
      calls := calls + [Call(f, parent, 0, true)];
    }

    // ---- spending ----

    /** add: records usage against f and every frame around it, failing each limit it exceeds. It
        settles a returned call of f with the same token total, if there is one. */
    method Add(f: nat, usage: Usage)
      requires Valid() && f < |frames|
      modifies this
      ensures Valid() && ErrsKept(old(runs), runs)
      ensures frames == old(frames) && calls == old(calls) && admitted == old(admitted)
      ensures recorded == old(recorded) + [Charge(f, UsageTokens(usage))]
      ensures returned == old(returned)[f := Settled(old(returned)[f], UsageTokens(usage))]
      ensures events == old(events)[f := old(events)[f] + [Records(UsageTokens(usage))]]
      ensures Moved(frames, old(runs), runs, f, UsageTokens(usage), 0 - SettledBy(old(returned)[f], UsageTokens(usage)))
      ensures LimitsFail(frames, old(runs), runs, Log(), f)
    {
      hide Balanced, Capped, MovedTo, ErrsKept, Logged, Settled, SettledBy, Unrecorded, Fails, LimitsFail, Kept, Nested;
      LoggedEach(returned, events);
      var tokens := UsageTokens(usage);
      var settled: int := Settle(f, tokens);
      Spend(f, tokens, 0 - settled);
      AddLeaves(frames, old(runs), runs, old(returned), returned, calls, recorded, admitted, f, tokens, settled);
      recorded := recorded + [Charge(f, tokens)];
    }

    /** Takes the first returned call of f with the token total off its list. */
    method Settle(f: nat, tokens: nat) returns (settled: nat)
      requires Logged(returned, events) && f < |returned| == |events|
      modifies this`returned, this`events
      ensures Logged(returned, events) && events == old(events)[f := old(events)[f] + [Records(tokens)]]
      ensures returned == old(returned)[f := Settled(old(returned)[f], tokens)] && settled == SettledBy(old(returned)[f], tokens)
      ensures Unrecorded(returned[f]) == Unrecorded(old(returned)[f]) - settled
    {
      settled := 0;
      LogsRecord(returned, events, f, tokens);
      events := events[f := events[f] + [Records(tokens)]];
      var i := IndexOf(returned[f], tokens);
      if i.Some? {
        settled := returned[f][i.value].pending;
        UnrecordedWithout(returned[f], i.value);
        returned := returned[f := returned[f][..i.value] + returned[f][i.value + 1..]];
      }
    }

    /** The position of the first returned call with the token total. */
    static method IndexOf(list: seq<Returned>, tokens: nat) returns (i: Option<nat>)
      ensures i == FirstWith(list, tokens)
    {
      for k := 0 to |list|
        invariant forall j :: 0 <= j < k ==> list[j].tokens != tokens
      {
        if list[k].tokens == tokens {
          FirstIs(list, tokens, k);
          return Some(k);
        }
      }
      FirstNone(list, tokens);
      return None;
    }

    /** The loop of add: charges every frame from f outwards, and checks each. */
    method Spend(f: nat, tokens: nat, pending: int)
      requires Shaped(frames, runs, returned, calls) && f < |frames|
      modifies this`runs
      ensures Moved(frames, old(runs), runs, f, tokens, pending) && ErrsKept(old(runs), runs) && Fails(frames, old(runs), runs, f, None)
    {
      assert ErrsKept(runs, runs);
      hide Fails, ErrsKept, MovedTo, Nested, Beneath, Failed, HasFailed, Within, Overdrawn, Failing;
      var at: Option<nat> := Some(f);
      MovedNone(frames, runs, f, tokens, pending);
      FailsNone(frames, runs, f);
      BeneathSelf(frames, f);
      while at.Some?
        invariant at.Some? ==> at.value < |frames|
        invariant |runs| == |old(runs)| && ErrsKept(old(runs), runs)
        invariant MovedTo(frames, old(runs), runs, f, at, tokens, pending) && Fails(frames, old(runs), runs, f, at) && Beneath(frames, f, at)
        decreases if at.Some? then at.value + 1 else 0
      {
        ghost var here := runs;
        var a := AccountOf(frames, at.value);
        runs := Charged(runs, a, tokens, pending);
        MovedNext(frames, old(runs), here, f, at.value, tokens, pending);
        ghost var charged := runs;
        var err := CheckSpent(at.value);
        MovedKept(frames, old(runs), charged, runs, f, frames[at.value].parent, tokens, pending);
        ErrsChain(old(runs), here, charged, runs, a, tokens, pending);
        BeneathNext(frames, f, at.value);
        FailsNext(frames, old(runs), here, runs, f, at.value, tokens, pending, err);
        at := frames[at.value].parent;
      }
    }

    // ---- retried calls ----

    /** report: counts the call's failed attempts as spent: the tokens of spent it has not reported yet
        become pending, once for every call it is nested in and in every account around its frame.
        Returns the error that refuses the next attempt now. */
    method Report(c: nat, spent: Usage, late: set<nat>) returns (err: Option<BudgetError>)
      requires Valid() && c < |calls| && calls[c].active
      modifies this`runs, this`calls
      ensures Valid() && ErrsKept(old(runs), runs) && |calls| == |old(calls)|
      ensures var d := Max(UsageTokens(spent) - old(calls)[c].reported, 0);
        Moved(frames, old(runs), runs, calls[c].frame, 0, d) && Reported(old(calls), calls, c, d)
      ensures err.None? <==> AllAdmit(frames, runs, calls[c].frame, late)
      ensures err.None? <==> Allowed(frames, old(runs), Log(), calls[c].frame, late, true)
      ensures err.Some? ==> RefusedAfter(frames, old(runs), Log(), calls[c].frame, late, err.value, runs)
    {
      hide Balanced, Capped, Logged, Answers, Allowed, RefusedAfter, AllAdmit, ErrsKept, ErrsOnly, SameErrs, MovedTo, ReportedTo, Nested, Chained, Kept;
      ghost var was, before := runs, calls;
      var f := calls[c].frame;
      var unreported := Max(UsageTokens(spent) - calls[c].reported, 0);
      ReportAround(c, unreported);
      ReportedNested(before, calls, c, unreported);
      ChargePending(f, unreported);
      ReportBalances(frames, was, runs, returned, before, calls, recorded, admitted, c, unreported);
      ghost var charged := runs;
      err := Refusal(f, late);
      AdmitsFewer(frames, charged, runs, f, late);
      KeptSo(frames, was, charged, runs, returned, calls, recorded, admitted);
      ErrsBalance(frames, charged, runs, returned, calls, recorded, admitted);
      MovedKept(frames, was, charged, runs, f, None, 0, unreported);
      RefusesAlike(frames, was, charged, Log(), f, late, err, runs);
    }

    /** The loop of report over the call and the calls around it. */
    method ReportAround(c: nat, d: nat)
      requires Nested(calls) && c < |calls|
      modifies this`calls
      ensures Reported(old(calls), calls, c, d)
    {
      var at: Option<nat> := Some(c);
      while at.Some?
        invariant at.Some? ==> at.value < |calls|
        invariant ReportedTo(old(calls), calls, c, at, d)
        decreases if at.Some? then at.value + 1 else 0
      {
        AroundBound(old(calls), at.value);
        if old(calls)[at.value].parent.Some? {
          AroundBound(old(calls), old(calls)[at.value].parent.value);
        }
        calls := calls[at.value := calls[at.value].(reported := calls[at.value].reported + d)];
        at := calls[at.value].parent;
      }
    }

    /** The loop of report over the frame and those around it. */
    method ChargePending(f: nat, pending: int)
      requires Shaped(frames, runs, returned, calls) && f < |frames|
      modifies this`runs
      ensures Moved(frames, old(runs), runs, f, 0, pending) && ErrsKept(old(runs), runs) && SameErrs(old(runs), runs)
    {
      var at: Option<nat> := Some(f);
      MovedNone(frames, runs, f, 0, pending);
      while at.Some?
        invariant at.Some? ==> at.value < |frames|
        invariant |runs| == |old(runs)| && ErrsKept(old(runs), runs) && SameErrs(old(runs), runs)
        invariant MovedTo(frames, old(runs), runs, f, at, 0, pending)
        decreases if at.Some? then at.value + 1 else 0
      {
        MovedNext(frames, old(runs), runs, f, at.value, 0, pending);
        runs := Charged(runs, AccountOf(frames, at.value), 0, pending);
        at := frames[at.value].parent;
      }
    }

    /** finish: ends the call, which returns spent. An outermost call leaves what it reported for its
        caller's record of spent to settle. */
    method Finish(c: nat, spent: Usage)
      requires Valid() && c < |calls| && calls[c].active
      requires forall d :: 0 <= d < |calls| && calls[d].parent == Some(c) ==> !calls[d].active
      modifies this`calls, this`returned, this`events
      ensures Valid() && calls == old(calls)[c := old(calls)[c].(active := false)]
      ensures var call, f := old(calls)[c], old(calls)[c].frame;
        returned == if call.parent.None? && call.reported > 0
          then old(returned)[f := old(returned)[f] + [Returned(UsageTokens(spent), call.reported)]] else old(returned)
      ensures var call, f := old(calls)[c], old(calls)[c].frame;
        events == if call.parent.None? && call.reported > 0
          then old(events)[f := old(events)[f] + [Returns(UsageTokens(spent), call.reported)]] else old(events)
    {
      var call := calls[c];
      FinishBalances(frames, runs, returned, calls, recorded, admitted, c, UsageTokens(spent));
      calls := calls[c := call.(active := false)];
      if call.parent.Some? {
        return;
      }
      if call.reported > 0 {
        LogsReturn(returned, events, call.frame, UsageTokens(spent), call.reported);
        events := events[call.frame := events[call.frame] + [Returns(UsageTokens(spent), call.reported)]];
        returned := returned[call.frame := returned[call.frame] + [Returned(UsageTokens(spent), call.reported)]];
      }
    }

    // ---- admissions ----

    /** admit: reserves one model call against every run around f, or returns the error that refuses it
        without reserving anything. */
    method Admit(f: nat, late: set<nat>) returns (err: Option<BudgetError>)
      requires Valid() && f < |frames|
      modifies this`runs, this`admitted
      ensures Valid() && ErrsKept(old(runs), runs)
      ensures err.None? <==> AllAdmit(frames, old(runs), f, late)
      ensures err.None? <==> Allowed(frames, old(runs), old(Log()), f, late, true)
      ensures err.Some? ==> Refuses(frames, old(runs), old(Log()), f, late, true, err.value, runs)
      ensures err.None? ==> Reserved(frames, old(runs), runs, f) && admitted == old(admitted) + [Charge(f, 1)]
      ensures err.Some? ==> ErrsOnly(old(runs), runs) && admitted == old(admitted)
    {
      ghost var was := runs;
      err := Refusal(f, late);
      ErrsBalance(frames, was, runs, returned, calls, recorded, admitted);
      if err.Some? {
        return;
      }
      assert runs == was;
      hide Balanced, AllAdmit, Capped, ErrsKept, ErrsOnly;
      Reserve(f);
      AdmitBalances(frames, was, runs, returned, calls, recorded, admitted, f, late);
      admitted := admitted + [Charge(f, 1)];
    }

    /** The loop of admit: counts the call in every run around f. */
    method Reserve(f: nat)
      requires Shaped(frames, runs, returned, calls) && f < |frames|
      modifies this`runs
      ensures Reserved(frames, old(runs), runs, f) && ErrsKept(old(runs), runs)
    {
      ghost var was := runs;
      ReservedNone(frames, runs, f);
      hide ReservedTo, ErrsKept;
      var at: Option<nat> := Some(f);
      while at.Some?
        invariant at.Some? ==> at.value < |frames|
        invariant ReservedTo(frames, was, runs, f, at)
        decreases if at.Some? then at.value + 1 else 0
      {
        var frame := frames[at.value];
        ReservedKeeps(frames, was, runs, f, at);
        ReservedNext(frames, was, runs, f, at.value);
        if frame.step == "" {
          runs := runs[frame.run := runs[frame.run].(calls := runs[frame.run].calls + 1)];
        }
        at := frame.parent;
      }
      ReservedKeeps(frames, was, runs, f, None);
    }

    /** next: reserves the next attempt of a call. */
    method Next(c: nat, late: set<nat>) returns (err: Option<BudgetError>)
      requires Valid() && c < |calls|
      modifies this`runs, this`admitted
      ensures Valid() && ErrsKept(old(runs), runs)
      ensures err.None? <==> Allowed(frames, old(runs), old(Log()), calls[c].frame, late, true)
      ensures err.Some? ==> Refuses(frames, old(runs), old(Log()), calls[c].frame, late, true, err.value, runs)
      ensures err.None? ==> Reserved(frames, old(runs), runs, calls[c].frame) && admitted == old(admitted) + [Charge(calls[c].frame, 1)]
      ensures err.Some? ==> ErrsOnly(old(runs), runs) && admitted == old(admitted)
    {
      err := Admit(calls[c].frame, late);
    }

    /** admitAttempt: the error that refuses another attempt of a tool call under f. A spent
        MaxModelCalls does not refuse it, and it reserves nothing. */
    method AdmitAttempt(f: nat, late: set<nat>) returns (err: Option<BudgetError>)
      requires Valid() && f < |frames|
      modifies this`runs
      ensures Valid() && ErrsOnly(old(runs), runs)
      ensures Answers(frames, old(runs), Log(), f, late, false, err, runs)
    {
      hide Answers, Balanced, NoneStopped, StoppedBy, ErrsOnly, Failing, Chained, Nested, Capped, Logged, FirstAdmit, Overdrawn, Within, Failed, Kept, Walks;
      ghost var was := runs;
      err := CheckLocked(f, late);
      if err.Some? {
        ErrsBalance(frames, was, runs, returned, calls, recorded, admitted);
        StopRefuses(frames, was, runs, returned, calls, recorded, admitted, f, late, false, err.value);
        return;
      }
      ghost var chain, k := Chain(frames, f), 0;
      WalkStarts(frames, f);
      var at: Option<nat> := Some(f);
      NoneAdmits(frames, was, f, late, false);
      while at.Some?
        invariant k <= |chain| && Walks(frames, f, k, at)
        invariant runs == was && NoneStopped(frames, was, f, |chain|, late) && FirstAdmit(frames, was, f, k, late, false)
        decreases |chain| - k
      {
        WalkNext(frames, f, k, at.value);
        Unstopped(frames, was, f, k, late);
        err := CheckSpent(at.value);
        if err.Some? {
          ErrsBalance(frames, was, runs, returned, calls, recorded, admitted);
          LimitRefuses(frames, was, runs, returned, calls, recorded, admitted, f, late, false, k, err.value);
          return;
        }
        NextAdmits(frames, was, f, k, late, false);
        at, k := frames[at.value].parent, k + 1;
      }
      WalkEnds(frames, f, k);
      NoneRefuses(frames, was, returned, calls, recorded, admitted, f, late, false);
      return None;
    }
  }

  /** Every run around f has one more call, except those around at, which have yet to; nothing else
      differs. */
  ghost predicate ReservedTo(frames: seq<Frame>, before: seq<RunBudget>, after: seq<RunBudget>, f: nat, at: Option<nat>)
    requires Chained(frames) && f < |frames| && (at.Some? ==> at.value < |frames|)
  {
    |after| == |before| && forall r :: 0 <= r < |before| ==>
      after[r] == before[r].(calls := before[r].calls + Times(frames, f, Account(r, "")) - TimesFrom(frames, at, Account(r, "")))
  }

  ghost predicate Reserved(frames: seq<Frame>, before: seq<RunBudget>, after: seq<RunBudget>, f: nat)
    requires Chained(frames) && f < |frames|
  {
    ReservedTo(frames, before, after, f, None)
  }

  lemma ReservedNone(frames: seq<Frame>, runs: seq<RunBudget>, f: nat)
    requires Chained(frames) && f < |frames|
    ensures ReservedTo(frames, runs, runs, f, Some(f))
  {
  }

  lemma ReservedKeeps(frames: seq<Frame>, before: seq<RunBudget>, here: seq<RunBudget>, f: nat, at: Option<nat>)
    requires Chained(frames) && f < |frames| && (at.Some? ==> at.value < |frames|) && ReservedTo(frames, before, here, f, at)
    ensures |here| == |before| && ErrsKept(before, here)
  {
  }

  lemma ReservedNext(frames: seq<Frame>, before: seq<RunBudget>, here: seq<RunBudget>, f: nat, at: nat)
    requires Chained(frames) && f < |frames| && at < |frames| && frames[at].run < |before|
    requires ReservedTo(frames, before, here, f, Some(at))
    ensures var r := frames[at].run;
      var after := if frames[at].step == "" then here[r := here[r].(calls := here[r].calls + 1)] else here;
      ReservedTo(frames, before, after, f, frames[at].parent)
  {
    forall r: nat ensures Times(frames, at, Account(r, "")) == TimesFrom(frames, frames[at].parent, Account(r, ""))
      + if frames[at].step == "" && frames[at].run == r then 1 else 0
    {
    }
    hide Times;
  }

  // ---- what keeps the balance ----

  lemma Capping(runs: seq<RunBudget>, more: seq<RunBudget>)
    requires Capped(runs) && |runs| == |more|
    requires forall r :: 0 <= r < |runs| ==> more[r].calls == runs[r].calls && more[r].limits == runs[r].limits
    ensures Capped(more)
  {
  }

  lemma ErrsBalance(frames: seq<Frame>, runs: seq<RunBudget>, more: seq<RunBudget>, returned: seq<seq<Returned>>, calls: seq<Call>,
    recorded: seq<Charge>, admitted: seq<Charge>)
    requires Shaped(frames, runs, returned, calls) && Balanced(frames, runs, returned, calls, recorded, admitted) && Capped(runs)
    requires ErrsOnly(runs, more)
    ensures Shaped(frames, more, returned, calls) && Balanced(frames, more, returned, calls, recorded, admitted) && Capped(more)
  {
    forall a: Account | a.run < |runs| ensures
      Pending(more, a) == Pending(runs, a) && Tokens(more, a) == Tokens(runs, a)
    {
    }
  }

  /** What a run that has just started holds. */
  lemma StartedMeans(runs: seq<RunBudget>, started: seq<RunBudget>, a: Account)
    requires forall b :: b in started ==> b == RunBudget(b.limits, 0, 0, 0, map[], map[], map[], None)
    requires a.run < |runs + started|
    ensures Pending(runs + started, a) == if a.run < |runs| then Pending(runs, a) else 0
    ensures Tokens(runs + started, a) == if a.run < |runs| then Tokens(runs, a) else 0
  {
    if a.run >= |runs| {
      assert (runs + started)[a.run] == started[a.run - |runs|];
    }
  }

  lemma OpensFrame(frames: seq<Frame>, runs: seq<RunBudget>, returned: seq<seq<Returned>>, calls: seq<Call>,
    recorded: seq<Charge>, admitted: seq<Charge>, frame: Frame, started: seq<RunBudget>)
    requires Shaped(frames, runs, returned, calls) && Balanced(frames, runs, returned, calls, recorded, admitted) && Capped(runs)
    requires frame.parent.Some? ==> frame.parent.value < |frames|
    requires forall b :: b in started ==> b == RunBudget(b.limits, 0, 0, 0, map[], map[], map[], None)
    requires if frame.step == "" then frame.run == |runs| && |started| == 1 else frame.run < |runs| && started == []
    ensures Shaped(frames + [frame], runs + started, returned + [[]], calls)
    ensures Balanced(frames + [frame], runs + started, returned + [[]], calls, recorded, admitted) && Capped(runs + started)
  {
    var more, budgets, lists := frames + [frame], runs + started, returned + [[]];
    assert Unsettled(lists) == Unsettled(returned) + [Charge(|frames|, 0)];
    assert Shaped(more, budgets, lists, calls);
    hide Sum, Open, Unsettled;
    forall a: Account ensures
      && ChargesOf(more, Open(calls)) && Sum(more, Open(calls), a) == Sum(frames, Open(calls), a)
      && ChargesOf(more, Unsettled(lists)) && Sum(more, Unsettled(lists), a) == Sum(frames, Unsettled(returned), a)
      && ChargesOf(more, recorded) && Sum(more, recorded, a) == Sum(frames, recorded, a)
      && ChargesOf(more, admitted) && Sum(more, admitted, a) == Sum(frames, admitted, a)
    {
      hide Balanced;
      SumKept(frames, frame, Open(calls), a);
      SumKept(frames, frame, Unsettled(returned), a);
      SumAppend(more, Unsettled(returned), Charge(|frames|, 0), a);
      SumKept(frames, frame, recorded, a);
      SumKept(frames, frame, admitted, a);
    }
    forall a: Account | a.run == |runs| ensures
      && Sum(frames, Open(calls), a) == 0 && Sum(frames, Unsettled(returned), a) == 0
      && Sum(frames, recorded, a) == 0 && Sum(frames, admitted, a) == 0
    {
      NewRunEmpty(frames, runs, Open(calls), a);
      NewRunEmpty(frames, runs, Unsettled(returned), a);
      NewRunEmpty(frames, runs, recorded, a);
      NewRunEmpty(frames, runs, admitted, a);
    }
    forall a: Account | a.run < |budgets| ensures
      && Pending(budgets, a) == Sum(more, Open(calls), a) + Sum(more, Unsettled(lists), a)
      && Tokens(budgets, a) == Sum(more, recorded, a)
    {
      hide Pending, Tokens;
      StartedMeans(runs, started, a);
      if a.run < |runs| {
        BalancedAt(frames, runs, returned, calls, recorded, admitted, a);
      }
    }
  }

  /** Nothing has been charged to a run that has not started. */
  lemma {:induction false} NewRunEmpty(frames: seq<Frame>, runs: seq<RunBudget>, charges: seq<Charge>, a: Account)
    requires Chained(frames) && ChargesOf(frames, charges) && a.run == |runs|
    requires forall f :: 0 <= f < |frames| ==> frames[f].run < |runs|
    ensures Sum(frames, charges, a) == 0
    decreases |charges|
  {
    if charges != [] {
      NewRunEmpty(frames, runs, charges[..|charges| - 1], a);
      NewRunTimes(frames, runs, charges[|charges| - 1].frame, a);
    }
  }

  lemma {:induction false} NewRunTimes(frames: seq<Frame>, runs: seq<RunBudget>, f: nat, a: Account)
    requires Chained(frames) && f < |frames| && a.run == |runs|
    requires forall g :: 0 <= g < |frames| ==> frames[g].run < |runs|
    ensures Times(frames, f, a) == 0
    decreases f
  {
    if frames[f].parent.Some? {
      NewRunTimes(frames, runs, frames[f].parent.value, a);
    }
  }

  lemma OpensCall(frames: seq<Frame>, runs: seq<RunBudget>, returned: seq<seq<Returned>>, calls: seq<Call>,
    recorded: seq<Charge>, admitted: seq<Charge>, call: Call)
    requires Shaped(frames, runs, returned, calls) && Balanced(frames, runs, returned, calls, recorded, admitted)
    requires call.frame < |frames| && call.reported == 0
    requires call.parent.Some? ==> call.parent.value < |calls| && calls[call.parent.value].frame == call.frame && calls[call.parent.value].active
    ensures Shaped(frames, runs, returned, calls + [call]) && Balanced(frames, runs, returned, calls + [call], recorded, admitted)
  {
    var more := calls + [call];
    assert Open(more) == Open(calls) + [OpenCharge(call)];
    forall a: Account | a.run < |runs| ensures Sum(frames, Open(more), a) == Sum(frames, Open(calls), a) {
      SumAppend(frames, Open(calls), OpenCharge(call), a);
    }
  }

  lemma AddBalances(frames: seq<Frame>, was: seq<RunBudget>, runs: seq<RunBudget>, before: seq<seq<Returned>>, returned: seq<seq<Returned>>,
    calls: seq<Call>, recorded: seq<Charge>, admitted: seq<Charge>, f: nat, tokens: nat, settled: nat)
    requires Shaped(frames, was, before, calls) && Balanced(frames, was, before, calls, recorded, admitted) && Capped(was) && f < |frames|
    requires Moved(frames, was, runs, f, tokens, 0 - settled)
    requires |returned| == |before| && returned == before[f := returned[f]] && Unrecorded(returned[f]) == Unrecorded(before[f]) - settled
    ensures Shaped(frames, runs, returned, calls) && Capped(runs)
    ensures Balanced(frames, runs, returned, calls, recorded + [Charge(f, tokens)], admitted)
  {
    assert ChargesOf(frames, recorded + [Charge(f, tokens)]);
    assert forall r :: 0 <= r < |runs| ==> runs[r].calls == was[r].calls && runs[r].limits == was[r].limits;
    hide Tokens, Pending, Open, Unsettled, Sum, Moved, ChargesOf;
    Capping(was, runs);
    forall a: Account | a.run < |runs| ensures
      && Pending(runs, a) == Sum(frames, Open(calls), a) + Sum(frames, Unsettled(returned), a)
      && Tokens(runs, a) == Sum(frames, recorded + [Charge(f, tokens)], a)
    {
      AddBalancesAt(frames, was, runs, before, returned, calls, recorded, admitted, f, tokens, settled, a);
    }
  }

  /** The same of one account. */
  lemma {:induction false} AddBalancesAt(frames: seq<Frame>, was: seq<RunBudget>, runs: seq<RunBudget>, before: seq<seq<Returned>>,
    returned: seq<seq<Returned>>, calls: seq<Call>, recorded: seq<Charge>, admitted: seq<Charge>, f: nat, tokens: nat, settled: nat, a: Account)
    requires Shaped(frames, was, before, calls) && Balanced(frames, was, before, calls, recorded, admitted) && f < |frames|
    requires Moved(frames, was, runs, f, tokens, 0 - settled) && a.run < |runs|
    requires |returned| == |before| && returned == before[f := returned[f]] && Unrecorded(returned[f]) == Unrecorded(before[f]) - settled
    ensures ChargesOf(frames, recorded + [Charge(f, tokens)])
    ensures Pending(runs, a) == Sum(frames, Open(calls), a) + Sum(frames, Unsettled(returned), a)
    ensures Tokens(runs, a) == Sum(frames, recorded + [Charge(f, tokens)], a)
  {
    assert |was| == |runs|;
    hide Tokens, Pending, Open, Sum, Times, Moved, Balanced, Nested, Unrecorded, Unsettled, Chained;
    BalancedAt(frames, was, before, calls, recorded, admitted, a);
    MovedAt(frames, was, runs, f, tokens, 0 - settled, a);
    SettledSum(frames, before, returned, f, settled, a);
    SumAppend(frames, recorded, Charge(f, tokens), a);
  }

  lemma {:induction false} SettledSum(frames: seq<Frame>, before: seq<seq<Returned>>, returned: seq<seq<Returned>>, f: nat, settled: nat, a: Account)
    requires Chained(frames) && f < |frames| == |before|
    requires |returned| == |before| && returned == before[f := returned[f]] && Unrecorded(returned[f]) == Unrecorded(before[f]) - settled
    ensures Sum(frames, Unsettled(returned), a) == Sum(frames, Unsettled(before), a) + (0 - settled) * Times(frames, f, a)
  {
    UnsettledMoves(before, returned, f, settled);
    hide Sum, Times, Unrecorded, Chained;
    SumUpdate(frames, Unsettled(before), f, 0 - settled, a);
  }

  lemma UnsettledMoves(before: seq<seq<Returned>>, returned: seq<seq<Returned>>, f: nat, settled: nat)
    requires |returned| == |before| && f < |before| && returned == before[f := returned[f]]
    requires Unrecorded(returned[f]) == Unrecorded(before[f]) - settled
    ensures Unsettled(returned) == Unsettled(before)[f := Charge(f, Unsettled(before)[f].amount + (0 - settled))]
  {
    assert forall g :: 0 <= g < |before| && g != f ==> returned[g] == before[g];
  }

  lemma BalancedAt(frames: seq<Frame>, runs: seq<RunBudget>, returned: seq<seq<Returned>>, calls: seq<Call>, recorded: seq<Charge>,
    admitted: seq<Charge>, a: Account)
    requires Shaped(frames, runs, returned, calls) && Balanced(frames, runs, returned, calls, recorded, admitted) && a.run < |runs|
    ensures ChargesOf(frames, recorded)
    ensures Pending(runs, a) == Sum(frames, Open(calls), a) + Sum(frames, Unsettled(returned), a)
    ensures Tokens(runs, a) == Sum(frames, recorded, a)
  {
  }

  lemma MovedAt(frames: seq<Frame>, before: seq<RunBudget>, after: seq<RunBudget>, f: nat, tokens: int, pending: int, a: Account)
    requires Chained(frames) && f < |frames| && Moved(frames, before, after, f, tokens, pending) && a.run < |before|
    ensures Tokens(after, a) == Tokens(before, a) + tokens * Times(frames, f, a)
    ensures Pending(after, a) == Pending(before, a) + pending * Times(frames, f, a)
  {
    assert TimesFrom(frames, None, a) == 0;
  }

  lemma AdmitBalances(frames: seq<Frame>, was: seq<RunBudget>, runs: seq<RunBudget>, returned: seq<seq<Returned>>, calls: seq<Call>,
    recorded: seq<Charge>, admitted: seq<Charge>, f: nat, late: set<nat>)
    requires Shaped(frames, was, returned, calls) && Balanced(frames, was, returned, calls, recorded, admitted) && Capped(was)
    requires f < |frames| && AllAdmit(frames, was, f, late) && Reserved(frames, was, runs, f)
    ensures Shaped(frames, runs, returned, calls) && Balanced(frames, runs, returned, calls, recorded, admitted + [Charge(f, 1)])
    ensures Capped(runs)
  {
    forall a: Account | a.run < |runs| ensures
      && Pending(runs, a) == Pending(was, a) && Tokens(runs, a) == Tokens(was, a)
      && runs[a.run].calls == Sum(frames, admitted + [Charge(f, 1)], Account(a.run, ""))
    {
      assert Pending(was, a) == Sum(frames, Open(calls), a) + Sum(frames, Unsettled(returned), a);
      SumAppend(frames, admitted, Charge(f, 1), Account(a.run, ""));
    }
    forall r | 0 <= r < |runs| ensures 0 <= runs[r].calls && (runs[r].limits.calls > 0 ==> runs[r].calls <= runs[r].limits.calls) {
      RunOnce(frames, f, r);
      if Times(frames, f, Account(r, "")) >= 1 {
        RunAdmits(frames, was, f, late, r);
      }
    }
    SumAppend(frames, admitted, Charge(f, 1), Account(0, ""));
  }

  /** A run around f that admits a call has one left. */
  lemma {:induction false} RunAdmits(frames: seq<Frame>, runs: seq<RunBudget>, f: nat, late: set<nat>, r: nat)
    requires Chained(frames) && f < |frames| && r < |runs| && forall g :: 0 <= g < |frames| ==> frames[g].run < |runs|
    requires AllAdmit(frames, runs, f, late) && Times(frames, f, Account(r, "")) >= 1
    ensures runs[r].limits.calls > 0 ==> runs[r].calls < runs[r].limits.calls
    decreases f
  {
    if AccountOf(frames, f) != Account(r, "") {
      RunAdmits(frames, runs, frames[f].parent.value, late, r);
    }
  }

  // ---- calls that report ----

  /** The calls c is nested in, and c. */
  function Around(calls: seq<Call>, c: nat): set<nat>
    requires Nested(calls) && c < |calls|
    decreases c
  {
    match calls[c].parent
    case None => {c}
    case Some(p) => {c} + Around(calls, p)
  }

  function AroundFrom(calls: seq<Call>, c: Option<nat>): set<nat>
    requires Nested(calls) && (c.Some? ==> c.value < |calls|)
  {
    if c.None? then {} else Around(calls, c.value)
  }

  lemma {:induction false} AroundBound(calls: seq<Call>, c: nat)
    requires Nested(calls) && c < |calls|
    ensures c in Around(calls, c) && forall x :: x in Around(calls, c) ==> x <= c
    decreases c
  {
    if calls[c].parent.Some? {
      AroundBound(calls, calls[c].parent.value);
    }
  }

  /** The outermost of the calls around c. */
  function Outermost(calls: seq<Call>, c: nat): nat
    requires Nested(calls) && c < |calls|
    decreases c
  {
    match calls[c].parent
    case None => c
    case Some(p) => Outermost(calls, p)
  }

  /** One call around c is outermost, has its frame, and is in progress while c is. */
  lemma {:induction false} OutermostMeans(calls: seq<Call>, c: nat)
    requires Nested(calls) && c < |calls|
    ensures var o := Outermost(calls, c);
      && o in Around(calls, c) && o < |calls| && calls[o].parent.None?
      && calls[o].frame == calls[c].frame && (calls[c].active ==> calls[o].active)
    ensures forall x :: x in Around(calls, c) ==> x < |calls| && (calls[x].parent.None? <==> x == Outermost(calls, c))
    decreases c
  {
    if calls[c].parent.Some? {
      OutermostMeans(calls, calls[c].parent.value);
    }
  }

  lemma ReportedNested(before: seq<Call>, after: seq<Call>, c: nat, d: nat)
    requires Nested(before) && c < |before| && Reported(before, after, c, d)
    ensures |after| == |before| && Nested(after) && after[c].frame == before[c].frame && after[c].active == before[c].active
    ensures forall x :: 0 <= x < |after| ==> after[x].frame == before[x].frame
  {
    assert forall x :: 0 <= x < |after| ==> after[x] == before[x].(reported := after[x].reported);
  }

  /** What the calls around c report is pending once, as the outermost one's. */
  lemma ReportBalances(frames: seq<Frame>, was: seq<RunBudget>, runs: seq<RunBudget>, returned: seq<seq<Returned>>,
    before: seq<Call>, calls: seq<Call>, recorded: seq<Charge>, admitted: seq<Charge>, c: nat, d: nat)
    requires Shaped(frames, was, returned, before) && Balanced(frames, was, returned, before, recorded, admitted) && Capped(was)
    requires c < |before| && before[c].active && Reported(before, calls, c, d) && Moved(frames, was, runs, before[c].frame, 0, d)
    ensures Shaped(frames, runs, returned, calls) && Balanced(frames, runs, returned, calls, recorded, admitted) && Capped(runs)
  {
    var f, o := before[c].frame, Outermost(before, c);
    OutermostMeans(before, c);
    ReportedNested(before, calls, c, d);
    assert Open(calls) == Open(before)[o := Charge(f, Open(before)[o].amount + d)] by {
      hide Around;
      forall x | 0 <= x < |calls| ensures
        OpenCharge(calls[x]) == if x == o then Charge(f, OpenCharge(before[x]).amount + d) else OpenCharge(before[x])
      {
      }
    }
    Capping(was, runs);
    forall a: Account | a.run < |runs| ensures
      && Pending(runs, a) == Sum(frames, Open(calls), a) + Sum(frames, Unsettled(returned), a)
      && Tokens(runs, a) == Sum(frames, recorded, a)
    {
      hide Tokens, Pending, Open, Unsettled, Around;
      SumUpdate(frames, Open(before), o, d, a);
      assert Pending(runs, a) + d * 0 == Pending(was, a) + d * Times(frames, f, a);
      assert Tokens(runs, a) + 0 * 0 == Tokens(was, a) + 0 * Times(frames, f, a);
    }
  }

  /** The calls and the returned calls once call c has ended. */
  function Ended(calls: seq<Call>, c: nat): seq<Call>
    requires c < |calls|
  {
    calls[c := calls[c].(active := false)]
  }

  function Left(returned: seq<seq<Returned>>, call: Call, tokens: nat): seq<seq<Returned>>
    requires call.frame < |returned|
  {
    if call.parent.None? && call.reported > 0
    then returned[call.frame := returned[call.frame] + [Returned(tokens, call.reported)]] else returned
  }

  /** An outermost call that ends leaves what it reported with its frame. */
  lemma FinishBalances(frames: seq<Frame>, runs: seq<RunBudget>, returned: seq<seq<Returned>>, calls: seq<Call>,
    recorded: seq<Charge>, admitted: seq<Charge>, c: nat, tokens: nat)
    requires Shaped(frames, runs, returned, calls) && Balanced(frames, runs, returned, calls, recorded, admitted)
    requires c < |calls| && calls[c].active && forall d :: 0 <= d < |calls| && calls[d].parent == Some(c) ==> !calls[d].active
    ensures Shaped(frames, runs, Left(returned, calls[c], tokens), Ended(calls, c))
    ensures Balanced(frames, runs, Left(returned, calls[c], tokens), Ended(calls, c), recorded, admitted)
  {
    hide Open, Unsettled, Sum;
    EndsCall(calls, c);
    forall a: Account ensures
      && ChargesOf(frames, Open(Ended(calls, c))) && ChargesOf(frames, Unsettled(Left(returned, calls[c], tokens)))
      && Sum(frames, Open(Ended(calls, c)), a) + Sum(frames, Unsettled(Left(returned, calls[c], tokens)), a)
        == Sum(frames, Open(calls), a) + Sum(frames, Unsettled(returned), a)
    {
      FinishSums(frames, returned, calls, c, tokens, a);
    }
  }

  lemma FinishSums(frames: seq<Frame>, returned: seq<seq<Returned>>, calls: seq<Call>, c: nat, tokens: nat, a: Account)
    requires Chained(frames) && |returned| == |frames| && Nested(calls)
    requires forall d :: 0 <= d < |calls| ==> calls[d].frame < |frames|
    requires c < |calls| && calls[c].active && forall d :: 0 <= d < |calls| && calls[d].parent == Some(c) ==> !calls[d].active
    ensures ChargesOf(frames, Open(Ended(calls, c))) && ChargesOf(frames, Unsettled(Left(returned, calls[c], tokens)))
    ensures Sum(frames, Open(Ended(calls, c)), a) + Sum(frames, Unsettled(Left(returned, calls[c], tokens)), a)
      == Sum(frames, Open(calls), a) + Sum(frames, Unsettled(returned), a)
  {
    hide Sum;
    var call := calls[c];
    EndsCall(calls, c);
    if call.parent.None? && call.reported > 0 {
      UnsettledAppend(returned, call.frame, Returned(tokens, call.reported));
      SumUpdate(frames, Open(calls), c, 0 - call.reported, a);
      SumUpdate(frames, Unsettled(returned), call.frame, call.reported, a);
      Cancels(call.reported, Times(frames, call.frame, a));
    }
  }

  lemma UnsettledAppend(returned: seq<seq<Returned>>, f: nat, call: Returned)
    requires f < |returned|
    ensures Unsettled(returned[f := returned[f] + [call]])
      == Unsettled(returned)[f := Charge(f, Unsettled(returned)[f].amount + call.pending)]
  {
    UnrecordedAppend(returned[f], call);
  }

  lemma EndsCall(calls: seq<Call>, c: nat)
    requires Nested(calls) && c < |calls| && calls[c].active
    requires forall d :: 0 <= d < |calls| && calls[d].parent == Some(c) ==> !calls[d].active
    ensures var after := calls[c := calls[c].(active := false)];
      && Nested(after)
      && Open(after) == if calls[c].parent.None? && calls[c].reported > 0
           then Open(calls)[c := Charge(calls[c].frame, Open(calls)[c].amount + (0 - calls[c].reported))] else Open(calls)
  {
  }

  lemma Cancels(x: int, t: nat)
    ensures (0 - x) * t + x * t == 0
  {
  }

  /** The calls around c have reported d more, except what those around at have yet to. */
  ghost predicate ReportedTo(before: seq<Call>, after: seq<Call>, c: nat, at: Option<nat>, d: nat)
    requires Nested(before) && c < |before| && (at.Some? ==> at.value < |before|)
  {
    && |after| == |before| && AroundFrom(before, at) <= Around(before, c)
    && forall x :: 0 <= x < |before| ==>
      after[x] == if x in Around(before, c) - AroundFrom(before, at) then before[x].(reported := before[x].reported + d) else before[x]
  }

  ghost predicate Reported(before: seq<Call>, after: seq<Call>, c: nat, d: nat)
    requires Nested(before) && c < |before|
  {
    ReportedTo(before, after, c, None, d)
  }

  // ---- charging a chain ----

  /** From before to after, every account has gained what a charge of f adds, except what the frames from
      at outwards have yet to add; nothing else but errors differs. */
  ghost predicate MovedTo(frames: seq<Frame>, before: seq<RunBudget>, after: seq<RunBudget>, f: nat, at: Option<nat>, tokens: int, pending: int)
    requires Chained(frames) && f < |frames| && (at.Some? ==> at.value < |frames|) && |before| == |after|
  {
    && (forall a: Account {:trigger Pending(after, a)} {:trigger Tokens(after, a)} :: a.run < |before| ==>
         && Tokens(after, a) + tokens * TimesFrom(frames, at, a) == Tokens(before, a) + tokens * Times(frames, f, a)
         && Pending(after, a) + pending * TimesFrom(frames, at, a) == Pending(before, a) + pending * Times(frames, f, a))
    && forall r :: 0 <= r < |before| ==> after[r].calls == before[r].calls && after[r].limits == before[r].limits
  }

  ghost predicate Moved(frames: seq<Frame>, before: seq<RunBudget>, after: seq<RunBudget>, f: nat, tokens: int, pending: int)
    requires Chained(frames) && f < |frames|
  {
    |before| == |after| && MovedTo(frames, before, after, f, None, tokens, pending)
  }

  lemma MovedNone(frames: seq<Frame>, runs: seq<RunBudget>, f: nat, tokens: int, pending: int)
    requires Chained(frames) && f < |frames|
    ensures MovedTo(frames, runs, runs, f, Some(f), tokens, pending)
  {
    assert forall a :: TimesFrom(frames, Some(f), a) == Times(frames, f, a);
  }

  lemma MovedNext(frames: seq<Frame>, before: seq<RunBudget>, here: seq<RunBudget>, f: nat, at: nat, tokens: int, pending: int)
    requires Chained(frames) && f < |frames| && at < |frames| && frames[at].run < |here| == |before|
    requires MovedTo(frames, before, here, f, Some(at), tokens, pending)
    ensures MovedTo(frames, before, Charged(here, AccountOf(frames, at), tokens, pending), f, frames[at].parent, tokens, pending)
  {
    var a := AccountOf(frames, at);
    forall b: Account | b.run < |before| ensures
      var after := Charged(here, a, tokens, pending);
      && Tokens(after, b) + tokens * TimesFrom(frames, frames[at].parent, b) == Tokens(before, b) + tokens * Times(frames, f, b)
      && Pending(after, b) + pending * TimesFrom(frames, frames[at].parent, b) == Pending(before, b) + pending * Times(frames, f, b)
    {
      hide Charged, Tokens, Pending;
      ChargedMeans(here, a, tokens, pending, b);
      var t := TimesFrom(frames, frames[at].parent, b);
      assert Times(frames, at, b) == t + if a == b then 1 else 0;
      TimesOneMore(tokens, t);
      TimesOneMore(pending, t);
      assert Pending(here, b) + pending * Times(frames, at, b) == Pending(before, b) + pending * Times(frames, f, b);
    }
  }

  lemma TimesOneMore(x: int, t: nat)
    ensures x * (t + 1) == x * t + x
  {
  }

  lemma MovedKept(frames: seq<Frame>, before: seq<RunBudget>, here: seq<RunBudget>, after: seq<RunBudget>, f: nat, at: Option<nat>,
    tokens: int, pending: int)
    requires Chained(frames) && f < |frames| && (at.Some? ==> at.value < |frames|) && |here| == |before|
    requires MovedTo(frames, before, here, f, at, tokens, pending) && ErrsOnly(here, after)
    ensures MovedTo(frames, before, after, f, at, tokens, pending)
  {
    forall a: Account | a.run < |before| ensures Tokens(after, a) == Tokens(here, a) && Pending(after, a) == Pending(here, a)
    {
    }
  }

  lemma ErrsChain(before: seq<RunBudget>, here: seq<RunBudget>, charged: seq<RunBudget>, after: seq<RunBudget>,
    a: Account, tokens: int, pending: int)
    requires ErrsKept(before, here) && a.run < |here| && charged == Charged(here, a, tokens, pending) && ErrsKept(charged, after)
    ensures ErrsKept(before, after)
  {
  }

  // ---- failing limits ----

  predicate Failed(runs: seq<RunBudget>, a: Account)
    requires a.run < |runs|
  {
    if a.step == "" then runs[a.run].err.Some? else a.step in runs[a.run].stepErrs
  }

  /** From before to after, each account of the chain from f, up to the frames from at outwards, that is over its limit
      has failed; and no account has but for that. */
  ghost predicate Fails(frames: seq<Frame>, before: seq<RunBudget>, after: seq<RunBudget>, f: nat, at: Option<nat>)
    requires Chained(frames) && f < |frames| && (at.Some? ==> at.value < |frames|)
  {
    |after| == |before| && forall a: Account :: a.run < |before| ==> FailsAt(frames, before, after, f, at, a)
  }

  ghost predicate FailsAt(frames: seq<Frame>, before: seq<RunBudget>, after: seq<RunBudget>, f: nat, at: Option<nat>, a: Account)
    requires Chained(frames) && f < |frames| && (at.Some? ==> at.value < |frames|) && a.run < |before| == |after|
  {
    var passed := Times(frames, f, a) > TimesFrom(frames, at, a);
    && (passed && TimesFrom(frames, at, a) == 0 && !Within(after, a) ==> Failed(after, a))
    && (Failed(after, a) && !Failed(before, a) ==> passed && FailedBy(after, a))
  }

  /** What failed an account: the run's tokens, or tokens of the step, over the limit. */
  ghost predicate FailedBy(runs: seq<RunBudget>, a: Account)
    requires a.run < |runs|
  {
    if a.step == "" then !Within(runs, a) && runs[a.run].err == Some(OverTokens(a.run, Limit(runs, a), Spent(runs, a)))
    else a.step in runs[a.run].stepErrs && OverStepBy(runs[a.run].stepErrs[a.step], a, Limit(runs, a))
  }

  predicate OverStepBy(err: BudgetError, a: Account, limit: int) {
    err.OverStep? && err.run == a.run && err.step == a.step && err.limit == limit && err.spent > limit > 0
  }

  lemma FailsNone(frames: seq<Frame>, runs: seq<RunBudget>, f: nat)
    requires Chained(frames) && f < |frames|
    ensures Fails(frames, runs, runs, f, Some(f))
  {
    forall a: Account | a.run < |runs| ensures FailsAt(frames, runs, runs, f, Some(f), a) {
    }
  }

  /** Charging and checking one more frame. */
  lemma FailsNext(frames: seq<Frame>, before: seq<RunBudget>, here: seq<RunBudget>, after: seq<RunBudget>, f: nat, at: nat, tokens: int, pending: int,
    err: Option<BudgetError>)
    requires Chained(frames) && f < |frames| && at < |frames| && frames[at].run < |here| && Fails(frames, before, here, f, Some(at))
    requires Beneath(frames, f, Some(at))
    requires var charged, a := Charged(here, AccountOf(frames, at), tokens, pending), AccountOf(frames, at);
      if Within(charged, a) then after == charged
      else
        && err.Some? && after == Failing(charged, a, err.value)
        && (Failed(charged, a) ==> HasFailed(charged, a, err.value))
        && (!Failed(charged, a) ==> Overdrawn(frames, charged, at, false, err.value))
    ensures Fails(frames, before, after, f, frames[at].parent)
  {
    var a, charged := AccountOf(frames, at), Charged(here, AccountOf(frames, at), tokens, pending);
    forall b: Account | b.run < |before| ensures FailsAt(frames, before, after, f, frames[at].parent, b) {
      assert FailsAt(frames, before, here, f, Some(at), b);
      ChargedMeans(here, a, tokens, pending, b);
      hide Fails, FailsAt, Charged;
      assert charged[b.run].limits == here[b.run].limits;
      ChargedFailed(here, a, tokens, pending, b);
      if a == b {
        FailsHere(frames, before, here, charged, after, f, at, err);
      } else {
        FailsElse(frames, before, here, charged, after, f, at, b);
      }
    }
  }

  /** What the frames from at outwards count, those from f do. */
  ghost predicate Beneath(frames: seq<Frame>, f: nat, at: Option<nat>)
    requires Chained(frames) && f < |frames| && (at.Some? ==> at.value < |frames|)
  {
    forall a: Account :: Times(frames, f, a) >= TimesFrom(frames, at, a)
  }

  lemma BeneathSelf(frames: seq<Frame>, f: nat)
    requires Chained(frames) && f < |frames|
    ensures Beneath(frames, f, Some(f))
  {
  }

  lemma BeneathNext(frames: seq<Frame>, f: nat, at: nat)
    requires Chained(frames) && f < |frames| && at < |frames| && Beneath(frames, f, Some(at))
    ensures Beneath(frames, f, frames[at].parent)
  {
    forall a: Account ensures Times(frames, f, a) >= TimesFrom(frames, frames[at].parent, a) {
      assert Times(frames, f, a) >= TimesFrom(frames, Some(at), a);
    }
  }

  lemma ChargedFailed(runs: seq<RunBudget>, a: Account, tokens: int, pending: int, b: Account)
    requires a.run < |runs| && b.run < |runs|
    ensures SameErr(runs[b.run], Charged(runs, a, tokens, pending)[b.run])
  {
  }

  lemma FailsHere(frames: seq<Frame>, before: seq<RunBudget>, here: seq<RunBudget>, charged: seq<RunBudget>, after: seq<RunBudget>, f: nat, at: nat,
    err: Option<BudgetError>)
    requires Chained(frames) && f < |frames| && at < |frames| && frames[at].run < |here| == |charged| == |before|
    requires Times(frames, f, AccountOf(frames, at)) >= Times(frames, at, AccountOf(frames, at))
    requires FailsAt(frames, before, here, f, Some(at), AccountOf(frames, at)) && SameErr(here[frames[at].run], charged[frames[at].run])
    requires var a := AccountOf(frames, at);
      if Within(charged, a) then after == charged
      else
        && err.Some? && after == Failing(charged, a, err.value)
        && (Failed(charged, a) ==> HasFailed(charged, a, err.value))
        && (!Failed(charged, a) ==> Overdrawn(frames, charged, at, false, err.value))
    ensures |after| == |before| && FailsAt(frames, before, after, f, frames[at].parent, AccountOf(frames, at))
  {
    var a := AccountOf(frames, at);
    RunOnce(frames, f, a.run);
    hide Chained;
  }

  lemma FailsElse(frames: seq<Frame>, before: seq<RunBudget>, here: seq<RunBudget>, charged: seq<RunBudget>, after: seq<RunBudget>, f: nat, at: nat,
    b: Account)
    requires Chained(frames) && f < |frames| && at < |frames| && frames[at].run < |here| == |charged| == |before| && b.run < |before|
    requires FailsAt(frames, before, here, f, Some(at), b) && b != AccountOf(frames, at)
    requires SameErr(here[b.run], charged[b.run]) && Tokens(charged, b) == Tokens(here, b) && Pending(charged, b) == Pending(here, b)
    requires after == charged || exists err :: after == Failing(charged, AccountOf(frames, at), err)
    ensures |after| == |before| && FailsAt(frames, before, after, f, frames[at].parent, b)
  {
    hide Chained;
    assert Failed(after, b) == Failed(here, b);
    assert Tokens(after, b) == Tokens(here, b) && Pending(after, b) == Pending(here, b) && Limit(after, b) == Limit(here, b);
    assert FailedBy(here, b) ==> FailedBy(after, b);
  }

  /** After a charge of f each account around it that is over its limit, by what happened, has failed; and an account
      that has failed only now is one around f, whose error has what was spent of it over its limit. */
  ghost predicate LimitsFail(frames: seq<Frame>, before: seq<RunBudget>, after: seq<RunBudget>, l: Ledger, f: nat)
    requires Kept(frames, l) && f < |frames| && |after| == |before| && forall g :: 0 <= g < |frames| ==> frames[g].run < |after|
  {
    && (forall k :: 0 <= k < |Chain(frames, f)| && OverLimit(frames, after, l, Chain(frames, f)[k]) ==>
         Failed(after, AccountOf(frames, Chain(frames, f)[k])))
    && (forall a: Account :: a.run < |after| && Failed(after, a) && !Failed(before, a) ==> NewlyFailed(frames, after, l, f, a))
  }

  ghost predicate NewlyFailed(frames: seq<Frame>, after: seq<RunBudget>, l: Ledger, f: nat, a: Account)
    requires Kept(frames, l) && f < |frames| && a.run < |after|
  {
    var b := after[a.run];
    && (exists k :: 0 <= k < |Chain(frames, f)| && AccountOf(frames, Chain(frames, f)[k]) == a)
    && if a.step == "" then 0 < b.limits.tokens < Used(frames, l, a) && b.err == Some(OverTokens(a.run, b.limits.tokens, Used(frames, l, a)))
       else a.step in b.stepErrs && a.step in b.limits.perStep && OverStepBy(b.stepErrs[a.step], a, b.limits.perStep[a.step])
  }

  lemma FailsMean(frames: seq<Frame>, before: seq<RunBudget>, after: seq<RunBudget>, returned: seq<seq<Returned>>, calls: seq<Call>,
    recorded: seq<Charge>, admitted: seq<Charge>, f: nat)
    requires Shaped(frames, after, returned, calls) && Balanced(frames, after, returned, calls, recorded, admitted)
    requires f < |frames| && Fails(frames, before, after, f, None)
    ensures Kept(frames, Ledger(returned, calls, recorded, admitted))
    ensures |after| == |before| && LimitsFail(frames, before, after, Ledger(returned, calls, recorded, admitted), f)
  {
    hide Balanced, Fails, OverLimit, Failed, NewlyFailed, Kept;
    var chain, l := Chain(frames, f), Ledger(returned, calls, recorded, admitted);
    KeptHere(frames, after, returned, calls, recorded, admitted);
    FailsSized(frames, before, after, f);
    forall k | 0 <= k < |chain| && OverLimit(frames, after, l, chain[k]) ensures Failed(after, AccountOf(frames, chain[k])) {
      ChainFails(frames, before, after, returned, calls, recorded, admitted, f, k);
    }
    forall a: Account | a.run < |after| && Failed(after, a) && !Failed(before, a) ensures NewlyFailed(frames, after, l, f, a) {
      FailsNewly(frames, before, after, returned, calls, recorded, admitted, f, a);
    }
  }

  lemma AddLeaves(frames: seq<Frame>, was: seq<RunBudget>, runs: seq<RunBudget>, before: seq<seq<Returned>>, returned: seq<seq<Returned>>,
    calls: seq<Call>, recorded: seq<Charge>, admitted: seq<Charge>, f: nat, tokens: nat, settled: nat)
    requires Shaped(frames, was, before, calls) && Balanced(frames, was, before, calls, recorded, admitted) && Capped(was) && f < |frames|
    requires Moved(frames, was, runs, f, tokens, 0 - settled) && Fails(frames, was, runs, f, None)
    requires |returned| == |before| && returned == before[f := returned[f]] && Unrecorded(returned[f]) == Unrecorded(before[f]) - settled
    ensures Shaped(frames, runs, returned, calls) && Capped(runs)
    ensures Balanced(frames, runs, returned, calls, recorded + [Charge(f, tokens)], admitted)
    ensures Kept(frames, Ledger(returned, calls, recorded + [Charge(f, tokens)], admitted)) && |runs| == |was|
    ensures LimitsFail(frames, was, runs, Ledger(returned, calls, recorded + [Charge(f, tokens)], admitted), f)
  {
    hide Balanced, Fails, LimitsFail, Capped, Unrecorded, Kept, Nested, Chained;
    AddBalances(frames, was, runs, before, returned, calls, recorded, admitted, f, tokens, settled);
    FailsMean(frames, was, runs, returned, calls, recorded + [Charge(f, tokens)], admitted, f);
  }

  lemma FailsSized(frames: seq<Frame>, before: seq<RunBudget>, after: seq<RunBudget>, f: nat)
    requires Chained(frames) && f < |frames| && Fails(frames, before, after, f, None)
    ensures |after| == |before| && forall a: Account :: a.run < |before| ==> FailsAt(frames, before, after, f, None, a)
  {
  }

  lemma ChainFails(frames: seq<Frame>, before: seq<RunBudget>, after: seq<RunBudget>, returned: seq<seq<Returned>>, calls: seq<Call>,
    recorded: seq<Charge>, admitted: seq<Charge>, f: nat, k: nat)
    requires Shaped(frames, after, returned, calls) && Balanced(frames, after, returned, calls, recorded, admitted) && |after| == |before|
    requires f < |frames| && k < |Chain(frames, f)| && FailsAt(frames, before, after, f, None, AccountOf(frames, Chain(frames, f)[k]))
    ensures Kept(frames, Ledger(returned, calls, recorded, admitted))
    ensures OverLimit(frames, after, Ledger(returned, calls, recorded, admitted), Chain(frames, f)[k]) ==>
      Failed(after, AccountOf(frames, Chain(frames, f)[k]))
  {
    hide Balanced, OverLimit, Within, Failed, Kept;
    FrameMeans(frames, after, returned, calls, recorded, admitted, Chain(frames, f)[k], {});
    ChainTimes(frames, f, k);
  }

  lemma FailsNewly(frames: seq<Frame>, before: seq<RunBudget>, after: seq<RunBudget>, returned: seq<seq<Returned>>, calls: seq<Call>,
    recorded: seq<Charge>, admitted: seq<Charge>, f: nat, a: Account)
    requires Shaped(frames, after, returned, calls) && Balanced(frames, after, returned, calls, recorded, admitted) && |after| == |before|
    requires f < |frames| && a.run < |after| && FailsAt(frames, before, after, f, None, a) && Failed(after, a) && !Failed(before, a)
    ensures Kept(frames, Ledger(returned, calls, recorded, admitted))
    ensures NewlyFailed(frames, after, Ledger(returned, calls, recorded, admitted), f, a)
  {
    hide Balanced, Tokens, Pending, Sum, Chained;
    KeptHere(frames, after, returned, calls, recorded, admitted);
    BalancedAt(frames, after, returned, calls, recorded, admitted, a);
    TimesInChain(frames, f, a);
  }

  // ---- refusing ----

  /** Errors only refuse more. */
  lemma {:induction false} AdmitsFewer(frames: seq<Frame>, runs: seq<RunBudget>, more: seq<RunBudget>, f: nat, late: set<nat>)
    requires Chained(frames) && f < |frames| && forall g :: 0 <= g < |frames| ==> frames[g].run < |runs|
    requires ErrsOnly(runs, more)
    ensures AllAdmit(frames, more, f, late) ==> AllAdmit(frames, runs, f, late)
    decreases f
  {
    if frames[f].parent.Some? {
      AdmitsFewer(frames, runs, more, frames[f].parent.value, late);
    }
  }

  lemma StopRefuses(frames: seq<Frame>, runs: seq<RunBudget>, after: seq<RunBudget>, returned: seq<seq<Returned>>, calls: seq<Call>,
    recorded: seq<Charge>, admitted: seq<Charge>, f: nat, late: set<nat>, counting: bool, err: BudgetError)
    requires Shaped(frames, runs, returned, calls) && f < |frames| && ErrsOnly(runs, after)
    requires exists k: nat :: StoppedBy(frames, runs, f, late, k, err) && after == Failing(runs, AccountOf(frames, Chain(frames, f)[k]), err)
    ensures !AllAdmit(frames, runs, f, late)
    ensures Balanced(frames, runs, returned, calls, recorded, admitted) ==>
      Answers(frames, runs, Ledger(returned, calls, recorded, admitted), f, late, counting, Some(err), after)
  {
    var l := Ledger(returned, calls, recorded, admitted);
    var k: nat :| StoppedBy(frames, runs, f, late, k, err) && after == Failing(runs, AccountOf(frames, Chain(frames, f)[k]), err);
    StoppedAdmits(frames, runs, f, late, k, err);
    hide Balanced, AllAdmit, ErrsOnly, Failing, NoneOver, OverBy, StoppedBy;
    if Balanced(frames, runs, returned, calls, recorded, admitted) {
      KeptHere(frames, runs, returned, calls, recorded, admitted);
      assert RefusedBy(frames, runs, l, f, late, counting, k, err);
    }
  }

  lemma KeptHere(frames: seq<Frame>, runs: seq<RunBudget>, returned: seq<seq<Returned>>, calls: seq<Call>, recorded: seq<Charge>, admitted: seq<Charge>)
    requires Shaped(frames, runs, returned, calls) && Balanced(frames, runs, returned, calls, recorded, admitted)
    ensures Kept(frames, Ledger(returned, calls, recorded, admitted))
  {
  }

  lemma StoppedAdmits(frames: seq<Frame>, runs: seq<RunBudget>, f: nat, late: set<nat>, k: nat, err: BudgetError)
    requires Chained(frames) && f < |frames| && forall g :: 0 <= g < |frames| ==> frames[g].run < |runs|
    requires StoppedBy(frames, runs, f, late, k, err)
    ensures !AllAdmit(frames, runs, f, late) && k < |Chain(frames, f)| && !NoneStopped(frames, runs, f, |Chain(frames, f)|, late)
  {
    AllAdmitMeans(frames, runs, f, late);
    assert !Admits(frames, runs, Chain(frames, f)[k], late);
    assert Stopped(frames, runs, Chain(frames, f)[k], late);
    hide AllAdmit, Within;
  }

  /** What the account of frame g has against it. */
  predicate Overdrawn(frames: seq<Frame>, runs: seq<RunBudget>, g: nat, counting: bool, err: BudgetError)
    requires g < |frames| && frames[g].run < |runs|
  {
    var a := AccountOf(frames, g);
    if !Within(runs, a) then
      err == if a.step == "" then OverTokens(a.run, Limit(runs, a), Spent(runs, a)) else OverStep(a.run, a.step, Limit(runs, a), Spent(runs, a))
    else counting && !HasCall(frames, runs, g) && err == OverCalls(a.run, runs[a.run].limits.calls)
  }

  lemma LimitRefuses(frames: seq<Frame>, runs: seq<RunBudget>, after: seq<RunBudget>, returned: seq<seq<Returned>>, calls: seq<Call>,
    recorded: seq<Charge>, admitted: seq<Charge>, f: nat, late: set<nat>, counting: bool, k: nat, err: BudgetError)
    requires Shaped(frames, runs, returned, calls) && f < |frames| && k < |Chain(frames, f)|
    requires NoneStopped(frames, runs, f, |Chain(frames, f)|, late) && FirstAdmit(frames, runs, f, k, late, counting)
    requires Overdrawn(frames, runs, Chain(frames, f)[k], counting, err)
    requires after == Failing(runs, AccountOf(frames, Chain(frames, f)[k]), err)
    ensures counting ==> !AllAdmit(frames, runs, f, late)
    ensures Balanced(frames, runs, returned, calls, recorded, admitted) ==>
      Answers(frames, runs, Ledger(returned, calls, recorded, admitted), f, late, counting, Some(err), after)
  {
    hide AllAdmit, ErrsOnly, Failing, HasLeft, NoneStopped, FirstAdmit, Overdrawn;
    NotAdmitted(frames, runs, f, late, k, err);
    if Balanced(frames, runs, returned, calls, recorded, admitted) {
      LimitAnswers(frames, runs, after, returned, calls, recorded, admitted, f, late, counting, k, err);
    }
  }

  lemma LimitAnswers(frames: seq<Frame>, runs: seq<RunBudget>, after: seq<RunBudget>, returned: seq<seq<Returned>>, calls: seq<Call>,
    recorded: seq<Charge>, admitted: seq<Charge>, f: nat, late: set<nat>, counting: bool, k: nat, err: BudgetError)
    requires Shaped(frames, runs, returned, calls) && Balanced(frames, runs, returned, calls, recorded, admitted)
    requires f < |frames| && k < |Chain(frames, f)|
    requires NoneStopped(frames, runs, f, |Chain(frames, f)|, late) && FirstAdmit(frames, runs, f, k, late, counting)
    requires Overdrawn(frames, runs, Chain(frames, f)[k], counting, err)
    requires after == Failing(runs, AccountOf(frames, Chain(frames, f)[k]), err)
    ensures Answers(frames, runs, Ledger(returned, calls, recorded, admitted), f, late, counting, Some(err), after)
  {
    var l := Ledger(returned, calls, recorded, admitted);
    hide Balanced, Failing, Overdrawn, OverLimit, CalledOut, Exceeded, FirstAdmit, NoneOver, NoneStopped;
    LimitMeans(frames, runs, returned, calls, recorded, admitted, Chain(frames, f)[k], late, counting, err);
    FirstMeans(frames, runs, returned, calls, recorded, admitted, f, k, late, counting);
    NotAllOver(frames, runs, l, f, k, counting);
    assert OverBy(frames, runs, l, f, late, counting, k, err);
    assert RefusedBy(frames, runs, l, f, late, counting, k, err);
  }

  lemma NotAllOver(frames: seq<Frame>, runs: seq<RunBudget>, l: Ledger, f: nat, k: nat, counting: bool)
    requires Kept(frames, l) && f < |frames| && k < |Chain(frames, f)| && forall g :: 0 <= g < |frames| ==> frames[g].run < |runs|
    requires var g := Chain(frames, f)[k]; OverLimit(frames, runs, l, g) || (counting && CalledOut(frames, runs, l, g))
    ensures !NoneOver(frames, runs, l, f, |Chain(frames, f)|, counting)
  {
    hide OverLimit, CalledOut, Kept;
  }

  lemma FirstMeans(frames: seq<Frame>, runs: seq<RunBudget>, returned: seq<seq<Returned>>, calls: seq<Call>, recorded: seq<Charge>,
    admitted: seq<Charge>, f: nat, k: nat, late: set<nat>, counting: bool)
    requires Shaped(frames, runs, returned, calls) && Balanced(frames, runs, returned, calls, recorded, admitted)
    requires f < |frames| && k <= |Chain(frames, f)| && FirstAdmit(frames, runs, f, k, late, counting)
    ensures Kept(frames, Ledger(returned, calls, recorded, admitted))
    ensures NoneOver(frames, runs, Ledger(returned, calls, recorded, admitted), f, k, counting)
  {
    var chain, l := Chain(frames, f), Ledger(returned, calls, recorded, admitted);
    KeptHere(frames, runs, returned, calls, recorded, admitted);
    hide Balanced, OverLimit, CalledOut, HasLeft, Kept;
    forall j | 0 <= j < k ensures !OverLimit(frames, runs, l, chain[j]) && !(counting && CalledOut(frames, runs, l, chain[j])) {
      HasLeftMeans(frames, runs, returned, calls, recorded, admitted, chain[j], late, counting);
    }
  }

  lemma NoneAdmits(frames: seq<Frame>, runs: seq<RunBudget>, f: nat, late: set<nat>, counting: bool)
    requires Chained(frames) && f < |frames| && forall g :: 0 <= g < |frames| ==> frames[g].run < |runs|
    ensures FirstAdmit(frames, runs, f, 0, late, counting)
  {
  }

  lemma NextAdmits(frames: seq<Frame>, runs: seq<RunBudget>, f: nat, k: nat, late: set<nat>, counting: bool)
    requires Chained(frames) && f < |frames| && k < |Chain(frames, f)| && forall g :: 0 <= g < |frames| ==> frames[g].run < |runs|
    requires FirstAdmit(frames, runs, f, k, late, counting) && HasLeft(frames, runs, Chain(frames, f)[k], counting)
    ensures FirstAdmit(frames, runs, f, k + 1, late, counting)
  {
  }

  lemma StopHere(frames: seq<Frame>, runs: seq<RunBudget>, f: nat, k: nat, late: set<nat>)
    requires Chained(frames) && f < |frames| && k < |Chain(frames, f)| && forall g :: 0 <= g < |frames| ==> frames[g].run < |runs|
    requires NoneStopped(frames, runs, f, k, late)
    ensures var g := Chain(frames, f)[k];
      if Stopped(frames, runs, g, late)
      then StoppedBy(frames, runs, f, late, k, Stopping(frames, runs, g)) && !NoneStopped(frames, runs, f, |Chain(frames, f)|, late)
      else NoneStopped(frames, runs, f, k + 1, late)
  {
    hide Stopping;
  }

  lemma Unstopped(frames: seq<Frame>, runs: seq<RunBudget>, f: nat, k: nat, late: set<nat>)
    requires Chained(frames) && f < |frames| && k < |Chain(frames, f)| && forall g :: 0 <= g < |frames| ==> frames[g].run < |runs|
    requires NoneStopped(frames, runs, f, |Chain(frames, f)|, late)
    ensures !Failed(runs, AccountOf(frames, Chain(frames, f)[k]))
  {
    assert !Stopped(frames, runs, Chain(frames, f)[k], late);
  }

  /** Accounts have the same errors and limits. */
  ghost predicate SameErrs(runs: seq<RunBudget>, more: seq<RunBudget>) {
    |more| == |runs| && forall r :: 0 <= r < |runs| ==> SameErr(runs[r], more[r])
  }

  predicate SameErr(x: RunBudget, y: RunBudget) {
    x.err == y.err && x.stepErrs == y.stepErrs && x.limits == y.limits
  }

  /** A frame from f outwards refuses with err, and its account has failed with it. */
  ghost predicate RefusedAfter(frames: seq<Frame>, runs: seq<RunBudget>, l: Ledger, f: nat, late: set<nat>, err: BudgetError, after: seq<RunBudget>)
    requires Kept(frames, l) && f < |frames| && |after| == |runs| && forall g :: 0 <= g < |frames| ==> frames[g].run < |runs|
  {
    exists k: nat :: RefusedBy(frames, runs, l, f, late, true, k, err) && HasFailed(after, AccountOf(frames, Chain(frames, f)[k]), err)
  }

  predicate HasFailed(runs: seq<RunBudget>, a: Account, err: BudgetError)
    requires a.run < |runs|
  {
    if a.step == "" then runs[a.run].err == Some(err) else a.step in runs[a.run].stepErrs && runs[a.run].stepErrs[a.step] == err
  }

  lemma KeptSo(frames: seq<Frame>, runs: seq<RunBudget>, charged: seq<RunBudget>, after: seq<RunBudget>, returned: seq<seq<Returned>>,
    calls: seq<Call>, recorded: seq<Charge>, admitted: seq<Charge>)
    requires Shaped(frames, charged, returned, calls) && Balanced(frames, charged, returned, calls, recorded, admitted)
    requires ErrsKept(runs, charged) && ErrsOnly(charged, after)
    ensures Kept(frames, Ledger(returned, calls, recorded, admitted)) && ErrsKept(runs, after) && |after| == |charged|
  {
  }

  lemma RefusesAlike(frames: seq<Frame>, runs: seq<RunBudget>, charged: seq<RunBudget>, l: Ledger, f: nat, late: set<nat>,
    err: Option<BudgetError>, after: seq<RunBudget>)
    requires Kept(frames, l) && f < |frames| && forall g :: 0 <= g < |frames| ==> frames[g].run < |runs|
    requires SameErrs(runs, charged) && Answers(frames, charged, l, f, late, true, err, after)
    ensures err.None? <==> Allowed(frames, runs, l, f, late, true)
    ensures err.Some? ==> |after| == |runs| && RefusedAfter(frames, runs, l, f, late, err.value, after)
  {
    hide FrameAlike, Used, Allowed, NoneStopped, NoneOver, Stopped, OverLimit, CalledOut, Exceeded, Stopping, SameErr;
    var chain := Chain(frames, f);
    forall k | 0 <= k < |chain| ensures FrameAlike(frames, runs, charged, l, chain[k], late) {
      FramesAlike(frames, runs, charged, l, chain[k], late);
    }
    assert |charged| == |runs| by {
      AlikeSize(runs, charged);
    }
    if err.Some? {
      var k: nat :| RefusedBy(frames, charged, l, f, late, true, k, err.value)
        && after == Failing(charged, AccountOf(frames, Chain(frames, f)[k]), err.value);
      RefusedAlike(frames, runs, charged, l, f, late, k, err.value);
      assert HasFailed(after, AccountOf(frames, chain[k]), err.value);
    }
    AllowedAlike(frames, runs, charged, l, f, late);
  }

  lemma AlikeSize(runs: seq<RunBudget>, charged: seq<RunBudget>)
    requires SameErrs(runs, charged)
    ensures |charged| == |runs|
  {
  }

  lemma FramesAlike(frames: seq<Frame>, runs: seq<RunBudget>, charged: seq<RunBudget>, l: Ledger, g: nat, late: set<nat>)
    requires Kept(frames, l) && g < |frames| && frames[g].run < |runs| && SameErrs(runs, charged)
    ensures |charged| == |runs| && FrameAlike(frames, runs, charged, l, g, late)
  {
    hide Used, Sum, Kept;
    assert SameErr(runs[frames[g].run], charged[frames[g].run]);
  }

  ghost predicate FrameAlike(frames: seq<Frame>, runs: seq<RunBudget>, charged: seq<RunBudget>, l: Ledger, g: nat, late: set<nat>)
    requires Kept(frames, l) && g < |frames| && frames[g].run < |runs| && |charged| == |runs|
  {
    && Stopped(frames, charged, g, late) == Stopped(frames, runs, g, late) && Stopping(frames, charged, g) == Stopping(frames, runs, g)
    && OverLimit(frames, charged, l, g) == OverLimit(frames, runs, l, g) && CalledOut(frames, charged, l, g) == CalledOut(frames, runs, l, g)
    && Exceeded(frames, charged, l, g) == Exceeded(frames, runs, l, g)
  }

  lemma AllowedAlike(frames: seq<Frame>, runs: seq<RunBudget>, charged: seq<RunBudget>, l: Ledger, f: nat, late: set<nat>)
    requires Kept(frames, l) && f < |frames| && |charged| == |runs| && forall g :: 0 <= g < |frames| ==> frames[g].run < |runs|
    requires forall k :: 0 <= k < |Chain(frames, f)| ==> FrameAlike(frames, runs, charged, l, Chain(frames, f)[k], late)
    ensures Allowed(frames, runs, l, f, late, true) <==> Allowed(frames, charged, l, f, late, true)
  {
    hide Stopped, Stopping, OverLimit, CalledOut, Exceeded, Kept, Used;
  }

  lemma RefusedAlike(frames: seq<Frame>, runs: seq<RunBudget>, charged: seq<RunBudget>, l: Ledger, f: nat, late: set<nat>, k: nat, err: BudgetError)
    requires Kept(frames, l) && f < |frames| && |charged| == |runs| && forall g :: 0 <= g < |frames| ==> frames[g].run < |runs|
    requires forall k :: 0 <= k < |Chain(frames, f)| ==> FrameAlike(frames, runs, charged, l, Chain(frames, f)[k], late)
    requires RefusedBy(frames, charged, l, f, late, true, k, err)
    ensures RefusedBy(frames, runs, l, f, late, true, k, err)
  {
    hide Stopped, Stopping, OverLimit, CalledOut, Exceeded, Kept, Used;
  }

  lemma NotAdmitted(frames: seq<Frame>, runs: seq<RunBudget>, f: nat, late: set<nat>, k: nat, err: BudgetError)
    requires Chained(frames) && f < |frames| && k < |Chain(frames, f)| && forall g :: 0 <= g < |frames| ==> frames[g].run < |runs|
    ensures Overdrawn(frames, runs, Chain(frames, f)[k], true, err) ==> !AllAdmit(frames, runs, f, late)
  {
    AllAdmitMeans(frames, runs, f, late);
    assert Overdrawn(frames, runs, Chain(frames, f)[k], true, err) ==> !Admits(frames, runs, Chain(frames, f)[k], late);
    hide AllAdmit;
  }

  lemma HasLeftMeans(frames: seq<Frame>, runs: seq<RunBudget>, returned: seq<seq<Returned>>, calls: seq<Call>, recorded: seq<Charge>,
    admitted: seq<Charge>, g: nat, late: set<nat>, counting: bool)
    requires Shaped(frames, runs, returned, calls) && Balanced(frames, runs, returned, calls, recorded, admitted) && g < |frames|
    ensures Kept(frames, Ledger(returned, calls, recorded, admitted))
    ensures var l := Ledger(returned, calls, recorded, admitted);
      HasLeft(frames, runs, g, counting) <==> !OverLimit(frames, runs, l, g) && !(counting && CalledOut(frames, runs, l, g))
  {
    FrameMeans(frames, runs, returned, calls, recorded, admitted, g, late);
    hide Within, OverLimit, Used, Sum;
  }

  lemma LimitMeans(frames: seq<Frame>, runs: seq<RunBudget>, returned: seq<seq<Returned>>, calls: seq<Call>, recorded: seq<Charge>,
    admitted: seq<Charge>, g: nat, late: set<nat>, counting: bool, err: BudgetError)
    requires Shaped(frames, runs, returned, calls) && Balanced(frames, runs, returned, calls, recorded, admitted) && g < |frames|
    requires Overdrawn(frames, runs, g, counting, err)
    ensures var l := Ledger(returned, calls, recorded, admitted);
      (OverLimit(frames, runs, l, g) || (counting && CalledOut(frames, runs, l, g))) && err == Exceeded(frames, runs, l, g)
  {
    FrameMeans(frames, runs, returned, calls, recorded, admitted, g, late);
    HasLeftMeans(frames, runs, returned, calls, recorded, admitted, g, late, counting);
    hide Within, OverLimit, Used, Sum;
  }

  lemma NoneRefuses(frames: seq<Frame>, runs: seq<RunBudget>, returned: seq<seq<Returned>>, calls: seq<Call>,
    recorded: seq<Charge>, admitted: seq<Charge>, f: nat, late: set<nat>, counting: bool)
    requires Shaped(frames, runs, returned, calls) && f < |frames|
    requires NoneStopped(frames, runs, f, |Chain(frames, f)|, late) && FirstAdmit(frames, runs, f, |Chain(frames, f)|, late, counting)
    ensures counting ==> AllAdmit(frames, runs, f, late)
    ensures Balanced(frames, runs, returned, calls, recorded, admitted) ==>
      Answers(frames, runs, Ledger(returned, calls, recorded, admitted), f, late, counting, None, runs)
  {
    var chain, l := Chain(frames, f), Ledger(returned, calls, recorded, admitted);
    if counting {
      forall k | 0 <= k < |chain| ensures Admits(frames, runs, chain[k], late) {
        assert HasLeft(frames, runs, chain[k], counting) && !Stopped(frames, runs, chain[k], late);
      }
      AllAdmitMeans(frames, runs, f, late);
    }
    hide AllAdmit, Balanced, OverLimit, CalledOut, Within, HasCall, HasLeft, NoneStopped, NoneOver;
    if Balanced(frames, runs, returned, calls, recorded, admitted) {
      FirstMeans(frames, runs, returned, calls, recorded, admitted, f, |chain|, late, counting);
    }
  }

  // ---- what conservation and admission mean ----

  /** Nothing is pending anywhere exactly when no outermost call in progress has reported anything and
      every returned call has been recorded, or had nothing pending. Then what each account has spent is
      what was recorded under it, though returned calls with equal totals may have settled each other. */
  lemma PendingSettles(frames: seq<Frame>, runs: seq<RunBudget>, returned: seq<seq<Returned>>, calls: seq<Call>,
    recorded: seq<Charge>, admitted: seq<Charge>)
    requires Shaped(frames, runs, returned, calls) && Balanced(frames, runs, returned, calls, recorded, admitted)
    ensures (forall a: Account :: a.run < |runs| ==> Pending(runs, a) == 0) <==>
      ((forall c :: 0 <= c < |calls| && calls[c].active && calls[c].parent.None? ==> calls[c].reported == 0)
        && (forall f :: 0 <= f < |returned| ==> Unrecorded(returned[f]) == 0))
    ensures forall a: Account :: a.run < |runs| ==>
      Pending(runs, a) >= 0 && Spent(runs, a) == Used(frames, Ledger(returned, calls, recorded, admitted), a)
  {
    hide Sum, Chained;
    forall a: Account | a.run < |runs| ensures
      Sum(frames, Open(calls), a) >= 0 && Sum(frames, Unsettled(returned), a) >= 0
    {
      SumNonNegative(frames, Open(calls), a);
      SumNonNegative(frames, Unsettled(returned), a);
    }
    if forall a: Account :: a.run < |runs| ==> Pending(runs, a) == 0 {
      forall c | 0 <= c < |calls| && calls[c].active && calls[c].parent.None? ensures calls[c].reported == 0 {
        var a := AccountOf(frames, calls[c].frame);
        assert Pending(runs, a) == 0;
        assert Open(calls)[c] == Charge(calls[c].frame, calls[c].reported);
        SumPositive(frames, Open(calls), c);
      }
      forall f | 0 <= f < |returned| ensures Unrecorded(returned[f]) == 0 {
        assert Pending(runs, AccountOf(frames, f)) == 0;
        SumPositive(frames, Unsettled(returned), f);
      }
    }
    if (forall c :: 0 <= c < |calls| && calls[c].active && calls[c].parent.None? ==> calls[c].reported == 0)
      && (forall f :: 0 <= f < |returned| ==> Unrecorded(returned[f]) == 0)
    {
      forall a: Account | a.run < |runs| ensures Pending(runs, a) == 0 {
        SumZero(frames, Open(calls), a);
        SumZero(frames, Unsettled(returned), a);
      }
    }
  }

  lemma {:induction false} UnrecordedNone(list: seq<Returned>)
    requires forall i :: 0 <= i < |list| ==> list[i].pending > 0
    ensures Unrecorded(list) == 0 <==> list == []
  {
    if list != [] {
      UnrecordedNone(list[..|list| - 1]);
    }
  }

  /** What happened to each frame never returned more calls than it recorded, of any token total and from any
      moment on. */
  ghost predicate NoneOwed(events: seq<seq<Event>>) {
    forall f: nat, k: nat, t: nat :: f < |events| && k <= |events[f]| ==> Excess(events[f], k, t) <= 0
  }

  /** No outermost call in progress has reported anything. */
  predicate NoneReported(calls: seq<Call>) {
    forall c :: 0 <= c < |calls| && calls[c].active && calls[c].parent.None? ==> calls[c].reported == 0
  }

  /** Nothing is pending in any account of the meters exactly when no outermost call in progress has reported
      anything and, of every frame, no more calls have returned than were recorded, from any moment on. */
  lemma NothingPending(m: Meters)
    requires m.Valid()
    ensures (forall a: Account :: a.run < |m.runs| ==> Pending(m.runs, a) == 0) <==> NoneReported(m.calls) && NoneOwed(m.events)
  {
    PendingSettles(m.frames, m.runs, m.returned, m.calls, m.recorded, m.admitted);
    forall f: nat | f < |m.events|
      ensures Unrecorded(m.returned[f]) == 0 <==> forall k: nat, t: nat :: k <= |m.events[f]| ==> Excess(m.events[f], k, t) <= 0
    {
      OutstandingOwes(m.events[f]);
      UnrecordedNone(m.returned[f]);
      NothingLeft(m.events[f]);
    }
    hide Balanced, Excess, Outstanding, Unrecorded, Pending;
  }

  /** Once every returned call of every frame has been recorded, and no outermost call in progress has reported
      anything, nothing is pending in any account, though records settle calls of equal totals in each other's
      place. */
  lemma RecordedPendsNothing(m: Meters, records: seq<seq<nat>>)
    requires m.Valid() && NoneReported(m.calls)
    requires |records| == |m.events| && forall f :: 0 <= f < |records| ==> EachRecorded(m.events[f], records[f])
    ensures forall a: Account :: a.run < |m.runs| ==> Pending(m.runs, a) == 0
  {
    forall f: nat, k: nat, t: nat | f < |m.events| && k <= |m.events[f]| ensures Excess(m.events[f], k, t) <= 0 {
      RecordedLeavesNothing(m.events[f], records[f]);
      NothingLeft(m.events[f]);
    }
    NothingPending(m);
  }

  /** Each frame of the chain admits a call. */
  predicate EachAdmits(frames: seq<Frame>, runs: seq<RunBudget>, chain: seq<nat>, late: set<nat>)
    requires forall g :: 0 <= g < |frames| ==> frames[g].run < |runs|
  {
    forall k :: 0 <= k < |chain| ==> chain[k] < |frames| && Admits(frames, runs, chain[k], late)
  }

  /** The frames from f outwards all admit a call exactly when each of them does. */
  lemma {:induction false} AllAdmitMeans(frames: seq<Frame>, runs: seq<RunBudget>, f: nat, late: set<nat>)
    requires Chained(frames) && f < |frames| && forall g :: 0 <= g < |frames| ==> frames[g].run < |runs|
    ensures AllAdmit(frames, runs, f, late) <==> EachAdmits(frames, runs, Chain(frames, f), late)
    decreases f
  {
    hide Admits;
    match frames[f].parent
    case None =>
      EachSplits(frames, runs, f, [], late);
    case Some(p) =>
      AllAdmitMeans(frames, runs, p, late);
      EachSplits(frames, runs, f, Chain(frames, p), late);
  }

  lemma EachSplits(frames: seq<Frame>, runs: seq<RunBudget>, f: nat, rest: seq<nat>, late: set<nat>)
    requires f < |frames| && forall g :: 0 <= g < |frames| ==> frames[g].run < |runs|
    ensures EachAdmits(frames, runs, [f] + rest, late) <==> Admits(frames, runs, f, late) && EachAdmits(frames, runs, rest, late)
  {
    hide Admits;
    var chain := [f] + rest;
    assert chain[0] == f;
    assert forall k :: 0 <= k < |rest| ==> rest[k] == chain[k + 1];
  }

  /** How many of the calls admitted were admitted under run r. */
  function Admissions(frames: seq<Frame>, admitted: seq<Charge>, r: nat): nat
    requires Chained(frames) && ChargesOf(frames, admitted)
  {
    if admitted == [] then 0
    else
      Admissions(frames, admitted[..|admitted| - 1], r)
        + if Times(frames, admitted[|admitted| - 1].frame, Account(r, "")) > 0 then 1 else 0
  }

  /** A run has made the calls admitted under it, its own and nested runs', and no more than it allows. */
  lemma CallsAreAdmissions(frames: seq<Frame>, runs: seq<RunBudget>, returned: seq<seq<Returned>>, calls: seq<Call>,
    recorded: seq<Charge>, admitted: seq<Charge>, r: nat)
    requires Shaped(frames, runs, returned, calls) && Balanced(frames, runs, returned, calls, recorded, admitted) && Capped(runs)
    requires r < |runs|
    ensures runs[r].calls == Admissions(frames, admitted, r)
    ensures runs[r].limits.calls > 0 ==> Admissions(frames, admitted, r) <= runs[r].limits.calls
  {
    AdmissionsSum(frames, admitted, r);
  }

  lemma {:induction false} AdmissionsSum(frames: seq<Frame>, admitted: seq<Charge>, r: nat)
    requires Chained(frames) && ChargesOf(frames, admitted) && forall i :: 0 <= i < |admitted| ==> admitted[i].amount == 1
    ensures Sum(frames, admitted, Account(r, "")) == Admissions(frames, admitted, r)
    decreases |admitted|
  {
    if admitted != [] {
      AdmissionsSum(frames, admitted[..|admitted| - 1], r);
      RunOnce(frames, admitted[|admitted| - 1].frame, r);
    }
  }
}

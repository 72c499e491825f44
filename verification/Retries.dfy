/** A call of a retrying model: its attempts, its waits and what it costs the budgets around it. */
module Retries {
  import opened Basics
  import opened UsageFrames
  import opened Settlements
  import opened Budgets

  datatype Ending = Succeeds | FailsTransient | FailsOtherwise

  /** What an attempt of the wrapped model comes to. */
  datatype Attempt = Attempt(usage: Usage, ending: Ending)

  /** Why a call returned: its last attempt, its context or the budget. */
  datatype Outcome = Ends(ending: Ending) | ContextEnded | Refused(err: BudgetError)

  /** The summed usage of the attempts from the first to the n-th. */
  function Summed(attempt: nat -> Attempt, n: nat): Usage {
    if n == 0 then Usage(0, 0, 0) else Summed(attempt, n - 1).Add(attempt(n).usage)
  }

  /** A field of the attempts' usage, summed from the first to the n-th. */
  ghost function Total(attempt: nat -> Attempt, n: nat, field: Usage -> nat): nat {
    if n == 0 then 0 else Total(attempt, n - 1, field) + field(attempt(n).usage)
  }

  /** The summed usage has each field summed. Its tokens are the totals the attempts reported, if one did, and their
      prompt and completion tokens when none did. */
  lemma {:induction false} SummedMeans(attempt: nat -> Attempt, n: nat)
    ensures var u := Summed(attempt, n);
      && u.prompt == Total(attempt, n, (v: Usage) => v.prompt) && u.completion == Total(attempt, n, (v: Usage) => v.completion)
      && u.total == Total(attempt, n, (v: Usage) => v.total)
    ensures UsageTokens(Summed(attempt, n)) ==
      if exists k :: 1 <= k <= n && attempt(k).usage.total > 0 then Total(attempt, n, (v: Usage) => v.total)
      else Total(attempt, n, (v: Usage) => v.prompt) + Total(attempt, n, (v: Usage) => v.completion)
  {
    if n > 0 {
      SummedMeans(attempt, n - 1);
    }
    TotalZero(attempt, n);
  }

  lemma {:induction false} TotalZero(attempt: nat -> Attempt, n: nat)
    ensures Total(attempt, n, (v: Usage) => v.total) > 0 <==> exists k :: 1 <= k <= n && attempt(k).usage.total > 0
  {
    if n > 0 {
      TotalZero(attempt, n - 1);
      if attempt(n).usage.total > 0 {
        assert 1 <= n <= n && attempt(n).usage.total > 0;
      }
    }
  }

  /** The most tokens the usage summed so far came to, after any of the first n attempts. */
  function Highest(attempt: nat -> Attempt, n: nat): nat {
    if n == 0 then 0 else Max(UsageTokens(Summed(attempt, n)), Highest(attempt, n - 1))
  }

  /** n admissions of calls under f. */
  function Admissions(f: nat, n: nat): (charges: seq<Charge>)
    ensures |charges| == n && forall k :: 0 <= k < n ==> charges[k] == Charge(f, 1)
  {
    seq(n, k => Charge(f, 1))
  }

  /** What a charge of pending tokens to f changes: nothing but those, in every account around f. */
  ghost predicate PendingMoved(frames: seq<Frame>, before: seq<RunBudget>, after: seq<RunBudget>, f: nat, d: int)
    requires Chained(frames) && f < |frames|
  {
    |before| == |after| && forall a: Account {:trigger Pending(after, a)} {:trigger Tokens(after, a)} :: a.run < |before| ==>
      && Pending(after, a) == Pending(before, a) + d * Times(frames, f, a)
      && Tokens(after, a) == Tokens(before, a)
  }

  lemma MovedPending(frames: seq<Frame>, was: seq<RunBudget>, before: seq<RunBudget>, after: seq<RunBudget>, f: nat, d: int, e: int)
    requires Chained(frames) && f < |frames| && PendingMoved(frames, was, before, f, d) && Moved(frames, before, after, f, 0, e)
    ensures PendingMoved(frames, was, after, f, d + e)
  {
    forall a: Account | a.run < |was| ensures
      Pending(after, a) == Pending(was, a) + (d + e) * Times(frames, f, a) && Tokens(after, a) == Tokens(was, a)
    {
      Distributes(d, e, Times(frames, f, a));
      assert TimesFrom(frames, None, a) == 0;
      assert Pending(before, a) == Pending(was, a) + d * Times(frames, f, a);
    }
  }

  lemma ReservedPending(frames: seq<Frame>, was: seq<RunBudget>, before: seq<RunBudget>, after: seq<RunBudget>, f: nat, d: int)
    requires Chained(frames) && f < |frames| && PendingMoved(frames, was, before, f, d)
    requires Reserved(frames, before, after, f) || ErrsOnly(before, after)
    ensures PendingMoved(frames, was, after, f, d)
  {
    forall a: Account | a.run < |was| ensures
      Pending(after, a) == Pending(before, a) && Tokens(after, a) == Tokens(before, a)
    {
    }
  }

  /** Since base, each call around c has gained what c has reported; no other call has changed. */
  ghost predicate ReportedSince(base: seq<Call>, calls: seq<Call>, c: nat) {
    c < |base| == |calls| && Nested(base) && base[c].reported == 0 && Reported(base, calls, c, calls[c].reported)
  }

  /** After an attempt of call c failed: reports it, waits and admits the next one, or says why the call
      ends: the budgets refuse the next one with what is reported, the context ends in the wait, or they refuse it then. */
  method Retry(m: Meters, c: nat, usage: Usage, woken: bool, late: set<nat>, later: set<nat>, ghost was: seq<RunBudget>, ghost base: seq<Call>)
    returns (stop: Option<Outcome>)
    requires m.Valid() && c < |m.calls| && m.calls[c].active && ReportedSince(base, m.calls, c)
    requires ErrsKept(was, m.runs) && PendingMoved(m.frames, was, m.runs, m.calls[c].frame, m.calls[c].reported)
    modifies m`runs, m`calls, m`admitted
    ensures m.Valid() && ErrsKept(was, m.runs) && ReportedSince(base, m.calls, c) && |m.calls| == |old(m.calls)|
    ensures m.calls[c] == old(m.calls)[c].(reported := Max(UsageTokens(usage), old(m.calls)[c].reported))
    ensures PendingMoved(m.frames, was, m.runs, m.calls[c].frame, m.calls[c].reported)
    ensures var l := Ledger(m.returned, m.calls, m.recorded, old(m.admitted));
      if !Allowed(m.frames, old(m.runs), l, m.calls[c].frame, late, true) then stop.Some? && stop.value.Refused?
      else if !woken then stop == Some(ContextEnded)
      else stop.Some? ==> stop.value.Refused?
    ensures m.admitted == if stop.None? then old(m.admitted) + [Charge(m.calls[c].frame, 1)] else old(m.admitted)
  {
    hide Balanced, Capped, AllAdmit, Allowed, RefusedAfter, Refuses, Kept;
    ghost var before, calls, f := m.runs, m.calls, m.calls[c].frame;
    hide Reported, PendingMoved, Moved, ErrsKept;
    var err := m.Report(c, usage, late);
    ReportsOn(base, calls, m.calls, c, Max(UsageTokens(usage) - calls[c].reported, 0));
    MovedPending(m.frames, was, before, m.runs, f, calls[c].reported, m.calls[c].reported - calls[c].reported);
    KeptTwice(was, before, m.runs);
    if err.Some? {
      return Some(Refused(err.value));
    }
    if !woken {
      return Some(ContextEnded);
    }
    before := m.runs;
    err := m.Next(c, later);
    ReservedPending(m.frames, was, before, m.runs, f, m.calls[c].reported);
    KeptTwice(was, before, m.runs);
    return if err.Some? then Some(Refused(err.value)) else None;
  }

  /** The call a new one with frame f is nested in: the one around it when that has the same frame. */
  function NestedIn(calls: seq<Call>, f: nat, around: Option<nat>): Option<nat>
    requires around.Some? ==> around.value < |calls|
  {
    if around.Some? && calls[around.value].frame == f then around else None
  }

  /** How a call of at most max attempts ended, after n of them. */
  ghost predicate EndsAfter(max: int, attempt: nat -> Attempt, usage: Usage, outcome: Outcome, n: nat) {
    && n <= Max(max, 1) && usage == Summed(attempt, n)
    && (forall k :: 1 <= k < n ==> attempt(k).ending == FailsTransient)
    && (outcome.Ends? ==> n > 0 && outcome.ending == attempt(n).ending && (attempt(n).ending == FailsTransient ==> n == Max(max, 1)))
    && (outcome.Refused? ==> n > 0 && attempt(n).ending == FailsTransient && n < Max(max, 1))
  }

  /** How many of a call's n attempts failed and were to be retried: all but the one it ends with. */
  function Retried(outcome: Outcome, n: nat): nat {
    if outcome.Ends? && n > 0 then n - 1 else n
  }

  /** k attempts were admitted: each after the first, and one that the context ended before. */
  predicate Admitted(outcome: Outcome, n: nat, k: nat) {
    k == n - 1 || (outcome.ContextEnded? && k == n)
  }

  /** Each attempt of a call of n but the first was admitted, as a call under f. */
  ghost predicate Admitting(before: seq<Charge>, after: seq<Charge>, f: nat, outcome: Outcome, n: nat) {
    exists k: nat :: Admitted(outcome, n, k) && after == before + Admissions(f, k)
  }

  lemma DidAdmit(before: seq<Charge>, f: nat, outcome: Outcome, n: nat, k: nat)
    requires Admitted(outcome, n, k)
    ensures Admitting(before, before + Admissions(f, k), f, outcome, n)
  {
  }

  lemma AdmitsNext(before: seq<Charge>, f: nat, n: nat)
    requires n > 0
    ensures before + Admissions(f, n - 1) + [Charge(f, 1)] == before + Admissions(f, n)
  {
  }

  lemma AdmitsNone(before: seq<Charge>, f: nat)
    ensures before + Admissions(f, 0) == before
  {
  }

  /** The loop of retryCall, for the call c. */
  method TryAttempts(m: Meters, c: nat, max: int, attempt: nat -> Attempt, ended: nat -> bool, woken: nat -> bool, late: nat -> set<nat>,
    later: nat -> set<nat>)
    returns (usage: Usage, outcome: Outcome, n: nat)
    requires m.Valid() && c < |m.calls| && m.calls[c].active && m.calls[c].reported == 0
    modifies m`runs, m`calls, m`admitted
    ensures m.Valid() && ErrsKept(old(m.runs), m.runs)
    ensures EndsAfter(max, attempt, usage, outcome, n)
    ensures ReportedSince(old(m.calls), m.calls, c) && m.calls[c] == old(m.calls)[c].(reported := m.calls[c].reported)
    ensures PendingMoved(m.frames, old(m.runs), m.runs, m.calls[c].frame, m.calls[c].reported)
    ensures m.calls[c].reported == Highest(attempt, Retried(outcome, n))
    ensures Admitting(old(m.admitted), m.admitted, m.calls[c].frame, outcome, n)
  {
    hide Balanced, Capped, AllAdmit, PendingMoved, ErrsKept, Nested, Chained, ReportedSince, Logged, Settled, Allowed, Kept, Admitting,
      Admissions, UsageTokens;
    ghost var was, base, f := m.runs, m.calls, m.calls[c].frame;
    NothingMoved(m.frames, was, f);
    BeginsReporting(base, c);
    NoErrsLost(was);
    usage, n := Usage(0, 0, 0), 0;
    AdmitsNone(m.admitted, f);
    while true
      invariant m.Valid() && ErrsKept(was, m.runs) && c < |m.calls|
      invariant m.calls[c] == base[c].(reported := m.calls[c].reported) && ReportedSince(base, m.calls, c)
      invariant n < Max(max, 1) && usage == Summed(attempt, n)
      invariant forall k :: 1 <= k <= n ==> attempt(k).ending == FailsTransient
      invariant PendingMoved(m.frames, was, m.runs, m.calls[c].frame, m.calls[c].reported)
      invariant m.calls[c].reported == Highest(attempt, n) && m.admitted == old(m.admitted) + Admissions(f, n)
      decreases Max(max, 1) - n
    {
      if ended(n + 1) {
        outcome := ContextEnded;
        DidAdmit(old(m.admitted), f, outcome, n, n);
        return;
      }
      n := n + 1;
      usage := usage.Add(attempt(n).usage);
      if attempt(n).ending != FailsTransient || n >= Max(max, 1) {
        outcome := Ends(attempt(n).ending);
        DidAdmit(old(m.admitted), f, outcome, n, n - 1);
        return;
      }
      var stop := Retry(m, c, usage, woken(n), late(n), later(n), was, base);
      if stop.Some? {
        outcome := stop.value;
        DidAdmit(old(m.admitted), f, outcome, n, n - 1);
        return;
      }
      AdmitsNext(old(m.admitted), f, n);
    }
  }

  /** retryCall: makes up to max attempts, reporting each failed one it would retry and admitting the next
      after its wait. around is the retried call it is made in, if any; ended and woken say when the
      context has ended before an attempt and in a wait; attempt what each attempt comes to; late and
      later which runs have reached MaxDuration before and after the wait. */
  method RetryCall(m: Meters, f: nat, around: Option<nat>, max: int, attempt: nat -> Attempt, ended: nat -> bool, woken: nat -> bool,
    late: nat -> set<nat>, later: nat -> set<nat>)
    returns (usage: Usage, outcome: Outcome, n: nat)
    requires m.Valid() && f < |m.frames| && (around.Some? ==> around.value < |m.calls| && m.calls[around.value].active)
    modifies m
    ensures m.Valid() && m.frames == old(m.frames) && ErrsKept(old(m.runs), m.runs) && m.recorded == old(m.recorded)
    ensures EndsAfter(max, attempt, usage, outcome, n)
    ensures |m.runs| == |old(m.runs)| && |m.calls| == |old(m.calls)| + 1 && Nested(old(m.calls))
    ensures var call, parent := m.calls[|old(m.calls)|], NestedIn(old(m.calls), f, around);
      && call.frame == f && call.parent == parent && !call.active && call.reported == Highest(attempt, Retried(outcome, n))
      && Admitting(old(m.admitted), m.admitted, f, outcome, n)
      && PendingMoved(m.frames, old(m.runs), m.runs, f, call.reported)
      && (forall x :: 0 <= x < |old(m.calls)| ==> m.calls[x] == old(m.calls)[x].(reported := old(m.calls)[x].reported
           + if x in AroundFrom(old(m.calls), parent) then call.reported else 0))
      && m.returned == if parent.None? && call.reported > 0
           then old(m.returned)[f := old(m.returned)[f] + [Returned(UsageTokens(usage), call.reported)]] else old(m.returned)
  {
    assert Nested(m.calls);
    hide Balanced, Capped, PendingMoved, ErrsKept, Nested, Chained, ReportedSince, EndsAfter, Shaped, Logged;
    var c := m.BeginCall(f, around);
    ghost var call := m.calls[c];
    usage, outcome, n := TryAttempts(m, c, max, attempt, ended, woken, late, later);
    ReportedAround(old(m.calls), call, m.calls);
    SameRuns(m.frames, old(m.runs), m.runs, f, m.calls[c].reported);
    m.Finish(c, usage);
  }

  /** A call that begins has reported nothing. */
  lemma BeginsReporting(calls: seq<Call>, c: nat)
    requires Nested(calls) && c < |calls| && calls[c].reported == 0
    ensures ReportedSince(calls, calls, c)
  {
    AroundBound(calls, c);
  }

  /** What the last of the calls has reported, the calls around it have gained; none is nested in it. */
  lemma ReportedAround(before: seq<Call>, call: Call, calls: seq<Call>)
    requires Nested(before) && ReportedSince(before + [call], calls, |before|)
    requires call.parent.Some? ==> call.parent.value < |before|
    ensures |calls| == |before| + 1
    ensures forall x :: 0 <= x < |before| ==> calls[x] == before[x].(reported := before[x].reported
      + if x in AroundFrom(before, call.parent) then calls[|before|].reported else 0)
    ensures forall d :: 0 <= d < |calls| && calls[d].parent == Some(|before|) ==> !calls[d].active
  {
    var base := before + [call];
    if call.parent.Some? {
      AroundPrefix(before, call, call.parent.value);
    }
    AroundBound(base, |before|);
    assert Around(base, |before|) == {|before|} + AroundFrom(before, call.parent);
    forall d | 0 <= d < |calls| ensures calls[d].parent != Some(|before|) {
      assert calls[d].parent == base[d].parent;
    }
  }

  lemma {:induction false} AroundPrefix(before: seq<Call>, call: Call, c: nat)
    requires Nested(before) && Nested(before + [call]) && c < |before|
    ensures Around(before + [call], c) == Around(before, c)
    decreases c
  {
    if before[c].parent.Some? {
      AroundPrefix(before, call, before[c].parent.value);
    }
  }

  lemma SameRuns(frames: seq<Frame>, before: seq<RunBudget>, after: seq<RunBudget>, f: nat, d: int)
    requires f < |frames| && Chained(frames) && PendingMoved(frames, before, after, f, d)
    ensures |after| == |before|
  {
  }

  lemma NothingMoved(frames: seq<Frame>, runs: seq<RunBudget>, f: nat)
    requires f < |frames| && Chained(frames)
    ensures PendingMoved(frames, runs, runs, f, 0)
  {
  }

  lemma NoErrsLost(runs: seq<RunBudget>)
    ensures ErrsKept(runs, runs)
  {
  }

  lemma KeptTwice(a: seq<RunBudget>, b: seq<RunBudget>, c: seq<RunBudget>)
    requires ErrsKept(a, b) && ErrsKept(b, c)
    ensures ErrsKept(a, c)
  {
  }

  /** Reports of the same call add up. */
  lemma ReportsOn(base: seq<Call>, before: seq<Call>, after: seq<Call>, c: nat, d: nat)
    requires Nested(before) && ReportedSince(base, before, c) && Reported(before, after, c, d)
    ensures ReportedSince(base, after, c) && after[c] == before[c].(reported := before[c].reported + d)
  {
    AroundBound(base, c);
    AroundSame(base, before, c);
  }

  lemma {:induction false} AroundSame(before: seq<Call>, after: seq<Call>, c: nat)
    requires Nested(before) && Nested(after) && c < |before| == |after|
    requires forall x :: 0 <= x < |before| ==> after[x].parent == before[x].parent
    ensures Around(after, c) == Around(before, c)
    decreases c
  {
    if before[c].parent.Some? {
      AroundSame(before, after, before[c].parent.value);
    }
  }

  /** A call of a retrying model, in no other one with its frame, whose caller records the usage it returned has spent that usage once, in
      every account around it, however many of its attempts failed and were reported early, and leaves
      nothing pending; unless a call that returned earlier with the same total is settled in its place. */
  method CallAndRecord(m: Meters, f: nat, around: Option<nat>, max: int, attempt: nat -> Attempt, ended: nat -> bool, woken: nat -> bool,
    late: nat -> set<nat>, later: nat -> set<nat>)
    returns (usage: Usage)
    requires m.Valid() && f < |m.frames|
    requires around.Some? ==> around.value < |m.calls| && m.calls[around.value].active && m.calls[around.value].frame != f
    modifies m
    ensures m.Valid() && m.frames == old(m.frames)
    ensures |m.runs| == |old(m.runs)|
    ensures FirstWith(old(m.returned)[f], UsageTokens(usage)).None? ==>
      && m.returned == old(m.returned)
      && forall a: Account :: a.run < |m.runs| ==>
           && Pending(m.runs, a) == Pending(old(m.runs), a)
           && Tokens(m.runs, a) == Tokens(old(m.runs), a) + UsageTokens(usage) * Times(m.frames, f, a)
  {
    hide Balanced, Capped, PendingMoved, MovedTo, ErrsKept, LimitsFail, EndsAfter, Kept, Admitting, Highest, Retried, Nested, Chained, Logged,
      AroundFrom;
    var outcome, n;
    usage, outcome, n := RetryCall(m, f, around, max, attempt, ended, woken, late, later);
    ghost var called, lists := m.runs, m.returned;
    m.Add(f, usage);
    if FirstWith(old(m.returned)[f], UsageTokens(usage)).None? {
      var pending := m.calls[|m.calls| - 1].reported;
      SettlesOwn(old(m.returned), lists, m.returned, f, UsageTokens(usage), pending);
      SpentOnce(m.frames, old(m.runs), called, m.runs, f, UsageTokens(usage), pending);
    }
  }

  lemma {:induction false} FirstOfAppend(list: seq<Returned>, call: Returned)
    requires FirstWith(list, call.tokens).None?
    ensures FirstWith(list + [call], call.tokens) == Some(|list|)
  {
    if list != [] {
      assert (list + [call])[1..] == list[1..] + [call];
      FirstOfAppend(list[1..], call);
    }
  }

  lemma SpentOnce(frames: seq<Frame>, was: seq<RunBudget>, called: seq<RunBudget>, after: seq<RunBudget>, f: nat, tokens: nat, pending: nat)
    requires Chained(frames) && f < |frames|
    requires PendingMoved(frames, was, called, f, pending) && Moved(frames, called, after, f, tokens, 0 - pending)
    ensures |after| == |was| && forall a: Account :: a.run < |was| ==>
      Pending(after, a) == Pending(was, a) && Tokens(after, a) == Tokens(was, a) + tokens * Times(frames, f, a)
  {
    forall a: Account | a.run < |was| ensures
      Pending(after, a) == Pending(was, a) && Tokens(after, a) == Tokens(was, a) + tokens * Times(frames, f, a)
    {
      Cancels(pending, Times(frames, f, a));
      assert TimesFrom(frames, None, a) == 0;
      assert Pending(called, a) == Pending(was, a) + pending * Times(frames, f, a);
    }
  }

  lemma SettlesOwn(before: seq<seq<Returned>>, lists: seq<seq<Returned>>, after: seq<seq<Returned>>, f: nat, tokens: nat, pending: nat)
    requires f < |before| && FirstWith(before[f], tokens).None?
    requires lists == if pending > 0 then before[f := before[f] + [Returned(tokens, pending)]] else before
    requires after == lists[f := Settled(lists[f], tokens)]
    ensures after == before && SettledBy(lists[f], tokens) == pending
  {
    if pending > 0 {
      FirstOfAppend(before[f], Returned(tokens, pending));
      var list := before[f] + [Returned(tokens, pending)];
      assert list[..|before[f]|] + list[|before[f]| + 1..] == before[f];
    }
  }

  // ---- backoff ----

  /** The wait without a cap: doubled after every failed attempt. */
  function Doubled(delay: nat, n: nat): nat {
    if n == 0 then delay else 2 * Doubled(delay, n - 1)
  }

  /** A wait that has reached the cap stays there. */
  lemma {:induction false} StaysCapped(delay: nat, j: nat, n: nat, most: nat)
    requires j <= n && Doubled(delay, j) >= most
    ensures Doubled(delay, n) >= most
  {
    if j < n {
      StaysCapped(delay, j, n - 1, most);
    }
  }

  /** In nanoseconds. */
  const DEFAULT_MAX_DELAY: int := 30_000_000_000

  function Clamped(jitter: real): (share: real)
    ensures 0.0 <= share <= 1.0
  {
    if jitter < 0.0 then 0.0 else if jitter > 1.0 then 1.0 else jitter
  }

  /** The loop of backoff: the delay doubled n times, or most; no value on the way is above most. */
  method DoubleUpTo(base: nat, most: nat, n: nat) returns (delay: nat)
    requires base > 0 && most > 0
    ensures delay == Min(Doubled(base, n), most)
  {
    delay := Min(base, most);
    for j := 0 to n
      invariant delay == Min(Doubled(base, j), most) && 0 < delay <= most
    {
      if delay > most / 2 {
        StaysCapped(base, j + 1, n, most);
        return most;
      }
      assert delay * 2 <= most;
      delay := delay * 2;
    }
  }

  /** backoff: at least half of the doubled and capped delay, and all of it at most. */
  method Backoff(base: int, cap: int, attempt: int, jitter: real) returns (wait: int)
    ensures base <= 0 ==> wait == 0
    ensures base > 0 ==>
      var delay := Min(Doubled(base, Max(attempt - 1, 0)), if cap <= 0 then DEFAULT_MAX_DELAY else cap);
      delay / 2 <= wait <= delay
  {
    if base <= 0 {
      return 0;
    }
    hide Doubled;
    var delay := DoubleUpTo(base, if cap <= 0 then DEFAULT_MAX_DELAY else cap, Max(attempt - 1, 0));
    var half := delay / 2;
    var share := Share(Clamped(jitter), delay - half);
    return half + share;
  }

  /** A share of the rest of a delay, cut off to whole nanoseconds. */
  function Share(share: real, rest: nat): (n: int)
    requires 0.0 <= share <= 1.0
    ensures 0 <= n <= rest
  {
    ShareBounds(share, rest);
    (share * rest as real).Floor
  }

  lemma ShareBounds(share: real, rest: nat)
    requires 0.0 <= share <= 1.0
    ensures 0 <= (share * rest as real).Floor <= rest
  {
    assert 0.0 <= share * rest as real <= rest as real;
  }
}

/**
 Where a pipeline's rules may take a run, read off its tables.

 A rule list is evaluated in order and a rule without When always matches, so it closes off those after it,
 unless it is a rewind and may not be taken: a rejected visit takes none, nor does a restored one, and once the
 target has used its MaxVisits a failure passes over it. The predicates here say so of the tables alone, and each
 can be computed from them. Modules Realizations and Traces prove that they are exactly what runs can do.
 */
module Reachability {
  import opened Basics
  import opened Pipelines
  import opened Runs

  // ---- moves ----

  /** No rule of list before position k is without When. */
  predicate Plain(list: seq<Rule>, k: nat)
    requires k <= |list|
  {
    forall j :: 0 <= j < k ==> list[j].hasWhen
  }

  /** The rule at position k of list goes forward to next, and no rule before it closes it off. */
  predicate PlainRule(list: seq<Rule>, k: nat, n: nat, next: int)
    requires k < |list|
  {
    Forward(list[k]) && Plain(list, k) && Dest(list[k], n) == next
  }

  /** After one visit of step i the run may be at next, a later step, whatever rewind is running. */
  predicate PlainEdge(p: Pipeline, i: int, next: int) {
    && Sized(p) && 0 <= i < |p.steps|
    && (|| (exists k :: 0 <= k < |p.success[i]| && PlainRule(p.success[i], k, |p.steps|, next))
        || (next == i + 1 && Plain(p.success[i], |p.success[i]|))
        || (exists k :: 0 <= k < |p.failure[i]| && PlainRule(p.failure[i], k, |p.steps|, next)))
  }

  /** From step from a run may go to step to by visits of the steps in between. */
  predicate Leads(p: Pipeline, from: int, to: int)
    decreases to - from
  {
    from == to || exists mid :: from < mid <= to && PlainEdge(p, from, mid) && Leads(p, mid, to)
  }

  /** The rule at position k of list is a rewind that may be taken. */
  predicate PlainRewind(list: seq<Rule>, k: nat)
    requires k < |list|
  {
    list[k].rewind && Plain(list, k)
  }

  /** After a visit of step i the run may be back at next. */
  predicate RewindEdge(p: Pipeline, i: int, next: int) {
    && Sized(p) && 0 <= i < |p.steps|
    && (|| (exists k :: 0 <= k < |p.success[i]| && PlainRewind(p.success[i], k) && p.success[i][k].to == next)
        || (exists k :: 0 <= k < |p.failure[i]| && PlainRewind(p.failure[i], k) && p.failure[i][k].to == next))
  }

  /** The rule at position k of list goes forward to next, and only rewinds may close it off. */
  predicate OpenRule(list: seq<Rule>, k: nat, n: nat, next: int)
    requires k < |list|
  {
    Forward(list[k]) && OpenUpTo(list, k) && Dest(list[k], n) == next
  }

  /** A rewind from step i leads back to it, so its target may use all its visits. */
  predicate Repeats(p: Pipeline, i: int) {
    exists m :: 0 <= m < |p.rules| && p.rules[m].rewind && p.rules[m].from == i && Leads(p, p.rules[m].to, i)
  }

  /** After a visit of step i that fails when i's rewinds have used their target's visits the run may be at next. */
  predicate SpentEdge(p: Pipeline, i: int, next: int) {
    && Sized(p) && 0 <= i < |p.steps|
    && Repeats(p, i) && exists k :: 0 <= k < |p.failure[i]| && OpenRule(p.failure[i], k, |p.steps|, next)
  }

  /** A failure of step q in a rewind's range may have RestoreOnError asked: past the Fallback's rule, at position
      last, or before it when another matches. */
  predicate Asks(list: seq<Rule>, last: int) {
    || (0 <= last + 1 <= |list| && OpenUpTo(list, last + 1))
    || (exists k :: 0 <= k < |list| && AsksAt(list, k, last))
  }

  predicate AsksAt(list: seq<Rule>, k: nat, last: int)
    requires k < |list|
  {
    k < last && !list[k].fallback && OpenUpTo(list, k) && (list[k].rewind ==> Plain(list, k))
  }

  /** The rewind at position k of step i's rules on success may be taken and then rejected, or undone by
      RestoreOnError. */
  predicate Undoes(p: Pipeline, i: nat, k: nat)
    requires Sized(p) && i < |p.steps| && k < |p.success[i]|
  {
    var rule := p.success[i][k];
    PlainRewind(p.success[i], k) && (
      || (rule.hasAccept && Leads(p, rule.to, i))
      || (rule.hasRestore && exists q :: 0 <= q <= i && Leads(p, rule.to, q) && Asks(p.failure[q], p.fallback[q])))
  }

  /** After a rewind from step i is undone the run may be at next. */
  predicate UndoneEdge(p: Pipeline, i: int, next: int) {
    && Sized(p) && 0 <= i < |p.steps|
    && (exists k :: 0 <= k < |p.success[i]| && Undoes(p, i, k)) && Continues(p.success[i], i, |p.steps|, next)
  }

  /** A run at step i may come to next. */
  predicate Moves(p: Pipeline, i: int, next: int) {
    PlainEdge(p, i, next) || RewindEdge(p, i, next) || SpentEdge(p, i, next) || UndoneEdge(p, i, next)
  }

  // ---- what a run may come to ----

  /** The steps a run may come to by n such moves. */
  function Layer(p: Pipeline, n: nat): set<int> {
    if n == 0 then {0} else Layer(p, n - 1) + set x, y | y in Layer(p, n - 1) && 0 <= x < |p.steps| && Moves(p, y, x) :: x
  }

  predicate Reachable(p: Pipeline, x: int) {
    x in Layer(p, |p.steps|)
  }

  /** Step f, which writes key, may rewind under the Accept of its a-th rule on success, come back to f and fail
      there, then go on by its b-th rule on failure and come to w, which writes key too. */
  predicate ReachableExit(p: Pipeline, f: nat, a: nat, b: nat, w: int, key: Name)
    requires Sized(p) && f < |p.steps| && a < |p.success[f]| && b < |p.failure[f]|
  {
    && Reachable(p, f)
    && PlainRewind(p.success[f], a) && p.success[f][a].hasAccept && Leads(p, p.success[f][a].to, f)
    && Forward(p.failure[f][b]) && OpenUpTo(p.failure[f], b)
    && Writes(p.steps, f, key) && Writes(p.steps, w, key)
    && Leads(p, Dest(p.failure[f][b], |p.steps|), w)
  }

  /** A run may come to a step that writes key, which has no MergeRule, when an earlier one has left its write. */
  predicate ReachableHazard(p: Pipeline, key: Name) {
    Sized(p) && key !in p.merges && exists f, a, b, w ::
      0 <= f < |p.steps| && 0 <= a < |p.success[f]| && 0 <= b < |p.failure[f]| && 0 <= w < |p.steps|
      && ReachableExit(p, f, a, b, w, key)
  }

  // ---- paths ----

  lemma {:induction false} LeadsOn(p: Pipeline, from: int, mid: int, to: int)
    requires Leads(p, from, mid) && mid < to && PlainEdge(p, mid, to)
    ensures Leads(p, from, to)
    decreases mid - from
  {
    hide PlainEdge;
    if from == mid {
      assert Leads(p, to, to);
    } else {
      var next :| from < next <= mid && PlainEdge(p, from, next) && Leads(p, next, mid);
      LeadsOn(p, next, mid, to);
    }
  }

  /** |p.steps| moves are enough: what a move reaches from there has been reached. */
  lemma ReachOn(p: Pipeline, y: int, x: int)
    requires |p.steps| > 0 && Reachable(p, y) && 0 <= x < |p.steps| && Moves(p, y, x)
    ensures Reachable(p, x)
  {
    hide Moves;
    var n := |p.steps|;
    assert x in Layer(p, n + 1);
    LayerGrows(p, n);
    if x !in Layer(p, n) {
      LayerLarge(p, n, x);
      LayerSteps(p, n);
      SubsetSize(Layer(p, n), Below(n));
    }
  }

  lemma ReachFirst(p: Pipeline)
    ensures Reachable(p, 0)
  {
    hide Moves;
    LayerHolds(p, 0, |p.steps|, 0);
  }

  lemma LayerGrows(p: Pipeline, n: nat)
    ensures Layer(p, n) <= Layer(p, n + 1)
  {
    hide Moves;
  }

  lemma {:induction false} LayerHolds(p: Pipeline, m: nat, n: nat, x: int)
    requires m <= n && x in Layer(p, m)
    ensures x in Layer(p, n)
  {
    hide Moves;
    if m < n {
      LayerHolds(p, m, n - 1, x);
    }
  }

  /** While a layer still grows each one before it has grown. */
  lemma {:induction false} LayerLarge(p: Pipeline, n: nat, x: int)
    requires x in Layer(p, n + 1) && x !in Layer(p, n)
    ensures |Layer(p, n)| >= n + 1
  {
    hide Moves;
    if n > 0 {
      var y :| y in Layer(p, n) && 0 <= x < |p.steps| && Moves(p, y, x);
      assert y !in Layer(p, n - 1);
      LayerLarge(p, n - 1, y);
      LayerGrows(p, n - 1);
      SubsetSize(Layer(p, n - 1) + {y}, Layer(p, n));
    }
  }

  lemma {:induction false} LayerSteps(p: Pipeline, n: nat)
    requires |p.steps| > 0
    ensures Layer(p, n) <= Below(|p.steps|)
  {
    hide Moves;
    if n > 0 {
      LayerSteps(p, n - 1);
    }
  }

  /** The steps of a pipeline of n. */
  function Below(n: nat): (steps: set<int>)
    ensures |steps| == n && forall i :: i in steps <==> 0 <= i < n
  {
    if n == 0 then {} else Below(n - 1) + {n - 1}
  }
}

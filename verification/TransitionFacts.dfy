/**
 The facts Build derives of the transitions, in one pass over them and one over the steps.

 The pass over transitions only writes the bounds of each rule in difference arrays and the least
 of each step's exits; the pass over steps sums the arrays as it goes. The contracts say what the
 facts mean in the definitions of module Pipelines.
 */
module TransitionFacts {
  import opened Basics
  import opened Pipelines
  import opened Specs

  // ---- what the facts mean ----

  /** The sum of the first k entries of a. */
  function Sum(a: seq<int>, k: nat): int
    requires k <= |a|
  {
    if k == 0 then 0 else Sum(a, k - 1) + a[k - 1]
  }

  /** How many of rules skip over step x of n. */
  function SkipCount(rules: seq<Rule>, x: int, n: nat): nat {
    if rules == [] then 0
    else SkipCount(rules[..|rules| - 1], x, n) + if Skips(rules[|rules| - 1], x, n) then 1 else 0
  }

  /** The ranges of spans that hold step x. */
  function Holding(spans: set<Span>, x: int): set<Span> {
    set span | span in spans && span.Holds(x)
  }

  /** The different ranges of the rewinds among rules. */
  function SpansOf(rules: seq<Rule>): set<Span> {
    set m | 0 <= m < |rules| && rules[m].rewind && rules[m].to >= 0 :: SpanOf(rules[m])
  }

  /** How many of the first k flags are set. */
  function Count(flags: seq<bool>, k: nat): nat
    requires k <= |flags|
  {
    if k == 0 then 0 else Count(flags, k - 1) + if flags[k - 1] then 1 else 0
  }

  /** least is the least index a rule of list may take the run to, before a rule that always
      matches, or MAX_INT when no rule does. */
  ghost predicate LeastExit(list: seq<Rule>, n: nat, least: int) {
    && (forall k :: 0 <= k < |list| && Forward(list[k]) && OpenUpTo(list, k) ==> least <= Dest(list[k], n))
    && (least == MAX_INT
        || exists k :: 0 <= k < |list| && Forward(list[k]) && OpenUpTo(list, k) && least == Dest(list[k], n))
  }

  /** The index of the first rule that takes step x forward on error, or -1. */
  function FirstOnError(rules: seq<Rule>, x: int): (m: int)
    ensures -1 <= m < |rules|
    ensures m >= 0 ==> rules[m].onError && Forward(rules[m]) && rules[m].from == x
    ensures forall k :: 0 <= k < (if m >= 0 then m else |rules|) ==> !(rules[k].onError && Forward(rules[k]) && rules[k].from == x)
  {
    if rules == [] then -1
    else
      var m := FirstOnError(rules[..|rules| - 1], x);
      var last := rules[|rules| - 1];
      if m >= 0 then m
      else if last.onError && Forward(last) && last.from == x then |rules| - 1
      else -1
  }

  // ---- arithmetic of difference arrays ----

  /** Adding d at x adds d to every sum past x. */
  lemma {:induction false} SumBump(a: seq<int>, x: nat, d: int, k: nat)
    requires k <= |a| && x < |a|
    ensures Sum(a[x := a[x] + d], k) == Sum(a, k) + if x < k then d else 0
  {
    if k > 0 {
      SumBump(a, x, d, k - 1);
    }
  }

  /** Raising a at start and lowering it at end raises exactly the sums of the steps between. */
  lemma SumRange(a: seq<int>, start: nat, end: nat, x: nat)
    requires start < end < |a| && x < |a|
    ensures var b := a[start := a[start] + 1];
      Sum(b[end := b[end] - 1], x + 1) == Sum(a, x + 1) + if start <= x < end then 1 else 0
  {
    var b := a[start := a[start] + 1];
    SumBump(a, start, 1, x + 1);
    SumBump(b, end, -1, x + 1);
  }

  /** A step may not write exactly when a rule skips it or takes it forward on error. */
  lemma {:induction false} SkipCountMeans(rules: seq<Rule>, x: int, n: nat)
    ensures SkipCount(rules, x, n) > 0 <==> exists m :: 0 <= m < |rules| && Skips(rules[m], x, n)
  {
    if rules != [] {
      var init, last := rules[..|rules| - 1], |rules| - 1;
      SkipCountMeans(init, x, n);
      if exists m :: 0 <= m < |rules| && Skips(rules[m], x, n) {
        var m :| 0 <= m < |rules| && Skips(rules[m], x, n);
        assert m < last ==> Skips(init[m], x, n);
      }
      if SkipCount(init, x, n) > 0 {
        var m :| 0 <= m < |init| && Skips(init[m], x, n);
        assert Skips(rules[m], x, n);
      }
    }
  }

  lemma {:induction false} CountMonotone(flags: seq<bool>, j: nat, k: nat)
    requires j <= k <= |flags|
    ensures Count(flags, j) <= Count(flags, k)
    ensures Count(flags, j) < Count(flags, k) <==> exists t :: j <= t < k && flags[t]
  {
    if j < k {
      CountMonotone(flags, j, k - 1);
      if exists t :: j <= t < k && flags[t] {
        var t :| j <= t < k && flags[t];
        assert t == k - 1 || flags[t];
      }
    }
  }

  // ---- what each array means ----

  ghost predicate SkipsMean(skips: seq<int>, rules: seq<Rule>, n: nat) {
    |skips| == n + 1 && forall x :: 0 <= x < n ==> Sum(skips, x + 1) == SkipCount(rules, x, n)
  }

  ghost predicate RangesMean(ranges: seq<int>, spans: set<Span>, n: nat) {
    |ranges| == n + 1 && forall x :: 0 <= x < n ==> Sum(ranges, x + 1) == |Holding(spans, x)|
  }

  ghost predicate RangeAtMeans(rangeAt: seq<Option<Span>>, spans: set<Span>) {
    && (forall x :: 0 <= x < |rangeAt| && rangeAt[x].Some? ==> rangeAt[x].value in spans && rangeAt[x].value.start == x)
    && (forall span :: span in spans ==> span.start <= span.end < |rangeAt| && rangeAt[span.start].Some?)
  }

  ghost predicate OnErrorMeans(onErrorBy: seq<int>, rules: seq<Rule>) {
    forall x :: 0 <= x < |onErrorBy| ==> onErrorBy[x] == FirstOnError(rules, x)
  }

  ghost predicate ExitsMean(successMin: seq<int>, closed: seq<bool>, rules: seq<Rule>, n: nat) {
    |successMin| == |closed| == n && forall x :: 0 <= x < n ==>
      var list := RulesOf(rules, x, false);
      (closed[x] <==> !OpenUpTo(list, |list|)) && LeastExit(list, n, successMin[x])
  }

  ghost predicate TargetsMean(target: seq<bool>, amendTarget: seq<bool>, rules: seq<Rule>) {
    && (forall x :: 0 <= x < |target| ==> (target[x] <==> IsTarget(rules, x)))
    && (forall x :: 0 <= x < |amendTarget| ==> (amendTarget[x] <==> IsAmendTarget(rules, x)))
  }

  // ---- how a rule changes it ----

  lemma Last(rules: seq<Rule>, rule: Rule)
    ensures (rules + [rule])[..|rules|] == rules && (rules + [rule])[|rules|] == rule
  {
  }

  /** A rule that skips no step leaves the array; one that does raises it over the steps it skips. */
  lemma SkipsAppend(skips: seq<int>, rules: seq<Rule>, rule: Rule, n: nat)
    requires SkipsMean(skips, rules, n) && RuleOk(rule, n)
    ensures !Forward(rule) || rule.from + 1 >= Dest(rule, n) ==> SkipsMean(skips, rules + [rule], n)
    ensures Forward(rule) && rule.from + 1 < Dest(rule, n) ==>
      var raised := skips[rule.from + 1 := skips[rule.from + 1] + 1];
      SkipsMean(raised[Dest(rule, n) := raised[Dest(rule, n)] - 1], rules + [rule], n)
  {
    Last(rules, rule);
    forall x | 0 <= x < n ensures
      SkipCount(rules + [rule], x, n) == SkipCount(rules, x, n) + if Skips(rule, x, n) then 1 else 0
    {
    }
    if Forward(rule) && rule.from + 1 < Dest(rule, n) {
      forall x | 0 <= x < n ensures
        var raised := skips[rule.from + 1 := skips[rule.from + 1] + 1];
        Sum(raised[Dest(rule, n) := raised[Dest(rule, n)] - 1], x + 1) == SkipCount(rules + [rule], x, n)
      {
        SumRange(skips, rule.from + 1, Dest(rule, n), x);
      }
    }
  }

  lemma RulesOfAppend(rules: seq<Rule>, rule: Rule, x: nat, onError: bool)
    ensures RulesOf(rules + [rule], x, onError)
      == RulesOf(rules, x, onError) + if rule.from == x && rule.onError == onError then [rule] else []
  {
    Last(rules, rule);
  }

  lemma FirstOnErrorAppend(rules: seq<Rule>, rule: Rule, x: int)
    ensures FirstOnError(rules + [rule], x)
      == if FirstOnError(rules, x) >= 0 then FirstOnError(rules, x)
         else if rule.onError && Forward(rule) && rule.from == x then |rules| else -1
  {
    Last(rules, rule);
  }

  /** The first OnError rule forward stays the first. */
  lemma OnErrorAppend(onErrorBy: seq<int>, rules: seq<Rule>, rule: Rule)
    requires OnErrorMeans(onErrorBy, rules) && rule.from < |onErrorBy|
    ensures rule.onError && Forward(rule) && onErrorBy[rule.from] < 0 ==>
      OnErrorMeans(onErrorBy[rule.from := |rules|], rules + [rule])
    ensures !(rule.onError && Forward(rule) && onErrorBy[rule.from] < 0) ==> OnErrorMeans(onErrorBy, rules + [rule])
  {
    forall x ensures FirstOnError(rules + [rule], x)
      == if FirstOnError(rules, x) >= 0 then FirstOnError(rules, x)
         else if rule.onError && Forward(rule) && rule.from == x then |rules| else -1
    {
      FirstOnErrorAppend(rules, rule, x);
    }
  }

  /** Appending a rule to a step's success rules: nothing after a rule that always matches counts. */
  lemma ExitAppend(list: seq<Rule>, rule: Rule, n: nat, least: int)
    requires LeastExit(list, n, least)
    requires rule.to != END && rule.to != FAIL ==> 0 <= rule.to < n
    requires n <= MAX_INT
    ensures OpenUpTo(list + [rule], |list| + 1) <==> OpenUpTo(list, |list|) && !Closing(rule)
    ensures LeastExit(list + [rule], n,
      if OpenUpTo(list, |list|) && Forward(rule) then Min(least, Dest(rule, n)) else least)
  {
    var more := list + [rule];
    assert forall k :: 0 <= k <= |list| ==> (OpenUpTo(more, k) <==> OpenUpTo(list, k)) by {
      forall k | 0 <= k <= |list| ensures OpenUpTo(more, k) <==> OpenUpTo(list, k) {
        assert forall j :: 0 <= j < k ==> more[j] == list[j];
      }
    }
    assert forall k :: 0 <= k < |list| ==> more[k] == list[k];
    var next := if OpenUpTo(list, |list|) && Forward(rule) then Min(least, Dest(rule, n)) else least;
    if next != MAX_INT {
      if next == least {
        var k :| 0 <= k < |list| && Forward(list[k]) && OpenUpTo(list, k) && least == Dest(list[k], n);
        assert Forward(more[k]) && OpenUpTo(more, k);
      } else {
        assert more[|list|] == rule;
      }
    }
    assert OpenUpTo(more, |list| + 1) <==> OpenUpTo(list, |list|) && !Closing(rule) by {
      assert more[|list|] == rule;
    }
  }

  lemma ExitsAppend(successMin: seq<int>, closed: seq<bool>, rules: seq<Rule>, rule: Rule, n: nat)
    requires ExitsMean(successMin, closed, rules, n) && RuleOk(rule, n) && n <= MAX_INT
    ensures rule.onError ==> ExitsMean(successMin, closed, rules + [rule], n)
    ensures !rule.onError ==>
      var least := if !closed[rule.from] && Forward(rule) then Min(successMin[rule.from], Dest(rule, n)) else successMin[rule.from];
      ExitsMean(successMin[rule.from := least], closed[rule.from := closed[rule.from] || Closing(rule)], rules + [rule], n)
  {
    hide LeastExit, OpenUpTo, RulesOf;
    forall x: nat | x < n ensures RulesOf(rules + [rule], x, false)
      == RulesOf(rules, x, false) + if rule.from == x && !rule.onError then [rule] else []
    {
      RulesOfAppend(rules, rule, x, false);
    }
    assert forall x :: 0 <= x < n ==> RulesOf(rules, x, false) + [] == RulesOf(rules, x, false);
    if !rule.onError {
      ExitAppend(RulesOf(rules, rule.from, false), rule, n, successMin[rule.from]);
    }
  }

  lemma TargetsAppend(target: seq<bool>, amendTarget: seq<bool>, rules: seq<Rule>, rule: Rule)
    requires TargetsMean(target, amendTarget, rules)
    ensures !rule.rewind ==> TargetsMean(target, amendTarget, rules + [rule])
    ensures rule.rewind && 0 <= rule.to < |target| == |amendTarget| ==>
      TargetsMean(target[rule.to := true],
        if rule.hasAmend then amendTarget[rule.to := true] else amendTarget, rules + [rule])
  {
    Last(rules, rule);
    assert forall m :: 0 <= m < |rules| ==> (rules + [rule])[m] == rules[m];
    forall x ensures IsTarget(rules + [rule], x) <==> IsTarget(rules, x) || (rule.rewind && rule.to == x) {
      if IsTarget(rules, x) {
        var m :| 0 <= m < |rules| && rules[m].rewind && rules[m].to == x;
        assert (rules + [rule])[m].rewind;
      }
    }
    forall x ensures IsAmendTarget(rules + [rule], x)
      <==> IsAmendTarget(rules, x) || (rule.rewind && rule.to == x && rule.hasAmend)
    {
      if IsAmendTarget(rules, x) {
        var m :| 0 <= m < |rules| && rules[m].rewind && rules[m].to == x && rules[m].hasAmend;
        assert (rules + [rule])[m].rewind;
      }
    }
  }

  lemma SpansAppend(rules: seq<Rule>, rule: Rule)
    ensures SpansOf(rules + [rule]) == SpansOf(rules) + if rule.rewind && rule.to >= 0 then {SpanOf(rule)} else {}
  {
    var more := rules + [rule];
    Last(rules, rule);
    assert forall m :: 0 <= m < |rules| ==> more[m] == rules[m];
    forall span | span in SpansOf(rules) ensures span in SpansOf(more) {
      var m :| 0 <= m < |rules| && rules[m].rewind && rules[m].to >= 0 && SpanOf(rules[m]) == span;
      assert more[m].rewind;
    }
    if rule.rewind && rule.to >= 0 {
      assert more[|rules|].rewind;
    }
  }

  /** A new range raises the count of the steps it holds, and of no other. */
  lemma RangesAppend(ranges: seq<int>, spans: set<Span>, span: Span, n: nat)
    requires RangesMean(ranges, spans, n) && span !in spans && span.start <= span.end < n
    ensures var raised := ranges[span.start := ranges[span.start] + 1];
      RangesMean(raised[span.end + 1 := raised[span.end + 1] - 1], spans + {span}, n)
  {
    forall x | 0 <= x < n ensures
      var raised := ranges[span.start := ranges[span.start] + 1];
      Sum(raised[span.end + 1 := raised[span.end + 1] - 1], x + 1) == |Holding(spans + {span}, x)|
    {
      SumRange(ranges, span.start, span.end + 1, x);
      assert Holding(spans + {span}, x) == Holding(spans, x) + if span.Holds(x) then {span} else {};
    }
  }

  // ---- the facts ----

  /** For a key some step has written: the least index a run may continue at after one of the steps
      that have, and how many of the steps up to the first of them a rewind lands on. */
  datatype WriterFacts = WriterFacts(reach: int, rewinds: nat)

  /** The entries recording a rule counts: the rule, and its skip if it has one. */
  function RuleWork(rule: Rule): nat {
    if rule.rewind || rule.to == FAIL then 1 else 2
  }

  /** work counts the iterations of both passes and every fact they write. */
  class Facts {
    const n: nat
    var skips: seq<int>
    var ranges: seq<int>
    var rangeAt: seq<Option<Span>>
    var onErrorBy: seq<int>
    var successMin: seq<int>
    var closed: seq<bool>
    var target: seq<bool>
    var amendTarget: seq<bool>
    var spans: map<Span, map<Name, Type>>
    var skipping: int
    var covered: int
    var current: Option<Span>
    var rewinds: nat
    var unwritten: map<Name, nat>
    var writtenBy: map<Name, WriterFacts>
    var work: nat

    ghost predicate Valid()
      reads this
    {
      && n <= MAX_INT
      && |skips| == |ranges| == n + 1
      && |rangeAt| == |onErrorBy| == |successMin| == |closed| == |target| == |amendTarget| == n
    }

    /** The facts of the pass over transitions say what rules says. */
    ghost predicate Means(rules: seq<Rule>)
      requires Valid()
      reads this
    {
      && spans.Keys == SpansOf(rules)
      && SkipsMean(skips, rules, n)
      && RangesMean(ranges, spans.Keys, n)
      && RangeAtMeans(rangeAt, spans.Keys)
      && OnErrorMeans(onErrorBy, rules)
      && ExitsMean(successMin, closed, rules, n)
      && TargetsMean(target, amendTarget, rules)
    }

    /** The facts of n steps before either pass. */
    constructor (n: nat)
      requires n <= MAX_INT
      ensures Valid() && this.n == n
      ensures Means([]) && Untouched() && work == 0
    {
      this.n := n;
      work := 0;
      skips := seq(n + 1, _ => 0);
      ranges := seq(n + 1, _ => 0);
      rangeAt := seq(n, _ => None);
      onErrorBy := seq(n, _ => -1);
      successMin := seq(n, _ => MAX_INT);
      closed := seq(n, _ => false);
      target := seq(n, _ => false);
      amendTarget := seq(n, _ => false);
      spans := map[];
      skipping, covered, current, rewinds := 0, 0, None, 0;
      unwritten, writtenBy := map[], map[];
      new;
      ghost var zeros := skips;
      assert zeros == ranges;
      forall k: nat | k <= n + 1 ensures Sum(zeros, k) == 0 {
        SumZero(zeros, k);
      }
      assert forall x :: Holding({}, x) == {};
    }

    /** Records what a rule that is not a rewind means for the pass over steps. */
    method Mark(rule: Rule, ghost rules: seq<Rule>)
      requires Valid() && Means(rules)
      requires RuleOk(rule, n) && !rule.rewind && rule.index == |rules|
      modifies this`skips, this`onErrorBy, this`successMin, this`closed, this`work
      ensures Valid() && Means(rules + [rule])
      ensures work == old(work) + RuleWork(rule)
    {
      hide SkipsMean, RangesMean, RangeAtMeans, OnErrorMeans, ExitsMean, TargetsMean, SpansOf;
      SkipsAppend(skips, rules, rule, n);
      ExitsAppend(successMin, closed, rules, rule, n);
      TargetsAppend(target, amendTarget, rules, rule);
      SpansAppend(rules, rule);
      OnErrorAppend(onErrorBy, rules, rule);
      assert successMin[rule.from := successMin[rule.from]] == successMin && closed[rule.from := closed[rule.from]] == closed;
      work := work + 1;
      if rule.to == FAIL {
        if !rule.onError && !closed[rule.from] {
          closed := closed[rule.from := !rule.hasWhen];
        }
        return;
      }
      var to := if rule.to == END then n else rule.to;
      Skip(rule.from + 1, to);
      if rule.onError {
        if onErrorBy[rule.from] < 0 {
          onErrorBy := onErrorBy[rule.from := rule.index];
        }
        return;
      }
      if !closed[rule.from] {
        successMin := successMin[rule.from := Min(successMin[rule.from], to)];
        closed := closed[rule.from := !rule.hasWhen];
      }
    }

    /** Records that a rule skips over the steps from start up to end, as the bounds of skips. */
    method Skip(start: nat, end: nat)
      requires Valid() && start <= n && end <= n
      modifies this`skips, this`work
      ensures work == old(work) + 1
      ensures skips == if start < end
        then var raised := old(skips)[start := old(skips)[start] + 1]; raised[end := raised[end] - 1]
        else old(skips)
    {
      work := work + 1;
      if start < end {
        skips := skips[start := skips[start] + 1];
        skips := skips[end := skips[end] - 1];
      }
    }

    /** Records a rewind: its range, the first time a rewind has it, and its target. */
    method Cover(rule: Rule, ghost rules: seq<Rule>)
      requires Valid() && Means(rules)
      requires RuleOk(rule, n) && rule.rewind
      requires forall span :: span in spans ==> spans[span] == map[]
      modifies this`spans, this`ranges, this`rangeAt, this`target, this`amendTarget, this`work
      ensures Valid() && Means(rules + [rule])
      ensures work == old(work) + RuleWork(rule)
      ensures forall span :: span in spans ==> spans[span] == map[]
    {
      hide SkipsMean, RangesMean, RangeAtMeans, OnErrorMeans, ExitsMean, TargetsMean, SpansOf;
      RewindAppends(skips, successMin, closed, onErrorBy, rules, rule, n);
      SpansAppend(rules, rule);
      work := work + 1;
      var span := Span(rule.to, rule.from);
      if span !in spans {
        AddSpan(span);
      } else {
        assert spans.Keys + {span} == spans.Keys;
      }
      Land(rule, rules);
    }

    /** Records a range no rewind had before. */
    method AddSpan(span: Span)
      requires Valid() && span !in spans && span.start <= span.end < n
      requires RangesMean(ranges, spans.Keys, n) && RangeAtMeans(rangeAt, spans.Keys)
      modifies this`spans, this`ranges, this`rangeAt
      ensures Valid() && spans == old(spans)[span := map[]]
      ensures RangesMean(ranges, spans.Keys, n) && RangeAtMeans(rangeAt, spans.Keys)
    {
      hide RangesMean, RangeAtMeans;
      RangesAppend(ranges, spans.Keys, span, n);
      RangeAtAppend(rangeAt, spans.Keys, span);
      spans := spans[span := map[]];
      assert spans.Keys == old(spans).Keys + {span};
      ranges := ranges[span.start := ranges[span.start] + 1];
      ranges := ranges[span.end + 1 := ranges[span.end + 1] - 1];
      if rangeAt[span.start].None? {
        rangeAt := rangeAt[span.start := Some(span)];
      }
    }

    /** Records the step a rewind lands on. */
    method Land(rule: Rule, ghost rules: seq<Rule>)
      requires Valid() && RuleOk(rule, n) && rule.rewind
      requires TargetsMean(target, amendTarget, rules)
      modifies this`target, this`amendTarget
      ensures Valid() && TargetsMean(target, amendTarget, rules + [rule])
    {
      TargetsAppend(target, amendTarget, rules, rule);
      hide TargetsMean;
      target := target[rule.to := true];
      if rule.hasAmend {
        amendTarget := amendTarget[rule.to := true];
      }
    }

    // ---- the pass over steps ----

    /** The pass over steps has entered the steps before i, at most one range holding each. */
    ghost predicate At(i: nat)
      requires Valid()
      reads this
    {
      && i <= n
      && SumsAt(skips, ranges, target, spans.Keys, i, skipping, covered, rewinds)
      && CurrentAt(current, spans.Keys, i - 1)
    }

    /** The pass over steps has not begun. */
    ghost predicate Untouched()
      reads this
    {
      && skipping == 0 && covered == 0 && current == None && rewinds == 0
      && unwritten == map[] && writtenBy == map[]
      && forall span :: span in spans ==> spans[span] == map[]
    }

    lemma AtStart()
      requires Valid() && Untouched()
      ensures At(0)
    {
    }

    /** Moves the pass to step i, and reports whether at most one range holds it. */
    method Enter(i: nat, ghost rules: seq<Rule>) returns (ok: bool)
      requires Valid() && Means(rules) && At(i) && i < n
      modifies this`skipping, this`covered, this`current, this`rewinds, this`work
      ensures work == old(work) + 1
      ensures ok == (|Holding(spans.Keys, i)| <= 1)
      ensures ok ==> At(i + 1)
      ensures skipping == SkipCount(rules, i, n) && rewinds == Count(target, i + 1)
    {
      hide Means, SumsAt, CurrentAt, Holding, SkipCount, Count, Sum;
      EnterSums(i, rules);
      work := work + 1;
      skipping := skipping + skips[i];
      covered := covered + ranges[i];
      if current.Some? && current.value.end < i {
        current := None;
      }
      if rangeAt[i].Some? {
        current := rangeAt[i];
      }
      if target[i] {
        rewinds := rewinds + 1;
      }
      ok := covered <= 1;
    }

    /** The sums at step i are what the arrays say there. */
    lemma EnterSums(i: nat, rules: seq<Rule>)
      requires Valid() && Means(rules) && At(i) && i < n
      ensures skipping + skips[i] == SkipCount(rules, i, n)
      ensures covered + ranges[i] == |Holding(spans.Keys, i)|
      ensures rewinds + (if target[i] then 1 else 0) == Count(target, i + 1)
      ensures covered + ranges[i] <= 1 ==>
        var kept := if current.Some? && current.value.end < i then None else current;
        && SumsAt(skips, ranges, target, spans.Keys, i + 1,
             skipping + skips[i], covered + ranges[i], rewinds + if target[i] then 1 else 0)
        && CurrentAt(if rangeAt[i].Some? then rangeAt[i] else kept, spans.Keys, i)
    {
      if |Holding(spans.Keys, i)| <= 1 {
        CurrentMoves(current, rangeAt, spans.Keys, i);
      }
    }

    /** Records that the current step writes key, in the keys of the range that holds it, if any. */
    method AddRangeKey(key: Name, typ: Type)
      requires current.Some? ==> current.value in spans
      modifies this`spans, this`work
      ensures work == old(work) + 1
      ensures spans == if current.None? then old(spans)
        else old(spans)[current.value := old(spans)[current.value][key := typ]]
    {
      work := work + 1;
      if current.Some? {
        spans := spans[current.value := spans[current.value][key := typ]];
      }
    }

    /** Records that step i may not write key, unless an earlier step may not either. */
    method MarkUnwritten(key: Name, i: nat)
      modifies this`unwritten, this`work
      ensures work == old(work) + 1
      ensures unwritten == if key in old(unwritten) then old(unwritten) else old(unwritten)[key := i]
    {
      work := work + 1;
      if key !in unwritten {
        unwritten := unwritten[key := i];
      }
    }

    /** Records that the current step writes key and that the run may continue at reach after it. */
    method AddWriter(key: Name, reach: int)
      modifies this`writtenBy, this`work
      ensures work == old(work) + 1
      ensures writtenBy == old(writtenBy)[key :=
        if key in old(writtenBy) then WriterFacts(Min(old(writtenBy)[key].reach, reach), old(writtenBy)[key].rewinds)
        else WriterFacts(reach, rewinds)]
    {
      work := work + 1;
      if key in writtenBy {
        writtenBy := writtenBy[key := writtenBy[key].(reach := Min(writtenBy[key].reach, reach))];
      } else {
        writtenBy := writtenBy[key := WriterFacts(reach, rewinds)];
      }
    }

    /** The least index the run may continue at after step i succeeds. */
    function Reach(i: nat): int
      requires Valid() && i < n
      reads this
    {
      if closed[i] then successMin[i] else Min(successMin[i], i + 1)
    }

    /** Whether the current step, at index i, may not write. */
    predicate MayNotWriteAt(i: nat)
      requires Valid() && i < n
      reads this
    {
      skipping > 0 || onErrorBy[i] >= 0
    }

    /** Reach is the least index a run may continue at. */
    lemma ReachMeans(i: nat, rules: seq<Rule>, bound: int)
      requires Valid() && Means(rules) && i < n && bound < MAX_INT
      ensures Reach(i) <= bound <==> ContinuesWithin(RulesOf(rules, i, false), i, n, bound)
    {
      var list := RulesOf(rules, i, false);
      LeastContinues(list, i, n, closed[i], successMin[i], bound);
    }

    /** A step may not write exactly when MayNotWrite says so. */
    lemma MayNotWriteMeans(i: nat, rules: seq<Rule>)
      requires Valid() && Means(rules) && i < n && skipping == SkipCount(rules, i, n)
      ensures MayNotWriteAt(i) <==> MayNotWrite(rules, i, n)
    {
      SkipCountMeans(rules, i, n);
      if exists m :: 0 <= m < |rules| && Skips(rules[m], i, n) {
        var m :| 0 <= m < |rules| && Skips(rules[m], i, n);
        assert MayNotWrite(rules, i, n);
      }
      if onErrorBy[i] >= 0 {
        assert MayNotWrite(rules, i, n);
      }
    }
  }

  lemma LeastContinues(list: seq<Rule>, i: nat, n: nat, closed: bool, least: int, bound: int)
    requires closed <==> !OpenUpTo(list, |list|)
    requires LeastExit(list, n, least) && bound < MAX_INT
    ensures (if closed then least else Min(least, i + 1)) <= bound
      <==> ContinuesWithin(list, i, n, bound)
  {
    if (if closed then least else Min(least, i + 1)) <= bound {
      if !closed && i + 1 <= least {
        assert Continues(list, i, n, i + 1);
      } else {
        var k :| 0 <= k < |list| && Forward(list[k]) && OpenUpTo(list, k) && least == Dest(list[k], n);
        assert Continues(list, i, n, least);
      }
    }
  }

  /** The running sums before step i, and no step before it held by two ranges. */
  ghost predicate SumsAt(skips: seq<int>, ranges: seq<int>, target: seq<bool>, spans: set<Span>, i: nat,
    skipping: int, covered: int, rewinds: int)
  {
    && i <= |skips| && i <= |ranges| && i <= |target|
    && skipping == Sum(skips, i) && covered == Sum(ranges, i) && rewinds == Count(target, i)
    && (forall x :: 0 <= x < i ==> |Holding(spans, x)| <= 1)
  }

  /** current is the only range of spans that holds step x, if any does. */
  ghost predicate CurrentAt(current: Option<Span>, spans: set<Span>, x: int) {
    && (forall span :: span in spans ==> (span.Holds(x) <==> current == Some(span)))
    && (current.Some? ==> current.value in spans)
  }

  lemma AtMostOne(spans: set<Span>, x: int, a: Span, b: Span)
    requires |Holding(spans, x)| <= 1 && a in spans && b in spans && a.Holds(x) && b.Holds(x)
    ensures a == b
  {
    if a != b {
      assert {a, b} <= Holding(spans, x);
      SubsetSize({a, b}, Holding(spans, x));
    }
  }

  /** While at most one range holds each step, the range that holds the next step is the one that
      starts there, or else the one that held the step before and has not ended. */
  lemma CurrentMoves(current: Option<Span>, rangeAt: seq<Option<Span>>, spans: set<Span>, i: nat)
    requires RangeAtMeans(rangeAt, spans) && i < |rangeAt|
    requires CurrentAt(current, spans, i - 1)
    requires |Holding(spans, i)| <= 1
    ensures var kept := if current.Some? && current.value.end < i then None else current;
      var next := if rangeAt[i].Some? then rangeAt[i] else kept;
      CurrentAt(next, spans, i)
  {
    var kept := if current.Some? && current.value.end < i then None else current;
    var next := if rangeAt[i].Some? then rangeAt[i] else kept;
    forall span | span in spans ensures span.Holds(i) <==> next == Some(span) {
      if span.Holds(i) {
        if rangeAt[i].Some? {
          AtMostOne(spans, i, span, rangeAt[i].value);
        } else {
          assert span.start != i;
          assert span.Holds(i - 1);
        }
      }
    }
  }

  /** A new range is the range at its start, unless another is. */
  lemma RangeAtAppend(rangeAt: seq<Option<Span>>, spans: set<Span>, span: Span)
    requires RangeAtMeans(rangeAt, spans) && span.start <= span.end < |rangeAt|
    ensures rangeAt[span.start].Some? ==> RangeAtMeans(rangeAt, spans + {span})
    ensures rangeAt[span.start].None? ==> RangeAtMeans(rangeAt[span.start := Some(span)], spans + {span})
  {
  }

  /** A rewind changes neither skips nor exits. */
  lemma RewindAppends(skips: seq<int>, successMin: seq<int>, closed: seq<bool>, onErrorBy: seq<int>, rules: seq<Rule>, rule: Rule, n: nat)
    requires RuleOk(rule, n) && n <= MAX_INT && rule.rewind
    requires SkipsMean(skips, rules, n) && ExitsMean(successMin, closed, rules, n) && OnErrorMeans(onErrorBy, rules)
    ensures SkipsMean(skips, rules + [rule], n)
    ensures ExitsMean(successMin, closed, rules + [rule], n)
    ensures OnErrorMeans(onErrorBy, rules + [rule])
  {
    SkipsAppend(skips, rules, rule, n);
    RewindExits(successMin, closed, rules, rule, n);
    forall x ensures FirstOnError(rules + [rule], x) == FirstOnError(rules, x) {
      FirstOnErrorAppend(rules, rule, x);
    }
  }

  /** A rewind changes no step's exits. */
  lemma RewindExits(successMin: seq<int>, closed: seq<bool>, rules: seq<Rule>, rule: Rule, n: nat)
    requires ExitsMean(successMin, closed, rules, n) && RuleOk(rule, n) && n <= MAX_INT && rule.rewind
    ensures ExitsMean(successMin, closed, rules + [rule], n)
  {
    ExitsAppend(successMin, closed, rules, rule, n);
    if !rule.onError {
      assert successMin[rule.from := successMin[rule.from]] == successMin;
      assert closed[rule.from := closed[rule.from] || Closing(rule)] == closed;
    }
  }

  lemma {:induction false} SumZero(a: seq<int>, k: nat)
    requires k <= |a| && forall x :: 0 <= x < |a| ==> a[x] == 0
    ensures Sum(a, k) == 0
  {
    if k > 0 {
      SumZero(a, k - 1);
    }
  }
}

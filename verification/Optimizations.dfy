/** The optimisation loop: its metric-call budget, its best candidate and the states it saves. */
module Optimizations {
  import opened Basics
  import opened Frontiers

  type Example = Name

  datatype Item = Item(example: Name, score: real, objectives: map<Name, real>)

  /** What an evaluator returns, or that it fails. */
  datatype Evaluation = Evaluation(items: seq<Item>) | EvaluationFails

  datatype Config = Config(
    seed: Candidate, trainset: seq<Example>, valset: seq<Example>, maxMetricCalls: int, minibatch: int, merges: bool)

  /** OptimizationConfig.Validate, of the fields the loop depends on. */
  predicate ConfigOk(c: Config) {
    && |c.seed| > 0 && |c.trainset| > 0 && c.maxMetricCalls > 0 && c.minibatch > 0
    && c.maxMetricCalls >= |ValidationSet(c)|
  }

  function ValidationSet(c: Config): seq<Example> {
    if |c.valset| > 0 then c.valset else c.trainset
  }

  /** What evaluators, proposers, selectors, observers, storage and random numbers come to. The first
      number is the call's, so two calls may come to different things. ids are NewID's results. */
  datatype World = World(
    evaluate: (nat, Candidate, seq<Example>) -> Evaluation,
    select: (nat, nat) -> nat,
    propose: (nat, Candidate) -> Option<Candidate>,
    accept: (real, real) -> bool,
    permute: (nat, nat) -> seq<nat>,
    fails: nat -> bool,
    ids: nat -> Name)

  /** A selector returns one of the records, NewID's results are not blank and never repeat, and a random
      permutation has every index once. */
  ghost predicate WorldOk(w: World) {
    && (forall k, n {:trigger w.select(k, n)} :: n > 0 ==> w.select(k, n) < n)
    && (forall k {:trigger w.ids(k)} :: !Blank(w.ids(k)))
    && (forall j, k {:trigger w.ids(j), w.ids(k)} :: j != k ==> w.ids(j) != w.ids(k))
    && (forall k, n {:trigger w.permute(k, n)} :: |w.permute(k, n)| == n && forall i :: 0 <= i < n ==> w.permute(k, n)[i] < n)
  }

  /** strings.TrimSpace leaves nothing of s. */
  predicate Blank(s: Name) {
    forall i :: 0 <= i < |s| ==> s[i] in {' ', '\t', '\n', '\r'}
  }

  /** An OptimizationState. */
  datatype State = State(
    runId: Name, fingerprint: Name, candidates: seq<Record>, best: Name, frontier: seq<Name>, metricCalls: int, iterations: int)

  // ---- the invariants of a state that may be resumed ----

  /** What OptimizationState.Validate asks of a state. */
  predicate Resumable(s: State) {
    && !Blank(s.runId) && !Blank(s.fingerprint)
    && s.metricCalls >= 0 && s.iterations >= 0
    && |s.candidates| > 0 && RecordsOk(s.candidates)
    && !Blank(s.best) && HasId(s.candidates, s.best)
    && |s.frontier| > 0 && FrontierOk(s)
  }

  /** Every record has an id of its own and a candidate. */
  predicate RecordsOk(records: seq<Record>) {
    && (forall i :: 0 <= i < |records| ==> !Blank(records[i].id) && |records[i].candidate| > 0)
    && DistinctIds(records)
  }

  /** The frontier names records, each once. */
  predicate FrontierOk(s: State) {
    && (forall k :: 0 <= k < |s.frontier| ==> HasId(s.candidates, s.frontier[k]))
    && (forall j, k :: 0 <= j < k < |s.frontier| ==> s.frontier[j] != s.frontier[k])
  }

  predicate HasId(records: seq<Record>, id: Name) {
    exists i :: 0 <= i < |records| && records[i].id == id
  }

  /** candidateIndex: the ids of the records, if each has one of its own and a candidate. */
  method CandidateIndex(records: seq<Record>) returns (index: Option<set<Name>>)
    ensures index.Some? <==> RecordsOk(records)
    ensures index.Some? ==> forall id :: id in index.value <==> HasId(records, id)
  {
    hide Blank;
    var ids: set<Name> := {};
    for i := 0 to |records|
      invariant forall id :: id in ids <==> exists k :: 0 <= k < i && records[k].id == id
      invariant forall k :: 0 <= k < i ==> !Blank(records[k].id) && |records[k].candidate| > 0
      invariant forall j, k :: 0 <= j < k < i ==> records[j].id != records[k].id
    {
      if Blank(records[i].id) || records[i].id in ids || |records[i].candidate| == 0 {
        return None;
      }
      ids := ids + {records[i].id};
    }
    return Some(ids);
  }

  /** validateFrontier. */
  method ValidateFrontier(s: State, index: set<Name>) returns (ok: bool)
    requires forall id :: id in index <==> HasId(s.candidates, id)
    ensures ok == (|s.frontier| > 0 && FrontierOk(s))
  {
    hide HasId;
    if |s.frontier| == 0 {
      return false;
    }
    var seen: set<Name> := {};
    for k := 0 to |s.frontier|
      invariant forall id :: id in seen <==> exists j :: 0 <= j < k && s.frontier[j] == id
      invariant forall j :: 0 <= j < k ==> HasId(s.candidates, s.frontier[j])
      invariant forall i, j :: 0 <= i < j < k ==> s.frontier[i] != s.frontier[j]
    {
      if s.frontier[k] !in index || s.frontier[k] in seen {
        return false;
      }
      seen := seen + {s.frontier[k]};
    }
    return true;
  }

  /** Validate. */
  method Validate(s: State) returns (ok: bool)
    ensures ok == Resumable(s)
  {
    hide Blank, RecordsOk, FrontierOk, HasId;
    if Blank(s.runId) || Blank(s.fingerprint) || s.metricCalls < 0 || s.iterations < 0 || |s.candidates| == 0 {
      return false;
    }
    var index := CandidateIndex(s.candidates);
    if index.None? || Blank(s.best) || s.best !in index.value {
      return false;
    }
    ok := ValidateFrontier(s, index.value);
  }

  // ---- scores ----

  function SumScore(items: seq<Item>): real {
    if items == [] then 0.0 else SumScore(items[..|items| - 1]) + items[|items| - 1].score
  }

  function AverageScore(items: seq<Item>): real {
    if items == [] then 0.0 else SumScore(items) / (|items| as real)
  }

  function ScoresByExample(items: seq<Item>): (scores: map<Name, real>)
    ensures items != [] ==> items[|items| - 1].example in scores
  {
    if items == [] then map[]
    else ScoresByExample(items[..|items| - 1])[items[|items| - 1].example := items[|items| - 1].score]
  }

  function ObjectivesByExample(items: seq<Item>): map<Name, map<Name, real>> {
    if items == [] then map[]
    else
      var last := items[|items| - 1];
      var rest := ObjectivesByExample(items[..|items| - 1]);
      if |last.objectives| == 0 then rest else rest[last.example := last.objectives]
  }

  /** scoreForExamples: the scores of the items of the examples wanted. */
  function ScoreFor(items: seq<Item>, wanted: set<Example>): real {
    if items == [] then 0.0
    else
      var last := items[|items| - 1];
      ScoreFor(items[..|items| - 1], wanted) + if last.example in wanted then last.score else 0.0
  }

  /** Sums of scores add up. */
  lemma {:induction false} SumAdds(a: seq<Item>, b: seq<Item>)
    ensures SumScore(a + b) == SumScore(a) + SumScore(b) && forall i: Item :: SumScore([i]) == i.score
    decreases |b|
  {
    assert forall i: Item :: [i][..0] == [];
    if b == [] {
      assert a + b == a;
    } else {
      var n := |b| - 1;
      assert (a + b)[..|a + b| - 1] == a + b[..n];
      SumAdds(a, b[..n]);
    }
  }

  /** The average is the mean: that of one item is its score, and each part of a batch weighs as many as it has. */
  lemma AverageMeans(a: seq<Item>, b: seq<Item>)
    ensures forall i: Item :: AverageScore([i]) == i.score
    ensures a != [] && b != [] ==>
      AverageScore(a + b) * (|a + b| as real) == AverageScore(a) * (|a| as real) + AverageScore(b) * (|b| as real)
  {
    SumAdds(a, b);
    forall i: Item ensures AverageScore([i]) == i.score {
      assert SumScore([i]) == i.score;
    }
    AverageIsShare(a);
    AverageIsShare(b);
    AverageIsShare(a + b);
  }

  lemma AverageIsShare(items: seq<Item>)
    ensures AverageScore(items) * (|items| as real) == SumScore(items)
  {
  }

  /** The items of the examples wanted, in order. */
  function Wanted(items: seq<Item>, wanted: set<Example>): seq<Item> {
    if items == [] then []
    else if items[0].example in wanted then [items[0]] + Wanted(items[1..], wanted) else Wanted(items[1..], wanted)
  }

  /** Scores of the examples wanted add up, and are those of the items wanted. */
  lemma {:induction false} ScoreForMeans(a: seq<Item>, b: seq<Item>, wanted: set<Example>)
    ensures ScoreFor(a + b, wanted) == ScoreFor(a, wanted) + ScoreFor(b, wanted)
    ensures ScoreFor(a, wanted) == SumScore(Wanted(a, wanted))
  {
    ScoreForAdds(a, b, wanted);
    ScoreForWanted(a, wanted);
  }

  lemma {:induction false} ScoreForAdds(a: seq<Item>, b: seq<Item>, wanted: set<Example>)
    ensures ScoreFor(a + b, wanted) == ScoreFor(a, wanted) + ScoreFor(b, wanted)
    decreases |b|
  {
    if b == [] {
      assert a + b == a;
    } else {
      var n := |b| - 1;
      assert (a + b)[..|a + b| - 1] == a + b[..n];
      ScoreForAdds(a, b[..n], wanted);
    }
  }

  lemma {:induction false} ScoreForWanted(items: seq<Item>, wanted: set<Example>)
    ensures ScoreFor(items, wanted) == SumScore(Wanted(items, wanted))
    decreases |items|
  {
    if items != [] {
      var first := [items[0]];
      assert first + items[1..] == items && first[..0] == [];
      ScoreForWanted(items[1..], wanted);
      ScoreForAdds(first, items[1..], wanted);
      SumAdds(first, Wanted(items[1..], wanted));
    }
  }

  /** The i-th item is the last of its example. */
  predicate LastOf(items: seq<Item>, i: int, example: Name) {
    0 <= i < |items| && items[i].example == example && forall j :: i < j < |items| ==> items[j].example != example
  }

  /** And the last of its example with objectives. */
  predicate LastWith(items: seq<Item>, i: int, example: Name) {
    && 0 <= i < |items| && items[i].example == example && |items[i].objectives| > 0
    && forall j :: i < j < |items| && items[j].example == example ==> |items[j].objectives| == 0
  }

  /** A record's scores are those of the items: the mean, and by example that of the example's last item and its last
      objectives. */
  ghost predicate ScoredBy(record: Record, items: seq<Item>) {
    && record.score * (|items| as real) == SumScore(items)
    && (forall e, i :: LastOf(items, i, e) ==> e in record.scores && record.scores[e] == items[i].score)
    && (forall e :: e in record.scores ==> exists i :: LastOf(items, i, e))
    && (forall e, i :: LastWith(items, i, e) ==> e in record.objectives && record.objectives[e] == items[i].objectives)
    && (forall e :: e in record.objectives ==> exists i :: LastWith(items, i, e))
  }

  lemma {:induction false} ScoresMean(items: seq<Item>)
    ensures forall e, i :: LastOf(items, i, e) ==> e in ScoresByExample(items) && ScoresByExample(items)[e] == items[i].score
    ensures forall e :: e in ScoresByExample(items) ==> exists i :: LastOf(items, i, e)
    decreases |items|
  {
    if items != [] {
      var n := |items| - 1;
      var less := items[..n];
      ScoresMean(less);
      forall e, i | LastOf(items, i, e) ensures e in ScoresByExample(items) && ScoresByExample(items)[e] == items[i].score {
        if i < n {
          assert LastOf(less, i, e) && items[n].example != e;
        }
      }
      forall e | e in ScoresByExample(items) ensures exists i :: LastOf(items, i, e) {
        if e == items[n].example {
          assert LastOf(items, n, e);
        } else {
          assert e in ScoresByExample(less);
          var i :| LastOf(less, i, e);
          assert LastOf(items, i, e);
        }
      }
    }
  }

  lemma {:induction false} ObjectivesMean(items: seq<Item>)
    ensures forall e, i :: LastWith(items, i, e) ==> e in ObjectivesByExample(items) && ObjectivesByExample(items)[e] == items[i].objectives
    ensures forall e :: e in ObjectivesByExample(items) ==> exists i :: LastWith(items, i, e)
    decreases |items|
  {
    if items != [] {
      var n := |items| - 1;
      var less := items[..n];
      ObjectivesMean(less);
      forall e, i | LastWith(items, i, e)
        ensures e in ObjectivesByExample(items) && ObjectivesByExample(items)[e] == items[i].objectives
      {
        if i < n {
          assert LastWith(less, i, e) && (items[n].example == e ==> |items[n].objectives| == 0);
        }
      }
      forall e | e in ObjectivesByExample(items) ensures exists i :: LastWith(items, i, e) {
        if e == items[n].example && |items[n].objectives| > 0 {
          assert LastWith(items, n, e);
        } else {
          assert e in ObjectivesByExample(less);
          var i :| LastWith(less, i, e);
          assert LastWith(items, i, e);
        }
      }
    }
  }

  lemma RecordScored(id: Name, candidate: Candidate, items: seq<Item>)
    ensures ScoredBy(RecordOf(id, candidate, items), items)
  {
    ScoresMean(items);
    ObjectivesMean(items);
    AverageIsShare(items);
    hide SumScore, AverageScore, ScoresByExample, ObjectivesByExample, LastOf, LastWith;
  }

  /** MergeCandidate: base with the entries of patch that are not blank. */
  function MergeCandidate(base: Candidate, patch: Candidate): (merged: Candidate)
    ensures base.Keys <= merged.Keys
    ensures forall k :: k in merged ==>
      merged[k] == if k in patch && !Blank(patch[k]) then patch[k] else if k in base then base[k] else ""
  {
    base + map k | k in patch && !Blank(patch[k]) :: patch[k]
  }

  /** sampleExact: size of the examples at random, or all when there are no more. */
  method SampleExact(examples: seq<Example>, size: int, perm: seq<nat>) returns (batch: seq<Example>)
    requires |perm| == |examples| && forall i :: 0 <= i < |perm| ==> perm[i] < |examples|
    ensures |batch| == Max(0, Min(size, |examples|))
    ensures forall e :: e in batch ==> e in examples
    ensures if size >= |examples| then batch == examples else forall i :: 0 <= i < |batch| ==> batch[i] == examples[perm[i]]
  {
    if size <= 0 || |examples| == 0 {
      return [];
    }
    if size >= |examples| {
      return examples;
    }
    batch := [];
    for i := 0 to size
      invariant |batch| == i && forall e :: e in batch ==> e in examples
      invariant forall j :: 0 <= j < i ==> batch[j] == examples[perm[j]]
    {
      batch := batch + [examples[perm[i]]];
    }
  }

  // ---- the run ----

  /** best has the highest validation score of the records. */
  predicate IsHighest(records: seq<Record>, best: Name) {
    exists b :: 0 <= b < |records| && records[b].id == best && NoneHigher(records, records[b])
  }

  predicate NoneHigher(records: seq<Record>, best: Record) {
    forall i :: 0 <= i < |records| ==> records[i].score <= best.score
  }

  /** The frontier is that of the candidates. */
  ghost predicate FrontierIsCurrent(s: State) {
    forall id :: id in s.frontier <==> IsWinner(s.candidates, id) && Undominated(s.candidates, id)
  }

  /** Some candidate has a score by example. */
  predicate Scored(records: seq<Record>) {
    exists i, e :: 0 <= i < |records| && e in records[i].scores
  }

  /** What every state of a run that started with the seed meets. */
  ghost predicate Sound(s: State) {
    Resumable(s) && IsHighest(s.candidates, s.best) && FrontierIsCurrent(s) && Scored(s.candidates)
  }

  predicate BestAt(s: State, i: int) {
    0 <= i < |s.candidates| && s.candidates[i].id == s.best
  }

  /** Every candidate stays, and the best is the one before or a later one: no candidate recorded since
      scores above it, nor does the best before. */
  ghost predicate Improves(before: State, after: State) {
    && before.candidates <= after.candidates
    && exists b, a :: BestAt(before, b) && BestAt(after, a) && Outscores(before, after, b, a)
  }

  predicate Outscores(before: State, after: State, b: int, a: int)
    requires BestAt(before, b) && BestAt(after, a)
  {
    && (a == b || a >= |before.candidates|)
    && before.candidates[b].score <= after.candidates[a].score
    && forall i :: |before.candidates| <= i < |after.candidates| ==> after.candidates[i].score <= after.candidates[a].score
  }

  /** What a run that may have resumed any state keeps: the frontier is that of the candidates, or still the
      one it found, and the metric calls stay within the limit, or are those it found beyond it. */
  ghost predicate Progress(c: Config, before: State, after: State) {
    && Improves(before, after)
    && (FrontierIsCurrent(after) || (after.candidates == before.candidates && after.frontier == before.frontier))
    && before.metricCalls <= after.metricCalls <= Max(before.metricCalls, c.maxMetricCalls)
  }

  /** The states saved from the n-th on came from start. */
  ghost predicate SavedSince(c: Config, start: State, saved: seq<State>, n: nat) {
    forall i :: n <= i < |saved| ==> Progress(c, start, saved[i])
  }

  /** The same candidates and frontier, with metric calls or iterations counted, are progress. */
  lemma Counting(c: Config, before: State, after: State)
    requires Resumable(before) && after == before.(metricCalls := after.metricCalls, iterations := after.iterations)
    requires before.metricCalls <= after.metricCalls <= Max(before.metricCalls, c.maxMetricCalls)
    ensures Progress(c, before, after)
    ensures after.iterations >= 0 ==> Resumable(after)
  {
    hide Blank, IsWinner, Undominated;
    var b :| 0 <= b < |before.candidates| && before.candidates[b].id == before.best;
    assert BestAt(before, b) && BestAt(after, b) && Outscores(before, after, b, b);
  }

  lemma ProgressOn(c: Config, first: State, between: State, last: State)
    requires DistinctIds(between.candidates) && Progress(c, first, between) && Progress(c, between, last)
    ensures Progress(c, first, last)
  {
    hide IsWinner, Undominated;
    var b, a :| BestAt(first, b) && BestAt(between, a) && Outscores(first, between, b, a);
    var d, e :| BestAt(between, d) && BestAt(last, e) && Outscores(between, last, d, e);
    assert a == d;
    assert first.candidates <= last.candidates;
    assert Outscores(first, last, b, e) by {
      forall i | |first.candidates| <= i < |last.candidates| ensures last.candidates[i].score <= last.candidates[e].score {
        if i < |between.candidates| {
          assert last.candidates[i] == between.candidates[i];
        }
      }
    }
  }

  /** A run keeps the best candidate the highest and the frontier that of the candidates. */
  lemma SoundKept(c: Config, before: State, after: State)
    requires Sound(before) && Resumable(after) && Progress(c, before, after)
    ensures Sound(after)
  {
    hide Blank, IsWinner, Undominated, FrontierOk, HasId;
    var b, a :| BestAt(before, b) && BestAt(after, a) && Outscores(before, after, b, a);
    var h :| 0 <= h < |before.candidates| && before.candidates[h].id == before.best && NoneHigher(before.candidates, before.candidates[h]);
    assert h == b;
    assert NoneHigher(after.candidates, after.candidates[a]) by {
      forall i | 0 <= i < |after.candidates| ensures after.candidates[i].score <= after.candidates[a].score {
        if i < |before.candidates| {
          assert after.candidates[i] == before.candidates[i];
        }
      }
    }
    var i, e :| 0 <= i < |before.candidates| && e in before.candidates[i].scores;
    assert e in after.candidates[i].scores;
  }

  const MISSING := State("", "", [], "", [], 0, 0)

  /** What LoadOptimizationState comes to. */
  datatype Loaded = Found(state: State) | NotFound | LoadFails

  /** The run goes on from the state loaded. isMissing takes the empty state for none. */
  predicate Resumes(resume: bool, loaded: Loaded) {
    resume && loaded.Found? && loaded.state != MISSING
  }

  /** The ids from the k-th on are those of no candidate. */
  ghost predicate Unused(w: World, k: nat, records: seq<Record>) {
    forall j {:trigger w.ids(j)} :: j >= k ==> !HasId(records, w.ids(j))
  }

  ghost predicate AllResumable(saved: seq<State>) {
    forall i :: 0 <= i < |saved| ==> Resumable(saved[i])
  }

  /** batch is the validation set, as far as left metric calls last. */
  predicate ValidationBatch(c: Config, batch: seq<Example>, left: int) {
    && |batch| == Min(left, |ValidationSet(c)|) && (forall e :: e in batch ==> e in ValidationSet(c))
    && (left >= |ValidationSet(c)| ==> batch == ValidationSet(c))
  }

  /** The record's scores are of what the k-th call of the evaluator came to on batch. */
  ghost predicate EvaluatedOn(w: World, record: Record, batch: seq<Example>, k: nat) {
    var result := w.evaluate(k, record.candidate, batch);
    result.Evaluation? && |result.items| == |batch| && ScoredBy(record, result.items)
  }

  /** The record's scores are what its candidate came to on the validation set, as far as left metric calls lasted. */
  ghost predicate Evaluated(c: Config, w: World, record: Record, left: int) {
    exists batch, k :: ValidationBatch(c, batch, left) && EvaluatedOn(w, record, batch, k)
  }

  /** The records from the n-th on have the scores of their candidates on the validation set, or on as much of it as the
      metric calls lasted for. */
  ghost predicate Genuine(c: Config, w: World, records: seq<Record>, n: nat) {
    forall i :: n <= i < |records| ==> GenuineRecord(c, w, records[i])
  }

  ghost predicate GenuineRecord(c: Config, w: World, record: Record) {
    exists left :: left > 0 && Evaluated(c, w, record, left)
  }

  lemma GenuineOn(c: Config, w: World, first: seq<Record>, between: seq<Record>, last: seq<Record>)
    requires first <= between <= last && Genuine(c, w, between, |first|) && Genuine(c, w, last, |between|)
    ensures Genuine(c, w, last, |first|)
  {
    hide GenuineRecord;
    forall i | |first| <= i < |last| ensures GenuineRecord(c, w, last[i]) {
      assert i < |between| ==> last[i] == between[i];
    }
  }

  lemma SeedGenuine(c: Config, w: World, records: seq<Record>)
    requires ConfigOk(c) && |records| == 1 && exists k :: EvaluatedOn(w, records[0], ValidationSet(c), k)
    ensures Genuine(c, w, records, 0)
  {
    var k :| EvaluatedOn(w, records[0], ValidationSet(c), k);
    var batch := ValidationSet(c);
    assert ValidationBatch(c, batch, |batch|) && EvaluatedOn(w, records[0], batch, k);
    assert Evaluated(c, w, records[0], |batch|);
    assert GenuineRecord(c, w, records[0]);
    hide EvaluatedOn, ValidationBatch;
  }

  /** The state with one more candidate, recorded with its scores on the validation set. */
  ghost predicate Recorded(c: Config, w: World, before: State, after: State, candidate: Candidate, left: int) {
    left > 0 && exists record: Record ::
      record.candidate == candidate && Evaluated(c, w, record, left) && after.candidates == before.candidates + [record]
  }

  lemma SameCandidates(c: Config, w: World, before: State, between: State, after: State, candidate: Candidate, left: int)
    requires between.candidates == before.candidates
    ensures Recorded(c, w, between, after, candidate, left) ==>
      Recorded(c, w, before, after, candidate, left) && before.candidates != after.candidates
  {
    hide Evaluated;
  }

  lemma AsRecorded(c: Config, w: World, before: State, after: State, record: Record, items: seq<Item>, batch: seq<Example>, k: nat, left: int)
    requires record == RecordOf(record.id, record.candidate, items) && after.candidates == before.candidates + [record]
    requires left > 0 && ValidationBatch(c, batch, left)
    requires w.evaluate(k, record.candidate, batch) == Evaluation(items) && |items| == |batch|
    ensures Recorded(c, w, before, after, record.candidate, left)
  {
    RecordScored(record.id, record.candidate, items);
    assert EvaluatedOn(w, record, batch, k);
    assert Evaluated(c, w, record, left);
    hide RecordOf, ValidationBatch, EvaluatedOn, Evaluated;
  }

  lemma RecordedGenuine(c: Config, w: World, before: State, after: State, candidate: Candidate, left: int)
    requires Recorded(c, w, before, after, candidate, left)
    ensures before.candidates <= after.candidates && Genuine(c, w, after.candidates, |before.candidates|)
  {
    hide Evaluated;
    var record: Record :| record.candidate == candidate && Evaluated(c, w, record, left) && after.candidates == before.candidates + [record];
    assert GenuineRecord(c, w, record);
  }

  lemma NoneRecorded(c: Config, w: World, records: seq<Record>)
    ensures Genuine(c, w, records, |records|)
  {
  }

  function RecordOf(id: Name, candidate: Candidate, items: seq<Item>): Record {
    Record(id, candidate, AverageScore(items), ScoresByExample(items), ObjectivesByExample(items))
  }

  /** The candidate is left's with what a proposer changed of it. */
  ghost predicate Changed(w: World, base: Candidate, candidate: Candidate) {
    exists k, patch :: w.propose(k, base) == Some(patch) && candidate == MergeCandidate(base, patch)
  }

  /** The items are what the candidate came to on the batch. */
  ghost predicate ComesTo(w: World, candidate: Candidate, batch: seq<Example>, items: seq<Item>) {
    exists k :: w.evaluate(k, candidate, batch) == Evaluation(items)
  }

  lemma DidCome(w: World, candidate: Candidate, batch: seq<Example>, items: seq<Item>, k: nat)
    requires w.evaluate(k, candidate, batch) == Evaluation(items)
    ensures ComesTo(w, candidate, batch, items)
  {
  }

  lemma DidChange(w: World, base: Candidate, k: nat)
    requires w.propose(k, base).Some?
    ensures Changed(w, base, MergeCandidate(base, w.propose(k, base).value))
  {
  }

  ghost predicate BelowBoth(record: Record, left: Record, right: Record) {
    record.score < left.score && record.score < right.score
  }

  /** A merge of two candidates, with its scores on the validation set. */
  ghost predicate IsMerge(c: Config, w: World, left: Record, record: Record, calls: int) {
    Changed(w, left.candidate, record.candidate) && Evaluated(c, w, record, calls)
  }

  /** A merge of the two was evaluated, and is the record unless it scores below both. */
  ghost predicate MergeTried(c: Config, w: World, left: Record, right: Record, calls: int, record: Option<Record>) {
    exists merged: Record ::
      IsMerge(c, w, left, merged, calls) && record == if BelowBoth(merged, left, right) then None else Some(merged)
  }

  lemma MergedSo(c: Config, w: World, left: Record, right: Record, patch: Candidate, merged: Candidate, items: seq<Item>, batch: seq<Example>,
    j: nat, k: nat, calls: int)
    requires w.propose(j, left.candidate) == Some(patch) && merged == MergeCandidate(left.candidate, patch)
    requires ValidationBatch(c, batch, calls) && w.evaluate(k, merged, batch) == Evaluation(items) && |items| == |batch|
    ensures var score := AverageScore(items); if score < left.score && score < right.score then MergeTried(c, w, left, right, calls, None)
      else forall id :: MergeTried(c, w, left, right, calls, Some(RecordOf(id, merged, items)))
  {
    hide MergeCandidate, ValidationBatch, ScoredBy, AverageScore, ScoresByExample, ObjectivesByExample;
    DidChange(w, left.candidate, j);
    forall id ensures
      var record := RecordOf(id, merged, items);
      MergeTried(c, w, left, right, calls, if BelowBoth(record, left, right) then None else Some(record))
    {
      RecordScored(id, merged, items);
      assert EvaluatedOn(w, RecordOf(id, merged, items), batch, k);
      assert IsMerge(c, w, left, RecordOf(id, merged, items), calls);
    }
    assert AverageScore(items) == RecordOf("", merged, items).score;
  }

  /** What tryMerge may record: a merge of the first two frontier candidates that does not score below both. */
  ghost predicate MergeRecorded(c: Config, w: World, before: State, after: State) {
    exists left, right, record ::
      && |before.frontier| >= 2 && IsMerge(c, w, left, record, c.maxMetricCalls - before.metricCalls) && !BelowBoth(record, left, right)
      && left in before.candidates && left.id == before.frontier[0] && right in before.candidates && right.id == before.frontier[1]
      && after.candidates == before.candidates + [record]
  }

  /** The merge of the first two frontier candidates scores below both. */
  ghost predicate MergeDropped(c: Config, w: World, before: State) {
    exists left, right ::
      && |before.frontier| >= 2 && MergeTried(c, w, left, right, c.maxMetricCalls - before.metricCalls, None)
      && left in before.candidates && left.id == before.frontier[0] && right in before.candidates && right.id == before.frontier[1]
  }

  lemma TriedDropped(c: Config, w: World, before: State, left: Record, right: Record)
    requires MergeTried(c, w, left, right, c.maxMetricCalls - before.metricCalls, None) && |before.frontier| >= 2
    requires left in before.candidates && left.id == before.frontier[0] && right in before.candidates && right.id == before.frontier[1]
    ensures MergeDropped(c, w, before)
  {
    hide MergeTried;
  }

  lemma TriedRecorded(c: Config, w: World, before: State, after: State, left: Record, right: Record, record: Record)
    requires MergeTried(c, w, left, right, c.maxMetricCalls - before.metricCalls, Some(record)) && |before.frontier| >= 2
    requires left in before.candidates && left.id == before.frontier[0] && right in before.candidates && right.id == before.frontier[1]
    requires after.candidates == before.candidates + [record]
    ensures MergeRecorded(c, w, before, after)
  {
    hide IsMerge, BelowBoth;
  }

  lemma MergeGenuine(c: Config, w: World, before: State, after: State)
    requires MergeRecorded(c, w, before, after) && before.metricCalls < c.maxMetricCalls
    ensures before.candidates <= after.candidates && Genuine(c, w, after.candidates, |before.candidates|)
  {
    hide Evaluated, Changed, BelowBoth;
    var left, right, record :|
      && |before.frontier| >= 2 && IsMerge(c, w, left, record, c.maxMetricCalls - before.metricCalls) && !BelowBoth(record, left, right)
      && left in before.candidates && left.id == before.frontier[0] && right in before.candidates && right.id == before.frontier[1]
      && after.candidates == before.candidates + [record];
    assert GenuineRecord(c, w, record);
  }

  /** A proposal, the batch its parent was evaluated on and what that came to. */
  datatype Attempt = Attempt(proposed: Candidate, batch: seq<Example>, before: seq<Item>)

  /** A change of a parent was compared with it on the same examples, and was recorded exactly when the criterion
      accepts what the two came to. */
  ghost predicate Judged(w: World, before: State, after: State) {
    exists parent, attempt, compared, items :: JudgedOn(w, before, after, parent, attempt, compared, items)
  }

  ghost predicate JudgedOn(w: World, before: State, after: State, parent: Record, attempt: Attempt, compared: seq<Example>, items: seq<Item>) {
    && parent in before.candidates && Changed(w, parent.candidate, attempt.proposed)
    && ComesTo(w, parent.candidate, attempt.batch, attempt.before) && ComesTo(w, attempt.proposed, compared, items)
    && (forall e :: e in compared ==> e in attempt.batch)
    && if w.accept(ScoreFor(attempt.before, set e | e in compared), SumScore(items))
       then |before.candidates| < |after.candidates| && after.candidates[|before.candidates|].candidate == attempt.proposed
       else after.candidates == before.candidates
  }

  /** What an iteration that goes on has recorded of its proposal. */
  lemma HasJudged(c: Config, w: World, first: State, before: State, between: State, after: State, parent: Record, attempt: Attempt, compared: seq<Example>,
    items: seq<Item>, left: int)
    requires first.candidates == before.candidates && parent in before.candidates && Changed(w, parent.candidate, attempt.proposed)
    requires ComesTo(w, parent.candidate, attempt.batch, attempt.before) && ComesTo(w, attempt.proposed, compared, items)
    requires forall e :: e in compared ==> e in attempt.batch
    requires if w.accept(ScoreFor(attempt.before, set e | e in compared), SumScore(items))
      then Recorded(c, w, before, between, attempt.proposed, left) && between.candidates <= after.candidates
      else after.candidates == before.candidates
    ensures Judged(w, first, after)
  {
    hide Changed, ComesTo, ScoreFor, SumScore, Evaluated;
    assert JudgedOn(w, first, after, parent, attempt, compared, items);
  }

  /** How an iteration ends: the run goes on, its metric calls are spent, or it fails. */
  datatype Step = GoOn | Stop | Failed

  class Optimizer {
    const c: Config
    const w: World
    var s: State
    var calls: nat
    var made: nat
    ghost var saved: seq<State>

    ghost predicate Ready()
      reads this
    {
      ConfigOk(c) && WorldOk(w) && Unused(w, made, s.candidates) && AllResumable(saved)
    }

    /** The state is any that may be resumed, with the best and the frontier it was saved with. */
    ghost predicate Valid()
      reads this
    {
      Ready() && Resumable(s)
    }

    constructor (c: Config, w: World)
      requires ConfigOk(c) && WorldOk(w)
      ensures this.c == c && this.w == w && s == MISSING && saved == [] && Ready()
    {
      this.c, this.w, s, calls, made, saved := c, w, MISSING, 0, 0, [];
    }

    /** A record with an id that NewID has given and no candidate has, a candidate and a score. */
    ghost predicate Recordable(record: Record)
      reads this
    {
      && !Blank(record.id) && !HasId(s.candidates, record.id) && |record.candidate| > 0 && (exists e :: e in record.scores)
      && forall j {:trigger w.ids(j)} :: j >= made ==> w.ids(j) != record.id
    }

    method NewId() returns (id: Name)
      requires Ready()
      modifies this`made
      ensures Ready() && (old(Valid()) ==> Valid()) && !Blank(id) && !HasId(s.candidates, id)
      ensures forall j {:trigger w.ids(j)} :: j >= made ==> w.ids(j) != id
    {
      id := w.ids(made);
      made := made + 1;
    }

    /** emit: whether an event could not be stored. */
    method Emit() returns (ok: bool)
      requires Ready()
      modifies this`calls
      ensures Ready() && (old(Valid()) ==> Valid())
    {
      calls := calls + 1;
      return !w.fails(calls);
    }

    /** save. */
    method Save() returns (ok: bool)
      requires Ready() && Resumable(s)
      modifies this`calls, this`saved
      ensures Ready() && (old(Valid()) ==> Valid()) && saved == old(saved) + [s]
    {
      calls := calls + 1;
      saved := saved + [s];
      return !w.fails(calls);
    }

    /** Evaluates a candidate on a batch, and counts its metric calls when every example has an item. */
    method Evaluate(candidate: Candidate, batch: seq<Example>) returns (items: Option<seq<Item>>)
      requires Ready()
      modifies this`calls, this`s
      ensures Ready() && (old(Valid()) ==> Valid()) && s == old(s).(metricCalls := s.metricCalls)
      ensures calls == old(calls) + 1
      ensures items.Some? <==> w.evaluate(calls, candidate, batch).Evaluation? && |w.evaluate(calls, candidate, batch).items| == |batch|
      ensures items.Some? ==> items.value == w.evaluate(calls, candidate, batch).items && s.metricCalls == old(s.metricCalls) + |batch|
      ensures items.None? ==> s == old(s)
    {
      calls := calls + 1;
      var result := w.evaluate(calls, candidate, batch);
      if result.EvaluationFails? || |result.items| != |batch| {
        return None;
      }
      s := s.(metricCalls := s.metricCalls + |batch|);
      return Some(result.items);
    }

    /** Records a candidate: it is the best if its score is above the best's, and the frontier is
        computed anew. */
    method AddRecord(record: Record)
      requires Valid() && Recordable(record)
      modifies this`s
      ensures Valid() && s.candidates == old(s.candidates) + [record]
      ensures Progress(c, old(s), s) && FrontierIsCurrent(s)
      ensures s == old(s).(candidates := s.candidates, best := s.best, frontier := s.frontier)
    {
      hide Blank, IsWinner, Undominated, Wins;
      var best := BestRecord(s);
      var candidates := s.candidates + [record];
      RecordMore(s.candidates, record);
      var frontier := ComputeFrontier(candidates);
      FrontierThere(candidates, frontier);
      BestMore(s, candidates, record, best);
      s := s.(candidates := candidates, best := if record.score > best.score then record.id else s.best, frontier := frontier);
    }

    /** initializeState: evaluates the seed on the validation set, and records and saves it. */
    method Initialize(fingerprint: Name) returns (ok: bool)
      requires Ready() && !Blank(fingerprint) && |s.candidates| == 0
      modifies this
      ensures Ready() && (ok ==> Valid() && Sound(s))
      ensures ok ==> s.metricCalls == |ValidationSet(c)| && s.iterations == 0 && |s.candidates| == 1 && s.candidates[0].candidate == c.seed
      ensures ok ==> s.best == s.candidates[0].id && saved == old(saved) + [s]
      ensures ok ==> exists k :: EvaluatedOn(w, s.candidates[0], ValidationSet(c), k)
    {
      hide Blank, IsWinner, Undominated, Wins, ScoredBy;
      var runId := NewId();
      s := State(runId, fingerprint, [], "", [], 0, 0);
      ok := Emit();
      if !ok {
        return;
      }
      var items := Evaluate(c.seed, ValidationSet(c));
      if items.None? {
        return false;
      }
      ghost var k := calls;
      var id := NewId();
      var record := RecordOf(id, c.seed, items.value);
      RecordScored(id, c.seed, items.value);
      assert EvaluatedOn(w, record, ValidationSet(c), k);
      SeedFrontier(record, items.value);
      var frontier := ComputeFrontier([record]);
      FrontierThere([record], frontier);
      assert [record][0] == record;
      assert Unused(w, made, [record]);
      s := s.(candidates := [record], best := id, frontier := frontier);
      assert NoneHigher(s.candidates, s.candidates[0]);
      ok := Save();
    }

    /** startState: resumes the state loaded if it may be and was saved with the same configuration, and
        starts with the seed when there is none. */
    method Start(resume: bool, loaded: Loaded, fingerprint: Name) returns (ok: bool)
      requires Ready() && !Blank(fingerprint) && |s.candidates| == 0 && saved == []
      requires loaded.Found? ==> Unused(w, made, loaded.state.candidates)
      modifies this
      ensures Ready() && (ok ==> Valid() && SavedSince(c, s, saved, 0))
      ensures Resumes(resume, loaded) ==> (ok <==> Resumable(loaded.state) && loaded.state.fingerprint == fingerprint)
      ensures Resumes(resume, loaded) && ok ==> s == loaded.state
      ensures resume && loaded.LoadFails? ==> !ok
      ensures ok && !Resumes(resume, loaded) ==>
        && Sound(s) && s.metricCalls == |ValidationSet(c)| && s.iterations == 0 && |s.candidates| == 1 && s.candidates[0].candidate == c.seed
        && exists k :: EvaluatedOn(w, s.candidates[0], ValidationSet(c), k)
    {
      hide EvaluatedOn, Blank, Sound, HasId, AllResumable, WorldOk, Progress, FrontierOk, RecordsOk, Unused;
      if resume {
        match loaded
        case LoadFails =>
          return false;
        case NotFound =>
        case Found(state) =>
          if state != MISSING {
            ok := Validate(state);
            if !ok || state.fingerprint != fingerprint {
              return false;
            }
            s := state;
            return;
          }
      }
      ok := Initialize(fingerprint);
      if ok {
        Counting(c, s, s);
      }
    }

    /** proposeForIteration: evaluates the parent on a batch and has a change of it proposed; None when it
        fails. */
    method ProposeForIteration(parent: Record) returns (attempt: Option<Attempt>)
      requires Valid() && s.metricCalls < c.maxMetricCalls && |parent.candidate| > 0
      modifies this
      ensures Valid() && saved == old(saved) && s == old(s).(metricCalls := s.metricCalls)
      ensures old(s.metricCalls) <= s.metricCalls <= c.maxMetricCalls
      ensures attempt.Some? ==>
        && |attempt.value.proposed| > 0 && |attempt.value.batch| == |attempt.value.before| > 0
        && s.metricCalls == old(s.metricCalls) + |attempt.value.batch|
        && |attempt.value.batch| == Min(Min(c.minibatch, c.maxMetricCalls - old(s.metricCalls)), |c.trainset|)
        && (forall e :: e in attempt.value.batch ==> e in c.trainset)
        && Changed(w, parent.candidate, attempt.value.proposed)
        && ComesTo(w, parent.candidate, attempt.value.batch, attempt.value.before)
    {
      hide Changed, ComesTo, Resumable, AllResumable, Unused, AverageScore, ScoresByExample, ObjectivesByExample, MergeCandidate, Blank, HasId;
      var ok := Emit();
      if !ok {
        return None;
      }
      var batch := SampleExact(c.trainset, Min(c.minibatch, c.maxMetricCalls - s.metricCalls), w.permute(calls, |c.trainset|));
      var before := Evaluate(parent.candidate, batch);
      if before.None? {
        return None;
      }
      DidCome(w, parent.candidate, batch, before.value, calls);
      calls := calls + 1;
      var patch := w.propose(calls, parent.candidate);
      if patch.None? {
        return None;
      }
      var proposed := MergeCandidate(parent.candidate, patch.value);
      NotEmpty(parent.candidate, proposed);
      DidChange(w, parent.candidate, calls);
      ok := Emit();
      return if ok then Some(Attempt(proposed, batch, before.value)) else None;
    }

    /** runIteration: proposes a change of a parent, and records it when it is accepted. A run goes on only
        after an iteration that spent metric calls. */
    method RunIteration() returns (step: Step)
      requires Valid() && s.metricCalls < c.maxMetricCalls
      modifies this
      ensures Valid() && Progress(c, old(s), s) && s.iterations == old(s.iterations) + 1
      ensures old(saved) <= saved && SavedSince(c, old(s), saved, |old(saved)|)
      ensures step.GoOn? ==> s.metricCalls > old(s.metricCalls)
      ensures step.Stop? ==> s.metricCalls == c.maxMetricCalls
      ensures old(s.candidates) <= s.candidates && Genuine(c, w, s.candidates, |old(s.candidates)|)
      ensures step.GoOn? ==> Judged(w, old(s), s)
    {
      hide Resumable, AllResumable, Unused, AverageScore, ScoresByExample, ObjectivesByExample, MergeCandidate, Blank, HasId, WorldOk,
        Recorded, MergeRecorded, Improves, FrontierIsCurrent, DistinctIds, OnceMore, SavedSince, ConfigOk, Changed, ComesTo, Genuine, Judged,
        ScoreFor, SumScore, MergeDropped;
      ParentThere();
      NoneRecorded(c, w, s.candidates);
      s := s.(iterations := s.iterations + 1);
      Counting(c, old(s), s);
      var parent := Parent();
      calls := calls + 1;
      var attempt := ProposeForIteration(parent);
      Counting(c, old(s), s);
      SavedTwice(c, old(s), old(saved), s, saved, s, saved);
      if attempt.None? {
        return Failed;
      }
      if s.metricCalls >= c.maxMetricCalls {
        return Stop;
      }
      Apart(s);
      ghost var first, left := s, c.maxMetricCalls - s.metricCalls;
      var ok, accepted;
      ghost var compared, after;
      ok, accepted, compared, after := EvaluateProposal(attempt.value.proposed, attempt.value.batch, attempt.value.before);
      ProgressOn(c, old(s), first, s);
      SavedTwice(c, old(s), old(saved), s, saved, s, saved);
      left := left - |compared|;
      if accepted && s.candidates != first.candidates {
        RecordedGenuine(c, w, first, s, attempt.value.proposed, left);
      }
      if !ok || !accepted {
        if ok {
          HasJudged(c, w, old(s), first, s, s, parent, attempt.value, compared, after, left);
        }
        return if ok then GoOn else Failed;
      }
      Apart(s);
      ghost var proposed := first;
      first := s;
      ghost var kept := saved;
      ok := TryMerge();
      ProgressOn(c, old(s), first, s);
      SavedTwice(c, old(s), old(saved), first, kept, s, saved);
      if s.candidates == first.candidates {
        NoneRecorded(c, w, s.candidates);
      } else {
        MergeGenuine(c, w, first, s);
      }
      GenuineOn(c, w, proposed.candidates, first.candidates, s.candidates);
      if !ok {
        return Failed;
      }
      if s.metricCalls < c.maxMetricCalls {
        HasJudged(c, w, old(s), proposed, first, s, parent, attempt.value, compared, after, left);
      }
      return if s.metricCalls >= c.maxMetricCalls then Stop else GoOn;
    }

    /** The parent the selector returns. */
    function Parent(): (parent: Record)
      requires Ready() && |s.candidates| > 0
      reads this
      ensures parent in s.candidates
    {
      s.candidates[w.select(calls, |s.candidates|)]
    }

    /** rejectCandidate: saves the state as it is. */
    method RejectCandidate() returns (ok: bool)
      requires Valid()
      modifies this`calls, this`saved
      ensures Valid() && if ok then saved == old(saved) + [s] else OnceMore(old(saved), saved, s)
    {
      hide Resumable, AllResumable, Unused;
      ok := Emit();
      if ok {
        ok := Save();
      }
    }

    /** acceptCandidate: evaluates the candidate on the validation set, as far as the metric calls last, and
        records it; with none left it does nothing. */
    method AcceptCandidate(proposed: Candidate) returns (ok: bool)
      requires Valid() && |proposed| > 0 && s.metricCalls <= c.maxMetricCalls
      modifies this
      ensures Valid() && Progress(c, old(s), s) && OnceMore(old(saved), saved, s) && s.iterations == old(s.iterations)
      ensures s.candidates == old(s.candidates) || Recorded(c, w, old(s), s, proposed, c.maxMetricCalls - old(s.metricCalls))
      ensures ok ==> if old(s.metricCalls) >= c.maxMetricCalls then s == old(s)
        else Recorded(c, w, old(s), s, proposed, c.maxMetricCalls - old(s.metricCalls))
      ensures ok ==> s.metricCalls == old(s.metricCalls) + Min(|ValidationSet(c)|, c.maxMetricCalls - old(s.metricCalls))
    {
      hide Resumable, AllResumable, Unused, AverageScore, ScoresByExample, ObjectivesByExample, Blank, HasId, Improves, FrontierIsCurrent,
        DistinctIds, Recorded, OnceMore;
      Apart(s);
      Counting(c, s, s);
      NotMore(saved, s);
      if s.metricCalls >= c.maxMetricCalls {
        return true;
      }
      calls := calls + 1;
      var valBatch := SampleExact(ValidationSet(c), c.maxMetricCalls - s.metricCalls, w.permute(calls, |ValidationSet(c)|));
      var items := Evaluate(proposed, valBatch);
      Counting(c, old(s), s);
      if items.None? {
        return false;
      }
      ghost var k := calls;
      var id := NewId();
      ghost var evaluated := s;
      AddRecord(RecordOf(id, proposed, items.value));
      ProgressOn(c, old(s), evaluated, s);
      AsRecorded(c, w, old(s), s, RecordOf(id, proposed, items.value), items.value, valBatch, k, c.maxMetricCalls - old(s.metricCalls));
      ok := EmitAccepted();
    }

    /** emitAcceptedCandidateEvents, which saves the state as well. */
    method EmitAccepted() returns (ok: bool)
      requires Valid()
      modifies this`calls, this`saved
      ensures Valid() && OnceMore(old(saved), saved, s)
    {
      hide Resumable, AllResumable, Unused, WorldOk;
      ok := Emit();
      if ok {
        ok := Emit();
      }
      if ok {
        ok := Save();
      }
    }

    /** evaluateProposal: compares the proposal with its parent on the same examples, as far as the metric
        calls last, and accepts it or not as the criterion says. compared are the examples, and after what
        the proposal came to on them. */
    method EvaluateProposal(proposed: Candidate, batch: seq<Example>, before: seq<Item>)
      returns (ok: bool, accepted: bool, ghost compared: seq<Example>, ghost after: seq<Item>)
      requires Valid() && s.metricCalls < c.maxMetricCalls && |proposed| > 0 && |batch| > 0
      modifies this
      ensures Valid() && Progress(c, old(s), s) && OnceMore(old(saved), saved, s) && s.iterations == old(s.iterations)
      ensures |compared| == Min(|batch|, c.maxMetricCalls - old(s.metricCalls)) && forall e :: e in compared ==> e in batch
      ensures |batch| <= c.maxMetricCalls - old(s.metricCalls) ==> compared == batch
      ensures ok || accepted ==> ComesTo(w, proposed, compared, after)
      ensures accepted ==> w.accept(ScoreFor(before, set e | e in compared), SumScore(after))
      ensures ok && !accepted ==> !w.accept(ScoreFor(before, set e | e in compared), SumScore(after))
      ensures !accepted ==> s == old(s).(metricCalls := s.metricCalls)
      ensures ok && !accepted ==> s.metricCalls == old(s.metricCalls) + |compared| && saved == old(saved) + [s]
      ensures accepted ==>
        s.candidates == old(s.candidates) || Recorded(c, w, old(s), s, proposed, c.maxMetricCalls - old(s.metricCalls) - |compared|)
      ensures ok && accepted && s.candidates == old(s.candidates) ==> s.metricCalls == c.maxMetricCalls
    {
      hide Resumable, AllResumable, Unused, AverageScore, ScoresByExample, ObjectivesByExample, Blank, HasId, Recorded, Improves,
        FrontierIsCurrent, DistinctIds, ComesTo;
      Apart(s);
      after, ok, accepted := [], false, false;
      calls := calls + 1;
      var afterBatch := SampleExact(batch, c.maxMetricCalls - s.metricCalls, w.permute(calls, |batch|));
      compared := afterBatch;
      var items := Evaluate(proposed, afterBatch);
      Counting(c, old(s), s);
      if items.None? {
        return;
      }
      after := items.value;
      DidCome(w, proposed, afterBatch, after, calls);
      var beforeSum := ScoreFor(before, set e | e in afterBatch);
      if !w.accept(beforeSum, SumScore(items.value)) {
        ok := RejectCandidate();
        return;
      }
      accepted := true;
      ghost var compare := s;
      ok := AcceptCandidate(proposed);
      ProgressOn(c, old(s), compare, s);
      SameCandidates(c, w, old(s), compare, s, proposed, c.maxMetricCalls - compare.metricCalls);
    }

    /** evaluateMerge: has a merge of two candidates proposed and evaluates it, as far as the metric calls
        last; there is no record of one that scores below both. */
    method EvaluateMerge(left: Record, right: Record) returns (ok: bool, record: Option<Record>)
      requires Valid() && s.metricCalls < c.maxMetricCalls && |left.candidate| > 0
      modifies this
      ensures Valid() && saved == old(saved) && s == old(s).(metricCalls := s.metricCalls)
      ensures old(s.metricCalls) <= s.metricCalls <= c.maxMetricCalls
      ensures ok ==> MergeTried(c, w, left, right, c.maxMetricCalls - old(s.metricCalls), record)
      ensures record.Some? ==> ok && Recordable(record.value)
    {
      hide MergeTried, Resumable, AllResumable, Unused, AverageScore, ScoresByExample, ObjectivesByExample, MergeCandidate, Blank, HasId;
      calls := calls + 1;
      var patch := w.propose(calls, left.candidate);
      if patch.None? {
        return false, None;
      }
      var merged := MergeCandidate(left.candidate, patch.value);
      NotEmpty(left.candidate, merged);
      var batch := SampleExact(ValidationSet(c), c.maxMetricCalls - s.metricCalls, w.permute(calls, |ValidationSet(c)|));
      var items := Evaluate(merged, batch);
      if items.None? {
        return false, None;
      }
      var score := AverageScore(items.value);
      MergedSo(c, w, left, right, patch.value, merged, items.value, batch, calls - 1, calls, c.maxMetricCalls - old(s.metricCalls));
      if score < left.score && score < right.score {
        return true, None;
      }
      var id := NewId();
      return true, Some(RecordOf(id, merged, items.value));
    }

    /** tryMerge: merges two candidates of the frontier, and records the child unless it scores below
        both. */
    method TryMerge() returns (ok: bool)
      requires Valid()
      modifies this
      ensures Valid() && Progress(c, old(s), s) && OnceMore(old(saved), saved, s) && s.iterations == old(s.iterations)
      ensures s.candidates == old(s.candidates) || MergeRecorded(c, w, old(s), s)
      ensures ok && c.merges && |old(s.frontier)| >= 2 && old(s.metricCalls) < c.maxMetricCalls && s.candidates == old(s.candidates) ==>
        MergeDropped(c, w, old(s))
      ensures !c.merges || |old(s.frontier)| < 2 || old(s.metricCalls) >= c.maxMetricCalls ==> ok && s == old(s)
    {
      hide Resumable, AllResumable, Unused, ById, Improves, FrontierIsCurrent, DistinctIds, IsMerge, Recordable, WorldOk, MergeTried, MergeRecorded, MergeDropped;
      FrontierFound();
      Apart(s);
      Counting(c, s, s);
      if !c.merges || |s.frontier| < 2 || s.metricCalls >= c.maxMetricCalls {
        return true;
      }
      var left, right := ById(s.candidates, s.frontier[0]), ById(s.candidates, s.frontier[1]);
      var record;
      ok, record := EvaluateMerge(left.value, right.value);
      Counting(c, old(s), s);
      if record.None? {
        if ok {
          TriedDropped(c, w, old(s), left.value, right.value);
        }
        return;
      }
      ghost var evaluated := s;
      AddRecord(record.value);
      ProgressOn(c, old(s), evaluated, s);
      TriedRecorded(c, w, old(s), s, left.value, right.value, record.value);
      ok := Save();
    }

    /** finishState. */
    method FinishState() returns (ok: bool)
      requires Valid()
      modifies this`calls, this`saved
      ensures Valid() && OnceMore(old(saved), saved, s) && (ok ==> saved == old(saved) + [s])
    {
      hide Resumable, AllResumable, Unused, WorldOk;
      ok := Emit();
      if ok {
        ok := Save();
      }
    }

    /** The loop and finishState, from any state that may be resumed: it ends, and when it does not fail the
        metric calls are spent. */
    method Iterate() returns (ok: bool)
      requires Valid()
      modifies this
      ensures Valid() && Progress(c, old(s), s)
      ensures old(saved) <= saved && SavedSince(c, old(s), saved, |old(saved)|)
      ensures ok ==> s.metricCalls == Max(old(s.metricCalls), c.maxMetricCalls) && saved != [] && saved[|saved| - 1] == s
      ensures old(s.candidates) <= s.candidates && Genuine(c, w, s.candidates, |old(s.candidates)|)
    {
      hide Resumable, AllResumable, Unused, Improves, FrontierIsCurrent, DistinctIds, SavedSince, OnceMore, WorldOk, ConfigOk, Genuine, Judged;
      Apart(s);
      Counting(c, s, s);
      NoneRecorded(c, w, s.candidates);
      SavedNone(c, s, saved);
      while s.metricCalls < c.maxMetricCalls
        invariant Valid() && Progress(c, old(s), s) && old(saved) <= saved && SavedSince(c, old(s), saved, |old(saved)|)
        invariant old(s.candidates) <= s.candidates && Genuine(c, w, s.candidates, |old(s.candidates)|)
        decreases c.maxMetricCalls - s.metricCalls
      {
        Apart(s);
        ghost var before, kept := s, saved;
        var step := RunIteration();
        SavedOn(c, old(s), before, s, kept, saved, |old(saved)|);
        GenuineOn(c, w, old(s.candidates), before.candidates, s.candidates);
        if step.Failed? {
          return false;
        }
        if step.Stop? {
          break;
        }
      }
      ghost var kept := saved;
      ok := FinishState();
      SavedLast(c, old(s), s, kept, saved, |old(saved)|);
    }

    /** Run: starts with the seed or resumes the state loaded, and iterates until the metric calls are spent.
        start is what it starts with, unless it cannot start. */
    method Run(resume: bool, loaded: Loaded, fingerprint: Name) returns (ok: bool, ghost start: Option<State>)
      requires Ready() && !Blank(fingerprint) && |s.candidates| == 0 && saved == []
      requires loaded.Found? ==> Unused(w, made, loaded.state.candidates)
      modifies this
      ensures Ready() && (ok ==> start.Some?)
      ensures Resumes(resume, loaded) ==>
        start == if Resumable(loaded.state) && loaded.state.fingerprint == fingerprint then Some(loaded.state) else None
      ensures !Resumes(resume, loaded) && start.Some? ==> Sound(start.value) && start.value.metricCalls == |ValidationSet(c)|
      ensures start.Some? ==> Valid() && Progress(c, start.value, s) && SavedSince(c, start.value, saved, 0)
      ensures start.Some? ==> Genuine(c, w, s.candidates, if Resumes(resume, loaded) then |start.value.candidates| else 0)
      ensures start.Some? && Sound(start.value) ==> Sound(s) && forall i :: 0 <= i < |saved| ==> Sound(saved[i])
      ensures ok ==> s.metricCalls == Max(start.value.metricCalls, c.maxMetricCalls) && saved != [] && saved[|saved| - 1] == s
    {
      hide Sound, Blank, HasId, Unused, Resumable, WorldOk, Improves, FrontierIsCurrent, Genuine, EvaluatedOn;
      ok := Start(resume, loaded, fingerprint);
      start := None;
      if !ok {
        return;
      }
      start := Some(s);
      ghost var kept := saved;
      if !Resumes(resume, loaded) {
        SeedGenuine(c, w, s.candidates);
      }
      ok := Iterate();
      if !Resumes(resume, loaded) {
        GenuineOn(c, w, [], start.value.candidates, s.candidates);
      }
      SavedMore(c, start.value, kept, saved, 0);
      if Sound(start.value) {
        SoundKept(c, start.value, s);
        forall i | 0 <= i < |saved| ensures Sound(saved[i]) {
          SoundKept(c, start.value, saved[i]);
        }
      }
    }

    lemma ParentThere()
      requires Valid()
      ensures s.iterations >= 0 && |s.candidates| > 0 && forall i :: 0 <= i < |s.candidates| ==> |s.candidates[i].candidate| > 0
    {
    }

    lemma FrontierFound()
      requires Valid()
      ensures forall k :: 0 <= k < |s.frontier| ==>
        var found := ById(s.candidates, s.frontier[k]);
        found.Some? && found.value in s.candidates && found.value.id == s.frontier[k] && |found.value.candidate| > 0
    {
      forall k | 0 <= k < |s.frontier| ensures
        var found := ById(s.candidates, s.frontier[k]);
        found.Some? && found.value in s.candidates && found.value.id == s.frontier[k] && |found.value.candidate| > 0
      {
        FoundById(s.candidates, s.frontier[k]);
      }
    }

    /** bestRecord. */
    static method BestRecord(s: State) returns (best: Record)
      requires Resumable(s)
      ensures best in s.candidates && best.id == s.best
    {
      best := s.candidates[0];
      for i := 0 to |s.candidates|
        invariant forall k :: 0 <= k < i ==> s.candidates[k].id != s.best
      {
        if s.candidates[i].id == s.best {
          return s.candidates[i];
        }
      }
      assert false;
    }
  }

  lemma Apart(s: State)
    requires Resumable(s)
    ensures DistinctIds(s.candidates)
  {
  }

  /** The states saved are those before, or one more that is s. */
  predicate OnceMore(before: seq<State>, saved: seq<State>, s: State) {
    saved == before || saved == before + [s]
  }

  lemma NotMore(saved: seq<State>, s: State)
    ensures OnceMore(saved, saved, s)
  {
  }

  lemma SavedNone(c: Config, start: State, saved: seq<State>)
    ensures SavedSince(c, start, saved, |saved|)
  {
  }

  lemma SavedMore(c: Config, start: State, kept: seq<State>, saved: seq<State>, n: nat)
    requires kept <= saved && SavedSince(c, start, kept, n) && SavedSince(c, start, saved, |kept|)
    ensures SavedSince(c, start, saved, n)
  {
    hide Progress;
    forall i | n <= i < |saved| ensures Progress(c, start, saved[i]) {
      assert i < |kept| ==> saved[i] == kept[i];
    }
  }

  lemma SavedOn(c: Config, start: State, between: State, last: State, kept: seq<State>, saved: seq<State>, n: nat)
    requires DistinctIds(between.candidates) && Progress(c, start, between) && Progress(c, between, last)
    requires n <= |kept| && kept <= saved && SavedSince(c, start, kept, n) && SavedSince(c, between, saved, |kept|)
    ensures Progress(c, start, last) && SavedSince(c, start, saved, n)
  {
    hide Progress, DistinctIds;
    ProgressOn(c, start, between, last);
    forall i | |kept| <= i < |saved| ensures Progress(c, start, saved[i]) {
      ProgressOn(c, start, between, saved[i]);
    }
    SavedMore(c, start, kept, saved, n);
  }

  lemma SavedLast(c: Config, start: State, last: State, kept: seq<State>, saved: seq<State>, n: nat)
    requires n <= |kept| && SavedSince(c, start, kept, n) && Progress(c, start, last) && OnceMore(kept, saved, last)
    ensures SavedSince(c, start, saved, n) && kept <= saved
  {
    hide Progress;
  }

  lemma SavedTwice(
    c: Config, start: State, before: seq<State>, first: State, between: seq<State>, second: State, saved: seq<State>)
    requires OnceMore(before, between, first) && (saved == between || OnceMore(between, saved, second))
    requires Progress(c, start, first) && Progress(c, start, second)
    ensures before <= saved && SavedSince(c, start, saved, |before|)
  {
  }

  lemma NotEmpty(base: Candidate, merged: Candidate)
    requires |base| > 0 && base.Keys <= merged.Keys
    ensures |merged| > 0
  {
    var k :| k in base.Keys;
    assert k in merged;
  }

  lemma FoundById(records: seq<Record>, id: Name)
    requires HasId(records, id)
    ensures ById(records, id).Some? && ById(records, id).value in records && ById(records, id).value.id == id
    decreases |records|
  {
    var i :| 0 <= i < |records| && records[i].id == id;
    if records[0].id != id {
      assert records[1..][i - 1].id == id;
      FoundById(records[1..], id);
    }
  }

  /** The seed alone is scored and wins. */
  lemma SeedFrontier(record: Record, items: seq<Item>)
    requires items != [] && record.scores == ScoresByExample(items)
    ensures DistinctIds([record]) && Scored([record]) && HasId([record], record.id)
    ensures forall id :: HasId([record], id) <==> id == record.id
  {
    assert [record][0] == record && items[|items| - 1].example in [record][0].scores;
  }

  lemma RecordMore(records: seq<Record>, record: Record)
    requires DistinctIds(records) && !HasId(records, record.id)
    ensures DistinctIds(records + [record])
    ensures forall id :: HasId(records + [record], id) <==> HasId(records, id) || id == record.id
    ensures Scored(records) || (exists e :: e in record.scores) ==> Scored(records + [record])
  {
    var more := records + [record];
    assert forall i :: 0 <= i < |records| ==> more[i] == records[i];
    assert more[|records|] == record;
    forall id ensures HasId(more, id) <==> HasId(records, id) || id == record.id {
      if HasId(records, id) {
        var i :| 0 <= i < |records| && records[i].id == id;
        assert more[i].id == id;
      }
    }
    forall i | 0 <= i < |records| ensures records[i].id != record.id {
    }
    if e :| e in record.scores {
      assert e in more[|records|].scores;
    } else if Scored(records) {
      var i, e :| 0 <= i < |records| && e in records[i].scores;
      assert e in more[i].scores;
    }
  }

  /** A frontier of scored candidates is not empty and is made of them. */
  lemma FrontierThere(records: seq<Record>, ids: seq<Name>)
    requires Scored(records) && forall k :: 0 <= k < |ids| ==> IsWinner(records, ids[k])
    requires forall d, i :: 0 <= i < |records| && ScoreOf(d, records[i]).Some? ==> exists k :: 0 <= k < |ids| && Wins(records, d, ids[k])
    ensures |ids| > 0 && forall k :: 0 <= k < |ids| ==> HasId(records, ids[k])
  {
    var i, e :| 0 <= i < |records| && e in records[i].scores;
    assert ScoreOf(Dimension(e, ""), records[i]).Some?;
    forall k | 0 <= k < |ids| ensures HasId(records, ids[k]) {
      assert WinsSome(records, Dimensions(records), ids[k]);
      var d :| d in Dimensions(records) && Wins(records, d, ids[k]);
    }
  }

  lemma BestMore(s: State, more: seq<Record>, record: Record, best: Record)
    requires best in s.candidates && best.id == s.best && more == s.candidates + [record]
    ensures forall after: State ::
      after.candidates == more && after.best == (if record.score > best.score then record.id else s.best) ==> Improves(s, after)
  {
    var b :| 0 <= b < |s.candidates| && s.candidates[b] == best;
    assert BestAt(s, b) && more[|s.candidates|] == record && more[b] == best;
    forall after: State | after.candidates == more && after.best == (if record.score > best.score then record.id else s.best)
      ensures Improves(s, after)
    {
      var a := if record.score > best.score then |s.candidates| else b;
      assert BestAt(after, a) && Outscores(s, after, b, a);
    }
  }
}

/**
 The Pareto frontier of the candidates an optimisation has recorded.

 Go ranges over maps in any order and may delete from the one it ranges over; the loops here take
 their keys in an order nothing is assumed of, so what is proved holds for every order.
 */
module Frontiers {
  import opened Basics

  type Candidate = map<Name, string>

  /** A CandidateRecord, with its scores by example and by example and objective. */
  datatype Record = Record(
    id: Name, candidate: Candidate, score: real, scores: map<Name, real>, objectives: map<Name, map<Name, real>>)

  /** One axis: an example's score when objective is empty, and an objective's of the example otherwise. */
  datatype Dimension = Dimension(example: Name, objective: Name)

  function ScoreOf(d: Dimension, r: Record): Option<real> {
    if d.objective == "" then if d.example in r.scores then Some(r.scores[d.example]) else None
    else if d.example in r.objectives && d.objective in r.objectives[d.example] then Some(r.objectives[d.example][d.objective])
    else None
  }

  /** The dimensions some record has a score for. */
  function Dimensions(records: seq<Record>): set<Dimension> {
    (set i, example | 0 <= i < |records| && example in records[i].scores :: Dimension(example, ""))
    + (set i, example, objective | 0 <= i < |records| && example in records[i].objectives
        && objective in records[i].objectives[example] :: Dimension(example, objective))
  }

  /** The first record with id. */
  function ById(records: seq<Record>, id: Name): Option<Record> {
    if records == [] then None else if records[0].id == id then Some(records[0]) else ById(records[1..], id)
  }

  function ScoreById(records: seq<Record>, d: Dimension, id: Name): Option<real> {
    match ById(records, id) case None => None case Some(r) => ScoreOf(d, r)
  }

  predicate DistinctIds(records: seq<Record>) {
    forall i, j :: 0 <= i < j < |records| ==> records[i].id != records[j].id
  }

  lemma {:induction false} ByIdMeans(records: seq<Record>, i: nat)
    requires DistinctIds(records) && i < |records|
    ensures ById(records, records[i].id) == Some(records[i])
  {
    if i > 0 {
      assert records[0].id != records[i].id;
      assert records[1..][i - 1] == records[i];
      ByIdMeans(records[1..], i - 1);
    }
  }

  lemma {:induction false} ByIdIn(records: seq<Record>, id: Name)
    ensures ById(records, id).Some? ==> exists i :: 0 <= i < |records| && records[i] == ById(records, id).value && records[i].id == id
  {
    if records != [] && records[0].id != id {
      ByIdIn(records[1..], id);
      if ById(records, id).Some? {
        var i :| 0 <= i < |records[1..]| && records[1..][i] == ById(records, id).value && records[1..][i].id == id;
        assert records[i + 1] == records[1..][i];
      }
    }
  }

  // ---- what the frontier is ----

  /** best is the best score of dimension d, if any record has one. */
  predicate IsBest(records: seq<Record>, d: Dimension, best: Option<real>) {
    && (best.Some? ==> exists i :: 0 <= i < |records| && ScoreOf(d, records[i]) == best)
    && (forall i :: 0 <= i < |records| && ScoreOf(d, records[i]).Some? ==>
         best.Some? && ScoreOf(d, records[i]).value <= best.value)
  }

  /** The record has a score of d that no record's beats. */
  predicate Attains(records: seq<Record>, d: Dimension, r: Record) {
    ScoreOf(d, r).Some?
      && forall j :: 0 <= j < |records| && ScoreOf(d, records[j]).Some? ==> ScoreOf(d, records[j]).value <= ScoreOf(d, r).value
  }

  /** A record with id wins dimension d. */
  predicate Wins(records: seq<Record>, d: Dimension, id: Name) {
    exists i :: 0 <= i < |records| && records[i].id == id && Attains(records, d, records[i])
  }

  /** left is no worse than right on any dimension and better on one. Both need scores on all. */
  predicate Dominates(records: seq<Record>, left: Name, right: Name) {
    NoWorseOn(records, Dimensions(records), left, right) && BetterOn(records, Dimensions(records), left, right)
  }

  predicate NoWorseOn(records: seq<Record>, dims: set<Dimension>, left: Name, right: Name) {
    forall d :: d in dims ==> NoWorse(records, d, left, right)
  }

  predicate BetterOn(records: seq<Record>, dims: set<Dimension>, left: Name, right: Name) {
    exists d :: d in dims && Better(records, d, left, right)
  }

  predicate Better(records: seq<Record>, d: Dimension, left: Name, right: Name) {
    NoWorse(records, d, left, right) && ScoreById(records, d, left).value > ScoreById(records, d, right).value
  }

  predicate NoWorse(records: seq<Record>, d: Dimension, left: Name, right: Name) {
    && ScoreById(records, d, left).Some? && ScoreById(records, d, right).Some?
    && ScoreById(records, d, left).value >= ScoreById(records, d, right).value
  }

  lemma DominatesTransitive(records: seq<Record>, a: Name, b: Name, c: Name)
    requires Dominates(records, a, b) && Dominates(records, b, c)
    ensures Dominates(records, a, c)
  {
    var e :| e in Dimensions(records) && Better(records, e, a, b);
    forall d | d in Dimensions(records) ensures NoWorse(records, d, a, c) {
      assert NoWorse(records, d, a, b) && NoWorse(records, d, b, c);
    }
    assert NoWorse(records, e, b, c) && Better(records, e, a, c);
  }

  lemma DominatesNotItself(records: seq<Record>, a: Name)
    ensures !Dominates(records, a, a)
  {
    assert forall d :: !Better(records, d, a, a);
  }

  /** What dominates a winner of a dimension wins it too. */
  lemma DominatorWins(records: seq<Record>, d: Dimension, left: Name, right: Name)
    requires DistinctIds(records) && d in Dimensions(records) && Wins(records, d, right) && Dominates(records, left, right)
    ensures Wins(records, d, left)
  {
    assert NoWorse(records, d, left, right);
    var i :| 0 <= i < |records| && records[i].id == right && Attains(records, d, records[i]);
    ByIdMeans(records, i);
    ByIdIn(records, left);
    var j :| 0 <= j < |records| && records[j] == ById(records, left).value && records[j].id == left;
    assert Attains(records, d, records[j]);
  }

  /** The winners of some dimension. */
  predicate IsWinner(records: seq<Record>, id: Name) {
    WinsSome(records, Dimensions(records), id)
  }

  /** No record dominates id. */
  ghost predicate Undominated(records: seq<Record>, id: Name) {
    forall other :: !Dominates(records, other, id)
  }

  // ---- computing it ----

  /** scoreDimension.best. */
  method Best(records: seq<Record>, d: Dimension) returns (best: Option<real>)
    ensures IsBest(records, d, best)
  {
    best := None;
    for i := 0 to |records|
      invariant best.Some? ==> exists k :: 0 <= k < i && ScoreOf(d, records[k]) == best
      invariant forall k :: 0 <= k < i && ScoreOf(d, records[k]).Some? ==>
        best.Some? && ScoreOf(d, records[k]).value <= best.value
    {
      var score := ScoreOf(d, records[i]);
      if score.Some? && (best.None? || score.value > best.value) {
        best := score;
      }
    }
  }

  lemma OneMore(records: seq<Record>, dims: set<Dimension>, d: Dimension, left: Name, right: Name)
    ensures NoWorseOn(records, dims + {d}, left, right) <==> NoWorseOn(records, dims, left, right) && NoWorse(records, d, left, right)
    ensures BetterOn(records, dims + {d}, left, right) <==> BetterOn(records, dims, left, right) || Better(records, d, left, right)
  {
    hide NoWorse, Better;
  }

  /** dominates, over the dimensions in any order. */
  method CheckDominates(records: seq<Record>, left: Name, right: Name) returns (dominates: bool)
    ensures dominates == Dominates(records, left, right)
  {
    hide Dimensions, ScoreById;
    var all := Dimensions(records);
    var todo, better := all, false;
    while todo != {}
      invariant todo <= all
      invariant NoWorseOn(records, all - todo, left, right)
      invariant better == BetterOn(records, all - todo, left, right)
      decreases |todo|
    {
      var d :| d in todo;
      var a, b := ScoreById(records, d, left), ScoreById(records, d, right);
      if a.None? || b.None? || a.value < b.value {
        assert !NoWorse(records, d, left, right);
        return false;
      }
      assert all - (todo - {d}) == all - todo + {d};
      OneMore(records, all - todo, d, left, right);
      if a.value > b.value {
        better := true;
      }
      todo := todo - {d};
    }
    assert all - todo == all;
    return better;
  }

  /** dominatedByCandidate: whether one of candidates, taken in any order, dominates id. */
  method DominatedBy(id: Name, candidates: set<Name>, records: seq<Record>) returns (dominated: bool)
    ensures dominated == HasDominator(records, candidates, id)
  {
    hide Dominates;
    var todo := candidates;
    while todo != {}
      invariant todo <= candidates
      invariant forall other :: other in candidates - todo ==> !Dominates(records, other, id)
      decreases |todo|
    {
      var other :| other in todo;
      todo := todo - {other};
      if other != id {
        dominated := CheckDominates(records, other, id);
        if dominated {
          return;
        }
      } else {
        DominatesNotItself(records, id);
      }
    }
    return false;
  }

  function Weight(weights: map<Name, nat>, id: Name): nat {
    if id in weights then weights[id] else 0
  }

  /** The dimensions of dims that id wins. */
  function Won(records: seq<Record>, dims: set<Dimension>, id: Name): set<Dimension> {
    set d | d in dims && Wins(records, d, id)
  }

  /** A record with id before the k-th wins d. */
  predicate WinsBefore(records: seq<Record>, d: Dimension, id: Name, k: nat)
    requires k <= |records|
  {
    exists i :: 0 <= i < k && records[i].id == id && Attains(records, d, records[i])
  }

  /** Some dimension of dims has id as a winner. */
  predicate WinsSome(records: seq<Record>, dims: set<Dimension>, id: Name) {
    exists d :: d in dims && Wins(records, d, id)
  }

  lemma WinsOneMore(records: seq<Record>, dims: set<Dimension>, d: Dimension, id: Name)
    requires d !in dims
    ensures WinsSome(records, dims + {d}, id) <==> WinsSome(records, dims, id) || Wins(records, d, id)
    ensures |Won(records, dims + {d}, id)| == |Won(records, dims, id)| + if Wins(records, d, id) then 1 else 0
  {
    hide Wins;
    assert Won(records, dims + {d}, id) == Won(records, dims, id) + if Wins(records, d, id) then {d} else {};
  }

  /** instanceWinners: the ids that win a dimension, each with how many it wins. */
  method InstanceWinners(records: seq<Record>) returns (weights: map<Name, nat>)
    ensures forall id :: id in weights <==> IsWinner(records, id)
    ensures DistinctIds(records) ==> forall id :: Weight(weights, id) == |Won(records, Dimensions(records), id)|
    ensures forall id :: id in weights ==> weights[id] > 0
  {
    hide Wins, Won, WinsSome, Dimensions;
    weights := map[];
    var all := Dimensions(records);
    var todo := all;
    WinsNone(records);
    assert all - todo == {};
    while todo != {}
      invariant todo <= all
      invariant forall id :: id in weights <==> WinsSome(records, all - todo, id)
      invariant DistinctIds(records) ==> forall id :: Weight(weights, id) == |Won(records, all - todo, id)|
      invariant forall id :: id in weights ==> weights[id] > 0
      decreases |todo|
    {
      var d :| d in todo;
      weights := CountWinners(records, d, weights);
      assert all - (todo - {d}) == all - todo + {d};
      forall id ensures
        && (WinsSome(records, all - (todo - {d}), id) <==> WinsSome(records, all - todo, id) || Wins(records, d, id))
        && |Won(records, all - (todo - {d}), id)| == |Won(records, all - todo, id)| + if Wins(records, d, id) then 1 else 0
      {
        WinsOneMore(records, all - todo, d, id);
      }
      todo := todo - {d};
    }
    assert all - todo == all;
  }

  lemma WinsNone(records: seq<Record>)
    ensures forall id :: !WinsSome(records, {}, id) && Won(records, {}, id) == {}
  {
  }

  /** The inner loop of instanceWinners: counts dimension d for every record that wins it. */
  method CountWinners(records: seq<Record>, d: Dimension, weights: map<Name, nat>) returns (more: map<Name, nat>)
    requires forall id :: id in weights ==> weights[id] > 0
    ensures forall id :: id in more <==> id in weights || Wins(records, d, id)
    ensures DistinctIds(records) ==> forall id :: Weight(more, id) == Weight(weights, id) + if Wins(records, d, id) then 1 else 0
    ensures forall id :: id in more ==> more[id] > 0
  {
    more := weights;
    var best := Best(records, d);
    for j := 0 to |records|
      invariant forall id :: id in more <==> id in weights || WinsBefore(records, d, id, j)
      invariant DistinctIds(records) ==>
        forall id :: Weight(more, id) == Weight(weights, id) + if WinsBefore(records, d, id, j) then 1 else 0
      invariant forall id :: id in more ==> more[id] > 0
    {
      var score := ScoreOf(d, records[j]);
      AttainsBest(records, d, best, j);
      forall id ensures WinsBefore(records, d, id, j + 1)
        <==> WinsBefore(records, d, id, j) || (records[j].id == id && Attains(records, d, records[j]))
      {
      }
      if DistinctIds(records) {
        assert !WinsBefore(records, d, records[j].id, j);
      }
      if score.Some? && score == best {
        more := more[records[j].id := Weight(more, records[j].id) + 1];
      }
    }
    assert forall id :: Wins(records, d, id) <==> WinsBefore(records, d, id, |records|);
  }

  lemma AttainsBest(records: seq<Record>, d: Dimension, best: Option<real>, j: nat)
    requires IsBest(records, d, best) && j < |records|
    ensures Attains(records, d, records[j]) <==> ScoreOf(d, records[j]).Some? && ScoreOf(d, records[j]) == best
  {
    if Attains(records, d, records[j]) {
      var i :| 0 <= i < |records| && ScoreOf(d, records[i]) == best;
    }
  }

  /** Every winner removed has one that is left to dominate it. */
  ghost predicate Represented(records: seq<Record>, winners: set<Name>, left: set<Name>) {
    forall id :: id in winners - left ==> HasDominator(records, left, id)
  }

  predicate HasDominator(records: seq<Record>, candidates: set<Name>, id: Name) {
    exists other :: other in candidates && Dominates(records, other, id)
  }

  lemma RemovesDominated(records: seq<Record>, winners: set<Name>, left: set<Name>, id: Name, other: Name)
    requires Represented(records, winners, left) && id in left && other in left && Dominates(records, other, id)
    ensures Represented(records, winners, left - {id})
  {
    hide Dominates;
    DominatesNotItself(records, id);
    assert other in left - {id};
    forall x | x in winners - (left - {id}) ensures HasDominator(records, left - {id}, x) {
      if x != id {
        assert HasDominator(records, left, x);
        var y :| y in left && Dominates(records, y, x);
        if y == id {
          DominatesTransitive(records, other, id, x);
        } else {
          assert y in left - {id};
        }
      }
    }
  }

  /** frontierWeights: deletes the dominated winners from the map it ranges over, in any order. What is
      left are exactly the winners no record dominates, with their counts. */
  method FrontierWeights(records: seq<Record>) returns (weights: map<Name, nat>)
    ensures DistinctIds(records) ==> forall id :: id in weights <==> IsWinner(records, id) && Undominated(records, id)
    ensures DistinctIds(records) ==> forall id :: id in weights ==> weights[id] == |Won(records, Dimensions(records), id)|
    ensures DistinctIds(records) ==>
      forall d, i :: 0 <= i < |records| && ScoreOf(d, records[i]).Some? ==> WonBy(records, d, weights.Keys)
    ensures forall id :: id in weights ==> weights[id] > 0 && IsWinner(records, id)
  {
    hide Dominates, IsWinner, Wins, Won, Dimensions, DistinctIds;
    var winners := InstanceWinners(records);
    weights := winners;
    var todo := winners.Keys;
    while todo != {}
      invariant todo <= weights.Keys <= winners.Keys && forall id :: id in weights ==> weights[id] == winners[id]
      invariant Represented(records, winners.Keys, weights.Keys)
      invariant forall id, other :: id in weights.Keys - todo && other in weights ==> !Dominates(records, other, id)
      decreases |todo|
    {
      var id :| id in todo;
      todo := todo - {id};
      var dominated := DominatedBy(id, weights.Keys, records);
      if dominated {
        ghost var other :| other in weights && Dominates(records, other, id);
        RemovesDominated(records, winners.Keys, weights.Keys, id, other);
        assert (weights - {id}).Keys == weights.Keys - {id};
        weights := weights - {id};
      }
    }
    if DistinctIds(records) {
      FrontierMeans(records, winners, weights);
    }
  }

  /** One of ids wins d. */
  predicate WonBy(records: seq<Record>, d: Dimension, ids: set<Name>) {
    exists id :: id in ids && Wins(records, d, id)
  }

  lemma FrontierMeans(records: seq<Record>, winners: map<Name, nat>, weights: map<Name, nat>)
    requires DistinctIds(records) && forall id :: id in winners <==> IsWinner(records, id)
    requires weights.Keys <= winners.Keys && Represented(records, winners.Keys, weights.Keys)
    requires forall id, other :: id in weights && other in weights ==> !Dominates(records, other, id)
    ensures forall id :: id in weights <==> IsWinner(records, id) && Undominated(records, id)
    ensures forall d, i :: 0 <= i < |records| && ScoreOf(d, records[i]).Some? ==> WonBy(records, d, weights.Keys)
  {
    hide Dominates, Wins, Dimensions, DistinctIds, IsWinner, ScoreOf;
    forall id, other | id in weights ensures !Dominates(records, other, id) {
      KeptUndominated(records, winners, weights, id, other);
    }
    forall id | IsWinner(records, id) && id !in weights ensures !Undominated(records, id) {
      assert HasDominator(records, weights.Keys, id);
    }
    forall d, i | 0 <= i < |records| && ScoreOf(d, records[i]).Some? ensures WonBy(records, d, weights.Keys) {
      var r := SomeWinner(records, d, i);
      if r !in weights {
        assert HasDominator(records, weights.Keys, r);
        var other :| other in weights && Dominates(records, other, r);
        ScoredDimension(records, d, i);
        DominatorWins(records, d, other, r);
      }
    }
  }

  lemma ScoredDimension(records: seq<Record>, d: Dimension, i: nat)
    requires i < |records| && ScoreOf(d, records[i]).Some?
    ensures d in Dimensions(records)
  {
  }

  lemma KeptUndominated(records: seq<Record>, winners: map<Name, nat>, weights: map<Name, nat>, id: Name, other: Name)
    requires DistinctIds(records) && (forall id :: id in winners <==> IsWinner(records, id))
    requires weights.Keys <= winners.Keys && Represented(records, winners.Keys, weights.Keys)
    requires forall id, other :: id in weights && other in weights ==> !Dominates(records, other, id)
    requires id in weights
    ensures !Dominates(records, other, id)
  {
    hide Dominates, Wins, Dimensions, DistinctIds;
    if Dominates(records, other, id) {
      assert WinsSome(records, Dimensions(records), id);
      var d :| d in Dimensions(records) && Wins(records, d, id);
      DominatorWins(records, d, other, id);
      assert WinsSome(records, Dimensions(records), other);
      if other !in weights {
        assert HasDominator(records, weights.Keys, other);
        var more :| more in weights && Dominates(records, more, other);
        DominatesTransitive(records, more, other, id);
      }
    }
  }

  /** A dimension some record has a score for has a winner. */
  lemma SomeWinner(records: seq<Record>, d: Dimension, i: nat) returns (id: Name)
    requires i < |records| && ScoreOf(d, records[i]).Some?
    ensures Wins(records, d, id) && IsWinner(records, id)
  {
    var k := Highest(records, d, |records|);
    id := records[k].id;
    assert Attains(records, d, records[k]);
    ScoredDimension(records, d, i);
  }

  lemma {:induction false} Highest(records: seq<Record>, d: Dimension, n: nat) returns (k: nat)
    requires n <= |records| && exists i :: 0 <= i < n && ScoreOf(d, records[i]).Some?
    ensures k < n && ScoreOf(d, records[k]).Some?
    ensures forall i :: 0 <= i < n && ScoreOf(d, records[i]).Some? ==> ScoreOf(d, records[i]).value <= ScoreOf(d, records[k]).value
  {
    if exists i :: 0 <= i < n - 1 && ScoreOf(d, records[i]).Some? {
      k := Highest(records, d, n - 1);
      if ScoreOf(d, records[n - 1]).Some? && ScoreOf(d, records[n - 1]).value > ScoreOf(d, records[k]).value {
        k := n - 1;
      }
    } else {
      k := n - 1;
    }
  }

  /** computeFrontier: the ids of the frontier, each once. */
  method ComputeFrontier(records: seq<Record>) returns (ids: seq<Name>)
    ensures forall i, j :: 0 <= i < j < |ids| ==> ids[i] != ids[j]
    ensures DistinctIds(records) ==> forall id :: id in ids <==> IsWinner(records, id) && Undominated(records, id)
    ensures DistinctIds(records) ==>
      forall d, i :: 0 <= i < |records| && ScoreOf(d, records[i]).Some? ==> exists k :: 0 <= k < |ids| && Wins(records, d, ids[k])
    ensures forall k :: 0 <= k < |ids| ==> IsWinner(records, ids[k])
  {
    hide IsWinner, Undominated, Wins, DistinctIds;
    var weights := FrontierWeights(records);
    ids := [];
    var todo := weights.Keys;
    while todo != {}
      invariant todo <= weights.Keys
      invariant forall id :: id in ids <==> id in weights.Keys - todo
      invariant forall i, j :: 0 <= i < j < |ids| ==> ids[i] != ids[j]
      decreases |todo|
    {
      var id :| id in todo;
      assert id !in ids;
      todo := todo - {id};
      ids := ids + [id];
    }
    forall d, i | DistinctIds(records) && 0 <= i < |records| && ScoreOf(d, records[i]).Some?
      ensures exists k :: 0 <= k < |ids| && Wins(records, d, ids[k])
    {
      assert WonBy(records, d, weights.Keys);
      var id :| id in weights && Wins(records, d, id);
      assert id in ids;
    }
    forall k | 0 <= k < |ids| ensures IsWinner(records, ids[k]) {
      assert ids[k] in ids;
    }
  }

  /** The weights of the first j of ids together. */
  function Share(ids: seq<Name>, weights: map<Name, nat>, j: nat): nat
    requires j <= |ids|
  {
    if j == 0 then 0 else Share(ids, weights, j - 1) + Weight(weights, ids[j - 1])
  }

  lemma {:induction false} ShareMonotone(ids: seq<Name>, weights: map<Name, nat>, j: nat, k: nat)
    requires j <= k <= |ids|
    ensures Share(ids, weights, j) <= Share(ids, weights, k)
  {
    if j < k {
      ShareMonotone(ids, weights, j, k - 1);
    }
  }

  /** sampleWeightedFrontier: the id whose share of the weights pick falls into, so that of all picks
      below the total exactly the weight of each position is for it. uniform is the pick when no id has
      a weight. */
  method SampleWeighted(ids: seq<Name>, weights: map<Name, nat>, pick: nat, uniform: nat) returns (j: nat)
    requires |ids| > 0 && uniform < |ids| && (Share(ids, weights, |ids|) > 0 ==> pick < Share(ids, weights, |ids|))
    ensures j < |ids|
    ensures if Share(ids, weights, |ids|) > 0 then Share(ids, weights, j) <= pick < Share(ids, weights, j + 1) else j == uniform
  {
    var total := 0;
    j := uniform;
    for i := 0 to |ids|
      invariant total == Share(ids, weights, i)
    {
      total := total + Weight(weights, ids[i]);
    }
    if total == 0 {
      return;
    }
    var left: nat := pick;
    for i := 0 to |ids|
      invariant left + Share(ids, weights, i) == pick
    {
      var weight := Weight(weights, ids[i]);
      if weight == 0 {
        continue;
      }
      if left < weight {
        return i;
      }
      left := left - weight;
    }
    assert false;
  }

  /** The position sampled is the only one whose share holds the pick. */
  lemma SampledOnce(ids: seq<Name>, weights: map<Name, nat>, pick: nat, j: nat, k: nat)
    requires j < |ids| && k < |ids|
    requires Share(ids, weights, j) <= pick < Share(ids, weights, j + 1)
    requires Share(ids, weights, k) <= pick < Share(ids, weights, k + 1)
    ensures j == k && Share(ids, weights, j + 1) - Share(ids, weights, j) == Weight(weights, ids[j])
  {
    if j < k {
      ShareMonotone(ids, weights, j + 1, k);
    } else if k < j {
      ShareMonotone(ids, weights, k + 1, j);
    }
  }
}

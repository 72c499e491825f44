/**
 Which returned calls are left to settle, when records settle calls by their token totals only.

 A frame's list of returned calls grows by finish and shrinks by add. A record may settle another call than
 its own, one with an equal total; this module says when nothing is left all the same.
 */
module Settlements {
  import opened Basics

  /** A retried call that has returned: the tokens of the usage it returned, and what of them is pending. */
  datatype Returned = Returned(tokens: nat, pending: nat)

  /** What happens to a frame: a retried call returns with something pending, or usage is recorded. */
  datatype Event = Returns(tokens: nat, pending: nat) | Records(tokens: nat)

  /** The position of the first returned call with the token total. */
  function FirstWith(list: seq<Returned>, tokens: nat): (i: Option<nat>)
    ensures i.Some? ==> i.value < |list| && list[i.value].tokens == tokens
  {
    if list == [] then None
    else if list[0].tokens == tokens then Some(0)
    else match FirstWith(list[1..], tokens) case None => None case Some(i) => Some(i + 1)
  }

  lemma {:induction false} FirstIs(list: seq<Returned>, tokens: nat, k: nat)
    requires k < |list| && list[k].tokens == tokens && forall j :: 0 <= j < k ==> list[j].tokens != tokens
    ensures FirstWith(list, tokens) == Some(k)
  {
    if k > 0 {
      FirstIs(list[1..], tokens, k - 1);
    }
  }

  lemma {:induction false} FirstNone(list: seq<Returned>, tokens: nat)
    requires forall j :: 0 <= j < |list| ==> list[j].tokens != tokens
    ensures FirstWith(list, tokens) == None
  {
    if list != [] {
      FirstNone(list[1..], tokens);
    }
  }

  /** What recording a token total settles. */
  function SettledBy(list: seq<Returned>, tokens: nat): nat {
    match FirstWith(list, tokens) case None => 0 case Some(i) => list[i].pending
  }

  /** The list once a record with the token total has settled the first call that has it, if one does. */
  function Settled(list: seq<Returned>, tokens: nat): seq<Returned> {
    match FirstWith(list, tokens)
    case None => list
    case Some(i) => list[..i] + list[i + 1..]
  }

  /** The calls left after the events. */
  function Outstanding(events: seq<Event>): seq<Returned> {
    if events == [] then []
    else
      var list := Outstanding(events[..|events| - 1]);
      match events[|events| - 1]
      case Returns(tokens, pending) => list + [Returned(tokens, pending)]
      case Records(tokens) => Settled(list, tokens)
  }

  /** How many calls of the list have the token total. */
  function CountOf(list: seq<Returned>, t: nat): nat {
    if list == [] then 0 else CountOf(list[..|list| - 1], t) + if list[|list| - 1].tokens == t then 1 else 0
  }

  lemma {:induction false} CountConcat(a: seq<Returned>, b: seq<Returned>, t: nat)
    ensures CountOf(a + b, t) == CountOf(a, t) + CountOf(b, t)
    decreases |b|
  {
    if b == [] {
      assert a + b == a;
    } else {
      assert (a + b)[..|a + b| - 1] == a + b[..|b| - 1];
      CountConcat(a, b[..|b| - 1], t);
    }
  }

  lemma {:induction false} CountPositive(list: seq<Returned>, t: nat)
    ensures CountOf(list, t) > 0 <==> exists i :: 0 <= i < |list| && list[i].tokens == t
    decreases |list|
  {
    if list != [] {
      var n := |list| - 1;
      CountPositive(list[..n], t);
      assert forall i :: 0 <= i < n ==> list[i] == list[..n][i];
      if CountOf(list[..n], t) > 0 {
        var i :| 0 <= i < n && list[..n][i].tokens == t;
        assert list[i].tokens == t;
      }
    }
  }

  lemma {:induction false} FirstFound(list: seq<Returned>, t: nat)
    ensures FirstWith(list, t).Some? <==> exists i :: 0 <= i < |list| && list[i].tokens == t
    decreases |list|
  {
    if list != [] && list[0].tokens != t {
      FirstFound(list[1..], t);
      assert forall i :: 0 < i < |list| ==> list[i] == list[1..][i - 1];
      if FirstWith(list[1..], t).Some? {
        var i :| 0 <= i < |list[1..]| && list[1..][i].tokens == t;
        assert list[i + 1].tokens == t;
      }
    }
  }

  lemma SettledCount(list: seq<Returned>, tokens: nat, t: nat)
    ensures CountOf(Settled(list, tokens), t) == if t == tokens then Max(CountOf(list, t) - 1, 0) else CountOf(list, t)
  {
    FirstFound(list, tokens);
    CountPositive(list, tokens);
    match FirstWith(list, tokens)
    case None =>
    case Some(i) =>
      var a, b, c := list[..i], [list[i]], list[i + 1..];
      assert list == a + b + c;
      CountConcat(a + b, c, t);
      CountConcat(a, b, t);
      CountConcat(a, c, t);
      assert b[..0] == [];
  }

  // ---- what the events come to ----

  /** The calls with the token total that return from the k-th event on, and the records of it. */
  function Returning(events: seq<Event>, k: nat, t: nat): set<nat> {
    set i: nat | k <= i < |events| && events[i].Returns? && events[i].tokens == t
  }

  function Recording(events: seq<Event>, k: nat, t: nat): set<nat> {
    set i: nat | k <= i < |events| && events[i].Records? && events[i].tokens == t
  }

  function Excess(events: seq<Event>, k: nat, t: nat): int {
    |Returning(events, k, t)| - |Recording(events, k, t)|
  }

  /** What one more event adds to the calls and to the records. */
  lemma ExcessNext(events: seq<Event>, k: nat, t: nat)
    requires events != [] && k <= |events|
    ensures var n := |events| - 1;
      Excess(events, k, t) ==
        if k > n then 0
        else Excess(events[..n], k, t) + if events[n].tokens != t then 0 else if events[n].Returns? then 1 else -1
  {
    var n := |events| - 1;
    var e := events[n];
    assert forall i :: 0 <= i < n ==> events[..n][i] == events[i];
    var was, now := Returning(events[..n], k, t), Returning(events, k, t);
    assert now == if k <= n && e.Returns? && e.tokens == t then was + {n} else was;
    assert n !in was;
    var had, has := Recording(events[..n], k, t), Recording(events, k, t);
    assert has == if k <= n && e.Records? && e.tokens == t then had + {n} else had;
    assert n !in had;
    if k > n {
      assert now == {} && has == {};
    }
  }

  /** The calls left with a token total are the most by which calls exceed records from some event on. */
  lemma {:induction false} CountIsExcess(events: seq<Event>, t: nat) returns (k: nat)
    ensures k <= |events| && CountOf(Outstanding(events), t) == Excess(events, k, t)
    ensures forall j: nat :: j <= |events| ==> CountOf(Outstanding(events), t) >= Excess(events, j, t)
    decreases |events|
  {
    if events == [] {
      k := 0;
      assert Returning(events, 0, t) == {} && Recording(events, 0, t) == {};
    } else {
      var n := |events| - 1;
      var list := Outstanding(events[..n]);
      k := CountIsExcess(events[..n], t);
      OutstandingNext(events, t);
      forall j: nat | j <= |events| ensures CountOf(Outstanding(events), t) >= Excess(events, j, t) {
        ExcessNext(events, j, t);
        if j <= n {
          assert CountOf(list, t) >= Excess(events[..n], j, t);
        }
      }
      if events[n].Records? && events[n].tokens == t && CountOf(list, t) == 0 {
        k := |events|;
      }
      ExcessNext(events, k, t);
    }
  }

  lemma OutstandingNext(events: seq<Event>, t: nat)
    requires events != []
    ensures var n := |events| - 1;
      CountOf(Outstanding(events), t) ==
        var c := CountOf(Outstanding(events[..n]), t);
        if events[n].tokens != t then c else if events[n].Returns? then c + 1 else Max(c - 1, 0)
  {
    var n := |events| - 1;
    var list := Outstanding(events[..n]);
    match events[n]
    case Returns(tokens, pending) =>
      CountConcat(list, [Returned(tokens, pending)], t);
      assert [Returned(tokens, pending)][..0] == [];
    case Records(tokens) => SettledCount(list, tokens, t);
  }

  /** Nothing is left to settle exactly when, from every event on and for every token total, no more calls
      return than are recorded. */
  lemma NothingLeft(events: seq<Event>)
    ensures Outstanding(events) == [] <==> forall k: nat, t: nat :: k <= |events| ==> Excess(events, k, t) <= 0
  {
    hide Excess, Outstanding, CountOf;
    if Outstanding(events) == [] {
      forall k: nat, t: nat | k <= |events| ensures Excess(events, k, t) <= 0 {
        var j := CountIsExcess(events, t);
        CountPositive(Outstanding(events), t);
      }
    } else {
      var t := Outstanding(events)[0].tokens;
      CountPositive(Outstanding(events), t);
      var k := CountIsExcess(events, t);
      assert Excess(events, k, t) > 0;
    }
  }

  /** record gives each call that returns a record of its own, later and with its token total. */
  predicate EachRecorded(events: seq<Event>, record: seq<nat>) {
    && |record| == |events|
    && (forall i :: 0 <= i < |events| && events[i].Returns? ==>
         i < record[i] < |events| && events[record[i]] == Records(events[i].tokens))
    && forall i, j :: 0 <= i < j < |events| && events[i].Returns? && events[j].Returns? ==> record[i] != record[j]
  }

  /** Once every returned call has been recorded nothing is left to settle, though records have settled
      calls of equal totals in each other's place. */
  lemma RecordedLeavesNothing(events: seq<Event>, record: seq<nat>)
    requires EachRecorded(events, record)
    ensures Outstanding(events) == []
  {
    forall k: nat, t: nat | k <= |events| ensures Excess(events, k, t) <= 0 {
      var calls, records := Returning(events, k, t), Recording(events, k, t);
      var own := set i | i in calls :: record[i];
      ImageSize(calls, record);
      assert own <= records;
      SubsetSize(own, records);
    }
    NothingLeft(events);
  }

  lemma {:induction false} ImageSize(s: set<nat>, record: seq<nat>)
    requires forall i :: i in s ==> i < |record|
    requires forall i, j :: i in s && j in s && i != j ==> record[i] != record[j]
    ensures |set i | i in s :: record[i]| == |s|
    decreases |s|
  {
    var image := set i | i in s :: record[i];
    if s == {} {
      assert image == {};
    } else {
      var i :| i in s;
      ImageSize(s - {i}, record);
      var less := set j | j in s - {i} :: record[j];
      assert image == less + {record[i]} && record[i] !in less;
    }
  }

  /** Every call of the events returned with something pending. */
  predicate Owing(events: seq<Event>) {
    forall i :: 0 <= i < |events| && events[i].Returns? ==> events[i].pending > 0
  }

  lemma {:induction false} OutstandingOwes(events: seq<Event>)
    requires Owing(events)
    ensures forall i :: 0 <= i < |Outstanding(events)| ==> Outstanding(events)[i].pending > 0
    decreases |events|
  {
    if events != [] {
      OutstandingOwes(events[..|events| - 1]);
    }
  }
}

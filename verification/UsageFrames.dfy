/**
 What runs and their steps have spent against their budgets, as one lock guards it.

 Frames chain from the innermost step out through the steps and runs around it. A limit is of one
 account: a run's, or a step name's within a run. This module says what an amount charged to a frame
 adds to each account, and keeps sums of such charges.
 */
module UsageFrames {
  import opened Basics

  /** A frame of one step execution, or of a whole run when step is empty. */
  datatype Frame = Frame(parent: Option<nat>, run: nat, step: Name)

  /** A limit's account: a run's when step is empty, and the step's within the run otherwise. */
  datatype Account = Account(run: nat, step: Name)

  /** Every frame is opened under an older one, in the run of that one unless it starts a run, and a
      run has one frame of its own. */
  predicate Chained(frames: seq<Frame>) {
    && (forall f :: 0 <= f < |frames| && frames[f].parent.Some? ==> frames[f].parent.value < f)
    && (forall f, g :: 0 <= f < g < |frames| && frames[f].step == "" && frames[g].step == "" ==> frames[f].run != frames[g].run)
  }

  /** The frames from f outwards. */
  function Chain(frames: seq<Frame>, f: nat): (chain: seq<nat>)
    requires f < |frames| && Chained(frames)
    ensures |chain| > 0 && chain[0] == f
    ensures forall k :: 0 <= k < |chain| ==> chain[k] <= f
    ensures forall j, k :: 0 <= j < k < |chain| ==> chain[k] < chain[j]
    ensures forall j, k :: 0 <= j < |chain| && k == j + 1 < |chain| ==> frames[chain[j]].parent == Some(chain[k])
    ensures frames[chain[|chain| - 1]].parent.None?
    decreases f
  {
    match frames[f].parent
    case None => [f]
    case Some(p) => [f] + Chain(frames, p)
  }

  /** How many of the frames from f outwards are of account a. */
  function Times(frames: seq<Frame>, f: nat, a: Account): nat
    requires f < |frames| && Chained(frames)
    decreases f
  {
    var here := if AccountOf(frames, f) == a then 1 else 0;
    match frames[f].parent
    case None => here
    case Some(p) => here + Times(frames, p, a)
  }

  /** The same from an optional frame. */
  function TimesFrom(frames: seq<Frame>, f: Option<nat>, a: Account): nat
    requires Chained(frames) && (f.Some? ==> f.value < |frames|)
  {
    if f.None? then 0 else Times(frames, f.value, a)
  }

  function AccountOf(frames: seq<Frame>, f: nat): Account
    requires f < |frames|
  {
    Account(frames[f].run, frames[f].step)
  }

  /** An account of a frame in the chain counts. */
  lemma {:induction false} ChainTimes(frames: seq<Frame>, f: nat, k: nat)
    requires f < |frames| && Chained(frames) && k < |Chain(frames, f)|
    ensures Times(frames, f, AccountOf(frames, Chain(frames, f)[k])) >= 1
    decreases f
  {
    if k > 0 {
      ChainTimes(frames, frames[f].parent.value, k - 1);
    }
  }

  /** An account that counts is that of a frame in the chain. */
  lemma {:induction false} TimesInChain(frames: seq<Frame>, f: nat, a: Account)
    requires f < |frames| && Chained(frames) && Times(frames, f, a) > 0
    ensures exists k :: 0 <= k < |Chain(frames, f)| && AccountOf(frames, Chain(frames, f)[k]) == a
    decreases f
  {
    if AccountOf(frames, f) == a {
      assert Chain(frames, f)[0] == f;
    } else {
      var p := frames[f].parent.value;
      TimesInChain(frames, p, a);
      var k :| 0 <= k < |Chain(frames, p)| && AccountOf(frames, Chain(frames, p)[k]) == a;
      assert Chain(frames, f)[k + 1] == Chain(frames, p)[k];
    }
  }

  /** A run counts once at most: it has one frame. */
  lemma {:induction false} RunOnce(frames: seq<Frame>, f: nat, r: nat)
    requires f < |frames| && Chained(frames)
    ensures Times(frames, f, Account(r, "")) <= 1
    ensures Times(frames, f, Account(r, "")) == 1 ==> exists g :: 0 <= g <= f && frames[g] == Frame(frames[g].parent, r, "")
    decreases f
  {
    if frames[f].parent.Some? {
      RunOnce(frames, frames[f].parent.value, r);
    }
    if AccountOf(frames, f) == Account(r, "") {
      assert frames[f] == Frame(frames[f].parent, r, "");
    }
  }

  /** Opening a frame changes nothing for the frames before it. */
  lemma {:induction false} TimesKept(frames: seq<Frame>, frame: Frame, f: nat, a: Account)
    requires f < |frames| && Chained(frames) && Chained(frames + [frame])
    ensures Times(frames + [frame], f, a) == Times(frames, f, a)
    decreases f
  {
    if frames[f].parent.Some? {
      TimesKept(frames, frame, frames[f].parent.value, a);
    }
  }

  // ---- charges ----

  /** An amount charged to a frame, and so to every account around it. */
  datatype Charge = Charge(frame: nat, amount: int)

  predicate ChargesOf(frames: seq<Frame>, charges: seq<Charge>) {
    forall i :: 0 <= i < |charges| ==> charges[i].frame < |frames|
  }

  /** What charges add to account a. */
  function Sum(frames: seq<Frame>, charges: seq<Charge>, a: Account): int
    requires Chained(frames) && ChargesOf(frames, charges)
  {
    if charges == [] then 0
    else
      var last := charges[|charges| - 1];
      Sum(frames, charges[..|charges| - 1], a) + last.amount * Times(frames, last.frame, a)
  }

  lemma SumAppend(frames: seq<Frame>, charges: seq<Charge>, charge: Charge, a: Account)
    requires Chained(frames) && ChargesOf(frames, charges) && charge.frame < |frames|
    ensures ChargesOf(frames, charges + [charge])
    ensures Sum(frames, charges + [charge], a) == Sum(frames, charges, a) + charge.amount * Times(frames, charge.frame, a)
  {
    assert (charges + [charge])[..|charges|] == charges;
  }

  lemma {:induction false} SumUpdate(frames: seq<Frame>, charges: seq<Charge>, k: nat, d: int, a: Account)
    requires Chained(frames) && ChargesOf(frames, charges) && k < |charges|
    ensures var more := charges[k := Charge(charges[k].frame, charges[k].amount + d)];
      ChargesOf(frames, more)
      && Sum(frames, more, a) == Sum(frames, charges, a) + d * Times(frames, charges[k].frame, a)
    decreases |charges|
  {
    var n := |charges| - 1;
    var more := charges[k := Charge(charges[k].frame, charges[k].amount + d)];
    if k == n {
      assert more[..n] == charges[..n];
      Distributes(charges[k].amount, d, Times(frames, charges[k].frame, a));
    } else {
      assert more[..n] == charges[..n][k := Charge(charges[k].frame, charges[k].amount + d)];
      SumUpdate(frames, charges[..n], k, d, a);
    }
  }

  lemma Distributes(x: int, d: int, t: int)
    ensures (x + d) * t == x * t + d * t
  {
  }

  lemma {:induction false} SumKept(frames: seq<Frame>, frame: Frame, charges: seq<Charge>, a: Account)
    requires Chained(frames) && Chained(frames + [frame]) && ChargesOf(frames, charges)
    ensures ChargesOf(frames + [frame], charges) && Sum(frames + [frame], charges, a) == Sum(frames, charges, a)
    decreases |charges|
  {
    if charges != [] {
      var n := |charges| - 1;
      SumKept(frames, frame, charges[..n], a);
      TimesKept(frames, frame, charges[n].frame, a);
    }
  }

  lemma {:induction false} SumNonNegative(frames: seq<Frame>, charges: seq<Charge>, a: Account)
    requires Chained(frames) && ChargesOf(frames, charges)
    requires forall i :: 0 <= i < |charges| ==> charges[i].amount >= 0
    ensures Sum(frames, charges, a) >= 0
    decreases |charges|
  {
    if charges != [] {
      var n := |charges| - 1;
      SumNonNegative(frames, charges[..n], a);
      Signed(charges[n].amount, Times(frames, charges[n].frame, a));
    }
  }

  lemma Signed(x: int, t: nat)
    requires x >= 0
    ensures x * t >= 0
  {
  }

  lemma {:induction false} SumZero(frames: seq<Frame>, charges: seq<Charge>, a: Account)
    requires Chained(frames) && ChargesOf(frames, charges)
    requires forall i :: 0 <= i < |charges| ==> charges[i].amount == 0
    ensures Sum(frames, charges, a) == 0
    decreases |charges|
  {
    if charges != [] {
      SumZero(frames, charges[..|charges| - 1], a);
    }
  }

  /** A charge counts in the account of its own frame. */
  lemma {:induction false} SumPositive(frames: seq<Frame>, charges: seq<Charge>, k: nat)
    requires Chained(frames) && ChargesOf(frames, charges) && k < |charges|
    requires forall i :: 0 <= i < |charges| ==> charges[i].amount >= 0
    ensures Sum(frames, charges, AccountOf(frames, charges[k].frame)) >= charges[k].amount
    decreases |charges|
  {
    var n := |charges| - 1;
    var a := AccountOf(frames, charges[k].frame);
    if k == n {
      SumNonNegative(frames, charges[..n], a);
      ChainTimes(frames, charges[k].frame, 0);
      Grows(charges[k].amount, Times(frames, charges[k].frame, a));
    } else {
      SumPositive(frames, charges[..n], k);
      Signed(charges[n].amount, Times(frames, charges[n].frame, a));
    }
  }

  lemma Grows(x: int, t: nat)
    requires x >= 0 && t >= 1
    ensures x * t >= x
  {
  }
}

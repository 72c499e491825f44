/**
 What a step sees and sets while it runs: the State with its scope.

 The values a step runs on never change under it. What it sets is pending until the step has ended, and
 commits only when every declared write is set or preserved.
 */
module Scopes {
  import opened Basics
  import opened Pipelines
  import opened Flow

  /** A use of the State that is not refused: a write, or that a declared output stays as it is. */
  datatype Use = Sets(key: Name, value: Value) | Preserves(key: Name)

  /** The last value set under key. */
  function LastSet(uses: seq<Use>, key: Name): Option<Value> {
    if uses == [] then None
    else
      var last := uses[|uses| - 1];
      if last.Sets? && last.key == key then Some(last.value) else LastSet(uses[..|uses| - 1], key)
  }

  /** The uses came to these pending writes and preserved outputs: the last write of each key, and each output
      preserved, before a write of it or after, only when it is never written. */
  ghost predicate CameTo(uses: seq<Use>, pending: Values, preserved: set<Name>) {
    && (forall key :: key in pending <==> LastSet(uses, key).Some?)
    && (forall key :: key in pending ==> LastSet(uses, key) == Some(pending[key]))
    && (forall key :: key in preserved <==> Preserves(key) in uses && LastSet(uses, key).None?)
  }

  lemma LastOf(uses: seq<Use>, use: Use, key: Name)
    ensures LastSet(uses + [use], key) == if use.Sets? && use.key == key then Some(use.value) else LastSet(uses, key)
  {
    assert (uses + [use])[..|uses|] == uses;
  }

  lemma CameToSet(uses: seq<Use>, pending: Values, preserved: set<Name>, key: Name, value: Value)
    requires CameTo(uses, pending, preserved)
    ensures CameTo(uses + [Sets(key, value)], pending[key := value], preserved - {key})
  {
    forall other ensures LastSet(uses + [Sets(key, value)], other) == if other == key then Some(value) else LastSet(uses, other) {
      LastOf(uses, Sets(key, value), other);
    }
    hide LastSet;
  }

  lemma CameToPreserve(uses: seq<Use>, pending: Values, preserved: set<Name>, key: Name)
    requires CameTo(uses, pending, preserved)
    ensures CameTo(uses + [Preserves(key)], pending, if key in pending then preserved else preserved + {key})
  {
    forall other ensures LastSet(uses + [Preserves(key)], other) == LastSet(uses, other) {
      LastOf(uses, Preserves(key), other);
    }
    hide LastSet;
  }

  class StepScope {
    const node: StepNode
    const values: Values
    var pending: Values
    var preserved: set<Name>
    var failed: bool
    ghost var uses: seq<Use>

    /** What is pending and preserved is declared, as its type, and what is preserved is there to read. */
    ghost predicate Valid()
      reads this
    {
      && CameTo(uses, pending, preserved)
      && (forall key :: key in pending ==> Declares(node.writeKeys, key) && pending[key].typ == TypeOf(node.writeKeys, key))
      && (forall key :: key in preserved ==> Declares(node.writeKeys, key) && Declares(node.readKeys, key) && key in values)
    }

    constructor (node: StepNode, values: Values)
      ensures Valid() && this.node == node && this.values == values && uses == [] && !failed
    {
      this.node, this.values, pending, preserved, failed, uses := node, values, map[], {}, false, [];
    }

    /** visible and lookup: what the step has set, or a declared read that is there. */
    function Visible(key: Name): (value: Option<Value>)
      reads this
      ensures value.Some? ==> key in pending || (Declares(node.readKeys, key) && key in values)
      ensures key in pending ==> value == Some(pending[key])
    {
      if key in pending then Some(pending[key])
      else if !Declares(node.readKeys, key) || key !in values then None
      else Some(values[key])
    }

    /** store. invalid says that the value's type refuses it. */
    method Store(key: Name, value: Value, invalid: bool)
      requires Valid()
      modifies this
      ensures Valid()
      ensures var ok := Declares(node.writeKeys, key) && value.typ == TypeOf(node.writeKeys, key) && !invalid;
        && uses == (if ok then old(uses) + [Sets(key, value)] else old(uses))
        && failed == (old(failed) || !ok)
      ensures Declares(node.writeKeys, key) && value.typ == TypeOf(node.writeKeys, key) && !invalid ==> Visible(key) == Some(value)
    {
      if !Declares(node.writeKeys, key) || value.typ != TypeOf(node.writeKeys, key) || invalid {
        failed := true;
        return;
      }
      CameToSet(uses, pending, preserved, key, value);
      hide CameTo;
      pending := pending[key := value];
      preserved := preserved - {key};
      uses := uses + [Sets(key, value)];
    }

    /** preserve. */
    method Preserve(key: Name, typ: Type) returns (ok: bool)
      requires Valid()
      modifies this`preserved, this`uses
      ensures Valid() && uses == if ok then old(uses) + [Preserves(key)] else old(uses)
      ensures ok <==> Visible(key).Some? && Visible(key).value.typ == typ && Declares(node.writeKeys, key) && TypeOf(node.writeKeys, key) == typ
    {
      var value := Visible(key);
      if value.None? || value.value.typ != typ || !Declares(node.writeKeys, key) || TypeOf(node.writeKeys, key) != typ {
        return false;
      }
      CameToPreserve(uses, pending, preserved, key);
      hide CameTo;
      if key !in pending {
        preserved := preserved + {key};
      }
      uses := uses + [Preserves(key)];
      return true;
    }

    /** The end of runNode: a step that set something it may not, or left a declared write neither set nor
        preserved, has failed; otherwise its result meets what a visit asks of it. */
    method Finish() returns (ok: bool)
      requires Valid()
      ensures ok <==> !failed && WritesOk(node, values, pending, preserved)
      ensures ok <==> !failed && forall j :: 0 <= j < |node.writeKeys| ==>
        LastSet(uses, node.writeKeys[j].name).Some? || Preserves(node.writeKeys[j].name) in uses
    {
      if failed {
        return false;
      }
      for j := 0 to |node.writeKeys|
        invariant forall k :: 0 <= k < j ==> node.writeKeys[k].name in pending.Keys + preserved
      {
        if node.writeKeys[j].name !in pending && node.writeKeys[j].name !in preserved {
          return false;
        }
      }
      return true;
    }
  }
}

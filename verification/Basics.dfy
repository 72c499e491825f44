/** Names, types and values shared by every module of the model. */
module Basics {

  datatype Option<+T> = None | Some(value: T)

  datatype Result<+T, +E> = Ok(value: T) | Err(error: E)

  type Name = string

  /** A Go type, as the identity reflect.Type gives it; types are only ever compared. */
  type Type = int

  /** A state value: the type it was converted to and an uninterpreted content. */
  datatype Value = Value(typ: Type, content: int)

  type Values = map<Name, Value>

  /** A declared key: its name and its type. */
  datatype KeyRef = KeyRef(name: Name, typ: Type)

  /** The largest Go int. */
  const MAX_INT: int := 0x7fff_ffff_ffff_ffff

  function Min(a: int, b: int): int {
    if a <= b then a else b
  }

  function Max(a: int, b: int): int {
    if a >= b then a else b
  }

  /** True iff name is one of the declared keys. */
  predicate Declares(keys: seq<KeyRef>, name: Name) {
    exists j :: 0 <= j < |keys| && keys[j].name == name
  }

  /** The names of the declared keys. */
  function Names(keys: seq<KeyRef>): set<Name> {
    set j | 0 <= j < |keys| :: keys[j].name
  }

  /** The position of the first declaration of name. */
  function IndexOf(keys: seq<KeyRef>, name: Name): (j: nat)
    requires Declares(keys, name)
    ensures j < |keys| && keys[j].name == name
    ensures forall m :: 0 <= m < j ==> keys[m].name != name
  {
    if keys[0].name == name then 0
    else
      assert Declares(keys[1..], name) by {
        var m :| 0 <= m < |keys| && keys[m].name == name;
        assert keys[1..][m - 1].name == name;
      }
      var j := IndexOf(keys[1..], name);
      assert forall m :: 0 < m < j + 1 ==> keys[m] == keys[1..][m - 1];
      j + 1
  }

  /** The type name is declared with. */
  function TypeOf(keys: seq<KeyRef>, name: Name): Type
    requires Declares(keys, name)
  {
    keys[IndexOf(keys, name)].typ
  }

  /** The names are not empty and differ, as stateKeyTypes requires of a key list. */
  predicate DistinctKeys(keys: seq<KeyRef>) {
    && (forall j :: 0 <= j < |keys| ==> keys[j].name != "")
    && (forall j, m :: 0 <= j < m < |keys| ==> keys[j].name != keys[m].name)
  }

  /** In a list without duplicates every declaration is the one its name finds. */
  lemma TypeOfDistinct(keys: seq<KeyRef>, j: nat)
    requires DistinctKeys(keys) && j < |keys|
    ensures Declares(keys, keys[j].name) && TypeOf(keys, keys[j].name) == keys[j].typ
  {
    var m := IndexOf(keys, keys[j].name);
    assert m == j;
  }

  lemma {:induction false} SubsetSize<T>(a: set<T>, b: set<T>)
    requires a <= b
    ensures |a| <= |b|
  {
    if a != {} {
      var x :| x in a;
      SubsetSize(a - {x}, b - {x});
    }
  }

  /** f of each element. */
  function Each<T>(f: T -> nat, s: seq<T>): (all: seq<nat>)
    ensures |all| == |s| && forall i :: 0 <= i < |all| ==> all[i] == f(s[i])
  {
    seq(|s|, i requires 0 <= i < |s| => f(s[i]))
  }

  function Total(a: seq<nat>): nat {
    if a == [] then 0 else Total(a[..|a| - 1]) + a[|a| - 1]
  }

  lemma {:induction false} TotalUpdate(a: seq<nat>, i: nat, x: nat)
    requires i < |a|
    ensures Total(a[i := x]) == Total(a) - a[i] + x
    decreases |a|
  {
    var n := |a| - 1;
    if i == n {
      assert a[i := x][..n] == a[..n];
    } else {
      assert a[i := x][..n] == a[..n][i := x];
      TotalUpdate(a[..n], i, x);
    }
  }
}

/**
 deepCopy: a copy of a value that shares no pointer, slice or map with it, whatever it shares or
 however it refers to itself.

 A value refers to cells of a heap by address. A cell is a whole pointer target, slice or map; the keys
 of a map are scalars. Unexported fields, channels and functions are Shared: the copy has them as they
 are.
 */
module Copies {
  import opened Basics

  datatype Value =
    | Scalar(content: int)
    | Shared(identity: int)
    | Nil
    | Ref(addr: nat)
    | Struct(fields: seq<Value>)
    | Array(elems: seq<Value>)
    | Boxed(value: Value)

  datatype Cell = Pointer(target: Value) | Slice(elems: seq<Value>) | Map(entries: map<Name, Value>)

  type Heap = map<nat, Cell>

  // ---- references ----

  /** The cells v refers to itself. */
  function Refs(v: Value): set<nat> {
    match v
    case Ref(addr) => {addr}
    case Struct(fields) => set i, a | 0 <= i < |fields| && a in Refs(fields[i]) :: a
    case Array(elems) => set i, a | 0 <= i < |elems| && a in Refs(elems[i]) :: a
    case Boxed(value) => Refs(value)
    case _ => {}
  }

  function CellRefs(c: Cell): set<nat> {
    match c
    case Pointer(target) => Refs(target)
    case Slice(elems) => set i, a | 0 <= i < |elems| && a in Refs(elems[i]) :: a
    case Map(entries) => set k, a | k in entries && a in Refs(entries[k]) :: a
  }

  /** No cell refers outside the heap. */
  predicate Closed(heap: Heap) {
    forall a :: a in heap ==> CellRefs(heap[a]) <= heap.Keys
  }

  /** v with its references renamed. */
  function Renamed(f: map<nat, nat>, v: Value): Value
    requires Refs(v) <= f.Keys
  {
    match v
    case Ref(addr) => Ref(f[addr])
    case Struct(fields) =>
      assert forall i :: 0 <= i < |fields| ==> Refs(fields[i]) <= Refs(v);
      Struct(seq(|fields|, i requires 0 <= i < |fields| => Renamed(f, fields[i])))
    case Array(elems) =>
      assert forall i :: 0 <= i < |elems| ==> Refs(elems[i]) <= Refs(v);
      Array(seq(|elems|, i requires 0 <= i < |elems| => Renamed(f, elems[i])))
    case Boxed(value) => Boxed(Renamed(f, value))
    case _ => v
  }

  function RenamedAll(f: map<nat, nat>, values: seq<Value>): (all: seq<Value>)
    requires forall i :: 0 <= i < |values| ==> Refs(values[i]) <= f.Keys
    ensures |all| == |values| && forall i :: 0 <= i < |values| ==> all[i] == Renamed(f, values[i])
  {
    seq(|values|, i requires 0 <= i < |values| => Renamed(f, values[i]))
  }

  function RenamedCell(f: map<nat, nat>, c: Cell): Cell
    requires CellRefs(c) <= f.Keys
  {
    match c
    case Pointer(target) => Pointer(Renamed(f, target))
    case Slice(elems) =>
      assert forall i :: 0 <= i < |elems| ==> Refs(elems[i]) <= CellRefs(c);
      Slice(RenamedAll(f, elems))
    case Map(entries) =>
      assert forall k :: k in entries ==> Refs(entries[k]) <= CellRefs(c);
      Map(map k | k in entries :: Renamed(f, entries[k]))
  }

  /** g renames everything f does, the same way. */
  predicate Extends(f: map<nat, nat>, g: map<nat, nat>) {
    forall a :: a in f ==> a in g && g[a] == f[a]
  }

  lemma {:induction false} RenamedStable(f: map<nat, nat>, g: map<nat, nat>, v: Value)
    requires Extends(f, g) && Refs(v) <= f.Keys
    ensures Refs(v) <= g.Keys && Renamed(g, v) == Renamed(f, v)
  {
    match v
    case Struct(fields) =>
      forall i | 0 <= i < |fields| ensures Refs(fields[i]) <= f.Keys && Renamed(g, fields[i]) == Renamed(f, fields[i]) {
        assert Refs(fields[i]) <= Refs(v);
        RenamedStable(f, g, fields[i]);
      }
    case Array(elems) =>
      forall i | 0 <= i < |elems| ensures Refs(elems[i]) <= f.Keys && Renamed(g, elems[i]) == Renamed(f, elems[i]) {
        assert Refs(elems[i]) <= Refs(v);
        RenamedStable(f, g, elems[i]);
      }
    case Boxed(value) => RenamedStable(f, g, value);
    case _ =>
  }

  lemma CellStable(f: map<nat, nat>, g: map<nat, nat>, c: Cell)
    requires Extends(f, g) && CellRefs(c) <= f.Keys
    ensures CellRefs(c) <= g.Keys && RenamedCell(g, c) == RenamedCell(f, c)
  {
    match c
    case Pointer(target) => RenamedStable(f, g, target);
    case Slice(elems) =>
      forall i | 0 <= i < |elems| ensures Refs(elems[i]) <= f.Keys && Renamed(g, elems[i]) == Renamed(f, elems[i]) {
        assert Refs(elems[i]) <= CellRefs(c);
        RenamedStable(f, g, elems[i]);
      }
    case Map(entries) =>
      forall k | k in entries ensures Refs(entries[k]) <= f.Keys && Renamed(g, entries[k]) == Renamed(f, entries[k]) {
        assert Refs(entries[k]) <= CellRefs(c);
        RenamedStable(f, g, entries[k]);
      }
  }

  /** The cells f renames those of s to. */
  function Images(f: map<nat, nat>, s: set<nat>): set<nat>
    requires s <= f.Keys
  {
    set a | a in s :: f[a]
  }

  /** The references of a renamed value are the renamed ones. */
  lemma {:induction false} RefsRenamed(f: map<nat, nat>, v: Value)
    requires Refs(v) <= f.Keys
    ensures Refs(Renamed(f, v)) == Images(f, Refs(v))
  {
    match v
    case Struct(fields) =>
      forall i | 0 <= i < |fields| ensures Refs(fields[i]) <= f.Keys && Refs(Renamed(f, fields[i])) == Images(f, Refs(fields[i])) {
        assert Refs(fields[i]) <= Refs(v);
        RefsRenamed(f, fields[i]);
      }
      assert Refs(v) == UnionRefs(fields);
      ImagesOfAll(f, fields, Renamed(f, v).fields);
      assert Refs(Renamed(f, v)) == UnionRefs(Renamed(f, v).fields);
    case Array(elems) =>
      forall i | 0 <= i < |elems| ensures Refs(elems[i]) <= f.Keys && Refs(Renamed(f, elems[i])) == Images(f, Refs(elems[i])) {
        assert Refs(elems[i]) <= Refs(v);
        RefsRenamed(f, elems[i]);
      }
      assert Refs(v) == UnionRefs(elems);
      ImagesOfAll(f, elems, Renamed(f, v).elems);
      assert Refs(Renamed(f, v)) == UnionRefs(Renamed(f, v).elems);
    case Boxed(value) => RefsRenamed(f, value);
    case _ =>
  }

  function UnionRefs(values: seq<Value>): set<nat> {
    set i, a | 0 <= i < |values| && a in Refs(values[i]) :: a
  }

  lemma InUnion(values: seq<Value>, i: nat, a: nat)
    requires i < |values| && a in Refs(values[i])
    ensures a in UnionRefs(values)
  {
  }

  /** If each value's references are renamed, so are those of all of them. */
  lemma ImagesOfAll(f: map<nat, nat>, values: seq<Value>, renamed: seq<Value>)
    requires |renamed| == |values| && UnionRefs(values) <= f.Keys
    requires forall i :: 0 <= i < |values| ==> Refs(values[i]) <= f.Keys && Refs(renamed[i]) == Images(f, Refs(values[i]))
    ensures UnionRefs(renamed) == Images(f, UnionRefs(values))
  {
    var from, to := UnionRefs(values), UnionRefs(renamed);
    forall b | b in to ensures b in Images(f, from) {
      var i :| 0 <= i < |renamed| && b in Refs(renamed[i]);
      var a :| a in Refs(values[i]) && f[a] == b;
      InUnion(values, i, a);
    }
    forall b | b in Images(f, from) ensures b in to {
      var a :| a in from && f[a] == b;
      var i :| 0 <= i < |values| && a in Refs(values[i]);
      assert b in Refs(renamed[i]);
    }
  }

  lemma CellRefsRenamed(f: map<nat, nat>, c: Cell)
    requires CellRefs(c) <= f.Keys
    ensures CellRefs(RenamedCell(f, c)) == Images(f, CellRefs(c))
  {
    match c
    case Pointer(target) => RefsRenamed(f, target);
    case Slice(elems) =>
      forall i | 0 <= i < |elems| ensures Refs(elems[i]) <= f.Keys && Refs(Renamed(f, elems[i])) == Images(f, Refs(elems[i])) {
        assert Refs(elems[i]) <= CellRefs(c);
        RefsRenamed(f, elems[i]);
      }
      assert CellRefs(c) == UnionRefs(elems);
      ImagesOfAll(f, elems, RenamedCell(f, c).elems);
      assert CellRefs(RenamedCell(f, c)) == UnionRefs(RenamedCell(f, c).elems);
    case Map(entries) => MapRefsRenamed(f, c);
  }

  lemma MapRefsRenamed(f: map<nat, nat>, c: Cell)
    requires c.Map? && CellRefs(c) <= f.Keys
    ensures CellRefs(RenamedCell(f, c)) == Images(f, CellRefs(c))
  {
    var entries, renamed := c.entries, RenamedCell(f, c).entries;
    forall k | k in entries ensures Refs(entries[k]) <= f.Keys && Refs(renamed[k]) == Images(f, Refs(entries[k])) {
      assert Refs(entries[k]) <= CellRefs(c);
      RefsRenamed(f, entries[k]);
    }
    hide Refs;
    var from, to := CellRefs(c), CellRefs(RenamedCell(f, c));
    forall b | b in to ensures b in Images(f, from) {
      var k :| k in entries && b in Refs(renamed[k]);
      var a :| a in Refs(entries[k]) && f[a] == b;
      assert a in from;
    }
    forall b | b in Images(f, from) ensures b in to {
      var a :| a in from && f[a] == b;
      var k :| k in entries && a in Refs(entries[k]);
      assert b in Refs(renamed[k]);
    }
  }

  // ---- copying ----

  /** From one state of a copy to a later one: more may have been met and allocated, but nothing met before
      and no cell that was there has changed. */
  ghost predicate Grew(heap0: Heap, seen0: map<nat, nat>, heap1: Heap, seen1: map<nat, nat>) {
    Extends(seen0, seen1) && forall b :: b in heap0 ==> b in heap1 && heap1[b] == heap0[b]
  }

  lemma GrewNot(heap: Heap, seen: map<nat, nat>)
    ensures Grew(heap, seen, heap, seen)
  {
  }

  lemma GrewTwice(heap0: Heap, seen0: map<nat, nat>, heap1: Heap, seen1: map<nat, nat>, heap2: Heap, seen2: map<nat, nat>)
    requires Grew(heap0, seen0, heap1, seen1) && Grew(heap1, seen1, heap2, seen2)
    ensures Grew(heap0, seen0, heap2, seen2)
  {
  }

  lemma MetStays(heap0: Heap, seen0: map<nat, nat>, heap1: Heap, seen1: map<nat, nat>, a: nat)
    requires Grew(heap0, seen0, heap1, seen1) && a in seen0
    ensures a in seen1 && seen1[a] == seen0[a] && Extends(seen0, seen1)
  {
  }

  /** Allocating a copy, copying what its cell holds and filling it changes nothing that was there. */
  lemma FilledSince(heap0: Heap, seen0: map<nat, nat>, heap1: Heap, seen1: map<nat, nat>, heap2: Heap, seen2: map<nat, nat>, a: nat,
    heap3: Heap)
    requires a !in seen0 && a in seen1 && seen1[a] !in heap0
    requires seen1 == seen0[a := seen1[a]] && seen1[a] in heap1 && heap1 == heap0[seen1[a] := heap1[seen1[a]]]
    requires Grew(heap1, seen1, heap2, seen2) && a in seen2 && seen2[a] == seen1[a]
    requires seen2[a] in heap3 && heap3 == heap2[seen2[a] := heap3[seen2[a]]]
    ensures Grew(heap0, seen0, heap3, seen2)
  {
  }

  /** A copy under way. was is the heap before it, which stays; seen has the copy of each cell met so
      far; next is an address no cell has. */
  class Copier {
    ghost const was: Heap
    var heap: Heap
    var seen: map<nat, nat>
    var next: nat

    ghost predicate Valid()
      reads this
    {
      && Closed(was)
      && (forall a :: a in was ==> a in heap && heap[a] == was[a])
      && (forall a :: a in heap ==> a < next)
      && (forall a :: a in seen ==> a in was && seen[a] in heap && seen[a] !in was)
      && (forall a, b :: a in seen && b in seen && seen[a] == seen[b] ==> a == b)
    }

    /** The copies of the cells met, except those being filled, have what the cells do, renamed. */
    ghost predicate Filled(filling: set<nat>)
      requires Valid()
      reads this
    {
      forall a {:trigger seen[a]} :: a in seen && a !in filling ==>
        CellRefs(was[a]) <= seen.Keys && heap[seen[a]] == RenamedCell(seen, was[a])
    }

    constructor (heap: Heap, next: nat)
      requires Closed(heap) && forall a :: a in heap ==> a < next
      ensures Valid() && Filled({}) && was == heap && this.heap == heap && seen == map[]
    {
      was, this.heap, seen, this.next := heap, heap, map[], next;
    }

    /** Allocates the copy of cell a, to be filled, before what the cell holds is copied: a reference back
        to a finds it. */
    method Allocate(a: nat, empty: Cell, ghost filling: set<nat>) returns (c: nat)
      requires Valid() && Filled(filling) && a in was && a !in seen
      modifies this
      ensures Valid() && Filled(filling + {a})
      ensures c !in old(heap) && seen == old(seen)[a := c] && heap == old(heap)[c := empty]
    {
      c := next;
      next := next + 1;
      heap := heap[c := empty];
      seen := seen[a := c];
      forall b {:trigger seen[b]} | b in seen && b !in filling + {a}
        ensures CellRefs(was[b]) <= seen.Keys && heap[seen[b]] == RenamedCell(seen, was[b])
      {
        assert old(seen)[b] == seen[b];
        CellStable(old(seen), seen, was[b]);
      }
    }

    /** Fills the copy of cell a. */
    method Fill(a: nat, cell: Cell, ghost filling: set<nat>)
      requires Valid() && a in seen && Filled(filling + {a})
      requires CellRefs(was[a]) <= seen.Keys && cell == RenamedCell(seen, was[a])
      modifies this`heap
      ensures Valid() && Filled(filling) && heap == old(heap)[seen[a] := cell]
    {
      heap := heap[seen[a] := cell];
    }

    /** copyValue. filling are the cells whose copies are being filled further out. */
    method CopyValue(v: Value, ghost filling: set<nat>) returns (c: Value)
      requires Valid() && Filled(filling) && Refs(v) <= was.Keys
      modifies this
      ensures Valid() && Filled(filling) && Grew(old(heap), old(seen), heap, seen)
      ensures Refs(v) <= seen.Keys && c == Renamed(seen, v)
      decreases |was.Keys - seen.Keys|, v, 2
    {
      hide Valid, Filled, CellRefs, RenamedCell;
      match v
      case Ref(addr) => c := CopyCell(addr, filling);
      case Boxed(value) =>
        var inner := CopyValue(value, filling);
        c := Boxed(inner);
      case Struct(fields) =>
        var all := CopyAll(fields, filling);
        c := Struct(all);
      case Array(elems) =>
        var all := CopyAll(elems, filling);
        c := Array(all);
      case _ => c := v;
    }

    /** The fields of a struct or the elements of an array or a slice, in order. */
    method CopyAll(values: seq<Value>, ghost filling: set<nat>) returns (all: seq<Value>)
      requires Valid() && Filled(filling)
      requires forall i :: 0 <= i < |values| ==> Refs(values[i]) <= was.Keys
      modifies this
      ensures Valid() && Filled(filling) && Grew(old(heap), old(seen), heap, seen)
      ensures forall i :: 0 <= i < |values| ==> Refs(values[i]) <= seen.Keys
      ensures all == RenamedAll(seen, values)
      decreases |was.Keys - seen.Keys|, values
    {
      hide Valid, Filled, CellRefs, RenamedCell, Refs, Renamed, Grew;
      all := [];
      GrewNot(heap, seen);
      for i := 0 to |values|
        invariant Valid() && Filled(filling) && Grew(old(heap), old(seen), heap, seen)
        invariant |all| == i
        invariant forall k :: 0 <= k < i ==> Refs(values[k]) <= seen.Keys && all[k] == Renamed(seen, values[k])
      {
        ghost var before, there := seen, heap;
        Fewer(was.Keys, old(heap), old(seen), heap, seen);
        var c := CopyValue(values[i], filling);
        GrewTwice(old(heap), old(seen), there, before, heap, seen);
        Renames(there, before, heap, seen);
        forall k | 0 <= k < i ensures Refs(values[k]) <= seen.Keys && all[k] == Renamed(seen, values[k]) {
          RenamedStable(before, seen, values[k]);
        }
        all := all + [c];
      }
    }

    /** The values of a map, in any order of its keys. */
    method CopyEntries(cell: Cell, ghost filling: set<nat>) returns (all: map<Name, Value>)
      requires Valid() && Filled(filling) && cell.Map?
      requires forall k :: k in cell.entries ==> Refs(cell.entries[k]) <= was.Keys
      modifies this
      ensures Valid() && Filled(filling) && Grew(old(heap), old(seen), heap, seen)
      ensures all.Keys == cell.entries.Keys
      ensures forall k :: k in all ==> Refs(cell.entries[k]) <= seen.Keys && all[k] == Renamed(seen, cell.entries[k])
      decreases |was.Keys - seen.Keys|, cell
    {
      hide Valid, Filled, CellRefs, RenamedCell, Refs, Renamed, Grew;
      var entries := cell.entries;
      all := map[];
      GrewNot(heap, seen);
      var todo := entries.Keys;
      while todo != {}
        invariant Valid() && Filled(filling) && Grew(old(heap), old(seen), heap, seen)
        invariant todo <= entries.Keys && all.Keys == entries.Keys - todo
        invariant forall k :: k in all ==> Refs(entries[k]) <= seen.Keys && all[k] == Renamed(seen, entries[k])
        decreases |todo|
      {
        var key := PickKey(todo);
        todo := todo - {key};
        ghost var before, there := seen, heap;
        Fewer(was.Keys, old(heap), old(seen), heap, seen);
        var c := CopyValue(entries[key], filling);
        GrewTwice(old(heap), old(seen), there, before, heap, seen);
        Renames(there, before, heap, seen);
        EntriesStable(before, seen, entries, all);
        all := all[key := c];
      }
    }


    /** A pointer met for the first time. */
    method CopyPointer(a: nat, ghost filling: set<nat>)
      requires Valid() && Filled(filling) && a in was && was[a].Pointer? && a !in seen
      modifies this
      ensures Valid() && Filled(filling) && Grew(old(heap), old(seen), heap, seen) && a in seen
      decreases |was.Keys - seen.Keys|, Ref(a), 0
    {
      Closes(a);
      hide Valid, Filled, CellRefs, Refs, Renamed, RenamedCell, Grew;
      Smaller(was.Keys, seen, a);
      ghost var heap0, seen0 := heap, seen;
      var target := heap[a].target;
      var at := Allocate(a, Pointer(Nil), filling);
      ghost var heap1, seen1 := heap, seen;
      var copied := CopyValue(target, filling + {a});
      ghost var heap2 := heap;
      MetStays(heap1, seen1, heap, seen, a);
      PointerFilled(seen, target);
      Fill(a, Pointer(copied), filling);
      FilledSince(heap0, seen0, heap1, seen1, heap2, seen, a, heap);
    }

    /** A slice met for the first time. */
    method CopySlice(a: nat, ghost filling: set<nat>)
      requires Valid() && Filled(filling) && a in was && was[a].Slice? && a !in seen
      modifies this
      ensures Valid() && Filled(filling) && Grew(old(heap), old(seen), heap, seen) && a in seen
      decreases |was.Keys - seen.Keys|, Ref(a), 0
    {
      Closes(a);
      hide Valid, Filled, CellRefs, Refs, Renamed, RenamedCell, Grew;
      Smaller(was.Keys, seen, a);
      ghost var heap0, seen0 := heap, seen;
      var elems := heap[a].elems;
      var at := Allocate(a, Slice([]), filling);
      ghost var heap1, seen1 := heap, seen;
      var copied := CopyAll(elems, filling + {a});
      ghost var heap2 := heap;
      MetStays(heap1, seen1, heap, seen, a);
      SliceFilled(seen, elems);
      Fill(a, Slice(copied), filling);
      FilledSince(heap0, seen0, heap1, seen1, heap2, seen, a, heap);
    }

    /** A map met for the first time. */
    method CopyMap(a: nat, ghost filling: set<nat>)
      requires Valid() && Filled(filling) && a in was && was[a].Map? && a !in seen
      modifies this
      ensures Valid() && Filled(filling) && Grew(old(heap), old(seen), heap, seen) && a in seen
      decreases |was.Keys - seen.Keys|, Ref(a), 0
    {
      Closes(a);
      hide Valid, Filled, CellRefs, Refs, Renamed, RenamedCell, Grew;
      Smaller(was.Keys, seen, a);
      ghost var heap0, seen0 := heap, seen;
      var cell := heap[a];
      var at := Allocate(a, Map(map[]), filling);
      ghost var heap1, seen1 := heap, seen;
      var copied := CopyEntries(cell, filling + {a});
      ghost var heap2 := heap;
      MetStays(heap1, seen1, heap, seen, a);
      MapFilled(seen, cell.entries, copied);
      Fill(a, Map(copied), filling);
      FilledSince(heap0, seen0, heap1, seen1, heap2, seen, a, heap);
    }

    /** A pointer, slice or map: its copy, made when the cell is first met. */
    method CopyCell(a: nat, ghost filling: set<nat>) returns (c: Value)
      requires Valid() && Filled(filling) && a in was
      modifies this
      ensures Valid() && Filled(filling) && Grew(old(heap), old(seen), heap, seen)
      ensures a in seen && c == Ref(seen[a])
      decreases |was.Keys - seen.Keys|, Ref(a), 1
    {
      Closes(a);
      hide Valid, Filled;
      if a !in seen {
        match heap[a]
        case Pointer(_) => CopyPointer(a, filling);
        case Slice(_) => CopySlice(a, filling);
        case Map(_) => CopyMap(a, filling);
      }
      return Ref(seen[a]);
    }

    lemma Closes(a: nat)
      requires Valid() && a in was
      ensures a in heap && heap[a] == was[a]
      ensures was[a].Pointer? ==> Refs(was[a].target) <= was.Keys
      ensures CellRefs(was[a]) <= was.Keys
      ensures was[a].Slice? ==> forall i :: 0 <= i < |was[a].elems| ==> Refs(was[a].elems[i]) <= was.Keys
      ensures was[a].Map? ==> forall k :: k in was[a].entries ==> Refs(was[a].entries[k]) <= was.Keys
    {
      assert CellRefs(was[a]) <= was.Keys;
      if was[a].Slice? {
        forall i | 0 <= i < |was[a].elems| ensures Refs(was[a].elems[i]) <= was.Keys {
          assert Refs(was[a].elems[i]) <= CellRefs(was[a]);
        }
      }
      if was[a].Map? {
        forall k | k in was[a].entries ensures Refs(was[a].entries[k]) <= was.Keys {
          assert Refs(was[a].entries[k]) <= CellRefs(was[a]);
        }
      }
    }
  }

  lemma EntriesStable(f: map<nat, nat>, g: map<nat, nat>, entries: map<Name, Value>, all: map<Name, Value>)
    requires Extends(f, g) && all.Keys <= entries.Keys
    requires forall k :: k in all ==> Refs(entries[k]) <= f.Keys && all[k] == Renamed(f, entries[k])
    ensures forall k :: k in all ==> Refs(entries[k]) <= g.Keys && all[k] == Renamed(g, entries[k])
  {
    forall k | k in all ensures Refs(entries[k]) <= g.Keys && all[k] == Renamed(g, entries[k]) {
      RenamedStable(f, g, entries[k]);
    }
  }

  lemma PointerFilled(f: map<nat, nat>, target: Value)
    requires Refs(target) <= f.Keys
    ensures CellRefs(Pointer(target)) <= f.Keys && RenamedCell(f, Pointer(target)) == Pointer(Renamed(f, target))
  {
  }

  lemma SliceFilled(f: map<nat, nat>, elems: seq<Value>)
    requires forall i :: 0 <= i < |elems| ==> Refs(elems[i]) <= f.Keys
    ensures CellRefs(Slice(elems)) <= f.Keys && RenamedCell(f, Slice(elems)) == Slice(RenamedAll(f, elems))
  {
  }

  lemma MapFilled(f: map<nat, nat>, entries: map<Name, Value>, copied: map<Name, Value>)
    requires copied.Keys == entries.Keys
    requires forall k :: k in entries ==> Refs(entries[k]) <= f.Keys && copied[k] == Renamed(f, entries[k])
    ensures CellRefs(Map(entries)) <= f.Keys && RenamedCell(f, Map(entries)) == Map(copied)
  {
    forall a | a in CellRefs(Map(entries)) ensures a in f {
      var k :| k in entries && a in Refs(entries[k]);
    }
    var renamed := RenamedCell(f, Map(entries)).entries;
    assert renamed.Keys == copied.Keys;
    forall k | k in copied ensures renamed[k] == copied[k] {
      assert renamed[k] == Renamed(f, entries[k]);
    }
    assert renamed == copied;
  }

  method PickKey(keys: set<Name>) returns (key: Name)
    requires keys != {}
    ensures key in keys
  {
    key :| key in keys;
  }

  /** Meeting a cell leaves fewer to meet. */
  lemma Smaller(all: set<nat>, seen: map<nat, nat>, a: nat)
    requires a in all && a !in seen
    ensures forall c: nat {:trigger seen[a := c]} :: |all - seen[a := c].Keys| < |all - seen.Keys|
  {
    forall c: nat {:trigger seen[a := c]} ensures |all - seen[a := c].Keys| < |all - seen.Keys| {
      assert all - seen[a := c].Keys == all - seen.Keys - {a};
    }
  }

  lemma Renames(heap0: Heap, seen0: map<nat, nat>, heap1: Heap, seen1: map<nat, nat>)
    requires Grew(heap0, seen0, heap1, seen1)
    ensures Extends(seen0, seen1)
  {
  }

  lemma Fewer(all: set<nat>, heap0: Heap, seen: map<nat, nat>, heap1: Heap, more: map<nat, nat>)
    requires Grew(heap0, seen, heap1, more)
    ensures |all - more.Keys| <= |all - seen.Keys|
  {
    SubsetSize(all - more.Keys, all - seen.Keys);
  }

  // ---- a whole copy ----

  /** c in heap1 is v in heap0 with its cells renamed by f, one cell for each: every copied cell is new and
      holds what the cell it copies does. */
  ghost predicate Isomorphic(heap0: Heap, v: Value, heap1: Heap, c: Value, f: map<nat, nat>) {
    && Refs(v) <= f.Keys && c == Renamed(f, v)
    && (forall a, b :: a in f && b in f && f[a] == f[b] ==> a == b)
    && (forall a {:trigger f[a]} :: a in f ==>
         && a in heap0 && CellRefs(heap0[a]) <= f.Keys
         && f[a] !in heap0 && f[a] in heap1 && heap1[f[a]] == RenamedCell(f, heap0[a]))
  }

  /** deepCopy: a copy in a heap where everything else is as it was. It ends on every value, one that
      refers to itself too. */
  method DeepCopy(heap: Heap, next: nat, v: Value) returns (c: Value, more: Heap, ghost f: map<nat, nat>)
    requires Closed(heap) && Refs(v) <= heap.Keys && forall a :: a in heap ==> a < next
    ensures Isomorphic(heap, v, more, c, f)
    ensures forall a :: a in heap ==> a in more && more[a] == heap[a]
  {
    var copier := new Copier(heap, next);
    c := copier.CopyValue(v, {});
    return c, copier.heap, copier.seen;
  }

  /** path leads from v through the heap: from each cell to one it refers to. */
  predicate IsPath(heap: Heap, v: Value, path: seq<nat>) {
    && path != [] && path[0] in Refs(v)
    && (forall k :: 0 <= k < |path| - 1 ==> path[k] in heap && path[k + 1] in CellRefs(heap[path[k]]))
  }

  function Along(f: map<nat, nat>, path: seq<nat>): (images: seq<nat>)
    requires forall k :: 0 <= k < |path| ==> path[k] in f
    ensures |images| == |path| && forall k :: 0 <= k < |path| ==> images[k] == f[path[k]]
  {
    seq(|path|, k requires 0 <= k < |path| => f[path[k]])
  }

  /** Every way through the original is one through the copy, cell for cell: what the original shares
      or where it comes back to itself, so does the copy. */
  lemma {:induction false} PathCopied(heap0: Heap, v: Value, heap1: Heap, c: Value, f: map<nat, nat>, path: seq<nat>)
    requires Isomorphic(heap0, v, heap1, c, f) && IsPath(heap0, v, path)
    ensures forall k :: 0 <= k < |path| ==> path[k] in f
    ensures IsPath(heap1, c, Along(f, path))
    decreases |path|
  {
    hide Refs, CellRefs, Renamed, RenamedCell;
    if |path| == 1 {
      RefsRenamed(f, v);
    } else {
      var init, last := path[..|path| - 1], |path| - 1;
      PathCopied(heap0, v, heap1, c, f, init);
      var a := path[last - 1];
      assert init[last - 1] == a;
      CellRefsRenamed(f, heap0[a]);
      assert path[last] in CellRefs(heap0[a]);
      assert Along(f, init) == Along(f, path)[..last];
      forall k | 0 <= k < last ensures Along(f, path)[k] in heap1 && Along(f, path)[k + 1] in CellRefs(heap1[Along(f, path)[k]]) {
        if k < last - 1 {
          assert Along(f, init)[k + 1] in CellRefs(heap1[Along(f, init)[k]]);
        }
      }
    }
  }

  /** And every way through the copy is the copy of one through the original, so no cell on it is one the
      original had. */
  lemma {:induction false} PathOriginal(heap0: Heap, v: Value, heap1: Heap, c: Value, f: map<nat, nat>, path: seq<nat>)
    returns (original: seq<nat>)
    requires Isomorphic(heap0, v, heap1, c, f) && IsPath(heap1, c, path)
    ensures IsPath(heap0, v, original) && forall k :: 0 <= k < |original| ==> original[k] in f
    ensures path == Along(f, original)
    ensures forall k :: 0 <= k < |path| ==> path[k] !in heap0
    decreases |path|
  {
    hide Refs, CellRefs, Renamed, RenamedCell;
    if |path| == 1 {
      RefsRenamed(f, v);
      var a :| a in Refs(v) && f[a] == path[0];
      original := [a];
    } else {
      var last := |path| - 1;
      var init := PathOriginal(heap0, v, heap1, c, f, path[..last]);
      var b := init[last - 1];
      assert path[last - 1] == path[..last][last - 1] == f[b];
      CellRefsRenamed(f, heap0[b]);
      assert path[last] in CellRefs(heap1[path[last - 1]]);
      var a :| a in CellRefs(heap0[b]) && f[a] == path[last];
      original := init + [a];
      assert Along(f, original) == path[..last] + [path[last]];
    }
  }
}

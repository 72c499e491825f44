/**
 Compressed tries as values: each node by the text that leads to it.

 Module RedactedTexts keeps such a value beside its linked nodes. What a leaf or a split changes, and
 how the way to a form goes on from a node, is proved here.
 */
module Tries {
  import opened Basics
  import opened ByteSets

  type Text = seq<Byte>

  /** A node: the edges to its children, what replaces the form that ends at it, if one does, and the
      text that leads to its parent. */
  datatype Node = Node(edges: seq<Text>, value: Option<Text>, up: Text)

  type Trie = map<Text, Node>

  /** The edges are in the order of their first bytes, which differ. */
  predicate Sorted(edges: seq<Text>) {
    && (forall i :: 0 <= i < |edges| ==> edges[i] != [])
    && (forall i, j :: 0 <= i < j < |edges| ==> edges[i][0] < edges[j][0])
  }

  /** Each edge leads to a node below q. */
  predicate Below(t: Trie, q: Text)
    requires q in t
  {
    forall i {:trigger t[q].edges[i]} :: 0 <= i < |t[q].edges| ==> q + t[q].edges[i] in t && t[q + t[q].edges[i]].up == q
  }

  /** An edge of the node above leads to q. */
  predicate Above(t: Trie, q: Text)
    requires q in t
  {
    q != [] ==> t[q].up in t && t[q].up < q && q[|t[q].up|..] in t[t[q].up].edges
  }

  /** A compressed trie with a root. */
  ghost predicate Tree(t: Trie) {
    && [] in t && t[[]].value.None?
    && forall q {:trigger NodeOk(t, q)} :: q in t ==> NodeOk(t, q)
  }

  predicate NodeOk(t: Trie, q: Text)
    requires q in t
  {
    Sorted(t[q].edges) && Below(t, q) && Above(t, q)
  }

  /** The map the trie denotes. */
  function Forms(t: Trie): map<Text, Text> {
    map q | q in t && t[q].value.Some? :: t[q].value.value
  }

  /** From a node on the way to another, one of its edges is on the way too. */
  lemma {:induction false} Descend(t: Trie, a: Text, q: Text) returns (i: nat)
    requires Tree(t) && a in t && q in t && a < q
    ensures i < |t[a].edges| && a + t[a].edges[i] <= q
    decreases |q|
  {
    assert NodeOk(t, a) && NodeOk(t, q);
    var r := t[q].up;
    assert NodeOk(t, r);
    var j: nat :| j < |t[r].edges| && t[r].edges[j] == q[|r|..];
    assert q == r + t[r].edges[j];
    if |r| == |a| {
      assert r == a;
      i := j;
    } else if |a| < |r| {
      assert a < r;
      i := Descend(t, a, r);
    } else {
      assert r < a;
      i := Descend(t, r, a);
      assert false;
    }
  }

  /** The trie with a leaf below node a, at position i among its edges. */
  function WithLeaf(t: Trie, a: Text, i: nat, rest: Text, value: Text): Trie
    requires a in t && i <= |t[a].edges|
  {
    t[a := t[a].(edges := t[a].edges[..i] + [rest] + t[a].edges[i..])][a + rest := Node([], Some(value), a)]
  }

  /** Where an edge that starts with b is, or would be. */
  predicate Position(edges: seq<Text>, i: nat, b: Byte) {
    && Sorted(edges) && i <= |edges|
    && (forall k :: 0 <= k < i ==> edges[k][0] < b)
    && (forall k :: i <= k < |edges| ==> b <= edges[k][0])
  }

  /** No node is where a new one would go. */
  lemma Vacant(t: Trie, a: Text, i: nat, rest: Text, n: nat)
    requires Tree(t) && a in t && 0 < n <= |rest| && Position(t[a].edges, i, rest[0])
    requires i < |t[a].edges| && t[a].edges[i][0] == rest[0] ==> n < |t[a].edges[i]| && t[a].edges[i][..n] == rest[..n]
    ensures a + rest[..n] !in t
  {
    var q := a + rest[..n];
    assert NodeOk(t, a) && q[|a|] == rest[0];
    if q in t {
      var j := Descend(t, a, q);
      assert false;
    }
  }

  /** A node that u keeps as it is in t, whose parent has lost no edge to it and whose children stay. */
  lemma NodeKept(t: Trie, u: Trie, q: Text)
    requires q in t && q in u && u[q] == t[q] && NodeOk(t, q)
    requires forall k :: 0 <= k < |t[q].edges| && q + t[q].edges[k] in t ==>
      q + t[q].edges[k] in u && u[q + t[q].edges[k]].up == t[q + t[q].edges[k]].up
    requires q != [] && t[q].up in t ==> t[q].up in u && (q[|t[q].up|..] in t[t[q].up].edges ==> q[|t[q].up|..] in u[t[q].up].edges)
    ensures NodeOk(u, q)
  {
    hide Sorted;
  }

  lemma LeafTree(t: Trie, a: Text, i: nat, rest: Text, value: Text)
    requires Tree(t) && a in t && rest != [] && Position(t[a].edges, i, rest[0])
    requires i < |t[a].edges| ==> t[a].edges[i][0] != rest[0]
    ensures a + rest !in t
    ensures Tree(WithLeaf(t, a, i, rest, value))
    ensures Forms(WithLeaf(t, a, i, rest, value)) == Forms(t)[a + rest := value]
  {
    Vacant(t, a, i, rest, |rest|);
    assert rest[..|rest|] == rest;
    var u := WithLeaf(t, a, i, rest, value);
    InsertSorted(t[a].edges, i, rest);
    forall q {:trigger NodeOk(u, q)} | q in u ensures NodeOk(u, q) {
      hide NodeOk, Position, Sorted;
      if q == a {
        LeafParent(t, a, i, rest, value);
      } else if q == a + rest {
        LeafItself(t, a, i, rest, value);
      } else {
        assert NodeOk(t, q);
        NodeKept(t, u, q);
      }
    }
  }

  lemma LeafParent(t: Trie, a: Text, i: nat, rest: Text, value: Text)
    requires Tree(t) && a in t && rest != [] && a + rest !in t && i <= |t[a].edges|
    requires Sorted(t[a].edges[..i] + [rest] + t[a].edges[i..])
    ensures NodeOk(WithLeaf(t, a, i, rest, value), a)
  {
    hide Sorted;
    assert NodeOk(t, a);
    var u := WithLeaf(t, a, i, rest, value);
    var was, now := t[a].edges, u[a].edges;
    forall k {:trigger now[k]} | 0 <= k < |now| ensures a + now[k] in u && u[a + now[k]].up == a {
      if k != i {
        var j := if k < i then k else k - 1;
        assert now[k] == was[j];
        assert t[a + was[j]].up == a;
      }
    }
  }

  lemma LeafItself(t: Trie, a: Text, i: nat, rest: Text, value: Text)
    requires Tree(t) && a in t && rest != [] && i <= |t[a].edges|
    ensures NodeOk(WithLeaf(t, a, i, rest, value), a + rest)
  {
    assert a < a + rest && (a + rest)[|a|..] == rest;
  }

  lemma InsertSorted(edges: seq<Text>, i: nat, edge: Text)
    requires edge != [] && Position(edges, i, edge[0]) && (i < |edges| ==> edges[i][0] != edge[0])
    ensures Sorted(edges[..i] + [edge] + edges[i..])
    ensures forall e :: e in edges[..i] + [edge] + edges[i..] <==> e in edges || e == edge
  {
    var now := edges[..i] + [edge] + edges[i..];
    assert edges == edges[..i] + edges[i..];
    assert forall k :: 0 <= k < |now| ==> now[k] == if k < i then edges[k] else if k == i then edge else edges[k - 1];
  }

  /** The trie with a node after the first n bytes of the i-th edge of node a. */
  function WithSplit(t: Trie, a: Text, i: nat, n: nat): Trie
    requires a in t && i < |t[a].edges| && n <= |t[a].edges[i]| && a + t[a].edges[i] in t
  {
    var edge := t[a].edges[i];
    var mid, end := a + edge[..n], a + edge;
    t[a := t[a].(edges := t[a].edges[i := edge[..n]])][end := t[end].(up := mid)][mid := Node([edge[n..]], None, a)]
  }

  lemma SplitTree(t: Trie, a: Text, i: nat, n: nat)
    requires Tree(t) && a in t && i < |t[a].edges| && 0 < n < |t[a].edges[i]| && a + t[a].edges[i] in t
    ensures a + t[a].edges[i][..n] !in t
    ensures Tree(WithSplit(t, a, i, n))
    ensures Forms(WithSplit(t, a, i, n)) == Forms(t)
  {
    assert NodeOk(t, a);
    var edge := t[a].edges[i];
    var mid, end := a + edge[..n], a + edge;
    Vacant(t, a, i, edge, n);
    var u := WithSplit(t, a, i, n);
    forall q {:trigger NodeOk(u, q)} | q in u ensures NodeOk(u, q) {
      hide NodeOk, Position, Sorted;
      if q == a || q == mid || q == end {
        SplitEnds(t, a, i, n, q);
      } else {
        assert NodeOk(t, q);
        if q != [] && t[q].up == a {
          SplitEdges(t, a, i, n, q);
        }
        NodeKept(t, u, q);
      }
    }
  }

  /** The nodes a split changes. */
  lemma SplitEnds(t: Trie, a: Text, i: nat, n: nat, q: Text)
    requires Tree(t) && a in t && i < |t[a].edges| && 0 < n < |t[a].edges[i]| && a + t[a].edges[i] in t
    requires q in [a, a + t[a].edges[i][..n], a + t[a].edges[i]] && a + t[a].edges[i][..n] !in t
    ensures NodeOk(WithSplit(t, a, i, n), q)
  {
    var edge := t[a].edges[i];
    var mid, end := a + edge[..n], a + edge;
    assert NodeOk(t, a) && NodeOk(t, end);
    assert end == mid + edge[n..] && end[|mid|..] == edge[n..] && mid[|a|..] == edge[..n];
    var u := WithSplit(t, a, i, n);
    if q == a {
      forall k {:trigger u[a].edges[k]} | 0 <= k < |u[a].edges| ensures a + u[a].edges[k] in u && u[a + u[a].edges[k]].up == a {
        if k != i {
          assert u[a].edges[k] == t[a].edges[k] && t[a].edges[k][0] != edge[0];
          assert t[a + t[a].edges[k]].up == a;
          assert (a + t[a].edges[k])[|a|] != end[|a|];
        }
      }
    } else if q == mid {
      assert u[q].edges == [edge[n..]] && u[a].edges[i] == edge[..n] && a < mid;
    } else {
      forall k {:trigger u[q].edges[k]} | 0 <= k < |u[q].edges| ensures q + u[q].edges[k] in u && u[q + u[q].edges[k]].up == q {
        assert u[q].edges[k] == t[q].edges[k];
        assert t[q + t[q].edges[k]].up == q;
        assert |q + t[q].edges[k]| > |q|;
      }
    }
  }

  /** The other children of a split edge's node keep theirs. */
  lemma SplitEdges(t: Trie, a: Text, i: nat, n: nat, q: Text)
    requires a in t && i < |t[a].edges| && n <= |t[a].edges[i]| && a + t[a].edges[i] in t
    requires q in t && NodeOk(t, q) && q != [] && t[q].up == a && q != a + t[a].edges[i]
    ensures q[|a|..] in t[a].edges[i := t[a].edges[i][..n]]
  {
    var k: nat :| k < |t[a].edges| && t[a].edges[k] == q[|a|..];
    assert q == a + t[a].edges[k];
    assert t[a].edges[i := t[a].edges[i][..n]][k] == q[|a|..];
  }

  /** The trie with another value at node q. */
  function WithValue(t: Trie, q: Text, value: Text): Trie
    requires q in t
  {
    t[q := t[q].(value := Some(value))]
  }

  lemma ValueTree(t: Trie, q: Text, value: Text)
    requires Tree(t) && q in t && q != []
    ensures Tree(WithValue(t, q, value)) && Forms(WithValue(t, q, value)) == Forms(t)[q := value]
  {
    var u := WithValue(t, q, value);
    forall k {:trigger NodeOk(u, k)} | k in u ensures NodeOk(u, k) {
      assert NodeOk(t, k);
    }
  }

  /** The trie with a root and nothing else. */
  const ROOT: Trie := map[[] := Node([], None, [])]

  lemma RootTree()
    ensures Tree(ROOT) && Forms(ROOT) == map[]
  {
  }
}

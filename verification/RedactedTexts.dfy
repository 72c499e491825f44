/**
 The index of the text a redactor hides, and scrubbing with it.

 Nodes split and gain children in place. The ghost fields give the trie as a value and each node by
 the text that leads to it, so what module Tries proves of values holds of the linked nodes.
 */
module RedactedTexts {
  import opened Basics
  import opened ByteSets
  import opened Tries
  import opened Scrubbing

  /** A node of the trie: edge is its label, the text on the edge into it. */
  class FormNode {
    var edge: Text
    var children: seq<FormNode>
    var replacement: Text
    var terminal: bool
    ghost const path: Text

    constructor (edge: Text, children: seq<FormNode>, replacement: Text, terminal: bool, ghost path: Text)
      ensures this.edge == edge && this.children == children && this.replacement == replacement && this.terminal == terminal
      ensures this.path == path
    {
      this.edge, this.children, this.replacement, this.terminal, this.path := edge, children, replacement, terminal, path;
    }

    /** child: the binary search for the child whose edge starts with b, or for where one would be. */
    method Child(b: Byte, ghost edges: seq<Text>) returns (i: nat, found: bool)
      requires Sorted(edges) && |children| == |edges|
      requires forall k :: 0 <= k < |edges| ==> children[k].edge == edges[k]
      ensures Position(edges, i, b)
      ensures found <==> i < |edges| && edges[i][0] == b
    {
      i := 0;
      var j := |children|;
      while i < j
        invariant i <= j <= |children|
        invariant forall k :: 0 <= k < i ==> edges[k][0] < b
        invariant forall k :: j <= k < |children| ==> b <= edges[k][0]
      {
        var h := (i + j) / 2;
        if children[h].edge[0] < b {
          i := h + 1;
        } else {
          j := h;
        }
      }
      found := i < |children| && children[i].edge[0] == b;
    }
  }

  /** The length of the longest prefix a and b share. */
  method CommonPrefixLength(a: Text, b: Text) returns (n: nat)
    ensures n <= |a| && n <= |b| && a[..n] == b[..n]
    ensures n < |a| && n < |b| ==> a[n] != b[n]
  {
    var most := if |a| <= |b| then |a| else |b|;
    for i := 0 to most
      invariant a[..i] == b[..i]
    {
      if a[i] != b[i] {
        return i;
      }
    }
    return most;
  }

  /** What rememberForms adds of forms. */
  function Learned(forms: seq<Text>, replacement: Text, kept: set<Text>): map<Text, Text> {
    map form | form in forms && form != [] && form != replacement && form !in kept :: replacement
  }

  lemma LearnsNone(replacement: Text, kept: set<Text>)
    ensures Learned([], replacement, kept) == map[]
  {
  }

  lemma LearnsOne(forms: seq<Text>, j: nat, replacement: Text, kept: set<Text>)
    requires j < |forms|
    ensures Learned(forms[..j + 1], replacement, kept) ==
      if forms[j] != [] && forms[j] != replacement && forms[j] !in kept then Learned(forms[..j], replacement, kept)[forms[j] := replacement]
      else Learned(forms[..j], replacement, kept)
  {
    assert forms[..j + 1] == forms[..j] + [forms[j]];
  }

  /** Some form starts with b. */
  ghost predicate Starts(forms: map<Text, Text>, b: Byte) {
    exists form :: form in forms && form != [] && form[0] == b
  }

  class RedactedText {
    var root: FormNode?
    var first: Bits
    ghost var trie: Trie
    ghost var at: map<Text, FormNode>
    ghost var nodes: set<FormNode>

    /** The linked node at q is what the trie says. */
    ghost predicate NodeIs(q: Text)
      requires q in trie
      reads this, nodes
    {
      && q in at && at[q] in nodes
      && var n, v := at[q], trie[q];
      && n.path == q && v.up + n.edge == q
      && |n.children| == |v.edges|
      && (forall i :: 0 <= i < |v.edges| ==> q + v.edges[i] in at && n.children[i] == at[q + v.edges[i]])
      && (n.terminal <==> v.value.Some?)
      && (n.terminal ==> n.replacement == v.value.value)
    }

    /** The linked nodes are the trie's. */
    ghost predicate Linked()
      reads this, nodes
    {
      && Tree(trie) && at.Keys == trie.Keys
      && root == at[[]]
      && forall q {:trigger NodeIs(q)} :: q in trie ==> NodeIs(q)
    }

    ghost predicate Valid()
      reads this, nodes
    {
      && (if root == null then trie == map[] else Linked())
      && forall b :: Has(first, b) <==> Starts(Forms(), b)
    }

    /** The map the trie denotes: each form and what replaces it. */
    ghost function Forms(): map<Text, Text>
      reads this
    {
      Tries.Forms(trie)
    }

    constructor ()
      ensures Valid() && Forms() == map[] && nodes == {}
    {
      root, first, trie, at, nodes := null, EMPTY, map[], map[], {};
      new;
      forall b ensures !Has(first, b) {
        EmptyHasNone(b);
      }
    }

    /** The children of a node have its edges. */
    lemma ChildEdges(q: Text)
      requires Linked() && q in trie
      ensures NodeIs(q) && Sorted(trie[q].edges)
      ensures forall k :: 0 <= k < |trie[q].edges| ==> at[q].children[k].edge == trie[q].edges[k]
    {
      assert NodeIs(q) && NodeOk(trie, q);
      forall k | 0 <= k < |trie[q].edges| ensures at[q].children[k].edge == trie[q].edges[k] {
        var c := q + trie[q].edges[k];
        assert trie[c].up == q && NodeIs(c);
        assert c[|q|..] == at[c].edge == trie[q].edges[k];
      }
    }

    /** add, where no child of node starts as rest does: a new leaf. */
    method AddLeaf(node: FormNode, i: nat, rest: Text, replacement: Text)
      requires Linked() && node.path in trie && at[node.path] == node && rest != []
      requires Position(trie[node.path].edges, i, rest[0])
      requires i < |trie[node.path].edges| ==> trie[node.path].edges[i][0] != rest[0]
      modifies this`trie, this`at, this`nodes, node`children
      ensures Linked() && fresh(nodes - old(nodes)) && old(nodes) <= nodes
      ensures Forms() == old(Forms())[node.path + rest := replacement]
    {
      assert i <= |trie[node.path].edges|;
      hide Tree, Position, Sorted, NodeOk, Tries.Forms;
      ghost var a := node.path;
      assert NodeIs(a);
      LeafTree(trie, a, i, rest, replacement);
      var leaf := new FormNode(rest, [], replacement, true, a + rest);
      node.children := node.children[..i] + [leaf] + node.children[i..];
      trie := WithLeaf(trie, a, i, rest, replacement);
      at := at[a + rest := leaf];
      nodes := nodes + {leaf};
      forall q {:trigger NodeIs(q)} | q in trie ensures NodeIs(q) {
        if q != a + rest {
          assert old(NodeIs(q));
        }
      }
    }

    /** The edge into the i-th child of the node at a may be split after n bytes. */
    lemma Splits(a: Text, i: nat, n: nat)
      requires Linked() && a in trie && i < |at[a].children| && 0 < n < |at[a].children[i].edge|
      ensures NodeIs(a) && i < |trie[a].edges| && trie[a].edges[i] == at[a].children[i].edge
      ensures var edge := trie[a].edges[i];
        && a + edge in trie && NodeIs(a + edge) && at[a + edge] == at[a].children[i]
        && a + edge == a + edge[..n] + edge[n..] && a + edge[..n] !in trie
        && Tree(WithSplit(trie, a, i, n)) && Tries.Forms(WithSplit(trie, a, i, n)) == Tries.Forms(trie)
    {
      assert NodeIs(a) && NodeOk(trie, a);
      ChildEdges(a);
      hide Tree;
      assert Tree(trie);
      var edge := trie[a].edges[i];
      assert edge == edge[..n] + edge[n..];
      assert NodeIs(a + edge);
      SplitTree(trie, a, i, n);
    }

    /** add, where rest leaves the edge into node's i-th child after its first common bytes: a new node
        there, between node and the child. */
    method Split(node: FormNode, i: nat, child: FormNode, common: nat) returns (split: FormNode)
      requires Linked() && node.path in trie && at[node.path] == node
      requires i < |node.children| && child == node.children[i] && 0 < common < |child.edge|
      modifies this`trie, this`at, this`nodes, node`children, child`edge
      ensures Linked() && fresh(nodes - old(nodes)) && old(nodes) <= nodes
      ensures split.path == node.path + old(child.edge)[..common] && split.path in trie && at[split.path] == split
      ensures Forms() == old(Forms())
    {
      hide Tree, Sorted, NodeOk, Tries.Forms;
      ghost var a, edge := node.path, child.edge;
      Splits(a, i, common);
      ghost var mid, end := a + edge[..common], a + edge;
      split := new FormNode(child.edge[..common], [child], [], false, mid);
      child.edge := child.edge[common..];
      node.children := node.children[i := split];
      trie := WithSplit(trie, a, i, common);
      at := at[mid := split];
      nodes := nodes + {split};
      forall q {:trigger NodeIs(q)} | q in trie ensures NodeIs(q) {
        if q == mid {
          assert trie[mid].edges == [edge[common..]];
        } else {
          assert old(NodeIs(q));
          if q != a {
            assert trie[q].edges == old(trie)[q].edges;
          }
        }
      }
    }

    /** Sets what replaces the form that ends at node. */
    method Set(node: FormNode, replacement: Text)
      requires Linked() && node.path in trie && at[node.path] == node && node.path != []
      modifies this`trie, node`replacement, node`terminal
      ensures Linked() && Forms() == old(Forms())[node.path := replacement]
    {
      assert NodeIs(node.path);
      ValueTree(trie, node.path, replacement);
      node.replacement, node.terminal := replacement, true;
      trie := WithValue(trie, node.path, replacement);
      forall q {:trigger NodeIs(q)} | q in trie ensures NodeIs(q) {
        assert old(NodeIs(q));
      }
    }

    /** Makes the root before the first form. */
    method EnsureRoot()
      requires Valid()
      modifies this`root, this`trie, this`at, this`nodes
      ensures Linked() && root != null && Forms() == old(Forms())
      ensures fresh(nodes - old(nodes)) && old(nodes) <= nodes
    {
      if root == null {
        RootTree();
        root := new FormNode([], [], [], false, []);
        trie, at, nodes := ROOT, map[[] := root], nodes + {root};
      }
    }

    /** One turn of the loop of add: adds the rest of the form below node, or goes on to the child on
        the way to it, which it may have to make. */
    method Advance(node: FormNode, rest: Text, replacement: Text) returns (next: FormNode?, n: nat)
      requires Linked() && node.path in trie && at[node.path] == node && rest != []
      modifies this`trie, this`at, this`nodes, nodes
      ensures Linked() && fresh(nodes - old(nodes)) && old(nodes) <= nodes
      ensures next == null ==> Forms() == old(Forms())[node.path + rest := replacement]
      ensures next != null ==>
        && Forms() == old(Forms()) && 0 < n <= |rest|
        && next.path == node.path + rest[..n] && next.path in trie && at[next.path] == next
    {
      ChildEdges(node.path);
      var i, found := node.Child(rest[0], trie[node.path].edges);
      if !found {
        AddLeaf(node, i, rest, replacement);
        return null, 0;
      }
      var child := node.children[i];
      assert NodeIs(node.path + child.edge);
      n := CommonPrefixLength(child.edge, rest);
      assert n > 0;
      if n < |child.edge| {
        next := Split(node, i, child, n);
      } else {
        assert child.edge[..n] == child.edge;
        next := child;
      }
    }

    /** The loop of add, from the root to the node the form ends at. */
    method Insert(form: Text, replacement: Text)
      requires Linked() && root != null && form != []
      modifies this`trie, this`at, this`nodes, nodes
      ensures Linked() && fresh(nodes - old(nodes)) && old(nodes) <= nodes
      ensures Forms() == old(Forms())[form := replacement]
    {
      assert NodeIs([]);
      hide NodeIs, Tree, Tries.Forms;
      var node: FormNode, rest := root, form;
      while rest != []
        invariant Linked() && fresh(nodes - old(nodes)) && old(nodes) <= nodes
        invariant Forms() == old(Forms())
        invariant node.path in trie && at[node.path] == node && node.path + rest == form
        decreases |rest|
      {
        var next, n := Advance(node, rest, replacement);
        if next == null {
          return;
        }
        assert rest[..n] + rest[n..] == rest;
        node, rest := next, rest[n..];
      }
      assert node.path == form;
      NodeKnown(form);
      Set(node, replacement);
    }

    lemma NodeKnown(q: Text)
      requires Linked() && q in trie
      ensures q in at && at[q] in nodes
    {
      assert NodeIs(q);
    }

    /** add: form is replaced by replacement, in place of what replaced it before, and nothing else
        changes. */
    method Add(form: Text, replacement: Text)
      requires Valid() && form != []
      modifies this, nodes
      ensures Valid() && fresh(nodes - old(nodes)) && old(nodes) <= nodes
      ensures Forms() == old(Forms())[form := replacement]
    {
      ghost var bits, forms := first, Forms();
      EnsureRoot();
      label rooted:
      first := With(first, form[0]);
      forall q {:trigger NodeIs(q)} | q in trie ensures NodeIs(q) {
        assert old@rooted(NodeIs(q));
      }
      Insert(form, replacement);
      FirstMeans(bits, forms, form, replacement);
    }

    /** rememberForms: adds each form that is not empty, not the replacement itself and not kept. */
    method Remember(forms: seq<Text>, replacement: Text, kept: set<Text>)
      requires Valid()
      modifies this, nodes
      ensures Valid() && fresh(nodes - old(nodes)) && old(nodes) <= nodes
      ensures Forms() == old(Forms()) + Learned(forms, replacement, kept)
    {
      hide Learned, Valid, Tries.Forms;
      LearnsNone(replacement, kept);
      for j := 0 to |forms|
        invariant Valid() && fresh(nodes - old(nodes)) && old(nodes) <= nodes
        invariant Forms() == old(Forms()) + Learned(forms[..j], replacement, kept)
      {
        LearnsOne(forms, j, replacement, kept);
        if forms[j] != [] && forms[j] != replacement && forms[j] !in kept {
          Add(forms[j], replacement);
        }
      }
      assert forms[..|forms|] == forms;
    }

    /** match: the longest form text starts with and what replaces it, or that there is none. The
        length is 0 then. */
    method Match(text: Text) returns (replacement: Text, length: nat, ok: bool)
      requires Valid() && root != null
      ensures length == Longest(Forms(), text) && (ok <==> length > 0)
      ensures ok ==> replacement == Forms()[text[..length]]
    {
      var node: FormNode, pos := root, 0;
      replacement, length, ok := [], 0, false;
      assert NodeIs([]);
      while pos < |text|
        invariant pos <= |text| && text[..pos] in trie && at[text[..pos]] == node
        invariant length <= pos && (ok <==> length > 0)
        invariant ok ==> text[..length] in Forms() && replacement == Forms()[text[..length]]
        invariant forall m :: length < m <= pos ==> text[..m] !in Forms()
        decreases |text| - pos
      {
        ghost var a := text[..pos];
        ChildEdges(a);
        var i, found := node.Child(text[pos], trie[a].edges);
        if !found {
          NoneBeyond(trie, text, pos, i);
          LongestIs(Forms(), text, length);
          return;
        }
        var child := node.children[i];
        if !(child.edge <= text[pos..]) {
          NoneBeyond(trie, text, pos, i);
          LongestIs(Forms(), text, length);
          return;
        }
        assert a + child.edge == text[..pos + |child.edge|];
        assert NodeIs(a + child.edge);
        NoneBetween(trie, text, pos, i);
        node, pos := child, pos + |child.edge|;
        if node.terminal {
          replacement, length, ok := node.replacement, pos, true;
        }
      }
      LongestIs(Forms(), text, length);
    }

    /** scrub: text with every form replaced, from left to right, the longest at a position first. The
        bit set and the early return only save work. */
    method Scrub(text: Text) returns (scrubbed: Text)
      requires Valid()
      ensures scrubbed == Scrubbed(Forms(), text)
    {
      if root == null {
        Unchanged(Forms(), text);
        return text;
      }
      ghost var forms := Forms();
      hide Scrubbed, Longest, Tries.Forms, Linked, Covers;
      var out: Text, last: nat, i: nat := [], 0, 0;
      CoversNone(forms, text);
      while i < |text|
        invariant last <= i <= |text|
        invariant Covers(forms, text, out, last, i)
        invariant last == 0 ==> out == []
        decreases |text| - i
      {
        if !Has(first, text[i]) {
          NoFormStarts(forms, text[i..]);
          SkipsByte(forms, text, out, last, i);
          i := i + 1;
          continue;
        }
        var replacement, length, ok := Match(text[i..]);
        if !ok {
          SkipsByte(forms, text, out, last, i);
          i := i + 1;
          continue;
        }
        TakesForm(forms, text, out, last, i);
        out := out + text[last..i] + replacement;
        i := i + length;
        last := i;
      }
      CoversAll(forms, text, out, last);
      if last == 0 {
        return text;
      }
      return out + text[last..];
    }
  }

  /** Where no edge goes on as text does, no longer form does. */
  lemma NoneBeyond(t: Trie, text: Text, pos: nat, i: nat)
    requires Tree(t) && pos < |text| && text[..pos] in t && Position(t[text[..pos]].edges, i, text[pos])
    requires i < |t[text[..pos]].edges| && t[text[..pos]].edges[i][0] == text[pos] ==> !(t[text[..pos]].edges[i] <= text[pos..])
    ensures forall m :: pos < m <= |text| ==> text[..m] !in t
  {
    var a := text[..pos];
    forall m | pos < m <= |text| ensures text[..m] !in t {
      NothingAt(t, text, pos, i, m);
    }
  }

  lemma NothingAt(t: Trie, text: Text, pos: nat, i: nat, m: nat)
    requires Tree(t) && pos < m <= |text| && text[..pos] in t && Position(t[text[..pos]].edges, i, text[pos])
    requires i < |t[text[..pos]].edges| && t[text[..pos]].edges[i][0] == text[pos] ==>
      !(t[text[..pos]].edges[i] <= text[pos..]) || |t[text[..pos]].edges[i]| > m - pos
    ensures text[..m] !in t
  {
    var a := text[..pos];
    assert NodeOk(t, a) && text[..m][|a|] == text[pos] && text[..m] == a + text[pos..m] && text[pos..][..m - pos] == text[pos..m];
    assert a < text[..m];
    if text[..m] in t {
      var j := Descend(t, a, text[..m]);
      assert false;
    }
  }

  /** No form ends inside an edge. */
  lemma NoneBetween(t: Trie, text: Text, pos: nat, i: nat)
    requires Tree(t) && pos < |text| && text[..pos] in t && Position(t[text[..pos]].edges, i, text[pos])
    requires i < |t[text[..pos]].edges| && t[text[..pos]].edges[i][0] == text[pos] && t[text[..pos]].edges[i] <= text[pos..]
    ensures forall m :: pos < m < pos + |t[text[..pos]].edges[i]| ==> text[..m] !in t
  {
    forall m | pos < m < pos + |t[text[..pos]].edges[i]| ensures text[..m] !in t {
      NothingAt(t, text, pos, i, m);
    }
  }

  /** What scrub has written once it is at i: out, and then text from last on as it is. */
  predicate Covers(forms: map<Text, Text>, text: Text, out: Text, last: nat, i: nat)
    requires last <= i <= |text|
  {
    Scrubbed(forms, text) == out + text[last..i] + Scrubbed(forms, text[i..])
  }

  lemma CoversNone(forms: map<Text, Text>, text: Text)
    ensures Covers(forms, text, [], 0, 0)
  {
    assert text[0..] == text;
    hide Scrubbed;
  }

  lemma SkipsByte(forms: map<Text, Text>, text: Text, out: Text, last: nat, i: nat)
    requires last <= i < |text| && Covers(forms, text, out, last, i) && Longest(forms, text[i..]) == 0
    ensures Covers(forms, text, out, last, i + 1)
  {
    var rest := Scrubbed(forms, text[i + 1..]);
    assert Scrubbed(forms, text[i..]) == [text[i]] + rest by {
      assert text[i..][1..] == text[i + 1..];
    }
    hide Scrubbed, Longest;
    assert text[last..i + 1] == text[last..i] + [text[i]];
    assert out + text[last..i] + ([text[i]] + rest) == out + (text[last..i] + [text[i]]) + rest;
  }

  lemma TakesForm(forms: map<Text, Text>, text: Text, out: Text, last: nat, i: nat)
    requires last <= i < |text| && Covers(forms, text, out, last, i) && Longest(forms, text[i..]) > 0
    ensures var k := Longest(forms, text[i..]);
      Covers(forms, text, out + text[last..i] + forms[text[i..][..k]], i + k, i + k)
  {
    var k := Longest(forms, text[i..]);
    var rest := Scrubbed(forms, text[i + k..]);
    var replacement := forms[text[i..][..k]];
    assert Scrubbed(forms, text[i..]) == replacement + rest by {
      assert text[i..][k..] == text[i + k..];
    }
    hide Scrubbed, Longest;
    assert out + text[last..i] + (replacement + rest) == out + text[last..i] + replacement + text[i + k..i + k] + rest;
  }

  lemma CoversAll(forms: map<Text, Text>, text: Text, out: Text, last: nat)
    requires last <= |text| && Covers(forms, text, out, last, |text|)
    ensures Scrubbed(forms, text) == out + text[last..]
    ensures last == 0 && out == [] ==> Scrubbed(forms, text) == text
  {
    assert text[last..|text|] == text[last..];
    assert Scrubbed(forms, text[|text|..]) == [];
  }

  lemma {:induction false} Unchanged(forms: map<Text, Text>, text: Text)
    requires forms == map[]
    ensures Scrubbed(forms, text) == text
    decreases |text|
  {
    if text != [] {
      Unchanged(forms, text[1..]);
    }
  }

  lemma NoFormStarts(forms: map<Text, Text>, text: Text)
    requires text != [] && !Starts(forms, text[0])
    ensures Longest(forms, text) == 0
  {
    forall m | 0 < m <= |text| ensures text[..m] !in forms {
      assert text[..m][0] == text[0];
    }
    LongestIs(forms, text, 0);
  }

  /** The bit set after a form is added. */
  lemma FirstMeans(bits: Bits, forms: map<Text, Text>, form: Text, replacement: Text)
    requires form != [] && forall b :: Has(bits, b) <==> Starts(forms, b)
    ensures forall b :: Has(With(bits, form[0]), b) <==> Starts(forms[form := replacement], b)
  {
    forall b ensures Has(With(bits, form[0]), b) <==> Starts(forms[form := replacement], b) {
      WithMeans(bits, form[0], b);
      if Starts(forms, b) {
        var other :| other in forms && other != [] && other[0] == b;
        assert other in forms[form := replacement];
      }
    }
  }
}

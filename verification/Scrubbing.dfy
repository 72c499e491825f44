/** What scrubbing a text means, whatever index finds the forms. */
module Scrubbing {
  import opened Basics
  import opened ByteSets
  import opened Tries

  /** The length of the longest form of at most n bytes that text starts with, or 0. */
  function LongestUpTo(forms: map<Text, Text>, text: Text, n: nat): (k: nat)
    requires n <= |text|
    ensures k <= n && (k > 0 ==> text[..k] in forms)
    ensures forall m :: k < m <= n ==> text[..m] !in forms
  {
    if n == 0 || text[..n] in forms then n else LongestUpTo(forms, text, n - 1)
  }

  function Longest(forms: map<Text, Text>, text: Text): (k: nat)
    ensures k <= |text| && (k > 0 ==> text[..k] in forms)
    ensures forall m :: k < m <= |text| ==> text[..m] !in forms
  {
    LongestUpTo(forms, text, |text|)
  }

  /** text with every form replaced, from left to right, the longest that starts at a position first. */
  function Scrubbed(forms: map<Text, Text>, text: Text): Text
    decreases |text|
  {
    if text == [] then []
    else
      var k := Longest(forms, text);
      if k == 0 then [text[0]] + Scrubbed(forms, text[1..])
      else forms[text[..k]] + Scrubbed(forms, text[k..])
  }

  /** A length that is a form's, and that no longer form has, is the longest. */
  lemma LongestIs(forms: map<Text, Text>, text: Text, k: nat)
    requires k <= |text| && (k > 0 ==> text[..k] in forms)
    requires forall m :: k < m <= |text| ==> text[..m] !in forms
    ensures Longest(forms, text) == k
  {
  }

  // ---- strings.Replacer ----

  /** A replacement and what it replaces. */
  datatype Pair = Pair(form: Text, replacement: Text)

  /** The position of the first pair whose form text starts with. */
  function FirstMatch(pairs: seq<Pair>, text: Text): Option<nat> {
    if pairs == [] then None
    else if pairs[0].form <= text then Some(0)
    else match FirstMatch(pairs[1..], text) case None => None case Some(i) => Some(i + 1)
  }

  /** text as a strings.Replacer given pairs replaces it: at each position the first pair that matches. */
  function Replaced(pairs: seq<Pair>, text: Text): Text
    requires forall i :: 0 <= i < |pairs| ==> pairs[i].form != []
    decreases |text|
  {
    if text == [] then []
    else
      FirstMatchMeans(pairs, text);
      match FirstMatch(pairs, text)
      case None => [text[0]] + Replaced(pairs, text[1..])
      case Some(i) => pairs[i].replacement + Replaced(pairs, text[|pairs[i].form|..])
  }

  lemma {:induction false} FirstMatchMeans(pairs: seq<Pair>, text: Text)
    ensures match FirstMatch(pairs, text)
      case None => forall j :: 0 <= j < |pairs| ==> !(pairs[j].form <= text)
      case Some(i) => i < |pairs| && pairs[i].form <= text && forall j :: 0 <= j < i ==> !(pairs[j].form <= text)
  {
    if pairs != [] && !(pairs[0].form <= text) {
      FirstMatchMeans(pairs[1..], text);
      forall j | 0 < j < |pairs| ensures pairs[j] == pairs[1..][j - 1] {
      }
    }
  }

  /** pairs lists forms, the longest first. */
  ghost predicate LongestFirst(pairs: seq<Pair>, forms: map<Text, Text>) {
    && (forall i, j :: 0 <= i < j < |pairs| ==> |pairs[i].form| >= |pairs[j].form|)
    && (forall i :: 0 <= i < |pairs| ==> pairs[i].form in forms && forms[pairs[i].form] == pairs[i].replacement)
    && (forall form :: form in forms ==> exists i :: 0 <= i < |pairs| && pairs[i].form == form)
  }

  /** Scrubbing is what a strings.Replacer given the forms longest first does. */
  lemma {:induction false} ScrubbedIsReplaced(pairs: seq<Pair>, forms: map<Text, Text>, text: Text)
    requires LongestFirst(pairs, forms) && [] !in forms
    ensures forall i :: 0 <= i < |pairs| ==> pairs[i].form != []
    ensures Replaced(pairs, text) == Scrubbed(forms, text)
    decreases |text|
  {
    assert forall i :: 0 <= i < |pairs| ==> pairs[i].form != [];
    hide LongestFirst, Longest, FirstMatch;
    if text != [] {
      FirstMatchMeans(pairs, text);
      match FirstMatch(pairs, text)
      case None =>
        NoneLongest(pairs, forms, text);
        ScrubbedIsReplaced(pairs, forms, text[1..]);
      case Some(i) =>
        FirstIsLongest(pairs, forms, text, i);
        PairOf(pairs, forms, i);
        assert text[..|pairs[i].form|] == pairs[i].form;
        ScrubbedIsReplaced(pairs, forms, text[|pairs[i].form|..]);
    }
  }

  lemma PairOf(pairs: seq<Pair>, forms: map<Text, Text>, i: nat)
    requires LongestFirst(pairs, forms) && i < |pairs|
    ensures pairs[i].form in forms && forms[pairs[i].form] == pairs[i].replacement
  {
  }

  lemma NoneLongest(pairs: seq<Pair>, forms: map<Text, Text>, text: Text)
    requires LongestFirst(pairs, forms) && forall j :: 0 <= j < |pairs| ==> !(pairs[j].form <= text)
    ensures Longest(forms, text) == 0
  {
    forall m | 0 < m <= |text| ensures text[..m] !in forms {
      assert text[..m] <= text;
    }
  }

  lemma FirstIsLongest(pairs: seq<Pair>, forms: map<Text, Text>, text: Text, i: nat)
    requires LongestFirst(pairs, forms) && i < |pairs| && pairs[i].form <= text && pairs[i].form != []
    requires forall j :: 0 <= j < i ==> !(pairs[j].form <= text)
    ensures Longest(forms, text) == |pairs[i].form|
  {
    var k := |pairs[i].form|;
    assert text[..k] == pairs[i].form;
    forall m | k < m <= |text| ensures text[..m] !in forms {
      assert text[..m] <= text && |text[..m]| > |pairs[i].form|;
    }
    LongestIs(forms, text, k);
  }
}

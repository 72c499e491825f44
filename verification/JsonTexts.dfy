/**
 Rewriting the strings and numbers of a JSON text token by token.

 The decoder's tokens come flat: walkJSON keeps a stack to tell names from values, and the scrubber
 one to write separators. What they write is the compact text of the rewritten value, as sections 4
 and 5 of RFC 8259 lay objects and arrays out.
 */
module JsonTexts {

  /** A JSON value. Names may repeat, and their order counts. */
  datatype Json =
    | Null
    | Bool(b: bool)
    | Number(text: string)
    | Text(text: string)
    | Array(items: seq<Json>)
    | Object(members: seq<Member>)

  datatype Member = Member(name: string, value: Json)

  /** What json.Decoder.Token returns. Names and strings are the same to it. */
  datatype Token = Open(braces: bool) | Close(braces: bool) | Word(text: string) | Digits(text: string) | Flag(b: bool) | Nothing

  // ---- the tokens of a value ----

  function Tokens(v: Json): seq<Token> {
    match v
    case Null => [Nothing]
    case Bool(b) => [Flag(b)]
    case Number(text) => [Digits(text)]
    case Text(text) => [Word(text)]
    case Array(items) => [Open(false)] + ItemTokens(items) + [Close(false)]
    case Object(members) => [Open(true)] + MemberTokens(members) + [Close(true)]
  }

  function ItemTokens(items: seq<Json>): seq<Token> {
    if items == [] then [] else Tokens(items[0]) + ItemTokens(items[1..])
  }

  function MemberTokens(members: seq<Member>): seq<Token> {
    if members == [] then [] else [Word(members[0].name)] + Tokens(members[0].value) + MemberTokens(members[1..])
  }

  // ---- what rewriting means ----

  /** v with replace applied to its strings and numbers, a number it changes becoming a string. */
  function Rewritten(v: Json, replace: string -> string): Json {
    match v
    case Number(text) => if replace(text) == text then v else Text(replace(text))
    case Text(text) => Text(replace(text))
    case Array(items) => Array(RewrittenItems(items, replace))
    case Object(members) => Object(RewrittenMembers(members, replace))
    case _ => v
  }

  function RewrittenItems(items: seq<Json>, replace: string -> string): (all: seq<Json>)
    ensures |all| == |items|
  {
    if items == [] then [] else [Rewritten(items[0], replace)] + RewrittenItems(items[1..], replace)
  }

  function RewrittenMembers(members: seq<Member>, replace: string -> string): (all: seq<Member>)
    ensures |all| == |members| && forall i :: 0 <= i < |all| ==> all[i].name == members[i].name
  {
    if members == [] then []
    else [Member(members[0].name, Rewritten(members[0].value, replace))] + RewrittenMembers(members[1..], replace)
  }

  /** The strings and numbers of v, in order, and its names. */
  function Leaves(v: Json): seq<string> {
    match v
    case Number(text) => [text]
    case Text(text) => [text]
    case Array(items) => ItemLeaves(items)
    case Object(members) => MemberLeaves(members)
    case _ => []
  }

  function ItemLeaves(items: seq<Json>): seq<string> {
    if items == [] then [] else Leaves(items[0]) + ItemLeaves(items[1..])
  }

  function MemberLeaves(members: seq<Member>): seq<string> {
    if members == [] then [] else Leaves(members[0].value) + MemberLeaves(members[1..])
  }

  function Each(leaves: seq<string>, replace: string -> string): (all: seq<string>)
    ensures |all| == |leaves| && forall i :: 0 <= i < |all| ==> all[i] == replace(leaves[i])
  {
    seq(|leaves|, i requires 0 <= i < |leaves| => replace(leaves[i]))
  }

  /** Two values have the same shape: the same arrays, objects, names, flags and nulls, and a string or number where the
      other has one. */
  predicate Alike(v: Json, w: Json)
    decreases v
  {
    match v
    case Array(items) => w.Array? && |w.items| == |items| && forall i :: 0 <= i < |items| ==> Alike(items[i], w.items[i])
    case Object(members) =>
      w.Object? && |w.members| == |members|
      && forall i :: 0 <= i < |members| ==> w.members[i].name == members[i].name && Alike(members[i].value, w.members[i].value)
    case Number(_) => w.Number? || w.Text?
    case Text(_) => w.Text?
    case _ => w == v
  }

  /** Rewriting replaces every string and number, in place, and changes nothing else. */
  lemma {:induction false} RewritesLeaves(v: Json, replace: string -> string)
    ensures Leaves(Rewritten(v, replace)) == Each(Leaves(v), replace) && Alike(v, Rewritten(v, replace))
    decreases v, 1
  {
    match v
    case Array(items) => RewritesItems(items, replace);
    case Object(members) => RewritesMembers(members, replace);
    case _ =>
  }

  lemma {:induction false} RewritesItems(items: seq<Json>, replace: string -> string)
    ensures ItemLeaves(RewrittenItems(items, replace)) == Each(ItemLeaves(items), replace)
    ensures forall i :: 0 <= i < |items| ==> Alike(items[i], RewrittenItems(items, replace)[i])
    decreases items, 0
  {
    if items != [] {
      RewritesLeaves(items[0], replace);
      RewritesItems(items[1..], replace);
      var all := RewrittenItems(items, replace);
      assert all[0] == Rewritten(items[0], replace) && all[1..] == RewrittenItems(items[1..], replace);
      forall i | 0 <= i < |items| ensures Alike(items[i], all[i]) {
        if i > 0 {
          assert items[i] == items[1..][i - 1] && all[i] == all[1..][i - 1];
        }
      }
    }
  }

  lemma {:induction false} RewritesMembers(members: seq<Member>, replace: string -> string)
    ensures MemberLeaves(RewrittenMembers(members, replace)) == Each(MemberLeaves(members), replace)
    ensures forall i :: 0 <= i < |members| ==> Alike(members[i].value, RewrittenMembers(members, replace)[i].value)
    decreases members, 0
  {
    if members != [] {
      RewritesLeaves(members[0].value, replace);
      RewritesMembers(members[1..], replace);
      var all := RewrittenMembers(members, replace);
      assert all[0].value == Rewritten(members[0].value, replace) && all[1..] == RewrittenMembers(members[1..], replace);
      forall i | 0 <= i < |members| ensures Alike(members[i].value, all[i].value) {
        if i > 0 {
          assert members[i] == members[1..][i - 1] && all[i] == all[1..][i - 1];
        }
      }
    }
  }

  /** The text of v without white space. quote writes a string. */
  function Compact(v: Json, quote: string -> string): string {
    match v
    case Null => "null"
    case Bool(b) => if b then "true" else "false"
    case Number(text) => text
    case Text(text) => quote(text)
    case Array(items) => "[" + CompactItems(items, quote) + "]"
    case Object(members) => "{" + CompactMembers(members, quote) + "}"
  }

  /** Values separated by commas. */
  function CompactItems(items: seq<Json>, quote: string -> string): string {
    if items == [] then ""
    else Compact(items[0], quote) + if |items| == 1 then "" else "," + CompactItems(items[1..], quote)
  }

  /** Names and values joined by colons and separated by commas. */
  function CompactMembers(members: seq<Member>, quote: string -> string): string {
    if members == [] then ""
    else
      quote(members[0].name) + ":" + Compact(members[0].value, quote)
        + if |members| == 1 then "" else "," + CompactMembers(members[1..], quote)
  }

  // ---- the machine ----

  /** The stacks of walkJSON and of the scrubber, and what the scrubber has written. */
  datatype State = State(objects: seq<bool>, wantName: bool, out: string, empty: seq<bool>, afterName: bool, changed: bool)

  predicate InObject(s: State) {
    s.objects != [] && s.objects[|s.objects| - 1]
  }

  /** separate: what comes before the next name or value. */
  function Separator(s: State): string {
    if s.afterName then ":" else if s.empty != [] && !s.empty[|s.empty| - 1] then "," else ""
  }

  function Separated(s: State): State {
    s.(out := s.out + Separator(s), afterName := false,
       empty := if !s.afterName && s.empty != [] then s.empty[|s.empty| - 1 := false] else s.empty)
  }

  /** One token of walkJSON, with what the scrubber does. */
  function Step(s: State, token: Token, replace: string -> string, quote: string -> string): State {
    match token
    case Open(braces) =>
      var t := Separated(s);
      t.(objects := s.objects + [braces], empty := t.empty + [true], wantName := braces, out := t.out + if braces then "{" else "[")
    case Close(braces) =>
      var t := s.(objects := Popped(s.objects), empty := Popped(s.empty), out := s.out + if braces then "}" else "]");
      t.(wantName := InObject(t))
    case Word(text) =>
      var t := Separated(s);
      if s.wantName then t.(out := t.out + quote(text), afterName := true, wantName := false)
      else t.(out := t.out + quote(replace(text)), changed := s.changed || replace(text) != text, wantName := InObject(s))
    case Digits(text) =>
      var t := Separated(s);
      t.(out := t.out + if replace(text) == text then text else quote(replace(text)),
         changed := s.changed || replace(text) != text, wantName := InObject(s))
    case Flag(b) =>
      var t := Separated(s);
      t.(out := t.out + if b then "true" else "false", wantName := InObject(s))
    case Nothing =>
      var t := Separated(s);
      t.(out := t.out + "null", wantName := InObject(s))
  }

  function Popped(stack: seq<bool>): seq<bool> {
    if stack == [] then [] else stack[..|stack| - 1]
  }

  function Walk(s: State, tokens: seq<Token>, replace: string -> string, quote: string -> string): State
    decreases |tokens|
  {
    if tokens == [] then s else Walk(Step(s, tokens[0], replace, quote), tokens[1..], replace, quote)
  }

  lemma {:induction false} WalkConcat(s: State, a: seq<Token>, b: seq<Token>, replace: string -> string, quote: string -> string)
    ensures Walk(s, a + b, replace, quote) == Walk(Walk(s, a, replace, quote), b, replace, quote)
    decreases |a|
  {
    if a == [] {
      assert a + b == b;
    } else {
      assert (a + b)[0] == a[0] && (a + b)[1..] == a[1..] + b;
      WalkConcat(Step(s, a[0], replace, quote), a[1..], b, replace, quote);
    }
  }

  // ---- what the machine writes ----

  /** The machine is where a value comes next: after a name in an object, and not in one otherwise. */
  predicate AtValue(s: State) {
    |s.objects| == |s.empty| && !s.wantName && (s.afterName <==> InObject(s))
  }

  /** The machine once value v has come. */
  function After(s: State, v: Json, replace: string -> string, quote: string -> string): State {
    var t := Separated(s);
    t.(out := t.out + Compact(Rewritten(v, replace), quote), changed := s.changed || Rewritten(v, replace) != v, wantName := InObject(s))
  }

  /** A value's tokens write its rewritten compact text, however deep it nests. */
  lemma {:induction false} WalksValue(s: State, v: Json, replace: string -> string, quote: string -> string)
    requires AtValue(s)
    ensures Walk(s, Tokens(v), replace, quote) == After(s, v, replace, quote)
    decreases v, 1
  {
    match v
    case Array(items) => WalksArray(s, items, replace, quote);
    case Object(members) => WalksObject(s, members, replace, quote);
    case _ => assert Walk(s, Tokens(v), replace, quote) == Step(s, Tokens(v)[0], replace, quote);
  }

  lemma WalkOne(s: State, token: Token, replace: string -> string, quote: string -> string)
    ensures Walk(s, [token], replace, quote) == Step(s, token, replace, quote)
  {
  }

  lemma ArrayParts(items: seq<Json>)
    ensures Tokens(Array(items)) == [Open(false)] + ItemTokens(items) + [Close(false)]
  {
  }

  lemma ObjectParts(members: seq<Member>)
    ensures Tokens(Object(members)) == [Open(true)] + MemberTokens(members) + [Close(true)]
  {
  }

  /** What an array's brackets do around its items. */
  lemma ArrayOpens(s: State, items: seq<Json>, replace: string -> string, quote: string -> string)
    requires AtValue(s)
    ensures var inside := Step(s, Open(false), replace, quote);
      && AtValue(inside) && !InObject(inside) && inside.objects != []
      && Step(AfterItems(inside, items, replace, quote), Close(false), replace, quote) == After(s, Array(items), replace, quote)
  {
    hide Rewritten, RewrittenItems, Compact, CompactItems;
    RewrittenArray(items, replace, quote);
    var inside := Step(s, Open(false), replace, quote);
    var t := AfterItems(inside, items, replace, quote);
    assert Popped(t.objects) == s.objects && Popped(t.empty) == Separated(s).empty;
    assert Separator(inside) == "";
  }

  lemma RewrittenArray(items: seq<Json>, replace: string -> string, quote: string -> string)
    ensures Compact(Rewritten(Array(items), replace), quote) == "[" + CompactItems(RewrittenItems(items, replace), quote) + "]"
    ensures Rewritten(Array(items), replace) != Array(items) <==> RewrittenItems(items, replace) != items
    ensures items == [] ==> RewrittenItems(items, replace) == items && CompactItems(items, quote) == ""
  {
  }

  /** What an object's braces do around its members. */
  lemma ObjectOpens(s: State, members: seq<Member>, replace: string -> string, quote: string -> string)
    requires AtValue(s)
    ensures var inside := Step(s, Open(true), replace, quote);
      && |inside.objects| == |inside.empty| && InObject(inside) && inside.wantName && !inside.afterName
      && Step(AfterMembers(inside, members, replace, quote), Close(true), replace, quote) == After(s, Object(members), replace, quote)
  {
    hide Rewritten, RewrittenMembers, Compact, CompactMembers;
    RewrittenObject(members, replace, quote);
    var inside := Step(s, Open(true), replace, quote);
    var t := AfterMembers(inside, members, replace, quote);
    assert Popped(t.objects) == s.objects && Popped(t.empty) == Separated(s).empty;
    assert Separator(inside) == "";
  }

  lemma RewrittenObject(members: seq<Member>, replace: string -> string, quote: string -> string)
    ensures Compact(Rewritten(Object(members), replace), quote) == "{" + CompactMembers(RewrittenMembers(members, replace), quote) + "}"
    ensures Rewritten(Object(members), replace) != Object(members) <==> RewrittenMembers(members, replace) != members
    ensures members == [] ==> RewrittenMembers(members, replace) == members && CompactMembers(members, quote) == ""
  {
  }

  lemma WalksArray(s: State, items: seq<Json>, replace: string -> string, quote: string -> string)
    requires AtValue(s)
    ensures Walk(s, Tokens(Array(items)), replace, quote) == After(s, Array(items), replace, quote)
    decreases Array(items), 0
  {
    hide Walk, Step, After, AfterItems, AfterMembers, Tokens, ItemTokens, MemberTokens;
    ArrayParts(items);
    var inside := Step(s, Open(false), replace, quote);
    WalkConcat(s, [Open(false)] + ItemTokens(items), [Close(false)], replace, quote);
    WalkConcat(s, [Open(false)], ItemTokens(items), replace, quote);
    WalkOne(s, Open(false), replace, quote);
    ArrayOpens(s, items, replace, quote);
    WalksItems(inside, items, replace, quote);
    WalkOne(AfterItems(inside, items, replace, quote), Close(false), replace, quote);
  }

  /** The machine in an array once items have come, the first of them after others or not. */
  function AfterItems(s: State, items: seq<Json>, replace: string -> string, quote: string -> string): State {
    if items == [] then s
    else s.(out := s.out + Separator(s) + CompactItems(RewrittenItems(items, replace), quote),
            changed := s.changed || RewrittenItems(items, replace) != items,
            empty := if s.empty == [] then s.empty else s.empty[|s.empty| - 1 := false])
  }

  lemma {:induction false} WalksItems(s: State, items: seq<Json>, replace: string -> string, quote: string -> string)
    requires AtValue(s) && !InObject(s) && s.objects != []
    ensures Walk(s, ItemTokens(items), replace, quote) == AfterItems(s, items, replace, quote)
    decreases items
  {
    if items != [] {
      assert ItemTokens(items) == Tokens(items[0]) + ItemTokens(items[1..]);
      FirstItem(s, items, replace, quote);
      hide After, AfterItems, AtValue, InObject, Walk, ItemTokens, Tokens;
      WalkConcat(s, Tokens(items[0]), ItemTokens(items[1..]), replace, quote);
      WalksValue(s, items[0], replace, quote);
      WalksItems(After(s, items[0], replace, quote), items[1..], replace, quote);
    }
  }

  /** The machine after an item and those that follow it is the machine after them all. */
  lemma FirstItem(s: State, items: seq<Json>, replace: string -> string, quote: string -> string)
    requires AtValue(s) && !InObject(s) && s.objects != [] && items != []
    ensures var t := After(s, items[0], replace, quote);
      && AtValue(t) && !InObject(t) && t.objects != []
      && AfterItems(t, items[1..], replace, quote) == AfterItems(s, items, replace, quote)
  {
    hide Rewritten, RewrittenItems, Compact, CompactItems;
    ItemsSplit(items, replace, quote);
    var one := Compact(Rewritten(items[0], replace), quote);
    var rest := CompactItems(RewrittenItems(items[1..], replace), quote);
    var t := After(s, items[0], replace, quote);
    assert t.out == s.out + Separator(s) + one && Separator(t) == ",";
    Regroup(s.out + Separator(s), one, ",", rest);
    assert items[1..] == [] <==> |items| == 1;
  }

  lemma {:induction false} ItemsSplit(items: seq<Json>, replace: string -> string, quote: string -> string)
    requires items != []
    ensures CompactItems(RewrittenItems(items, replace), quote) ==
      Compact(Rewritten(items[0], replace), quote) +
      if |items| == 1 then "" else "," + CompactItems(RewrittenItems(items[1..], replace), quote)
    ensures RewrittenItems(items, replace) != items <==> Rewritten(items[0], replace) != items[0] || RewrittenItems(items[1..], replace) != items[1..]
  {
    hide Rewritten, Compact;
    assert RewrittenItems(items, replace)[1..] == RewrittenItems(items[1..], replace);
    assert items == [items[0]] + items[1..];
  }

  lemma WalksObject(s: State, members: seq<Member>, replace: string -> string, quote: string -> string)
    requires AtValue(s)
    ensures Walk(s, Tokens(Object(members)), replace, quote) == After(s, Object(members), replace, quote)
    decreases Object(members), 0
  {
    hide Walk, Step, After, AfterItems, AfterMembers, Tokens, ItemTokens, MemberTokens;
    ObjectParts(members);
    var inside := Step(s, Open(true), replace, quote);
    WalkConcat(s, [Open(true)] + MemberTokens(members), [Close(true)], replace, quote);
    WalkConcat(s, [Open(true)], MemberTokens(members), replace, quote);
    WalkOne(s, Open(true), replace, quote);
    ObjectOpens(s, members, replace, quote);
    WalksMembers(inside, members, replace, quote);
    WalkOne(AfterMembers(inside, members, replace, quote), Close(true), replace, quote);
  }

  /** The machine in an object once members have come. */
  function AfterMembers(s: State, members: seq<Member>, replace: string -> string, quote: string -> string): State {
    if members == [] then s
    else s.(out := s.out + Separator(s) + CompactMembers(RewrittenMembers(members, replace), quote),
            changed := s.changed || RewrittenMembers(members, replace) != members,
            empty := if s.empty == [] then s.empty else s.empty[|s.empty| - 1 := false])
  }

  lemma {:induction false} WalksMembers(s: State, members: seq<Member>, replace: string -> string, quote: string -> string)
    requires |s.objects| == |s.empty| && InObject(s) && s.wantName && !s.afterName
    ensures Walk(s, MemberTokens(members), replace, quote) == AfterMembers(s, members, replace, quote)
    decreases members
  {
    if members != [] {
      var name, value := members[0].name, members[0].value;
      WalkConcat(s, [Word(name)] + Tokens(value), MemberTokens(members[1..]), replace, quote);
      WalkConcat(s, [Word(name)], Tokens(value), replace, quote);
      WalkOne(s, Word(name), replace, quote);
      MemberJoins(s, members, replace, quote);
      hide Walk, Step, After, AfterMembers, Rewritten, RewrittenMembers, Compact, CompactMembers, Tokens;
      var named := Step(s, Word(name), replace, quote);
      WalksValue(named, value, replace, quote);
      WalksMembers(After(named, value, replace, quote), members[1..], replace, quote);
    }
  }

  /** The rewritten text of members, by the first and the rest, and whether rewriting changes any. */
  lemma MembersSplit(members: seq<Member>, replace: string -> string, quote: string -> string)
    requires members != []
    ensures var rest := RewrittenMembers(members[1..], replace);
      CompactMembers(RewrittenMembers(members, replace), quote)
        == quote(members[0].name) + ":" + Compact(Rewritten(members[0].value, replace), quote)
          + if |members| == 1 then "" else "," + CompactMembers(rest, quote)
    ensures RewrittenMembers(members, replace) != members
      <==> Rewritten(members[0].value, replace) != members[0].value || RewrittenMembers(members[1..], replace) != members[1..]
  {
    var first := Member(members[0].name, Rewritten(members[0].value, replace));
    var rest := RewrittenMembers(members[1..], replace);
    RewrittenFirst(members, replace);
    hide Rewritten, RewrittenMembers, Compact, CompactMembers;
    CompactFirst(first, rest, quote);
    Differ(first, rest, members);
  }

  lemma RewrittenFirst(members: seq<Member>, replace: string -> string)
    requires members != []
    ensures RewrittenMembers(members, replace)
      == [Member(members[0].name, Rewritten(members[0].value, replace))] + RewrittenMembers(members[1..], replace)
  {
  }

  lemma CompactFirst(first: Member, rest: seq<Member>, quote: string -> string)
    ensures CompactMembers([first] + rest, quote)
      == quote(first.name) + ":" + Compact(first.value, quote) + if rest == [] then "" else "," + CompactMembers(rest, quote)
  {
    var all := [first] + rest;
    assert all[0] == first && all[1..] == rest && (|all| == 1 <==> rest == []);
  }

  lemma Differ(first: Member, rest: seq<Member>, members: seq<Member>)
    requires members != [] && first.name == members[0].name
    ensures [first] + rest != members <==> first.value != members[0].value || rest != members[1..]
  {
    var all := [first] + rest;
    assert all[0] == first && all[1..] == rest;
    if first == members[0] && rest == members[1..] {
      assert all == members;
    }
  }

  /** What a member's name and value do. */
  lemma MemberNamed(s: State, member: Member, replace: string -> string, quote: string -> string)
    requires |s.objects| == |s.empty| && InObject(s) && s.wantName && !s.afterName
    ensures var named := Step(s, Word(member.name), replace, quote);
      && AtValue(named)
      && After(named, member.value, replace, quote) == s.(
           out := s.out + Separator(s) + quote(member.name) + ":" + Compact(Rewritten(member.value, replace), quote),
           empty := s.empty[|s.empty| - 1 := false],
           changed := s.changed || Rewritten(member.value, replace) != member.value)
  {
    hide Rewritten, Compact;
  }

  lemma Regroup(a: string, b: string, c: string, d: string)
    ensures a + (b + c + d) == a + b + c + d && a + (b + d) == a + b + d
  {
  }

  /** What a member's name and value do before the members after it. */
  lemma MemberJoins(s: State, members: seq<Member>, replace: string -> string, quote: string -> string)
    requires |s.objects| == |s.empty| && InObject(s) && s.wantName && !s.afterName && members != []
    ensures var named := Step(s, Word(members[0].name), replace, quote);
      var t := After(named, members[0].value, replace, quote);
      && AtValue(named)
      && |t.objects| == |t.empty| && InObject(t) && t.wantName && !t.afterName
      && AfterMembers(t, members[1..], replace, quote) == AfterMembers(s, members, replace, quote)
  {
    hide Rewritten, RewrittenMembers, Compact, CompactMembers, Step, After;
    MembersSplit(members, replace, quote);
    MemberNamed(s, members[0], replace, quote);
    var one := quote(members[0].name) + ":" + Compact(Rewritten(members[0].value, replace), quote);
    var rest := CompactMembers(RewrittenMembers(members[1..], replace), quote);
    var t := After(Step(s, Word(members[0].name), replace, quote), members[0].value, replace, quote);
    assert t.out == s.out + Separator(s) + one;
    Regroup(s.out + Separator(s), one, ",", rest);
    assert members[1..] == [] <==> |members| == 1;
  }

  // ---- the imperative walk ----

  /** jsonScrubber: writes the JSON it is given with replace applied to each string and number. */
  class JsonScrubber {
    const replace: string -> string
    const quote: string -> string
    var out: string
    var empty: seq<bool>
    var afterName: bool
    var changed: bool

    constructor (replace: string -> string, quote: string -> string)
      ensures this.replace == replace && this.quote == quote
      ensures Seen([], false) == State([], false, "", [], false, false)
    {
      this.replace, this.quote := replace, quote;
      out, empty, afterName, changed := "", [], false, false;
    }

    /** The state of the machine, given walkJSON's. */
    function Seen(objects: seq<bool>, wantName: bool): State
      reads this
    {
      State(objects, wantName, out, empty, afterName, changed)
    }

    method Separate()
      modifies this
      ensures forall objects, wantName :: Seen(objects, wantName) == Separated(old(Seen(objects, wantName)))
    {
      if afterName {
        out := out + ":";
        afterName := false;
        return;
      }
      if |empty| > 0 {
        if !empty[|empty| - 1] {
          out := out + ",";
        }
        empty := empty[|empty| - 1 := false];
      }
    }

    method OpenDelim(braces: bool)
      modifies this
      ensures forall objects, wantName ::
        Seen(objects + [braces], braces) == Step(old(Seen(objects, wantName)), Open(braces), replace, quote)
    {
      Separate();
      out := out + if braces then "{" else "[";
      empty := empty + [true];
    }

    method CloseDelim(braces: bool)
      modifies this
      ensures out == old(out) + (if braces then "}" else "]") && empty == Popped(old(empty))
      ensures afterName == old(afterName) && changed == old(changed)
    {
      empty := Popped(empty);
      out := out + if braces then "}" else "]";
    }

    method Name(name: string)
      modifies this
      ensures forall objects :: Seen(objects, false) == Step(old(Seen(objects, true)), Word(name), replace, quote)
    {
      Separate();
      out := out + quote(name);
      afterName := true;
    }

    /** A value that is not an object or an array. */
    method Value(token: Token)
      requires !token.Open? && !token.Close?
      modifies this
      ensures forall objects, wantName :: !(token.Word? && wantName) ==>
        Seen(objects, objects != [] && objects[|objects| - 1]) == Step(old(Seen(objects, wantName)), token, replace, quote)
    {
      Separate();
      match token
      case Word(text) =>
        var written := replace(text);
        changed := changed || written != text;
        out := out + quote(written);
      case Digits(text) =>
        var written := replace(text);
        if written != text {
          changed := true;
          out := out + quote(written);
        } else {
          out := out + text;
        }
      case Flag(b) => out := out + if b then "true" else "false";
      case Nothing => out := out + "null";
    }
  }

  /** One token of walkJSON. */
  method WalkToken(token: Token, objects: seq<bool>, wantName: bool, scrubber: JsonScrubber) returns (more: seq<bool>, wants: bool)
    modifies scrubber
    ensures scrubber.Seen(more, wants) == Step(old(scrubber.Seen(objects, wantName)), token, scrubber.replace, scrubber.quote)
  {
    match token
    case Open(braces) =>
      scrubber.OpenDelim(braces);
      return objects + [braces], braces;
    case Close(braces) =>
      more := Popped(objects);
      scrubber.CloseDelim(braces);
      return more, |more| > 0 && more[|more| - 1];
    case Word(text) =>
      if wantName {
        scrubber.Name(text);
        return objects, false;
      }
      scrubber.Value(token);
      return objects, |objects| > 0 && objects[|objects| - 1];
    case _ =>
      scrubber.Value(token);
      return objects, |objects| > 0 && objects[|objects| - 1];
  }

  lemma WalkNext(s: State, tokens: seq<Token>, i: nat, replace: string -> string, quote: string -> string)
    requires i < |tokens|
    ensures Walk(s, tokens[i..], replace, quote) == Walk(Step(s, tokens[i], replace, quote), tokens[i + 1..], replace, quote)
  {
    assert tokens[i..][0] == tokens[i] && tokens[i..][1..] == tokens[i + 1..];
  }

  /** walkJSON: passes each token to the scrubber, as a name when a string comes where one is wanted. */
  method WalkJson(tokens: seq<Token>, scrubber: JsonScrubber) returns (objects: seq<bool>, wantName: bool)
    modifies scrubber
    ensures scrubber.Seen(objects, wantName)
      == Walk(old(scrubber.Seen([], false)), tokens, scrubber.replace, scrubber.quote)
  {
    hide Step;
    objects, wantName := [], false;
    ghost var start, replace, quote := scrubber.Seen([], false), scrubber.replace, scrubber.quote;
    assert tokens[0..] == tokens;
    for i := 0 to |tokens|
      invariant Walk(start, tokens, replace, quote) == Walk(scrubber.Seen(objects, wantName), tokens[i..], replace, quote)
    {
      WalkNext(scrubber.Seen(objects, wantName), tokens, i, replace, quote);
      objects, wantName := WalkToken(tokens[i], objects, wantName, scrubber);
    }
    assert tokens[|tokens|..] == [];
  }

  /** scrubJSONText: text with replace applied as a whole when it is not JSON, and otherwise the compact
      text of its value with replace applied to strings and numbers, unless that changes none. */
  method ScrubJsonText(text: string, parsed: Json, isJson: bool, replace: string -> string, quote: string -> string)
    returns (scrubbed: string)
    ensures scrubbed ==
      if !isJson then replace(text)
      else if Rewritten(parsed, replace) == parsed then text
      else Compact(Rewritten(parsed, replace), quote)
  {
    if !isJson {
      return replace(text);
    }
    var scrubber := new JsonScrubber(replace, quote);
    ghost var start := scrubber.Seen([], false);
    var objects, wantName := WalkJson(Tokens(parsed), scrubber);
    WalksValue(start, parsed, replace, quote);
    if !scrubber.changed {
      return text;
    }
    return scrubber.out;
  }
}

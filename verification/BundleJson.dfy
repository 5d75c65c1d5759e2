/** The structural check of a signing-key bundle: a recursive descent over the decoder's token stream.

The decoder yields delimiters and scalars (commas and colons are swallowed), then either the end of the input
or an error.
*/
module BundleJson {
  import opened Prelude

  const MAX_DEPTH: nat := 32

  datatype Tok =
    | OpenObject | CloseObject | OpenArray | CloseArray
    | Str(text: string) | Number(text: string) | Bool(b: bool) | Null
  {
    predicate Closes() {
      CloseObject? || CloseArray?
    }

    predicate Plain() {
      Str? || Number? || Bool?
    }
  }

  /** A JSON value without null anywhere. */
  datatype Json = Text(text: string) | Num(digits: string) | Flag(b: bool) | Array(items: seq<Json>) |
    Object(members: seq<Member>)

  datatype Member = Member(name: string, value: Json)

  // ---------- printing ----------

  function Print(j: Json): seq<Tok> {
    match j
    case Text(text) => [Str(text)]
    case Num(digits) => [Number(digits)]
    case Flag(b) => [Bool(b)]
    case Array(items) => [OpenArray] + PrintItems(items) + [CloseArray]
    case Object(members) => [OpenObject] + PrintMembers(members) + [CloseObject]
  }

  function PrintItems(items: seq<Json>): seq<Tok> {
    if items == [] then [] else Print(items[0]) + PrintItems(items[1..])
  }

  function PrintMembers(members: seq<Member>): seq<Tok> {
    if members == [] then [] else [Str(members[0].name)] + Print(members[0].value) + PrintMembers(members[1..])
  }

  /** The names are distinct and none has been seen before. */
  predicate FreshNames(members: seq<Member>, seen: set<string>) {
    && (forall k :: 0 <= k < |members| ==> members[k].name !in seen)
    && (forall i, k :: 0 <= i < k < |members| ==> members[i].name != members[k].name)
  }

  lemma FreshNamesFirst(members: seq<Member>, seen: set<string>)
    requires members != []
    ensures FreshNames(members, seen) <==>
      members[0].name !in seen && FreshNames(members[1..], seen + {members[0].name})
  {
    var rest := members[1..];
    assert forall k :: 0 <= k < |rest| ==> rest[k] == members[k + 1];
    if members[0].name !in seen && FreshNames(rest, seen + {members[0].name}) {
      forall k | 0 < k < |members| ensures members[k].name !in seen && members[k].name != members[0].name {
        assert members[k] == rest[k - 1];
      }
      forall i, k | 0 < i < k < |members| ensures members[i].name != members[k].name {
        assert members[i] == rest[i - 1] && members[k] == rest[k - 1];
      }
    }
  }

  lemma Regroup(a: seq<Tok>, b: seq<Tok>, c: seq<Tok>, d: seq<Tok>)
    ensures ((a + b) + c) + d == a + (b + (c + d))
  {
  }

  lemma PrintMembersFirst(members: seq<Member>)
    requires members != []
    ensures PrintMembers(members) + [CloseObject] ==
      [Str(members[0].name)] + (Print(members[0].value) + (PrintMembers(members[1..]) + [CloseObject]))
  {
    Regroup([Str(members[0].name)], Print(members[0].value), PrintMembers(members[1..]), [CloseObject]);
  }

  lemma PrintItemsFirst(items: seq<Json>)
    requires items != []
    ensures PrintItems(items) + [CloseArray] == Print(items[0]) + (PrintItems(items[1..]) + [CloseArray])
  {
  }

  /** No object repeats a name, and no value lies deeper than `limit` below this one. */
  predicate Acceptable(j: Json, limit: int) {
    && limit >= 0
    && match j
       case Array(items) => forall k :: 0 <= k < |items| ==> Acceptable(items[k], limit - 1)
       case Object(members) =>
         && (forall k :: 0 <= k < |members| ==> Acceptable(members[k].value, limit - 1))
         && FreshNames(members, {})
       case _ => true
  }

  // ---------- the descent ----------

  /** Where the value starting at `pos` ends, if it is acceptable at this depth. */
  function Value(toks: seq<Tok>, pos: nat, depth: nat): (end: Option<nat>)
    ensures end.Some? ==> pos < end.value <= |toks|
    decreases |toks| - pos, 0
  {
    if depth > MAX_DEPTH || pos >= |toks| then None
    else match toks[pos]
      case OpenArray => Items(toks, pos + 1, depth)
      case OpenObject => Members(toks, pos + 1, depth, {})
      case tok => if tok.Plain() then Some(pos + 1) else None
  }

  function Items(toks: seq<Tok>, pos: nat, depth: nat): (end: Option<nat>)
    ensures end.Some? ==> pos < end.value <= |toks|
    decreases |toks| - pos, 1
  {
    if pos >= |toks| then None
    else if toks[pos].Closes() then (if toks[pos].CloseArray? then Some(pos + 1) else None)
    else match Value(toks, pos, depth + 1)
      case None => None
      case Some(next) => Items(toks, next, depth)
  }

  function Members(toks: seq<Tok>, pos: nat, depth: nat, seen: set<string>): (end: Option<nat>)
    ensures end.Some? ==> pos < end.value <= |toks|
    decreases |toks| - pos, 1
  {
    if pos >= |toks| then None
    else if toks[pos].Closes() then (if toks[pos].CloseObject? then Some(pos + 1) else None)
    else if !toks[pos].Str? || toks[pos].text in seen then None
    else match Value(toks, pos + 1, depth + 1)
      case None => None
      case Some(next) => Members(toks, next, depth, seen + {toks[pos].text})
  }

  class Decoder {
    const toks: seq<Tok>
    const clean: bool      // the input ends after the last token, rather than going wrong
    const junkAhead: bool  // what More says when it goes wrong
    var pos: nat

    predicate Valid()
      reads this
    {
      pos <= |toks|
    }

    constructor (toks: seq<Tok>, clean: bool, junkAhead: bool)
      ensures this.toks == toks && this.clean == clean && pos == 0 && Valid()
    {
      this.toks, this.clean, this.junkAhead, pos := toks, clean, junkAhead, 0;
    }

    method Token() returns (t: Option<Tok>)
      requires Valid()
      modifies this
      ensures Valid()
      ensures t == if old(pos) < |toks| then Some(toks[old(pos)]) else None
      ensures pos == if old(pos) < |toks| then old(pos) + 1 else old(pos)
    {
      if pos < |toks| {
        t := Some(toks[pos]);
        pos := pos + 1;
      } else {
        t := None;
      }
    }

    /** Another element follows in the current array or object. */
    method More() returns (more: bool)
      ensures more == if pos < |toks| then !toks[pos].Closes() else !clean && junkAhead
    {
      more := if pos < |toks| then !toks[pos].Closes() else !clean && junkAhead;
    }

    method BundleJSONValue(depth: nat) returns (ok: bool)
      requires Valid()
      modifies this
      ensures Valid()
      ensures ok <==> Value(toks, old(pos), depth).Some?
      ensures ok ==> Some(pos) == Value(toks, old(pos), depth)
      decreases |toks| - pos, 0
    {
      if depth > MAX_DEPTH {
        return false;
      }
      var token := Token();
      if token.None? || token.value.Null? {
        return false;
      }
      if token == Some(OpenObject) {
        ok := ObjectRest(depth);
      } else if token == Some(OpenArray) {
        ok := ArrayRest(depth);
      } else {
        return !token.value.Closes();
      }
    }

    method ObjectRest(depth: nat) returns (ok: bool)
      requires Valid()
      modifies this
      ensures Valid()
      ensures ok <==> Members(toks, old(pos), depth, {}).Some?
      ensures ok ==> Some(pos) == Members(toks, old(pos), depth, {})
      decreases |toks| - pos, 1
    {
      var seen := {};
      var more := More();
      while more
        invariant old(pos) <= pos && Valid()
        invariant Members(toks, old(pos), depth, {}) == Members(toks, pos, depth, seen)
        invariant more == if pos < |toks| then !toks[pos].Closes() else !clean && junkAhead
        decreases |toks| - pos
      {
        var token := Token();
        if token.None? || !token.value.Str? {
          return false;
        }
        if token.value.text in seen {
          return false;
        }
        seen := seen + {token.value.text};
        var fine := BundleJSONValue(depth + 1);
        if !fine {
          return false;
        }
        more := More();
      }
      var end := Token();
      return end == Some(CloseObject);
    }

    method ArrayRest(depth: nat) returns (ok: bool)
      requires Valid()
      modifies this
      ensures Valid()
      ensures ok <==> Items(toks, old(pos), depth).Some?
      ensures ok ==> Some(pos) == Items(toks, old(pos), depth)
      decreases |toks| - pos, 1
    {
      var more := More();
      while more
        invariant old(pos) <= pos && Valid()
        invariant Items(toks, old(pos), depth) == Items(toks, pos, depth)
        invariant more == if pos < |toks| then !toks[pos].Closes() else !clean && junkAhead
        decreases |toks| - pos
      {
        var fine := BundleJSONValue(depth + 1);
        if !fine {
          return false;
        }
        more := More();
      }
      var end := Token();
      return end == Some(CloseArray);
    }
  }

  // ---------- accepted streams are prints ----------

  lemma {:induction false} ValueIsAPrint(toks: seq<Tok>, pos: nat, depth: nat) returns (j: Json)
    requires Value(toks, pos, depth).Some?
    ensures Acceptable(j, MAX_DEPTH - depth)
    ensures toks[pos..Value(toks, pos, depth).value] == Print(j)
    decreases |toks| - pos, 0
  {
    var end := Value(toks, pos, depth).value;
    if toks[pos].OpenArray? {
      var items := ItemsArePrints(toks, pos + 1, depth);
      j := Array(items);
      assert toks[pos..end] == [toks[pos]] + toks[pos + 1..end];
    } else if toks[pos].OpenObject? {
      var members := MembersArePrints(toks, pos + 1, depth, {});
      j := Object(members);
      assert toks[pos..end] == [toks[pos]] + toks[pos + 1..end];
    } else {
      j := match toks[pos] {
        case Str(text) => Text(text)
        case Number(digits) => Num(digits)
        case Bool(b) => Flag(b)
      };
    }
  }

  lemma {:induction false} ItemsArePrints(toks: seq<Tok>, pos: nat, depth: nat) returns (items: seq<Json>)
    requires depth <= MAX_DEPTH && Items(toks, pos, depth).Some?
    ensures forall k :: 0 <= k < |items| ==> Acceptable(items[k], MAX_DEPTH - depth - 1)
    ensures toks[pos..Items(toks, pos, depth).value] == PrintItems(items) + [CloseArray]
    decreases |toks| - pos, 1
  {
    var end := Items(toks, pos, depth).value;
    if toks[pos].Closes() {
      items := [];
    } else {
      var next := Value(toks, pos, depth + 1).value;
      var j := ValueIsAPrint(toks, pos, depth + 1);
      var rest := ItemsArePrints(toks, next, depth);
      items := [j] + rest;
      assert items[1..] == rest;
      assert toks[pos..end] == toks[pos..next] + toks[next..end];
    }
  }

  lemma {:induction false} MembersArePrints(toks: seq<Tok>, pos: nat, depth: nat,
                                            seen: set<string>) returns (members: seq<Member>)
    requires depth <= MAX_DEPTH && Members(toks, pos, depth, seen).Some?
    ensures forall k :: 0 <= k < |members| ==> Acceptable(members[k].value, MAX_DEPTH - depth - 1)
    ensures FreshNames(members, seen)
    ensures toks[pos..Members(toks, pos, depth, seen).value] == PrintMembers(members) + [CloseObject]
    decreases |toks| - pos, 1
  {
    var end := Members(toks, pos, depth, seen).value;
    if toks[pos].Closes() {
      members := [];
    } else {
      var name, next := toks[pos].text, Value(toks, pos + 1, depth + 1).value;
      var j := ValueIsAPrint(toks, pos + 1, depth + 1);
      var rest := MembersArePrints(toks, next, depth, seen + {name});
      members := [Member(name, j)] + rest;
      FreshNamesFirst(members, seen);
      PrintMembersFirst(members);
      SplitAt(toks, pos, next, end);
    }
  }

  lemma SplitAt(toks: seq<Tok>, pos: nat, next: nat, end: nat)
    requires pos < next <= end <= |toks|
    ensures toks[pos..end] == [toks[pos]] + (toks[pos + 1..next] + toks[next..end])
  {
  }

  // ---------- prints are accepted ----------

  /** The tokens from `pos` on begin with `s`. */
  predicate At(toks: seq<Tok>, pos: nat, s: seq<Tok>) {
    pos + |s| <= |toks| && toks[pos..pos + |s|] == s
  }

  lemma AtSplit(toks: seq<Tok>, pos: nat, a: seq<Tok>, b: seq<Tok>)
    requires At(toks, pos, a + b)
    ensures At(toks, pos, a) && At(toks, pos + |a|, b)
  {
    assert toks[pos..pos + |a + b|][..|a|] == a;
    assert toks[pos..pos + |a + b|][|a|..] == b;
  }

  lemma AtFirst(toks: seq<Tok>, pos: nat, tok: Tok, rest: seq<Tok>)
    requires At(toks, pos, [tok] + rest)
    ensures pos < |toks| && toks[pos] == tok && At(toks, pos + 1, rest)
  {
    AtSplit(toks, pos, [tok], rest);
    assert toks[pos] == toks[pos..pos + 1][0];
  }

  lemma ScalarIsAccepted(toks: seq<Tok>, pos: nat, depth: nat, j: Json)
    requires depth <= MAX_DEPTH && !j.Array? && !j.Object? && At(toks, pos, Print(j))
    ensures Value(toks, pos, depth) == Some(pos + 1) && |Print(j)| == 1
  {
    assert toks[pos] == toks[pos..pos + 1][0];
  }

  lemma ArrayAt(toks: seq<Tok>, pos: nat, depth: nat, j: Json)
    requires depth <= MAX_DEPTH && j.Array? && At(toks, pos, Print(j))
    ensures At(toks, pos + 1, PrintItems(j.items) + [CloseArray]) && |Print(j)| == |PrintItems(j.items)| + 2
    ensures Value(toks, pos, depth) == Items(toks, pos + 1, depth)
  {
    var body := PrintItems(j.items) + [CloseArray];
    assert Print(j) == [OpenArray] + body;
    AtFirst(toks, pos, OpenArray, body);
  }

  lemma ObjectAt(toks: seq<Tok>, pos: nat, depth: nat, j: Json)
    requires depth <= MAX_DEPTH && j.Object? && At(toks, pos, Print(j))
    ensures At(toks, pos + 1, PrintMembers(j.members) + [CloseObject]) && |Print(j)| == |PrintMembers(j.members)| + 2
    ensures Value(toks, pos, depth) == Members(toks, pos + 1, depth, {})
  {
    var body := PrintMembers(j.members) + [CloseObject];
    assert Print(j) == [OpenObject] + body;
    AtFirst(toks, pos, OpenObject, body);
  }

  lemma {:induction false} PrintIsAccepted(toks: seq<Tok>, pos: nat, depth: nat, j: Json)
    requires depth <= MAX_DEPTH && Acceptable(j, MAX_DEPTH - depth) && At(toks, pos, Print(j))
    ensures Value(toks, pos, depth) == Some(pos + |Print(j)|)
    decreases j, 0
  {
    if j.Array? {
      ArrayAt(toks, pos, depth, j);
      ItemsAreAccepted(toks, pos + 1, depth, j.items);
    } else if j.Object? {
      ObjectAt(toks, pos, depth, j);
      MembersAreAccepted(toks, pos + 1, depth, j.members, {});
    } else {
      ScalarIsAccepted(toks, pos, depth, j);
    }
  }

  lemma PrintDoesNotClose(toks: seq<Tok>, pos: nat, j: Json, limit: int)
    requires Acceptable(j, limit) && At(toks, pos, Print(j))
    ensures |Print(j)| > 0 && !toks[pos].Closes()
  {
    assert toks[pos] == toks[pos..pos + |Print(j)|][0];
  }

  lemma SplitAlong(toks: seq<Tok>, pos: nat, whole: seq<Tok>, a: seq<Tok>, b: seq<Tok>)
    requires At(toks, pos, whole) && whole == a + b
    ensures At(toks, pos, a) && At(toks, pos + |a|, b)
  {
    AtSplit(toks, pos, a, b);
  }

  /** Where the parts of the first item lie. */
  lemma ItemAt(toks: seq<Tok>, pos: nat, items: seq<Json>)
    requires items != [] && At(toks, pos, PrintItems(items) + [CloseArray])
    ensures At(toks, pos, Print(items[0]))
    ensures At(toks, pos + |Print(items[0])|, PrintItems(items[1..]) + [CloseArray])
  {
    PrintItemsFirst(items);
    SplitAlong(toks, pos, PrintItems(items) + [CloseArray], Print(items[0]), PrintItems(items[1..]) + [CloseArray]);
  }

  lemma PrintItemsSize(items: seq<Json>)
    requires items != []
    ensures |PrintItems(items)| == |Print(items[0])| + |PrintItems(items[1..])|
  {
  }

  lemma ItemStep(toks: seq<Tok>, pos: nat, depth: nat, next: nat)
    requires pos < |toks| && !toks[pos].Closes() && Value(toks, pos, depth + 1) == Some(next)
    ensures Items(toks, pos, depth) == Items(toks, next, depth)
  {
  }

  lemma {:induction false} ItemsAreAccepted(toks: seq<Tok>, pos: nat, depth: nat, items: seq<Json>)
    requires depth <= MAX_DEPTH && At(toks, pos, PrintItems(items) + [CloseArray])
    requires forall k :: 0 <= k < |items| ==> Acceptable(items[k], MAX_DEPTH - depth - 1)
    ensures Items(toks, pos, depth) == Some(pos + |PrintItems(items)| + 1)
    decreases items, 1
  {
    if items == [] {
      AtFirst(toks, pos, CloseArray, []);
    } else {
      var next := pos + |Print(items[0])|;
      ItemAt(toks, pos, items);
      PrintDoesNotClose(toks, pos, items[0], MAX_DEPTH - depth - 1);
      PrintIsAccepted(toks, pos, depth + 1, items[0]);
      ItemStep(toks, pos, depth, next);
      ItemsAreAccepted(toks, next, depth, items[1..]);
      PrintItemsSize(items);
    }
  }

  /** Where the parts of the first member lie. */
  lemma MemberAt(toks: seq<Tok>, pos: nat, members: seq<Member>)
    requires members != [] && At(toks, pos, PrintMembers(members) + [CloseObject])
    ensures pos < |toks| && toks[pos] == Str(members[0].name) && At(toks, pos + 1, Print(members[0].value))
    ensures At(toks, pos + 1 + |Print(members[0].value)|, PrintMembers(members[1..]) + [CloseObject])
  {
    var value, tail := Print(members[0].value), PrintMembers(members[1..]) + [CloseObject];
    PrintMembersFirst(members);
    AtFirst(toks, pos, Str(members[0].name), value + tail);
    AtSplit(toks, pos + 1, value, tail);
  }

  lemma PrintMembersSize(members: seq<Member>)
    requires members != []
    ensures |PrintMembers(members)| == 1 + |Print(members[0].value)| + |PrintMembers(members[1..])|
  {
  }

  /** Past the first member, if its value is accepted. */
  lemma MemberStep(toks: seq<Tok>, pos: nat, depth: nat, members: seq<Member>, seen: set<string>, next: nat)
    requires members != [] && FreshNames(members, seen) && pos < |toks| && toks[pos] == Str(members[0].name)
    requires Value(toks, pos + 1, depth + 1) == Some(next)
    ensures FreshNames(members[1..], seen + {members[0].name})
    ensures Members(toks, pos, depth, seen) == Members(toks, next, depth, seen + {members[0].name})
  {
    FreshNamesFirst(members, seen);
  }

  lemma {:induction false} MembersAreAccepted(toks: seq<Tok>, pos: nat, depth: nat, members: seq<Member>,
                                              seen: set<string>)
    requires depth <= MAX_DEPTH && At(toks, pos, PrintMembers(members) + [CloseObject])
    requires forall k :: 0 <= k < |members| ==> Acceptable(members[k].value, MAX_DEPTH - depth - 1)
    requires FreshNames(members, seen)
    ensures Members(toks, pos, depth, seen) == Some(pos + |PrintMembers(members)| + 1)
    decreases members, 1
  {
    if members == [] {
      AtFirst(toks, pos, CloseObject, []);
    } else {
      var next := pos + 1 + |Print(members[0].value)|;
      MemberAt(toks, pos, members);
      PrintIsAccepted(toks, pos + 1, depth + 1, members[0].value);
      MemberStep(toks, pos, depth, members, seen, next);
      MembersAreAccepted(toks, next, depth, members[1..], seen + {members[0].name});
      PrintMembersSize(members);
    }
  }

  ghost predicate PrintOf(toks: seq<Tok>, j: Json) {
    Acceptable(j, 32) && toks == Print(j)
  }

  lemma PrintsAreAccepted(toks: seq<Tok>, j: Json)
    requires PrintOf(toks, j)
    ensures Value(toks, 0, 0) == Some(|toks|)
  {
    assert toks[0..0 + |Print(j)|] == toks;
    PrintIsAccepted(toks, 0, 0, j);
  }

  lemma AcceptedArePrints(toks: seq<Tok>) returns (j: Json)
    requires Value(toks, 0, 0) == Some(|toks|)
    ensures PrintOf(toks, j)
  {
    j := ValueIsAPrint(toks, 0, 0);
    assert toks[0..|toks|] == toks;
  }

  /** The check accepts a token stream exactly when it is the print of one JSON tree without null or repeated names,
      nested at most 32 deep, and the input ends there. */
  method ValidBundleJSON(toks: seq<Tok>, clean: bool, junkAhead: bool) returns (ok: bool)
    ensures ok <==> clean && exists j :: PrintOf(toks, j)
  {
    var decoder := new Decoder(toks, clean, junkAhead);
    ok := decoder.BundleJSONValue(0);
    if ok {
      ok := decoder.pos == |toks| && clean;
    }
    ghost var accepted := Value(toks, 0, 0) == Some(|toks|);
    if accepted {
      ghost var j := AcceptedArePrints(toks);
    }
    forall j | PrintOf(toks, j) ensures accepted {
      PrintsAreAccepted(toks, j);
    }
  }
}

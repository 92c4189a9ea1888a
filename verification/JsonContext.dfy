/**
 What the stream and the flags of the writer stand for: the text of the document that the calls
 so far have built. Reading the finished stream gives that document back.
 */
module JsonContext {
  import opened JsonTree
  import opened JsonParser
  import opened JsonRoundTrip
  import opened JsonCalls

  /** Everything written before a value that starts here. */
  function Lead(c: Context): string
    decreases c, 1
  {
    TextSoFar(c) + if c.InArr? then Separator(c.items == []) else ""
  }

  /** The text of the unfinished document. */
  function TextSoFar(c: Context): string
    decreases c, 0
  {
    match c
    case Empty => ""
    case Done(v) => Render(v)
    case InArr(items, parent) => Lead(parent) + "[" + RenderItems(items, true)
    case InObj(members, parent) => Lead(parent) + "{" + RenderMembers(members, true)
    case AtKey(members, key, parent) =>
      Lead(parent) + "{" + RenderMembers(members, true) + Separator(members == []) + Quote(key) + ":"
    case Broken => ""
  }

  function Depth(c: Context): nat {
    match c
    case InArr(_, parent) => Depth(parent) + 1
    case InObj(_, parent) => Depth(parent) + 1
    case AtKey(_, _, parent) => Depth(parent) + 1
    case _ => 0
  }

  /** A comma is due before the next item or key. */
  predicate CommaDue(c: Context) {
    match c
    case InArr(items, _) => items != []
    case InObj(members, _) => members != []
    case _ => false
  }

  /** All open levels have the flag their container calls for, so no flag leaks between siblings. */
  predicate FlagsMatch(comma: seq<bool>, c: Context)
    decreases c
  {
    match c
    case Empty => true
    case Done(_) => true
    case InArr(_, parent) => (Depth(c) < |comma| ==> comma[Depth(c)] == CommaDue(c)) && FlagsMatch(comma, parent)
    case InObj(_, parent) => (Depth(c) < |comma| ==> comma[Depth(c)] == CommaDue(c)) && FlagsMatch(comma, parent)
    case AtKey(_, _, parent) => (Depth(c) < |comma| ==> comma[Depth(c)] == CommaDue(c)) && FlagsMatch(comma, parent)
    case Broken => false
  }

  /** The open containers can hold the value being written inside them. */
  predicate Proper(c: Context)
    decreases c
  {
    match c
    case InArr(_, parent) => TakesValue(parent) && Proper(parent)
    case InObj(_, parent) => TakesValue(parent) && Proper(parent)
    case AtKey(_, _, parent) => TakesValue(parent) && Proper(parent)
    case Broken => false
    case _ => true
  }

  /** The writer state stands for the context. */
  predicate Reflects(st: State, c: Context) {
    && |st.comma| == LEVELS
    && Proper(c)
    && st.out == TextSoFar(c)
    && st.depth == Depth(c)
    && FlagsMatch(st.comma, c)
  }

  // ---- one call ------------------------------------------------------------------------------------

  /** Flags of deeper levels do not matter to a context. */
  lemma {:induction false} FlagsBelow(comma: seq<bool>, c: Context, d: nat, b: bool)
    requires FlagsMatch(comma, c) && Depth(c) < d < |comma|
    ensures FlagsMatch(comma[d := b], c)
  {
    match c
    case InArr(_, parent) => FlagsBelow(comma, parent, d, b);
    case InObj(_, parent) => FlagsBelow(comma, parent, d, b);
    case AtKey(_, _, parent) => FlagsBelow(comma, parent, d, b);
    case _ =>
  }

  lemma {:induction false} RenderItemsSnoc(items: seq<Json>, v: Json, first: bool)
    ensures RenderItems(items + [v], first) ==
            RenderItems(items, first) + Separator(first && items == []) + Render(v)
  {
    hide Render, Separator;
    if items == [] {
      assert (items + [v])[1..] == [];
      assert RenderItems([], false) == "";
    } else {
      assert (items + [v])[1..] == items[1..] + [v];
      RenderItemsSnoc(items[1..], v, false);
      Joined(Separator(first) + Render(items[0]), RenderItems(items[1..], false), Separator(false), Render(v));
    }
  }

  lemma Joined(a: string, b: string, c: string, d: string)
    ensures a + (b + c + d) == a + b + c + d
  {
  }

  lemma {:induction false} RenderMembersSnoc(members: seq<Member>, m: Member, first: bool)
    ensures RenderMembers(members + [m], first) ==
            RenderMembers(members, first) + Separator(first && members == []) + RenderMember(m)
  {
    hide RenderMember;
    if members == [] {
      assert (members + [m])[1..] == [];
    } else {
      assert (members + [m])[1..] == members[1..] + [m];
      RenderMembersSnoc(members[1..], m, false);
    }
  }

  lemma ItemDone(lead: string, items: seq<Json>, v: Json)
    ensures lead + "[" + RenderItems(items + [v], true) ==
            lead + "[" + RenderItems(items, true) + Separator(items == []) + Render(v)
  {
    RenderItemsSnoc(items, v, true);
    hide *;
    var a, b, s, r := lead + "[", RenderItems(items, true), Separator(items == []), Render(v);
    assert a + (b + s + r) == a + b + s + r;
  }

  lemma MemberDone(lead: string, members: seq<Member>, key: string, v: Json)
    ensures lead + "{" + RenderMembers(members + [Member(key, v)], true) ==
            lead + "{" + RenderMembers(members, true) + Separator(members == []) + Quote(key) + ":" + Render(v)
  {
    RenderMembersSnoc(members, Member(key, v), true);
    hide Quote, Render, RenderMembers, Separator;
    var a, b, s := lead + "{", RenderMembers(members, true), Separator(members == []);
    assert a + (b + s + (Quote(key) + ":" + Render(v))) == a + b + s + Quote(key) + ":" + Render(v);
  }

  /** Finishing a value: its text follows the lead, and the level is marked. */
  lemma ValueDone(c: Context, v: Json)
    requires Proper(c) && TakesValue(c)
    ensures Proper(AddValue(c, v))
    ensures TextSoFar(AddValue(c, v)) == Lead(c) + Render(v)
    ensures Depth(AddValue(c, v)) == Depth(c)
  {
    hide Render, Quote, RenderItems, RenderMembers, Separator;
    match c
    case Empty => assert "" + Render(v) == Render(v);
    case InArr(items, parent) => ItemDone(Lead(parent), items, v);
    case AtKey(members, key, parent) =>
      MemberDone(Lead(parent), members, key, v);
      assert Lead(c) == TextSoFar(c);
  }

  lemma MarkMatches(st: State, c: Context, v: Json)
    requires Proper(c) && TakesValue(c) && |st.comma| == LEVELS
    requires FlagsMatch(st.comma, c) && st.depth == Depth(c) < LEVELS
    ensures FlagsMatch(Mark(st).comma, AddValue(c, v))
  {
    match c
    case Empty =>
    case InArr(items, parent) => FlagsBelow(st.comma, parent, st.depth, true);
    case AtKey(members, key, parent) => FlagsBelow(st.comma, parent, st.depth, true);
  }

  lemma CommaIsLead(st: State, c: Context)
    requires Reflects(st, c) && TakesValue(c) && st.depth < LEVELS
    ensures st.out + Comma(st) == Lead(c)
  {
  }

  /** Writing a complete value where one can start. */
  lemma ValueReflects(st: State, c: Context, v: Json)
    requires Reflects(st, c) && TakesValue(c) && st.depth < LEVELS
    ensures Reflects(Mark(st.(out := st.out + Comma(st) + Render(v))), AddValue(c, v))
  {
    hide Render, TextSoFar, Lead, FlagsMatch;
    CommaIsLead(st, c);
    ValueDone(c, v);
    MarkMatches(st, c, v);
  }

  /** Opening resets the new level's flag: nothing leaks from a closed sibling. */
  lemma OpenFlags(st: State, c: Context, op: Op)
    requires |st.comma| == LEVELS && FlagsMatch(st.comma, c) && TakesValue(c)
    requires st.depth == Depth(c) < LEVELS && (op.BeginObject? || op.BeginArray?)
    ensures FlagsMatch(Apply(st, op).comma, Move(c, op))
  {
    if st.depth + 1 < LEVELS {
      FlagsBelow(st.comma, c, st.depth + 1, false);
    }
  }

  lemma OpenReflects(st: State, c: Context, op: Op)
    requires Reflects(st, c) && TakesValue(c) && st.depth < LEVELS && (op.BeginObject? || op.BeginArray?)
    ensures Reflects(Apply(st, op), Move(c, op))
  {
    hide Render, Lead, FlagsMatch, Quote;
    CommaIsLead(st, c);
    OpenFlags(st, c, op);
    assert RenderItems([], true) == "" && RenderMembers([], true) == "";
    var b := if op.BeginObject? then "{" else "[";
    assert Lead(c) + b + "" == Lead(c) + b;
  }

  lemma CloseReflects(st: State, c: Context, op: Op)
    requires Reflects(st, c) && st.depth <= LEVELS && ((op.EndObject? && c.InObj?) || (op.EndArray? && c.InArr?))
    ensures Reflects(Apply(st, op), Move(c, op))
  {
    hide RenderItems, RenderMembers, Lead;
    var v := if c.InObj? then Obj(c.members) else Arr(c.items);
    ValueDone(c.parent, v);
    MarkMatches(State(st.out, st.depth - 1, st.comma), c.parent, v);
    var a, b := Lead(c.parent), if c.InObj? then RenderMembers(c.members, true) else RenderItems(c.items, true);
    if c.InObj? {
      assert a + "{" + b + "}" == a + ("{" + b + "}");
    } else {
      assert a + "[" + b + "]" == a + ("[" + b + "]");
    }
  }

  lemma KeyReflects(st: State, c: Context, key: string)
    requires Reflects(st, c) && c.InObj? && st.depth < LEVELS
    ensures Reflects(Apply(st, Key(key)), Move(c, Key(key)))
  {
    hide Quote, RenderMembers, Lead;
    FlagsBelow(st.comma, c.parent, st.depth, false);
  }

  /** Every call keeps the writer's state in step with the document being built. */
  lemma CallReflects(st: State, c: Context, op: Op)
    requires Reflects(st, c) && Fits(st, op) && !Move(c, op).Broken?
    ensures Reflects(Apply(st, op), Move(c, op))
  {
    hide TextSoFar, Lead, FlagsMatch, Render, Proper;
    match op
    case BeginObject => OpenReflects(st, c, op);
    case BeginArray => OpenReflects(st, c, op);
    case EndObject => CloseReflects(st, c, op);
    case EndArray => CloseReflects(st, c, op);
    case Key(key) => KeyReflects(st, c, key);
    case Scalar(v) => ValueReflects(st, c, v);
    case Copy(text) =>
      CopyHasNoComma(st, c, text);
      ValueReflects(st, c, Raw(text));
  }

  lemma CopyHasNoComma(st: State, c: Context, text: string)
    requires Reflects(st, c) && c.AtKey? && st.depth < LEVELS
    ensures st.out + Comma(st) + Render(Raw(text)) == st.out + text
  {
  }

  // ---- all calls -----------------------------------------------------------------------------------

  /**
   For every well-nested sequence of calls that stays inside the writer's 32 levels, the stream
   holds exactly the text of the document built so far and every open level has the right flag.
   */
  lemma {:induction false} CallsReflect(ops: seq<Op>)
    requires Run(Initial(), ops).Some? && !MoveAll(ops).Broken?
    ensures Reflects(Run(Initial(), ops).value, MoveAll(ops))
  {
    hide Reflects, Run;
    if ops == [] {
      RunOfNothing();
      assert Reflects(Initial(), Empty) by { NothingReflects(); }
    } else {
      var init, op := ops[..|ops| - 1], ops[|ops| - 1];
      assert init + [op] == ops;
      RunStep(Initial(), init, op);
      CallsReflect(init);
      CallReflects(Run(Initial(), init).value, MoveAll(init), op);
    }
  }

  lemma NothingReflects()
    ensures Reflects(Initial(), Empty)
  {
  }

  /**
   The emitter's round trip: when the calls have built a document, a reader of RFC 8259 gets
   exactly that document from the stream, with nothing left over.
   */
  lemma WriterRoundTrip(ops: seq<Op>)
    requires Run(Initial(), ops).Some? && MoveAll(ops).Done? && Emittable(MoveAll(ops).v)
    ensures Denotes(Run(Initial(), ops).value.out, Meaning(MoveAll(ops).v))
    ensures NoFiles(MoveAll(ops).v) ==> Denotes(Run(Initial(), ops).value.out, MoveAll(ops).v)
  {
    hide Run, MoveAll, Render, Denotes;
    CallsReflect(ops);
    RoundTrip(MoveAll(ops).v);
  }

  // ---- every document can be built -------------------------------------------------------------------

  /** The calls for a document in tree order. */
  function Ops(v: Json): seq<Op>
    decreases v, 0
  {
    match v
    case Arr(items) => [BeginArray] + OpsItems(items) + [EndArray]
    case Obj(members) => [BeginObject] + OpsMembers(members) + [EndObject]
    case Raw(text) => [Copy(text)]
    case _ => [Scalar(v)]
  }

  function OpsItems(items: seq<Json>): seq<Op>
    decreases items, 1
  {
    if items == [] then [] else Ops(items[0]) + OpsItems(items[1..])
  }

  function OpsMembers(members: seq<Member>): seq<Op>
    decreases members, 1
  {
    if members == [] then []
    else [Key(members[0].key)] + Ops(members[0].value) + OpsMembers(members[1..])
  }

  /** Files are only copied as member values, right after a key. */
  predicate Placed(v: Json)
    decreases v
  {
    match v
    case Arr(items) => forall i | 0 <= i < |items| :: !items[i].Raw? && Placed(items[i])
    case Obj(members) => forall i | 0 <= i < |members| :: Placed(members[i].value)
    case _ => true
  }

  lemma {:induction false} OpsBuild(before: seq<Op>, v: Json)
    requires TakesValue(MoveAll(before)) && Placed(v) && (v.Raw? ==> MoveAll(before).AtKey?)
    ensures MoveAll(before + Ops(v)) == AddValue(MoveAll(before), v)
    decreases v, 0
  {
    hide MoveAll;
    match v
    case Arr(items) => ArrBuild(before, items);
    case Obj(members) => ObjBuild(before, members);
    case Raw(text) => MoveStep(before, Copy(text));
    case _ => MoveStep(before, Scalar(v));
  }

  lemma {:induction false} ArrBuild(before: seq<Op>, items: seq<Json>)
    requires TakesValue(MoveAll(before)) && forall i | 0 <= i < |items| :: !items[i].Raw? && Placed(items[i])
    ensures MoveAll(before + ([BeginArray] + OpsItems(items) + [EndArray])) == AddValue(MoveAll(before), Arr(items))
    decreases items, 2
  {
    hide MoveAll, OpsItems, Placed;
    MoveStep(before, BeginArray);
    OpsItemsBuild(before + [BeginArray], items);
    MoveStep(before + [BeginArray] + OpsItems(items), EndArray);
    assert [] + items == items;
    assert before + ([BeginArray] + OpsItems(items) + [EndArray]) == before + [BeginArray] + OpsItems(items) + [EndArray];
  }

  lemma {:induction false} ObjBuild(before: seq<Op>, members: seq<Member>)
    requires TakesValue(MoveAll(before)) && forall i | 0 <= i < |members| :: Placed(members[i].value)
    ensures MoveAll(before + ([BeginObject] + OpsMembers(members) + [EndObject])) == AddValue(MoveAll(before), Obj(members))
    decreases members, 2
  {
    hide MoveAll, OpsMembers, Placed;
    MoveStep(before, BeginObject);
    OpsMembersBuild(before + [BeginObject], members);
    MoveStep(before + [BeginObject] + OpsMembers(members), EndObject);
    assert [] + members == members;
    assert before + ([BeginObject] + OpsMembers(members) + [EndObject]) == before + [BeginObject] + OpsMembers(members) + [EndObject];
  }

  lemma {:induction false} OpsItemsBuild(before: seq<Op>, items: seq<Json>)
    requires MoveAll(before).InArr?
    requires forall i | 0 <= i < |items| :: !items[i].Raw? && Placed(items[i])
    ensures MoveAll(before + OpsItems(items)) == MoveAll(before).(items := MoveAll(before).items + items)
    decreases items, 1
  {
    hide MoveAll, Ops, Placed;
    if items == [] {
      assert before + [] == before;
    } else {
      OpsBuild(before, items[0]);
      OpsItemsBuild(before + Ops(items[0]), items[1..]);
      assert before + OpsItems(items) == before + Ops(items[0]) + OpsItems(items[1..]);
    }
  }

  lemma {:induction false} OpsMembersBuild(before: seq<Op>, members: seq<Member>)
    requires MoveAll(before).InObj?
    requires forall i | 0 <= i < |members| :: Placed(members[i].value)
    ensures MoveAll(before + OpsMembers(members)) == AddMembers(MoveAll(before), members)
    decreases members, 1
  {
    hide MoveAll, Ops, Placed;
    if members == [] {
      assert before + [] == before;
    } else {
      var m := members[0];
      MoveStep(before, Key(m.key));
      OpsBuild(before + [Key(m.key)], m.value);
      OpsMembersBuild(before + [Key(m.key)] + Ops(m.value), members[1..]);
      assert before + OpsMembers(members) == before + [Key(m.key)] + Ops(m.value) + OpsMembers(members[1..]);
      assert [m] + members[1..] == members;
    }
  }

  // ---- how deep a document is -----------------------------------------------------------------------

  /** The longest chain of values, each inside the one before. */
  function Height(v: Json): (h: nat)
    ensures h > 0
    decreases v, 0
  {
    match v
    case Arr(items) => 1 + ItemsHeight(items)
    case Obj(members) => 1 + MembersHeight(members)
    case _ => 1
  }

  function Max(a: nat, b: nat): nat {
    if a < b then b else a
  }

  function ItemsHeight(items: seq<Json>): nat
    decreases items, 1
  {
    if items == [] then 0 else Max(Height(items[0]), ItemsHeight(items[1..]))
  }

  function MembersHeight(members: seq<Member>): nat
    decreases members, 1
  {
    if members == [] then 0 else Max(Height(members[0].value), MembersHeight(members[1..]))
  }

  /** Some call writes at a depth above 31 when the calls begin at a depth. */
  predicate TooDeepFrom(depth: nat, ops: seq<Op>)
    decreases |ops|
  {
    ops != [] && ((!IsEnd(ops[0]) && depth >= LEVELS) || TooDeepFrom(DepthAfter(depth, ops[..1]), ops[1..]))
  }

  lemma {:induction false} DepthOfJoin(depth: nat, a: seq<Op>, b: seq<Op>)
    ensures DepthAfter(depth, a + b) == DepthAfter(DepthAfter(depth, a), b)
    decreases |b|
  {
    if b == [] {
      assert a + b == a;
    } else {
      assert (a + b)[..|a + b| - 1] == a + b[..|b| - 1];
      DepthOfJoin(depth, a, b[..|b| - 1]);
    }
  }

  lemma {:induction false} TooDeepJoin(depth: nat, a: seq<Op>, b: seq<Op>)
    ensures TooDeepFrom(depth, a + b) <==> TooDeepFrom(depth, a) || TooDeepFrom(DepthAfter(depth, a), b)
    decreases |a|
  {
    if a == [] {
      assert a + b == b;
    } else {
      assert (a + b)[1..] == a[1..] + b && (a + b)[..1] == a[..1];
      TooDeepJoin(DepthAfter(depth, a[..1]), a[1..], b);
      DepthOfJoin(depth, a[..1], a[1..]);
      assert a == a[..1] + a[1..];
    }
  }

  lemma {:induction false} TooDeepIs(ops: seq<Op>)
    ensures TooDeepFrom(0, ops) <==> WritesTooDeep(ops)
    decreases |ops|
  {
    if ops != [] {
      var init, op := ops[..|ops| - 1], ops[|ops| - 1];
      assert init + [op] == ops;
      TooDeepIs(init);
      TooDeepJoin(0, init, [op]);
      TooDeepStep(init, op);
      OneCall(DepthAfter(0, init), op);
    }
  }

  lemma OneCall(depth: nat, op: Op)
    ensures TooDeepFrom(depth, [op]) <==> !IsEnd(op) && depth >= LEVELS
    ensures DepthAfter(depth, [op]) ==
      if op.BeginObject? || op.BeginArray? then depth + 1 else if IsEnd(op) && depth > 0 then depth - 1 else depth
  {
    assert [op][1..] == [] && [op][..0] == [];
  }

  lemma {:induction false} ValueDepth(depth: nat, v: Json)
    ensures DepthAfter(depth, Ops(v)) == depth
    ensures TooDeepFrom(depth, Ops(v)) <==> depth + Height(v) > LEVELS
    decreases v, 0
  {
    hide TooDeepFrom, DepthAfter;
    match v
    case Arr(items) =>
      ItemsDepth(depth + 1, items);
      BracketsDepth(depth, BeginArray, OpsItems(items), EndArray);
    case Obj(members) =>
      MembersDepth(depth + 1, members);
      BracketsDepth(depth, BeginObject, OpsMembers(members), EndObject);
    case Raw(text) => OneCall(depth, Copy(text));
    case _ => OneCall(depth, Scalar(v));
  }

  lemma BracketsDepth(depth: nat, open: Op, inner: seq<Op>, close: Op)
    requires (open.BeginArray? || open.BeginObject?) && IsEnd(close)
    requires DepthAfter(depth + 1, inner) == depth + 1
    ensures DepthAfter(depth, [open] + inner + [close]) == depth
    ensures TooDeepFrom(depth, [open] + inner + [close]) <==> depth >= LEVELS || TooDeepFrom(depth + 1, inner)
  {
    hide TooDeepFrom, DepthAfter;
    DepthOfJoin(depth, [open], inner);
    DepthOfJoin(depth, [open] + inner, [close]);
    TooDeepJoin(depth, [open], inner);
    TooDeepJoin(depth, [open] + inner, [close]);
    OneCall(depth, open);
    OneCall(depth + 1, close);
  }

  lemma {:induction false} ItemsDepth(depth: nat, items: seq<Json>)
    ensures DepthAfter(depth, OpsItems(items)) == depth
    ensures TooDeepFrom(depth, OpsItems(items)) <==> items != [] && depth + ItemsHeight(items) > LEVELS
    decreases items, 1
  {
    if items != [] {
      hide TooDeepFrom, DepthAfter, Ops, Height;
      ValueDepth(depth, items[0]);
      ItemsDepth(depth, items[1..]);
      DepthOfJoin(depth, Ops(items[0]), OpsItems(items[1..]));
      TooDeepJoin(depth, Ops(items[0]), OpsItems(items[1..]));
    }
  }

  lemma {:induction false} MembersDepth(depth: nat, members: seq<Member>)
    ensures DepthAfter(depth, OpsMembers(members)) == depth
    ensures TooDeepFrom(depth, OpsMembers(members)) <==> members != [] && depth + MembersHeight(members) > LEVELS
    decreases members, 1
  {
    if members != [] {
      hide TooDeepFrom, DepthAfter, Ops, Height;
      var key, value, rest := [Key(members[0].key)], Ops(members[0].value), OpsMembers(members[1..]);
      OneCall(depth, key[0]);
      ValueDepth(depth, members[0].value);
      MembersDepth(depth, members[1..]);
      DepthOfJoin(depth, key, value);
      TooDeepJoin(depth, key, value);
      DepthOfJoin(depth, key + value, rest);
      TooDeepJoin(depth, key + value, rest);
    }
  }

  /** In tree order a document stays within the comma flags exactly if its height is at most 32. */
  lemma HeightIsBound(v: Json)
    ensures !WritesTooDeep(Ops(v)) <==> Height(v) <= LEVELS
  {
    hide TooDeepFrom, WritesTooDeep, Ops, Height, DepthAfter;
    ValueDepth(0, v);
    TooDeepIs(Ops(v));
  }

  /**
   Driving a fresh writer through any document of height at most 32 writes text that denotes it; a
   higher one makes it touch a comma flag that does not exist.
   */
  lemma DocumentRoundTrip(v: Json)
    requires Placed(v) && Emittable(v) && !v.Raw?
    ensures Run(Initial(), Ops(v)).Some? <==> Height(v) <= LEVELS
    ensures Height(v) <= LEVELS ==> Denotes(Run(Initial(), Ops(v)).value.out, Meaning(v))
    ensures Height(v) <= LEVELS && NoFiles(v) ==> Denotes(Run(Initial(), Ops(v)).value.out, v)
  {
    hide Run, Ops, Placed, Denotes, WritesTooDeep, Height;
    HeightIsBound(v);
    BoundsExact(Ops(v));
    if Height(v) <= LEVELS {
      OpsBuild([], v);
      assert [] + Ops(v) == Ops(v);
      WriterRoundTrip(Ops(v));
    }
  }

  // ---- copied files --------------------------------------------------------------------------------

  /** The flags of the open levels follow from the context. */
  lemma {:induction false} FlagsDetermined(comma: seq<bool>, comma': seq<bool>, c: Context, i: nat)
    requires |comma| == |comma'| && FlagsMatch(comma, c) && FlagsMatch(comma', c)
    requires 1 <= i <= Depth(c) && i < |comma|
    ensures comma[i] == comma'[i]
  {
    if i < Depth(c) {
      FlagsDetermined(comma, comma', c.parent, i);
    }
  }

  /**
   After a key, copying any file leaves depth and open levels' flags as writing any other value
   would, such as the built-in environment.
   */
  lemma CopyLikeValue(st: State, c: Context, text: string, st': State, v: Json)
    requires Reflects(st, c) && c.AtKey? && st.depth < LEVELS
    requires Reflects(st', AddValue(c, v))
    ensures Apply(st, Copy(text)).depth == st'.depth
    ensures forall i | 1 <= i <= st'.depth :: Apply(st, Copy(text)).comma[i] == st'.comma[i]
  {
    hide TextSoFar, Lead, Render;
    var st1 := Apply(st, Copy(text));
    CallReflects(st, c, Copy(text));
    forall i | 1 <= i <= st'.depth ensures st1.comma[i] == st'.comma[i] {
      if i < st'.depth {
        FlagsDetermined(st1.comma, st'.comma, c.parent, i);
      }
    }
  }
}

/**
 The calls of the streaming JSON writer and what each does to its state: an output stream, a
 nesting depth and one comma flag per level. The class `JsonWriter.Writer` is proved against this.
 */
module JsonCalls {
  import opened Decimal
  import opened JsonTree

  /** Levels for which the writer has a comma flag. */
  const LEVELS: nat := 32

  datatype Op =
    | BeginObject
    | EndObject
    | BeginArray
    | EndArray
    | Key(key: string)
    | Scalar(v: Json)
    | Copy(text: string)

  datatype State = State(out: string, depth: nat, comma: seq<bool>)

  datatype Option<T> = None | Some(value: T)

  predicate IsEnd(op: Op) {
    op.EndObject? || op.EndArray?
  }

  /** The call touches only existing comma flags. */
  predicate Fits(st: State, op: Op) {
    |st.comma| == LEVELS && st.depth < if IsEnd(op) then LEVELS + 1 else LEVELS
  }

  /** The comma a value or key is preceded by. */
  function Comma(st: State): string
    requires st.depth < |st.comma|
  {
    if st.depth > 0 && st.comma[st.depth] then "," else ""
  }

  function Mark(st: State): State
    requires st.depth < |st.comma|
  {
    if st.depth > 0 then st.(comma := st.comma[st.depth := true]) else st
  }

  function Open(st: State, bracket: char): State
    requires st.depth < |st.comma|
  {
    State(st.out + Comma(st) + [bracket], st.depth + 1,
          if st.depth + 1 < |st.comma| then st.comma[st.depth + 1 := false] else st.comma)
  }

  function Close(st: State, bracket: char): State
    requires st.depth <= |st.comma| && 0 < |st.comma|
  {
    Mark(State(st.out + [bracket], if st.depth > 0 then st.depth - 1 else 0, st.comma))
  }

  /** The writer after one call. */
  function Apply(st: State, op: Op): State
    requires Fits(st, op)
  {
    match op
    case BeginObject => Open(st, '{')
    case EndObject => Close(st, '}')
    case BeginArray => Open(st, '[')
    case EndArray => Close(st, ']')
    case Key(key) =>
      State(st.out + Comma(st) + Quote(key) + ":", st.depth,
            if st.depth > 0 then st.comma[st.depth := false] else st.comma)
    case Scalar(v) => Mark(st.(out := st.out + Comma(st) + Render(v)))
    case Copy(text) => Mark(st.(out := st.out + text))
  }

  /** `nx_json_init`. */
  function Initial(): State {
    State("", 0, seq(LEVELS, i => false))
  }

  // ---- sequences of calls --------------------------------------------------------------------------

  /** The writer after a sequence of calls; `None` if some call touches a flag that does not exist. */
  function Run(st: State, ops: seq<Op>): Option<State>
    decreases |ops|
  {
    if ops == [] then Some(st)
    else if !Fits(st, ops[0]) then None
    else Run(Apply(st, ops[0]), ops[1..])
  }

  lemma {:induction false} RunAppend(st: State, a: seq<Op>, b: seq<Op>)
    ensures Run(st, a + b) == match Run(st, a) case None => None case Some(m) => Run(m, b)
    decreases |a|
  {
    if a == [] {
      assert a + b == b;
    } else {
      assert (a + b)[1..] == a[1..] + b;
      if Fits(st, a[0]) {
        RunAppend(Apply(st, a[0]), a[1..], b);
      }
    }
  }

  /** Nesting depth after some calls, by counting alone; closing at depth 0 stays there. */
  function DepthAfter(depth: nat, ops: seq<Op>): nat {
    if ops == [] then depth
    else
      var d := DepthAfter(depth, ops[..|ops| - 1]);
      match ops[|ops| - 1]
      case BeginObject => d + 1
      case BeginArray => d + 1
      case EndObject => if d > 0 then d - 1 else 0
      case EndArray => if d > 0 then d - 1 else 0
      case _ => d
  }

  /** Some key, value or container start is written at a depth above 31. */
  ghost predicate WritesTooDeep(ops: seq<Op>) {
    exists k :: 0 <= k < |ops| && !IsEnd(ops[k]) && DepthAfter(0, ops[..k]) >= LEVELS
  }

  /** One more call goes too deep only if it is a write at the depth reached. */
  lemma TooDeepStep(ops: seq<Op>, op: Op)
    ensures WritesTooDeep(ops + [op]) <==>
            WritesTooDeep(ops) || (!IsEnd(op) && DepthAfter(0, ops) >= LEVELS)
  {
    var all := ops + [op];
    assert all[..|ops|] == ops && all[|ops|] == op;
    forall k | 0 <= k < |ops| ensures all[..k] == ops[..k] && all[k] == ops[k] {}
    if WritesTooDeep(ops) {
      var k :| 0 <= k < |ops| && !IsEnd(ops[k]) && DepthAfter(0, ops[..k]) >= LEVELS;
      assert !IsEnd(all[k]) && DepthAfter(0, all[..k]) >= LEVELS;
    }
  }

  lemma RunStep(st: State, ops: seq<Op>, op: Op)
    ensures Run(st, ops + [op]) ==
            match Run(st, ops) case None => None case Some(m) => if Fits(m, op) then Some(Apply(m, op)) else None
  {
    RunAppend(st, ops, [op]);
    if Run(st, ops).Some? {
      assert [op][1..] == [];
    }
  }

  /**
   For every sequence of calls, well nested or not: all comma flags touched exist exactly when no
   key, value or container start is written at a depth above 31.
   */
  lemma {:induction false} BoundsExact(ops: seq<Op>)
    ensures Run(Initial(), ops).None? <==> WritesTooDeep(ops)
    ensures Run(Initial(), ops).Some? ==>
              var st := Run(Initial(), ops).value;
              |st.comma| == LEVELS && st.depth == DepthAfter(0, ops) && st.depth <= LEVELS
  {
    hide Run, WritesTooDeep;
    if ops != [] {
      var init, op := ops[..|ops| - 1], ops[|ops| - 1];
      BoundsExact(init);
      assert init + [op] == ops;
      RunStep(Initial(), init, op);
      TooDeepStep(init, op);
    } else {
      RunOfNothing();
    }
  }

  lemma RunOfNothing()
    ensures Run(Initial(), []) == Some(Initial()) && !WritesTooDeep([])
  {
  }

  // ---- the document being built ----------------------------------------------------------------------

  /** Where in which document the writer stands; `Broken` once a call did not fit its place. */
  datatype Context =
    | Empty
    | Done(v: Json)
    | InArr(items: seq<Json>, parent: Context)
    | InObj(members: seq<Member>, parent: Context)
    | AtKey(members: seq<Member>, key: string, parent: Context)
    | Broken

  /** A value can start here. */
  predicate TakesValue(c: Context) {
    c.Empty? || c.InArr? || c.AtKey?
  }

  function AddValue(c: Context, v: Json): Context {
    match c
    case Empty => Done(v)
    case InArr(items, parent) => InArr(items + [v], parent)
    case AtKey(members, key, parent) => InObj(members + [Member(key, v)], parent)
    case _ => Broken
  }

  function AddItems(c: Context, items: seq<Json>): Context {
    if c.InArr? then InArr(c.items + items, c.parent) else Broken
  }

  function AddMembers(c: Context, members: seq<Member>): Context {
    if c.InObj? then InObj(c.members + members, c.parent) else Broken
  }

  /** How one call moves on. Files are copied only as member values. */
  function Move(c: Context, op: Op): Context {
    match op
    case BeginObject => if TakesValue(c) then InObj([], c) else Broken
    case BeginArray => if TakesValue(c) then InArr([], c) else Broken
    case EndObject => if c.InObj? then AddValue(c.parent, Obj(c.members)) else Broken
    case EndArray => if c.InArr? then AddValue(c.parent, Arr(c.items)) else Broken
    case Key(key) => if c.InObj? then AtKey(c.members, key, c.parent) else Broken
    case Scalar(v) => AddValue(c, v)
    case Copy(text) => if c.AtKey? then AddValue(c, Raw(text)) else Broken
  }

  function MoveAll(ops: seq<Op>): Context {
    if ops == [] then Empty else Move(MoveAll(ops[..|ops| - 1]), ops[|ops| - 1])
  }

  lemma MoveStep(ops: seq<Op>, op: Op)
    ensures MoveAll(ops + [op]) == Move(MoveAll(ops), op)
  {
    assert (ops + [op])[..|ops|] == ops;
  }
}

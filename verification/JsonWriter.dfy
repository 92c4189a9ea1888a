/**
 The streaming JSON writer itself, with its array of 32 comma flags, proved call by call against
 `JsonCalls`.
 */
module JsonWriter {
  import opened Decimal
  import opened JsonTree
  import opened JsonCalls

  /** A C string pointer; the string itself comes without its terminating NUL. */
  datatype Pointer = NULL | Chars(s: string)

  /** What `emit_escaped` prints for a pointer: nothing for a null pointer. */
  function Pointee(p: Pointer): string {
    match p case NULL => "" case Chars(s) => s
  }

  lemma {:induction false} EscapeSnoc(s: string, c: char)
    ensures Escape(s + [c]) == Escape(s) + EscapeChar(c)
  {
    if s == [] {
      assert (s + [c])[1..] == [];
    } else {
      assert (s + [c])[1..] == s[1..] + [c];
      EscapeSnoc(s[1..], c);
    }
  }

  class Writer {
    var out: string
    var depth: nat
    const needComma: array<bool>
    ghost var calls: seq<Op>  // the calls so far, none of which left the array

    ghost predicate Valid()
      reads this, needComma
    {
      Levels() && Run(Initial(), calls) == Some(Now())
    }

    ghost predicate Levels()
      reads this
    {
      needComma.Length == LEVELS
    }

    function Now(): (st: State)
      reads this, needComma
    {
      State(out, depth, needComma[..])
    }

    /** The document under construction. */
    ghost function At(): Context
      reads this
    {
      MoveAll(calls)
    }

    constructor ()
      ensures Valid() && fresh(needComma)
      ensures Now() == Initial() && calls == [] && depth == 0 && At() == Empty
    {
      out, depth, calls := "", 0, [];
      needComma := new bool[LEVELS](i => false);
      new;
      assert needComma[..] == Initial().comma;
      RunOfNothing();
    }

    /** Notes a call whose effect has just been carried out. */
    ghost method Record(op: Op, before: State)
      requires Levels() && Run(Initial(), calls) == Some(before)
      requires Fits(before, op) && Now() == Apply(before, op)
      modifies this`calls
      ensures Valid() && calls == old(calls) + [op] && At() == Move(old(At()), op)
    {
      hide Run, Apply, MoveAll;
      RunStep(Initial(), calls, op);
      MoveStep(calls, op);
      calls := calls + [op];
    }

    method EmitCommaIfNeeded()
      requires Levels() && depth < LEVELS
      modifies this`out
      ensures Now() == old(Now()).(out := old(out) + Comma(old(Now())))
    {
      if depth > 0 && needComma[depth] {
        out := out + ",";
      }
    }

    method MarkValueWritten()
      requires Levels() && depth < LEVELS
      modifies needComma
      ensures Now() == Mark(old(Now()))
    {
      if depth > 0 {
        needComma[depth] := true;
      }
    }

    method EmitByte(c: char)
      modifies this`out
      ensures out == old(out) + EscapeChar(c)
    {
      match c {
        case '"' => out := out + "\\\"";
        case '\\' => out := out + "\\\\";
        case '\n' => out := out + "\\n";
        case '\r' => out := out + "\\r";
        case '\t' => out := out + "\\t";
        case _ =>
          if c < ' ' {
            out := out + "\\u00" + [HexDigit(c as int / 16), HexDigit(c as int % 16)];
          } else {
            out := out + [c];
          }
      }
    }

    method EmitEscaped(p: Pointer)
      modifies this`out
      ensures out == old(out) + Escape(Pointee(p))
    {
      hide EscapeChar;
      var s := Pointee(p);
      var i := 0;
      while i < |s|
        invariant i <= |s| && out == old(out) + Escape(s[..i])
      {
        EmitByte(s[i]);
        EscapeSnoc(s[..i], s[i]);
        assert s[..i + 1] == s[..i] + [s[i]];
        i := i + 1;
      }
      assert s[..|s|] == s;
    }

    /** A string between quotes. */
    method EmitQuoted(p: Pointer)
      modifies this`out
      ensures out == old(out) + Quote(Pointee(p))
    {
      hide Escape;
      out := out + "\"";
      EmitEscaped(p);
      out := out + "\"";
    }

    method Begin(bracket: char)
      requires Levels() && depth < LEVELS
      modifies this`out, this`depth, needComma
      ensures Now() == Open(old(Now()), bracket)
    {
      EmitCommaIfNeeded();
      out := out + [bracket];
      depth := depth + 1;
      if depth < LEVELS {
        needComma[depth] := false;
      }
    }

    method End(bracket: char)
      requires Levels() && depth <= LEVELS
      modifies this`out, this`depth, needComma
      ensures Now() == Close(old(Now()), bracket)
    {
      out := out + [bracket];
      if depth > 0 {
        depth := depth - 1;
      }
      MarkValueWritten();
    }

    method BeginObject()
      requires Valid() && depth < LEVELS
      modifies this, needComma
      ensures Valid() && Now() == Apply(old(Now()), Op.BeginObject)
      ensures depth == old(depth) + 1 && At() == Move(old(At()), Op.BeginObject)
    {
      ghost var before := Now();
      Begin('{');
      Record(Op.BeginObject, before);
    }

    method EndObject()
      requires Valid() && depth <= LEVELS
      modifies this, needComma
      ensures Valid() && Now() == Apply(old(Now()), Op.EndObject)
      ensures depth == (if old(depth) > 0 then old(depth) - 1 else 0) && At() == Move(old(At()), Op.EndObject)
    {
      ghost var before := Now();
      End('}');
      Record(Op.EndObject, before);
    }

    method BeginArray()
      requires Valid() && depth < LEVELS
      modifies this, needComma
      ensures Valid() && Now() == Apply(old(Now()), Op.BeginArray)
      ensures depth == old(depth) + 1 && At() == Move(old(At()), Op.BeginArray)
    {
      ghost var before := Now();
      Begin('[');
      Record(Op.BeginArray, before);
    }

    method EndArray()
      requires Valid() && depth <= LEVELS
      modifies this, needComma
      ensures Valid() && Now() == Apply(old(Now()), Op.EndArray)
      ensures depth == (if old(depth) > 0 then old(depth) - 1 else 0) && At() == Move(old(At()), Op.EndArray)
    {
      ghost var before := Now();
      End(']');
      Record(Op.EndArray, before);
    }

    method Key(key: Pointer)
      requires Valid() && depth < LEVELS
      modifies this, needComma
      ensures Valid() && Now() == Apply(old(Now()), Op.Key(Pointee(key)))
      ensures depth == old(depth) && At() == Move(old(At()), Op.Key(Pointee(key)))
    {
      ghost var before := Now();
      hide Quote;
      EmitCommaIfNeeded();
      EmitQuoted(key);
      out := out + ":";
      if depth > 0 {
        needComma[depth] := false;
      }
      Record(Op.Key(Pointee(key)), before);
    }

    method String(val: Pointer)
      requires Valid() && depth < LEVELS
      modifies this, needComma
      ensures Valid() && Now() == Apply(old(Now()), Scalar(Str(Pointee(val))))
      ensures depth == old(depth) && At() == Move(old(At()), Scalar(Str(Pointee(val))))
    {
      ghost var before := Now();
      hide Quote;
      EmitCommaIfNeeded();
      EmitQuoted(val);
      MarkValueWritten();
      Record(Scalar(Str(Pointee(val))), before);
    }

    /** `%lld` and `%llu`: every signed or unsigned 64-bit number, and any other. */
    method Number(val: int)
      requires Valid() && depth < LEVELS
      modifies this, needComma
      ensures Valid() && Now() == Apply(old(Now()), Scalar(Int(val)))
      ensures depth == old(depth) && At() == Move(old(At()), Scalar(Int(val)))
    {
      ghost var before := Now();
      EmitCommaIfNeeded();
      out := out + SignedText(val);
      MarkValueWritten();
      Record(Scalar(Int(val)), before);
    }

    method Boolean(val: bool)
      requires Valid() && depth < LEVELS
      modifies this, needComma
      ensures Valid() && Now() == Apply(old(Now()), Scalar(Bool(val)))
      ensures depth == old(depth) && At() == Move(old(At()), Scalar(Bool(val)))
    {
      ghost var before := Now();
      EmitCommaIfNeeded();
      out := out + if val then "true" else "false";
      MarkValueWritten();
      Record(Scalar(Bool(val)), before);
    }

    method Nothing()
      requires Valid() && depth < LEVELS
      modifies this, needComma
      ensures Valid() && Now() == Apply(old(Now()), Scalar(Null))
      ensures depth == old(depth) && At() == Move(old(At()), Scalar(Null))
    {
      ghost var before := Now();
      EmitCommaIfNeeded();
      out := out + "null";
      MarkValueWritten();
      Record(Scalar(Null), before);
    }

    /** Copies a file byte by byte; the key before it has already suppressed the comma. */
    method CopyFile(text: string)
      requires Valid() && depth < LEVELS
      modifies this, needComma
      ensures Valid() && Now() == Apply(old(Now()), Copy(text))
      ensures depth == old(depth) && At() == Move(old(At()), Copy(text))
    {
      ghost var before := Now();
      var k := 0;
      while k < |text|
        invariant k <= |text| && out == old(out) + text[..k]
        modifies this`out
      {
        out := out + [text[k]];
        k := k + 1;
      }
      assert text[..|text|] == text;
      MarkValueWritten();
      Record(Copy(text), before);
    }
  }
}

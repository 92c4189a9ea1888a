/**
 JSON documents as the result emitter writes them. A `char` stands for one byte, and nothing
 below depends on its upper half, so strings are compared byte by byte.
 */
module JsonTree {
  import opened Decimal

  /** `Raw` is text copied from a file; `Real` is a number with a fraction or an exponent. */
  datatype Json =
    | Null
    | Bool(b: bool)
    | Int(n: int)
    | Real(lexeme: string)
    | Str(s: string)
    | Arr(items: seq<Json>)
    | Obj(members: seq<Member>)
    | Raw(text: string)

  datatype Member = Member(key: string, value: Json)

  function HexDigit(d: nat): char
    requires d < 16
  {
    "0123456789abcdef"[d]
  }

  function EscapeChar(c: char): (e: string)
    ensures |e| > 0
  {
    if c == '"' then "\\\""
    else if c == '\\' then "\\\\"
    else if c == '\n' then "\\n"
    else if c == '\r' then "\\r"
    else if c == '\t' then "\\t"
    else if c < ' ' then "\\u00" + [HexDigit(c as int / 16), HexDigit(c as int % 16)]
    else [c]
  }

  function Escape(s: string): string {
    if s == [] then "" else EscapeChar(s[0]) + Escape(s[1..])
  }

  function Quote(s: string): string {
    "\"" + Escape(s) + "\""
  }

  /** The text of a document, without white space except inside copied files. */
  function Render(v: Json): string
    decreases v, 0
  {
    match v
    case Null => "null"
    case Bool(b) => if b then "true" else "false"
    case Int(n) => SignedText(n)
    case Real(lexeme) => lexeme
    case Str(s) => Quote(s)
    case Arr(items) => "[" + RenderItems(items, true) + "]"
    case Obj(members) => "{" + RenderMembers(members, true) + "}"
    case Raw(text) => text
  }

  function Separator(first: bool): string {
    if first then "" else ","
  }

  function RenderItems(items: seq<Json>, first: bool): string
    decreases items, 1
  {
    if items == [] then ""
    else Separator(first) + Render(items[0]) + RenderItems(items[1..], false)
  }

  function RenderMember(m: Member): string
    decreases m, 0
  {
    Quote(m.key) + ":" + Render(m.value)
  }

  function RenderMembers(members: seq<Member>, first: bool): string
    decreases members, 1
  {
    if members == [] then ""
    else Separator(first) + RenderMember(members[0]) + RenderMembers(members[1..], false)
  }
}

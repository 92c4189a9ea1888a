/**
 A parser for the JSON grammar of RFC 8259: section 2 (white space and values), sections 4 and 5
 (objects and arrays), section 6 (numbers) and section 7 (strings). Strings are bytes: an escape
 `\uXXXX` stands for the UTF-8 bytes of that code point; halves of surrogate pairs are rejected.
 */
module JsonParser {
  import opened Decimal
  import opened JsonTree

  datatype Parsed<T> = Fail | Ok(value: T, rest: string)

  predicate IsSpace(c: char) {
    c == ' ' || c == '\t' || c == '\n' || c == '\r'
  }

  function SkipSpace(s: string): (r: string)
    ensures |r| <= |s|
  {
    if s != [] && IsSpace(s[0]) then SkipSpace(s[1..]) else s
  }

  // ---- strings -----------------------------------------------------------------------------------

  predicate IsHex(c: char) {
    IsDigit(c) || 'a' <= c <= 'f' || 'A' <= c <= 'F'
  }

  function HexValue(c: char): (n: nat)
    requires IsHex(c)
    ensures n < 16
  {
    if IsDigit(c) then DigitValue(c)
    else if 'a' <= c <= 'f' then c as int - 'a' as int + 10
    else c as int - 'A' as int + 10
  }

  /** The bytes of a code point of the basic plane. */
  function Utf8(code: nat): string
    requires code < 0x1_0000
  {
    if code < 0x80 then [code as char]
    else if code < 0x800 then [(0xC0 + code / 0x40) as char, (0x80 + code % 0x40) as char]
    else [(0xE0 + code / 0x1000) as char, (0x80 + code / 0x40 % 0x40) as char, (0x80 + code % 0x40) as char]
  }

  /** One character or escape sequence of a string. */
  function ParseChar(s: string): (r: Parsed<string>)
    ensures r.Ok? ==> |r.rest| < |s|
  {
    if s == [] || s[0] < ' ' || s[0] == '"' then Fail
    else if s[0] != '\\' then Ok([s[0]], s[1..])
    else if |s| < 2 then Fail
    else
      match s[1]
      case '"' => Ok("\"", s[2..])
      case '\\' => Ok("\\", s[2..])
      case '/' => Ok("/", s[2..])
      case 'b' => Ok([8 as char], s[2..])
      case 'f' => Ok([12 as char], s[2..])
      case 'n' => Ok("\n", s[2..])
      case 'r' => Ok("\r", s[2..])
      case 't' => Ok("\t", s[2..])
      case 'u' =>
        if |s| < 6 || !IsHex(s[2]) || !IsHex(s[3]) || !IsHex(s[4]) || !IsHex(s[5]) then Fail
        else
          var code := 0x1000 * HexValue(s[2]) + 0x100 * HexValue(s[3]) + 0x10 * HexValue(s[4]) + HexValue(s[5]);
          if 0xD800 <= code < 0xE000 then Fail else Ok(Utf8(code), s[6..])
      case _ => Fail
  }

  /** The characters of a string up to and including the closing quote. */
  function ParseChars(s: string): (r: Parsed<string>)
    ensures r.Ok? ==> |r.rest| < |s|
    decreases |s|
  {
    if s != [] && s[0] == '"' then Ok("", s[1..])
    else
      var c := ParseChar(s);
      if c.Fail? then Fail
      else
        var cs := ParseChars(c.rest);
        if cs.Fail? then Fail else Ok(c.value + cs.value, cs.rest)
  }

  function ParseString(s: string): (r: Parsed<string>)
    ensures r.Ok? ==> |r.rest| < |s|
  {
    if s == [] || s[0] != '"' then Fail else ParseChars(s[1..])
  }

  // ---- numbers -----------------------------------------------------------------------------------

  /** Number of digits a text starts with. */
  function Digits(s: string): (k: nat)
    ensures k <= |s| && AllDigits(s[..k])
    ensures k < |s| ==> !IsDigit(s[k])
  {
    if s != [] && IsDigit(s[0]) then
      var k := Digits(s[1..]);
      assert s[..1 + k] == [s[0]] + s[1..][..k];
      1 + k
    else 0
  }

  /** Length of an optional fraction, `None` if the point has no digit after it. */
  function Fraction(s: string): (k: int)
    ensures -1 <= k <= |s|
  {
    if s == [] || s[0] != '.' then 0
    else if Digits(s[1..]) == 0 then -1
    else 1 + Digits(s[1..])
  }

  function Exponent(s: string): (k: int)
    ensures -1 <= k <= |s|
  {
    if s == [] || (s[0] != 'e' && s[0] != 'E') then 0
    else
      var sign := if |s| > 1 && (s[1] == '+' || s[1] == '-') then 1 else 0;
      if Digits(s[1 + sign..]) == 0 then -1 else 1 + sign + Digits(s[1 + sign..])
  }

  /** An unsigned number: a numeral without leading zeros, then fraction and exponent. */
  function ParseUnsigned(s: string): (r: Parsed<Json>)
    ensures r.Ok? ==> |r.rest| < |s|
    ensures r.Ok? ==> r.value.Int? || r.value.Real?
  {
    var k := Digits(s);
    if k == 0 || (k > 1 && s[0] == '0') then Fail
    else
      var f := FractionAt(s, k);
      if f < 0 then Fail
      else
        var e := ExponentAt(s, k + f);
        if e < 0 then Fail else Number(s, k, f + e)
  }

  function FractionAt(s: string, k: nat): (f: int)
    requires k <= |s|
    ensures f <= |s| - k
  {
    Fraction(s[k..])
  }

  function ExponentAt(s: string, k: nat): (e: int)
    requires k <= |s|
    ensures e <= |s| - k
  {
    Exponent(s[k..])
  }

  /** A number with so many digits and so many characters more. */
  function Number(s: string, k: nat, more: nat): (r: Parsed<Json>)
    requires 0 < k && k + more <= |s| && AllDigits(s[..k])
    ensures r.Ok? && |r.rest| < |s| && (r.value.Int? || r.value.Real?)
  {
    if more == 0 then Ok(Int(Value(s[..k])), s[k..]) else Ok(Real(s[..k + more]), s[k + more..])
  }

  function Negate(v: Json): Json {
    match v
    case Int(n) => Int(-n)
    case Real(lexeme) => Real("-" + lexeme)
    case _ => v
  }

  function ParseNumber(s: string): (r: Parsed<Json>)
    ensures r.Ok? ==> |r.rest| < |s|
  {
    if s != [] && s[0] == '-' then
      var u := ParseUnsigned(s[1..]);
      if u.Fail? then Fail else Ok(Negate(u.value), u.rest)
    else ParseUnsigned(s)
  }

  // ---- values ------------------------------------------------------------------------------------

  function ParseWord(s: string, word: string, v: Json): (r: Parsed<Json>)
    requires word != []
    ensures r.Ok? ==> |r.rest| < |s|
  {
    if word <= s then Ok(v, s[|word|..]) else Fail
  }

  function ParseValue(s: string): (r: Parsed<Json>)
    ensures r.Ok? ==> |r.rest| < |s|
    decreases |s|, 0
  {
    if s == [] then Fail
    else if s[0] == '{' then
      var t := SkipSpace(s[1..]);
      if t != [] && t[0] == '}' then Ok(Obj([]), t[1..])
      else
        var ms := ParseMembers(t);
        if ms.Fail? then Fail else Ok(Obj(ms.value), ms.rest)
    else if s[0] == '[' then
      var t := SkipSpace(s[1..]);
      if t != [] && t[0] == ']' then Ok(Arr([]), t[1..])
      else
        var vs := ParseItems(t);
        if vs.Fail? then Fail else Ok(Arr(vs.value), vs.rest)
    else if s[0] == '"' then
      var str := ParseString(s);
      if str.Fail? then Fail else Ok(Str(str.value), str.rest)
    else if s[0] == 't' then ParseWord(s, "true", Bool(true))
    else if s[0] == 'f' then ParseWord(s, "false", Bool(false))
    else if s[0] == 'n' then ParseWord(s, "null", Null)
    else ParseNumber(s)
  }

  /** A value with the white space around it. */
  function ParseElement(s: string): (r: Parsed<Json>)
    ensures r.Ok? ==> |r.rest| < |s|
    decreases |s|, 1
  {
    var v := ParseValue(SkipSpace(s));
    if v.Fail? then Fail else Ok(v.value, SkipSpace(v.rest))
  }

  /** One or more values up to and including the closing bracket. */
  function ParseItems(s: string): (r: Parsed<seq<Json>>)
    ensures r.Ok? ==> |r.rest| < |s|
    decreases |s|, 2
  {
    var v := ParseElement(s);
    if v.Fail? || v.rest == [] then Fail
    else if v.rest[0] == ']' then Ok([v.value], v.rest[1..])
    else if v.rest[0] != ',' then Fail
    else
      var vs := ParseItems(v.rest[1..]);
      if vs.Fail? then Fail else Ok([v.value] + vs.value, vs.rest)
  }

  function ParseMember(s: string): (r: Parsed<Member>)
    ensures r.Ok? ==> |r.rest| < |s|
    decreases |s|, 2
  {
    var k := ParseString(SkipSpace(s));
    if k.Fail? then Fail
    else
      var t := SkipSpace(k.rest);
      if t == [] || t[0] != ':' then Fail
      else
        var v := ParseElement(t[1..]);
        if v.Fail? then Fail else Ok(Member(k.value, v.value), v.rest)
  }

  /** One or more members up to and including the closing brace. */
  function ParseMembers(s: string): (r: Parsed<seq<Member>>)
    ensures r.Ok? ==> |r.rest| < |s|
    decreases |s|, 3
  {
    var m := ParseMember(s);
    if m.Fail? || m.rest == [] then Fail
    else if m.rest[0] == '}' then Ok([m.value], m.rest[1..])
    else if m.rest[0] != ',' then Fail
    else
      var ms := ParseMembers(m.rest[1..]);
      if ms.Fail? then Fail else Ok([m.value] + ms.value, ms.rest)
  }

  /** A whole JSON text: exactly one value and white space. */
  predicate Denotes(s: string, v: Json) {
    ParseElement(s) == Ok(v, "")
  }
}

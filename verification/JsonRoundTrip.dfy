/**
 Reading back what the emitter writes: parsing the text of a document gives the document, whatever
 follows it, and a file that holds one JSON value can be copied into the text unchanged.
 */
module JsonRoundTrip {
  import opened Decimal
  import opened JsonTree
  import opened JsonParser

  /** What can follow a value inside a document: nothing, or the byte that ends the value. */
  predicate Stop(x: string) {
    x == [] || x[0] == ',' || x[0] == ']' || x[0] == '}'
  }

  /** What can follow the bytes of a value, such as a number. */
  predicate SpaceOrStop(x: string) {
    Stop(x) || IsSpace(x[0])
  }

  // ---- parsing does not look past the end of a value ------------------------------------------------

  lemma {:induction false} SkipSpaceLocal(s: string, x: string)
    requires SkipSpace(s) != [] || x == [] || !IsSpace(x[0])
    ensures SkipSpace(s + x) == SkipSpace(s) + x
  {
    if s != [] && IsSpace(s[0]) {
      SkipSpaceLocal(s[1..], x);
      assert (s + x)[1..] == s[1..] + x;
    } else if s == [] {
      assert s + x == x;
    }
  }

  lemma {:induction false} SkipSpaceTwice(s: string)
    ensures SkipSpace(SkipSpace(s)) == SkipSpace(s)
    ensures SkipSpace(s) != [] ==> !IsSpace(SkipSpace(s)[0])
  {
    if s != [] && IsSpace(s[0]) {
      SkipSpaceTwice(s[1..]);
    }
  }

  lemma DropLocal(s: string, x: string, k: nat)
    requires k <= |s|
    ensures (s + x)[k..] == s[k..] + x
    ensures (s + x)[..k] == s[..k]
  {
  }

  lemma ParseCharLocal(s: string, x: string)
    requires ParseChar(s).Ok?
    ensures ParseChar(s + x) == Ok(ParseChar(s).value, ParseChar(s).rest + x)
  {
    DropLocal(s, x, 1);
    if |s| >= 2 {
      DropLocal(s, x, 2);
    }
    if |s| >= 6 {
      DropLocal(s, x, 6);
    }
  }

  lemma {:induction false} ParseCharsLocal(s: string, x: string)
    requires ParseChars(s).Ok?
    ensures ParseChars(s + x) == Ok(ParseChars(s).value, ParseChars(s).rest + x)
    decreases |s|
  {
    if s != [] && s[0] == '"' {
      DropLocal(s, x, 1);
    } else {
      ParseCharLocal(s, x);
      ParseCharsLocal(ParseChar(s).rest, x);
    }
  }

  lemma ParseStringLocal(s: string, x: string)
    requires ParseString(s).Ok?
    ensures ParseString(s + x) == Ok(ParseString(s).value, ParseString(s).rest + x)
  {
    DropLocal(s, x, 1);
    ParseCharsLocal(s[1..], x);
  }

  lemma {:induction false} DigitsLocal(s: string, x: string)
    requires Digits(s) < |s| || x == [] || !IsDigit(x[0])
    ensures Digits(s + x) == Digits(s)
  {
    if s == [] {
      assert s + x == x;
    } else {
      DropLocal(s, x, 1);
      if IsDigit(s[0]) {
        DigitsLocal(s[1..], x);
      }
    }
  }

  lemma FractionLocal(s: string, x: string)
    requires SpaceOrStop(x) && Fraction(s) >= 0
    ensures Fraction(s + x) == Fraction(s)
  {
    if s == [] {
      assert s + x == x;
    } else {
      DropLocal(s, x, 1);
      DigitsLocal(s[1..], x);
    }
  }

  lemma ExponentLocal(s: string, x: string)
    requires SpaceOrStop(x) && Exponent(s) >= 0
    ensures Exponent(s + x) == Exponent(s)
  {
    if s == [] {
      assert s + x == x;
    } else if s[0] == 'e' || s[0] == 'E' {
      var sign := if |s| > 1 && (s[1] == '+' || s[1] == '-') then 1 else 0;
      DropLocal(s, x, 1 + sign);
      DigitsLocal(s[1 + sign..], x);
    }
  }

  lemma FractionAtLocal(s: string, x: string, k: nat)
    requires k <= |s| && SpaceOrStop(x) && FractionAt(s, k) >= 0
    ensures FractionAt(s + x, k) == FractionAt(s, k)
  {
    hide Fraction, SpaceOrStop;
    DropLocal(s, x, k);
    FractionLocal(s[k..], x);
  }

  lemma ExponentAtLocal(s: string, x: string, k: nat)
    requires k <= |s| && SpaceOrStop(x) && ExponentAt(s, k) >= 0
    ensures ExponentAt(s + x, k) == ExponentAt(s, k)
  {
    hide Exponent, SpaceOrStop;
    DropLocal(s, x, k);
    ExponentLocal(s[k..], x);
  }

  lemma NumberLocal(s: string, x: string, k: nat, more: nat)
    requires 0 < k && k + more <= |s| && AllDigits(s[..k])
    ensures AllDigits((s + x)[..k])
    ensures Number(s + x, k, more) == Ok(Number(s, k, more).value, Number(s, k, more).rest + x)
  {
    hide Value;
    DropLocal(s, x, k);
    DropLocal(s, x, k + more);
  }

  predicate LeadingZero(s: string, k: nat)
    requires k <= |s|
  {
    k > 1 && s[0] == '0'
  }

  lemma LeadingZeroLocal(s: string, x: string, k: nat)
    requires k <= |s|
    ensures LeadingZero(s + x, k) == LeadingZero(s, k)
  {
  }

  lemma NumberParts(s: string)
    requires ParseUnsigned(s).Ok?
    ensures 0 < Digits(s) && !LeadingZero(s, Digits(s)) && FractionAt(s, Digits(s)) >= 0
    ensures var k, f := Digits(s), FractionAt(s, Digits(s));
            ExponentAt(s, k + f) >= 0 && ParseUnsigned(s) == Number(s, k, f + ExponentAt(s, k + f))
  {
    hide Digits, FractionAt, ExponentAt, Number;
  }

  lemma NumberOfParts(s: string, k: nat, f: nat, e: nat)
    requires 0 < k <= |s| && k + f <= |s| && !LeadingZero(s, k)
    requires Digits(s) == k && FractionAt(s, k) == f && ExponentAt(s, k + f) == e
    ensures ParseUnsigned(s) == Number(s, k, f + e)
  {
    hide Digits, FractionAt, ExponentAt, Number;
  }

  lemma ParseUnsignedLocal(s: string, x: string)
    requires SpaceOrStop(x) && ParseUnsigned(s).Ok?
    ensures ParseUnsigned(s + x) == Ok(ParseUnsigned(s).value, ParseUnsigned(s).rest + x)
  {
    hide *;
    NumberParts(s);
    var k := Digits(s);
    var f := FractionAt(s, k);
    var e := ExponentAt(s, k + f);
    NotADigit(x);
    DigitsLocal(s, x);
    FractionAtLocal(s, x, k);
    ExponentAtLocal(s, x, k + f);
    LeadingZeroLocal(s, x, k);
    NumberOfParts(s + x, k, f, e);
    NumberLocal(s, x, k, f + e);
  }

  lemma NotADigit(x: string)
    requires SpaceOrStop(x)
    ensures x == [] || !IsDigit(x[0])
  {
  }

  lemma ParseNumberLocal(s: string, x: string)
    requires SpaceOrStop(x) && ParseNumber(s).Ok?
    ensures ParseNumber(s + x) == Ok(ParseNumber(s).value, ParseNumber(s).rest + x)
  {
    DropLocal(s, x, 1);
    if s[0] == '-' {
      ParseUnsignedLocal(s[1..], x);
    } else {
      ParseUnsignedLocal(s, x);
    }
  }

  lemma ParseWordLocal(s: string, word: string, v: Json, x: string)
    requires word != [] && ParseWord(s, word, v).Ok?
    ensures ParseWord(s + x, word, v) == Ok(v, ParseWord(s, word, v).rest + x)
  {
    DropLocal(s, x, |word|);
    assert (s + x)[..|word|] == s[..|word|] == word;
  }

  lemma {:induction false} ParseValueLocal(s: string, x: string)
    requires SpaceOrStop(x) && ParseValue(s).Ok?
    ensures ParseValue(s + x) == Ok(ParseValue(s).value, ParseValue(s).rest + x)
    decreases |s|, 0
  {
    assert (s + x)[0] == s[0];
    if s[0] == '{' || s[0] == '[' {
      DropLocal(s, x, 1);
      var t := SkipSpace(s[1..]);
      assert t != [];
      SkipSpaceLocal(s[1..], x);
      DropLocal(t, x, 1);
      assert (t + x)[0] == t[0];
      if s[0] == '{' {
        if t[0] != '}' {
          ParseMembersLocal(t, x);
        }
      } else if t[0] != ']' {
        ParseItemsLocal(t, x);
      }
    } else if s[0] == '"' {
      ParseStringLocal(s, x);
    } else if s[0] == 't' {
      ParseWordLocal(s, "true", Bool(true), x);
    } else if s[0] == 'f' {
      ParseWordLocal(s, "false", Bool(false), x);
    } else if s[0] == 'n' {
      ParseWordLocal(s, "null", Null, x);
    } else {
      ParseNumberLocal(s, x);
    }
  }

  lemma {:induction false} ParseElementLocal(s: string, x: string)
    requires SpaceOrStop(x) && ParseElement(s).Ok? && (ParseElement(s).rest != [] || Stop(x))
    ensures ParseElement(s + x) == Ok(ParseElement(s).value, ParseElement(s).rest + x)
    decreases |s|, 1
  {
    var t := SkipSpace(s);
    assert t != [];
    SkipSpaceLocal(s, x);
    ParseValueLocal(t, x);
    SkipSpaceLocal(ParseValue(t).rest, x);
  }

  lemma {:induction false} ParseItemsLocal(s: string, x: string)
    requires SpaceOrStop(x) && ParseItems(s).Ok?
    ensures ParseItems(s + x) == Ok(ParseItems(s).value, ParseItems(s).rest + x)
    decreases |s|, 2
  {
    ParseElementLocal(s, x);
    var r := ParseElement(s).rest;
    DropLocal(r, x, 1);
    if r[0] == ',' {
      ParseItemsLocal(r[1..], x);
    }
  }

  lemma {:induction false} ParseMemberLocal(s: string, x: string)
    requires SpaceOrStop(x) && ParseMember(s).Ok? && (ParseMember(s).rest != [] || Stop(x))
    ensures ParseMember(s + x) == Ok(ParseMember(s).value, ParseMember(s).rest + x)
    decreases |s|, 2
  {
    SkipSpaceLocal(s, x);
    ParseStringLocal(SkipSpace(s), x);
    var r := ParseString(SkipSpace(s)).rest;
    SkipSpaceLocal(r, x);
    DropLocal(SkipSpace(r), x, 1);
    ParseElementLocal(SkipSpace(r)[1..], x);
  }

  lemma {:induction false} ParseMembersLocal(s: string, x: string)
    requires SpaceOrStop(x) && ParseMembers(s).Ok?
    ensures ParseMembers(s + x) == Ok(ParseMembers(s).value, ParseMembers(s).rest + x)
    decreases |s|, 3
  {
    ParseMemberLocal(s, x);
    var r := ParseMember(s).rest;
    DropLocal(r, x, 1);
    if r[0] == ',' {
      ParseMembersLocal(r[1..], x);
    }
  }

  // ---- strings -----------------------------------------------------------------------------------

  lemma HexReadsBack(d: nat)
    requires d < 16
    ensures IsHex(HexDigit(d)) && HexValue(HexDigit(d)) == d
  {
  }

  lemma ControlCharReads(c: char, rest: string)
    requires c < ' '
    ensures var e := "\\u00" + [HexDigit(c as int / 16), HexDigit(c as int % 16)];
            ParseChar(e + rest) == Ok([c], rest)
  {
    var e := "\\u00" + [HexDigit(c as int / 16), HexDigit(c as int % 16)];
    var s := e + rest;
    HexReadsBack(c as int / 16);
    HexReadsBack(c as int % 16);
    assert s[6..] == rest;
    assert HexValue('0') == 0;
    assert s[0] == '\\' && s[1] == 'u' && s[2] == '0' && s[3] == '0' && s[4] == e[4] && s[5] == e[5];
    assert Utf8(c as int) == [c];
  }

  lemma EscapeCharReads(c: char, rest: string)
    ensures ParseChar(EscapeChar(c) + rest) == Ok([c], rest)
    ensures EscapeChar(c)[0] != '"'
  {
    var e := EscapeChar(c);
    assert (e + rest)[|e|..] == rest;
    if |e| == 6 {
      ControlCharReads(c, rest);
    }
  }

  /** A quoted string reads back as itself, and its closing quote is the first unescaped one. */
  lemma {:induction false} EscapeReads(s: string, rest: string)
    ensures ParseChars(Escape(s) + "\"" + rest) == Ok(s, rest)
  {
    var text := Escape(s) + "\"" + rest;
    if s == [] {
      assert text == "\"" + rest;
    } else {
      var tail := Escape(s[1..]) + "\"" + rest;
      assert text == EscapeChar(s[0]) + tail;
      EscapeCharReads(s[0], tail);
      EscapeReads(s[1..], rest);
      assert [s[0]] + s[1..] == s;
    }
  }

  lemma QuoteReads(s: string, rest: string)
    ensures ParseString(Quote(s) + rest) == Ok(s, rest)
    ensures Quote(s) != [] && Quote(s)[0] == '"'
  {
    assert (Quote(s) + rest)[1..] == Escape(s) + "\"" + rest;
    EscapeReads(s, rest);
  }

  /** How many backslashes stand directly before a place. */
  function BackslashesBefore(s: string, i: nat): nat
    requires i <= |s|
  {
    if i > 0 && s[i - 1] == '\\' then 1 + BackslashesBefore(s, i - 1) else 0
  }

  /** A quote that no backslash escapes, since those before it escape each other. */
  predicate UnescapedQuote(s: string, i: nat)
    requires i < |s|
  {
    s[i] == '"' && BackslashesBefore(s, i) % 2 == 0
  }

  lemma {:induction false} BackslashesJoin(a: string, b: string, i: nat)
    requires i <= |b|
    ensures BackslashesBefore(b, i) <= i
    ensures BackslashesBefore(a + b, |a| + i)
         == BackslashesBefore(b, i) + if BackslashesBefore(b, i) == i then BackslashesBefore(a, |a|) else 0
  {
    if i > 0 {
      BackslashesJoin(a, b, i - 1);
    } else {
      BackslashesOfPrefix(a, b, |a|);
    }
  }

  lemma {:induction false} BackslashesOfPrefix(a: string, b: string, i: nat)
    requires i <= |a|
    ensures BackslashesBefore(a + b, i) == BackslashesBefore(a, i)
  {
    if i > 0 {
      BackslashesOfPrefix(a, b, i - 1);
    }
  }

  /** No control byte, no unescaped quote, and no backslash left open at the end. */
  ghost predicate Plain(t: string) {
    && (forall i | 0 <= i < |t| :: t[i] >= ' ' && !UnescapedQuote(t, i))
    && BackslashesBefore(t, |t|) % 2 == 0
  }

  lemma PlainJoin(a: string, b: string)
    requires Plain(a) && Plain(b)
    ensures Plain(a + b)
  {
    hide BackslashesBefore;
    forall i | 0 <= i < |a + b| ensures (a + b)[i] >= ' ' && !UnescapedQuote(a + b, i) {
      if i < |a| {
        BackslashesOfPrefix(a, b, i);
        assert !UnescapedQuote(a, i);
      } else {
        BackslashesJoin(a, b, i - |a|);
        assert !UnescapedQuote(b, i - |a|);
      }
    }
    BackslashesJoin(a, b, |b|);
  }

  lemma EscapeCharIsPlain(c: char)
    ensures Plain(EscapeChar(c))
  {
    var e := EscapeChar(c);
    assert BackslashesBefore(e, 0) == 0;
    assert BackslashesBefore(e, 1) == if e[0] == '\\' then 1 else 0;
    if |e| == 2 {
      assert BackslashesBefore(e, 2) == if e[1] == '\\' then 1 + BackslashesBefore(e, 1) else 0;
    }
  }

  /** Escaped text has no control byte and no unescaped quote, and leaves no backslash open at its end. */
  lemma {:induction false} EscapedIsPlain(s: string)
    ensures Plain(Escape(s))
  {
    if s != [] {
      hide EscapeChar, Plain;
      EscapeCharIsPlain(s[0]);
      EscapedIsPlain(s[1..]);
      PlainJoin(EscapeChar(s[0]), Escape(s[1..]));
    }
  }

  /** In a quoted string the closing quote is the first unescaped one. */
  lemma ClosingQuoteIsFirst(s: string, rest: string, i: nat)
    requires i <= |Escape(s)|
    ensures UnescapedQuote(Escape(s) + "\"" + rest, i) <==> i == |Escape(s)|
  {
    hide BackslashesBefore, Escape;
    var e := Escape(s);
    assert e + "\"" + rest == e + ("\"" + rest);
    EscapedIsPlain(s);
    BackslashesOfPrefix(e, "\"" + rest, i);
  }

  lemma EscapeInjective(s: string, t: string)
    requires Escape(s) == Escape(t)
    ensures s == t
  {
    EscapeReads(s, "");
    EscapeReads(t, "");
  }

  // ---- numbers -----------------------------------------------------------------------------------

  lemma {:induction false} DigitsOf(d: string, rest: string)
    requires AllDigits(d) && (rest == [] || !IsDigit(rest[0]))
    ensures Digits(d + rest) == |d|
  {
    if d == [] {
      assert d + rest == rest;
    } else {
      DropLocal(d, rest, 1);
      DigitsOf(d[1..], rest);
    }
  }

  lemma TextReads(n: nat, rest: string)
    requires Stop(rest)
    ensures ParseUnsigned(Text(n) + rest) == Ok(Int(n), rest)
  {
    var d := Text(n);
    DigitsOf(d, rest);
    DropLocal(d, rest, |d|);
    assert d[|d|..] + rest == rest && d[..|d|] == d;
    ValueOfText(n);
    assert (d + rest)[0] == d[0];
  }

  lemma NumberReads(n: int, rest: string)
    requires Stop(rest)
    ensures ParseNumber(SignedText(n) + rest) == Ok(Int(n), rest)
    ensures SignedText(n)[0] == '-' || IsDigit(SignedText(n)[0])
  {
    hide Text, ParseUnsigned;
    if n < 0 {
      assert (SignedText(n) + rest)[1..] == Text(-n) + rest;
      TextReads(-n, rest);
    } else {
      assert AllDigits(Text(n));
      TextReads(n, rest);
    }
  }

  // ---- documents ---------------------------------------------------------------------------------

  /** What the emitter is given: integers, and files that hold one JSON text. */
  predicate Emittable(v: Json)
    decreases v
  {
    match v
    case Real(_) => false
    case Raw(text) => ParseElement(text).Ok? && ParseElement(text).rest == ""
    case Arr(items) => forall i | 0 <= i < |items| :: Emittable(items[i])
    case Obj(members) => forall i | 0 <= i < |members| :: Emittable(members[i].value)
    case _ => true
  }

  /** The document a reader gets: copied files replaced by their values. */
  function Meaning(v: Json): Json
    requires Emittable(v)
    decreases v, 0
  {
    match v
    case Raw(text) => ParseElement(text).value
    case Arr(items) => Arr(MeaningItems(items))
    case Obj(members) => Obj(MeaningMembers(members))
    case _ => v
  }

  function MeaningItems(items: seq<Json>): (r: seq<Json>)
    requires forall i | 0 <= i < |items| :: Emittable(items[i])
    ensures |r| == |items|
    decreases items, 1
  {
    if items == [] then [] else [Meaning(items[0])] + MeaningItems(items[1..])
  }

  function MeaningMembers(members: seq<Member>): (r: seq<Member>)
    requires forall i | 0 <= i < |members| :: Emittable(members[i].value)
    ensures |r| == |members|
    decreases members, 1
  {
    if members == [] then []
    else [Member(members[0].key, Meaning(members[0].value))] + MeaningMembers(members[1..])
  }

  lemma {:induction false} MeaningMemberAt(members: seq<Member>, i: nat)
    requires forall k | 0 <= k < |members| :: Emittable(members[k].value)
    requires i < |members|
    ensures MeaningMembers(members)[i] == Member(members[i].key, Meaning(members[i].value))
  {
    if i > 0 {
      MeaningMemberAt(members[1..], i - 1);
    }
  }

  predicate NoFiles(v: Json)
    decreases v
  {
    match v
    case Raw(_) => false
    case Arr(items) => forall i | 0 <= i < |items| :: NoFiles(items[i])
    case Obj(members) => forall i | 0 <= i < |members| :: NoFiles(members[i].value)
    case _ => true
  }

  lemma {:induction false} MeaningOfPlain(v: Json)
    requires Emittable(v) && NoFiles(v)
    ensures Meaning(v) == v
    decreases v, 0
  {
    match v
    case Arr(items) => MeaningOfPlainItems(items);
    case Obj(members) => MeaningOfPlainMembers(members);
    case _ =>
  }

  lemma {:induction false} MeaningOfPlainItems(items: seq<Json>)
    requires forall i | 0 <= i < |items| :: Emittable(items[i]) && NoFiles(items[i])
    ensures MeaningItems(items) == items
    decreases items, 1
  {
    if items != [] {
      MeaningOfPlain(items[0]);
      MeaningOfPlainItems(items[1..]);
    }
  }

  lemma {:induction false} MeaningOfPlainMembers(members: seq<Member>)
    requires forall i | 0 <= i < |members| :: Emittable(members[i].value) && NoFiles(members[i].value)
    ensures MeaningMembers(members) == members
    decreases members, 1
  {
    if members != [] {
      MeaningOfPlain(members[0].value);
      MeaningOfPlainMembers(members[1..]);
    }
  }

  lemma ParseWordReads(word: string, v: Json, rest: string)
    requires word != []
    ensures ParseWord(word + rest, word, v) == Ok(v, rest)
  {
    assert (word + rest)[|word|..] == rest;
  }

  lemma ValueStart(s: string)
    requires ParseValue(s).Ok?
    ensures s != [] && s[0] != ']'
  {
    hide ParseItems, ParseMembers;
  }

  /** Where a list of values starts, white space is skipped and no closing bracket stands. */
  lemma ItemsAfterSpace(s: string)
    requires ParseItems(s).Ok?
    ensures ParseItems(SkipSpace(s)) == ParseItems(s)
    ensures SkipSpace(s) != [] && SkipSpace(s)[0] != ']'
  {
    hide ParseValue, SkipSpace;
    SkipSpaceTwice(s);
    ValueStart(SkipSpace(s));
  }

  lemma MembersAfterSpace(s: string)
    requires ParseMembers(s).Ok?
    ensures ParseMembers(SkipSpace(s)) == ParseMembers(s)
    ensures SkipSpace(s) != [] && SkipSpace(s)[0] != '}'
  {
    hide ParseValue, ParseElement, SkipSpace;
    SkipSpaceTwice(s);
  }

  lemma BracketsRead(text: string, items: seq<Json>, rest: string)
    requires if items == [] then text == "" else ParseItems(text + "]" + rest) == Ok(items, rest)
    ensures ParseValue("[" + text + "]" + rest) == Ok(Arr(items), rest)
  {
    hide ParseItems, ParseMembers;
    var t := text + "]" + rest;
    assert ("[" + text + "]" + rest)[1..] == t;
    if items == [] {
      assert t == "]" + rest && t[1..] == rest;
    } else {
      ItemsAfterSpace(t);
    }
  }

  lemma BracesRead(text: string, members: seq<Member>, rest: string)
    requires if members == [] then text == "" else ParseMembers(text + "}" + rest) == Ok(members, rest)
    ensures ParseValue("{" + text + "}" + rest) == Ok(Obj(members), rest)
  {
    hide ParseItems, ParseMembers;
    var t := text + "}" + rest;
    assert ("{" + text + "}" + rest)[1..] == t;
    if members == [] {
      assert t == "}" + rest && t[1..] == rest;
    } else {
      MembersAfterSpace(t);
    }
  }

  lemma ScalarReads(v: Json, rest: string)
    requires v.Null? || v.Bool? || v.Int? || v.Str?
    requires Stop(rest)
    ensures ParseValue(Render(v) + rest) == Ok(v, rest)
    ensures Render(v) != [] && !IsSpace(Render(v)[0])
  {
    hide ParseItems, ParseMembers, ParseString, ParseNumber, ParseWord, Quote, SignedText;
    match v
    case Null => ParseWordReads("null", Null, rest);
    case Bool(b) => ParseWordReads(if b then "true" else "false", v, rest);
    case Int(n) => NumberReads(n, rest);
    case Str(s) => QuoteReads(s, rest);
  }

  lemma {:induction false} ValueReads(v: Json, rest: string)
    requires Emittable(v) && !v.Raw? && Stop(rest)
    ensures ParseValue(Render(v) + rest) == Ok(Meaning(v), rest)
    ensures Render(v) != [] && !IsSpace(Render(v)[0])
    decreases v, 0
  {
    hide ParseValue, ParseItems, ParseMembers;
    match v
    case Arr(items) =>
      if items != [] {
        ItemsRead(items, rest);
      }
      BracketsRead(RenderItems(items, true), MeaningItems(items), rest);
    case Obj(members) =>
      if members != [] {
        MembersRead(members, rest);
      }
      BracesRead(RenderMembers(members, true), MeaningMembers(members), rest);
    case _ => ScalarReads(v, rest);
  }

  /** Every value, a copied file included, reads back where it stands. */
  lemma {:induction false} ElementReads(v: Json, rest: string)
    requires Emittable(v) && Stop(rest)
    ensures ParseElement(Render(v) + rest) == Ok(Meaning(v), rest)
    decreases v, 1
  {
    if v.Raw? {
      ParseElementLocal(v.text, rest);
      assert "" + rest == rest;
    } else {
      ValueReads(v, rest);
    }
  }

  lemma {:induction false} ItemsRead(items: seq<Json>, rest: string)
    requires items != [] && forall i | 0 <= i < |items| :: Emittable(items[i])
    ensures ParseItems(RenderItems(items, true) + "]" + rest) == Ok(MeaningItems(items), rest)
    decreases items, 2
  {
    hide ParseElement, ParseValue, SkipSpace, Meaning, Render, Emittable;
    var tail := RenderItems(items[1..], false) + "]" + rest;
    assert RenderItems(items, true) + "]" + rest == Render(items[0]) + tail;
    if items[1..] == [] {
      assert tail == "]" + rest && tail[1..] == rest;
      assert MeaningItems(items) == [Meaning(items[0])];
    } else {
      assert tail[0] == ',';
      assert tail[1..] == RenderItems(items[1..], true) + "]" + rest;
      ItemsRead(items[1..], rest);
    }
    ElementReads(items[0], tail);
  }

  lemma {:induction false} MemberReads(m: Member, rest: string)
    requires Emittable(m.value) && Stop(rest)
    ensures ParseMember(RenderMember(m) + rest) == Ok(Member(m.key, Meaning(m.value)), rest)
    decreases m, 2
  {
    hide *;
    var t := ":" + Render(m.value) + rest;
    MemberText(m, rest);
    QuoteReads(m.key, t);
    ElementReads(m.value, rest);
    MemberOfParts(Quote(m.key) + t, m.key, t, Meaning(m.value), rest);
  }

  lemma MemberText(m: Member, rest: string)
    ensures var t := ":" + Render(m.value) + rest;
            RenderMember(m) + rest == Quote(m.key) + t && t[0] == ':' && t[1..] == Render(m.value) + rest
  {
    hide Render, Quote;
  }

  lemma MemberOfParts(s: string, key: string, t: string, v: Json, rest: string)
    requires ParseString(s) == Ok(key, t) && s != [] && s[0] == '"' && t != [] && t[0] == ':'
    requires ParseElement(t[1..]) == Ok(v, rest)
    ensures ParseMember(s) == Ok(Member(key, v), rest)
  {
    hide ParseString, ParseElement;
  }

  lemma {:induction false} MembersRead(members: seq<Member>, rest: string)
    requires members != [] && forall i | 0 <= i < |members| :: Emittable(members[i].value)
    ensures ParseMembers(RenderMembers(members, true) + "}" + rest) == Ok(MeaningMembers(members), rest)
    decreases members, 3
  {
    hide ParseMember, ParseValue, SkipSpace, Meaning, RenderMember, Emittable;
    var tail := RenderMembers(members[1..], false) + "}" + rest;
    var m := members[0];
    assert RenderMembers(members, true) + "}" + rest == RenderMember(m) + tail;
    if members[1..] == [] {
      assert tail == "}" + rest && tail[1..] == rest;
      assert MeaningMembers(members) == [Member(m.key, Meaning(m.value))];
    } else {
      assert tail[0] == ',';
      assert tail[1..] == RenderMembers(members[1..], true) + "}" + rest;
      MembersRead(members[1..], rest);
    }
    MemberReads(m, tail);
  }

  /** The round trip: the text of a document is one JSON text, and it denotes that document. */
  lemma RoundTrip(v: Json)
    requires Emittable(v)
    ensures Denotes(Render(v), Meaning(v))
    ensures NoFiles(v) ==> Denotes(Render(v), v)
  {
    assert Render(v) + "" == Render(v);
    ElementReads(v, "");
    if NoFiles(v) {
      MeaningOfPlain(v);
    }
  }

  lemma {:induction false} SpaceSkipped(s: string)
    requires SkipSpace(s) == []
    ensures SkipSpace(s + "\n") == []
  {
    if s == [] {
      assert s + "\n" == "\n" && "\n"[1..] == [];
    } else {
      assert (s + "\n")[1..] == s[1..] + "\n";
      SpaceSkipped(s[1..]);
    }
  }

  /** A line end after the document changes nothing. */
  lemma LineEndIgnored(s: string, v: Json)
    requires Denotes(s, v)
    ensures Denotes(s + "\n", v)
  {
    hide ParseValue;
    var t := SkipSpace(s);
    assert t != [] by { ValueStart(t); }
    SkipSpaceLocal(s, "\n");
    ParseValueLocal(t, "\n");
    SpaceSkipped(ParseValue(t).rest);
  }
}

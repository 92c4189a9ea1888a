/**
 `hex32`: numbers as text in a ring of static buffers, so that several results can be used in one
 expression. The returned string is a slot of the ring; this module says how long it keeps its text.
 */
module HexRing {
  import opened Baseline

  const WRAP: nat := 0x1_0000_0000

  // ---- the text ------------------------------------------------------------------------------------------------

  function Digit(d: nat): char
    requires d < 16
  {
    "0123456789abcdef"[d]
  }

  function DigitValue(c: char): nat {
    if '0' <= c <= '9' then (c - '0') as nat else if 'a' <= c <= 'f' then (c - 'a') as nat + 10 else 0
  }

  function Digits(v: nat): string {
    if v < 16 then [Digit(v)] else Digits(v / 16) + [Digit(v % 16)]
  }

  /** The text "0x%x" makes of a number. */
  function Hex(v: Word): string {
    "0x" + Digits(v)
  }

  function ValueOf(digits: string): nat {
    if digits == "" then 0 else 16 * ValueOf(digits[..|digits| - 1]) + DigitValue(digits[|digits| - 1])
  }

  lemma DigitReads(d: nat)
    requires d < 16
    ensures DigitValue(Digit(d)) == d
  {
    if d < 10 {
      assert Digit(d) == '0' + d as char;
    } else {
      assert Digit(d) == 'a' + (d - 10) as char;
    }
  }

  lemma BelowPower(v: nat, n: nat)
    requires 16 <= v < Power(n + 1)
    ensures n > 0 && v / 16 < Power(n)
  {
  }

  lemma {:induction false} DigitsRead(v: nat, width: nat)
    requires width > 0 && v < Power(width)
    ensures ValueOf(Digits(v)) == v && 0 < |Digits(v)| <= width
  {
    hide Digit, DigitValue;
    DigitReads(v % 16);
    assert Power(1) == 16 * Power(0);
    if v >= 16 {
      BelowPower(v, width - 1);
      DigitsRead(v / 16, width - 1);
      assert Digits(v)[..|Digits(v)| - 1] == Digits(v / 16);
    } else {
      assert Digits(v)[..0] == "";
    }
  }

  function Power(n: nat): nat {
    if n == 0 then 1 else 16 * Power(n - 1)
  }

  /** Every number fits a buffer of 32 bytes, terminator included, and can be read back from its text. */
  lemma HexFits(v: Word)
    ensures |Hex(v)| + 1 <= 32 && |Hex(v)| <= 10 && ValueOf(Hex(v)[2..]) == v
  {
    assert Power(8) == WRAP by {
      assert Power(2) == 16 * Power(1) && Power(1) == 16;
      assert Power(4) == 16 * Power(3) && Power(3) == 16 * Power(2);
      assert Power(6) == 16 * Power(5) && Power(5) == 16 * Power(4);
      assert Power(8) == 16 * Power(7) && Power(7) == 16 * Power(6);
    }
    DigitsRead(v, 8);
    assert Hex(v)[2..] == Digits(v);
  }

  // ---- the ring ------------------------------------------------------------------------------------------------

  /** The static variables: the buffers and the 32-bit count of calls. */
  datatype Ring = Ring(bufs: seq<string>, idx: Word)

  function Slot(r: Ring): nat
    requires |r.bufs| > 0
  {
    r.idx % |r.bufs|
  }

  function Call(r: Ring, v: Word): (after: Ring)
    requires |r.bufs| > 0
    ensures |after.bufs| == |r.bufs|
  {
    Ring(r.bufs[Slot(r) := Hex(v)], (r.idx + 1) % WRAP)
  }

  function Calls(r: Ring, vs: seq<Word>): (after: Ring)
    requires |r.bufs| > 0
    ensures |after.bufs| == |r.bufs|
  {
    if vs == [] then r else Call(Calls(r, vs[..|vs| - 1]), vs[|vs| - 1])
  }

  class HexBuffers {
    const bufs: array<string>
    var idx: Word

    ghost predicate Valid()
      reads this
    {
      bufs.Length > 0
    }

    ghost function Now(): (r: Ring)
      reads this, bufs
      requires Valid()
      ensures |r.bufs| > 0
    {
      Ring(bufs[..], idx)
    }

    constructor (slots: nat)
      requires slots > 0
      ensures Valid() && fresh(bufs) && Now() == Ring(seq(slots, _ => ""), 0)
    {
      bufs := new string[slots](_ => "");
      idx := 0;
      new;
      assert bufs[..] == seq(slots, _ => "");
    }

    /** The result is a slot: what the returned pointer points to. */
    method Hex32(value: Word) returns (slot: nat)
      requires Valid()
      modifies this`idx, bufs
      ensures Valid() && slot == old(Slot(Now())) && Now() == Call(old(Now()), value)
    {
      slot := idx % bufs.Length;
      idx := (idx + 1) % WRAP;
      bufs[slot] := Hex(value);
    }
  }

  // ---- how long a string lives -----------------------------------------------------------------------------

  /** The count of calls after a few more. */
  function Later(idx: Word, n: nat): Word
    requires n <= 16
  {
    if idx + n < WRAP then idx + n else idx + n - WRAP
  }

  lemma {:induction false} CallsCount(r: Ring, vs: seq<Word>)
    requires |r.bufs| > 0 && |vs| <= 16
    ensures Calls(r, vs).idx == Later(r.idx, |vs|)
  {
    if vs != [] {
      var before := Calls(r, vs[..|vs| - 1]);
      CallsCount(r, vs[..|vs| - 1]);
      hide Calls;
      OneLater(before, vs[|vs| - 1]);
    }
  }

  lemma OneLater(r: Ring, v: Word)
    requires |r.bufs| > 0
    ensures Call(r, v).idx == Later(r.idx, 1)
  {
    hide Hex;
  }

  /** The number of later calls before the slot used at a count comes round again. */
  function Lifetime(slots: nat, idx: Word): nat
    requires slots == 8 || slots == 12
  {
    if slots == 8 then 7
    else if idx >= WRAP - 4 then 3
    else if idx >= WRAP - 12 then 15
    else 11
  }

  lemma NextUse8(idx: Word, j: nat)
    requires 0 < j <= 8
    ensures Later(idx, j) % 8 == idx % 8 <==> j == 8
  {
    var q, s := idx / 8, idx % 8;
    assert WRAP == 8 * 0x2000_0000;
    var t := Later(idx, j);
    var p := t / 8;
    assert t == 8 * p + t % 8 && idx == 8 * q + s;
  }

  lemma NextUse12(idx: Word, j: nat)
    requires 0 < j <= Lifetime(12, idx) + 1
    ensures Later(idx, j) % 12 == idx % 12 <==> j == Lifetime(12, idx) + 1
  {
    var q, s := idx / 12, idx % 12;
    assert WRAP == 12 * 0x1555_5555 + 4;
    var t := Later(idx, j);
    var p := t / 12;
    assert t == 12 * p + t % 12 && idx == 12 * q + s;
  }

  lemma NextUse(slots: nat, idx: Word, j: nat)
    requires slots == 8 || slots == 12
    requires 0 < j <= Lifetime(slots, idx) + 1
    ensures Later(idx, j) % slots == idx % slots <==> j == Lifetime(slots, idx) + 1
  {
    if slots == 8 {
      NextUse8(idx, j);
    } else {
      NextUse12(idx, j);
    }
  }

  lemma LaterLater(idx: Word, n: nat)
    requires n < 16
    ensures Later(Later(idx, 1), n) == Later(idx, n + 1)
  {
  }

  /** A returned string keeps its text through as many further calls as its lifetime says. */
  lemma {:induction false} Survives(r: Ring, v: Word, vs: seq<Word>)
    requires |r.bufs| == 8 || |r.bufs| == 12
    requires |vs| <= Lifetime(|r.bufs|, r.idx)
    ensures Calls(Call(r, v), vs).bufs[Slot(r)] == Hex(v)
  {
    if vs != [] {
      var before := vs[..|vs| - 1];
      Survives(r, v, before);
      SlotAfter(r, v, before);
      hide Calls, Hex, Lifetime, Later;
    }
  }

  lemma SlotAfter(r: Ring, v: Word, vs: seq<Word>)
    requires |r.bufs| == 8 || |r.bufs| == 12
    requires |vs| <= Lifetime(|r.bufs|, r.idx)
    ensures Slot(Calls(Call(r, v), vs)) == Slot(r) <==> |vs| == Lifetime(|r.bufs|, r.idx)
  {
    hide Calls, Hex, Later;
    CallsCount(Call(r, v), vs);
    OneLater(r, v);
    LaterLater(r.idx, |vs|);
    NextUse(|r.bufs|, r.idx, |vs| + 1);
  }

  /** One call more and it has the newest text. */
  lemma Overwritten(r: Ring, v: Word, vs: seq<Word>)
    requires |r.bufs| == 8 || |r.bufs| == 12
    requires |vs| == Lifetime(|r.bufs|, r.idx) + 1
    ensures Calls(Call(r, v), vs).bufs[Slot(r)] == Hex(vs[|vs| - 1])
  {
    var before := Calls(Call(r, v), vs[..|vs| - 1]);
    SlotAfter(r, v, vs[..|vs| - 1]);
    assert Calls(Call(r, v), vs) == Call(before, vs[|vs| - 1]);
    hide Calls, Hex, Lifetime;
  }

  /** In the 8-slot ring a string always survives seven further calls, wrap-around or not. */
  lemma EightSlots(r: Ring, v: Word, vs: seq<Word>)
    requires |r.bufs| == 8 && |vs| <= 7
    ensures Calls(Call(r, v), vs).bufs[Slot(r)] == Hex(v)
  {
    Survives(r, v, vs);
  }

  lemma HexInjective(v: Word, w: Word)
    ensures Hex(v) == Hex(w) ==> v == w
  {
    HexFits(v);
    HexFits(w);
  }

  /**
   In the 12-slot ring a string survives eleven further calls exactly if it was not made by one of
   the last four calls before the counter wraps.
   */
  lemma TwelveSlots(r: Ring, v: Word)
    requires |r.bufs| == 12
    ensures r.idx < WRAP - 4 <==> forall vs: seq<Word> | |vs| <= 11 :: Calls(Call(r, v), vs).bufs[Slot(r)] == Hex(v)
  {
    if r.idx < WRAP - 4 {
      forall vs: seq<Word> | |vs| <= 11 ensures Calls(Call(r, v), vs).bufs[Slot(r)] == Hex(v) {
        Survives(r, v, vs);
      }
    } else {
      var w: Word := if v == 0 then 1 else 0;
      var vs := [w, w, w, w];
      Overwritten(r, v, vs);
      HexInjective(v, w);
    }
  }
}

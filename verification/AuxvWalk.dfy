/**
 The auxiliary vector probe: the walk from `environ` to the vector, the comparison with the libc
 global, and the capped scan that looks for AT_PHDR. Memory is a sequence of 64-bit words, and a
 pointer an index into it, so every read is one that the program makes.
 */
module AuxvWalk {
  type Word64 = x: int | 0 <= x < 0x1_0000_0000_0000_0000

  const AT_NULL: int := 0
  const AT_EXECFD: int := 2
  const AT_PHDR: int := 3
  const AT_PHNUM: int := 5
  const AT_BASE: int := 7
  const AT_ENTRY: int := 9

  /** Entries the scan looks at before it gives up: the counter is looked at after each of them. */
  const CAP: nat := 65

  datatype Pointer = Null | At(index: nat)

  datatype Entry = Entry(tag: int, value: Word64)

  /** An `int32_t` in the low half of a word; the padding above it is not looked at. */
  function SignedLow(w: Word64): int {
    var low := w % 0x1_0000_0000;
    if low < 0x8000_0000 then low else low - 0x1_0000_0000
  }

  function SignedLong(w: Word64): int {
    if w < 0x8000_0000_0000_0000 then w else w - 0x1_0000_0000_0000_0000
  }

  // ---- what is in memory ------------------------------------------------------------------------------------

  /** Words to walk over before a zero word. */
  ghost predicate EndsInZero(mem: seq<Word64>, from: nat) {
    exists i :: from <= i < |mem| && mem[i] == 0
  }

  function FirstZero(mem: seq<Word64>, from: nat): (i: nat)
    requires EndsInZero(mem, from)
    ensures from <= i < |mem| && mem[i] == 0 && forall j | from <= j < i :: mem[j] != 0
    decreases |mem| - from
  {
    if mem[from] == 0 then from else FirstZero(mem, from + 1)
  }

  /** The entries up to AT_NULL or a limit can be read; the word after the AT_NULL type need not be there. */
  ghost predicate Readable(mem: seq<Word64>, at: nat, limit: nat)
    decreases limit
  {
    limit == 0 || (at < |mem| && (SignedLow(mem[at]) == AT_NULL || (at + 1 < |mem| && Readable(mem, at + 2, limit - 1))))
  }

  /** The entries before AT_NULL, at most as many as the limit says. */
  function Vector(mem: seq<Word64>, at: nat, limit: nat): (v: seq<Entry>)
    requires Readable(mem, at, limit)
    ensures |v| <= limit
    decreases limit
  {
    if limit == 0 || SignedLow(mem[at]) == AT_NULL then []
    else [Entry(SignedLow(mem[at]), mem[at + 1])] + Vector(mem, at + 2, limit - 1)
  }

  // ---- what is found ----------------------------------------------------------------------------------------

  datatype Finding = Absent | Present(value: Word64)

  /** The last entry with a tag. */
  function Last(v: seq<Entry>, tag: int): Finding {
    if v == [] then Absent
    else if v[|v| - 1].tag == tag then Present(v[|v| - 1].value)
    else Last(v[..|v| - 1], tag)
  }

  /** The verdict: libc would crash without program headers. */
  predicate Missing(f: Finding) {
    f == Absent || f == Present(0)
  }

  datatype Status = NullBoth | GlobalNull | Mismatch | Agreed

  /** What the probe prints; two findings are shown as signed C types show them. */
  datatype Report =
    | NoVector(status: Status)
    | Scanned(status: Status, entries: nat, phdr: Finding, phnum: Finding, entry: Finding, base: Finding, execfd: Finding,
              phnumShown: int, execfdShown: int, truncated: bool)

  predicate PhdrMissing(r: Report) {
    r.NoVector? || Missing(r.phdr)
  }

  function ShownLong(f: Finding): int {
    if f.Present? then SignedLong(f.value) else 0
  }

  function ShownInt(f: Finding): int {
    if f.Present? then SignedLow(f.value) else 0
  }

  // ---- the program ------------------------------------------------------------------------------------------

  /** From `environ` over the environment strings and their terminator. */
  method WalkEnviron(mem: seq<Word64>, environ: Pointer) returns (auxv: Pointer, envc: nat)
    requires environ.At? ==> EndsInZero(mem, environ.index)
    ensures environ.Null? ==> auxv == Null && envc == 0
    ensures environ.At? ==> envc == FirstZero(mem, environ.index) - environ.index && auxv == At(FirstZero(mem, environ.index) + 1)
  {
    envc := 0;
    if environ.Null? {
      return Null, 0;
    }
    var sp := environ.index;
    while mem[sp] != 0
      invariant environ.index <= sp <= FirstZero(mem, environ.index)
      invariant envc == sp - environ.index
      decreases |mem| - sp
    {
      sp := sp + 1;
      envc := envc + 1;
    }
    sp := sp + 1;
    return At(sp), envc;
  }

  /** The scan of the vector: each finding is the last matching entry among those looked at. */
  method Scan(mem: seq<Word64>, at: nat) returns (count: nat, phdr: Finding, phnum: Finding, entry: Finding, base: Finding, execfd: Finding, truncated: bool)
    requires Readable(mem, at, CAP)
    ensures var v := Vector(mem, at, CAP);
            && count == |v|
            && phdr == Last(v, AT_PHDR) && phnum == Last(v, AT_PHNUM) && entry == Last(v, AT_ENTRY)
            && base == Last(v, AT_BASE) && execfd == Last(v, AT_EXECFD)
            && truncated == (|v| == CAP)
  {
    hide Readable, Vector, Last, SignedLow;
    Step(mem, at, CAP);
    LastOfNothing();
    phdr, phnum, entry, base, execfd := Absent, Absent, Absent, Absent, Absent;
    count, truncated := 0, false;
    var auxp := at;
    ghost var seen: seq<Entry> := [];
    while !truncated && SignedLow(mem[auxp]) != AT_NULL
      invariant count == |seen| && count <= CAP && truncated == (count == CAP)
      invariant auxp == at + 2 * count
      invariant Readable(mem, auxp, CAP - count) && (count < CAP ==> auxp < |mem|)
      invariant Vector(mem, at, CAP) == seen + Vector(mem, auxp, CAP - count)
      invariant phdr == Last(seen, AT_PHDR) && phnum == Last(seen, AT_PHNUM) && entry == Last(seen, AT_ENTRY)
      invariant base == Last(seen, AT_BASE) && execfd == Last(seen, AT_EXECFD)
      decreases CAP - count
    {
      Step(mem, auxp, CAP - count);
      var tag, value := SignedLow(mem[auxp]), mem[auxp + 1];
      if tag == AT_PHDR {
        phdr := Present(value);
      } else if tag == AT_PHNUM {
        phnum := Present(value);
      } else if tag == AT_ENTRY {
        entry := Present(value);
      } else if tag == AT_BASE {
        base := Present(value);
      } else if tag == AT_EXECFD {
        execfd := Present(value);
      }
      LastOfMore(seen, Entry(tag, value));
      Step(mem, auxp + 2, CAP - count - 1);
      assert seen + ([Entry(tag, value)] + Vector(mem, auxp + 2, CAP - count - 1))
          == (seen + [Entry(tag, value)]) + Vector(mem, auxp + 2, CAP - count - 1);
      seen := seen + [Entry(tag, value)];
      count := count + 1;
      if count > 64 {
        truncated := true;
      }
      auxp := auxp + 2;
    }
    Step(mem, auxp, CAP - count);
    assert seen + [] == seen;
  }

  lemma Step(mem: seq<Word64>, at: nat, limit: nat)
    requires Readable(mem, at, limit)
    ensures limit == 0 ==> Vector(mem, at, limit) == []
    ensures limit > 0 ==> at < |mem| && (SignedLow(mem[at]) == AT_NULL ==> Vector(mem, at, limit) == [])
    ensures limit > 0 && SignedLow(mem[at]) != AT_NULL ==>
              at + 1 < |mem| && Readable(mem, at + 2, limit - 1)
              && Vector(mem, at, limit) == [Entry(SignedLow(mem[at]), mem[at + 1])] + Vector(mem, at + 2, limit - 1)
  {
  }

  lemma LastOfNothing()
    ensures forall tag :: Last([], tag) == Absent
  {
  }

  lemma LastOfMore(v: seq<Entry>, e: Entry)
    ensures forall tag :: Last(v + [e], tag) == if e.tag == tag then Present(e.value) else Last(v, tag)
  {
    assert (v + [e])[..|v|] == v;
  }

  method Probe(mem: seq<Word64>, global: Pointer, environ: Pointer) returns (r: Report)
    requires environ.At? ==> EndsInZero(mem, environ.index)
    requires global.At? ==> Readable(mem, global.index, CAP)
    ensures r == ReportOf(mem, global, environ)
  {
    var envwalk, _ := WalkEnviron(mem, environ);
    if global.Null? && envwalk.Null? {
      return NoVector(NullBoth);
    }
    if global.Null? && envwalk.At? {
      return NoVector(GlobalNull);
    }
    var count, phdr, phnum, entry, base, execfd, truncated := Scan(mem, global.index);
    return Scanned(if global != envwalk then Mismatch else Agreed,
                   count, phdr, phnum, entry, base, execfd, ShownLong(phnum), ShownInt(execfd), truncated);
  }

  function ReportOf(mem: seq<Word64>, global: Pointer, environ: Pointer): Report
    requires environ.At? ==> EndsInZero(mem, environ.index)
    requires global.At? ==> Readable(mem, global.index, CAP)
  {
    match global
    case Null => NoVector(if environ.Null? then NullBoth else GlobalNull)
    case At(g) =>
      var v := Vector(mem, g, CAP);
      Scanned(if environ.At? && g == FirstZero(mem, environ.index) + 1 then Agreed else Mismatch,
              |v|, Last(v, AT_PHDR), Last(v, AT_PHNUM), Last(v, AT_ENTRY), Last(v, AT_BASE), Last(v, AT_EXECFD),
              ShownLong(Last(v, AT_PHNUM)), ShownInt(Last(v, AT_EXECFD)), |v| == CAP)
  }

  /** The first zero word from a place on. */
  ghost predicate ZeroAt(mem: seq<Word64>, from: nat, z: int) {
    from <= z < |mem| && mem[z] == 0 && forall j | from <= j < z :: mem[j] != 0
  }

  /**
   The status says how the two pointers stand: both missing, the global one missing, equal (the global one
   points past the first zero word after `environ`), or different. A vector is looked at unless the global
   pointer is missing.
   */
  lemma StatusIsExact(mem: seq<Word64>, global: Pointer, environ: Pointer)
    requires environ.At? ==> EndsInZero(mem, environ.index)
    requires global.At? ==> Readable(mem, global.index, CAP)
    ensures var r := ReportOf(mem, global, environ);
            && (r.status == NullBoth <==> global == Null && environ == Null)
            && (r.status == GlobalNull <==> global == Null && environ != Null)
            && (r.status == Agreed <==>
                global != Null && environ != Null && exists z :: ZeroAt(mem, environ.index, z) && global.index == z + 1)
            && (r.status == Mismatch <==>
                global != Null && (environ == Null || forall z | ZeroAt(mem, environ.index, z) :: global.index != z + 1))
            && (r.NoVector? <==> global == Null)
  {
    if environ.At? {
      var z := FirstZero(mem, environ.index);
      assert ZeroAt(mem, environ.index, z);
    }
  }

  /** What is printed for two findings is their value modulo the size of a C `long` and `int`, zero if absent. */
  lemma ShownIsSigned(mem: seq<Word64>, global: Pointer, environ: Pointer)
    requires environ.At? ==> EndsInZero(mem, environ.index)
    requires global.At? && Readable(mem, global.index, CAP)
    ensures var r := ReportOf(mem, global, environ);
            && -0x8000_0000_0000_0000 <= r.phnumShown < 0x8000_0000_0000_0000
            && -0x8000_0000 <= r.execfdShown < 0x8000_0000
            && (match r.phnum case Absent => r.phnumShown == 0
                              case Present(v) => (v - r.phnumShown) % 0x1_0000_0000_0000_0000 == 0)
            && (match r.execfd case Absent => r.execfdShown == 0
                               case Present(v) => (v - r.execfdShown) % 0x1_0000_0000 == 0)
  {
    hide Vector, Readable, Last, SignedLong, SignedLow, FirstZero;
    match Last(Vector(mem, global.index, CAP), AT_PHNUM) {
      case Absent =>
      case Present(v) => LongIsSigned(v);
    }
    match Last(Vector(mem, global.index, CAP), AT_EXECFD) {
      case Absent =>
      case Present(v) => LowIsSigned(v);
    }
  }

  lemma LongIsSigned(w: Word64)
    ensures -0x8000_0000_0000_0000 <= SignedLong(w) < 0x8000_0000_0000_0000
    ensures (w - SignedLong(w)) % 0x1_0000_0000_0000_0000 == 0
  {
  }

  lemma LowIsSigned(w: Word64)
    ensures -0x8000_0000 <= SignedLow(w) < 0x8000_0000
    ensures (w - SignedLow(w)) % 0x1_0000_0000 == 0
  {
    var low := w % 0x1_0000_0000;
    assert w == w / 0x1_0000_0000 * 0x1_0000_0000 + low;
    if SignedLow(w) == low {
      Multiple(w - low, w / 0x1_0000_0000);
    } else {
      Multiple(w - (low - 0x1_0000_0000), w / 0x1_0000_0000 + 1);
    }
  }

  lemma Multiple(n: int, k: int)
    requires n == k * 0x1_0000_0000
    ensures n % 0x1_0000_0000 == 0
  {
  }

  // ---- an initial process stack ------------------------------------------------------------------------------

  ghost predicate Pointers(ws: seq<Word64>) {
    forall i | 0 <= i < |ws| :: ws[i] != 0
  }

  /** An entry in memory, with any padding. */
  datatype RawEntry = RawEntry(tag: int, pad: int, value: Word64)

  ghost predicate Proper(aux: seq<RawEntry>) {
    forall i | 0 <= i < |aux| :: 0 < aux[i].tag < 0x8000_0000 && 0 <= aux[i].pad < 0x1_0000_0000
  }

  function Words(aux: seq<RawEntry>): (ws: seq<Word64>)
    requires Proper(aux)
    ensures |ws| == 2 * |aux|
  {
    if aux == [] then [] else [0x1_0000_0000 * aux[0].pad + aux[0].tag, aux[0].value] + Words(aux[1..])
  }

  function Entries(aux: seq<RawEntry>): seq<Entry> {
    seq(|aux|, i requires 0 <= i < |aux| => Entry(aux[i].tag, aux[i].value))
  }

  /** argc, argv, NULL, envp, NULL, and the vector ended by AT_NULL (section 3.4.1 of the System V ABI AMD64 supplement). */
  function Stack(argv: seq<Word64>, envp: seq<Word64>, aux: seq<RawEntry>, nullPad: Word64): seq<Word64>
    requires |argv| < 0x8000_0000 && Proper(aux)
  {
    [|argv|] + argv + [0] + envp + [0] + Words(aux) + [nullPad - nullPad % 0x1_0000_0000]
  }

  /** Where `environ` points, and where the vector is. */
  function EnvironOf(argv: seq<Word64>): nat {
    |argv| + 2
  }

  function AuxvOf(argv: seq<Word64>, envp: seq<Word64>): nat {
    |argv| + |envp| + 3
  }

  function Min(a: nat, b: nat): nat {
    if a < b then a else b
  }

  lemma {:induction false} VectorOfWords(mem: seq<Word64>, at: nat, aux: seq<RawEntry>, limit: nat)
    requires Proper(aux) && at + 2 * |aux| < |mem|
    requires mem[at..at + 2 * |aux|] == Words(aux) && SignedLow(mem[at + 2 * |aux|]) == AT_NULL
    ensures Readable(mem, at, limit)
    ensures Vector(mem, at, limit) == Entries(aux)[..Min(|aux|, limit)]
    decreases limit
  {
    if limit > 0 && aux != [] {
      var words := mem[at..at + 2 * |aux|];
      assert mem[at] == words[0] == 0x1_0000_0000 * aux[0].pad + aux[0].tag;
      assert mem[at + 1] == words[1] == aux[0].value;
      LowOfRaw(aux[0]);
      assert mem[at + 2..at + 2 + 2 * |aux[1..]|] == words[2..] == Words(aux[1..]);
      VectorOfWords(mem, at + 2, aux[1..], limit - 1);
      assert Entries(aux)[0] == Entry(aux[0].tag, aux[0].value);
      assert Entries(aux)[1..] == Entries(aux[1..]);
    }
  }

  lemma LowOfRaw(e: RawEntry)
    requires 0 < e.tag < 0x8000_0000 && 0 <= e.pad < 0x1_0000_0000
    ensures SignedLow(0x1_0000_0000 * e.pad + e.tag) == e.tag
  {
  }

  /** On every initial stack the walk from `environ` lands on entry 0 of the vector. */
  lemma WalkLandsOnVector(argv: seq<Word64>, envp: seq<Word64>, aux: seq<RawEntry>, nullPad: Word64)
    requires |argv| < 0x8000_0000 && Pointers(envp) && Proper(aux)
    ensures var mem := Stack(argv, envp, aux, nullPad);
            && EndsInZero(mem, EnvironOf(argv))
            && FirstZero(mem, EnvironOf(argv)) + 1 == AuxvOf(argv, envp)
  {
    var mem, e := Stack(argv, envp, aux, nullPad), EnvironOf(argv);
    assert mem[e + |envp|] == 0;
    assert forall i | e <= i < e + |envp| :: mem[i] == envp[i - e];
  }

  lemma StackVector(argv: seq<Word64>, envp: seq<Word64>, aux: seq<RawEntry>, nullPad: Word64)
    requires |argv| < 0x8000_0000 && Proper(aux)
    ensures var mem, at := Stack(argv, envp, aux, nullPad), AuxvOf(argv, envp);
            && Readable(mem, at, CAP) && Vector(mem, at, CAP) == Entries(aux)[..Min(|aux|, CAP)]
  {
    var mem, at := Stack(argv, envp, aux, nullPad), AuxvOf(argv, envp);
    assert mem[at..at + 2 * |aux|] == Words(aux);
    assert mem[at + 2 * |aux|] == nullPad - nullPad % 0x1_0000_0000;
    VectorOfWords(mem, at, aux, CAP);
  }

  /**
   On every initial stack with the global in order, the report says so, and every finding is the last
   matching one of the first 65 entries.
   */
  lemma StackReport(argv: seq<Word64>, envp: seq<Word64>, aux: seq<RawEntry>, nullPad: Word64)
    requires |argv| < 0x8000_0000 && Pointers(envp) && Proper(aux)
    ensures var mem := Stack(argv, envp, aux, nullPad);
            && EndsInZero(mem, EnvironOf(argv)) && Readable(mem, AuxvOf(argv, envp), CAP)
            && var r := ReportOf(mem, At(AuxvOf(argv, envp)), At(EnvironOf(argv)));
               var looked := Entries(aux)[..Min(|aux|, CAP)];
               && r.Scanned? && r.status == Agreed && r.entries == Min(|aux|, CAP) && r.truncated == (|aux| >= CAP)
               && r.phdr == Last(looked, AT_PHDR) && r.base == Last(looked, AT_BASE) && r.entry == Last(looked, AT_ENTRY)
               && r.phnum == Last(looked, AT_PHNUM) && r.execfd == Last(looked, AT_EXECFD)
  {
    hide Stack, Last;
    WalkLandsOnVector(argv, envp, aux, nullPad);
    StackVector(argv, envp, aux, nullPad);
  }

  // ---- what the cap costs --------------------------------------------------------------------------------------

  /** The verdict on a process: what the program says about an initial stack with the global in order. */
  ghost predicate Verdict(argv: seq<Word64>, envp: seq<Word64>, aux: seq<RawEntry>, nullPad: Word64)
    requires |argv| < 0x8000_0000 && Pointers(envp) && Proper(aux)
  {
    StackReport(argv, envp, aux, nullPad);
    PhdrMissing(ReportOf(Stack(argv, envp, aux, nullPad), At(AuxvOf(argv, envp)), At(EnvironOf(argv))))
  }

  /** It is right when it says what the whole vector says. */
  ghost predicate Right(argv: seq<Word64>, envp: seq<Word64>, aux: seq<RawEntry>, nullPad: Word64)
    requires |argv| < 0x8000_0000 && Pointers(envp) && Proper(aux)
  {
    Verdict(argv, envp, aux, nullPad) <==> Missing(Last(Entries(aux), AT_PHDR))
  }

  /** With AT_NULL at index 65 or before, verdict and every finding are those of the whole vector. */
  lemma CappedVerdict(argv: seq<Word64>, envp: seq<Word64>, aux: seq<RawEntry>, nullPad: Word64)
    requires |argv| < 0x8000_0000 && Pointers(envp) && Proper(aux) && |aux| <= CAP
    ensures Right(argv, envp, aux, nullPad)
    ensures var mem, all := Stack(argv, envp, aux, nullPad), Entries(aux);
            && EndsInZero(mem, EnvironOf(argv)) && Readable(mem, AuxvOf(argv, envp), CAP)
            && var r := ReportOf(mem, At(AuxvOf(argv, envp)), At(EnvironOf(argv)));
               r.Scanned? && r.entries == |aux| && r.phdr == Last(all, AT_PHDR) && r.phnum == Last(all, AT_PHNUM)
               && r.entry == Last(all, AT_ENTRY) && r.base == Last(all, AT_BASE) && r.execfd == Last(all, AT_EXECFD)
  {
    hide Stack, Last, ReportOf;
    StackReport(argv, envp, aux, nullPad);
    assert Entries(aux)[..|aux|] == Entries(aux);
  }

  /** Two vectors that do not differ up to index 65, the end of the vector included. */
  predicate SameStart(v: seq<RawEntry>, w: seq<RawEntry>) {
    v[..Min(|v|, CAP + 1)] == w[..Min(|w|, CAP + 1)]
  }

  /**
   The verdict on a vector's first entries is right however the vector goes on exactly if it does not
   go on: if AT_NULL lies at index 65 or before.
   */
  lemma VerdictExact(argv: seq<Word64>, envp: seq<Word64>, aux: seq<RawEntry>, nullPad: Word64)
    requires |argv| < 0x8000_0000 && Pointers(envp) && Proper(aux)
    ensures (forall w | Proper(w) && SameStart(aux, w) :: Right(argv, envp, w, nullPad)) <==> |aux| <= CAP
  {
    hide Right;
    if |aux| <= CAP {
      forall w | Proper(w) && SameStart(aux, w) ensures Right(argv, envp, w, nullPad) {
        assert w == aux;
        CappedVerdict(argv, envp, aux, nullPad);
      }
    } else {
      var w := Misled(argv, envp, aux, nullPad);
      assert SameStart(aux, w);
    }
  }

  /** Any 65 entries can be followed by one for which the capped verdict is wrong. */
  lemma CapCanMislead(v: seq<Entry>)
    requires |v| >= CAP
    ensures exists e: Entry :: e.tag == AT_PHDR && Missing(Last(v[..CAP], AT_PHDR)) != Missing(Last(v + [e], AT_PHDR))
  {
    var e := Entry(AT_PHDR, if Missing(Last(v[..CAP], AT_PHDR)) then 1 else 0);
    LastOfMore(v, e);
    assert Missing(Last(v[..CAP], AT_PHDR)) != Missing(Last(v + [e], AT_PHDR));
  }

  /** A longer vector can always be cut off after index 65 and ended by one more entry that makes the verdict wrong. */
  lemma Misled(argv: seq<Word64>, envp: seq<Word64>, aux: seq<RawEntry>, nullPad: Word64) returns (w: seq<RawEntry>)
    requires |argv| < 0x8000_0000 && Pointers(envp) && Proper(aux) && |aux| > CAP
    ensures Proper(w) && SameStart(aux, w) && !Right(argv, envp, w, nullPad)
  {
    hide Last, Stack, ReportOf;
    var start := aux[..CAP + 1];
    CapCanMislead(Entries(start));
    var e: Entry :| e.tag == AT_PHDR && Missing(Last(Entries(start)[..CAP], AT_PHDR)) != Missing(Last(Entries(start) + [e], AT_PHDR));
    w := start + [RawEntry(AT_PHDR, 0, e.value)];
    assert Entries(w) == Entries(start) + [e];
    assert Entries(w)[..CAP] == Entries(start)[..CAP];
    StackReport(argv, envp, w, nullPad);
  }
}

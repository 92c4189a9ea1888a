/**
 Snapshots of a port namespace and their comparison. The comparison only looks for every earlier
 entry among the later ones; that this is equality rests on entries being distinct.
 */
module Baseline {
  import opened Pigeonhole

  /** Mach's 32-bit names, type masks and counts. */
  type Word = x: int | 0 <= x < 0x1_0000_0000

  const KERN_SUCCESS: Word := 0
  const KERN_NOT_SUPPORTED: Word := 46

  /** `mach_port_names` fills two arrays, whose counts are their lengths. */
  datatype Snapshot = Snapshot(names: seq<Word>, types: seq<Word>, valid: bool, kr: Word)

  /** The counts fit in 32 bits. */
  ghost predicate Sized(s: Snapshot) {
    |s.names| < 0x1_0000_0000 && |s.types| < 0x1_0000_0000
  }

  predicate UnsupportedGap(s: Snapshot) {
    !s.valid && s.kr == KERN_NOT_SUPPORTED
  }

  /** The contract's word for a usable listing: it came, or the call is the documented unsupported one. */
  predicate Known(s: Snapshot) {
    s.valid || s.kr == KERN_NOT_SUPPORTED
  }

  predicate BlocksProbe(s: Snapshot) {
    !s.valid && !UnsupportedGap(s)
  }

  /** An `int` holding the low 32 bits of a number. */
  function ToInt(n: int): int {
    var w := n % 0x1_0000_0000;
    if w < 0x8000_0000 then w else w - 0x1_0000_0000
  }

  /** The i-th name with its type. */
  function Entry(s: Snapshot, i: nat): (Word, Word)
    requires i < |s.names| == |s.types|
  {
    (s.names[i], s.types[i])
  }

  function Entries(s: Snapshot): (es: seq<(Word, Word)>)
    requires |s.names| == |s.types|
    ensures |es| == |s.names|
  {
    seq(|s.names|, i requires 0 <= i < |s.names| => Entry(s, i))
  }

  /** What the comparison answers: counts agree and every earlier entry is still there. */
  ghost predicate Matches(before: Snapshot, after: Snapshot) {
    || (UnsupportedGap(before) && UnsupportedGap(after))
    || (&& before.valid && after.valid
        && |before.names| == |before.types| == |after.names| == |after.types|
        && Elements(Entries(before)) <= Elements(Entries(after)))
  }

  /** The i-th earlier entry is among the first n later ones. */
  ghost predicate FoundIn(before: Snapshot, i: nat, after: Snapshot, n: nat)
    requires i < |before.names| == |before.types| && n <= |after.names| == |after.types|
  {
    exists k | 0 <= k < n :: Entry(after, k) == Entry(before, i)
  }

  lemma FoundIsSubset(before: Snapshot, after: Snapshot)
    requires |before.names| == |before.types| && |after.names| == |after.types|
    ensures (Elements(Entries(before)) <= Elements(Entries(after)))
            <==> (forall i | 0 <= i < |before.names| :: FoundIn(before, i, after, |after.names|))
  {
    var es, gs := Entries(before), Entries(after);
    forall i | 0 <= i < |es| ensures es[i] in gs <==> FoundIn(before, i, after, |gs|) {
      assert forall k | 0 <= k < |gs| :: gs[k] == Entry(after, k);
    }
    assert forall i | 0 <= i < |es| :: es[i] in Elements(es);
  }

  lemma ToIntRange(n: int)
    requires -0x1_0000_0000 <= n < 0x1_0000_0000
    ensures -0x8000_0000 <= ToInt(n) < 0x8000_0000
    ensures ToInt(n) in {n, n - 0x1_0000_0000, n + 0x1_0000_0000}
  {
  }

  lemma Difference(m: Word, n: Word)
    ensures ToInt(ToInt(n) - ToInt(m)) == ToInt(n - m)
    ensures ToInt(n - m) == 0 <==> m == n
  {
    hide ToInt;
    ToIntRange(m);
    ToIntRange(n);
    ToIntRange(n - m);
    ToIntRange(ToInt(n) - ToInt(m));
  }

  method Compare(before: Snapshot, after: Snapshot) returns (same: bool, delta: int)
    requires Sized(before) && Sized(after)
    ensures same == Matches(before, after)
    ensures delta == if before.valid && after.valid then ToInt(|after.names| - |before.names|) else 0
    ensures same ==> delta == 0
  {
    hide Elements, Entries, ToInt;
    if UnsupportedGap(before) && UnsupportedGap(after) {
      return true, 0;
    }
    if !before.valid || !after.valid {
      return false, 0;
    }
    Difference(|before.names|, |after.names|);
    delta := ToInt(ToInt(|after.names|) - ToInt(|before.names|));
    if delta != 0 || |before.types| != |before.names| || |after.types| != |after.names| {
      return false, delta;
    }
    FoundIsSubset(before, after);
    var i := 0;
    while i < |before.names|
      invariant i <= |before.names|
      invariant forall k | 0 <= k < i :: FoundIn(before, k, after, |after.names|)
    {
      var found := false;
      var n := 0;
      while n < |after.names| && !found
        invariant n <= |after.names|
        invariant found == FoundIn(before, i, after, n)
      {
        if before.names[i] == after.names[n] && before.types[i] == after.types[n] {
          found := true;
          assert Entry(after, n) == Entry(before, i);
        }
        n := n + 1;
      }
      if !found {
        return false, delta;
      }
      i := i + 1;
    }
    same := true;
  }

  // ---- when the answer means equality ------------------------------------------------------------------

  /** What a successful `mach_port_names` delivers: one type per name. */
  ghost predicate Captured(s: Snapshot) {
    s.valid && |s.names| == |s.types| < 0x8000_0000
  }

  /** The two snapshots hold the same entries, and equally many. */
  ghost predicate SameNamespace(a: Snapshot, b: Snapshot)
    requires |a.names| == |a.types| && |b.names| == |b.types|
  {
    |a.names| == |b.names| && Elements(Entries(a)) == Elements(Entries(b))
  }

  ghost predicate Distinct(s: Snapshot)
    requires |s.names| == |s.types|
  {
    NoDuplicates(Entries(s))
  }

  /** With distinct earlier entries the one-directional check is equality. */
  lemma MatchIsEquality(before: Snapshot, after: Snapshot)
    requires Captured(before) && Captured(after) && Distinct(before)
    ensures Matches(before, after) <==> SameNamespace(before, after)
    ensures Matches(before, after) ==> Distinct(after)
  {
    if Matches(before, after) {
      ElementCount(Entries(before));
      ElementCount(Entries(after));
      SubsetCount(Elements(Entries(before)), Elements(Entries(after)));
    }
  }

  /** With a repeated earlier entry some different namespace is taken for equal. */
  lemma RepetitionMisleads(before: Snapshot) returns (after: Snapshot)
    requires Captured(before) && !Distinct(before)
    ensures Captured(after) && Matches(before, after) && !SameNamespace(before, after)
  {
    var es := Entries(before);
    var i, j :| 0 <= i < j < |es| && es[i] == es[j];
    var spare: seq<(Word, Word)> := seq(|es| + 1, k requires 0 <= k <= |es| => (0, k));
    ElementCount(es);
    var f := FreeCandidate(spare, Elements(es));
    after := before.(names := before.names[j := spare[f].0], types := before.types[j := spare[f].1]);
    var es2 := Entries(after);
    assert forall k | 0 <= k < |es| :: es2[k] == if k == j then spare[f] else es[k];
    forall e | e in es ensures e in es2 {
      var k :| 0 <= k < |es| && es[k] == e;
      assert es2[if k == j then i else k] == e;
    }
    assert es2[j] in Elements(es2);
  }

  /**
   The documented meaning, same name and type entries, holds against every later snapshot exactly
   when the earlier snapshot has no repeated entry.
   */
  lemma CompareExact(before: Snapshot)
    requires Captured(before)
    ensures (forall after | Captured(after) :: Matches(before, after) <==> SameNamespace(before, after))
              <==> Distinct(before)
  {
    if Distinct(before) {
      forall after | Captured(after) ensures Matches(before, after) <==> SameNamespace(before, after) {
        MatchIsEquality(before, after);
      }
    } else {
      var after := RepetitionMisleads(before);
    }
  }

  /** Snapshots a kernel takes: distinct entries, or the cataloged unsupported gap. */
  ghost predicate Proper(s: Snapshot) {
    if s.valid then Captured(s) && Distinct(s) else UnsupportedGap(s)
  }

  /** Two snapshots say that nothing changed: equal namespaces, or the unsupported call both times. */
  ghost predicate Unchanged(before: Snapshot, after: Snapshot) {
    if before.valid then after.valid && |before.names| == |before.types| && |after.names| == |after.types| && SameNamespace(before, after)
    else !after.valid && before.kr == after.kr == KERN_NOT_SUPPORTED
  }

  ghost predicate Genuine(s: Snapshot) {
    s.valid ==> Captured(s) && Distinct(s)
  }

  /** Where kernels list distinct entries the comparison says exactly that, and then nothing blocks the probe. */
  lemma MatchMeansUnchanged(before: Snapshot, after: Snapshot)
    requires Genuine(before) && Genuine(after)
    ensures Matches(before, after) <==> Unchanged(before, after)
    ensures Matches(before, after) ==> !BlocksProbe(before) && !BlocksProbe(after)
  {
    if before.valid && after.valid {
      MatchIsEquality(before, after);
    }
  }

  /** On the snapshots a kernel takes the comparison is an equivalence; a gap only equals a gap. */
  lemma CompareIsEquivalence(a: Snapshot, b: Snapshot, c: Snapshot)
    requires Proper(a) && Proper(b) && Proper(c)
    ensures Matches(a, a)
    ensures Matches(a, b) ==> Matches(b, a) && a.valid == b.valid
    ensures Matches(a, b) && Matches(b, c) ==> Matches(a, c)
  {
    if a.valid && b.valid {
      MatchIsEquality(a, b);
    }
  }
}

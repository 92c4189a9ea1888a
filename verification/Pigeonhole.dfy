/** Counting arguments about sequences without repetitions. */
module Pigeonhole {

  ghost predicate NoDuplicates<T>(s: seq<T>) {
    forall i, j | 0 <= i < j < |s| :: s[i] != s[j]
  }

  function Elements<T>(s: seq<T>): set<T> {
    set x | x in s
  }

  /** A sequence has at most as many elements as places, and as many only without repetitions. */
  lemma {:induction false} ElementCount<T>(s: seq<T>)
    ensures |Elements(s)| <= |s|
    ensures |Elements(s)| == |s| <==> NoDuplicates(s)
  {
    if s != [] {
      var init, x := s[..|s| - 1], s[|s| - 1];
      ElementCount(init);
      if x in init {
        assert Elements(s) == Elements(init);
        var i :| 0 <= i < |init| && init[i] == x;
        assert s[i] == s[|s| - 1];
      } else {
        assert Elements(s) == Elements(init) + {x};
        assert forall i | 0 <= i < |init| :: s[i] == init[i];
      }
    }
  }

  lemma {:induction false} SubsetCount<T>(a: set<T>, b: set<T>)
    requires a <= b
    ensures |a| <= |b|
    ensures |a| == |b| ==> a == b
  {
    if a != {} {
      var x :| x in a;
      SubsetCount(a - {x}, b - {x});
    }
  }

  /** More distinct candidates than taken places leave one candidate free. */
  lemma FreeCandidate<T>(candidates: seq<T>, taken: set<T>) returns (i: nat)
    requires NoDuplicates(candidates) && |taken| < |candidates|
    ensures i < |candidates| && candidates[i] !in taken
  {
    if forall k | 0 <= k < |candidates| :: candidates[k] in taken {
      ElementCount(candidates);
      SubsetCount(Elements(candidates), taken);
    }
    i :| 0 <= i < |candidates| && candidates[i] !in taken;
  }
}

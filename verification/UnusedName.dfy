/** The search for a port name that is not in the task's namespace. */
module UnusedName {
  import opened Pigeonhole
  import opened Baseline
  import opened MachKernel

  const FIRST: Word := 0x6f240003
  const STRIDE: Word := 0x100
  const TRIES: nat := 1024

  /** The k-th name tried, in unsigned 32-bit arithmetic. */
  function Candidate(k: nat): Word {
    (FIRST + STRIDE * k) % 0x1_0000_0000
  }

  function Candidates(): seq<Word> {
    seq(TRIES, k requires 0 <= k < TRIES => Candidate(k))
  }

  /** Some name tried is not in a namespace. */
  ghost predicate SomeUnused(space: set<Word>) {
    exists k :: 0 <= k < TRIES && Candidate(k) !in space
  }

  /** `space` holds the names for which `mach_port_type` succeeds. */
  method FindNonexistent(space: set<Word>) returns (name: Word)
    ensures name in Candidates() && (name in space ==> name == FIRST)
    ensures name !in space <==> SomeUnused(space)
  {
    var candidate := FIRST;
    var i := 0;
    assert Candidate(0) == FIRST;
    while i < TRIES
      invariant i <= TRIES && candidate == Candidate(i)
      invariant forall k | 0 <= k < i :: Candidate(k) in space
    {
      if candidate !in space {
        assert Candidates()[i] == candidate;
        return candidate;
      }
      candidate := (candidate + STRIDE) % 0x1_0000_0000;
      i := i + 1;
    }
    assert Candidates()[0] == FIRST;
    return FIRST;
  }

  /** The additions never wrap, so all names tried are distinct. */
  lemma CandidatesDistinct()
    ensures forall k | 0 <= k < TRIES :: Candidate(k) == FIRST + STRIDE * k
    ensures NoDuplicates(Candidates()) && forall c | c in Candidates() :: ValidName(c)
  {
  }

  /**
   Any namespace with fewer than 1024 names leaves one of the names tried free, and then the search
   delivers a truly nonexistent name.
   */
  lemma SmallNamespaceHasFreeName(space: set<Word>)
    requires |space| < TRIES
    ensures SomeUnused(space)
  {
    CandidatesDistinct();
    var k := FreeCandidate(Candidates(), space);
    assert Candidate(k) !in space;
  }
}

/**
 What `re.finditer(rb"OP150_CHURN_HB iter=(\d+)", text)` finds, and why a scan of a
 sliding window finds the same maximum as a scan of the whole stream.
 */
module HeartbeatScan {
  import opened Decimal

  const TOKEN := "OP150_CHURN_HB iter="

  /** Number of bytes the reader keeps between two chunks. */
  const WINDOW: nat := 512

  /** The pattern matches at offset `i`: the literal text followed by at least one digit. */
  predicate TokenAt(s: string, i: int) {
    && 0 <= i
    && i + |TOKEN| < |s|
    && s[i..i + |TOKEN|] == TOKEN
    && IsDigit(s[i + |TOKEN|])
  }

  /** First offset at or after `i` that does not hold a digit: where a greedy `\d+` stops. */
  function RunEnd(s: string, i: nat): (e: nat)
    requires i <= |s|
    ensures i <= e <= |s|
    ensures AllDigits(s[i..e])
    ensures e < |s| ==> !IsDigit(s[e])
    decreases |s| - i
  {
    if i < |s| && IsDigit(s[i]) then
      var e := RunEnd(s, i + 1);
      assert s[i..e] == [s[i]] + s[i + 1..e];
      e
    else i
  }

  function TokenEnd(s: string, i: int): (e: nat)
    requires TokenAt(s, i)
    ensures i + |TOKEN| < e <= |s|
  {
    RunEnd(s, i + |TOKEN| + 1)
  }

  function TokenDigits(s: string, i: int): (d: string)
    requires TokenAt(s, i)
    ensures AllDigits(d)
  {
    var d := s[i + |TOKEN|..TokenEnd(s, i)];
    assert d == [s[i + |TOKEN|]] + s[i + |TOKEN| + 1..TokenEnd(s, i)];
    d
  }

  function TokenValue(s: string, i: int): nat
    requires TokenAt(s, i)
  {
    Value(TokenDigits(s, i))
  }

  /** The iteration numbers in the order `finditer` yields them, scanning from `pos`. */
  function FindAll(s: string, pos: nat): seq<nat>
    requires pos <= |s|
    decreases |s| - pos
  {
    if pos == |s| then []
    else if TokenAt(s, pos) then [TokenValue(s, pos)] + FindAll(s, TokenEnd(s, pos))
    else FindAll(s, pos + 1)
  }

  function Max(a: nat, b: nat): nat {
    if a < b then b else a
  }

  /** The largest number of a list, or the given floor. */
  function MaxOf(floor: nat, xs: seq<nat>): nat
    decreases |xs|
  {
    if xs == [] then floor else MaxOf(Max(floor, xs[0]), xs[1..])
  }

  /** Maximum heartbeat of a whole-stream scan; 0 when there is none. */
  function ScanMax(s: string): nat {
    MaxOf(0, FindAll(s, 0))
  }

  // ---- greedy scanning misses no token -----------------------------------------------------

  /** `m` is the maximum of `floor` and of the values of the tokens at or after `pos`. */
  ghost predicate IsMaxFrom(s: string, pos: nat, floor: nat, m: nat) {
    && floor <= m
    && (forall i | pos <= i && TokenAt(s, i) :: TokenValue(s, i) <= m)
    && (m == floor || exists i :: pos <= i && TokenAt(s, i) && TokenValue(s, i) == m)
  }

  lemma TokenByte(s: string, i: int, j: int)
    requires TokenAt(s, i) && i <= j < TokenEnd(s, i)
    ensures if j < i + |TOKEN| then s[j] == TOKEN[j - i] else IsDigit(s[j])
  {
    if j < i + |TOKEN| {
      assert s[j] == s[i..i + |TOKEN|][j - i];
    } else {
      assert s[j] == TokenDigits(s, i)[j - i - |TOKEN|];
    }
  }

  /** The letter O opens the token and occurs nowhere else in it, so tokens cannot overlap. */
  lemma NoTokenInside(s: string, i: int, j: int)
    requires TokenAt(s, i) && i < j < TokenEnd(s, i)
    ensures !TokenAt(s, j)
  {
    TokenByte(s, i, j);
    if TokenAt(s, j) {
      TokenByte(s, j, j);
    }
  }

  lemma {:induction false} FindAllIsMax(s: string, pos: nat, floor: nat)
    requires pos <= |s|
    ensures IsMaxFrom(s, pos, floor, MaxOf(floor, FindAll(s, pos)))
    decreases |s| - pos
  {
    if pos < |s| {
      if TokenAt(s, pos) {
        var e := TokenEnd(s, pos);
        FindAllIsMax(s, e, Max(floor, TokenValue(s, pos)));
        forall j | pos < j < e ensures !TokenAt(s, j) { NoTokenInside(s, pos, j); }
        assert FindAll(s, pos)[1..] == FindAll(s, e);
      } else {
        FindAllIsMax(s, pos + 1, floor);
      }
    }
  }

  lemma FindAllBound(s: string, floor: nat, i: int)
    ensures floor <= MaxOf(floor, FindAll(s, 0))
    ensures TokenAt(s, i) ==> TokenValue(s, i) <= MaxOf(floor, FindAll(s, 0))
  {
    FindAllIsMax(s, 0, floor);
  }

  lemma FindAllWitness(s: string, floor: nat) returns (i: int)
    requires MaxOf(floor, FindAll(s, 0)) != floor
    ensures TokenAt(s, i) && TokenValue(s, i) == MaxOf(floor, FindAll(s, 0))
  {
    FindAllIsMax(s, 0, floor);
    i :| 0 <= i && TokenAt(s, i) && TokenValue(s, i) == MaxOf(floor, FindAll(s, 0));
  }

  lemma ScanMaxBound(s: string, i: int)
    requires TokenAt(s, i)
    ensures TokenValue(s, i) <= ScanMax(s)
  {
    FindAllBound(s, 0, i);
  }

  lemma ScanMaxWitness(s: string) returns (i: int)
    requires ScanMax(s) > 0
    ensures TokenAt(s, i) && TokenValue(s, i) == ScanMax(s)
  {
    i := FindAllWitness(s, 0);
  }

  // ---- tokens in prefixes and suffixes of a stream -----------------------------------------

  lemma {:induction false} RunEndShift(s: string, k: nat, i: nat)
    requires k + i <= |s|
    ensures RunEnd(s[k..], i) == RunEnd(s, k + i) - k
    decreases |s| - i
  {
    if k + i < |s| && IsDigit(s[k + i]) {
      RunEndShift(s, k, i + 1);
    }
  }

  /** A suffix has exactly the tokens that start inside it, with the same values. */
  lemma TokenInSuffix(s: string, k: nat, i: int)
    requires k <= |s| && 0 <= i
    ensures TokenAt(s[k..], i) == TokenAt(s, k + i)
    ensures TokenAt(s, k + i) ==> TokenEnd(s[k..], i) == TokenEnd(s, k + i) - k
    ensures TokenAt(s, k + i) ==> TokenValue(s[k..], i) == TokenValue(s, k + i)
  {
    if k + i + |TOKEN| < |s| {
      assert s[k..][i..i + |TOKEN|] == s[k + i..k + i + |TOKEN|];
      if TokenAt(s, k + i) {
        RunEndShift(s, k, i + |TOKEN| + 1);
        assert TokenDigits(s[k..], i) == TokenDigits(s, k + i);
      }
    }
  }

  function Min(a: nat, b: nat): nat {
    if a < b then a else b
  }

  lemma {:induction false} RunEndOfPrefix(s: string, n: nat, i: nat)
    requires i <= n <= |s|
    ensures RunEnd(s[..n], i) == Min(n, RunEnd(s, i))
    decreases n - i
  {
    if i < n && IsDigit(s[i]) {
      RunEndOfPrefix(s, n, i + 1);
    }
  }

  lemma SliceOfPrefix(s: string, n: nat, a: nat, b: nat, e: nat)
    requires a <= b <= e <= |s| && b <= n <= |s|
    ensures s[..n][a..b] == s[a..e][..b - a]
  {
  }

  /** In a prefix a token keeps its place; at most its last digits are missing. */
  lemma TokenInPrefix(s: string, n: nat, i: int)
    requires n <= |s|
    ensures TokenAt(s[..n], i) == (TokenAt(s, i) && i + |TOKEN| < n)
    ensures TokenAt(s[..n], i) ==>
              && TokenEnd(s[..n], i) == Min(n, TokenEnd(s, i))
              && TokenDigits(s[..n], i) == s[i + |TOKEN|..Min(n, TokenEnd(s, i))]
              && TokenValue(s[..n], i) <= TokenValue(s, i)
  {
    if 0 <= i && i + |TOKEN| < n {
      assert s[..n][i..i + |TOKEN|] == s[i..i + |TOKEN|];
      if TokenAt(s, i) {
        RunEndOfPrefix(s, n, i + |TOKEN| + 1);
        var e := TokenEnd(s, i);
        SliceOfPrefix(s, n, i + |TOKEN|, Min(n, e), e);
        ValueOfPrefix(TokenDigits(s, i), Min(n, e) - i - |TOKEN|);
      }
    }
  }

  /** More bytes never lower the maximum, although a digit run may still be growing. */
  lemma ScanMaxMonotone(s: string, n: nat)
    requires n <= |s|
    ensures ScanMax(s[..n]) <= ScanMax(s)
  {
    if ScanMax(s[..n]) != 0 {
      var i := ScanMaxWitness(s[..n]);
      TokenInPrefix(s, n, i);
      ScanMaxBound(s, i);
    }
  }
}

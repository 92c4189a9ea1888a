/**
 The serial reader thread of the capture script: it appends every received chunk to a buffer,
 scans the buffer for heartbeats and then keeps the last 512 bytes. The theorems compare it
 with one scan of everything received so far.
 */
module CaptureReader {
  import opened Decimal
  import opened HeartbeatScan

  /** Largest chunk one `recv(4096)` returns. */
  const CHUNK: nat := 4096

  /** What the reader remembers: the kept bytes, the largest heartbeat and when it last rose. */
  datatype View = View(buf: string, last: nat, at: real)

  function Tail(s: string): (t: string)
    ensures |t| <= WINDOW
  {
    if |s| <= WINDOW then s else s[|s| - WINDOW..]
  }

  /** The reader's view after one more chunk, received at time `now`. */
  function Fed(v: View, data: string, now: real): View {
    var text := v.buf + data;
    var last := MaxOf(v.last, FindAll(text, 0));
    View(Tail(text), last, if last > v.last then now else v.at)
  }

  /** The reader thread's variables. */
  class Reader {
    var buf: string
    var lastIter: nat
    var lastIterAt: real

    constructor (now: real)
      ensures Now() == View("", 0, now)
    {
      buf, lastIter, lastIterAt := "", 0, now;
    }

    function Now(): View
      reads this
    {
      View(buf, lastIter, lastIterAt)
    }

    method Feed(data: string, now: real)
      modifies this
      ensures Now() == Fed(old(Now()), data, now)
    {
      buf := buf + data;
      var pos := 0;
      while pos < |buf|
        invariant pos <= |buf| && buf == old(buf) + data
        invariant MaxOf(lastIter, FindAll(buf, pos)) == MaxOf(old(lastIter), FindAll(buf, 0))
        invariant old(lastIter) <= lastIter
        invariant lastIterAt == if lastIter > old(lastIter) then now else old(lastIterAt)
        decreases |buf| - pos
      {
        if TokenAt(buf, pos) {
          var iter := TokenValue(buf, pos);
          assert FindAll(buf, pos)[1..] == FindAll(buf, TokenEnd(buf, pos));
          if iter > lastIter {
            lastIter := iter;
            lastIterAt := now;
          }
          pos := TokenEnd(buf, pos);
        } else {
          pos := pos + 1;
        }
      }
      buf := if |buf| <= WINDOW then buf else buf[|buf| - WINDOW..];
    }
  }

  // ---- a whole reception ---------------------------------------------------------------------

  function Concat(chunks: seq<string>): string {
    if chunks == [] then "" else Concat(chunks[..|chunks| - 1]) + chunks[|chunks| - 1]
  }

  /** One way the byte stream `s` can arrive. */
  ghost predicate Cutting(chunks: seq<string>, s: string) {
    && Concat(chunks) == s
    && forall c | c in chunks :: 0 < |c| <= CHUNK
  }

  /** `last_iter` and the kept bytes once all chunks have been processed. */
  function Received(chunks: seq<string>): View {
    if chunks == [] then View("", 0, 0.0)
    else Fed(Received(chunks[..|chunks| - 1]), chunks[|chunks| - 1], 0.0)
  }

  function TokenLength(s: string, i: int): nat
    requires TokenAt(s, i)
  {
    TokenEnd(s, i) - i
  }

  /** Some token carrying the maximum is at most one byte longer than the kept window. */
  ghost predicate Unmissable(s: string) {
    ScanMax(s) == 0 ||
    exists i :: TokenAt(s, i) && TokenValue(s, i) == ScanMax(s) && TokenLength(s, i) <= WINDOW + 1
  }

  /** What every reception keeps: no value is invented and no short token is missed. */
  ghost predicate Faithful(s: string, v: View) {
    && v.buf == Tail(s)
    && v.last <= ScanMax(s)
    && (forall i | TokenAt(s, i) && TokenLength(s, i) <= WINDOW + 1 :: TokenValue(s, i) <= v.last)
  }

  lemma DropTwice(s: string, a: nat, b: nat)
    requires a + b <= |s|
    ensures s[a..][b..] == s[a + b..]
  {
  }

  lemma DropConcat(t: string, data: string, k: nat)
    requires k <= |t|
    ensures (t + data)[k..] == t[k..] + data
  {
  }

  /** The kept bytes and the new chunk are a suffix of the stream, with the same last 512 bytes. */
  lemma FedText(t: string, data: string)
    ensures Tail(t) + data == (t + data)[|t| - |Tail(t)|..]
    ensures Tail(Tail(t) + data) == Tail(t + data)
  {
    if |t| <= WINDOW {
      assert (t + data)[0..] == t + data;
    } else {
      var k := |t| - WINDOW;
      DropConcat(t, data, k);
      DropTwice(t + data, k, |data|);
      assert k + |data| == |t + data| - WINDOW;
      if data == [] {
        assert (t + data)[k..][0..] == (t + data)[k..];
      }
    }
  }

  /** Left truncation creates no false token: whatever a suffix shows is in the stream. */
  lemma SuffixSound(s: string, k: nat, floor: nat) returns (i: int)
    requires k <= |s| && MaxOf(floor, FindAll(s[k..], 0)) != floor
    ensures k <= i && TokenAt(s, i) && TokenValue(s, i) == MaxOf(floor, FindAll(s[k..], 0))
  {
    var j := FindAllWitness(s[k..], floor);
    TokenInSuffix(s, k, j);
    i := k + j;
  }

  /** A token that ends in earlier bytes stood there with the same value. */
  lemma TokenStoodBefore(t: string, data: string, i: int)
    requires TokenAt(t + data, i) && TokenEnd(t + data, i) <= |t|
    ensures TokenAt(t, i) && TokenEnd(t, i) == TokenEnd(t + data, i)
    ensures TokenValue(t, i) == TokenValue(t + data, i)
  {
    assert (t + data)[..|t|] == t;
    TokenInPrefix(t + data, |t|, i);
    assert TokenDigits(t, i) == TokenDigits(t + data, i);
  }

  /** A token of at most 513 bytes is complete in the window when its last byte arrives. */
  lemma ShortTokenComplete(t: string, data: string, floor: nat, i: int)
    requires TokenAt(t + data, i) && TokenLength(t + data, i) <= WINDOW + 1
    requires TokenAt(t, i) && TokenLength(t, i) <= WINDOW + 1 ==> TokenValue(t, i) <= floor
    ensures TokenValue(t + data, i) <= MaxOf(floor, FindAll(Tail(t) + data, 0))
  {
    hide FindAll, MaxOf, TokenAt, TokenEnd, TokenValue, Tail;
    if TokenEnd(t + data, i) > |t| {
      NewTokenComplete(t, data, floor, i);
    } else {
      TokenStoodBefore(t, data, i);
      FindAllBound(Tail(t) + data, floor, i);
    }
  }

  lemma NewTokenComplete(t: string, data: string, floor: nat, i: int)
    requires TokenAt(t + data, i) && TokenLength(t + data, i) <= WINDOW + 1 && TokenEnd(t + data, i) > |t|
    ensures TokenValue(t + data, i) <= MaxOf(floor, FindAll(Tail(t) + data, 0))
  {
    hide *;
    var k := |t| - |Tail(t)|;
    StartsInWindow(t, t + data, i);
    FedText(t, data);
    TokenInSuffix(t + data, k, i - k);
    FindAllBound((t + data)[k..], floor, i - k);
  }

  lemma StartsInWindow(t: string, s: string, i: int)
    requires TokenAt(s, i) && TokenLength(s, i) <= WINDOW + 1 && TokenEnd(s, i) > |t|
    ensures 0 <= |t| - |Tail(t)| <= i
  {
    hide RunEnd;
  }

  /** A rising maximum is the value of a token of the stream. */
  lemma FedRises(t: string, v: View, data: string, now: real) returns (i: int)
    requires v.buf == Tail(t) && Fed(v, data, now).last != v.last
    ensures TokenAt(t + data, i) && TokenValue(t + data, i) == Fed(v, data, now).last
    ensures TokenLength(t + data, i) <= WINDOW + |data|
  {
    FedText(t, data);
    i := SuffixSound(t + data, |t| - |v.buf|, v.last);
  }

  lemma FedFaithful(t: string, v: View, data: string, now: real)
    requires Faithful(t, v)
    ensures Faithful(t + data, Fed(v, data, now))
  {
    FedText(t, data);
    assert (t + data)[..|t|] == t;
    ScanMaxMonotone(t + data, |t|);
    if Fed(v, data, now).last != v.last {
      var i := FedRises(t, v, data, now);
      ScanMaxBound(t + data, i);
    }
    forall i | TokenAt(t + data, i) && TokenLength(t + data, i) <= WINDOW + 1
      ensures TokenValue(t + data, i) <= Fed(v, data, now).last
    {
      ShortTokenComplete(t, data, v.last, i);
    }
  }

  lemma {:induction false} ReceivedFaithful(chunks: seq<string>)
    ensures Faithful(Concat(chunks), Received(chunks))
  {
    if chunks != [] {
      ReceivedFaithful(chunks[..|chunks| - 1]);
      FedFaithful(Concat(chunks[..|chunks| - 1]), Received(chunks[..|chunks| - 1]), chunks[|chunks| - 1], 0.0);
    }
  }

  /** Windowed scanning refines whole-stream scanning, after every chunk of every reception. */
  lemma WindowRefinesScan(chunks: seq<string>, n: nat)
    requires n <= |chunks|
    requires forall i | TokenAt(Concat(chunks), i) :: TokenLength(Concat(chunks), i) <= WINDOW + 1
    ensures Received(chunks[..n]).last == ScanMax(Concat(chunks[..n]))
  {
    ReceivedFaithful(chunks[..n]);
    var s, t := Concat(chunks), Concat(chunks[..n]);
    ConcatPrefix(chunks, n);
    if ScanMax(t) != 0 {
      var i := ScanMaxWitness(t);
      TokenInPrefix(s, |t|, i);
    }
  }

  lemma {:induction false} ConcatPrefix(chunks: seq<string>, n: nat)
    requires n <= |chunks|
    ensures |Concat(chunks[..n])| <= |Concat(chunks)|
    ensures Concat(chunks[..n]) == Concat(chunks)[..|Concat(chunks[..n])|]
  {
    if n < |chunks| {
      var init := chunks[..|chunks| - 1];
      ConcatPrefix(init, n);
      assert init[..n] == chunks[..n];
    } else {
      assert chunks[..n] == chunks;
    }
  }

  // ---- exactly when no cutting can hide the maximum --------------------------------------------

  /** The stream arriving byte by byte. */
  function Singles(s: string): seq<string> {
    if s == [] then [] else Singles(s[..|s| - 1]) + [[s[|s| - 1]]]
  }

  /** Some piece of at most 513 bytes of a token of `s` reads as `n`. */
  ghost predicate SeenPiece(s: string, i: int, e: int, n: nat) {
    && TokenAt(s, i) && i + |TOKEN| < e <= TokenEnd(s, i) && e - i <= WINDOW + 1
    && AllDigits(s[i + |TOKEN|..e])
    && Value(s[i + |TOKEN|..e]) == n
  }

  /** A reported value is none, or that of a piece seen. */
  ghost predicate SeenInPieces(s: string, n: nat) {
    n == 0 || exists i, e :: SeenPiece(s, i, e, n)
  }

  lemma PieceSurvives(t: string, s: string, n: nat)
    requires t <= s && SeenInPieces(t, n)
    ensures SeenInPieces(s, n)
  {
    if n != 0 {
      var i, e :| SeenPiece(t, i, e, n);
      assert s[..|t|] == t;
      TokenInPrefix(s, |t|, i);
      assert t[i + |TOKEN|..e] == s[i + |TOKEN|..e];
      assert SeenPiece(s, i, e, n);
    }
  }

  lemma ByteSeesPieces(t: string, v: View, b: char)
    requires Faithful(t, v) && SeenInPieces(t, v.last)
    ensures SeenInPieces(t + [b], Fed(v, [b], 0.0).last)
  {
    var n := Fed(v, [b], 0.0).last;
    if n != v.last {
      hide SeenInPieces;
      var i := FedRises(t, v, [b], 0.0);
      TokenIsPiece(t + [b], i);
    } else {
      hide *;
      PieceSurvives(t, t + [b], n);
    }
  }

  lemma TokenIsPiece(s: string, i: int)
    requires TokenAt(s, i) && TokenLength(s, i) <= WINDOW + 1
    ensures SeenInPieces(s, TokenValue(s, i))
  {
    assert SeenPiece(s, i, TokenEnd(s, i), TokenValue(s, i));
  }

  /** Byte by byte, the reader only ever sees pieces of tokens that fit its window. */
  lemma {:induction false} SinglesSeePieces(s: string)
    ensures Cutting(Singles(s), s)
    ensures SeenInPieces(s, Received(Singles(s)).last)
  {
    hide *;
    if s == [] {
      NothingSeen(s);
    } else {
      SinglesOf(s);
      var t, b := s[..|s| - 1], s[|s| - 1];
      assert s == t + [b];
      SinglesSeePieces(t);
      CuttingWhole(Singles(t), t);
      ReceivedFaithful(Singles(t));
      ReceivedOne(Singles(t), b);
      ByteSeesPieces(t, Received(Singles(t)), b);
    }
  }

  lemma SinglesOf(s: string)
    requires s != []
    ensures Singles(s) == Singles(s[..|s| - 1]) + [[s[|s| - 1]]]
  {
  }

  lemma ReceivedOne(chunks: seq<string>, b: char)
    ensures Received(chunks + [[b]]) == Fed(Received(chunks), [b], 0.0)
    ensures Cutting(chunks, Concat(chunks)) ==> Cutting(chunks + [[b]], Concat(chunks) + [b])
  {
    hide Fed;
    assert (chunks + [[b]])[..|chunks|] == chunks;
  }

  lemma CuttingWhole(chunks: seq<string>, s: string)
    requires Cutting(chunks, s)
    ensures Concat(chunks) == s
  {
  }

  lemma NothingSeen(s: string)
    requires s == []
    ensures Cutting(Singles(s), s) && SeenInPieces(s, Received(Singles(s)).last)
  {
  }

  /** A stream whose maximum only stands in longer tokens is misread when it arrives byte by byte. */
  lemma SinglesMiss(s: string)
    requires !Unmissable(s)
    ensures Received(Singles(s)).last != ScanMax(s)
  {
    SinglesSeePieces(s);
    var n := Received(Singles(s)).last;
    if n == ScanMax(s) {
      var i, e :| SeenPiece(s, i, e, n);
      ScanMaxBound(s, i);
      PieceBelowValue(s, i, e, n);
    }
  }

  lemma PieceBelowValue(s: string, i: int, e: int, n: nat)
    requires SeenPiece(s, i, e, n) && n > 0
    ensures n <= TokenValue(s, i)
    ensures n == TokenValue(s, i) ==> TokenLength(s, i) <= WINDOW + 1
  {
    var d := TokenDigits(s, i);
    assert d[..e - i - |TOKEN|] == s[i + |TOKEN|..e];
    ValueOfPrefix(d, e - i - |TOKEN|);
  }

  lemma UnmissableReported(s: string, chunks: seq<string>)
    requires Unmissable(s) && Concat(chunks) == s
    ensures Received(chunks).last == ScanMax(s)
  {
    ReceivedFaithful(chunks);
  }

  /**
   The 512-byte window reports the true maximum for every way of cutting the stream exactly when
   some token with that maximum is at most 513 bytes long.
   */
  lemma WindowExact(s: string)
    ensures (forall chunks | Cutting(chunks, s) :: Received(chunks).last == ScanMax(s)) <==> Unmissable(s)
  {
    if Unmissable(s) {
      forall chunks | Cutting(chunks, s) ensures Received(chunks).last == ScanMax(s) {
        UnmissableReported(s, chunks);
      }
    } else {
      SinglesSeePieces(s);
      SinglesMiss(s);
    }
  }
}

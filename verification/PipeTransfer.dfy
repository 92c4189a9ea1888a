/**
 The status pipe's helpers `write_full` and `read_full` against a kernel that takes or gives any
 number of bytes at a time and interrupts finitely often, and the bytes of a status record.
 */
module PipeTransfer {
  import opened Baseline

  type Byte = x: int | 0 <= x < 256

  // ---- a record of 32-bit words as bytes --------------------------------------------------------------

  function ByteOf(w: Word, i: nat): Byte
    requires i < 4
  {
    if i == 0 then w % 0x100 else if i == 1 then w / 0x100 % 0x100
    else if i == 2 then w / 0x100 / 0x100 % 0x100 else w / 0x100 / 0x100 / 0x100
  }

  /** The words in memory, least significant byte first. */
  function Bytes(ws: seq<Word>): (bs: seq<Byte>)
    ensures |bs| == 4 * |ws|
  {
    seq(4 * |ws|, i requires 0 <= i < 4 * |ws| => ByteOf(ws[i / 4], i % 4))
  }

  function Join(a: int, b: int, c: int, d: int): int {
    a + 0x100 * b + 0x1_0000 * c + 0x100_0000 * d
  }

  function Words(bs: seq<Byte>): (ws: seq<Word>)
    ensures |ws| == |bs| / 4
  {
    seq(|bs| / 4, i requires 0 <= i < |bs| / 4 => Join(bs[4 * i], bs[4 * i + 1], bs[4 * i + 2], bs[4 * i + 3]))
  }

  lemma JoinBytes(w: Word)
    ensures Join(ByteOf(w, 0), ByteOf(w, 1), ByteOf(w, 2), ByteOf(w, 3)) == w
  {
    var high, higher := w / 0x100, w / 0x100 / 0x100;
    assert w == 0x100 * high + w % 0x100;
    assert high == 0x100 * higher + high % 0x100;
    assert higher == 0x100 * (higher / 0x100) + higher % 0x100;
  }

  lemma BytesAt(ws: seq<Word>, i: nat, d: nat)
    requires i < |ws| && d < 4
    ensures Bytes(ws)[4 * i + d] == ByteOf(ws[i], d)
  {
    assert (4 * i + d) / 4 == i && (4 * i + d) % 4 == d;
  }

  lemma WordAt(ws: seq<Word>, i: nat)
    requires i < |ws|
    ensures Words(Bytes(ws))[i] == ws[i]
  {
    hide Bytes, ByteOf, Join;
    BytesAt(ws, i, 0);
    BytesAt(ws, i, 1);
    BytesAt(ws, i, 2);
    BytesAt(ws, i, 3);
    JoinBytes(ws[i]);
  }

  lemma WordsOfBytes(ws: seq<Word>)
    ensures Words(Bytes(ws)) == ws
  {
    forall i | 0 <= i < |ws| ensures Words(Bytes(ws))[i] == ws[i] {
      WordAt(ws, i);
    }
  }

  // ---- the two loops -------------------------------------------------------------------------------------

  /** A buffer with some bytes put in place. */
  function Stored(s: seq<Byte>, at: nat, got: seq<Byte>): (r: seq<Byte>)
    requires at + |got| <= |s|
    ensures |r| == |s|
  {
    s[..at] + got + s[at + |got|..]
  }

  /** What `read` does to the buffer. */
  method Store(buffer: array<Byte>, at: nat, got: seq<Byte>)
    requires at + |got| <= buffer.Length
    modifies buffer
    ensures buffer[..] == Stored(old(buffer[..]), at, got)
  {
    var i := 0;
    while i < |got|
      invariant i <= |got|
      invariant forall k | 0 <= k < buffer.Length ::
          buffer[k] == if at <= k < at + i then got[k - at] else old(buffer[k])
    {
      buffer[at + i] := got[i];
      i := i + 1;
    }
  }

  /**
   A pipe: all bytes it ever took, how many it gave, and the interruptions still to come. It has refused
   once it took or gave nothing of what was asked for, without being interrupted.
   */
  class Pipe {
    var bytes: seq<Byte>
    var given: nat
    var interrupts: nat
    ghost var refused: bool

    predicate Valid()
      reads this
      ensures Valid() ==> given <= |bytes|
    {
      given <= |bytes|
    }

    constructor (interrupts: nat)
      ensures Valid() && bytes == [] && given == 0 && this.interrupts == interrupts && !refused
    {
      bytes, given, refused := [], 0, false;
      this.interrupts := interrupts;
    }

    /** `write`: takes some of the bytes, or answers -1, perhaps with EINTR, or 0. */
    method Write(data: seq<Byte>) returns (n: int, eintr: bool)
      requires Valid()
      modifies this
      ensures Valid() && given == old(given)
      ensures -1 <= n <= |data|
      ensures bytes == if n > 0 then old(bytes) + data[..n] else old(bytes)
      ensures refused == (old(refused) || (n <= 0 && !eintr && data != []))
      ensures if eintr then n == -1 && interrupts < old(interrupts) else interrupts == old(interrupts)
    {
      eintr := *;
      if eintr && interrupts > 0 {
        interrupts := interrupts - 1;
        return -1, true;
      }
      n :| -1 <= n <= |data|;
      eintr := false;
      refused := refused || (n <= 0 && data != []);
      if n > 0 {
        bytes := bytes + data[..n];
      }
    }

    /** `read`: stores some of the next bytes, or answers -1, perhaps with EINTR, or 0. */
    method Read(buffer: array<Byte>, at: nat) returns (n: int, eintr: bool)
      requires Valid() && at <= buffer.Length
      modifies this, buffer
      ensures Valid() && bytes == old(bytes)
      ensures -1 <= n <= buffer.Length - at && given == old(given) + (if n > 0 then n else 0)
      ensures buffer[..] == Stored(old(buffer[..]), at, bytes[old(given)..given])
      ensures refused == (old(refused) || (n <= 0 && !eintr && at < buffer.Length))
      ensures if eintr then n == -1 && interrupts < old(interrupts) else interrupts == old(interrupts)
    {
      eintr := *;
      if eintr && interrupts > 0 {
        interrupts := interrupts - 1;
        return -1, true;
      }
      eintr := false;
      n :| -1 <= n <= buffer.Length - at && n <= |bytes| - given;
      var got := if n > 0 then bytes[given..given + n] else [];
      given := given + |got|;
      refused := refused || (n <= 0 && at < buffer.Length);
      Store(buffer, at, got);
    }
  }

  /**
   True exactly when all bytes went out, in order; otherwise a proper prefix did. Short counts and
   interruptions alone never make it false: only a refusal does.
   */
  method WriteFull(pipe: Pipe, data: seq<Byte>) returns (ok: bool)
    requires pipe.Valid()
    modifies pipe
    ensures pipe.Valid() && pipe.given == old(pipe.given) && pipe.interrupts <= old(pipe.interrupts)
    ensures ok ==> pipe.bytes == old(pipe.bytes) + data
    ensures !ok ==> exists k :: 0 <= k < |data| && pipe.bytes == old(pipe.bytes) + data[..k]
    ensures pipe.refused == (old(pipe.refused) || !ok)
  {
    var p: nat, len := 0, |data|;
    while len > 0
      invariant pipe.Valid() && pipe.given == old(pipe.given) && pipe.interrupts <= old(pipe.interrupts)
      invariant 0 <= len <= |data| && p + len == |data| && pipe.bytes == old(pipe.bytes) + data[..p]
      invariant pipe.refused == old(pipe.refused)
      decreases len, pipe.interrupts
    {
      var n, eintr := pipe.Write(data[p..]);
      if n < 0 {
        if eintr {
          continue;
        }
        return false;
      }
      if n == 0 {
        return false;
      }
      assert data[..p + n] == data[..p] + data[p..][..n];
      p := p + n;
      len := len - n;
    }
    assert data[..p] == data;
    return true;
  }

  /** A buffer after the bytes from one position of the pipe to another were stored at its start. */
  function Filled(bytes: seq<Byte>, from: nat, to: nat, was: seq<Byte>): seq<Byte>
    requires from <= to <= |bytes| && to - from <= |was|
  {
    bytes[from..to] + was[to - from..]
  }

  lemma FillNone(bytes: seq<Byte>, from: nat, was: seq<Byte>)
    requires from <= |bytes|
    ensures Filled(bytes, from, from, was) == was
  {
  }

  lemma FillOn(bytes: seq<Byte>, from: nat, to: nat, further: nat, was: seq<Byte>)
    requires from <= to <= further <= |bytes| && further - from <= |was|
    ensures |Filled(bytes, from, to, was)| == |was|
    ensures var p, now := to - from, Filled(bytes, from, to, was);
            Filled(bytes, from, further, was) == Stored(now, p, bytes[to..further])
  {
  }

  /**
   True exactly when the buffer is filled with the next bytes; otherwise a proper prefix of it is, and
   the pipe refused.
   */
  method ReadFull(pipe: Pipe, buffer: array<Byte>) returns (ok: bool)
    requires pipe.Valid()
    modifies pipe, buffer
    ensures pipe.Valid() && pipe.bytes == old(pipe.bytes) && pipe.interrupts <= old(pipe.interrupts)
    ensures old(pipe.given) <= pipe.given <= old(pipe.given) + buffer.Length
    ensures ok <==> pipe.given == old(pipe.given) + buffer.Length
    ensures buffer[..] == Filled(pipe.bytes, old(pipe.given), pipe.given, old(buffer[..]))
    ensures pipe.refused == (old(pipe.refused) || !ok)
  {
    hide *;
    FillNone(pipe.bytes, pipe.given, buffer[..]);
    var p, len := 0, buffer.Length;
    ghost var from, was := pipe.given, buffer[..];
    while len > 0
      invariant pipe.Valid() && pipe.bytes == old(pipe.bytes) && pipe.interrupts <= old(pipe.interrupts)
      invariant 0 <= p && 0 <= len && p + len == buffer.Length && pipe.given == from + p
      invariant buffer[..] == Filled(pipe.bytes, from, pipe.given, was)
      invariant pipe.refused == old(pipe.refused)
      decreases len, pipe.interrupts
    {
      ghost var held := pipe.given;
      var n, eintr := pipe.Read(buffer, p);
      FillOn(pipe.bytes, from, held, pipe.given, was);
      if n < 0 {
        if eintr {
          continue;
        }
        return false;
      }
      if n == 0 {
        return false;
      }
      p := p + n;
      len := len - n;
    }
    return true;
  }

  /** A record arrives as it was, if and only if neither call was refused; interrupted or cut up it still arrives. */
  method Report(pipe: Pipe, record: seq<Word>, buffer: array<Byte>) returns (arrived: bool)
    requires pipe.Valid() && pipe.given == |pipe.bytes| && buffer.Length == 4 * |record|
    modifies pipe, buffer
    ensures arrived ==> Words(buffer[..]) == record
    ensures pipe.refused == (old(pipe.refused) || !arrived)
    ensures !arrived ==> |pipe.bytes| < |old(pipe.bytes)| + 4 * |record| || pipe.given < |pipe.bytes|
  {
    hide Bytes, Words;
    var sent := WriteFull(pipe, Bytes(record));
    var got := ReadFull(pipe, buffer);
    arrived := got;
    WordsOfBytes(record);
    if arrived {
      assert buffer[..] == pipe.bytes[|pipe.bytes| - buffer.Length..];
      assert buffer[..] == Bytes(record);
    }
  }
}

/**
 Transfers that take several calls: a caller that goes on with what is left
 after every short write or read. The calls are those of `ScullDev`: a write is
 what it adds to the history, a read is an answer that its contract allows.
 */
module ScullTransfer {
  import opened Common
  import opened ScullFlat
  import opened ScullDevice

  /** `ops` are successful writes, one after the other, that move all of `data`. */
  ghost predicate WrittenInFull(quantumLen: nat, pos: nat, data: seq<Byte>, ops: seq<Op>)
    requires 0 < quantumLen
    decreases |ops|
  {
    if ops == [] then data == []
    else
      && data != []
      && var n := Chunk(quantumLen, pos, |data|);
      && ops[0] == WriteOp(pos, data[..n], Written(n))
      && WrittenInFull(quantumLen, pos + n, data[n..], ops[1..])
  }

  /** Several writes have the effect of one. */
  lemma {:induction false} WritesAreOneWrite(quantumLen: nat, h: seq<Op>, pos: nat, data: seq<Byte>, ops: seq<Op>)
    requires 0 < quantumLen && data != [] && WrittenInFull(quantumLen, pos, data, ops)
    ensures After(h + ops) == Apply(After(h), Wrote(pos, data))
    decreases |ops|
  {
    var n := Chunk(quantumLen, pos, |data|);
    ChunkMoves(quantumLen, pos, |data|);
    var first, rest := data[..n], data[n..];
    var h' := h + [Wrote(pos, first)];
    assert h + ops == h' + ops[1..];
    AfterCall(h, Wrote(pos, first));
    if rest != [] {
      WritesAreOneWrite(quantumLen, h', pos + n, rest, ops[1..]);
      TwoWritesAreOne(After(h), pos, data, n);
    } else {
      assert first == data;
      assert h' + ops[1..] == h';
    }
  }

  /** They are as many as the quanta the data falls into. */
  lemma {:induction false} WritesSpanQuanta(quantumLen: nat, pos: nat, data: seq<Byte>, ops: seq<Op>)
    requires 0 < quantumLen && WrittenInFull(quantumLen, pos, data, ops)
    ensures |ops| == Calls(quantumLen, pos, |data|)
    decreases |ops|
  {
    if ops != [] {
      var n := Chunk(quantumLen, pos, |data|);
      WritesSpanQuanta(quantumLen, pos + n, data[n..], ops[1..]);
    }
  }

  /**
   Moving `data` by repeated successful writes is one flat write and takes
   exactly one call for every quantum it falls into.
   */
  lemma WriteInFull(quantumLen: nat, h: seq<Op>, pos: nat, data: seq<Byte>, ops: seq<Op>)
    requires 0 < quantumLen && data != [] && WrittenInFull(quantumLen, pos, data, ops)
    ensures After(h + ops) == Apply(After(h), Wrote(pos, data))
    ensures |ops| == QuantaSpanned(quantumLen, pos, |data|)
  {
    WritesAreOneWrite(quantumLen, h, pos, data, ops);
    WritesSpanQuanta(quantumLen, pos, data, ops);
    CallsSpanQuanta(quantumLen, pos, |data|);
  }

  /** `results` are the answers to reads, one after the other, that move `n` bytes. */
  ghost predicate ReadInFull(quantumLen: nat, h: seq<Op>, pos: nat, n: nat, results: seq<seq<Byte>>)
    requires 0 < quantumLen
    decreases |results|
  {
    if results == [] then n == 0
    else
      && 0 < n && ReadAnswer(quantumLen, h, pos, n, results[0])
      && |results[0]| <= n && ReadInFull(quantumLen, h, pos + |results[0]|, n - |results[0]|, results[1..])
  }

  function Joined(results: seq<seq<Byte>>): seq<Byte> {
    if results == [] then [] else results[0] + Joined(results[1..])
  }

  /** A byte of an answer at a written position is the byte of the store. */
  lemma ReadByte(quantumLen: nat, h: seq<Op>, pos: nat, n: nat, data: seq<Byte>, i: nat)
    requires 0 < quantumLen && ReadAnswer(quantumLen, h, pos, n, data)
    requires i < |data| && pos + i in After(h).bytes
    ensures data[i] == After(h).bytes[pos + i]
  {
    var p, b := pos + i, After(h).bytes[pos + i];
    LastWriteWins(h, p, b);
    var j :| LastWriter(h, p, b, j);
    assert data[p - pos] == b;
  }

  lemma ReadLength(quantumLen: nat, h: seq<Op>, pos: nat, n: nat, data: seq<Byte>)
    requires 0 < quantumLen && 0 < n && Span(pos, n) <= After(h).bytes.Keys
    requires ReadAnswer(quantumLen, h, pos, n, data)
    ensures |data| == Chunk(quantumLen, pos, n) <= n
  {
    BytesBelowLength(h);
    ChunkMoves(quantumLen, pos, n);
    assert pos in Span(pos, n) && pos + n - 1 in Span(pos, n);
    assert ReadCount(quantumLen, After(h).len, pos, n) == Chunk(quantumLen, pos, n);
  }

  /** Over written positions a read moves a whole chunk, and the bytes are those of the store. */
  lemma ReadMovesChunk(quantumLen: nat, h: seq<Op>, pos: nat, n: nat, data: seq<Byte>)
    requires 0 < quantumLen && 0 < n && Span(pos, n) <= After(h).bytes.Keys
    requires ReadAnswer(quantumLen, h, pos, n, data)
    ensures |data| == Chunk(quantumLen, pos, n) <= n
    ensures data == Bytes(After(h), pos, n)[..|data|]
  {
    ReadLength(quantumLen, h, pos, n, data);
    forall i | 0 <= i < |data|
      ensures data[i] == Bytes(After(h), pos, n)[i]
    {
      assert pos + i in Span(pos, n);
      ReadByte(quantumLen, h, pos, n, data, i);
    }
  }

  lemma BytesSplit(f: Flat, pos: nat, n: nat, m: nat)
    requires m <= n && Span(pos, n) <= f.bytes.Keys
    ensures Span(pos + m, n - m) <= f.bytes.Keys
    ensures Bytes(f, pos, n) == Bytes(f, pos, n)[..m] + Bytes(f, pos + m, n - m)
  {
    assert Span(pos + m, n - m) <= Span(pos, n);
  }

  lemma {:induction false} ReadsReturnBytes(quantumLen: nat, h: seq<Op>, pos: nat, n: nat, results: seq<seq<Byte>>)
    requires 0 < quantumLen && Span(pos, n) <= After(h).bytes.Keys && ReadInFull(quantumLen, h, pos, n, results)
    ensures Joined(results) == Bytes(After(h), pos, n)
    decreases |results|
  {
    if results != [] {
      var m := |results[0]|;
      ReadMovesChunk(quantumLen, h, pos, n, results[0]);
      BytesSplit(After(h), pos, n, m);
      ReadsReturnBytes(quantumLen, h, pos + m, n - m, results[1..]);
    }
  }

  lemma {:induction false} ReadsSpanQuanta(quantumLen: nat, h: seq<Op>, pos: nat, n: nat, results: seq<seq<Byte>>)
    requires 0 < quantumLen && Span(pos, n) <= After(h).bytes.Keys && ReadInFull(quantumLen, h, pos, n, results)
    ensures |results| == Calls(quantumLen, pos, n)
    decreases |results|
  {
    if results != [] {
      var m := |results[0]|;
      ReadMovesChunk(quantumLen, h, pos, n, results[0]);
      BytesSplit(After(h), pos, n, m);
      ReadsSpanQuanta(quantumLen, h, pos + m, n - m, results[1..]);
    }
  }

  /** Reading `n` written bytes by repeated reads returns them, with one call for every quantum. */
  lemma ReadsAreOneRead(quantumLen: nat, h: seq<Op>, pos: nat, n: nat, results: seq<seq<Byte>>)
    requires 0 < quantumLen && 0 < n && Span(pos, n) <= After(h).bytes.Keys
    requires ReadInFull(quantumLen, h, pos, n, results)
    ensures Joined(results) == Bytes(After(h), pos, n) && |results| == QuantaSpanned(quantumLen, pos, n)
  {
    ReadsReturnBytes(quantumLen, h, pos, n, results);
    ReadsSpanQuanta(quantumLen, h, pos, n, results);
    CallsSpanQuanta(quantumLen, pos, n);
  }

  /** What several writes put in, several reads get back. */
  lemma WriteThenRead(quantumLen: nat, h: seq<Op>, pos: nat, data: seq<Byte>, ops: seq<Op>, results: seq<seq<Byte>>)
    requires 0 < quantumLen && data != [] && WrittenInFull(quantumLen, pos, data, ops)
    requires ReadInFull(quantumLen, h + ops, pos, |data|, results)
    ensures Joined(results) == data
  {
    WriteInFull(quantumLen, h, pos, data, ops);
    ReadsReturnBytes(quantumLen, h + ops, pos, |data|, results);
    assert Bytes(After(h + ops), pos, |data|) == data;
  }
}

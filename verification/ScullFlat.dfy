/**
 The flat byte store a scull device stands for: the bytes that have a defined
 value, by position, and the length. A history is what the calls on a device
 have done to it since it was created.
 */
module ScullFlat {
  import opened Common
  import opened ScullAddress

  /** Positions outside `bytes` are holes or hold whatever memory held before. */
  datatype Flat = Flat(bytes: map<nat, Byte>, len: nat)

  /**
   What one call does: a write that reported `|data|` bytes, a write whose user
   copy failed and left `n` positions unspecified, a trim, or nothing at all
   (reads, and calls that were interrupted or found no memory).
   */
  datatype Op = Wrote(pos: nat, data: seq<Byte>) | Spoiled(pos: nat, n: nat) | Trimmed | Unchanged

  function Span(pos: nat, n: nat): (r: set<nat>)
    ensures forall p: nat :: p in r <==> pos <= p < pos + n
  {
    if n == 0 then {} else Span(pos, n - 1) + {pos + n - 1}
  }

  /** `bytes` with `data` laid over the positions from `pos` on. */
  function Overlay(bytes: map<nat, Byte>, pos: nat, data: seq<Byte>): map<nat, Byte> {
    map p: nat | p in bytes.Keys + Span(pos, |data|) ::
      if pos <= p < pos + |data| then data[p - pos] else bytes[p]
  }

  function Apply(f: Flat, op: Op): Flat {
    match op
    case Wrote(pos, data) => Flat(Overlay(f.bytes, pos, data), Max(f.len, pos + |data|))
    case Spoiled(pos, n) => Flat(f.bytes - Span(pos, n), f.len)
    case Trimmed => Flat(map[], 0)
    case Unchanged => f
  }

  lemma LengthAfterCopy(f: Flat, pos: nat, data: seq<Byte>)
    ensures Apply(f, Wrote(pos, data)).len == Max(f.len, pos + |data|)
    ensures Apply(f, Spoiled(pos, |data|)).len == f.len
  {
  }

  function After(ops: seq<Op>): Flat {
    if ops == [] then Flat(map[], 0) else Apply(After(ops[..|ops| - 1]), ops[|ops| - 1])
  }

  // ----- The last write wins -----

  /** The call decides, or unsettles, what is at `p`. */
  predicate Touches(op: Op, p: nat) {
    match op
    case Wrote(pos, data) => pos <= p < pos + |data|
    case Spoiled(pos, n) => pos <= p < pos + n
    case Trimmed => true
    case Unchanged => false
  }

  predicate Writes(op: Op, p: nat, b: Byte) {
    op.Wrote? && op.pos <= p < op.pos + |op.data| && op.data[p - op.pos] == b
  }

  /** Call `j` wrote `b` at `p` and nothing has touched `p` since. */
  ghost predicate LastWriter(ops: seq<Op>, p: nat, b: Byte, j: nat) {
    && j < |ops| && Writes(ops[j], p, b)
    && forall k :: j < k < |ops| ==> !Touches(ops[k], p)
  }

  /** The store holds `b` at `p` exactly when the last call that touched `p` wrote it. */
  lemma {:induction false} LastWriteWins(ops: seq<Op>, p: nat, b: Byte)
    ensures p in After(ops).bytes && After(ops).bytes[p] == b <==> exists j :: LastWriter(ops, p, b, j)
  {
    if ops != [] {
      var n := |ops| - 1;
      var before, op := ops[..n], ops[n];
      LastWriteWins(before, p, b);
      if Touches(op, p) {
        assert Writes(op, p, b) ==> LastWriter(ops, p, b, n);
        assert forall j :: LastWriter(ops, p, b, j) ==> j == n;
      } else {
        assert forall j :: LastWriter(before, p, b, j) ==> LastWriter(ops, p, b, j);
        assert forall j :: LastWriter(ops, p, b, j) ==> LastWriter(before, p, b, j);
      }
    }
  }

  /** Call `j` is a write that ended at `end`, and no trim has followed. */
  ghost predicate WriteEnd(ops: seq<Op>, end: nat, j: nat) {
    && j < |ops| && ops[j].Wrote? && end == ops[j].pos + |ops[j].data|
    && forall k :: j < k < |ops| ==> ops[k] != Trimmed
  }

  /** The length is the largest end of any write since the last trim. */
  lemma {:induction false} LengthIsLargestEnd(ops: seq<Op>)
    ensures forall end: nat, j: nat :: WriteEnd(ops, end, j) ==> end <= After(ops).len
    ensures After(ops).len == 0 || exists j :: WriteEnd(ops, After(ops).len, j)
  {
    if ops != [] {
      var n := |ops| - 1;
      var before := ops[..n];
      LengthIsLargestEnd(before);
      forall end: nat, j: nat | WriteEnd(ops, end, j)
        ensures end <= After(ops).len
      {
        if j < n {
          assert WriteEnd(before, end, j);
        }
      }
      var len := After(ops).len;
      if ops[n].Wrote? && len == ops[n].pos + |ops[n].data| {
        assert WriteEnd(ops, len, n);
      } else if len != 0 {
        var j :| WriteEnd(before, len, j);
        assert WriteEnd(ops, len, j);
      }
    }
  }

  /** Every byte with a value lies below the length. */
  lemma {:induction false} BytesBelowLength(ops: seq<Op>)
    ensures forall p :: p in After(ops).bytes ==> p < After(ops).len
  {
    if ops != [] {
      BytesBelowLength(ops[..|ops| - 1]);
    }
  }

  // ----- Transfers that take several calls -----

  /** One call moves at most up to the end of its quantum. */
  function Chunk(quantumLen: nat, pos: nat, n: nat): nat
    requires 0 < quantumLen
  {
    Min(n, quantumLen - pos % quantumLen)
  }

  /** How many quanta the `n` positions from `pos` on fall into. */
  function QuantaSpanned(quantumLen: nat, pos: nat, n: nat): nat
    requires 0 < quantumLen && 0 < n
  {
    (pos + n - 1) / quantumLen - pos / quantumLen + 1
  }

  lemma OverlayTwice(bytes: map<nat, Byte>, pos: nat, data: seq<Byte>, n: nat)
    requires n <= |data|
    ensures Overlay(Overlay(bytes, pos, data[..n]), pos + n, data[n..]) == Overlay(bytes, pos, data)
  {
    var two := Overlay(Overlay(bytes, pos, data[..n]), pos + n, data[n..]);
    var one := Overlay(bytes, pos, data);
    assert Span(pos, n) + Span(pos + n, |data| - n) == Span(pos, |data|);
    assert two.Keys == one.Keys;
  }

  lemma ChunkMoves(quantumLen: nat, pos: nat, n: nat)
    requires 0 < quantumLen && 0 < n
    ensures 0 < Chunk(quantumLen, pos, n) <= n
  {
  }

  /** A call that fits its quantum stays in it; one that does not ends at the next. */
  lemma ChunkEnds(quantumLen: nat, pos: nat, n: nat)
    requires 0 < quantumLen && 0 < n
    ensures var m := Chunk(quantumLen, pos, n);
            && 0 < m <= n
            && (m == n ==> (pos + n - 1) / quantumLen == pos / quantumLen)
            && (m < n ==> (pos + m) / quantumLen == pos / quantumLen + 1)
  {
    var m := Chunk(quantumLen, pos, n);
    var q, r := pos / quantumLen, pos % quantumLen;
    assert pos == q * quantumLen + r;
    if m == n {
      DivModUnique(pos + n - 1, quantumLen, q, r + n - 1);
    } else {
      assert (q + 1) * quantumLen == q * quantumLen + quantumLen;
      DivModUnique(pos + m, quantumLen, q + 1, 0);
    }
  }

  /** One call accounts for one of the quanta. */
  lemma ChunkCounts(quantumLen: nat, pos: nat, n: nat)
    requires 0 < quantumLen && 0 < n
    ensures var m := Chunk(quantumLen, pos, n);
            && 0 < m <= n
            && QuantaSpanned(quantumLen, pos, n)
               == (if m < n then QuantaSpanned(quantumLen, pos + m, n - m) else 0) + 1
  {
    ChunkEnds(quantumLen, pos, n);
  }

  lemma TwoWritesAreOne(f: Flat, pos: nat, data: seq<Byte>, n: nat)
    requires n <= |data|
    ensures Apply(Apply(f, Wrote(pos, data[..n])), Wrote(pos + n, data[n..])) == Apply(f, Wrote(pos, data))
  {
    OverlayTwice(f.bytes, pos, data, n);
  }

  /** How many calls it takes to move `n` bytes from `pos` on. */
  function Calls(quantumLen: nat, pos: nat, n: nat): nat
    requires 0 < quantumLen
    decreases n
  {
    if n == 0 then 0
    else
      var m := Chunk(quantumLen, pos, n);
      1 + Calls(quantumLen, pos + m, n - m)
  }

  lemma {:induction false} CallsSpanQuanta(quantumLen: nat, pos: nat, n: nat)
    requires 0 < quantumLen && 0 < n
    ensures Calls(quantumLen, pos, n) == QuantaSpanned(quantumLen, pos, n)
    decreases n
  {
    var m := Chunk(quantumLen, pos, n);
    ChunkCounts(quantumLen, pos, n);
    if m < n {
      CallsSpanQuanta(quantumLen, pos + m, n - m);
    }
  }

  // ----- What a call on a device tells its caller -----

  lemma AfterCall(ops: seq<Op>, op: Op)
    ensures After(ops + [op]) == Apply(After(ops), op)
  {
    assert (ops + [op])[..|ops|] == ops;
  }

  /** The bytes stored at the `n` positions from `pos` on. */
  function Bytes(f: Flat, pos: nat, n: nat): seq<Byte>
    requires Span(pos, n) <= f.bytes.Keys
  {
    seq(n, i requires 0 <= i < n => f.bytes[pos + i])
  }

  /** None of the `n` positions from `pos` on has a value. */
  ghost predicate Hole(bytes: map<nat, Byte>, pos: nat, n: nat) {
    forall p :: p in bytes ==> p < pos || pos + n <= p
  }

  /** How many bytes a read at `pos` moves at most. */
  function ReadCount(quantumLen: nat, len: nat, pos: nat, count: nat): nat
    requires 0 < quantumLen
  {
    if pos < len then Chunk(quantumLen, pos, Min(count, len - pos)) else 0
  }

  /**
   `data` is what a read of `count` bytes at `pos` may return: up to the length
   and the end of the quantum, or nothing at a hole, and for every written
   position the byte last written there.
   */
  ghost predicate ReadAnswer(quantumLen: nat, ops: seq<Op>, pos: nat, count: nat, data: seq<Byte>)
    requires 0 < quantumLen
  {
    var n := ReadCount(quantumLen, After(ops).len, pos, count);
    && (|data| == n || (|data| == 0 && Hole(After(ops).bytes, pos, n)))
    && forall p, b, j :: pos <= p < pos + |data| && LastWriter(ops, p, b, j) ==> data[p - pos] == b
  }

  /** The bytes with a value in the quantum of `pos` do not lie in the `n` positions from `pos` on. */
  ghost predicate NothingThere(quantumLen: nat, bytes: map<nat, Byte>, pos: nat, n: nat)
    requires 0 < quantumLen
  {
    forall p :: p in bytes && pos <= p < pos + n ==> p / quantumLen != pos / quantumLen
  }

  lemma SameQuantum(quantumLen: nat, pos: nat, p: nat)
    requires 0 < quantumLen && pos <= p && p / quantumLen == pos / quantumLen
    ensures p - pos < quantumLen - pos % quantumLen
  {
    var q := pos / quantumLen;
    assert pos == q * quantumLen + pos % quantumLen && p == q * quantumLen + p % quantumLen;
  }

  /** A read never returns more than was asked for, nor anything from beyond the last write. */
  lemma ReadStaysBelow(quantumLen: nat, ops: seq<Op>, pos: nat, count: nat, data: seq<Byte>)
    requires 0 < quantumLen && ReadAnswer(quantumLen, ops, pos, count, data)
    ensures |data| <= count
    ensures data != [] ==> pos + |data| <= After(ops).len
    ensures data != [] ==> exists end: nat, j: nat :: WriteEnd(ops, end, j) && pos + |data| <= end
  {
    LengthIsLargestEnd(ops);
    if data != [] {
      var j :| WriteEnd(ops, After(ops).len, j);
    }
  }

  /** A call that moves less than was asked for ends with its quantum. */
  lemma ChunkStops(quantumLen: nat, pos: nat, n: nat)
    requires 0 < quantumLen
    ensures var m := Chunk(quantumLen, pos, n); m == n || (0 < m < n && (pos + m) % quantumLen == 0)
  {
    var m, q, r := Chunk(quantumLen, pos, n), pos / quantumLen, pos % quantumLen;
    if m < n {
      assert pos == q * quantumLen + r;
      assert (q + 1) * quantumLen == q * quantumLen + quantumLen;
      DivModUnique(pos + m, quantumLen, q + 1, 0);
    }
  }

  lemma HoleMeansNothing(quantumLen: nat, f: Flat, pos: nat, count: nat)
    requires 0 < quantumLen && (forall p :: p in f.bytes ==> p < f.len)
    requires Hole(f.bytes, pos, ReadCount(quantumLen, f.len, pos, count))
    ensures NothingThere(quantumLen, f.bytes, pos, count)
  {
    forall p | p in f.bytes && pos <= p < pos + count
      ensures p / quantumLen != pos / quantumLen
    {
      if p / quantumLen == pos / quantumLen {
        SameQuantum(quantumLen, pos, p);
      }
    }
  }

  /** A read that returns less than was asked for has come to the length, to the end of a quantum or to a hole. */
  lemma ReadStops(quantumLen: nat, ops: seq<Op>, pos: nat, count: nat, data: seq<Byte>)
    requires 0 < quantumLen && ReadAnswer(quantumLen, ops, pos, count, data)
    ensures || |data| == count
            || pos + |data| >= After(ops).len
            || (data != [] && (pos + |data|) % quantumLen == 0)
            || (data == [] && NothingThere(quantumLen, After(ops).bytes, pos, count))
  {
    var len := After(ops).len;
    if |data| == ReadCount(quantumLen, len, pos, count) {
      if pos < len {
        ChunkStops(quantumLen, pos, Min(count, len - pos));
      }
    } else {
      BytesBelowLength(ops);
      HoleMeansNothing(quantumLen, After(ops), pos, count);
    }
  }
}

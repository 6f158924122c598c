/**
 The circular buffer of a scull pipe as a value: the cells between `buf` and
 `end`, and the read and write pointers as offsets from `buf`.

 The buffer is empty when the two offsets are equal and full when the write
 offset is right behind the read offset, so one cell is never used.
 */
module PipeRing {
  import opened Common

  /** Largest `size_t`, the value an unsigned 0 - 1 produces. */
  const SIZE_MAX: nat := 0xFFFF_FFFF_FFFF_FFFF

  /**
   `spacefree` on raw offsets. Callers that hold no lock can observe a pointer
   that has been advanced to `end` and not wrapped yet, so both offsets may
   equal `len`.
   */
  function SpaceFree(len: nat, rp: nat, wp: nat): nat
    requires 0 < len
  {
    if rp == wp then len - 1
    else
      var gap := (rp + len - wp) % len;
      if gap == 0 then SIZE_MAX else gap - 1
  }

  /** A pointer that has reached `end` goes back to `buf`. */
  function Wrap(len: nat, p: nat): nat {
    if p == len then 0 else p
  }

  /** How many bytes one read call moves: it stops at `wp` or at `end`. */
  function ReadSpan(len: nat, rp: nat, wp: nat, count: nat): nat
    requires rp <= len
  {
    if wp > rp then Min(count, wp - rp) else Min(count, len - rp)
  }

  /** The `n` cells from `from` on, going on at `buf` after the last cell. */
  function Window(cells: seq<Byte>, from: nat, n: nat): (r: seq<Byte>)
    requires from < |cells|
    ensures |r| == n
    decreases n
  {
    if n == 0 then [] else [cells[from]] + Window(cells, Wrap(|cells|, from + 1), n - 1)
  }

  /** How many bytes one write call moves: it stops at `end` or behind `rp`. */
  function WriteSpan(len: nat, rp: nat, wp: nat, count: nat): nat
    requires 0 < len && wp <= len
  {
    var n := Min(count, SpaceFree(len, rp, wp));
    if wp >= rp then Min(n, len - wp) else Min(n, rp - wp - 1)
  }

  datatype Ring = Ring(cells: seq<Byte>, rp: nat, wp: nat) {

    ghost predicate Valid() {
      2 <= |cells| && rp < |cells| && wp < |cells|
    }

    /** How far it is from `rp` to `wp`, round the end if need be. */
    function Used(): nat
      requires Valid()
    {
      if rp <= wp then wp - rp else |cells| - rp + wp
    }

    /** The bytes waiting to be read, oldest first. */
    function Stored(): seq<Byte>
      requires Valid()
    {
      Window(cells, rp, Used())
    }

    function Free(): nat
      requires Valid()
    {
      SpaceFree(|cells|, rp, wp)
    }

    function ReadCount(count: nat): nat
      requires Valid()
    {
      ReadSpan(|cells|, rp, wp, count)
    }

    function WriteCount(count: nat): nat
      requires Valid() && Free() > 0
    {
      WriteSpan(|cells|, rp, wp, count)
    }

    /** The ring after a read of `n` bytes. */
    function AfterRead(n: nat): Ring
      requires rp + n <= |cells|
    {
      this.(rp := Wrap(|cells|, rp + n))
    }

    /** The ring after `data` has been copied in at `wp` and published. */
    function AfterWrite(data: seq<Byte>): Ring
      requires wp + |data| <= |cells|
    {
      Ring(Poke(cells, wp, data), rp, Wrap(|cells|, wp + |data|))
    }
  }

  lemma ModOneLap(x: nat, len: nat)
    requires x < len
    ensures x % len == x && (x + len) % len == x
  {
    var q, rest := (x + len) / len, (x + len) % len;
    assert x + len == q * len + rest;
    assert q == 1;
  }

  /** The modulo formula never underflows between two different offsets in the buffer. */
  lemma GapIsPositive(len: nat, rp: nat, wp: nat)
    requires rp < len && wp < len && rp != wp
    ensures 0 < (rp + len - wp) % len
  {
    if rp > wp {
      ModOneLap(rp - wp, len);
    } else {
      ModOneLap(rp + len - wp, len);
    }
  }

  // ----- Windows -----

  lemma {:induction false} WindowSplits(cells: seq<Byte>, from: nat, m: nat, n: nat)
    requires from + m <= |cells| && from < |cells|
    ensures Wrap(|cells|, from + m) < |cells|
    ensures Window(cells, from, m + n) == Window(cells, from, m) + Window(cells, Wrap(|cells|, from + m), n)
    decreases m
  {
    if m == 0 {
      assert [] + Window(cells, from, n) == Window(cells, from, n);
    } else if from + 1 < |cells| {
      WindowSplits(cells, from + 1, m - 1, n);
    } else {
      assert m == 1 && Window(cells, from, 1) == [cells[from]] + [];
    }
  }

  lemma {:induction false} WindowIsSlice(cells: seq<Byte>, from: nat, n: nat)
    requires from < |cells| && from + n <= |cells|
    ensures Window(cells, from, n) == cells[from..from + n]
    decreases n
  {
    if n == 0 {
      assert cells[from..from + n] == [];
    } else if from + 1 < |cells| {
      WindowIsSlice(cells, from + 1, n - 1);
      assert cells[from..from + n] == [cells[from]] + cells[from + 1..from + n];
    } else {
      assert Window(cells, from, 1) == [cells[from]] + [];
      assert cells[from..from + 1] == [cells[from]];
    }
  }

  /** A window that stays away from the cells `a` to `b` does not see them change. */
  lemma {:induction false} WindowSame(cells: seq<Byte>, cells': seq<Byte>, from: nat, n: nat, a: nat, b: nat)
    requires from < |cells| == |cells'| && a <= b <= |cells|
    requires forall i :: 0 <= i < |cells| && !(a <= i < b) ==> cells'[i] == cells[i]
    requires from + n <= a || (b <= from && from + n <= |cells| + a)
    ensures Window(cells', from, n) == Window(cells, from, n)
    decreases n
  {
    if n > 0 {
      WindowSame(cells, cells', Wrap(|cells|, from + 1), n - 1, a, b);
    }
  }

  // ----- The ring -----

  /** Free space and stored bytes always add up to one less than the buffer. */
  lemma SpaceComplementsStored(r: Ring)
    requires r.Valid()
    ensures r.Free() + |r.Stored()| == |r.cells| - 1
    ensures r.Stored() == [] <==> r.rp == r.wp
  {
    var len := |r.cells|;
    if r.rp > r.wp {
      ModOneLap(r.rp - r.wp, len);
    } else if r.rp < r.wp {
      ModOneLap(r.rp + len - r.wp, len);
    }
  }

  /**
   A read moves what was asked for, or all up to `wp`, or all up to `end`, and
   never more than was asked for.
   */
  lemma ReadSpanStops(len: nat, rp: nat, wp: nat, count: nat)
    requires rp < len && wp < len && rp != wp
    ensures var n := ReadSpan(len, rp, wp, count);
            && n <= count && (count > 0 ==> n > 0)
            && rp + n <= len && (rp < wp ==> rp + n <= wp)
            && (n == count || Wrap(len, rp + n) == wp || rp + n == len)
  {
  }

  lemma ReadFits(r: Ring, count: nat)
    requires r.Valid() && r.rp != r.wp
    ensures var n := r.ReadCount(count);
            && n <= count && (count > 0 ==> n > 0)
            && r.rp + n <= |r.cells| && n <= r.Used()
            && (n == count || r.AfterRead(n).rp == r.wp || r.rp + n == |r.cells|)
            && r.AfterRead(n).Valid() && r.AfterRead(n).Used() == r.Used() - n
  {
    ReadSpanStops(|r.cells|, r.rp, r.wp, count);
  }

  /**
   A read of a non-empty ring hands over a prefix of what is stored and leaves
   the rest, across the wrap as well, and moves at least one byte when asked to.
   */
  lemma ReadDelivers(r: Ring, count: nat, out: seq<Byte>)
    requires r.Valid() && r.rp != r.wp && |out| == r.ReadCount(count)
    requires r.rp + |out| <= |r.cells| ==> out == r.cells[r.rp..r.rp + |out|]
    ensures r.rp + |out| <= |r.cells| && (count > 0 ==> out != [])
    ensures r.AfterRead(|out|).Valid() && r.Stored() == out + r.AfterRead(|out|).Stored()
  {
    ReadFits(r, count);
    WindowSplits(r.cells, r.rp, |out|, r.Used() - |out|);
    WindowIsSlice(r.cells, r.rp, |out|);
  }

  /**
   A write moves what was asked for, or all that is free, or all up to `end`, and
   never more than any of these.
   */
  lemma SpanFits(len: nat, rp: nat, wp: nat, count: nat)
    requires 2 <= len && rp < len && wp < len
    ensures var n := WriteSpan(len, rp, wp, count);
            && n <= count && n <= SpaceFree(len, rp, wp) && wp + n <= len
            && (n == 0 <==> count == 0 || SpaceFree(len, rp, wp) == 0)
            && (n == count || n == SpaceFree(len, rp, wp) || wp + n == len)
            && (wp < rp ==> wp + n < rp) && (rp == 0 ==> wp + n < len)
  {
    if rp > wp {
      ModOneLap(rp - wp, len);
    } else if rp < wp {
      ModOneLap(rp + len - wp, len);
    }
  }

  /** The target of a write never reaches the stored bytes. */
  lemma WriteFits(r: Ring, count: nat)
    requires r.Valid() && r.Free() > 0
    ensures var n := r.WriteCount(count);
            && n <= count
            && n <= r.Free()
            && r.wp + n <= |r.cells|
            && (r.wp < r.rp ==> r.wp + n < r.rp)
            && (r.rp == 0 ==> r.wp + n < |r.cells|)
            && (count > 0 ==> n > 0)
            && (n == count || n == r.Free() || r.wp + n == |r.cells|)
  {
    SpanFits(|r.cells|, r.rp, r.wp, count);
  }

  /** The first write after an open moves all that a pipe can hold. */
  lemma FirstWriteFits(cells: seq<Byte>, count: nat)
    requires 2 <= |cells|
    ensures Ring(cells, 0, 0).Free() > 0 && Ring(cells, 0, 0).WriteCount(count) == Min(count, |cells| - 1)
  {
    WriteFits(Ring(cells, 0, 0), count);
  }

  /**
   Overwriting any part of a write's target leaves the stored bytes alone, so a
   copy that faults half way is invisible to readers.
   */
  lemma PokeInvisible(r: Ring, count: nat, junk: seq<Byte>)
    requires r.Valid() && r.Free() > 0
    requires |junk| <= r.WriteCount(count)
    ensures r.wp + |junk| <= |r.cells|
    ensures var r' := r.(cells := Poke(r.cells, r.wp, junk));
            r'.Valid() && r'.Stored() == r.Stored()
  {
    WriteFits(r, count);
    WindowSame(r.cells, Poke(r.cells, r.wp, junk), r.rp, r.Used(), r.wp, r.wp + |junk|);
  }

  /** The window behind the stored bytes starts at `wp`. */
  lemma UsedSplits(cells: seq<Byte>, rp: nat, used: nat, wp: nat, n: nat)
    requires Ring(cells, rp, wp).Valid() && used == Ring(cells, rp, wp).Used()
    ensures Window(cells, rp, used + n) == Window(cells, rp, used) + Window(cells, wp, n)
  {
    if rp <= wp {
      WindowSplits(cells, rp, used, n);
    } else {
      var k := |cells| - rp;
      WindowSplits(cells, rp, k, wp);
      WindowSplits(cells, rp, k, wp + n);
      WindowSplits(cells, 0, wp, n);
      var a, b, d := Window(cells, rp, k), Window(cells, 0, wp), Window(cells, wp, n);
      assert a + (b + d) == (a + b) + d;
    }
  }

  /**
   A published write appends exactly the bytes it reports; a non-empty write
   never leaves the ring looking empty.
   */
  lemma WriteAppends(r: Ring, count: nat, data: seq<Byte>)
    requires r.Valid() && r.Free() > 0
    requires |data| <= r.WriteCount(count)
    ensures r.wp + |data| <= |r.cells|
    ensures r.AfterWrite(data).Valid()
    ensures r.AfterWrite(data).Stored() == r.Stored() + data
    ensures data != [] ==> r.AfterWrite(data).wp != r.rp
  {
    WriteFits(r, count);
    PokeInvisible(r, count, data);
    var r' := r.AfterWrite(data);
    UsedSplits(r'.cells, r.rp, r.Used(), r.wp, |data|);
    WindowIsSlice(r'.cells, r.wp, |data|);
    assert r'.Used() == r.Used() + |data|;
  }

  /** Two large enough reads empty any ring, in order. */
  lemma TwoReadsDrain(r: Ring, count: nat)
    requires r.Valid() && r.rp != r.wp && |r.Stored()| <= count
    ensures var n1 := r.ReadCount(count);
            r.rp + n1 <= |r.cells| &&
            var r1 := r.AfterRead(n1);
            r1.Valid() &&
            if r1.rp == r1.wp then r.cells[r.rp..r.rp + n1] == r.Stored() else
              var n2 := r1.ReadCount(count);
              && r1.rp + n2 <= |r1.cells|
              && r.cells[r.rp..r.rp + n1] + r1.cells[r1.rp..r1.rp + n2] == r.Stored()
              && r1.AfterRead(n2).Valid()
              && r1.AfterRead(n2).Stored() == []
  {
    var n1 := r.ReadCount(count);
    ReadFits(r, count);
    var out1, r1 := r.cells[r.rp..r.rp + n1], r.AfterRead(n1);
    ReadDelivers(r, count, out1);
    if r1.rp == r1.wp {
      assert out1 + [] == out1;
    } else {
      var n2 := r1.ReadCount(count);
      ReadFits(r1, count);
      ReadDelivers(r1, count, r1.cells[r1.rp..r1.rp + n2]);
    }
  }

  /** Two large enough writes fill any free space, in order. */
  lemma TwoWritesFill(r: Ring, count1: nat, d1: seq<Byte>, count2: nat, d2: seq<Byte>)
    requires r.Valid() && 0 < r.Free() <= count1 && |d1| == r.WriteCount(count1)
    ensures r.wp + |d1| <= |r.cells| && r.AfterWrite(d1).Valid()
    ensures var r1 := r.AfterWrite(d1);
            0 < r1.Free() <= count2 && |d2| == r1.WriteCount(count2) ==>
              && r1.wp + |d2| <= |r1.cells|
              && r1.AfterWrite(d2).Valid()
              && r1.AfterWrite(d2).Free() == 0
              && r1.AfterWrite(d2).Stored() == r.Stored() + d1 + d2
  {
    WriteAppends(r, count1, d1);
    WriteFits(r, count1);
    var r1 := r.AfterWrite(d1);
    SpaceComplementsStored(r);
    SpaceComplementsStored(r1);
    if 0 < r1.Free() <= count2 && |d2| == r1.WriteCount(count2) {
      WriteAppends(r1, count2, d2);
      WriteFits(r1, count2);
      SpaceComplementsStored(r1.AfterWrite(d2));
    }
  }
}

/**
 One scull pipe: the value its lock protects, and the object whose operations
 update that value inside one critical section each.
 */
module PipeDevice {
  import opened Common
  import opened PipeRing

  /** Index of the pipe whose open waits for a writer. */
  const PROPER_FIFO_BEH_IDX: nat := 3

  datatype Mode = Mode(read: bool, write: bool)

  /**
   `cells` is the buffer while `live` names an allocation; `allocations` counts
   how many buffers have been allocated, so that every buffer has its own name.
   The pointers keep their values when the buffer is freed.
   */
  datatype Pipe = Pipe(
    cells: seq<Byte>,
    live: Option<nat>,
    allocations: nat,
    rp: nat,
    wp: nat,
    readers: nat,
    writers: nat)
  {
    function AsRing(): Ring {
      Ring(cells, rp, wp)
    }

    /** An open allocates the buffer unless there is one already. */
    function Allocated(raw: seq<Byte>): Pipe {
      if live.Some? then this
      else this.(live := Some(allocations), allocations := allocations + 1, cells := raw)
    }

    /** An open puts both pointers back to the start of the buffer. */
    function Flushed(): Pipe {
      this.(rp := 0, wp := 0)
    }

    function Counted(mode: Mode): Pipe {
      this.(readers := if mode.read then More(readers) else readers,
            writers := if mode.write then More(writers) else writers)
    }

    /** The pipe 3 open counts a file once: as a reader if it can read. */
    function CountedOnce(mode: Mode): Pipe {
      if mode.read then this.(readers := More(readers)) else this.(writers := More(writers))
    }

    /** Release uncounts each mode and frees the buffer when the counts add up to zero. */
    function Released(mode: Mode): Pipe {
      var p := this.(readers := if mode.read then Less(readers) else readers,
                     writers := if mode.write then Less(writers) else writers);
      if Sum(p.readers, p.writers) == 0 then p.(live := None, cells := []) else p
    }

    ghost predicate Counts() {
      readers <= SIZE_MAX && writers <= SIZE_MAX
    }
  }

  /** `size_t` increment. */
  function More(n: nat): nat {
    if n == SIZE_MAX then 0 else n + 1
  }

  /** `size_t` decrement. */
  function Less(n: nat): nat {
    if n == 0 then SIZE_MAX else n - 1
  }

  /** `size_t` addition. */
  function Sum(a: nat, b: nat): nat {
    if a + b <= SIZE_MAX then a + b else a + b - SIZE_MAX - 1
  }

  /** A plain pipe's release undoes what its open counted, whatever the mode. */
  lemma PlainReleaseUndoesOpen(p: Pipe, mode: Mode)
    requires p.Counts()
    ensures var q := p.Counted(mode).Released(mode);
            && q.readers == p.readers && q.writers == p.writers
            && (q.live == p.live || Sum(p.readers, p.writers) == 0)
  {
  }

  /**
   On pipe 3 release undoes what open counted exactly when the file was opened
   for reading or for writing, not for both and not for neither.
   */
  lemma ProperReleaseUndoesOpenIff(p: Pipe, mode: Mode)
    requires p.Counts()
    ensures var q := p.CountedOnce(mode).Released(mode);
            q.readers == p.readers && q.writers == p.writers <==> mode.read != mode.write
  {
  }

  /**
   A read-write file on pipe 3 takes away the count of somebody else's write
   file, and with the last count the buffer.
   */
  lemma ReadWriteOpenLosesAWriter(p: Pipe)
    requires p.Counts() && 0 < p.writers
    ensures var q := p.CountedOnce(Mode(true, true)).Released(Mode(true, true));
            && q.readers == p.readers && q.writers == p.writers - 1
            && (q.live.None? <==>
                  p.live.None? || p.readers + p.writers == 1 || p.readers + p.writers == SIZE_MAX + 2)
  {
  }

  datatype OpenOutcome = OpenDone | NoMemory | Again | WaitForWriter

  datatype ReadOutcome = ReadDone(n: nat) | EndOfFile | RingEmpty | ReadFault

  datatype WriteOutcome = WriteDone(n: nat) | RingFull | WriteFault

  datatype PollMask = PollMask(readable: bool, writable: bool, hangup: bool)

  class ScullPipe {
    const idx: nat
    const pLen: nat
    var buf: array?<Byte>
    var rp: nat
    var wp: nat
    var readers: nat
    var writers: nat
    ghost var live: Option<nat>
    ghost var allocations: nat

    ghost predicate Valid()
      reads this
    {
      && 2 <= pLen && rp < pLen && wp < pLen
      && readers <= SIZE_MAX && writers <= SIZE_MAX
      && (buf != null ==> buf.Length == pLen)
      && (buf == null <==> live.None?)
    }

    ghost function Value(): Pipe
      reads this, buf
    {
      Pipe(if buf == null then [] else buf[..], live, allocations, rp, wp, readers, writers)
    }

    /** The bytes waiting to be read, oldest first. */
    ghost function Stored(): seq<Byte>
      requires Valid()
      reads this, buf
    {
      if buf == null then [] else Ring(buf[..], rp, wp).Stored()
    }

    constructor (idx: nat, pLen: nat)
      requires 2 <= pLen
      ensures Valid() && this.idx == idx && this.pLen == pLen
      ensures Value() == Pipe([], None, 0, 0, 0, 0, 0)
    {
      this.idx, this.pLen := idx, pLen;
      buf := null;
      rp, wp, readers, writers := 0, 0, 0, 0;
      live, allocations := None, 0;
    }

    /** Allocates the buffer if needed; `memory` says whether `kmalloc` would succeed. */
    method Allocate(memory: bool) returns (ok: bool)
      requires Valid()
      modifies this`buf, this`live, this`allocations
      ensures Valid()
      ensures ok <==> old(buf) != null || memory
      ensures !ok ==> Value() == old(Value())
      ensures ok ==> buf != null && Value() == old(Value()).Allocated(buf[..])
      ensures old(buf) != null ==> buf == old(buf)
      ensures buf != null && buf != old(buf) ==> fresh(buf)
    {
      ok := true;
      if buf == null {
        if !memory {
          return false;
        }
        buf := new Byte[pLen];
        live, allocations := Some(allocations), allocations + 1;
      }
    }

    /** `scull_p_open` for every pipe but pipe 3, between lock and unlock. */
    method Open(mode: Mode, memory: bool) returns (r: OpenOutcome)
      requires Valid()
      modifies this
      ensures Valid()
      ensures r == if old(buf) != null || memory then OpenDone else NoMemory
      ensures r == NoMemory ==> Value() == old(Value())
      ensures r == OpenDone ==>
        && buf != null && Stored() == [] && rp == 0 && wp == 0
        && Value() == old(Value()).Allocated(buf[..]).Flushed().Counted(mode)
    {
      var ok := Allocate(memory);
      if !ok {
        return NoMemory;
      }
      rp, wp := 0, 0;
      if mode.read {
        readers := More(readers);
      }
      if mode.write {
        writers := More(writers);
      }
      return OpenDone;
    }

    /**
     `scull_p_proper_open` from its first lock to the unlock that follows. A
     write open that runs out of memory leaves its writer counted.
     */
    method ProperOpen(mode: Mode, nonblock: bool, memory: bool) returns (r: OpenOutcome)
      requires Valid()
      modifies this
      ensures Valid()
      ensures mode.read && nonblock && old(writers) == 0 ==> r == Again && Value() == old(Value())
      ensures mode.read && !(nonblock && old(writers) == 0) ==>
        && Value() == old(Value()).CountedOnce(mode)
        && r == if writers == 0 then WaitForWriter else OpenDone
      ensures !mode.read && old(buf) == null && !memory ==>
        r == NoMemory && Value() == old(Value()).CountedOnce(mode)
      ensures !mode.read && (old(buf) != null || memory) ==>
        && r == OpenDone && buf != null && Stored() == [] && rp == 0 && wp == 0
        && Value() == old(Value()).CountedOnce(mode).Allocated(buf[..]).Flushed()
    {
      if mode.read {
        if nonblock && writers == 0 {
          return Again;
        }
        readers := More(readers);
        return if writers == 0 then WaitForWriter else OpenDone;
      }
      writers := More(writers);
      var ok := Allocate(memory);
      if !ok {
        return NoMemory;
      }
      rp, wp := 0, 0;
      return OpenDone;
    }

    /** `scull_p_release` between lock and unlock; a count that is zero wraps around. */
    method Release(mode: Mode)
      requires Valid()
      modifies this
      ensures Valid()
      ensures buf == if Sum(readers, writers) == 0 then null else old(buf)
      ensures Value() == old(Value()).Released(mode)
    {
      if mode.read {
        readers := Less(readers);
      }
      if mode.write {
        writers := Less(writers);
      }
      if Sum(readers, writers) == 0 {
        buf := null;
        live := None;
      }
    }

    /** `spacefree`: what is free and what is stored share all cells but one. */
    method SpaceFree() returns (free: nat)
      requires Valid()
      ensures free == PipeRing.SpaceFree(pLen, rp, wp)
      ensures buf != null ==> free + |Stored()| == pLen - 1
    {
      if buf != null {
        SpaceComplementsStored(Ring(buf[..], rp, wp));
      }
      if rp == wp {
        return pLen - 1;
      }
      GapIsPositive(pLen, rp, wp);
      return (rp + pLen - wp) % pLen - 1;
    }

    /** Hands over as many bytes at `rp` as a read moves, and moves `rp` past them. */
    method TakeOut(count: nat) returns (out: seq<Byte>)
      requires Valid() && buf != null && rp != wp
      modifies this`rp
      ensures Valid()
      ensures |out| == ReadSpan(pLen, old(rp), wp, count) && (0 < count ==> 0 < |out|)
      ensures |out| <= count && (|out| == count || rp == wp || old(rp) + |out| == pLen)
      ensures old(rp) + |out| <= pLen && out == buf[..][old(rp)..old(rp) + |out|]
      ensures rp == Wrap(pLen, old(rp) + |out|) && buf[..] == old(buf[..])
    {
      var n := if wp > rp then Min(count, wp - rp) else Min(count, buf.Length - rp);
      out := buf[..][rp..rp + n];
      rp := rp + n;
      if rp == buf.Length {
        rp := 0;
      }
    }

    /** The part of `scull_p_read` that moves bytes, once there are some. */
    method ReadStored(count: nat) returns (out: seq<Byte>)
      requires Valid() && buf != null && rp != wp
      modifies this`rp
      ensures Valid()
      ensures |out| == ReadSpan(pLen, old(rp), wp, count) && (0 < count ==> 0 < |out|)
      ensures |out| <= count && (|out| == count || rp == wp || old(rp) + |out| == pLen)
      ensures old(Stored()) == out + Stored()
      ensures old(rp) + |out| <= pLen && Value().AsRing() == old(Value().AsRing()).AfterRead(|out|)
    {
      ghost var ring := Value().AsRing();
      ReadFits(ring, count);
      ghost var front := ring.cells[rp..rp + ring.ReadCount(count)];
      ReadDelivers(ring, count, front);
      out := TakeOut(count);
      assert out == front && Ring(buf[..], rp, wp) == ring.AfterRead(|front|);
    }

    /** The same without a buffer: what is at the old address, `stale`, goes out. */
    method ReadFreed(count: nat, stale: seq<Byte>) returns (out: seq<Byte>)
      requires Valid() && buf == null && rp != wp && |stale| == pLen
      modifies this`rp
      ensures Valid()
      ensures |out| == ReadSpan(pLen, old(rp), wp, count)
      ensures 0 < count ==> 0 < |out|
      ensures |out| <= count && (|out| == count || rp == wp || old(rp) + |out| == pLen)
      ensures old(rp) + |out| <= pLen && out == stale[old(rp)..old(rp) + |out|]
      ensures rp == Wrap(pLen, old(rp) + |out|)
    {
      var n := if wp > rp then Min(count, wp - rp) else Min(count, pLen - rp);
      out := stale[rp..rp + n];
      rp := rp + n;
      if rp == pLen {
        rp := 0;
      }
    }

    /**
     `scull_p_read` up to the first unlock. `RingEmpty` is where the source
     waits or returns EAGAIN; `fault` is how many bytes the user copy manages
     before it fails; `stale` is what a freed buffer holds by now. A read moves
     what it was asked for, or all up to `wp` or up to `end`. Bytes leave in order
     if and only if there is a buffer to take them from, and a read of at least
     one byte returns none only from the wait-for-writer pipe without writers.
     */
    method Read(count: nat, fault: Option<nat>, stale: seq<Byte>) returns (r: ReadOutcome, out: seq<Byte>)
      requires Valid() && |stale| == pLen
      modifies this`rp
      ensures Valid()
      ensures r.EndOfFile? <==> idx == PROPER_FIFO_BEH_IDX && old(rp == wp) && old(writers) == 0
      ensures r.RingEmpty? <==> old(rp == wp) && !r.EndOfFile?
      ensures r.ReadFault? <==> old(rp != wp) && fault.Some?
      ensures !r.ReadDone? ==> rp == old(rp) && out == []
      ensures r.ReadDone? ==>
        && r.n == |out| == ReadSpan(pLen, old(rp), wp, count)
        && (0 < count ==> 0 < r.n <= count) && (count == 0 ==> r.n == 0)
        && (r.n == count || rp == wp || old(rp) + r.n == pLen)
        && old(rp) + r.n <= pLen && rp == Wrap(pLen, old(rp) + r.n)
      ensures r.ReadDone? ==> (old(Stored()) == out + Stored() <==> buf != null || out == [])
      ensures r.ReadDone? && buf != null ==> Value().AsRing() == old(Value().AsRing()).AfterRead(r.n)
      ensures r.ReadDone? && buf == null ==> out == stale[old(rp)..old(rp) + r.n]
    {
      out := [];
      if idx == PROPER_FIFO_BEH_IDX && rp == wp && writers == 0 {
        return EndOfFile, [];
      }
      if rp == wp {
        return RingEmpty, [];
      }
      if fault.Some? {
        return ReadFault, [];
      }
      if buf != null {
        out := ReadStored(count);
      } else {
        out := ReadFreed(count, stale);
      }
      r := ReadDone(|out|);
    }

    /** Copies the first `n` bytes of `data` to the cells at `wp`. */
    method CopyIn(data: seq<Byte>, n: nat)
      requires Valid() && buf != null && n <= |data| && wp + n <= pLen
      modifies buf
      ensures buf[..] == Poke(old(buf[..]), wp, data[..n])
    {
      forall i | 0 <= i < n {
        buf[wp + i] := data[i];
      }
    }

    /** Moves `wp` past `n` bytes that have been copied in. */
    method Publish(n: nat)
      requires Valid() && buf != null && wp + n <= pLen
      modifies this`wp
      ensures Valid() && wp == Wrap(pLen, old(wp) + n) && buf[..] == old(buf[..])
    {
      wp := wp + n;
      if wp == buf.Length {
        wp := 0;
      }
    }

    /** How much of a write of `count` bytes fits before `end` and before `rp`. */
    method WriteRoom(count: nat) returns (n: nat)
      requires Valid()
      ensures n == WriteSpan(pLen, rp, wp, count)
      ensures n <= count && wp + n <= pLen && (n == 0 <==> count == 0 || PipeRing.SpaceFree(pLen, rp, wp) == 0)
      ensures n == count || n == PipeRing.SpaceFree(pLen, rp, wp) || wp + n == pLen
      ensures buf != null ==> n + |Stored()| <= pLen - 1 && (n == 0 <==> count == 0 || |Stored()| == pLen - 1)
    {
      var free := SpaceFree();
      SpanFits(pLen, rp, wp, count);
      n := Min(count, free);
      n := if wp >= rp then Min(n, pLen - wp) else Min(n, rp - wp - 1);
    }

    /** A copy of `n` bytes that fits, and its publication. */
    method PutIn(data: seq<Byte>, n: nat)
      requires Valid() && buf != null && Value().AsRing().Free() > 0
      requires n == Value().AsRing().WriteCount(|data|) && n <= |data| && wp + n <= pLen
      modifies this`wp, buf
      ensures Valid() && Stored() == old(Stored()) + data[..n]
      ensures Value().AsRing() == old(Value().AsRing()).AfterWrite(data[..n])
    {
      ghost var ring := Value().AsRing();
      ghost var after := ring.AfterWrite(data[..n]);
      assert after.Valid() && after.Stored() == Stored() + data[..n] by {
        WriteAppends(ring, |data|, data[..n]);
      }
      CopyIn(data, n);
      assert buf[..] == after.cells;
      Publish(n);
      assert Ring(buf[..], rp, wp) == after;
    }

    /** A copy that fails after `n` bytes: nothing is published and nothing stored is touched. */
    method PutPart(data: seq<Byte>, n: nat)
      requires Valid() && buf != null && Value().AsRing().Free() > 0
      requires n <= Value().AsRing().WriteCount(|data|) && n <= |data| && wp + n <= pLen
      modifies buf
      ensures Valid() && Stored() == old(Stored())
    {
      PokeInvisible(Value().AsRing(), |data|, data[..n]);
      CopyIn(data, n);
    }

    /** `scull_p_write` once it has space and a buffer. */
    method WriteStored(data: seq<Byte>, fault: Option<nat>) returns (r: WriteOutcome)
      requires Valid() && buf != null && PipeRing.SpaceFree(pLen, rp, wp) > 0
      modifies this`wp, buf
      ensures Valid()
      ensures r == if fault.Some? then WriteFault else WriteDone(WriteSpan(pLen, rp, old(wp), |data|))
      ensures r.WriteDone? ==> r.n <= |data| && (data != [] ==> 0 < r.n) && Stored() == old(Stored()) + data[..r.n]
      ensures r.WriteDone? ==> Value().AsRing() == old(Value().AsRing()).AfterWrite(data[..r.n])
      ensures r.WriteDone? ==>
        r.n == |data| || r.n == old(PipeRing.SpaceFree(pLen, rp, wp)) || old(wp) + r.n == pLen
      ensures r.WriteDone? ==> old(wp) + r.n <= pLen && wp == Wrap(pLen, old(wp) + r.n)
      ensures !r.WriteDone? ==> Stored() == old(Stored()) && wp == old(wp)
    {
      var n := WriteRoom(|data|);
      assert buf[..] == old(buf[..]);
      if fault.Some? {
        PutPart(data, Min(n, fault.value));
        r := WriteFault;
      } else {
        PutIn(data, n);
        r := WriteDone(n);
      }
    }

    /** The same without a buffer: the bytes go where it was, and are lost. */
    method WriteFreed(data: seq<Byte>, fault: Option<nat>) returns (r: WriteOutcome)
      requires Valid() && buf == null && PipeRing.SpaceFree(pLen, rp, wp) > 0
      modifies this`wp
      ensures Valid()
      ensures r == if fault.Some? then WriteFault else WriteDone(WriteSpan(pLen, rp, old(wp), |data|))
      ensures r.WriteDone? ==> r.n <= |data| && (data != [] ==> 0 < r.n)
      ensures r.WriteDone? ==>
        r.n == |data| || r.n == old(PipeRing.SpaceFree(pLen, rp, wp)) || old(wp) + r.n == pLen
      ensures r.WriteDone? ==> old(wp) + r.n <= pLen && wp == Wrap(pLen, old(wp) + r.n)
      ensures !r.WriteDone? ==> wp == old(wp)
    {
      var n := WriteRoom(|data|);
      if fault.Some? {
        r := WriteFault;
      } else {
        wp := if wp + n == pLen then 0 else wp + n;
        r := WriteDone(n);
      }
    }

    /**
     `scull_p_write` once it holds the lock. `RingFull` is where the source
     waits or returns EAGAIN. A faulting copy may leave `fault` bytes behind in
     the free cells; what is stored does not change. What a write reports has
     been appended if and only if there is a buffer or nothing was moved.
     */
    method Write(data: seq<Byte>, fault: Option<nat>) returns (r: WriteOutcome)
      requires Valid()
      modifies this`wp, buf
      ensures Valid()
      ensures r.RingFull? <==> old(PipeRing.SpaceFree(pLen, rp, wp)) == 0
      ensures buf != null ==> (r.RingFull? <==> |old(Stored())| == pLen - 1)
      ensures r.WriteFault? <==> !r.RingFull? && fault.Some?
      ensures !r.WriteDone? ==> Stored() == old(Stored()) && wp == old(wp)
      ensures r.RingFull? ==> Value() == old(Value())
      ensures r.WriteDone? ==>
        && r.n == WriteSpan(pLen, rp, old(wp), |data|) <= |data|
        && (data != [] ==> 0 < r.n)
        && (r.n == |data| || r.n == old(PipeRing.SpaceFree(pLen, rp, wp)) || old(wp) + r.n == pLen)
        && (buf != null ==> r.n == |data| || |Stored()| == pLen - 1 || wp == 0)
        && old(wp) + r.n <= pLen && wp == Wrap(pLen, old(wp) + r.n)
        && (Stored() == old(Stored()) + data[..r.n] <==> buf != null || r.n == 0)
        && (buf != null ==> Value().AsRing() == old(Value().AsRing()).AfterWrite(data[..r.n]))
    {
      var free := SpaceFree();
      if free == 0 {
        r := RingFull;
      } else if buf != null {
        r := WriteStored(data, fault);
      } else {
        r := WriteFreed(data, fault);
      }
    }

    /**
     `scull_p_poll` looks at the pointers, which agree with the stored bytes as
     long as there is a buffer, apart from pipe 3 without writers.
     */
    method Poll() returns (mask: PollMask)
      requires Valid()
      ensures mask.hangup <==> idx == PROPER_FIFO_BEH_IDX && writers == 0
      ensures mask.hangup ==> !mask.readable && !mask.writable
      ensures !mask.hangup && buf != null ==>
        && (mask.readable <==> Stored() != [])
        && (mask.writable <==> |Stored()| < pLen - 1)
      ensures !mask.hangup && buf == null ==>
        && (mask.readable <==> rp != wp)
        && (mask.writable <==> PipeRing.SpaceFree(pLen, rp, wp) != 0)
    {
      if idx == PROPER_FIFO_BEH_IDX && writers == 0 {
        return PollMask(false, false, true);
      }
      if buf != null {
        SpaceComplementsStored(Ring(buf[..], rp, wp));
      }
      var free := SpaceFree();
      return PollMask(rp != wp, free != 0, false);
    }
  }

  /**
   The same on a pipe: a writer is left with its file and no buffer, what it
   writes is lost, and its release wraps the count around.
   */
  method ReadWriteFileTakesBuffer(pLen: nat, b: Byte)
    returns (p: ScullPipe, writer: OpenOutcome, both: OpenOutcome, write: WriteOutcome)
    requires 2 <= pLen
    ensures fresh(p) && p.Valid() && p.idx == PROPER_FIFO_BEH_IDX
    ensures writer == OpenDone && both == OpenDone && write == WriteDone(1)
    ensures p.buf == null && p.readers == 0 && p.writers == SIZE_MAX && p.Stored() == []
  {
    p := new ScullPipe(PROPER_FIFO_BEH_IDX, pLen);
    writer := p.ProperOpen(Mode(false, true), false, true);
    both := p.ProperOpen(Mode(true, true), false, true);
    p.Release(Mode(true, true));
    write := p.Write([b], None);
    p.Release(Mode(false, true));
  }
}

/** What holds in every run of a scull pipe, for any number of tasks. */
module PipeTheorems {
  import opened Common
  import opened PipeRing
  import opened PipeDevice
  import opened PipeProtocol
  import opened PipeBook
  import opened PipeFlow
  import PipeBookSteps
  import PipeFlowSteps

  ghost predicate Inv(c: Config, s: State) {
    Book(c, s) && Flow(c, s)
  }

  lemma NextKeepsInv(c: Config, s: State, e: Event, s': State)
    requires Inv(c, s) && Next(c, s, e, s')
    ensures Inv(c, s')
  {
    var t, a :| Step(c, s, t, a, s') && e == EventOf(s, t, a);
    PipeBookSteps.StepKeepsBook(c, s, t, a, s');
    PipeFlowSteps.StepKeepsFlow(c, s, t, a, s');
  }

  /** The invariant holds in every state of every run. */
  lemma {:induction false} RunInv(c: Config, run: Run, k: nat)
    requires Valid(c, run) && k < |run.states|
    ensures Inv(c, run.states[k])
  {
    if k == 0 {
      InitBook(c, run.states[0]);
      InitFlow(c, run.states[0]);
    } else {
      RunInv(c, run, k - 1);
      assert StepAt(c, run, k - 1);
      NextKeepsInv(c, run.states[k - 1], run.events[k - 1], run.states[k]);
    }
  }

  // ----- The byte stream -----

  /** The bytes waiting in the pipe, oldest first. */
  ghost function Stored(c: Config, d: Pipe): seq<Byte> {
    if d.live.Some? && |d.cells| == c.len && d.rp <= c.len && d.wp <= c.len
    then Ring(d.cells, Wrap(c.len, d.rp), Wrap(c.len, d.wp)).Stored()
    else []
  }

  /** What an event means for the bytes before and after. */
  ghost predicate StreamStep(before: seq<Byte>, e: Event, after: seq<Byte>) {
    match e
    case Silent => after == before
    case Accepted(bytes) => after == before + bytes
    case Delivered(bytes) => before == bytes + after
    case Stray(_) => after == before
    case Reset => after == []
  }

  /** Bytes read from a live buffer are the front of what is stored. */
  lemma DeliveredBytesStored(c: Config, d: Pipe, count: nat, data: seq<Byte>)
    requires Loaded(c, d, count, data) && d.live.Some? && d.rp != d.wp
    ensures Stored(c, d) == data + Stored(c, d.(rp := d.rp + |data|))
  {
    ReadDelivers(d.AsRing(), count, data);
  }

  lemma DeliveredStep(c: Config, s: State, t: nat, s': State)
    requires Flow(c, s) && t < |s.tasks| && ReadAdvanceStep(c, s, t, s') && s.dev.live.Some?
    ensures Stored(c, s.dev) == s.tasks[t].data + Stored(c, s'.dev)
  {
    assert TaskFlow(c, s, s.tasks[t]);
    DeliveredBytesStored(c, s.dev, s.tasks[t].count, s.tasks[t].data);
  }

  lemma AcceptedStep(c: Config, s: State, t: nat, s': State)
    requires Flow(c, s) && t < |s.tasks| && WriteAdvanceStep(c, s, t, s')
    ensures Stored(c, s'.dev) == Stored(c, s.dev) + s.tasks[t].data
  {
    assert TaskFlow(c, s, s.tasks[t]);
    var ring, data := s.dev.AsRing(), s.tasks[t].data;
    WriteAppends(ring, s.tasks[t].count, data);
    assert Stored(c, s.dev) == ring.Stored();
    assert Poke(ring.cells, ring.wp, data) == ring.cells;
    assert Stored(c, s'.dev) == ring.AfterWrite(data).Stored();
  }

  /** A copy, complete or not, is invisible until `wp` moves. */
  lemma CopyStepSilent(c: Config, s: State, t: nat, bytes: seq<Byte>, next: Task, s': State)
    requires t < |s.tasks| && CopyStep(c, s, t, bytes, next, s')
    ensures Stored(c, s'.dev) == Stored(c, s.dev)
  {
    PokeInvisible(s.dev.AsRing(), s.tasks[t].count, bytes);
    assert Stored(c, s.dev) == s.dev.AsRing().Stored();
  }

  /** Step by step, a read does to the ring what it does as one section. */
  lemma ReadSection(c: Config, s: State, t: nat, s1: State, s2: State)
    requires Flow(c, s) && t < |s.tasks| && ReadAdvanceStep(c, s, t, s1) && ReadWrapStep(c, s1, t, s2)
    requires s.dev.live.Some?
    ensures var ring, n := s.dev.AsRing(), |s.tasks[t].data|;
            && ring.Valid() && n == ring.ReadCount(s.tasks[t].count) && ring.rp + n <= |ring.cells|
            && s2.dev.AsRing() == ring.AfterRead(n)
  {
    assert TaskFlow(c, s, s.tasks[t]);
  }

  /** Step by step, a write does to the ring what it does as one section. */
  lemma WriteSection(c: Config, s: State, t: nat, s1: State, s2: State, s3: State)
    requires t < |s.tasks| && CopyInStep(c, s, t, s1) && WriteAdvanceStep(c, s1, t, s2) && WriteWrapStep(c, s2, t, s3)
    ensures var ring, th := s.dev.AsRing(), s.tasks[t];
            && ring.Valid() && ring.Free() > 0 && ring.WriteCount(th.count) <= |th.data|
            && ring.wp + ring.WriteCount(th.count) <= |ring.cells|
            && s3.dev.AsRing() == ring.AfterWrite(th.data[..ring.WriteCount(th.count)])
  {
  }

  /** The actions that leave the cells and the wrapped pointers as they are. */
  predicate Inert(a: Action) {
    !a.ReadAdvance? && !a.WriteAdvance? && !a.CopyIn? && !a.CopyFault? && !a.PlainOpen? && !a.FifoAllocate?
  }

  /** The same buffer with the same pointers, up to the wrap. */
  ghost predicate SameRing(c: Config, d: Pipe, d': Pipe) {
    && d'.live == d.live && d'.cells == d.cells
    && d.rp <= c.len && d.wp <= c.len && d'.rp <= c.len && d'.wp <= c.len
    && Wrap(c.len, d'.rp) == Wrap(c.len, d.rp) && Wrap(c.len, d'.wp) == Wrap(c.len, d.wp)
  }

  /** An inert step leaves the ring as it is, or is the release that frees it. */
  lemma InertRing(c: Config, s: State, t: nat, a: Action, s': State)
    requires Flow(c, s) && Step(c, s, t, a, s') && Inert(a)
    ensures if EventOf(s, t, a) == Reset then s'.dev.live.None?
            else EventOf(s, t, a) == Silent && SameRing(c, s.dev, s'.dev)
  {
  }

  lemma InertStep(c: Config, s: State, t: nat, a: Action, s': State)
    requires Flow(c, s) && Step(c, s, t, a, s') && Inert(a)
    ensures StreamStep(Stored(c, s.dev), EventOf(s, t, a), Stored(c, s'.dev))
  {
    InertRing(c, s, t, a, s');
  }

  /** Each step adds accepted bytes at the end or takes delivered bytes from the front. */
  lemma StepStream(c: Config, s: State, t: nat, a: Action, s': State)
    requires Flow(c, s) && Step(c, s, t, a, s')
    ensures StreamStep(Stored(c, s.dev), EventOf(s, t, a), Stored(c, s'.dev))
  {
    if a.ReadAdvance? {
      if s.dev.live.Some? {
        DeliveredStep(c, s, t, s');
      }
    } else if a.WriteAdvance? {
      AcceptedStep(c, s, t, s');
    } else if a.CopyIn? {
      var bytes := s.tasks[t].data[..s.dev.AsRing().WriteCount(s.tasks[t].count)];
      CopyStepSilent(c, s, t, bytes, s'.tasks[t], s');
    } else if a.CopyFault? {
      CopyStepSilent(c, s, t, a.junk, s'.tasks[t], s');
    } else if Inert(a) {
      InertStep(c, s, t, a, s');
    }
  }

  /** All bytes accepted by writes, in the order in which they were published. */
  function AcceptedBytes(events: seq<Event>): seq<Byte> {
    if events == [] then []
    else
      var e := events[|events| - 1];
      AcceptedBytes(events[..|events| - 1]) + (if e.Accepted? then e.bytes else [])
  }

  /** All bytes delivered by reads, in order, wherever they come from. */
  function DeliveredBytes(events: seq<Event>): seq<Byte> {
    if events == [] then []
    else
      var e := events[|events| - 1];
      DeliveredBytes(events[..|events| - 1]) + (if e.Delivered? || e.Stray? then e.bytes else [])
  }

  /** How many of them come from a buffer that has been freed. */
  function StrayCount(events: seq<Event>): nat {
    if events == [] then 0
    else
      var e := events[|events| - 1];
      StrayCount(events[..|events| - 1]) + (if e.Stray? then |e.bytes| else 0)
  }

  lemma RunStream(c: Config, run: Run, k: nat)
    requires Valid(c, run) && k < |run.events|
    ensures StreamStep(Stored(c, run.states[k].dev), run.events[k], Stored(c, run.states[k + 1].dev))
  {
    RunInv(c, run, k);
    var s, s' := run.states[k], run.states[k + 1];
    assert StepAt(c, run, k);
    var t, a :| Step(c, s, t, a, s') && run.events[k] == EventOf(s, t, a);
    StepStream(c, s, t, a, s');
  }

  lemma ConservationStep(first: seq<Byte>, accepted: seq<Byte>, delivered: seq<Byte>,
                         before: seq<Byte>, e: Event, after: seq<Byte>)
    requires first + accepted == delivered + before && StreamStep(before, e, after) && e != Reset
    requires e.Stray? ==> e.bytes == []
    ensures first + (accepted + (if e.Accepted? then e.bytes else []))
         == (delivered + (if e.Delivered? || e.Stray? then e.bytes else [])) + after
  {
    match e
    case Accepted(bytes) =>
      assert first + (accepted + bytes) == (first + accepted) + bytes;
      assert (delivered + before) + bytes == delivered + (before + bytes);
    case Delivered(bytes) =>
      assert delivered + (bytes + after) == (delivered + bytes) + after;
    case Stray(_) =>
      assert accepted + [] == accepted && delivered + [] == delivered;
    case Silent =>
      assert accepted + [] == accepted && delivered + [] == delivered;
  }

  /** The steps of a history of stored bytes are what the events say. */
  ghost predicate Explains(stores: seq<seq<Byte>>, events: seq<Event>) {
    && |stores| == |events| + 1 && Reset !in events
    && forall k :: 0 <= k < |events| ==> StreamStep(stores[k], events[k], stores[k + 1])
  }

  lemma {:induction false} HistoryConservation(stores: seq<seq<Byte>>, events: seq<Event>)
    requires Explains(stores, events) && StrayCount(events) == 0
    ensures stores[0] + AcceptedBytes(events) == DeliveredBytes(events) + stores[|events|]
  {
    if events != [] {
      var n := |events| - 1;
      HistoryConservation(stores[..n + 1], events[..n]);
      ConservationStep(stores[0], AcceptedBytes(events[..n]), DeliveredBytes(events[..n]),
                       stores[n], events[n], stores[n + 1]);
    }
  }

  /** Stray bytes come on top of all that was ever stored. */
  lemma {:induction false} HistoryCounts(stores: seq<seq<Byte>>, events: seq<Event>)
    requires Explains(stores, events)
    ensures |stores[0]| + |AcceptedBytes(events)| + StrayCount(events)
         == |DeliveredBytes(events)| + |stores[|events|]|
  {
    if events != [] {
      var n := |events| - 1;
      HistoryCounts(stores[..n + 1], events[..n]);
      assert StreamStep(stores[n], events[n], stores[n + 1]);
    }
  }

  lemma HistoryConservedIff(stores: seq<seq<Byte>>, events: seq<Event>)
    requires Explains(stores, events)
    ensures stores[0] + AcceptedBytes(events) == DeliveredBytes(events) + stores[|events|] <==> StrayCount(events) == 0
  {
    HistoryCounts(stores, events);
    if StrayCount(events) == 0 {
      HistoryConservation(stores, events);
    } else {
      assert |stores[0] + AcceptedBytes(events)| != |DeliveredBytes(events) + stores[|events|]|;
    }
  }

  /** What is stored from state `i` to state `j` of a run. */
  ghost function Stores(c: Config, run: Run, i: nat, j: nat): (r: seq<seq<Byte>>)
    requires i <= j < |run.states|
    ensures |r| == j - i + 1
    ensures forall k :: 0 <= k < |r| ==> r[k] == Stored(c, run.states[i + k].dev)
  {
    seq(j - i + 1, k requires 0 <= k < j - i + 1 => Stored(c, run.states[i + k].dev))
  }

  lemma StoreStep(c: Config, run: Run, i: nat, j: nat, k: nat)
    requires Valid(c, run) && i <= j < |run.states| && k < j - i
    ensures StreamStep(Stores(c, run, i, j)[k], run.events[i..j][k], Stores(c, run, i, j)[k + 1])
  {
    RunStream(c, run, i + k);
    assert run.events[i..j][k] == run.events[i + k];
  }

  /** The events of a stretch of a run without resets explain what is stored. */
  lemma RunExplained(c: Config, run: Run, i: nat, j: nat)
    requires Valid(c, run) && i <= j < |run.states| && Reset !in run.events[i..j]
    ensures Explains(Stores(c, run, i, j), run.events[i..j])
  {
    forall k | 0 <= k < j - i
      ensures StreamStep(Stores(c, run, i, j)[k], run.events[i..j][k], Stores(c, run, i, j)[k + 1])
    {
      StoreStep(c, run, i, j, k);
    }
  }

  /**
   Nothing is lost, duplicated, reordered or made up: between two resets of the
   ring, what was stored and what writes accepted is what reads delivered and
   what is still stored, over any interleaving and across the wrap. That holds
   exactly as long as no read delivers bytes from a freed buffer.
   */
  lemma Conservation(c: Config, run: Run, i: nat, j: nat)
    requires Valid(c, run) && i <= j < |run.states| && Reset !in run.events[i..j]
    ensures Stored(c, run.states[i].dev) + AcceptedBytes(run.events[i..j])
         == DeliveredBytes(run.events[i..j]) + Stored(c, run.states[j].dev)
       <==> StrayCount(run.events[i..j]) == 0
  {
    RunExplained(c, run, i, j);
    HistoryConservedIff(Stores(c, run, i, j), run.events[i..j]);
  }

  lemma EmptyFirst(bytes: seq<Byte>)
    ensures [] + bytes == bytes
  {
  }

  /** After an open, reads deliver what writes accept, in order, and the rest is stored. */
  lemma DeliveredIsAcceptedPrefix(c: Config, run: Run, i: nat, j: nat)
    requires Valid(c, run) && i < j < |run.states|
    requires run.events[i] == Reset && Reset !in run.events[i + 1..j]
    ensures AcceptedBytes(run.events[i + 1..j])
         == DeliveredBytes(run.events[i + 1..j]) + Stored(c, run.states[j].dev)
       <==> StrayCount(run.events[i + 1..j]) == 0
  {
    var accepted := AcceptedBytes(run.events[i + 1..j]);
    assert Stored(c, run.states[i + 1].dev) + accepted == accepted by {
      RunStream(c, run, i);
      EmptyFirst(accepted);
    }
    Conservation(c, run, i + 1, j);
  }

  /** Both pointers are inside the buffer and the used and free cells add up. */
  lemma RingAlwaysConsistent(c: Config, run: Run, k: nat)
    requires Valid(c, run) && k < |run.states|
    ensures var d := run.states[k].dev;
            && Wrap(c.len, d.rp) < c.len && Wrap(c.len, d.wp) < c.len
            && (d.live.Some? ==>
                  SpaceFree(c.len, Wrap(c.len, d.rp), Wrap(c.len, d.wp)) + |Stored(c, d)| == c.len - 1)
            && (run.states[k].lock.None? ==> d.rp < c.len && d.wp < c.len)
  {
    RunInv(c, run, k);
    var d := run.states[k].dev;
    if d.live.Some? {
      SpaceComplementsStored(Ring(d.cells, Wrap(c.len, d.rp), Wrap(c.len, d.wp)));
    }
  }

  // ----- Wake-ups -----

  /** A reader that sleeps next to stored bytes has a writer on its way to wake it. */
  lemma NoLostReaderWakeup(c: Config, run: Run, k: nat, i: nat)
    requires Valid(c, run) && k < |run.states|
    requires var s := run.states[k]; i < |s.tasks| && AsleepIn(s.tasks[i], Read(RdSleep))
    ensures Stored(c, run.states[k].dev) != [] ==> WriteOut(run.states[k])
    ensures run.states[k].dev.rp != run.states[k].dev.wp ==>
              WriteOut(run.states[k]) || HolderAt(run.states[k], Read(RdWrap))
  {
    RunInv(c, run, k);
    var s := run.states[k];
    assert TaskFlow(c, s, s.tasks[i]);
  }

  /**
   A writer that sleeps next to free space has a reader on its way to wake it,
   unless an open has reset the ring since the writer queued.
   */
  lemma NoLostWriterWakeup(c: Config, run: Run, k: nat, i: nat)
    requires Valid(c, run) && k < |run.states|
    requires var s := run.states[k]; i < |s.tasks| && AsleepIn(s.tasks[i], Write(WrSleep))
    requires run.states[k].tasks[i].since == run.states[k].flushes
    ensures !Full(c, run.states[k].dev) ==> ReadOut(run.states[k])
  {
    RunInv(c, run, k);
    var s := run.states[k];
    assert TaskFlow(c, s, s.tasks[i]);
  }

  /** Readers and writers are never all asleep with no wake-up outstanding. */
  lemma NeverBothAsleep(c: Config, run: Run, k: nat, i: nat, j: nat)
    requires Valid(c, run) && k < |run.states|
    requires var s := run.states[k];
             && i < |s.tasks| && AsleepIn(s.tasks[i], Read(RdSleep))
             && j < |s.tasks| && AsleepIn(s.tasks[j], Write(WrSleep)) && s.tasks[j].since == s.flushes
    ensures ReadOut(run.states[k]) || WriteOut(run.states[k])
  {
    RunInv(c, run, k);
    var s := run.states[k];
    assert TaskFlow(c, s, s.tasks[i]) && TaskFlow(c, s, s.tasks[j]);
  }

  predicate WaitsForSpace(pc: Pc) {
    pc.Write? && (pc.wp.WrPrep? || pc.wp.WrCheck? || pc.wp.WrSleep? || pc.wp.WrFinish? || pc.wp.WrRelock?)
  }

  /**
   `scull_getwritespace` succeeds exactly with the lock held and space free:
   a write about to copy owns the lock, and a write that waits or has failed
   does not.
   */
  lemma WriteSpaceMeansLock(c: Config, run: Run, k: nat, i: nat)
    requires Valid(c, run) && k < |run.states| && i < |run.states[k].tasks|
    ensures var s := run.states[k]; var pc := s.tasks[i].pc;
            && (pc == Write(WrCopy) ==> s.lock == Some(i) && SpaceFree(c.len, s.dev.rp, s.dev.wp) > 0)
            && (WaitsForSpace(pc) || pc.Idle? ==> s.lock != Some(i))
  {
    RunInv(c, run, k);
    var s := run.states[k];
    assert TaskFlow(c, s, s.tasks[i]);
    assert s.tasks[i].pc.Critical() <==> s.lock == Some(i);
  }

  // ----- Files and the buffer -----

  ghost function ReadFiles(s: State): set<nat> {
    set f | f in s.files && s.files[f].file.mode.read
  }

  ghost function WriteFiles(s: State): set<nat> {
    set f | f in s.files && s.files[f].file.mode.write
  }

  lemma SubsetSize(a: set<nat>, b: set<nat>)
    requires a <= b
    ensures |a| <= |b|
  {
    assert b == a + (b - a);
  }

  /** The counts never fall below the number of open files of each mode. */
  lemma CountsCoverFiles(c: Config, run: Run, k: nat)
    requires Valid(c, run) && k < |run.states|
    ensures |ReadFiles(run.states[k])| <= run.states[k].dev.readers
    ensures |WriteFiles(run.states[k])| <= run.states[k].dev.writers
  {
    RunInv(c, run, k);
    var s := run.states[k];
    forall f | f in s.files
      ensures FileBook(c, s, f, s.files[f])
    {
    }
    SubsetSize(ReadFiles(s), s.readTokens);
    SubsetSize(WriteFiles(s), s.writeTokens);
  }

  /** A step never changes the record of a file that stays open. */
  lemma FileRecordKept(c: Config, s: State, t: nat, a: Action, s': State, f: nat)
    requires Book(c, s) && Step(c, s, t, a, s') && f in s.files && f in s'.files
    ensures s'.files[f] == s.files[f]
  {
    if a.FileOpened? {
      assert TaskBook(c, s, s.tasks[t]);
    }
  }

  lemma NextFileRecord(c: Config, s: State, e: Event, s': State, f: nat)
    requires Book(c, s) && Next(c, s, e, s') && f in s.files && f in s'.files
    ensures s'.files[f] == s.files[f]
  {
    var t, a :| Step(c, s, t, a, s') && e == EventOf(s, t, a);
    FileRecordKept(c, s, t, a, s', f);
  }

  lemma {:induction false} RunFileRecord(c: Config, run: Run, i: nat, j: nat, f: nat)
    requires Valid(c, run) && i <= j < |run.states|
    requires forall k :: i <= k <= j ==> f in run.states[k].files
    ensures run.states[j].files[f] == run.states[i].files[f]
  {
    if i < j {
      RunFileRecord(c, run, i, j - 1, f);
      RunInv(c, run, j - 1);
      assert StepAt(c, run, j - 1);
      NextFileRecord(c, run.states[j - 1], run.events[j - 1], run.states[j], f);
    }
  }

  /**
   While a reading or writing file stays open, a buffer its open left behind is
   the one live allocation. The open of a protected file has left one: of every
   file of a plain pipe, of every write file of pipe 3, and of every file of
   pipe 3 until an open there has run out of memory.
   */
  lemma BufferOutlivesFile(c: Config, run: Run, i: nat, j: nat, f: nat)
    requires Valid(c, run) && i <= j < |run.states|
    requires forall k :: i <= k <= j ==> f in run.states[k].files
    ensures run.states[j].files[f] == run.states[i].files[f]
    ensures var of := run.states[i].files[f];
            && ((of.file.mode.read || of.file.mode.write) && of.buf.Some? ==> run.states[j].dev.live == of.buf)
            && (Protected(c, run.states[j].nomem, of.file.mode) ==>
                  of.buf.Some? && run.states[j].dev.live == of.buf)
  {
    RunInv(c, run, j);
    RunFileRecord(c, run, i, j, f);
    assert FileBook(c, run.states[j], f, run.states[j].files[f]);
  }

  lemma NomemStep(c: Config, s: State, t: nat, a: Action, s': State)
    requires Step(c, s, t, a, s') && s.nomem
    ensures s'.nomem
  {
  }

  /**
   A read or write in progress has a buffer, except a read on pipe 3 after an
   open there has run out of memory; if the open of its file left a buffer
   behind, it is that one.
   */
  lemma BufferInUse(c: Config, s: State, i: nat)
    requires Inv(c, s) && i < |s.tasks| && (s.tasks[i].pc.Read? || s.tasks[i].pc.Write?)
    ensures s.dev.live.None? ==> c.proper && s.nomem && s.tasks[i].pc.Read? && !s.tasks[i].file.mode.write
    ensures s.tasks[i].fid in s.files
    ensures s.files[s.tasks[i].fid].buf.Some? ==> s.dev.live == s.files[s.tasks[i].fid].buf
    ensures Protected(c, s.nomem, s.tasks[i].file.mode) ==> s.files[s.tasks[i].fid].buf.Some?
    ensures s.dev.live.Some? && (s.tasks[i].pc == Read(RdCopy) || s.tasks[i].pc == Write(WrCopy)) ==> Ready(c, s.dev)
  {
    assert TaskBook(c, s, s.tasks[i]);
    assert FileBook(c, s, s.tasks[i].fid, s.files[s.tasks[i].fid]);
    assert s.tasks[i].pc.Critical() <==> s.lock == Some(i);
  }

  /**
   No read or write touches a freed or a replaced buffer, but for the one case
   the code leaves open: a read-only file of pipe 3, opened after an open there
   has run out of memory and while there was no buffer.
   */
  lemma NoUseAfterFree(c: Config, run: Run, k: nat, i: nat)
    requires Valid(c, run) && k < |run.states| && i < |run.states[k].tasks|
    requires var pc := run.states[k].tasks[i].pc; pc.Read? || pc.Write?
    ensures var s := run.states[k];
            && (s.dev.live.None? ==> c.proper && s.nomem && s.tasks[i].pc.Read? && !s.tasks[i].file.mode.write)
            && s.tasks[i].fid in s.files
            && (s.files[s.tasks[i].fid].buf.Some? ==> s.dev.live == s.files[s.tasks[i].fid].buf)
            && (Protected(c, s.nomem, s.tasks[i].file.mode) ==> s.files[s.tasks[i].fid].buf.Some?)
            && (s.tasks[i].pc == Write(WrCopy) ==> Ready(c, s.dev))
            && (s.tasks[i].pc == Read(RdCopy) && s.dev.live.Some? ==> Ready(c, s.dev))
  {
    RunInv(c, run, k);
    BufferInUse(c, run.states[k], i);
  }

  /** A step changes which buffer is live by allocating one, or by freeing it when nobody is counted. */
  lemma LiveStep(c: Config, s: State, t: nat, a: Action, s': State)
    requires Step(c, s, t, a, s')
    ensures s.dev.allocations <= s'.dev.allocations
    ensures s.dev.live.None? ==>
              (s'.dev.live.None? <==> s'.dev.allocations == s.dev.allocations)
    ensures s.dev.live.Some? ==> s'.dev.live == s.dev.live || Sum(s'.dev.readers, s'.dev.writers) == 0
  {
  }

  lemma NextLive(c: Config, s: State, e: Event, s': State)
    requires Next(c, s, e, s') && Sum(s'.dev.readers, s'.dev.writers) > 0
    ensures s.dev.allocations <= s'.dev.allocations
    ensures s'.dev.live.None? <==> s.dev.live.None? && s'.dev.allocations == s.dev.allocations
  {
    var t, a :| Step(c, s, t, a, s') && e == EventOf(s, t, a);
    LiveStep(c, s, t, a, s');
  }

  lemma FileIsCounted(c: Config, s: State, f: nat)
    requires Inv(c, s) && f in s.files && (s.files[f].file.mode.read || s.files[f].file.mode.write)
    ensures Sum(s.dev.readers, s.dev.writers) > 0
  {
    assert FileBook(c, s, f, s.files[f]);
  }

  /** While a file is counted, a live buffer stays, whoever allocated it. */
  lemma RunLiveKept(c: Config, run: Run, k: nat, f: nat)
    requires Valid(c, run) && k + 1 < |run.states| && f in run.states[k + 1].files
    requires var mode := run.states[k + 1].files[f].file.mode; mode.read || mode.write
    ensures var d, d' := run.states[k].dev, run.states[k + 1].dev;
            d.allocations <= d'.allocations && (d'.live.None? <==> d.live.None? && d'.allocations == d.allocations)
  {
    var s, s' := run.states[k], run.states[k + 1];
    assert Sum(s'.dev.readers, s'.dev.writers) > 0 by {
      RunInv(c, run, k + 1);
      FileIsCounted(c, s', f);
    }
    assert StepAt(c, run, k);
    NextLive(c, s, run.events[k], s');
  }

  lemma {:induction false} LiveWhileOpen(c: Config, run: Run, i: nat, j: nat, f: nat)
    requires Valid(c, run) && i <= j < |run.states|
    requires forall k :: i <= k <= j ==> f in run.states[k].files
    requires var mode := run.states[i].files[f].file.mode; mode.read || mode.write
    ensures run.states[i].dev.allocations <= run.states[j].dev.allocations
    ensures run.states[j].dev.live.None? <==>
              run.states[i].dev.live.None? && run.states[j].dev.allocations == run.states[i].dev.allocations
  {
    if i < j {
      LiveWhileOpen(c, run, i, j - 1, f);
      RunFileRecord(c, run, i, j, f);
      RunLiveKept(c, run, j - 1, f);
    }
  }

  lemma OnlyOpensAddFiles(c: Config, s: State, t: nat, a: Action, s': State, f: nat)
    requires Step(c, s, t, a, s') && f !in s.files && f in s'.files
    ensures a.FileOpened? && s'.dev.live == s.dev.live == s'.files[f].buf
  {
  }

  lemma OpenedNow(c: Config, s: State, e: Event, s': State, f: nat)
    requires Next(c, s, e, s') && f !in s.files && f in s'.files
    ensures s'.dev.live == s.dev.live == s'.files[f].buf
  {
    var t, a :| Step(c, s, t, a, s') && e == EventOf(s, t, a);
    OnlyOpensAddFiles(c, s, t, a, s', f);
  }

  /**
   Exactly when a file that was opened by step `i - 1` and is still open has no
   buffer to read from: its open left none behind, and none has been allocated
   since.
   */
  lemma BufferMissingIff(c: Config, run: Run, i: nat, j: nat, f: nat)
    requires Valid(c, run) && 0 < i <= j < |run.states| && f !in run.states[i - 1].files
    requires forall k :: i <= k <= j ==> f in run.states[k].files
    requires var mode := run.states[i].files[f].file.mode; mode.read || mode.write
    ensures run.states[j].dev.live.None? <==>
              run.states[i].files[f].buf.None? && run.states[j].dev.allocations == run.states[i].dev.allocations
  {
    assert StepAt(c, run, i - 1);
    OpenedNow(c, run.states[i - 1], run.events[i - 1], run.states[i], f);
    LiveWhileOpen(c, run, i, j, f);
  }

  /** Stray bytes appear only on pipe 3, after an open there has run out of memory. */
  lemma StrayNeedsFailedOpen(c: Config, run: Run, k: nat)
    requires Valid(c, run) && k < |run.events| && run.events[k].Stray?
    ensures c.proper && run.states[k].nomem
  {
    RunInv(c, run, k);
    var s := run.states[k];
    assert StepAt(c, run, k);
    var t, a :| Step(c, s, t, a, run.states[k + 1]) && run.events[k] == EventOf(s, t, a);
    BufferInUse(c, s, t);
  }

  lemma NextNomem(c: Config, s: State, e: Event, s': State)
    requires Next(c, s, e, s') && s.nomem
    ensures s'.nomem
  {
    var t, a :| Step(c, s, t, a, s') && e == EventOf(s, t, a);
    NomemStep(c, s, t, a, s');
  }

  lemma {:induction false} NomemStays(c: Config, run: Run, i: nat, j: nat)
    requires Valid(c, run) && i <= j < |run.states| && run.states[i].nomem
    ensures run.states[j].nomem
  {
    if i < j {
      NomemStays(c, run, i, j - 1);
      assert StepAt(c, run, j - 1);
      NextNomem(c, run.states[j - 1], run.events[j - 1], run.states[j]);
    }
  }

  lemma {:induction false} NoStrays(events: seq<Event>)
    requires forall k :: 0 <= k < |events| ==> !events[k].Stray?
    ensures StrayCount(events) == 0
  {
    if events != [] {
      NoStrays(events[..|events| - 1]);
    }
  }

  /** So the bytes are conserved on plain pipes, and on pipe 3 until an open there runs out of memory. */
  lemma ConservationUntilFailedOpen(c: Config, run: Run, i: nat, j: nat)
    requires Valid(c, run) && i <= j < |run.states| && Reset !in run.events[i..j]
    requires c.proper ==> !run.states[j].nomem
    ensures Stored(c, run.states[i].dev) + AcceptedBytes(run.events[i..j])
         == DeliveredBytes(run.events[i..j]) + Stored(c, run.states[j].dev)
  {
    var events := run.events[i..j];
    forall k | 0 <= k < |events|
      ensures !events[k].Stray?
    {
      if events[k].Stray? {
        StrayNeedsFailedOpen(c, run, i + k);
        NomemStays(c, run, i + k, j);
      }
    }
    NoStrays(events);
    Conservation(c, run, i, j);
  }

  /** A pipe 3 read open succeeds only under the lock with a writer counted. */
  lemma ReadOpenNeedsWriter(c: Config, run: Run, k: nat, i: nat)
    requires Valid(c, run) && k < |run.states| && i < |run.states[k].tasks| && c.proper
    requires var th := run.states[k].tasks[i]; th.pc.Opened? && th.file.mode.read
    ensures run.states[k].lock == Some(i) && run.states[k].dev.writers > 0
  {
    RunInv(c, run, k);
    var s := run.states[k];
    assert TaskBook(c, s, s.tasks[i]);
    assert s.tasks[i].pc.Critical() <==> s.lock == Some(i);
  }

  /**
   As long as no open of pipe 3 has run out of memory, no opener sleeps next to a
   writer unless that writer is about to wake it.
   */
  lemma NoLostOpenerWakeup(c: Config, run: Run, k: nat, i: nat)
    requires Valid(c, run) && k < |run.states| && i < |run.states[k].tasks|
    requires AsleepIn(run.states[k].tasks[i], Fifo(FifoSleep)) && !run.states[k].nomem
    ensures run.states[k].dev.writers > 0 ==>
              HolderAt(run.states[k], Fifo(FifoAlloc)) || HolderAt(run.states[k], Fifo(FifoWake))
  {
    RunInv(c, run, k);
  }
}

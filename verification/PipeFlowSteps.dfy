/** Every step of the pipe keeps the bytes and the wake-ups in order. */
module PipeFlowSteps {
  import opened Common
  import opened PipeRing
  import opened PipeProtocol
  import opened PipeBook
  import opened PipeFlow

  // ----- The tasks that do not move -----

  /** A published pointer stays published until its own task issues the wake-up. */
  lemma ReadOutKept(s: State, t: nat, next: Task, s': State)
    requires OneMoves(s, t, next, s')
    requires s.tasks[t].pc.ReadPublished() ==> next.pc.ReadPublished()
    ensures ReadOut(s) ==> ReadOut(s')
  {
    if i :| 0 <= i < |s.tasks| && s.tasks[i].pc.ReadPublished() {
      assert s'.tasks[i].pc.ReadPublished();
    }
  }

  lemma WriteOutKept(s: State, t: nat, next: Task, s': State)
    requires OneMoves(s, t, next, s')
    requires s.tasks[t].pc.WritePublished() ==> next.pc.WritePublished()
    ensures WriteOut(s) ==> WriteOut(s')
  {
    if i :| 0 <= i < |s.tasks| && s.tasks[i].pc.WritePublished() {
      assert s'.tasks[i].pc.WritePublished();
    }
  }

  /** The step is harmless to readers that wait. */
  ghost predicate ReadersFine(c: Config, s: State, s': State) {
    || WriteOut(s')
    || Empty(c, s'.dev)
    || (forall i :: 0 <= i < |s'.tasks| && OnQueue(s'.tasks[i].pc, InQ) ==> s'.tasks[i].runnable)
    || (s'.dev.wp == s.dev.wp && (Empty(c, s.dev) ==> Empty(c, s'.dev)) && !WriteOut(s))
  }

  /** The step is harmless to writers that wait. */
  ghost predicate WritersFine(c: Config, s: State, s': State) {
    || ReadOut(s')
    || s.flushes < s'.flushes
    || (forall i :: 0 <= i < |s'.tasks| && OnQueue(s'.tasks[i].pc, OutQ) ==> s'.tasks[i].runnable)
    || (s'.dev.rp == s.dev.rp && (Full(c, s.dev) ==> Full(c, s'.dev)) && !ReadOut(s))
  }

  lemma OtherWaitsKept(c: Config, s: State, s': State, i: nat)
    requires i < |s.tasks| == |s'.tasks| && TaskFlow(c, s, s.tasks[i]) && SameButWoken(s.tasks[i], s'.tasks[i])
    requires ReadersFine(c, s, s') && WritersFine(c, s, s') && s.flushes <= s'.flushes
    ensures WaitRead(c, s'.dev, WriteOut(s'), s'.tasks[i])
    ensures WaitWrite(c, s'.dev, s'.flushes, ReadOut(s'), s'.tasks[i])
    ensures OnQueue(s'.tasks[i].pc, OutQ) ==> s'.tasks[i].since <= s'.flushes
  {
  }

  /** Only the owner of the lock changes the ring, so nobody else has claims on it. */
  lemma OtherLocalKept(c: Config, s: State, s': State, t: nat, i: nat)
    requires LockHeld(s) && t < |s.tasks| && i < |s.tasks| == |s'.tasks| && i != t
    requires s'.dev == s.dev || s.tasks[t].pc.Critical()
    requires TaskLocal(c, s.dev, s.tasks[i]) && SameButWoken(s.tasks[i], s'.tasks[i])
    ensures TaskLocal(c, s'.dev, s'.tasks[i])
  {
  }

  /** Puts the parts together for a step by task `t`. */
  lemma FlowFromParts(c: Config, s: State, t: nat, next: Task, s': State)
    requires LockHeld(s) && Flow(c, s) && OneMoves(s, t, next, s')
    requires s'.dev == s.dev || s.tasks[t].pc.Critical()
    requires ReadersFine(c, s, s') && WritersFine(c, s, s') && s.flushes <= s'.flushes
    requires Pointers(c, s') && TaskFlow(c, s', next)
    ensures Flow(c, s')
  {
    forall i | 0 <= i < |s.tasks| && i != t
      ensures TaskFlow(c, s', s'.tasks[i])
    {
      assert TaskFlow(c, s, s.tasks[i]);
      OtherWaitsKept(c, s, s', i);
      OtherLocalKept(c, s, s', t, i);
    }
  }

  lemma PointersKept(c: Config, s: State, t: nat, next: Task, s': State)
    requires LockHeld(s) && Pointers(c, s) && OneMoves(s, t, next, s')
    requires s'.dev.rp == s.dev.rp && s'.dev.wp == s.dev.wp
    requires s'.dev.live.Some? ==> |s'.dev.cells| == c.len
    requires s.tasks[t].pc != Read(RdWrap) && s.tasks[t].pc != Write(WrWrap)
    ensures Pointers(c, s')
  {
    if s.dev.rp == c.len {
      HolderKept(s, t, next, s', Read(RdWrap));
    }
    if s.dev.wp == c.len {
      HolderKept(s, t, next, s', Write(WrWrap));
    }
  }

  /** While `t` owns the lock away from the wrap, both pointers are inside. */
  lemma InsideWhileLocked(c: Config, s: State, t: nat)
    requires LockHeld(s) && Pointers(c, s) && t < |s.tasks| && s.tasks[t].pc.Critical()
    ensures s.tasks[t].pc != Read(RdWrap) ==> s.dev.rp < c.len
    ensures s.tasks[t].pc != Write(WrWrap) ==> s.dev.wp < c.len
  {
  }

  /** Where `rp` is at `end` a reader still has its wake-up to issue. */
  lemma InsideUnlessOut(c: Config, s: State)
    requires LockHeld(s) && Pointers(c, s)
    ensures !ReadOut(s) ==> s.dev.rp < c.len
    ensures !WriteOut(s) ==> s.dev.wp < c.len
  {
    if s.dev.rp == c.len {
      assert s.tasks[s.lock.value].pc.ReadPublished();
    }
    if s.dev.wp == c.len {
      assert s.tasks[s.lock.value].pc.WritePublished();
    }
  }

  // ----- Steps that leave the pointers alone -----

  /** The pointers stay and no published pointer is forgotten. */
  ghost predicate Quiet(c: Config, s: State, t: nat, next: Task, s': State) {
    && OneMoves(s, t, next, s')
    && s'.dev.rp == s.dev.rp && s'.dev.wp == s.dev.wp
    && (s'.dev.live.Some? ==> |s'.dev.cells| == c.len)
    && (s'.dev == s.dev || s.tasks[t].pc.Critical())
    && s.flushes <= s'.flushes
    && (next.pc.ReadPublished() <==> s.tasks[t].pc.ReadPublished())
    && (next.pc.WritePublished() <==> s.tasks[t].pc.WritePublished())
    && s.tasks[t].pc != Read(RdWrap) && s.tasks[t].pc != Write(WrWrap)
  }

  lemma OutSame(s: State, t: nat, next: Task, s': State)
    requires OneMoves(s, t, next, s')
    requires next.pc.ReadPublished() <==> s.tasks[t].pc.ReadPublished()
    requires next.pc.WritePublished() <==> s.tasks[t].pc.WritePublished()
    ensures ReadOut(s) <==> ReadOut(s')
    ensures WriteOut(s) <==> WriteOut(s')
  {
    ReadOutKept(s, t, next, s');
    WriteOutKept(s, t, next, s');
    if i :| 0 <= i < |s.tasks| && s'.tasks[i].pc.ReadPublished() {
      assert s.tasks[i].pc.ReadPublished();
    }
    if i :| 0 <= i < |s.tasks| && s'.tasks[i].pc.WritePublished() {
      assert s.tasks[i].pc.WritePublished();
    }
  }

  lemma QuietKeepsFlow(c: Config, s: State, t: nat, next: Task, s': State)
    requires LockHeld(s) && Flow(c, s) && Quiet(c, s, t, next, s')
    requires TaskFlow(c, s', next)
    ensures Flow(c, s')
  {
    OutSame(s, t, next, s');
    PointersKept(c, s, t, next, s');
    FlowFromParts(c, s, t, next, s');
  }

  lemma ReadControlKeepsFlow(c: Config, s: State, t: nat, next: Task, s': State)
    requires LockHeld(s) && Flow(c, s) && t < |s.tasks| && ControlStep(c, s, t, next, s')
    requires ReadControl(c, s, s.tasks[t], next)
    ensures Flow(c, s')
  {
    assert TaskFlow(c, s, s.tasks[t]);
    assert OneMoves(s, t, next, s');
    ReadControlWaits(c, s, WriteOut(s), s.tasks[t], next);
    ReadControlLocal(c, s, s.tasks[t], next);
    OutSame(s, t, next, s');
    assert s.tasks[t].pc != Read(RdWrap);
    QuietKeepsFlow(c, s, t, next, s');
  }

  lemma WriteControlKeepsFlow(c: Config, s: State, t: nat, next: Task, s': State)
    requires LockHeld(s) && Flow(c, s) && t < |s.tasks| && ControlStep(c, s, t, next, s')
    requires WriteControl(c, s, s.tasks[t], next)
    ensures Flow(c, s')
  {
    assert TaskFlow(c, s, s.tasks[t]);
    assert OneMoves(s, t, next, s');
    InsideUnlessOut(c, s);
    WriteControlFlow(c, s, ReadOut(s), s.tasks[t], next);
    OutSame(s, t, next, s');
    assert s.tasks[t].pc != Write(WrWrap);
    QuietKeepsFlow(c, s, t, next, s');
  }

  /** Opens, releases and the start of any operation. */
  lemma OutsideIoKeepsFlow(c: Config, s: State, t: nat, next: Task, s': State)
    requires LockHeld(s) && Flow(c, s) && Quiet(c, s, t, next, s')
    requires next.pc.Read? ==> next.pc == Read(RdLock)
    requires next.pc.Write? ==> next.pc == Write(WrLock) && next.count == |next.data|
    ensures Flow(c, s')
  {
    QuietKeepsFlow(c, s, t, next, s');
  }

  /** The steps of opens and releases that leave the pointers alone. */
  predicate Bookkeeping(a: Action) {
    || a.BeginOpen? || a.BeginRead? || a.BeginWrite? || a.BeginRelease? || a.FifoCount?
    || a.FifoNoMemory? || a.FifoWakeup? || a.FileOpened? || a.ReleaseBody?
  }

  lemma BeginIsQuiet(c: Config, s: State, t: nat, a: Action, s': State)
    requires Flow(c, s) && Step(c, s, t, a, s')
    requires a.BeginOpen? || a.BeginRead? || a.BeginWrite? || a.BeginRelease?
    ensures Quiet(c, s, t, s'.tasks[t], s')
    ensures s'.tasks[t].pc.Read? ==> s'.tasks[t].pc == Read(RdLock)
    ensures s'.tasks[t].pc.Write? ==> s'.tasks[t].pc == Write(WrLock) && s'.tasks[t].count == |s'.tasks[t].data|
  {
  }

  lemma EndIsQuiet(c: Config, s: State, t: nat, a: Action, s': State)
    requires Flow(c, s) && Step(c, s, t, a, s')
    requires a.FifoCount? || a.FifoNoMemory? || a.FifoWakeup? || a.FileOpened? || a.ReleaseBody?
    ensures Quiet(c, s, t, s'.tasks[t], s')
    ensures !s'.tasks[t].pc.Read? && !s'.tasks[t].pc.Write?
  {
  }

  lemma BookkeepingKeepsFlow(c: Config, s: State, t: nat, a: Action, s': State)
    requires LockHeld(s) && Flow(c, s) && Step(c, s, t, a, s') && Bookkeeping(a)
    ensures Flow(c, s')
  {
    if a.BeginOpen? || a.BeginRead? || a.BeginWrite? || a.BeginRelease? {
      BeginIsQuiet(c, s, t, a, s');
    } else {
      EndIsQuiet(c, s, t, a, s');
    }
    OutsideIoKeepsFlow(c, s, t, s'.tasks[t], s');
  }

  lemma OpenControlKeepsFlow(c: Config, s: State, t: nat, next: Task, s': State)
    requires LockHeld(s) && Flow(c, s) && t < |s.tasks| && ControlStep(c, s, t, next, s')
    requires OpenControl(c, s, s.tasks[t], next)
    ensures Flow(c, s')
  {
    OpenControlIsMilder(c, s, s.tasks[t], next);
    assert OneMoves(s, t, next, s');
    assert !s.tasks[t].pc.Read? && !s.tasks[t].pc.Write?;
    OutsideIoKeepsFlow(c, s, t, next, s');
  }

  // ----- Opens that reset the ring -----

  lemma FlushKeepsFlow(c: Config, s: State, t: nat, a: Action, s': State)
    requires LockHeld(s) && Flow(c, s) && Step(c, s, t, a, s') && (a.PlainOpen? || a.FifoAllocate?)
    ensures Flow(c, s')
  {
    var next := s'.tasks[t];
    assert OneMoves(s, t, next, s');
    assert Empty(c, s'.dev) && s.flushes < s'.flushes;
    FlowFromParts(c, s, t, next, s');
  }

  // ----- Reads -----

  lemma ReadAdvanceKeepsFlow(c: Config, s: State, t: nat, s': State)
    requires LockHeld(s) && Flow(c, s) && t < |s.tasks| && ReadAdvanceStep(c, s, t, s')
    ensures Flow(c, s')
  {
    var next := s'.tasks[t];
    assert TaskFlow(c, s, s.tasks[t]);
    assert OneMoves(s, t, next, s');
    assert next.pc.ReadPublished();
    WriteOutKept(s, t, next, s');
    assert HolderAt(s', Read(RdWrap));
    FlowFromParts(c, s, t, next, s');
  }

  lemma ReadWrapKeepsFlow(c: Config, s: State, t: nat, s': State)
    requires LockHeld(s) && Flow(c, s) && t < |s.tasks| && ReadWrapStep(c, s, t, s')
    ensures Flow(c, s')
  {
    var next := s'.tasks[t];
    InsideWhileLocked(c, s, t);
    assert OneMoves(s, t, next, s');
    assert next.pc.ReadPublished();
    WriteOutKept(s, t, next, s');
    FlowFromParts(c, s, t, next, s');
  }

  lemma WakeWritersKeepsFlow(c: Config, s: State, t: nat, s': State)
    requires LockHeld(s) && Flow(c, s) && t < |s.tasks| && WakeWritersStep(c, s, t, s')
    ensures Flow(c, s')
  {
    var next := s'.tasks[t];
    assert OneMoves(s, t, next, s');
    WriteOutKept(s, t, next, s');
    PointersKept(c, s, t, next, s');
    FlowFromParts(c, s, t, next, s');
  }

  // ----- Writes -----

  lemma CopyKeepsFlow(c: Config, s: State, t: nat, bytes: seq<Byte>, next: Task, s': State)
    requires LockHeld(s) && Flow(c, s) && t < |s.tasks| && CopyStep(c, s, t, bytes, next, s')
    requires next == Goto(s.tasks[t], Idle) || next == s.tasks[t].(pc := Write(WrAdvance), data := bytes)
    ensures Flow(c, s')
  {
    assert OneMoves(s, t, next, s');
    PokeInvisible(s.dev.AsRing(), s.tasks[t].count, bytes);
    assert TaskLocal(c, s'.dev, next);
    QuietKeepsFlow(c, s, t, next, s');
  }

  lemma WriteAdvanceKeepsFlow(c: Config, s: State, t: nat, s': State)
    requires LockHeld(s) && Flow(c, s) && t < |s.tasks| && WriteAdvanceStep(c, s, t, s')
    ensures Flow(c, s')
  {
    var next := s'.tasks[t];
    assert TaskFlow(c, s, s.tasks[t]);
    assert OneMoves(s, t, next, s');
    assert next.pc.WritePublished();
    ReadOutKept(s, t, next, s');
    assert HolderAt(s', Write(WrWrap));
    assert !Full(c, s.dev);
    FlowFromParts(c, s, t, next, s');
  }

  lemma WriteWrapKeepsFlow(c: Config, s: State, t: nat, s': State)
    requires LockHeld(s) && Flow(c, s) && t < |s.tasks| && WriteWrapStep(c, s, t, s')
    ensures Flow(c, s')
  {
    var next := s'.tasks[t];
    InsideWhileLocked(c, s, t);
    assert OneMoves(s, t, next, s');
    assert next.pc.WritePublished();
    ReadOutKept(s, t, next, s');
    FlowFromParts(c, s, t, next, s');
  }

  lemma WakeReadersKeepsFlow(c: Config, s: State, t: nat, s': State)
    requires LockHeld(s) && Flow(c, s) && t < |s.tasks| && WakeReadersStep(c, s, t, s')
    ensures Flow(c, s')
  {
    var next := s'.tasks[t];
    assert OneMoves(s, t, next, s');
    ReadOutKept(s, t, next, s');
    PointersKept(c, s, t, next, s');
    FlowFromParts(c, s, t, next, s');
  }

  /** Every step keeps the flow. */
  lemma StepKeepsFlow(c: Config, s: State, t: nat, a: Action, s': State)
    requires LockHeld(s) && Flow(c, s) && Step(c, s, t, a, s')
    ensures Flow(c, s')
  {
    match a
    case Control(next) =>
      if OpenControl(c, s, s.tasks[t], next) {
        OpenControlKeepsFlow(c, s, t, next, s');
      } else if ReadControl(c, s, s.tasks[t], next) {
        ReadControlKeepsFlow(c, s, t, next, s');
      } else {
        WriteControlKeepsFlow(c, s, t, next, s');
      }
    case PlainOpen(_) => FlushKeepsFlow(c, s, t, a, s');
    case FifoAllocate(_) => FlushKeepsFlow(c, s, t, a, s');
    case ReadAdvance => ReadAdvanceKeepsFlow(c, s, t, s');
    case ReadWrap => ReadWrapKeepsFlow(c, s, t, s');
    case WakeWriters => WakeWritersKeepsFlow(c, s, t, s');
    case CopyIn =>
      var bytes := s.tasks[t].data[..s.dev.AsRing().WriteCount(s.tasks[t].count)];
      CopyKeepsFlow(c, s, t, bytes, s'.tasks[t], s');
    case CopyFault(junk) => CopyKeepsFlow(c, s, t, junk, s'.tasks[t], s');
    case WriteAdvance => WriteAdvanceKeepsFlow(c, s, t, s');
    case WriteWrap => WriteWrapKeepsFlow(c, s, t, s');
    case WakeReaders => WakeReadersKeepsFlow(c, s, t, s');
    case _ => BookkeepingKeepsFlow(c, s, t, a, s');
  }
}

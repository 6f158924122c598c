/**
 Exactly which steps of a scull pipe lose a wake-up: after which steps a writer,
 or an opener of pipe 3, is asleep with what it waits for and nobody on the way
 to wake it.
 */
module PipeLost {
  import opened Common
  import opened PipeRing
  import opened PipeProtocol
  import opened PipeBook
  import opened PipeFlow
  import opened PipeTheorems
  import PipeBookSteps
  import PipeFlowSteps

  // ----- Every step moves one task -----

  lemma OpeningMovesOne(c: Config, s: State, t: nat, a: Action, s': State)
    requires Step(c, s, t, a, s')
    requires a.Control? || a.BeginOpen? || a.PlainOpen? || a.FifoCount? || a.FifoAllocate? || a.FifoNoMemory?
             || a.FifoWakeup? || a.FileOpened?
    ensures |s'.tasks| == |s.tasks| && OneMoves(s, t, s'.tasks[t], s')
  {
  }

  lemma ReadingMovesOne(c: Config, s: State, t: nat, a: Action, s': State)
    requires Step(c, s, t, a, s')
    requires a.BeginRead? || a.BeginRelease? || a.ReleaseBody? || a.ReadAdvance? || a.ReadWrap? || a.WakeWriters?
    ensures |s'.tasks| == |s.tasks| && OneMoves(s, t, s'.tasks[t], s')
  {
  }

  lemma WritingMovesOne(c: Config, s: State, t: nat, a: Action, s': State)
    requires Step(c, s, t, a, s')
    requires a.BeginWrite? || a.CopyIn? || a.CopyFault? || a.WriteAdvance? || a.WriteWrap? || a.WakeReaders?
    ensures |s'.tasks| == |s.tasks| && OneMoves(s, t, s'.tasks[t], s')
  {
  }

  lemma StepMovesOne(c: Config, s: State, t: nat, a: Action, s': State)
    requires Step(c, s, t, a, s')
    ensures |s'.tasks| == |s.tasks| && OneMoves(s, t, s'.tasks[t], s')
  {
    if a.BeginRead? || a.BeginRelease? || a.ReleaseBody? || a.ReadAdvance? || a.ReadWrap? || a.WakeWriters? {
      ReadingMovesOne(c, s, t, a, s');
    } else if a.BeginWrite? || a.CopyIn? || a.CopyFault? || a.WriteAdvance? || a.WriteWrap? || a.WakeReaders? {
      WritingMovesOne(c, s, t, a, s');
    } else {
      OpeningMovesOne(c, s, t, a, s');
    }
  }

  predicate Sleeping(pc: Pc) {
    pc == Write(WrSleep) || pc == Fifo(FifoSleep)
  }

  /** A task gets to sleep by a control step of its own, or was there before. */
  lemma OnlyControlSleeps(c: Config, s: State, t: nat, a: Action, s': State)
    requires Step(c, s, t, a, s') && t < |s'.tasks| && Sleeping(s'.tasks[t].pc)
    ensures a.Control? && s'.tasks[t] == a.next
  {
  }

  lemma OthersSleepOn(c: Config, s: State, t: nat, a: Action, s': State, i: nat, pc: Pc)
    requires Step(c, s, t, a, s') && i < |s.tasks| == |s'.tasks| && AsleepIn(s'.tasks[i], pc) && t != i
    ensures AsleepIn(s.tasks[i], pc)
  {
    StepMovesOne(c, s, t, a, s');
  }

  // ----- Writers -----

  /** The step resets the ring. */
  predicate Resets(a: Action) {
    a.PlainOpen? || a.FifoAllocate?
  }

  /** The wrapped pointers stay, and a wake-up that is due to writers stays due. */
  ghost predicate WritersUnmoved(c: Config, s: State, s': State) {
    && Wrap(c.len, s'.dev.rp) == Wrap(c.len, s.dev.rp) && Wrap(c.len, s'.dev.wp) == Wrap(c.len, s.dev.wp)
    && (ReadOut(s) <==> ReadOut(s'))
  }

  /** No control step publishes a pointer or issues a wake-up. */
  predicate PublishesAlike(th: Task, next: Task) {
    && (next.pc.ReadPublished() <==> th.pc.ReadPublished())
    && (next.pc.WritePublished() <==> th.pc.WritePublished())
  }

  lemma OpenControlPublishes(c: Config, s: State, th: Task, next: Task)
    requires OpenControl(c, s, th, next)
    ensures PublishesAlike(th, next)
  {
  }

  lemma ReadControlPublishes(c: Config, s: State, th: Task, next: Task)
    requires ReadControl(c, s, th, next)
    ensures PublishesAlike(th, next)
  {
  }

  lemma WriteControlPublishes(c: Config, s: State, th: Task, next: Task)
    requires WriteControl(c, s, th, next)
    ensures PublishesAlike(th, next)
  {
  }

  lemma ControlPublishes(c: Config, s: State, th: Task, next: Task)
    requires OpenControl(c, s, th, next) || ReadControl(c, s, th, next) || WriteControl(c, s, th, next)
    ensures PublishesAlike(th, next)
  {
    if OpenControl(c, s, th, next) {
      OpenControlPublishes(c, s, th, next);
    } else if ReadControl(c, s, th, next) {
      ReadControlPublishes(c, s, th, next);
    } else {
      WriteControlPublishes(c, s, th, next);
    }
  }

  lemma ControlUnmoved(c: Config, s: State, t: nat, next: Task, s': State)
    requires t < |s.tasks| && ControlStep(c, s, t, next, s')
    ensures WritersUnmoved(c, s, s')
  {
    ControlPublishes(c, s, s.tasks[t], next);
    PipeFlowSteps.OutSame(s, t, next, s');
  }

  lemma BookkeepingUnmoved(c: Config, s: State, t: nat, a: Action, s': State)
    requires Flow(c, s) && Step(c, s, t, a, s') && PipeFlowSteps.Bookkeeping(a)
    ensures WritersUnmoved(c, s, s')
  {
    if a.BeginOpen? || a.BeginRead? || a.BeginWrite? || a.BeginRelease? {
      PipeFlowSteps.BeginIsQuiet(c, s, t, a, s');
    } else {
      PipeFlowSteps.EndIsQuiet(c, s, t, a, s');
    }
    PipeFlowSteps.OutSame(s, t, s'.tasks[t], s');
  }

  lemma CopyingUnmoved(c: Config, s: State, t: nat, a: Action, s': State)
    requires Step(c, s, t, a, s') && (a.CopyIn? || a.CopyFault? || a.WriteWrap? || a.WakeReaders?)
    ensures WritersUnmoved(c, s, s')
  {
    var next := s'.tasks[t];
    assert OneMoves(s, t, next, s');
    PipeFlowSteps.ReadOutKept(s, t, next, s');
    assert forall j :: 0 <= j < |s.tasks| ==> s'.tasks[j].pc.ReadPublished() ==> s.tasks[j].pc.ReadPublished();
  }

  /** Resets put nobody on the way to wake writers, and leave room for every one of them. */
  lemma ResetLeavesRoom(c: Config, s: State, t: nat, a: Action, s': State)
    requires Step(c, s, t, a, s') && Resets(a)
    ensures OneMoves(s, t, s'.tasks[t], s') && (ReadOut(s) <==> ReadOut(s'))
    ensures Empty(c, s'.dev) && !Full(c, s'.dev) && s'.dev.live.Some?
  {
    var next := s'.tasks[t];
    assert OneMoves(s, t, next, s');
    PipeFlowSteps.ReadOutKept(s, t, next, s');
    assert forall j :: 0 <= j < |s.tasks| ==> s'.tasks[j].pc.ReadPublished() ==> s.tasks[j].pc.ReadPublished();
  }

  lemma ReadingAttends(c: Config, s: State, t: nat, a: Action, s': State)
    requires Step(c, s, t, a, s') && (a.ReadAdvance? || a.ReadWrap?)
    ensures ReadOut(s')
  {
    assert s'.tasks[t].pc.ReadPublished();
  }

  lemma AcceptingAttends(c: Config, s: State, t: nat, s': State)
    requires Flow(c, s) && t < |s.tasks| && WriteAdvanceStep(c, s, t, s')
    ensures !Full(c, s.dev) && (ReadOut(s) ==> ReadOut(s'))
  {
    assert TaskFlow(c, s, s.tasks[t]);
    assert OneMoves(s, t, s'.tasks[t], s');
    PipeFlowSteps.ReadOutKept(s, t, s'.tasks[t], s');
  }

  /**
   Which steps lose a writer that is already asleep: out of a state where the ring is
   full or a reader is on its way to wake writers, a step that leaves the writer
   asleep leads to one with room and nobody on the way if and only if it resets
   the ring, by a plain open or by a write open of pipe 3, with no reader on the
   way.
   */
  lemma SleeperStrandedIffReset(c: Config, s: State, t: nat, a: Action, s': State, i: nat)
    requires Inv(c, s) && Step(c, s, t, a, s') && i < |s.tasks| == |s'.tasks|
    requires AsleepIn(s.tasks[i], Write(WrSleep)) && AsleepIn(s'.tasks[i], Write(WrSleep))
    requires Full(c, s.dev) || ReadOut(s)
    ensures !Full(c, s'.dev) && !ReadOut(s') <==> Resets(a) && !ReadOut(s)
  {
    if Resets(a) {
      ResetLeavesRoom(c, s, t, a, s');
    } else if a.Control? {
      ControlUnmoved(c, s, t, a.next, s');
    } else if a.ReadAdvance? || a.ReadWrap? {
      ReadingAttends(c, s, t, a, s');
    } else if a.WriteAdvance? {
      AcceptingAttends(c, s, t, s');
    } else if PipeFlowSteps.Bookkeeping(a) {
      BookkeepingUnmoved(c, s, t, a, s');
    } else if !a.WakeWriters? {
      CopyingUnmoved(c, s, t, a, s');
    }
  }

  /** Every reset strands every sleeping writer that no reader is about to wake. */
  lemma OpenStrandsSleepingWriter(c: Config, s: State, t: nat, a: Action, s': State, i: nat)
    requires Inv(c, s) && Step(c, s, t, a, s') && Resets(a)
    requires i < |s.tasks| && AsleepIn(s.tasks[i], Write(WrSleep)) && !ReadOut(s)
    ensures |s'.tasks| == |s.tasks| && AsleepIn(s'.tasks[i], Write(WrSleep)) && !ReadOut(s')
    ensures Stored(c, s'.dev) == [] && !Full(c, s'.dev)
  {
    ResetLeavesRoom(c, s, t, a, s');
  }

  /** Writer `i` is asleep next to free space with no reader on its way to wake it. */
  ghost predicate Stranded(c: Config, s: State, i: nat) {
    i < |s.tasks| && AsleepIn(s.tasks[i], Write(WrSleep)) && !Full(c, s.dev) && !ReadOut(s)
  }

  /** A task gets to `WrSleep` only by its own step out of the check. */
  lemma FallsAsleep(c: Config, s: State, t: nat, a: Action, s': State, i: nat)
    requires Step(c, s, t, a, s') && i < |s.tasks| == |s'.tasks|
    requires !AsleepIn(s.tasks[i], Write(WrSleep)) && AsleepIn(s'.tasks[i], Write(WrSleep))
    ensures t == i && s.tasks[i].pc == Write(WrCheck) && !s.tasks[i].runnable
    ensures a.Control? && WriteControl(c, s, s.tasks[i], a.next) && a.next == Goto(s.tasks[i], Write(WrSleep))
  {
    if t != i {
      OthersSleepOn(c, s, t, a, s', i, Write(WrSleep));
    }
    OnlyControlSleeps(c, s, t, a, s');
  }

  /** What a writer that decides to sleep has seen is out of date only if the ring has been reset since it queued. */
  lemma LateSleeper(c: Config, s: State, th: Task)
    requires TaskFlow(c, s, th) && !Full(c, s.dev) && !ReadOut(s)
    requires th.pc == Write(WrCheck) && !th.runnable && WriteControl(c, s, th, Goto(th, Write(WrSleep)))
    ensures th.since < s.flushes
  {
  }

  /**
   Exactly which steps strand a writer: a step that resets the ring, by a plain
   open or by a write open of pipe 3, while the writer is asleep and no reader is
   on its way; or the writer's own step to sleep, when there is room already and
   no reader is on its way. The second happens only if the ring has been reset
   since the writer queued.
   */
  lemma WriterStrandedIff(c: Config, s: State, t: nat, a: Action, s': State, i: nat)
    requires Inv(c, s) && Step(c, s, t, a, s') && i < |s.tasks| == |s'.tasks| && !Stranded(c, s, i)
    ensures var sleeps := AsleepIn(s'.tasks[i], Write(WrSleep));
            var caught := sleeps && AsleepIn(s.tasks[i], Write(WrSleep)) && Resets(a) && !ReadOut(s);
            var late := sleeps && t == i && s.tasks[i].pc == Write(WrCheck) && !Full(c, s.dev) && !ReadOut(s);
            && (Stranded(c, s', i) <==> caught || late)
            && (late ==> s.tasks[i].since < s.flushes)
  {
    if AsleepIn(s'.tasks[i], Write(WrSleep)) {
      if AsleepIn(s.tasks[i], Write(WrSleep)) {
        SleeperStrandedIffReset(c, s, t, a, s', i);
      } else {
        FallsAsleep(c, s, t, a, s', i);
        ControlUnmoved(c, s, t, a.next, s');
        assert TaskFlow(c, s, s.tasks[i]);
        if !Full(c, s.dev) && !ReadOut(s) {
          LateSleeper(c, s, s.tasks[i]);
        }
      }
    }
  }

  // ----- Openers of pipe 3 -----

  /** Opener `i` is asleep next to a counted writer with nobody on the way to wake it. */
  ghost predicate Forgotten(s: State, i: nat) {
    && i < |s.tasks| && AsleepIn(s.tasks[i], Fifo(FifoSleep)) && s.dev.writers > 0
    && !HolderAt(s, Fifo(FifoAlloc)) && !HolderAt(s, Fifo(FifoWake))
  }

  /** An opener goes to sleep by its own step, which has just seen that there is no writer. */
  lemma OpenerFallsAsleep(c: Config, s: State, t: nat, a: Action, s': State, i: nat)
    requires Step(c, s, t, a, s') && i < |s.tasks| == |s'.tasks|
    requires !AsleepIn(s.tasks[i], Fifo(FifoSleep)) && AsleepIn(s'.tasks[i], Fifo(FifoSleep))
    ensures s'.dev.writers == 0
  {
    if t != i {
      OthersSleepOn(c, s, t, a, s', i, Fifo(FifoSleep));
    }
    OnlyControlSleeps(c, s, t, a, s');
  }

  /** Steps that neither count writers nor belong to a write open of pipe 3. */
  lemma OpenersUnmoved(c: Config, s: State, t: nat, a: Action, s': State, i: nat)
    requires Book(c, s) && Step(c, s, t, a, s') && s'.dev.writers == s.dev.writers && !FifoWriter(s.tasks[t].pc)
    requires i < |s.tasks| && AsleepIn(s.tasks[i], Fifo(FifoSleep)) && !Forgotten(s, i)
    ensures !Forgotten(s', i)
  {
    StepMovesOne(c, s, t, a, s');
    PipeBookSteps.HoldersKept(s, t, s'.tasks[t], s');
  }

  /** The steps of a write open of pipe 3, after the count. */
  lemma WriteOpenAttends(c: Config, s: State, t: nat, a: Action, s': State, i: nat)
    requires Book(c, s) && Step(c, s, t, a, s') && FifoWriter(s.tasks[t].pc)
    requires i < |s.tasks| == |s'.tasks| && AsleepIn(s.tasks[i], Fifo(FifoSleep))
    ensures Forgotten(s', i) <==> a.FifoNoMemory?
  {
    assert TaskBook(c, s, s.tasks[t]) && TaskBook(c, s, s.tasks[i]);
    assert s.tasks[t].fid in s.writeTokens && s.tasks[i].fid in s.readTokens;
    assert t != i && s.lock == Some(t);
    assert a.FifoAllocate? || a.FifoNoMemory? || a.FifoWakeup?;
  }

  lemma HoldsWriteCounted(c: Config, s: State, th: Task)
    requires TaskBook(c, s, th) && DeviceBook(c, s)
    ensures HoldsWrite(th) ==> 0 < s.dev.writers
  {
    if HoldsWrite(th) {
      assert th.fid in s.writeTokens;
    }
  }

  /** A step that counts or uncounts a writer while an opener sleeps attended is the count of a write open. */
  lemma WritersCounted(c: Config, s: State, t: nat, a: Action, s': State, i: nat)
    requires Book(c, s) && Step(c, s, t, a, s') && s'.dev.writers != s.dev.writers
    requires i < |s.tasks| && AsleepIn(s.tasks[i], Fifo(FifoSleep)) && !Forgotten(s, i)
    ensures HolderAt(s', Fifo(FifoAlloc)) && !a.FifoNoMemory?
  {
    assert TaskBook(c, s, s.tasks[t]) && TaskBook(c, s, s.tasks[i]);
    assert s.tasks[t].pc.Critical() ==> s.lock == Some(t);
    assert a.PlainOpen? || a.FifoCount? || a.ReleaseBody?;
    assert c.proper && !a.PlainOpen?;
    HoldsWriteCounted(c, s, s.tasks[t]);
  }

  /**
   Exactly which step forgets a sleeping opener of pipe 3: a write open that runs
   out of memory, after it has been counted.
   */
  lemma OpenerForgottenIff(c: Config, s: State, t: nat, a: Action, s': State, i: nat)
    requires Inv(c, s) && Step(c, s, t, a, s') && i < |s.tasks| == |s'.tasks| && !Forgotten(s, i)
    ensures Forgotten(s', i) <==> AsleepIn(s.tasks[i], Fifo(FifoSleep)) && a.FifoNoMemory?
  {
    if !AsleepIn(s.tasks[i], Fifo(FifoSleep)) {
      if AsleepIn(s'.tasks[i], Fifo(FifoSleep)) {
        OpenerFallsAsleep(c, s, t, a, s', i);
      }
    } else if FifoWriter(s.tasks[t].pc) {
      WriteOpenAttends(c, s, t, a, s', i);
    } else if s'.dev.writers == s.dev.writers {
      OpenersUnmoved(c, s, t, a, s', i);
    } else {
      WritersCounted(c, s, t, a, s', i);
    }
  }
}

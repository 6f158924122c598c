/**
 What the tasks of a scull pipe decide and that they go on: when a read or write
 proceeds, waits or returns, that a non-blocking call never waits, and that no
 task is ever stuck anywhere but in front of a taken lock or asleep.
 */
module PipeChoices {
  import opened Common
  import opened PipeRing
  import opened PipeProtocol
  import opened PipeBook
  import opened PipeFlow
  import opened PipeTheorems
  import opened PipeLost
  import PipeFlowSteps

  // ----- Decisions under the lock -----

  /** Under the lock the pointers say what is stored. */
  lemma PointersSay(c: Config, s: State, t: nat)
    requires Inv(c, s) && t < |s.tasks| && s.tasks[t].pc.Critical()
    requires s.tasks[t].pc != Read(RdWrap) && s.tasks[t].pc != Write(WrWrap) && s.dev.live.Some?
    ensures s.dev.rp == s.dev.wp <==> Stored(c, s.dev) == []
    ensures SpaceFree(c.len, s.dev.rp, s.dev.wp) == c.len - 1 - |Stored(c, s.dev)|
  {
    PipeFlowSteps.InsideWhileLocked(c, s, t);
    SpaceComplementsStored(s.dev.AsRing());
  }

  /**
   A read of an empty pipe returns at once on pipe 3 without writers; else it
   copies if bytes are stored, and otherwise returns or waits as its file says.
   */
  lemma ReadDecides(c: Config, s: State, t: nat, next: Task)
    requires Inv(c, s) && t < |s.tasks| && ReadControl(c, s, s.tasks[t], next) && s.dev.live.Some?
    ensures s.tasks[t].pc == Read(RdEnter) ==>
              next.pc == if c.proper && Stored(c, s.dev) == [] && s.dev.writers == 0 then Idle else Read(RdTest)
    ensures s.tasks[t].pc == Read(RdTest) ==>
              next.pc == if Stored(c, s.dev) != [] then Read(RdCopy)
                         else if s.tasks[t].file.nonblock then Idle else Read(RdWait)
  {
    if s.tasks[t].pc == Read(RdEnter) || s.tasks[t].pc == Read(RdTest) {
      PointersSay(c, s, t);
    }
  }

  /** A write copies if the pipe is not full, and otherwise returns or waits as its file says. */
  lemma WriteDecides(c: Config, s: State, t: nat, next: Task)
    requires Inv(c, s) && t < |s.tasks| && WriteControl(c, s, s.tasks[t], next) && s.dev.live.Some?
    ensures s.tasks[t].pc == Write(WrTest) ==>
              next.pc == if |Stored(c, s.dev)| < c.len - 1 then Write(WrCopy)
                         else if s.tasks[t].file.nonblock then Idle else Write(WrPrep)
  {
    if s.tasks[t].pc == Write(WrTest) {
      PointersSay(c, s, t);
    }
  }

  /**
   An open fails for want of memory only without a buffer. One of pipe 3 is refused
   exactly for a non-blocking reader without writers, and a counted reader waits
   exactly without one.
   */
  lemma OpenDecides(c: Config, s: State, t: nat, a: Action, s': State)
    requires Step(c, s, t, a, s') && t < |s'.tasks|
    ensures s.tasks[t].pc == Fifo(FifoEnter) ==>
              var refused := s.tasks[t].file.mode.read && s.tasks[t].file.nonblock && s.dev.writers == 0;
              if refused then s'.tasks[t].pc == Idle && s'.dev == s.dev else a.FifoCount?
    ensures s.tasks[t].pc == Open(OpenBody) || s.tasks[t].pc == Fifo(FifoAlloc) ==>
              s'.tasks[t].pc != Idle || (s.dev.live.None? && s'.dev == s.dev)
    ensures s.tasks[t].pc == Fifo(FifoTest) ==>
              s'.tasks[t].pc == if s.dev.writers == 0 then Fifo(FifoWait) else Opened
  {
  }

  // ----- Calls that do not block -----

  predicate Waiting(pc: Pc) {
    || (pc.Read? && (pc.rp.RdWait? || pc.rp.RdPrep? || pc.rp.RdCheck? || pc.rp.RdSleep? || pc.rp.RdRelock?))
    || (pc.Write? && (pc.wp.WrPrep? || pc.wp.WrCheck? || pc.wp.WrSleep? || pc.wp.WrFinish? || pc.wp.WrRelock?))
    || (pc.Fifo? && (pc.fp.FifoWait? || pc.fp.FifoPrep? || pc.fp.FifoCheck? || pc.fp.FifoSleep? || pc.fp.FifoRelock?))
  }

  /** Who waits may block, and an opener that may not block has a writer. */
  ghost predicate Patient(s: State, th: Task) {
    && (Waiting(th.pc) ==> !th.file.nonblock)
    && (th.pc == Fifo(FifoTest) && th.file.nonblock ==> s.dev.writers > 0)
  }

  ghost predicate AllPatient(s: State) {
    forall i :: 0 <= i < |s.tasks| ==> Patient(s, s.tasks[i])
  }

  lemma OpenControlPatient(c: Config, s: State, th: Task, next: Task)
    requires OpenControl(c, s, th, next) && Patient(s, th)
    ensures Patient(s, next)
  {
  }

  lemma ReadControlPatient(c: Config, s: State, th: Task, next: Task)
    requires ReadControl(c, s, th, next) && Patient(s, th)
    ensures Patient(s, next)
  {
  }

  lemma WriteControlPatient(c: Config, s: State, th: Task, next: Task)
    requires WriteControl(c, s, th, next) && Patient(s, th)
    ensures Patient(s, next)
  {
  }

  /** Other steps lead to no wait, but for the count of a reader of pipe 3. */
  lemma FifoCountPatient(c: Config, s: State, t: nat, s': State)
    requires t < |s.tasks| && FifoCountStep(c, s, t, s')
    ensures Patient(s', s'.tasks[t])
  {
  }

  lemma OpeningPatient(c: Config, s: State, t: nat, a: Action, s': State)
    requires Step(c, s, t, a, s') && t < |s'.tasks|
    requires a.BeginOpen? || a.PlainOpen? || a.FifoAllocate? || a.FifoNoMemory? || a.FifoWakeup? || a.FileOpened?
    ensures Patient(s', s'.tasks[t])
  {
  }

  lemma ReadingPatient(c: Config, s: State, t: nat, a: Action, s': State)
    requires Step(c, s, t, a, s') && t < |s'.tasks|
    requires a.BeginRead? || a.BeginRelease? || a.ReleaseBody? || a.ReadAdvance? || a.ReadWrap? || a.WakeWriters?
    ensures Patient(s', s'.tasks[t])
  {
  }

  lemma WritingPatient(c: Config, s: State, t: nat, a: Action, s': State)
    requires Step(c, s, t, a, s') && t < |s'.tasks|
    requires a.BeginWrite? || a.CopyIn? || a.CopyFault? || a.WriteAdvance? || a.WriteWrap? || a.WakeReaders?
    ensures Patient(s', s'.tasks[t])
  {
  }

  lemma ActionPatient(c: Config, s: State, t: nat, a: Action, s': State)
    requires Step(c, s, t, a, s') && t < |s'.tasks| && !a.Control?
    ensures Patient(s', s'.tasks[t])
  {
    if a.FifoCount? {
      FifoCountPatient(c, s, t, s');
    } else if a.BeginRead? || a.BeginRelease? || a.ReleaseBody? || a.ReadAdvance? || a.ReadWrap? || a.WakeWriters? {
      ReadingPatient(c, s, t, a, s');
    } else if a.BeginWrite? || a.CopyIn? || a.CopyFault? || a.WriteAdvance? || a.WriteWrap? || a.WakeReaders? {
      WritingPatient(c, s, t, a, s');
    } else {
      OpeningPatient(c, s, t, a, s');
    }
  }

  lemma MoverPatient(c: Config, s: State, t: nat, a: Action, s': State)
    requires Step(c, s, t, a, s') && t < |s'.tasks| && Patient(s, s.tasks[t])
    ensures Patient(s', s'.tasks[t])
  {
    if !a.Control? {
      ActionPatient(c, s, t, a, s');
    } else if OpenControl(c, s, s.tasks[t], a.next) {
      OpenControlPatient(c, s, s.tasks[t], a.next);
    } else if ReadControl(c, s, s.tasks[t], a.next) {
      ReadControlPatient(c, s, s.tasks[t], a.next);
    } else {
      WriteControlPatient(c, s, s.tasks[t], a.next);
    }
  }

  lemma OnlyOwnerCounts(c: Config, s: State, t: nat, a: Action, s': State)
    requires Step(c, s, t, a, s')
    ensures s'.dev.writers == s.dev.writers || s.tasks[t].pc.Critical()
  {
  }

  lemma OtherPatient(s: State, s': State, th: Task, th': Task)
    requires Patient(s, th) && SameButWoken(th, th')
    requires th.pc.Critical() ==> s'.dev.writers == s.dev.writers
    ensures Patient(s', th')
  {
  }

  lemma StepPatient(c: Config, s: State, t: nat, a: Action, s': State)
    requires LockHeld(s) && AllPatient(s) && Step(c, s, t, a, s')
    ensures AllPatient(s')
  {
    StepMovesOne(c, s, t, a, s');
    MoverPatient(c, s, t, a, s');
    OnlyOwnerCounts(c, s, t, a, s');
    forall i | 0 <= i < |s'.tasks| && i != t
      ensures Patient(s', s'.tasks[i])
    {
      OtherPatient(s, s', s.tasks[i], s'.tasks[i]);
    }
  }

  lemma NextPatient(c: Config, s: State, e: Event, s': State)
    requires Inv(c, s) && AllPatient(s) && Next(c, s, e, s')
    ensures AllPatient(s')
  {
    var t, a :| Step(c, s, t, a, s') && e == EventOf(s, t, a);
    StepPatient(c, s, t, a, s');
  }

  lemma {:induction false} RunPatient(c: Config, run: Run, k: nat)
    requires Valid(c, run) && k < |run.states|
    ensures AllPatient(run.states[k])
  {
    if k > 0 {
      RunPatient(c, run, k - 1);
      RunInv(c, run, k - 1);
      assert StepAt(c, run, k - 1);
      NextPatient(c, run.states[k - 1], run.events[k - 1], run.states[k]);
    }
  }

  /** A call on a non-blocking file never waits, in any run. */
  lemma NonblockNeverWaits(c: Config, run: Run, k: nat, i: nat)
    requires Valid(c, run) && k < |run.states| && i < |run.states[k].tasks| && run.states[k].tasks[i].file.nonblock
    ensures !Waiting(run.states[k].tasks[i].pc)
  {
    RunPatient(c, run, k);
    assert Patient(run.states[k], run.states[k].tasks[i]);
  }

  // ----- Nobody is stuck -----

  /** Where a call may come to its end, without a signal, a fault or a lack of memory. */
  ghost predicate MayEnd(c: Config, s: State, th: Task) {
    || th.pc.Opened? || th.pc == Release(RelBody) || th.pc == Read(RdWake) || th.pc == Write(WrWake)
    || (th.pc == Read(RdEnter) && c.proper && Empty(c, s.dev) && s.dev.writers == 0)
    || (th.pc == Read(RdTest) && th.file.nonblock && Empty(c, s.dev))
    || (th.pc == Write(WrTest) && th.file.nonblock && Full(c, s.dev))
    || (th.pc == Fifo(FifoEnter) && th.file.nonblock && th.file.mode.read && s.dev.writers == 0)
  }

  /** The task goes on, and does not give up. */
  ghost predicate GoesOn(c: Config, s: State, t: nat, a: Action, s': State) {
    && Step(c, s, t, a, s') && t < |s'.tasks|
    && s'.tasks[t] != s.tasks[t] && s'.tasks[t] != s.tasks[t].(runnable := true)
    && (s'.tasks[t].pc.Idle? ==> MayEnd(c, s, s.tasks[t]))
  }

  predicate WantsLock(pc: Pc) {
    || pc == Open(OpenLock) || pc == Fifo(FifoLock) || pc == Fifo(FifoRelock) || pc == Release(RelLock)
    || pc == Read(RdLock) || pc == Read(RdRelock) || pc == Write(WrLock) || pc == Write(WrRelock)
  }

  /** What a task may have to wait for: the lock, a wake-up, and room to be counted. */
  ghost predicate Unhindered(s: State, th: Task) {
    && !th.pc.Idle?
    && (WantsLock(th.pc) ==> s.lock.None?)
    && (th.pc == Read(RdSleep) || th.pc == Write(WrSleep) || th.pc == Fifo(FifoSleep) ==> th.runnable)
    && (th.pc == Open(OpenBody) || th.pc == Fifo(FifoEnter) ==> Countable(s.dev))
  }

  lemma ByControl(c: Config, s: State, t: nat, next: Task) returns (a: Action, s': State)
    requires t < |s.tasks| && MayMove(s, t, next.pc)
    requires var th := s.tasks[t];
             OpenControl(c, s, th, next) || ReadControl(c, s, th, next) || WriteControl(c, s, th, next)
    requires next != s.tasks[t] && next != s.tasks[t].(runnable := true)
    requires next.pc.Idle? ==> MayEnd(c, s, s.tasks[t])
    ensures GoesOn(c, s, t, a, s')
  {
    a, s' := Control(next), Moved(s, t, next);
  }

  lemma PlainOpenGoesOn(c: Config, s: State, t: nat) returns (a: Action, s': State)
    requires t < |s.tasks| && s.tasks[t].pc == Open(OpenBody) && Countable(s.dev)
    ensures GoesOn(c, s, t, a, s')
  {
    var th, mode := s.tasks[t], s.tasks[t].file.mode;
    var raw: seq<Byte> := seq(c.len, _ => 0);
    a := PlainOpen(raw);
    s' := Moved(s.(dev := s.dev.Allocated(raw).Flushed().Counted(mode),
                   readTokens := Add(s.readTokens, th.fid, mode.read),
                   writeTokens := Add(s.writeTokens, th.fid, mode.write),
                   flushes := s.flushes + 1),
                t, Goto(th, Opened));
    assert PlainOpenStep(c, s, t, raw, s');
  }

  lemma ReleaseGoesOn(c: Config, s: State, t: nat) returns (a: Action, s': State)
    requires t < |s.tasks| && s.tasks[t].pc == Release(RelBody)
    ensures GoesOn(c, s, t, a, s')
  {
    var th, mode := s.tasks[t], s.tasks[t].file.mode;
    var d' := s.dev.Released(mode);
    a := ReleaseBody;
    s' := Moved(s.(dev := d',
                   readTokens := Remove(s.readTokens, th.fid, mode.read),
                   writeTokens := Remove(s.writeTokens, th.fid, mode.write),
                   flushes := s.flushes + (if d'.live.None? then 1 else 0)),
                t, Goto(th, Idle));
    assert ReleaseStep(c, s, t, s');
  }

  lemma OpenGoesOn(c: Config, s: State, t: nat) returns (a: Action, s': State)
    requires t < |s.tasks| && Unhindered(s, s.tasks[t])
    requires s.tasks[t].pc.Open? || s.tasks[t].pc.Opened? || s.tasks[t].pc.Release?
    ensures GoesOn(c, s, t, a, s')
  {
    var th := s.tasks[t];
    match th.pc
    case Open(OpenLock) => a, s' := ByControl(c, s, t, Goto(th, Open(OpenBody)));
    case Open(OpenBody) => a, s' := PlainOpenGoesOn(c, s, t);
    case Opened =>
      a, s' := FileOpened, Moved(s.(files := s.files[th.fid := OpenFile(th.file, s.dev.live)]), t, Goto(th, Idle));
    case Release(RelLock) => a, s' := ByControl(c, s, t, Goto(th, Release(RelBody)));
    case Release(RelBody) => a, s' := ReleaseGoesOn(c, s, t);
  }

  lemma FifoCountGoesOn(c: Config, s: State, t: nat) returns (a: Action, s': State)
    requires t < |s.tasks| && s.tasks[t].pc == Fifo(FifoEnter) && Countable(s.dev)
    ensures GoesOn(c, s, t, a, s')
  {
    var th, mode := s.tasks[t], s.tasks[t].file.mode;
    if mode.read && th.file.nonblock && s.dev.writers == 0 {
      a, s' := ByControl(c, s, t, Goto(th, Idle));
    } else {
      a := FifoCount;
      s' := Moved(s.(dev := s.dev.CountedOnce(mode),
                     readTokens := Add(s.readTokens, th.fid, mode.read),
                     writeTokens := Add(s.writeTokens, th.fid, !mode.read)),
                  t, Goto(th, if mode.read then Fifo(FifoTest) else Fifo(FifoAlloc)));
      assert FifoCountStep(c, s, t, s');
    }
  }

  lemma FifoAllocateGoesOn(c: Config, s: State, t: nat) returns (a: Action, s': State)
    requires t < |s.tasks| && s.tasks[t].pc == Fifo(FifoAlloc)
    ensures GoesOn(c, s, t, a, s')
  {
    var raw: seq<Byte> := seq(c.len, _ => 0);
    a := FifoAllocate(raw);
    s' := Moved(s.(dev := s.dev.Allocated(raw).Flushed(), flushes := s.flushes + 1), t,
                Goto(s.tasks[t], Fifo(FifoWake)));
    assert FifoAllocateStep(c, s, t, raw, s');
  }

  lemma FifoWakeGoesOn(c: Config, s: State, t: nat) returns (a: Action, s': State)
    requires t < |s.tasks| && s.tasks[t].pc == Fifo(FifoWake)
    ensures GoesOn(c, s, t, a, s')
  {
    a := FifoWakeup;
    s' := Moved(if s.dev.readers != 0 then s.(tasks := Woken(s.tasks, OpenQ)) else s, t, Goto(s.tasks[t], Opened));
    assert FifoWakeupStep(c, s, t, s');
  }

  lemma FifoGoesOn(c: Config, s: State, t: nat) returns (a: Action, s': State)
    requires t < |s.tasks| && Unhindered(s, s.tasks[t]) && s.tasks[t].pc.Fifo?
    ensures GoesOn(c, s, t, a, s')
  {
    var th, open := s.tasks[t], s.dev.writers > 0;
    match th.pc.fp
    case FifoLock => a, s' := ByControl(c, s, t, Goto(th, Fifo(FifoEnter)));
    case FifoEnter => a, s' := FifoCountGoesOn(c, s, t);
    case FifoTest => a, s' := ByControl(c, s, t, Goto(th, if open then Opened else Fifo(FifoWait)));
    case FifoWait => a, s' := ByControl(c, s, t, Goto(th, if open then Fifo(FifoRelock) else Fifo(FifoPrep)));
    case FifoPrep => a, s' := ByControl(c, s, t, Queued(th, Fifo(FifoCheck), s.flushes));
    case FifoCheck => a, s' := ByControl(c, s, t, Goto(th, if open then Fifo(FifoRelock) else Fifo(FifoSleep)));
    case FifoSleep => a, s' := ByControl(c, s, t, Goto(th, Fifo(FifoPrep)));
    case FifoRelock => a, s' := ByControl(c, s, t, Goto(th, Fifo(FifoTest)));
    case FifoAlloc => a, s' := FifoAllocateGoesOn(c, s, t);
    case FifoWake => a, s' := FifoWakeGoesOn(c, s, t);
  }

  // ----- Reads -----

  /** A waiting task that checks makes its next load, or decides. */
  function AfterCheck(th: Task, rp: nat, wp: nat, go: Pc, sleep: Pc, goes: bool): Task {
    if th.seenRp.None? then th.(seenRp := Some(rp))
    else if th.seenWp.None? then th.(seenWp := Some(wp))
    else Goto(th, if goes then go else sleep)
  }

  lemma ReadCopyGoesOn(c: Config, s: State, t: nat) returns (a: Action, s': State)
    requires Inv(c, s) && t < |s.tasks| && s.tasks[t].pc == Read(RdCopy)
    ensures GoesOn(c, s, t, a, s')
  {
    var th, d := s.tasks[t], s.dev;
    assert TaskFlow(c, s, th);
    PipeFlowSteps.InsideWhileLocked(c, s, t);
    ReadSpanStops(c.len, d.rp, d.wp, th.count);
    var n := ReadSpan(c.len, d.rp, d.wp, th.count);
    var data: seq<Byte> := if d.live.Some? then d.cells[d.rp..d.rp + n] else seq(n, _ => 0);
    assert Loaded(c, d, th.count, data);
    a, s' := ByControl(c, s, t, th.(pc := Read(RdAdvance), data := data));
  }

  lemma ReadEndGoesOn(c: Config, s: State, t: nat) returns (a: Action, s': State)
    requires t < |s.tasks|
    requires var pc := s.tasks[t].pc; pc == Read(RdAdvance) || pc == Read(RdWrap) || pc == Read(RdWake)
    ensures GoesOn(c, s, t, a, s')
  {
    var th, d := s.tasks[t], s.dev;
    if th.pc == Read(RdAdvance) {
      a, s' := ReadAdvance, Moved(s.(dev := d.(rp := d.rp + |th.data|)), t, Goto(th, Read(RdWrap)));
    } else if th.pc == Read(RdWrap) {
      a, s' := ReadWrap, Moved(s.(dev := d.(rp := Wrap(c.len, d.rp))), t, Goto(th, Read(RdUnlock)));
    } else {
      a, s' := WakeWriters, Moved(s.(tasks := Woken(s.tasks, OutQ)), t, Goto(th, Idle));
    }
  }

  lemma ReadWaitGoesOn(c: Config, s: State, t: nat) returns (a: Action, s': State)
    requires t < |s.tasks| && Unhindered(s, s.tasks[t]) && s.tasks[t].pc.Read? && Waiting(s.tasks[t].pc)
    ensures GoesOn(c, s, t, a, s')
  {
    var th, d := s.tasks[t], s.dev;
    match th.pc.rp
    case RdWait => a, s' := ByControl(c, s, t, Goto(th, Read(RdPrep)));
    case RdPrep => a, s' := ByControl(c, s, t, Queued(th, Read(RdCheck), s.flushes));
    case RdCheck =>
      a, s' := ByControl(c, s, t, AfterCheck(th, d.rp, d.wp, Read(RdRelock), Read(RdSleep), th.seenRp != th.seenWp));
    case RdSleep => a, s' := ByControl(c, s, t, Goto(th, Read(RdPrep)));
    case RdRelock => a, s' := ByControl(c, s, t, Goto(th, Read(RdTest)));
  }

  lemma ReadTestGoesOn(c: Config, s: State, t: nat) returns (a: Action, s': State)
    requires t < |s.tasks| && (s.tasks[t].pc == Read(RdEnter) || s.tasks[t].pc == Read(RdTest))
    ensures GoesOn(c, s, t, a, s')
  {
    var th, d := s.tasks[t], s.dev;
    if th.pc == Read(RdEnter) {
      var ends := c.proper && d.rp == d.wp && d.writers == 0;
      a, s' := ByControl(c, s, t, Goto(th, if ends then Idle else Read(RdTest)));
    } else {
      var next := if d.rp != d.wp then Read(RdCopy) else if th.file.nonblock then Idle else Read(RdWait);
      a, s' := ByControl(c, s, t, Goto(th, next));
    }
  }

  lemma ReadGoesOn(c: Config, s: State, t: nat) returns (a: Action, s': State)
    requires Inv(c, s) && t < |s.tasks| && Unhindered(s, s.tasks[t]) && s.tasks[t].pc.Read?
    ensures GoesOn(c, s, t, a, s')
  {
    var th := s.tasks[t];
    match th.pc.rp
    case RdLock => a, s' := ByControl(c, s, t, Goto(th, Read(RdEnter)));
    case RdEnter => a, s' := ReadTestGoesOn(c, s, t);
    case RdTest => a, s' := ReadTestGoesOn(c, s, t);
    case RdCopy => a, s' := ReadCopyGoesOn(c, s, t);
    case RdUnlock => a, s' := ByControl(c, s, t, Goto(th, Read(RdWake)));
    case RdAdvance => a, s' := ReadEndGoesOn(c, s, t);
    case RdWrap => a, s' := ReadEndGoesOn(c, s, t);
    case RdWake => a, s' := ReadEndGoesOn(c, s, t);
    case _ => a, s' := ReadWaitGoesOn(c, s, t);
  }

  // ----- Writes -----

  lemma WriteCopyGoesOn(c: Config, s: State, t: nat) returns (a: Action, s': State)
    requires Inv(c, s) && t < |s.tasks| && s.tasks[t].pc == Write(WrCopy)
    ensures GoesOn(c, s, t, a, s')
  {
    var th, d := s.tasks[t], s.dev;
    assert Ready(c, d) && d.AsRing().Free() > 0 && th.count == |th.data| by {
      assert TaskFlow(c, s, th);
      BufferInUse(c, s, t);
    }
    WriteFits(d.AsRing(), th.count);
    var data := th.data[..d.AsRing().WriteCount(th.count)];
    a := CopyIn;
    s' := Moved(s.(dev := d.(cells := Poke(d.cells, d.wp, data))), t, th.(pc := Write(WrAdvance), data := data));
    assert CopyInStep(c, s, t, s');
  }

  lemma WriteEndGoesOn(c: Config, s: State, t: nat) returns (a: Action, s': State)
    requires t < |s.tasks|
    requires var pc := s.tasks[t].pc; pc == Write(WrAdvance) || pc == Write(WrWrap) || pc == Write(WrWake)
    ensures GoesOn(c, s, t, a, s')
  {
    var th, d := s.tasks[t], s.dev;
    if th.pc == Write(WrAdvance) {
      a, s' := WriteAdvance, Moved(s.(dev := d.(wp := d.wp + |th.data|)), t, Goto(th, Write(WrWrap)));
    } else if th.pc == Write(WrWrap) {
      a, s' := WriteWrap, Moved(s.(dev := d.(wp := Wrap(c.len, d.wp))), t, Goto(th, Write(WrUnlock)));
    } else {
      a, s' := WakeReaders, Moved(s.(tasks := Woken(s.tasks, InQ)), t, Goto(th, Idle));
    }
  }

  lemma WriteTestGoesOn(c: Config, s: State, t: nat) returns (a: Action, s': State)
    requires Inv(c, s) && t < |s.tasks| && s.tasks[t].pc == Write(WrTest)
    ensures GoesOn(c, s, t, a, s')
  {
    var th, d := s.tasks[t], s.dev;
    PipeFlowSteps.InsideWhileLocked(c, s, t);
    var next := if SpaceFree(c.len, d.rp, d.wp) > 0 then Write(WrCopy)
                else if th.file.nonblock then Idle else Write(WrPrep);
    a, s' := ByControl(c, s, t, Goto(th, next));
  }

  lemma WriteWaitGoesOn(c: Config, s: State, t: nat) returns (a: Action, s': State)
    requires t < |s.tasks| && Unhindered(s, s.tasks[t]) && s.tasks[t].pc.Write? && Waiting(s.tasks[t].pc)
    ensures GoesOn(c, s, t, a, s')
  {
    var th, d := s.tasks[t], s.dev;
    match th.pc.wp
    case WrPrep => a, s' := ByControl(c, s, t, Queued(th, Write(WrCheck), s.flushes));
    case WrCheck =>
      var goes := th.seenRp.Some? && th.seenWp.Some? && SpaceFree(c.len, th.seenRp.value, th.seenWp.value) > 0;
      a, s' := ByControl(c, s, t, AfterCheck(th, d.rp, d.wp, Write(WrFinish), Write(WrSleep), goes));
    case WrSleep => a, s' := ByControl(c, s, t, Goto(th, Write(WrFinish)));
    case WrFinish => a, s' := ByControl(c, s, t, Goto(th, Write(WrRelock)));
    case WrRelock => a, s' := ByControl(c, s, t, Goto(th, Write(WrTest)));
  }

  lemma WriteGoesOn(c: Config, s: State, t: nat) returns (a: Action, s': State)
    requires Inv(c, s) && t < |s.tasks| && Unhindered(s, s.tasks[t]) && s.tasks[t].pc.Write?
    ensures GoesOn(c, s, t, a, s')
  {
    var th := s.tasks[t];
    match th.pc.wp
    case WrLock => a, s' := ByControl(c, s, t, Goto(th, Write(WrTest)));
    case WrTest => a, s' := WriteTestGoesOn(c, s, t);
    case WrCopy => a, s' := WriteCopyGoesOn(c, s, t);
    case WrUnlock => a, s' := ByControl(c, s, t, Goto(th, Write(WrWake)));
    case WrAdvance => a, s' := WriteEndGoesOn(c, s, t);
    case WrWrap => a, s' := WriteEndGoesOn(c, s, t);
    case WrWake => a, s' := WriteEndGoesOn(c, s, t);
    case _ => a, s' := WriteWaitGoesOn(c, s, t);
  }

  /**
   In every state of every run, a task inside a call can go on, without a signal,
   a fault or a lack of memory, unless it has to wait for the lock or sleeps and
   has not been woken.
   */
  lemma NobodyStuck(c: Config, run: Run, k: nat, t: nat)
    requires Valid(c, run) && k < |run.states| && t < |run.states[k].tasks|
    requires Unhindered(run.states[k], run.states[k].tasks[t])
    ensures exists a, s' :: GoesOn(c, run.states[k], t, a, s')
  {
    RunInv(c, run, k);
    var s := run.states[k];
    var a, s';
    match s.tasks[t].pc
    case Fifo(_) => a, s' := FifoGoesOn(c, s, t);
    case Read(_) => a, s' := ReadGoesOn(c, s, t);
    case Write(_) => a, s' := WriteGoesOn(c, s, t);
    case _ => a, s' := OpenGoesOn(c, s, t);
  }

  /** So the owner of the lock always can, and the lock never stays taken for want of a step. */
  lemma OwnerGoesOn(c: Config, run: Run, k: nat)
    requires Valid(c, run) && k < |run.states| && run.states[k].lock.Some? && Countable(run.states[k].dev)
    ensures var t := run.states[k].lock.value;
            t < |run.states[k].tasks| && exists a, s' :: GoesOn(c, run.states[k], t, a, s')
  {
    RunInv(c, run, k);
    var s := run.states[k];
    assert s.tasks[s.lock.value].pc.Critical();
    NobodyStuck(c, run, k, s.lock.value);
  }

  // ----- Giving up -----

  /** Where a signal, a fault or a lack of memory may end a call. */
  ghost predicate MayBreakOff(s: State, th: Task) {
    || WantsLock(th.pc)
    || th.pc == Read(RdPrep) || th.pc == Write(WrFinish) || (th.pc == Fifo(FifoPrep) && s.dev.writers == 0)
    || th.pc == Read(RdCopy) || th.pc == Write(WrCopy)
    || ((th.pc == Open(OpenBody) || th.pc == Fifo(FifoAlloc)) && s.dev.live.None?)
  }

  /** The call returns and leaves the pipe as it was. */
  ghost predicate BreaksOff(c: Config, s: State, t: nat, a: Action, s': State) {
    && Step(c, s, t, a, s') && t < |s'.tasks| && s'.tasks[t] == Goto(s.tasks[t], Idle)
    && s'.dev == s.dev && s'.lock != Some(t)
  }

  lemma FaultBreaksOff(c: Config, s: State, t: nat) returns (a: Action, s': State)
    requires Inv(c, s) && t < |s.tasks| && s.tasks[t].pc == Write(WrCopy)
    ensures BreaksOff(c, s, t, a, s')
  {
    var d := s.dev;
    assert Ready(c, d) && d.AsRing().Free() > 0 by {
      assert TaskFlow(c, s, s.tasks[t]);
      BufferInUse(c, s, t);
    }
    a, s' := CopyFault([]), Moved(s, t, Goto(s.tasks[t], Idle));
    assert Poke(d.cells, d.wp, []) == d.cells;
    assert CopyFaultStep(c, s, t, [], s');
  }

  lemma ControlBreaksOff(c: Config, s: State, t: nat) returns (a: Action, s': State)
    requires LockHeld(s) && t < |s.tasks| && MayBreakOff(s, s.tasks[t])
    requires s.tasks[t].pc != Write(WrCopy) && s.tasks[t].pc != Fifo(FifoAlloc)
    ensures BreaksOff(c, s, t, a, s')
  {
    var next := Goto(s.tasks[t], Idle);
    assert OpenControl(c, s, s.tasks[t], next) || ReadControl(c, s, s.tasks[t], next)
           || WriteControl(c, s, s.tasks[t], next);
    a, s' := Control(next), Moved(s, t, next);
  }

  /** At each of these points a call can return with nothing changed. */
  lemma CallBreaksOff(c: Config, run: Run, k: nat, t: nat)
    requires Valid(c, run) && k < |run.states| && t < |run.states[k].tasks|
    requires MayBreakOff(run.states[k], run.states[k].tasks[t])
    ensures exists a, s' :: BreaksOff(c, run.states[k], t, a, s')
  {
    RunInv(c, run, k);
    var s := run.states[k];
    var a, s';
    if s.tasks[t].pc == Write(WrCopy) {
      a, s' := FaultBreaksOff(c, s, t);
    } else if s.tasks[t].pc == Fifo(FifoAlloc) {
      a, s' := FifoNoMemory, Moved(s.(nomem := true), t, Goto(s.tasks[t], Idle));
      assert FifoNoMemoryStep(c, s, t, s');
    } else {
      a, s' := ControlBreaksOff(c, s, t);
    }
    assert BreaksOff(c, s, t, a, s');
  }

  lemma OpenEnds(c: Config, s: State, th: Task, next: Task)
    requires OpenControl(c, s, th, next) && next.pc.Idle?
    ensures MayEnd(c, s, th) || MayBreakOff(s, th)
  {
  }

  lemma ReadEnds(c: Config, s: State, th: Task, next: Task)
    requires ReadControl(c, s, th, next) && next.pc.Idle?
    ensures MayEnd(c, s, th) || MayBreakOff(s, th)
  {
  }

  lemma WriteEnds(c: Config, s: State, t: nat, next: Task)
    requires Inv(c, s) && t < |s.tasks| && WriteControl(c, s, s.tasks[t], next) && next.pc.Idle?
    ensures MayEnd(c, s, s.tasks[t]) || MayBreakOff(s, s.tasks[t])
  {
    if s.tasks[t].pc == Write(WrTest) {
      PipeFlowSteps.InsideWhileLocked(c, s, t);
    }
  }

  lemma ActionEnds(c: Config, s: State, t: nat, a: Action, s': State)
    requires Step(c, s, t, a, s') && !a.Control? && t < |s'.tasks| && s'.tasks[t].pc.Idle?
    ensures MayEnd(c, s, s.tasks[t]) || MayBreakOff(s, s.tasks[t])
  {
  }

  /** And a call returns nowhere else. */
  lemma CallEndsOnlyThere(c: Config, s: State, t: nat, a: Action, s': State)
    requires Inv(c, s) && Step(c, s, t, a, s') && t < |s'.tasks| && s'.tasks[t].pc.Idle?
    ensures MayEnd(c, s, s.tasks[t]) || MayBreakOff(s, s.tasks[t])
  {
    if !a.Control? {
      ActionEnds(c, s, t, a, s');
    } else if OpenControl(c, s, s.tasks[t], a.next) {
      OpenEnds(c, s, s.tasks[t], a.next);
    } else if ReadControl(c, s, s.tasks[t], a.next) {
      ReadEnds(c, s, s.tasks[t], a.next);
    } else {
      WriteEnds(c, s, t, a.next);
    }
  }

  /** A signal can make a task that sleeps on a queue runnable. */
  lemma SignalWakes(c: Config, s: State, t: nat, q: Queue)
    requires t < |s.tasks| && OnQueue(s.tasks[t].pc, q)
    ensures Step(c, s, t, Control(s.tasks[t].(runnable := true)), Moved(s, t, s.tasks[t].(runnable := true)))
  {
  }
}

/**
 Who is counted, which files are open and whether the buffer is there: the part
 of the pipe's invariant that opens and releases keep.
 */
module PipeBook {
  import opened Common
  import opened PipeRing
  import opened PipeDevice
  import opened PipeProtocol

  ghost predicate LockHeld(s: State) {
    && (forall i :: 0 <= i < |s.tasks| ==> (s.tasks[i].pc.Critical() <==> s.lock == Some(i)))
    && (s.lock.Some? ==> s.lock.value < |s.tasks|)
  }

  ghost predicate HolderAt(s: State, pc: Pc) {
    s.lock.Some? && s.lock.value < |s.tasks| && s.tasks[s.lock.value].pc == pc
  }

  /** The task owns an identity that is not, or no longer, an open file. */
  predicate Owning(th: Task) {
    th.pc.Opening() || th.pc.Release?
  }

  predicate Using(th: Task) {
    th.pc.Read? || th.pc.Write?
  }

  predicate Uncounted(pc: Pc) {
    pc.Open? || (pc.Fifo? && (pc.fp.FifoLock? || pc.fp.FifoEnter?))
  }

  predicate FifoReader(pc: Pc) {
    pc.Fifo? && pc.fp.Waiter()
  }

  predicate FifoWriter(pc: Pc) {
    pc.Fifo? && (pc.fp.FifoAlloc? || pc.fp.FifoWake?)
  }

  /** The task's identity is among the readers the pipe counts. */
  predicate HoldsRead(th: Task) {
    FifoReader(th.pc) || ((th.pc.Opened? || th.pc.Release?) && th.file.mode.read)
  }

  predicate HoldsWrite(th: Task) {
    FifoWriter(th.pc) || ((th.pc.Opened? || th.pc.Release?) && th.file.mode.write)
  }

  /** The pipe kind and the file mode agree with where the task is. */
  ghost predicate TaskShape(c: Config, s: State, th: Task) {
    && (!th.pc.Idle? ==> th.fid < s.nextFid && ModeAllowed(c, th.file.mode))
    && (th.pc.Open? ==> !c.proper)
    && (th.pc.Fifo? ==> c.proper)
    && (FifoReader(th.pc) ==> th.file.mode.read)
    && (FifoWriter(th.pc) ==> !th.file.mode.read)
    && (Owning(th) ==> th.fid !in s.files)
    && (Using(th) ==> th.fid in s.files && s.files[th.fid].file == th.file)
    && (th.pc.Read? ==> th.file.mode.read)
    && (th.pc.Write? ==> th.file.mode.write)
  }

  ghost predicate TaskTokens(s: State, th: Task) {
    && (HoldsRead(th) ==> th.fid in s.readTokens)
    && (HoldsWrite(th) ==> th.fid in s.writeTokens)
    && (Uncounted(th.pc) ==> th.fid !in s.readTokens && th.fid !in s.writeTokens)
  }

  /** The files whose buffer cannot go away under them. */
  predicate Protected(c: Config, nomem: bool, mode: Mode) {
    if c.proper then mode.write || !nomem else mode.read || mode.write
  }

  ghost predicate TaskLife(c: Config, s: State, th: Task) {
    && (th.pc.Opened? && Protected(c, s.nomem, th.file.mode) ==> s.dev.live.Some?)
    && (th.pc == Fifo(FifoWake) ==> s.dev.live.Some?)
    && (th.pc.Opened? && c.proper && th.file.mode.read ==> s.dev.writers > 0)
  }

  ghost predicate TaskBook(c: Config, s: State, th: Task) {
    TaskShape(c, s, th) && TaskTokens(s, th) && TaskLife(c, s, th)
  }

  ghost predicate DistinctOwners(s: State) {
    forall i, j :: 0 <= i < j < |s.tasks| && Owning(s.tasks[i]) && Owning(s.tasks[j]) ==>
      s.tasks[i].fid != s.tasks[j].fid
  }

  /** An open file is counted, and still has the buffer it was opened on; a protected one has one. */
  ghost predicate FileBook(c: Config, s: State, f: nat, of: OpenFile) {
    && f < s.nextFid && ModeAllowed(c, of.file.mode)
    && (of.file.mode.read ==> f in s.readTokens)
    && (of.file.mode.write ==> f in s.writeTokens)
    && (Protected(c, s.nomem, of.file.mode) ==> s.dev.live.Some? && of.buf == s.dev.live)
    && ((of.file.mode.read || of.file.mode.write) && of.buf.Some? ==> of.buf == s.dev.live)
  }

  /** The counts are exact for the recorded opens, and a counted pipe has a buffer. */
  ghost predicate DeviceBook(c: Config, s: State) {
    && s.dev.readers == |s.readTokens|
    && s.dev.writers == |s.writeTokens|
    && s.dev.readers + s.dev.writers <= SIZE_MAX
    && (forall f :: f in s.readTokens || f in s.writeTokens ==> f < s.nextFid)
    && (!c.proper && s.dev.readers + s.dev.writers > 0 ==> s.dev.live.Some?)
    && (c.proper && s.dev.writers > 0 && s.dev.live.None? ==> s.nomem || HolderAt(s, Fifo(FifoAlloc)))
    && (s.dev.live.Some? ==> s.dev.live.value < s.dev.allocations)
  }

  predicate AsleepIn(th: Task, pc: Pc) {
    th.pc == pc && !th.runnable
  }

  /** Nobody sleeps in a pipe 3 open next to a writer without a wake-up on its way. */
  ghost predicate OpenersWoken(s: State) {
    forall i :: 0 <= i < |s.tasks| && AsleepIn(s.tasks[i], Fifo(FifoSleep)) && s.dev.writers > 0 ==>
      s.nomem || HolderAt(s, Fifo(FifoAlloc)) || HolderAt(s, Fifo(FifoWake))
  }

  ghost predicate Book(c: Config, s: State) {
    && LockHeld(s)
    && (forall i :: 0 <= i < |s.tasks| ==> TaskBook(c, s, s.tasks[i]))
    && DistinctOwners(s)
    && (forall f :: f in s.files ==> FileBook(c, s, f, s.files[f]))
    && DeviceBook(c, s)
    && OpenersWoken(s)
  }

  lemma InitBook(c: Config, s: State)
    requires Init(c, s)
    ensures Book(c, s)
  {
  }

  ghost predicate SameButWoken(th: Task, next: Task) {
    next == th || next == th.(runnable := true)
  }

  /** Every step is of this form: one task moves, the lock follows, others may be woken. */
  ghost predicate OneMoves(s: State, t: nat, next: Task, s': State) {
    && t < |s.tasks| == |s'.tasks|
    && MayMove(s, t, next.pc)
    && s'.tasks[t] == next
    && s'.lock == Moved(s, t, next).lock
    && forall i :: 0 <= i < |s.tasks| && i != t ==> SameButWoken(s.tasks[i], s'.tasks[i])
  }

  lemma LockKept(s: State, t: nat, next: Task, s': State)
    requires LockHeld(s) && OneMoves(s, t, next, s')
    ensures LockHeld(s')
  {
  }

  /** Another task that holds the lock still does, at the same point. */
  lemma HolderKept(s: State, t: nat, next: Task, s': State, pc: Pc)
    requires LockHeld(s) && OneMoves(s, t, next, s') && HolderAt(s, pc) && s.tasks[t].pc != pc
    ensures HolderAt(s', pc)
  {
    assert s.tasks[s.lock.value].pc.Critical();
    assert !s.tasks[t].pc.Critical();
  }

  lemma OwnersKept(s: State, t: nat, next: Task, s': State)
    requires DistinctOwners(s) && OneMoves(s, t, next, s')
    requires Owning(next) ==>
      || (Owning(s.tasks[t]) && next.fid == s.tasks[t].fid)
      || (forall i :: 0 <= i < |s.tasks| && Owning(s.tasks[i]) ==> s.tasks[i].fid != next.fid)
    ensures DistinctOwners(s')
  {
  }

  /** What a control step leaves of a task's place in the books. */
  ghost predicate Milder(c: Config, s: State, th: Task, next: Task) {
    && next.fid == th.fid && next.file == th.file
    && (!next.pc.Idle? ==> !th.pc.Idle?)
    && (next.pc.Open? ==> th.pc.Open?)
    && (next.pc.Fifo? ==> th.pc.Fifo?)
    && (next.pc.Opened? ==> th.pc == Fifo(FifoTest) && s.dev.writers > 0)
    && (next.pc.Release? ==> th.pc.Release?)
    && (next.pc.Read? ==> th.pc.Read?)
    && (next.pc.Write? ==> th.pc.Write?)
    && !FifoWriter(next.pc) && !FifoWriter(th.pc)
    && (FifoReader(next.pc) ==> FifoReader(th.pc))
    && (Uncounted(next.pc) ==> Uncounted(th.pc))
    && (AsleepIn(next, Fifo(FifoSleep)) ==> AsleepIn(th, Fifo(FifoSleep)) || s.dev.writers == 0)
  }

  lemma OpenControlIsMilder(c: Config, s: State, th: Task, next: Task)
    requires OpenControl(c, s, th, next)
    ensures Milder(c, s, th, next)
  {
  }

  lemma ReadControlIsMilder(c: Config, s: State, th: Task, next: Task)
    requires ReadControl(c, s, th, next)
    ensures Milder(c, s, th, next)
  {
  }

  lemma WriteControlIsMilder(c: Config, s: State, th: Task, next: Task)
    requires WriteControl(c, s, th, next)
    ensures Milder(c, s, th, next)
  {
  }
}

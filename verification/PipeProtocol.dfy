/**
 All the tasks that use one scull pipe, as a state machine.

 Every task runs one operation at a time: an open, a release, a read or a
 write. A step of the machine is one visible action of one task, so a run is
 an interleaving of any number of tasks. Steps are sequentially consistent.

 A task that waits puts itself on a queue and marks itself not runnable, checks
 its condition again without the lock, and only then sleeps. A wake-up makes
 every task on the queue runnable; so does a signal, for one task.
 */
module PipeProtocol {
  import opened Common
  import opened PipeRing
  import opened PipeDevice

  /** `proper` holds for pipe 3, whose readers wait for a writer in open. */
  datatype RawConfig = RawConfig(len: nat, proper: bool)

  type Config = c: RawConfig | 2 <= c.len witness RawConfig(2, false)

  datatype File = File(mode: Mode, nonblock: bool)

  /** A file that has been opened, with the buffer its open left behind. */
  datatype OpenFile = OpenFile(file: File, buf: Option<nat>)

  datatype OpenPc = OpenLock | OpenBody

  datatype FifoPc =
    | FifoLock | FifoEnter | FifoTest | FifoWait | FifoPrep | FifoCheck | FifoSleep | FifoRelock
    | FifoAlloc | FifoWake
  {
    /** A reader that has been counted and whose open has not returned. */
    predicate Waiter() {
      FifoTest? || FifoWait? || FifoPrep? || FifoCheck? || FifoSleep? || FifoRelock?
    }
  }

  datatype ReleasePc = RelLock | RelBody

  datatype ReadPc =
    | RdLock | RdEnter | RdTest | RdWait | RdPrep | RdCheck | RdSleep | RdRelock
    | RdCopy | RdAdvance | RdWrap | RdUnlock | RdWake

  datatype WritePc =
    | WrLock | WrTest | WrPrep | WrCheck | WrSleep | WrFinish | WrRelock
    | WrCopy | WrAdvance | WrWrap | WrUnlock | WrWake

  /**
   Where a task is: in no operation, in an open, in a pipe 3 open, about to
   return from either, or in a release, a read or a write.
   */
  datatype Pc =
    | Idle
    | Open(op: OpenPc)
    | Fifo(fp: FifoPc)
    | Opened
    | Release(lp: ReleasePc)
    | Read(rp: ReadPc)
    | Write(wp: WritePc)
  {
    /** The task owns the lock. */
    predicate Critical() {
      match this
      case Idle => false
      case Open(p) => p.OpenBody?
      case Fifo(p) => p.FifoEnter? || p.FifoTest? || p.FifoAlloc? || p.FifoWake?
      case Opened => true
      case Release(p) => p.RelBody?
      case Read(p) => p.RdEnter? || p.RdTest? || p.RdCopy? || p.RdAdvance? || p.RdWrap? || p.RdUnlock?
      case Write(p) => p.WrTest? || p.WrCopy? || p.WrAdvance? || p.WrWrap? || p.WrUnlock?
    }

    predicate Opening() {
      Open? || Fifo? || Opened?
    }

    /** Between the store to `rp` and the wake-up of the writers. */
    predicate ReadPublished() {
      Read? && (rp.RdWrap? || rp.RdUnlock? || rp.RdWake?)
    }

    /** Between the store to `wp` and the wake-up of the readers. */
    predicate WritePublished() {
      Write? && (wp.WrWrap? || wp.WrUnlock? || wp.WrWake?)
    }
  }

  datatype Queue = InQ | OutQ | OpenQ

  predicate OnQueue(pc: Pc, q: Queue) {
    match q
    case InQ => pc.Read? && (pc.rp.RdCheck? || pc.rp.RdSleep?)
    case OutQ => pc.Write? && (pc.wp.WrCheck? || pc.wp.WrSleep?)
    case OpenQ => pc.Fifo? && (pc.fp.FifoCheck? || pc.fp.FifoSleep?)
  }

  /**
   `data` is what a write still has to copy or what a read or write has copied;
   `seenRp` and `seenWp` are the loads of the check a waiting task makes without
   the lock, in either order; `since` is the flush count at which it queued.
   */
  datatype Task = Task(
    pc: Pc,
    fid: nat,
    file: File,
    count: nat,
    data: seq<Byte>,
    runnable: bool,
    seenRp: Option<nat>,
    seenWp: Option<nat>,
    since: nat)

  /**
   `readTokens` and `writeTokens` record which opens the counts stand for, with
   a fresh identity for every open. `flushes` counts the opens and frees that
   reset the ring; `nomem` says that a pipe 3 open has run out of memory.
   */
  datatype State = State(
    dev: Pipe,
    lock: Option<nat>,
    tasks: seq<Task>,
    files: map<nat, OpenFile>,
    readTokens: set<nat>,
    writeTokens: set<nat>,
    nextFid: nat,
    flushes: nat,
    nomem: bool)

  /** `Stray` bytes are delivered from where the buffer was before it was freed. */
  datatype Event =
    | Silent
    | Accepted(bytes: seq<Byte>)
    | Delivered(bytes: seq<Byte>)
    | Stray(bytes: seq<Byte>)
    | Reset

  datatype Action =
    | Control(next: Task)
    | BeginOpen(file: File)
    | BeginRead(f: nat, count: nat)
    | BeginWrite(f: nat, data: seq<Byte>)
    | BeginRelease(f: nat)
    | PlainOpen(raw: seq<Byte>)
    | FifoCount
    | FifoAllocate(raw: seq<Byte>)
    | FifoNoMemory
    | FifoWakeup
    | FileOpened
    | ReleaseBody
    | ReadAdvance
    | ReadWrap
    | WakeWriters
    | CopyIn
    | CopyFault(junk: seq<Byte>)
    | WriteAdvance
    | WriteWrap
    | WakeReaders

  ghost predicate Init(c: Config, s: State) {
    && s.dev == Pipe([], None, 0, 0, 0, 0, 0)
    && s.lock == None
    && (forall i :: 0 <= i < |s.tasks| ==> s.tasks[i].pc == Idle)
    && s.files == map[] && s.readTokens == {} && s.writeTokens == {}
    && s.nextFid == 0 && s.flushes == 0 && !s.nomem
  }

  /** Moving to or from a critical point takes or drops the lock. */
  function Moved(s: State, t: nat, next: Task): State
    requires t < |s.tasks|
  {
    s.(tasks := s.tasks[t := next],
       lock := if next.pc.Critical() then Some(t)
               else if s.tasks[t].pc.Critical() then None else s.lock)
  }

  ghost predicate MayMove(s: State, t: nat, pc: Pc)
    requires t < |s.tasks|
  {
    pc.Critical() && !s.tasks[t].pc.Critical() ==> s.lock.None?
  }

  function Woken(tasks: seq<Task>, q: Queue): (r: seq<Task>)
    ensures |r| == |tasks|
    ensures forall i :: 0 <= i < |r| ==>
      r[i] == if OnQueue(tasks[i].pc, q) then tasks[i].(runnable := true) else tasks[i]
  {
    seq(|tasks|, i requires 0 <= i < |tasks| =>
      if OnQueue(tasks[i].pc, q) then tasks[i].(runnable := true) else tasks[i])
  }

  /** The buffer is there and both pointers are inside it. */
  ghost predicate Ready(c: Config, d: Pipe) {
    d.live.Some? && |d.cells| == c.len && d.rp < c.len && d.wp < c.len
  }

  /**
   The bytes a read copies out. The code does not look whether the buffer is
   still there: without one, the pointers lead to memory that holds anything.
   */
  ghost predicate Loaded(c: Config, d: Pipe, count: nat, data: seq<Byte>) {
    && d.rp < c.len && d.wp < c.len
    && |data| == ReadSpan(c.len, d.rp, d.wp, count)
    && d.rp + |data| <= c.len
    && (d.live.Some? ==> |d.cells| == c.len && data == d.cells[d.rp..d.rp + |data|])
  }

  function Goto(th: Task, pc: Pc): Task {
    th.(pc := pc)
  }

  /** Queues the task, not runnable, with no load of its check done. */
  function Queued(th: Task, pc: Pc, flushes: nat): Task {
    th.(pc := pc, runnable := false, seenRp := None, seenWp := None, since := flushes)
  }

  ghost predicate LoadsPointer(d: Pipe, th: Task, next: Task) {
    || (th.seenRp.None? && next == th.(seenRp := Some(d.rp)))
    || (th.seenWp.None? && next == th.(seenWp := Some(d.wp)))
  }

  /** A signal makes a queued task runnable. */
  ghost predicate Signalled(th: Task, next: Task) {
    next == th.(runnable := true)
  }

  /** Steps of an open or a release that change nothing but the task and the lock. */
  ghost predicate OpenControl(c: Config, s: State, th: Task, next: Task) {
    var d := s.dev;
    match th.pc
    case Open(OpenLock) => next == Goto(th, Open(OpenBody)) || next == Goto(th, Idle)
    case Open(OpenBody) => d.live.None? && next == Goto(th, Idle)
    case Fifo(FifoLock) => next == Goto(th, Fifo(FifoEnter)) || next == Goto(th, Idle)
    case Fifo(FifoEnter) => th.file.mode.read && th.file.nonblock && d.writers == 0 && next == Goto(th, Idle)
    case Fifo(FifoTest) => next == Goto(th, if d.writers == 0 then Fifo(FifoWait) else Opened)
    case Fifo(FifoWait) => next == Goto(th, if d.writers > 0 then Fifo(FifoRelock) else Fifo(FifoPrep))
      // with a signal pending the task is not queued and checks once more
    case Fifo(FifoPrep) =>
      || next == Queued(th, Fifo(FifoCheck), s.flushes)
      || next == Goto(th, if d.writers > 0 then Fifo(FifoRelock) else Idle)
    case Fifo(FifoCheck) =>
      || next == Goto(th, if d.writers > 0 then Fifo(FifoRelock) else Fifo(FifoSleep))
      || Signalled(th, next)
    case Fifo(FifoSleep) => (th.runnable && next == Goto(th, Fifo(FifoPrep))) || Signalled(th, next)
    case Fifo(FifoRelock) => next == Goto(th, Fifo(FifoTest)) || next == Goto(th, Idle)
    case Release(RelLock) => next == Goto(th, Release(RelBody)) || next == Goto(th, Idle)
    case _ => false
  }

  /** The steps of a read that change nothing but the task and the lock. */
  ghost predicate ReadControl(c: Config, s: State, th: Task, next: Task) {
    var d := s.dev;
    match th.pc
    case Read(RdLock) => next == Goto(th, Read(RdEnter)) || next == Goto(th, Idle)
    case Read(RdEnter) => next == Goto(th, if c.proper && d.rp == d.wp && d.writers == 0 then Idle else Read(RdTest))
    case Read(RdTest) =>
      next == Goto(th, if d.rp != d.wp then Read(RdCopy) else if th.file.nonblock then Idle else Read(RdWait))
      // wait_event_interruptible: its first check may already see other values
    case Read(RdWait) => next == Goto(th, Read(RdPrep)) || next == Goto(th, Read(RdRelock))
    case Read(RdPrep) =>
      || next == Queued(th, Read(RdCheck), s.flushes)
      || next == Goto(th, Idle)
      || next == Goto(th, Read(RdRelock))
    case Read(RdCheck) =>
      || LoadsPointer(d, th, next)
      || Signalled(th, next)
      || (th.seenRp.Some? && th.seenWp.Some?
          && next == Goto(th, if th.seenRp != th.seenWp then Read(RdRelock) else Read(RdSleep)))
    case Read(RdSleep) => (th.runnable && next == Goto(th, Read(RdPrep))) || Signalled(th, next)
    case Read(RdRelock) => next == Goto(th, Read(RdTest)) || next == Goto(th, Idle)
    case Read(RdCopy) =>
      || next == Goto(th, Idle)
      || (Loaded(c, d, th.count, next.data) && next == th.(pc := Read(RdAdvance), data := next.data))
    case Read(RdUnlock) => next == Goto(th, Read(RdWake))
    case _ => false
  }

  /** The steps of a write that change nothing but the task and the lock. */
  ghost predicate WriteControl(c: Config, s: State, th: Task, next: Task) {
    var d := s.dev;
    match th.pc
    case Write(WrLock) => next == Goto(th, Write(WrTest)) || next == Goto(th, Idle)
    case Write(WrTest) =>
      next == Goto(th, if SpaceFree(c.len, d.rp, d.wp) > 0 then Write(WrCopy)
                       else if th.file.nonblock then Idle else Write(WrPrep))
    case Write(WrPrep) => next == Queued(th, Write(WrCheck), s.flushes)
    case Write(WrCheck) =>
      || LoadsPointer(d, th, next)
      || Signalled(th, next)
      || (th.seenRp.Some? && th.seenWp.Some?
          && next == Goto(th, if SpaceFree(c.len, th.seenRp.value, th.seenWp.value) > 0
                              then Write(WrFinish) else Write(WrSleep)))
    case Write(WrSleep) => (th.runnable && next == Goto(th, Write(WrFinish))) || Signalled(th, next)
    case Write(WrFinish) => next == Goto(th, Write(WrRelock)) || next == Goto(th, Idle)
    case Write(WrRelock) => next == Goto(th, Write(WrTest)) || next == Goto(th, Idle)
    case Write(WrUnlock) => next == Goto(th, Write(WrWake))
    case _ => false
  }

  /** Pipe 3 files are opened for reading or for writing, not both. */
  predicate ModeAllowed(c: Config, mode: Mode) {
    c.proper ==> mode.read != mode.write
  }

  ghost predicate FileFree(s: State, f: nat) {
    forall i :: 0 <= i < |s.tasks| ==>
      !((s.tasks[i].pc.Read? || s.tasks[i].pc.Write?) && s.tasks[i].fid == f)
  }

  function Add(tokens: set<nat>, f: nat, flag: bool): set<nat> {
    if flag then tokens + {f} else tokens
  }

  function Remove(tokens: set<nat>, f: nat, flag: bool): set<nat> {
    if flag then tokens - {f} else tokens
  }

  /** There are fewer than 2^64 opens to count at a time. */
  predicate Countable(d: Pipe) {
    d.readers + d.writers + 2 <= SIZE_MAX
  }

  // ----- Opens and releases: the steps that change counts, files or the buffer -----

  ghost predicate BeginOpenStep(c: Config, s: State, t: nat, file: File, s': State)
    requires t < |s.tasks|
  {
    var th := s.tasks[t];
    && th.pc.Idle? && ModeAllowed(c, file.mode)
    && s' == Moved(s.(nextFid := s.nextFid + 1), t,
                   th.(pc := if c.proper then Fifo(FifoLock) else Open(OpenLock), fid := s.nextFid, file := file))
  }

  ghost predicate BeginReleaseStep(c: Config, s: State, t: nat, f: nat, s': State)
    requires t < |s.tasks|
  {
    var th := s.tasks[t];
    && th.pc.Idle? && f in s.files && FileFree(s, f)
    && s' == Moved(s.(files := s.files - {f}), t, th.(pc := Release(RelLock), fid := f, file := s.files[f].file))
  }

  ghost predicate PlainOpenStep(c: Config, s: State, t: nat, raw: seq<Byte>, s': State)
    requires t < |s.tasks|
  {
    var th := s.tasks[t];
    var mode := th.file.mode;
    && th.pc == Open(OpenBody) && |raw| == c.len && Countable(s.dev)
    && s' == Moved(s.(dev := s.dev.Allocated(raw).Flushed().Counted(mode),
                      readTokens := Add(s.readTokens, th.fid, mode.read),
                      writeTokens := Add(s.writeTokens, th.fid, mode.write),
                      flushes := s.flushes + 1),
                   t, Goto(th, Opened))
  }

  ghost predicate FifoCountStep(c: Config, s: State, t: nat, s': State)
    requires t < |s.tasks|
  {
    var th := s.tasks[t];
    var mode := th.file.mode;
    && th.pc == Fifo(FifoEnter) && Countable(s.dev)
    && !(mode.read && th.file.nonblock && s.dev.writers == 0)
    && s' == Moved(s.(dev := s.dev.CountedOnce(mode),
                      readTokens := Add(s.readTokens, th.fid, mode.read),
                      writeTokens := Add(s.writeTokens, th.fid, !mode.read)),
                   t, Goto(th, if mode.read then Fifo(FifoTest) else Fifo(FifoAlloc)))
  }

  ghost predicate FifoAllocateStep(c: Config, s: State, t: nat, raw: seq<Byte>, s': State)
    requires t < |s.tasks|
  {
    var th := s.tasks[t];
    && th.pc == Fifo(FifoAlloc) && |raw| == c.len
    && s' == Moved(s.(dev := s.dev.Allocated(raw).Flushed(), flushes := s.flushes + 1), t, Goto(th, Fifo(FifoWake)))
  }

  /** The writer stays counted although its open fails. */
  ghost predicate FifoNoMemoryStep(c: Config, s: State, t: nat, s': State)
    requires t < |s.tasks|
  {
    var th := s.tasks[t];
    && th.pc == Fifo(FifoAlloc) && s.dev.live.None?
    && s' == Moved(s.(nomem := true), t, Goto(th, Idle))
  }

  ghost predicate FifoWakeupStep(c: Config, s: State, t: nat, s': State)
    requires t < |s.tasks|
  {
    var th := s.tasks[t];
    && th.pc == Fifo(FifoWake)
    && s' == Moved(if s.dev.readers != 0 then s.(tasks := Woken(s.tasks, OpenQ)) else s, t, Goto(th, Opened))
  }

  ghost predicate FileOpenedStep(c: Config, s: State, t: nat, s': State)
    requires t < |s.tasks|
  {
    var th := s.tasks[t];
    && th.pc.Opened?
    && s' == Moved(s.(files := s.files[th.fid := OpenFile(th.file, s.dev.live)]), t, Goto(th, Idle))
  }

  ghost predicate ReleaseStep(c: Config, s: State, t: nat, s': State)
    requires t < |s.tasks|
  {
    var th := s.tasks[t];
    var mode := th.file.mode;
    var d' := s.dev.Released(mode);
    && th.pc == Release(RelBody)
    && s' == Moved(s.(dev := d',
                      readTokens := Remove(s.readTokens, th.fid, mode.read),
                      writeTokens := Remove(s.writeTokens, th.fid, mode.write),
                      flushes := s.flushes + (if d'.live.None? then 1 else 0)),
                   t, Goto(th, Idle))
  }

  // ----- Reads and writes: the steps that start them, move bytes or wake tasks -----

  ghost predicate BeginReadStep(c: Config, s: State, t: nat, f: nat, count: nat, s': State)
    requires t < |s.tasks|
  {
    var th := s.tasks[t];
    && th.pc.Idle? && f in s.files && s.files[f].file.mode.read
    && s' == Moved(s, t, th.(pc := Read(RdLock), fid := f, file := s.files[f].file, count := count))
  }

  ghost predicate BeginWriteStep(c: Config, s: State, t: nat, f: nat, data: seq<Byte>, s': State)
    requires t < |s.tasks|
  {
    var th := s.tasks[t];
    && th.pc.Idle? && f in s.files && s.files[f].file.mode.write
    && s' == Moved(s, t, th.(pc := Write(WrLock), fid := f, file := s.files[f].file, count := |data|, data := data))
  }

  ghost predicate ReadAdvanceStep(c: Config, s: State, t: nat, s': State)
    requires t < |s.tasks|
  {
    var th := s.tasks[t];
    && th.pc == Read(RdAdvance)
    && s' == Moved(s.(dev := s.dev.(rp := s.dev.rp + |th.data|)), t, Goto(th, Read(RdWrap)))
  }

  ghost predicate ReadWrapStep(c: Config, s: State, t: nat, s': State)
    requires t < |s.tasks|
  {
    var th := s.tasks[t];
    && th.pc == Read(RdWrap)
    && s' == Moved(s.(dev := s.dev.(rp := Wrap(c.len, s.dev.rp))), t, Goto(th, Read(RdUnlock)))
  }

  ghost predicate WakeWritersStep(c: Config, s: State, t: nat, s': State)
    requires t < |s.tasks|
  {
    var th := s.tasks[t];
    && th.pc == Read(RdWake)
    && s' == Moved(s.(tasks := Woken(s.tasks, OutQ)), t, Goto(th, Idle))
  }

  /** A user copy of `bytes` to `wp`: all of the write, or what a fault leaves behind. */
  ghost predicate CopyStep(c: Config, s: State, t: nat, bytes: seq<Byte>, next: Task, s': State)
    requires t < |s.tasks|
  {
    var d := s.dev;
    && s.tasks[t].pc == Write(WrCopy)
    && Ready(c, d) && d.AsRing().Free() > 0
    && |bytes| <= d.AsRing().WriteCount(s.tasks[t].count) && d.wp + |bytes| <= |d.cells|
    && s' == Moved(s.(dev := d.(cells := Poke(d.cells, d.wp, bytes))), t, next)
  }

  ghost predicate CopyInStep(c: Config, s: State, t: nat, s': State)
    requires t < |s.tasks|
  {
    var th := s.tasks[t];
    && Ready(c, s.dev) && s.dev.AsRing().Free() > 0
    && var n := s.dev.AsRing().WriteCount(th.count);
    && n <= |th.data|
    && CopyStep(c, s, t, th.data[..n], th.(pc := Write(WrAdvance), data := th.data[..n]), s')
  }

  ghost predicate CopyFaultStep(c: Config, s: State, t: nat, junk: seq<Byte>, s': State)
    requires t < |s.tasks|
  {
    CopyStep(c, s, t, junk, Goto(s.tasks[t], Idle), s')
  }

  ghost predicate WriteAdvanceStep(c: Config, s: State, t: nat, s': State)
    requires t < |s.tasks|
  {
    var th := s.tasks[t];
    && th.pc == Write(WrAdvance)
    && s' == Moved(s.(dev := s.dev.(wp := s.dev.wp + |th.data|)), t, Goto(th, Write(WrWrap)))
  }

  ghost predicate WriteWrapStep(c: Config, s: State, t: nat, s': State)
    requires t < |s.tasks|
  {
    var th := s.tasks[t];
    && th.pc == Write(WrWrap)
    && s' == Moved(s.(dev := s.dev.(wp := Wrap(c.len, s.dev.wp))), t, Goto(th, Write(WrUnlock)))
  }

  ghost predicate WakeReadersStep(c: Config, s: State, t: nat, s': State)
    requires t < |s.tasks|
  {
    var th := s.tasks[t];
    && th.pc == Write(WrWake)
    && s' == Moved(s.(tasks := Woken(s.tasks, InQ)), t, Goto(th, Idle))
  }

  ghost predicate ControlStep(c: Config, s: State, t: nat, next: Task, s': State)
    requires t < |s.tasks|
  {
    var th := s.tasks[t];
    && (OpenControl(c, s, th, next) || ReadControl(c, s, th, next) || WriteControl(c, s, th, next))
    && MayMove(s, t, next.pc)
    && s' == Moved(s, t, next)
  }

  ghost predicate Step(c: Config, s: State, t: nat, a: Action, s': State) {
    && t < |s.tasks|
    && match a
       case Control(next) => ControlStep(c, s, t, next, s')
       case BeginOpen(file) => BeginOpenStep(c, s, t, file, s')
       case BeginRead(f, count) => BeginReadStep(c, s, t, f, count, s')
       case BeginWrite(f, data) => BeginWriteStep(c, s, t, f, data, s')
       case BeginRelease(f) => BeginReleaseStep(c, s, t, f, s')
       case PlainOpen(raw) => PlainOpenStep(c, s, t, raw, s')
       case FifoCount => FifoCountStep(c, s, t, s')
       case FifoAllocate(raw) => FifoAllocateStep(c, s, t, raw, s')
       case FifoNoMemory => FifoNoMemoryStep(c, s, t, s')
       case FifoWakeup => FifoWakeupStep(c, s, t, s')
       case FileOpened => FileOpenedStep(c, s, t, s')
       case ReleaseBody => ReleaseStep(c, s, t, s')
       case ReadAdvance => ReadAdvanceStep(c, s, t, s')
       case ReadWrap => ReadWrapStep(c, s, t, s')
       case WakeWriters => WakeWritersStep(c, s, t, s')
       case CopyIn => CopyInStep(c, s, t, s')
       case CopyFault(junk) => CopyFaultStep(c, s, t, junk, s')
       case WriteAdvance => WriteAdvanceStep(c, s, t, s')
       case WriteWrap => WriteWrapStep(c, s, t, s')
       case WakeReaders => WakeReadersStep(c, s, t, s')
  }

  /** What a step does to the byte stream. */
  function EventOf(s: State, t: nat, a: Action): Event
    requires t < |s.tasks|
  {
    match a
    case ReadAdvance => if s.dev.live.Some? then Delivered(s.tasks[t].data) else Stray(s.tasks[t].data)
    case WriteAdvance => Accepted(s.tasks[t].data)
    case PlainOpen(_) => Reset
    case FifoAllocate(_) => Reset
    case ReleaseBody => if s.dev.Released(s.tasks[t].file.mode).live.None? then Reset else Silent
    case _ => Silent
  }

  ghost predicate Next(c: Config, s: State, e: Event, s': State) {
    exists t, a :: Step(c, s, t, a, s') && e == EventOf(s, t, a)
  }

  /** A run: states from an initial one, with what each step did in between. */
  datatype Run = Run(states: seq<State>, events: seq<Event>)

  ghost predicate StepAt(c: Config, run: Run, k: nat) {
    k < |run.events| && k + 1 < |run.states| && Next(c, run.states[k], run.events[k], run.states[k + 1])
  }

  ghost predicate Valid(c: Config, run: Run) {
    && |run.states| == |run.events| + 1
    && Init(c, run.states[0])
    && forall k {:trigger StepAt(c, run, k)} :: 0 <= k < |run.events| ==> StepAt(c, run, k)
  }
}

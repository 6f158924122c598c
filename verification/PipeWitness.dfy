/**
 Runs that show exceptions to be real. A write fills a pipe, a second write goes
 to sleep, and another task opens the pipe: the writer stays asleep next to an
 empty ring. The same happens if the open comes between the writer's last look
 at the pointers and its sleep. A write open of pipe 3 runs out of memory: an
 opener that sleeps stays asleep next to a counted writer, and if a buffer has
 been freed before, a read delivers what it finds where the buffer was.
 */
module PipeWitness {
  import opened Common
  import opened PipeRing
  import opened PipeDevice
  import opened PipeProtocol
  import opened PipeBook
  import opened PipeFlow
  import opened PipeLost

  ghost predicate Reachable(c: Config, s: State) {
    exists run :: Valid(c, run) && run.states[|run.events|] == s
  }

  lemma ReachableNext(c: Config, s: State, t: nat, a: Action, s': State)
    requires Reachable(c, s) && Step(c, s, t, a, s')
    ensures Reachable(c, s')
  {
    var run :| Valid(c, run) && run.states[|run.events|] == s;
    var run' := Run(run.states + [s'], run.events + [EventOf(s, t, a)]);
    forall k | 0 <= k < |run'.events|
      ensures StepAt(c, run', k)
    {
      if k < |run.events| {
        assert StepAt(c, run, k);
      } else {
        assert Next(c, s, EventOf(s, t, a), s');
      }
    }
    assert Valid(c, run');
  }

  lemma ReachableInit(c: Config, s: State)
    requires Init(c, s)
    ensures Reachable(c, s)
  {
    var run := Run([s], []);
    assert Valid(c, run) && run.states[|run.events|] == s;
  }

  /** `s` with its first task at `th` and its pipe at `d`. */
  function On(s: State, d: Pipe, th: Task): State
    requires 0 < |s.tasks|
  {
    s.(dev := d, tasks := s.tasks[0 := th], lock := if th.pc.Critical() then Some(0) else None)
  }

  /** Nobody but the first task does anything, and nobody else has the lock. */
  ghost predicate Alone(s: State) {
    && 0 < |s.tasks| && (s.lock == None || s.lock == Some(0))
    && forall i :: 0 < i < |s.tasks| ==> s.tasks[i].pc == Idle
  }

  /** A step of the first task that changes nothing but the task and the lock. */
  lemma Steps(c: Config, s: State, d: Pipe, th: Task, next: Task)
    requires Alone(s) && Reachable(c, On(s, d, th))
    requires var u := On(s, d, th);
             OpenControl(c, u, th, next) || ReadControl(c, u, th, next) || WriteControl(c, u, th, next)
    ensures Reachable(c, On(s, d, next))
  {
    var u := On(s, d, th);
    assert Moved(u, 0, next) == On(s, d, next);
    ReachableNext(c, u, 0, Control(next), On(s, d, next));
  }

  // ----- One write into a pipe of two cells -----

  /** The first task with one byte to write to file 0. */
  function Writer(s: State, b: Byte, pc: WritePc): Task
    requires 0 < |s.tasks| && 0 in s.files
  {
    s.tasks[0].(pc := Write(pc), fid := 0, file := s.files[0].file, count := 1, data := [b])
  }

  /** Nothing is going on in a pipe of two cells whose file 0 can write. */
  ghost predicate Calm(c: Config, s: State) {
    && c.len == 2 && Alone(s) && s.lock == None && s.tasks[0].pc == Idle
    && 0 in s.files && s.files[0].file.mode.write && !s.files[0].file.nonblock
    && s.dev.live.Some? && s.dev.rp == 0
  }

  /** A write gets the lock and finds out whether there is room. */
  lemma WriteStarts(c: Config, s: State, b: Byte)
    requires Calm(c, s) && Reachable(c, s) && s.dev.wp < 2
    ensures Reachable(c, On(s, s.dev, Writer(s, b, if s.dev.wp == 0 then WrCopy else WrPrep)))
  {
    var s1 := On(s, s.dev, Writer(s, b, WrLock));
    assert Moved(s, 0, Writer(s, b, WrLock)) == s1;
    ReachableNext(c, s, 0, BeginWrite(0, [b]), s1);
    Steps(c, s, s.dev, Writer(s, b, WrLock), Writer(s, b, WrTest));
    assert SpaceFree(2, 0, s.dev.wp) > 0 <==> s.dev.wp == 0;
    Steps(c, s, s.dev, Writer(s, b, WrTest), Writer(s, b, if s.dev.wp == 0 then WrCopy else WrPrep));
  }

  /** The byte goes in. */
  lemma WriteCopies(c: Config, s: State, b: Byte)
    requires Calm(c, s) && s.dev.cells == [0, 0] && s.dev.wp == 0
    requires Reachable(c, On(s, s.dev, Writer(s, b, WrCopy)))
    ensures Reachable(c, On(s, s.dev.(cells := [b, 0]), Writer(s, b, WrAdvance)))
  {
    var th := Writer(s, b, WrCopy);
    var u := On(s, s.dev, th);
    var u' := On(s, s.dev.(cells := [b, 0]), Writer(s, b, WrAdvance));
    assert u.dev.AsRing().WriteCount(1) == 1;
    assert th.data[..1] == th.data;
    assert Poke([0, 0], 0, [b]) == [b, 0];
    assert u' == Moved(u.(dev := u.dev.(cells := [b, 0])), 0, Goto(th, Write(WrAdvance)));
    assert CopyInStep(c, u, 0, u');
    ReachableNext(c, u, 0, CopyIn, u');
  }

  /** The byte is published. */
  lemma WritePublishes(c: Config, s: State, b: Byte)
    requires Calm(c, s) && s.dev.cells == [b, 0] && s.dev.wp == 0
    requires Reachable(c, On(s, s.dev, Writer(s, b, WrAdvance)))
    ensures Reachable(c, On(s, s.dev.(wp := 1), Writer(s, b, WrWrap)))
  {
    var u, u' := On(s, s.dev, Writer(s, b, WrAdvance)), On(s, s.dev.(wp := 1), Writer(s, b, WrWrap));
    assert u' == Moved(u.(dev := s.dev.(wp := 1)), 0, Goto(u.tasks[0], Write(WrWrap)));
    assert WriteAdvanceStep(c, u, 0, u');
    ReachableNext(c, u, 0, WriteAdvance, u');
  }

  lemma WriteWraps(c: Config, s: State, d: Pipe, b: Byte)
    requires Calm(c, s) && d.wp == 1 && Reachable(c, On(s, d, Writer(s, b, WrWrap)))
    ensures Reachable(c, On(s, d, Writer(s, b, WrWake)))
  {
    var u, u' := On(s, d, Writer(s, b, WrWrap)), On(s, d, Writer(s, b, WrUnlock));
    assert u' == Moved(u, 0, Goto(u.tasks[0], Write(WrUnlock)));
    assert WriteWrapStep(c, u, 0, u');
    ReachableNext(c, u, 0, WriteWrap, u');
    Steps(c, s, d, Writer(s, b, WrUnlock), Writer(s, b, WrWake));
  }

  lemma WriteReturns(c: Config, s: State, d: Pipe, b: Byte)
    requires Calm(c, s) && Reachable(c, On(s, d, Writer(s, b, WrWake)))
    ensures Reachable(c, On(s, d, Goto(Writer(s, b, WrWake), Idle)))
  {
    var u, u' := On(s, d, Writer(s, b, WrWake)), On(s, d, Goto(Writer(s, b, WrWake), Idle));
    assert Woken(u.tasks, InQ) == u.tasks;
    assert u' == Moved(u, 0, Goto(u.tasks[0], Idle));
    ReachableNext(c, u, 0, WakeReaders, u');
  }

  /** A pipe of two cells holds one byte. */
  lemma WriteFills(c: Config, s: State, b: Byte) returns (s': State)
    requires Calm(c, s) && Reachable(c, s) && s.dev.cells == [0, 0] && s.dev.wp == 0
    ensures Reachable(c, s') && s' == On(s, s.dev.(cells := [b, 0], wp := 1), Goto(Writer(s, b, WrWake), Idle))
  {
    WriteStarts(c, s, b);
    WriteCopies(c, s, b);
    var t := s.(dev := s.dev.(cells := [b, 0]));
    assert On(t, t.dev, Writer(t, b, WrAdvance)) == On(s, t.dev, Writer(s, b, WrAdvance));
    WritePublishes(c, t, b);
    var d := t.dev.(wp := 1);
    assert On(t, d, Writer(t, b, WrWrap)) == On(s, d, Writer(s, b, WrWrap));
    WriteWraps(c, s, d, b);
    WriteReturns(c, s, d, b);
    s' := On(s, d, Goto(Writer(s, b, WrWake), Idle));
  }

  // ----- A writer left asleep -----

  const SMALL: Config := RawConfig(2, false)

  const BOTH: File := File(Mode(true, true), false)

  function Resting(fid: nat, file: File): Task {
    Task(Idle, fid, file, 0, [], true, None, None, 0)
  }

  /** A pipe of two cells, opened once by the first of two tasks. */
  function OpenedPipe(): State {
    State(Pipe([0, 0], Some(0), 1, 0, 0, 1, 1), None, [Resting(0, BOTH), Resting(0, BOTH)],
          map[0 := OpenFile(BOTH, Some(0))], {0}, {0}, 1, 1, false)
  }

  lemma OpenRun()
    ensures Reachable(SMALL, OpenedPipe())
  {
    var th := Resting(0, BOTH);
    var s0 := State(Pipe([], None, 0, 0, 0, 0, 0), None, [th, th], map[], {}, {}, 0, 0, false);
    ReachableInit(SMALL, s0);
    var s := s0.(nextFid := 1);
    var s1 := On(s, s.dev, Goto(th, Open(OpenLock)));
    assert s1 == Moved(s, 0, Goto(th, Open(OpenLock)));
    ReachableNext(SMALL, s0, 0, BeginOpen(BOTH), s1);
    Steps(SMALL, s, s.dev, Goto(th, Open(OpenLock)), Goto(th, Open(OpenBody)));
    OpenRunEnds(On(s, s.dev, Goto(th, Open(OpenBody))));
  }

  lemma OpenRunEnds(s2: State)
    requires Reachable(SMALL, s2)
    requires var th := Resting(0, BOTH);
             var tasks := [Goto(th, Open(OpenBody)), th];
             s2 == State(Pipe([], None, 0, 0, 0, 0, 0), Some(0), tasks, map[], {}, {}, 1, 0, false)
    ensures Reachable(SMALL, OpenedPipe())
  {
    var th := Resting(0, BOTH);
    var s3 := OpenedPipe().(files := map[], tasks := [Goto(th, Opened), th], lock := Some(0));
    assert s2.dev.Allocated([0, 0]).Flushed().Counted(BOTH.mode) == s3.dev;
    assert s3.tasks == s2.tasks[0 := Goto(s2.tasks[0], Opened)];
    assert PlainOpenStep(SMALL, s2, 0, [0, 0], s3);
    ReachableNext(SMALL, s2, 0, PlainOpen([0, 0]), s3);
    assert OpenedPipe().tasks == s3.tasks[0 := Goto(s3.tasks[0], Idle)];
    assert FileOpenedStep(SMALL, s3, 0, OpenedPipe());
    ReachableNext(SMALL, s3, 0, FileOpened, OpenedPipe());
  }

  /** The first task queued on the full pipe and asleep. */
  function Sleeper(s: State, b: Byte): Task
    requires 0 < |s.tasks| && 0 in s.files
  {
    Queued(Writer(s, b, WrPrep), Write(WrSleep), s.flushes).(seenRp := Some(0), seenWp := Some(1))
  }

  /** The first task queued on the full pipe, with its unlocked loads done. */
  function Checked(s: State, b: Byte): Task
    requires 0 < |s.tasks| && 0 in s.files
  {
    Goto(Sleeper(s, b), Write(WrCheck))
  }

  lemma WriterChecks(c: Config, s: State, b: Byte)
    requires Calm(c, s) && s.dev.wp == 1 && Reachable(c, On(s, s.dev, Writer(s, b, WrPrep)))
    ensures Reachable(c, On(s, s.dev, Checked(s, b)))
  {
    var q := Queued(Writer(s, b, WrPrep), Write(WrCheck), s.flushes);
    Steps(c, s, s.dev, Writer(s, b, WrPrep), q);
    Steps(c, s, s.dev, q, q.(seenRp := Some(0)));
    Steps(c, s, s.dev, q.(seenRp := Some(0)), Checked(s, b));
  }

  lemma WriterSleeps(c: Config, s: State, b: Byte)
    requires Calm(c, s) && s.dev.wp == 1 && Reachable(c, On(s, s.dev, Checked(s, b)))
    ensures Reachable(c, On(s, s.dev, Sleeper(s, b)))
  {
    assert SpaceFree(2, 0, 1) == 0;
    Steps(c, s, s.dev, Checked(s, b), Sleeper(s, b));
  }

  /** The second task opens the pipe and puts its pointers back to the start. */
  lemma SecondOpen(s: State) returns (s': State)
    requires Reachable(SMALL, s) && |s.tasks| == 2 && s.lock == None && s.tasks[1].pc == Idle
    requires s.dev.live.Some? && Countable(s.dev)
    ensures Reachable(SMALL, s') && |s'.tasks| == 2 && s'.tasks[0] == s.tasks[0] && s'.tasks[1].pc == Opened
    ensures s'.dev.live.Some? && s'.dev.rp == 0 && s'.dev.wp == 0
  {
    var th := s.tasks[1].(fid := s.nextFid, file := BOTH);
    var s1 := Moved(s.(nextFid := s.nextFid + 1), 1, Goto(th, Open(OpenLock)));
    ReachableNext(SMALL, s, 1, BeginOpen(BOTH), s1);
    var s2 := Moved(s1, 1, Goto(th, Open(OpenBody)));
    ReachableNext(SMALL, s1, 1, Control(Goto(th, Open(OpenBody))), s2);
    s' := Moved(s2.(dev := s.dev.Flushed().Counted(BOTH.mode), readTokens := Add(s2.readTokens, th.fid, true),
                    writeTokens := Add(s2.writeTokens, th.fid, true), flushes := s2.flushes + 1),
                1, Goto(th, Opened));
    ReachableNext(SMALL, s2, 1, PlainOpen([0, 0]), s');
  }

  /** A writer has queued on a full pipe and made its loads. */
  lemma CheckedRun() returns (full: State)
    ensures Calm(SMALL, full) && full.dev.wp == 1 && |full.tasks| == 2 && full.tasks[1].pc == Idle
    ensures Countable(full.dev)
    ensures Reachable(SMALL, On(full, full.dev, Checked(full, 8)))
  {
    OpenRun();
    full := WriteFills(SMALL, OpenedPipe(), 7);
    WriteStarts(SMALL, full, 8);
    WriterChecks(SMALL, full, 8);
  }

  /** A writer can be asleep next to an empty pipe with nobody about to wake it. */
  lemma StrandedWriterReachable()
    ensures exists s :: Reachable(SMALL, s) && Stranded(SMALL, s, 0) && Empty(SMALL, s.dev) && !WriteOut(s)
  {
    var full := CheckedRun();
    WriterSleeps(SMALL, full, 8);
    var s := SecondOpen(On(full, full.dev, Sleeper(full, 8)));
    assert !ReadOut(s) && !WriteOut(s);
    assert Stranded(SMALL, s, 0);
  }

  /** It can also strand itself, by going to sleep after the open that made room. */
  lemma LateSleeperReachable()
    ensures exists s, s', next :: Reachable(SMALL, s) && Step(SMALL, s, 0, Control(next), s')
                                  && !Stranded(SMALL, s, 0) && Stranded(SMALL, s', 0)
  {
    var full := CheckedRun();
    var s := SecondOpen(On(full, full.dev, Checked(full, 8)));
    var next := Sleeper(full, 8);
    assert SpaceFree(2, 0, 1) == 0;
    var s' := Moved(s, 0, next);
    assert WriteControl(SMALL, s, s.tasks[0], next);
    assert Step(SMALL, s, 0, Control(next), s');
    assert !ReadOut(s') && Stranded(SMALL, s', 0);
  }

  // ----- A read from a freed buffer -----

  const FIFO: Config := RawConfig(2, true)

  const WRITING: File := File(Mode(false, true), false)

  const READING: File := File(Mode(true, false), false)

  /** An open of pipe 3 by the first task up to the point where it is counted. */
  lemma FifoOpens(s: State, file: File) returns (th: Task, s': State)
    requires Reachable(FIFO, s) && Alone(s) && s.lock == None && s.tasks[0].pc == Idle
    requires file.mode.read != file.mode.write && !file.nonblock && Countable(s.dev)
    ensures var pc := Fifo(if file.mode.read then FifoTest else FifoAlloc);
            th == s.tasks[0].(pc := pc, fid := s.nextFid, file := file)
    ensures s' == On(s.(nextFid := s.nextFid + 1, readTokens := Add(s.readTokens, s.nextFid, file.mode.read),
                        writeTokens := Add(s.writeTokens, s.nextFid, !file.mode.read)),
                     s.dev.CountedOnce(file.mode), th)
    ensures Reachable(FIFO, s')
  {
    var u := s.(nextFid := s.nextFid + 1);
    var th0 := s.tasks[0].(pc := Fifo(FifoLock), fid := s.nextFid, file := file);
    var s1 := On(u, u.dev, th0);
    assert s1 == Moved(u, 0, th0);
    ReachableNext(FIFO, s, 0, BeginOpen(file), s1);
    Steps(FIFO, u, u.dev, th0, Goto(th0, Fifo(FifoEnter)));
    th := Goto(th0, Fifo(if file.mode.read then FifoTest else FifoAlloc));
    var s2 := On(u, u.dev, Goto(th0, Fifo(FifoEnter)));
    s' := On(s.(nextFid := s.nextFid + 1, readTokens := Add(s.readTokens, s.nextFid, file.mode.read),
                writeTokens := Add(s.writeTokens, s.nextFid, !file.mode.read)),
             s.dev.CountedOnce(file.mode), th);
    assert FifoCountStep(FIFO, s2, 0, s');
    ReachableNext(FIFO, s2, 0, FifoCount, s');
  }

  /** What an open that is done leaves behind. */
  lemma FifoOpened(s: State, d: Pipe, th: Task) returns (s': State)
    requires Alone(s) && th.pc == Opened && Reachable(FIFO, On(s, d, th))
    ensures s' == On(s.(files := s.files[th.fid := OpenFile(th.file, d.live)]), d, Goto(th, Idle))
    ensures Reachable(FIFO, s')
  {
    s' := On(s.(files := s.files[th.fid := OpenFile(th.file, d.live)]), d, Goto(th, Idle));
    assert FileOpenedStep(FIFO, On(s, d, th), 0, s');
    ReachableNext(FIFO, On(s, d, th), 0, FileOpened, s');
  }

  /** One task has pipe 3 open for writing. */
  function WriterOpen(): State {
    State(Pipe([0, 0], Some(0), 1, 0, 0, 0, 1), None, [Resting(0, WRITING)],
          map[0 := OpenFile(WRITING, Some(0))], {}, {0}, 1, 1, false)
  }

  lemma WriterOpens()
    ensures Reachable(FIFO, WriterOpen())
  {
    var s0 := State(Pipe([], None, 0, 0, 0, 0, 0), None, [Resting(0, WRITING)], map[], {}, {}, 0, 0, false);
    ReachableInit(FIFO, s0);
    var th, s1 := FifoOpens(s0, WRITING);
    var base := WriterOpen().(files := map[]);
    var s2 := On(base, base.dev, Goto(th, Fifo(FifoWake)));
    assert FifoAllocateStep(FIFO, s1, 0, [0, 0], s2);
    ReachableNext(FIFO, s1, 0, FifoAllocate([0, 0]), s2);
    var s3 := On(base, base.dev, Goto(th, Opened));
    assert FifoWakeupStep(FIFO, s2, 0, s3);
    ReachableNext(FIFO, s2, 0, FifoWakeup, s3);
    var s4 := FifoOpened(base, base.dev, Goto(th, Opened));
    assert s4.tasks == WriterOpen().tasks;
  }

  /** The last file goes and the buffer with it; the pointers stay apart. */
  lemma WriterReleases(s: State) returns (s': State)
    requires Reachable(FIFO, s) && |s.tasks| == 1 && s.lock == None && s.tasks[0].pc == Idle
    requires s.files == map[0 := OpenFile(WRITING, Some(0))] && s.dev.readers == 0 && s.dev.writers == 1
    ensures Reachable(FIFO, s') && |s'.tasks| == 1 && s'.lock == None && s'.tasks[0].pc == Idle
    ensures s'.dev == s.dev.(writers := 0, live := None, cells := []) && s'.files == map[]
  {
    var th := s.tasks[0].(pc := Release(RelLock), fid := 0, file := WRITING);
    var u := s.(files := map[]);
    assert s.files - {0} == map[];
    var s1 := On(u, s.dev, th);
    assert BeginReleaseStep(FIFO, s, 0, 0, s1);
    ReachableNext(FIFO, s, 0, BeginRelease(0), s1);
    Steps(FIFO, u, s.dev, th, Goto(th, Release(RelBody)));
    var s2 := On(u, s.dev, Goto(th, Release(RelBody)));
    s' := On(u.(writeTokens := Remove(u.writeTokens, 0, true), flushes := u.flushes + 1),
             s.dev.(writers := 0, live := None, cells := []), Goto(th, Idle));
    assert ReleaseStep(FIFO, s2, 0, s');
    ReachableNext(FIFO, s2, 0, ReleaseBody, s');
  }

  /** A write open without memory fails and stays counted. */
  lemma WriterFails(s: State) returns (s': State)
    requires Reachable(FIFO, s) && |s.tasks| == 1 && s.lock == None && s.tasks[0].pc == Idle
    requires s.dev.live.None? && Countable(s.dev)
    ensures Reachable(FIFO, s') && |s'.tasks| == 1 && s'.lock == None && s'.tasks[0].pc == Idle
    ensures s'.dev == s.dev.(writers := s.dev.writers + 1) && s'.nomem
  {
    var th, s1 := FifoOpens(s, WRITING);
    s' := Moved(s1.(nomem := true), 0, Goto(th, Idle));
    assert FifoNoMemoryStep(FIFO, s1, 0, s');
    ReachableNext(FIFO, s1, 0, FifoNoMemory, s');
  }

  /** A read open finds a writer counted and succeeds. */
  lemma ReaderOpens(s: State) returns (s': State)
    requires Reachable(FIFO, s) && |s.tasks| == 1 && s.lock == None && s.tasks[0].pc == Idle
    requires 0 < s.dev.writers && Countable(s.dev)
    ensures Reachable(FIFO, s') && |s'.tasks| == 1 && s'.lock == None && s'.tasks[0].pc == Idle
    ensures s'.dev == s.dev.(readers := s.dev.readers + 1) && s'.nomem == s.nomem
    ensures s.nextFid in s'.files && s'.files[s.nextFid].file == READING
  {
    var th, s1 := FifoOpens(s, READING);
    Steps(FIFO, s1, s1.dev, th, Goto(th, Opened));
    s' := FifoOpened(s1, s1.dev, Goto(th, Opened));
  }

  /** A read gets past the test for an empty ring. */
  lemma ReaderReads(s: State, f: nat) returns (s': State)
    requires Reachable(FIFO, s) && |s.tasks| == 1 && s.lock == None && s.tasks[0].pc == Idle
    requires f in s.files && s.files[f].file == READING && s.dev.rp != s.dev.wp
    ensures s' == On(s, s.dev, s.tasks[0].(pc := Read(RdCopy), fid := f, file := READING, count := 1))
    ensures Reachable(FIFO, s')
  {
    var th := s.tasks[0].(pc := Read(RdLock), fid := f, file := READING, count := 1);
    var s1 := On(s, s.dev, th);
    assert BeginReadStep(FIFO, s, 0, f, 1, s1);
    ReachableNext(FIFO, s, 0, BeginRead(f, 1), s1);
    Steps(FIFO, s, s.dev, th, Goto(th, Read(RdEnter)));
    Steps(FIFO, s, s.dev, Goto(th, Read(RdEnter)), Goto(th, Read(RdTest)));
    Steps(FIFO, s, s.dev, Goto(th, Read(RdTest)), Goto(th, Read(RdCopy)));
    s' := On(s, s.dev, Goto(th, Read(RdCopy)));
  }

  /**
   On pipe 3 a read can get to its copy with the buffer gone, and then delivers
   whatever byte is there.
   */
  lemma FreedReadReachable(b: Byte)
    ensures exists s, s' :: Reachable(FIFO, s) && 0 < |s.tasks| && s.dev.live.None? && s.nomem
                            && Step(FIFO, s, 0, ReadAdvance, s') && EventOf(s, 0, ReadAdvance) == Stray([b])
  {
    WriterOpens();
    var s1 := WriteFills(FIFO, WriterOpen(), 7);
    var s2 := WriterReleases(s1);
    var s3 := WriterFails(s2);
    var s4 := ReaderOpens(s3);
    var s5 := ReaderReads(s4, s3.nextFid);
    var th := s5.tasks[0];
    Steps(FIFO, s4, s4.dev, th, th.(pc := Read(RdAdvance), data := [b]));
    var s := On(s4, s4.dev, th.(pc := Read(RdAdvance), data := [b]));
    var s' := Moved(s.(dev := s.dev.(rp := s.dev.rp + 1)), 0, Goto(s.tasks[0], Read(RdWrap)));
    assert Step(FIFO, s, 0, ReadAdvance, s');
  }

  // ----- An opener left asleep -----

  /** An opener that finds no writer goes to sleep. */
  lemma OpenerWaits(u: State, th: Task) returns (q: Task)
    requires Alone(u) && u.dev.writers == 0 && th.pc == Fifo(FifoTest) && Reachable(FIFO, On(u, u.dev, th))
    ensures AsleepIn(q, Fifo(FifoSleep)) && Reachable(FIFO, On(u, u.dev, q))
  {
    Steps(FIFO, u, u.dev, th, Goto(th, Fifo(FifoWait)));
    Steps(FIFO, u, u.dev, Goto(th, Fifo(FifoWait)), Goto(th, Fifo(FifoPrep)));
    var c := Queued(th, Fifo(FifoCheck), u.flushes);
    Steps(FIFO, u, u.dev, Goto(th, Fifo(FifoPrep)), c);
    q := Goto(c, Fifo(FifoSleep));
    Steps(FIFO, u, u.dev, c, q);
  }

  /** A read open of pipe 3 before any write open. */
  lemma OpenerSleeps() returns (s: State)
    ensures Reachable(FIFO, s) && |s.tasks| == 2 && AsleepIn(s.tasks[0], Fifo(FifoSleep)) && s.tasks[1].pc == Idle
    ensures s.lock == None && s.dev == Pipe([], None, 0, 0, 0, 1, 0)
  {
    var s0 := State(Pipe([], None, 0, 0, 0, 0, 0), None, [Resting(0, READING), Resting(0, READING)],
                    map[], {}, {}, 0, 0, false);
    ReachableInit(FIFO, s0);
    var th, u := FifoOpens(s0, READING);
    assert On(u, u.dev, th) == u;
    var q := OpenerWaits(u, th);
    s := On(u, u.dev, q);
  }

  /** A write open by the second task is counted. */
  lemma SecondWriterCounts(s: State) returns (s': State)
    requires Reachable(FIFO, s) && |s.tasks| == 2 && s.lock == None && s.tasks[1].pc == Idle
    requires s.dev == Pipe([], None, 0, 0, 0, 1, 0)
    ensures Reachable(FIFO, s') && |s'.tasks| == 2 && s'.tasks[0] == s.tasks[0] && s'.lock == Some(1)
    ensures s'.tasks[1].pc == Fifo(FifoAlloc) && s'.dev == s.dev.(writers := 1)
  {
    var th := s.tasks[1].(pc := Fifo(FifoLock), fid := s.nextFid, file := WRITING);
    var s1 := Moved(s.(nextFid := s.nextFid + 1), 1, th);
    ReachableNext(FIFO, s, 1, BeginOpen(WRITING), s1);
    var s2 := Moved(s1, 1, Goto(th, Fifo(FifoEnter)));
    ReachableNext(FIFO, s1, 1, Control(Goto(th, Fifo(FifoEnter))), s2);
    s' := Moved(s2.(dev := s.dev.(writers := 1), writeTokens := Add(s2.writeTokens, th.fid, true)), 1,
                Goto(th, Fifo(FifoAlloc)));
    assert FifoCountStep(FIFO, s2, 1, s');
    ReachableNext(FIFO, s2, 1, FifoCount, s');
  }

  /** Without memory it leaves, and nobody wakes the opener. */
  lemma ForgottenOpenerReachable()
    ensures exists s :: Reachable(FIFO, s) && Forgotten(s, 0)
  {
    var s0 := OpenerSleeps();
    var s1 := SecondWriterCounts(s0);
    var s := Moved(s1.(nomem := true), 1, Goto(s1.tasks[1], Idle));
    assert FifoNoMemoryStep(FIFO, s1, 1, s);
    ReachableNext(FIFO, s1, 1, FifoNoMemory, s);
    assert Forgotten(s, 0);
  }
}

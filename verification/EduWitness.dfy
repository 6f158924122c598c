/**
 Runs of the handshake that show two exceptions to be real: a session that a
 signal ends leaves the waiting bit up for good, and a time-out that comes too
 late for one session makes the next one fail.
 */
module EduWitness {
  import opened Common
  import opened EduDevice
  import opened EduProtocol
  import opened EduTheorems

  ghost predicate Reachable(s: State) {
    exists run :: Run(run) && run[|run| - 1] == s
  }

  lemma Take(s: State, t: nat, a: Input, s': State)
    requires Reachable(s) && t < |s.tasks| && s' == TaskStep(s, t, a)
    ensures Reachable(s')
  {
    var run :| Run(run) && run[|run| - 1] == s;
    var run' := run + [s'];
    forall k | 0 <= k < |run'| - 1
      ensures StepAt(run', k)
    {
      assert k < |run| - 1 ==> StepAt(run, k);
    }
    assert Run(run');
  }

  /** `s` with task `t` at `pc`, and the device, the lock and the queue as given. */
  function At(s: State, t: nat, pc: Pc, e: Edu, lock: Option<nat>, queue: set<nat>): State
    requires t < |s.tasks|
  {
    s.(dev := e, lock := lock, queue := queue, tasks := s.tasks[t := pc])
  }

  /** A step of task `t` that does not touch the interrupt thread. */
  lemma Goes(s: State, t: nat, pc: Pc, e: Edu, lock: Option<nat>, queue: set<nat>, a: Input,
             pc': Pc, e': Edu, lock': Option<nat>, queue': set<nat>)
    requires t < |s.tasks| && Reachable(At(s, t, pc, e, lock, queue))
    requires var u := At(s, t, pc, e, lock, queue);
             TaskStep(u, t, a) == Move(u, t, pc').(dev := e', lock := lock', queue := queue')
    ensures Reachable(At(s, t, pc', e', lock', queue'))
  {
    var u := At(s, t, pc, e, lock, queue);
    assert u.tasks[t := pc'] == s.tasks[t := pc'];
    Take(u, t, a, At(s, t, pc', e', lock', queue'));
  }

  lemma QueueSets(t: nat)
    ensures {} + {t} == {t} && {t} - {t} == {}
  {
  }

  /** Any state is one with task `t` where it is. */
  lemma Stays(s: State, t: nat, pc: Pc)
    requires Reachable(s) && t < |s.tasks| && s.tasks[t] == pc
    ensures Reachable(At(s, t, pc, s.dev, s.lock, s.queue))
  {
    assert s.tasks[t := pc] == s.tasks;
    assert At(s, t, pc, s.dev, s.lock, s.queue) == s;
  }

  /** Task `t` is idle and nobody has the lock or waits. */
  ghost predicate Calm(s: State, t: nat) {
    Reachable(s) && t < |s.tasks| && s.tasks[t] == Idle && s.lock == None && s.queue == {}
  }

  lemma SessionRaises(s: State, t: nat)
    requires Calm(s, t) && !s.dev.waiting && !s.dev.shutdown
    ensures Reachable(At(s, t, Session(SRaise), s.dev, Some(t), {}))
  {
    var e := s.dev;
    Stays(s, t, Idle);
    Goes(s, t, Idle, e, None, {}, BeginSession, Session(SLock), e, None, {});
    Goes(s, t, Session(SLock), e, None, {}, NoInput, Session(SEnter), e, Some(t), {});
    Goes(s, t, Session(SEnter), e, Some(t), {}, NoInput, Session(SRaise), e, Some(t), {});
  }

  /** A session gets in and starts to wait. */
  lemma SessionEnters(s: State, t: nat)
    requires Calm(s, t) && !s.dev.waiting && !s.dev.shutdown
    ensures Reachable(At(s, t, Session(SLoop(s.dev.timedOut)), Started(s.dev), Some(t), {}))
  {
    var e, z := s.dev, s.dev.timedOut;
    var r := e.(intr := e.intr + {TEST_BIT});
    var w := r.(waiting := true);
    SessionRaises(s, t);
    Goes(s, t, Session(SRaise), e, Some(t), {}, NoInput, Session(SSet), r, Some(t), {});
    Goes(s, t, Session(SSet), r, Some(t), {}, NoInput, Session(SArm(z)), w, Some(t), {});
    Goes(s, t, Session(SArm(z)), w, Some(t), {}, NoInput, Session(SLoop(z)), Started(e), Some(t), {});
  }

  lemma SessionUnlocks(s: State, t: nat, e: Edu)
    requires t < |s.tasks| && !e.Done() && Reachable(At(s, t, Session(SLoop(false)), e, Some(t), {}))
    ensures Reachable(At(s, t, Session(SPrepare(false)), e, None, {}))
  {
    Goes(s, t, Session(SLoop(false)), e, Some(t), {}, NoInput, Session(SPrepare(false)), e, None, {});
  }

  // ----- A session that a signal ends -----

  lemma SessionQueues(s: State, t: nat, e: Edu)
    requires t < |s.tasks| && Reachable(At(s, t, Session(SPrepare(false)), e, None, {}))
    ensures Reachable(At(s, t, Session(SCheckOk(false)), e, None, {t}))
  {
    QueueSets(t);
    Goes(s, t, Session(SPrepare(false)), e, None, {}, NoInput, Session(SCheckOk(false)), e, None, {t});
  }

  lemma SessionChecks(s: State, t: nat, e: Edu)
    requires t < |s.tasks| && !e.Done() && Reachable(At(s, t, Session(SCheckOk(false)), e, None, {t}))
    ensures Reachable(At(s, t, Session(SCheckShutdown(false)), e, None, {t}))
  {
    Goes(s, t, Session(SCheckOk(false)), e, None, {t}, NoInput, Session(SCheckTimedOut(false)), e, None, {t});
    Goes(s, t, Session(SCheckTimedOut(false)), e, None, {t}, NoInput, Session(SCheckShutdown(false)), e, None, {t});
  }

  lemma SessionSleeps(s: State, t: nat, e: Edu)
    requires t < |s.tasks| && !e.Done() && Reachable(At(s, t, Session(SCheckOk(false)), e, None, {t}))
    ensures Reachable(At(s, t, Session(SSleep(false)), e, None, {t}))
  {
    SessionChecks(s, t, e);
    Goes(s, t, Session(SCheckShutdown(false)), e, None, {t}, NoInput, Session(SSleep(false)), e, None, {t});
  }

  lemma SessionLeavesQueue(s: State, t: nat, e: Edu)
    requires t < |s.tasks| && Reachable(At(s, t, Session(SFinishWait(false)), e, None, {t}))
    ensures Reachable(At(s, t, Session(SSignal(false)), e, None, {}))
  {
    QueueSets(t);
    Goes(s, t, Session(SFinishWait(false)), e, None, {t}, NoInput, Session(SSignal(false)), e, None, {});
  }

  lemma SignalEnds(s: State, t: nat, e: Edu)
    requires t < |s.tasks| && Reachable(At(s, t, Session(SSleep(false)), e, None, {t}))
    ensures Reachable(At(s, t, Idle, e, None, {}))
  {
    Goes(s, t, Session(SSleep(false)), e, None, {t}, Signal, Session(SFinishWait(false)), e, None, {t});
    SessionLeavesQueue(s, t, e);
    Goes(s, t, Session(SSignal(false)), e, None, {}, Signal, Idle, e, None, {});
  }

  /** A fresh device with `n` idle tasks. */
  function Fresh(n: nat): State {
    State(Edu(false, false, false, false, {}, false), None, false, {}, seq(n, _ => Idle))
  }

  lemma Starts(n: nat)
    ensures Reachable(Fresh(n))
  {
    assert Run([Fresh(n)]) && [Fresh(n)][|[Fresh(n)]| - 1] == Fresh(n);
  }

  /** A signal that arrives while a session waits does abandon the device. */
  lemma AbandonedIsReachable()
    ensures exists s :: Reachable(s) && Abandoned(s)
  {
    Starts(1);
    var s := Fresh(1);
    var e := Started(s.dev);
    SessionEnters(s, 0);
    SessionUnlocks(s, 0, e);
    SessionQueues(s, 0, e);
    SessionSleeps(s, 0, e);
    SignalEnds(s, 0, e);
    assert Abandoned(At(s, 0, Idle, e, None, {}));
  }

  // ----- A time-out that comes too late -----

  /** The timer expires; its callback has yet to get the lock. */
  lemma TimerExpires(s: State, t: nat)
    requires Calm(s, t) && s.dev.timer
    ensures Reachable(At(s, t, Timer(TLock), s.dev.(timer := false), None, {}))
  {
    Stays(s, t, Idle);
    Goes(s, t, Idle, s.dev, None, {}, BeginTimer, Timer(TLock), s.dev.(timer := false), None, {});
  }

  lemma HandlerStarts(s: State, t: nat)
    requires Calm(s, t) && Raised(s.dev.intr)
    ensures Reachable(At(s, t, Irq(HSetOk(s.dev.intr)), s.dev.(timer := false), Some(t), {}))
  {
    var e, r := s.dev, s.dev.intr;
    Stays(s, t, Idle);
    Goes(s, t, Idle, e, None, {}, BeginIrq, Irq(HTryLock(r)), e, None, {});
    Goes(s, t, Irq(HTryLock(r)), e, None, {}, NoInput, Irq(HDelTimer(r)), e, Some(t), {});
    Goes(s, t, Irq(HDelTimer(r)), e, Some(t), {}, NoInput, Irq(HSetOk(r)), e.(timer := false), Some(t), {});
  }

  lemma HandlerServes(s: State, t: nat, e: Edu, r: set<nat>)
    requires t < |s.tasks| && Reachable(At(s, t, Irq(HSetOk(r)), e.(timer := false), Some(t), {}))
    ensures Reachable(At(s, t, Irq(HWake), Handled(e, r), Some(t), {}))
  {
    var d := e.(timer := false);
    Goes(s, t, Irq(HSetOk(r)), d, Some(t), {}, NoInput, Irq(HAck(r)), d.(ok := true), Some(t), {});
    Goes(s, t, Irq(HAck(r)), d.(ok := true), Some(t), {}, NoInput, Irq(HWake), Handled(e, r), Some(t), {});
  }

  /** The interrupt is handled. */
  lemma HandlerRuns(s: State, t: nat)
    requires Calm(s, t) && Raised(s.dev.intr)
    ensures Reachable(At(s, t, Idle, Handled(s.dev, s.dev.intr), None, {}))
  {
    var e := Handled(s.dev, s.dev.intr);
    HandlerStarts(s, t);
    HandlerServes(s, t, s.dev, s.dev.intr);
    Goes(s, t, Irq(HWake), e, Some(t), {}, NoInput, Irq(HUnlock), e, Some(t), {});
    Goes(s, t, Irq(HUnlock), e, Some(t), {}, NoInput, Idle, e, None, {});
  }

  lemma SessionRelocks(s: State, t: nat, e: Edu)
    requires t < |s.tasks| && Reachable(At(s, t, Session(SSignal(false)), e, None, {}))
    ensures Reachable(At(s, t, Session(SLoop(false)), e, Some(t), {}))
  {
    Goes(s, t, Session(SSignal(false)), e, None, {}, NoInput, Session(SRelock(false)), e, None, {});
    Goes(s, t, Session(SRelock(false)), e, None, {}, NoInput, Session(SLoop(false)), e, Some(t), {});
  }

  /** A session on its way to sleep sees the OK bit and takes the lock again. */
  lemma SessionWakes(s: State, t: nat)
    requires Reachable(s) && t < |s.tasks| && s.tasks[t] == Session(SPrepare(false)) && s.lock == None && s.queue == {}
    requires s.dev.ok
    ensures Reachable(At(s, t, Session(SLoop(false)), s.dev, Some(t), {}))
  {
    var e := s.dev;
    Stays(s, t, Session(SPrepare(false)));
    SessionQueues(s, t, e);
    Goes(s, t, Session(SCheckOk(false)), e, None, {t}, NoInput, Session(SFinishWait(false)), e, None, {t});
    SessionLeavesQueue(s, t, e);
    SessionRelocks(s, t, e);
  }

  lemma SessionReports(s: State, t: nat, e: Edu)
    requires t < |s.tasks| && e.Done() && Reachable(At(s, t, Session(SLoop(false)), e, Some(t), {}))
    ensures Reachable(At(s, t, Session(SClearWait), e, Some(t), {}))
  {
    Goes(s, t, Session(SLoop(false)), e, Some(t), {}, NoInput, Session(SReport(false)), e, Some(t), {});
    Goes(s, t, Session(SReport(false)), e, Some(t), {}, NoInput, Session(SClearWait), e, Some(t), {});
  }

  lemma SessionClears(s: State, t: nat, e: Edu)
    requires t < |s.tasks| && Reachable(At(s, t, Session(SClearWait), e, Some(t), {}))
    ensures Reachable(At(s, t, Session(SUnlock), Cleared(e), Some(t), {}))
  {
    var w := e.(waiting := false);
    var o := w.(ok := false);
    Goes(s, t, Session(SClearWait), e, Some(t), {}, NoInput, Session(SClearOk), w, Some(t), {});
    Goes(s, t, Session(SClearOk), w, Some(t), {}, NoInput, Session(SClearTimedOut), o, Some(t), {});
    Goes(s, t, Session(SClearTimedOut), o, Some(t), {}, NoInput, Session(SUnlock), Cleared(e), Some(t), {});
  }

  /** It reports and clears the bits. */
  lemma SessionEnds(s: State, t: nat, e: Edu)
    requires t < |s.tasks| && e.Done() && Reachable(At(s, t, Session(SLoop(false)), e, Some(t), {}))
    ensures Reachable(At(s, t, Idle, Cleared(e), None, {}))
  {
    SessionReports(s, t, e);
    SessionClears(s, t, e);
    Goes(s, t, Session(SUnlock), Cleared(e), Some(t), {}, NoInput, Idle, Cleared(e), None, {});
  }

  /** Only now the callback gets the lock, finds no interrupt and times out. */
  lemma TimerRuns(s: State, t: nat)
    requires Reachable(s) && t < |s.tasks| && s.tasks[t] == Timer(TLock) && s.lock == None && s.queue == {}
    requires !Raised(s.dev.intr)
    ensures Reachable(At(s, t, Idle, s.dev.(timedOut := true), None, {}))
  {
    var e, o := s.dev, s.dev.(timedOut := true);
    var quiet := ReadRegs(Regs(false, false, false, false));
    Stays(s, t, Timer(TLock));
    Goes(s, t, Timer(TLock), e, None, {}, NoInput, Timer(TRead), e, Some(t), {});
    Goes(s, t, Timer(TRead), e, Some(t), {}, NoInput, Timer(TRegs), e, Some(t), {});
    Goes(s, t, Timer(TRegs), e, Some(t), {}, quiet, Timer(TSet), e, Some(t), {});
    Goes(s, t, Timer(TSet), e, Some(t), {}, NoInput, Timer(TWake), o, Some(t), {});
    Goes(s, t, Timer(TWake), o, Some(t), {}, NoInput, Timer(TUnlock), o, Some(t), {});
    Goes(s, t, Timer(TUnlock), o, Some(t), {}, NoInput, Idle, o, None, {});
  }

  /** A session is over, and the callback of its timer has left a time-out behind. */
  lemma LateTimeout() returns (s: State)
    ensures Calm(s, 0) && !s.dev.waiting && !s.dev.ok && !s.dev.shutdown && s.dev.timedOut
  {
    Starts(3);
    var e := Started(Fresh(3).dev);
    SessionEnters(Fresh(3), 0);
    SessionUnlocks(Fresh(3), 0, e);
    var s1 := At(Fresh(3), 0, Session(SPrepare(false)), e, None, {});
    TimerExpires(s1, 2);
    var s2 := At(s1, 2, Timer(TLock), e.(timer := false), None, {});
    HandlerRuns(s2, 1);
    var o := Handled(s2.dev, s2.dev.intr);
    var s3 := At(s2, 1, Idle, o, None, {});
    SessionWakes(s3, 0);
    SessionEnds(s3, 0, o);
    var s4 := At(s3, 0, Idle, Cleared(o), None, {});
    TimerRuns(s4, 2);
    s := At(s4, 2, Idle, Cleared(o).(timedOut := true), None, {});
  }

  /** The next session is about to report a failure although its interrupt is still to come. */
  lemma OldTimeoutFailsSession()
    ensures exists s :: Reachable(s) && 0 < |s.tasks| && s.tasks[0] == Session(SReport(true))
                        && !s.dev.ok && !s.dev.shutdown && TEST_BIT in s.dev.intr
  {
    var s := LateTimeout();
    SessionEnters(s, 0);
    Goes(s, 0, Session(SLoop(true)), Started(s.dev), Some(0), {}, NoInput,
         Session(SReport(true)), Started(s.dev), Some(0), {});
    assert At(s, 0, Session(SReport(true)), Started(s.dev), Some(0), {}).tasks[0] == Session(SReport(true));
  }
}
